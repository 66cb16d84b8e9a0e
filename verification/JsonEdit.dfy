/**
 The in-place edit of internal/hooks/register.go: bytes are spliced into the user's text at
 parsed offsets, and the result is shown to be the text of the same tree with exactly one
 element or member appended.
 */
module JsonEdit {
  import opened Wrappers
  import opened Json
  import opened JsonScan
  import opened JsonExtents

  // ---- splicing -----------------------------------------------------------------------------------

  function Splice(data: string, at: nat, insert: string): string
    requires at <= |data|
  {
    data[..at] + insert + data[at..]
  }

  lemma SpliceAfter(a: string, s: string, at: nat, insert: string)
    requires at <= |s|
    ensures Splice(a + s, |a| + at, insert) == a + Splice(s, at, insert)
  {
    assert (a + s)[..|a| + at] == a + s[..at];
    assert (a + s)[|a| + at..] == s[at..];
  }

  lemma SpliceBefore(s: string, b: string, at: nat, insert: string)
    requires at <= |s|
    ensures Splice(s + b, at, insert) == Splice(s, at, insert) + b
  {
    assert (s + b)[..at] == s[..at];
    assert (s + b)[at..] == s[at..] + b;
  }

  lemma SpliceWithin(a: string, s: string, b: string, at: nat, insert: string)
    requires at <= |s|
    ensures Splice(a + (s + b), |a| + at, insert) == a + (Splice(s, at, insert) + b)
  {
    SpliceAfter(a, s + b, at, insert);
    SpliceBefore(s, b, at, insert);
  }

  lemma SpliceAtEnd(s: string, insert: string, rest: string)
    ensures Splice(s + rest, |s|, insert) == s + (insert + rest)
  {
    assert (s + rest)[..|s|] == s && (s + rest)[|s|..] == rest;
  }

  // ---- keys ------------------------------------------------------------------------------------------

  predicate IsKey(raw: string, name: string)
    requires ValidBody(raw)
  {
    Decoded(raw) == Codes(name)
  }

  predicate HasKey(ms: Members, name: string)
    requires WellFormedMembers(ms)
  {
    ms.Member? && (IsKey(ms.key, name) || HasKey(ms.rest, name))
  }

  /** The value of the first member with this key, which is the one the code finds. */
  function FirstValue(ms: Members, name: string): (v: Value)
    requires WellFormedMembers(ms) && HasKey(ms, name)
    ensures WellFormed(v) && v < ms
  {
    if IsKey(ms.key, name) then ms.value else FirstValue(ms.rest, name)
  }

  /** Where that value's text begins in the members' text. */
  function ValueOffset(ms: Members, name: string): nat
    requires WellFormedMembers(ms) && HasKey(ms, name)
  {
    if IsKey(ms.key, name) then ValueAt(ms, 0)
    else ValueAt(ms, 0) + |Render(ms.value)| + |ms.after| + 1 + ValueOffset(ms.rest, name)
  }

  function FindSpan(spans: seq<Span>, name: string): Option<Span> {
    if spans == [] then None else if spans[0].key == Codes(name) then Some(spans[0]) else FindSpan(spans[1..], name)
  }

  /** The loop of objectInfo.member. */
  method FindMember(spans: seq<Span>, name: string) returns (found: Option<Span>)
    ensures found == FindSpan(spans, name)
  {
    var i := 0;
    while i < |spans|
      invariant 0 <= i <= |spans| && FindSpan(spans, name) == FindSpan(spans[i..], name)
    {
      if spans[i].key == Codes(name) { return Some(spans[i]); }
      i := i + 1;
    }
    return None;
  }

  lemma {:induction false} FoundSpan(ms: Members, i: nat, name: string)
    requires WellFormedMembers(ms)
    ensures HasKey(ms, name) ==>
              var start := i + ValueOffset(ms, name);
              FindSpan(SpansOf(ms, i), name) == Some(Span(Codes(name), start, start + |Render(FirstValue(ms, name))|))
    ensures !HasKey(ms, name) ==> FindSpan(SpansOf(ms, i), name) == None
    decreases ms
  {
    hide Render, ValidBody, Quoted;
    if ms.Member? {
      var next := FirstSpan(ms, i).valueEnd + |ms.after| + 1;
      FoundSpan(ms.rest, next, name);
      assert SpansOf(ms, i)[1..] == SpansOf(ms.rest, next) && SpansOf(ms, i)[0] == FirstSpan(ms, i);
    }
  }

  lemma {:induction false} FoundText(data: string, i: nat, ms: Members, name: string)
    requires WellFormedMembers(ms) && HasKey(ms, name) && Has(data, i, RenderMembers(ms))
    ensures Has(data, i + ValueOffset(ms, name), Render(FirstValue(ms, name)))
    decreases ms
  {
    hide Has, Render, RenderMembers, ValidBody, Quoted;
    MemberPieces(data, i, ms);
    if !IsKey(ms.key, name) {
      var next := ValueAt(ms, i) + |Render(ms.value)| + |ms.after|;
      MemberTailPieces(data, next, ms.rest);
      FoundText(data, next + 1, ms.rest, name);
    }
  }

  // ---- edits of the tree -------------------------------------------------------------------------------

  function ReplaceFirst(ms: Members, name: string, v: Value): (r: Members)
    requires WellFormedMembers(ms) && HasKey(ms, name) && WellFormed(v)
    ensures WellFormedMembers(r) && r.Member? && HasKey(r, name) && FirstValue(r, name) == v
  {
    if IsKey(ms.key, name) then ms.(value := v) else ms.(rest := ReplaceFirst(ms.rest, name, v))
  }

  function LastAfter(es: Elems): string
    requires es.Elem?
  {
    if es.rest.NoElem? then es.after else LastAfter(es.rest)
  }

  function LastMemberAfter(ms: Members): string
    requires ms.Member?
  {
    if ms.rest.NoMember? then ms.after else LastMemberAfter(ms.rest)
  }

  /** The blank between an object's last value and its closing brace; an empty object's own blank stays in front. */
  function MembersTail(v: Value): string
    requires v.Obj?
  {
    if v.members.NoMember? then "" else LastMemberAfter(v.members)
  }

  function ElemsTail(v: Value): string
    requires v.Arr?
  {
    if v.elems.NoElem? then "" else LastAfter(v.elems)
  }

  /** The new last element takes over the blank that stood before the closing bracket. */
  function AppendTo(es: Elems, before: string, v: Value): (r: Elems)
    requires es.Elem? && WellFormedElems(es) && Blank(before) && WellFormed(v)
    ensures r.Elem? && WellFormedElems(r)
  {
    if es.rest.NoElem? then es.(after := "", rest := Elem(before, v, es.after, NoElem))
      else es.(rest := AppendTo(es.rest, before, v))
  }

  function AppendMemberTo(ms: Members, before: string, key: string, v: Value): (r: Members)
    requires ms.Member? && WellFormedMembers(ms) && Blank(before) && ValidBody(key) && WellFormed(v)
    ensures r.Member? && WellFormedMembers(r)
  {
    if ms.rest.NoMember? then ms.(after := "", rest := Member(before, key, "", " ", v, ms.after, NoMember))
    else ms.(rest := AppendMemberTo(ms.rest, before, key, v))
  }

  /** An array with one more element, on a line of its own. */
  function WithElem(v: Value, before: string, close: string, entry: Value): (r: Value)
    requires v.Arr? && WellFormed(v) && Blank(before) && Blank(close) && WellFormed(entry)
    ensures WellFormed(r) && r.Arr?
  {
    if v.elems.NoElem? then Arr("", Elem(v.gap + before, entry, close, NoElem))
      else v.(elems := AppendTo(v.elems, before, entry))
  }

  function WithMember(v: Value, before: string, close: string, key: string, value: Value): (r: Value)
    requires v.Obj? && WellFormed(v) && Blank(before) && Blank(close) && ValidBody(key) && WellFormed(value)
    ensures WellFormed(r) && r.Obj?
  {
    if v.members.NoMember? then Obj("", Member(v.gap + before, key, "", " ", value, close, NoMember))
    else v.(members := AppendMemberTo(v.members, before, key, value))
  }

  // ---- their texts ----------------------------------------------------------------------------------------

  lemma Regroup(a: string, b: string, c: string, d: string, e: string)
    ensures a + (b + (c + (d + e))) == (a + b + c + d) + e
    ensures a + (b + (c + d)) == (a + b + c) + d
    ensures a + (b + c) == (a + b) + c
  {
  }

  lemma ElemText(es: Elems)
    requires es.Elem?
    ensures RenderElems(es) == es.before + (Render(es.value) + (es.after + ElemTail(es.rest)))
  {
  }

  lemma {:induction false} AppendToText(es: Elems, before: string, v: Value)
    requires es.Elem? && WellFormedElems(es) && Blank(before) && WellFormed(v)
    ensures |LastAfter(es)| <= |RenderElems(es)|
    ensures RenderElems(AppendTo(es, before, v)) ==
        Splice(RenderElems(es), |RenderElems(es)| - |LastAfter(es)|, "," + (before + Render(v)))
    decreases es
  {
    hide WellFormed, Blank, Render, RenderElems, Splice;
    var r := AppendTo(es, before, v);
    var insert := "," + (before + Render(v));
    ElemText(es);
    ElemText(r);
    if es.rest.NoElem? {
      ElemText(r.rest);
      LastElemText(es.before, Render(es.value), before, Render(v), es.after);
      SpliceAtEnd(es.before + Render(es.value), insert, es.after);
    } else {
      AppendToText(es.rest, before, v);
      var inner := RenderElems(es.rest);
      Regroup(es.before, Render(es.value), es.after, ",", inner);
      Regroup(es.before, Render(es.value), es.after, ",", RenderElems(r.rest));
      SpliceAfter(es.before + Render(es.value) + es.after + ",", inner, |inner| - |LastAfter(es.rest)|, insert);
    }
  }

  lemma LastElemText(a: string, b: string, before: string, text: string, after: string)
    ensures a + (b + (after + "")) == (a + b) + after
    ensures a + (b + ("" + ("," + (before + (text + (after + "")))))) == (a + b) + (("," + (before + text)) + after)
  {
    assert after + "" == after;
    Regroup(a, b, after, "", "");
    var insert := "," + (before + text);
    assert "" + ("," + (before + (text + after))) == insert + after by { Regroup(",", before, text, after, ""); }
    Regroup(a, b, insert + after, "", "");
  }

  function MemberHead(ms: Members): string
    requires ms.Member?
  {
    ms.before + (Quoted(ms.key) + (ms.mid + (":" + ms.gap)))
  }

  lemma MemberText(ms: Members)
    requires ms.Member?
    ensures RenderMembers(ms) == MemberHead(ms) + (Render(ms.value) + (ms.after + MemberTail(ms.rest)))
    ensures |MemberHead(ms)| == ValueAt(ms, 0)
  {
    hide Quoted, Render, MemberTail;
    var rest := Render(ms.value) + (ms.after + MemberTail(ms.rest));
    Regroup(ms.before, Quoted(ms.key), ms.mid, ":", ms.gap + rest);
    Regroup(ms.before, Quoted(ms.key), ms.mid, ":", ms.gap);
    Regroup(ms.before + Quoted(ms.key) + ms.mid + ":", ms.gap, rest, "", "");
  }

  lemma MemberHeadSame(a: Members, b: Members)
    requires a.Member? && b.Member? && a.before == b.before && a.key == b.key && a.mid == b.mid && a.gap == b.gap
    ensures MemberHead(a) == MemberHead(b)
  {
  }

  /** The text of one member as the code writes it. */
  function NewMember(before: string, key: string, text: string): string { before + (Quoted(key) + (": " + text)) }

  /** The text of a new member: the first one of its object closes its line, a further one follows a comma. */
  function MemberInsert(first: bool, before: string, close: string, key: string, text: string): string {
    if first then NewMember(before, key, text) + close else "," + NewMember(before, key, text)
  }

  lemma NewMemberText(before: string, key: string, v: Value, after: string)
    ensures RenderMembers(Member(before, key, "", " ", v, after, NoMember)) == NewMember(before, key, Render(v)) + after
  {
    hide Quoted, Render;
    assert "" + (":" + (" " + (Render(v) + (after + "")))) == (": " + Render(v)) + after;
    Regroup(before, Quoted(key), ": " + Render(v), after, "");
  }

  lemma {:induction false} AppendMemberText(ms: Members, before: string, key: string, v: Value)
    requires ms.Member? && WellFormedMembers(ms) && Blank(before) && ValidBody(key) && WellFormed(v)
    ensures |LastMemberAfter(ms)| <= |RenderMembers(ms)|
    ensures RenderMembers(AppendMemberTo(ms, before, key, v)) ==
              Splice(RenderMembers(ms), |RenderMembers(ms)| - |LastMemberAfter(ms)|,
                "," + NewMember(before, key, Render(v)))
    decreases ms
  {
    hide WellFormed, Blank, Render, Quoted, ValidBody, MemberHead, RenderMembers, NewMember, Splice;
    var r := AppendMemberTo(ms, before, key, v);
    var insert := "," + NewMember(before, key, Render(v));
    MemberText(ms);
    MemberText(r);
    MemberHeadSame(ms, r);
    if ms.rest.NoMember? {
      NewMemberText(before, key, v, ms.after);
      LastMemberText(MemberHead(ms), Render(ms.value), NewMember(before, key, Render(v)), ms.after);
      SpliceAtEnd(MemberHead(ms) + Render(ms.value), insert, ms.after);
    } else {
      AppendMemberText(ms.rest, before, key, v);
      var inner := RenderMembers(ms.rest);
      Regroup(MemberHead(ms), Render(ms.value), ms.after, ",", inner);
      Regroup(MemberHead(ms), Render(ms.value), ms.after, ",", RenderMembers(r.rest));
      SpliceAfter(MemberHead(ms) + Render(ms.value) + ms.after + ",", inner, |inner| - |LastMemberAfter(ms.rest)|,
        insert);
    }
  }

  lemma LastMemberText(head: string, value: string, member: string, after: string)
    ensures head + (value + (after + "")) == (head + value) + after
    ensures head + (value + ("" + ("," + (member + after)))) == (head + value) + (("," + member) + after)
  {
    assert after + "" == after;
    Regroup(head, value, after, "", "");
    assert "" + ("," + (member + after)) == ("," + member) + after;
    Regroup(head, value, ("," + member) + after, "", "");
  }

  lemma NoGap(v: Value)
    requires WellFormed(v)
    ensures v.Arr? && v.elems.Elem? ==> v.gap == ""
    ensures v.Obj? && v.members.Member? ==> v.gap == ""
  {
  }

  lemma ArrayText(v: Value)
    requires v.Arr?
    ensures Render(v) == "[" + (v.gap + (RenderElems(v.elems) + "]"))
  {
  }

  lemma ObjectText(v: Value)
    requires v.Obj?
    ensures Render(v) == "{" + (v.gap + (RenderMembers(v.members) + "}"))
  {
  }

  lemma InsideBrackets(open: string, gap: string, close: string, inner: string)
    ensures open + (gap + ("" + close)) == (open + gap) + close
    ensures open + ("" + ((gap + inner) + close)) == (open + gap) + (inner + close)
    ensures open + ("" + (inner + close)) == open + (inner + close)
  {
    assert gap + ("" + close) == gap + close;
    Regroup(open, gap, close, "", "");
    assert "" + ((gap + inner) + close) == (gap + inner) + close;
    assert (gap + inner) + close == gap + (inner + close);
    Regroup(open, gap, inner + close, "", "");
    assert "" + (inner + close) == inner + close;
  }

  /** A splice among an object's members is one in the object. */
  lemma ObjectSplice(ms: Members, r: Members, at: nat, insert: string)
    requires at <= |RenderMembers(ms)| && RenderMembers(r) == Splice(RenderMembers(ms), at, insert)
    ensures |Render(Obj("", ms))| == |RenderMembers(ms)| + 2
    ensures Render(Obj("", r)) == Splice(Render(Obj("", ms)), 1 + at, insert)
  {
    hide Render, RenderMembers, Splice;
    ObjectText(Obj("", ms));
    ObjectText(Obj("", r));
    InsideBrackets("{", "", "}", RenderMembers(ms));
    InsideBrackets("{", "", "}", RenderMembers(r));
    SpliceWithin("{", RenderMembers(ms), "}", at, insert);
  }

  lemma ArraySplice(es: Elems, r: Elems, at: nat, insert: string)
    requires at <= |RenderElems(es)| && RenderElems(r) == Splice(RenderElems(es), at, insert)
    ensures |Render(Arr("", es))| == |RenderElems(es)| + 2
    ensures Render(Arr("", r)) == Splice(Render(Arr("", es)), 1 + at, insert)
  {
    hide Render, RenderElems, Splice;
    ArrayText(Arr("", es));
    ArrayText(Arr("", r));
    InsideBrackets("[", "", "]", RenderElems(es));
    InsideBrackets("[", "", "]", RenderElems(r));
    SpliceWithin("[", RenderElems(es), "]", at, insert);
  }

  /** The only element of an array that was empty. */
  lemma FirstElemText(gap: string, before: string, entry: Value, close: string)
    ensures RenderElems(Elem(gap + before, entry, close, NoElem)) == gap + (before + (Render(entry) + close))
  {
    hide Render;
    ElemText(Elem(gap + before, entry, close, NoElem));
    assert close + "" == close;
    Regroup(gap, before, Render(entry) + close, "", "");
  }

  lemma FirstElem(v: Value, before: string, close: string, entry: Value)
    requires v.Arr? && v.elems.NoElem? && WellFormed(v) && Blank(before) && Blank(close) && WellFormed(entry)
    ensures 1 <= |Render(v)|
    ensures Render(WithElem(v, before, close, entry)) ==
        Splice(Render(v), |Render(v)| - 1, before + (Render(entry) + close))
  {
    var insert := before + (Render(entry) + close);
    hide WellFormed, Blank, Render, RenderElems, Splice;
    ArrayText(v);
    ArrayText(WithElem(v, before, close, entry));
    EmptyTexts();
    FirstElemText(v.gap, before, entry, close);
    InsideBrackets("[", v.gap, "]", insert);
    SpliceAtEnd("[" + v.gap, insert, "]");
  }

  lemma NextElem(v: Value, before: string, close: string, entry: Value)
    requires v.Arr? && v.elems.Elem? && WellFormed(v) && Blank(before) && Blank(close) && WellFormed(entry)
    ensures |LastAfter(v.elems)| + 1 <= |Render(v)|
    ensures Render(WithElem(v, before, close, entry)) ==
        Splice(Render(v), |Render(v)| - 1 - |LastAfter(v.elems)|, "," + (before + Render(entry)))
  {
    NoGap(v);
    assert WellFormedElems(v.elems);
    hide WellFormed, WellFormedElems, Blank, Render, RenderElems, Splice, AppendTo, LastAfter;
    AppendToText(v.elems, before, entry);
    ArraySplice(v.elems, AppendTo(v.elems, before, entry), |RenderElems(v.elems)| - |LastAfter(v.elems)|,
      "," + (before + Render(entry)));
  }

  /** One more element: one inserted substring before the blank that precedes the bracket. */
  lemma WithElemText(v: Value, before: string, close: string, entry: Value)
    requires v.Arr? && WellFormed(v) && Blank(before) && Blank(close) && WellFormed(entry)
    ensures |ElemsTail(v)| + 1 <= |Render(v)|
    ensures Render(WithElem(v, before, close, entry)) ==
              Splice(Render(v), |Render(v)| - 1 - |ElemsTail(v)|,
                     if v.elems.NoElem? then before + (Render(entry) + close) else "," + (before + Render(entry)))
  {
    hide Render, WellFormed, WithElem, Splice;
    if v.elems.NoElem? { FirstElem(v, before, close, entry); } else { NextElem(v, before, close, entry); }
  }

  lemma EmptyTexts()
    ensures RenderElems(NoElem) == "" && ElemTail(NoElem) == "" && RenderMembers(NoMember) == ""
        && MemberTail(NoMember) == ""
  {
  }

  lemma FirstMember(v: Value, before: string, close: string, key: string, value: Value)
    requires v.Obj? && v.members.NoMember? && WellFormed(v) && Blank(before) && Blank(close) && ValidBody(key)
        && WellFormed(value)
    ensures 1 <= |Render(v)|
    ensures Render(WithMember(v, before, close, key, value)) ==
        Splice(Render(v), |Render(v)| - 1, NewMember(before, key, Render(value)) + close)
  {
    var insert := NewMember(before, key, Render(value)) + close;
    hide WellFormed, Blank, ValidBody, Render, RenderMembers, NewMember, Splice;
    ObjectText(v);
    ObjectText(WithMember(v, before, close, key, value));
    EmptyTexts();
    NewMemberText(v.gap + before, key, value, close);
    FirstMemberText(v.gap, before, key, Render(value), close);
    InsideBrackets("{", v.gap, "}", insert);
    SpliceAtEnd("{" + v.gap, insert, "}");
  }

  lemma NextMember(v: Value, before: string, close: string, key: string, value: Value)
    requires v.Obj? && v.members.Member? && WellFormed(v) && Blank(before) && Blank(close) && ValidBody(key)
        && WellFormed(value)
    ensures |LastMemberAfter(v.members)| + 1 <= |Render(v)|
    ensures Render(WithMember(v, before, close, key, value)) ==
              Splice(Render(v), |Render(v)| - 1 - |LastMemberAfter(v.members)|,
                "," + NewMember(before, key, Render(value)))
  {
    NoGap(v);
    assert WellFormedMembers(v.members);
    hide WellFormed, WellFormedMembers, Blank, ValidBody, Render, RenderMembers, NewMember, Splice, AppendMemberTo,
      LastMemberAfter;
    AppendMemberText(v.members, before, key, value);
    ObjectSplice(v.members, AppendMemberTo(v.members, before, key, value),
      |RenderMembers(v.members)| - |LastMemberAfter(v.members)|,
                 "," + NewMember(before, key, Render(value)));
  }

  /** One more member, likewise. */
  lemma WithMemberText(v: Value, before: string, close: string, key: string, value: Value)
    requires v.Obj? && WellFormed(v) && Blank(before) && Blank(close) && ValidBody(key) && WellFormed(value)
    ensures |MembersTail(v)| + 1 <= |Render(v)|
    ensures Render(WithMember(v, before, close, key, value)) ==
              Splice(Render(v), |Render(v)| - 1 - |MembersTail(v)|,
                MemberInsert(v.members.NoMember?, before, close, key, Render(value)))
  {
    hide Render, WellFormed, WithMember, Splice, ValidBody, NewMember;
    if v.members.NoMember? {
      FirstMember(v, before, close, key, value);
    } else {
      NextMember(v, before, close, key, value);
    }
  }

  lemma FirstMemberText(gap: string, before: string, key: string, text: string, close: string)
    ensures NewMember(gap + before, key, text) + close == gap + (NewMember(before, key, text) + close)
  {
    hide Quoted;
    var rest := Quoted(key) + (": " + text);
    Regroup(gap, before, rest, "", "");
    Regroup(gap, before + rest, close, "", "");
  }

  /** An edit inside the first value with a key is the same splice, further on in the members' text. */
  lemma {:induction false} ReplaceText(ms: Members, name: string, v: Value, at: nat, insert: string)
    requires WellFormedMembers(ms) && HasKey(ms, name) && WellFormed(v)
    requires at <= |Render(FirstValue(ms, name))| && Render(v) == Splice(Render(FirstValue(ms, name)), at, insert)
    ensures ValueOffset(ms, name) + at <= |RenderMembers(ms)|
    ensures RenderMembers(ReplaceFirst(ms, name, v)) == Splice(RenderMembers(ms), ValueOffset(ms, name) + at, insert)
    decreases ms
  {
    hide WellFormed, Render, Quoted, ValidBody, MemberHead, RenderMembers, Splice;
    var r := ReplaceFirst(ms, name, v);
    MemberText(ms);
    MemberText(r);
    MemberHeadSame(ms, r);
    if IsKey(ms.key, name) {
      SpliceWithin(MemberHead(ms), Render(ms.value), ms.after + MemberTail(ms.rest), at, insert);
    } else {
      ReplaceText(ms.rest, name, v, at, insert);
      Regroup(MemberHead(ms), Render(ms.value), ms.after, ",", RenderMembers(ms.rest));
      Regroup(MemberHead(ms), Render(ms.value), ms.after, ",", RenderMembers(r.rest));
      SpliceAfter(MemberHead(ms) + Render(ms.value) + ms.after + ",", RenderMembers(ms.rest),
        ValueOffset(ms.rest, name) + at, insert);
    }
  }

  lemma MembersWellFormed(v: Value)
    requires WellFormed(v)
    ensures v.Obj? ==> WellFormedMembers(v.members)
    ensures v.Arr? ==> WellFormedElems(v.elems)
  {
  }

  lemma HasMember(ms: Members, name: string)
    requires WellFormedMembers(ms) && HasKey(ms, name)
    ensures ms.Member?
  {
  }

  /** The same edit seen from the whole object. */
  lemma ReplaceInObject(v: Value, name: string, w: Value, at: nat, insert: string)
    requires v.Obj? && WellFormed(v) && HasKey(v.members, name) && WellFormed(w)
    requires at <= |Render(FirstValue(v.members, name))|
        && Render(w) == Splice(Render(FirstValue(v.members, name)), at, insert)
    ensures 1 + ValueOffset(v.members, name) + at <= |Render(v)|
    ensures Render(v.(members := ReplaceFirst(v.members, name, w))) ==
        Splice(Render(v), 1 + ValueOffset(v.members, name) + at, insert)
  {
    HasMember(v.members, name);
    hide *;
    NoGap(v);
    MembersWellFormed(v);
    ReplaceText(v.members, name, w, at, insert);
    ObjectSplice(v.members, ReplaceFirst(v.members, name, w), ValueOffset(v.members, name) + at, insert);
  }
}
