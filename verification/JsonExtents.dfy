/** On JSON text the span parser returns exactly the extents of its values, and the text has one tree only. */
module JsonExtents {
  import opened Wrappers
  import opened Json
  import opened JsonScan

  /** A value's text ends here: nothing follows, or a delimiter does. */
  predicate Ends(data: string, j: nat) { j <= |data| && (j < |data| ==> IsDelimiter(data[j])) }

  /** No blank stands here. */
  predicate Solid(data: string, j: nat) { j <= |data| && (j < |data| ==> !IsSpace(data[j])) }

  // ---- tokens -----------------------------------------------------------------------------------------

  lemma {:induction false} SpaceSpan(data: string, i: nat, s: string)
    requires Blank(s) && Has(data, i, s) && Solid(data, i + |s|)
    ensures SkipSpace(data, i) == i + |s|
    decreases |s|
  {
    if s != "" {
      HasAt(data, i, s, 0);
      HasParts(data, i, s[..1], s[1..]);
      assert s == s[..1] + s[1..];
      SpaceSpan(data, i + 1, s[1..]);
    }
  }

  lemma UnicodeSpan(data: string, i: nat, raw: string)
    requires Has(data, i, raw) && UnicodeEscape(raw) && raw[0] == '\\'
    ensures ScanBody(data, i) == ScanBody(data, i + 6)
  {
    hide Has;
    HasAt(data, i, raw, 0);
    HasAt(data, i, raw, 2);
    HasAt(data, i, raw, 3);
    HasAt(data, i, raw, 4);
    HasAt(data, i, raw, 5);
    assert ScanBody(data, i) == ScanBody(data, i + 2);
    assert ScanBody(data, i + 2) == ScanBody(data, i + 3);
    assert ScanBody(data, i + 3) == ScanBody(data, i + 4);
    assert ScanBody(data, i + 4) == ScanBody(data, i + 5) == ScanBody(data, i + 6);
  }

  lemma {:induction false} BodySpan(data: string, i: nat, raw: string)
    requires ValidBody(raw) && Has(data, i, raw) && i + |raw| < |data| && data[i + |raw|] == '"'
    ensures ScanBody(data, i) == Some(i + |raw| + 1)
    decreases |raw|
  {
    if raw != "" {
      HasAt(data, i, raw, 0);
      hide Has;
      if raw[0] != '\\' {
        Rest(data, i, raw, 1);
        BodySpan(data, i + 1, raw[1..]);
      } else if IsSimpleEscape(raw[1]) {
        Rest(data, i, raw, 2);
        BodySpan(data, i + 2, raw[2..]);
      } else {
        Rest(data, i, raw, 6);
        UnicodeSpan(data, i, raw);
        BodySpan(data, i + 6, raw[6..]);
      }
    }
  }

  lemma Rest(data: string, i: nat, s: string, k: nat)
    requires Has(data, i, s) && k <= |s|
    ensures Has(data, i, s[..k]) && Has(data, i + k, s[k..]) && (Blank(s) ==> Blank(s[k..]))
  {
    assert s == s[..k] + s[k..];
    HasParts(data, i, s[..k], s[k..]);
  }

  lemma {:induction false} AtomSpan(data: string, i: nat, text: string)
    requires Has(data, i, text) && (forall k :: 0 <= k < |text| ==> !IsDelimiter(text[k])) && Ends(data, i + |text|)
    ensures SkipAtom(data, i) == i + |text|
    decreases |text|
  {
    if text != "" {
      HasAt(data, i, text, 0);
      Rest(data, i, text, 1);
      AtomSpan(data, i + 1, text[1..]);
    }
  }

  lemma QuotedSpan(data: string, i: nat, raw: string)
    requires ValidBody(raw) && Has(data, i, Quoted(raw))
    ensures ScanString(data, i) == Some(i + |Quoted(raw)|) && data[i + 1..i + |Quoted(raw)| - 1] == raw
    ensures Solid(data, i)
  {
    HasParts(data, i, "\"" + raw, "\"");
    HasParts(data, i, "\"", raw);
    HasAt(data, i, "\"", 0);
    HasAt(data, i + |raw| + 1, "\"", 0);
    BodySpan(data, i + 1, raw);
  }

  lemma StartsSolid(data: string, i: nat, v: Value)
    requires WellFormed(v) && Has(data, i, Render(v))
    ensures i < |data| && data[i] == Render(v)[0] && Solid(data, i) && !IsDelimiter(data[i])
  {
    FirstChar(v);
    HasAt(data, i, Render(v), 0);
  }

  /** A blank skipped from any point of it. */
  lemma BlankSpan(data: string, i: nat, skipped: nat, s: string)
    requires Blank(s) && Has(data, i, s) && Solid(data, i + |s|) && skipped <= |s|
    ensures SkipSpace(data, i + skipped) == i + |s|
  {
    hide Has, Blank, SkipSpace;
    Rest(data, i, s, skipped);
    SpaceSpan(data, i + skipped, s[skipped..]);
  }

  /** No blank stands here, so there is none to skip. */
  lemma NothingToSkip(data: string, i: nat)
    requires Solid(data, i)
    ensures SkipSpace(data, i) == i
  {
  }

  // ---- the pieces of a text, where they stand -------------------------------------------------------------

  lemma ElemPieces(data: string, i: nat, es: Elems)
    requires es.Elem? && Has(data, i, RenderElems(es))
    ensures Has(data, i, es.before) && Has(data, i + |es.before|, Render(es.value))
    ensures Has(data, i + |es.before| + |Render(es.value)|, es.after)
    ensures Has(data, i + |es.before| + |Render(es.value)| + |es.after|, ElemTail(es.rest))
    ensures |RenderElems(es)| == |es.before| + |Render(es.value)| + |es.after| + |ElemTail(es.rest)|
  {
    hide Has;
    HasParts(data, i, es.before, Render(es.value) + (es.after + ElemTail(es.rest)));
    HasParts(data, i + |es.before|, Render(es.value), es.after + ElemTail(es.rest));
    HasParts(data, i + |es.before| + |Render(es.value)|, es.after, ElemTail(es.rest));
  }

  lemma TailPieces(data: string, i: nat, es: Elems)
    requires es.Elem? && Has(data, i, ElemTail(es))
    ensures i < |data| && data[i] == ',' && Has(data, i + 1, RenderElems(es)) && |ElemTail(es)| == 1 + |RenderElems(es)|
  {
    HasParts(data, i, ",", RenderElems(es));
    HasAt(data, i, ",", 0);
  }

  lemma ArrayPieces(data: string, i: nat, v: Value)
    requires v.Arr? && Has(data, i, Render(v))
    ensures var close := i + |Render(v)| - 1;
            && close == i + 1 + |v.gap| + |RenderElems(v.elems)| && close < |data| && data[i] == '['
              && data[close] == ']'
            && Has(data, i + 1, v.gap) && Has(data, i + 1 + |v.gap|, RenderElems(v.elems))
  {
    hide Has;
    HasParts(data, i, "[", v.gap + (RenderElems(v.elems) + "]"));
    HasParts(data, i + 1, v.gap, RenderElems(v.elems) + "]");
    HasParts(data, i + 1 + |v.gap|, RenderElems(v.elems), "]");
    HasAt(data, i, "[", 0);
    HasAt(data, i + 1 + |v.gap| + |RenderElems(v.elems)|, "]", 0);
  }

  lemma ObjectPieces(data: string, i: nat, v: Value)
    requires v.Obj? && Has(data, i, Render(v))
    ensures var close := i + |Render(v)| - 1;
            && close == i + 1 + |v.gap| + |RenderMembers(v.members)| && close < |data| && data[i] == '{'
              && data[close] == '}'
            && Has(data, i + 1, v.gap) && Has(data, i + 1 + |v.gap|, RenderMembers(v.members))
  {
    hide Has;
    HasParts(data, i, "{", v.gap + (RenderMembers(v.members) + "}"));
    HasParts(data, i + 1, v.gap, RenderMembers(v.members) + "}");
    HasParts(data, i + 1 + |v.gap|, RenderMembers(v.members), "}");
    HasAt(data, i, "{", 0);
    HasAt(data, i + 1 + |v.gap| + |RenderMembers(v.members)|, "}", 0);
  }

  /** From the value of a member on. */
  function ValuePart(ms: Members): string
    requires ms.Member?
  {
    Render(ms.value) + (ms.after + MemberTail(ms.rest))
  }

  function ColonPart(ms: Members): string
    requires ms.Member?
  {
    ms.mid + (":" + (ms.gap + ValuePart(ms)))
  }

  lemma KeyPieces(data: string, i: nat, ms: Members)
    requires ms.Member? && Has(data, i, RenderMembers(ms))
    ensures RenderMembers(ms) == ms.before + (Quoted(ms.key) + ColonPart(ms))
    ensures Has(data, i, ms.before) && Has(data, i + |ms.before|, Quoted(ms.key))
        && Has(data, i + |ms.before| + |Quoted(ms.key)|, ColonPart(ms))
  {
    hide Has, Quoted;
    HasParts(data, i, ms.before, Quoted(ms.key) + ColonPart(ms));
    HasParts(data, i + |ms.before|, Quoted(ms.key), ColonPart(ms));
  }

  lemma ColonPieces(data: string, i: nat, ms: Members)
    requires ms.Member? && Has(data, i, ColonPart(ms))
    ensures Has(data, i, ms.mid) && i + |ms.mid| < |data| && data[i + |ms.mid|] == ':'
        && Has(data, i + |ms.mid| + 1, ms.gap)
    ensures Has(data, i + |ms.mid| + 1 + |ms.gap|, ValuePart(ms))
        && |ColonPart(ms)| == |ms.mid| + 1 + |ms.gap| + |ValuePart(ms)|
  {
    hide Has, ValuePart;
    HasParts(data, i, ms.mid, ":" + (ms.gap + ValuePart(ms)));
    HasParts(data, i + |ms.mid|, ":", ms.gap + ValuePart(ms));
    HasParts(data, i + |ms.mid| + 1, ms.gap, ValuePart(ms));
    HasAt(data, i + |ms.mid|, ":", 0);
  }

  lemma ValuePieces(data: string, i: nat, ms: Members)
    requires ms.Member? && Has(data, i, ValuePart(ms))
    ensures Has(data, i, Render(ms.value)) && Has(data, i + |Render(ms.value)|, ms.after)
    ensures Has(data, i + |Render(ms.value)| + |ms.after|, MemberTail(ms.rest))
    ensures |ValuePart(ms)| == |Render(ms.value)| + |ms.after| + |MemberTail(ms.rest)|
  {
    hide Has;
    HasParts(data, i, Render(ms.value), ms.after + MemberTail(ms.rest));
    HasParts(data, i + |Render(ms.value)|, ms.after, MemberTail(ms.rest));
  }

  lemma MemberTailPieces(data: string, i: nat, ms: Members)
    requires ms.Member? && Has(data, i, MemberTail(ms))
    ensures i < |data| && data[i] == ',' && Has(data, i + 1, RenderMembers(ms))
        && |MemberTail(ms)| == 1 + |RenderMembers(ms)|
  {
    HasParts(data, i, ",", RenderMembers(ms));
    HasAt(data, i, ",", 0);
  }

  /** Where the first member's parts stand. */
  function ColonAt(ms: Members, i: nat): nat
    requires ms.Member?
  {
    i + |ms.before| + |Quoted(ms.key)| + |ms.mid|
  }

  function ValueAt(ms: Members, i: nat): nat
    requires ms.Member?
  {
    ColonAt(ms, i) + 1 + |ms.gap|
  }

  function FirstSpan(ms: Members, i: nat): Span
    requires ms.Member? && ValidBody(ms.key)
  {
    Span(Decoded(ms.key), ValueAt(ms, i), ValueAt(ms, i) + |Render(ms.value)|)
  }

  /** Where each member of an object's text stands. */
  function SpansOf(ms: Members, i: nat): seq<Span>
    requires WellFormedMembers(ms)
  {
    if ms.NoMember? then [] else [FirstSpan(ms, i)] + SpansOf(ms.rest, FirstSpan(ms, i).valueEnd + |ms.after| + 1)
  }

  lemma MemberPieces(data: string, i: nat, ms: Members)
    requires ms.Member? && Has(data, i, RenderMembers(ms))
    ensures Has(data, i, ms.before) && Has(data, i + |ms.before|, Quoted(ms.key))
        && Has(data, i + |ms.before| + |Quoted(ms.key)|, ms.mid)
    ensures ColonAt(ms, i) < |data| && data[ColonAt(ms, i)] == ':' && Has(data, ColonAt(ms, i) + 1, ms.gap)
    ensures Has(data, ValueAt(ms, i), Render(ms.value)) && Has(data, ValueAt(ms, i) + |Render(ms.value)|, ms.after)
    ensures Has(data, ValueAt(ms, i) + |Render(ms.value)| + |ms.after|, MemberTail(ms.rest))
    ensures i + |RenderMembers(ms)| == ValueAt(ms, i) + |Render(ms.value)| + |ms.after| + |MemberTail(ms.rest)|
  {
    hide Has, ColonPart, ValuePart, RenderMembers, MemberTail, Render, Quoted;
    KeyPieces(data, i, ms);
    ColonPieces(data, i + |ms.before| + |Quoted(ms.key)|, ms);
    ValuePieces(data, ValueAt(ms, i), ms);
  }

  // ---- values ---------------------------------------------------------------------------------------------

  lemma ValueSpan(data: string, i: nat, v: Value)
    requires WellFormed(v) && Has(data, i, Render(v)) && Ends(data, i + |Render(v)|)
    ensures SkipValue(data, i) == Some(i + |Render(v)|)
    decreases v, 2
  {
    hide Has, Blank, SkipSpace, ScanBody, ValidBody, SkipArray, ParseObject;
    StartsSolid(data, i, v);
    FirstChar(v);
    NothingToSkip(data, i);
    match v {
      case Str(raw) => QuotedSpan(data, i, raw);
      case Atom(text) =>
        AtomChars(text);
        AtomSpan(data, i, text);
      case Arr(_, _) => ArraySpan(data, i, v);
      case Obj(_, _) => ObjectSpan(data, i, v);
    }
  }

  lemma ArraySpan(data: string, i: nat, v: Value)
    requires v.Arr? && WellFormed(v) && Has(data, i, Render(v))
    ensures i < |data| && SkipArray(data, i) == Some(i + |Render(v)|)
    ensures v.elems.NoElem? <==> SkipSpace(data, i + 1) == i + |Render(v)| - 1
    decreases v, 1
  {
    hide Has, Blank, SkipSpace, Render, SkipElems;
    ArrayPieces(data, i, v);
    if v.elems.NoElem? {
      BlankSpan(data, i + 1, 0, v.gap);
    } else {
      ElemPieces(data, i + 1, v.elems);
      StartsSolid(data, i + 1 + |v.elems.before|, v.elems.value);
      BlankSpan(data, i + 1, 0, v.elems.before);
      ElemsSpan(data, i + 1, |v.elems.before|, v.elems);
    }
  }

  /** A list of elements parsed from any point of its leading blank. */
  lemma ElemsSpan(data: string, i: nat, skipped: nat, es: Elems)
    requires es.Elem? && WellFormedElems(es) && Has(data, i, RenderElems(es)) && skipped <= |es.before|
    requires i + |RenderElems(es)| < |data| && data[i + |RenderElems(es)|] == ']'
    ensures SkipElems(data, i + skipped) == Some(i + |RenderElems(es)| + 1)
    decreases es
  {
    hide Has, Blank, SkipSpace, Render, RenderElems, SkipValue;
    ElemPieces(data, i, es);
    var next := i + |es.before| + |Render(es.value)| + |es.after|;
    if es.rest.Elem? { TailPieces(data, next, es.rest); }
    SkipFrom(data, i, skipped, es.before, es.value, es.after);
    if es.rest.Elem? { ElemsSpan(data, next + 1, 0, es.rest); }
  }

  /** A value between blanks, skipped from any point of the first blank. */
  lemma SkipFrom(data: string, i: nat, skipped: nat, before: string, v: Value, after: string)
    requires Blank(before) && skipped <= |before| && WellFormed(v) && Blank(after)
    requires Has(data, i, before) && Has(data, i + |before|, Render(v)) && Has(data, i + |before| + |Render(v)|, after)
    requires Solid(data, i + |before| + |Render(v)| + |after|) && Ends(data, i + |before| + |Render(v)| + |after|)
    ensures SkipValue(data, i + skipped) == Some(i + |before| + |Render(v)|)
    ensures SkipSpace(data, i + |before| + |Render(v)|) == i + |before| + |Render(v)| + |after|
    decreases v, 3
  {
    hide Has, Blank, SkipSpace, Render;
    var start := i + |before|;
    StartsSolid(data, start, v);
    BlankSpan(data, i, skipped, before);
    NothingToSkip(data, start);
    if after != "" { BlankEnds(data, start + |Render(v)|, after); }
    ValueSpan(data, start, v);
    BlankSpan(data, start + |Render(v)|, 0, after);
    SkipsBlankFirst(data, i + skipped, start);
  }

  lemma BlankEnds(data: string, i: nat, s: string)
    requires s != "" && Blank(s) && Has(data, i, s)
    ensures Ends(data, i)
  {
    HasAt(data, i, s, 0);
  }

  lemma SkipsBlankFirst(data: string, i: nat, j: nat)
    requires i <= j <= |data| && SkipSpace(data, i) == j == SkipSpace(data, j)
    ensures SkipValue(data, i) == SkipValue(data, j)
  {
    hide SkipSpace;
  }

  lemma ObjectSpan(data: string, i: nat, v: Value)
    requires v.Obj? && WellFormed(v) && Has(data, i, Render(v))
    ensures i < |data| && ParseObject(data, i) == Some(Parsed(SpansOf(v.members, i + 1), i + |Render(v)|))
    decreases v, 1
  {
    hide Has, Blank, SkipSpace, Render, Quoted, ParseMembers, ValidBody;
    ObjectPieces(data, i, v);
    if v.members.NoMember? {
      BlankSpan(data, i + 1, 0, v.gap);
    } else {
      MemberPieces(data, i + 1, v.members);
      QuotedSpan(data, i + 1 + |v.members.before|, v.members.key);
      BlankSpan(data, i + 1, 0, v.members.before);
      MembersSpan(data, i + 1, |v.members.before|, v.members);
    }
  }

  lemma MemberSpan(data: string, i: nat, skipped: nat, ms: Members)
    requires ms.Member? && WellFormedMembers(ms) && Has(data, i, RenderMembers(ms)) && skipped <= |ms.before|
    requires var next := FirstSpan(ms, i).valueEnd + |ms.after|; Solid(data, next) && Ends(data, next)
    ensures ParseMember(data, i + skipped) == Some(FirstSpan(ms, i))
    ensures SkipSpace(data, FirstSpan(ms, i).valueEnd) == FirstSpan(ms, i).valueEnd + |ms.after|
    decreases ms, 0
  {
    hide Has, Blank, SkipSpace, Render, RenderMembers, Quoted, SkipValue, ValidBody, Decoded, ScanString;
    MemberPieces(data, i, ms);
    var keyStart := i + |ms.before|;
    QuotedSpan(data, keyStart, ms.key);
    BlankSpan(data, i, skipped, ms.before);
    BlankSpan(data, keyStart + |Quoted(ms.key)|, 0, ms.mid);
    var start := ValueAt(ms, i);
    StartsSolid(data, start, ms.value);
    BlankSpan(data, ColonAt(ms, i) + 1, 0, ms.gap);
    HasNothing(data, start);
    SkipFrom(data, start, 0, "", ms.value, ms.after);
  }

  lemma HasNothing(data: string, i: nat)
    requires i <= |data|
    ensures Has(data, i, "") && Blank("")
  {
  }

  lemma MembersSpan(data: string, i: nat, skipped: nat, ms: Members)
    requires ms.Member? && WellFormedMembers(ms) && Has(data, i, RenderMembers(ms)) && skipped <= |ms.before|
    requires i + |RenderMembers(ms)| < |data| && data[i + |RenderMembers(ms)|] == '}'
    ensures ParseMembers(data, i + skipped) == Some(Parsed(SpansOf(ms, i), i + |RenderMembers(ms)| + 1))
    decreases ms, 1
  {
    hide Has, Blank, SkipSpace, Render, RenderMembers, Quoted, ParseMember, ValidBody;
    MemberPieces(data, i, ms);
    var next := FirstSpan(ms, i).valueEnd + |ms.after|;
    if ms.rest.Member? { MemberTailPieces(data, next, ms.rest); }
    MemberSpan(data, i, skipped, ms);
    if ms.rest.Member? {
      MembersSpan(data, next + 1, 0, ms.rest);
      assert data[next] == ',';
      assert ParseMembers(data, i + skipped) == After([FirstSpan(ms, i)], ParseMembers(data, next + 1));
    } else {
      assert SpansOf(ms, i) == [FirstSpan(ms, i)];
      assert data[next] == '}';
      assert ParseMembers(data, i + skipped) == Some(Parsed([FirstSpan(ms, i)], next + 1));
    }
  }

  /** A whole document whose value is an object: its members, each with its exact extent. */
  lemma TopSpan(data: string, d: Document)
    requires IsText(data, d) && d.value.Obj?
    ensures ParseTop(data) ==
        Some((|d.before|, Parsed(SpansOf(d.value.members, |d.before| + 1), |d.before| + |Render(d.value)|)))
  {
    hide Has, Blank, SkipSpace, Render, ParseObject;
    HasAll(data);
    HasParts(data, 0, d.before, Render(d.value) + d.after);
    HasParts(data, |d.before|, Render(d.value), d.after);
    StartsSolid(data, |d.before|, d.value);
    FirstChar(d.value);
    BlankSpan(data, 0, 0, d.before);
    ObjectSpan(data, |d.before|, d.value);
    BlankSpan(data, |d.before| + |Render(d.value)|, 0, d.after);
  }

  lemma HasAll(data: string)
    ensures Has(data, 0, data)
  {
  }
}
