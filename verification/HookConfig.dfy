/** addHookEntry of internal/hooks/register.go: one hook entry spliced into the user's JSON document. */
module HookConfig {
  import opened Wrappers
  import opened Json
  import opened JsonScan
  import opened JsonExtents
  import opened JsonEdit

  // ---- strings as the encoder writes them -----------------------------------------------------------

  function HexDigit(n: nat): (c: char)
    requires n < 16
    ensures IsHex(c) && HexValue(c) == n
  {
    if n < 10 then ('0' as int + n) as char else ('a' as int + n - 10) as char
  }

  function UnicodeOf(n: nat): (s: string)
    requires n < 0x10000
    ensures |s| == 6
  {
    ['\\', 'u', HexDigit(n / 4096), HexDigit(n / 256 % 16), HexDigit(n / 16 % 16), HexDigit(n % 16)]
  }

  /** One character of an encoded string; `<`, `>`, `&` and the two line separators are escaped for HTML's sake. */
  function Escape(c: char): string {
    var n := c as int;
    if c == '"' || c == '\\' then ['\\', c]
    else if n == 8 then "\\b"
    else if n == 12 then "\\f"
    else if c == '\n' then "\\n"
    else if c == '\r' then "\\r"
    else if c == '\t' then "\\t"
    else if n < 32 || c == '<' || c == '>' || c == '&' || n == 0x2028 || n == 0x2029 then UnicodeOf(n)
    else [c]
  }

  function Encoded(s: string): string { if s == "" then "" else Escape(s[0]) + Encoded(s[1..]) }

  /** Exactly quotes, backslashes, control characters and what HTML would read are escaped. */
  lemma EscapesExactly(c: char)
    ensures Escape(c) == [c] <==>
              && c !in {'"', '\\', '<', '>', '&'} && 32 <= c as int
              && c as int != 0x2028 && c as int != 0x2029
  {
  }

  lemma EscapeDecodes(c: char, rest: string)
    requires ValidBody(rest)
    ensures ValidBody(Escape(c) + rest) && Decoded(Escape(c) + rest) == [c as int] + Decoded(rest)
  {
    var text := Escape(c) + rest;
    if |Escape(c)| == 1 {
      assert text[1..] == rest;
    } else if |Escape(c)| == 2 {
      assert text[2..] == rest;
    } else {
      UnicodeDecodes(c as int, rest);
    }
  }

  lemma HexDigits(n: nat)
    requires n < 0x10000
    ensures n / 4096 * 4096 + n / 256 % 16 * 256 + n / 16 % 16 * 16 + n % 16 == n
  {
    assert n / 256 == n / 4096 * 16 + n / 256 % 16;
    assert n / 16 == n / 256 * 16 + n / 16 % 16;
  }

  lemma UnicodeDecodes(n: nat, rest: string)
    requires n < 0x10000 && ValidBody(rest)
    ensures ValidBody(UnicodeOf(n) + rest) && Decoded(UnicodeOf(n) + rest) == [n] + Decoded(rest)
  {
    HexDigits(n);
    HexDecodes(n / 4096, n / 256 % 16, n / 16 % 16, n % 16, rest);
  }

  lemma HexDecodes(a: nat, b: nat, c: nat, d: nat, rest: string)
    requires a < 16 && b < 16 && c < 16 && d < 16 && ValidBody(rest)
    ensures var text := ['\\', 'u', HexDigit(a), HexDigit(b), HexDigit(c), HexDigit(d)] + rest;
            ValidBody(text) && Decoded(text) == [a * 4096 + b * 256 + c * 16 + d] + Decoded(rest)
  {
    hide HexDigit, HexValue, IsHex;
    var text := ['\\', 'u', HexDigit(a), HexDigit(b), HexDigit(c), HexDigit(d)] + rest;
    assert text[6..] == rest;
  }

  /** Decoding undoes the encoder. */
  lemma {:induction false} EncodedDecodes(s: string)
    ensures ValidBody(Encoded(s)) && Decoded(Encoded(s)) == Codes(s)
    decreases |s|
  {
    if s != "" {
      EncodedDecodes(s[1..]);
      EscapeDecodes(s[0], Encoded(s[1..]));
    }
  }

  function JsonString(s: string): string { Quoted(Encoded(s)) }

  // ---- the edit on the tree -----------------------------------------------------------------------------

  /** One hook entry: the blank its template begins with, and its object. */
  datatype Entry = Entry(lead: string, value: Value)

  predicate ValidEntry(e: Entry) { Blank(e.lead) && WellFormed(e.value) }

  function EntryText(e: Entry): string { e.lead + Render(e.value) }

  datatype EditError = NotAnObject | HooksNotObject | EventNotArray | Unparsable

  const HooksKey: string := "hooks"

  function FreshArray(e: Entry): Value { Arr("", Elem("\n" + e.lead, e.value, "\n    ", NoElem)) }

  function FreshHooks(event: string, e: Entry): Value {
    Obj("", Member("\n    ", Encoded(event), "", " ", FreshArray(e), "\n  ", NoMember))
  }

  lemma FreshWellFormed(event: string, e: Entry)
    requires ValidEntry(e)
    ensures WellFormed(FreshArray(e)) && WellFormed(FreshHooks(event, e)) && ValidBody(Encoded(event))
        && ValidBody(Encoded(HooksKey))
  {
    EncodedDecodes(event);
    EncodedDecodes(HooksKey);
    hide ValidBody, Encoded;
    assert WellFormedElems(Elem("\n" + e.lead, e.value, "\n    ", NoElem));
    assert WellFormedMembers(Member("\n    ", Encoded(event), "", " ", FreshArray(e), "\n  ", NoMember));
  }

  /** The hooks object with the entry added to one event. */
  function HooksWith(hooks: Value, event: string, e: Entry): (r: Result<Value, EditError>)
    requires WellFormed(hooks) && ValidEntry(e)
    ensures r.Ok? ==> WellFormed(r.value) && r.value.Obj?
  {
    FreshWellFormed(event, e);
    if !hooks.Obj? then Err(HooksNotObject)
    else if !HasKey(hooks.members, event) then Ok(WithMember(hooks, "\n    ", "\n  ", Encoded(event), FreshArray(e)))
    else
      var entries := FirstValue(hooks.members, event);
      if !entries.Arr? then Err(EventNotArray)
      else Ok(hooks.(members :=
        ReplaceFirst(hooks.members, event, WithElem(entries, "\n" + e.lead, "\n    ", e.value))))
  }

  /** The document with the entry added to one event: what the edited text has to be the text of. */
  function Added(d: Document, event: string, e: Entry): (r: Result<Document, EditError>)
    requires WellFormedDocument(d) && ValidEntry(e)
    ensures r.Ok? ==> WellFormedDocument(r.value) && r.value.value.Obj?
  {
    hide ValidBody, Encoded, Blank, FreshArray, FreshHooks, WithMember, ReplaceFirst, HasKey, FirstValue, HooksWith;
    FreshWellFormed(event, e);
    Breaks();
    if !d.value.Obj? then Err(NotAnObject)
    else if !HasKey(d.value.members, HooksKey) then
      Ok(d.(value := WithMember(d.value, "\n  ", "\n", Encoded(HooksKey), FreshHooks(event, e))))
    else
      var hooks := HooksWith(FirstValue(d.value.members, HooksKey), event, e);
      if hooks.Err? then Err(hooks.error)
      else Ok(d.(value := d.value.(members := ReplaceFirst(d.value.members, HooksKey, hooks.value))))
  }

  // ---- where the code inserts --------------------------------------------------------------------------

  lemma LastChar(v: Value)
    requires WellFormed(v)
    ensures Render(v) != "" && !IsSpace(Render(v)[|Render(v)| - 1])
  {
    if v.Atom? { AtomChars(v.text); }
  }

  /** Before its trailing blank a list of elements ends in a value. */
  lemma {:induction false} LastElemAt(data: string, i: nat, es: Elems)
    requires es.Elem? && WellFormedElems(es) && Has(data, i, RenderElems(es))
    ensures var q := i + |RenderElems(es)| - |LastAfter(es)|;
            i < q <= |data| && Has(data, q, LastAfter(es)) && Blank(LastAfter(es)) && !IsSpace(data[q - 1])
    decreases es
  {
    hide Has, Blank, Render, RenderElems;
    ElemPieces(data, i, es);
    LastChar(es.value);
    var end := i + |es.before| + |Render(es.value)|;
    HasAt(data, i + |es.before|, Render(es.value), |Render(es.value)| - 1);
    if es.rest.Elem? {
      TailPieces(data, end + |es.after|, es.rest);
      LastElemAt(data, end + |es.after| + 1, es.rest);
    }
  }

  lemma {:induction false} LastMemberAt(data: string, i: nat, ms: Members)
    requires ms.Member? && WellFormedMembers(ms) && Has(data, i, RenderMembers(ms))
    ensures var q := i + |RenderMembers(ms)| - |LastMemberAfter(ms)|;
            i < q <= |data| && Has(data, q, LastMemberAfter(ms)) && Blank(LastMemberAfter(ms)) && !IsSpace(data[q - 1])
    decreases ms
  {
    hide Has, Blank, Render, RenderMembers, Quoted, ValidBody;
    MemberPieces(data, i, ms);
    LastChar(ms.value);
    var end := ValueAt(ms, i) + |Render(ms.value)|;
    HasAt(data, ValueAt(ms, i), Render(ms.value), |Render(ms.value)| - 1);
    if ms.rest.Member? {
      MemberTailPieces(data, end + |ms.after|, ms.rest);
      LastMemberAt(data, end + |ms.after| + 1, ms.rest);
    }
  }

  /** The character the backward scan stops at is the one before a blank that reaches up to its start. */
  lemma ScanStops(data: string, before: nat, p: nat, blank: string)
    requires before <= |data| && |blank| < before && Has(data, before - |blank|, blank) && Blank(blank)
        && !IsSpace(data[before - |blank| - 1])
    requires p < before ==> !IsSpace(data[p]) && forall n :: p < n < before ==> IsSpace(data[n])
    requires p == before ==> forall n :: 0 <= n < before ==> IsSpace(data[n])
    requires p <= before
    ensures p + 1 == before - |blank|
  {
    var q := before - |blank| - 1;
    if q < p < before { HasAt(data, q + 1, blank, p - q - 1); }
  }

  function Shorter(indent: string): string { if |indent| < 2 then "" else indent[..|indent| - 2] }

  /** One past the last character before the closing bracket that is no blank. */
  method InsertionPoint(data: string, close: nat, ghost blank: string) returns (at: nat)
    requires close <= |data| && |blank| < close && Has(data, close - |blank|, blank) && Blank(blank)
        && !IsSpace(data[close - |blank| - 1])
    ensures at == close - |blank|
  {
    hide Has, Blank;
    var last := PreviousNonSpace(data, close);
    ScanStops(data, close, last, blank);
    return last + 1;
  }

  /** What stands before an object's closing brace when it has members: a value and a blank. */
  lemma ObjectClose(data: string, i: nat, v: Value)
    requires v.Obj? && v.members.Member? && WellFormed(v) && Has(data, i, Render(v))
    ensures var close, blank := i + |Render(v)| - 1, MembersTail(v);
            i + |blank| < close < |data| && Has(data, close - |blank|, blank) && Blank(blank)
              && !IsSpace(data[close - |blank| - 1])
  {
    ObjectPieces(data, i, v);
    NoGap(v);
    MembersWellFormed(v);
    hide Has, Render, RenderMembers, Blank, LastMemberAfter, WellFormed, WellFormedMembers;
    LastMemberAt(data, i + 1, v.members);
  }

  /** What the parser says of the object. */
  lemma ObjectExtent(data: string, i: nat, v: Value)
    requires v.Obj? && WellFormed(v) && Has(data, i, Render(v))
    ensures i + 2 <= i + |Render(v)| <= |data| && data[i] == '{'
    ensures var o := ParseObject(data, i);
        o.Some? && o.value.end == i + |Render(v)| && (o.value.members == [] <==> v.members.NoMember?)
  {
    ObjectPieces(data, i, v);
    ObjectSpan(data, i, v);
    assert SpansOf(v.members, i + 1) == [] <==> v.members.NoMember?;
    hide Has, Render, RenderMembers, ParseObject, SpansOf, Blank, WellFormed;
  }

  lemma ArrayClose(data: string, i: nat, v: Value)
    requires v.Arr? && v.elems.Elem? && WellFormed(v) && Has(data, i, Render(v))
    ensures var close, blank := i + |Render(v)| - 1, ElemsTail(v);
            i + |blank| < close < |data| && Has(data, close - |blank|, blank) && Blank(blank)
              && !IsSpace(data[close - |blank| - 1])
  {
    ArrayPieces(data, i, v);
    NoGap(v);
    MembersWellFormed(v);
    hide Has, Render, RenderElems, Blank, LastAfter, WellFormed, WellFormedElems;
    LastElemAt(data, i + 1, v.elems);
  }

  lemma ArrayExtent(data: string, i: nat, v: Value)
    requires v.Arr? && WellFormed(v) && Has(data, i, Render(v))
    ensures i + 2 <= i + |Render(v)| <= |data|
    ensures SkipSpace(data, i + 1) == i + |Render(v)| - 1 <==> v.elems.NoElem?
  {
    ArrayPieces(data, i, v);
    hide SkipArray, Has, Render;
    ArraySpan(data, i, v);
  }

  /** Inserts one member before the blank that precedes the closing brace; `v` is the tree of the object at that
      place. */
  method InsertObjectMember(data: string, objectStart: nat, objectEnd: nat, key: string, value: string, indent: string,
      ghost v: Value)
    returns (out: string)
    requires v.Obj? && WellFormed(v) && Has(data, objectStart, Render(v)) && objectEnd == objectStart + |Render(v)|
    ensures objectStart + |MembersTail(v)| + 1 <= objectEnd <= |data|
    ensures out == Splice(data, objectEnd - 1 - |MembersTail(v)|,
        MemberInsert(v.members.NoMember?, "\n" + indent, "\n" + Shorter(indent), Encoded(key), value))
  {
    hide Has, Render, ParseObject, Encoded, Blank, WellFormed, LastMemberAfter, NewMember, JsonString;
    ObjectExtent(data, objectStart, v);
    if v.members.Member? { ObjectClose(data, objectStart, v); }
    var parsed := ParseObjectMembers(data, objectStart);
    var closeIndex := objectEnd - 1;
    var insertAt: nat;
    var insert: string;
    MemberAsWritten(indent, key, value);
    if |parsed.value.members| == 0 {
      insertAt := closeIndex;
      insert := "\n" + indent + JsonString(key) + ": " + value + "\n" + Shorter(indent);
    } else {
      insertAt := InsertionPoint(data, closeIndex, MembersTail(v));
      insert := ",\n" + indent + JsonString(key) + ": " + value;
    }
    assert insert == MemberInsert(v.members.NoMember?, "\n" + indent, "\n" + Shorter(indent), Encoded(key), value);
    out := data[..insertAt] + insert + data[insertAt..];
  }

  /** The code's concatenation is the member's text. */
  lemma MemberAsWritten(indent: string, key: string, value: string)
    ensures "\n" + indent + JsonString(key) + ": " + value + "\n" + Shorter(indent) ==
        MemberInsert(true, "\n" + indent, "\n" + Shorter(indent), Encoded(key), value)
    ensures ",\n" + indent + JsonString(key) + ": " + value ==
        MemberInsert(false, "\n" + indent, "\n" + Shorter(indent), Encoded(key), value)
  {
    hide Quoted, Encoded, Shorter;
    var head := "\n" + indent;
    assert head + JsonString(key) + ": " + value == NewMember(head, Encoded(key), value);
    assert ",\n" + indent == "," + head;
  }

  function ElemInsert(first: bool, value: string, closeIndent: string): string {
    if first then "\n" + value + "\n" + closeIndent else ",\n" + value
  }

  /** Inserts one element before the blank that precedes the closing bracket. */
  method InsertArrayValue(data: string, arrayStart: nat, arrayEnd: nat, value: string, closeIndent: string,
      ghost v: Value)
    returns (out: string)
    requires v.Arr? && WellFormed(v) && Has(data, arrayStart, Render(v)) && arrayEnd == arrayStart + |Render(v)|
    ensures arrayStart + |ElemsTail(v)| + 1 <= arrayEnd <= |data|
    ensures out == Splice(data, arrayEnd - 1 - |ElemsTail(v)|, ElemInsert(v.elems.NoElem?, value, closeIndent))
  {
    hide Has, Render, Blank, WellFormed, LastAfter, SkipSpace;
    ArrayExtent(data, arrayStart, v);
    if v.elems.Elem? { ArrayClose(data, arrayStart, v); }
    var first := SkipJsonSpace(data, arrayStart + 1);
    var insertAt: nat;
    var insert: string;
    if first == arrayEnd - 1 {
      insertAt := arrayEnd - 1;
      insert := "\n" + value + "\n" + closeIndent;
    } else {
      insertAt := InsertionPoint(data, arrayEnd - 1, ElemsTail(v));
      insert := ",\n" + value;
    }
    out := data[..insertAt] + insert + data[insertAt..];
  }

  // ---- the code's insertion is the tree's edit ------------------------------------------------------------

  lemma FreshArrayText(e: Entry)
    ensures Render(FreshArray(e)) == "[\n" + EntryText(e) + "\n    ]"
  {
    hide Render;
    var inner := Render(e.value);
    ArrayText(FreshArray(e));
    ElemText(FreshArray(e).elems);
    EmptyTexts();
    assert "[" + ("" + (("\n" + e.lead) + (inner + ("\n    " + "")) + "]")) == "[\n" + (e.lead + inner) + "\n    ]";
  }

  lemma FreshHooksText(event: string, e: Entry)
    ensures Render(FreshHooks(event, e)) == "{\n    " + JsonString(event) + ": [\n" + EntryText(e) + "\n    ]\n  }"
  {
    hide Render, Encoded, NewMember, FreshArray;
    var list := Render(FreshArray(e));
    FreshArrayText(e);
    ObjectText(FreshHooks(event, e));
    NewMemberText("\n    ", Encoded(event), FreshArray(e), "\n  ");
    NewMemberIs("\n    ", Encoded(event), list);
    hide EntryText, Quoted;
    assert "{" + ("" + ((("\n    " + (JsonString(event) + (": " + list))) + "\n  ") + "}"))
        == "{\n    " + JsonString(event) + ": " + list + "\n  }";
    assert ": " + ("[\n" + EntryText(e) + "\n    ]") + "\n  }" == ": [\n" + EntryText(e) + "\n    ]\n  }";
  }

  lemma NewMemberIs(before: string, key: string, text: string)
    ensures NewMember(before, key, text) == before + (Quoted(key) + (": " + text))
  {
  }

  lemma ElemAsWritten(e: Entry)
    ensures ElemInsert(true, EntryText(e), "    ") == ("\n" + e.lead) + (Render(e.value) + "\n    ")
    ensures ElemInsert(false, EntryText(e), "    ") == "," + (("\n" + e.lead) + Render(e.value))
  {
    hide Render;
    var inner := Render(e.value);
    assert "\n" + (e.lead + inner) + "\n" + "    " == ("\n" + e.lead) + (inner + "\n    ");
    assert ",\n" + (e.lead + inner) == "," + (("\n" + e.lead) + inner);
  }

  /** An edit of the top value is the same edit of the document. */
  lemma DocumentSplice(d: Document, v: Value, at: nat, insert: string)
    requires at <= |Render(d.value)| && Render(v) == Splice(Render(d.value), at, insert)
    ensures |d.before| + at <= |RenderDocument(d)|
    ensures RenderDocument(d.(value := v)) == Splice(RenderDocument(d), |d.before| + at, insert)
  {
    hide Render, Splice;
    SpliceWithin(d.before, Render(d.value), d.after, at, insert);
  }

  /** Where the text of the hooks value begins, and of the event's value in it. */
  function HooksAt(d: Document): nat
    requires WellFormedDocument(d) && d.value.Obj? && HasKey(d.value.members, HooksKey)
  {
    |d.before| + 1 + ValueOffset(d.value.members, HooksKey)
  }

  function EventAt(d: Document, event: string): nat
    requires WellFormedDocument(d) && d.value.Obj? && HasKey(d.value.members, HooksKey)
    requires var hooks := FirstValue(d.value.members, HooksKey); hooks.Obj? && HasKey(hooks.members, event)
  {
    HooksAt(d) + 1 + ValueOffset(FirstValue(d.value.members, HooksKey).members, event)
  }

  lemma TopWellFormed(d: Document)
    requires WellFormedDocument(d)
    ensures WellFormed(d.value) && (d.value.Obj? ==> WellFormedMembers(d.value.members))
  {
  }

  /** The line breaks of the two nesting levels. */
  lemma Breaks()
    ensures "\n" + Shorter("  ") == "\n" && "\n" + "  " == "\n  " && "\n" + Shorter("    ") == "\n  "
        && "\n" + "    " == "\n    "
    ensures Blank("\n") && Blank("\n  ") && Blank("\n    ")
  {
  }

  lemma EntryBreak(e: Entry)
    requires ValidEntry(e)
    ensures Blank("\n" + e.lead) && WellFormed(e.value)
  {
    hide WellFormed;
  }

  lemma AddedNoHooks(d: Document, event: string, e: Entry)
    requires WellFormedDocument(d) && ValidEntry(e) && d.value.Obj? && !HasKey(d.value.members, HooksKey)
    ensures WellFormed(d.value) && WellFormed(FreshHooks(event, e)) && ValidBody(Encoded(HooksKey)) && Blank("\n  ")
        && Blank("\n")
    ensures Added(d, event, e) ==
        Ok(d.(value := WithMember(d.value, "\n  ", "\n", Encoded(HooksKey), FreshHooks(event, e))))
  {
    FreshWellFormed(event, e);
    Breaks();
    hide Render, Encoded, ValidBody, FreshHooks, WithMember, HooksWith, Blank;
  }

  lemma AddedNoEvent(d: Document, event: string, e: Entry)
    requires WellFormedDocument(d) && ValidEntry(e) && d.value.Obj? && HasKey(d.value.members, HooksKey)
    requires var hooks := FirstValue(d.value.members, HooksKey); hooks.Obj? && !HasKey(hooks.members, event)
    ensures WellFormed(FreshArray(e)) && ValidBody(Encoded(event)) && Blank("\n    ") && Blank("\n  ")
    ensures var hooks := FirstValue(d.value.members, HooksKey);
            var more := WithMember(hooks, "\n    ", "\n  ", Encoded(event), FreshArray(e));
            Added(d, event, e) == Ok(d.(value := d.value.(members := ReplaceFirst(d.value.members, HooksKey, more))))
  {
    FreshWellFormed(event, e);
    Breaks();
    hide Render, Encoded, ValidBody, FreshArray, FreshHooks, WithMember, ReplaceFirst, FirstValue, Blank;
  }

  lemma AddedToEvent(d: Document, event: string, e: Entry)
    requires WellFormedDocument(d) && ValidEntry(e) && d.value.Obj? && HasKey(d.value.members, HooksKey)
    requires var hooks := FirstValue(d.value.members, HooksKey);
             hooks.Obj? && HasKey(hooks.members, event) && FirstValue(hooks.members, event).Arr?
    ensures Blank("\n" + e.lead) && Blank("\n    ") && WellFormed(e.value)
    ensures var hooks := FirstValue(d.value.members, HooksKey);
            var more := WithElem(FirstValue(hooks.members, event), "\n" + e.lead, "\n    ", e.value);
            var edited := hooks.(members := ReplaceFirst(hooks.members, event, more));
            && WellFormed(edited)
            && Added(d, event, e) == Ok(d.(value :=
              d.value.(members := ReplaceFirst(d.value.members, HooksKey, edited))))
  {
    EntryBreak(e);
    Breaks();
    hide Render, Encoded, ValidBody, FreshArray, FreshHooks, WithElem, ReplaceFirst, FirstValue, Blank;
  }

  lemma NoHooksEdit(d: Document, event: string, e: Entry)
    requires WellFormedDocument(d) && ValidEntry(e) && d.value.Obj? && !HasKey(d.value.members, HooksKey)
    ensures Added(d, event, e).Ok?
    ensures |MembersTail(d.value)| + 1 <= |Render(d.value)| <= |RenderDocument(d)| - |d.before|
    ensures RenderDocument(Added(d, event, e).value) ==
              Splice(RenderDocument(d), |d.before| + |Render(d.value)| - 1 - |MembersTail(d.value)|,
                     MemberInsert(d.value.members.NoMember?, "\n" + "  ", "\n" + Shorter("  "), Encoded(HooksKey),
                       Render(FreshHooks(event, e))))
  {
    hide *;
    AddedNoHooks(d, event, e);
    Breaks();
    var v := d.value;
    var created := FreshHooks(event, e);
    WithMemberText(v, "\n  ", "\n", Encoded(HooksKey), created);
    DocumentSplice(d, WithMember(v, "\n  ", "\n", Encoded(HooksKey), created), |Render(v)| - 1 - |MembersTail(v)|,
                   MemberInsert(v.members.NoMember?, "\n  ", "\n", Encoded(HooksKey), Render(created)));
    DocumentLength(d);
  }

  lemma DocumentLength(d: Document)
    ensures |d.before| + |Render(d.value)| <= |RenderDocument(d)|
  {
    hide Render;
  }

  /** An edit of the hooks value, seen from the document. */
  lemma HooksEdit(d: Document, hooks: Value, at: nat, insert: string)
    requires WellFormedDocument(d) && d.value.Obj? && HasKey(d.value.members, HooksKey) && WellFormed(hooks)
    requires var was := Render(FirstValue(d.value.members, HooksKey));
        at <= |was| && Render(hooks) == Splice(was, at, insert)
    ensures HooksAt(d) + at <= |RenderDocument(d)|
    ensures RenderDocument(d.(value := d.value.(members := ReplaceFirst(d.value.members, HooksKey, hooks)))) ==
              Splice(RenderDocument(d), HooksAt(d) + at, insert)
  {
    hide Render, Splice, ValueOffset;
    ReplaceInObject(d.value, HooksKey, hooks, at, insert);
    DocumentSplice(d, d.value.(members := ReplaceFirst(d.value.members, HooksKey, hooks)),
      1 + ValueOffset(d.value.members, HooksKey) + at, insert);
  }

  lemma NoEventEdit(d: Document, event: string, e: Entry)
    requires WellFormedDocument(d) && ValidEntry(e) && d.value.Obj? && HasKey(d.value.members, HooksKey)
    requires var hooks := FirstValue(d.value.members, HooksKey); hooks.Obj? && !HasKey(hooks.members, event)
    ensures Added(d, event, e).Ok?
    ensures var hooks := FirstValue(d.value.members, HooksKey);
            && |MembersTail(hooks)| + 1 <= |Render(hooks)|
              && HooksAt(d) + |Render(hooks)| - 1 - |MembersTail(hooks)| <= |RenderDocument(d)|
            && RenderDocument(Added(d, event, e).value) ==
                 Splice(RenderDocument(d), HooksAt(d) + |Render(hooks)| - 1 - |MembersTail(hooks)|,
                        MemberInsert(hooks.members.NoMember?, "\n" + "    ", "\n" + Shorter("    "), Encoded(event),
                          Render(FreshArray(e))))
  {
    hide *;
    TopWellFormed(d);
    AddedNoEvent(d, event, e);
    Breaks();
    var hooks := FirstValue(d.value.members, HooksKey);
    var created := FreshArray(e);
    WithMemberText(hooks, "\n    ", "\n  ", Encoded(event), created);
    HooksEdit(d, WithMember(hooks, "\n    ", "\n  ", Encoded(event), created),
      |Render(hooks)| - 1 - |MembersTail(hooks)|,
              MemberInsert(hooks.members.NoMember?, "\n    ", "\n  ", Encoded(event), Render(created)));
  }

  lemma EventEdit(d: Document, event: string, e: Entry)
    requires WellFormedDocument(d) && ValidEntry(e) && d.value.Obj? && HasKey(d.value.members, HooksKey)
    requires var hooks := FirstValue(d.value.members, HooksKey);
             hooks.Obj? && HasKey(hooks.members, event) && FirstValue(hooks.members, event).Arr?
    ensures Added(d, event, e).Ok?
    ensures var entries := FirstValue(FirstValue(d.value.members, HooksKey).members, event);
            && |ElemsTail(entries)| + 1 <= |Render(entries)|
              && EventAt(d, event) + |Render(entries)| - 1 - |ElemsTail(entries)| <= |RenderDocument(d)|
            && RenderDocument(Added(d, event, e).value) ==
                 Splice(RenderDocument(d), EventAt(d, event) + |Render(entries)| - 1 - |ElemsTail(entries)|,
                        ElemInsert(entries.elems.NoElem?, EntryText(e), "    "))
  {
    hide *;
    AddedToEvent(d, event, e);
    EventAtIs(d, event);
    var hooks := FirstValue(d.value.members, HooksKey);
    MembersWellFormed(hooks);
    var entries := FirstValue(hooks.members, event);
    var more := WithElem(entries, "\n" + e.lead, "\n    ", e.value);
    var hooks' := hooks.(members := ReplaceFirst(hooks.members, event, more));
    var at := |Render(entries)| - 1 - |ElemsTail(entries)|;
    var insert := ElemInsert(entries.elems.NoElem?, EntryText(e), "    ");
    WithElemText(entries, "\n" + e.lead, "\n    ", e.value);
    ElemAsWritten(e);
    ReplaceInObject(hooks, event, more, at, insert);
    HooksEdit(d, hooks', 1 + ValueOffset(hooks.members, event) + at, insert);
  }

  lemma EventAtIs(d: Document, event: string)
    requires WellFormedDocument(d) && d.value.Obj? && HasKey(d.value.members, HooksKey)
    requires var hooks := FirstValue(d.value.members, HooksKey); hooks.Obj? && HasKey(hooks.members, event)
    ensures WellFormedMembers(d.value.members) && WellFormed(d.value)
    ensures EventAt(d, event) == HooksAt(d) + 1 + ValueOffset(FirstValue(d.value.members, HooksKey).members, event)
  {
    hide ValueOffset, FirstValue;
  }

  // ---- the edit itself ----------------------------------------------------------------------------------------

  lemma TopNotObject(data: string, d: Document)
    requires IsText(data, d) && !d.value.Obj?
    ensures ParseTop(data) == None
  {
    HasAll(data);
    HasParts(data, 0, d.before, Render(d.value) + d.after);
    HasParts(data, |d.before|, Render(d.value), d.after);
    hide Has, Blank, SkipSpace, Render, ParseObject;
    StartsSolid(data, |d.before|, d.value);
    FirstChar(d.value);
    BlankSpan(data, 0, 0, d.before);
  }

  /** Where the top value and its members' text stand. */
  lemma TopAt(data: string, d: Document)
    requires IsText(data, d)
    ensures Has(data, |d.before|, Render(d.value)) && |data| == |d.before| + |Render(d.value)| + |d.after|
    ensures d.value.Obj? && d.value.members.Member? ==> Has(data, |d.before| + 1, RenderMembers(d.value.members))
  {
    HasAll(data);
    HasParts(data, 0, d.before, Render(d.value) + d.after);
    HasParts(data, |d.before|, Render(d.value), d.after);
    NoGap(d.value);
    hide Has, Blank, Render, RenderMembers;
    if d.value.Obj? { ObjectPieces(data, |d.before|, d.value); }
  }

  lemma HooksStand(data: string, d: Document)
    requires IsText(data, d) && d.value.Obj? && HasKey(d.value.members, HooksKey)
    ensures var hooks := FirstValue(d.value.members, HooksKey);
            && Has(data, HooksAt(d), Render(hooks)) && HooksAt(d) < |data|
            && (data[HooksAt(d)] == '{' <==> hooks.Obj?)
  {
    hide Has, Render, RenderMembers, ValueOffset, FirstValue, IsText;
    IsTextParts(data, d);
    TopAt(data, d);
    FoundText(data, |d.before| + 1, d.value.members, HooksKey);
    var hooks := FirstValue(d.value.members, HooksKey);
    StartsSolid(data, HooksAt(d), hooks);
    FirstChar(hooks);
  }

  lemma IsTextParts(data: string, d: Document)
    requires IsText(data, d)
    ensures WellFormedDocument(d) && RenderDocument(d) == data
  {
  }

  lemma EventStands(data: string, d: Document, event: string)
    requires IsText(data, d) && d.value.Obj? && HasKey(d.value.members, HooksKey)
    requires var hooks := FirstValue(d.value.members, HooksKey); hooks.Obj? && HasKey(hooks.members, event)
    ensures var entries := FirstValue(FirstValue(d.value.members, HooksKey).members, event);
            && Has(data, EventAt(d, event), Render(entries)) && EventAt(d, event) < |data|
            && (data[EventAt(d, event)] == '[' <==> entries.Arr?)
  {
    hide Has, Render, RenderMembers, ValueOffset, FirstValue, IsText, HooksAt, WellFormed;
    IsTextParts(data, d);
    TopWellFormed(d);
    HooksStand(data, d);
    var hooks := FirstValue(d.value.members, HooksKey);
    MembersWellFormed(hooks);
    NoGap(hooks);
    ObjectPieces(data, HooksAt(d), hooks);
    FoundText(data, HooksAt(d) + 1, hooks.members, event);
    EventAtIs(d, event);
    var entries := FirstValue(hooks.members, event);
    StartsSolid(data, EventAt(d, event), entries);
    FirstChar(entries);
  }

  /** The second text is the first one with one substring inserted. */
  ghost predicate OneInsertion(data: string, edited: string) {
    exists at: nat, insert :: at <= |data| && edited == Splice(data, at, insert)
  }

  lemma HooksAtIs(d: Document)
    requires WellFormedDocument(d) && d.value.Obj? && HasKey(d.value.members, HooksKey)
    ensures HooksAt(d) == |d.before| + 1 + ValueOffset(d.value.members, HooksKey)
  {
  }

  /** Adds one entry to one event of the user's document, whose tree is `d`: the output is the input with one
      substring inserted, and the text of exactly the tree with the entry appended. */
  method AddHookEntry(data: string, event: string, e: Entry, ghost d: Document) returns (out: Result<string, EditError>)
    requires IsText(data, d) && ValidEntry(e)
    ensures match Added(d, event, e)
            case Ok(d') => out == Ok(RenderDocument(d')) && OneInsertion(data, out.value)
            case Err(error) => out == Err(error)
  {
    hide Has, Render, RenderDocument, IsText, ParseTop, ParseObject, Splice, Added, Encoded, EntryText, FindSpan,
      SpansOf, HooksAt, EventAt, ValueOffset, WellFormed;
    IsTextParts(data, d);
    TopWellFormed(d);
    var top := ParseJsonObject(data);
    if top.None? {
      TopSpanOrNot(data, d);
      AddedError(d, event, e);
      return Err(NotAnObject);
    }
    TopSpanOrNot(data, d);
    var start, root := top.value.0, top.value.1;
    var hooks := FindMember(root.members, HooksKey);
    FoundSpan(d.value.members, |d.before| + 1, HooksKey);
    if hooks.None? {
      var text := "{\n    " + JsonString(event) + ": [\n" + EntryText(e) + "\n    ]\n  }";
      FreshHooksText(event, e);
      TopAt(data, d);
      var edited := InsertObjectMember(data, start, root.end, HooksKey, text, "  ", d.value);
      NoHooksEdit(d, event, e);
      return Ok(edited);
    }
    HooksStand(data, d);
    HooksAtIs(d);
    out := AddToHooks(data, hooks.value, event, e, d);
  }

  lemma TopSpanOrNot(data: string, d: Document)
    requires IsText(data, d)
    ensures ParseTop(data).None? <==> !d.value.Obj?
    ensures d.value.Obj? ==>
              WellFormedMembers(d.value.members)
              && ParseTop(data) == Some((|d.before|,
                Parsed(SpansOf(d.value.members, |d.before| + 1), |d.before| + |Render(d.value)|)))
  {
    hide ParseTop, SpansOf, Render;
    if d.value.Obj? { TopSpan(data, d); } else { TopNotObject(data, d); }
  }

  lemma AddedError(d: Document, event: string, e: Entry)
    requires WellFormedDocument(d) && ValidEntry(e)
    ensures !d.value.Obj? ==> Added(d, event, e) == Err(NotAnObject)
    ensures d.value.Obj? && HasKey(d.value.members, HooksKey) ==>
              var hooks := FirstValue(d.value.members, HooksKey);
              && (!hooks.Obj? ==> Added(d, event, e) == Err(HooksNotObject))
              && (hooks.Obj? && HasKey(hooks.members, event) && !FirstValue(hooks.members, event).Arr? ==>
                Added(d, event, e) == Err(EventNotArray))
  {
    hide FirstValue, HasKey, FreshHooks, FreshArray, WithMember, WithElem, ReplaceFirst, WellFormed;
  }

  /** The part of addHookEntry that works inside the hooks value. */
  method AddToHooks(data: string, hooks: Span, event: string, e: Entry, ghost d: Document)
      returns (out: Result<string, EditError>)
    requires IsText(data, d) && ValidEntry(e) && d.value.Obj? && HasKey(d.value.members, HooksKey)
    requires hooks.valueStart == HooksAt(d) < |data|
        && hooks.valueEnd == HooksAt(d) + |Render(FirstValue(d.value.members, HooksKey))|
    ensures match Added(d, event, e)
            case Ok(d') => out == Ok(RenderDocument(d')) && OneInsertion(data, out.value)
            case Err(error) => out == Err(error)
  {
    hide Has, Render, RenderDocument, IsText, ParseObject, Splice, Added, Encoded, EntryText, FindSpan, SpansOf,
      HooksAt, EventAt, ValueOffset, WellFormed, FirstValue;
    IsTextParts(data, d);
    TopWellFormed(d);
    HooksStand(data, d);
    AddedError(d, event, e);
    ghost var v := FirstValue(d.value.members, HooksKey);
    if data[hooks.valueStart] != '{' { return Err(HooksNotObject); }
    MembersWellFormed(v);
    ObjectSpan(data, HooksAt(d), v);
    var parsed := ParseObjectMembers(data, hooks.valueStart);
    var member := FindMember(parsed.value.members, event);
    FoundSpan(v.members, HooksAt(d) + 1, event);
    if member.None? {
      var text := "[\n" + EntryText(e) + "\n    ]";
      FreshArrayText(e);
      var edited := InsertObjectMember(data, hooks.valueStart, hooks.valueEnd, event, text, "    ", v);
      NoEventEdit(d, event, e);
      return Ok(edited);
    }
    EventStands(data, d, event);
    EventAtIs(d, event);
    if data[member.value.valueStart] != '[' { return Err(EventNotArray); }
    var edited := InsertArrayValue(data, member.value.valueStart, member.value.valueEnd, EntryText(e), "    ",
      FirstValue(v.members, event));
    EventEdit(d, event, e);
    return Ok(edited);
  }
}
