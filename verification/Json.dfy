/**
 JSON text as sections 2 to 7 of RFC 8259 define it: a concrete syntax tree that keeps
 every blank, its text, and the abstract value it stands for.

 Text is a sequence of characters; every structural character is ASCII, so byte offsets and
 character offsets divide a text at the same places.
 */
module Json {
  import opened Text
  import opened Wrappers

  // ---- characters -------------------------------------------------------------------------------

  predicate IsSpace(c: char) { c == ' ' || c == '\n' || c == '\r' || c == '\t' }

  predicate Blank(s: string) { forall i :: 0 <= i < |s| ==> IsSpace(s[i]) }

  predicate IsDelimiter(c: char) { IsSpace(c) || c == ',' || c == ']' || c == '}' }

  predicate IsHex(c: char) { IsDigit(c) || 'a' <= c <= 'f' || 'A' <= c <= 'F' }

  function HexValue(c: char): int
    requires IsHex(c)
  {
    if IsDigit(c) then c as int - '0' as int else if 'a' <= c <= 'f' then c as int - 'a' as int + 10
      else c as int - 'A' as int + 10
  }

  // ---- strings (section 7) --------------------------------------------------------------------------

  predicate IsSimpleEscape(c: char) {
    c == '"' || c == '\\' || c == '/' || c == 'b' || c == 'f' || c == 'n' || c == 'r' || c == 't'
  }

  function SimpleEscape(c: char): int
    requires IsSimpleEscape(c)
  {
    match c
    case 'b' => 8
    case 'f' => 12
    case 'n' => 10
    case 'r' => 13
    case 't' => 9
    case _ => c as int
  }

  predicate UnicodeEscape(raw: string) {
    |raw| >= 6 && raw[1] == 'u' && IsHex(raw[2]) && IsHex(raw[3]) && IsHex(raw[4]) && IsHex(raw[5])
  }

  /** The text between the quotes of a string token. */
  predicate ValidBody(raw: string) {
    if raw == "" then true
    else if raw[0] == '\\' then
      |raw| >= 2 && (if IsSimpleEscape(raw[1]) then ValidBody(raw[2..]) else UnicodeEscape(raw) && ValidBody(raw[6..]))
    else raw[0] != '"' && raw[0] >= ' ' && ValidBody(raw[1..])
  }

  /** The code units a string token stands for. They are only ever compared with ASCII names, for which this decoding
      and Go's agree. */
  function Decoded(raw: string): seq<int>
    requires ValidBody(raw)
  {
    if raw == "" then []
    else if raw[0] != '\\' then [raw[0] as int] + Decoded(raw[1..])
    else if IsSimpleEscape(raw[1]) then [SimpleEscape(raw[1])] + Decoded(raw[2..])
    else
      [HexValue(raw[2]) * 4096 + HexValue(raw[3]) * 256 + HexValue(raw[4]) * 16 + HexValue(raw[5])]
      + Decoded(raw[6..])
  }

  function Codes(s: string): seq<int> { if s == "" then [] else [s[0] as int] + Codes(s[1..]) }

  // ---- numbers and literal names (sections 3 and 6) ---------------------------------------------------

  function AfterDigits(s: string, i: nat): (j: nat)
    requires i <= |s|
    ensures i <= j <= |s| && forall k :: i <= k < j ==> IsDigit(s[k])
    decreases |s| - i
  {
    if i < |s| && IsDigit(s[i]) then AfterDigits(s, i + 1) else i
  }

  function AfterFraction(s: string, i: nat): Option<nat>
    requires i <= |s|
  {
    if i == |s| || s[i] != '.' then Some(i)
    else if AfterDigits(s, i + 1) == i + 1 then None else Some(AfterDigits(s, i + 1))
  }

  function AfterExponent(s: string, i: nat): Option<nat>
    requires i <= |s|
  {
    if i == |s| || (s[i] != 'e' && s[i] != 'E') then Some(i)
    else
      var j := if i + 1 < |s| && (s[i + 1] == '+' || s[i + 1] == '-') then i + 2 else i + 1;
      if AfterDigits(s, j) == j then None else Some(AfterDigits(s, j))
  }

  predicate IsNumber(s: string) {
    var i := if |s| > 0 && s[0] == '-' then 1 else 0;
    && i < |s| && IsDigit(s[i])
    && (var j := if s[i] == '0' then i + 1 else AfterDigits(s, i);
        AfterFraction(s, j).Some? && AfterExponent(s, AfterFraction(s, j).value) == Some(|s|))
  }

  predicate IsAtom(s: string) { s == "true" || s == "false" || s == "null" || IsNumber(s) }

  /** Characters that occur in numbers and literal names. */
  predicate IsAtomChar(c: char) { IsDigit(c) || 'a' <= c <= 'z' || c == 'E' || c == '.' || c == '+' || c == '-' }

  lemma AtomChars(s: string)
    requires IsAtom(s)
    ensures s != "" && forall i :: 0 <= i < |s| ==> IsAtomChar(s[i])
  {
  }

  // ---- the tree ----------------------------------------------------------------------------------------

  datatype Value =
    | Str(raw: string)
    | Atom(text: string)
    | Arr(gap: string, elems: Elems)       // `gap` is the blank inside an empty array
    | Obj(gap: string, members: Members)

  datatype Elems = NoElem | Elem(before: string, value: Value, after: string, rest: Elems)

  datatype Members =
    | NoMember
    | Member(before: string, key: string, mid: string, gap: string, value: Value, after: string, rest: Members)

  datatype Document = Document(before: string, value: Value, after: string)

  predicate WellFormed(v: Value) {
    match v
    case Str(raw) => ValidBody(raw)
    case Atom(text) => IsAtom(text)
    case Arr(gap, elems) => Blank(gap) && (elems.Elem? ==> gap == "") && WellFormedElems(elems)
    case Obj(gap, members) => Blank(gap) && (members.Member? ==> gap == "") && WellFormedMembers(members)
  }

  predicate WellFormedElems(es: Elems) {
    es.Elem? ==> Blank(es.before) && WellFormed(es.value) && Blank(es.after) && WellFormedElems(es.rest)
  }

  predicate WellFormedMembers(ms: Members) {
    ms.Member? ==>
      && Blank(ms.before) && ValidBody(ms.key) && Blank(ms.mid) && Blank(ms.gap) && WellFormed(ms.value)
        && Blank(ms.after)
      && WellFormedMembers(ms.rest)
  }

  predicate WellFormedDocument(d: Document) { Blank(d.before) && WellFormed(d.value) && Blank(d.after) }

  // ---- its text --------------------------------------------------------------------------------------------

  function Quoted(raw: string): string { "\"" + raw + "\"" }

  function Render(v: Value): string
    decreases v, 0
  {
    match v
    case Str(raw) => Quoted(raw)
    case Atom(text) => text
    case Arr(gap, elems) => "[" + (gap + (RenderElems(elems) + "]"))
    case Obj(gap, members) => "{" + (gap + (RenderMembers(members) + "}"))
  }

  function RenderElems(es: Elems): string
    decreases es, 0
  {
    if es.NoElem? then "" else es.before + (Render(es.value) + (es.after + ElemTail(es.rest)))
  }

  function ElemTail(es: Elems): string
    decreases es, 1
  {
    if es.NoElem? then "" else "," + RenderElems(es)
  }

  function RenderMembers(ms: Members): string
    decreases ms, 0
  {
    if ms.NoMember? then ""
    else
      ms.before + (Quoted(ms.key) +
        (ms.mid + (":" + (ms.gap + (Render(ms.value) + (ms.after + MemberTail(ms.rest)))))))
  }

  function MemberTail(ms: Members): string
    decreases ms, 1
  {
    if ms.NoMember? then "" else "," + RenderMembers(ms)
  }

  function RenderDocument(d: Document): string { d.before + (Render(d.value) + d.after) }

  /** `data` is the text of d. */
  ghost predicate IsText(data: string, d: Document) { WellFormedDocument(d) && RenderDocument(d) == data }

  // ---- what it stands for ------------------------------------------------------------------------------------

  /** Objects keep their members in order, duplicates included. */
  datatype Data = Text(codes: seq<int>) | Literal(text: string) | List(items: seq<Data>) | Record(fields: seq<(seq<int>,
      Data)>)

  function Meaning(v: Value): Data
    requires WellFormed(v)
  {
    match v
    case Str(raw) => Text(Decoded(raw))
    case Atom(text) => Literal(text)
    case Arr(_, elems) => List(Items(elems))
    case Obj(_, members) => Record(Fields(members))
  }

  function Items(es: Elems): seq<Data>
    requires WellFormedElems(es)
  {
    if es.NoElem? then [] else [Meaning(es.value)] + Items(es.rest)
  }

  function Fields(ms: Members): seq<(seq<int>, Data)>
    requires WellFormedMembers(ms)
  {
    if ms.NoMember? then [] else [(Decoded(ms.key), Meaning(ms.value))] + Fields(ms.rest)
  }

  // ---- pieces of a text ------------------------------------------------------------------------------------------

  /** s stands in data at offset i. */
  predicate Has(data: string, i: nat, s: string) { i + |s| <= |data| && data[i..i + |s|] == s }

  lemma HasParts(data: string, i: nat, a: string, b: string)
    ensures Has(data, i, a + b) <==> Has(data, i, a) && Has(data, i + |a|, b)
    ensures Has(data, i, a + b) ==> i + |a| + |b| <= |data|
  {
    if i + |a| + |b| <= |data| {
      assert data[i..i + |a| + |b|] == data[i..i + |a|] + data[i + |a|..i + |a| + |b|];
      if data[i..i + |a| + |b|] == a + b {
        assert data[i..i + |a|] == (a + b)[..|a|] == a;
        assert data[i + |a|..i + |a| + |b|] == (a + b)[|a|..] == b;
      }
    }
  }

  lemma HasAt(data: string, i: nat, s: string, k: nat)
    requires Has(data, i, s) && k < |s|
    ensures i + k < |data| && data[i + k] == s[k]
  {
    assert data[i..i + |s|][k] == data[i + k];
  }

  /** A value starts with a character that is no blank and tells its kind. */
  lemma FirstChar(v: Value)
    requires WellFormed(v)
    ensures Render(v) != "" && !IsDelimiter(Render(v)[0])
    ensures Render(v)[0] == '"' <==> v.Str?
    ensures Render(v)[0] == '[' <==> v.Arr?
    ensures Render(v)[0] == '{' <==> v.Obj?
  {
    if v.Atom? { AtomChars(v.text); }
  }
}
