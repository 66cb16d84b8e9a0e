/** The cursors and cache keys of internal/daemon/mesh_application.go as text. */
module MeshCursor {
  import opened Wrappers
  import opened Records
  import opened Text

  const MaxOffset: nat := 0x7FFF_FFFF

  // ---- decimal numbers ---------------------------------------------------------------------------------

  predicate AllDigits(s: string) { forall i :: 0 <= i < |s| ==> IsDigit(s[i]) }

  function DigitOf(n: nat): (c: char)
    requires n < 10
    ensures IsDigit(c) && c as int - '0' as int == n
  {
    ('0' as int + n) as char
  }

  function Decimal(n: nat): string {
    if n < 10 then [DigitOf(n)] else Decimal(n / 10) + [DigitOf(n % 10)]
  }

  function Digits(s: string): nat
    requires AllDigits(s)
  {
    if s == "" then 0 else Digits(s[..|s| - 1]) * 10 + (s[|s| - 1] as int - '0' as int)
  }

  /** strconv.ParseUint in base ten: digits only, at least one, no larger than `max`. */
  function ParseUint(s: string, max: nat): Option<nat> {
    if s == "" || !AllDigits(s) || Digits(s) > max then None else Some(Digits(s))
  }

  lemma {:induction false} DecimalParses(n: nat)
    ensures Decimal(n) != "" && AllDigits(Decimal(n)) && Digits(Decimal(n)) == n
    decreases n
  {
    if n >= 10 {
      DecimalParses(n / 10);
      assert Decimal(n)[..|Decimal(n)| - 1] == Decimal(n / 10);
    } else {
      assert Digits(Decimal(n)[..0]) == 0;
    }
  }

  lemma DecimalInjective(a: nat, b: nat)
    requires Decimal(a) == Decimal(b)
    ensures a == b
  {
    DecimalParses(a);
    DecimalParses(b);
  }

  // ---- cursors ---------------------------------------------------------------------------------------------

  function Cursor(prefix: string, revision: nat, offset: nat): string {
    prefix + "." + Decimal(revision) + "." + Decimal(offset)
  }

  function ParseCursor(prefix: string, cursor: string): Option<(nat, nat)> {
    var parts := Split(cursor, '.');
    if |parts| != 3 || parts[0] != prefix then None
    else
      var revision := ParseUint(parts[1], MaxUint64);
      if revision.None? || revision.value == 0 then None
      else
        var offset := ParseUint(parts[2], MaxOffset);
        if offset.None? || offset.value == 0 then None else Some((revision.value, offset.value))
  }

  lemma DecimalParsesUint(n: nat, max: nat)
    ensures ParseUint(Decimal(n), max) == (if n > max then None else Some(n)) && Lacks(Decimal(n), '.')
  {
    DecimalParses(n);
  }

  /** Parsing undoes printing for exactly the revisions and offsets in range; everything else is refused, never
      misread. */
  lemma CursorRoundTrip(prefix: string, revision: nat, offset: nat)
    requires Lacks(prefix, '.')
    ensures ParseCursor(prefix, Cursor(prefix, revision, offset)) ==
              if 1 <= revision <= MaxUint64 && 1 <= offset <= MaxOffset then Some((revision, offset)) else None
  {
    hide ParseUint, Split, Decimal, Lacks;
    DecimalParsesUint(revision, MaxUint64);
    DecimalParsesUint(offset, MaxOffset);
    var r, o := Decimal(revision), Decimal(offset);
    assert Cursor(prefix, revision, offset) == prefix + "." + (r + "." + o);
    SplitFirst(prefix, '.', r + "." + o);
    SplitFirst(r, '.', o);
    SplitLast(o, '.');
    assert Split(Cursor(prefix, revision, offset), '.') == [prefix, r, o];
  }

  /** A session cursor is never an artifact cursor. */
  lemma CursorKindsDiffer(one: string, two: string, revision: nat, offset: nat)
    requires Lacks(one, '.') && Lacks(two, '.') && one != two
    ensures ParseCursor(two, Cursor(one, revision, offset)) == None
  {
    DecimalParses(revision);
    DecimalParses(offset);
    var r, o := Decimal(revision), Decimal(offset);
    assert Cursor(one, revision, offset) == one + "." + (r + "." + o);
    SplitFirst(one, '.', r + "." + o);
  }

  // ---- cache keys --------------------------------------------------------------------------------------------

  function PageKey(peer: string, revision: nat): string { peer + "/" + Decimal(revision) }

  /** Different peers or revisions never share a cache entry, whatever characters a peer's id has. */
  lemma PageKeyInjective(p: string, r: nat, q: string, s: nat)
    requires PageKey(p, r) == PageKey(q, s)
    ensures p == q && r == s
  {
    DecimalParses(r);
    DecimalParses(s);
    var k := PageKey(p, r);
    LastSlash(p, r);
    LastSlash(q, s);
    assert |p| == |q|;
    assert k[..|p|] == p && k[..|q|] == q;
    assert k[|p| + 1..] == Decimal(r) && k[|q| + 1..] == Decimal(s);
    DecimalInjective(r, s);
  }

  lemma LastSlash(peer: string, revision: nat)
    ensures var k := PageKey(peer, revision); k[|peer|] == '/' && forall j :: |peer| < j < |k| ==> k[j] != '/'
  {
    DecimalParses(revision);
  }
}
