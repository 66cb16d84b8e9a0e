/**
 What the environment file's reader and writer do, stated on their inputs: which names, keys and
 lines are taken, and that whatever a file contains, what is loaded from it are literal assignments.
 */
module EnvFileLaws {
  import opened Wrappers
  import opened Records
  import opened StoreLaws
  import opened Text
  import opened EnvFile

  // ---- names and keys ---------------------------------------------------------------------------------

  /** What a character of base64url text stands for (table 2 of RFC 4648). */
  function SextetValue(c: char): Option<nat> {
    if 'A' <= c <= 'Z' then Some(c as int - 'A' as int)
    else if 'a' <= c <= 'z' then Some(26 + (c as int - 'a' as int))
    else if '0' <= c <= '9' then Some(52 + (c as int - '0' as int))
    else if c == '-' then Some(62)
    else if c == '_' then Some(63)
    else None
  }

  lemma SextetsDecode(n: nat)
    requires n < 64
    ensures SextetValue(Sextet(n)) == Some(n)
  {
  }

  /** The number that digits in base 64 stand for, the most significant first. */
  function ValueOf(t: string): nat {
    if t == "" || SextetValue(t[|t| - 1]).None? then 0 else ValueOf(t[..|t| - 1]) * 64 + SextetValue(t[|t| - 1]).value
  }

  /** Each group of bytes stands for the same number as its digits, a short group padded with zero bits. */
  lemma GroupsKeepTheirValue(a: nat, b: nat, c: nat)
    requires a < 256 && b < 256 && c < 256
    ensures ValueOf(ThreeBytes(a, b, c)) == (a * 256 + b) * 256 + c
    ensures ValueOf(TwoBytes(a, b)) == (a * 256 + b) * 4
    ensures ValueOf(OneByte(a)) == a * 16
  {
    var w, x, y, z := a / 4, a % 4 * 16 + b / 16, b % 16 * 4 + c / 64, c % 64;
    FourDigits(w, x, y, z);
    FourDigits(w, x, b % 16 * 4, 0);
    FourDigits(w, a % 4 * 16, 0, 0);
    assert a == 4 * w + a % 4 && b == 16 * (b / 16) + b % 16 && c == 64 * (c / 64) + z;
    assert ThreeBytes(a, b, c) == [Sextet(w), Sextet(x), Sextet(y), Sextet(z)];
    assert TwoBytes(a, b) == [Sextet(w), Sextet(x), Sextet(b % 16 * 4)];
    assert OneByte(a) == [Sextet(w), Sextet(a % 4 * 16)];
    hide ValueOf, Sextet, ThreeBytes, TwoBytes, OneByte;
  }

  lemma FourDigits(w: nat, x: nat, y: nat, z: nat)
    requires w < 64 && x < 64 && y < 64 && z < 64
    ensures ValueOf([Sextet(w), Sextet(x)]) == w * 64 + x
    ensures ValueOf([Sextet(w), Sextet(x), Sextet(y)]) == (w * 64 + x) * 64 + y
    ensures ValueOf([Sextet(w), Sextet(x), Sextet(y), Sextet(z)]) == ((w * 64 + x) * 64 + y) * 64 + z
  {
    SextetsDecode(w);
    SextetsDecode(x);
    SextetsDecode(y);
    SextetsDecode(z);
    hide Sextet, SextetValue;
    var one, two, three := [Sextet(w)], [Sextet(w), Sextet(x)], [Sextet(w), Sextet(x), Sextet(y)];
    var four := [Sextet(w), Sextet(x), Sextet(y), Sextet(z)];
    assert one[..0] == "" && two[..1] == one && three[..2] == two && four[..3] == three;
    assert ValueOf(one) == w;
  }

  /** A session's file is named exactly for the root or a profile of at most 64 characters and a non-empty id of plain
      characters, and the name stays in its directory. */
  lemma NamedExactlyWhen(scope: string, session: string)
    ensures var res := FileName(scope, session);
            var plain := session != ""
              && forall i :: 0 <= i < |session| ==> Letter(session[i]) || Numeral(session[i]) || session[i] in "._-";
            && (res == Err(InvalidScope) <==> !ValidEnvScope(scope))
            && (res == Err(InvalidSession) <==> ValidEnvScope(scope) && !plain)
            && (res.Ok? <==> ValidEnvScope(scope) && plain)
            && (res.Ok? ==> '/' !in res.value && |res.value| > 4 && res.value[|res.value| - 4..] == ".env")
    ensures ValidEnvScope(scope) <==>
              || scope == "root"
              || (&& |scope| > 8 && scope[..8] == "profile:" && |scope| < 8 + 65
                  && scope[8] !in "_-" && scope[|scope| - 1] !in "_-"
                  && forall i :: 8 <= i < |scope| ==>
                    'a' <= scope[i] <= 'z' || Numeral(scope[i]) || scope[i] in "_-")
  {
    if ScopePrefix <= scope {
      var name := scope[8..];
      assert |ScopePrefix| == 8 && name == scope[|ScopePrefix|..];
      assert forall i :: 0 <= i < |name| ==> name[i] == scope[i + 8];
      assert forall i :: 8 <= i < |scope| ==> scope[i] == name[i - 8];
      assert |name| > 0 ==> name[0] == scope[8] && name[|name| - 1] == scope[|scope| - 1];
    }
    assert forall i :: 0 <= i < |session| ==>
        (IsSafeChar(session[i]) <==> Letter(session[i]) || Numeral(session[i]) || session[i] in "._-");
    if FileName(scope, session).Ok? {
      ScopesAreDashFree(scope);
      NoSlash(scope);
      hide Base64;
    }
  }

  lemma {:induction false} NoSlash(s: string)
    requires Bytes(s)
    ensures '/' !in Base64(s)
    decreases |s|
  {
    if |s| > 3 { NoSlash(s[3..]); }
  }

  /** Only arcmux's own variables: the prefix, then capitals, digits and underscores; none of it means anything to a
      shell. */
  lemma KeysAreOurs(k: string)
    ensures AllowedKey(k) <==>
              && |k| >= 7 && k[..7] == "ARCMUX_"
              && forall i :: 0 <= i < |k| ==> 'A' <= k[i] <= 'Z' || Numeral(k[i]) || k[i] == '_'
    ensures AllowedKey(k) ==> forall i :: 0 <= i < |k| ==> !IsShellSpecial(k[i]) && k[i] != '\'' && k[i] != '\\'
  {
  }

  // ---- the order of the keys ------------------------------------------------------------------------------

  /** One key comes before another exactly when it is a shorter beginning of it, or the smaller where they first
      differ. */
  lemma {:induction false} BeforeExactlyWhen(a: string, b: string)
    ensures Before(a, b) <==> a < b || exists i :: 0 <= i < |a| && i < |b| && a[..i] == b[..i] && a[i] < b[i]
  {
    if a != "" && b != "" && a[0] == b[0] {
      BeforeExactlyWhen(a[1..], b[1..]);
      assert a == [a[0]] + a[1..] && b == [b[0]] + b[1..];
      assert a < b <==> a[1..] < b[1..];
      if i :| 0 <= i < |a| && i < |b| && a[..i] == b[..i] && a[i] < b[i] {
        assert i > 0;
        assert a[1..][..i - 1] == a[..i][1..] == b[..i][1..] == b[1..][..i - 1];
        assert a[1..][i - 1] < b[1..][i - 1];
      }
      if i :| 0 <= i < |a[1..]| && i < |b[1..]| && a[1..][..i] == b[1..][..i] && a[1..][i] < b[1..][i] {
        assert a[..i + 1] == [a[0]] + a[1..][..i] == [b[0]] + b[1..][..i] == b[..i + 1];
        assert a[i + 1] < b[i + 1];
      }
    } else if a != "" && b != "" {
      assert Before(a, b) <==> a[0] < b[0];
      assert a[..0] == b[..0];
    }
  }

  // ---- what a line becomes ----------------------------------------------------------------------------------

  /** The text before the first equals sign. */
  predicate KeyOf(line: string, k: string) { k + "=" <= line && Lacks(k, '=') }

  lemma {:induction false} KeyIsFirst(line: string)
    ensures Lacks(line, '=') <==> IndexEquals(line) == |line|
    ensures IndexEquals(line) < |line| ==> KeyOf(line, line[..IndexEquals(line)])
    ensures forall k :: KeyOf(line, k) ==> IndexEquals(line) < |line| && k == line[..IndexEquals(line)]
    decreases |line|
  {
    if line != "" && line[0] != '=' {
      KeyIsFirst(line[1..]);
      var i := IndexEquals(line[1..]);
      assert IndexEquals(line) == i + 1;
      assert forall j :: 0 < j < |line| ==> line[j] == line[1..][j - 1];
      if i < |line[1..]| {
        var k := line[1..][..i];
        assert line[..i + 1] == [line[0]] + k;
        assert k + "=" <= line[1..];
        assert line[1..][i] == '=';
        assert line[..i + 1] + "=" == line[..i + 2];
      }
    }
    forall k | KeyOf(line, k)
      ensures IndexEquals(line) < |line| && k == line[..IndexEquals(line)]
    {
      var rest := line[|k| + 1..];
      assert line == k + "=" + rest;
      KeyEnds(k, rest);
      assert line[..|k|] == k;
    }
  }

  /** What the loader makes of a line, its trailing carriage returns taken off: nothing of an empty line or a
      comment, and of a line with a key the literal assignment, exactly when the key is ours and the value has no
      NUL; each error has exactly one cause. */
  lemma LoadsExactly(raw: string)
    ensures var line, res := TrimReturns(raw), LoadLine(raw);
            var skipped := line == "" || line[0] == '#';
            && (res == Ok(None) <==> skipped)
            && (res == Err(MalformedLine) <==> !skipped && (Lacks(line, '=') || line[0] == '='))
            && (res.Ok? || res.error in {MalformedLine, DisallowedKey, ForbiddenValue})
  {
    var line := TrimReturns(raw);
    KeyIsFirst(line);
    if line != "" { FirstEquals(line); }
    hide AllowedKey, Export, TrimReturns, IndexEquals;
  }

  lemma LoadsItsKey(raw: string, k: string)
    requires KeyOf(TrimReturns(raw), k) && k != "" && k[0] != '#'
    ensures var line, res := TrimReturns(raw), LoadLine(raw);
            && (res == Err(DisallowedKey) <==> !AllowedKey(k))
            && (res == Err(ForbiddenValue) <==> AllowedKey(k) && !Lacks(line[|k| + 1..], '\0'))
            && (res.Ok? <==> AllowedKey(k) && Lacks(line[|k| + 1..], '\0'))
            && (res.Ok? ==> res == Ok(Some("export " + k + "=" + ShellSingleQuote(line[|k| + 1..]))))
  {
    var line := TrimReturns(raw);
    KeyIsFirst(line);
    assert line[0] == k[0];
    hide AllowedKey, ShellSingleQuote, TrimReturns, IndexEquals;
  }

  lemma FirstEquals(line: string)
    requires line != ""
    ensures IndexEquals(line) == 0 <==> line[0] == '='
  {
  }

  /** Exactly the trailing carriage returns are taken off. */
  lemma {:induction false} TrimsExactly(s: string)
    ensures var t := TrimReturns(s);
            && t <= s && (t == "" || t[|t| - 1] != '\r') && forall i :: |t| <= i < |s| ==> s[i] == '\r'
    decreases |s|
  {
    if s != "" && s[|s| - 1] == '\r' { TrimsExactly(s[..|s| - 1]); }
  }

  // ---- what a file becomes ------------------------------------------------------------------------------------

  /** A file loads exactly when each of its lines does; otherwise the first line that does not decides. */
  lemma {:induction false} FirstFaultDecides(lines: seq<string>, i: nat)
    ensures LoadLines(lines).Ok? <==> forall j :: 0 <= j < |lines| ==> LoadLine(lines[j]).Ok?
    ensures i < |lines| && LoadLine(lines[i]).Err? && (forall j :: 0 <= j < i ==> LoadLine(lines[j]).Ok?) ==>
              LoadLines(lines) == Err(LoadLine(lines[i]).error)
  {
    hide LoadLine;
    if lines != [] {
      FirstFaultDecides(lines[1..], if i > 0 then i - 1 else 0);
      assert forall j :: 1 <= j < |lines| ==> lines[j] == lines[1..][j - 1];
      assert forall j :: 0 <= j < |lines[1..]| ==> lines[1..][j] == lines[j + 1];
    }
  }

  /** The line stands for this assignment. */
  predicate Assigns(raw: string, k: string, v: string) {
    AllowedKey(k) && Lacks(v, '\0') && TrimReturns(raw) == k + "=" + v
  }

  lemma LineAssigns(raw: string)
    ensures var res := LoadLine(raw);
            res.Ok? && res.value.Some? ==>
              exists k, v :: Assigns(raw, k, v) && res.value.value == Export(k, v)
                && ReadExport(res.value.value) == Some((k, v))
  {
    var line, res := TrimReturns(raw), LoadLine(raw);
    if res.Ok? && res.value.Some? {
      var eq := IndexEquals(line);
      KeyIsFirst(line);
      var k, v := line[..eq], line[eq + 1..];
      assert line == k + "=" + v by { hide AllowedKey; }
      ExportReads(k, v);
      assert Assigns(raw, k, v);
    }
  }

  /** Whatever is in the file, each line that comes out is one assignment that a shell reads back as exactly a key of
      ours and the literal text after it on a line of the file: no value can inject anything. */
  lemma {:induction false} LoadedIsLiteral(lines: seq<string>, i: nat)
    requires LoadLines(lines).Ok? && i < |LoadLines(lines).value|
    ensures exists j: nat, k, v ::
              && j < |lines| && Assigns(lines[j], k, v)
              && LoadLines(lines).value[i] == Export(k, v) && ReadExport(LoadLines(lines).value[i]) == Some((k, v))
    decreases |lines|
  {
    hide LoadLine, Assigns, Export, ReadExport;
    if lines != [] {
      var first, rest := LoadLine(lines[0]), LoadLines(lines[1..]);
      LineAssigns(lines[0]);
      if first.value.Some? && i == 0 {
        var k, v :| Assigns(lines[0], k, v) && first.value.value == Export(k, v)
          && ReadExport(first.value.value) == Some((k, v));
        assert LoadLines(lines).value[0] == first.value.value;
      } else {
        var i' := if first.value.Some? then i - 1 else i;
        LoadedIsLiteral(lines[1..], i');
        var j: nat, k, v :| j < |lines[1..]| && Assigns(lines[1..][j], k, v) && rest.value[i'] == Export(k, v)
          && ReadExport(rest.value[i']) == Some((k, v));
        assert lines[1..][j] == lines[j + 1];
        assert LoadLines(lines).value[i] == rest.value[i'];
      }
    }
  }
}
