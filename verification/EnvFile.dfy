/** The session environment rendezvous file of internal/hooks/envfile.go: its name, its writer, its reader and the
    shell quoting. */
module EnvFile {
  import opened Wrappers
  import opened Records
  import opened Text

  datatype EnvError = InvalidScope | InvalidSession | DisallowedKey | ForbiddenValue | MalformedLine

  // ---- the file's name ----------------------------------------------------------------------------------

  predicate ValidSessionName(s: string) { s != "" && forall i :: 0 <= i < |s| ==> IsSafeChar(s[i]) }

  /** Profile names here may have one character more than in a handoff manifest. */
  predicate ValidEnvScope(s: string) {
    s == RootScope || (ScopePrefix <= s && ValidProfileName(s[|ScopePrefix|..], 64))
  }

  /** One character of base64url text (section 5 of RFC 4648). */
  function Sextet(n: nat): (c: char)
    requires n < 64
  {
    if n < 26 then ('A' as int + n) as char
    else if n < 52 then ('a' as int + n - 26) as char
    else if n < 62 then ('0' as int + n - 52) as char
    else if n == 62 then '-' else '_'
  }

  predicate IsByte(c: char) { c as int < 256 }

  function ByteAt(s: string, i: nat): (n: nat)
    requires i < |s| && IsByte(s[i])
    ensures n < 256 && n == s[i] as int
  {
    s[i] as int
  }

  function OneByte(a: nat): string
    requires a < 256
  {
    [Sextet(a / 4), Sextet(a % 4 * 16)]
  }

  function TwoBytes(a: nat, b: nat): string
    requires a < 256 && b < 256
  {
    [Sextet(a / 4), Sextet(a % 4 * 16 + b / 16), Sextet(b % 16 * 4)]
  }

  function ThreeBytes(a: nat, b: nat, c: nat): string
    requires a < 256 && b < 256 && c < 256
  {
    [Sextet(a / 4), Sextet(a % 4 * 16 + b / 16), Sextet(b % 16 * 4 + c / 64), Sextet(c % 64)]
  }

  predicate Bytes(s: string) { forall i :: 0 <= i < |s| ==> IsByte(s[i]) }

  /** Unpadded base64url of a byte string. */
  function Base64(s: string): string
    requires Bytes(s)
    decreases |s|
  {
    if |s| == 0 then ""
    else if |s| == 1 then OneByte(ByteAt(s, 0))
    else if |s| == 2 then TwoBytes(ByteAt(s, 0), ByteAt(s, 1))
    else ThreeBytes(ByteAt(s, 0), ByteAt(s, 1), ByteAt(s, 2)) + Base64(s[3..])
  }

  lemma {:induction false} Base64Length(s: string)
    requires Bytes(s)
    ensures |Base64(s)| == |s| / 3 * 4 + (if |s| % 3 == 0 then 0 else |s| % 3 + 1)
    decreases |s|
  {
    hide Sextet;
    if |s| >= 3 { Base64Length(s[3..]); }
  }

  /** Equal encodings come from equal bytes. */
  lemma {:induction false} Base64Injective(s: string, t: string)
    requires Bytes(s) && Bytes(t) && Base64(s) == Base64(t)
    ensures s == t
    decreases |s|
  {
    Base64Length(s);
    Base64Length(t);
    assert |s| == |t|;
    hide Sextet, OneByte, TwoBytes;
    if |s| >= 3 {
      var x, y := ThreeBytes(ByteAt(s, 0), ByteAt(s, 1), ByteAt(s, 2)),
        ThreeBytes(ByteAt(t, 0), ByteAt(t, 1), ByteAt(t, 2));
      assert Base64(s)[..4] == x && Base64(t)[..4] == y && Base64(s)[4..] == Base64(s[3..])
        && Base64(t)[4..] == Base64(t[3..]);
      hide ThreeBytes;
      SameTriple(ByteAt(s, 0), ByteAt(s, 1), ByteAt(s, 2), ByteAt(t, 0), ByteAt(t, 1), ByteAt(t, 2));
      Base64Injective(s[3..], t[3..]);
      assert s == s[..3] + s[3..] && t == t[..3] + t[3..];
    } else if |s| == 2 {
      SamePair(ByteAt(s, 0), ByteAt(s, 1), ByteAt(t, 0), ByteAt(t, 1));
    } else if |s| == 1 {
      SameByte(ByteAt(s, 0), ByteAt(t, 0));
    }
  }

  lemma SameSextets(m: nat, n: nat)
    requires m < 64 && n < 64
    ensures Sextet(m) == Sextet(n) ==> m == n
  {
  }

  lemma SameTriple(a: nat, b: nat, c: nat, p: nat, q: nat, r: nat)
    requires a < 256 && b < 256 && c < 256 && p < 256 && q < 256 && r < 256
        && ThreeBytes(a, b, c) == ThreeBytes(p, q, r)
    ensures a == p && b == q && c == r
  {
    hide Sextet;
    var x, y := ThreeBytes(a, b, c), ThreeBytes(p, q, r);
    assert x[0] == y[0] && x[1] == y[1] && x[2] == y[2] && x[3] == y[3];
    SameSextets(a / 4, p / 4);
    SameSextets(a % 4 * 16 + b / 16, p % 4 * 16 + q / 16);
    SameSextets(b % 16 * 4 + c / 64, q % 16 * 4 + r / 64);
    SameSextets(c % 64, r % 64);
  }

  lemma SamePair(a: nat, b: nat, p: nat, q: nat)
    requires a < 256 && b < 256 && p < 256 && q < 256 && TwoBytes(a, b) == TwoBytes(p, q)
    ensures a == p && b == q
  {
    hide Sextet;
    var x, y := TwoBytes(a, b), TwoBytes(p, q);
    assert x[0] == y[0] && x[1] == y[1] && x[2] == y[2];
    SameSextets(a / 4, p / 4);
    SameSextets(a % 4 * 16 + b / 16, p % 4 * 16 + q / 16);
    SameSextets(b % 16 * 4, q % 16 * 4);
  }

  lemma SameByte(a: nat, p: nat)
    requires a < 256 && p < 256 && OneByte(a) == OneByte(p)
    ensures a == p
  {
    hide Sextet;
    var x, y := OneByte(a), OneByte(p);
    assert x[0] == y[0] && x[1] == y[1];
    SameSextets(a / 4, p / 4);
    SameSextets(a % 4 * 16, p % 4 * 16);
  }

  /** ASCII other than '>' and '~', the two that could put a dash into the fourth sextet. */
  predicate DashFree(c: char) { c as int < 128 && c != '>' && c != '~' }

  lemma {:induction false} NoDashes(s: string)
    requires forall i :: 0 <= i < |s| ==> DashFree(s[i])
    ensures Bytes(s)
    ensures Lacks(Base64(s), '-')
    decreases |s|
  {
    if |s| >= 3 {
      NoDashes(s[3..]);
      assert s[0] as int / 4 != 62 && s[0] as int % 4 * 16 + s[1] as int / 16 != 62;
      assert s[1] as int % 16 * 4 + s[2] as int / 64 != 62 && s[2] as int % 64 != 62;
    } else if |s| == 2 {
      assert s[0] as int / 4 != 62 && s[0] as int % 4 * 16 + s[1] as int / 16 != 62 && s[1] as int % 16 * 4 != 62;
    } else if |s| == 1 {
      assert s[0] as int / 4 != 62 && s[0] as int % 4 * 16 != 62;
    }
  }

  lemma ScopesAreDashFree(scope: string)
    requires ValidEnvScope(scope)
    ensures forall i :: 0 <= i < |scope| ==> DashFree(scope[i])
    ensures Bytes(scope)
  {
    if scope != RootScope {
      var name := scope[|ScopePrefix|..];
      assert scope == ScopePrefix + name;
      assert forall i :: 0 <= i < |name| ==> IsScopeChar(name[i]);
    }
  }

  function FileName(scope: string, session: string): Result<string, EnvError> {
    if !ValidEnvScope(scope) then Err(InvalidScope)
    else if !ValidSessionName(session) then Err(InvalidSession)
    else
      ScopesAreDashFree(scope);
      Ok(Base64(scope) + "--" + session + ".env")
  }

  /** Two sessions share a file only if they are the same session of the same scope, although session ids may contain
      dashes. */
  lemma FileNameInjective(scope1: string, session1: string, scope2: string, session2: string)
    requires FileName(scope1, session1).Ok? && FileName(scope1, session1) == FileName(scope2, session2)
    ensures scope1 == scope2 && session1 == session2
  {
    ScopesAreDashFree(scope1);
    ScopesAreDashFree(scope2);
    NoDashes(scope1);
    NoDashes(scope2);
    var a, b := Base64(scope1), Base64(scope2);
    var name := FileName(scope1, session1).value;
    assert name[|a|] == '-' && name[|b|] == '-';
    assert forall i :: 0 <= i < |a| ==> name[i] == a[i];
    assert forall i :: 0 <= i < |b| ==> name[i] == b[i];
    assert |a| == |b|;
    assert a == name[..|a|] == b;
    Base64Injective(scope1, scope2);
    assert session1 == name[|a| + 2..|name| - 4] == session2;
  }

  // ---- quoting ---------------------------------------------------------------------------------------------

  function QuoteBody(s: string): string {
    if s == "" then "" else (if s[0] == '\'' then "'\\''" else [s[0]]) + QuoteBody(s[1..])
  }

  function ShellSingleQuote(s: string): string { "'" + QuoteBody(s) + "'" }

  /** Characters that end a word or mean something outside quotes (section 2.2 of POSIX.1-2017 XCU). */
  predicate IsShellSpecial(c: char) {
    c in {'|', '&', ';', '<', '>', '(', ')', '$', '`', '"', ' ', '\t', '\n', '*', '?', '[', '#', '~', '=', '%'}
  }

  /** Reads one shell word by the quoting rules: what it stands for, or nothing when it is not a single plain word. */
  function ReadWord(s: string, quoted: bool): Option<string> {
    if s == "" then (if quoted then None else Some(""))
    else if quoted then
      (if s[0] == '\'' then ReadWord(s[1..], false) else Prepend(s[0], ReadWord(s[1..], true)))
    else if s[0] == '\'' then ReadWord(s[1..], true)
    else if s[0] == '\\' then
      (if |s| < 2 || s[1] == '\n' then None else Prepend(s[1], ReadWord(s[2..], false)))
    else if IsShellSpecial(s[0]) then None
    else Prepend(s[0], ReadWord(s[1..], false))
  }

  function Prepend(c: char, rest: Option<string>): Option<string> {
    if rest.None? then None else Some([c] + rest.value)
  }

  lemma {:induction false} QuotedReads(s: string)
    ensures ReadWord(QuoteBody(s) + "'", true) == Some(s)
    decreases |s|
  {
    if s == "" {
      assert QuoteBody(s) + "'" == "'";
      assert ReadWord("", false) == Some("");
      assert "'"[1..] == "";
    } else {
      QuotedReads(s[1..]);
      var rest := QuoteBody(s[1..]) + "'";
      assert s == [s[0]] + s[1..];
      if s[0] == '\'' {
        EscapedQuoteReads(rest);
        assert QuoteBody(s) + "'" == "'\\''" + rest;
      } else {
        assert QuoteBody(s) + "'" == [s[0]] + rest;
        assert ([s[0]] + rest)[1..] == rest;
      }
    }
  }

  /** Closing the quotes, an escaped quote, opening them again. */
  lemma EscapedQuoteReads(rest: string)
    ensures ReadWord("'\\''" + rest, true) == Prepend('\'', ReadWord(rest, true))
  {
    var a := ['\'', '\\', '\'', '\''] + rest;
    var b := ['\\', '\'', '\''] + rest;
    var c := ['\''] + rest;
    assert "'\\''" == ['\'', '\\', '\'', '\''];
    assert a[1..] == b;
    assert b[2..] == c;
    assert c[1..] == rest;
    assert ReadWord(a, true) == ReadWord(b, false);
    assert ReadWord(b, false) == Prepend('\'', ReadWord(c, false));
    assert ReadWord(c, false) == ReadWord(rest, true);
  }

  /** Every value survives the quoting, quotes, backslashes and all. */
  lemma QuotingRoundTrip(s: string)
    ensures ReadWord(ShellSingleQuote(s), false) == Some(s)
  {
    QuotedReads(s);
    assert ShellSingleQuote(s)[1..] == QuoteBody(s) + "'";
  }

  // ---- the file's lines ----------------------------------------------------------------------------------------

  predicate IsKeyChar(c: char) { 'A' <= c <= 'Z' || c == '_' || '0' <= c <= '9' }

  const KeyPrefix: string := "ARCMUX_"

  predicate AllowedKey(k: string) { KeyPrefix <= k && forall i :: 0 <= i < |k| ==> IsKeyChar(k[i]) }

  predicate AllowedValue(v: string) { Lacks(v, '\n') && Lacks(v, '\0') }

  /** Lexicographic order by character, as sort.Strings has it. */
  predicate Before(a: string, b: string) {
    if b == "" then false else if a == "" then true else if a[0] != b[0] then a[0] < b[0] else Before(a[1..], b[1..])
  }

  /** The keys in ascending order, each once: what sorting them returns. */
  ghost predicate Sorted(keys: seq<string>, env: map<string, string>) {
    && (forall k :: k in keys <==> k in env)
    && (forall i :: 0 < i < |keys| ==> Before(keys[i - 1], keys[i]))
  }

  lemma SortedKeys(env: map<string, string>, keys: seq<string>)
    requires Sorted(keys, env)
    ensures forall k :: k in keys <==> k in env
  {
  }

  function Line(k: string, v: string): string { k + "=" + v }

  function Content(env: map<string, string>, keys: seq<string>): string
    requires forall k :: k in keys ==> k in env
  {
    if keys == [] then "" else Line(keys[0], env[keys[0]]) + "\n" + Content(env, keys[1..])
  }

  lemma ContentStep(b: string, env: map<string, string>, keys: seq<string>, i: nat)
    requires i < |keys| && forall k :: k in keys ==> k in env
    ensures b + Content(env, keys[i..]) == b + Line(keys[i], env[keys[i]]) + "\n" + Content(env, keys[i + 1..])
  {
    hide Line;
    assert keys[i..][1..] == keys[i + 1..] && keys[i..][0] == keys[i];
  }

  lemma NoKeysLeft(env: map<string, string>, keys: seq<string>)
    requires forall k :: k in keys ==> k in env
    ensures Content(env, keys[|keys|..]) == ""
  {
  }

  ghost predicate Accepted(env: map<string, string>) { forall k <- env :: AllowedKey(k) && AllowedValue(env[k]) }

  /** Writes the content, or names the first disallowed pair in key order. */
  method WriteEnv(env: map<string, string>, keys: seq<string>) returns (res: Result<string, EnvError>)
    requires Sorted(keys, env)
    ensures res.Ok? <==> Accepted(env)
    ensures res.Ok? ==> res.value == Content(env, keys)
    ensures res.Err? ==> exists i ::
        0 <= i < |keys|
        && (forall j :: 0 <= j < i ==> AllowedKey(keys[j]) && AllowedValue(env[keys[j]]))
                                     && res.error == if !AllowedKey(keys[i]) then DisallowedKey else ForbiddenValue
  {
    SortedKeys(env, keys);
    hide Sorted, Before, AllowedKey, AllowedValue, Lacks, Line, Content;
    assert keys[0..] == keys;
    assert "" + Content(env, keys) == Content(env, keys);
    var b := "";
    var i := 0;
    while i < |keys|
      invariant 0 <= i <= |keys|
      invariant forall j :: 0 <= j < i ==> AllowedKey(keys[j]) && AllowedValue(env[keys[j]])
      invariant b + Content(env, keys[i..]) == Content(env, keys)
    {
      assert keys[i] in keys;
      if !AllowedKey(keys[i]) { return Err(DisallowedKey); }
      var v := env[keys[i]];
      if !AllowedValue(v) { return Err(ForbiddenValue); }
      ContentStep(b, env, keys, i);
      b := b + Line(keys[i], v) + "\n";
      i := i + 1;
    }
    NoKeysLeft(env, keys);
    assert b + "" == b;
    return Ok(b);
  }

  /** strings.TrimRight(s, "\r"). */
  function TrimReturns(s: string): string {
    if s != "" && s[|s| - 1] == '\r' then TrimReturns(s[..|s| - 1]) else s
  }

  function IndexEquals(s: string): (i: nat)
    ensures i <= |s|
  {
    if s == "" || s[0] == '=' then 0 else 1 + IndexEquals(s[1..])
  }

  function Export(k: string, v: string): string { "export " + k + "=" + ShellSingleQuote(v) }

  /** What the loader makes of one line: nothing for an empty line or a comment. */
  function LoadLine(raw: string): Result<Option<string>, EnvError> {
    var line := TrimReturns(raw);
    if line == "" || line[0] == '#' then Ok(None)
    else
      var eq := IndexEquals(line);
      if eq == 0 || eq == |line| then Err(MalformedLine)
      else if !AllowedKey(line[..eq]) then Err(DisallowedKey)
      else if !Lacks(line[eq + 1..], '\0') then Err(ForbiddenValue)
      else Ok(Some(Export(line[..eq], line[eq + 1..])))
  }

  function LoadLines(lines: seq<string>): Result<seq<string>, EnvError> {
    if lines == [] then Ok([])
    else
      var first := LoadLine(lines[0]);
      if first.Err? then Err(first.error)
      else
        var rest := LoadLines(lines[1..]);
        if rest.Err? then rest else Ok((if first.value.Some? then [first.value.value] else []) + rest.value)
  }

  function Joined(before: seq<string>, rest: Result<seq<string>, EnvError>): Result<seq<string>, EnvError> {
    if rest.Err? then rest else Ok(before + rest.value)
  }

  lemma LoadStep(out: seq<string>, lines: seq<string>, i: nat)
    requires i < |lines|
    ensures Joined(out, LoadLines(lines[i..])) ==
              match LoadLine(lines[i])
              case Err(error) => Err(error)
              case Ok(loaded) => Joined(if loaded.Some? then out + [loaded.value] else out, LoadLines(lines[i + 1..]))
  {
    hide LoadLine;
    assert lines[i..][0] == lines[i] && lines[i..][1..] == lines[i + 1..];
    var rest := LoadLines(lines[i + 1..]);
    if rest.Ok? && LoadLine(lines[i]).Ok? {
      var first := LoadLine(lines[i]).value;
      if first.Some? {
        assert out + ([first.value] + rest.value) == (out + [first.value]) + rest.value;
      } else {
        assert [] + rest.value == rest.value;
      }
    }
  }

  lemma LoadEnds(out: seq<string>, lines: seq<string>)
    ensures Joined(out, LoadLines(lines[|lines|..])) == Ok(out) && Joined([], LoadLines(lines[0..])) == LoadLines(lines)
  {
    assert lines[0..] == lines && out + [] == out;
    if LoadLines(lines).Ok? { assert [] + LoadLines(lines).value == LoadLines(lines).value; }
  }

  method LoadExports(data: string) returns (res: Result<seq<string>, EnvError>)
    ensures res == LoadLines(Split(data, '\n'))
  {
    hide LoadLines, Joined, AllowedKey, Export;
    var lines := Split(data, '\n');
    var out: seq<string> := [];
    var i := 0;
    LoadEnds(out, lines);
    while i < |lines|
      invariant 0 <= i <= |lines|
      invariant LoadLines(lines) == Joined(out, LoadLines(lines[i..]))
    {
      LoadStep(out, lines, i);
      var line := TrimReturns(lines[i]);
      i := i + 1;
      if line == "" || line[0] == '#' { continue; }
      var eq := IndexEquals(line);
      if eq == 0 || eq == |line| { return Err(MalformedLine); }
      var key, val := line[..eq], line[eq + 1..];
      if !AllowedKey(key) { return Err(DisallowedKey); }
      if !Lacks(val, '\0') { return Err(ForbiddenValue); }
      out := out + [Export(key, val)];
    }
    LoadEnds(out, lines);
    return Ok(out);
  }

  // ---- the round trip --------------------------------------------------------------------------------------------

  /** The export lines of a map, in the order of the keys, with the values as the loader sees them. */
  function Exports(env: map<string, string>, keys: seq<string>): seq<string>
    requires forall k :: k in keys ==> k in env
  {
    if keys == [] then [] else [Export(keys[0], TrimReturns(env[keys[0]]))] + Exports(env, keys[1..])
  }

  lemma {:induction false} KeyEnds(k: string, v: string)
    requires Lacks(k, '=')
    ensures IndexEquals(k + "=" + v) == |k|
    decreases |k|
  {
    if k == "" {
      assert k + "=" + v == "=" + v;
    } else {
      KeyEnds(k[1..], v);
      assert (k + "=" + v)[1..] == k[1..] + "=" + v;
    }
  }

  lemma {:induction false} TrimLine(k: string, v: string)
    ensures TrimReturns(k + "=" + v) == k + "=" + TrimReturns(v)
    decreases |v|
  {
    var s := k + "=" + v;
    if v != "" && v[|v| - 1] == '\r' {
      assert s[..|s| - 1] == k + "=" + v[..|v| - 1];
      TrimLine(k, v[..|v| - 1]);
    } else if v == "" {
      assert s[|s| - 1] == '=';
      assert s == k + "=";
    } else {
      assert s[|s| - 1] == v[|v| - 1];
    }
  }

  lemma {:induction false} Trimmed(v: string)
    ensures TrimReturns(v) <= v && (TrimReturns(v) == v <==> v == "" || v[|v| - 1] != '\r')
    decreases |v|
  {
    if v != "" && v[|v| - 1] == '\r' { Trimmed(v[..|v| - 1]); }
  }

  lemma LineLoads(k: string, v: string)
    requires AllowedKey(k) && AllowedValue(v)
    ensures LoadLine(Line(k, v)) == Ok(Some(Export(k, TrimReturns(v))))
  {
    TrimLine(k, v);
    Trimmed(v);
    var line := k + "=" + TrimReturns(v);
    assert Lacks(k, '=');
    KeyEnds(k, TrimReturns(v));
    assert k[0] == KeyPrefix[0];
    assert line[0] == k[0] == 'A';
    assert line[..|k|] == k && line[|k| + 1..] == TrimReturns(v);
  }

  lemma {:induction false} ContentLoads(env: map<string, string>, keys: seq<string>)
    requires (forall k :: k in keys ==> k in env) && Accepted(env)
    ensures LoadLines(Split(Content(env, keys), '\n')) == Ok(Exports(env, keys))
    decreases |keys|
  {
    if keys == [] {
      assert Split(Content(env, keys), '\n') == [""];
      assert LoadLine("") == Ok(None);
      assert [""][1..] == [];
      var none: seq<string> := [];
      assert none + none == none;
      assert LoadLines([""]) == Ok(none);
      assert Exports(env, keys) == none;
    } else {
      var k, v := keys[0], env[keys[0]];
      assert k in keys;
      var rest := Content(env, keys[1..]);
      assert Content(env, keys) == Line(k, v) + ['\n'] + rest;
      SplitFirst(Line(k, v), '\n', rest);
      LineLoads(k, v);
      ContentLoads(env, keys[1..]);
      var lines := [Line(k, v)] + Split(rest, '\n');
      assert Line(k, v) + "\n" + rest == Line(k, v) + ['\n'] + rest;
      assert Split(Content(env, keys), '\n') == lines;
      assert lines[0] == Line(k, v) && lines[1..] == Split(rest, '\n');
      assert LoadLines(lines) == Ok([Export(k, TrimReturns(v))] + Exports(env, keys[1..]));
    }
  }

  /** One export line read back by a shell: the key and the value it assigns. */
  function ReadExport(line: string): Option<(string, string)> {
    if !("export " <= line) then None
    else
      var assignment := line[7..];
      var eq := IndexEquals(assignment);
      if eq == |assignment| then None
      else
        var value := ReadWord(assignment[eq + 1..], false);
        if value.None? then None else Some((assignment[..eq], value.value))
  }

  lemma ExportReads(k: string, v: string)
    requires AllowedKey(k)
    ensures ReadExport(Export(k, v)) == Some((k, v))
  {
    QuotingRoundTrip(v);
    assert Lacks(k, '=');
    KeyEnds(k, ShellSingleQuote(v));
    var line := Export(k, v);
    var assignment := k + "=" + ShellSingleQuote(v);
    assert line == "export " + assignment;
    assert line[7..] == assignment;
    assert assignment[..|k|] == k && assignment[|k| + 1..] == ShellSingleQuote(v);
  }

  lemma {:induction false} ExportAt(env: map<string, string>, keys: seq<string>, i: nat)
    requires (forall k :: k in keys ==> k in env) && i < |keys|
    ensures |Exports(env, keys)| == |keys| && Exports(env, keys)[i] == Export(keys[i], TrimReturns(env[keys[i]]))
    decreases |keys|
  {
    if i > 0 {
      ExportAt(env, keys[1..], i - 1);
    } else if |keys| > 1 {
      ExportAt(env, keys[1..], 0);
    }
  }

  /** What was written loads as one export per key, in ascending order, and a shell reading the i-th one gets the key
      and its value without trailing carriage returns: so it gets exactly the value when, and only when, that does
      not end in one. */
  lemma EnvironmentRoundTrip(env: map<string, string>, keys: seq<string>, i: nat)
    requires Sorted(keys, env) && Accepted(env) && i < |keys|
    ensures forall k :: k in keys ==> k in env
    ensures keys[i] in env
    ensures LoadLines(Split(Content(env, keys), '\n')) == Ok(Exports(env, keys)) && |Exports(env, keys)| == |keys|
    ensures var read := ReadExport(Exports(env, keys)[i]);
            && read.Some? && read.value.0 == keys[i] && read.value.1 <= env[keys[i]]
            && (read.value.1 == env[keys[i]] <==> env[keys[i]] == "" || env[keys[i]][|env[keys[i]]| - 1] != '\r')
  {
    assert keys[i] in keys;
    ContentLoads(env, keys);
    ExportAt(env, keys, i);
    ExportReads(keys[i], TrimReturns(env[keys[i]]));
    Trimmed(env[keys[i]]);
  }
}
