/**
 Which script paths a hook command names: hookScriptAliases and guardedHookCommand of
 internal/hooks/register.go. Outside paths that spell the command's own middle, a command names
 an alias of its path exactly when the path has no shell-escaped character.

 The proof counts blocks of escaped characters: escaping keeps their number and doubles their
 length, so no text with such a block stands in its own escaped form.
 */
module HookPathNames {
  import opened Wrappers
  import opened Json
  import opened JsonEdit
  import opened HookConfig
  import opened HookMeaning
  import opened HookRegistration

  // ---- escaped characters and their blocks ---------------------------------------------------------------

  function Specials(s: string, dollar: bool): nat {
    if s == "" then 0 else (if IsSpecial(s[0], dollar) then 1 else 0) + Specials(s[1..], dollar)
  }

  /** The runs of escaped characters; `inside` says that one ended right before s. */
  function Blocks(s: string, dollar: bool, inside: bool): nat {
    if s == "" then 0
    else if !IsSpecial(s[0], dollar) then Blocks(s[1..], dollar, false)
    else (if inside then 0 else 1) + Blocks(s[1..], dollar, true)
  }

  predicate EndsInside(s: string, dollar: bool, inside: bool) {
    if s == "" then inside else IsSpecial(s[|s| - 1], dollar)
  }

  lemma {:induction false} Joined(a: string, b: string, dollar: bool, inside: bool)
    ensures Specials(a + b, dollar) == Specials(a, dollar) + Specials(b, dollar)
    ensures Blocks(a + b, dollar, inside) ==
              Blocks(a, dollar, inside) + Blocks(b, dollar, EndsInside(a, dollar, inside))
    decreases |a|
  {
    if a == "" {
      assert a + b == b;
    } else {
      assert (a + b)[1..] == a[1..] + b && (a + b)[0] == a[0];
      Joined(a[1..], b, dollar, IsSpecial(a[0], dollar));
    }
  }

  lemma {:induction false} NoBlocks(s: string, dollar: bool, inside: bool)
    ensures Blocks(s, dollar, inside) == 0 && !inside ==> Specials(s, dollar) == 0
    ensures Specials(s, dollar) == 0 <==> forall i :: 0 <= i < |s| ==> !IsSpecial(s[i], dollar)
    decreases |s|
  {
    if s != "" {
      NoBlocks(s[1..], dollar, IsSpecial(s[0], dollar));
      assert forall i :: 1 <= i < |s| ==> s[i] == s[1..][i - 1];
    }
  }

  lemma {:induction false} EscapedBlocks(s: string, dollar: bool, inside: bool)
    ensures Blocks(ShellEscaped(s, dollar), dollar, inside) == Blocks(s, dollar, inside)
    ensures Specials(ShellEscaped(s, dollar), dollar) == 2 * Specials(s, dollar)
    decreases |s|
  {
    if s != "" {
      var c, rest := ShellEscape(s[0], dollar), ShellEscaped(s[1..], dollar);
      EscapedBlocks(s[1..], dollar, IsSpecial(s[0], dollar));
      Joined(c, rest, dollar, inside);
      OneEscape(s[0], dollar, inside);
    }
  }

  lemma OneEscape(c: char, dollar: bool, inside: bool)
    ensures var s := ShellEscape(c, dollar);
            && Specials(s, dollar) == (if IsSpecial(c, dollar) then 2 else 0)
            && Blocks(s, dollar, inside) == (if IsSpecial(c, dollar) && !inside then 1 else 0)
            && EndsInside(s, dollar, inside) == IsSpecial(c, dollar)
  {
    var s := ShellEscape(c, dollar);
    if IsSpecial(c, dollar) {
      assert s[1..] == [c] && [c][1..] == "";
      assert Specials([c], dollar) == 1 && Blocks([c], dollar, true) == 0;
    } else {
      assert s[1..] == "";
    }
  }

  // ---- pieces of an escaped text --------------------------------------------------------------------------

  lemma Peel(t: string, more: string, a: string, b: string)
    requires t + more == a + b && |t| <= |a|
    ensures a == t + a[|t|..] && more == a[|t|..] + b
  {
    assert (t + more)[..|t|] == t && (a + b)[..|t|] == a[..|t|];
    assert (t + more)[|t|..] == more && (a + b)[|t|..] == a[|t|..] + b;
  }

  /** An escape is not cut between its two characters. */
  lemma EscapeFits(c: char, dollar: bool, more: string, a: string, b: string)
    requires ShellEscape(c, dollar) + more == a + b && a != ""
    requires (b != "" && !IsSpecial(b[0], dollar)) || !IsSpecial(a[|a| - 1], dollar)
    ensures |ShellEscape(c, dollar)| <= |a|
  {
    var t := ShellEscape(c, dollar);
    assert (t + more)[0] == t[0] && (a + b)[0] == a[0];
    assert |t| == 2 ==> (t + more)[1] == t[1];
    assert |a| == 1 && b != "" ==> (a + b)[1] == b[0];
  }

  /** A plain character of an escaped text begins a piece of it. */
  lemma {:induction false} PieceAfter(s: string, dollar: bool, before: string, rest: string)
      returns (u: string, w: string)
    requires ShellEscaped(s, dollar) == before + rest && rest != "" && !IsSpecial(rest[0], dollar)
    ensures s == u + w && ShellEscaped(u, dollar) == before && ShellEscaped(w, dollar) == rest
    decreases |s|
  {
    hide ShellEscape, IsSpecial;
    if before == "" {
      u, w := "", s;
      assert before + rest == rest;
    } else {
      var c, more := ShellEscape(s[0], dollar), ShellEscaped(s[1..], dollar);
      EscapeFits(s[0], dollar, more, before, rest);
      Peel(c, more, before, rest);
      var u';
      u', w := PieceAfter(s[1..], dollar, before[|c|..], rest);
      u := Longer(s, u', w, dollar);
    }
  }

  /** And ends one. */
  lemma {:induction false} PieceBefore(s: string, dollar: bool, piece: string, after: string)
      returns (u: string, w: string)
    requires ShellEscaped(s, dollar) == piece + after && (piece != "" ==> !IsSpecial(piece[|piece| - 1], dollar))
    ensures s == u + w && ShellEscaped(u, dollar) == piece && ShellEscaped(w, dollar) == after
    decreases |s|
  {
    hide ShellEscape, IsSpecial;
    if piece == "" {
      u, w := "", s;
      assert piece + after == after;
    } else {
      var c, more := ShellEscape(s[0], dollar), ShellEscaped(s[1..], dollar);
      EscapeFits(s[0], dollar, more, piece, after);
      Peel(c, more, piece, after);
      var u';
      u', w := PieceBefore(s[1..], dollar, piece[|c|..], after);
      u := Longer(s, u', w, dollar);
    }
  }

  lemma Longer(s: string, u': string, w: string, dollar: bool) returns (u: string)
    requires s != "" && s[1..] == u' + w
    ensures s == u + w && ShellEscaped(u, dollar) == ShellEscape(s[0], dollar) + ShellEscaped(u', dollar)
  {
    u := [s[0]] + u';
    assert s == [s[0]] + s[1..] && u[1..] == u';
  }

  // ---- no text with an escaped character stands in an escaped text ----------------------------------------------

  lemma PlainEnds(s: string, dollar: bool)
    requires s != ""
    ensures ShellEscaped(s, dollar) != ""
    ensures !IsSpecial(ShellEscaped(s, dollar)[0], dollar) ==> !IsSpecial(s[0], dollar)
  {
  }

  lemma {:induction false} PlainLast(s: string, dollar: bool)
    requires s != "" && !IsSpecial(ShellEscaped(s, dollar)[|ShellEscaped(s, dollar)| - 1], dollar)
    ensures !IsSpecial(s[|s| - 1], dollar)
    decreases |s|
  {
    var c, rest := ShellEscape(s[0], dollar), ShellEscaped(s[1..], dollar);
    if |s| == 1 {
      assert c + rest == c;
    } else {
      PlainEnds(s[1..], dollar);
      assert (c + rest)[|c + rest| - 1] == rest[|rest| - 1];
      PlainLast(s[1..], dollar);
    }
  }

  /** A piece of an escaped text that begins and ends plain, with at least as many blocks as the text, and no more
      escaped characters when they are as many: then the text has none. */
  lemma InsideEscaped(alias: string, s: string, dollar: bool, before: string, after: string)
    requires ShellEscaped(s, dollar) == before + (alias + after) && alias != ""
    requires !IsSpecial(alias[0], dollar) && !IsSpecial(alias[|alias| - 1], dollar)
    requires Blocks(alias, dollar, false) >= Blocks(s, dollar, false)
    requires Blocks(alias, dollar, false) == Blocks(s, dollar, false) ==> Specials(alias, dollar) == Specials(s, dollar)
    ensures Specials(s, dollar) == 0
  {
    hide IsSpecial, ShellEscaped;
    assert (alias + after)[0] == alias[0];
    var u, w := PieceAfter(s, dollar, before, alias + after);
    var m, v := PieceBefore(w, dollar, alias, after);
    assert m != "" by { EscapedNothing(dollar); }
    PlainEnds(m, dollar);
    PlainLast(m, dollar);
    EscapedBlocks(m, dollar, false);
    Joined(u, w, dollar, false);
    Joined(m, v, dollar, false);
    assert m[0] == w[0];
    OutsideIgnored(w, dollar, EndsInside(u, dollar, false));
    NoBlocks(u, dollar, false);
    NoBlocks(v, dollar, false);
  }

  lemma EscapedNothing(dollar: bool)
    ensures ShellEscaped("", dollar) == ""
  {
  }

  /** What stands before does not matter to a text that begins plain. */
  lemma OutsideIgnored(s: string, dollar: bool, inside: bool)
    requires s != "" && !IsSpecial(s[0], dollar)
    ensures Blocks(s, dollar, inside) == Blocks(s, dollar, false)
  {
  }

  // ---- the command ----------------------------------------------------------------------------------------------

  /** The script every registration runs, and the text between the command's two mentions of its path. */
  const ScriptFile: string := "/arcmux-session-hook.sh"
  const Middle: string := "\" || exit 0; sh \""

  predicate EndsInScript(path: string) { |path| >= |ScriptFile| && path[|path| - |ScriptFile|..] == ScriptFile }

  predicate SpellsMiddle(path: string) { exists k :: 0 <= k <= |path| && Middle <= path[k..] }

  /** An event name, or none. */
  predicate PlainEvent(event: string) {
    forall k :: 0 <= k < |event| ==> !IsSpecial(event[k], true) && event[k] != '/'
  }

  predicate Rooted(path: string) { path != "" && (path[0] == '/' || path[0] == '$') }

  /** Neither slash nor dollar sign, so neither the root nor the file name of a path. */
  predicate NoPath(s: string) { forall i :: 0 <= i < |s| ==> s[i] != '/' && s[i] != '$' }

  const Before: string := "test -f \""

  function After(event: string): string { "\"" + (if event == "" then "" else " " + event) }

  lemma CommandParts(display: string, event: string)
    ensures var e := ShellEscaped(display, !UnderHome(display));
            GuardedCommand(display, event) == Before + (e + (Middle + (e + After(event))))
  {
    var e := ShellEscaped(display, !UnderHome(display));
    var spaced := if event == "" then "" else " " + event;
    hide ShellEscaped;
    assert "test -f " + ("\"" + e + "\"") + " || exit 0; sh " + ("\"" + e + "\"") + spaced ==
           ("test -f " + "\"") + (e + (("\"" + " || exit 0; sh " + "\"") + (e + ("\"" + spaced))));
  }

  lemma NoPathParts(event: string)
    requires PlainEvent(event)
    ensures NoPath(Before) && NoPath(Middle) && NoPath(After(event))
    ensures Middle[0] == '"' && After(event)[0] == '"'
  {
  }

  lemma ScriptFileIsPlain(dollar: bool)
    ensures |ScriptFile| > 1 && ScriptFile[0] == '/'
    ensures forall i :: 0 <= i < |ScriptFile| ==> !IsSpecial(ScriptFile[i], dollar)
  {
  }

  /** Where the parts of a command lie. */
  lemma PartsLie(s: string, before: string, e: string, middle: string, after: string)
    requires s == before + (e + (middle + (e + after)))
    ensures |s| == |before| + 2 * |e| + |middle| + |after|
    ensures s[|before|..|before| + |e|] == e
    ensures s[|before| + |e|..|before| + |e| + |middle|] == middle
    ensures s[|before| + |e| + |middle|..|before| + 2 * |e| + |middle|] == e
    ensures s[|before| + 2 * |e| + |middle|..] == after
    ensures s[..|before|] == before
  {
    assert s[|before|..] == e + (middle + (e + after));
    assert s[|before|..][|e|..] == middle + (e + after);
    assert s[|before|..][|e|..][|middle|..] == e + after;
  }

  lemma PieceHas(s: string, from: nat, to: nat, part: string, i: nat)
    requires from <= i < to <= |s| && s[from..to] == part
    ensures |part| == to - from && s[i] == part[i - from]
  {
    assert s[from..to][i - from] == s[i];
  }

  lemma Slice(s: string, from: nat, to: nat, a: nat, b: nat)
    requires a <= b && from + b <= to <= |s|
    ensures s[from..to][a..b] == s[from + a..from + b]
  {
    var x, y := s[from..to][a..b], s[from + a..from + b];
    assert forall k :: 0 <= k < b - a ==> x[k] == s[from + a + k] && y[k] == s[from + a + k];
  }

  lemma NoPathThere(s: string, from: nat, to: nat, part: string, i: nat)
    requires from <= to <= |s| && s[from..to] == part && NoPath(part) && i < |s| && (s[i] == '/' || s[i] == '$')
    ensures !(from <= i < to)
  {
    if from <= i < to { PieceHas(s, from, to, part, i); }
  }

  /** The parts that are no path hold neither the root nor the file name of an alias. */
  lemma InAMention(s: string, before: string, e: string, middle: string, after: string, i: nat)
    requires s == before + (e + (middle + (e + after))) && i < |s| && (s[i] == '/' || s[i] == '$')
    requires NoPath(before) && NoPath(middle) && NoPath(after)
    ensures |before| <= i < |before| + |e| || |before| + |e| + |middle| <= i < |before| + 2 * |e| + |middle|
  {
    PartsLie(s, before, e, middle, after);
    var m, l := |before| + |e|, |before| + |e| + |middle|;
    hide NoPath;
    NoPathThere(s, 0, |before|, before, i);
    NoPathThere(s, m, l, middle, i);
    NoPathThere(s, l + |e|, |s|, after, i);
  }

  lemma WithinMention(s: string, from: nat, e: string, n: nat, alias: string) returns (x: string, y: string)
    requires from <= n && n + |alias| <= from + |e| <= |s| && s[from..from + |e|] == e && s[n..n + |alias|] == alias
    ensures e == x + (alias + y)
  {
    var k := n - from;
    Slice(s, from, from + |e|, k, k + |alias|);
    x, y := e[..k], e[k + |alias|..];
    assert e == e[..k] + (e[k..k + |alias|] + e[k + |alias|..]);
  }

  /** The characters of an alias from its file name on. */
  lemma FileNameAt(s: string, n: nat, alias: string, file: string, i: nat)
    requires n + |alias| <= |s| && s[n..n + |alias|] == alias && |file| <= |alias| && alias[|alias| - |file|..] == file
    requires n + |alias| - |file| <= i < n + |alias|
    ensures s[i] == file[i - (n + |alias| - |file|)]
  {
    PieceHas(s, n, n + |alias|, alias, i);
    PieceHas(alias, |alias| - |file|, |alias|, file, i - n);
  }

  lemma NoQuoteThere(s: string, n: nat, alias: string, file: string, i: nat)
    requires n + |alias| <= |s| && s[n..n + |alias|] == alias && |file| <= |alias| && alias[|alias| - |file|..] == file
    requires (forall j :: 0 <= j < |file| ==> file[j] != '"') && i < |s| && s[i] == '"'
    ensures !(n + |alias| - |file| <= i < n + |alias|)
  {
    if n + |alias| - |file| <= i < n + |alias| { FileNameAt(s, n, alias, file, i); }
  }

  lemma AcrossSpells(s: string, n: nat, alias: string, m: nat, l: nat, middle: string)
    requires n + |alias| <= |s| && s[n..n + |alias|] == alias && m <= l <= |s| && s[m..l] == middle
    ensures n <= m && l <= n + |alias| ==> exists k :: 0 <= k <= |alias| && middle <= alias[k..]
  {
    if n <= m && l <= n + |alias| {
      Slice(s, n, n + |alias|, m - n, l - n);
      assert middle <= alias[m - n..];
    }
  }

  /** Where an alias can stand in the command: within one of the two mentions, unless it spells the middle. */
  lemma StandsInside(s: string, before: string, e: string, middle: string, after: string, alias: string, file: string,
      n: nat)
    returns (x: string, y: string)
    requires s == before + (e + (middle + (e + after))) && n + |alias| <= |s| && s[n..n + |alias|] == alias
    requires NoPath(before) && NoPath(middle) && NoPath(after) && middle != "" && middle[0] == '"'
    requires after != "" && after[0] == '"' && Rooted(alias) && 0 < |file| <= |alias|
    requires alias[|alias| - |file|..] == file && file[0] == '/' && forall i :: 0 <= i < |file| ==> file[i] != '"'
    requires !exists k :: 0 <= k <= |alias| && middle <= alias[k..]
    ensures e == x + (alias + y)
  {
    PartsLie(s, before, e, middle, after);
    var b, m, l, q := |before|, |before| + |e|, |before| + |e| + |middle|, n + |alias| - |file|;
    PieceHas(s, n, n + |alias|, alias, n);
    InAMention(s, before, e, middle, after, n);
    FileNameAt(s, n, alias, file, q);
    InAMention(s, before, e, middle, after, q);
    PieceHas(s, m, l, middle, m);
    PieceHas(s, l + |e|, |s|, after, l + |e|);
    NoQuoteThere(s, n, alias, file, m);
    NoQuoteThere(s, n, alias, file, l + |e|);
    AcrossSpells(s, n, alias, m, l, middle);
    if n < m {
      x, y := WithinMention(s, b, e, n, alias);
    } else {
      x, y := WithinMention(s, l, e, n, alias);
    }
  }

  lemma Stands(command: string, alias: string) returns (n: nat)
    requires Contains(Codes(command), Codes(alias))
    ensures n + |alias| <= |command| && command[n..n + |alias|] == alias
  {
    CodesAt(command);
    CodesAt(alias);
    hide Codes;
    n :| 0 <= n <= |command| && Codes(alias) <= Codes(command)[n..];
    forall j | 0 <= j < |alias|
      ensures n + j < |command| && command[n + j] == alias[j]
    {
      PrefixAt(Codes(command), Codes(alias), n, j);
    }
  }

  /** An alias that stands in the command stands in the escaped path. */
  lemma StandsInEscaped(display: string, event: string, alias: string) returns (x: string, y: string)
    requires PlainEvent(event) && Rooted(alias) && EndsInScript(alias) && !SpellsMiddle(alias)
    requires Contains(Codes(GuardedCommand(display, event)), Codes(alias))
    ensures ShellEscaped(display, !UnderHome(display)) == x + (alias + y)
  {
    var n := Stands(GuardedCommand(display, event), alias);
    CommandParts(display, event);
    NoPathParts(event);
    ScriptFileIsPlain(true);
    var e := ShellEscaped(display, !UnderHome(display));
    hide ShellEscaped, GuardedCommand, NoPath, Codes, Contains;
    x, y := StandsInside(GuardedCommand(display, event), Before, e, Middle, After(event), alias, ScriptFile, n);
  }

  lemma PlainIsZero(display: string)
    ensures PlainPath(display) <==> Specials(display, !UnderHome(display)) == 0
  {
    NoBlocks(display, !UnderHome(display), false);
  }

  lemma ScriptEndsPlain(alias: string, dollar: bool)
    requires EndsInScript(alias)
    ensures alias != "" && !IsSpecial(alias[|alias| - 1], dollar)
  {
    ScriptFileIsPlain(dollar);
    assert alias[|alias| - 1] == alias[|alias| - |ScriptFile|..][|ScriptFile| - 1];
  }

  /** A path outside the home directory is named by its command exactly when it has no escaped character. */
  lemma NamedElsewhere(path: string, event: string)
    requires path != "" && path[0] == '/' && EndsInScript(path) && !SpellsMiddle(path) && PlainEvent(event)
    ensures Names(Text(Codes(GuardedCommand(path, event))), [path]) <==> PlainPath(path)
  {
    hide Codes, GuardedCommand, PlainPath, Contains, SpellsMiddle, PlainEvent, EndsInScript, ShellEscaped;
    assert !UnderHome(path);
    assert [path][0] == path;
    if PlainPath(path) { PlainPathIsNamed(path, event); }
    if Contains(Codes(GuardedCommand(path, event)), Codes(path)) {
      var x, y := StandsInEscaped(path, event, path);
      ScriptEndsPlain(path, true);
      InsideEscaped(path, path, true, x, y);
      PlainIsZero(path);
    }
  }

  const HomeName: string := "$HOME"

  lemma HomeIsPlain(tail: string)
    requires tail != "" && tail[0] == '/'
    ensures UnderHome(HomeName + tail) && Rooted(HomeName + tail)
    ensures Specials(HomeName, false) == 0 && Blocks(HomeName, false, false) == 0 && !EndsInside(HomeName, false, false)
  {
    assert (HomeName + tail)[..6] == "$HOME/";
    NoBlocks(HomeName, false, false);
    assert Blocks("", false, false) == 0 && Blocks("E", false, false) == 0 && Blocks("ME", false, false) == 0;
    assert Blocks("OME", false, false) == 0;
    assert Blocks("HOME", false, false) == 0;
  }

  lemma Tails(head: string, tail: string)
    requires EndsInScript(tail)
    ensures EndsInScript(head + tail)
  {
    assert (head + tail)[|head + tail| - |ScriptFile|..] == tail[|tail| - |ScriptFile|..];
  }

  /** A path under the home directory is named, in full or by its display form, exactly when what follows the home
      directory has no escaped character. */
  lemma NamedUnderHome(home: string, tail: string, event: string)
    requires (home == "" || home[0] == '/') && tail != "" && tail[0] == '/' && EndsInScript(tail) && PlainEvent(event)
    requires !SpellsMiddle(home + tail) && !SpellsMiddle(HomeName + tail)
    ensures Names(Text(Codes(GuardedCommand(HomeName + tail, event))), [home + tail, HomeName + tail])
            <==> PlainPath(HomeName + tail)
  {
    hide Codes, GuardedCommand, PlainPath, Contains, SpellsMiddle, PlainEvent, EndsInScript, ShellEscaped, UnderHome;
    var path, display := home + tail, HomeName + tail;
    var aliases := [path, display];
    assert aliases[0] == path && aliases[1] == display;
    HomeIsPlain(tail);
    Tails(home, tail);
    Tails(HomeName, tail);
    Joined(HomeName, tail, false, false);
    Joined(home, tail, false, false);
    OutsideIgnored(tail, false, EndsInside(home, false, false));
    NoBlocks(home, false, false);
    PlainIsZero(display);
    if PlainPath(display) { PlainPathIsNamed(display, event); }
    if Contains(Codes(GuardedCommand(display, event)), Codes(display)) {
      var x, y := StandsInEscaped(display, event, display);
      ScriptEndsPlain(display, false);
      InsideEscaped(display, display, false, x, y);
    }
    if Contains(Codes(GuardedCommand(display, event)), Codes(path)) {
      var x, y := StandsInEscaped(display, event, path);
      ScriptEndsPlain(path, false);
      InsideEscaped(path, display, false, x, y);
    }
  }

  lemma {:induction false} EscapedJoined(a: string, b: string, dollar: bool)
    ensures ShellEscaped(a + b, dollar) == ShellEscaped(a, dollar) + ShellEscaped(b, dollar)
    decreases |a|
  {
    if a == "" {
      assert a + b == b;
    } else {
      assert (a + b)[1..] == a[1..] + b && (a + b)[0] == a[0];
      EscapedJoined(a[1..], b, dollar);
    }
  }

  lemma SpelledStands(plain: string, middle: string, event: string)
    requires ShellEscaped(plain, true) == plain && !UnderHome(plain + (middle + plain)) && middle == Middle
    ensures Contains(Codes(GuardedCommand(plain + (middle + plain), event)), Codes(plain + (middle + plain)))
  {
    var path := plain + (middle + plain);
    EscapedJoined(plain, middle + plain, true);
    EscapedJoined(middle, plain, true);
    CommandParts(path, event);
    var inner, after := ShellEscaped(middle, true), After(event);
    assert GuardedCommand(path, event) ==
           Before + ((plain + (inner + plain)) + (middle + ((plain + (inner + plain)) + after)));
    hide *;
    Regrouped(Before, plain, inner, middle, after);
    InsideContains(Before + (plain + inner), path, inner + (plain + after));
  }

  /** A path that spells the middle between two copies of a plain path is named all the same: the command's own middle
      stands between its two mentions. */
  lemma SpelledPathIsNamed(plain: string, event: string)
    requires plain != "" && plain[0] == '/' && PlainPath(plain)
    ensures var path := plain + (Middle + plain);
            !PlainPath(path) && Names(Text(Codes(GuardedCommand(path, event))), [path])
  {
    var path := plain + (Middle + plain);
    assert path[0] == '/' && path[|plain|] == '"' && IsSpecial(path[|plain|], true);
    assert !UnderHome(plain) && !UnderHome(path);
    PlainEscape(plain, true);
    hide UnderHome, GuardedCommand, Codes, Contains, ShellEscaped;
    SpelledStands(plain, Middle, event);
    assert [path][0] == path;
  }

  lemma Regrouped(before: string, f: string, inner: string, middle: string, after: string)
    ensures before + ((f + (inner + f)) + (middle + ((f + (inner + f)) + after))) ==
            (before + (f + inner)) + (f + (middle + f)) + (inner + (f + after))
  {
  }

  // ---- when a registration settles --------------------------------------------------------------------------------

  /** The aliases of a script path, and its display form: the path itself, or under the home directory both. */
  ghost predicate AliasesOf(aliases: seq<string>, display: string) {
    || (aliases == [display] && display != "" && display[0] == '/' && EndsInScript(display) && !SpellsMiddle(display))
    || (exists home: string, tail: string :: UnderOneHome(aliases, display, home, tail))
  }

  predicate UnderOneHome(aliases: seq<string>, display: string, home: string, tail: string) {
    && aliases == [home + tail, HomeName + tail] && display == HomeName + tail
    && (home == "" || home[0] == '/') && tail != "" && tail[0] == '/' && EndsInScript(tail)
    && !SpellsMiddle(home + tail) && !SpellsMiddle(HomeName + tail)
  }

  lemma CommandNamesItsPath(aliases: seq<string>, display: string, event: string)
    requires AliasesOf(aliases, display) && PlainEvent(event)
    ensures Names(Text(Codes(GuardedCommand(display, event))), aliases) <==> PlainPath(display)
  {
    hide Names, Codes, GuardedCommand, PlainPath, SpellsMiddle, EndsInScript, PlainEvent;
    if aliases == [display] && display != "" && display[0] == '/' && EndsInScript(display) && !SpellsMiddle(display) {
      NamedElsewhere(display, event);
    } else {
      var home: string, tail: string :| UnderOneHome(aliases, display, home, tail);
      NamedUnderHome(home, tail, event);
    }
  }

  /** Both registrations of a script path settle at once exactly when the path has no escaped character: whatever
      else the file holds, as long as none of the events was registered and no key of theirs is duplicated. */
  lemma PathSettlesExactlyWhen(d: Document, events: seq<string>, entries: seq<Entry>, aliases: seq<string>,
      display: string)
    requires WellFormedDocument(d) && |entries| == |events| > 0 && ValidEntries(entries) && Distinct(events)
    requires FromTemplates(events, entries, display) && AliasesOf(aliases, display)
    requires forall k :: 0 <= k < |events| ==>
               && PlainEvent(events[k]) && Unique(Meaning(d.value), events[k]) && !Registered(d, events[k], aliases)
    requires RegisterTree(d, events, entries, aliases).Ok?
    ensures var d' := RegisterTree(d, events, entries, aliases).value.0;
            RegisterTree(d', events, entries, aliases) == Ok((d', false)) <==> PlainPath(display)
  {
    hide RegisterTree, Registered, Unique, WellFormed, Meaning, Hits, AliasesOf, PlainPath, PlainEvent, FromTemplates;
    forall k | 0 <= k < |events|
      ensures Hits(entries[k], aliases) <==> PlainPath(display)
    {
      TemplateHitsExactlyWhen(events, entries, aliases, display, k);
    }
    IdempotentExactlyWhen(d, events, entries, aliases);
    assert Hits(entries[0], aliases) <==> PlainPath(display);
  }

  lemma TemplateHitsExactlyWhen(events: seq<string>, entries: seq<Entry>, aliases: seq<string>, display: string, k: nat)
    requires |entries| == |events| && k < |events| && ValidEntries(entries)
    requires FromTemplates(events, entries, display) && AliasesOf(aliases, display) && PlainEvent(events[k])
    ensures Hits(entries[k], aliases) <==> PlainPath(display)
  {
    hide WellFormed, Meaning, Hits, AliasesOf, PlainPath, GuardedCommand, HookEntry, ClaudeRest, CodexRest, Codes,
      Names;
    var event := if entries[k] == ClaudeEntry(GuardedCommand(display, "")) then "" else events[k];
    CommandNamesItsPath(aliases, display, event);
    RestsAreQuiet();
    EntryHits(GuardedCommand(display, event), ClaudeRest, aliases);
    EntryHits(GuardedCommand(display, event), CodexRest, aliases);
  }
}
