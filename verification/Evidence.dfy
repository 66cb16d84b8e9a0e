/**
 The delivery evidence: a launch prompt begins with the handoff's marker, padded so that the
 recorded preview of the prompt is the marker's own and shows nothing else of the prompt.

 SHA-256 is the argument `sha`. All that is asked of it is its form, 64 lower-case hexadecimal
 digits; two handoffs share their evidence exactly when they are the same or their two hashed
 texts are a collision of `sha`. Inputs are texts; the marker hashes one text made of the id
 and digest.
 */
module Evidence {
  import opened Wrappers
  import opened Records
  import opened Text

  const PreviewRunes: nat := 200
  const MarkerPrefix: string := "arcmux-handoff-v1:"
  const HashRunes: nat := 64
  const Ellipsis: string := "…"

  // ---- the preview ---------------------------------------------------------------------------------------

  predicate IsBreak(c: char) { c == '\n' || c == '\r' || c == '\t' }

  predicate IsBlank(c: char) { c == ' ' || IsBreak(c) }

  /** The text with every run of blanks collapsed to one space; `space` says that the last character kept was one. */
  function Flat(s: string, space: bool): string {
    if s == "" then ""
    else if IsBlank(s[0]) then (if space then Flat(s[1..], true) else " " + Flat(s[1..], true))
    else [s[0]] + Flat(s[1..], false)
  }

  function Preview(s: string, n: nat): string {
    var flat := Flat(s, false);
    if |flat| <= n then flat else flat[..n] + Ellipsis
  }

  lemma FlatStep(flat: string, s: string, i: nat, space: bool)
    requires i < |s|
    ensures flat + Flat(s[i..], space) ==
              (if IsBlank(s[i]) && space then flat else flat + [if IsBlank(s[i]) then ' ' else s[i]])
                + Flat(s[i + 1..], IsBlank(s[i]))
  {
    assert s[i..][0] == s[i] && s[i..][1..] == s[i + 1..];
    var rest := Flat(s[i + 1..], IsBlank(s[i]));
    assert flat + (" " + rest) == (flat + [' ']) + rest;
    assert flat + ([s[i]] + rest) == (flat + [s[i]]) + rest;
  }

  lemma FlatEnds(flat: string, s: string, space: bool)
    ensures flat + Flat(s[|s|..], space) == flat && "" + Flat(s[0..], false) == Flat(s, false)
  {
    assert s[0..] == s;
  }

  /** The loop of truncatePreview. */
  method TruncatePreview(s: string, n: nat) returns (out: string)
    ensures out == Preview(s, n)
  {
    hide Flat;
    var flat := "";
    var prevSpace := false;
    var i := 0;
    FlatEnds(flat, s, false);
    while i < |s|
      invariant 0 <= i <= |s|
      invariant flat + Flat(s[i..], prevSpace) == Flat(s, false)
    {
      FlatStep(flat, s, i, prevSpace);
      var r := s[i];
      i := i + 1;
      if r == '\n' || r == '\r' || r == '\t' { r := ' '; }
      if r == ' ' {
        if prevSpace { continue; }
        prevSpace := true;
      } else {
        prevSpace := false;
      }
      flat := flat + [r];
    }
    FlatEnds(flat, s, prevSpace);
    if |flat| <= n { return flat; }
    return flat[..n] + Ellipsis;
  }

  /** A preview is one line without doubled spaces, and keeps the text's other characters in order. */
  lemma {:induction false} FlatIsOneLine(s: string, space: bool)
    ensures forall i :: 0 <= i < |Flat(s, space)| ==> !IsBreak(Flat(s, space)[i])
    ensures forall i :: 0 < i < |Flat(s, space)| ==> !(Flat(s, space)[i - 1] == ' ' && Flat(s, space)[i] == ' ')
    ensures space && Flat(s, space) != "" ==> Flat(s, space)[0] != ' '
    ensures Solid(Flat(s, space)) == Solid(s)
    decreases |s|
  {
    if s != "" {
      if IsBlank(s[0]) {
        FlatIsOneLine(s[1..], true);
      } else {
        FlatIsOneLine(s[1..], false);
        assert ([s[0]] + Flat(s[1..], false))[1..] == Flat(s[1..], false);
      }
      if IsBlank(s[0]) && !space { assert (" " + Flat(s[1..], true))[1..] == Flat(s[1..], true); }
    }
  }

  /** A text's characters other than blanks. */
  function Solid(s: string): string {
    if s == "" then "" else if IsBlank(s[0]) then Solid(s[1..]) else [s[0]] + Solid(s[1..])
  }

  /** A beginning without blanks stays as it is. */
  lemma {:induction false} FlatPrefix(a: string, b: string)
    requires forall i :: 0 <= i < |a| ==> !IsBlank(a[i])
    ensures a != "" ==> Flat(a + b, false) == a + Flat(b, false)
    decreases |a|
  {
    if a != "" {
      assert (a + b)[1..] == a[1..] + b && (a + b)[0] == a[0];
      FlatPrefix(a[1..], b);
      if a[1..] == "" { assert a[1..] + b == b; }
      assert a == [a[0]] + a[1..];
    }
  }

  // ---- markers ---------------------------------------------------------------------------------------------

  predicate IsHexDigit(c: char) { '0' <= c <= '9' || 'a' <= c <= 'f' }

  /** The form of SHA-256 in hexadecimal. */
  ghost predicate HexHash(sha: string -> string) {
    forall text :: |sha(text)| == HashRunes && forall i :: 0 <= i < HashRunes ==> IsHexDigit(sha(text)[i])
  }

  /** Two different texts with the same hash. */
  predicate Collide(sha: string -> string, a: string, b: string) { a != b && sha(a) == sha(b) }

  function Hashed(id: string, digest: string): string { "arcmux-handoff-prompt-v1\0" + id + "\0" + digest }

  function MarkerText(sha: string -> string, id: string, digest: string): string {
    MarkerPrefix + sha(Hashed(id, digest))
  }

  /** The marker check of the receiving command. */
  predicate ValidMarkerText(marker: string) {
    MarkerPrefix <= marker && |marker| == |MarkerPrefix| + HashRunes && forall i :: |MarkerPrefix| <= i < |marker| ==>
      IsHexDigit(marker[i])
  }

  predicate HexDigest(hash: string) {
    |hash| == 64 && forall i :: 0 <= i < |hash| ==> '0' <= hash[i] <= '9' || 'a' <= hash[i] <= 'f'
  }

  /** A valid marker is the prefix and exactly 64 lower-case hexadecimal digits. */
  lemma MarkersExactly(marker: string)
    ensures ValidMarkerText(marker) <==> exists hash :: HexDigest(hash) && marker == MarkerPrefix + hash
  {
    if ValidMarkerText(marker) {
      var hash := marker[|MarkerPrefix|..];
      assert marker == MarkerPrefix + hash;
      assert forall i :: 0 <= i < |hash| ==> hash[i] == marker[|MarkerPrefix| + i];
      assert HexDigest(hash);
    }
    if hash :| HexDigest(hash) && marker == MarkerPrefix + hash {
      assert forall i :: |MarkerPrefix| <= i < |marker| ==> marker[i] == hash[i - |MarkerPrefix|];
    }
  }

  lemma MarkersAreValid(sha: string -> string, id: string, digest: string)
    requires HexHash(sha)
    ensures ValidMarkerText(MarkerText(sha, id, digest))
  {
    var text := Hashed(id, digest);
    assert |sha(text)| == HashRunes;
  }

  /** The hashed text tells its id and digest apart, because an id has no NUL. */
  lemma HashedInjective(id1: string, digest1: string, id2: string, digest2: string)
    requires ValidID(id1) && ValidID(id2) && Hashed(id1, digest1) == Hashed(id2, digest2)
    ensures id1 == id2 && digest1 == digest2
  {
    var head := "arcmux-handoff-prompt-v1\0";
    var a, b := id1 + "\0" + digest1, id2 + "\0" + digest2;
    assert Hashed(id1, digest1) == head + a && Hashed(id2, digest2) == head + b;
    assert (head + a)[|head|..] == a && (head + b)[|head|..] == b;
    assert a[|id1|] == '\0' && b[|id2|] == '\0';
    assert forall i :: 0 <= i < |id1| ==> a[i] == id1[i] && IsSafeChar(id1[i]);
    assert forall i :: 0 <= i < |id2| ==> b[i] == id2[i] && IsSafeChar(id2[i]);
    assert |id1| == |id2|;
    assert id1 == a[..|id1|] == id2;
    assert digest1 == a[|id1| + 1..] == digest2;
  }

  /** Two handoffs have the same marker exactly when they are the same or their hashed texts collide. */
  lemma MarkersAreDistinct(sha: string -> string, id1: string, digest1: string, id2: string, digest2: string)
    requires ValidID(id1) && ValidID(id2)
    ensures MarkerText(sha, id1, digest1) == MarkerText(sha, id2, digest2) <==>
              (id1 == id2 && digest1 == digest2) || Collide(sha, Hashed(id1, digest1), Hashed(id2, digest2))
  {
    var a, b := Hashed(id1, digest1), Hashed(id2, digest2);
    assert MarkerText(sha, id1, digest1)[|MarkerPrefix|..] == sha(a)
      && MarkerText(sha, id2, digest2)[|MarkerPrefix|..] == sha(b);
    if a == b { HashedInjective(id1, digest1, id2, digest2); }
  }

  // ---- evidence ----------------------------------------------------------------------------------------------

  function Dashes(n: nat): string { seq(n, _ => '-') }

  /** The marker padded to the length of a preview. */
  function SafePreamble(marker: string): string
    requires |marker| <= PreviewRunes
  {
    marker + Dashes(PreviewRunes - |marker|)
  }

  /** The command that the launch protocol expects to find recorded. */
  function CurrentCommand(marker: string): string
    requires |marker| <= PreviewRunes
  {
    SafePreamble(marker) + Ellipsis
  }

  /** The launch prompt, `request` being the sentence that names the two commands to run. */
  function LaunchPrompt(marker: string, request: string): string
    requires |marker| <= PreviewRunes
  {
    SafePreamble(marker) + "\n\n" + request
  }

  /** For every handoff the preview recorded for its launch prompt is exactly the expected command. */
  lemma PreviewIsEvidence(marker: string, request: string)
    requires ValidMarkerText(marker)
    ensures |marker| <= PreviewRunes && Preview(LaunchPrompt(marker, request), PreviewRunes) == CurrentCommand(marker)
  {
    var preamble := SafePreamble(marker);
    assert forall i :: 0 <= i < |MarkerPrefix| ==> marker[i] == MarkerPrefix[i] && !IsBlank(MarkerPrefix[i]);
    assert forall i :: 0 <= i < |marker| ==> !IsBlank(marker[i]);
    assert forall i :: 0 <= i < |preamble| ==> !IsBlank(preamble[i]);
    var rest := "\n\n" + request;
    assert LaunchPrompt(marker, request) == preamble + rest;
    FlatPrefix(preamble, rest);
    assert Flat(rest, false) == " " + Flat(rest[1..], true);
    assert (preamble + Flat(rest, false))[..PreviewRunes] == preamble;
  }

  /** Distinct markers yield distinct evidence. */
  lemma EvidenceTellsMarkers(a: string, b: string)
    requires ValidMarkerText(a) && ValidMarkerText(b)
    ensures CurrentCommand(a) == CurrentCommand(b) <==> a == b
  {
    assert CurrentCommand(a)[..|a|] == a && CurrentCommand(b)[..|b|] == b;
  }

  /** A recorded command tells whose launch prompt it was: two handoffs share it exactly when they are the same, or
      when their two different hashed texts are a collision of the hash. */
  lemma EvidenceIdentifiesHandoff(sha: string -> string, id1: string, digest1: string, id2: string, digest2: string)
    requires HexHash(sha) && ValidID(id1) && ValidID(id2)
    ensures |MarkerText(sha, id1, digest1)| <= PreviewRunes && |MarkerText(sha, id2, digest2)| <= PreviewRunes
    ensures CurrentCommand(MarkerText(sha, id1, digest1)) == CurrentCommand(MarkerText(sha, id2, digest2)) <==>
              (id1 == id2 && digest1 == digest2) || Collide(sha, Hashed(id1, digest1), Hashed(id2, digest2))
  {
    MarkersAreValid(sha, id1, digest1);
    MarkersAreValid(sha, id2, digest2);
    EvidenceTellsMarkers(MarkerText(sha, id1, digest1), MarkerText(sha, id2, digest2));
    MarkersAreDistinct(sha, id1, digest1, id2, digest2);
  }

  /** The preview of any prompt is a marker's evidence exactly when the prompt, made one line, goes on after the
      padded marker. */
  lemma RecordedExactlyWhen(marker: string, prompt: string)
    requires ValidMarkerText(marker)
    ensures Preview(prompt, PreviewRunes) == CurrentCommand(marker) <==>
              |Flat(prompt, false)| > PreviewRunes && SafePreamble(marker) <= Flat(prompt, false)
  {
    var flat := Flat(prompt, false);
    var preamble := SafePreamble(marker);
    assert (preamble + Ellipsis)[..PreviewRunes] == preamble;
    if |flat| > PreviewRunes {
      assert (flat[..PreviewRunes] + Ellipsis)[..PreviewRunes] == flat[..PreviewRunes];
    }
  }

  // ---- hashes without collisions on what is hashed --------------------------------------------------------------

  predicate CollisionFree(sha: string -> string, texts: seq<string>) {
    forall i, j :: 0 <= i < j < |texts| && texts[i] != texts[j] ==> sha(texts[i]) != sha(texts[j])
  }

  /** With a hash that has no collision among them, any number of handoffs have evidence of their own. */
  lemma EvidenceOfMany(sha: string -> string, handoffs: seq<(string, string)>, i: nat, j: nat)
    requires HexHash(sha) && i < |handoffs| && j < |handoffs| && handoffs[i] != handoffs[j]
    requires forall k :: 0 <= k < |handoffs| ==> ValidID(handoffs[k].0)
    requires CollisionFree(sha, seq(|handoffs|, k requires 0 <= k < |handoffs| => Hashed(handoffs[k].0, handoffs[k].1)))
    ensures |MarkerText(sha, handoffs[i].0, handoffs[i].1)| <= PreviewRunes
        && |MarkerText(sha, handoffs[j].0, handoffs[j].1)| <= PreviewRunes
    ensures CurrentCommand(MarkerText(sha, handoffs[i].0, handoffs[i].1)) != CurrentCommand(MarkerText(sha,
        handoffs[j].0, handoffs[j].1))
  {
    var texts := seq(|handoffs|, k requires 0 <= k < |handoffs| => Hashed(handoffs[k].0, handoffs[k].1));
    hide ValidID, Hashed, CurrentCommand, MarkerText, HexHash;
    EvidenceIdentifiesHandoff(sha, handoffs[i].0, handoffs[i].1, handoffs[j].0, handoffs[j].1);
    assert texts[i] == Hashed(handoffs[i].0, handoffs[i].1) && texts[j] == Hashed(handoffs[j].0, handoffs[j].1);
  }

  function HexChar(n: nat): char
    requires n < 16
  {
    "0123456789abcdef"[n]
  }

  function HexText(n: nat, digits: nat): (s: string)
    ensures |s| == digits && forall i :: 0 <= i < digits ==> IsHexDigit(s[i])
  {
    if digits == 0 then "" else HexText(n / 16, digits - 1) + [HexChar(n % 16)]
  }

  /** How many numbers so many hexadecimal digits tell apart. */
  function HexRange(digits: nat): nat { if digits == 0 then 1 else 16 * HexRange(digits - 1) }

  lemma {:induction false} HexTextInjective(a: nat, b: nat, digits: nat)
    requires a < HexRange(digits) && b < HexRange(digits) && HexText(a, digits) == HexText(b, digits)
    ensures a == b
    decreases digits
  {
    if digits > 0 {
      var s, t := HexText(a, digits), HexText(b, digits);
      assert s[..digits - 1] == HexText(a / 16, digits - 1) && t[..digits - 1] == HexText(b / 16, digits - 1);
      assert s[digits - 1] == HexChar(a % 16) && t[digits - 1] == HexChar(b % 16);
      HexTextInjective(a / 16, b / 16, digits - 1);
    }
  }

  function IndexOf(texts: seq<string>, text: string): (n: nat)
    requires text in texts
    ensures n < |texts| && texts[n] == text
  {
    if texts[0] == text then 0 else 1 + IndexOf(texts[1..], text)
  }

  /** Such hashes exist for every list of texts that 64 digits can tell apart at all. */
  lemma CollisionFreeHashExists(texts: seq<string>)
    requires |texts| <= HexRange(HashRunes)
    ensures exists sha :: HexHash(sha) && CollisionFree(sha, texts)
  {
    hide HexText, HexRange, IndexOf;
    var sha := text => if text in texts then HexText(IndexOf(texts, text), HashRunes) else HexText(0, HashRunes);
    forall i, j | 0 <= i < j < |texts| && texts[i] != texts[j]
      ensures sha(texts[i]) != sha(texts[j])
    {
      if sha(texts[i]) == sha(texts[j]) {
        HexTextInjective(IndexOf(texts, texts[i]), IndexOf(texts, texts[j]), HashRunes);
      }
    }
    assert HexHash(sha) && CollisionFree(sha, texts);
  }
}
