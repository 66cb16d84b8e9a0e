/** Digits, and splitting text at a separator. */
module Text {
  predicate IsDigit(c: char) { '0' <= c <= '9' }

  predicate Lacks(s: string, c: char) { forall i :: 0 <= i < |s| ==> s[i] != c }

  /** strings.Split: the parts between the separators, always at least one. */
  function Split(s: string, separator: char): (parts: seq<string>)
    ensures |parts| >= 1
  {
    if s == "" then [""]
    else if s[0] == separator then [""] + Split(s[1..], separator)
    else
      var rest := Split(s[1..], separator);
      [[s[0]] + rest[0]] + rest[1..]
  }

  lemma {:induction false} SplitFirst(a: string, separator: char, rest: string)
    requires Lacks(a, separator)
    ensures Split(a + [separator] + rest, separator) == [a] + Split(rest, separator)
    decreases |a|
  {
    var s := a + [separator] + rest;
    if a == "" {
      assert s[1..] == rest;
    } else {
      SplitFirst(a[1..], separator, rest);
      assert s[1..] == a[1..] + [separator] + rest;
      assert [a[0]] + a[1..] == a;
    }
  }

  lemma {:induction false} SplitLast(a: string, separator: char)
    requires Lacks(a, separator)
    ensures Split(a, separator) == [a]
    decreases |a|
  {
    if a != "" {
      SplitLast(a[1..], separator);
      assert [a[0]] + a[1..] == a;
    }
  }
}
