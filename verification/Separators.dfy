/** Fields told apart by a separator character. */
module Separators {
  predicate Free(s: string, separator: char) {
    separator !in s
  }

  function IndexOf(s: string, separator: char): (i: nat)
    ensures i <= |s|
  {
    if s == [] || s[0] == separator then 0 else 1 + IndexOf(s[1..], separator)
  }

  lemma {:induction false} IndexOfFirst(a: string, x: string, separator: char)
    requires Free(a, separator)
    ensures IndexOf(a + ([separator] + x), separator) == |a|
  {
    if a != [] {
      assert (a + ([separator] + x))[1..] == a[1..] + ([separator] + x);
      IndexOfFirst(a[1..], x, separator);
    }
  }

  /** A field without the separator can be told apart from what follows it. */
  lemma SplitsOnce(a: string, x: string, b: string, y: string, separator: char)
    requires Free(a, separator) && Free(b, separator)
    requires a + ([separator] + x) == b + ([separator] + y)
    ensures a == b && x == y
  {
    var s := a + ([separator] + x);
    IndexOfFirst(a, x, separator);
    IndexOfFirst(b, y, separator);
    assert a == s[..|a|] && b == s[..|a|] && x == s[|a| + 1..] && y == s[|a| + 1..];
  }
}
