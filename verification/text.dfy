/** Names joined by a separator. */
module Text {
  lemma BeforeSeparator(name: string, separator: char, rest: string)
    requires separator !in name
    ensures var joined := name + [separator] + rest;
            joined[|name|] == separator && forall i | 0 <= i < |name| :: joined[i] != separator
  {}

  /** Parts joined by a separator that the first part does not contain can be told apart again. */
  lemma JoinedApart(n1: string, r1: string, n2: string, r2: string, separator: char)
    requires separator !in n1 && separator !in n2
    ensures n1 + [separator] + r1 == n2 + [separator] + r2 ==> n1 == n2 && r1 == r2
  {
    var (a, b) := (n1 + [separator] + r1, n2 + [separator] + r2);
    BeforeSeparator(n1, separator, r1);
    BeforeSeparator(n2, separator, r2);
    if a == b {
      assert |n1| == |n2|;
      assert n1 == a[..|n1|] && n2 == b[..|n2|];
      assert r1 == a[|n1| + 1..] && r2 == b[|n2| + 1..];
    }
  }
}
