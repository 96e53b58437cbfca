/** Cell-scoped bus topics (internal/nectar/topic.go) and the namespace check that makes them
    unambiguous (internal/api/validation.go). Strings are sequences of bytes. */
module Topic {
  const PREFIX := "cell."

  /** Prints a topic under its Cell; system topics (empty namespace) are left alone. */
  function PrefixTopic(namespace: string, topic: string): string {
    if namespace == "" then topic else PREFIX + namespace + "." + topic
  }

  /** Position of the first dot, or the length when there is none. */
  function FirstDot(s: string): (d: nat)
    ensures d <= |s|
    ensures '.' !in s[..d]
    ensures d < |s| ==> s[d] == '.'
  {
    if s == "" || s[0] == '.' then 0
    else
      var d := 1 + FirstDot(s[1..]);
      assert s[..d] == [s[0]] + s[1..][..d - 1];
      d
  }

  predicate IsPrefixed(topic: string) {
    PREFIX <= topic && '.' in topic[|PREFIX|..]
  }

  /** The (namespace, topic) pair that ExtractNamespace returns. */
  function Split(prefixed: string): (string, string) {
    if !IsPrefixed(prefixed) then ("", prefixed)
    else
      var rest := prefixed[|PREFIX|..];
      var d := FirstDot(rest);
      assert rest[..|rest|] == rest;
      (rest[..d], rest[d + 1..])
  }

  method ExtractNamespace(prefixedTopic: string) returns (namespace: string, topic: string)
    ensures (namespace, topic) == Split(prefixedTopic)
  {
    if |prefixedTopic| < |PREFIX| || prefixedTopic[..|PREFIX|] != PREFIX {
      return "", prefixedTopic;
    }
    var remaining := prefixedTopic[|PREFIX|..];
    for i := 0 to |remaining|
      invariant '.' !in remaining[..i]
    {
      if remaining[i] == '.' {
        FirstDotIsUnique(remaining, i);
        return remaining[..i], remaining[i + 1..];
      }
      assert remaining[..i + 1] == remaining[..i] + [remaining[i]];
    }
    assert remaining[..|remaining|] == remaining;
    return "", prefixedTopic;
  }

  lemma FirstDotIsUnique(s: string, d: nat)
    requires d < |s| && '.' !in s[..d] && s[d] == '.'
    ensures FirstDot(s) == d
  {
    var e := FirstDot(s);
    assert forall k | 0 <= k < d :: s[..d][k] in s[..d];
    assert forall k | 0 <= k < e :: s[..e][k] in s[..e];
  }

  /** Parsing undoes printing exactly when the namespace has no dot; with no namespace, exactly when the
      bare topic does not itself look prefixed. */
  lemma SplitUndoesPrefix(namespace: string, topic: string)
    ensures Split(PrefixTopic(namespace, topic)) == (namespace, topic)
            <==> if namespace == "" then !IsPrefixed(topic) else '.' !in namespace
  {
    var p := PrefixTopic(namespace, topic);
    if namespace == "" {
      if IsPrefixed(topic) {
        assert |Split(p).1| < |topic|;
      }
    } else {
      var rest := p[|PREFIX|..];
      assert rest == namespace + "." + topic;
      assert rest[|namespace|] == '.';
      if '.' in namespace {
        var k :| 0 <= k < |namespace| && namespace[k] == '.';
        var d := FirstDot(rest);
        assert rest[k] == '.';
        assert forall j | 0 <= j < d :: rest[..d][j] in rest[..d];
        assert d <= k;
      } else {
        assert rest[..|namespace|] == namespace;
        FirstDotIsUnique(rest, |namespace|);
        assert rest[|namespace| + 1..] == topic;
      }
    }
  }

  /** Printing undoes parsing except for topics whose namespace part is empty ("cell.." and then anything),
      where the prefix is silently lost. */
  lemma PrefixUndoesSplit(prefixed: string)
    ensures PrefixTopic(Split(prefixed).0, Split(prefixed).1) == prefixed <==> !(PREFIX + "." <= prefixed)
  {
    DottedIsPrefixed(prefixed);
    if IsPrefixed(prefixed) {
      PartsOfPrefixed(prefixed);
    }
  }

  lemma DottedIsPrefixed(prefixed: string)
    ensures PREFIX + "." <= prefixed ==> IsPrefixed(prefixed)
  {
    if PREFIX + "." <= prefixed {
      assert prefixed[|PREFIX|..][0] == '.';
    }
  }

  lemma PartsOfPrefixed(prefixed: string)
    requires IsPrefixed(prefixed)
    ensures prefixed == PREFIX + Split(prefixed).0 + "." + Split(prefixed).1
    ensures Split(prefixed).0 == "" <==> PREFIX + "." <= prefixed
  {
    var rest := prefixed[|PREFIX|..];
    var d := FirstDot(rest);
    assert d < |rest| by { assert rest[..|rest|] == rest; }
    PartsAroundDot(rest, d);
    Associate(PREFIX, rest[..d], rest[d + 1..]);
    EmptyNamespace(rest);
    StartsWithDot(prefixed);
  }

  lemma PartsAroundDot(rest: string, d: nat)
    requires d < |rest| && rest[d] == '.'
    ensures rest[..d] + "." + rest[d + 1..] == rest
  {}

  lemma Associate(prefix: string, namespace: string, topic: string)
    ensures prefix + namespace + "." + topic == prefix + (namespace + "." + topic)
  {}

  lemma EmptyNamespace(rest: string)
    requires rest != ""
    ensures FirstDot(rest) == 0 <==> rest[0] == '.'
  {
    if FirstDot(rest) > 0 {
      assert rest[..FirstDot(rest)][0] in rest[..FirstDot(rest)];
    }
  }

  lemma StartsWithDot(prefixed: string)
    requires PREFIX < prefixed
    ensures PREFIX + "." <= prefixed <==> prefixed[|PREFIX|..][0] == '.'
  {
    if prefixed[|PREFIX|] == '.' {
      assert prefixed[..|PREFIX| + 1] == PREFIX + ".";
    }
  }

  // ----- Namespace validation -----

  const MAX_NAMESPACE_LENGTH := 253

  datatype NamespaceCheck = Accepted | Required | TooLong | BadFormat

  predicate IsLabelEdge(c: char) {
    'a' <= c <= 'z' || '0' <= c <= '9'
  }

  predicate IsLabelChar(c: char) {
    c == '-' || IsLabelEdge(c)
  }

  /** The language of the pattern [a-z0-9]([-a-z0-9]*[a-z0-9])? as a whole-string match: one edge character,
      then optionally any run of label characters closed by another edge character. */
  ghost predicate InLabelLanguage(s: string) {
    exists first: char, rest: string :: IsEdgeThenTail(s, first, rest)
  }

  ghost predicate IsEdgeThenTail(s: string, first: char, rest: string) {
    s == [first] + rest && IsLabelEdge(first) && (rest == "" || InTailLanguage(rest))
  }

  ghost predicate InTailLanguage(rest: string) {
    exists middle: string, last: char :: IsRunThenEdge(rest, middle, last)
  }

  ghost predicate IsRunThenEdge(rest: string, middle: string, last: char) {
    rest == middle + [last] && (forall c | c in middle :: IsLabelChar(c)) && IsLabelEdge(last)
  }

  /** The regular-expression engine's verdict. */
  predicate MatchString(s: string)
    ensures MatchString(s) <==> InLabelLanguage(s)
  {
    LabelLanguageByCharacter(s);
    HasLabelCharacters(s)
  }

  predicate HasLabelCharacters(s: string) {
    && s != ""
    && IsLabelEdge(s[0]) && IsLabelEdge(s[|s| - 1])
    && forall c | c in s :: IsLabelChar(c)
  }

  lemma LabelLanguageByCharacter(s: string)
    ensures InLabelLanguage(s) <==> HasLabelCharacters(s)
  {
    if InLabelLanguage(s) {
      var first, rest :| IsEdgeThenTail(s, first, rest);
      if rest == "" {
        assert s == [first];
      } else {
        var middle, last :| IsRunThenEdge(rest, middle, last);
        assert s == [first] + middle + [last] && s[|s| - 1] == last;
      }
      assert HasLabelCharacters(s);
    }
    if HasLabelCharacters(s) {
      var rest := s[1..];
      if rest != "" {
        assert forall c | c in rest[..|rest| - 1] :: c in s;
        assert IsRunThenEdge(rest, rest[..|rest| - 1], s[|s| - 1]);
      }
      assert IsEdgeThenTail(s, s[0], rest);
    }
  }

  function ValidateNamespace(namespace: string): NamespaceCheck {
    if namespace == "" then Required
    else if |namespace| > MAX_NAMESPACE_LENGTH then TooLong
    else if !MatchString(namespace) then BadFormat
    else Accepted
  }

  /** The whole point of the character set: accepted namespaces make topics unambiguous. A bus topic built for
      an accepted namespace parses back to it, and two such topics coincide only for the same Cell and topic. */
  lemma AcceptedNamespacesAreIsolated(n1: string, t1: string, n2: string, t2: string)
    requires ValidateNamespace(n1).Accepted? && ValidateNamespace(n2).Accepted?
    ensures Split(PrefixTopic(n1, t1)) == (n1, t1)
    ensures PrefixTopic(n1, t1) == PrefixTopic(n2, t2) ==> n1 == n2 && t1 == t2
  {
    assert '.' !in n1 by { LabelLanguageByCharacter(n1); }
    assert '.' !in n2 by { LabelLanguageByCharacter(n2); }
    SplitUndoesPrefix(n1, t1);
    SplitUndoesPrefix(n2, t2);
  }

  /** Without the check, two Cells can meet on one topic: "a" talking on "b.c" and "a.b" talking on "c". */
  lemma DottedNamespacesCollide()
    ensures PrefixTopic("a", "b.c") == PrefixTopic("a.b", "c")
  {
    assert PrefixTopic("a", "b.c") == "cell.a.b.c";
  }

  /** A namespace is accepted if and only if it has 1 to 253 characters, all of them lower-case letters, digits or
      hyphens, with no hyphen at either end; an empty one, one that is too long and any other are told apart. */
  lemma AcceptedExactlyWhen(namespace: string)
    ensures var n := |namespace|;
            && (ValidateNamespace(namespace) == Required <==> n == 0)
            && (ValidateNamespace(namespace) == TooLong <==> n > 253)
            && (ValidateNamespace(namespace) == Accepted <==>
                  && 1 <= n <= 253 && namespace[0] != '-' && namespace[n - 1] != '-'
                  && forall c | c in namespace :: 'a' <= c <= 'z' || '0' <= c <= '9' || c == '-')
  {
    LabelLanguageByCharacter(namespace);
    if namespace != "" {
      assert namespace[0] in namespace && namespace[|namespace| - 1] in namespace;
    }
  }

  /** The topic "t" of the Cell "n" is "cell.n.t" on the bus, and a system topic keeps its name. */
  lemma TopicsOnTheBus(namespace: string, topic: string)
    ensures namespace != "" ==> PrefixTopic(namespace, topic) == "cell." + namespace + "." + topic
    ensures PrefixTopic("", topic) == topic
  {}
}
