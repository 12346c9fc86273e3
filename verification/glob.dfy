/** AspectJ name patterns: a `*` inside a name stands for any run of characters
    (`hel*`, `*el*`, `*Service`); every other character stands for itself. */
module Glob {

  predicate NoStar(p: string) {
    '*' !in p
  }

  function Match(p: string, s: string): bool
    decreases |p| + |s|
  {
    if |p| == 0 then |s| == 0
    else if p[0] == '*' then Match(p[1..], s) || (|s| > 0 && Match(p, s[1..]))
    else |s| > 0 && p[0] == s[0] && Match(p[1..], s[1..])
  }

  predicate IsSuffix(p: string, s: string) {
    |p| <= |s| && s[|s| - |p|..] == p
  }

  predicate Contains(s: string, p: string) {
    exists k :: 0 <= k <= |s| && p <= s[k..]
  }

  /** A pattern without `*` matches exactly itself. */
  lemma {:induction false} LiteralMatch(p: string, s: string)
    requires NoStar(p)
    ensures Match(p, s) <==> p == s
    decreases |p|
  {
    if |p| > 0 {
      assert p[0] != '*';
      if |s| > 0 {
        LiteralMatch(p[1..], s[1..]);
        assert p == [p[0]] + p[1..];
        assert s == [s[0]] + s[1..];
      }
    }
  }

  /** The lone `*` matches every name. */
  lemma {:induction false} StarMatchesAll(s: string)
    ensures Match("*", s)
    decreases |s|
  {
    if |s| > 0 {
      StarMatchesAll(s[1..]);
    }
  }

  /** A leading `*` skips any prefix of the name. */
  lemma {:induction false} StarSkip(q: string, s: string)
    ensures Match(['*'] + q, s) <==> exists k :: 0 <= k <= |s| && Match(q, s[k..])
    decreases |s|
  {
    var p := ['*'] + q;
    assert p[0] == '*' && p[1..] == q;
    assert s[0..] == s;
    if |s| > 0 {
      StarSkip(q, s[1..]);
      if Match(p, s) && !Match(q, s) {
        var k :| 0 <= k <= |s[1..]| && Match(q, s[1..][k..]);
        assert s[1..][k..] == s[k + 1..];
      }
      if exists k :: 0 <= k <= |s| && Match(q, s[k..]) {
        var k :| 0 <= k <= |s| && Match(q, s[k..]);
        if k > 0 {
          assert s[1..][k - 1..] == s[k..];
        }
      }
    }
  }

  /** `p*` (p without `*`) matches exactly the names that start with p. */
  lemma {:induction false} PrefixMatch(p: string, s: string)
    requires NoStar(p)
    ensures Match(p + "*", s) <==> p <= s
    decreases |p|
  {
    if |p| == 0 {
      assert p + "*" == "*";
      StarMatchesAll(s);
    } else {
      assert (p + "*")[0] == p[0] && (p + "*")[1..] == p[1..] + "*";
      assert p[0] != '*';
      if |s| > 0 {
        PrefixMatch(p[1..], s[1..]);
        assert p <= s <==> p[0] == s[0] && p[1..] <= s[1..];
      }
    }
  }

  /** `*p` (p without `*`) matches exactly the names that end with p. */
  lemma SuffixMatch(p: string, s: string)
    requires NoStar(p)
    ensures Match("*" + p, s) <==> IsSuffix(p, s)
  {
    StarSkip(p, s);
    assert "*" + p == ['*'] + p;
    if IsSuffix(p, s) {
      LiteralMatch(p, s[|s| - |p|..]);
    }
    if Match("*" + p, s) {
      var k :| 0 <= k <= |s| && Match(p, s[k..]);
      LiteralMatch(p, s[k..]);
    }
  }

  /** `*p*` (p without `*`) matches exactly the names that contain p. */
  lemma InfixMatch(p: string, s: string)
    requires NoStar(p)
    ensures Match("*" + p + "*", s) <==> Contains(s, p)
  {
    assert "*" + p + "*" == ['*'] + (p + "*");
    StarSkip(p + "*", s);
    forall k | 0 <= k <= |s|
      ensures Match(p + "*", s[k..]) <==> p <= s[k..]
    {
      PrefixMatch(p, s[k..]);
    }
  }
}
