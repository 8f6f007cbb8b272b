/** Channel names in dot-separated notation, and the paths they stand for. */
module ChannelNames {
  import opened Prelude

  /** The components of a name; there is always at least one, and any of them can be empty. */
  function Split(s: string): (r: Path)
    ensures |r| >= 1
  {
    if s == "" then [""]
    else
      var r := Split(s[1..]);
      if s[0] == '.' then [""] + r else [[s[0]] + r[0]] + r[1..]
  }

  function Join(p: Path): string
    requires |p| >= 1
  {
    if |p| == 1 then p[0] else p[0] + "." + Join(p[1..])
  }

  lemma {:induction false} JoinSnoc(p: Path, name: string)
    requires |p| >= 1
    ensures Join(p + [name]) == Join(p) + "." + name
    decreases |p|
  {
    if |p| > 1 {
      JoinSnoc(p[1..], name);
      assert (p + [name])[1..] == p[1..] + [name];
    }
  }

  predicate NoDots(p: Path) {
    forall i | 0 <= i < |p| :: '.' !in p[i]
  }

  lemma {:induction false} JoinOfSplit(s: string)
    ensures Join(Split(s)) == s && NoDots(Split(s))
  {
    if s != "" {
      JoinOfSplit(s[1..]);
      var r := Split(s[1..]);
      if s[0] == '.' {
        assert ([""] + r)[1..] == r;
        assert s == "." + s[1..];
      } else {
        assert s == [s[0]] + s[1..];
        assert ([[s[0]] + r[0]] + r[1..])[1..] == r[1..];
      }
    }
  }

  lemma {:induction false} SplitFirst(a: string, rest: string)
    requires '.' !in a
    ensures Split(a) == [a]
    ensures Split(a + "." + rest) == [a] + Split(rest)
  {
    if a == "" {
      assert a + "." + rest == "." + rest;
      assert ("." + rest)[1..] == rest;
    } else {
      SplitFirst(a[1..], rest);
      assert (a + "." + rest)[1..] == a[1..] + "." + rest;
      assert a == [a[0]] + a[1..];
    }
  }

  lemma {:induction false} SplitOfJoin(p: Path)
    requires |p| >= 1 && NoDots(p)
    ensures Split(Join(p)) == p
    decreases |p|
  {
    if |p| == 1 {
      SplitFirst(p[0], "");
    } else {
      assert forall i | 0 <= i < |p[1..]| :: p[1..][i] == p[i + 1];
      SplitOfJoin(p[1..]);
      SplitFirst(p[0], Join(p[1..]));
      assert p == [p[0]] + p[1..];
    }
  }

  lemma JoinInjective(p: Path, q: Path)
    requires |p| >= 1 && |q| >= 1 && NoDots(p) && NoDots(q) && Join(p) == Join(q)
    ensures p == q
  {
    SplitOfJoin(p);
    SplitOfJoin(q);
  }

  /** The part of a name before its last dot. */
  function Head(s: string): string
    requires '.' in s
  {
    if '.' in s[1..] then [s[0]] + Head(s[1..]) else ""
  }

  lemma {:induction false} HeadOfSplit(s: string)
    requires '.' in s
    ensures |Split(s)| >= 2 && Split(Head(s)) == Split(s)[..|Split(s)| - 1]
  {
    if '.' in s[1..] {
      HeadOfSplit(s[1..]);
      var r, h := Split(s[1..]), Split(Head(s[1..]));
      assert ([s[0]] + Head(s[1..]))[1..] == Head(s[1..]);
      if s[0] == '.' {
        assert ([""] + r)[..|r|] == [""] + r[..|r| - 1];
      } else {
        assert h[0] == r[0] && h[1..] == r[1..][..|r| - 2];
      }
    } else {
      assert s == "." + s[1..];
      SplitFirst("", s[1..]);
      SplitFirst(s[1..], "");
    }
  }

  lemma {:induction false} DotMeansTwo(s: string)
    ensures '.' in s <==> |Split(s)| >= 2
  {
    if s != "" {
      DotMeansTwo(s[1..]);
    }
  }
}
