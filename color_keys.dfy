/**
 * Dotted colour keys (`DecisionCalendar._get_color`): a key such as
 * "flow.high" is split on '.' and its segments are followed, one by one,
 * through the nested `colors` mapping; only a string at the end is a colour.
 */
module ColorKeys {
  import opened Wrappers
  import opened Config

  /** No segment of a split key contains the separator. */
  predicate DotFree(segs: seq<string>) {
    forall i :: 0 <= i < |segs| ==> '.' !in segs[i]
  }

  /**
   * Python's `s.split('.')`: every maximal dot-free run, empty ones included,
   * so there is always one more segment than there are dots.
   */
  function Split(s: string): (segs: seq<string>)
    ensures |segs| >= 1 && DotFree(segs)
  {
    if s == [] then [[]]
    else
      var rest := Split(s[1..]);
      if s[0] == '.' then [[]] + rest
      else [[s[0]] + rest[0]] + rest[1..]
  }

  /** There is one more segment than there are dots. */
  lemma {:induction false} SplitCount(s: string)
    ensures |Split(s)| == multiset(s)['.'] + 1
  {
    if s != [] {
      SplitCount(s[1..]);
      assert s == [s[0]] + s[1..];
      assert multiset(s) == multiset{s[0]} + multiset(s[1..]);
    }
  }

  /** `'.'.join(segs)`: the inverse of Split. */
  function Join(segs: seq<string>): string
    requires |segs| >= 1
  {
    if |segs| == 1 then segs[0] else segs[0] + "." + Join(segs[1..])
  }

  /** Joining after an empty first segment puts a dot in front. */
  lemma JoinAfterEmpty(segs: seq<string>)
    requires |segs| >= 1
    ensures Join([[]] + segs) == "." + Join(segs)
  {
    assert ([[]] + segs)[1..] == segs;
  }

  lemma Reassociate(a: string, b: string, c: string, d: string)
    ensures (a + b) + c + d == a + (b + c + d)
  {
  }

  /** A segment in front of at least one other is followed by a dot. */
  lemma JoinCons(x: string, segs: seq<string>)
    requires |segs| >= 1
    ensures Join([x] + segs) == x + "." + Join(segs)
  {
    assert ([x] + segs)[0] == x && ([x] + segs)[1..] == segs;
  }

  /** Gluing a character onto the first segment puts it in front of the joined key. */
  lemma JoinAfterChar(c: char, segs: seq<string>)
    requires |segs| >= 1
    ensures Join([[c] + segs[0]] + segs[1..]) == [c] + Join(segs)
  {
    if |segs| > 1 {
      var head, rest := segs[0], segs[1..];
      JoinCons([c] + head, rest);
      assert segs == [head] + rest;
      JoinCons(head, rest);
      Reassociate([c], head, ".", Join(rest));
    } else {
      assert [[c] + segs[0]] + segs[1..] == [[c] + segs[0]];
    }
  }

  /** Splitting a key and joining the segments gives the key back. */
  lemma {:induction false} JoinSplit(s: string)
    ensures Join(Split(s)) == s
  {
    if s != [] {
      var rest := Split(s[1..]);
      if s[0] == '.' {
        calc {
          Join(Split(s));
          Join([[]] + rest);
          { JoinAfterEmpty(rest); }
          "." + Join(rest);
          { JoinSplit(s[1..]); }
          "." + s[1..];
          s;
        }
      } else {
        calc {
          Join(Split(s));
          Join([[s[0]] + rest[0]] + rest[1..]);
          { JoinAfterChar(s[0], rest); }
          [s[0]] + Join(rest);
          { JoinSplit(s[1..]); }
          [s[0]] + s[1..];
          s;
        }
      }
    }
  }

  /** A leading dot opens an empty first segment. */
  lemma SplitAfterDot(t: string)
    ensures Split("." + t) == [[]] + Split(t)
  {
    assert ("." + t)[1..] == t;
  }

  /** A dot-free prefix is glued to the first segment of what follows it. */
  lemma {:induction false} SplitDotFreePrefix(a: string, t: string)
    requires '.' !in a
    ensures Split(a + t) == [a + Split(t)[0]] + Split(t)[1..]
  {
    var tail := Split(t);
    if a == [] {
      calc {
        Split(a + t);
        { assert a + t == t; }
        tail;
        [tail[0]] + tail[1..];
        { assert a + tail[0] == tail[0]; }
        [a + tail[0]] + tail[1..];
      }
    } else {
      var inner := Split(a[1..] + t);
      calc {
        Split(a + t);
        { assert (a + t)[0] == a[0] && (a + t)[1..] == a[1..] + t; }
        [[a[0]] + inner[0]] + inner[1..];
        { SplitDotFreePrefix(a[1..], t);
          assert inner[0] == a[1..] + tail[0] && inner[1..] == tail[1..]; }
        [[a[0]] + (a[1..] + tail[0])] + tail[1..];
        { assert [a[0]] + (a[1..] + tail[0]) == a + tail[0]; }
        [a + tail[0]] + tail[1..];
      }
    }
  }

  /** Joining dot-free segments and splitting the result gives the segments back. */
  lemma {:induction false} SplitJoin(segs: seq<string>)
    requires |segs| >= 1 && DotFree(segs)
    ensures Split(Join(segs)) == segs
  {
    if |segs| == 1 {
      calc {
        Split(Join(segs));
        { assert Join(segs) == segs[0] + []; }
        Split(segs[0] + []);
        { SplitDotFreePrefix(segs[0], []); }
        [segs[0] + []];
        { assert segs[0] + [] == segs[0]; }
        segs;
      }
    } else {
      var rest := segs[1..];
      var tail := Join(rest);
      assert DotFree(rest) by {
        forall i | 0 <= i < |rest| ensures '.' !in rest[i] {
          assert rest[i] == segs[i + 1];
        }
      }
      calc {
        Split(Join(segs));
        { assert Join(segs) == segs[0] + ("." + tail); }
        Split(segs[0] + ("." + tail));
        { SplitDotFreePrefix(segs[0], "." + tail); }
        [segs[0] + Split("." + tail)[0]] + Split("." + tail)[1..];
        { SplitAfterDot(tail); SplitJoin(rest); }
        [segs[0] + []] + rest;
        { assert segs[0] + [] == segs[0]; }
        segs;
      }
    }
  }

  /**
   * Following `path` through nested mappings: each step needs the current
   * value to be a mapping that holds the segment.
   */
  function Resolve(t: ColorTree, path: seq<string>): Option<ColorTree> {
    if path == [] then Some(t)
    else if t.Node? && path[0] in t.children then Resolve(t.children[path[0]], path[1..])
    else None
  }

  /** The result `_get_color` returns or raises for `key`. */
  function ColorOf(colors: ColorTree, key: string): Result<string, Error> {
    match Resolve(colors, Split(key))
    case None => Err(ColorNotFound(key))
    case Some(Leaf(c)) => Ok(c)
    case Some(_) => Err(NotAColor(key))
  }

  /** `_get_color`: walks the split key by reassigning the current value. */
  method GetColor(colors: ColorTree, key: string) returns (r: Result<string, Error>)
    ensures r == ColorOf(colors, key)
  {
    var keys := Split(key);
    var color := colors;
    var i := 0;
    while i < |keys|
      invariant 0 <= i <= |keys|
      invariant Resolve(colors, keys) == Resolve(color, keys[i..])
    {
      assert keys[i..][1..] == keys[i + 1..];
      if color.Node? && keys[i] in color.children {
        color := color.children[keys[i]];
      } else {
        return Err(ColorNotFound(key));
      }
      i := i + 1;
    }
    if color.Leaf? {
      r := Ok(color.color);
    } else {
      r := Err(NotAColor(key));
    }
  }

  /** Following `p + q` is following `p`, then `q` from where `p` ended. */
  lemma {:induction false} ResolveAppend(t: ColorTree, p: seq<string>, q: seq<string>)
    ensures Resolve(t, p + q) == match Resolve(t, p)
                                 case None => None
                                 case Some(u) => Resolve(u, q)
  {
    if p == [] {
      assert p + q == q;
    } else {
      assert (p + q)[0] == p[0];
      if t.Node? && p[0] in t.children {
        assert (p + q)[1..] == p[1..] + q;
        ResolveAppend(t.children[p[0]], p[1..], q);
      }
    }
  }

  /**
   * The three outcomes of `_get_color` on the key made of `segs`: the colour
   * string found at the end of the path, "not found" when the path breaks off,
   * and "does not resolve to a color string" when it ends at anything else.
   */
  lemma ColorOfPath(colors: ColorTree, segs: seq<string>, c: string)
    requires |segs| >= 1 && DotFree(segs)
    ensures ColorOf(colors, Join(segs)) == Ok(c) <==> Resolve(colors, segs) == Some(Leaf(c))
    ensures ColorOf(colors, Join(segs)) == Err(ColorNotFound(Join(segs))) <==> Resolve(colors, segs).None?
    ensures ColorOf(colors, Join(segs)) == Err(NotAColor(Join(segs)))
            <==> Resolve(colors, segs).Some? && !Resolve(colors, segs).value.Leaf?
  {
    SplitJoin(segs);
  }

  /**
   * The walk fails with "not found" as soon as a segment is missing or the
   * value reached is not a mapping, whatever segments follow.
   */
  lemma NotFoundOnceBroken(colors: ColorTree, segs: seq<string>, i: nat, u: ColorTree)
    requires |segs| >= 1 && DotFree(segs) && i < |segs|
    requires Resolve(colors, segs[..i]) == Some(u)
    requires !(u.Node? && segs[i] in u.children)
    ensures ColorOf(colors, Join(segs)) == Err(ColorNotFound(Join(segs)))
  {
    assert segs == segs[..i] + segs[i..];
    ResolveAppend(colors, segs[..i], segs[i..]);
    SplitJoin(segs);
  }
}
