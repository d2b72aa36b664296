/** String helpers with the meaning Python's `str` methods give them. */
module Text {

  /** `t` occurs somewhere inside `s` (Python's `t in s`). */
  predicate Contains(s: string, t: string) {
    exists i :: 0 <= i <= |s| && t <= s[i..]
  }

  lemma ContainsMiddle(a: string, t: string, b: string)
    ensures Contains(a + t + b, t)
  {
    var s := a + t + b;
    assert s[|a|..] == t + b;
  }

  /** Number of occurrences of `c` in `s` (Python's `s.count(c)` for one character). */
  function Count(s: string, c: char): nat {
    if |s| == 0 then 0 else (if s[0] == c then 1 else 0) + Count(s[1..], c)
  }

  /** Python's `sep.join(xs)`. */
  function Join(sep: string, xs: seq<string>): string {
    if |xs| == 0 then ""
    else if |xs| == 1 then xs[0]
    else xs[0] + sep + Join(sep, xs[1..])
  }

  /** The pieces of `xs` written one after another (`"".join(xs)`). */
  function Concat(xs: seq<string>): string {
    if |xs| == 0 then "" else Concat(xs[..|xs| - 1]) + xs[|xs| - 1]
  }

  /** Python's `s.split(c)` for a one-character separator: never empty, and no piece holds `c`. */
  function SplitOn(s: string, c: char): (r: seq<string>)
    ensures |r| >= 1
    ensures forall i :: 0 <= i < |r| ==> c !in r[i]
  {
    if |s| == 0 then [""]
    else
      var rest := SplitOn(s[1..], c);
      if s[0] == c then [""] + rest
      else [[s[0]] + rest[0]] + rest[1..]
  }

  /** Joining the pieces of a split with the same separator gives back the text. */
  lemma {:induction false} JoinSplit(s: string, c: char)
    ensures Join([c], SplitOn(s, c)) == s
  {
    if |s| > 0 {
      var rest := SplitOn(s[1..], c);
      JoinSplit(s[1..], c);
      if s[0] == c {
        assert ([""] + rest)[1..] == rest;
      } else {
        var xs := [[s[0]] + rest[0]] + rest[1..];
        if |rest| > 1 {
          assert xs[1..] == rest[1..];
        }
      }
    }
  }

  /** A split yields one more piece than the text has separators. */
  lemma {:induction false} SplitCount(s: string, c: char)
    ensures |SplitOn(s, c)| == Count(s, c) + 1
  {
    if |s| > 0 {
      SplitCount(s[1..], c);
    }
  }

  /** Text without the separator in front of more text joins onto the first piece of its split. */
  lemma {:induction false} SplitPrepend(a: string, t: string, c: char)
    requires c !in a
    ensures SplitOn(a + t, c) == [a + SplitOn(t, c)[0]] + SplitOn(t, c)[1..]
  {
    if |a| > 0 {
      SplitPrepend(a[1..], t, c);
      assert (a + t)[1..] == a[1..] + t;
      assert [a[0]] + (a[1..] + SplitOn(t, c)[0]) == a + SplitOn(t, c)[0];
    } else {
      var r := SplitOn(t, c);
      assert a + t == t;
      assert a + r[0] == r[0];
      assert r == [r[0]] + r[1..];
    }
  }

  /**
   * The other direction of `JoinSplit`: splitting a join of separator-free pieces recovers the
   * pieces, so `SplitOn` is the only such decomposition of its input.
   */
  lemma {:induction false} SplitJoin(xs: seq<string>, c: char)
    requires |xs| >= 1
    requires forall i :: 0 <= i < |xs| ==> c !in xs[i]
    ensures SplitOn(Join([c], xs), c) == xs
  {
    if |xs| == 1 {
      SplitPrepend(xs[0], "", c);
      assert xs[0] + "" == xs[0];
    } else {
      var tail := xs[1..];
      var j := Join([c], tail);
      SplitJoin(tail, c);
      assert SplitOn([c] + j, c) == [""] + tail by {
        assert ([c] + j)[1..] == j;
      }
      assert Join([c], xs) == xs[0] + ([c] + j);
      SplitPrepend(xs[0], [c] + j, c);
      assert xs[0] + "" == xs[0];
      assert xs == [xs[0]] + tail;
    }
  }

  /** Joining two non-empty lists puts one separator between their joins. */
  lemma {:induction false} JoinAppend(sep: string, xs: seq<string>, ys: seq<string>)
    requires |xs| >= 1 && |ys| >= 1
    ensures Join(sep, xs + ys) == Join(sep, xs) + sep + Join(sep, ys)
  {
    if |xs| > 1 {
      JoinAppend(sep, xs[1..], ys);
      assert (xs + ys)[1..] == xs[1..] + ys;
    } else {
      assert (xs + ys)[1..] == ys;
    }
  }

  /** Appending the pieces of a split to a non-empty list appends a separator and the text to its join. */
  lemma JoinLinesAfter(xs: seq<string>, s: string, c: char)
    ensures |xs| >= 1 ==> Join([c], xs + SplitOn(s, c)) == Join([c], xs) + [c] + s
  {
    if |xs| >= 1 {
      JoinAppend([c], xs, SplitOn(s, c));
      JoinSplit(s, c);
    }
  }

  /** Concatenating one more piece at the end. */
  lemma ConcatSnoc(xs: seq<string>, x: string)
    ensures Concat(xs + [x]) == Concat(xs) + x
  {
    assert (xs + [x])[..|xs|] == xs;
  }

  /** Concatenation distributes over appending lists. */
  lemma {:induction false} ConcatAppend(xs: seq<string>, ys: seq<string>)
    ensures Concat(xs + ys) == Concat(xs) + Concat(ys)
    decreases |ys|
  {
    if |ys| == 0 {
      assert xs + ys == xs;
    } else {
      var init, last := ys[..|ys| - 1], ys[|ys| - 1];
      var a, b := Concat(xs), Concat(init);
      assert Concat(ys) == b + last by {
        assert ys == init + [last];
        ConcatSnoc(init, last);
      }
      assert Concat(xs + ys) == Concat(xs + init) + last by {
        assert xs + ys == (xs + init) + [last];
        ConcatSnoc(xs + init, last);
      }
      ConcatAppend(xs, init);
      assert (a + b) + last == a + (b + last);
    }
  }

  /** `p` with every trailing `c` removed. */
  function StripTrailing(p: string, c: char): (r: string)
    ensures r <= p
    ensures |r| == 0 || r[|r| - 1] != c
    ensures forall i :: |r| <= i < |p| ==> p[i] == c
  {
    if |p| > 0 && p[|p| - 1] == c then StripTrailing(p[..|p| - 1], c) else p
  }

  /**
   * The part of `p` after its last `c`: a suffix of `p` free of `c`, either all of `p`
   * or preceded in `p` by a `c`.
   */
  function AfterLast(p: string, c: char): (r: string)
    ensures c !in r
    ensures |r| <= |p| && r == p[|p| - |r|..]
    ensures |r| == |p| || p[|p| - |r| - 1] == c
  {
    if |p| == 0 then ""
    else if p[|p| - 1] == c then ""
    else AfterLast(p[..|p| - 1], c) + [p[|p| - 1]]
  }

  /** After `a + c + b`, where `b` has no `c`, the last segment is `b`. */
  lemma {:induction false} AfterLastJoin(a: string, b: string, c: char)
    requires c !in b
    ensures AfterLast(a + [c] + b, c) == b
  {
    if |b| > 0 {
      var p := a + [c] + b;
      assert p[..|p| - 1] == a + [c] + b[..|b| - 1];
      AfterLastJoin(a, b[..|b| - 1], c);
      assert b == b[..|b| - 1] + [b[|b| - 1]];
    }
  }
}
