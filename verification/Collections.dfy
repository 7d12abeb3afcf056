/** Small vocabulary shared by the component models: optional values, filtering
    and mapping of sequences, and the few sequence facts every proof leans on. */
module Collections {

  datatype Option<+T> = None | Some(value: T)

  /** Whether some position of `t` holds each element of `s`, in order. */
  ghost predicate Subsequence<T>(s: seq<T>, t: seq<T>) {
    if s == [] then true
    else if t == [] then false
    else if s[|s| - 1] == t[|t| - 1] then Subsequence(s[..|s| - 1], t[..|t| - 1])
    else Subsequence(s, t[..|t| - 1])
  }

  /** The elements satisfying `keep`, in order. */
  function Filter<T>(s: seq<T>, keep: T -> bool): (r: seq<T>)
    ensures |r| <= |s|
  {
    if s == [] then []
    else
      var front := Filter(s[..|s| - 1], keep);
      if keep(s[|s| - 1]) then front + [s[|s| - 1]] else front
  }

  lemma {:induction false} FilterMembers<T>(s: seq<T>, keep: T -> bool)
    ensures forall x :: x in Filter(s, keep) <==> x in s && keep(x)
  {
    if s != [] {
      FilterMembers(s[..|s| - 1], keep);
      assert s == s[..|s| - 1] + [s[|s| - 1]];
    }
  }

  lemma {:induction false} FilterConcat<T>(s: seq<T>, t: seq<T>, keep: T -> bool)
    ensures Filter(s + t, keep) == Filter(s, keep) + Filter(t, keep)
  {
    if t == [] {
      assert s + t == s;
    } else {
      FilterConcat(s, t[..|t| - 1], keep);
      assert (s + t)[..|s + t| - 1] == s + t[..|t| - 1];
    }
  }

  lemma {:induction false} FilterAll<T>(s: seq<T>, keep: T -> bool)
    requires forall x :: x in s ==> keep(x)
    ensures Filter(s, keep) == s
  {
    if s != [] {
      FilterAll(s[..|s| - 1], keep);
    }
  }

  lemma {:induction false} FilterNone<T>(s: seq<T>, keep: T -> bool)
    requires forall x :: x in s ==> !keep(x)
    ensures Filter(s, keep) == []
  {
    if s != [] {
      FilterNone(s[..|s| - 1], keep);
    }
  }

  lemma {:induction false} SubsequenceShorter<T>(s: seq<T>, t: seq<T>)
    requires s != [] && Subsequence(s, t)
    ensures Subsequence(s[..|s| - 1], t)
    decreases |t|
  {
    var i, j := |s| - 1, |t| - 1;
    if s[i] == t[j] {
      if i > 0 && s[i - 1] == t[j] {
        SubsequenceShorter(s[..i], t[..j]);
      }
    } else {
      SubsequenceShorter(s, t[..j]);
      if i > 0 && s[i - 1] == t[j] {
        SubsequenceShorter(s[..i], t[..j]);
      }
    }
  }

  /** A filter and its opposite share the elements out between them. */
  lemma {:induction false} FilterPartition<T>(s: seq<T>, keep: T -> bool, drop: T -> bool)
    requires forall x :: x in s ==> keep(x) != drop(x)
    ensures multiset(Filter(s, keep)) + multiset(Filter(s, drop)) == multiset(s)
  {
    if s != [] {
      var front, x := s[..|s| - 1], s[|s| - 1];
      FilterPartition(front, keep, drop);
      FilterOneMore(front, x, keep);
      FilterOneMore(front, x, drop);
      OneMore(front, x);
      assert s == front + [x] && x in s;
    }
  }

  lemma {:induction false} FilterOneMore<T>(s: seq<T>, x: T, keep: T -> bool)
    ensures multiset(Filter(s + [x], keep)) == multiset(Filter(s, keep)) + if keep(x) then multiset{x} else multiset{}
  {
    assert (s + [x])[..|s|] == s;
  }

  lemma {:induction false} OneMore<T>(s: seq<T>, x: T)
    ensures multiset(s + [x]) == multiset(s) + multiset{x}
  {
  }

  /** No value occurs twice. */
  ghost predicate Distinct<T(!new)>(s: seq<T>) {
    forall i, j :: 0 <= i < j < |s| ==> s[i] != s[j]
  }

  function Map<S, T>(s: seq<S>, f: S -> T): (r: seq<T>)
    ensures |r| == |s|
    ensures forall i :: 0 <= i < |s| ==> r[i] == f(s[i])
  {
    seq(|s|, i requires 0 <= i < |s| => f(s[i]))
  }

  lemma {:induction false} MapConcat<S, T>(a: seq<S>, b: seq<S>, f: S -> T)
    ensures Map(a + b, f) == Map(a, f) + Map(b, f)
  {
  }

  /** The newest (last) at most `n` elements. */
  function Newest<T>(s: seq<T>, n: nat): (r: seq<T>)
    ensures |r| == if |s| <= n then |s| else n
  {
    if |s| <= n then s else s[|s| - n..]
  }

  lemma {:induction false} NewestAppend<T>(s: seq<T>, t: seq<T>, n: nat)
    ensures Newest(Newest(s, n) + t, n) == Newest(s + t, n)
  {
    if |s| > n {
      assert s == s[..|s| - n] + s[|s| - n..];
      if |s + t| > n {
        assert (s + t)[|s + t| - n..] == (s[|s| - n..] + t)[|t|..];
      }
    }
  }

  // ------------------------------------------------------------ pooling

  /** All that the elements of `s` contribute, taken together. */
  ghost function Pooled<S, T>(s: seq<S>, f: S -> multiset<T>): multiset<T> {
    if s == [] then multiset{} else Pooled(s[..|s| - 1], f) + f(s[|s| - 1])
  }

  lemma {:induction false} PooledSnoc<S, T>(s: seq<S>, x: S, f: S -> multiset<T>)
    ensures Pooled(s + [x], f) == Pooled(s, f) + f(x)
  {
    assert (s + [x])[..|s|] == s;
  }

  lemma {:induction false} PooledConcat<S, T>(a: seq<S>, b: seq<S>, f: S -> multiset<T>)
    ensures Pooled(a + b, f) == Pooled(a, f) + Pooled(b, f)
  {
    if b == [] {
      assert a + b == a;
    } else {
      PooledConcat(a, b[..|b| - 1], f);
      assert (a + b)[..|a + b| - 1] == a + b[..|b| - 1];
    }
  }

  lemma {:induction false} SumsShift<T>(a: multiset<T>, b: multiset<T>, c: multiset<T>, d: multiset<T>, e: multiset<T>)
    requires a + b == c + d
    ensures a + e + b == c + e + d
  {
    assert a + e + b == (a + b) + e;
  }

  lemma {:induction false} SumsCancel<T>(a: multiset<T>, b: multiset<T>, c: multiset<T>)
    requires a + c == b + c
    ensures a == b
  {
    assert a == (a + c) - c;
  }

  lemma {:induction false} PooledUpdate<S, T>(s: seq<S>, k: nat, x: S, f: S -> multiset<T>)
    requires k < |s|
    ensures Pooled(s[k := x], f) + f(s[k]) == Pooled(s, f) + f(x)
  {
    var n := |s| - 1;
    if k < n {
      PooledUpdate(s[..n], k, x, f);
      assert s[k := x][..n] == s[..n][k := x];
      SumsShift(Pooled(s[..n][k := x], f), f(s[k]), Pooled(s[..n], f), f(x), f(s[n]));
    } else {
      assert s[k := x][..n] == s[..n];
    }
  }

  lemma {:induction false} PooledSplit<S, T>(s: seq<S>, keep: S -> bool, drop: S -> bool, f: S -> multiset<T>)
    requires forall x :: x in s ==> keep(x) != drop(x)
    ensures Pooled(s, f) == Pooled(Filter(s, keep), f) + Pooled(Filter(s, drop), f)
  {
    if s != [] {
      var front, x := s[..|s| - 1], s[|s| - 1];
      PooledSplit(front, keep, drop, f);
      assert x in s;
      PooledSnoc(Filter(front, if keep(x) then keep else drop), x, f);
    }
  }

  /** Elements that contribute nothing may be left out. */
  lemma {:induction false} PooledFilter<S, T>(s: seq<S>, keep: S -> bool, f: S -> multiset<T>)
    requires forall x :: x in s && !keep(x) ==> f(x) == multiset{}
    ensures Pooled(Filter(s, keep), f) == Pooled(s, f)
  {
    if s != [] {
      var front, x := s[..|s| - 1], s[|s| - 1];
      PooledFilter(front, keep, f);
      assert x in s;
      if keep(x) {
        PooledSnoc(Filter(front, keep), x, f);
      }
    }
  }

  lemma {:induction false} PooledMap<R, S, T>(s: seq<R>, g: R -> S, f: S -> multiset<T>, h: R -> multiset<T>)
    requires forall x :: x in s ==> f(g(x)) == h(x)
    ensures Pooled(Map(s, g), f) == Pooled(s, h)
  {
    if s != [] {
      PooledMap(s[..|s| - 1], g, f, h);
      assert Map(s, g)[..|s| - 1] == Map(s[..|s| - 1], g);
    }
  }

  lemma {:induction false} PooledSingles<T>(s: seq<T>, f: T -> multiset<T>)
    requires forall x :: x in s ==> f(x) == multiset{x}
    ensures Pooled(s, f) == multiset(s)
  {
    if s != [] {
      var front, x := s[..|s| - 1], s[|s| - 1];
      PooledSingles(front, f);
      assert s == front + [x];
    }
  }

  function Max(a: int, b: int): int {
    if a >= b then a else b
  }

  function Min(a: int, b: int): int {
    if a <= b then a else b
  }
}
