/** The outbox's dedupe window: a fixed ring of recent event ids beside a set of the
    ids it is meant to hold. */
module DedupeWindow {
  import opened Collections

  const WINDOW := 1024

  datatype Window = Window(ring: seq<string>, len: nat, pos: nat, seen: set<string>)

  ghost predicate Shaped(w: Window) {
    && 0 < |w.ring| && w.len <= |w.ring| && w.pos < |w.ring|
    && (w.len < |w.ring| ==> w.pos == w.len)
  }

  function Cleared(n: nat): Window {
    Window(seq(n, _ => ""), 0, 0, {})
  }

  /** The slot after `pos`, wrapping around. */
  function Following(pos: nat, n: nat): (r: nat)
    requires pos < n
    ensures r == if pos + 1 == n then 0 else pos + 1
  {
    if pos + 1 < n then
      assert (pos + 1) % n == pos + 1;
      (pos + 1) % n
    else (pos + 1) % n
  }

  /** Records an id; once the ring is full the oldest id leaves the set. */
  function Marked(w: Window, id: string): Window
    requires Shaped(w)
  {
    var full := w.len == |w.ring|;
    Window(w.ring[w.pos := id],
           if full then w.len else w.len + 1,
           Following(w.pos, |w.ring|),
           (if full then w.seen - {w.ring[w.pos]} else w.seen) + {id})
  }

  /** The recorded ids still in the ring, oldest first. */
  function Recent(w: Window): seq<string>
    requires Shaped(w)
  {
    if w.len < |w.ring| then w.ring[..w.len] else w.ring[w.pos..] + w.ring[..w.pos]
  }

  lemma {:induction false} RingFills(ring: seq<string>, len: nat, id: string)
    requires len < |ring|
    ensures ring[len := id][..len + 1] == ring[..len] + [id]
  {
  }

  lemma {:induction false} RingTurns(ring: seq<string>, pos: nat, id: string)
    requires pos < |ring|
    ensures var after, next := ring[pos := id], Following(pos, |ring|);
            after[next..] + after[..next] == (ring[pos..] + ring[..pos])[1..] + [id]
  {
    var after, next := ring[pos := id], Following(pos, |ring|);
    if next == 0 {
      assert after == ring[..pos] + [id];
    } else {
      assert after[next..] == ring[next..];
      assert after[..next] == ring[..pos] + [id];
      assert (ring[pos..] + ring[..pos])[1..] == ring[next..] + ring[..pos];
      assert ring[next..] + (ring[..pos] + [id]) == ring[next..] + ring[..pos] + [id];
    }
  }

  lemma {:induction false} MarkedRecent(w: Window, id: string)
    requires Shaped(w)
    ensures Shaped(Marked(w, id)) && |Marked(w, id).ring| == |w.ring|
    ensures Recent(Marked(w, id)) == Newest(Recent(w) + [id], |w.ring|)
  {
    var after := Marked(w, id);
    if w.len < |w.ring| {
      RingFills(w.ring, w.len, id);
      if after.len == |after.ring| {
        assert after.ring[0..] + after.ring[..0] == after.ring[..w.len + 1];
      }
    } else {
      RingTurns(w.ring, w.pos, id);
      assert (Recent(w) + [id])[1..] == Recent(w)[1..] + [id];
    }
  }

  function MarkedAll(w: Window, ids: seq<string>): (r: Window)
    requires Shaped(w)
    ensures Shaped(r) && |r.ring| == |w.ring|
    ensures Recent(r) == Newest(Recent(w) + ids, |w.ring|)
  {
    if ids == [] then
      assert Recent(w) + [] == Recent(w);
      w
    else
      var less, id := ids[..|ids| - 1], ids[|ids| - 1];
      var before := MarkedAll(w, less);
      MarkedRecent(before, id);
      NewestAppend(Recent(w) + less, [id], |w.ring|);
      assert Recent(w) + less + [id] == Recent(w) + ids;
      Marked(before, id)
  }

  function Elements(ids: seq<string>): set<string> {
    set id | id in ids
  }

  /** The set never outgrows the ring and holds only ids the ring still holds. */
  lemma {:induction false} SeenInRing(n: nat, ids: seq<string>)
    requires n > 0
    ensures var w := MarkedAll(Cleared(n), ids);
            w.seen <= Elements(Recent(w)) && |w.seen| <= n
  {
    var w := MarkedAll(Cleared(n), ids);
    if ids != [] {
      var less, id := ids[..|ids| - 1], ids[|ids| - 1];
      SeenInRing(n, less);
      var before := MarkedAll(Cleared(n), less);
      MarkedRecent(before, id);
      SeenStays(before, id);
    }
    ElementsBound(Recent(w));
    SubsetBound(w.seen, Elements(Recent(w)));
  }

  lemma {:induction false} SeenStays(w: Window, id: string)
    requires Shaped(w) && w.seen <= Elements(Recent(w))
    ensures Marked(w, id).seen <= Elements(Newest(Recent(w) + [id], |w.ring|))
  {
    var all := Recent(w) + [id];
    if w.len == |w.ring| {
      assert Recent(w)[0] == w.ring[w.pos];
      assert Newest(all, |w.ring|) == Recent(w)[1..] + [id];
      forall x | x in Marked(w, id).seen ensures x in Newest(all, |w.ring|) {
        if x != id {
          assert x in Recent(w) && x != Recent(w)[0];
          assert Recent(w) == [Recent(w)[0]] + Recent(w)[1..];
        }
      }
    } else {
      assert Newest(all, |w.ring|) == all;
    }
  }

  lemma {:induction false} SubsetBound<T>(a: set<T>, b: set<T>)
    requires a <= b
    ensures |a| <= |b|
  {
    assert b == a + (b - a);
  }

  lemma {:induction false} ElementsBound(ids: seq<string>)
    ensures |Elements(ids)| <= |ids|
  {
    if ids != [] {
      var n := |ids| - 1;
      ElementsBound(ids[..n]);
      assert ids == ids[..n] + [ids[n]];
      assert Elements(ids) == Elements(ids[..n]) + {ids[n]};
    }
  }

  /** The set is exactly what the ring holds, each id once. */
  ghost predicate Exact(w: Window) {
    Shaped(w) && Distinct(Recent(w)) && w.seen == Elements(Recent(w))
  }

  /** Only an id not in the set is recorded by an enqueue, and that keeps it exact. */
  lemma {:induction false} MarkedExact(w: Window, id: string)
    requires Exact(w) && id !in w.seen
    ensures Exact(Marked(w, id))
  {
    MarkedRecent(w, id);
    var was, after := Recent(w), Recent(Marked(w, id));
    if w.len == |w.ring| {
      assert after == was[1..] + [id];
      assert was[0] == w.ring[w.pos];
      assert was == [was[0]] + was[1..];
      assert was[0] !in was[1..];
    } else {
      assert after == was + [id];
    }
  }

  // ------------------------------------------------------------ reloading any ids

  /** The occurrence at `j` is still in the set after `ids`: no earlier copy of it has
      been pushed out of the ring since it was recorded. */
  ghost predicate Survives(ids: seq<string>, n: nat, j: nat) {
    j < |ids| && forall i :: 0 <= i < |ids| - n && j - n < i ==> ids[i] != ids[j]
  }

  lemma {:induction false} OldestSlot(n: nat, less: seq<string>)
    requires n > 0
    ensures var w := MarkedAll(Cleared(n), less);
            (w.len == n <==> |less| >= n) && (|less| >= n ==> w.ring[w.pos] == less[|less| - n])
  {
    var w := MarkedAll(Cleared(n), less);
    assert Recent(Cleared(n)) + less == less;
    assert Recent(w) == Newest(less, n);
    if w.len == n {
      assert Recent(w)[0] == w.ring[w.pos];
    }
  }

  /** Some occurrence of the id survives. */
  ghost predicate Kept(ids: seq<string>, n: nat, x: string) {
    exists j: nat :: Survives(ids, n, j) && ids[j] == x
  }

  lemma {:induction false} KeptOneMore(ids: seq<string>, n: nat, x: string)
    requires n > 0 && ids != []
    ensures var m := |ids| - 1;
            Kept(ids, n, x) <==> x == ids[m] || (Kept(ids[..m], n, x) && (m >= n ==> ids[m - n] != x))
  {
    var m := |ids| - 1;
    var less := ids[..m];
    if x == ids[m] {
      assert Survives(ids, n, m);
    } else {
      if Kept(ids, n, x) {
        var j: nat :| Survives(ids, n, j) && ids[j] == x;
        SurvivesOneMore(ids, n, j);
        assert less[j] == x;
      }
      if Kept(less, n, x) && (m >= n ==> ids[m - n] != x) {
        var j: nat :| Survives(less, n, j) && less[j] == x;
        SurvivesOneMore(ids, n, j);
      }
    }
  }

  lemma {:induction false} SeenOneMore(n: nat, less: seq<string>, id: string, x: string)
    requires n > 0
    ensures x in MarkedAll(Cleared(n), less + [id]).seen <==>
            x == id || (x in MarkedAll(Cleared(n), less).seen && (|less| >= n ==> less[|less| - n] != x))
  {
    OldestSlot(n, less);
    assert (less + [id])[..|less|] == less;
  }

  lemma {:induction false} SeenAreStill(n: nat, less: seq<string>, id: string, x: string)
    requires n > 0 && (x in MarkedAll(Cleared(n), less).seen <==> Kept(less, n, x))
    ensures x in MarkedAll(Cleared(n), less + [id]).seen <==> Kept(less + [id], n, x)
  {
    var ids := less + [id];
    assert ids[..|ids| - 1] == less && (|less| >= n ==> ids[|less| - n] == less[|less| - n]);
    SeenOneMore(n, less, id, x);
    KeptOneMore(ids, n, x);
  }

  /** What the set holds after any ids at all: those of which some occurrence survives. */
  lemma {:induction false} SeenAre(n: nat, ids: seq<string>, x: string)
    requires n > 0
    ensures x in MarkedAll(Cleared(n), ids).seen <==> Kept(ids, n, x)
  {
    if ids == [] {
      assert MarkedAll(Cleared(n), []) == Cleared(n);
    } else {
      var less, last := ids[..|ids| - 1], ids[|ids| - 1];
      assert less + [last] == ids;
      SeenAre(n, less, x);
      SeenAreStill(n, less, last, x);
    }
  }

  lemma {:induction false} SurvivesOneMore(ids: seq<string>, n: nat, j: nat)
    requires n > 0 && j < |ids| - 1
    ensures Survives(ids, n, j) <==> Survives(ids[..|ids| - 1], n, j) && (|ids| - 1 >= n ==> ids[|ids| - 1 - n] != ids[j])
  {
    var m := |ids| - 1;
    var less := ids[..m];
    if Survives(ids, n, j) {
      forall i | 0 <= i < |less| - n && j - n < i ensures less[i] != less[j] {
        assert ids[i] != ids[j];
      }
    }
    if Survives(less, n, j) {
      forall i | 0 <= i < |ids| - n && j - n < i && i != m - n ensures ids[i] != ids[j] {
        assert less[i] != less[j];
      }
    }
  }

  /** No two equal ids stand less than a ring apart with the later one still in it. */
  ghost predicate WellSpaced(ids: seq<string>, n: nat) {
    forall i, j :: 0 <= i < j < |ids| && |ids| - n <= j && j - i < n ==> ids[i] != ids[j]
  }

  lemma {:induction false} NewestAt(ids: seq<string>, n: nat, k: nat)
    requires k < |Newest(ids, n)|
    ensures Newest(ids, n)[k] == ids[|ids| - |Newest(ids, n)| + k]
  {
  }

  lemma {:induction false} SpacedKept(ids: seq<string>, n: nat, x: string)
    requires WellSpaced(ids, n) && x in Newest(ids, n)
    ensures Kept(ids, n, x)
  {
    var k :| 0 <= k < |Newest(ids, n)| && Newest(ids, n)[k] == x;
    NewestAt(ids, n, k);
    var j := |ids| - |Newest(ids, n)| + k;
    assert Survives(ids, n, j);
  }

  lemma {:induction false} SpacedDistinct(ids: seq<string>, n: nat)
    requires WellSpaced(ids, n)
    ensures Distinct(Newest(ids, n))
  {
    var kept := Newest(ids, n);
    var b := |ids| - |kept|;
    forall k, l | 0 <= k < l < |kept| ensures kept[k] != kept[l] {
      NewestAt(ids, n, k);
      NewestAt(ids, n, l);
      assert ids[b + k] != ids[b + l];
    }
  }

  /** Distinct ids in the ring that all survive are well spaced. */
  lemma {:induction false} KeptSpaced(ids: seq<string>, n: nat, i: nat, j: nat)
    requires Distinct(Newest(ids, n)) && i < j < |ids| && |ids| - n <= j && j - i < n
    requires Kept(ids, n, ids[j])
    ensures ids[i] != ids[j]
  {
    var kept := Newest(ids, n);
    var b := |ids| - |kept|;
    var k: nat :| Survives(ids, n, k) && ids[k] == ids[j];
    assert k >= b;
    NewestAt(ids, n, j - b);
    NewestAt(ids, n, k - b);
    assert k == j;
    if i >= b {
      NewestAt(ids, n, i - b);
    }
  }

  lemma {:induction false} SpacedSeen(ids: seq<string>, n: nat, seen: set<string>)
    requires forall x :: x in seen <==> Kept(ids, n, x)
    requires seen <= Elements(Newest(ids, n)) && WellSpaced(ids, n)
    ensures seen == Elements(Newest(ids, n))
  {
    forall x | x in Newest(ids, n) ensures x in seen {
      SpacedKept(ids, n, x);
    }
  }

  lemma {:induction false} SeenSpaced(ids: seq<string>, n: nat, seen: set<string>)
    requires forall x :: x in seen <==> Kept(ids, n, x)
    requires Distinct(Newest(ids, n)) && seen == Elements(Newest(ids, n))
    ensures WellSpaced(ids, n)
  {
    forall i, j | 0 <= i < j < |ids| && |ids| - n <= j && j - i < n ensures ids[i] != ids[j] {
      NewestAt(ids, n, j - (|ids| - |Newest(ids, n)|));
      assert ids[j] in seen;
      KeptSpaced(ids, n, i, j);
    }
  }

  lemma {:induction false} Reloaded(n: nat, ids: seq<string>)
    requires n > 0
    ensures var w := MarkedAll(Cleared(n), ids);
            && Recent(w) == Newest(ids, n) && w.seen <= Elements(Newest(ids, n))
            && forall x :: x in w.seen <==> Kept(ids, n, x)
  {
    SeenInRing(n, ids);
    assert Recent(Cleared(n)) + ids == ids;
    forall x ensures x in MarkedAll(Cleared(n), ids).seen <==> Kept(ids, n, x) {
      SeenAre(n, ids, x);
    }
  }

  /** Reloading any ids leaves set and ring in agreement if and only if equal ids are
      far enough apart: no id still in the ring repeats one less than a ring before it. */
  lemma {:induction false} ReloadExact(n: nat, ids: seq<string>)
    requires n > 0
    ensures Exact(MarkedAll(Cleared(n), ids)) <==> WellSpaced(ids, n)
  {
    var w := MarkedAll(Cleared(n), ids);
    Reloaded(n, ids);
    if WellSpaced(ids, n) {
      SpacedDistinct(ids, n);
      SpacedSeen(ids, n, w.seen);
    } else if Exact(w) {
      SeenSpaced(ids, n, w.seen);
    }
  }

  /** Ids recorded one after the other, none of them in the set at its turn. */
  ghost predicate Fresh(w: Window, ids: seq<string>)
    requires Shaped(w)
  {
    forall i :: 0 <= i < |ids| ==> ids[i] !in MarkedAll(w, ids[..i]).seen
  }

  lemma {:induction false} FreshExact(w: Window, ids: seq<string>)
    requires Exact(w) && Fresh(w, ids)
    ensures Exact(MarkedAll(w, ids))
  {
    if ids != [] {
      var n := |ids| - 1;
      forall i | 0 <= i < n ensures ids[..n][i] !in MarkedAll(w, ids[..n][..i]).seen {
        assert ids[..n][..i] == ids[..i];
        assert ids[i] !in MarkedAll(w, ids[..i]).seen;
      }
      FreshExact(w, ids[..n]);
      assert ids[n] !in MarkedAll(w, ids[..n]).seen;
      MarkedExact(MarkedAll(w, ids[..n]), ids[n]);
    }
  }

  /** An id in the middle of a list is among its newest `n` as long as fewer than
      `n` follow it. */
  lemma {:induction false} NewestHolds(before: seq<string>, id: string, later: seq<string>, n: nat)
    requires id !in later
    ensures |later| < n ==> id in Newest(before + [id] + later, n)
    ensures |later| >= n ==> id !in Newest(before + [id] + later, n)
  {
    var all := before + [id] + later;
    var kept := Newest(all, n);
    if |later| < n {
      assert all[|before|] == id;
      if |all| > n {
        assert kept[|before| - (|all| - n)] == all[|before|];
      }
    } else {
      assert kept == later[|later| - n..];
    }
  }

  /** A recorded id is suppressed until the window's worth of further fresh ids has
      been recorded, and no longer. */
  lemma {:induction false} SuppressedFor(w: Window, id: string, later: seq<string>)
    requires Exact(w) && id !in w.seen && id !in later
    requires Shaped(Marked(w, id)) && Fresh(Marked(w, id), later)
    ensures id in MarkedAll(Marked(w, id), later).seen <==> |later| < |w.ring|
  {
    MarkedExact(w, id);
    MarkedRecent(w, id);
    FreshExact(Marked(w, id), later);
    NewestAppend(Recent(w) + [id], later, |w.ring|);
    NewestHolds(Recent(w), id, later, |w.ring|);
  }

  /** What goes wrong when they are not: an id queued twice in a row drops out of the
      set while the ring still holds it, and would be accepted a third time. */
  lemma {:induction false} ReloadedTwice(n: nat, a: string, others: seq<string>)
    requires n > 1 && |others| == n - 1 && a !in others
    ensures var w := MarkedAll(Cleared(n), [a, a] + others);
            a in Recent(w) && a !in w.seen
  {
    var ids := [a, a] + others;
    Reloaded(n, ids);
    TwiceLost(n, a, others);
    assert Newest(ids, n)[0] == a;
  }

  lemma {:induction false} TwiceLost(n: nat, a: string, others: seq<string>)
    requires n > 1 && |others| == n - 1 && a !in others
    ensures !Kept([a, a] + others, n, a)
  {
    var ids := [a, a] + others;
    assert forall j :: 2 <= j < |ids| ==> ids[j] == others[j - 2];
    assert ids[0] == ids[1] == a && !Survives(ids, n, 0) && !Survives(ids, n, 1);
  }

  class RecentIds {
    var seen: set<string>
    const ring: array<string>
    var rlen: nat
    var rpos: nat

    function Value(): Window
      reads this, ring
    {
      Window(ring[..], rlen, rpos, seen)
    }

    constructor ()
      ensures Value() == Cleared(WINDOW) && fresh(ring)
    {
      ring := new string[WINDOW](_ => "");
      seen, rlen, rpos := {}, 0, 0;
      new;
      assert ring[..] == seq(WINDOW, _ => "");
    }

    method MarkSeen(id: string)
      requires Shaped(Value())
      modifies this, ring
      ensures Value() == Marked(old(Value()), id)
    {
      if rlen == ring.Length {
        seen := seen - {ring[rpos]};
      } else {
        rlen := rlen + 1;
      }
      ring[rpos] := id;
      rpos := Following(rpos, ring.Length);
      seen := seen + {id};
    }
  }
}
