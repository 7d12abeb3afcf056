/** The cache of unwrapped data-encryption keys: bounded, expiring, least recently used
    first out, and in agreement with unwrapping the stored row every time. */
module DekCache {
  import opened Collections

  datatype Key = Key(tenant: string, version: int)
  datatype Entry = Entry(key: Key, expiry: int, dek: string)

  // ------------------------------------------------------------ the operations

  predicate Other(e: Entry, key: Key) { e.key != key }

  function Without(store: seq<Entry>, key: Key): seq<Entry> {
    Filter(store, e => Other(e, key))
  }

  function Find(store: seq<Entry>, key: Key): Option<Entry> {
    if store == [] then None
    else if store[|store| - 1].key == key then Some(store[|store| - 1])
    else Find(store[..|store| - 1], key)
  }

  /** Entries stand in order of last use, the oldest in front. A hit moves to the back;
      an expired entry goes. */
  function Got(store: seq<Entry>, key: Key, now: int): (seq<Entry>, Option<string>) {
    var found := Find(store, key);
    if found.None? then (store, None)
    else if found.value.expiry < now then (Without(store, key), None)
    else (Without(store, key) + [found.value], Some(found.value.dek))
  }

  function Stored(store: seq<Entry>, key: Key, dek: string, now: int, ttl: int, max: nat): seq<Entry> {
    Newest(Without(store, key) + [Entry(key, now + ttl, dek)], max)
  }

  predicate OfTenant(e: Entry, tenant: string) { e.key.tenant == tenant }

  function Invalidated(store: seq<Entry>, tenant: string, version: Option<int>): seq<Entry> {
    if version.Some? then Without(store, Key(tenant, version.value)) else Filter(store, e => !OfTenant(e, tenant))
  }

  /** Unwrapping through the cache: a failure is not remembered. */
  function Looked(store: seq<Entry>, key: Key, now: int, ttl: int, max: nat, unwrap: Key -> Option<string>): (seq<Entry>, Option<string>) {
    var (after, hit) := Got(store, key, now);
    if hit.Some? then (after, hit)
    else if unwrap(key).None? then (after, None)
    else (Stored(after, key, unwrap(key).value, now, ttl, max), unwrap(key))
  }

  // ------------------------------------------------------------ shape

  ghost predicate UniqueKeys(store: seq<Entry>) {
    forall i, j :: 0 <= i < j < |store| ==> store[i].key != store[j].key
  }

  lemma {:induction false} WithoutIs(store: seq<Entry>, key: Key)
    requires UniqueKeys(store)
    ensures UniqueKeys(Without(store, key))
    ensures forall e :: e in Without(store, key) <==> e in store && e.key != key
    ensures |Without(store, key)| == if Find(store, key).Some? then |store| - 1 else |store|
    ensures Find(store, key).Some? ==> Find(store, key).value in store && Find(store, key).value.key == key
    ensures Find(store, key).None? ==> forall e :: e in store ==> e.key != key
  {
    if store != [] {
      var n := |store| - 1;
      WithoutIs(store[..n], key);
      assert store == store[..n] + [store[n]];
      var front := Without(store[..n], key);
      if store[n].key == key {
        assert forall e :: e in store[..n] ==> e.key != key;
        assert Find(store[..n], key).None?;
      } else {
        UniqueSnoc(front, store[n]);
      }
    }
  }

  lemma {:induction false} UniqueSnoc(store: seq<Entry>, e: Entry)
    requires UniqueKeys(store) && forall x :: x in store ==> x.key != e.key
    ensures UniqueKeys(store + [e])
  {
  }

  lemma {:induction false} UniqueNewest(store: seq<Entry>, n: nat)
    requires UniqueKeys(store)
    ensures UniqueKeys(Newest(store, n)) && forall e :: e in Newest(store, n) ==> e in store
  {
  }

  // ------------------------------------------------------------ order of use

  /** `uses` numbers the last use of each key; the store is ordered by it. */
  ghost predicate Ordered(store: seq<Entry>, uses: map<Key, nat>, tick: nat) {
    && (forall e :: e in store ==> e.key in uses && uses[e.key] < tick)
    && forall i, j :: 0 <= i < j < |store| ==> store[i].key in uses && store[j].key in uses && uses[store[i].key] < uses[store[j].key]
  }

  lemma {:induction false} FilterOrdered(store: seq<Entry>, keep: Entry -> bool, uses: map<Key, nat>, tick: nat)
    requires Ordered(store, uses, tick)
    ensures Ordered(Filter(store, keep), uses, tick)
  {
    if store != [] {
      var n := |store| - 1;
      OrderedPrefix(store, uses, tick);
      FilterOrdered(store[..n], keep, uses, tick);
      if keep(store[n]) {
        FilterMembers(store[..n], keep);
        assert store == store[..n] + [store[n]];
        OrderedSnoc(Filter(store[..n], keep), store[n], uses, tick, store[..n]);
      }
    }
  }

  lemma {:induction false} OrderedPrefix(store: seq<Entry>, uses: map<Key, nat>, tick: nat)
    requires store != [] && Ordered(store, uses, tick)
    ensures Ordered(store[..|store| - 1], uses, tick)
  {
  }

  lemma {:induction false} WithoutOrdered(store: seq<Entry>, key: Key, uses: map<Key, nat>, tick: nat)
    requires Ordered(store, uses, tick)
    ensures Ordered(Without(store, key), uses, tick)
  {
    FilterOrdered(store, e => Other(e, key), uses, tick);
  }

  lemma {:induction false} OrderedSnoc(front: seq<Entry>, e: Entry, uses: map<Key, nat>, tick: nat, behind: seq<Entry>)
    requires Ordered(front, uses, tick) && (forall x :: x in front ==> x in behind)
    requires Ordered(behind + [e], uses, tick)
    ensures Ordered(front + [e], uses, tick)
  {
    forall i | 0 <= i < |front| ensures uses[front[i].key] < uses[e.key] {
      assert front[i] in behind;
      var k :| 0 <= k < |behind| && behind[k] == front[i];
      assert (behind + [e])[k] == front[i] && (behind + [e])[|behind|] == e;
    }
    assert e in behind + [e];
  }

  /** Using a key puts its entry at the back. */
  lemma {:induction false} UsedOrdered(store: seq<Entry>, e: Entry, uses: map<Key, nat>, tick: nat)
    requires Ordered(store, uses, tick) && forall x :: x in store ==> x.key != e.key
    ensures Ordered(store + [e], uses[e.key := tick], tick + 1)
  {
    forall i | 0 <= i < |store| ensures store[i].key != e.key {
      assert store[i] in store;
    }
  }

  lemma {:induction false} NewestOrdered(store: seq<Entry>, n: nat, uses: map<Key, nat>, tick: nat)
    requires Ordered(store, uses, tick)
    ensures Ordered(Newest(store, n), uses, tick)
  {
  }

  // ------------------------------------------------------------ runs

  datatype Op = Lookup(key: Key) | Invalidate(tenant: string, version: Option<int>) | Clear

  datatype World = World(store: seq<Entry>, now: int, uses: map<Key, nat>, tick: nat)

  function Apply(w: World, op: Op, now: int, ttl: int, max: nat, unwrap: Key -> Option<string>): World {
    match op
    case Lookup(key) =>
      var store := Looked(w.store, key, now, ttl, max, unwrap).0;
      World(store, now, w.uses[key := w.tick], w.tick + 1)
    case Invalidate(tenant, version) => w.(store := Invalidated(w.store, tenant, version), now := now)
    case Clear => w.(store := [], now := now)
  }

  datatype Timed = Timed(op: Op, now: int)

  function After(ops: seq<Timed>, ttl: int, max: nat, unwrap: Key -> Option<string>): World {
    if ops == [] then World([], 0, map[], 0)
    else Apply(After(ops[..|ops| - 1], ttl, max, unwrap), ops[|ops| - 1].op, ops[|ops| - 1].now, ttl, max, unwrap)
  }

  ghost predicate Agrees(store: seq<Entry>, unwrap: Key -> Option<string>) {
    forall e :: e in store ==> unwrap(e.key) == Some(e.dek)
  }

  ghost predicate Inv(w: World, max: nat, unwrap: Key -> Option<string>) {
    UniqueKeys(w.store) && |w.store| <= max && Agrees(w.store, unwrap) && Ordered(w.store, w.uses, w.tick)
  }

  lemma {:induction false} GotKeeps(w: World, key: Key, now: int, max: nat, unwrap: Key -> Option<string>)
    requires Inv(w, max, unwrap)
    ensures var (after, hit) := Got(w.store, key, now);
            && UniqueKeys(after) && |after| <= max && Agrees(after, unwrap)
            && (hit.Some? ==> hit == unwrap(key) && Ordered(after, w.uses[key := w.tick], w.tick + 1))
            && (hit.None? ==> Ordered(after, w.uses, w.tick) && forall e :: e in after ==> e.key != key)
  {
    WithoutIs(w.store, key);
    WithoutOrdered(w.store, key, w.uses, w.tick);
    var found := Find(w.store, key);
    if found.Some? {
      UniqueSnoc(Without(w.store, key), found.value);
      UsedOrdered(Without(w.store, key), found.value, w.uses, w.tick);
    }
  }

  lemma {:induction false} PutKeeps(store: seq<Entry>, key: Key, dek: string, now: int, ttl: int, max: nat, uses: map<Key, nat>, tick: nat, unwrap: Key -> Option<string>)
    requires UniqueKeys(store) && Agrees(store, unwrap) && Ordered(store, uses, tick) && unwrap(key) == Some(dek)
    ensures var after := Stored(store, key, dek, now, ttl, max);
            && UniqueKeys(after) && |after| <= max && Agrees(after, unwrap) && Ordered(after, uses[key := tick], tick + 1)
  {
    WithoutIs(store, key);
    WithoutOrdered(store, key, uses, tick);
    var e := Entry(key, now + ttl, dek);
    UniqueSnoc(Without(store, key), e);
    UsedOrdered(Without(store, key), e, uses, tick);
    UniqueNewest(Without(store, key) + [e], max);
    NewestOrdered(Without(store, key) + [e], max, uses[key := tick], tick + 1);
  }

  /** A use of a key that leaves no entry of it behind. */
  lemma {:induction false} MissOrdered(store: seq<Entry>, key: Key, uses: map<Key, nat>, tick: nat)
    requires Ordered(store, uses, tick) && forall e :: e in store ==> e.key != key
    ensures Ordered(store, uses[key := tick], tick + 1)
  {
    forall i | 0 <= i < |store| ensures store[i].key != key {
      assert store[i] in store;
    }
  }

  lemma {:induction false} LookupKeeps(w: World, key: Key, now: int, ttl: int, max: nat, unwrap: Key -> Option<string>)
    requires Inv(w, max, unwrap)
    ensures Inv(Apply(w, Lookup(key), now, ttl, max, unwrap), max, unwrap)
    ensures Looked(w.store, key, now, ttl, max, unwrap).1 == unwrap(key)
  {
    GotKeeps(w, key, now, max, unwrap);
    var (after, hit) := Got(w.store, key, now);
    if hit.None? {
      if unwrap(key).Some? {
        PutKeeps(after, key, unwrap(key).value, now, ttl, max, w.uses, w.tick, unwrap);
      } else {
        MissOrdered(after, key, w.uses, w.tick);
      }
    }
  }

  lemma {:induction false} OrderedUnique(store: seq<Entry>, uses: map<Key, nat>, tick: nat)
    requires Ordered(store, uses, tick)
    ensures UniqueKeys(store)
  {
  }

  lemma {:induction false} TenantGone(store: seq<Entry>, tenant: string, uses: map<Key, nat>, tick: nat)
    requires Ordered(store, uses, tick)
    ensures var left := Invalidated(store, tenant, None);
            UniqueKeys(left) && Ordered(left, uses, tick) && forall e :: e in left <==> e in store && e.key.tenant != tenant
  {
    FilterOrdered(store, e => !OfTenant(e, tenant), uses, tick);
    OrderedUnique(Invalidated(store, tenant, None), uses, tick);
    FilterMembers(store, e => !OfTenant(e, tenant));
  }

  lemma {:induction false} InvalidateKeeps(w: World, tenant: string, version: Option<int>, now: int, ttl: int, max: nat, unwrap: Key -> Option<string>)
    requires Inv(w, max, unwrap)
    ensures Inv(Apply(w, Invalidate(tenant, version), now, ttl, max, unwrap), max, unwrap)
  {
    if version.Some? {
      WithoutIs(w.store, Key(tenant, version.value));
      WithoutOrdered(w.store, Key(tenant, version.value), w.uses, w.tick);
    } else {
      TenantGone(w.store, tenant, w.uses, w.tick);
    }
  }

  lemma {:induction false} RunKeeps(ops: seq<Timed>, ttl: int, max: nat, unwrap: Key -> Option<string>)
    ensures Inv(After(ops, ttl, max, unwrap), max, unwrap)
  {
    if ops != [] {
      var less, last := ops[..|ops| - 1], ops[|ops| - 1];
      RunKeeps(less, ttl, max, unwrap);
      var w := After(less, ttl, max, unwrap);
      match last.op
      case Lookup(key) => LookupKeeps(w, key, last.now, ttl, max, unwrap);
      case Invalidate(tenant, version) => InvalidateKeeps(w, tenant, version, last.now, ttl, max, unwrap);
      case Clear =>
    }
  }

  /** After any run a lookup, hit or miss, answers what unwrapping the stored row
      answers; the cache never outgrows its bound; and a hit is never past its expiry. */
  lemma {:induction false} AgreesWithUnwrapping(ops: seq<Timed>, key: Key, now: int, ttl: int, max: nat, unwrap: Key -> Option<string>)
    ensures var store := After(ops, ttl, max, unwrap).store;
            && Looked(store, key, now, ttl, max, unwrap).1 == unwrap(key)
            && |Looked(store, key, now, ttl, max, unwrap).0| <= max
            && (Got(store, key, now).1.Some? ==> exists e :: e in store && e.key == key && now <= e.expiry && unwrap(key) == Some(e.dek))
  {
    RunKeeps(ops, ttl, max, unwrap);
    var w := After(ops, ttl, max, unwrap);
    LookupKeeps(w, key, now, ttl, max, unwrap);
    WithoutIs(w.store, key);
  }

  /** What a put pushes out was used longer ago than everything it keeps. */
  lemma {:induction false} EvictsLeastRecent(ops: seq<Timed>, key: Key, dek: string, now: int, ttl: int, max: nat, unwrap: Key -> Option<string>, gone: Entry, kept: Entry)
    requires var w := After(ops, ttl, max, unwrap);
             && gone in w.store && gone.key != key && gone !in Stored(w.store, key, dek, now, ttl, max)
             && kept in w.store && kept.key != key && kept in Stored(w.store, key, dek, now, ttl, max)
    ensures var w := After(ops, ttl, max, unwrap);
            gone.key in w.uses && kept.key in w.uses && w.uses[gone.key] < w.uses[kept.key]
  {
    RunKeeps(ops, ttl, max, unwrap);
    var w := After(ops, ttl, max, unwrap);
    WithoutIs(w.store, key);
    WithoutOrdered(w.store, key, w.uses, w.tick);
    NewestBehind(Without(w.store, key), Entry(key, now + ttl, dek), max, w.uses, w.tick, gone, kept);
  }

  lemma {:induction false} NewestHas(all: seq<Entry>, max: nat, i: nat)
    requires i < |all|
    ensures |all| - max <= i ==> all[i] in Newest(all, max)
  {
    var cut := if |all| <= max then 0 else |all| - max;
    if cut <= i {
      assert Newest(all, max)[i - cut] == all[i];
    }
  }

  lemma {:induction false} NewestBehind(store: seq<Entry>, e: Entry, max: nat, uses: map<Key, nat>, tick: nat, gone: Entry, kept: Entry)
    requires Ordered(store, uses, tick) && gone in store && kept in store && kept != e
    requires gone !in Newest(store + [e], max) && kept in Newest(store + [e], max)
    ensures uses[gone.key] < uses[kept.key]
  {
    var all := store + [e];
    var cut := |all| - max;
    var i :| 0 <= i < |store| && store[i] == gone;
    var j :| 0 <= j < |all[cut..]| && all[cut..][j] == kept;
    assert all[cut + j] == kept && cut + j < |store|;
    NewestHas(all, max, i);
  }

  /** A put drops at most one entry, and only when the cache was full. */
  lemma {:induction false} PutDropsAtMostOne(ops: seq<Timed>, key: Key, dek: string, now: int, ttl: int, max: nat, unwrap: Key -> Option<string>)
    requires max > 0
    ensures var store := After(ops, ttl, max, unwrap).store;
            |Stored(store, key, dek, now, ttl, max)| ==
            if Find(store, key).Some? || |store| == max then |store| else |store| + 1
  {
    RunKeeps(ops, ttl, max, unwrap);
    WithoutIs(After(ops, ttl, max, unwrap).store, key);
  }

  /** Invalidating one version, or a whole tenant, takes exactly those keys out. */
  lemma {:induction false} InvalidatesExactly(store: seq<Entry>, tenant: string, version: Option<int>, e: Entry)
    ensures e in Invalidated(store, tenant, version) <==>
            e in store && !(e.key.tenant == tenant && (version.None? || e.key.version == version.value))
  {
    if version.Some? {
      FilterMembers(store, x => Other(x, Key(tenant, version.value)));
    } else {
      FilterMembers(store, x => !OfTenant(x, tenant));
    }
  }

  lemma {:induction false} LastFound(store: seq<Entry>, e: Entry)
    requires store != [] && store[|store| - 1] == e
    ensures Find(store, e.key) == Some(e)
  {
  }

  /** A key put in is answered until its time is over, and not a moment longer. */
  lemma {:induction false} HitsUntilExpiry(store: seq<Entry>, key: Key, dek: string, now: int, ttl: int, max: nat, later: int)
    requires max > 0
    ensures Got(Stored(store, key, dek, now, ttl, max), key, later).1 == if later <= now + ttl then Some(dek) else None
  {
    var e := Entry(key, now + ttl, dek);
    var after := Stored(store, key, dek, now, ttl, max);
    assert after[|after| - 1] == e;
    LastFound(after, e);
  }

  // ------------------------------------------------------------ the object

  lemma {:induction false} FindAt(store: seq<Entry>, key: Key, i: nat)
    requires UniqueKeys(store) && i < |store| && store[i].key == key
    ensures Find(store, key) == Some(store[i])
    ensures Without(store, key) == store[..i] + store[i + 1..]
  {
    var n := |store| - 1;
    if i < n {
      FindAt(store[..n], key, i);
      assert store[..n][..i] + store[..n][i + 1..] + [store[n]] == store[..i] + store[i + 1..];
    } else {
      FilterAll(store[..n], e => Other(e, key));
      assert store[..i] + store[i + 1..] == store[..n];
    }
  }

  lemma {:induction false} FindNone(store: seq<Entry>, key: Key)
    requires forall i :: 0 <= i < |store| ==> store[i].key != key
    ensures Find(store, key) == None && Without(store, key) == store
  {
    if store != [] {
      FindNone(store[..|store| - 1], key);
    }
  }

  class Cache {
    var store: seq<Entry>
    const max: nat
    const ttl: int

    constructor (max: nat, ttl: int)
      ensures store == [] && this.max == max && this.ttl == ttl
    {
      store := [];
      this.max, this.ttl := max, ttl;
    }

    method IndexOf(key: Key) returns (i: nat)
      requires UniqueKeys(store)
      ensures i <= |store|
      ensures i < |store| ==> store[i].key == key && Find(store, key) == Some(store[i]) && Without(store, key) == store[..i] + store[i + 1..]
      ensures i == |store| ==> Find(store, key) == None && Without(store, key) == store
    {
      i := 0;
      while i < |store| && store[i].key != key
        invariant i <= |store| && forall k :: 0 <= k < i ==> store[k].key != key
      {
        i := i + 1;
      }
      if i < |store| {
        FindAt(store, key, i);
      } else {
        FindNone(store, key);
      }
    }

    method Get(key: Key, now: int) returns (hit: Option<string>)
      requires UniqueKeys(store)
      modifies this
      ensures (store, hit) == Got(old(store), key, now)
    {
      var i := IndexOf(key);
      if i == |store| {
        return None;
      }
      var e := store[i];
      store := store[..i] + store[i + 1..];
      if e.expiry < now {
        return None;
      }
      store := store + [e];
      return Some(e.dek);
    }

    method Put(key: Key, dek: string, now: int)
      requires UniqueKeys(store)
      modifies this
      ensures store == Stored(old(store), key, dek, now, ttl, max)
    {
      var i := IndexOf(key);
      if i < |store| {
        store := store[..i] + store[i + 1..];
      }
      store := store + [Entry(key, now + ttl, dek)];
      ghost var all := store;
      while |store| > max
        invariant |store| <= |all| && store == all[|all| - |store|..]
        invariant |store| >= max || store == all
      {
        store := store[1..];
      }
    }

    method Invalidate(tenant: string, version: Option<int>)
      requires UniqueKeys(store)
      modifies this
      ensures store == Invalidated(old(store), tenant, version)
    {
      if version.Some? {
        var i := IndexOf(Key(tenant, version.value));
        if i < |store| {
          store := store[..i] + store[i + 1..];
        }
        return;
      }
      var left := [];
      for i := 0 to |store|
        invariant left == Invalidated(store[..i], tenant, None)
      {
        assert store[..i + 1][..i] == store[..i];
        if store[i].key.tenant != tenant {
          left := left + [store[i]];
        }
      }
      assert store[..|store|] == store;
      store := left;
    }

    /** The key for a stored row: from the cache, or unwrapped and remembered. */
    method UnwrapCached(key: Key, now: int, unwrap: Key -> Option<string>) returns (dek: Option<string>)
      requires UniqueKeys(store)
      modifies this
      ensures (store, dek) == Looked(old(store), key, now, ttl, max, unwrap)
    {
      dek := Get(key, now);
      if dek.Some? {
        return;
      }
      dek := unwrap(key);
      if dek.Some? {
        UniqueAfterMiss(old(store), key, now);
        Put(key, dek.value, now);
      }
    }
  }

  lemma {:induction false} UniqueAfterMiss(store: seq<Entry>, key: Key, now: int)
    requires UniqueKeys(store)
    ensures Got(store, key, now).1.None? ==> UniqueKeys(Got(store, key, now).0)
  {
    WithoutIs(store, key);
  }
}
