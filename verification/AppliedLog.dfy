/** The ring of processed commands that makes a re-queued command id recognizable
    after a restart. */
module AppliedLog {
  import opened Collections

  datatype Convergence = Converged | Diverged | Rejected

  datatype Entry = Entry(id: string, kind: string, target: string, desired: string, convergence: Convergence)

  const RING := 128

  /** The entries in memory, oldest first, and the file they were last written to. */
  datatype Log = Log(entries: seq<Entry>, disk: seq<Entry>)

  /** An append whose write fails still counts in memory, and the next write that
      succeeds carries it along. */
  function Appended(l: Log, e: Entry, io: bool): Log {
    var entries := Newest(l.entries + [e], RING);
    Log(entries, if io then entries else l.disk)
  }

  function Reopened(l: Log): Log {
    Log(Newest(l.disk, RING), l.disk)
  }

  /** The most recent entry of a command. */
  function Lookup(entries: seq<Entry>, id: string): Option<Entry> {
    if entries == [] then None
    else if entries[|entries| - 1].id == id then Some(entries[|entries| - 1])
    else Lookup(entries[..|entries| - 1], id)
  }

  predicate AlreadyApplied(entries: seq<Entry>, id: string) {
    Lookup(entries, id).Some? && Lookup(entries, id).value.convergence == Converged
  }

  ghost predicate Bounded(l: Log) {
    |l.entries| <= RING && |l.disk| <= RING
  }

  // ------------------------------------------------------------ how long an id is kept

  /** The entry stands in the list with at most `k` later entries, all of other ids. */
  ghost predicate Within(entries: seq<Entry>, e: Entry, k: nat) {
    exists i :: 0 <= i < |entries| && entries[i] == e && |entries| - 1 - i <= k &&
      forall j :: i < j < |entries| ==> entries[j].id != e.id
  }

  lemma {:induction false} WithinFound(entries: seq<Entry>, e: Entry, k: nat)
    requires Within(entries, e, k)
    ensures Lookup(entries, e.id) == Some(e)
  {
    var n := |entries| - 1;
    if entries[n].id != e.id {
      var i :| 0 <= i < |entries| && entries[i] == e && |entries| - 1 - i <= k && forall j :: i < j < |entries| ==> entries[j].id != e.id;
      assert entries[..n][i] == e;
      WithinFound(entries[..n], e, k);
    }
  }

  lemma {:induction false} WithinAppend(entries: seq<Entry>, e: Entry, k: nat, next: Entry, n: nat)
    requires Within(entries, e, k) && next.id != e.id && k + 1 < n
    ensures Within(Newest(entries + [next], n), e, k + 1)
  {
    var i :| 0 <= i < |entries| && entries[i] == e && |entries| - 1 - i <= k && forall j :: i < j < |entries| ==> entries[j].id != e.id;
    var all := entries + [next];
    assert all[i] == e && forall j :: i < j < |all| ==> all[j].id != e.id;
    WithinNewest(all, e, i, n);
    WithinMore(Newest(all, n), e, |all| - 1 - i, k + 1);
  }

  lemma {:induction false} WithinNewest(all: seq<Entry>, e: Entry, i: nat, n: nat)
    requires i < |all| && |all| - 1 - i < n
    requires all[i] == e && forall j :: i < j < |all| ==> all[j].id != e.id
    ensures Within(Newest(all, n), e, |all| - 1 - i)
  {
    var kept := Newest(all, n);
    var cut := |all| - |kept|;
    assert forall j :: 0 <= j < |kept| ==> kept[j] == all[j + cut];
    assert kept[i - cut] == e;
  }

  lemma {:induction false} WithinMore(entries: seq<Entry>, e: Entry, k: nat, more: nat)
    requires Within(entries, e, k) && k <= more
    ensures Within(entries, e, more)
  {
  }

  datatype Event = Append(entry: Entry, io: bool) | Restart

  function AfterEvents(l: Log, events: seq<Event>): Log {
    if events == [] then l
    else
      var before := AfterEvents(l, events[..|events| - 1]);
      match events[|events| - 1]
      case Append(e, io) => Appended(before, e, io)
      case Restart => Reopened(before)
  }

  function Appends(events: seq<Event>): nat {
    if events == [] then 0
    else Appends(events[..|events| - 1]) + if events[|events| - 1].Append? then 1 else 0
  }

  /** A command logged durably is found as it was logged, through any mix of restarts,
      successful and failed writes, until a ring's worth of other entries follows it. */
  lemma {:induction false} KeptThrough(l: Log, e: Entry, events: seq<Event>)
    requires Bounded(l) && Within(l.entries, e, 0) && Within(l.disk, e, 0)
    requires Appends(events) < RING
    requires forall ev :: ev in events && ev.Append? ==> ev.entry.id != e.id
    ensures var after := AfterEvents(l, events);
            && Bounded(after)
            && Within(after.entries, e, Appends(events)) && Within(after.disk, e, Appends(events))
            && Lookup(after.entries, e.id) == Some(e)
  {
    if events == [] {
      WithinFound(l.entries, e, 0);
    } else {
      var n := |events| - 1;
      assert events[n] in events && forall ev :: ev in events[..n] ==> ev in events;
      KeptThrough(l, e, events[..n]);
      var before := AfterEvents(l, events[..n]);
      var k := Appends(events[..n]);
      match events[n]
      case Append(next, io) =>
        WithinAppend(before.entries, e, k, next, RING);
        WithinMore(before.disk, e, k, k + 1);
        WithinFound(AfterEvents(l, events).entries, e, k + 1);
      case Restart =>
        assert Newest(before.disk, RING) == before.disk;
        WithinFound(before.disk, e, k);
    }
  }

  lemma {:induction false} AppendedWithin(l: Log, e: Entry)
    ensures Within(Appended(l, e, true).entries, e, 0) && Within(Appended(l, e, true).disk, e, 0)
    ensures Bounded(Appended(l, e, true))
  {
    var after := Appended(l, e, true);
    assert after.entries[|after.entries| - 1] == e;
  }

  lemma {:induction false} LookupNone(entries: seq<Entry>, id: string)
    requires forall i :: 0 <= i < |entries| ==> entries[i].id != id
    ensures Lookup(entries, id) == None
  {
    if entries != [] {
      LookupNone(entries[..|entries| - 1], id);
    }
  }

  /** The ring's worth is exact: 128 other entries forget the command. */
  lemma {:induction false} ForgottenAfterRing(l: Log, e: Entry, later: seq<Entry>)
    requires |later| == RING && forall x :: x in later ==> x.id != e.id
    ensures Lookup(Newest(l.entries + [e] + later, RING), e.id) == None
  {
    assert Newest(l.entries + [e] + later, RING) == later;
    forall i | 0 <= i < |later| ensures later[i].id != e.id {
      assert later[i] in later;
    }
    LookupNone(later, e.id);
  }

  // ------------------------------------------------------------ recent ids

  /** Command ids newest first, each at its newest use. */
  function RecentIds(entries: seq<Entry>): seq<string> {
    if entries == [] then []
    else
      var id := entries[|entries| - 1].id;
      [id] + Filter(RecentIds(entries[..|entries| - 1]), x => x != id)
  }

  /** The reported ids are distinct, at most as many as the ring holds, exactly those a
      lookup finds, and start with the newest. */
  lemma {:induction false} RecentIdsAre(entries: seq<Entry>)
    ensures Distinct(RecentIds(entries)) && |RecentIds(entries)| <= |entries|
    ensures forall id :: id in RecentIds(entries) <==> Lookup(entries, id).Some?
    ensures entries != [] ==> RecentIds(entries)[0] == entries[|entries| - 1].id
  {
    if entries != [] {
      var n := |entries| - 1;
      var id := entries[n].id;
      RecentIdsAre(entries[..n]);
      var rest := RecentIds(entries[..n]);
      FilterMembers(rest, x => x != id);
      FilterDistinct(rest, x => x != id);
      var tail := Filter(rest, x => x != id);
      assert RecentIds(entries) == [id] + tail;
      forall j | 0 <= j < |tail| ensures tail[j] != id {
        assert tail[j] in tail;
      }
    }
  }

  lemma {:induction false} FilterDistinct(ids: seq<string>, keep: string -> bool)
    requires Distinct(ids)
    ensures Distinct(Filter(ids, keep))
  {
    if ids != [] {
      var n := |ids| - 1;
      FilterDistinct(ids[..n], keep);
      FilterMembers(ids[..n], keep);
      var front := Filter(ids[..n], keep);
      forall i | 0 <= i < |front| ensures front[i] != ids[n] {
        assert front[i] in ids[..n];
      }
    }
  }

  // ------------------------------------------------------------ the object

  class AppliedRing {
    var entries: seq<Entry>
    var disk: seq<Entry>

    function Value(): Log
      reads this
    {
      Log(entries, disk)
    }

    /** Opens the ring over the file a previous process left. */
    constructor (disk: seq<Entry>)
      ensures Value() == Reopened(Log([], disk))
    {
      this.disk := disk;
      entries := Newest(disk, RING);
    }

    method Append(e: Entry, io: bool) returns (ok: bool)
      modifies this
      ensures ok == io && Value() == Appended(old(Value()), e, io)
    {
      entries := entries + [e];
      if |entries| > RING {
        entries := entries[|entries| - RING..];
      }
      if io {
        disk := entries;
      }
      return io;
    }

    method Find(id: string) returns (found: Option<Entry>)
      ensures found == Lookup(entries, id)
    {
      var i := |entries|;
      assert entries[..|entries|] == entries;
      while i > 0
        invariant 0 <= i <= |entries|
        invariant Lookup(entries, id) == Lookup(entries[..i], id)
      {
        assert entries[..i][..i - 1] == entries[..i - 1];
        if entries[i - 1].id == id {
          return Some(entries[i - 1]);
        }
        i := i - 1;
      }
      return None;
    }

    method RecentIDs() returns (out: seq<string>)
      requires |entries| <= RING
      ensures out == RecentIds(entries) && |out| <= RING
    {
      out := [];
      var i := |entries|;
      RecentIdsAre(entries);
      NothingReported(entries);
      assert entries[..|entries|] == entries;
      while i > 0
        invariant 0 <= i <= |entries|
        invariant out + Remaining(entries[..i], out) == RecentIds(entries)
      {
        OneMoreReported(entries, i, out, RecentIds(entries));
        i := i - 1;
        var id := entries[i].id;
        if id in out {
          continue;
        }
        out := out + [id];
        if |out| >= RING {
          RingIsFull(out, Remaining(entries[..i], out), RecentIds(entries));
          return;
        }
      }
      assert out + [] == out;
    }
  }

  /** The ids still to report once `out` has been. */
  function Remaining(entries: seq<Entry>, out: seq<string>): seq<string> {
    Filter(RecentIds(entries), x => x !in out)
  }

  lemma {:induction false} NothingReported(entries: seq<Entry>)
    ensures [] + Remaining(entries, []) == RecentIds(entries)
  {
    var none: seq<string> := [];
    FilterAll(RecentIds(entries), x => x !in none);
  }

  lemma {:induction false} RingIsFull(out: seq<string>, rest: seq<string>, all: seq<string>)
    requires out + rest == all && |all| <= RING && |out| >= RING
    ensures out == all
  {
    assert rest == [];
  }

  lemma {:induction false} FilterFirst(first: string, rest: seq<string>, keep: string -> bool)
    ensures Filter([first] + rest, keep) == (if keep(first) then [first] else []) + Filter(rest, keep)
  {
    FilterConcat([first], rest, keep);
    assert [first][..0] == [];
  }

  lemma {:induction false} FilterBoth(ids: seq<string>, f: string -> bool, g: string -> bool, both: string -> bool)
    requires forall x :: x in ids ==> both(x) == (f(x) && g(x))
    ensures Filter(Filter(ids, f), g) == Filter(ids, both)
  {
    if ids != [] {
      var n := |ids| - 1;
      FilterBoth(ids[..n], f, g, both);
      var front := Filter(ids[..n], f);
      if f(ids[n]) {
        assert (front + [ids[n]])[..|front|] == front;
      }
    }
  }

  /** One more entry looked at: its id is next unless it was reported already. */
  lemma {:induction false} NextRecent(entries: seq<Entry>, out: seq<string>)
    requires entries != []
    ensures var id, before := entries[|entries| - 1].id, entries[..|entries| - 1];
            Remaining(entries, out) ==
            if id in out then Remaining(before, out) else [id] + Remaining(before, out + [id])
  {
    var id, rest := entries[|entries| - 1].id, RecentIds(entries[..|entries| - 1]);
    FilterFirst(id, Filter(rest, x => x != id), x => x !in out);
    if id in out {
      FilterBoth(rest, x => x != id, x => x !in out, x => x !in out);
    } else {
      FilterBoth(rest, x => x != id, x => x !in out, x => x !in out + [id]);
    }
  }

  lemma {:induction false} OneMoreReported(entries: seq<Entry>, i: nat, out: seq<string>, all: seq<string>)
    requires 0 < i <= |entries| && out + Remaining(entries[..i], out) == all
    ensures var id := entries[i - 1].id;
            if id in out then out + Remaining(entries[..i - 1], out) == all
            else (out + [id]) + Remaining(entries[..i - 1], out + [id]) == all
  {
    var id := entries[i - 1].id;
    NextRecent(entries[..i], out);
    assert entries[..i][..i - 1] == entries[..i - 1];
    if id !in out {
      OneInFront(out, id, Remaining(entries[..i - 1], out + [id]));
    }
  }

  lemma {:induction false} OneInFront(out: seq<string>, id: string, rest: seq<string>)
    ensures out + ([id] + rest) == (out + [id]) + rest
  {
  }
}
