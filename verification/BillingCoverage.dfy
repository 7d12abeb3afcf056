/** What the billing sweeps and retention leave behind, read off the ledger and the
    clock: every closed day with a readable snapshot is billed, and only rows that are
    billed, rolled up and old enough are deleted. */
module BillingCoverage {
  import opened Collections
  import opened BillingDay
  import opened Billing

  // ------------------------------------------------------------ which tenant-days have an event

  /** Some usage snapshot of the tenant that day is readable. */
  predicate Readable(s: Snapshot, tenant: nat, day: int) {
    s.usage && s.tenant == tenant && day <= s.at < day + DAY && s.report.Report?
  }

  ghost predicate ReadableOn(ledger: seq<Snapshot>, tenant: nat, day: int) {
    exists s :: s in ledger && Readable(s, tenant, day)
  }

  lemma {:induction false} ReadableRows(ledger: seq<Snapshot>, tenant: nat, day: int)
    ensures ReadableOn(ledger, tenant, day) <==> exists r :: r in DayRows(ledger, tenant, day) && IsReport(r)
  {
    if ledger != [] {
      var less, s := ledger[..|ledger| - 1], ledger[|ledger| - 1];
      ReadableRows(less, tenant, day);
      assert ledger == less + [s];
      DayRowsSnoc(less, s, tenant, day);
      assert ReadableOn(ledger, tenant, day) <==> ReadableOn(less, tenant, day) || Readable(s, tenant, day);
      var last := if InTenantDay(s, tenant, day) then [RowOf(s)] else [];
      assert forall r :: r in DayRows(ledger, tenant, day) <==> r in DayRows(less, tenant, day) || r in last;
      assert Readable(s, tenant, day) <==> InTenantDay(s, tenant, day) && IsReport(RowOf(s));
    }
  }

  lemma {:induction false} SomeKept<T>(s: seq<T>, keep: T -> bool)
    ensures Filter(s, keep) != [] <==> exists x :: x in s && keep(x)
  {
    if s != [] {
      var less, last := s[..|s| - 1], s[|s| - 1];
      SomeKept(less, keep);
      assert forall x :: x in s <==> x in less || x == last;
    }
  }

  lemma {:induction false} BillsIff(ledger: seq<Snapshot>, tenant: nat, day: int)
    ensures Bills(ledger, tenant, day) <==> ReadableOn(ledger, tenant, day)
  {
    var rows := DayRows(ledger, tenant, day);
    ReadableRows(ledger, tenant, day);
    AggregateDescribes(rows);
    SomeKept(rows, IsReport);
  }

  lemma {:induction false} FirstIsLeast(ledger: seq<Snapshot>, s: Snapshot)
    requires s in ledger && s.usage
    ensures FirstUsage(ledger).Some? && FirstUsage(ledger).value <= s.at
  {
    var less, last := ledger[..|ledger| - 1], ledger[|ledger| - 1];
    assert ledger == less + [last];
    if s in less {
      FirstIsLeast(less, s);
    }
  }

  /** A sweep leaves no closed day behind: from the watermark on, or from the first
      snapshot when there is no watermark yet, every tenant-day with a readable snapshot
      that ended at least the grace period ago has its event, and no other day gets one. */
  lemma {:induction false} SweepCovers(steps: seq<Step>, now: int, grace: int, tenant: nat, day: int)
    requires Aligned(day) && (After(steps).db.cursor.Some? ==> After(steps).db.cursor.value <= day)
    ensures var w := After(steps); var key := Key(tenant, Daily, day);
            key in Next(w, Sweep(now, grace)).db.events <==>
            key in w.db.events || (day + DAY <= now - grace && ReadableOn(w.db.ledger, tenant, day))
  {
    RunKeeps(steps);
    var db, key, closed := After(steps).db, Key(tenant, Daily, day), ClosedEnd(now, grace);
    BillsIff(db.ledger, tenant, day);
    if ReadableOn(db.ledger, tenant, day) && db.cursor.None? {
      var s :| s in db.ledger && Readable(s, tenant, day);
      FirstIsLeast(db.ledger, s);
      if day < FloorDay(FirstUsage(db.ledger).value) {
        AlignedGap(day, FloorDay(FirstUsage(db.ledger).value));
      }
    }
    if day < closed {
      AlignedGap(day, closed);
    }
    if StartOf(db).Some? && StartOf(db).value < closed {
      OneEventPerTenantDay(db, closed, key);
    }
  }

  /** Where a sweep leaves the watermark: at the newest midnight that lies the grace
      period back, or at the purge mark if that is ahead of it. */
  lemma {:induction false} WatermarkLands(steps: seq<Step>, now: int, grace: int)
    requires After(steps).db.cursor.Some?
    ensures var db, mark := After(steps).db, Next(After(steps), Sweep(now, grace)).db.cursor;
            && mark.Some? && Aligned(mark.value)
            && (db.purge.None? || db.purge.value <= now - grace ==> mark.value <= now - grace < mark.value + DAY)
            && (db.purge.Some? && db.purge.value > now - grace ==> mark == db.purge)
  {
    RunKeeps(steps);
    var db, closed := After(steps).db, ClosedEnd(now, grace);
    if db.purge.Some? && closed < db.purge.value {
      AlignedGap(closed, db.purge.value);
    }
  }

  // ------------------------------------------------------------ what an event says

  lemma {:induction false} RowsAre(ledger: seq<Snapshot>, tenant: nat, day: int, r: Row)
    ensures r in DayRows(ledger, tenant, day) <==> exists s :: s in ledger && InTenantDay(s, tenant, day) && RowOf(s) == r
  {
    if ledger != [] {
      var less, last := ledger[..|ledger| - 1], ledger[|ledger| - 1];
      RowsAre(less, tenant, day, r);
      assert ledger == less + [last];
      DayRowsSnoc(less, last, tenant, day);
      var front, more := DayRows(less, tenant, day), if InTenantDay(last, tenant, day) then [RowOf(last)] else [];
      assert r in front + more <==> r in front || r in more;
      assert forall s :: s in ledger <==> s in less || s == last;
    }
  }

  /** The account is reported by the snapshot as allocated to somebody. */
  predicate Allocated(s: Snapshot, id: string) {
    s.report.Report? &&
    exists a :: a in s.report.accounts && a.Account? && a.status != "ALLOCATION_STATUS_ABSENT" && a.id == id
  }

  /** A day's event lists exactly the accounts that some readable snapshot of the tenant
      reports as allocated that day, each once and in order. */
  lemma {:induction false} EventLists(ledger: seq<Snapshot>, tenant: nat, day: int, id: string)
    ensures var agg := DayAggregate(ledger, tenant, day);
            && (id in agg.accountIds <==> id != "" && exists s :: s in ledger && Readable(s, tenant, day) && Allocated(s, id))
            && Ascending(agg.accountIds) && agg.accountDays == |agg.accountIds|
  {
    var rows := DayRows(ledger, tenant, day);
    var agg := DayAggregate(ledger, tenant, day);
    AggregateDescribes(rows);
    AscendingCount(agg.accountIds);
    assert id in agg.accountIds <==> id in BilledIds(rows);
    if id in BilledIds(rows) {
      var r, a :| r in rows && r.report.Report? && a in r.report.accounts && Billable(a) && a.id == id;
      RowsAre(ledger, tenant, day, r);
      var s :| s in ledger && InTenantDay(s, tenant, day) && RowOf(s) == r;
      assert Readable(s, tenant, day) && Allocated(s, id);
    }
    if s :| id != "" && s in ledger && Readable(s, tenant, day) && Allocated(s, id) {
      RowsAre(ledger, tenant, day, RowOf(s));
      var a :| a in s.report.accounts && a.Account? && a.status != "ALLOCATION_STATUS_ABSENT" && a.id == id;
      assert RowOf(s) in rows && Billable(a);
      assert a.id in BilledIds(rows);
    }
  }

  // ------------------------------------------------------------ which rows retention deletes

  /** Retention may delete usage rows that are past their time, billed and rolled up. */
  predicate Deletable(db: Db, s: Snapshot, now: int, days: int, rollup: Option<int>) {
    && days > 0 && rollup.Some? && db.cursor.Some?
    && (rollup.value <= now || db.cursor.value <= now)
    && s.usage && s.at < now - days * DAY && s.at < rollup.value && s.at < db.cursor.value
  }

  lemma {:induction false} DeletesExactly(db: Db, now: int, days: int, rollup: Option<int>, spared: set<nat>, s: Snapshot)
    ensures s in Retained(db, now, days, rollup, spared).ledger <==>
            s in db.ledger && (Deletable(db, s, now, days, rollup) ==> s.id in spared)
  {
    if days > 0 && rollup.Some? && db.cursor.Some? {
      var before := Min(now - days * DAY, Min(rollup.value, db.cursor.value));
      FilterMembers(db.ledger, (x: Snapshot) => !Expired(x, before, spared));
      if |Kept(db.ledger, before, spared)| == |db.ledger| {
        SameLength(db.ledger, (x: Snapshot) => !Expired(x, before, spared));
      }
    }
  }

  lemma {:induction false} SameLength<T>(s: seq<T>, keep: T -> bool)
    requires |Filter(s, keep)| == |s|
    ensures Filter(s, keep) == s
  {
    if s != [] {
      SameLength(s[..|s| - 1], keep);
    }
  }

  /** The mark retention leaves covers what it deleted: every deleted row is older. */
  lemma {:induction false} MarkCoversDeleted(db: Db, now: int, days: int, rollup: Option<int>, spared: set<nat>, s: Snapshot)
    requires s in db.ledger && s !in Retained(db, now, days, rollup, spared).ledger
    ensures var mark := Retained(db, now, days, rollup, spared).purge;
            mark.Some? && s.at < mark.value
  {
    var before := Min(now - days * DAY, Min(rollup.value, db.cursor.value));
    FilterMembers(db.ledger, (x: Snapshot) => !Expired(x, before, spared));
  }

  // ------------------------------------------------------------ export

  /** Exporting a tenant's own event marks it exported and touches nothing else; anyone
      else's call changes nothing. */
  lemma {:induction false} ExportsOwnOnly(db: Db, tenant: nat, key: Key)
    ensures var after := Exporting(db, tenant, key);
            && after == db.(events := after.events) && after.events.Keys == db.events.Keys
            && (forall k :: k in db.events && k != key ==> after.events[k] == db.events[k])
            && (key in db.events && key.tenant == tenant ==>
                  after.events[key].status == Exported && after.events[key].payload == db.events[key].payload)
            && (key.tenant != tenant ==> after == db)
  {
  }

  // ------------------------------------------------------------ void

  /** The tenant's own exported daily event, not voided before. */
  predicate Voidable(db: Db, tenant: nat, key: Key) {
    && key in db.events && key.tenant == tenant && key.kind == Daily
    && db.events[key].status == Exported && Key(tenant, Void, key.start) !in db.events
  }

  lemma {:induction false} VoidedAre(db: Db, tenant: nat, key: Key, k: Key)
    requires key in db.events && key.kind == Daily ==> Aligned(key.start)
    ensures var after := Voiding(db, tenant, key);
            && after == db.(events := after.events)
            && (k in db.events ==> k in after.events && after.events[k] == db.events[k])
            && (k in after.events && k !in db.events <==>
                  && k !in db.events && Voidable(db, tenant, key)
                  && (k == Key(tenant, Void, key.start)
                      || (k == Key(tenant, Reagg, key.start) && ReadableOn(db.ledger, tenant, key.start))))
            && (k in after.events && k !in db.events ==>
                  after.events[k] == Event(if k.kind == Void then Reversal(key, db.events[key].payload)
                                           else Usage(DayAggregate(db.ledger, tenant, key.start)), Pending))
  {
    if Voidable(db, tenant, key) {
      CountsIff(db.ledger, tenant, key.start);
    }
  }

  /** A void adds the reversal of the exported payload and, if the ledger still has a
      readable snapshot of that day and no such event is there, one with the day's new
      aggregate; anything else that is asked for is refused and changes nothing. */
  lemma {:induction false} VoidsExactly(steps: seq<Step>, tenant: nat, key: Key, k: Key)
    ensures var db := After(steps).db;
            var after := Voiding(db, tenant, key);
            && after == db.(events := after.events)
            && (k in db.events ==> k in after.events && after.events[k] == db.events[k])
            && (k in after.events && k !in db.events <==>
                  && k !in db.events && Voidable(db, tenant, key)
                  && (k == Key(tenant, Void, key.start)
                      || (k == Key(tenant, Reagg, key.start) && ReadableOn(db.ledger, tenant, key.start))))
            && (k in after.events && k !in db.events ==>
                  after.events[k] == Event(if k.kind == Void then Reversal(key, db.events[key].payload)
                                           else Usage(DayAggregate(db.ledger, tenant, key.start)), Pending))
  {
    RunKeeps(steps);
    assert key in After(steps).db.events ==> SealedWhole(After(steps), key);
    VoidedAre(After(steps).db, tenant, key, k);
  }

  lemma {:induction false} CountsIff(ledger: seq<Snapshot>, tenant: nat, day: int)
    ensures DayAggregate(ledger, tenant, day).snapshots > 0 <==> ReadableOn(ledger, tenant, day)
  {
    ReadableRows(ledger, tenant, day);
    AggregateDescribes(DayRows(ledger, tenant, day));
    SomeKept(DayRows(ledger, tenant, day), IsReport);
  }
}
