/** Which alerts an operation opens, refreshes and closes, spelled out over their
    fields. */
module AlertEffects {
  import opened Collections
  import opened Alerts

  // ------------------------------------------------------------ opening

  /** The alert is as before but for the new detail and, on a server, the new snapshot;
      an acknowledged one loses no snapshot to a refresh without one. */
  ghost predicate Renewed(was: Alert, now: Alert, a: Alert) {
    && now.tenant == was.tenant && now.server == was.server && now.account == was.account
    && now.kind == was.kind && now.severity == was.severity && now.status == was.status && now.key == was.key
    && now.detail == a.detail
    && (a.server.None? ==> now.snapshot == was.snapshot)
    && (a.server.Some? && a.snapshot.Some? ==> now.snapshot == a.snapshot)
    && (a.server.Some? && a.snapshot.None? ==> now.snapshot == if was.status == Acked then was.snapshot else None)
  }

  /** Opening under a key that has an active alert renews that one and stages nothing. */
  lemma {:induction false} OpenedAgain(s: State, a: Alert, stage: bool, i: nat)
    requires Inv(s) && a.status == Open && i < |s.alerts| && Active(s.alerts[i]) && s.alerts[i].key == a.key
    ensures var after := Opened(s, a, stage);
            && |after.alerts| == |s.alerts| && Renewed(s.alerts[i], after.alerts[i], a)
            && (forall j :: 0 <= j < |s.alerts| && j != i ==> after.alerts[j] == s.alerts[j])
            && after.outbox == s.outbox && after.webhooks == s.webhooks
  {
    FirstWithIs(s.alerts, a.key, Acked);
    FirstWithIs(s.alerts, a.key, Open);
  }

  /** Otherwise it adds the alert, and stages its opening when asked to. */
  lemma {:induction false} OpenedNew(s: State, a: Alert, stage: bool)
    requires a.status == Open && forall i :: 0 <= i < |s.alerts| && Active(s.alerts[i]) ==> s.alerts[i].key != a.key
    ensures var after := Opened(s, a, stage);
            && after.alerts == s.alerts + [a] && after.webhooks == s.webhooks
            && after.outbox == s.outbox +
                 (if stage && s.webhooks then [Staged(|s.alerts|, Opens, a.tenant, a.server, a.kind, a.detail)] else [])
  {
    FirstWithIs(s.alerts, a.key, Acked);
    FirstWithIs(s.alerts, a.key, Open);
  }

  /** The alert an operation opens, if it opens one, and whether it is to be staged. */
  function Asked(op: Op): Option<(Alert, bool)> {
    match op
    case OpenAlert(tenant, server, kind, severity, account, detail, snapshot) =>
      var key := if account.Some? then AccountKey(server, kind, account.value) else ServerKey(server, kind);
      Some((Alert(tenant, Some(server), account, kind, severity, Open, key, detail, snapshot), true))
    case OpenSystemAlert(tenant, kind, severity, detail, stage) =>
      Some((Alert(tenant, None, None, kind, severity, Open, TenantKey(tenant, kind), detail, None), stage))
    case OpenEventAlert(tenant, kind, severity, text, detail) =>
      Some((Alert(tenant, None, None, kind, severity, Open, EventKey(text), detail, None), true))
    case _ => None
  }

  /** An opening operation renews the active alert of its key, whichever it is, and adds
      a new one when there is none. */
  lemma {:induction false} OpensExactly(s: State, op: Op)
    requires Inv(s) && Asked(op).Some?
    ensures var a, after := Asked(op).value.0, Apply(s, op);
            && (forall i :: 0 <= i < |s.alerts| && Active(s.alerts[i]) && s.alerts[i].key == a.key ==>
                  && |after.alerts| == |s.alerts| && Renewed(s.alerts[i], after.alerts[i], a) && after.outbox == s.outbox
                  && forall j :: 0 <= j < |s.alerts| && j != i ==> after.alerts[j] == s.alerts[j])
            && ((forall i :: 0 <= i < |s.alerts| && Active(s.alerts[i]) ==> s.alerts[i].key != a.key) ==>
                  && after.alerts == s.alerts + [a]
                  && after.outbox == s.outbox +
                       (if Asked(op).value.1 && s.webhooks then [Staged(|s.alerts|, Opens, a.tenant, a.server, a.kind, a.detail)] else []))
  {
    var (a, stage) := Asked(op).value;
    assert Apply(s, op) == Opened(s, a, stage);
    if i :| 0 <= i < |s.alerts| && Active(s.alerts[i]) && s.alerts[i].key == a.key {
      OpenedAgain(s, a, stage, i);
      assert forall j :: 0 <= j < |s.alerts| && Active(s.alerts[j]) && s.alerts[j].key == a.key ==> j == i;
    } else {
      OpenedNew(s, a, stage);
    }
  }

  // ------------------------------------------------------------ closing

  /** What each resolving operation is about. */
  predicate Ends(op: Op, a: Alert) {
    match op
    case ResolveAlerts(server, kind, account) =>
      a.server == Some(server) && a.kind == kind && (account.None? || a.account == account)
    case ResolveAccountAlerts(tenant, who) => a.tenant == tenant && a.account == Some(who)
    case ResolveServerAccountAlerts(server, who) =>
      && a.server == Some(server) && a.account == Some(who)
      && a.kind in {"drift", "quarantine", "recall_failed", "command_send_failed",
                    "credential_unusable", "account_window_high", "pool_usage_stale"}
    case ResolveSystemAlert(tenant, kind) => a.key == TenantKey(tenant, kind)
    case _ => false
  }

  predicate Resolving(op: Op) {
    op.ResolveAlerts? || op.ResolveAccountAlerts? || op.ResolveServerAccountAlerts? || op.ResolveSystemAlert?
  }

  predicate Ending(alerts: seq<Alert>, ends: Alert -> bool, i: nat) {
    i < |alerts| && Active(alerts[i]) && ends(alerts[i])
  }

  predicate Reporting(row: Staged, alerts: seq<Alert>, ends: Alert -> bool) {
    && Ending(alerts, ends, row.alert)
    && var a := alerts[row.alert]; row == Staged(row.alert, Resolves, a.tenant, a.server, a.kind, a.detail)
  }

  ghost predicate Rising(rows: seq<Staged>) {
    forall k, l :: 0 <= k < l < |rows| ==> rows[k].alert < rows[l].alert
  }

  ghost predicate Covered(rows: seq<Staged>, i: nat) {
    exists k :: 0 <= k < |rows| && rows[k].alert == i
  }

  /** The rows report the resolution of exactly the alerts that `ends` selects among the
      active ones, oldest first, each with its own fields. */
  ghost predicate Announces(rows: seq<Staged>, alerts: seq<Alert>, ends: Alert -> bool) {
    && (forall row :: row in rows ==> Reporting(row, alerts, ends))
    && Rising(rows)
    && (forall i: nat :: Ending(alerts, ends, i) ==> Covered(rows, i))
  }

  lemma {:induction false} RowsReport(alerts: seq<Alert>, ends: Alert -> bool, row: Staged)
    requires row in ClosedRows(alerts, ends)
    ensures Reporting(row, alerts, ends)
  {
    var n := |alerts| - 1;
    if row in ClosedRows(alerts[..n], ends) {
      RowsReport(alerts[..n], ends, row);
    }
  }

  lemma {:induction false} RowsRise(alerts: seq<Alert>, ends: Alert -> bool)
    ensures Rising(ClosedRows(alerts, ends))
  {
    if alerts != [] {
      var n := |alerts| - 1;
      RowsRise(alerts[..n], ends);
      var front := ClosedRows(alerts[..n], ends);
      forall k | 0 <= k < |front| ensures front[k].alert < n {
        RowsReport(alerts[..n], ends, front[k]);
      }
    }
  }

  lemma {:induction false} RowsCover(alerts: seq<Alert>, ends: Alert -> bool, i: nat)
    requires Ending(alerts, ends, i)
    ensures Covered(ClosedRows(alerts, ends), i)
  {
    var n := |alerts| - 1;
    var front, rows := ClosedRows(alerts[..n], ends), ClosedRows(alerts, ends);
    if i < n {
      RowsCover(alerts[..n], ends, i);
      var k :| 0 <= k < |front| && front[k].alert == i;
      assert rows[k] == front[k];
    } else {
      assert rows[|front|].alert == n;
    }
  }

  lemma {:induction false} RowsAnnounce(alerts: seq<Alert>, ends: Alert -> bool)
    ensures Announces(ClosedRows(alerts, ends), alerts, ends)
  {
    RowsRise(alerts, ends);
    forall row | row in ClosedRows(alerts, ends) ensures Reporting(row, alerts, ends) {
      RowsReport(alerts, ends, row);
    }
    forall i: nat | Ending(alerts, ends, i) ensures Covered(ClosedRows(alerts, ends), i) {
      RowsCover(alerts, ends, i);
    }
  }

  /** Every active alert that `ends` selects is resolved and reported; nothing else
      changes. */
  ghost predicate ClosesExactly(s: State, after: State, ends: Alert -> bool) {
    && after.webhooks == s.webhooks && |after.alerts| == |s.alerts|
    && (forall i :: 0 <= i < |s.alerts| ==>
          after.alerts[i] == if Active(s.alerts[i]) && ends(s.alerts[i]) then s.alerts[i].(status := Resolved) else s.alerts[i])
    && |s.outbox| <= |after.outbox| && after.outbox[..|s.outbox|] == s.outbox
    && (if s.webhooks then Announces(after.outbox[|s.outbox|..], s.alerts, ends) else after.outbox == s.outbox)
  }

  lemma {:induction false} ClosedExactly(s: State, matches: Alert -> bool, ends: Alert -> bool)
    requires forall a :: matches(a) <==> ends(a)
    ensures ClosesExactly(s, Closed(s, matches), ends)
  {
    var rows := ClosedRows(s.alerts, matches);
    RowsAnnounce(s.alerts, matches);
    assert Announces(rows, s.alerts, ends);
    assert (s.outbox + rows)[..|s.outbox|] == s.outbox && (s.outbox + rows)[|s.outbox|..] == rows;
  }

  /** A resolving operation closes the active alerts it is about and no other. */
  lemma {:induction false} ResolvesExactly(s: State, op: Op)
    requires Resolving(op)
    ensures ClosesExactly(s, Apply(s, op), a => Ends(op, a))
  {
    match op
    case ResolveAlerts(server, kind, account) => ClosedExactly(s, a => OnServer(a, server, kind, account), a => Ends(op, a));
    case ResolveAccountAlerts(tenant, who) => ClosedExactly(s, a => OfAccount(a, tenant, who), a => Ends(op, a));
    case ResolveServerAccountAlerts(server, who) => ClosedExactly(s, a => OfPair(a, server, who), a => Ends(op, a));
    case ResolveSystemAlert(tenant, kind) => ClosedExactly(s, a => WithKey(a, TenantKey(tenant, kind)), a => Ends(op, a));
  }

  // ------------------------------------------------------------ reports

  /** The alert still stands for what it stood for. */
  predicate Stands(was: Alert, now: Alert) {
    && now.tenant == was.tenant && now.server == was.server && now.account == was.account
    && now.kind == was.kind && now.severity == was.severity && now.status == was.status && now.key == was.key
  }

  ghost predicate AllStand(s: State, after: State) {
    |s.alerts| <= |after.alerts| && forall i :: 0 <= i < |s.alerts| ==> Stands(s.alerts[i], after.alerts[i])
  }

  lemma {:induction false} OpeningStands(s: State, a: Alert, stage: bool)
    ensures AllStand(s, Opened(s, a, stage))
  {
    FirstWithIs(s.alerts, a.key, Acked);
    FirstWithIs(s.alerts, a.key, Open);
  }

  lemma {:induction false} DriftStands(s: State, tenant: nat, server: nat, entries: seq<DriftEntry>, snapshot: Option<nat>)
    ensures AllStand(s, WithDrift(s, tenant, server, entries, snapshot))
  {
    if entries != [] {
      var front, e := WithDrift(s, tenant, server, entries[..|entries| - 1], snapshot), entries[|entries| - 1];
      DriftStands(s, tenant, server, entries[..|entries| - 1], snapshot);
      if e.account.Some? {
        OpeningStands(front, DriftAlert(tenant, server, e.account.value, e.detail, snapshot), true);
      }
    }
  }

  /** What a report on a server closes: its exhaustion alert when the report says it is
      not exhausted, and its drift alerts about accounts the report does not list; an
      alert about no account goes only with a report that lists none. */
  predicate ReportEnds(a: Alert, server: nat, exhausted: bool, listed: set<nat>) {
    && a.server == Some(server)
    && (|| (a.kind == "all_exhausted" && !exhausted)
        || (a.kind == "drift" && if a.account.Some? then a.account.value !in listed else listed == {}))
  }

  lemma {:induction false} ReportClosesExactly(s: State, op: Op, i: nat)
    requires op.SyncFromReport? && i < |s.alerts|
    ensures var after, listed := Apply(s, op), (set e | e in op.entries && e.account.Some? :: e.account.value);
            && i < |after.alerts|
            && (Active(s.alerts[i]) ==> (!Active(after.alerts[i]) <==> ReportEnds(s.alerts[i], op.server, op.exhausted, listed)))
            && (!Active(s.alerts[i]) ==> !Active(after.alerts[i]))
  {
    var first := WithExhausted(s, op.tenant, op.server, op.exhausted, op.snapshot);
    var drifted := WithDrift(first, op.tenant, op.server, op.entries, op.snapshot);
    if op.exhausted {
      OpeningStands(s, ServerAlert(op.tenant, op.server, "all_exhausted", "critical", None, "usage_report", op.snapshot), true);
    }
    DriftStands(first, op.tenant, op.server, op.entries, op.snapshot);
    assert Stands(first.alerts[i], drifted.alerts[i]);
    assert Drifting(op.entries) == set e | e in op.entries && e.account.Some? :: e.account.value;
  }

  /** After a report the server has an active exhaustion alert without an account if the
      report says it is exhausted, and no active exhaustion alert at all if not. */
  ghost predicate ExhaustionShown(s: State, server: nat) {
    exists i :: 0 <= i < |s.alerts| && Active(s.alerts[i]) && s.alerts[i].key == ServerKey(server, "all_exhausted")
  }

  predicate ExhaustionOn(a: Alert, server: nat) {
    Active(a) && a.server == Some(server) && a.kind == "all_exhausted"
  }

  lemma {:induction false} ClosedHas(s: State, matches: Alert -> bool, i: nat)
    requires i < |s.alerts|
    ensures !matches(s.alerts[i]) ==> Closed(s, matches).alerts[i] == s.alerts[i]
  {
  }

  lemma {:induction false} ExhaustionAfterReport(s: State, op: Op)
    requires Inv(s) && op.SyncFromReport? && op.exhausted
    ensures ExhaustionShown(Apply(s, op), op.server)
  {
    var a := ServerAlert(op.tenant, op.server, "all_exhausted", "critical", None, "usage_report", op.snapshot);
    var first := Opened(s, a, true);
    OpenKeeps(s, a, true);
    OpenedActive(s, a, true);
    var i :| 0 <= i < |first.alerts| && Active(first.alerts[i]) && first.alerts[i].key == a.key;
    var drifted := WithDrift(first, op.tenant, op.server, op.entries, op.snapshot);
    DriftStands(first, op.tenant, op.server, op.entries, op.snapshot);
    assert Stands(first.alerts[i], drifted.alerts[i]);
    assert KeyFits(first.alerts[i]);
    ClosedHas(drifted, x => DriftExcept(x, op.server, Drifting(op.entries)), i);
    assert Apply(s, op).alerts[i] == drifted.alerts[i];
  }

  lemma {:induction false} DriftAddsNoExhaustion(s: State, tenant: nat, server: nat, entries: seq<DriftEntry>, snapshot: Option<nat>, i: nat)
    requires i < |WithDrift(s, tenant, server, entries, snapshot).alerts|
    requires i >= |s.alerts|
    ensures WithDrift(s, tenant, server, entries, snapshot).alerts[i].kind == "drift"
  {
    if entries != [] {
      var front, e := WithDrift(s, tenant, server, entries[..|entries| - 1], snapshot), entries[|entries| - 1];
      if i < |front.alerts| {
        DriftAddsNoExhaustion(s, tenant, server, entries[..|entries| - 1], snapshot, i);
      }
      if e.account.Some? {
        OpenedAt(front, DriftAlert(tenant, server, e.account.value, e.detail, snapshot), true, i);
      }
    }
  }

  lemma {:induction false} OpenedAt(s: State, a: Alert, stage: bool, i: nat)
    requires i < |Opened(s, a, stage).alerts|
    ensures Opened(s, a, stage).alerts[i].kind == if i < |s.alerts| then s.alerts[i].kind else a.kind
  {
    FirstWithIs(s.alerts, a.key, Acked);
    FirstWithIs(s.alerts, a.key, Open);
  }

  lemma {:induction false} ReliefAfterReport(s: State, op: Op, i: nat)
    requires op.SyncFromReport? && !op.exhausted && i < |Apply(s, op).alerts|
    ensures !ExhaustionOn(Apply(s, op).alerts[i], op.server)
  {
    var first := WithExhausted(s, op.tenant, op.server, op.exhausted, op.snapshot);
    if i < |s.alerts| {
      ReportClosesExactly(s, op, i);
      DriftStands(first, op.tenant, op.server, op.entries, op.snapshot);
    } else {
      DriftAddsNoExhaustion(first, op.tenant, op.server, op.entries, op.snapshot, i);
    }
  }

  /** Acknowledging turns the tenant's own open alert into an acknowledged one, and
      changes nothing else or at all. */
  lemma {:induction false} AcksExactly(s: State, tenant: nat, id: nat)
    ensures var after := Apply(s, Ack(tenant, id));
            if id < |s.alerts| && s.alerts[id].tenant == tenant && s.alerts[id].status == Open then
              && after.outbox == s.outbox && |after.alerts| == |s.alerts|
              && after.alerts[id].status == Acked && after.alerts[id].(status := Open) == s.alerts[id]
              && forall j :: 0 <= j < |s.alerts| && j != id ==> after.alerts[j] == s.alerts[j]
            else after == s
  {
  }

  // ------------------------------------------------------------ the watermark

  ghost predicate WatermarkShown(s: State, tenant: nat) {
    exists i :: 0 <= i < |s.alerts| && Active(s.alerts[i]) && s.alerts[i].key == TenantKey(tenant, "billing_watermark_future")
  }

  /** While the watermark is ahead of the clock every tenant has an active alert. */
  lemma {:induction false} WatermarkAhead(s: State, tenants: seq<nat>, detail: string, tenant: nat)
    requires Inv(s) && tenant in tenants
    ensures WatermarkShown(Apply(s, SyncWatermarkFuture(true, tenants, detail)), tenant)
  {
    var less, t := tenants[..|tenants| - 1], tenants[|tenants| - 1];
    var front := Watermarked(s, true, less, detail);
    var a := SystemAlert(t, WATERMARK_KIND, "warning", TenantKey(t, WATERMARK_KIND), detail);
    WatermarkKeeps(s, true, less, detail);
    OpenedActive(front, a, true);
    if t != tenant {
      assert tenants == less + [t];
      WatermarkAhead(s, less, detail, tenant);
      assert WatermarkShown(front, tenant);
      OpeningStands(front, a, true);
      var i :| 0 <= i < |front.alerts| && Active(front.alerts[i]) && front.alerts[i].key == TenantKey(tenant, "billing_watermark_future");
      assert Stands(front.alerts[i], Opened(front, a, true).alerts[i]);
    }
  }

  predicate AboutWatermark(a: Alert, tenants: seq<nat>) {
    a.key.TenantKey? && a.key.tenant in tenants && a.key.kind == "billing_watermark_future"
  }

  /** Once it is no longer ahead the alerts of the listed tenants about it are closed, and
      no other. */
  lemma {:induction false} WatermarkBack(s: State, tenants: seq<nat>, detail: string, i: nat)
    requires i < |s.alerts|
    ensures var after := Apply(s, SyncWatermarkFuture(false, tenants, detail));
            && |after.alerts| == |s.alerts|
            && after.alerts[i] == if Active(s.alerts[i]) && AboutWatermark(s.alerts[i], tenants) then s.alerts[i].(status := Resolved) else s.alerts[i]
  {
    if tenants != [] {
      var less, t := tenants[..|tenants| - 1], tenants[|tenants| - 1];
      assert tenants == less + [t];
      WatermarkBack(s, less, detail, i);
    }
  }
}
