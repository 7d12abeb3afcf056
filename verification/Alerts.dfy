/** The alert lifecycle: opening idempotent by dedupe key, acknowledging, the resolve
    variants, and the webhook rows that open and resolve transitions stage. One
    operation runs at a time. */
module Alerts {
  import opened Collections

  datatype Status = Open | Acked | Resolved

  /** Keys are derived from what an alert is about; server, tenant and account ids
      never collide across the forms. */
  datatype Key =
    | ServerKey(server: nat, kind: string)
    | AccountKey(server: nat, kind: string, account: nat)
    | TenantKey(tenant: nat, kind: string)
    | EventKey(text: string)

  datatype Alert = Alert(
    tenant: nat,
    server: Option<nat>,
    account: Option<nat>,
    kind: string,
    severity: string,
    status: Status,
    key: Key,
    detail: string,
    snapshot: Option<nat>)

  datatype Transition = Opens | Resolves

  datatype Staged = Staged(alert: nat, transition: Transition, tenant: nat, server: Option<nat>, kind: string, detail: string)

  /** An alert's id is its place; `webhooks` says whether staging is configured. */
  datatype State = State(alerts: seq<Alert>, outbox: seq<Staged>, webhooks: bool)

  const DROPPED_KIND := "alert_webhook_dropped"
  const WATERMARK_KIND := "billing_watermark_future"
  const ACCOUNT_SCOPED_KINDS := {
    "drift", "quarantine", "recall_failed", "command_send_failed",
    "credential_unusable", "account_window_high", "pool_usage_stale"
  }

  predicate Active(a: Alert) { a.status == Open || a.status == Acked }

  function DedupeKey(server: nat, kind: string, account: Option<nat>): Key {
    if account.Some? then AccountKey(server, kind, account.value) else ServerKey(server, kind)
  }

  // ------------------------------------------------------------ opening

  function FirstWith(alerts: seq<Alert>, key: Key, status: Status): Option<nat> {
    if alerts == [] then None
    else
      var n := |alerts| - 1;
      var before := FirstWith(alerts[..n], key, status);
      if before.None? && alerts[n].key == key && alerts[n].status == status then Some(n) else before
  }

  lemma {:induction false} FirstWithIs(alerts: seq<Alert>, key: Key, status: Status)
    ensures match FirstWith(alerts, key, status)
            case Some(i) => i < |alerts| && alerts[i].key == key && alerts[i].status == status
            case None => forall i :: 0 <= i < |alerts| ==> alerts[i].key != key || alerts[i].status != status
  {
    if alerts != [] {
      FirstWithIs(alerts[..|alerts| - 1], key, status);
    }
  }

  function StagedRow(id: nat, a: Alert, transition: Transition): Staged {
    Staged(id, transition, a.tenant, a.server, a.kind, a.detail)
  }

  /** A refresh takes over the new detail; only server alerts carry a snapshot, and an
      acknowledged one keeps its own unless a new one is given. */
  function Refreshed(was: Alert, a: Alert): Alert {
    was.(detail := a.detail,
         snapshot := if a.server.None? || (was.status == Acked && a.snapshot.None?) then was.snapshot else a.snapshot)
  }

  /** Opens or refreshes by key: an acknowledged alert stays acknowledged, an open one
      stays open, and only a new row stages a webhook. */
  function Opened(s: State, a: Alert, stage: bool): State {
    var acked := FirstWith(s.alerts, a.key, Acked);
    var open := FirstWith(s.alerts, a.key, Open);
    FirstWithIs(s.alerts, a.key, Acked);
    FirstWithIs(s.alerts, a.key, Open);
    if acked.Some? then s.(alerts := s.alerts[acked.value := Refreshed(s.alerts[acked.value], a)])
    else if open.Some? then s.(alerts := s.alerts[open.value := Refreshed(s.alerts[open.value], a)])
    else s.(alerts := s.alerts + [a.(status := Open)],
            outbox := s.outbox + if stage && s.webhooks then [StagedRow(|s.alerts|, a, Opens)] else [])
  }

  // ------------------------------------------------------------ resolving

  predicate Hits(a: Alert, matches: Alert -> bool) { Active(a) && matches(a) }

  function Resolve(a: Alert): Alert { a.(status := Resolved) }

  function ClosedAlerts(alerts: seq<Alert>, matches: Alert -> bool): (r: seq<Alert>)
    ensures |r| == |alerts|
    ensures forall i :: 0 <= i < |alerts| ==> r[i] == if Hits(alerts[i], matches) then Resolve(alerts[i]) else alerts[i]
  {
    Map(alerts, a => if Hits(a, matches) then Resolve(a) else a)
  }

  function ClosedRows(alerts: seq<Alert>, matches: Alert -> bool): seq<Staged> {
    if alerts == [] then []
    else
      var n := |alerts| - 1;
      ClosedRows(alerts[..n], matches) + if Hits(alerts[n], matches) then [StagedRow(n, alerts[n], Resolves)] else []
  }

  /** Resolves every active alert that matches, staging one webhook row for each. */
  function Closed(s: State, matches: Alert -> bool): State {
    s.(alerts := ClosedAlerts(s.alerts, matches),
       outbox := s.outbox + if s.webhooks then ClosedRows(s.alerts, matches) else [])
  }

  predicate OnServer(a: Alert, server: nat, kind: string, account: Option<nat>) {
    a.server == Some(server) && a.kind == kind && (account.Some? ==> a.account == account)
  }

  predicate OfAccount(a: Alert, tenant: nat, account: nat) {
    a.tenant == tenant && a.account == Some(account)
  }

  predicate OfPair(a: Alert, server: nat, account: nat) {
    a.server == Some(server) && a.account == Some(account) && a.kind in ACCOUNT_SCOPED_KINDS
  }

  /** A drift alert that names no account escapes a non-empty list of exceptions. */
  predicate DriftExcept(a: Alert, server: nat, keep: set<nat>) {
    a.server == Some(server) && a.kind == "drift" && (keep == {} || (a.account.Some? && a.account.value !in keep))
  }

  predicate WithKey(a: Alert, key: Key) { a.key == key }

  // ------------------------------------------------------------ the operations

  datatype DriftEntry = DriftEntry(account: Option<nat>, detail: string)

  datatype Op =
    | OpenAlert(tenant: nat, server: nat, kind: string, severity: string, account: Option<nat>, detail: string, snapshot: Option<nat>)
    | OpenSystemAlert(tenant: nat, kind: string, severity: string, detail: string, stage: bool)
    | OpenEventAlert(tenant: nat, kind: string, severity: string, text: string, detail: string)
    | ResolveAlerts(server: nat, kind: string, account: Option<nat>)
    | ResolveAccountAlerts(tenant: nat, who: nat)
    | ResolveServerAccountAlerts(server: nat, who: nat)
    | ResolveSystemAlert(tenant: nat, kind: string)
    | SyncFromReport(tenant: nat, server: nat, exhausted: bool, entries: seq<DriftEntry>, snapshot: Option<nat>)
    | SyncWatermarkFuture(future: bool, tenants: seq<nat>, detail: string)
    | Ack(tenant: nat, id: nat)

  function ServerAlert(tenant: nat, server: nat, kind: string, severity: string, account: Option<nat>, detail: string, snapshot: Option<nat>): Alert {
    Alert(tenant, Some(server), account, kind, severity, Open, DedupeKey(server, kind, account), detail, snapshot)
  }

  function SystemAlert(tenant: nat, kind: string, severity: string, key: Key, detail: string): Alert {
    Alert(tenant, None, None, kind, severity, Open, key, detail, None)
  }

  function DriftAlert(tenant: nat, server: nat, account: nat, detail: string, snapshot: Option<nat>): Alert {
    ServerAlert(tenant, server, "drift", "warning", Some(account), detail, snapshot)
  }

  function Drifting(entries: seq<DriftEntry>): set<nat> {
    set e | e in entries && e.account.Some? :: e.account.value
  }

  function WithDrift(s: State, tenant: nat, server: nat, entries: seq<DriftEntry>, snapshot: Option<nat>): State {
    if entries == [] then s
    else
      var front, e := WithDrift(s, tenant, server, entries[..|entries| - 1], snapshot), entries[|entries| - 1];
      if e.account.None? then front else Opened(front, DriftAlert(tenant, server, e.account.value, e.detail, snapshot), true)
  }

  function WithExhausted(s: State, tenant: nat, server: nat, exhausted: bool, snapshot: Option<nat>): State {
    if exhausted then Opened(s, ServerAlert(tenant, server, "all_exhausted", "critical", None, "usage_report", snapshot), true)
    else Closed(s, a => OnServer(a, server, "all_exhausted", None))
  }

  function Synced(s: State, tenant: nat, server: nat, exhausted: bool, entries: seq<DriftEntry>, snapshot: Option<nat>): State {
    Closed(WithDrift(WithExhausted(s, tenant, server, exhausted, snapshot), tenant, server, entries, snapshot),
           a => DriftExcept(a, server, Drifting(entries)))
  }

  function Watermarked(s: State, future: bool, tenants: seq<nat>, detail: string): State {
    if tenants == [] then s
    else
      var front, t := Watermarked(s, future, tenants[..|tenants| - 1], detail), tenants[|tenants| - 1];
      if future then Opened(front, SystemAlert(t, WATERMARK_KIND, "warning", TenantKey(t, WATERMARK_KIND), detail), true)
      else Closed(front, a => WithKey(a, TenantKey(t, WATERMARK_KIND)))
  }

  function AckedState(s: State, tenant: nat, id: nat): State {
    if id < |s.alerts| && s.alerts[id].tenant == tenant && s.alerts[id].status == Open
    then s.(alerts := s.alerts[id := s.alerts[id].(status := Acked)])
    else s
  }

  function Apply(s: State, op: Op): State {
    match op
    case OpenAlert(tenant, server, kind, severity, account, detail, snapshot) =>
      Opened(s, ServerAlert(tenant, server, kind, severity, account, detail, snapshot), true)
    case OpenSystemAlert(tenant, kind, severity, detail, stage) =>
      Opened(s, SystemAlert(tenant, kind, severity, TenantKey(tenant, kind), detail), stage)
    case OpenEventAlert(tenant, kind, severity, text, detail) =>
      Opened(s, SystemAlert(tenant, kind, severity, EventKey(text), detail), true)
    case ResolveAlerts(server, kind, account) => Closed(s, a => OnServer(a, server, kind, account))
    case ResolveAccountAlerts(tenant, account) => Closed(s, a => OfAccount(a, tenant, account))
    case ResolveServerAccountAlerts(server, account) => Closed(s, a => OfPair(a, server, account))
    case ResolveSystemAlert(tenant, kind) => Closed(s, a => WithKey(a, TenantKey(tenant, kind)))
    case SyncFromReport(tenant, server, exhausted, entries, snapshot) => Synced(s, tenant, server, exhausted, entries, snapshot)
    case SyncWatermarkFuture(future, tenants, detail) => Watermarked(s, future, tenants, detail)
    case Ack(tenant, id) => AckedState(s, tenant, id)
  }

  // ------------------------------------------------------------ the invariant

  ghost predicate OneActive(alerts: seq<Alert>) {
    forall i, j :: 0 <= i < j < |alerts| && Active(alerts[i]) && Active(alerts[j]) ==> alerts[i].key != alerts[j].key
  }

  /** A server alert's key is the one derived from its server, kind and account. */
  ghost predicate KeyFits(a: Alert) {
    match a.server
    case Some(server) => a.key == DedupeKey(server, a.kind, a.account)
    case None => a.key.TenantKey? || a.key.EventKey?
  }

  function Transitions(outbox: seq<Staged>, id: nat): seq<Transition> {
    if outbox == [] then []
    else
      var row := outbox[|outbox| - 1];
      Transitions(outbox[..|outbox| - 1], id) + if row.alert == id then [row.transition] else []
  }

  ghost predicate HistoryFits(s: State, id: nat)
    requires id < |s.alerts|
  {
    s.alerts[id].kind != DROPPED_KIND ==>
      Transitions(s.outbox, id) == if Active(s.alerts[id]) then [Opens] else [Opens, Resolves]
  }

  ghost predicate AllHistoryFits(s: State) {
    && (forall id :: 0 <= id < |s.alerts| ==> HistoryFits(s, id))
    && forall row :: row in s.outbox ==> row.alert < |s.alerts|
  }

  ghost predicate Inv(s: State) {
    && OneActive(s.alerts)
    && (forall a :: a in s.alerts ==> KeyFits(a))
    && (s.webhooks ==> AllHistoryFits(s))
  }

  // ------------------------------------------------------------ preservation

  lemma {:induction false} TransitionsSnoc(outbox: seq<Staged>, row: Staged, id: nat)
    ensures Transitions(outbox + [row], id) == Transitions(outbox, id) + if row.alert == id then [row.transition] else []
  {
    assert (outbox + [row])[..|outbox|] == outbox;
  }

  lemma {:induction false} NoTransitions(outbox: seq<Staged>, id: nat)
    requires forall row :: row in outbox ==> row.alert < id
    ensures Transitions(outbox, id) == []
  {
    if outbox != [] {
      assert outbox[|outbox| - 1] in outbox;
      NoTransitions(outbox[..|outbox| - 1], id);
    }
  }

  lemma {:induction false} ClosedTransitions(outbox: seq<Staged>, alerts: seq<Alert>, matches: Alert -> bool, id: nat)
    ensures Transitions(outbox + ClosedRows(alerts, matches), id) ==
            Transitions(outbox, id) + if id < |alerts| && Hits(alerts[id], matches) then [Resolves] else []
  {
    if alerts == [] {
      assert outbox + [] == outbox;
    } else {
      var n := |alerts| - 1;
      var less := ClosedRows(alerts[..n], matches);
      ClosedTransitions(outbox, alerts[..n], matches, id);
      RowsSnoc(alerts, matches);
      if Hits(alerts[n], matches) {
        TransitionsSnoc(outbox + less, StagedRow(n, alerts[n], Resolves), id);
        assert outbox + (less + [StagedRow(n, alerts[n], Resolves)]) == outbox + less + [StagedRow(n, alerts[n], Resolves)];
      }
    }
  }

  lemma {:induction false} RowsWithin(alerts: seq<Alert>, matches: Alert -> bool)
    ensures forall row :: row in ClosedRows(alerts, matches) ==> row.alert < |alerts|
  {
    if alerts != [] {
      RowsWithin(alerts[..|alerts| - 1], matches);
      RowsSnoc(alerts, matches);
    }
  }

  lemma {:induction false} RowsSnoc(alerts: seq<Alert>, matches: Alert -> bool)
    requires alerts != []
    ensures var n := |alerts| - 1;
            ClosedRows(alerts, matches) ==
            if Hits(alerts[n], matches) then ClosedRows(alerts[..n], matches) + [StagedRow(n, alerts[n], Resolves)]
            else ClosedRows(alerts[..n], matches)
  {
  }

  lemma {:induction false} RefreshKeeps(s: State, i: nat, a: Alert)
    requires Inv(s) && i < |s.alerts|
    ensures Inv(s.(alerts := s.alerts[i := Refreshed(s.alerts[i], a)]))
  {
    var after := s.(alerts := s.alerts[i := Refreshed(s.alerts[i], a)]);
    SameShapeKeeps(s, after);
  }

  /** Changing alerts in place without changing who is active, and staging nothing. */
  lemma {:induction false} SameShapeKeeps(s: State, after: State)
    requires Inv(s) && |after.alerts| == |s.alerts| && after.outbox == s.outbox && after.webhooks == s.webhooks
    requires forall i :: 0 <= i < |s.alerts| ==>
      && after.alerts[i].key == s.alerts[i].key && after.alerts[i].kind == s.alerts[i].kind
      && after.alerts[i].server == s.alerts[i].server && after.alerts[i].account == s.alerts[i].account
      && Active(after.alerts[i]) == Active(s.alerts[i])
    ensures Inv(after)
  {
    forall a | a in after.alerts ensures KeyFits(a) {
      var i :| 0 <= i < |after.alerts| && after.alerts[i] == a;
      assert KeyFits(s.alerts[i]);
    }
    if s.webhooks {
      forall id | 0 <= id < |after.alerts| ensures HistoryFits(after, id) {
        assert HistoryFits(s, id);
      }
    }
  }

  lemma {:induction false} InsertHistory(s: State, a: Alert, stage: bool)
    requires AllHistoryFits(s) && s.webhooks && (!stage ==> a.kind == DROPPED_KIND) && a.status == Open
    requires FirstWith(s.alerts, a.key, Acked).None? && FirstWith(s.alerts, a.key, Open).None?
    ensures AllHistoryFits(Opened(s, a, stage))
  {
    var n := |s.alerts|;
    var rows := if stage then [StagedRow(n, a, Opens)] else [];
    NoTransitions(s.outbox, n);
    forall id ensures Transitions(s.outbox + rows, id) == Transitions(s.outbox, id) + if stage && id == n then [Opens] else [] {
      if stage {
        TransitionsSnoc(s.outbox, StagedRow(n, a, Opens), id);
      } else {
        assert s.outbox + rows == s.outbox;
      }
    }
    HistoryExtends(s, State(s.alerts + [a], s.outbox + rows, true), a, stage);
  }

  lemma {:induction false} HistoryExtends(s: State, after: State, a: Alert, stage: bool)
    requires AllHistoryFits(s) && after.alerts == s.alerts + [a] && (!stage ==> a.kind == DROPPED_KIND) && a.status == Open
    requires forall id :: Transitions(after.outbox, id) == Transitions(s.outbox, id) + if stage && id == |s.alerts| then [Opens] else []
    requires Transitions(s.outbox, |s.alerts|) == []
    requires forall row :: row in after.outbox ==> row in s.outbox || row.alert == |s.alerts|
    ensures AllHistoryFits(after)
  {
    forall id | 0 <= id < |after.alerts| ensures HistoryFits(after, id) {
      if id < |s.alerts| { assert HistoryFits(s, id); }
    }
  }

  lemma {:induction false} OpenKeeps(s: State, a: Alert, stage: bool)
    requires Inv(s) && a.status == Open && KeyFits(a) && (!stage ==> a.kind == DROPPED_KIND)
    ensures Inv(Opened(s, a, stage))
  {
    FirstWithIs(s.alerts, a.key, Acked);
    FirstWithIs(s.alerts, a.key, Open);
    var acked, open := FirstWith(s.alerts, a.key, Acked), FirstWith(s.alerts, a.key, Open);
    if acked.Some? {
      RefreshKeeps(s, acked.value, a);
    } else if open.Some? {
      RefreshKeeps(s, open.value, a);
    } else {
      NewIsOnlyActive(s.alerts, a);
      if s.webhooks { InsertHistory(s, a, stage); }
    }
  }

  lemma {:induction false} NewIsOnlyActive(alerts: seq<Alert>, a: Alert)
    requires OneActive(alerts)
    requires forall i :: 0 <= i < |alerts| ==> alerts[i].key != a.key || alerts[i].status != Acked
    requires forall i :: 0 <= i < |alerts| ==> alerts[i].key != a.key || alerts[i].status != Open
    ensures OneActive(alerts + [a])
  {
  }

  lemma {:induction false} CloseHistory(s: State, matches: Alert -> bool)
    requires AllHistoryFits(s) && s.webhooks
    ensures AllHistoryFits(Closed(s, matches))
  {
    var after := Closed(s, matches);
    forall id | 0 <= id < |after.alerts| ensures HistoryFits(after, id) {
      assert HistoryFits(s, id);
      ClosedTransitions(s.outbox, s.alerts, matches, id);
    }
    RowsWithin(s.alerts, matches);
  }

  lemma {:induction false} CloseKeeps(s: State, matches: Alert -> bool)
    requires Inv(s)
    ensures Inv(Closed(s, matches))
  {
    var after := Closed(s, matches);
    assert forall i :: 0 <= i < |s.alerts| && Active(after.alerts[i]) ==> after.alerts[i] == s.alerts[i];
    forall a | a in after.alerts ensures KeyFits(a) {
      var i :| 0 <= i < |after.alerts| && after.alerts[i] == a;
      assert KeyFits(s.alerts[i]);
    }
    if s.webhooks { CloseHistory(s, matches); }
  }

  lemma {:induction false} DriftKeeps(s: State, tenant: nat, server: nat, entries: seq<DriftEntry>, snapshot: Option<nat>)
    requires Inv(s)
    ensures Inv(WithDrift(s, tenant, server, entries, snapshot))
  {
    if entries != [] {
      var n := |entries| - 1;
      DriftKeeps(s, tenant, server, entries[..n], snapshot);
      if entries[n].account.Some? {
        OpenKeeps(WithDrift(s, tenant, server, entries[..n], snapshot),
                  DriftAlert(tenant, server, entries[n].account.value, entries[n].detail, snapshot), true);
      }
    }
  }

  lemma {:induction false} WatermarkKeeps(s: State, future: bool, tenants: seq<nat>, detail: string)
    requires Inv(s)
    ensures Inv(Watermarked(s, future, tenants, detail))
  {
    if tenants != [] {
      var n := |tenants| - 1;
      WatermarkKeeps(s, future, tenants[..n], detail);
      var front, t := Watermarked(s, future, tenants[..n], detail), tenants[n];
      if future {
        OpenKeeps(front, SystemAlert(t, WATERMARK_KIND, "warning", TenantKey(t, WATERMARK_KIND), detail), true);
      } else {
        CloseKeeps(front, a => WithKey(a, TenantKey(t, WATERMARK_KIND)));
      }
    }
  }

  lemma {:induction false} ExhaustedKeeps(s: State, tenant: nat, server: nat, exhausted: bool, snapshot: Option<nat>)
    requires Inv(s)
    ensures Inv(WithExhausted(s, tenant, server, exhausted, snapshot))
  {
    if exhausted {
      OpenKeeps(s, ServerAlert(tenant, server, "all_exhausted", "critical", None, "usage_report", snapshot), true);
    } else {
      CloseKeeps(s, a => OnServer(a, server, "all_exhausted", None));
    }
  }

  lemma {:induction false} SyncKeeps(s: State, tenant: nat, server: nat, exhausted: bool, entries: seq<DriftEntry>, snapshot: Option<nat>)
    requires Inv(s)
    ensures Inv(Synced(s, tenant, server, exhausted, entries, snapshot))
  {
    ExhaustedKeeps(s, tenant, server, exhausted, snapshot);
    var first := WithExhausted(s, tenant, server, exhausted, snapshot);
    DriftKeeps(first, tenant, server, entries, snapshot);
    CloseKeeps(WithDrift(first, tenant, server, entries, snapshot), a => DriftExcept(a, server, Drifting(entries)));
  }

  lemma {:induction false} AckKeeps(s: State, tenant: nat, id: nat)
    requires Inv(s)
    ensures Inv(AckedState(s, tenant, id))
  {
    SameShapeKeeps(s, AckedState(s, tenant, id));
  }

  /** Only the alert about dropped webhooks is opened without staging. */
  predicate Admissible(op: Op) {
    op.OpenSystemAlert? && !op.stage ==> op.kind == DROPPED_KIND
  }

  lemma {:induction false} OpKeeps(s: State, op: Op)
    requires Inv(s) && Admissible(op)
    ensures Inv(Apply(s, op))
  {
    match op
    case OpenAlert(tenant, server, kind, severity, account, detail, snapshot) =>
      OpenKeeps(s, ServerAlert(tenant, server, kind, severity, account, detail, snapshot), true);
    case OpenSystemAlert(tenant, kind, severity, detail, stage) =>
      OpenKeeps(s, SystemAlert(tenant, kind, severity, TenantKey(tenant, kind), detail), stage);
    case OpenEventAlert(tenant, kind, severity, text, detail) =>
      OpenKeeps(s, SystemAlert(tenant, kind, severity, EventKey(text), detail), true);
    case ResolveAlerts(server, kind, account) => CloseKeeps(s, a => OnServer(a, server, kind, account));
    case ResolveAccountAlerts(tenant, account) => CloseKeeps(s, a => OfAccount(a, tenant, account));
    case ResolveServerAccountAlerts(server, account) => CloseKeeps(s, a => OfPair(a, server, account));
    case ResolveSystemAlert(tenant, kind) => CloseKeeps(s, a => WithKey(a, TenantKey(tenant, kind)));
    case SyncFromReport(tenant, server, exhausted, entries, snapshot) => SyncKeeps(s, tenant, server, exhausted, entries, snapshot);
    case SyncWatermarkFuture(future, tenants, detail) => WatermarkKeeps(s, future, tenants, detail);
    case Ack(tenant, id) => AckKeeps(s, tenant, id);
  }

  // ------------------------------------------------------------ whole runs

  function After(ops: seq<Op>, webhooks: bool): State {
    if ops == [] then State([], [], webhooks) else Apply(After(ops[..|ops| - 1], webhooks), ops[|ops| - 1])
  }

  lemma {:induction false} WebhooksStay(s: State, op: Op)
    ensures Apply(s, op).webhooks == s.webhooks
  {
    match op
    case SyncFromReport(tenant, server, exhausted, entries, snapshot) =>
      DriftWebhooks(WithExhausted(s, tenant, server, exhausted, snapshot), tenant, server, entries, snapshot);
    case SyncWatermarkFuture(future, tenants, detail) => WatermarkWebhooks(s, future, tenants, detail);
    case _ =>
  }

  lemma {:induction false} DriftWebhooks(s: State, tenant: nat, server: nat, entries: seq<DriftEntry>, snapshot: Option<nat>)
    ensures WithDrift(s, tenant, server, entries, snapshot).webhooks == s.webhooks
  {
    if entries != [] {
      DriftWebhooks(s, tenant, server, entries[..|entries| - 1], snapshot);
    }
  }

  lemma {:induction false} WatermarkWebhooks(s: State, future: bool, tenants: seq<nat>, detail: string)
    ensures Watermarked(s, future, tenants, detail).webhooks == s.webhooks
  {
    if tenants != [] {
      WatermarkWebhooks(s, future, tenants[..|tenants| - 1], detail);
    }
  }

  lemma {:induction false} RunKeeps(ops: seq<Op>, webhooks: bool)
    requires forall op :: op in ops ==> Admissible(op)
    ensures Inv(After(ops, webhooks)) && After(ops, webhooks).webhooks == webhooks
  {
    if ops != [] {
      var n := |ops| - 1;
      RunKeeps(ops[..n], webhooks);
      assert ops[n] in ops;
      OpKeeps(After(ops[..n], webhooks), ops[n]);
      WebhooksStay(After(ops[..n], webhooks), ops[n]);
    }
  }

  /** Transition history. Over every serial run with webhooks on, each key has at most
      one active alert, and each alert other than the one about dropped webhooks has
      staged exactly its opening while it is active, and its opening and then its
      resolution once it is resolved. */
  lemma {:induction false} TransitionHistory(ops: seq<Op>)
    requires forall op :: op in ops ==> Admissible(op)
    ensures var s := After(ops, true);
            && (forall i, j :: 0 <= i < j < |s.alerts| && Active(s.alerts[i]) && Active(s.alerts[j]) ==> s.alerts[i].key != s.alerts[j].key)
            && forall i :: 0 <= i < |s.alerts| && s.alerts[i].kind != DROPPED_KIND ==>
                 Transitions(s.outbox, i) == if Active(s.alerts[i]) then [Opens] else [Opens, Resolves]
  {
    RunKeeps(ops, true);
    var s := After(ops, true);
    forall i | 0 <= i < |s.alerts| && s.alerts[i].kind != DROPPED_KIND
      ensures Transitions(s.outbox, i) == if Active(s.alerts[i]) then [Opens] else [Opens, Resolves]
    {
      assert HistoryFits(s, i);
    }
  }

  // ------------------------------------------------------------ reports

  predicate DriftOn(a: Alert, server: nat, account: nat) {
    Active(a) && a.server == Some(server) && a.kind == "drift" && a.account == Some(account)
  }

  ghost predicate HasDrift(s: State, server: nat, account: nat) {
    exists i :: 0 <= i < |s.alerts| && DriftOn(s.alerts[i], server, account)
  }

  /** Opening never deactivates an alert, and leaves one active under its key. */
  lemma {:induction false} OpenedActive(s: State, a: Alert, stage: bool)
    requires Inv(s) && a.status == Open && KeyFits(a)
    ensures |Opened(s, a, stage).alerts| >= |s.alerts|
    ensures forall i, server, account :: 0 <= i < |s.alerts| && DriftOn(s.alerts[i], server, account) ==>
              DriftOn(Opened(s, a, stage).alerts[i], server, account)
    ensures exists i :: 0 <= i < |Opened(s, a, stage).alerts| && Active(Opened(s, a, stage).alerts[i])
                        && Opened(s, a, stage).alerts[i].key == a.key
  {
    FirstWithIs(s.alerts, a.key, Acked);
    FirstWithIs(s.alerts, a.key, Open);
    var acked, open := FirstWith(s.alerts, a.key, Acked), FirstWith(s.alerts, a.key, Open);
    var after := Opened(s, a, stage);
    var i := if acked.Some? then acked.value else if open.Some? then open.value else |s.alerts|;
    assert Active(after.alerts[i]) && after.alerts[i].key == a.key;
  }

  lemma {:induction false} DriftOpened(s: State, tenant: nat, server: nat, account: nat, detail: string, snapshot: Option<nat>)
    requires Inv(s)
    ensures HasDrift(Opened(s, DriftAlert(tenant, server, account, detail, snapshot), true), server, account)
    ensures forall x :: HasDrift(s, server, x) ==>
              HasDrift(Opened(s, DriftAlert(tenant, server, account, detail, snapshot), true), server, x)
  {
    var a := DriftAlert(tenant, server, account, detail, snapshot);
    OpenKeeps(s, a, true);
    OpenedActive(s, a, true);
    var after := Opened(s, a, true);
    var i :| 0 <= i < |after.alerts| && Active(after.alerts[i]) && after.alerts[i].key == a.key;
    assert KeyFits(after.alerts[i]);
    assert DriftOn(after.alerts[i], server, account);
    forall x | HasDrift(s, server, x) ensures HasDrift(after, server, x) {
      var j :| 0 <= j < |s.alerts| && DriftOn(s.alerts[j], server, x);
      assert DriftOn(after.alerts[j], server, x);
    }
  }

  lemma {:induction false} AllDriftOpened(s: State, tenant: nat, server: nat, entries: seq<DriftEntry>, snapshot: Option<nat>)
    requires Inv(s)
    ensures forall x :: x in Drifting(entries) ==> HasDrift(WithDrift(s, tenant, server, entries, snapshot), server, x)
  {
    if entries != [] {
      var n := |entries| - 1;
      var front := WithDrift(s, tenant, server, entries[..n], snapshot);
      AllDriftOpened(s, tenant, server, entries[..n], snapshot);
      DriftKeeps(s, tenant, server, entries[..n], snapshot);
      assert entries == entries[..n] + [entries[n]];
      if entries[n].account.Some? {
        DriftOpened(front, tenant, server, entries[n].account.value, entries[n].detail, snapshot);
      }
      forall x | x in Drifting(entries) ensures x in Drifting(entries[..n]) || entries[n].account == Some(x) {
      }
    }
  }

  /** After a report the accounts with an active drift alert on its server are exactly
      the drifting ones it reported. */
  lemma {:induction false} DriftAfterReport(ops: seq<Op>, webhooks: bool, op: Op, account: nat)
    requires (forall o :: o in ops ==> Admissible(o)) && op.SyncFromReport?
    ensures HasDrift(Apply(After(ops, webhooks), op), op.server, account) <==> account in Drifting(op.entries)
  {
    RunKeeps(ops, webhooks);
    var s := After(ops, webhooks);
    var first := WithExhausted(s, op.tenant, op.server, op.exhausted, op.snapshot);
    ExhaustedKeeps(s, op.tenant, op.server, op.exhausted, op.snapshot);
    AllDriftOpened(first, op.tenant, op.server, op.entries, op.snapshot);
    DriftLeft(WithDrift(first, op.tenant, op.server, op.entries, op.snapshot), op.server, Drifting(op.entries), account);
  }

  lemma {:induction false} DriftLeft(s: State, server: nat, keep: set<nat>, account: nat)
    ensures HasDrift(Closed(s, a => DriftExcept(a, server, keep)), server, account) <==> HasDrift(s, server, account) && account in keep
  {
    var after := Closed(s, a => DriftExcept(a, server, keep));
    if HasDrift(after, server, account) {
      var i :| 0 <= i < |after.alerts| && DriftOn(after.alerts[i], server, account);
      assert after.alerts[i] == s.alerts[i];
    }
    if HasDrift(s, server, account) && account in keep {
      var i :| 0 <= i < |s.alerts| && DriftOn(s.alerts[i], server, account);
      assert after.alerts[i] == s.alerts[i];
    }
  }

  // ------------------------------------------------------------ the object

  class AlertStore {
    var alerts: seq<Alert>
    var outbox: seq<Staged>
    const webhooks: bool

    function Value(): State
      reads this
    {
      State(alerts, outbox, webhooks)
    }

    constructor (webhooks: bool)
      ensures Value() == State([], [], webhooks)
    {
      alerts, outbox := [], [];
      this.webhooks := webhooks;
    }

    method Find(key: Key, status: Status) returns (found: Option<nat>)
      ensures found == FirstWith(alerts, key, status)
    {
      found := None;
      for i := 0 to |alerts|
        invariant found == FirstWith(alerts[..i], key, status)
      {
        assert alerts[..i + 1][..i] == alerts[..i];
        if found.None? && alerts[i].key == key && alerts[i].status == status {
          found := Some(i);
        }
      }
      assert alerts[..|alerts|] == alerts;
    }

    method StageWebhook(id: nat, a: Alert, transition: Transition)
      modifies this`outbox
      ensures outbox == old(outbox) + if webhooks then [StagedRow(id, a, transition)] else []
    {
      if !webhooks {
        return;
      }
      outbox := outbox + [StagedRow(id, a, transition)];
    }

    method Open(a: Alert, stage: bool)
      requires a.status == Status.Open
      modifies this
      ensures Value() == Opened(old(Value()), a, stage)
    {
      FirstWithIs(alerts, a.key, Acked);
      FirstWithIs(alerts, a.key, Status.Open);
      var acked := Find(a.key, Acked);
      if acked.Some? {
        alerts := alerts[acked.value := Refreshed(alerts[acked.value], a)];
        return;
      }
      var open := Find(a.key, Status.Open);
      if open.Some? {
        alerts := alerts[open.value := Refreshed(alerts[open.value], a)];
        return;
      }
      if stage {
        StageWebhook(|alerts|, a, Opens);
      }
      alerts := alerts + [a];
    }

    method Close(matches: Alert -> bool)
      modifies this
      ensures Value() == Closed(old(Value()), matches)
    {
      ghost var before := alerts;
      assert outbox + [] == outbox;
      for i := 0 to |alerts|
        invariant |alerts| == |before|
        invariant forall k :: 0 <= k < i ==> alerts[k] == if Hits(before[k], matches) then Resolve(before[k]) else before[k]
        invariant forall k :: i <= k < |before| ==> alerts[k] == before[k]
        invariant outbox == old(outbox) + if webhooks then ClosedRows(before[..i], matches) else []
      {
        CloseOne(i, before, matches);
        if Active(alerts[i]) && matches(alerts[i]) {
          StageWebhook(i, alerts[i], Resolves);
          alerts := alerts[i := alerts[i].(status := Resolved)];
        }
      }
      assert before[..|before|] == before;
      assert alerts == ClosedAlerts(before, matches);
    }

    method SyncFromReport(tenant: nat, server: nat, exhausted: bool, entries: seq<DriftEntry>, snapshot: Option<nat>)
      modifies this
      ensures Value() == Synced(old(Value()), tenant, server, exhausted, entries, snapshot)
    {
      if exhausted {
        Open(ServerAlert(tenant, server, "all_exhausted", "critical", None, "usage_report", snapshot), true);
      } else {
        Close(a => OnServer(a, server, "all_exhausted", None));
      }
      ghost var first := Value();
      var drifting := {};
      for i := 0 to |entries|
        invariant Value() == WithDrift(first, tenant, server, entries[..i], snapshot)
        invariant drifting == Drifting(entries[..i])
      {
        assert entries[..i + 1] == entries[..i] + [entries[i]] && entries[..i + 1][..i] == entries[..i];
        var account := entries[i].account;
        if account.None? {
          continue;
        }
        drifting := drifting + {account.value};
        Open(DriftAlert(tenant, server, account.value, entries[i].detail, snapshot), true);
      }
      assert entries[..|entries|] == entries;
      Close(a => DriftExcept(a, server, drifting));
    }

    method SyncWatermarkFuture(watermark: Option<int>, now: int, skew: int, tenants: seq<nat>, detail: string) returns (future: bool)
      modifies this
      ensures future <==> watermark.Some? && watermark.value > now + skew
      ensures Value() == Watermarked(old(Value()), future, tenants, detail)
    {
      future := watermark.Some? && watermark.value > now + skew;
      for i := 0 to |tenants|
        invariant Value() == Watermarked(old(Value()), future, tenants[..i], detail)
      {
        assert tenants[..i + 1][..i] == tenants[..i];
        var t := tenants[i];
        if future {
          Open(SystemAlert(t, WATERMARK_KIND, "warning", TenantKey(t, WATERMARK_KIND), detail), true);
        } else {
          Close(a => WithKey(a, TenantKey(t, WATERMARK_KIND)));
        }
      }
      assert tenants[..|tenants|] == tenants;
    }

    /** Acknowledging: another tenant's alert is not found, a resolved one is refused. */
    method AckAlert(tenant: nat, id: nat) returns (found: bool, refused: bool)
      modifies this`alerts
      ensures Value() == AckedState(old(Value()), tenant, id)
      ensures found <==> id < |old(alerts)| && old(alerts)[id].tenant == tenant
      ensures refused <==> found && old(alerts)[id].status == Resolved
    {
      if id >= |alerts| || alerts[id].tenant != tenant {
        return false, false;
      }
      if alerts[id].status == Resolved {
        return true, true;
      }
      if alerts[id].status == Status.Open {
        alerts := alerts[id := alerts[id].(status := Acked)];
      }
      return true, false;
    }
  }

  lemma {:induction false} CloseOne(i: nat, alerts: seq<Alert>, matches: Alert -> bool)
    requires i < |alerts|
    ensures ClosedRows(alerts[..i + 1], matches) ==
            ClosedRows(alerts[..i], matches) + if Hits(alerts[i], matches) then [StagedRow(i, alerts[i], Resolves)] else []
  {
    assert alerts[..i + 1][..i] == alerts[..i];
  }
}
