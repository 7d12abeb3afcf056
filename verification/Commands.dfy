/** The agent's command state machine: the gate every command passes, the handlers
    that act on the account pool, the manifest and the applied log, and the central
    policy. Every call into the pool may fail and leave it in any valid shape. */
module Commands {
  import opened Collections
  import opened AppliedLog
  import opened Pools

  datatype Status = Unspecified | Active | Inactive | Absent

  datatype Ref = Ref(id: string, email: string, provider: string)

  /** The bound identities an encrypted credential claims; empty when it claims none. */
  datatype Envelope = Envelope(account: string, agent: string)

  /** Negative cooldown and hysteresis, a threshold that is not positive and an empty
      strategy mean "keep what is set". */
  datatype Body =
    | Deliver(ref: Option<Ref>, desired: Status, envelope: Option<Envelope>)
    | Recall(ref: Option<Ref>, purge: bool)
    | SetActive(ref: Option<Ref>, on: bool)
    | SetPolicy(threshold: real, cooldown: real, hysteresis: real, strategy: string)

  datatype Command = Command(id: string, agent: string, issued: Option<int>, signed: bool, body: Body)

  datatype Ack = Ack(convergence: Convergence, code: string)

  datatype Record = Record(email: string, provider: string, status: Status)

  datatype Setting = Threshold | Cooldown | Hysteresis | Strategy

  /** `setAt` is when the policy that set each setting was issued; it only serves to
      state what a replay may do. */
  datatype Policy = Policy(threshold: Option<real>, cooldown: Option<real>, hysteresis: Option<real>, strategy: string,
                           setAt: map<Setting, int>, last: Option<int>)

  const NO_POLICY := Policy(None, None, None, "", map[], None)

  datatype Agent = Agent(pools: map<string, Pool>, manifest: map<string, Record>, log: Log, policy: Policy)

  /** How a mutating call into the pool ends. */
  datatype Effect = Works | Fails(left: Pool)

  datatype Env = Env(
    listOk: bool,
    secondListOk: bool,
    statusOk: bool,
    hasKeys: bool,
    keyHeld: bool,
    opens: bool,
    seals: bool,
    persistOk: bool,
    add: Effect,
    switch: Effect,
    remove: Effect,
    toggle: Effect,
    thresholdOk: bool,
    cooldownOk: bool,
    hysteresisOk: bool,
    logOk: bool)

  ghost predicate LeavesValid(e: Effect) { e.Fails? ==> Valid(e.left) }

  ghost predicate EnvFits(env: Env) {
    LeavesValid(env.add) && LeavesValid(env.switch) && LeavesValid(env.remove) && LeavesValid(env.toggle)
  }

  function Normalize(provider: string): string {
    if provider == "" then "claude" else provider
  }

  function StatusName(s: Status): string {
    match s
    case Unspecified => "UNSPECIFIED"
    case Active => "ACTIVE"
    case Inactive => "INACTIVE"
    case Absent => "ABSENT"
  }

  // ------------------------------------------------------------ shared pieces

  function Refused(a: Agent, code: string): (Agent, Ack) { (a, Ack(Rejected, code)) }

  function Noted(a: Agent, e: Entry, io: bool): Agent { a.(log := Appended(a.log, e, io)) }

  function Ended(a: Agent, id: string, kind: string, target: string, desired: string, ack: Ack, io: bool): (Agent, Ack) {
    (Noted(a, Entry(id, kind, target, desired, ack.convergence), io), ack)
  }

  function WithPool(a: Agent, provider: string, p: Pool): Agent { a.(pools := a.pools[provider := p]) }

  /** Switching to an account the pool does not have is an error too. */
  function Switching(p: Pool, target: string, e: Effect): (Pool, bool) {
    if e.Fails? then (e.left, false)
    else if !Has(p, target) then (p, false)
    else (p.(active := target), true)
  }

  // ------------------------------------------------------------ deliver

  predicate SeenAsDesired(a: Agent, id: string, ref: Ref, desired: Status, env: Env)
    requires Normalize(ref.provider) in a.pools
  {
    && Lookup(a.log.entries, id).Some?
    && ref.id in a.manifest && a.manifest[ref.id].status == desired
    && env.listOk && Flagged(a.pools[Normalize(ref.provider)], ref.email, desired == Active)
  }

  /** Once added, back to the account that was live before; not knowing which that was
      is reported. */
  function AfterAdd(a: Agent, id: string, ref: Ref, desired: Status, live: string, env: Env): (Agent, Ack)
    requires Normalize(ref.provider) in a.pools
  {
    var provider := Normalize(ref.provider);
    var (final, ok) := if live != "" && live != ref.email then Switching(a.pools[provider], live, env.switch) else (a.pools[provider], true);
    if !env.statusOk then Ended(a, id, "deliver", ref.id, StatusName(desired), Ack(Diverged, "active_unknown"), env.logOk)
    else if !ok then
      Ended(WithPool(a, provider, final), id, "deliver", ref.id, StatusName(desired), Ack(Diverged, "tsamx_restore_active"), env.logOk)
    else Ended(WithPool(a, provider, final), id, "deliver", ref.id, StatusName(desired), Ack(Converged, ""), env.logOk)
  }

  /** The critical section: add, which makes the new slot live, then back to the account
      that was live before. */
  function Install(a: Agent, id: string, ref: Ref, desired: Status, env: Env): (Agent, Ack)
    requires Normalize(ref.provider) in a.pools
  {
    var provider := Normalize(ref.provider);
    var live := if env.statusOk then a.pools[provider].active else "";
    if env.add.Fails? then
      Ended(WithPool(a, provider, env.add.left), id, "deliver", ref.id, StatusName(desired), Ack(Diverged, "tsamx_add"), env.logOk)
    else AfterAdd(WithPool(a, provider, Added(a.pools[provider], ref.email, desired == Active)), id, ref, desired, live, env)
  }

  function Delivered(a: Agent, me: string, id: string, d: Body, env: Env): (Agent, Ack)
    requires d.Deliver?
  {
    if d.ref.None? || d.ref.value.id == "" || d.ref.value.email == "" then Refused(a, "bad_account")
    else
      var ref := d.ref.value;
      if Normalize(ref.provider) !in a.pools then
        Ended(a, id, "deliver", ref.id, "", Ack(Diverged, "provider_unsupported"), env.logOk)
      else if d.envelope.None? then Refused(a, "bad_envelope")
      else if d.envelope.value.account != "" && d.envelope.value.account != ref.id then Refused(a, "aad_mismatch")
      else if d.envelope.value.agent != "" && d.envelope.value.agent != me then Refused(a, "aad_mismatch")
      else if SeenAsDesired(a, id, ref, d.desired, env) then (a, Ack(Converged, ""))
      else if !env.hasKeys || !env.keyHeld then Refused(a, "no_kek")
      else if !env.opens then Refused(a, "decrypt_failed")
      else if !env.seals then (a, Ack(Diverged, "manifest_upsert"))
      else
        var a1 := a.(manifest := a.manifest[ref.id := Record(ref.email, ref.provider, d.desired)]);
        if !env.persistOk then (a1, Ack(Diverged, "manifest_upsert")) else Install(a1, id, ref, d.desired, env)
  }

  // ------------------------------------------------------------ recall

  /** Moves the runner off the account first, if it is live on it and there is another. */
  function MovedAway(p: Pool, email: string, env: Env): (Pool, bool) {
    var target := if env.listOk then OtherTarget(p, email) else "";
    if env.statusOk && p.active == email && target != "" then Switching(p, target, env.switch) else (p, true)
  }

  function TakenOut(p: Pool, email: string, env: Env): (Pool, bool) {
    if env.secondListOk && !Has(p, email) then (p, true)
    else if env.remove.Fails? then (env.remove.left, false)
    else (Removed(p, email), true)
  }

  function Purged(a: Agent, id: string, ref: Ref, env: Env): (Agent, Ack)
    requires Normalize(ref.provider) in a.pools
  {
    var provider := Normalize(ref.provider);
    var (moved, movedOk) := MovedAway(a.pools[provider], ref.email, env);
    if !movedOk then
      Ended(WithPool(a, provider, moved), id, "recall", ref.id, "purge", Ack(Diverged, "tsamx_switch_before_purge"), env.logOk)
    else
      var (out, outOk) := TakenOut(moved, ref.email, env);
      var a1 := WithPool(a, provider, out);
      if !outOk then Ended(a1, id, "recall", ref.id, "purge", Ack(Diverged, "tsamx_remove"), env.logOk)
      else
        var a2 := a1.(manifest := a1.manifest - {ref.id});
        if ref.id in a.manifest && !env.persistOk then
          Ended(a2, id, "recall", ref.id, "purge", Ack(Diverged, "manifest_remove"), env.logOk)
        else Ended(a2, id, "recall", ref.id, "purge", Ack(Converged, ""), env.logOk)
  }

  function WithStatus(a: Agent, id: string, s: Status): Agent {
    if id in a.manifest then a.(manifest := a.manifest[id := a.manifest[id].(status := s)]) else a
  }

  /** Sets the pool flag and the record's status; an absent record is no error. */
  function Toggling(a: Agent, id: string, ref: Ref, on: bool, kind: string, desired: string, code: string, env: Env): (Agent, Ack)
    requires Normalize(ref.provider) in a.pools
  {
    var provider := Normalize(ref.provider);
    if env.toggle.Fails? then
      Ended(WithPool(a, provider, env.toggle.left), id, kind, ref.id, desired, Ack(Diverged, code), env.logOk)
    else
      var a1 := WithStatus(WithPool(a, provider, Toggled(a.pools[provider], ref.email, on)), ref.id, if on then Active else Inactive);
      if ref.id in a.manifest && !env.persistOk then Ended(a1, id, kind, ref.id, desired, Ack(Diverged, "manifest_status"), env.logOk)
      else Ended(a1, id, kind, ref.id, desired, Ack(Converged, ""), env.logOk)
  }

  function Recalled(a: Agent, id: string, r: Body, env: Env): (Agent, Ack)
    requires r.Recall?
  {
    if r.ref.None? || r.ref.value.id == "" then Refused(a, "bad_account")
    else
      var ref := r.ref.value;
      if Normalize(ref.provider) !in a.pools then
        Ended(a, id, "recall", ref.id, "", Ack(Diverged, "provider_unsupported"), env.logOk)
      else if AlreadyApplied(a.log.entries, id) then (a, Ack(Converged, ""))
      else if r.purge then Purged(a, id, ref, env)
      else Toggling(a, id, ref, false, "recall", "disable", "tsamx_disable", env)
  }

  function ActiveSet(a: Agent, id: string, s: Body, env: Env): (Agent, Ack)
    requires s.SetActive?
  {
    if s.ref.None? || s.ref.value.id == "" then Refused(a, "bad_account")
    else
      var ref := s.ref.value;
      var desired := StatusName(if s.on then Active else Inactive);
      if Normalize(ref.provider) !in a.pools then
        Ended(a, id, "set_active", ref.id, desired, Ack(Diverged, "provider_unsupported"), env.logOk)
      else if AlreadyApplied(a.log.entries, id) then (a, Ack(Converged, ""))
      else Toggling(a, id, ref, s.on, "set_active", desired, "tsamx_set_active", env)
  }

  // ------------------------------------------------------------ policy

  predicate Stale(p: Policy, issued: int) {
    p.last.Some? && issued < p.last.value
  }

  /** Whether the policy has a value for the setting. */
  predicate Sets(s: Body, setting: Setting)
    requires s.SetPolicy?
  {
    match setting
    case Threshold => s.threshold > 0.0
    case Cooldown => s.cooldown >= 0.0
    case Hysteresis => s.hysteresis >= 0.0
    case Strategy => s.strategy != ""
  }

  function Injected(p: Policy, s: Body, setting: Setting, issued: int): Policy
    requires s.SetPolicy?
  {
    if !Sets(s, setting) then p
    else
      var q := match setting
               case Threshold => p.(threshold := Some(s.threshold))
               case Cooldown => p.(cooldown := Some(s.cooldown))
               case Hysteresis => p.(hysteresis := Some(s.hysteresis))
               case Strategy => p.(strategy := s.strategy);
      q.(setAt := q.setAt[setting := issued])
  }

  /** Setting it is a call that may fail; the strategy is kept in memory. */
  predicate SettingFails(s: Body, setting: Setting, env: Env)
    requires s.SetPolicy?
  {
    Sets(s, setting) &&
    match setting
    case Threshold => !env.thresholdOk
    case Cooldown => !env.cooldownOk
    case Hysteresis => !env.hysteresisOk
    case Strategy => false
  }

  /** The settings are injected one after the other, up to the first that fails. */
  function PolicyAfter(p: Policy, issued: int, s: Body, env: Env): (Policy, bool)
    requires s.SetPolicy?
  {
    if SettingFails(s, Threshold, env) then (p, false)
    else
      var p1 := Injected(p, s, Threshold, issued);
      if SettingFails(s, Cooldown, env) then (p1, false)
      else
        var p2 := Injected(p1, s, Cooldown, issued);
        if SettingFails(s, Hysteresis, env) then (p2, false)
        else
          var p3 := Injected(Injected(p2, s, Hysteresis, issued), s, Strategy, issued);
          (if p3.last.None? || issued > p3.last.value then p3.(last := Some(issued)) else p3, true)
  }

  function PolicySet(a: Agent, id: string, issued: int, s: Body, env: Env): (Agent, Ack)
    requires s.SetPolicy?
  {
    if Stale(a.policy, issued) then Ended(a, id, "set_policy", "", s.strategy, Ack(Converged, ""), env.logOk)
    else
      var (p, ok) := PolicyAfter(a.policy, issued, s, env);
      if ok then Ended(a.(policy := p), id, "set_policy", "", s.strategy, Ack(Converged, ""), env.logOk)
      else Ended(a.(policy := p), id, "set_policy", "", "", Ack(Diverged, "tsamx_config"), env.logOk)
  }

  // ------------------------------------------------------------ the gate

  function Distance(a: int, b: int): int { if a < b then b - a else a - b }

  /** Why a command must not be executed here, if it must not. */
  function Gate(c: Command, me: string, now: int, window: int): Option<string> {
    if !c.signed then Some("signature_invalid")
    else if c.agent != me then Some("wrong_recipient")
    else if c.issued.None? || Distance(now, c.issued.value) > window then Some("stale_command")
    else None
  }

  function Handled(a: Agent, me: string, window: int, now: int, c: Command, env: Env): (Agent, Ack) {
    var refusal := Gate(c, me, now, window);
    if refusal.Some? then Refused(a, refusal.value)
    else match c.body
         case Deliver(_, _, _) => Delivered(a, me, c.id, c.body, env)
         case Recall(_, _) => Recalled(a, c.id, c.body, env)
         case SetActive(_, _) => ActiveSet(a, c.id, c.body, env)
         case SetPolicy(_, _, _, _) => PolicySet(a, c.id, c.issued.value, c.body, env)
  }

  // ------------------------------------------------------------ what every step keeps

  ghost predicate ValidPools(pools: map<string, Pool>) {
    forall provider :: provider in pools ==> Valid(pools[provider])
  }

  ghost predicate Inv(a: Agent) {
    ValidPools(a.pools) && |a.log.entries| <= RING
  }

  lemma {:induction false} SwitchingKeeps(p: Pool, target: string, e: Effect)
    requires Valid(p) && LeavesValid(e)
    ensures Valid(Switching(p, target, e).0)
  {
  }

  lemma {:induction false} WithPoolKeeps(a: Agent, provider: string, p: Pool)
    requires ValidPools(a.pools) && Valid(p)
    ensures ValidPools(WithPool(a, provider, p).pools)
  {
  }

  lemma {:induction false} AfterAddKeeps(a: Agent, id: string, ref: Ref, desired: Status, live: string, env: Env)
    requires ValidPools(a.pools) && EnvFits(env) && Normalize(ref.provider) in a.pools
    ensures Inv(AfterAdd(a, id, ref, desired, live, env).0)
  {
    SwitchingKeeps(a.pools[Normalize(ref.provider)], live, env.switch);
  }

  lemma {:induction false} InstallKeeps(a: Agent, id: string, ref: Ref, desired: Status, env: Env)
    requires Inv(a) && EnvFits(env) && ref.email != "" && Normalize(ref.provider) in a.pools
    ensures Inv(Install(a, id, ref, desired, env).0)
  {
    var provider := Normalize(ref.provider);
    var added := Added(a.pools[provider], ref.email, desired == Active);
    AddedKeeps(a.pools[provider], ref.email, desired == Active);
    WithPoolKeeps(a, provider, added);
    AfterAddKeeps(WithPool(a, provider, added), id, ref, desired, if env.statusOk then a.pools[provider].active else "", env);
  }

  lemma {:induction false} DeliverKeeps(a: Agent, me: string, id: string, d: Body, env: Env)
    requires Inv(a) && EnvFits(env) && d.Deliver?
    ensures Inv(Delivered(a, me, id, d, env).0)
  {
    if d.ref.Some? && d.ref.value.email != "" && Normalize(d.ref.value.provider) in a.pools {
      var ref := d.ref.value;
      InstallKeeps(a.(manifest := a.manifest[ref.id := Record(ref.email, ref.provider, d.desired)]), id, ref, d.desired, env);
    }
  }

  lemma {:induction false} MovedKeeps(p: Pool, email: string, env: Env)
    requires Valid(p) && EnvFits(env)
    ensures Valid(MovedAway(p, email, env).0)
  {
    SwitchingKeeps(p, OtherTarget(p, email), env.switch);
  }

  lemma {:induction false} TakenKeeps(p: Pool, email: string, env: Env)
    requires Valid(p) && EnvFits(env)
    ensures Valid(TakenOut(p, email, env).0)
    ensures TakenOut(p, email, env).1 ==> !Has(TakenOut(p, email, env).0, email)
  {
    RemovedKeeps(p, email);
  }

  lemma {:induction false} PurgeKeeps(a: Agent, id: string, ref: Ref, env: Env)
    requires Inv(a) && EnvFits(env) && Normalize(ref.provider) in a.pools
    ensures Inv(Purged(a, id, ref, env).0)
  {
    var p := a.pools[Normalize(ref.provider)];
    MovedKeeps(p, ref.email, env);
    TakenKeeps(MovedAway(p, ref.email, env).0, ref.email, env);
  }

  lemma {:induction false} ToggleKeeps(a: Agent, id: string, ref: Ref, on: bool, kind: string, desired: string, code: string, env: Env)
    requires Inv(a) && EnvFits(env) && Normalize(ref.provider) in a.pools
    ensures Inv(Toggling(a, id, ref, on, kind, desired, code, env).0)
  {
    ToggledKeeps(a.pools[Normalize(ref.provider)], ref.email, on);
  }

  lemma {:induction false} RecallKeeps(a: Agent, id: string, r: Body, env: Env)
    requires Inv(a) && EnvFits(env) && r.Recall?
    ensures Inv(Recalled(a, id, r, env).0)
  {
    if r.ref.Some? && Normalize(r.ref.value.provider) in a.pools {
      PurgeKeeps(a, id, r.ref.value, env);
      ToggleKeeps(a, id, r.ref.value, false, "recall", "disable", "tsamx_disable", env);
    }
  }

  lemma {:induction false} SetActiveKeeps(a: Agent, id: string, s: Body, env: Env)
    requires Inv(a) && EnvFits(env) && s.SetActive?
    ensures Inv(ActiveSet(a, id, s, env).0)
  {
    if s.ref.Some? && Normalize(s.ref.value.provider) in a.pools {
      ToggleKeeps(a, id, s.ref.value, s.on, "set_active", StatusName(if s.on then Active else Inactive), "tsamx_set_active", env);
    }
  }

  lemma {:induction false} HandleKeeps(a: Agent, me: string, window: int, now: int, c: Command, env: Env)
    requires Inv(a) && EnvFits(env)
    ensures Inv(Handled(a, me, window, now, c, env).0)
  {
    match c.body
    case Deliver(_, _, _) => DeliverKeeps(a, me, c.id, c.body, env);
    case Recall(_, _) => RecallKeeps(a, c.id, c.body, env);
    case SetActive(_, _) => SetActiveKeeps(a, c.id, c.body, env);
    case SetPolicy(_, _, _, _) =>
  }

  // ------------------------------------------------------------ histories

  /** A command arrives, or the scheduler or an operator moves a pool. */
  datatype Event = Receive(c: Command, now: int, env: Env) | Outside(provider: string, pool: Pool)

  ghost predicate EventFits(e: Event) {
    match e
    case Receive(_, _, env) => EnvFits(env)
    case Outside(_, pool) => Valid(pool)
  }

  function Stepped(a: Agent, me: string, window: int, e: Event): Agent {
    match e
    case Receive(c, now, env) => Handled(a, me, window, now, c, env).0
    case Outside(provider, pool) => if provider in a.pools then WithPool(a, provider, pool) else a
  }

  function After(a: Agent, me: string, window: int, events: seq<Event>): Agent {
    if events == [] then a
    else Stepped(After(a, me, window, events[..|events| - 1]), me, window, events[|events| - 1])
  }

  lemma {:induction false} HistoryKeeps(a: Agent, me: string, window: int, events: seq<Event>)
    requires Inv(a) && forall e :: e in events ==> EventFits(e)
    ensures Inv(After(a, me, window, events))
  {
    if events != [] {
      var n := |events| - 1;
      assert events[n] in events;
      HistoryKeeps(a, me, window, events[..n]);
      var before := After(a, me, window, events[..n]);
      match events[n]
      case Receive(c, now, env) => HandleKeeps(before, me, window, now, c, env);
      case Outside(provider, pool) =>
    }
  }

  // ------------------------------------------------------------ theorems

  /** What a converged deliver leaves: the runner where it was, or on the delivered
      account when it was nowhere and the effect ran. */
  ghost predicate LiveKept(was: Pool, now: Pool, ref: Ref, desired: Status, ran: bool) {
    && now.active == (if was.active != "" || !ran then was.active else ref.email)
    && Flagged(now, ref.email, desired == Active)
    && forall x, on :: x != ref.email ==> (Flagged(now, x, on) <==> Flagged(was, x, on))
  }

  lemma {:induction false} AfterAddLive(a: Agent, id: string, ref: Ref, desired: Status, live: string, env: Env)
    requires Normalize(ref.provider) in a.pools && a.pools[Normalize(ref.provider)].active == ref.email
    requires AfterAdd(a, id, ref, desired, live, env).1.convergence == Converged
    ensures var after := AfterAdd(a, id, ref, desired, live, env).0;
            && Normalize(ref.provider) in after.pools && after.manifest == a.manifest && env.statusOk
            && after.pools[Normalize(ref.provider)] ==
               a.pools[Normalize(ref.provider)].(active := if live != "" then live else ref.email)
  {
  }

  lemma {:induction false} InstallLive(a: Agent, id: string, ref: Ref, desired: Status, env: Env)
    requires Inv(a) && ref.email != "" && Normalize(ref.provider) in a.pools
    requires Install(a, id, ref, desired, env).1.convergence == Converged
    ensures Normalize(ref.provider) in Install(a, id, ref, desired, env).0.pools
    ensures LiveKept(a.pools[Normalize(ref.provider)], Install(a, id, ref, desired, env).0.pools[Normalize(ref.provider)], ref, desired, true)
    ensures Install(a, id, ref, desired, env).0.manifest == a.manifest
  {
    var provider := Normalize(ref.provider);
    AddedKeeps(a.pools[provider], ref.email, desired == Active);
    AfterAddLive(WithPool(a, provider, Added(a.pools[provider], ref.email, desired == Active)), id, ref, desired,
                 if env.statusOk then a.pools[provider].active else "", env);
  }

  lemma {:induction false} DeliverLive(a: Agent, me: string, id: string, d: Body, env: Env)
    requires Inv(a) && d.Deliver? && Delivered(a, me, id, d, env).1.convergence == Converged
    ensures var after := Delivered(a, me, id, d, env).0;
            && d.ref.Some? && Normalize(d.ref.value.provider) in a.pools && Normalize(d.ref.value.provider) in after.pools
            && LiveKept(a.pools[Normalize(d.ref.value.provider)], after.pools[Normalize(d.ref.value.provider)], d.ref.value, d.desired,
                        !SeenAsDesired(a, id, d.ref.value, d.desired, env))
            && d.ref.value.id in after.manifest && after.manifest[d.ref.value.id].status == d.desired
  {
    var ref := d.ref.value;
    if !SeenAsDesired(a, id, ref, d.desired, env) {
      InstallLive(a.(manifest := a.manifest[ref.id := Record(ref.email, ref.provider, d.desired)]), id, ref, d.desired, env);
    }
  }

  /** In any history, a deliver that reports convergence leaves the live account as it
      was, or the delivered one if none was live; the record and the pool flag at the
      desired values; and every other account's flag alone. */
  lemma {:induction false} DeliverKeepsLive(start: Agent, me: string, window: int, events: seq<Event>, id: string, d: Body, env: Env)
    requires Inv(start) && (forall e :: e in events ==> EventFits(e)) && d.Deliver?
    requires Delivered(After(start, me, window, events), me, id, d, env).1.convergence == Converged
    ensures var a := After(start, me, window, events);
            var after := Delivered(a, me, id, d, env).0;
            && d.ref.Some? && Normalize(d.ref.value.provider) in a.pools && Normalize(d.ref.value.provider) in after.pools
            && LiveKept(a.pools[Normalize(d.ref.value.provider)], after.pools[Normalize(d.ref.value.provider)], d.ref.value, d.desired,
                        !SeenAsDesired(a, id, d.ref.value, d.desired, env))
            && d.ref.value.id in after.manifest && after.manifest[d.ref.value.id].status == d.desired
  {
    HistoryKeeps(start, me, window, events);
    DeliverLive(After(start, me, window, events), me, id, d, env);
  }

  // ------------------------------------------------------------ retries of one deliver

  function ActiveOf(a: Agent, provider: string): string {
    if Normalize(provider) in a.pools then a.pools[Normalize(provider)].active else ""
  }

  /** The attempts of one deliver, one after the other. */
  function Retried(a: Agent, me: string, id: string, d: Body, envs: seq<Env>): Agent
    requires d.Deliver?
  {
    if envs == [] then a
    else Delivered(Retried(a, me, id, d, envs[..|envs| - 1]), me, id, d, envs[|envs| - 1]).0
  }

  /** The attempt gets as far as the add. */
  predicate Adds(a: Agent, me: string, id: string, d: Body, env: Env)
    requires d.Deliver?
  {
    && d.ref.Some? && d.ref.value.id != "" && d.ref.value.email != "" && Normalize(d.ref.value.provider) in a.pools
    && d.envelope.Some? && d.envelope.value.account in {"", d.ref.value.id} && d.envelope.value.agent in {"", me}
    && !SeenAsDesired(a, id, d.ref.value, d.desired, env)
    && env.hasKeys && env.keyHeld && env.opens && env.seals && env.persistOk
  }

  /** The attempt leaves the runner elsewhere: a failed add or a failed restore leaves
      it so, or it was nowhere or unknown and the add made the new account live. */
  predicate MovesRunner(a: Agent, me: string, id: string, d: Body, env: Env)
    requires d.Deliver?
  {
    Adds(a, me, id, d, env) &&
    var live, email := ActiveOf(a, d.ref.value.provider), d.ref.value.email;
    if env.add.Fails? then env.add.left.active != live
    else if !env.statusOk || live == "" then live != email
    else live != email && env.switch.Fails? && env.switch.left.active != live
  }

  lemma {:induction false} AddedActive(p: Pool, email: string, on: bool)
    requires Valid(p)
    ensures Added(p, email, on).active == email && (p.active != "" ==> Has(Added(p, email, on), p.active))
  {
    if p.active != "" {
      var i :| 0 <= i < |p.slots| && p.slots[i].email == p.active;
      assert Added(p, email, on).slots[i].email == p.active;
    }
  }

  lemma {:induction false} StaysPut(a: Agent, me: string, id: string, d: Body, env: Env)
    requires d.Deliver? && d.ref.Some? && !Adds(a, me, id, d, env)
    ensures Delivered(a, me, id, d, env).0.pools == a.pools
  {
  }

  /** Where the runner is once the add has been tried. */
  function AfterAttempt(p: Pool, email: string, env: Env): string {
    if env.add.Fails? then env.add.left.active
    else if !env.statusOk || p.active == "" || p.active == email then email
    else if env.switch.Fails? then env.switch.left.active
    else p.active
  }

  lemma {:induction false} InstallActive(a: Agent, id: string, ref: Ref, desired: Status, env: Env)
    requires Normalize(ref.provider) in a.pools && Valid(a.pools[Normalize(ref.provider)])
    ensures ActiveOf(Install(a, id, ref, desired, env).0, ref.provider) == AfterAttempt(a.pools[Normalize(ref.provider)], ref.email, env)
  {
    AddedActive(a.pools[Normalize(ref.provider)], ref.email, desired == Active);
  }

  /** Exactly which attempts leave the runner elsewhere than they found it. */
  lemma {:induction false} MovesIff(a: Agent, me: string, id: string, d: Body, env: Env)
    requires Inv(a) && d.Deliver? && d.ref.Some?
    ensures var after := Delivered(a, me, id, d, env).0;
            ActiveOf(after, d.ref.value.provider) != ActiveOf(a, d.ref.value.provider) <==> MovesRunner(a, me, id, d, env)
  {
    var ref := d.ref.value;
    if Adds(a, me, id, d, env) {
      InstallActive(a.(manifest := a.manifest[ref.id := Record(ref.email, ref.provider, d.desired)]), id, ref, d.desired, env);
    } else {
      StaysPut(a, me, id, d, env);
    }
  }

  /** No attempt leaves the runner elsewhere. */
  ghost predicate NoneMoves(a: Agent, me: string, id: string, d: Body, envs: seq<Env>)
    requires d.Deliver?
  {
    envs == [] ||
    (NoneMoves(a, me, id, d, envs[..|envs| - 1]) && !MovesRunner(Retried(a, me, id, d, envs[..|envs| - 1]), me, id, d, envs[|envs| - 1]))
  }

  lemma {:induction false} RetriesKeep(a: Agent, me: string, id: string, d: Body, envs: seq<Env>)
    requires Inv(a) && d.Deliver? && forall env :: env in envs ==> EnvFits(env)
    ensures Inv(Retried(a, me, id, d, envs))
  {
    if envs != [] {
      assert envs[|envs| - 1] in envs;
      RetriesKeep(a, me, id, d, envs[..|envs| - 1]);
      DeliverKeeps(Retried(a, me, id, d, envs[..|envs| - 1]), me, id, d, envs[|envs| - 1]);
    }
  }

  /** Over any number of attempts of one deliver the runner ends where it was before the
      first, as long as none of them leaves it elsewhere. */
  lemma {:induction false} RetriesKeepLive(a: Agent, me: string, id: string, d: Body, envs: seq<Env>)
    requires Inv(a) && d.Deliver? && d.ref.Some? && forall env :: env in envs ==> EnvFits(env)
    requires NoneMoves(a, me, id, d, envs)
    ensures ActiveOf(Retried(a, me, id, d, envs), d.ref.value.provider) == ActiveOf(a, d.ref.value.provider)
  {
    if envs != [] {
      var less := envs[..|envs| - 1];
      assert forall env :: env in less ==> env in envs;
      RetriesKeepLive(a, me, id, d, less);
      RetriesKeep(a, me, id, d, less);
      MovesIff(Retried(a, me, id, d, less), me, id, d, envs[|envs| - 1]);
    }
  }

  /** Where a retry that converges after an attempt leaves the runner: where the attempt
      left it, since a retry restores what it finds live and not what was live before,
      or on the delivered account if it finds nothing live and runs its effect. A runner
      that was live on another account therefore ends there if and only if the first
      attempt did not move it. */
  lemma {:induction false} RetryRestoresIff(a: Agent, me: string, id: string, d: Body, first: Env, again: Env)
    requires Inv(a) && EnvFits(first) && d.Deliver? && d.ref.Some?
    requires var mid := Delivered(a, me, id, d, first).0; Delivered(mid, me, id, d, again).1.convergence == Converged
    ensures var live, mid := ActiveOf(a, d.ref.value.provider), Delivered(a, me, id, d, first).0;
            var now := ActiveOf(Delivered(mid, me, id, d, again).0, d.ref.value.provider);
            && (Normalize(d.ref.value.provider) in mid.pools)
            && (now == live <==>
                  if ActiveOf(mid, d.ref.value.provider) != "" || SeenAsDesired(mid, id, d.ref.value, d.desired, again)
                  then !MovesRunner(a, me, id, d, first) else live == d.ref.value.email)
            && (live !in {"", d.ref.value.email} ==> (now == live <==> !MovesRunner(a, me, id, d, first)))
  {
    MovesIff(a, me, id, d, first);
    DeliverKeeps(a, me, id, d, first);
    DeliverLive(Delivered(a, me, id, d, first).0, me, id, d, again);
  }

  /** A case where it is not: the switch back fails, which is answered as diverged, and
      the re-queued command finds record and flag as desired and is answered as
      converged, with the runner left on the delivered account. */
  lemma {:induction false} FailedRestoreSticks(a: Agent, me: string, id: string, d: Body, first: Env, again: Env)
    requires Inv(a) && d.Deliver? && Adds(a, me, id, d, first) && ActiveOf(a, d.ref.value.provider) !in {"", d.ref.value.email}
    requires first.add.Works? && first.statusOk && again.listOk
    requires first.switch == Fails(Added(a.pools[Normalize(d.ref.value.provider)], d.ref.value.email, d.desired == Active))
    ensures var mid := Delivered(a, me, id, d, first);
            && mid.1 == Ack(Diverged, "tsamx_restore_active")
            && Delivered(mid.0, me, id, d, again) == (mid.0, Ack(Converged, ""))
            && ActiveOf(mid.0, d.ref.value.provider) == d.ref.value.email
  {
    var p := a.pools[Normalize(d.ref.value.provider)];
    AddedKeeps(p, d.ref.value.email, d.desired == Active);
    AddedActive(p, d.ref.value.email, d.desired == Active);
    var mid := Delivered(a, me, id, d, first).0;
    var e := Entry(id, "deliver", d.ref.value.id, StatusName(d.desired), Diverged);
    assert mid.log == Appended(a.log, e, first.logOk);
    NewestWithin(a.log, e, first.logOk);
    WithinFound(mid.log.entries, e, 0);
  }

  /** In any history, a purge recall that ran its effect and reports convergence leaves
      the account in neither the pool nor the manifest, and the runner not on it. */
  lemma {:induction false} PurgeLeavesNothing(start: Agent, me: string, window: int, events: seq<Event>, id: string, ref: Ref, env: Env)
    requires Inv(start) && (forall e :: e in events ==> EventFits(e)) && EnvFits(env)
    requires var a := After(start, me, window, events);
             && ref.id != "" && Normalize(ref.provider) in a.pools && !AlreadyApplied(a.log.entries, id)
             && Recalled(a, id, Recall(Some(ref), true), env).1.convergence == Converged
    ensures var a := After(start, me, window, events);
            var after := Recalled(a, id, Recall(Some(ref), true), env).0;
            && Normalize(ref.provider) in after.pools
            && !Has(after.pools[Normalize(ref.provider)], ref.email)
            && ref.id !in after.manifest
            && (ref.email != "" ==> after.pools[Normalize(ref.provider)].active != ref.email)
  {
    HistoryKeeps(start, me, window, events);
    var a := After(start, me, window, events);
    var p := a.pools[Normalize(ref.provider)];
    MovedKeeps(p, ref.email, env);
    TakenKeeps(MovedAway(p, ref.email, env).0, ref.email, env);
  }

  /** What a converged purge does to any slot: the one the command names goes, every
      other one of any provider stays as it was. */
  lemma {:induction false} PurgeSlots(a: Agent, id: string, ref: Ref, env: Env, provider: string, email: string)
    requires Inv(a) && EnvFits(env) && Normalize(ref.provider) in a.pools && provider in a.pools
    requires Purged(a, id, ref, env).1.convergence == Converged
    ensures var after := Purged(a, id, ref, env).0;
            && provider in after.pools
            && (Has(after.pools[provider], email) <==>
                  Has(a.pools[provider], email) && !(provider == Normalize(ref.provider) && email == ref.email))
  {
    var p := a.pools[Normalize(ref.provider)];
    var moved := MovedAway(p, ref.email, env).0;
    MovedKeeps(p, ref.email, env);
    SameSlots(p, moved, email);
    RemovedHas(moved, ref.email, email);
  }

  lemma {:induction false} SameSlots(p: Pool, q: Pool, email: string)
    requires p.slots == q.slots
    ensures Has(p, email) <==> Has(q, email)
  {
  }

  lemma {:induction false} RemovedHas(p: Pool, gone: string, email: string)
    requires Valid(p)
    ensures Has(Removed(p, gone), email) <==> Has(p, email) && email != gone
  {
    RemovedKeeps(p, gone);
    if Has(p, email) && email != gone {
      var i :| 0 <= i < |p.slots| && p.slots[i].email == email;
      assert Flagged(p, email, p.slots[i].enabled);
      assert Flagged(Removed(p, gone), email, p.slots[i].enabled);
    }
    if Has(Removed(p, gone), email) {
      var after := Removed(p, gone);
      var i :| 0 <= i < |after.slots| && after.slots[i].email == email;
      assert email == gone || Flagged(after, email, after.slots[i].enabled);
    }
  }

  /** A converged purge drops the record of the account it names by id, but the slot it
      names by email. The recorded account's slot goes with its record if and only if
      the command names that very slot, or there was none. */
  lemma {:induction false} PurgeRecordedIff(a: Agent, id: string, ref: Ref, env: Env)
    requires Inv(a) && EnvFits(env) && Normalize(ref.provider) in a.pools
    requires ref.id in a.manifest && Normalize(a.manifest[ref.id].provider) in a.pools
    requires Purged(a, id, ref, env).1.convergence == Converged
    ensures var after, rec := Purged(a, id, ref, env).0, a.manifest[ref.id];
            && ref.id !in after.manifest && Normalize(rec.provider) in after.pools
            && (!Has(after.pools[Normalize(rec.provider)], rec.email) <==>
                  || (Normalize(rec.provider) == Normalize(ref.provider) && rec.email == ref.email)
                  || !Has(a.pools[Normalize(rec.provider)], rec.email))
  {
    PurgeSlots(a, id, ref, env, Normalize(a.manifest[ref.id].provider), a.manifest[ref.id].email);
  }

  /** Purging the live account moves the runner to the best other one when the pool can
      be read, and purging another never moves it. An empty email counts as live when
      nothing is. */
  lemma {:induction false} PurgeMovesRunner(p: Pool, email: string, env: Env)
    requires Valid(p) && EnvFits(env)
    requires MovedAway(p, email, env).1 && TakenOut(MovedAway(p, email, env).0, email, env).1
    ensures var now := TakenOut(MovedAway(p, email, env).0, email, env).0;
            && (p.active != email ==> now.active == p.active)
            && (p.active == email && env.statusOk && env.listOk ==> BestTarget(p, email, now.active))
            && (p.active == email && !(env.statusOk && env.listOk) ==> now.active == "")
  {
    OtherTargetBest(p, email);
    RemovedKeeps(p, email);
    if OtherTarget(p, email) != "" {
      RemovedKeeps(p.(active := OtherTarget(p, email)), email);
    }
  }

  /** A purge whose reference has no email, when nothing is live: the record goes, its
      slot stays, and the runner is moved onto another account, all answered as
      converged. */
  lemma {:induction false} NamelessPurge(a: Agent, id: string, ref: Ref, env: Env)
    requires Inv(a) && EnvFits(env) && ref.id in a.manifest && ref.id != "" && ref.email == "" && Normalize(ref.provider) in a.pools
    requires Normalize(a.manifest[ref.id].provider) == Normalize(ref.provider)
    requires Has(a.pools[Normalize(ref.provider)], a.manifest[ref.id].email) && a.pools[Normalize(ref.provider)].active == ""
    requires env.statusOk && env.listOk && env.switch.Works? && env.remove.Works? && env.persistOk
    requires !AlreadyApplied(a.log.entries, id)
    ensures var (after, ack) := Recalled(a, id, Recall(Some(ref), true), env);
            && ack == Ack(Converged, "") && ref.id !in after.manifest && Normalize(ref.provider) in after.pools
            && Has(after.pools[Normalize(ref.provider)], a.manifest[ref.id].email)
            && after.pools[Normalize(ref.provider)].active != ""
  {
    var p := a.pools[Normalize(ref.provider)];
    var k :| 0 <= k < |p.slots| && p.slots[k].email == a.manifest[ref.id].email;
    assert IsOther(p.slots[k], "");
    OtherTargetBest(p, "");
    assert OtherTarget(p, "") != "";
    PurgeRecordedIff(a, id, ref, env);
    PurgeMovesRunner(p, "", env);
  }

  /** Enabling or disabling that reports convergence leaves flag and record agreeing. */
  lemma {:induction false} ToggleSetsBoth(a: Agent, id: string, s: Body, env: Env)
    requires Inv(a) && s.SetActive? && !AlreadyApplied(a.log.entries, id)
    requires ActiveSet(a, id, s, env).1.convergence == Converged
    ensures var after := ActiveSet(a, id, s, env).0;
            && s.ref.Some? && Normalize(s.ref.value.provider) in a.pools
            && (Has(a.pools[Normalize(s.ref.value.provider)], s.ref.value.email) ==>
                  Flagged(after.pools[Normalize(s.ref.value.provider)], s.ref.value.email, s.on))
            && (s.ref.value.id in a.manifest ==> after.manifest[s.ref.value.id].status == if s.on then Active else Inactive)
            && after.pools[Normalize(s.ref.value.provider)].active == a.pools[Normalize(s.ref.value.provider)].active
  {
    ToggledKeeps(a.pools[Normalize(s.ref.value.provider)], s.ref.value.email, s.on);
  }

  lemma {:induction false} DeliverRefusals(a: Agent, me: string, id: string, d: Body, env: Env)
    requires d.Deliver?
    ensures Delivered(a, me, id, d, env).1.convergence == Rejected ==> Delivered(a, me, id, d, env).0 == a
    ensures Delivered(a, me, id, d, env).1.code == "provider_unsupported" ==>
              Delivered(a, me, id, d, env).0.pools == a.pools && Delivered(a, me, id, d, env).0.manifest == a.manifest
  {
  }

  lemma {:induction false} RecallRefusals(a: Agent, id: string, r: Body, env: Env)
    requires r.Recall?
    ensures Recalled(a, id, r, env).1.convergence == Rejected ==> Recalled(a, id, r, env).0 == a
    ensures Recalled(a, id, r, env).1.code == "provider_unsupported" ==>
              Recalled(a, id, r, env).0.pools == a.pools && Recalled(a, id, r, env).0.manifest == a.manifest
  {
  }

  lemma {:induction false} SetActiveRefusals(a: Agent, id: string, s: Body, env: Env)
    requires s.SetActive?
    ensures ActiveSet(a, id, s, env).1.convergence == Rejected ==> ActiveSet(a, id, s, env).0 == a
    ensures ActiveSet(a, id, s, env).1.code == "provider_unsupported" ==>
              ActiveSet(a, id, s, env).0.pools == a.pools && ActiveSet(a, id, s, env).0.manifest == a.manifest
  {
  }

  /** A rejected command changes nothing at all, not even the log; a command for a
      provider that is not registered touches neither pool nor manifest. */
  lemma {:induction false} RefusalsChangeNothing(a: Agent, me: string, window: int, now: int, c: Command, env: Env)
    ensures Handled(a, me, window, now, c, env).1.convergence == Rejected ==> Handled(a, me, window, now, c, env).0 == a
    ensures Handled(a, me, window, now, c, env).1.code == "provider_unsupported" ==>
              Handled(a, me, window, now, c, env).0.pools == a.pools && Handled(a, me, window, now, c, env).0.manifest == a.manifest
    ensures !c.signed || c.agent != me || c.issued.None? || Distance(now, c.issued.value) > window ==>
              Handled(a, me, window, now, c, env).1.convergence == Rejected
  {
    match c.body
    case Deliver(_, _, _) => DeliverRefusals(a, me, c.id, c.body, env);
    case Recall(_, _) => RecallRefusals(a, c.id, c.body, env);
    case SetActive(_, _) => SetActiveRefusals(a, c.id, c.body, env);
    case SetPolicy(_, _, _, _) =>
  }

  // ------------------------------------------------------------ replays

  /** At most one entry was appended, under the given id. */
  predicate LogsOne(before: Log, after: Log, id: string) {
    after == before ||
    (after.entries != [] && NewestOf(after).id == id
     && (after == Appended(before, NewestOf(after), true) || after == Appended(before, NewestOf(after), false)))
  }

  function NewestOf(l: Log): Entry
    requires l.entries != []
  {
    l.entries[|l.entries| - 1]
  }

  lemma {:induction false} AppendLogsOne(l: Log, e: Entry, io: bool)
    ensures LogsOne(l, Appended(l, e, io), e.id)
  {
    assert NewestOf(Appended(l, e, io)) == e;
  }

  lemma {:induction false} InstallLogs(a: Agent, id: string, ref: Ref, desired: Status, env: Env)
    requires Normalize(ref.provider) in a.pools
    ensures LogsOne(a.log, Install(a, id, ref, desired, env).0.log, id)
  {
    InstallLog(a, id, ref, desired, env);
    AppendLogsOne(a.log, DeliverEntry(id, ref, desired, Install(a, id, ref, desired, env).1), env.logOk);
  }

  function DeliverEntry(id: string, ref: Ref, desired: Status, ack: Ack): Entry {
    Entry(id, "deliver", ref.id, StatusName(desired), ack.convergence)
  }

  lemma {:induction false} AfterAddLog(a: Agent, id: string, ref: Ref, desired: Status, live: string, env: Env)
    requires Normalize(ref.provider) in a.pools
    ensures var (after, ack) := AfterAdd(a, id, ref, desired, live, env);
            after.log == Appended(a.log, DeliverEntry(id, ref, desired, ack), env.logOk)
  {
  }

  lemma {:induction false} InstallLog(a: Agent, id: string, ref: Ref, desired: Status, env: Env)
    requires Normalize(ref.provider) in a.pools
    ensures var (after, ack) := Install(a, id, ref, desired, env);
            after.log == Appended(a.log, DeliverEntry(id, ref, desired, ack), env.logOk)
  {
    var provider := Normalize(ref.provider);
    if env.add.Works? {
      AfterAddLog(WithPool(a, provider, Added(a.pools[provider], ref.email, desired == Active)), id, ref, desired,
                  if env.statusOk then a.pools[provider].active else "", env);
    }
  }

  lemma {:induction false} DeliverLogs(a: Agent, me: string, id: string, d: Body, env: Env)
    requires d.Deliver?
    ensures LogsOne(a.log, Delivered(a, me, id, d, env).0.log, id)
  {
    if d.ref.Some? {
      var ref := d.ref.value;
      if Normalize(ref.provider) in a.pools {
        InstallLogs(a.(manifest := a.manifest[ref.id := Record(ref.email, ref.provider, d.desired)]), id, ref, d.desired, env);
      } else {
        AppendLogsOne(a.log, Entry(id, "deliver", ref.id, "", Diverged), env.logOk);
      }
    }
  }

  lemma {:induction false} PurgeLogs(a: Agent, id: string, ref: Ref, env: Env)
    requires Normalize(ref.provider) in a.pools
    ensures LogsOne(a.log, Purged(a, id, ref, env).0.log, id)
  {
    AppendLogsOne(a.log, Entry(id, "recall", ref.id, "purge", Purged(a, id, ref, env).1.convergence), env.logOk);
  }

  lemma {:induction false} ToggleLogs(a: Agent, id: string, ref: Ref, on: bool, kind: string, desired: string, code: string, env: Env)
    requires Normalize(ref.provider) in a.pools
    ensures LogsOne(a.log, Toggling(a, id, ref, on, kind, desired, code, env).0.log, id)
  {
    AppendLogsOne(a.log, Entry(id, kind, ref.id, desired, Toggling(a, id, ref, on, kind, desired, code, env).1.convergence), env.logOk);
  }

  lemma {:induction false} RecallLogs(a: Agent, id: string, r: Body, env: Env)
    requires r.Recall?
    ensures LogsOne(a.log, Recalled(a, id, r, env).0.log, id)
  {
    if r.ref.Some? {
      var ref := r.ref.value;
      if Normalize(ref.provider) in a.pools {
        PurgeLogs(a, id, ref, env);
        ToggleLogs(a, id, ref, false, "recall", "disable", "tsamx_disable", env);
      } else {
        AppendLogsOne(a.log, Entry(id, "recall", ref.id, "", Diverged), env.logOk);
      }
    }
  }

  lemma {:induction false} SetActiveLogs(a: Agent, id: string, s: Body, env: Env)
    requires s.SetActive?
    ensures LogsOne(a.log, ActiveSet(a, id, s, env).0.log, id)
  {
    if s.ref.Some? {
      var ref := s.ref.value;
      var desired := StatusName(if s.on then Active else Inactive);
      if Normalize(ref.provider) in a.pools {
        ToggleLogs(a, id, ref, s.on, "set_active", desired, "tsamx_set_active", env);
      } else {
        AppendLogsOne(a.log, Entry(id, "set_active", ref.id, desired, Diverged), env.logOk);
      }
    }
  }

  lemma {:induction false} PolicyLogs(a: Agent, id: string, issued: int, s: Body, env: Env)
    requires s.SetPolicy?
    ensures LogsOne(a.log, PolicySet(a, id, issued, s, env).0.log, id)
  {
    var converged := PolicySet(a, id, issued, s, env).1.convergence == Converged;
    AppendLogsOne(a.log, if converged then Entry(id, "set_policy", "", s.strategy, Converged) else Entry(id, "set_policy", "", "", Diverged), env.logOk);
  }

  /** A command adds at most one entry to the log, under its own id. */
  lemma {:induction false} CommandLogsOne(a: Agent, me: string, window: int, now: int, c: Command, env: Env)
    ensures LogsOne(a.log, Handled(a, me, window, now, c, env).0.log, c.id)
  {
    match c.body
    case Deliver(_, _, _) => DeliverLogs(a, me, c.id, c.body, env);
    case Recall(_, _) => RecallLogs(a, c.id, c.body, env);
    case SetActive(_, _) => SetActiveLogs(a, c.id, c.body, env);
    case SetPolicy(_, _, _, _) => if c.issued.Some? { PolicyLogs(a, c.id, c.issued.value, c.body, env); }
  }

  lemma {:induction false} EntryStep(before: Log, after: Log, id: string, e: Entry, k: nat)
    requires LogsOne(before, after, id) && id != e.id && Within(before.entries, e, k) && k + 1 < RING
    ensures Within(after.entries, e, k + 1)
  {
    if after == before {
      WithinMore(before.entries, e, k, k + 1);
    } else {
      WithinAppend(before.entries, e, k, NewestOf(after), RING);
    }
  }

  lemma {:induction false} EventStep(a: Agent, me: string, window: int, ev: Event, e: Entry, k: nat)
    requires Within(a.log.entries, e, k) && k + 1 < RING && (ev.Receive? ==> ev.c.id != e.id)
    ensures Within(Stepped(a, me, window, ev).log.entries, e, k + 1)
  {
    match ev
    case Receive(c, now, env) =>
      CommandLogsOne(a, me, window, now, c, env);
      EntryStep(a.log, Handled(a, me, window, now, c, env).0.log, c.id, e, k);
    case Outside(_, _) => WithinMore(a.log.entries, e, k, k + 1);
  }

  lemma {:induction false} EntryStays(a: Agent, me: string, window: int, events: seq<Event>, e: Entry)
    requires Within(a.log.entries, e, 0) && |events| < RING
    requires forall ev :: ev in events && ev.Receive? ==> ev.c.id != e.id
    ensures Within(After(a, me, window, events).log.entries, e, |events|)
  {
    if events != [] {
      var n := |events| - 1;
      assert events[n] in events && forall ev :: ev in events[..n] ==> ev in events;
      EntryStays(a, me, window, events[..n], e);
      EventStep(After(a, me, window, events[..n]), me, window, events[n], e, n);
    }
  }

  /** Replaying a recall or an enable/disable that converged, with fewer than 128 other
      events in between, reports convergence again and has no effect whatsoever: it does
      not undo what an operator has changed since. */
  lemma {:induction false} ReplayHasNoEffect(a: Agent, me: string, window: int, c: Command, now: int, env: Env, events: seq<Event>, later: int, again: Env)
    requires c.body.Recall? || c.body.SetActive?
    requires Handled(a, me, window, now, c, env).1.convergence == Converged && !AlreadyApplied(a.log.entries, c.id)
    requires |events| < RING && forall ev :: ev in events && ev.Receive? ==> ev.c.id != c.id
    requires Gate(c, me, later, window).None?
    requires Normalize(c.body.ref.value.provider) in After(Handled(a, me, window, now, c, env).0, me, window, events).pools
    ensures var since := After(Handled(a, me, window, now, c, env).0, me, window, events);
            Handled(since, me, window, later, c, again) == (since, Ack(Converged, ""))
  {
    var done := Handled(a, me, window, now, c, env).0;
    var e := ConvergedUnder(a, me, window, c, now, env);
    EntryStays(done, me, window, events, e);
    WithinFound(After(done, me, window, events).log.entries, e, |events|);
    AnsweredFromLog(After(done, me, window, events), me, window, later, c, again);
  }

  /** The replay gate comes before any effect. */
  lemma {:induction false} AnsweredFromLog(a: Agent, me: string, window: int, now: int, c: Command, env: Env)
    requires (c.body.Recall? || c.body.SetActive?) && c.body.ref.Some? && c.body.ref.value.id != ""
    requires Gate(c, me, now, window).None? && AlreadyApplied(a.log.entries, c.id) && Normalize(c.body.ref.value.provider) in a.pools
    ensures Handled(a, me, window, now, c, env) == (a, Ack(Converged, ""))
  {
  }

  /** The entry under which a converged recall or toggle was logged. */
  lemma {:induction false} ConvergedUnder(a: Agent, me: string, window: int, c: Command, now: int, env: Env) returns (e: Entry)
    requires c.body.Recall? || c.body.SetActive?
    requires Handled(a, me, window, now, c, env).1.convergence == Converged && !AlreadyApplied(a.log.entries, c.id)
    ensures c.body.ref.Some? && c.body.ref.value.id != ""
    ensures e.id == c.id && e.convergence == Converged && Within(Handled(a, me, window, now, c, env).0.log.entries, e, 0)
  {
    var target := c.body.ref.value.id;
    e := if c.body.SetActive? then Entry(c.id, "set_active", target, StatusName(if c.body.on then Active else Inactive), Converged)
         else Entry(c.id, "recall", target, if c.body.purge then "purge" else "disable", Converged);
    assert Handled(a, me, window, now, c, env).0.log == Appended(a.log, e, env.logOk);
    NewestWithin(a.log, e, env.logOk);
  }

  lemma {:induction false} NewestWithin(l: Log, e: Entry, io: bool)
    ensures Within(Appended(l, e, io).entries, e, 0)
  {
    var entries := Appended(l, e, io).entries;
    assert entries[|entries| - 1] == e;
  }

  // ------------------------------------------------------------ settings that rewind

  /** The policy gets as far as the setting and sets it. */
  predicate Reaches(s: Body, setting: Setting, env: Env)
    requires s.SetPolicy?
  {
    && Sets(s, setting)
    && !SettingFails(s, Threshold, env)
    && (setting != Threshold ==> !SettingFails(s, Cooldown, env))
    && (setting.Hysteresis? || setting.Strategy? ==> !SettingFails(s, Hysteresis, env))
  }

  predicate Completes(s: Body, env: Env)
    requires s.SetPolicy?
  {
    !SettingFails(s, Threshold, env) && !SettingFails(s, Cooldown, env) && !SettingFails(s, Hysteresis, env)
  }

  /** A policy that sets the setting and then fails on a later one. */
  predicate HalfApplied(p: Policy, setting: Setting, issued: int, s: Body, env: Env)
    requires s.SetPolicy?
  {
    !Stale(p, issued) && Reaches(s, setting, env) && !Completes(s, env)
  }

  /** The last policy that converged is at least as new as the setting's. */
  ghost predicate Covered(p: Policy, setting: Setting) {
    setting in p.setAt ==> p.last.Some? && p.setAt[setting] <= p.last.value
  }

  function Dated(setAt: map<Setting, int>, s: Body, setting: Setting, issued: int, env: Env): map<Setting, int>
    requires s.SetPolicy?
  {
    if Reaches(s, setting, env) then setAt[setting := issued] else setAt
  }

  function AllDated(setAt: map<Setting, int>, s: Body, issued: int, env: Env): map<Setting, int>
    requires s.SetPolicy?
  {
    var early := Dated(Dated(setAt, s, Threshold, issued, env), s, Cooldown, issued, env);
    Dated(Dated(early, s, Hysteresis, issued, env), s, Strategy, issued, env)
  }

  lemma {:induction false} InjectedDates(p: Policy, s: Body, setting: Setting, issued: int)
    requires s.SetPolicy?
    ensures Injected(p, s, setting, issued).setAt == if Sets(s, setting) then p.setAt[setting := issued] else p.setAt
  {
  }

  lemma {:induction false} DatesAre(p: Policy, issued: int, s: Body, env: Env)
    requires s.SetPolicy?
    ensures PolicyAfter(p, issued, s, env).0.setAt == AllDated(p.setAt, s, issued, env)
  {
    var p1 := Injected(p, s, Threshold, issued);
    var p2 := Injected(p1, s, Cooldown, issued);
    InjectedDates(p, s, Threshold, issued);
    InjectedDates(p1, s, Cooldown, issued);
    InjectedDates(p2, s, Hysteresis, issued);
    InjectedDates(Injected(p2, s, Hysteresis, issued), s, Strategy, issued);
  }

  /** A setting is dated anew exactly by a policy that gets as far as it. */
  lemma {:induction false} DatedIff(p: Policy, setting: Setting, issued: int, s: Body, env: Env)
    requires s.SetPolicy?
    ensures var q := PolicyAfter(p, issued, s, env).0;
            && (Reaches(s, setting, env) ==> setting in q.setAt && q.setAt[setting] == issued)
            && (!Reaches(s, setting, env) ==> (setting in q.setAt <==> setting in p.setAt) && (setting in p.setAt ==> q.setAt[setting] == p.setAt[setting]))
  {
    DatesAre(p, issued, s, env);
    DatedOne(p.setAt, s, setting, issued, env);
  }

  lemma {:induction false} DatedOne(m: map<Setting, int>, s: Body, setting: Setting, issued: int, env: Env)
    requires s.SetPolicy?
    ensures var n := AllDated(m, s, issued, env);
            && (Reaches(s, setting, env) ==> setting in n && n[setting] == issued)
            && (!Reaches(s, setting, env) ==> (setting in n <==> setting in m) && (setting in m ==> n[setting] == m[setting]))
  {
  }

  /** The setting has the value the command gives it. */
  predicate Carries(p: Policy, setting: Setting, s: Body)
    requires s.SetPolicy?
  {
    match setting
    case Threshold => p.threshold == Some(s.threshold)
    case Cooldown => p.cooldown == Some(s.cooldown)
    case Hysteresis => p.hysteresis == Some(s.hysteresis)
    case Strategy => p.strategy == s.strategy
  }

  predicate SameValue(p: Policy, q: Policy, setting: Setting) {
    match setting
    case Threshold => p.threshold == q.threshold
    case Cooldown => p.cooldown == q.cooldown
    case Hysteresis => p.hysteresis == q.hysteresis
    case Strategy => p.strategy == q.strategy
  }

  /** It carries that policy's value then and keeps its own otherwise, and only a policy
      that completes is remembered. */
  lemma {:induction false} InjectedAre(p: Policy, setting: Setting, issued: int, s: Body, env: Env)
    requires s.SetPolicy?
    ensures var (q, ok) := PolicyAfter(p, issued, s, env);
            && (if Reaches(s, setting, env) then Carries(q, setting, s) else SameValue(p, q, setting))
            && (ok <==> Completes(s, env))
            && q.last == if !ok || (p.last.Some? && issued <= p.last.value) then p.last else Some(issued)
  {
  }

  // ------------------------------------------------------------ one command

  /** The command passes the gate as a policy that is not stale. */
  predicate Applies(a: Agent, me: string, window: int, now: int, c: Command) {
    Gate(c, me, now, window).None? && c.body.SetPolicy? && !Stale(a.policy, c.issued.value)
  }

  lemma {:induction false} DeliverKeepsPolicy(a: Agent, me: string, id: string, d: Body, env: Env)
    requires d.Deliver?
    ensures Delivered(a, me, id, d, env).0.policy == a.policy
  {
  }

  lemma {:induction false} RecallKeepsPolicy(a: Agent, id: string, r: Body, env: Env)
    requires r.Recall?
    ensures Recalled(a, id, r, env).0.policy == a.policy
  {
  }

  lemma {:induction false} SetActiveKeepsPolicy(a: Agent, id: string, s: Body, env: Env)
    requires s.SetActive?
    ensures ActiveSet(a, id, s, env).0.policy == a.policy
  {
  }

  lemma {:induction false} PolicyOutcome(a: Agent, me: string, window: int, now: int, c: Command, env: Env)
    ensures Handled(a, me, window, now, c, env).0.policy ==
            if Applies(a, me, window, now, c) then PolicyAfter(a.policy, c.issued.value, c.body, env).0 else a.policy
  {
    if Gate(c, me, now, window).None? {
      match c.body
      case Deliver(_, _, _) => DeliverKeepsPolicy(a, me, c.id, c.body, env);
      case Recall(_, _) => RecallKeepsPolicy(a, c.id, c.body, env);
      case SetActive(_, _) => SetActiveKeepsPolicy(a, c.id, c.body, env);
      case SetPolicy(_, _, _, _) =>
    }
  }

  /** Exactly when handling a command leaves a setting to an older policy than before:
      the command passes the gate, is an older policy that gets as far as the setting,
      and no policy newer than it has converged in full. The setting then has the older
      policy's value. */
  lemma {:induction false} RewindIff(a: Agent, setting: Setting, me: string, window: int, now: int, c: Command, env: Env)
    requires setting in a.policy.setAt
    ensures var after := Handled(a, me, window, now, c, env).0.policy;
            && setting in after.setAt
            && (after.setAt[setting] < a.policy.setAt[setting] <==>
                  && Gate(c, me, now, window).None? && c.body.SetPolicy?
                  && c.issued.value < a.policy.setAt[setting]
                  && Reaches(c.body, setting, env)
                  && (a.policy.last.None? || a.policy.last.value <= c.issued.value))
            && (after.setAt[setting] < a.policy.setAt[setting] ==> Carries(after, setting, c.body))
  {
    PolicyOutcome(a, me, window, now, c, env);
    if Applies(a, me, window, now, c) {
      DatedIff(a.policy, setting, c.issued.value, c.body, env);
      InjectedAre(a.policy, setting, c.issued.value, c.body, env);
    }
  }

  // ------------------------------------------------------------ histories of policies

  /** The setting is not left to an older policy. */
  predicate NotBack(p: Policy, q: Policy, setting: Setting) {
    setting in p.setAt ==> setting in q.setAt && p.setAt[setting] <= q.setAt[setting]
  }

  /** The event is a policy that passes the gate, sets the setting and then fails. */
  ghost predicate HalfAppliedBy(a: Agent, setting: Setting, me: string, window: int, e: Event) {
    e.Receive? && Applies(a, me, window, e.now, e.c) && HalfApplied(a.policy, setting, e.c.issued.value, e.c.body, e.env)
  }

  /** Nothing after the hysteresis can fail, so only a threshold or a cooldown can be
      left half-applied. */
  lemma {:induction false} LateNeverHalf(p: Policy, setting: Setting, issued: int, s: Body, env: Env)
    requires s.SetPolicy? && (setting.Hysteresis? || setting.Strategy?)
    ensures !HalfApplied(p, setting, issued, s, env)
  {
  }

  lemma {:induction false} CommandCovers(a: Agent, setting: Setting, me: string, window: int, now: int, c: Command, env: Env)
    requires Covered(a.policy, setting)
    requires Applies(a, me, window, now, c) ==> !HalfApplied(a.policy, setting, c.issued.value, c.body, env)
    ensures var after := Handled(a, me, window, now, c, env).0.policy;
            Covered(after, setting) && NotBack(a.policy, after, setting)
  {
    PolicyOutcome(a, me, window, now, c, env);
    if Applies(a, me, window, now, c) {
      DatedIff(a.policy, setting, c.issued.value, c.body, env);
      InjectedAre(a.policy, setting, c.issued.value, c.body, env);
    }
  }

  lemma {:induction false} EventCovers(a: Agent, setting: Setting, me: string, window: int, e: Event)
    requires Covered(a.policy, setting) && !HalfAppliedBy(a, setting, me, window, e)
    ensures Covered(Stepped(a, me, window, e).policy, setting)
    ensures NotBack(a.policy, Stepped(a, me, window, e).policy, setting)
  {
    if e.Receive? {
      CommandCovers(a, setting, me, window, e.now, e.c, e.env);
    }
  }

  /** No event of the history half-applies the setting. */
  ghost predicate NoneHalfApplied(a: Agent, setting: Setting, me: string, window: int, events: seq<Event>) {
    events == [] ||
    (NoneHalfApplied(a, setting, me, window, events[..|events| - 1]) &&
     !HalfAppliedBy(After(a, me, window, events[..|events| - 1]), setting, me, window, events[|events| - 1]))
  }

  lemma {:induction false} StillCovered(a: Agent, setting: Setting, me: string, window: int, events: seq<Event>)
    requires Covered(a.policy, setting) && NoneHalfApplied(a, setting, me, window, events)
    ensures Covered(After(a, me, window, events).policy, setting)
  {
    if events != [] {
      var n := |events| - 1;
      StillCovered(a, setting, me, window, events[..n]);
      EventCovers(After(a, me, window, events[..n]), setting, me, window, events[n]);
    }
  }

  /** Only half-applied policies are in the way: in a history without any for a setting
      the policy in force for it never gets older, from any moment to any later one. */
  lemma {:induction false} NeverRewinds(a: Agent, setting: Setting, me: string, window: int, events: seq<Event>, i: nat)
    requires Covered(a.policy, setting) && NoneHalfApplied(a, setting, me, window, events) && i <= |events|
    ensures NotBack(After(a, me, window, events[..i]).policy, After(a, me, window, events).policy, setting)
  {
    var n := |events| - 1;
    if i == |events| {
      assert events[..i] == events;
    } else {
      assert events[..n][..i] == events[..i];
      NeverRewinds(a, setting, me, window, events[..n], i);
      StillCovered(a, setting, me, window, events[..n]);
      EventCovers(After(a, me, window, events[..n]), setting, me, window, events[n]);
    }
  }

  lemma {:induction false} LateNoneHalf(a: Agent, setting: Setting, me: string, window: int, events: seq<Event>)
    requires setting.Hysteresis? || setting.Strategy?
    ensures NoneHalfApplied(a, setting, me, window, events)
  {
    if events != [] {
      var n := |events| - 1;
      var before, e := After(a, me, window, events[..n]), events[n];
      LateNoneHalf(a, setting, me, window, events[..n]);
      if e.Receive? && Applies(before, me, window, e.now, e.c) {
        LateNeverHalf(before.policy, setting, e.c.issued.value, e.c.body, e.env);
      }
    }
  }

  /** The settings injected last never go back, in any history at all. */
  lemma {:induction false} LateSettingsNeverRewind(a: Agent, setting: Setting, me: string, window: int, events: seq<Event>, i: nat)
    requires (setting.Hysteresis? || setting.Strategy?) && Covered(a.policy, setting) && i <= |events|
    ensures NotBack(After(a, me, window, events[..i]).policy, After(a, me, window, events).policy, setting)
  {
    LateNoneHalf(a, setting, me, window, events);
    NeverRewinds(a, setting, me, window, events, i);
  }

  /** Without that condition they do: a newer policy sets the threshold, or the cooldown,
      and then fails, so it is not remembered, and an older policy handled after it, if
      no newer one had converged before, takes the setting back and is answered as
      converged. */
  lemma {:induction false} HalfAppliedRewinds(a: Agent, setting: Setting, me: string, window: int, newer: Event, older: Event)
    requires newer.Receive? && older.Receive? && HalfAppliedBy(a, setting, me, window, newer)
    requires Gate(older.c, me, older.now, window).None? && older.c.body.SetPolicy?
    requires older.c.issued.value < newer.c.issued.value
    requires a.policy.last.None? || a.policy.last.value <= older.c.issued.value
    requires Reaches(older.c.body, setting, older.env) && Completes(older.c.body, older.env)
    ensures var half := Handled(a, me, window, newer.now, newer.c, newer.env);
            var back := Handled(half.0, me, window, older.now, older.c, older.env);
            && half.1 == Ack(Diverged, "tsamx_config") && Carries(half.0.policy, setting, newer.c.body)
            && back.1 == Ack(Converged, "") && Carries(back.0.policy, setting, older.c.body)
            && !NotBack(half.0.policy, back.0.policy, setting)
  {
    DatedIff(a.policy, setting, newer.c.issued.value, newer.c.body, newer.env);
    InjectedAre(a.policy, setting, newer.c.issued.value, newer.c.body, newer.env);
    var half := Handled(a, me, window, newer.now, newer.c, newer.env).0;
    RewindIff(half, setting, me, window, older.now, older.c, older.env);
    InjectedAre(half.policy, setting, older.c.issued.value, older.c.body, older.env);
  }
}
