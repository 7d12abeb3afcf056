/** What a converged command has done to the agent, account by account: the one it
    names is as it asks, and nothing else has moved. */
module CommandEffects {
  import opened Collections
  import opened AppliedLog
  import opened Pools
  import opened Commands

  /** Every pool but one provider's, and the policy, are as before. */
  ghost predicate OthersKept(before: Agent, after: Agent, provider: string) {
    && after.pools.Keys == before.pools.Keys && after.policy == before.policy
    && forall q :: q in before.pools && q != provider ==> after.pools[q] == before.pools[q]
  }

  /** Within a pool, every account but one is as before. */
  ghost predicate SlotsKept(before: Pool, after: Pool, email: string) {
    forall x, on :: x != email ==> (Flagged(after, x, on) <==> Flagged(before, x, on))
  }

  /** The account is on or off, in the pool if it is there and in its record if it has
      one; the runner, every other account and every other record are as before. */
  ghost predicate SwitchedTo(before: Agent, after: Agent, ref: Ref, on: bool) {
    var provider := Normalize(ref.provider);
    && provider in before.pools && OthersKept(before, after, provider)
    && var (was, now) := (before.pools[provider], after.pools[provider]);
       && now.active == was.active && SlotsKept(was, now, ref.email)
       && (Has(was, ref.email) ==> Flagged(now, ref.email, on) && !Flagged(now, ref.email, !on))
       && (!Has(was, ref.email) ==> !Has(now, ref.email))
       && after.manifest.Keys == before.manifest.Keys
       && (forall id :: id in before.manifest && id != ref.id ==> after.manifest[id] == before.manifest[id])
       && (ref.id in before.manifest ==>
             && after.manifest[ref.id].status == (if on then Active else Inactive)
             && after.manifest[ref.id].email == before.manifest[ref.id].email
             && after.manifest[ref.id].provider == before.manifest[ref.id].provider)
  }

  lemma {:induction false} ToggledOne(p: Pool, email: string, on: bool)
    requires Valid(p)
    ensures Has(p, email) ==> Flagged(Toggled(p, email, on), email, on) && !Flagged(Toggled(p, email, on), email, !on)
    ensures !Has(p, email) ==> !Has(Toggled(p, email, on), email)
    ensures SlotsKept(p, Toggled(p, email, on), email) && Toggled(p, email, on).active == p.active
  {
    ToggledKeeps(p, email, on);
  }

  lemma {:induction false} TogglingSwitches(a: Agent, id: string, ref: Ref, on: bool, kind: string, desired: string, code: string, env: Env)
    requires Inv(a) && Normalize(ref.provider) in a.pools
    requires Toggling(a, id, ref, on, kind, desired, code, env).1.convergence == Converged
    ensures SwitchedTo(a, Toggling(a, id, ref, on, kind, desired, code, env).0, ref, on)
  {
    ToggledOne(a.pools[Normalize(ref.provider)], ref.email, on);
  }

  /** Which account a command asks to be switched on or off. */
  function Wanted(body: Body): Option<bool> {
    match body
    case Recall(_, purge) => if purge then None else Some(false)
    case SetActive(_, on) => Some(on)
    case _ => None
  }

  /** A recall that keeps the local copy switches the account off, an enable switches it
      on and a disable off, once the command converges for the first time; it converges
      exactly when the pool call works and the record, if there is one, can be written. */
  lemma {:induction false} SwitchesAccount(a: Agent, me: string, window: int, now: int, c: Command, env: Env, ref: Ref, on: bool)
    requires Inv(a) && EnvFits(env) && Wanted(c.body) == Some(on) && c.body.ref == Some(ref)
    requires c.signed && c.agent == me && c.issued.Some? && -window <= now - c.issued.value <= window
    requires ref.id != "" && !AlreadyApplied(a.log.entries, c.id)
    ensures var (after, ack) := Handled(a, me, window, now, c, env);
            && (ack.convergence == Converged <==>
                  && Normalize(ref.provider) in a.pools && env.toggle.Works?
                  && (ref.id in a.manifest ==> env.persistOk))
            && (ack.convergence == Converged ==> SwitchedTo(a, after, ref, on))
  {
    if Handled(a, me, window, now, c, env).1.convergence == Converged {
      if c.body.Recall? {
        TogglingSwitches(a, c.id, ref, false, "recall", "disable", "tsamx_disable", env);
      } else {
        TogglingSwitches(a, c.id, ref, on, "set_active", StatusName(if on then Active else Inactive), "tsamx_set_active", env);
      }
    }
  }

  /** A purge that converges for the first time takes the account's record and its slot
      and no other. */
  lemma {:induction false} PurgeFrame(a: Agent, me: string, window: int, now: int, c: Command, env: Env, ref: Ref)
    requires Inv(a) && EnvFits(env) && c.body == Recall(Some(ref), true) && !AlreadyApplied(a.log.entries, c.id)
    requires Handled(a, me, window, now, c, env).1.convergence == Converged
    ensures var after, provider := Handled(a, me, window, now, c, env).0, Normalize(ref.provider);
            && provider in a.pools && OthersKept(a, after, provider)
            && SlotsKept(a.pools[provider], after.pools[provider], ref.email)
            && !Has(after.pools[provider], ref.email)
            && after.manifest == a.manifest - {ref.id}
  {
    var p := a.pools[Normalize(ref.provider)];
    MovedKeeps(p, ref.email, env);
    TakenOutKeeps(p, ref.email, env);
  }

  lemma {:induction false} TakenOutKeeps(p: Pool, email: string, env: Env)
    requires Valid(p) && EnvFits(env) && MovedAway(p, email, env).1
    requires TakenOut(MovedAway(p, email, env).0, email, env).1
    ensures SlotsKept(p, TakenOut(MovedAway(p, email, env).0, email, env).0, email)
    ensures !Has(TakenOut(MovedAway(p, email, env).0, email, env).0, email)
  {
    var moved := MovedAway(p, email, env).0;
    MovedKeeps(p, email, env);
    assert moved.slots == p.slots;
    RemovedKeeps(moved, email);
  }

  /** A deliver that runs its effect and converges writes the account's record and no
      other, and touches no other pool. */
  lemma {:induction false} DeliverFrame(a: Agent, me: string, window: int, now: int, c: Command, env: Env, ref: Ref)
    requires Inv(a) && EnvFits(env) && c.body.Deliver? && c.body.ref == Some(ref)
    requires Handled(a, me, window, now, c, env).1.convergence == Converged
    requires Normalize(ref.provider) in a.pools ==> !SeenAsDesired(a, c.id, ref, c.body.desired, env)
    ensures var after := Handled(a, me, window, now, c, env).0;
            && OthersKept(a, after, Normalize(ref.provider))
            && after.manifest == a.manifest[ref.id := Record(ref.email, ref.provider, c.body.desired)]
  {
  }

  // ------------------------------------------------------------ what converges

  /** The credential is addressed to this account and this agent, or claims neither. */
  predicate Addressed(d: Body, me: string)
    requires d.Deliver? && d.ref.Some?
  {
    && d.envelope.Some?
    && (d.envelope.value.account == "" || d.envelope.value.account == d.ref.value.id)
    && (d.envelope.value.agent == "" || d.envelope.value.agent == me)
  }

  /** Every call a deliver makes for its effect succeeds: opening, sealing, writing the
      record, adding, and going back to another live account if there was one. */
  predicate EffectWorks(p: Pool, email: string, env: Env) {
    && env.hasKeys && env.keyHeld && env.opens && env.seals && env.persistOk
    && env.add.Works? && env.statusOk
    && (p.active == "" || p.active == email || env.switch.Works?)
  }

  lemma {:induction false} InstallConvergesIff(a: Agent, id: string, ref: Ref, desired: Status, env: Env)
    requires Inv(a) && ref.email != "" && Normalize(ref.provider) in a.pools
    ensures var p := a.pools[Normalize(ref.provider)];
            Install(a, id, ref, desired, env).1.convergence == Converged <==>
            env.add.Works? && env.statusOk && (p.active == "" || p.active == ref.email || env.switch.Works?)
  {
    AddedActive(a.pools[Normalize(ref.provider)], ref.email, desired == Active);
  }

  /** A deliver converges exactly when it names an account of a registered provider, its
      credential is addressed here, and it was seen to have converged before or every
      call of its effect succeeds. */
  lemma {:induction false} DeliverConvergesIff(a: Agent, me: string, id: string, d: Body, env: Env, ref: Ref)
    requires Inv(a) && d.Deliver? && d.ref == Some(ref)
    ensures Delivered(a, me, id, d, env).1.convergence == Converged <==>
            && ref.id != "" && ref.email != "" && Normalize(ref.provider) in a.pools && Addressed(d, me)
            && (SeenAsDesired(a, id, ref, d.desired, env) || EffectWorks(a.pools[Normalize(ref.provider)], ref.email, env))
  {
    if ref.email != "" && Normalize(ref.provider) in a.pools {
      InstallConvergesIff(a.(manifest := a.manifest[ref.id := Record(ref.email, ref.provider, d.desired)]), id, ref, d.desired, env);
    }
  }

  /** The runner must be moved first: it is on the account and there is another. */
  ghost predicate MustMove(p: Pool, email: string, env: Env) {
    && env.statusOk && env.listOk && p.active == email
    && exists i :: 0 <= i < |p.slots| && p.slots[i].email != "" && p.slots[i].email != email
  }

  lemma {:induction false} MovedIff(p: Pool, email: string, env: Env)
    requires Valid(p)
    ensures MovedAway(p, email, env).1 <==> !MustMove(p, email, env) || env.switch.Works?
    ensures MovedAway(p, email, env).1 ==> (Has(MovedAway(p, email, env).0, email) <==> Has(p, email))
  {
    OtherTargetBest(p, email);
    var target := OtherTarget(p, email);
    if target == "" {
      assert forall i :: 0 <= i < |p.slots| ==> !IsOther(p.slots[i], email);
    } else {
      var i :| 0 <= i < |p.slots| && p.slots[i].email == target;
      assert p.slots[i].email != "" && p.slots[i].email != email;
    }
  }

  /** A purge converges exactly when the runner can be moved off the account if it must
      be, the slot is seen gone or can be removed, and the record, if there is one, can be
      dropped. */
  lemma {:induction false} PurgeConvergesIff(a: Agent, id: string, ref: Ref, env: Env)
    requires Inv(a) && ref.id != "" && Normalize(ref.provider) in a.pools && !AlreadyApplied(a.log.entries, id)
    ensures var p := a.pools[Normalize(ref.provider)];
            Recalled(a, id, Recall(Some(ref), true), env).1.convergence == Converged <==>
            && (MustMove(p, ref.email, env) ==> env.switch.Works?)
            && ((env.secondListOk && !Has(p, ref.email)) || env.remove.Works?)
            && (ref.id in a.manifest ==> env.persistOk)
  {
    MovedIff(a.pools[Normalize(ref.provider)], ref.email, env);
  }
}
