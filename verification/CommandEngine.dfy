/** The command handlers as the agent runs them: one object per agent, its pools, its
    manifest, its applied ring and its policy changed step by step. */
module CommandEngine {
  import opened Collections
  import opened AppliedLog
  import opened Pools
  import opened Commands

  class Engine {
    const me: string
    const window: int
    var pools: map<string, Pool>
    var manifest: map<string, Record>
    var policy: Policy
    const applied: AppliedRing

    function View(): Agent
      reads this, applied
    {
      Agent(pools, manifest, applied.Value(), policy)
    }

    constructor (me: string, window: int, pools: map<string, Pool>, applied: AppliedRing)
      ensures this.me == me && this.window == window && this.applied == applied
      ensures this.pools == pools && manifest == map[] && policy == NO_POLICY
    {
      this.me, this.window, this.pools, this.applied := me, window, pools, applied;
      manifest := map[];
      policy := NO_POLICY;
    }

    method Finish(id: string, kind: string, target: string, desired: string, convergence: Convergence, code: string, io: bool) returns (ack: Ack)
      modifies applied
      ensures (View(), ack) == Ended(old(View()), id, kind, target, desired, Ack(convergence, code), io)
    {
      ack := Ack(convergence, code);
      var _ := applied.Append(Entry(id, kind, target, desired, convergence), io);
    }

    method HandleDeliver(id: string, d: Body, env: Env) returns (ack: Ack)
      requires d.Deliver?
      modifies this, applied
      ensures (View(), ack) == Delivered(old(View()), me, id, d, env)
    {
      if d.ref.None? || d.ref.value.id == "" || d.ref.value.email == "" {
        return Ack(Rejected, "bad_account");
      }
      var ref := d.ref.value;
      var provider := Normalize(ref.provider);
      if provider !in pools {
        ack := Finish(id, "deliver", ref.id, "", Diverged, "provider_unsupported", env.logOk);
        return;
      }
      if d.envelope.None? {
        return Ack(Rejected, "bad_envelope");
      }
      var envelope := d.envelope.value;
      if envelope.account != "" && envelope.account != ref.id {
        return Ack(Rejected, "aad_mismatch");
      }
      if envelope.agent != "" && envelope.agent != me {
        return Ack(Rejected, "aad_mismatch");
      }
      var seen := applied.Find(id);
      if seen.Some? && ref.id in manifest && manifest[ref.id].status == d.desired && env.listOk
         && Flagged(pools[provider], ref.email, d.desired == Active) {
        return Ack(Converged, "");
      }
      if !env.hasKeys || !env.keyHeld {
        return Ack(Rejected, "no_kek");
      }
      if !env.opens {
        return Ack(Rejected, "decrypt_failed");
      }
      if !env.seals {
        return Ack(Diverged, "manifest_upsert");
      }
      manifest := manifest[ref.id := Record(ref.email, ref.provider, d.desired)];
      if !env.persistOk {
        return Ack(Diverged, "manifest_upsert");
      }
      ack := InstallAccount(id, ref, d.desired, env);
    }

    /** Add makes the new slot live, so the account that was live is switched back to. */
    method InstallAccount(id: string, ref: Ref, desired: Status, env: Env) returns (ack: Ack)
      requires Normalize(ref.provider) in pools
      modifies this`pools, applied
      ensures (View(), ack) == Install(old(View()), id, ref, desired, env)
    {
      var provider := Normalize(ref.provider);
      var live := if env.statusOk then pools[provider].active else "";
      if env.add.Fails? {
        pools := pools[provider := env.add.left];
        ack := Finish(id, "deliver", ref.id, StatusName(desired), Diverged, "tsamx_add", env.logOk);
        return;
      }
      pools := pools[provider := Added(pools[provider], ref.email, desired == Active)];
      ack := RestoreLive(id, ref, desired, live, env);
    }

    method RestoreLive(id: string, ref: Ref, desired: Status, live: string, env: Env) returns (ack: Ack)
      requires Normalize(ref.provider) in pools
      modifies this`pools, applied
      ensures (View(), ack) == AfterAdd(old(View()), id, ref, desired, live, env)
    {
      var provider := Normalize(ref.provider);
      assert pools == pools[provider := pools[provider]];
      if !env.statusOk {
        ack := Finish(id, "deliver", ref.id, StatusName(desired), Diverged, "active_unknown", env.logOk);
        return;
      }
      if live != "" && live != ref.email {
        var ok := SwitchTo(provider, live, env.switch);
        if !ok {
          ack := Finish(id, "deliver", ref.id, StatusName(desired), Diverged, "tsamx_restore_active", env.logOk);
          return;
        }
      }
      ack := Finish(id, "deliver", ref.id, StatusName(desired), Converged, "", env.logOk);
    }

    method SwitchTo(provider: string, target: string, e: Effect) returns (ok: bool)
      requires provider in pools
      modifies this`pools
      ensures ok == Switching(old(pools)[provider], target, e).1
      ensures pools == old(pools)[provider := Switching(old(pools)[provider], target, e).0]
    {
      assert pools == pools[provider := pools[provider]];
      if e.Fails? {
        pools := pools[provider := e.left];
        return false;
      }
      if !Has(pools[provider], target) {
        return false;
      }
      pools := pools[provider := pools[provider].(active := target)];
      return true;
    }

    method HandleRecall(id: string, r: Body, env: Env) returns (ack: Ack)
      requires r.Recall?
      modifies this, applied
      ensures (View(), ack) == Recalled(old(View()), id, r, env)
    {
      if r.ref.None? || r.ref.value.id == "" {
        return Ack(Rejected, "bad_account");
      }
      var ref := r.ref.value;
      if Normalize(ref.provider) !in pools {
        ack := Finish(id, "recall", ref.id, "", Diverged, "provider_unsupported", env.logOk);
        return;
      }
      var seen := applied.Find(id);
      if seen.Some? && seen.value.convergence == Converged {
        return Ack(Converged, "");
      }
      if r.purge {
        ack := PurgeAccount(id, ref, env);
      } else {
        ack := ToggleAccount(id, ref, false, "recall", "disable", "tsamx_disable", env);
      }
    }

    method PurgeAccount(id: string, ref: Ref, env: Env) returns (ack: Ack)
      requires Normalize(ref.provider) in pools
      modifies this`pools, this`manifest, applied
      ensures (View(), ack) == Purged(old(View()), id, ref, env)
    {
      var provider := Normalize(ref.provider);
      var ok := MoveAway(provider, ref.email, env);
      if !ok {
        ack := Finish(id, "recall", ref.id, "purge", Diverged, "tsamx_switch_before_purge", env.logOk);
        return;
      }
      ghost var moved := pools[provider];
      ok := TakeOut(provider, ref.email, env);
      MapTwice(old(pools), provider, moved, pools[provider]);
      if !ok {
        ack := Finish(id, "recall", ref.id, "purge", Diverged, "tsamx_remove", env.logOk);
        return;
      }
      var held := ref.id in manifest;
      manifest := manifest - {ref.id};
      if held && !env.persistOk {
        ack := Finish(id, "recall", ref.id, "purge", Diverged, "manifest_remove", env.logOk);
        return;
      }
      ack := Finish(id, "recall", ref.id, "purge", Converged, "", env.logOk);
    }

    method MoveAway(provider: string, email: string, env: Env) returns (ok: bool)
      requires provider in pools
      modifies this`pools
      ensures ok == MovedAway(old(pools)[provider], email, env).1
      ensures pools == old(pools)[provider := MovedAway(old(pools)[provider], email, env).0]
    {
      assert pools == pools[provider := pools[provider]];
      ok := true;
      if env.statusOk && pools[provider].active == email {
        var target := if env.listOk then OtherTarget(pools[provider], email) else "";
        if target != "" {
          ok := SwitchTo(provider, target, env.switch);
        }
      }
    }

    method TakeOut(provider: string, email: string, env: Env) returns (ok: bool)
      requires provider in pools
      modifies this`pools
      ensures ok == TakenOut(old(pools)[provider], email, env).1
      ensures pools == old(pools)[provider := TakenOut(old(pools)[provider], email, env).0]
    {
      assert pools == pools[provider := pools[provider]];
      if !env.secondListOk || Has(pools[provider], email) {
        if env.remove.Fails? {
          pools := pools[provider := env.remove.left];
          return false;
        }
        pools := pools[provider := Removed(pools[provider], email)];
      }
      return true;
    }

    method ToggleAccount(id: string, ref: Ref, on: bool, kind: string, desired: string, code: string, env: Env) returns (ack: Ack)
      requires Normalize(ref.provider) in pools
      modifies this`pools, this`manifest, applied
      ensures (View(), ack) == Toggling(old(View()), id, ref, on, kind, desired, code, env)
    {
      var provider := Normalize(ref.provider);
      if env.toggle.Fails? {
        pools := pools[provider := env.toggle.left];
        ack := Finish(id, kind, ref.id, desired, Diverged, code, env.logOk);
        return;
      }
      pools := pools[provider := Toggled(pools[provider], ref.email, on)];
      if ref.id in manifest {
        manifest := manifest[ref.id := manifest[ref.id].(status := if on then Active else Inactive)];
        if !env.persistOk {
          ack := Finish(id, kind, ref.id, desired, Diverged, "manifest_status", env.logOk);
          return;
        }
      }
      ack := Finish(id, kind, ref.id, desired, Converged, "", env.logOk);
    }

    method HandleSetActive(id: string, s: Body, env: Env) returns (ack: Ack)
      requires s.SetActive?
      modifies this, applied
      ensures (View(), ack) == ActiveSet(old(View()), id, s, env)
    {
      if s.ref.None? || s.ref.value.id == "" {
        return Ack(Rejected, "bad_account");
      }
      var ref := s.ref.value;
      var desired := StatusName(if s.on then Active else Inactive);
      if Normalize(ref.provider) !in pools {
        ack := Finish(id, "set_active", ref.id, desired, Diverged, "provider_unsupported", env.logOk);
        return;
      }
      var seen := applied.Find(id);
      if seen.Some? && seen.value.convergence == Converged {
        return Ack(Converged, "");
      }
      ack := ToggleAccount(id, ref, s.on, "set_active", desired, "tsamx_set_active", env);
    }

    method HandleSetPolicy(id: string, issued: int, s: Body, env: Env) returns (ack: Ack)
      requires s.SetPolicy?
      modifies this`policy, applied
      ensures (View(), ack) == PolicySet(old(View()), id, issued, s, env)
    {
      if policy.last.Some? && issued < policy.last.value {
        ack := Finish(id, "set_policy", "", s.strategy, Converged, "", env.logOk);
        return;
      }
      var ok := InjectPolicy(issued, s, env);
      if ok {
        ack := Finish(id, "set_policy", "", s.strategy, Converged, "", env.logOk);
      } else {
        ack := Finish(id, "set_policy", "", "", Diverged, "tsamx_config", env.logOk);
      }
    }

    method InjectPolicy(issued: int, s: Body, env: Env) returns (ok: bool)
      requires s.SetPolicy?
      modifies this`policy
      ensures (policy, ok) == PolicyAfter(old(policy), issued, s, env)
    {
      if s.threshold > 0.0 {
        if !env.thresholdOk {
          return false;
        }
        policy := policy.(threshold := Some(s.threshold), setAt := policy.setAt[Threshold := issued]);
      }
      if s.cooldown >= 0.0 {
        if !env.cooldownOk {
          return false;
        }
        policy := policy.(cooldown := Some(s.cooldown), setAt := policy.setAt[Cooldown := issued]);
      }
      if s.hysteresis >= 0.0 {
        if !env.hysteresisOk {
          return false;
        }
        policy := policy.(hysteresis := Some(s.hysteresis), setAt := policy.setAt[Hysteresis := issued]);
      }
      if s.strategy != "" {
        policy := policy.(strategy := s.strategy, setAt := policy.setAt[Strategy := issued]);
      }
      if policy.last.None? || issued > policy.last.value {
        policy := policy.(last := Some(issued));
      }
      return true;
    }

    /** Signature, recipient and freshness are checked, in this order, before any
        handler sees the command. */
    method Handle(now: int, c: Command, env: Env) returns (ack: Ack)
      modifies this, applied
      ensures (View(), ack) == Handled(old(View()), me, window, now, c, env)
    {
      if !c.signed {
        return Ack(Rejected, "signature_invalid");
      }
      if c.agent != me {
        return Ack(Rejected, "wrong_recipient");
      }
      if c.issued.None? || Distance(now, c.issued.value) > window {
        return Ack(Rejected, "stale_command");
      }
      match c.body
      case Deliver(_, _, _) => ack := HandleDeliver(c.id, c.body, env);
      case Recall(_, _) => ack := HandleRecall(c.id, c.body, env);
      case SetActive(_, _) => ack := HandleSetActive(c.id, c.body, env);
      case SetPolicy(_, _, _, _) => ack := HandleSetPolicy(c.id, c.issued.value, c.body, env);
    }
  }

  lemma {:induction false} MapTwice(m: map<string, Pool>, k: string, a: Pool, b: Pool)
    ensures m[k := a][k := b] == m[k := b]
  {
  }
}
