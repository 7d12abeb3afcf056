/** How long a row of the webhook outbox is left alone: while its lease runs, and
    after a failed post until its backoff is over. */
module WebhookLease {
  import opened Collections
  import opened Webhook

  /** What a reservation does to the rows it takes: due again when the lease ends, under
      the new token, else as they were; no other row changes. */
  lemma {:induction false} ReserveLeases(w: World, picks: set<nat>, now: int, id: nat)
    requires Inv(w) && Enabled(w, Reserve(picks, now)) && id in w.rows
    ensures var r, after := w.rows[id], Next(w, Reserve(picks, now)).rows;
            && after.Keys == w.rows.Keys
            && (id in picks ==> after[id] == Row(r.body, r.attempt, now + LEASE, Some(w.minted)))
            && (id !in picks ==> after[id] == r)
  {
  }

  /** What settling does to a row that failed and may be tried again. */
  lemma {:induction false} FailureBacksOff(w: World, token: nat, ok: set<nat>, now: int, id: nat)
    requires Inv(w) && Enabled(w, Finalize(token, ok, now)) && id in w.rows && Owned(w.rows, token, id)
    requires id in w.flights[token] && id !in ok && w.rows[id].attempt + 1 < MAX_ATTEMPTS
    ensures var r, after := w.rows[id], Next(w, Finalize(token, ok, now)).rows;
            && id in after
            && after[id] == Row(r.body, r.attempt + 1, now + BackoffSeconds(r.attempt + 1), r.lease)
            && now + BACKOFF_BASE <= after[id].due <= now + BACKOFF_CAP
  {
    SettledRow(w, token, ok, now, id);
    BackoffGrows(w.rows[id].attempt + 1, w.rows[id].attempt + 1);
  }

  // ------------------------------------------------------------ onward from any state

  ghost predicate Continues(w: World, more: seq<Step>)
    decreases |more|, 0
  {
    more == [] || (Continues(w, more[..|more| - 1]) && Enabled(Onward(w, more[..|more| - 1]), more[|more| - 1]))
  }

  ghost function Onward(w: World, more: seq<Step>): World
    requires Continues(w, more)
    decreases |more|, 1
  {
    if more == [] then w else Next(Onward(w, more[..|more| - 1]), more[|more| - 1])
  }

  lemma {:induction false} OnwardKeeps(w: World, more: seq<Step>)
    requires Inv(w) && Continues(w, more)
    ensures Inv(Onward(w, more))
  {
    if more != [] {
      OnwardKeeps(w, more[..|more| - 1]);
      StepKeeps(Onward(w, more[..|more| - 1]), more[|more| - 1]);
    }
  }

  /** Every reservation of the run comes before the given time. */
  predicate ReservesBefore(more: seq<Step>, time: int) {
    forall s :: s in more && s.Reserve? ==> s.now < time
  }

  predicate Settles(more: seq<Step>, token: nat) {
    exists s :: s in more && s.Finalize? && s.token == token
  }

  lemma {:induction false} OneStepLeaves(w: World, step: Step, id: nat)
    requires Inv(w) && Enabled(w, step) && id in w.rows
    requires step.Reserve? ==> step.now < w.rows[id].due
    requires step.Finalize? ==> w.rows[id].lease != Some(step.token)
    ensures id in Next(w, step).rows && Next(w, step).rows[id] == w.rows[id]
  {
    assert RowFits(w, id);
    if step.Finalize? {
      SettledRow(w, step.token, step.ok, step.now, id);
    }
  }

  /** Until it is due a row stays exactly as it is, whatever the instances do, unless the
      batch holding its token settles it. */
  lemma {:induction false} LeftAlone(w: World, more: seq<Step>, id: nat)
    requires Inv(w) && Continues(w, more) && id in w.rows && ReservesBefore(more, w.rows[id].due)
    requires w.rows[id].lease.Some? ==> !Settles(more, w.rows[id].lease.value)
    ensures id in Onward(w, more).rows && Onward(w, more).rows[id] == w.rows[id]
  {
    if more != [] {
      var less, step := more[..|more| - 1], more[|more| - 1];
      assert step in more && forall s :: s in less ==> s in more;
      LeftAlone(w, less, id);
      OnwardKeeps(w, less);
      OneStepLeaves(Onward(w, less), step, id);
    }
  }

  /** A leased row is reserved by nobody else before the lease ends. */
  lemma {:induction false} LeaseHolds(w: World, picks: set<nat>, now: int, more: seq<Step>, again: set<nat>, later: int, id: nat)
    requires Inv(w) && Enabled(w, Reserve(picks, now)) && id in picks
    requires Continues(Next(w, Reserve(picks, now)), more) && ReservesBefore(more, now + LEASE) && !Settles(more, w.minted)
    requires later < now + LEASE && Enabled(Onward(Next(w, Reserve(picks, now)), more), Reserve(again, later))
    ensures id !in again
    ensures Owned(Onward(Next(w, Reserve(picks, now)), more).rows, w.minted, id)
  {
    var leased := Next(w, Reserve(picks, now));
    assert Due(w.rows, id, now);
    ReserveKeeps(w, picks, now);
    ReserveLeases(w, picks, now, id);
    LeftAlone(leased, more, id);
    assert !Due(Onward(leased, more).rows, id, later);
  }

  /** A token that is settled is out for good. */
  lemma {:induction false} SettledOnce(w: World, token: nat, more: seq<Step>)
    requires Inv(w) && Continues(w, more) && token !in w.flights && token < w.minted
    ensures !Settles(more, token) && token !in Onward(w, more).flights && token < Onward(w, more).minted
  {
    if more != [] {
      var less, step := more[..|more| - 1], more[|more| - 1];
      SettledOnce(w, token, less);
      assert Enabled(Onward(w, less), step);
      assert forall s :: s in more ==> s in less || s == step;
    }
  }

  /** A failed row is not tried again before its backoff is over. */
  lemma {:induction false} BackoffHolds(w: World, token: nat, ok: set<nat>, now: int, more: seq<Step>, again: set<nat>, later: int, id: nat)
    requires Inv(w) && Enabled(w, Finalize(token, ok, now)) && id in w.rows && Owned(w.rows, token, id)
    requires id in w.flights[token] && id !in ok && w.rows[id].attempt + 1 < MAX_ATTEMPTS
    requires var due := now + BackoffSeconds(w.rows[id].attempt + 1);
             && Continues(Next(w, Finalize(token, ok, now)), more) && ReservesBefore(more, due)
             && later < due && Enabled(Onward(Next(w, Finalize(token, ok, now)), more), Reserve(again, later))
    ensures id !in again
  {
    var settled := Next(w, Finalize(token, ok, now));
    FinalizeKeeps(w, token, ok, now);
    FailureBacksOff(w, token, ok, now, id);
    SettledOnce(settled, token, more);
    LeftAlone(settled, more, id);
    assert !Due(Onward(settled, more).rows, id, later);
  }
}
