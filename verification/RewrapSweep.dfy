/** What one sweep of the rewrap script does to each account it meets, and what a
    sweep nobody disturbs achieves. */
module RewrapSweep {
  import opened Collections
  import opened Crypto
  import opened Rewrap

  /** The account has a secret in the format the sweep converts from. */
  predicate Unconverted(s: Setup, secrets: map<nat, string>, id: nat) {
    id in secrets && secrets[id] != "" && IsV2(secrets[id]) == s.reverse
  }

  predicate Legible(s: Setup, secrets: map<nat, string>, id: nat) {
    id in secrets && DecryptSecret(s.p, s.deks, s.owner(id), secrets[id]).Text?
  }

  /** The account is converted: the same plaintext, in the format the sweep wants. */
  ghost predicate Converted(s: Setup, was: map<nat, string>, now: map<nat, string>, id: nat) {
    && id in was && id in now && IsV2(now[id]) == !s.reverse
    && DecryptSecret(s.p, s.deks, s.owner(id), now[id]) == DecryptSecret(s.p, s.deks, s.owner(id), was[id])
  }

  ghost predicate OthersSame(was: map<nat, string>, now: map<nat, string>, id: nat) {
    now.Keys == was.Keys && forall x :: x in was && x != id ==> now[x] == was[x]
  }

  /** Nobody else writes while the sweep runs. */
  ghost predicate Undisturbed(s: Setup) {
    forall i: nat, secrets: map<nat, string> :: s.others.before(i, secrets) == secrets && s.others.between(i, secrets) == secrets
  }

  // ------------------------------------------------------------ one account

  /** A legible account in the old format that the sweep can write: it is planned anew. */
  lemma {:induction false} PlansWrite(s: Setup, secrets: map<nat, string>, i: nat, id: nat)
    requires Correct(s.p) && UniqueVersions(s.deks) && (s.reverse || s.flag)
    requires Unconverted(s, secrets, id) && Legible(s, secrets, id) && !Unwritable(s, secrets, id)
    ensures PlanFor(s.p, s.deks, s.owner(id), secrets[id], s.reverse, s.flag, s.salt(i)).Writes?
  {
    var text := DecryptSecret(s.p, s.deks, s.owner(id), secrets[id]).value;
    FormatFollowsFlag(s.p, s.deks, s.owner(id), text, s.flag, s.salt(i));
    WhenWritingFails(s.p, s.deks, s.owner(id), text, s.flag, s.salt(i));
    assert Keyless(s, s.owner(id)) <==> forall a :: ActiveDek(s.deks, s.owner(id)) == Some(a) ==> Unwrapped(s.p, a).None?;
  }

  /** An account without a secret does not count; one already in the wanted format is
      skipped; an illegible one fails. None of them is touched. */
  lemma {:induction false} LeavesAccount(s: Setup, secrets: map<nat, string>, r: Report, i: nat, id: nat)
    requires var seen := s.others.before(i, secrets); Unconverted(s, seen, id) ==> !Legible(s, seen, id)
    ensures var seen := s.others.before(i, secrets);
            SweptOne(s, secrets, r, i, id) ==
            (seen, if id !in seen || seen[id] == "" then r
                   else if !Unconverted(s, seen, id) then r.(scanned := r.scanned + 1, skipped := r.skipped + 1)
                   else r.(scanned := r.scanned + 1, failed := r.failed + 1))
  {
  }

  lemma {:induction false} SwapsPlanned(s: Setup, secrets: map<nat, string>, r: Report, i: nat, id: nat, secret: string)
    requires var seen := s.others.before(i, secrets);
             && id in seen && seen[id] != "" && !s.dryRun
             && PlanFor(s.p, s.deks, s.owner(id), seen[id], s.reverse, s.flag, s.salt(i)) == Writes(secret)
    ensures var seen := s.others.before(i, secrets); var met := s.others.between(i, seen);
            SweptOne(s, secrets, r, i, id) ==
            if id in met && met[id] == seen[id] then (met[id := secret], r.(scanned := r.scanned + 1, rewrapped := r.rewrapped + 1))
            else (met, r.(scanned := r.scanned + 1, raced := r.raced + 1))
  {
  }

  /** A legible account in the old format is converted and counted, unless its secret has
      changed since the read: then it is left alone and counted as raced. No other account
      is touched either way. */
  lemma {:induction false} ConvertsAccount(s: Setup, secrets: map<nat, string>, r: Report, i: nat, id: nat)
    requires Correct(s.p) && UniqueVersions(s.deks) && (s.reverse || s.flag) && !s.dryRun
    requires var seen := s.others.before(i, secrets);
             Unconverted(s, seen, id) && Legible(s, seen, id) && !Unwritable(s, seen, id)
    ensures var seen := s.others.before(i, secrets); var met := s.others.between(i, seen);
            var (now, after) := SweptOne(s, secrets, r, i, id);
            if id in met && met[id] == seen[id] then
              Converted(s, met, now, id) && OthersSame(met, now, id) && after == r.(scanned := r.scanned + 1, rewrapped := r.rewrapped + 1)
            else now == met && after == r.(scanned := r.scanned + 1, raced := r.raced + 1)
  {
    var seen := s.others.before(i, secrets);
    PlansWrite(s, seen, i, id);
    var plan := PlanFor(s.p, s.deks, s.owner(id), seen[id], s.reverse, s.flag, s.salt(i));
    PlanPreservesText(s.p, s.deks, s.owner(id), seen[id], s.reverse, s.flag, s.salt(i));
    SwapsPlanned(s, secrets, r, i, id, plan.secret);
  }

  /** A dry run writes nothing. */
  lemma {:induction false} DryRunWritesNothing(s: Setup, secrets: map<nat, string>, ids: seq<nat>)
    requires s.dryRun && Undisturbed(s)
    ensures Swept(s, secrets, ids).0 == secrets
  {
    if ids != [] {
      var n := |ids| - 1;
      DryRunWritesNothing(s, secrets, ids[..n]);
      assert s.others.before(n, secrets) == secrets;
    }
  }

  // ------------------------------------------------------------ a sweep nobody disturbs

  /** The table is as before but for conversions of the given accounts. */
  ghost predicate OnlyConverts(s: Setup, was: map<nat, string>, now: map<nat, string>, ids: seq<nat>) {
    && now.Keys == was.Keys
    && forall x :: x in was ==> now[x] == was[x] || (x in ids && Unconverted(s, was, x) && Converted(s, was, now, x))
  }

  ghost predicate AllConverted(s: Setup, was: map<nat, string>, now: map<nat, string>, ids: seq<nat>) {
    forall x :: x in ids && Unconverted(s, was, x) && Legible(s, was, x) ==> Converted(s, was, now, x)
  }

  ghost predicate AllWritable(s: Setup, secrets: map<nat, string>) {
    forall id :: !Unwritable(s, secrets, id)
  }

  /** How many of the accounts are to be converted. */
  ghost function ToConvert(s: Setup, secrets: map<nat, string>, ids: seq<nat>): nat {
    if ids == [] then 0
    else
      var id := ids[|ids| - 1];
      ToConvert(s, secrets, ids[..|ids| - 1]) + if Unconverted(s, secrets, id) && Legible(s, secrets, id) then 1 else 0
  }

  ghost predicate Done(s: Setup, was: map<nat, string>, ids: seq<nat>, now: map<nat, string>, r: Report) {
    && OnlyConverts(s, was, now, ids) && AllConverted(s, was, now, ids)
    && !r.aborted && r.raced == 0 && r.rewrapped == ToConvert(s, was, ids)
  }

  lemma {:induction false} DoneOneMore(s: Setup, was: map<nat, string>, ids: seq<nat>, id: nat, now: map<nat, string>, r: Report, i: nat)
    requires Correct(s.p) && UniqueVersions(s.deks) && (s.reverse || s.flag) && !s.dryRun && Undisturbed(s)
    requires AllWritable(s, was) && Done(s, was, ids, now, r) && id !in ids
    ensures var (t, q) := SweptOne(s, now, r, i, id); Done(s, was, ids + [id], t, q)
  {
    var (t, q) := SweptOne(s, now, r, i, id);
    assert s.others.before(i, now) == now && s.others.between(i, now) == now;
    assert (ids + [id])[..|ids|] == ids;
    assert forall x :: x in ids + [id] <==> x in ids || x == id;
    assert id in was ==> now[id] == was[id];
    assert !Unwritable(s, was, id);
    if Unconverted(s, now, id) && Legible(s, now, id) {
      ConvertsAccount(s, now, r, i, id);
      assert Converted(s, was, t, id);
    } else {
      LeavesAccount(s, now, r, i, id);
    }
  }

  /** An undisturbed sweep over distinct accounts whose tenants have usable keys converts
      every legible account in the old format, keeps every plaintext, touches nothing
      else, and reports exactly as many as it converted. */
  lemma {:induction false} UndisturbedSweep(s: Setup, secrets: map<nat, string>, ids: seq<nat>)
    requires Correct(s.p) && UniqueVersions(s.deks) && (s.reverse || s.flag) && !s.dryRun && Undisturbed(s)
    requires AllWritable(s, secrets) && forall i, j :: 0 <= i < j < |ids| ==> ids[i] != ids[j]
    ensures var (now, r) := Swept(s, secrets, ids); Done(s, secrets, ids, now, r)
  {
    if ids != [] {
      var n := |ids| - 1;
      UndisturbedSweep(s, secrets, ids[..n]);
      var (now, r) := Swept(s, secrets, ids[..n]);
      assert ids == ids[..n] + [ids[n]];
      DoneOneMore(s, secrets, ids[..n], ids[n], now, r, n);
    }
  }
}
