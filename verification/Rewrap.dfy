/** The batch rewrap of stored credentials between the two formats, racing writers,
    rotations and other sweeps; every write is a compare-and-swap. */
module Rewrap {
  import opened Collections
  import opened Crypto

  // ------------------------------------------------------------ one account

  datatype Plan = Skips | FailsDecrypt | FailsFormat | Aborts | Writes(secret: string)

  /** What the sweep decides about a secret it has read. A forward sweep wants the
      envelope format, a reverse sweep the legacy one. */
  function PlanFor(p: Primitives, deks: seq<Dek>, tenant: string, secret: string, reverse: bool, flag: bool, salt: string): Plan {
    if IsV2(secret) == !reverse then Skips
    else
      var text := DecryptSecret(p, deks, tenant, secret);
      if !text.Text? then FailsDecrypt
      else
        var again := if reverse then Text(EncryptFernet(p, text.value, salt)) else EncryptSecret(p, deks, tenant, text.value, flag, salt);
        if !again.Text? then Aborts
        else if IsV2(again.value) != !reverse then FailsFormat
        else Writes(again.value)
  }

  predicate Matches(secrets: map<nat, string>, id: nat, was: string) {
    id in secrets && secrets[id] == was
  }

  function Swapped(secrets: map<nat, string>, id: nat, was: string, secret: string): map<nat, string> {
    if Matches(secrets, id, was) then secrets[id := secret] else secrets
  }

  /** What a sweep writes opens to the same plaintext as what it read, in the format it
      wants. */
  lemma {:induction false} PlanPreservesText(p: Primitives, deks: seq<Dek>, tenant: string, secret: string, reverse: bool, flag: bool, salt: string)
    requires Correct(p) && UniqueVersions(deks)
    ensures var plan := PlanFor(p, deks, tenant, secret, reverse, flag, salt);
            plan.Writes? ==>
              && DecryptSecret(p, deks, tenant, secret).Text?
              && DecryptSecret(p, deks, tenant, plan.secret) == DecryptSecret(p, deks, tenant, secret)
              && IsV2(plan.secret) == !reverse
  {
    var text := DecryptSecret(p, deks, tenant, secret);
    if text.Text? {
      if reverse {
        NoColonNoPrefix(EncryptFernet(p, text.value, salt));
      } else if EncryptSecret(p, deks, tenant, text.value, flag, salt).Text? {
        RoundTrip(p, deks, deks, tenant, text.value, flag, salt);
      }
    }
  }

  /** Rotations that keep old versions change no plaintext. */
  lemma {:induction false} DecryptStable(p: Primitives, deks: seq<Dek>, later: seq<Dek>, tenant: string, secret: string)
    requires KeepsVersions(deks, later) && DecryptSecret(p, deks, tenant, secret).Text?
    ensures DecryptSecret(p, later, tenant, secret) == DecryptSecret(p, deks, tenant, secret)
  {
    if IsV2(secret) {
      var parts := SplitEnvelope(secret).value;
      var version := p.toInt(parts.version).value;
      ByVersionFits(deks, tenant, version);
      ByVersionFits(later, tenant, version);
    }
  }

  // ------------------------------------------------------------ the machine

  /** What a sweep carries from its read to its write. */
  datatype Hold = Hold(id: nat, was: string, secret: string)

  /** `truth` is the plaintext last stored by a genuine writer, per account. */
  datatype World = World(secrets: map<nat, string>, deks: seq<Dek>, truth: map<nat, string>, holds: map<nat, Hold>)

  const INITIAL := World(map[], [], map[], map[])

  datatype Step =
    | Store(id: nat, text: string, flag: bool, salt: string)
    | Erase(id: nat)
    | Corrupt(id: nat, secret: string)
    | Rotate(tenant: string, version: nat, wrapped: string, retire: bool)
    | Read(sweep: nat, id: nat, reverse: bool, flag: bool, salt: string)
    | Swap(sweep: nat)
    | Die(sweep: nat)

  /** An account belongs to one tenant for good. */
  predicate Enabled(w: World, step: Step) {
    match step
    case Rotate(tenant, version, _, _) => forall r :: r in w.deks ==> r.tenant != tenant || r.version != version
    case Read(_, id, _, _, _) => id in w.secrets && w.secrets[id] != ""
    case Swap(sweep) => sweep in w.holds
    case _ => true
  }

  function Next(w: World, step: Step, p: Primitives, owner: nat -> string): World
    requires Enabled(w, step)
  {
    match step
    case Store(id, text, flag, salt) =>
      var ct := EncryptSecret(p, w.deks, owner(id), text, flag, salt);
      if ct.Text? then w.(secrets := w.secrets[id := ct.value], truth := w.truth[id := text]) else w
    case Erase(id) => w.(secrets := w.secrets - {id}, truth := w.truth - {id})
    case Corrupt(id, secret) => w.(secrets := w.secrets[id := secret], truth := w.truth - {id})
    case Rotate(tenant, version, wrapped, retire) => w.(deks := Rotated(w.deks, tenant, version, wrapped, retire))
    case Read(sweep, id, reverse, flag, salt) =>
      var plan := PlanFor(p, w.deks, owner(id), w.secrets[id], reverse, flag, salt);
      if plan.Writes? then w.(holds := w.holds[sweep := Hold(id, w.secrets[id], plan.secret)]) else w
    case Swap(sweep) =>
      var h := w.holds[sweep];
      w.(secrets := Swapped(w.secrets, h.id, h.was, h.secret), holds := w.holds - {sweep})
    case Die(sweep) => w.(holds := w.holds - {sweep})
  }

  ghost predicate True(w: World, id: nat, p: Primitives, owner: nat -> string) {
    id in w.truth ==> id in w.secrets && DecryptSecret(p, w.deks, owner(id), w.secrets[id]) == Text(w.truth[id])
  }

  /** Both ends of a held swap open to the same plaintext. */
  ghost predicate Faithful(h: Hold, deks: seq<Dek>, p: Primitives, owner: nat -> string) {
    && DecryptSecret(p, deks, owner(h.id), h.was).Text?
    && DecryptSecret(p, deks, owner(h.id), h.secret) == DecryptSecret(p, deks, owner(h.id), h.was)
  }

  ghost predicate Inv(w: World, p: Primitives, owner: nat -> string) {
    && UniqueVersions(w.deks)
    && (forall id :: id in w.truth ==> True(w, id, p, owner))
    && forall s :: s in w.holds ==> Faithful(w.holds[s], w.deks, p, owner)
  }

  lemma {:induction false} StoreKeeps(w: World, id: nat, text: string, flag: bool, salt: string, p: Primitives, owner: nat -> string)
    requires Correct(p) && Inv(w, p, owner)
    ensures Inv(Next(w, Store(id, text, flag, salt), p, owner), p, owner)
  {
    var after := Next(w, Store(id, text, flag, salt), p, owner);
    if EncryptSecret(p, w.deks, owner(id), text, flag, salt).Text? {
      RoundTrip(p, w.deks, w.deks, owner(id), text, flag, salt);
    }
    forall x | x in after.truth ensures True(after, x, p, owner) {
      if x in w.truth { assert True(w, x, p, owner); }
    }
  }

  lemma {:induction false} RotateKeeps(w: World, tenant: string, version: nat, wrapped: string, retire: bool, p: Primitives, owner: nat -> string)
    requires Inv(w, p, owner) && Enabled(w, Rotate(tenant, version, wrapped, retire))
    ensures Inv(Next(w, Rotate(tenant, version, wrapped, retire), p, owner), p, owner)
  {
    var after := Next(w, Rotate(tenant, version, wrapped, retire), p, owner);
    RotationKeeps(w.deks, tenant, version, wrapped, retire);
    RotatedUnique(w.deks, tenant, version, wrapped, retire);
    forall x | x in after.truth ensures True(after, x, p, owner) {
      assert True(w, x, p, owner);
      DecryptStable(p, w.deks, after.deks, owner(x), w.secrets[x]);
    }
    forall s | s in after.holds ensures Faithful(after.holds[s], after.deks, p, owner) {
      var h := w.holds[s];
      assert Faithful(h, w.deks, p, owner);
      DecryptStable(p, w.deks, after.deks, owner(h.id), h.was);
      DecryptStable(p, w.deks, after.deks, owner(h.id), h.secret);
    }
  }

  lemma {:induction false} RotatedUnique(deks: seq<Dek>, tenant: string, version: nat, wrapped: string, retire: bool)
    requires UniqueVersions(deks) && forall r :: r in deks ==> r.tenant != tenant || r.version != version
    ensures UniqueVersions(Rotated(deks, tenant, version, wrapped, retire))
  {
    assert forall i :: 0 <= i < |deks| ==> deks[i] in deks;
  }

  lemma {:induction false} ReadKeeps(w: World, sweep: nat, id: nat, reverse: bool, flag: bool, salt: string, p: Primitives, owner: nat -> string)
    requires Correct(p) && Inv(w, p, owner) && Enabled(w, Read(sweep, id, reverse, flag, salt))
    ensures Inv(Next(w, Read(sweep, id, reverse, flag, salt), p, owner), p, owner)
  {
    var after := Next(w, Read(sweep, id, reverse, flag, salt), p, owner);
    PlanPreservesText(p, w.deks, owner(id), w.secrets[id], reverse, flag, salt);
    forall x | x in after.truth ensures True(after, x, p, owner) {
      assert True(w, x, p, owner);
    }
  }

  /** A sweep's write leaves every row's decrypted plaintext as it was just before. */
  lemma {:induction false} SwapPreservesText(w: World, sweep: nat, p: Primitives, owner: nat -> string, id: nat)
    requires Inv(w, p, owner) && Enabled(w, Swap(sweep)) && id in w.secrets
    ensures var after := Next(w, Swap(sweep), p, owner);
            id in after.secrets && DecryptSecret(p, w.deks, owner(id), after.secrets[id]) == DecryptSecret(p, w.deks, owner(id), w.secrets[id])
  {
    assert Faithful(w.holds[sweep], w.deks, p, owner);
  }

  lemma {:induction false} SwapKeeps(w: World, sweep: nat, p: Primitives, owner: nat -> string)
    requires Inv(w, p, owner) && Enabled(w, Swap(sweep))
    ensures Inv(Next(w, Swap(sweep), p, owner), p, owner)
  {
    var after := Next(w, Swap(sweep), p, owner);
    forall x | x in after.truth ensures True(after, x, p, owner) {
      assert True(w, x, p, owner);
      SwapPreservesText(w, sweep, p, owner, x);
    }
  }

  lemma {:induction false} ForgetKeeps(w: World, step: Step, p: Primitives, owner: nat -> string)
    requires Inv(w, p, owner) && (step.Erase? || step.Corrupt? || step.Die?)
    ensures Inv(Next(w, step, p, owner), p, owner)
  {
    var after := Next(w, step, p, owner);
    forall x | x in after.truth ensures True(after, x, p, owner) {
      assert True(w, x, p, owner);
    }
  }

  lemma {:induction false} StepKeeps(w: World, step: Step, p: Primitives, owner: nat -> string)
    requires Correct(p) && Inv(w, p, owner) && Enabled(w, step)
    ensures Inv(Next(w, step, p, owner), p, owner)
  {
    match step
    case Store(id, text, flag, salt) => StoreKeeps(w, id, text, flag, salt, p, owner);
    case Rotate(tenant, version, wrapped, retire) => RotateKeeps(w, tenant, version, wrapped, retire, p, owner);
    case Read(sweep, id, reverse, flag, salt) => ReadKeeps(w, sweep, id, reverse, flag, salt, p, owner);
    case Swap(sweep) => SwapKeeps(w, sweep, p, owner);
    case _ => ForgetKeeps(w, step, p, owner);
  }

  ghost predicate Runs(steps: seq<Step>, p: Primitives, owner: nat -> string)
    decreases |steps|, 0
  {
    steps == [] || (Runs(steps[..|steps| - 1], p, owner) && Enabled(After(steps[..|steps| - 1], p, owner), steps[|steps| - 1]))
  }

  ghost function After(steps: seq<Step>, p: Primitives, owner: nat -> string): World
    requires Runs(steps, p, owner)
    decreases |steps|, 1
  {
    if steps == [] then INITIAL else Next(After(steps[..|steps| - 1], p, owner), steps[|steps| - 1], p, owner)
  }

  lemma {:induction false} RunKeeps(steps: seq<Step>, p: Primitives, owner: nat -> string)
    requires Correct(p) && Runs(steps, p, owner)
    ensures Inv(After(steps, p, owner), p, owner)
  {
    if steps != [] {
      RunKeeps(steps[..|steps| - 1], p, owner);
      StepKeeps(After(steps[..|steps| - 1], p, owner), steps[|steps| - 1], p, owner);
    }
  }

  /** No stale credential is revived: in every interleaving of any number of sweeps in
      either direction, writers under either flag, and rotations, each account's stored
      secret opens to the plaintext its last genuine writer stored. */
  lemma {:induction false} NeverRevives(steps: seq<Step>, p: Primitives, owner: nat -> string, id: nat)
    requires Correct(p) && Runs(steps, p, owner) && id in After(steps, p, owner).truth
    ensures var w := After(steps, p, owner);
            id in w.secrets && DecryptSecret(p, w.deks, owner(id), w.secrets[id]) == Text(w.truth[id])
  {
    RunKeeps(steps, p, owner);
    assert True(After(steps, p, owner), id, p, owner);
  }

  // ------------------------------------------------------------ the sweep

  datatype Report = Report(scanned: nat, rewrapped: nat, skipped: nat, raced: nat, failed: nat, aborted: bool)

  const EMPTY := Report(0, 0, 0, 0, 0, false)

  /** What other writers do to the table before the sweep's `i`-th read, and between
      that read and its write. */
  datatype Others = Others(before: (nat, map<nat, string>) -> map<nat, string>, between: (nat, map<nat, string>) -> map<nat, string>)

  datatype Setup = Setup(p: Primitives, deks: seq<Dek>, owner: nat -> string, reverse: bool, dryRun: bool, flag: bool, salt: nat -> string, others: Others)

  function SweptOne(s: Setup, secrets: map<nat, string>, r: Report, i: nat, id: nat): (map<nat, string>, Report) {
    var seen := s.others.before(i, secrets);
    if id !in seen || seen[id] == "" then (seen, r)
    else
      var n := r.(scanned := r.scanned + 1);
      match PlanFor(s.p, s.deks, s.owner(id), seen[id], s.reverse, s.flag, s.salt(i))
      case Skips => (seen, n.(skipped := n.skipped + 1))
      case FailsDecrypt => (seen, n.(failed := n.failed + 1))
      case FailsFormat => (seen, n.(failed := n.failed + 1))
      case Aborts => (seen, n.(aborted := true))
      case Writes(secret) =>
        if s.dryRun then (seen, n.(rewrapped := n.rewrapped + 1))
        else
          var met := s.others.between(i, seen);
          (Swapped(met, id, seen[id], secret),
           if Matches(met, id, seen[id]) then n.(rewrapped := n.rewrapped + 1) else n.(raced := n.raced + 1))
  }

  function Swept(s: Setup, secrets: map<nat, string>, ids: seq<nat>): (map<nat, string>, Report) {
    if ids == [] then (secrets, EMPTY)
    else
      var n := |ids| - 1;
      var (table, r) := Swept(s, secrets, ids[..n]);
      if r.aborted then (table, r) else SweptOne(s, table, r, n, ids[n])
  }

  ghost predicate Balanced(r: Report) {
    r.scanned == r.rewrapped + r.skipped + r.raced + r.failed + if r.aborted then 1 else 0
  }

  lemma {:induction false} OneBalances(s: Setup, secrets: map<nat, string>, r: Report, i: nat, id: nat)
    requires Balanced(r) && !r.aborted
    ensures Balanced(SweptOne(s, secrets, r, i, id).1)
    ensures r.scanned <= SweptOne(s, secrets, r, i, id).1.scanned <= r.scanned + 1
  {
  }

  lemma {:induction false} SweptBalances(s: Setup, secrets: map<nat, string>, ids: seq<nat>)
    ensures Balanced(Swept(s, secrets, ids).1) && Swept(s, secrets, ids).1.scanned <= |ids|
  {
    if ids != [] {
      var n := |ids| - 1;
      SweptBalances(s, secrets, ids[..n]);
      var (table, r) := Swept(s, secrets, ids[..n]);
      if !r.aborted {
        OneBalances(s, table, r, n, ids[n]);
      }
    }
  }

  /** The tenant has no active key, or it cannot be unwrapped. */
  ghost predicate Keyless(s: Setup, tenant: string) {
    var dek := ActiveDek(s.deks, tenant);
    dek.None? || Unwrapped(s.p, dek.value).None?
  }

  /** The account holds a readable secret of the legacy format, and its tenant has no
      key to write it anew. */
  ghost predicate Unwritable(s: Setup, secrets: map<nat, string>, id: nat) {
    && !s.reverse && s.flag
    && id in secrets && secrets[id] != "" && !IsV2(secrets[id])
    && DecryptSecret(s.p, s.deks, s.owner(id), secrets[id]).Text?
    && Keyless(s, s.owner(id))
  }

  /** The table as the sweep reads its `k`-th account. */
  ghost function Met(s: Setup, secrets: map<nat, string>, ids: seq<nat>, k: nat): map<nat, string>
    requires k < |ids|
  {
    s.others.before(k, Swept(s, secrets, ids[..k]).0)
  }

  ghost predicate UnwritableAt(s: Setup, secrets: map<nat, string>, ids: seq<nat>, k: nat) {
    k < |ids| && Unwritable(s, Met(s, secrets, ids, k), ids[k])
  }

  ghost predicate MeetsUnwritable(s: Setup, secrets: map<nat, string>, ids: seq<nat>) {
    exists k: nat :: UnwritableAt(s, secrets, ids, k)
  }

  lemma {:induction false} OneAborts(s: Setup, secrets: map<nat, string>, r: Report, i: nat, id: nat)
    requires !r.aborted
    ensures SweptOne(s, secrets, r, i, id).1.aborted <==> Unwritable(s, s.others.before(i, secrets), id)
  {
    var seen := s.others.before(i, secrets);
    if id in seen && seen[id] != "" && !s.reverse && !IsV2(seen[id]) {
      var text := DecryptSecret(s.p, s.deks, s.owner(id), seen[id]);
      if text.Text? {
        WhenWritingFails(s.p, s.deks, s.owner(id), text.value, s.flag, s.salt(i));
        assert Keyless(s, s.owner(id)) <==> forall a :: ActiveDek(s.deks, s.owner(id)) == Some(a) ==> Unwrapped(s.p, a).None?;
      }
    }
  }

  lemma {:induction false} SameEarlier(s: Setup, secrets: map<nat, string>, ids: seq<nat>, k: nat)
    requires k + 1 < |ids|
    ensures UnwritableAt(s, secrets, ids[..|ids| - 1], k) <==> UnwritableAt(s, secrets, ids, k)
  {
    assert ids[..|ids| - 1][..k] == ids[..k];
  }

  lemma {:induction false} MetEarlier(s: Setup, secrets: map<nat, string>, ids: seq<nat>)
    requires ids != []
    ensures var n := |ids| - 1;
            MeetsUnwritable(s, secrets, ids) <==> MeetsUnwritable(s, secrets, ids[..n]) || UnwritableAt(s, secrets, ids, n)
  {
    var n := |ids| - 1;
    if MeetsUnwritable(s, secrets, ids) {
      var k: nat :| UnwritableAt(s, secrets, ids, k);
      if k < n {
        SameEarlier(s, secrets, ids, k);
      }
    }
    if MeetsUnwritable(s, secrets, ids[..n]) {
      var k: nat :| UnwritableAt(s, secrets, ids[..n], k);
      SameEarlier(s, secrets, ids, k);
    }
  }

  /** A sweep stops early if and only if it is a forward one with the write flag on and
      meets a readable legacy secret whose tenant has no usable active key. */
  lemma {:induction false} AbortsIff(s: Setup, secrets: map<nat, string>, ids: seq<nat>)
    ensures Swept(s, secrets, ids).1.aborted <==> MeetsUnwritable(s, secrets, ids)
  {
    if ids != [] {
      var n := |ids| - 1;
      AbortsIff(s, secrets, ids[..n]);
      MetEarlier(s, secrets, ids);
      var (table, r) := Swept(s, secrets, ids[..n]);
      if !r.aborted {
        OneAborts(s, table, r, n, ids[n]);
      }
    }
  }

  /** Every scanned account is rewrapped, skipped, raced or failed, once, except that a
      sweep which meets such an account stops with it scanned and uncounted. */
  lemma {:induction false} CountersBalance(s: Setup, secrets: map<nat, string>, ids: seq<nat>)
    ensures var r := Swept(s, secrets, ids).1;
            && r.scanned == r.rewrapped + r.skipped + r.raced + r.failed + (if MeetsUnwritable(s, secrets, ids) then 1 else 0)
            && r.scanned <= |ids|
  {
    SweptBalances(s, secrets, ids);
    AbortsIff(s, secrets, ids);
  }

  /** Such an input: one account with a readable legacy secret, no key rows at all. */
  lemma {:induction false} KeylessAborts(s: Setup, id: nat, secret: string)
    requires !s.reverse && s.flag && s.deks == []
    requires s.others.before(0, map[id := secret]) == map[id := secret]
    requires secret != "" && !IsV2(secret) && s.p.fernetOpen(secret).Some?
    ensures Swept(s, map[id := secret], [id]) == (map[id := secret], Report(1, 0, 0, 0, 0, true))
  {
    assert [id][..0] == [];
    assert Swept(s, map[id := secret], []) == (map[id := secret], EMPTY);
  }

  /** A reverse sweep never stops early. */
  lemma {:induction false} ReverseNeverAborts(s: Setup, secrets: map<nat, string>, ids: seq<nat>)
    requires s.reverse
    ensures !Swept(s, secrets, ids).1.aborted
  {
    AbortsIff(s, secrets, ids);
  }

  class CredentialTable {
    var secrets: map<nat, string>

    constructor ()
      ensures secrets == map[]
    {
      secrets := map[];
    }

    /** The update that writes only over the exact value that was read. */
    method CompareAndSwap(id: nat, was: string, secret: string) returns (rowcount: nat)
      modifies this
      ensures secrets == Swapped(old(secrets), id, was, secret)
      ensures rowcount == if Matches(old(secrets), id, was) then 1 else 0
    {
      if id !in secrets || secrets[id] != was {
        return 0;
      }
      secrets := secrets[id := secret];
      return 1;
    }

    /** One account, in its own transaction. */
    method RewrapOne(s: Setup, r: Report, i: nat, id: nat) returns (after: Report)
      modifies this
      ensures (secrets, after) == SweptOne(s, old(secrets), r, i, id)
    {
      after := r;
      secrets := s.others.before(i, secrets);
      if id !in secrets || secrets[id] == "" {
        return;
      }
      after := after.(scanned := after.scanned + 1);
      var was := secrets[id];
      var plan := PlanFor(s.p, s.deks, s.owner(id), was, s.reverse, s.flag, s.salt(i));
      match plan
      case Skips => after := after.(skipped := after.skipped + 1);
      case FailsDecrypt => after := after.(failed := after.failed + 1);
      case FailsFormat => after := after.(failed := after.failed + 1);
      case Aborts => after := after.(aborted := true);
      case Writes(secret) =>
        if s.dryRun {
          after := after.(rewrapped := after.rewrapped + 1);
          return;
        }
        secrets := s.others.between(i, secrets);
        var rowcount := CompareAndSwap(id, was, secret);
        if rowcount > 0 {
          after := after.(rewrapped := after.rewrapped + 1);
        } else {
          after := after.(raced := after.raced + 1);
        }
    }

    /** The whole script: refused without the write flag unless reversing or dry. */
    method RewrapAll(s: Setup, ids: seq<nat>) returns (refused: bool, r: Report)
      modifies this
      ensures refused <==> !s.reverse && !s.dryRun && !s.flag
      ensures refused ==> secrets == old(secrets)
      ensures !refused ==> (secrets, r) == Swept(s, old(secrets), ids) && Balanced(r)
    {
      r := EMPTY;
      if !s.reverse && !s.dryRun && !s.flag {
        return true, r;
      }
      for i := 0 to |ids|
        invariant (secrets, r) == Swept(s, old(secrets), ids[..i])
      {
        assert ids[..i + 1][..i] == ids[..i];
        if !r.aborted {
          r := RewrapOne(s, r, i, ids[i]);
        }
      }
      assert ids[..|ids|] == ids;
      SweptBalances(s, old(secrets), ids);
      return false, r;
    }
  }
}
