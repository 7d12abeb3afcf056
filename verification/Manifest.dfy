/** The encrypted account manifest and the keys it is sealed under: what a re-sync of
    a credential may touch, and that a sealed credential opens again. Sealing and
    opening are assumed correct inverses; every key id names one key for good. */
module Manifest {
  import opened Collections

  datatype Sealed = Sealed(keyId: string, nonce: string, ciphertext: string, fingerprint: string)

  /** Metadata in the clear, and the sealed credential. */
  datatype Record = Record(email: string, provider: string, status: int, sealed: Sealed)

  datatype Vault = Vault(records: map<string, Record>, held: set<string>, active: string)

  const EMPTY := Vault(map[], {}, "")

  /** `keyOf` is the key a key id stands for; the last argument of `seal` and `open` is
      the associated data. */
  datatype Setup = Setup(
    agent: string,
    keyOf: string -> string,
    seal: (string, string, string, string) -> string,
    open: (string, string, string, string) -> Option<string>,
    fingerprint: string -> string)

  ghost predicate Correct(s: Setup) {
    forall k, n, text, aad :: s.open(k, n, s.seal(k, n, text, aad), aad) == Some(text)
  }

  /** Associated data is derived from the account and this agent, never received. */
  function Bound(s: Setup, id: string): string {
    id + [0x1f as char] + s.agent
  }

  predicate HasActive(v: Vault) { v.active != "" && v.active in v.held }

  function SealedNow(s: Setup, v: Vault, id: string, text: string, nonce: string): Sealed {
    Sealed(v.active, nonce, s.seal(s.keyOf(v.active), nonce, text, Bound(s, id)), s.fingerprint(text))
  }

  // ------------------------------------------------------------ the operations

  datatype Op =
    | Upsert(id: string, email: string, provider: string, status: int, text: string, nonce: string)
    | UpdateBaseline(id: string, text: string, nonce: string)
    | SetStatus(id: string, status: int)
    | Remove(id: string)
    | PutKey(keyId: string)
    | SetActiveKey(keyId: string)
    | RevokeKey(keyId: string)

  function Apply(s: Setup, v: Vault, op: Op): Vault {
    match op
    case Upsert(id, email, provider, status, text, nonce) =>
      if !HasActive(v) then v
      else v.(records := v.records[id := Record(email, provider, status, SealedNow(s, v, id, text, nonce))])
    case UpdateBaseline(id, text, nonce) =>
      if id !in v.records || !HasActive(v) then v
      else v.(records := v.records[id := v.records[id].(sealed := SealedNow(s, v, id, text, nonce))])
    case SetStatus(id, status) => if id in v.records then v.(records := v.records[id := v.records[id].(status := status)]) else v
    case Remove(id) => v.(records := v.records - {id})
    case PutKey(keyId) => v.(held := v.held + {keyId})
    case SetActiveKey(keyId) => if keyId in v.held then v.(active := keyId) else v
    case RevokeKey(keyId) => v.(held := v.held - {keyId}, active := if v.active == keyId then "" else v.active)
  }

  function After(s: Setup, ops: seq<Op>): Vault {
    if ops == [] then EMPTY else Apply(s, After(s, ops[..|ops| - 1]), ops[|ops| - 1])
  }

  function Opened(s: Setup, v: Vault, id: string): Option<string> {
    if id !in v.records || v.records[id].sealed.keyId !in v.held then None
    else
      var r := v.records[id].sealed;
      s.open(s.keyOf(r.keyId), r.nonce, r.ciphertext, Bound(s, id))
  }

  // ------------------------------------------------------------ one record at a time

  /** Keys and every record but one are as before. */
  ghost predicate OthersKept(v: Vault, w: Vault, id: string) {
    && w.held == v.held && w.active == v.active && w.records.Keys - {id} == v.records.Keys - {id}
    && forall x :: x in v.records && x != id ==> x in w.records && w.records[x] == v.records[x]
  }

  /** A status change gives the record the status asked for and leaves its account and
      its seal; an account without a record gets none. */
  lemma {:induction false} StatusGiven(s: Setup, v: Vault, id: string, status: int)
    ensures var w := Apply(s, v, SetStatus(id, status));
            && OthersKept(v, w, id) && (id in w.records <==> id in v.records)
            && (id in v.records ==> w.records[id] == Record(v.records[id].email, v.records[id].provider, status, v.records[id].sealed))
  {
  }

  /** A deliver's record carries what was delivered; without an active key there is none. */
  lemma {:induction false} UpsertGiven(s: Setup, v: Vault, id: string, email: string, provider: string, status: int, text: string, nonce: string)
    ensures var w := Apply(s, v, Upsert(id, email, provider, status, text, nonce));
            && OthersKept(v, w, id)
            && (v.active != "" && v.active in v.held ==>
                  && id in w.records && w.records[id].email == email && w.records[id].provider == provider
                  && w.records[id].status == status && w.records[id].sealed.keyId == v.active)
            && (v.active == "" || v.active !in v.held ==> w == v)
  {
  }

  /** A removal takes the record and no other. */
  lemma {:induction false} RemovalTakes(s: Setup, v: Vault, id: string)
    ensures OthersKept(v, Apply(s, v, Remove(id)), id) && id !in Apply(s, v, Remove(id)).records
  {
  }

  /** Keys come and go without touching a record: only a held key can become active, and
      a revoked one neither is held nor active. */
  lemma {:induction false} KeysGiven(s: Setup, v: Vault, keyId: string)
    ensures var put := Apply(s, v, PutKey(keyId)); put.records == v.records && put.active == v.active && put.held == v.held + {keyId}
    ensures var chosen := Apply(s, v, SetActiveKey(keyId));
            chosen.records == v.records && chosen.held == v.held && chosen.active == if keyId in v.held then keyId else v.active
    ensures var gone := Apply(s, v, RevokeKey(keyId));
            gone.records == v.records && keyId !in gone.held && (v.active != keyId ==> gone.active == v.active) && (v.active == keyId ==> gone.active == "")
  {
  }

  // ------------------------------------------------------------ re-sync touches no more than the seal

  predicate NotBaseline(op: Op) { !op.UpdateBaseline? }

  /** The same vault but for what is sealed. */
  ghost predicate SameButSeals(v: Vault, w: Vault) {
    && v.held == w.held && v.active == w.active && v.records.Keys == w.records.Keys
    && forall id :: id in v.records ==> v.records[id].(sealed := w.records[id].sealed) == w.records[id]
  }

  lemma {:induction false} StepSame(s: Setup, v: Vault, w: Vault, op: Op)
    requires SameButSeals(v, w)
    ensures if op.UpdateBaseline? then SameButSeals(Apply(s, v, op), w) else SameButSeals(Apply(s, v, op), Apply(s, w, op))
  {
  }

  /** However re-syncs interleave with delivers, recalls and status changes, leaving
      them all out gives the same accounts with the same metadata and status: a re-sync
      never brings a purged account back, nor an inactive one to life. */
  lemma {:induction false} BaselinesChangeSealsOnly(s: Setup, ops: seq<Op>)
    ensures SameButSeals(After(s, ops), After(s, Filter(ops, NotBaseline)))
  {
    if ops != [] {
      var less, op := ops[..|ops| - 1], ops[|ops| - 1];
      BaselinesChangeSealsOnly(s, less);
      StepSame(s, After(s, less), After(s, Filter(less, NotBaseline)), op);
      var front := Filter(less, NotBaseline);
      if NotBaseline(op) {
        assert (front + [op])[..|front|] == front;
      }
    }
  }

  // ------------------------------------------------------------ what is sealed opens again

  /** The credential last sealed for an account still there. */
  function LastSealed(s: Setup, ops: seq<Op>, id: string): Option<string> {
    if ops == [] then None
    else
      var less, op := ops[..|ops| - 1], ops[|ops| - 1];
      var before, v := LastSealed(s, less, id), After(s, less);
      if op.Upsert? && op.id == id && HasActive(v) then Some(op.text)
      else if op.UpdateBaseline? && op.id == id && id in v.records && HasActive(v) then Some(op.text)
      else if op.Remove? && op.id == id then None
      else before
  }

  ghost predicate Opens(s: Setup, v: Vault, id: string, text: Option<string>) {
    && (id in v.records <==> text.Some?)
    && (id in v.records ==>
          && s.open(s.keyOf(v.records[id].sealed.keyId), v.records[id].sealed.nonce, v.records[id].sealed.ciphertext, Bound(s, id)) == text
          && v.records[id].sealed.fingerprint == s.fingerprint(text.value))
  }

  lemma {:induction false} AlwaysOpens(s: Setup, ops: seq<Op>, id: string)
    requires Correct(s)
    ensures Opens(s, After(s, ops), id, LastSealed(s, ops, id))
  {
    if ops != [] {
      AlwaysOpens(s, ops[..|ops| - 1], id);
    }
  }

  /** In every run, opening an account's credential gives the plaintext last sealed for
      it, by a deliver or a re-sync, exactly while its key is held; the fingerprint is
      that plaintext's. */
  lemma {:induction false} OpensLastSealed(s: Setup, ops: seq<Op>, id: string)
    requires Correct(s)
    ensures var v := After(s, ops);
            && Opened(s, v, id) == (if id in v.records && v.records[id].sealed.keyId in v.held then LastSealed(s, ops, id) else None)
            && (id in v.records ==> LastSealed(s, ops, id).Some? && v.records[id].sealed.fingerprint == s.fingerprint(LastSealed(s, ops, id).value))
  {
    AlwaysOpens(s, ops, id);
  }

  // ------------------------------------------------------------ the object

  class Store {
    var records: map<string, Record>
    var held: set<string>
    var active: string

    function Value(): Vault
      reads this
    {
      Vault(records, held, active)
    }

    constructor ()
      ensures Value() == EMPTY
    {
      records, held, active := map[], {}, "";
    }

    method Upsert(s: Setup, id: string, email: string, provider: string, status: int, text: string, nonce: string) returns (ok: bool)
      modifies this`records
      ensures ok <==> HasActive(old(Value()))
      ensures Value() == Apply(s, old(Value()), Op.Upsert(id, email, provider, status, text, nonce))
    {
      if active == "" || active !in held {
        return false;
      }
      records := records[id := Record(email, provider, status, SealedNow(s, Value(), id, text, nonce))];
      return true;
    }

    /** Never inserts: a record deleted in the meantime stays deleted. */
    method UpdateBaseline(s: Setup, id: string, text: string, nonce: string) returns (found: bool, ok: bool)
      modifies this`records
      ensures found <==> id in old(records)
      ensures ok <==> found && HasActive(old(Value()))
      ensures Value() == Apply(s, old(Value()), Op.UpdateBaseline(id, text, nonce))
    {
      if id !in records {
        return false, false;
      }
      if active == "" || active !in held {
        return true, false;
      }
      records := records[id := records[id].(sealed := SealedNow(s, Value(), id, text, nonce))];
      return true, true;
    }

    method SetStatus(s: Setup, id: string, status: int) returns (found: bool)
      modifies this`records
      ensures found <==> id in old(records)
      ensures Value() == Apply(s, old(Value()), Op.SetStatus(id, status))
    {
      if id !in records {
        return false;
      }
      records := records[id := records[id].(status := status)];
      return true;
    }

    method Remove(s: Setup, id: string)
      modifies this`records
      ensures Value() == Apply(s, old(Value()), Op.Remove(id))
    {
      if id in records {
        records := records - {id};
      } else {
        assert records - {id} == records;
      }
    }

    method OpenCredential(s: Setup, id: string) returns (text: Option<string>)
      ensures text == Opened(s, Value(), id)
    {
      if id !in records {
        return None;
      }
      if records[id].sealed.keyId !in held {
        return None;
      }
      var sealed := records[id].sealed;
      text := s.open(s.keyOf(sealed.keyId), sealed.nonce, sealed.ciphertext, Bound(s, id));
    }
  }
}
