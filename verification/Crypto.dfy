/** At-rest credential formats: legacy Fernet tokens and versioned tenant-key
    envelopes, told apart by their prefix. The primitives are assumed correct
    inverses of each other. */
module Crypto {
  import opened Collections
  import Decimal
  import Lines

  /** Keys, nonces and ciphertext bytes are opaque strings here. */
  datatype Primitives = Primitives(
    seal: (string, string, string, string) -> string,
    open: (string, string, string, string) -> Option<string>,
    encode: string -> string,
    decode: string -> Option<string>,
    fernetSeal: (string, string) -> string,
    fernetOpen: string -> Option<string>,
    toInt: string -> Option<int>,
    unwrap: (string, string) -> Option<string>)

  const V2_PREFIX := "v2:"

  /** Opening inverts sealing under the same key, nonce and tenant; base64 text has no
      colon and decodes back; a Fernet token opens to its plaintext and is base64 text
      too; a decimal numeral reads as its number. */
  ghost predicate Correct(p: Primitives) {
    && (forall k, n, text, aad :: p.open(k, n, p.seal(k, n, text, aad), aad) == Some(text))
    && (forall bytes :: ':' !in p.encode(bytes) && p.decode(p.encode(bytes)) == Some(bytes))
    && (forall text, salt :: ':' !in p.fernetSeal(text, salt) && p.fernetOpen(p.fernetSeal(text, salt)) == Some(text))
    && (forall n: nat :: p.toInt(Decimal.Render(n)) == Some(n))
  }

  // ------------------------------------------------------------ tenant keys

  datatype Dek = Dek(tenant: string, version: nat, wrapped: string, provider: string, retired: bool)

  /** The tenant's live key with the highest version. */
  function ActiveDek(rows: seq<Dek>, tenant: string): Option<Dek> {
    if rows == [] then None
    else
      var best, r := ActiveDek(rows[..|rows| - 1], tenant), rows[|rows| - 1];
      if r.tenant == tenant && !r.retired && (best.None? || r.version > best.value.version) then Some(r) else best
  }

  function DekByVersion(rows: seq<Dek>, tenant: string, version: int): Option<Dek> {
    if rows == [] then None
    else
      var earlier, r := DekByVersion(rows[..|rows| - 1], tenant, version), rows[|rows| - 1];
      if earlier.None? && r.tenant == tenant && r.version == version then Some(r) else earlier
  }

  lemma {:induction false} ActiveIsHighest(rows: seq<Dek>, tenant: string)
    ensures match ActiveDek(rows, tenant)
            case None => forall r :: r in rows ==> r.tenant != tenant || r.retired
            case Some(a) =>
              && a in rows && a.tenant == tenant && !a.retired
              && forall r :: r in rows && r.tenant == tenant && !r.retired ==> r.version <= a.version
  {
    if rows != [] {
      ActiveIsHighest(rows[..|rows| - 1], tenant);
      assert rows == rows[..|rows| - 1] + [rows[|rows| - 1]];
    }
  }

  /** `(tenant, version)` is unique. */
  ghost predicate UniqueVersions(rows: seq<Dek>) {
    forall i, j :: 0 <= i < j < |rows| ==> rows[i].tenant != rows[j].tenant || rows[i].version != rows[j].version
  }

  lemma {:induction false} ByVersionIs(rows: seq<Dek>, r: Dek)
    requires UniqueVersions(rows) && r in rows
    ensures DekByVersion(rows, r.tenant, r.version) == Some(r)
  {
    var n := |rows| - 1;
    if r in rows[..n] {
      ByVersionIs(rows[..n], r);
    } else {
      assert rows == rows[..n] + [rows[n]] && rows[n] == r;
      NoVersion(rows[..n], r.tenant, r.version);
    }
  }

  lemma {:induction false} NoVersion(rows: seq<Dek>, tenant: string, version: int)
    requires forall i :: 0 <= i < |rows| ==> rows[i].tenant != tenant || rows[i].version != version
    ensures DekByVersion(rows, tenant, version) == None
  {
    if rows != [] {
      NoVersion(rows[..|rows| - 1], tenant, version);
    }
  }

  /** Stored keys are wrapped by the provider named in their row. */
  function Unwrapped(p: Primitives, r: Dek): Option<string> {
    if r.provider == "local" then p.unwrap(r.wrapped, r.tenant) else None
  }

  function Rotated(rows: seq<Dek>, tenant: string, version: nat, wrapped: string, retire: bool): seq<Dek> {
    Map(rows, (r: Dek) => if retire && r.tenant == tenant then r.(retired := true) else r)
    + [Dek(tenant, version, wrapped, "local", false)]
  }

  /** Every key that could be read before can still be read, wrapped as it was. */
  ghost predicate KeepsVersions(rows: seq<Dek>, later: seq<Dek>) {
    forall tenant, version :: DekByVersion(rows, tenant, version).Some? ==>
      && DekByVersion(later, tenant, version).Some?
      && DekByVersion(later, tenant, version).value.wrapped == DekByVersion(rows, tenant, version).value.wrapped
      && DekByVersion(later, tenant, version).value.provider == DekByVersion(rows, tenant, version).value.provider
  }

  lemma {:induction false} ByVersionSnoc(rows: seq<Dek>, r: Dek, tenant: string, version: int)
    ensures DekByVersion(rows + [r], tenant, version) ==
            if DekByVersion(rows, tenant, version).None? && r.tenant == tenant && r.version == version then Some(r)
            else DekByVersion(rows, tenant, version)
  {
    assert (rows + [r])[..|rows|] == rows;
  }

  lemma {:induction false} ByVersionMapped(rows: seq<Dek>, f: Dek -> Dek, tenant: string, version: int)
    requires forall r: Dek :: f(r) == r.(retired := f(r).retired)
    ensures DekByVersion(rows, tenant, version).Some? ==>
              DekByVersion(Map(rows, f), tenant, version) == Some(f(DekByVersion(rows, tenant, version).value))
    ensures DekByVersion(rows, tenant, version).None? ==> DekByVersion(Map(rows, f), tenant, version).None?
  {
    if rows != [] {
      var n := |rows| - 1;
      ByVersionMapped(rows[..n], f, tenant, version);
      assert Map(rows, f) == Map(rows[..n], f) + [f(rows[n])];
      ByVersionSnoc(Map(rows[..n], f), f(rows[n]), tenant, version);
    }
  }

  /** A rotation keeps every old version readable. */
  lemma {:induction false} RotationKeeps(rows: seq<Dek>, tenant: string, version: nat, wrapped: string, retire: bool)
    ensures KeepsVersions(rows, Rotated(rows, tenant, version, wrapped, retire))
  {
    var f := (r: Dek) => if retire && r.tenant == tenant then r.(retired := true) else r;
    forall t, v | DekByVersion(rows, t, v).Some?
      ensures DekByVersion(Rotated(rows, tenant, version, wrapped, retire), t, v) == Some(f(DekByVersion(rows, t, v).value))
    {
      ByVersionMapped(rows, f, t, v);
      ByVersionSnoc(Map(rows, f), Dek(tenant, version, wrapped, "local", false), t, v);
    }
  }

  // ------------------------------------------------------------ the two formats

  datatype Result = Text(value: string) | KekError | DecryptionError

  function IsV2(ct: string): bool { V2_PREFIX <= ct }

  function Envelope(version: nat, nonce: string, ct: string): string {
    V2_PREFIX + Decimal.Render(version) + ":" + nonce + ":" + ct
  }

  function EncryptFernet(p: Primitives, text: string, salt: string): string {
    p.fernetSeal(text, salt)
  }

  /** Writes an envelope when the write flag is on, else a legacy token. */
  function EncryptSecret(p: Primitives, rows: seq<Dek>, tenant: string, text: string, flag: bool, salt: string): Result {
    if !flag then Text(EncryptFernet(p, text, salt))
    else
      var row := ActiveDek(rows, tenant);
      if row.None? then KekError
      else
        var dek := Unwrapped(p, row.value);
        if dek.None? then KekError
        else Text(Envelope(row.value.version, p.encode(salt), p.encode(p.seal(dek.value, salt, text, tenant))))
  }

  datatype Parts = Parts(version: string, nonce: string, ct: string)

  /** The text before the first colon and the text after it, if there is one. */
  function CutAtColon(s: string): Option<(string, string)> {
    var i := Lines.IndexOf(s, ':');
    if i == |s| then None else Some((s[..i], s[i + 1..]))
  }

  function SplitEnvelope(ct: string): Option<Parts> {
    var a := CutAtColon(ct);
    if a.None? then None
    else
      var b := CutAtColon(a.value.1);
      if b.None? then None
      else
        var c := CutAtColon(b.value.1);
        if c.None? then None else Some(Parts(b.value.0, c.value.0, c.value.1))
  }

  function DecryptV2(p: Primitives, rows: seq<Dek>, tenant: string, ct: string): Result {
    var parts := SplitEnvelope(ct);
    if parts.None? then DecryptionError
    else
      var version, nonce, body := p.toInt(parts.value.version), p.decode(parts.value.nonce), p.decode(parts.value.ct);
      if version.None? || nonce.None? || body.None? then DecryptionError
      else
        var row := DekByVersion(rows, tenant, version.value);
        if row.None? || Unwrapped(p, row.value).None? then DecryptionError
        else
          var text := p.open(Unwrapped(p, row.value).value, nonce.value, body.value, tenant);
          if text.None? then DecryptionError else Text(text.value)
  }

  function DecryptSecret(p: Primitives, rows: seq<Dek>, tenant: string, ct: string): Result {
    if IsV2(ct) then DecryptV2(p, rows, tenant, ct)
    else if p.fernetOpen(ct).None? then DecryptionError
    else Text(p.fernetOpen(ct).value)
  }

  // ------------------------------------------------------------ laws

  lemma {:induction false} SliceHas(s: string, i: nat, k: nat)
    requires i <= |s| && k < |s|
    ensures k < i ==> s[k] in s[..i]
  {
    if k < i {
      assert s[..i][k] == s[k];
    }
  }

  lemma {:induction false} CutFirst(a: string, b: string)
    requires ':' !in a
    ensures CutAtColon(a + ":" + b) == Some((a, b))
  {
    var s := a + ":" + b;
    var i := Lines.IndexOf(s, ':');
    assert s[|a|] == ':' && forall k :: 0 <= k < |a| ==> s[k] == a[k];
    SliceHas(s, i, |a|);
    assert s[..|a|] == a && s[|a| + 1..] == b;
  }

  lemma {:induction false} JoinedByColons(prefix: string, v: string, nonce: string, ct: string)
    ensures prefix + ":" + v + ":" + nonce + ":" + ct == prefix + ":" + (v + ":" + (nonce + ":" + ct))
  {
  }

  /** The three cuts find the three parts. */
  lemma {:induction false} ThreeCuts(prefix: string, v: string, nonce: string, ct: string)
    requires ':' !in prefix && ':' !in v && ':' !in nonce
    ensures SplitEnvelope(prefix + ":" + v + ":" + nonce + ":" + ct) == Some(Parts(v, nonce, ct))
  {
    JoinedByColons(prefix, v, nonce, ct);
    CutFirst(prefix, v + ":" + (nonce + ":" + ct));
    CutFirst(v, nonce + ":" + ct);
    CutFirst(nonce, ct);
  }

  lemma {:induction false} RenderHasNoColon(n: nat)
    ensures ':' !in Decimal.Render(n)
  {
    assert forall c :: c in Decimal.Render(n) ==> Decimal.IsDigit(c);
  }

  lemma {:induction false} PrefixLeads(v: string, nonce: string, ct: string)
    ensures V2_PREFIX + v + ":" + nonce + ":" + ct == "v2" + ":" + v + ":" + nonce + ":" + ct
    ensures IsV2(V2_PREFIX + v + ":" + nonce + ":" + ct)
  {
    assert V2_PREFIX == "v2" + ":";
  }

  lemma {:induction false} EnvelopeSplits(version: nat, nonce: string, ct: string)
    requires ':' !in nonce
    ensures SplitEnvelope(Envelope(version, nonce, ct)) == Some(Parts(Decimal.Render(version), nonce, ct))
    ensures IsV2(Envelope(version, nonce, ct))
  {
    RenderHasNoColon(version);
    PrefixLeads(Decimal.Render(version), nonce, ct);
    ThreeCuts("v2", Decimal.Render(version), nonce, ct);
  }

  lemma {:induction false} NoColonNoPrefix(token: string)
    requires ':' !in token
    ensures !IsV2(token)
  {
    if |token| > 2 {
      assert token[2] in token;
    }
  }

  /** The write flag alone decides the format, so a reader tells them apart. */
  lemma {:induction false} FormatFollowsFlag(p: Primitives, rows: seq<Dek>, tenant: string, text: string, flag: bool, salt: string)
    requires Correct(p)
    ensures EncryptSecret(p, rows, tenant, text, flag, salt).Text? ==>
              (IsV2(EncryptSecret(p, rows, tenant, text, flag, salt).value) <==> flag)
    ensures !IsV2(EncryptFernet(p, text, salt))
  {
    NoColonNoPrefix(EncryptFernet(p, text, salt));
    if flag && EncryptSecret(p, rows, tenant, text, flag, salt).Text? {
      var row := ActiveDek(rows, tenant).value;
      EnvelopeSplits(row.version, p.encode(salt), p.encode(p.seal(Unwrapped(p, row).value, salt, text, tenant)));
    }
  }

  /** Whatever was written, under either flag, reads back as it was, whatever the flag
      is by then and however often the tenant's key has been rotated since, as long as
      the old versions are kept. */
  lemma {:induction false} RoundTrip(p: Primitives, rows: seq<Dek>, later: seq<Dek>, tenant: string, text: string, flag: bool, salt: string)
    requires Correct(p) && UniqueVersions(rows) && KeepsVersions(rows, later)
    requires EncryptSecret(p, rows, tenant, text, flag, salt).Text?
    ensures DecryptSecret(p, later, tenant, EncryptSecret(p, rows, tenant, text, flag, salt).value) == Text(text)
  {
    FormatFollowsFlag(p, rows, tenant, text, flag, salt);
    if flag {
      ActiveIsHighest(rows, tenant);
      var row := ActiveDek(rows, tenant).value;
      ByVersionIs(rows, row);
      StaysReadable(rows, later, row);
      OpensAgain(p, later, row, text, salt);
    }
  }

  lemma {:induction false} ByVersionFits(rows: seq<Dek>, tenant: string, version: int)
    ensures var r := DekByVersion(rows, tenant, version);
            r.Some? ==> r.value.tenant == tenant && r.value.version == version
  {
    if rows != [] {
      ByVersionFits(rows[..|rows| - 1], tenant, version);
    }
  }

  lemma {:induction false} StaysReadable(rows: seq<Dek>, later: seq<Dek>, r: Dek)
    requires KeepsVersions(rows, later) && DekByVersion(rows, r.tenant, r.version) == Some(r)
    ensures var now := DekByVersion(later, r.tenant, r.version);
            now.Some? && now.value == r.(retired := now.value.retired)
  {
    ByVersionFits(later, r.tenant, r.version);
  }

  lemma {:induction false} OpensAgain(p: Primitives, rows: seq<Dek>, r: Dek, text: string, salt: string)
    requires Correct(p) && Unwrapped(p, r).Some?
    requires var now := DekByVersion(rows, r.tenant, r.version);
             now.Some? && now.value == r.(retired := now.value.retired)
    ensures DecryptV2(p, rows, r.tenant, Envelope(r.version, p.encode(salt), p.encode(p.seal(Unwrapped(p, r).value, salt, text, r.tenant)))) == Text(text)
  {
    var dek := Unwrapped(p, r).value;
    EnvelopeSplits(r.version, p.encode(salt), p.encode(p.seal(dek, salt, text, r.tenant)));
    assert p.toInt(Decimal.Render(r.version)) == Some(r.version);
    assert p.open(dek, salt, p.seal(dek, salt, text, r.tenant), r.tenant) == Some(text);
  }

  /** Writing fails only for want of a usable active key, and only with the flag on. */
  lemma {:induction false} WhenWritingFails(p: Primitives, rows: seq<Dek>, tenant: string, text: string, flag: bool, salt: string)
    ensures EncryptSecret(p, rows, tenant, text, flag, salt).KekError? <==>
              flag && forall a :: ActiveDek(rows, tenant) == Some(a) ==> Unwrapped(p, a).None?
    ensures !EncryptSecret(p, rows, tenant, text, flag, salt).DecryptionError?
  {
    assert ActiveDek(rows, tenant).Some? ==> ActiveDek(rows, tenant) == Some(ActiveDek(rows, tenant).value);
  }
}
