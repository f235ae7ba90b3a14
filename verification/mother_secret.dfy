/**
 Sealed mother-account secrets (internal/mothersecret/secret.go) and the one-off migration of
 stored plaintext (internal/mothersecret/migrate.go).

 The cipher is any authenticated encryption with associated data in the sense of RFC 5116,
 section 2: an `Aead` value whose law is `Correct`; where a result needs that one particular
 ciphertext is rejected under other associated data, it says so (`Authentic`). The associated data of an envelope is the
 triple of account, revision and field that the code prints into one string; account 0 is the
 nil uuid. Nonces are parameters; a failing random source is a missing nonce.
 */
module MotherSecret {
  import opened Common

  newtype Byte = x: int | 0 <= x < 256
  type Bytes = seq<Byte>
  type Version = v: nat | v < 0x1_0000
  type Key = nat
  type Nonce = n: Bytes | |n| == NONCE_SIZE witness [0, 0, 0, 0, 0, 0, 0, 0, 0, 0, 0, 0]

  type Int64 = x: int | -0x8000_0000_0000_0000 <= x <= 0x7fff_ffff_ffff_ffff

  const NONCE_SIZE := 12
  const OVERHEAD := 16
  const PREFIX: Bytes := [0x54, 0x53, 0x57, 0x4D, 0x31, 0x00]

  datatype Field = Password | Totp
  datatype Binding = Binding(id: nat, revision: int, field: Field)
  datatype Aead = Aead(seal: (Key, Nonce, Bytes, Binding) -> Bytes, open: (Key, Nonce, Bytes, Binding) -> Option<Bytes>)

  /** What was sealed opens again, with the declared overhead. */
  ghost predicate Correct(a: Aead) {
    forall k, n, p, b {:trigger a.seal(k, n, p, b)} ::
      a.open(k, n, a.seal(k, n, p, b), b) == Some(p) && |a.seal(k, n, p, b)| == |p| + OVERHEAD
  }

  /** This ciphertext is rejected under every other associated data. */
  ghost predicate Authentic(a: Aead, k: Key, n: Nonce, p: Bytes, b: Binding) {
    forall other {:trigger a.open(k, n, a.seal(k, n, p, b), other)} :: other != b ==> a.open(k, n, a.seal(k, n, p, b), other).None?
  }

  /** Both laws can be had at once: a cipher may mark the ciphertexts of one binding by their last bytes. */
  lemma SomeCipherIsAuthentic(b: Binding) returns (a: Aead)
    ensures Correct(a) && forall k, n, p :: Authentic(a, k, n, p, b)
  {
    var mark: Bytes := seq(OVERHEAD, _ => 1 as Byte);
    var other: Bytes := seq(OVERHEAD, _ => 0 as Byte);
    a := Aead((k, n, p, x) => p + (if x == b then mark else other),
              (k, n, c, x) => if |c| >= OVERHEAD && c[|c| - OVERHEAD..] == (if x == b then mark else other)
                              then Some(c[..|c| - OVERHEAD]) else None);
    assert mark[0] != other[0];
    forall k, n, p, x ensures a.open(k, n, a.seal(k, n, p, x), x) == Some(p) && |a.seal(k, n, p, x)| == |p| + OVERHEAD {
      var c := a.seal(k, n, p, x);
      assert c[..|c| - OVERHEAD] == p && c[|c| - OVERHEAD..] == if x == b then mark else other;
    }
    forall k, n, p, x | x != b ensures a.open(k, n, a.seal(k, n, p, b), x).None? {
      var c := a.seal(k, n, p, b);
      assert c[|c| - OVERHEAD..] == mark;
    }
  }

  datatype KeyRing = KeyRing(current: Version, keys: map<Version, Key>)

  // ----- envelopes

  predicate IsSealed(material: Bytes) { PREFIX <= material }

  /** The six bytes decide, whatever follows: a bare prefix counts as sealed, and never opens. */
  lemma PrefixDecides(a: Aead, ring: KeyRing, id: nat, revision: int, field: Field, material: Bytes)
    ensures IsSealed(material) <==> |material| >= 6 && material[..6] == [0x54, 0x53, 0x57, 0x4D, 0x31, 0x00]
    ensures Open(a, ring, id, revision, field, material).Some? ==> IsSealed(material) && |material| >= 37 && id != 0 && revision > 0
  {
  }

  predicate ValidInput(id: nat, revision: int) { id != 0 && revision > 0 }

  function Version16(v: Version): (b: Bytes) { [(v / 256) as Byte, (v % 256) as Byte] }

  function Seal(a: Aead, ring: KeyRing, id: nat, revision: int, field: Field, nonce: Option<Nonce>,
                plaintext: Bytes): Option<Bytes> {
    if !ValidInput(id, revision) || plaintext == [] || ring.current == 0 || ring.current !in ring.keys || nonce.None? then None
    else
      var sealed := a.seal(ring.keys[ring.current], nonce.value, plaintext, Binding(id, revision, field));
      Some(PREFIX + Version16(ring.current) + nonce.value + sealed)
  }

  function Open(a: Aead, ring: KeyRing, id: nat, revision: int, field: Field, sealed: Bytes): Option<Bytes> {
    if !ValidInput(id, revision) || !IsSealed(sealed) || |sealed| < |PREFIX| + 2 + NONCE_SIZE + OVERHEAD + 1 then None
    else
      var version: Version := sealed[|PREFIX|] as int * 256 + sealed[|PREFIX| + 1] as int;
      if version !in ring.keys || version == 0 then None
      else
        var start := |PREFIX| + 2;
        var plaintext := a.open(ring.keys[version], sealed[start..start + NONCE_SIZE], sealed[start + NONCE_SIZE..], Binding(id, revision, field));
        if plaintext == Some([]) then None else plaintext
  }

  /** A sealed secret opens at its own account, revision and field under every later ring that kept its key. */
  lemma OpensWhatWasSealed(a: Aead, ring: KeyRing, later: KeyRing, id: nat, revision: int, field: Field,
                           nonce: Option<Nonce>, plaintext: Bytes)
    requires Correct(a)
    requires ring.current in ring.keys ==> ring.current in later.keys && later.keys[ring.current] == ring.keys[ring.current]
    requires Seal(a, ring, id, revision, field, nonce, plaintext).Some?
    ensures var e := Seal(a, ring, id, revision, field, nonce, plaintext).value;
            IsSealed(e) && Open(a, later, id, revision, field, e) == Some(plaintext)
  {
    EnvelopeLayout(a, ring, id, revision, field, nonce, plaintext);
  }

  /** And nowhere else: not at another account, revision or field, as long as the cipher rejects that one ciphertext there. */
  lemma OpensNowhereElse(a: Aead, ring: KeyRing, later: KeyRing, id: nat, revision: int, field: Field,
                         nonce: Option<Nonce>, plaintext: Bytes, id': nat, revision': int, field': Field)
    requires Seal(a, ring, id, revision, field, nonce, plaintext).Some?
    requires Authentic(a, ring.keys[ring.current], nonce.value, plaintext, Binding(id, revision, field))
    requires ring.current in later.keys && later.keys[ring.current] == ring.keys[ring.current]
    requires (id', revision', field') != (id, revision, field)
    ensures Open(a, later, id', revision', field', Seal(a, ring, id, revision, field, nonce, plaintext).value).None?
  {
    var e := Seal(a, ring, id, revision, field, nonce, plaintext).value;
    var body := a.seal(ring.keys[ring.current], nonce.value, plaintext, Binding(id, revision, field));
    EnvelopeLayout(a, ring, id, revision, field, nonce, plaintext);
    assert Binding(id', revision', field') != Binding(id, revision, field);
    assert a.open(ring.keys[ring.current], nonce.value, body, Binding(id', revision', field')).None?;
  }

  /** The envelope: six bytes of prefix, the key version in big-endian order, the nonce, the ciphertext under the full binding. */
  lemma EnvelopeLayout(a: Aead, ring: KeyRing, id: nat, revision: int, field: Field, nonce: Option<Nonce>, plaintext: Bytes)
    requires Seal(a, ring, id, revision, field, nonce, plaintext).Some?
    ensures ring.current in ring.keys && nonce.Some?
    ensures var e := Seal(a, ring, id, revision, field, nonce, plaintext).value;
            && |e| >= 20 && e[..6] == [0x54, 0x53, 0x57, 0x4D, 0x31, 0x00]
            && e[6] as int * 256 + e[7] as int == ring.current && e[8..20] == nonce.value
            && e[20..] == a.seal(ring.keys[ring.current], nonce.value, plaintext, Binding(id, revision, field))
  {
    var e := Seal(a, ring, id, revision, field, nonce, plaintext).value;
    assert e[8..20] == nonce.value;
    assert e[20..] == a.seal(ring.keys[ring.current], nonce.value, plaintext, Binding(id, revision, field));
  }

  // ----- rows

  datatype Row = Row(id: nat, password: Bytes, totp: Option<Bytes>, revision: Int64, version: int)
  datatype Secrets = Secrets(password: Bytes, totp: Option<Bytes>)

  predicate Sealed(r: Row) { IsSealed(r.password) && (r.totp.None? || IsSealed(r.totp.value)) }

  /** The plaintext of one stored field: opened when it is an envelope, itself otherwise. */
  function Plain(a: Aead, ring: KeyRing, r: Row, field: Field, material: Bytes): Option<Bytes> {
    if IsSealed(material) then Open(a, ring, r.id, r.revision, field, material) else Some(material)
  }

  /** What a row means, however much of it is sealed. */
  function Meaning(a: Aead, ring: KeyRing, r: Row): Option<Secrets> {
    var p := Plain(a, ring, r, Password, r.password);
    if p.None? then None
    else if r.totp.None? then Some(Secrets(p.value, None))
    else
      var t := Plain(a, ring, r, Totp, r.totp.value);
      if t.None? then None else Some(Secrets(p.value, t))
  }

  /** The next revision, in 64 bits. */
  function Next(x: Int64): (next: Int64)
    ensures if x == 0x7fff_ffff_ffff_ffff then next == -0x8000_0000_0000_0000 else next == x + 1
  {
    if x + 1 > 0x7fff_ffff_ffff_ffff then x + 1 - 0x1_0000_0000_0000_0000 else x + 1
  }

  /** The secrets can be sealed at the next revision. */
  predicate Sealable(ring: KeyRing, r: Row, s: Secrets, nonces: Field -> Option<Nonce>) {
    && 0 <= r.revision < 0x7fff_ffff_ffff_ffff && r.id != 0 && ring.current != 0 && ring.current in ring.keys
    && s.password != [] && nonces(Password).Some?
    && (s.totp.Some? ==> s.totp.value != [] && nonces(Totp).Some?)
  }

  /** The migration can process this row. */
  predicate Migratable(a: Aead, ring: KeyRing, migrated: bool, r: Row, nonces: Field -> Option<Nonce>) {
    var m := Meaning(a, ring, r);
    m.Some? && (Sealed(r) || (!migrated && Sealable(ring, r, m.value, nonces)))
  }

  /** The secrets of a row that is not sealed yet, sealed at its next revision under their own fields. */
  ghost predicate ResealedRow(a: Aead, ring: KeyRing, r: Row, nonces: Field -> Option<Nonce>, r': Row) {
    var m := Meaning(a, ring, r);
    && m.Some? && r'.revision == r.revision + 1 && r'.version == r.version + 1
    && Some(r'.password) == Seal(a, ring, r.id, r.revision + 1, Password, nonces(Password), m.value.password)
    && r'.totp == (if m.value.totp.None? then None else Seal(a, ring, r.id, r.revision + 1, Totp, nonces(Totp), m.value.totp.value))
  }

  /** A migrated row: sealed, meaning what it meant before, one revision further unless it was sealed already. */
  ghost predicate MigratedRow(a: Aead, ring: KeyRing, r: Row, nonces: Field -> Option<Nonce>, r': Row) {
    && r'.id == r.id && Sealed(r') && Meaning(a, ring, r') == Meaning(a, ring, r) && (r'.totp.Some? <==> r.totp.Some?)
    && (if Sealed(r) then r' == r else ResealedRow(a, ring, r, nonces, r'))
  }

  /** An envelope opens at this account, revision and field only. */
  ghost predicate OpensOnlyAt(a: Aead, ring: KeyRing, id: nat, revision: int, field: Field, e: Bytes) {
    forall id': nat, revision': int, field': Field ::
      (id', revision', field') != (id, revision, field) ==> Open(a, ring, id', revision', field', e).None?
  }

  /**
   A resealed field does not open at the row's old revision, under the other field or for another
   account, as long as the cipher rejects the new ciphertext there.
   */
  ghost predicate Rebound(a: Aead, ring: KeyRing, r: Row, nonces: Field -> Option<Nonce>, r': Row) {
    var m := Meaning(a, ring, r);
    && m.Some? && ring.current in ring.keys && nonces(Password).Some?
    && (Authentic(a, ring.keys[ring.current], nonces(Password).value, m.value.password, Binding(r.id, r.revision + 1, Password)) ==>
          OpensOnlyAt(a, ring, r.id, r.revision + 1, Password, r'.password))
    && (r'.totp.Some? ==>
          && m.value.totp.Some? && nonces(Totp).Some?
          && (Authentic(a, ring.keys[ring.current], nonces(Totp).value, m.value.totp.value, Binding(r.id, r.revision + 1, Totp)) ==>
                OpensOnlyAt(a, ring, r.id, r.revision + 1, Totp, r'.totp.value)))
  }

  lemma {:induction false} ResealedIsRebound(a: Aead, ring: KeyRing, r: Row, nonces: Field -> Option<Nonce>, r': Row)
    requires ResealedRow(a, ring, r, nonces, r')
    ensures Rebound(a, ring, r, nonces, r')
  {
    var m := Meaning(a, ring, r).value;
    var next := r.revision + 1;
    forall id': nat, revision': int, field': Field |
      && (id', revision', field') != (r.id, next, Password)
      && Authentic(a, ring.keys[ring.current], nonces(Password).value, m.password, Binding(r.id, next, Password))
      ensures Open(a, ring, id', revision', field', r'.password).None?
    {
      OpensNowhereElse(a, ring, ring, r.id, next, Password, nonces(Password), m.password, id', revision', field');
    }
    if r'.totp.Some? {
      forall id': nat, revision': int, field': Field |
        && (id', revision', field') != (r.id, next, Totp)
        && Authentic(a, ring.keys[ring.current], nonces(Totp).value, m.totp.value, Binding(r.id, next, Totp))
        ensures Open(a, ring, id', revision', field', r'.totp.value).None?
      {
        OpensNowhereElse(a, ring, ring, r.id, next, Totp, nonces(Totp), m.totp.value, id', revision', field');
      }
    }
  }

  /** One pass of the row loop. */
  method MigrateRow(a: Aead, ring: KeyRing, migrated: bool, r: Row, nonces: Field -> Option<Nonce>) returns (out: Option<Row>)
    requires Correct(a)
    ensures out.Some? <==> Migratable(a, ring, migrated, r, nonces)
    ensures out.Some? ==> MigratedRow(a, ring, r, nonces, out.value)
    ensures out.Some? && !Sealed(r) ==> Rebound(a, ring, r, nonces, out.value)
  {
    var password, totp := r.password, r.totp;
    var passwordSealed := IsSealed(password);
    var totpSealed := totp.None? || IsSealed(totp.value);
    if migrated && (!passwordSealed || !totpSealed) { return None; }
    if passwordSealed {
      var plain := Open(a, ring, r.id, r.revision, Password, password);
      if plain.None? { return None; }
      password := plain.value;
    }
    if totp.Some? && totpSealed {
      var plain := Open(a, ring, r.id, r.revision, Totp, totp.value);
      if plain.None? { return None; }
      totp := plain;
    }
    if passwordSealed && totpSealed { return Some(r); }
    var next := Next(r.revision);
    if next <= r.revision { return None; }
    var sealedPassword := Seal(a, ring, r.id, next, Password, nonces(Password), password);
    if sealedPassword.None? { return None; }
    OpensWhatWasSealed(a, ring, ring, r.id, next, Password, nonces(Password), password);
    var sealedTotp: Option<Bytes> := None;
    if totp.Some? {
      sealedTotp := Seal(a, ring, r.id, next, Totp, nonces(Totp), totp.value);
      if sealedTotp.None? { return None; }
      OpensWhatWasSealed(a, ring, ring, r.id, next, Totp, nonces(Totp), totp.value);
    }
    ghost var m := Meaning(a, ring, r);
    assert m == Some(Secrets(password, totp));
    var row := Row(r.id, sealedPassword.value, sealedTotp, next, r.version + 1);
    ResealedIsRebound(a, ring, r, nonces, row);
    return Some(row);
  }

  // ----- the whole migration

  /** The credentials table in id order, the accounts with derived session rows, and the marker. */
  datatype Store = Store(rows: seq<Row>, derived: set<nat>, marker: bool)

  /** Accounts whose source revision moves. */
  function Resealed(rows: seq<Row>): set<nat> { set r | r in rows && !Sealed(r) :: r.id }

  /** The nonces drawn for row `i`. */
  function NoncesOf(nonces: (nat, Field) -> Option<Nonce>, i: nat): Field -> Option<Nonce> { f => nonces(i, f) }

  ghost predicate MigratableAt(a: Aead, ring: KeyRing, nonces: (nat, Field) -> Option<Nonce>, before: Store, i: nat) {
    i < |before.rows| && Migratable(a, ring, before.marker, before.rows[i], NoncesOf(nonces, i))
  }

  ghost predicate MigratedAt(a: Aead, ring: KeyRing, nonces: (nat, Field) -> Option<Nonce>, before: Store, i: nat, r': Row) {
    i < |before.rows| && MigratedRow(a, ring, before.rows[i], NoncesOf(nonces, i), r')
  }

  ghost predicate MigrationOf(a: Aead, ring: KeyRing, nonces: (nat, Field) -> Option<Nonce>, before: Store,
                              after: Store, ok: bool) {
    && (ok <==> forall i: nat {:trigger MigratableAt(a, ring, nonces, before, i)} ::
                  i < |before.rows| ==> MigratableAt(a, ring, nonces, before, i))
    && (if !ok then after == before
        else
          && after.marker && |after.rows| == |before.rows| && after.derived == before.derived - Resealed(before.rows)
          && forall i: nat {:trigger MigratedAt(a, ring, nonces, before, i, after.rows[i])} ::
               i < |before.rows| ==> MigratedAt(a, ring, nonces, before, i, after.rows[i]))
  }

  class CredentialStore {
    var rows: seq<Row>
    var derived: set<nat>
    var marker: bool

    ghost function View(): Store
      reads this
    {
      Store(rows, derived, marker)
    }

    constructor (rows: seq<Row>, derived: set<nat>, marker: bool)
      ensures View() == Store(rows, derived, marker)
    {
      this.rows, this.derived, this.marker := rows, derived, marker;
    }

    /** Works on the transaction's own view of the tables and commits it only when no row failed. */
    method Migrate(a: Aead, ring: KeyRing, nonces: (nat, Field) -> Option<Nonce>) returns (ok: bool)
      requires Correct(a)
      modifies this
      ensures MigrationOf(a, ring, nonces, old(View()), View(), ok)
    {
      var stored, remaining := rows, derived;
      ghost var before := View();
      for i := 0 to |rows|
        invariant |stored| == |rows| && View() == old(View()) && remaining == derived - Resealed(rows[..i])
        invariant forall j :: i <= j < |rows| ==> stored[j] == rows[j]
        invariant forall j: nat {:trigger MigratedAt(a, ring, nonces, before, j, stored[j])} ::
                    j < i ==> MigratedAt(a, ring, nonces, before, j, stored[j])
        invariant forall j: nat {:trigger MigratableAt(a, ring, nonces, before, j)} :: j < i ==> MigratableAt(a, ring, nonces, before, j)
      {
        assert rows[i] in rows && rows[..i + 1] == rows[..i] + [rows[i]];
        var row := MigrateRow(a, ring, marker, rows[i], NoncesOf(nonces, i));
        assert row.Some? <==> MigratableAt(a, ring, nonces, before, i);
        if row.None? { return false; }
        if !Sealed(rows[i]) {
          remaining := remaining - {rows[i].id};
          stored := stored[i := row.value];
        }
      }
      assert rows[..|rows|] == rows;
      rows, derived, marker := stored, remaining, true;
      return true;
    }
  }

  // ----- results

  /** After a successful run every secret opens at its row's revision to what was stored before. */
  lemma SecretsSurvive(a: Aead, ring: KeyRing, nonces: (nat, Field) -> Option<Nonce>, before: Store, after: Store, i: nat)
    requires MigrationOf(a, ring, nonces, before, after, true) && i < |before.rows|
    ensures var m, r := Meaning(a, ring, before.rows[i]), after.rows[i];
            && m.Some? && Open(a, ring, r.id, r.revision, Password, r.password) == Some(m.value.password)
            && (m.value.totp.Some? <==> r.totp.Some?)
            && (r.totp.Some? ==> Open(a, ring, r.id, r.revision, Totp, r.totp.value) == m.value.totp)
  {
    assert MigratableAt(a, ring, nonces, before, i);
    assert MigratedAt(a, ring, nonces, before, i, after.rows[i]);
  }

  /** After a successful run every newly sealed secret opens at its own account, its new revision and its own field only. */
  lemma SecretsAreRebound(a: Aead, ring: KeyRing, nonces: (nat, Field) -> Option<Nonce>, before: Store, after: Store, i: nat)
    requires MigrationOf(a, ring, nonces, before, after, true) && i < |before.rows| && !Sealed(before.rows[i])
    ensures after.rows[i].id == before.rows[i].id && after.rows[i].revision == before.rows[i].revision + 1
    ensures Rebound(a, ring, before.rows[i], NoncesOf(nonces, i), after.rows[i])
  {
    assert MigratedAt(a, ring, nonces, before, i, after.rows[i]);
    ResealedIsRebound(a, ring, before.rows[i], NoncesOf(nonces, i), after.rows[i]);
  }

  /** A second run succeeds and changes nothing, whatever the nonces. */
  lemma SecondRunChangesNothing(a: Aead, ring: KeyRing, nonces: (nat, Field) -> Option<Nonce>, nonces': (nat,
                                Field) -> Option<Nonce>,
                                before: Store, mid: Store, after: Store, ok: bool)
    requires MigrationOf(a, ring, nonces, before, mid, true) && MigrationOf(a, ring, nonces', mid, after, ok)
    ensures ok && after == mid
  {
    forall i: nat | i < |mid.rows|
      ensures Sealed(mid.rows[i]) && MigratableAt(a, ring, nonces', mid, i)
    {
      assert MigratedAt(a, ring, nonces, before, i, mid.rows[i]);
      assert MigratableAt(a, ring, nonces, before, i);
    }
    forall i: nat | i < |mid.rows| ensures after.rows[i] == mid.rows[i] {
      assert MigratedAt(a, ring, nonces', mid, i, after.rows[i]);
    }
    assert Resealed(mid.rows) == {};
    assert after.rows == mid.rows;
  }

  /** Once the marker is set, a row that is not sealed is never taken for legacy plaintext: the run fails as a whole. */
  lemma MarkerRefusesPlaintext(a: Aead, ring: KeyRing, nonces: (nat, Field) -> Option<Nonce>, before: Store,
                               after: Store, ok: bool, r: Row)
    requires MigrationOf(a, ring, nonces, before, after, ok) && before.marker && r in before.rows && !Sealed(r)
    ensures !ok && after == before
  {
    var i: nat :| i < |before.rows| && before.rows[i] == r;
    assert !MigratableAt(a, ring, nonces, before, i);
  }
}
