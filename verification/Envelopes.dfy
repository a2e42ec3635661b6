/**
 Credential envelopes over an ideal authenticated cipher: a sealed text opens under exactly the key,
 nonce and associated data it was sealed with, and is sixteen bytes longer than its plaintext.
 Rewrapping replaces the master key around the data key and nothing else.
 */
module Envelopes {
  import opened Options
  import opened Batches

  type Bytes = seq<int>

  const KEY_SIZE := 32
  const NONCE_SIZE := 12
  const TAG_SIZE := 16
  const PAYLOAD_MAX := 65520
  const CIPHERTEXT_MAX := 65536
  const WRAPPED_SIZE := 48
  const BATCH_MAX := 200

  /** `versions` says that both identifiers are of the version the adapter accepts. */
  datatype Binding = Binding(workspace: nat, connection: nat, family: string, version: int, versions: bool)

  /** Associated data is taken as injective in purpose and binding. */
  datatype Aad = Aad(purpose: string, binding: Binding)

  datatype Cipher = Sealed(key: Bytes, nonce: Bytes, aad: Aad, plain: Bytes) | Junk(size: nat)

  datatype Envelope = Envelope(ciphertext: Cipher, nonce: Bytes, wrapped: Cipher, wrappingNonce: Bytes, keyId: string, format: int)

  /** Fresh random bytes drawn by one encryption. */
  datatype Random = Random(dataKey: Bytes, nonce: Bytes, wrappingNonce: Bytes)

  datatype Keyring = Keyring(active: string, keys: map<string, Bytes>)

  function Size(c: Cipher): nat {
    if c.Sealed? then |c.plain| + TAG_SIZE else c.size
  }

  function AadOf(b: Binding, purpose: string): Option<Aad> {
    if !b.versions || b.version < 1 || |b.family| == 0 || |b.family| > 128 then None else Some(Aad(purpose, b))
  }

  function Seal(key: Bytes, plain: Bytes, aad: Aad, nonce: Bytes): Option<Cipher> {
    if |key| != KEY_SIZE then None else Some(Sealed(key, nonce, aad, plain))
  }

  function Open(key: Option<Bytes>, c: Cipher, nonce: Bytes, aad: Aad): Option<Bytes> {
    if key.None? || |key.value| != KEY_SIZE || |nonce| != NONCE_SIZE then None
    else if c.Sealed? && c.key == key.value && c.nonce == nonce && c.aad == aad then Some(c.plain) else None
  }

  predicate KeyIdChar(c: char) {
    'a' <= c <= 'z' || 'A' <= c <= 'Z' || '0' <= c <= '9' || c == '-' || c == '_'
  }

  predicate ValidKeyId(id: string) {
    1 <= |id| <= 128 && forall i :: 0 <= i < |id| ==> KeyIdChar(id[i])
  }

  predicate Drawn(r: Random) {
    |r.dataKey| == KEY_SIZE && |r.nonce| == NONCE_SIZE && |r.wrappingNonce| == NONCE_SIZE
  }

  function Encrypt(b: Binding, payload: Bytes, keyId: string, master: Bytes, r: Random): Option<Envelope> {
    var aad, wrapAad := AadOf(b, "payload"), AadOf(b, "data-key");
    if aad.None? || |payload| == 0 || |payload| > PAYLOAD_MAX || !ValidKeyId(keyId) then None
    else
      var ciphertext, wrapped := Seal(r.dataKey, payload, aad.value, r.nonce), Seal(master, r.dataKey, wrapAad.value, r.wrappingNonce);
      if ciphertext.None? || wrapped.None? then None
      else Some(Envelope(ciphertext.value, r.nonce, wrapped.value, r.wrappingNonce, keyId, 1))
  }

  function KeyAt(keys: map<string, Bytes>, id: string): Option<Bytes> {
    if id in keys then Some(keys[id]) else None
  }

  function Decrypt(b: Binding, e: Envelope, keys: map<string, Bytes>): Option<Bytes> {
    var aad, wrapAad := AadOf(b, "payload"), AadOf(b, "data-key");
    if aad.None? || e.format != 1 || Size(e.ciphertext) > CIPHERTEXT_MAX || Size(e.wrapped) != WRAPPED_SIZE then None
    else
      var dataKey := Open(KeyAt(keys, e.keyId), e.wrapped, e.wrappingNonce, wrapAad.value);
      if dataKey.None? then None else Open(dataKey, e.ciphertext, e.nonce, aad.value)
  }

  predicate Has(k: Keyring, id: string) {
    k.active in k.keys && id in k.keys
  }

  function Rewrap(k: Keyring, b: Binding, e: Envelope, target: string, nonce: Bytes): Option<Envelope> {
    if !Has(k, e.keyId) || !Has(k, target) then None
    else
      var aad := AadOf(b, "data-key");
      if aad.None? || e.format != 1 || Size(e.wrapped) != WRAPPED_SIZE then None
      else
        var dataKey := Open(KeyAt(k.keys, e.keyId), e.wrapped, e.wrappingNonce, aad.value);
        if dataKey.None? then None
        else
          var wrapped := Seal(k.keys[target], dataKey.value, aad.value, nonce);
          if wrapped.None? then None else Some(e.(wrapped := wrapped.value, wrappingNonce := nonce, keyId := target))
  }

  // ---- What an envelope holds ----

  /** The envelope seals `payload` for this binding, its data key wrapped under `master`. */
  ghost predicate Holds(e: Envelope, b: Binding, payload: Bytes, master: Bytes) {
    && AadOf(b, "payload").Some? && e.format == 1 && 1 <= |payload| <= PAYLOAD_MAX
    && |master| == KEY_SIZE && |e.nonce| == NONCE_SIZE && |e.wrappingNonce| == NONCE_SIZE
    && e.ciphertext.Sealed? && e.wrapped.Sealed?
    && |e.wrapped.plain| == KEY_SIZE
    && e.ciphertext == Sealed(e.wrapped.plain, e.nonce, Aad("payload", b), payload)
    && e.wrapped == Sealed(master, e.wrappingNonce, Aad("data-key", b), e.wrapped.plain)
  }

  /** Whatever encryption accepts fits the sizes decryption accepts, and comes back under its own binding. */
  lemma EncryptDecrypt(b: Binding, payload: Bytes, keyId: string, master: Bytes, r: Random, keys: map<string, Bytes>)
    requires Drawn(r) && Encrypt(b, payload, keyId, master, r).Some?
    ensures var e := Encrypt(b, payload, keyId, master, r).value;
            && Holds(e, b, payload, master)
            && Size(e.ciphertext) <= CIPHERTEXT_MAX && Size(e.wrapped) == WRAPPED_SIZE
            && (KeyAt(keys, keyId) == Some(master) ==> Decrypt(b, e, keys) == Some(payload))
  {
  }

  /** Identifiers of the accepted version, a positive row version, and a family of one to 128 characters. */
  predicate BindingFits(b: Binding) {
    b.versions && b.version >= 1 && 1 <= |b.family| <= 128
  }

  /** One to 128 letters, digits, dashes and underscores. */
  predicate KeyIdText(id: string) {
    && 1 <= |id| <= 128
    && forall i :: 0 <= i < |id| ==> 'a' <= id[i] <= 'z' || 'A' <= id[i] <= 'Z' || '0' <= id[i] <= '9' || id[i] in {'-', '_'}
  }

  /** Encryption accepts exactly a fitting binding, a payload within its limit, a proper key name and keys of the right size. */
  lemma EncryptsExactly(b: Binding, payload: Bytes, keyId: string, master: Bytes, r: Random)
    ensures var e := Encrypt(b, payload, keyId, master, r);
      && (e.Some? <==> BindingFits(b) && 1 <= |payload| <= 65520 && KeyIdText(keyId) && |r.dataKey| == 32 && |master| == 32)
      && (e.Some? ==> e.value.keyId == keyId && e.value.nonce == r.nonce && e.value.wrappingNonce == r.wrappingNonce && e.value.format == 1
                      && e.value.wrapped == Sealed(master, r.wrappingNonce, Aad("data-key", b), r.dataKey)
                      && e.value.ciphertext == Sealed(r.dataKey, r.nonce, Aad("payload", b), payload))
  {
    forall i | 0 <= i < |keyId|
      ensures KeyIdChar(keyId[i]) <==>
              'a' <= keyId[i] <= 'z' || 'A' <= keyId[i] <= 'Z' || '0' <= keyId[i] <= '9' || keyId[i] in {'-', '_'}
    {
    }
  }

  /** Whatever is decrypted was sealed for this very binding, under a data key that the named master key wraps. */
  lemma DecryptedWasSealed(b: Binding, e: Envelope, keys: map<string, Bytes>, payload: Bytes)
    ensures Decrypt(b, e, keys) == Some(payload) <==>
            && BindingFits(b) && e.format == 1 && |payload| <= 65520 && |e.nonce| == 12 && |e.wrappingNonce| == 12
            && e.keyId in keys && |keys[e.keyId]| == 32
            && e.wrapped.Sealed? && |e.wrapped.plain| == 32
            && e.wrapped == Sealed(keys[e.keyId], e.wrappingNonce, Aad("data-key", b), e.wrapped.plain)
            && e.ciphertext == Sealed(e.wrapped.plain, e.nonce, Aad("payload", b), payload)
  {
  }

  /** Decryption answers the sealed payload under the one binding and the one master key, and fails otherwise. */
  lemma DecryptExactly(e: Envelope, b: Binding, payload: Bytes, master: Bytes, b': Binding, keys: map<string, Bytes>)
    requires Holds(e, b, payload, master)
    ensures Decrypt(b', e, keys) == if b' == b && KeyAt(keys, e.keyId) == Some(master) then Some(payload) else None
  {
  }

  /** A rewrap succeeds exactly with the ring, the binding and the key of the envelope. */
  lemma RewrapExactly(k: Keyring, e: Envelope, b: Binding, payload: Bytes, master: Bytes, b': Binding, target: string, nonce: Bytes)
    requires Holds(e, b, payload, master) && |nonce| == NONCE_SIZE
    ensures Rewrap(k, b', e, target, nonce).Some? <==>
              k.active in k.keys && KeyAt(k.keys, e.keyId) == Some(master) && target in k.keys && |k.keys[target]| == KEY_SIZE && b' == b
    ensures var e' := Rewrap(k, b', e, target, nonce);
            e'.Some? ==>
              && Holds(e'.value, b, payload, k.keys[target]) && e'.value.keyId == target
              && e'.value.ciphertext == e.ciphertext && e'.value.nonce == e.nonce && e'.value.format == e.format
  {
  }

  datatype Turn = Turn(ring: Keyring, target: string, nonce: Bytes)

  /** A sequence of rewraps, each with the ring of its day; None as soon as one is refused. */
  function RewrapAll(b: Binding, e: Envelope, turns: seq<Turn>): Option<Envelope>
    decreases |turns|
  {
    if turns == [] then Some(e)
    else
      var e' := Rewrap(turns[0].ring, b, e, turns[0].target, turns[0].nonce);
      if e'.None? then None else RewrapAll(b, e'.value, turns[1..])
  }

  /** The master key in force after the turns. */
  function FinalMaster(master: Bytes, turns: seq<Turn>): Bytes
    decreases |turns|
  {
    if turns == [] then master
    else FinalMaster(if turns[0].target in turns[0].ring.keys then turns[0].ring.keys[turns[0].target] else master, turns[1..])
  }

  /**
   After any sequence of rewraps the ciphertext and its nonce are the original ones, a ring that holds
   the current key decrypts to the original payload, and any other binding or key fails.
   */
  lemma {:induction false} RewrapsPreserve(b: Binding, e: Envelope, turns: seq<Turn>, payload: Bytes, master: Bytes, b': Binding, keys: map<string, Bytes>)
    requires Holds(e, b, payload, master) && (forall t :: t in turns ==> |t.nonce| == NONCE_SIZE)
    requires RewrapAll(b, e, turns).Some?
    ensures var e', final := RewrapAll(b, e, turns).value, FinalMaster(master, turns);
            && Holds(e', b, payload, final) && e'.ciphertext == e.ciphertext && e'.nonce == e.nonce
            && (turns != [] ==> e'.keyId == turns[|turns| - 1].target)
            && Decrypt(b', e', keys) == (if b' == b && KeyAt(keys, e'.keyId) == Some(final) then Some(payload) else None)
    decreases |turns|
  {
    if turns == [] {
      DecryptExactly(e, b, payload, master, b', keys);
    } else {
      var t := turns[0];
      assert t in turns;
      RewrapExactly(t.ring, e, b, payload, master, b, t.target, t.nonce);
      var e1 := Rewrap(t.ring, b, e, t.target, t.nonce).value;
      RewrapsPreserve(b, e1, turns[1..], payload, t.ring.keys[t.target], b', keys);
    }
  }

  // ---- Batches ----

  /** A retained credential version. */
  datatype Row = Row(binding: Binding, envelope: Envelope)

  /** Rows still wrapped under a key. */
  function References(rows: map<Id, Row>, keyId: string): set<Id> {
    set i | i in rows && rows[i].envelope.keyId == keyId
  }

  /** Rewrapping this row with these keys would work. */
  predicate Opens(k: Keyring, row: Row) {
    && Has(k, row.envelope.keyId)
    && var aad := AadOf(row.binding, "data-key");
    && aad.Some? && row.envelope.format == 1 && Size(row.envelope.wrapped) == WRAPPED_SIZE
    && Open(KeyAt(k.keys, row.envelope.keyId), row.envelope.wrapped, row.envelope.wrappingNonce, aad.value).Some?
  }

  /** One successful batch: the selected rows rewrapped, the others untouched. */
  ghost predicate Batch(rows: map<Id, Row>, rows': map<Id, Row>, ids: seq<Id>, k: Keyring, new_: string, nonces: map<Id, Bytes>) {
    && rows'.Keys == rows.Keys
    && (forall i :: i in rows && i !in ids ==> rows'[i] == rows[i])
    && (forall i :: i in ids ==>
          && i in rows && i in nonces && rows'[i].binding == rows[i].binding
          && Rewrap(k, rows[i].binding, rows[i].envelope, new_, nonces[i]) == Some(rows'[i].envelope))
  }

  /** The batch takes its rows off the old key. */
  lemma BatchLeaves(rows: map<Id, Row>, rows': map<Id, Row>, ids: seq<Id>, k: Keyring, old_: string, new_: string, nonces: map<Id, Bytes>)
    requires Batch(rows, rows', ids, k, new_, nonces) && old_ != new_ && forall i :: i in ids ==> i in References(rows, old_)
    ensures References(rows', old_) == References(rows, old_) - Elements(ids)
    ensures References(rows', new_) == References(rows, new_) + Elements(ids)
  {
  }

  /** Every secret survives a batch: what a row held before, it holds after, under the binding it had. */
  lemma BatchKeepsSecrets(rows: map<Id, Row>, rows': map<Id, Row>, ids: seq<Id>, k: Keyring, new_: string, nonces: map<Id, Bytes>,
                          i: Id, payload: Bytes, master: Bytes)
    requires Batch(rows, rows', ids, k, new_, nonces) && i in rows && Holds(rows[i].envelope, rows[i].binding, payload, master)
    requires i in ids ==> i in nonces && |nonces[i]| == NONCE_SIZE
    ensures rows'[i].binding == rows[i].binding
    ensures Holds(rows'[i].envelope, rows[i].binding, payload, if i in ids && new_ in k.keys then k.keys[new_] else master)
    ensures i in ids ==> Decrypt(rows[i].binding, rows'[i].envelope, k.keys) == Some(payload)
  {
    if i in ids {
      RewrapExactly(k, rows[i].envelope, rows[i].binding, payload, master, rows[i].binding, new_, nonces[i]);
      DecryptExactly(rows'[i].envelope, rows[i].binding, payload, k.keys[new_], rows[i].binding, k.keys);
    }
  }

  /** States between successful batches, with nobody else writing under the old key. */
  ghost predicate Rounds(states: seq<map<Id, Row>>, k: Keyring, old_: string, new_: string, limit: nat) {
    && states != [] && old_ != new_
    && forall n :: 0 <= n < |states| - 1 ==> Round(states[n], states[n + 1], k, old_, new_, limit)
  }

  ghost predicate Round(rows: map<Id, Row>, rows': map<Id, Row>, k: Keyring, old_: string, new_: string, limit: nat) {
    exists ids, nonces :: Selection(ids, References(rows, old_), limit) && Batch(rows, rows', ids, k, new_, nonces)
  }

  lemma RoundLeaves(rows: map<Id, Row>, rows': map<Id, Row>, k: Keyring, old_: string, new_: string, limit: nat)
    requires Round(rows, rows', k, old_, new_, limit) && old_ != new_
    ensures |References(rows', old_)| == AfterBatch(|References(rows, old_)|, limit)
  {
    var ids, nonces :| Selection(ids, References(rows, old_), limit) && Batch(rows, rows', ids, k, new_, nonces);
    BatchLeaves(rows, rows', ids, k, old_, new_, nonces);
    SelectionLeaves(ids, References(rows, old_), limit);
  }

  function AfterBatch(n: nat, limit: nat): nat {
    if n < limit then 0 else n - limit
  }

  lemma Ceiling(n: nat, limit: nat, batches: nat)
    ensures var left := AfterBatch(n, limit);
            (if left <= limit * batches then 0 else left - limit * batches)
            == (if n <= limit * (batches + 1) then 0 else n - limit * (batches + 1))
  {
    assert limit * (batches + 1) == limit * batches + limit && limit * batches >= 0;
  }

  /** Each batch rewraps `limit` references, or all that are left: n of them are gone after the ceiling of n / limit batches, and not before. */
  lemma {:induction false} RewrapsDrain(states: seq<map<Id, Row>>, k: Keyring, old_: string, new_: string, limit: nat)
    requires Rounds(states, k, old_, new_, limit)
    ensures var n, batches := |References(states[0], old_)|, |states| - 1;
            |References(states[|states| - 1], old_)| == if n <= limit * batches then 0 else n - limit * batches
    decreases |states|
  {
    if |states| > 1 {
      RoundLeaves(states[0], states[1], k, old_, new_, limit);
      forall n | 0 <= n < |states[1..]| - 1 ensures Round(states[1..][n], states[1..][n + 1], k, old_, new_, limit) {
        assert Round(states[n + 1], states[n + 2], k, old_, new_, limit);
      }
      RewrapsDrain(states[1..], k, old_, new_, limit);
      Ceiling(|References(states[0], old_)|, limit, |states| - 2);
    } else {
      assert limit * (|states| - 1) == 0;
    }
  }

  lemma RewrapOpens(k: Keyring, row: Row, new_: string, nonce: Bytes)
    requires Has(k, new_) && |k.keys[new_]| == KEY_SIZE
    ensures Rewrap(k, row.binding, row.envelope, new_, nonce).Some? <==> Opens(k, row)
  {
  }

  lemma BatchGrows(rows: map<Id, Row>, pending: map<Id, Row>, ids: seq<Id>, k: Keyring, new_: string, nonces: map<Id, Bytes>,
                   id: Id, e: Envelope)
    requires Batch(rows, pending, ids, k, new_, nonces) && id in rows && id !in ids && id in nonces
    requires Rewrap(k, rows[id].binding, rows[id].envelope, new_, nonces[id]) == Some(e)
    ensures Batch(rows, pending[id := pending[id].(envelope := e)], ids + [id], k, new_, nonces)
  {
  }

  class Versions {
    var rows: map<Id, Row>

    /** The loop over the selected rows; nothing is written before the last of them is rewrapped. */
    method RewrapEach(selected: seq<Id>, k: Keyring, new_: string, nonces: map<Id, Bytes>) returns (pending: Option<map<Id, Row>>)
      requires Has(k, new_) && |k.keys[new_]| == KEY_SIZE
      requires forall i :: 0 <= i < |selected| ==> selected[i] in rows && selected[i] in nonces
      requires forall i, j :: 0 <= i < j < |selected| ==> selected[i] != selected[j]
      ensures pending.Some? <==> forall i :: 0 <= i < |selected| ==> Opens(k, rows[selected[i]])
      ensures pending.Some? ==> Batch(rows, pending.value, selected, k, new_, nonces)
    {
      var changed := rows;
      var n := 0;
      while n < |selected|
        invariant 0 <= n <= |selected|
        invariant Batch(rows, changed, selected[..n], k, new_, nonces)
        invariant forall i :: 0 <= i < n ==> Opens(k, rows[selected[i]])
      {
        var id := selected[n];
        RewrapOpens(k, rows[id], new_, nonces[id]);
        assert id !in selected[..n];
        var next := Rewrap(k, changed[id].binding, changed[id].envelope, new_, nonces[id]);
        if next.None? {
          return None;
        }
        BatchGrows(rows, changed, selected[..n], k, new_, nonces, id, next.value);
        assert selected[..n + 1] == selected[..n] + [id];
        changed := changed[id := changed[id].(envelope := next.value)];
        n := n + 1;
      }
      assert selected[..n] == selected;
      return Some(changed);
    }

    /**
     One batch: the first `limit` versions under the old key, all rewrapped or none. It fails exactly
     when a parameter is wrong or one of the selected rows does not open.
     */
    method RewrapBatch(k: Keyring, old_: string, new_: string, limit: int, nonces: map<Id, Bytes>) returns (done: Option<nat>, ghost ids: seq<Id>)
      requires new_ in k.keys ==> |k.keys[new_]| == KEY_SIZE
      requires forall i :: i in rows ==> i in nonces && |nonces[i]| == NONCE_SIZE
      modifies this
      ensures limit >= 0 ==> Selection(ids, References(old(rows), old_), limit)
      ensures done.Some? <==> old_ != new_ && 1 <= limit <= BATCH_MAX && Has(k, old_) && Has(k, new_)
                              && forall i :: 0 <= i < |ids| ==> Opens(k, old(rows)[ids[i]])
      ensures done.None? ==> rows == old(rows)
      ensures done.Some? ==> done.value == |ids| && Batch(old(rows), rows, ids, k, new_, nonces)
    {
      var selected := First(References(rows, old_), if limit < 0 then 0 else limit);
      ids := selected;
      if old_ == new_ || limit < 1 || limit > BATCH_MAX || !Has(k, old_) || !Has(k, new_) {
        return None, ids;
      }
      var pending := RewrapEach(selected, k, new_, nonces);
      if pending.None? {
        return None, ids;
      }
      rows := pending.value;
      return Some(|selected|), ids;
    }
  }
}
