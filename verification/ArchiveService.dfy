/**
  The receipt service (hub/internal/auditingest: service.go, ledger.go, anchors.go).

  Each archive call starts with `Interfere`: any number of allowed steps of other requests.
  Every archive call may fail, and a create may be stored although its reply was lost. Clock
  readings are arbitrary. Only a service in a `calm` world is spared all that: nobody else acts,
  every call gets its reply, and the clock shows `clock`. What each request achieves is stated there.
 */
module ArchiveService {
  import opened Basics
  import opened Receipts
  import opened ArchiveStore
  import Text

  datatype Error = Schema | Conflict | Unavailable | NotFound | Busy

  /** What an upload's reader delivered, if it delivered anything. */
  datatype Input = Input(id: Id, data: Option<Blob>)

  /** The last key after sorting by text. */
  function LastByText(keys: seq<Key>, hex: Blob -> string): (last: Key)
    requires keys != []
    ensures last in keys
    ensures forall k :: k in keys ==> Text.Compare(KeyText(k, hex), KeyText(last, hex)) <= 0
  {
    Text.CompareFlips(KeyText(keys[0], hex), KeyText(keys[0], hex));
    if |keys| == 1 then keys[0] else
      var rest := LastByText(keys[1..], hex);
      LaterBoundsBoth(keys, rest, hex);
      if Text.Compare(KeyText(keys[0], hex), KeyText(rest, hex)) <= 0 then rest else keys[0]
  }

  lemma LaterBoundsBoth(keys: seq<Key>, rest: Key, hex: Blob -> string)
    requires |keys| > 1
    requires forall k :: k in keys[1..] ==> Text.Compare(KeyText(k, hex), KeyText(rest, hex)) <= 0
    ensures Text.Compare(KeyText(keys[0], hex), KeyText(rest, hex)) > 0 ==>
              forall k :: k in keys[1..] ==> Text.Compare(KeyText(k, hex), KeyText(keys[0], hex)) <= 0
  {
    Text.CompareFlips(KeyText(keys[0], hex), KeyText(rest, hex));
    if Text.Compare(KeyText(keys[0], hex), KeyText(rest, hex)) > 0 {
      forall k | k in keys[1..]
        ensures Text.Compare(KeyText(k, hex), KeyText(keys[0], hex)) <= 0
      {
        Text.CompareTransitive(KeyText(k, hex), KeyText(rest, hex), KeyText(keys[0], hex));
      }
    }
  }

  lemma TruncateMeans(t: Time)
    ensures t - SECOND < Truncate(t) <= t && Truncate(t) % SECOND == 0
  {
  }

  /** Adding at least a second and truncating moves a whole-second time forward. */
  lemma TruncateLater(t: Time, ttl: int)
    requires t % SECOND == 0 && ttl >= SECOND
    ensures t < Truncate(t + ttl) <= t + ttl
  {
    TruncateMeans(t + ttl);
  }

  class Service {
    const cfg: Config
    const hex: Blob -> string
    const calm: bool
    const clock: Time
    var store: Store

    constructor (cfg: Config, hex: Blob -> string, calm: bool, clock: Time)
      ensures this.cfg == cfg && this.calm == calm && this.clock == clock && store == EMPTY && Good(cfg, store)
    {
      this.cfg, this.hex, this.calm, this.clock := cfg, hex, calm, clock;
      store := EMPTY;
    }

    method Now() returns (t: Time)
      ensures calm ==> t == clock
    {
      t := *;
      if calm {
        t := clock;
      }
    }

    // ------------------------------------------------------------------ archive calls

    method Interfere()
      requires Good(cfg, store)
      modifies this
      ensures Rely(cfg, old(store), store) && (calm ==> store == old(store))
    {
      var steps: seq<Step> := *;
      if !calm && Possible(cfg, store, steps) {
        RunKeepsGood(cfg, store, steps);
        store := After(store, steps);
      }
    }

    /** Every write of this object is one allowed step. */
    method Take(e: Step)
      requires Good(cfg, store) && Allowed(cfg, store, e)
      modifies this
      ensures Rely(cfg, old(store), store) && store == Perform(old(store), e)
    {
      StepKeepsGood(cfg, store, e);
      store := Perform(store, e);
    }

    /** Conditional create. An error leaves it open whether the object was stored. */
    method Put(b: Bucket, k: Key, data: Blob, retain: Time) returns (r: Result<Ref, Error>)
      requires Good(cfg, store) && Fits(cfg, store, b, k, data)
      modifies this
      ensures Rely(cfg, old(store), store)
      ensures r.Ok? ==> Stored(store, b, r.value, retain) && r.value.hash == data && r.value.key == k
      ensures r.Ok? ==> r.value.retain == retain
      ensures calm ==> (r.Ok? <==> k !in old(store).In(b))
      ensures calm ==>
        store == if r.Ok? then old(store).With(b, k, Object(r.value.version, data, retain)) else old(store)
    {
      Interfere();
      FitsIsStable(cfg, old(store), store, b, k, data);
      var reached, replied, version: nat := *, *, *;
      if !(calm || reached) || k in store.In(b) {
        return Err(Unavailable);
      }
      ghost var before := store;
      Take(Create(b, k, Object(version, data, retain)));
      GrowsTransitive(old(store), before, store);
      if !(calm || replied) {
        return Err(Unavailable);
      }
      return Ok(Ref(b, k, version, data, retain));
    }

    method Find(b: Bucket, k: Key) returns (r: Result<Ref, Error>)
      requires Good(cfg, store)
      modifies this
      ensures Rely(cfg, old(store), store)
      ensures r.Ok? ==> Holds(store, r.value) && r.value.bucket == b && r.value.key == k
      ensures r == Err(NotFound) ==> k !in store.In(b)
      ensures calm ==> store == old(store) && (if k in store.In(b) then r.Ok? else r == Err(NotFound))
    {
      Interfere();
      var reached := *;
      if !(calm || reached) {
        return Err(Unavailable);
      }
      if k !in store.In(b) {
        return Err(NotFound);
      }
      var o := store.In(b)[k];
      return Ok(Ref(b, k, o.version, o.data, o.retain));
    }

    method Verify(b: Bucket, ref: Ref, retain: Time) returns (ok: bool)
      requires Good(cfg, store)
      modifies this
      ensures Rely(cfg, old(store), store)
      ensures ok ==> Stored(store, b, ref, retain)
      ensures calm ==> store == old(store) && (ok <==> Stored(store, b, ref, retain))
    {
      Interfere();
      var reached := *;
      ok := (calm || reached) && ref.bucket == b && ref.retain >= retain && Holds(store, ref);
    }

    /** The content is the digest, so a verified read returns `ref.hash`. */
    method Read(b: Bucket, ref: Ref) returns (r: Result<Blob, Error>)
      requires Good(cfg, store)
      modifies this
      ensures Rely(cfg, old(store), store)
      ensures r.Ok? ==> Stored(store, b, ref, ref.retain) && r.value == ref.hash
      ensures calm ==> store == old(store) && (r.Ok? <==> Stored(store, b, ref, ref.retain))
    {
      var ok := Verify(b, ref, ref.retain);
      return if ok then Ok(ref.hash) else Err(Unavailable);
    }

    /** A listing over several pages: everything present at its start, and nothing absent at its end. */
    method ListAnchors(installation: Id) returns (r: Result<seq<Key>, Error>)
      requires Good(cfg, store)
      modifies this
      ensures Rely(cfg, old(store), store)
      ensures r.Ok? ==> forall k :: k in r.value ==>
        k.AnchorKey? && k.installation == installation && k in store.governance
      ensures r.Ok? ==> forall v: nat :: HasAnchor(old(store), installation, v) ==>
        AnchorKey(installation, v) in r.value
      ensures calm ==> store == old(store) && r.Ok?
    {
      ghost var before := store;
      Interfere();
      var present := set k | k in store.governance && k.AnchorKey? && k.installation == installation;
      var keys := AsSequence(present);
      var reached := *;
      return if calm || reached then Ok(keys) else Err(Unavailable);
    }

    method ProtectIn(b: Bucket, k: Key, data: Blob, retain: Time) returns (r: Result<Ref, Error>)
      requires Good(cfg, store) && Fits(cfg, store, b, k, data)
      modifies this
      ensures Rely(cfg, old(store), store)
      ensures r.Ok? ==> Stored(store, b, r.value, retain) && r.value.hash == data && r.value.key == k
      ensures calm && k !in old(store).In(b) ==>
        r.Ok? && r.value.retain == retain && store == old(store).With(b, k, Object(r.value.version, data, retain))
      ensures calm && k in old(store).In(b) ==> store == old(store)
      ensures calm && k in old(store).In(b) ==>
        (r.Ok? <==> old(store).In(b)[k].data == data && old(store).In(b)[k].retain >= retain)
    {
      var put := Put(b, k, data, retain);
      ghost var afterPut := store;
      var ref: Ref;
      if put.Err? {
        var found := Find(b, k);
        GrowsTransitive(old(store), afterPut, store);
        if found.Err? || found.value.hash != data {
          return Err(Unavailable);
        }
        ref := found.value;
      } else {
        ref := put.value;
      }
      ghost var middle := store;
      var ok := Verify(b, ref, retain);
      GrowsTransitive(old(store), middle, store);
      if ref.hash != data || !ok {
        return Err(Unavailable);
      }
      return Ok(ref);
    }

    // ----------------------------------------------------------------------- the ledger

    method ReadLedger(id: Id) returns (r: Result<LedgerEntry, Error>)
      requires Good(cfg, store)
      modifies this
      ensures Rely(cfg, old(store), store)
      ensures r.Ok? ==> r.value.eventId == id && Listed(store, r.value)
      ensures calm ==> store == old(store) && (if EventKey(id) in store.governance then r.Ok? else r == Err(NotFound))
    {
      var found := Find(Governance, EventKey(id));
      if found.Err? {
        return Err(found.error);
      }
      ghost var middle := store;
      var ok := Verify(Governance, found.value, found.value.retain);
      GrowsTransitive(old(store), middle, store);
      LedgerNamesItsKey(cfg, middle, id);
      if !found.value.hash.LedgerDoc? || found.value.hash.entry.eventId != id || !ok {
        return Err(Unavailable);
      }
      return Ok(found.value.hash.entry);
    }

    method EnsureLedger(wanted: LedgerEntry) returns (r: Result<(), Error>)
      requires Good(cfg, store) && Evidence(cfg, store, wanted)
      modifies this
      ensures Rely(cfg, old(store), store)
      ensures r.Ok? ==> Listed(store, wanted)
      ensures calm && EventKey(wanted.eventId) !in old(store).governance ==> r.Ok? && Created(
        old(store), store, Governance, EventKey(wanted.eventId), LedgerDoc(wanted), clock + cfg.governanceRetention)
      ensures calm && EventKey(wanted.eventId) in old(store).governance ==>
        store == old(store) && r == if Listed(store, wanted) then Ok(()) else Err(Conflict)
    {
      var first := ReadLedger(wanted.eventId);
      if first.Ok? {
        return if first.value == wanted then Ok(()) else Err(Conflict);
      }
      if first.error != NotFound {
        return Err(Unavailable);
      }
      EvidenceIsStable(cfg, old(store), store, wanted);
      var now := Now();
      ghost var s1 := store;
      var put := Put(Governance, EventKey(wanted.eventId), LedgerDoc(wanted), now + cfg.governanceRetention);
      GrowsTransitive(old(store), s1, store);
      ghost var s2 := store;
      var second := ReadLedger(wanted.eventId);
      GrowsTransitive(old(store), s2, store);
      if second.Err? {
        return Err(Unavailable);
      }
      if second.value != wanted {
        return Err(if put.Err? then Conflict else Unavailable);
      }
      return Ok(());
    }

    // -------------------------------------------------------------------- policy anchors

    /** A version stored by the end that is at least every version stored at the start. */
    method LatestAnchor(installation: Id) returns (r: Result<AnchorEntry, Error>)
      requires Good(cfg, store)
      modifies this
      ensures Rely(cfg, old(store), store)
      ensures r == Err(NotFound) ==> forall v: nat :: !HasAnchor(old(store), installation, v)
      ensures r.Ok? ==> AnchorStored(store, installation, r.value)
      ensures r.Ok? ==> forall v: nat :: HasAnchor(old(store), installation, v) ==> v <= r.value.version
      ensures calm && ValidId(installation) ==> store == old(store)
      ensures calm && ValidId(installation) ==>
        if Latest(store, installation, MAX_VERSION) == 1 then r == Err(NotFound)
        else r.Ok? && r.value.version == Latest(store, installation, MAX_VERSION)
    {
      if !ValidId(installation) {
        return Err(Unavailable);
      }
      var listed := ListAnchors(installation);
      if listed.Err? {
        return Err(Unavailable);
      }
      var keys := listed.value;
      ghost var k := Latest(old(store), installation, MAX_VERSION);
      assert k > 1 ==> AnchorKey(installation, k) in keys;
      if keys == [] {
        return Err(NotFound);
      }
      assert keys[0] in keys && HasAnchor(store, installation, keys[0].version);
      AnchorVersionsAreContiguous(cfg, store, installation, keys[0].version);
      var key := LastByText(keys, hex);
      LastIsNewest(cfg, store, installation, keys, hex);
      AnchorVersionsAreContiguous(cfg, store, installation, key.version);
      AnchorDocNamesItsKey(cfg, store, key);
      ghost var s1 := store;
      var found := Find(Governance, key);
      GrowsTransitive(old(store), s1, store);
      if found.Err? {
        return Err(Unavailable);
      }
      ghost var s2 := store;
      var ok := Verify(Governance, found.value, found.value.retain);
      GrowsTransitive(old(store), s2, store);
      var doc := found.value.hash;
      if !doc.AnchorDoc? || doc.anchor.version == 0
         || KeyText(key, hex) != KeyText(AnchorKey(installation, doc.anchor.version), hex) || !ok {
        return Err(Unavailable);
      }
      AnchorDocNamesItsKey(cfg, store, key);
      return Ok(doc.anchor);
    }

    /** The version check of `ensureAnchor`: the expected version is the latest, or there is none and it is 1. */
    method CheckNext(e: Envelope) returns (r: Result<(), Error>)
      requires Good(cfg, store) && ValidEnvelope(e) && e.eventType.PolicyAnchor?
      modifies this
      ensures Rely(cfg, old(store), store)
      ensures r.Ok? ==> e.expectedVersion == 1 || HasAnchor(store, e.installation, e.expectedVersion)
      ensures calm ==> store == old(store)
      ensures calm ==> (r.Ok? <==> Latest(store, e.installation, MAX_VERSION) == e.expectedVersion)
    {
      var latest := LatestAnchor(e.installation);
      if latest == Err(NotFound) {
        return if e.expectedVersion != 1 then Err(Conflict) else Ok(());
      }
      if latest.Err? {
        return Err(Unavailable);
      }
      return if latest.value.version != e.expectedVersion then Err(Conflict) else Ok(());
    }

    /** A stored anchor of the record's version is the record's own. */
    method SameAnchor(existing: Ref, record: Blob, ref: Ref, retain: Time) returns (same: bool)
      requires Good(cfg, store) && ExpectedFor(record).Some? && record.envelope.eventType.PolicyAnchor?
      requires Listed(store, LedgerEntry(record.envelope.eventId, PolicyAnchor, record, ref)) && Holds(store, existing)
      requires existing.bucket == Governance
      requires existing.key == AnchorKey(record.envelope.installation, record.envelope.policyVersion)
      modifies this
      ensures Rely(cfg, old(store), store) && (calm ==> store == old(store))
      ensures same ==> AnchorStored(store, record.envelope.installation, AnchorFor(record, ref))
      ensures calm ==> (same <==> AnchorKept(old(store), record, ref, retain))
    {
      var ok := Verify(Governance, existing, retain);
      AnchorDocNamesItsKey(cfg, store, existing.key);
      var doc := existing.hash;
      same := doc.AnchorDoc? && doc.anchor.record == record && doc.anchor.manifest == ref && ok;
    }

    method EnsureAnchor(record: Blob, ref: Ref, retain: Time) returns (r: Result<(), Error>)
      requires Good(cfg, store) && ExpectedFor(record).Some? && record.envelope.eventType.PolicyAnchor?
      requires Listed(store, LedgerEntry(record.envelope.eventId, PolicyAnchor, record, ref))
      modifies this
      ensures Rely(cfg, old(store), store)
      ensures r.Ok? ==> AnchorStored(store, record.envelope.installation, AnchorFor(record, ref))
      ensures calm && AnchorComesNext(old(store), record.envelope) ==> r.Ok? && Created(
        old(store), store, Governance, AnchorKey(record.envelope.installation, record.envelope.policyVersion),
        AnchorDoc(AnchorFor(record, ref)), retain)
      ensures calm && AnchorKept(old(store), record, ref, retain) ==> r.Ok? && store == old(store)
      ensures calm && r.Ok? ==>
        AnchorComesNext(old(store), record.envelope) || AnchorKept(old(store), record, ref, retain)
    {
      var e := record.envelope;
      var key := AnchorKey(e.installation, e.policyVersion);
      var existing := Find(Governance, key);
      ghost var s1 := store;
      if existing.Ok? {
        var same := SameAnchor(existing.value, record, ref, retain);
        GrowsTransitive(old(store), s1, store);
        return if same then Ok(()) else Err(Conflict);
      }
      if existing.error != NotFound {
        return Err(Unavailable);
      }
      var next := CheckNext(e);
      GrowsTransitive(old(store), s1, store);
      if next.Err? {
        return Err(next.error);
      }
      ghost var s2 := store;
      ListedIsStable(old(store), store, LedgerEntry(e.eventId, PolicyAnchor, record, ref));
      var put := ProtectIn(Governance, key, AnchorDoc(AnchorFor(record, ref)), retain);
      GrowsTransitive(old(store), s2, store);
      return if put.Ok? then Ok(()) else Err(put.error);
    }

    // --------------------------------------------------------------------------- signing

    method Issue(e: Expected, ref: Ref, issuedAt: Time, expiresAt: Time) returns (token: Token)
      requires Good(cfg, store) && Backed(cfg, store, Sign(cfg, e, ref, issuedAt, expiresAt))
      modifies this
      ensures Rely(cfg, old(store), store)
      ensures token == Sign(cfg, e, ref, issuedAt, expiresAt)
      ensures store == old(store).(issued := old(store).issued + {token})
    {
      token := Sign(cfg, e, ref, issuedAt, expiresAt);
      Take(SignToken(token));
    }

    /** The content checks of `reconcile`: on success everything a ledger entry vouches for is stored. */
    method CheckContent(e: Expected, record: Blob, ref: Ref, m: Manifest) returns (ok: bool)
      requires Good(cfg, store) && ExpectedFor(record) == Some(e) && e.record == record
      requires ref.hash == ManifestDoc(m) && m.eventId == e.eventId && m.record == e.record
      requires ManifestTimes(cfg, m) && Retained(cfg, m)
      requires m.envelope.hash == record && |m.attachments| == |record.envelope.attachments|
      modifies this
      ensures Rely(cfg, old(store), store)
      ensures ok ==> Evidence(cfg, store, LedgerEntry(e.eventId, e.eventType, record, ref))
      ensures calm ==> store == old(store)
      ensures calm && Evidence(cfg, store, LedgerEntry(e.eventId, e.eventType, record, ref)) ==> ok
    {
      var b := BucketFor(e.eventType);
      var i := 0;
      while i < |m.attachments|
        invariant 0 <= i <= |m.attachments| && Rely(cfg, old(store), store) && (calm ==> store == old(store))
        invariant forall j :: 0 <= j < i ==>
          && m.attachments[j].hash == record.envelope.attachments[j].hash && m.attachments[j].retain == m.retainUntil
          && Stored(store, b, m.attachments[j], m.retainUntil)
      {
        var a := m.attachments[i];
        ghost var before := store;
        var verified := Verify(b, a, m.retainUntil);
        GrowsTransitive(old(store), before, store);
        if a.hash != record.envelope.attachments[i].hash || a.retain != m.retainUntil || !verified {
          return false;
        }
        StoredAllStable(before, store, b, m.attachments[..i], m.retainUntil);
        i := i + 1;
      }
      ghost var s1 := store;
      var envelopeOk := Verify(b, m.envelope, m.retainUntil);
      GrowsTransitive(old(store), s1, store);
      StoredAllStable(s1, store, b, m.attachments, m.retainUntil);
      ghost var s2 := store;
      var manifestOk := Verify(b, ref, m.retainUntil);
      GrowsTransitive(old(store), s2, store);
      StoredAllStable(s2, store, b, m.attachments, m.retainUntil);
      if m.envelope.retain != m.retainUntil || ref.retain != m.retainUntil || !envelopeOk || !manifestOk {
        return false;
      }
      HoldsIsStable(s2, store, m.envelope);
      assert Complete(store, b, m);
      return true;
    }

    method Reconcile(e: Expected, record: Blob, ref: Ref, raw: Blob) returns (r: Result<Token, Error>)
      requires Good(cfg, store) && cfg.Valid() && ExpectedFor(record) == Some(e)
      requires raw.ManifestDoc? ==> Retained(cfg, raw.manifest)
      modifies this
      ensures Rely(cfg, old(store), store)
      ensures r.Ok? ==> r.value in store.issued && r.value.claims.record == record && r.value.claims.manifest == ref
      ensures calm ==> (r.Ok? <==> ref.hash == raw && Signable(cfg, old(store), record, ref, clock))
      ensures calm && r.Ok? ==> r.value == ReceiptFor(cfg, e, ref, clock)
      ensures r.Ok? && FixedTimes(e.eventType) ==> raw.ManifestDoc? && raw.manifest.signingKey == cfg.keyId
    {
      if !raw.ManifestDoc? || raw.manifest.eventId != e.eventId || raw.manifest.record != e.record {
        return Err(Conflict);
      }
      var m := raw.manifest;
      var historical := !FixedTimes(e.eventType);
      if (!historical && (m.signingKey != cfg.keyId || m.qualification != cfg.Qualification(BucketFor(e.eventType))))
         || m.envelope.hash != e.record || |m.attachments| != |record.envelope.attachments| || ref.hash != raw
         || m.expiresAt <= m.issuedAt || m.expiresAt - m.issuedAt > cfg.receiptTTL || m.retainUntil < m.expiresAt {
        return Err(Unavailable);
      }
      var checked := Now();
      if e.eventType.ExecutionAdmission?
         && (checked >= m.expiresAt || m.expiresAt > record.envelope.execution.value.preparedUntil) {
        return Err(Unavailable);
      }
      var content := CheckContent(e, record, ref, m);
      if !content {
        return Err(Unavailable);
      }
      ghost var s1 := store;
      var recorded := Enter(e, record, ref, m.retainUntil);
      GrowsTransitive(old(store), s1, store);
      if recorded.Err? {
        return Err(recorded.error);
      }
      ghost var s2 := store;
      r := SignManifest(e, record, ref, m);
      GrowsTransitive(old(store), s2, store);
    }

    /** Enter archived content into the ledger, and a policy record among the anchors. */
    method Enter(e: Expected, record: Blob, ref: Ref, retain: Time) returns (r: Result<(), Error>)
      requires Good(cfg, store) && ExpectedFor(record) == Some(e)
      requires Evidence(cfg, store, LedgerEntry(e.eventId, e.eventType, record, ref))
      modifies this
      ensures Rely(cfg, old(store), store)
      ensures r.Ok? ==> Listed(store, LedgerEntry(e.eventId, e.eventType, record, ref)) && Anchored(store, record, ref)
      ensures calm ==> (r.Ok? <==> Enterable(old(store), record, ref, retain))
    {
      var entry := LedgerEntry(e.eventId, e.eventType, record, ref);
      var ledger := EnsureLedger(entry);
      if ledger.Err? {
        return Err(ledger.error);
      }
      var cancelled := *;
      if !calm && cancelled {
        return Err(Unavailable);
      }
      ghost var s1 := store;
      if e.eventType.PolicyAnchor? {
        LedgerLeavesAnchors(old(store), store, record, ref, retain);
        var anchored := EnsureAnchor(record, ref, retain);
        GrowsTransitive(old(store), s1, store);
        if anchored.Err? {
          return Err(anchored.error);
        }
      }
      ListedIsStable(s1, store, entry);
      return Ok(());
    }

    /** Sign for a listed manifest: with its own times, or with fresh ones that its retention outlasts. */
    method SignManifest(e: Expected, record: Blob, ref: Ref, m: Manifest) returns (r: Result<Token, Error>)
      requires Good(cfg, store) && cfg.Valid() && ExpectedFor(record) == Some(e) && ref.hash == ManifestDoc(m)
      requires Listed(store, LedgerEntry(e.eventId, e.eventType, record, ref)) && Anchored(store, record, ref)
      modifies this
      ensures Rely(cfg, old(store), store)
      ensures r.Ok? ==> r.value in store.issued && r.value.claims.record == record && r.value.claims.manifest == ref
      ensures calm ==> (r.Ok? <==> FixedTimes(e.eventType) || FreshExpiry(cfg, clock) <= ref.retain)
      ensures calm && r.Ok? ==> r.value == ReceiptFor(cfg, e, ref, clock)
    {
      LedgerIsEvidence(cfg, store, LedgerEntry(e.eventId, e.eventType, record, ref));
      var issuedAt, expiresAt := m.issuedAt, m.expiresAt;
      if !FixedTimes(e.eventType) {
        var now := Now();
        issuedAt := Truncate(now);
        expiresAt := Truncate(issuedAt + cfg.receiptTTL);
        TruncateMeans(now);
        TruncateLater(issuedAt, cfg.receiptTTL);
        if ref.retain < expiresAt {
          return Err(Unavailable);
        }
      }
      var token := Issue(e, ref, issuedAt, expiresAt);
      return Ok(token);
    }

    // ------------------------------------------------------------------------- requests

    /** The times of a new manifest, or none when the preparation has run out. */
    method NewTimes(e: Envelope, acceptedAt: Time) returns (r: Result<(Time, Time), Error>)
      requires cfg.Valid() && ValidEnvelope(e)
      ensures r.Ok? ==> r.value.0 == Truncate(acceptedAt) && r.value.0 < r.value.1 <= r.value.0 + cfg.receiptTTL
      ensures r.Ok? ==> r.value.1 % SECOND == 0
      ensures r.Ok? && e.eventType.ExecutionAdmission? ==> r.value.1 <= e.execution.value.preparedUntil
      ensures r.Err? <==> (e.eventType.ExecutionAdmission?
        && (e.execution.value.preparedUntil <= acceptedAt
            || Truncate(e.execution.value.preparedUntil) <= Truncate(acceptedAt)))
    {
      var now := Truncate(acceptedAt);
      TruncateMeans(acceptedAt);
      var expires := now + cfg.receiptTTL;
      TruncateLater(now, cfg.receiptTTL);
      if e.eventType.ExecutionAdmission? {
        var until := e.execution.value.preparedUntil;
        TruncateMeans(until);
        if acceptedAt >= until {
          return Err(Schema);
        }
        if expires > until {
          expires := Truncate(until);
        }
      }
      if expires <= now {
        return Err(Schema);
      }
      TruncateMeans(expires);
      return Ok((now, Truncate(expires)));
    }

    /** Store every attachment and then the envelope, in order. */
    method ProtectContent(record: Blob, e: Envelope, inputs: seq<Input>, retain: Time)
      returns (r: Result<(Ref, seq<Ref>), Error>)
      requires Good(cfg, store) && record.Record? && record.envelope == e && |inputs| == |e.attachments|
      requires DistinctIds(e.attachments)
      modifies this
      ensures Rely(cfg, old(store), store)
      ensures r.Ok? ==> r.value.0.hash == record && Stored(store, BucketFor(e.eventType), r.value.0, retain)
      ensures r.Ok? ==> |r.value.1| == |e.attachments|
      ensures r.Ok? ==> forall i :: 0 <= i < |e.attachments| ==>
        r.value.1[i].hash == e.attachments[i].hash && Stored(store, BucketFor(e.eventType), r.value.1[i], retain)
      ensures r.Ok? ==> InputsMatch(e, inputs)
      ensures calm && NoContent(old(store), record) ==> (r.Ok? <==> InputsMatch(e, inputs))
      ensures calm && NoContent(old(store), record) && r.Ok? ==>
        && r.value.0.retain == retain && (forall i :: 0 <= i < |r.value.1| ==> r.value.1[i].retain == retain)
        && SameElsewhere(old(store), store)
      ensures calm && NoContent(old(store), record) && r.Err? ==> r == Err(Schema)
    {
      var b := BucketFor(e.eventType);
      var refs: seq<Ref> := [];
      var i := 0;
      while i < |e.attachments|
        invariant 0 <= i == |refs| <= |e.attachments| && Rely(cfg, old(store), store)
        invariant forall j :: 0 <= j < i ==> refs[j].hash == e.attachments[j].hash && Stored(store, b, refs[j], retain)
        invariant forall j :: 0 <= j < i ==> InputMatches(e.attachments[j], inputs[j])
        invariant calm && NoContent(old(store), record) ==>
          && SameElsewhere(old(store), store) && EnvelopeKey(e.eventId, record) !in store.In(b)
          && (forall j :: i <= j < |e.attachments| ==> ContentKey(record, j) !in store.In(b))
          && (forall j :: 0 <= j < i ==> refs[j].retain == retain)
      {
        var a := e.attachments[i];
        if inputs[i].id != a.id || inputs[i].data.None? || inputs[i].data.value != a.hash {
          assert !InputMatches(e.attachments[i], inputs[i]);
          return Err(Schema);
        }
        ghost var before := store;
        assert ContentKey(record, i) == AttachmentKey(e.eventId, record, a.id);
        var put := ProtectIn(b, AttachmentKey(e.eventId, record, a.id), inputs[i].data.value, retain);
        GrowsTransitive(old(store), before, store);
        if put.Err? {
          return Err(put.error);
        }
        StoredAllStable(before, store, b, refs, retain);
        refs := refs + [put.value];
        i := i + 1;
      }
      ghost var before := store;
      var envelope := ProtectIn(b, EnvelopeKey(e.eventId, record), record, retain);
      GrowsTransitive(old(store), before, store);
      if envelope.Err? {
        return Err(envelope.error);
      }
      StoredAllStable(before, store, b, refs, retain);
      return Ok((envelope.value, refs));
    }

    /** The part of Preserve after no earlier record was found. */
    method PreserveNew(expected: Expected, record: Blob, inputs: seq<Input>) returns (r: Result<Token, Error>)
      requires Good(cfg, store) && cfg.Valid() && ExpectedFor(record) == Some(expected)
      requires |inputs| == |record.envelope.attachments|
      modifies this
      ensures Rely(cfg, old(store), store)
      ensures r.Ok? ==> r.value in store.issued && r.value.claims.record == record
      ensures calm && Untouched(old(store), record) ==>
        (r.Ok? <==> InputsMatch(record.envelope, inputs) && TimesAllow(record.envelope, clock))
      ensures calm && Untouched(old(store), record) && r.Ok? ==> NewReceipt(cfg, expected, r.value, clock)
    {
      var e := record.envelope;
      var b := BucketFor(e.eventType);
      var acceptedAt := Now();
      var times := NewTimes(e, acceptedAt);
      if times.Err? {
        return Err(times.error);
      }
      var retain := acceptedAt + cfg.Retention(e.eventType);
      var content := ProtectContent(record, e, inputs, retain);
      if content.Err? {
        return Err(content.error);
      }
      var m := Manifest(e.eventId, record, content.value.0, content.value.1, cfg.keyId, times.value.0, times.value.1,
                        retain, cfg.Qualification(b));
      assert Complete(store, b, m);
      TruncateMeans(acceptedAt);
      assert Retained(cfg, m);
      ghost var s1 := store;
      var put := Put(b, ManifestKey(e.eventId), ManifestDoc(m), retain);
      GrowsTransitive(old(store), s1, store);
      ghost var s2 := store;
      if put.Err? {
        var found := Find(b, ManifestKey(e.eventId));
        GrowsTransitive(old(store), s2, store);
        if found.Err? {
          return Err(Unavailable);
        }
        ghost var s3 := store;
        ManifestNamesItsKey(cfg, store, found.value);
        r := Reconcile(expected, record, found.value, found.value.hash);
        GrowsTransitive(old(store), s3, store);
      } else {
        if calm && Untouched(old(store), record) {
          NewManifestIsSignable(cfg, old(store), s1, store, record, m, put.value, clock);
        }
        r := Reconcile(expected, record, put.value, ManifestDoc(m));
        GrowsTransitive(old(store), s2, store);
      }
    }

    method Preserve(record: Blob, inputs: seq<Input>) returns (r: Result<Token, Error>)
      requires Good(cfg, store) && cfg.Valid()
      modifies this
      ensures Rely(cfg, old(store), store)
      ensures r.Ok? ==> r.value in store.issued && r.value.claims.record == record
      ensures calm && !WellSubmitted(record, inputs) ==> r == Err(Schema)
      ensures calm && WellSubmitted(record, inputs) && Untouched(old(store), record) ==>
        (r.Ok? <==> InputsMatch(record.envelope, inputs) && TimesAllow(record.envelope, clock))
      ensures calm && WellSubmitted(record, inputs) && Untouched(old(store), record) && r.Ok? ==>
        NewReceipt(cfg, ExpectedFor(record).value, r.value, clock)
      ensures forall l :: calm && WellSubmitted(record, inputs) && Listed(old(store), l) ==>
        l.eventId == record.envelope.eventId ==>
        if l.record != record then r == Err(Conflict)
        else if Signable(cfg, old(store), record, l.manifest, clock)
        then r == Ok(ReceiptFor(cfg, ExpectedFor(record).value, l.manifest, clock)) else r.Err?
    {
      var busy := *;
      if !calm && busy {
        return Err(Busy);
      }
      if ExpectedFor(record).None? || |inputs| != |record.envelope.attachments| {
        return Err(Schema);
      }
      var expected := ExpectedFor(record).value;
      var b := BucketFor(expected.eventType);
      var ledger := ReadLedger(expected.eventId);
      ghost var s1 := store;
      if ledger.Ok? {
        if ledger.value.record != expected.record || ledger.value.eventType != expected.eventType {
          return Err(Conflict);
        }
        LedgerIsEvidence(cfg, store, ledger.value);
        var manifest := Read(b, ledger.value.manifest);
        GrowsTransitive(old(store), s1, store);
        if manifest.Err? {
          return Err(Unavailable);
        }
        ghost var s2 := store;
        r := Reconcile(expected, record, ledger.value.manifest, manifest.value);
        GrowsTransitive(old(store), s2, store);
        return;
      }
      if ledger.error != NotFound {
        return Err(Unavailable);
      }
      var found := Find(b, ManifestKey(expected.eventId));
      GrowsTransitive(old(store), s1, store);
      ghost var s3 := store;
      if found.Ok? {
        ManifestNamesItsKey(cfg, store, found.value);
        r := Reconcile(expected, record, found.value, found.value.hash);
        GrowsTransitive(old(store), s3, store);
        return;
      }
      if found.error != NotFound {
        return Err(Unavailable);
      }
      r := PreserveNew(expected, record, inputs);
      GrowsTransitive(old(store), s3, store);
    }

    method Lookup(eventId: Id, hash: Blob) returns (r: Result<Token, Error>)
      requires Good(cfg, store) && cfg.Valid()
      modifies this
      ensures Rely(cfg, old(store), store)
      ensures r.Ok? ==> r.value in store.issued && r.value.claims.eventId == eventId && r.value.claims.record == hash
      ensures calm && ValidId(eventId) && EventKey(eventId) !in old(store).governance ==> r == Err(NotFound)
      ensures forall l :: calm && ValidId(eventId) && Listed(old(store), l) && l.eventId == eventId ==>
        if l.record != hash then r == Err(Conflict)
        else if Signable(cfg, old(store), hash, l.manifest, clock)
        then ExpectedFor(hash).Some? && r == Ok(ReceiptFor(cfg, ExpectedFor(hash).value, l.manifest, clock)) else r.Err?
    {
      var busy := *;
      if !calm && busy {
        return Err(Busy);
      }
      if !ValidId(eventId) {
        return Err(Schema);
      }
      var ledger := ReadLedger(eventId);
      if ledger.Err? {
        return Err(ledger.error);
      }
      var b := BucketFor(ledger.value.eventType);
      var ref := ledger.value.manifest;
      LedgerIsEvidence(cfg, store, ledger.value);
      ghost var s1 := store;
      var manifest := Read(b, ref);
      GrowsTransitive(old(store), s1, store);
      if manifest.Err? {
        return Err(manifest.error);
      }
      if !manifest.value.ManifestDoc? || manifest.value.manifest.eventId != eventId
         || manifest.value.manifest.record != hash {
        return Err(Conflict);
      }
      ghost var s2 := store;
      var record := Read(b, manifest.value.manifest.envelope);
      GrowsTransitive(old(store), s2, store);
      if record.Err? || ExpectedFor(record.value).None? {
        return Err(Unavailable);
      }
      ghost var s3 := store;
      r := Reconcile(ExpectedFor(record.value).value, record.value, ref, manifest.value);
      GrowsTransitive(old(store), s3, store);
      if r.Ok? {
        LookupNamesRecord(cfg, store, r.value, manifest.value.manifest, eventId, hash);
      }
    }

    /** The latest anchor with its archived manifest and record, all checks made. */
    method ReadAnchor(installation: Id) returns (r: Result<AnchorEntry, Error>)
      requires Good(cfg, store)
      modifies this
      ensures Rely(cfg, old(store), store)
      ensures r.Ok? ==> AnchorStored(store, installation, r.value) && ExpectedFor(r.value.record).Some?
      ensures r.Ok? ==> r.value.record.envelope.eventType.PolicyAnchor? && r.value.manifest.hash.ManifestDoc?
      ensures r.Ok? ==> forall v: nat :: HasAnchor(old(store), installation, v) ==> v <= r.value.version
      ensures calm && ValidId(installation) ==> store == old(store)
      ensures calm && ValidId(installation) ==>
        if Latest(store, installation, MAX_VERSION) == 1 then r == Err(NotFound)
        else r.Ok? && r.value.version == Latest(store, installation, MAX_VERSION)
    {
      var latest := LatestAnchor(installation);
      if latest.Err? {
        return Err(latest.error);
      }
      var idx := latest.value;
      ghost var s1 := store;
      AnchorIsEvidence(cfg, store, installation, idx);
      var manifest := Read(Governance, idx.manifest);
      GrowsTransitive(old(store), s1, store);
      if manifest.Err? || !manifest.value.ManifestDoc? {
        return Err(Unavailable);
      }
      var m := manifest.value.manifest;
      ghost var s2 := store;
      var record := Read(Governance, m.envelope);
      GrowsTransitive(old(store), s2, store);
      if idx.manifest.retain != m.retainUntil || m.envelope.retain != m.retainUntil
         || record.Err? || ExpectedFor(record.value).None? {
        return Err(Unavailable);
      }
      var e := record.value.envelope;
      if !e.eventType.PolicyAnchor? || e.installation != installation || e.policyVersion != idx.version
         || e.eventId != idx.eventId || record.value != idx.record || record.value != m.record {
        return Err(Unavailable);
      }
      GrowsTransitive(s1, s2, store);
      return Ok(idx);
    }

    /** The latest anchor, signed with the caller's nonce; never older than the latest at the start of the call. */
    method Anchor(installation: Id, nonce: string) returns (r: Result<Token, Error>)
      requires Good(cfg, store) && cfg.Valid()
      modifies this
      ensures Rely(cfg, old(store), store)
      ensures r.Ok? ==> r.value in store.issued && r.value.claims.nonce == nonce
      ensures r.Ok? ==> r.value.claims.record.Record? && r.value.claims.record.envelope.installation == installation
      ensures r.Ok? ==> HasAnchor(store, installation, r.value.claims.policyVersion)
      ensures r.Ok? ==> forall v: nat :: HasAnchor(old(store), installation, v) ==> v <= r.value.claims.policyVersion
      ensures calm && ValidId(installation) && Latest(old(store), installation, MAX_VERSION) == 1 ==> r == Err(NotFound)
      ensures calm && ValidId(installation) && Latest(old(store), installation, MAX_VERSION) > 1 ==>
        var key := AnchorKey(installation, Latest(old(store), installation, MAX_VERSION));
        AnchorAnswered(cfg, old(store), key, nonce, r, clock)
    {
      var busy := *;
      if !calm && busy {
        return Err(Busy);
      }
      var latest := ReadAnchor(installation);
      if latest.Err? {
        return Err(latest.error);
      }
      var idx := latest.value;
      var now := Now();
      var issuedAt := Truncate(now);
      var expiresAt := Truncate(issuedAt + cfg.receiptTTL);
      TruncateMeans(now);
      TruncateLater(issuedAt, cfg.receiptTTL);
      AnchorIsListed(cfg, store, store, installation, idx);
      AnchorIsEvidence(cfg, store, installation, idx);
      if idx.manifest.retain < expiresAt {
        return Err(Unavailable);
      }
      ghost var s1 := store;
      var token := Issue(ExpectedFor(idx.record).value.(nonce := nonce), idx.manifest, issuedAt, expiresAt);
      GrowsTransitive(old(store), s1, store);
      return Ok(token);
    }
  }

  /** The answer for the anchor stored under `key`: its receipt, unless its retention ends too soon. */
  predicate AnchorAnswered(c: Config, s: Store, key: Key, nonce: string, r: Result<Token, Error>, clock: Time) {
    && key in s.governance && s.governance[key].data.AnchorDoc?
    && var a := s.governance[key].data.anchor;
    && ExpectedFor(a.record).Some? && (r.Ok? <==> FreshExpiry(c, clock) <= a.manifest.retain)
    && var e := ExpectedFor(a.record).value.(nonce := nonce);
    && (r.Ok? ==> r.value == Sign(c, e, a.manifest, Truncate(clock), FreshExpiry(c, clock)))
  }

  // ------------------------------------------------------------------ what requests need

  /** The record announces the version after the latest one. */
  predicate AnchorComesNext(s: Store, e: Envelope) {
    && !HasAnchor(s, e.installation, e.policyVersion)
    && Latest(s, e.installation, MAX_VERSION) == e.expectedVersion
  }

  /** The record's own anchor is stored for long enough. */
  predicate AnchorKept(s: Store, record: Blob, ref: Ref, retain: Time)
    requires record.Record?
  {
    && AnchorStored(s, record.envelope.installation, AnchorFor(record, ref))
    && s.governance[AnchorKey(record.envelope.installation, record.envelope.policyVersion)].retain >= retain
  }

  /** Neither the ledger nor the anchors hold anything against the record. */
  predicate Enterable(s: Store, record: Blob, ref: Ref, retain: Time)
    requires record.Record?
  {
    && var e := record.envelope;
    && (EventKey(e.eventId) in s.governance ==> Listed(s, LedgerEntry(e.eventId, e.eventType, record, ref)))
    && (e.eventType.PolicyAnchor? ==> AnchorComesNext(s, e) || AnchorKept(s, record, ref, retain))
  }

  function FreshExpiry(c: Config, clock: Time): Time {
    Truncate(Truncate(clock) + c.receiptTTL)
  }

  /** What an archived manifest needs for a receipt at `clock`. */
  predicate Signable(c: Config, s: Store, record: Blob, ref: Ref, clock: Time) {
    && record.Record? && ref.hash.ManifestDoc?
    && var e, m := record.envelope, ref.hash.manifest;
    && var entry := LedgerEntry(e.eventId, e.eventType, record, ref);
    && Evidence(c, s, entry) && Enterable(s, record, ref, m.retainUntil)
    && (FixedTimes(e.eventType) ==> m.signingKey == c.keyId)
    && (FixedTimes(e.eventType) ==> m.qualification == c.Qualification(BucketFor(e.eventType)))
    && (e.eventType.ExecutionAdmission? ==> clock < m.expiresAt)
    && (!FixedTimes(e.eventType) ==> FreshExpiry(c, clock) <= ref.retain)
  }

  /** The receipt it then gets: with the manifest's own times, or fresh ones. */
  function ReceiptFor(c: Config, e: Expected, ref: Ref, clock: Time): Token
    requires ref.hash.ManifestDoc?
  {
    var m := ref.hash.manifest;
    if FixedTimes(e.eventType) then Sign(c, e, ref, m.issuedAt, m.expiresAt)
    else Sign(c, e, ref, Truncate(clock), FreshExpiry(c, clock))
  }

  predicate InputMatches(a: Attachment, input: Input) {
    input.id == a.id && input.data == Some(a.hash)
  }

  predicate InputsMatch(e: Envelope, inputs: seq<Input>)
    requires |inputs| == |e.attachments|
  {
    forall i :: 0 <= i < |inputs| ==> InputMatches(e.attachments[i], inputs[i])
  }

  predicate WellSubmitted(record: Blob, inputs: seq<Input>) {
    ExpectedFor(record).Some? && |inputs| == |record.envelope.attachments|
  }

  /** There is time left for a receipt before the preparation ends. */
  predicate TimesAllow(e: Envelope, clock: Time) {
    e.eventType.ExecutionAdmission? && e.execution.Some? ==>
      clock < e.execution.value.preparedUntil && Truncate(clock) < Truncate(e.execution.value.preparedUntil)
  }

  function ContentKey(record: Blob, i: nat): Key
    requires record.Record? && i < |record.envelope.attachments|
  {
    AttachmentKey(record.envelope.eventId, record, record.envelope.attachments[i].id)
  }

  predicate NoContent(s: Store, record: Blob)
    requires record.Record?
  {
    && var b := BucketFor(record.envelope.eventType);
    && EnvelopeKey(record.envelope.eventId, record) !in s.In(b)
    && forall i :: 0 <= i < |record.envelope.attachments| ==> ContentKey(record, i) !in s.In(b)
  }

  /** Nothing of the event is stored, and an anchor would come next. */
  predicate Untouched(s: Store, record: Blob)
    requires record.Record?
  {
    && var e := record.envelope;
    && NoContent(s, record) && ManifestKey(e.eventId) !in s.In(BucketFor(e.eventType))
    && EventKey(e.eventId) !in s.governance && (e.eventType.PolicyAnchor? ==> AnchorComesNext(s, e))
  }

  /** Only content objects differ. */
  ghost predicate SameElsewhere(s: Store, t: Store) {
    s.issued == t.issued && SameKeys(s.originals, t.originals) && SameKeys(s.governance, t.governance)
  }

  ghost predicate SameKeys(a: map<Key, Object>, b: map<Key, Object>) {
    forall k: Key :: !k.AttachmentKey? && !k.EnvelopeKey? ==> (k in a <==> k in b)
  }

  /** Exactly one object was added. */
  predicate Created(s: Store, t: Store, b: Bucket, k: Key, data: Blob, retain: Time) {
    k !in s.In(b) && k in t.In(b) && t == s.With(b, k, Object(t.In(b)[k].version, data, retain))
  }

  /** A first receipt: for a manifest issued now, with all of its evidence retained for the configured time. */
  predicate NewReceipt(c: Config, e: Expected, t: Token, clock: Time) {
    && t.claims.manifest.hash.ManifestDoc? && t == ReceiptFor(c, e, t.claims.manifest, clock)
    && var m := t.claims.manifest.hash.manifest;
    && m.issuedAt == Truncate(clock) && m.retainUntil == clock + c.Retention(e.eventType)
    && t.claims.manifest.retain == m.retainUntil && t.claims.manifest.bucket == BucketFor(e.eventType)
  }

  // -------------------------------------------------------------------- supporting facts

  method AsSequence(keys: set<Key>) returns (list: seq<Key>)
    ensures forall k :: k in list <==> k in keys
  {
    list := [];
    var rest := keys;
    while rest != {}
      invariant rest <= keys && forall k :: k in list <==> k in keys - rest
    {
      var k :| k in rest;
      list := list + [k];
      rest := rest - {k};
    }
  }

  lemma LedgerNamesItsKey(c: Config, s: Store, id: Id)
    requires Good(c, s)
    ensures EventKey(id) in s.governance ==>
      s.governance[EventKey(id)].data.LedgerDoc? && s.governance[EventKey(id)].data.entry.eventId == id
  {
    if EventKey(id) in s.governance {
      assert Fits(c, s, Governance, EventKey(id), s.In(Governance)[EventKey(id)].data);
    }
  }

  lemma LedgerIsEvidence(c: Config, s: Store, l: LedgerEntry)
    requires Good(c, s) && Listed(s, l)
    ensures Evidence(c, s, l)
  {
    assert Fits(c, s, Governance, EventKey(l.eventId), s.In(Governance)[EventKey(l.eventId)].data);
  }

  lemma ManifestNamesItsKey(c: Config, s: Store, r: Ref)
    requires Good(c, s) && Holds(s, r) && r.key.ManifestKey?
    ensures r.hash.ManifestDoc? && r.hash.manifest.eventId == r.key.id && Retained(c, r.hash.manifest)
  {
    assert ArchiveGood(c, s, r.bucket);
    assert Fits(c, s, r.bucket, r.key, s.In(r.bucket)[r.key].data);
  }

  lemma AnchorIsEvidence(c: Config, s: Store, i: Id, a: AnchorEntry)
    requires Good(c, s) && AnchorStored(s, i, a)
    ensures Evidence(c, s, LedgerEntry(a.eventId, PolicyAnchor, a.record, a.manifest))
    ensures a.record.envelope.installation == i && a.record.envelope.policyVersion == a.version
  {
    AnchorDocNamesItsKey(c, s, AnchorKey(i, a.version));
    LedgerIsEvidence(c, s, LedgerEntry(a.eventId, PolicyAnchor, a.record, a.manifest));
  }

  lemma {:induction false} SameLatest(s: Store, t: Store, i: Id, bound: nat)
    requires forall v: nat :: HasAnchor(s, i, v) <==> HasAnchor(t, i, v)
    ensures Latest(s, i, bound) == Latest(t, i, bound)
    decreases bound
  {
    if bound > 1 {
      SameLatest(s, t, i, bound - 1);
    }
  }

  /** A ledger entry changes nothing about anchors. */
  lemma LedgerLeavesAnchors(s: Store, t: Store, record: Blob, ref: Ref, retain: Time)
    requires record.Record?
    ensures (forall k: Key :: !k.EventKey? ==> (k in s.governance <==> k in t.governance)) ==>
      (AnchorComesNext(s, record.envelope) <==> AnchorComesNext(t, record.envelope))
    ensures Grows(s, t) && AnchorKept(s, record, ref, retain) ==> AnchorKept(t, record, ref, retain)
  {
    if forall k: Key :: !k.EventKey? ==> (k in s.governance <==> k in t.governance) {
      SameLatest(s, t, record.envelope.installation, MAX_VERSION);
    }
  }

  /** A manifest just written for untouched content gets its receipt. */
  lemma NewManifestIsSignable(c: Config, s: Store, t: Store, u: Store, record: Blob, m: Manifest, ref: Ref, clock: Time)
    requires c.Valid() && ExpectedFor(record).Some? && Untouched(s, record) && SameElsewhere(s, t)
    requires var b := BucketFor(record.envelope.eventType);
      && u == t.With(b, ManifestKey(record.envelope.eventId), Object(ref.version, ManifestDoc(m), ref.retain))
      && ref == Ref(b, ManifestKey(record.envelope.eventId), ref.version, ManifestDoc(m), ref.retain)
      && ManifestKey(record.envelope.eventId) !in t.In(b)
      && Complete(t, b, m) && CommonRetention(m, ref)
      && m.signingKey == c.keyId && m.qualification == c.Qualification(b)
    requires m.eventId == record.envelope.eventId && m.record == record && ManifestTimes(c, m) && Retained(c, m)
    requires m.issuedAt == Truncate(clock) && m.retainUntil == clock + c.Retention(record.envelope.eventType)
    requires m.issuedAt % SECOND == 0 && m.expiresAt % SECOND == 0
    ensures Signable(c, u, record, ref, clock)
  {
    var e := record.envelope;
    var b := BucketFor(e.eventType);
    CreateGrows(t, b, ManifestKey(e.eventId), Object(ref.version, ManifestDoc(m), ref.retain));
    CompleteIsStable(t, u, b, m);
    TruncateMeans(clock);
    TruncateLater(Truncate(clock), c.receiptTTL);
    assert EventKey(e.eventId) !in t.In(Governance);
    if e.eventType.PolicyAnchor? {
      forall v: nat
        ensures HasAnchor(s, e.installation, v) <==> HasAnchor(u, e.installation, v)
      {
        assert AnchorKey(e.installation, v) in s.In(Governance) <==> AnchorKey(e.installation, v) in t.In(Governance);
      }
      SameLatest(s, u, e.installation, MAX_VERSION);
    }
  }

  lemma StoredAllStable(s: Store, t: Store, b: Bucket, refs: seq<Ref>, retain: Time)
    requires Grows(s, t) && forall i :: 0 <= i < |refs| ==> Stored(s, b, refs[i], retain)
    ensures forall i :: 0 <= i < |refs| ==> Stored(t, b, refs[i], retain)
  {
    forall i | 0 <= i < |refs|
      ensures Stored(t, b, refs[i], retain)
    {
      HoldsIsStable(s, t, refs[i]);
    }
  }

  /** Sorting by text finds the numerically largest version. */
  lemma LastIsNewest(c: Config, s: Store, i: Id, keys: seq<Key>, hex: Blob -> string)
    requires Good(c, s) && keys != []
    requires forall k :: k in keys ==> k.AnchorKey? && k.installation == i && k in s.governance
    ensures LastByText(keys, hex).AnchorKey? && LastByText(keys, hex) in s.governance
    ensures forall k :: k in keys ==> k.version <= LastByText(keys, hex).version
  {
    var last := LastByText(keys, hex);
    assert HasAnchor(s, i, last.version);
    AnchorHasPredecessor(c, s, i, last.version);
    forall k | k in keys
      ensures k.version <= last.version
    {
      assert HasAnchor(s, i, k.version);
      AnchorHasPredecessor(c, s, i, k.version);
      AnchorKeysSortByVersion(i, k.version, last.version, hex);
    }
  }

  lemma AnchorDocNamesItsKey(c: Config, s: Store, k: Key)
    requires Good(c, s) && k.AnchorKey? && k in s.governance
    ensures s.governance[k].data.AnchorDoc? && s.governance[k].data.anchor.version == k.version
    ensures var a := s.governance[k].data.anchor; AnchorEvidence(s, k.installation, a)
  {
    assert Fits(c, s, Governance, k, s.In(Governance)[k].data);
  }

  lemma AnchorIsListed(c: Config, s: Store, t: Store, i: Id, a: AnchorEntry)
    requires Good(c, s) && AnchorStored(s, i, a) && Grows(s, t)
    ensures Listed(t, LedgerEntry(a.eventId, PolicyAnchor, a.record, a.manifest)) && HasAnchor(t, i, a.version)
  {
    AnchorDocNamesItsKey(c, s, AnchorKey(i, a.version));
    ListedIsStable(s, t, LedgerEntry(a.eventId, PolicyAnchor, a.record, a.manifest));
  }

  /** The manifest a receipt names is its own event's manifest. */
  lemma LookupNamesRecord(c: Config, s: Store, t: Token, m: Manifest, eventId: Id, hash: Blob)
    requires Good(c, s) && t in s.issued && t.claims.manifest.hash == ManifestDoc(m)
    requires m.eventId == eventId && m.record == hash
    ensures t.claims.eventId == eventId && t.claims.record == hash
  {
    ReceiptIsEvidence(c, s, t);
    var k := t.claims;
    assert Backed(c, s, t);
    assert Fits(c, s, Governance, EventKey(k.eventId), s.In(Governance)[EventKey(k.eventId)].data);
  }
}
