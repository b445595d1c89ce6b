/**
  The two conditional-create archives as one value, what every request keeps true of them, and
  what follows for the receipts signed so far.
 */
module ArchiveStore {
  import opened Basics
  import opened Receipts
  import Text

  datatype Object = Object(version: nat, data: Blob, retain: Time)

  /** `issued` is every token ever signed. */
  datatype Store = Store(originals: map<Key, Object>, governance: map<Key, Object>, issued: set<Token>) {
    function In(b: Bucket): map<Key, Object> {
      if b == Governance then governance else originals
    }

    function With(b: Bucket, k: Key, o: Object): Store {
      if b == Governance then this.(governance := governance[k := o]) else this.(originals := originals[k := o])
    }
  }

  /** The exact version a reference names is stored. */
  predicate Holds(s: Store, r: Ref) {
    r.key in s.In(r.bucket) && s.In(r.bucket)[r.key] == Object(r.version, r.hash, r.retain)
  }

  predicate Extends(a: map<Key, Object>, b: map<Key, Object>) {
    forall k :: k in a ==> k in b && b[k] == a[k]
  }

  /** Nothing stored is changed or removed, and no signed token is forgotten. */
  predicate Grows(s: Store, t: Store) {
    Extends(s.originals, t.originals) && Extends(s.governance, t.governance) && s.issued <= t.issued
  }

  // ----------------------------------------------------------------- what is kept true

  /** Content of a manifest: stored in `b`, with the declared digests, for at least its retention. */
  predicate Complete(s: Store, b: Bucket, m: Manifest) {
    && m.record.Record? && m.envelope.hash == m.record && Stored(s, b, m.envelope, m.retainUntil)
    && |m.attachments| == |m.record.envelope.attachments|
    && forall i :: 0 <= i < |m.attachments| ==>
         m.attachments[i].hash == m.record.envelope.attachments[i].hash && Stored(s, b, m.attachments[i], m.retainUntil)
  }

  predicate Stored(s: Store, b: Bucket, r: Ref, retain: Time) {
    Holds(s, r) && r.bucket == b && r.retain >= retain
  }

  /** Envelope, attachments and manifest share the manifest's retention exactly. */
  predicate CommonRetention(m: Manifest, ref: Ref) {
    && m.envelope.retain == m.retainUntil && ref.retain == m.retainUntil
    && forall i :: 0 <= i < |m.attachments| ==> m.attachments[i].retain == m.retainUntil
  }

  predicate ManifestTimes(c: Config, m: Manifest) {
    && m.issuedAt < m.expiresAt && m.expiresAt - m.issuedAt <= c.receiptTTL && m.expiresAt <= m.retainUntil
    && (m.record.Record? && m.record.envelope.eventType.ExecutionAdmission? && m.record.envelope.execution.Some? ==>
          m.expiresAt <= m.record.envelope.execution.value.preparedUntil)
  }

  /** The manifest is retained for as long as its record's type demands, counted from its issue. */
  predicate Retained(c: Config, m: Manifest) {
    m.record.Record? ==> m.issuedAt + c.Retention(m.record.envelope.eventType) <= m.retainUntil
  }

  /** Everything a ledger entry vouches for. */
  predicate Evidence(c: Config, s: Store, l: LedgerEntry) {
    && l.record.Record? && ValidEnvelope(l.record.envelope)
    && l.record.envelope.eventId == l.eventId && l.record.envelope.eventType == l.eventType
    && l.manifest.bucket == BucketFor(l.eventType) && Holds(s, l.manifest) && l.manifest.hash.ManifestDoc?
    && var m := l.manifest.hash.manifest;
    && m.eventId == l.eventId && m.record == l.record
    && Complete(s, l.manifest.bucket, m) && CommonRetention(m, l.manifest) && ManifestTimes(c, m) && Retained(c, m)
  }

  /** The ledger entry for an event, if one is stored. */
  predicate Listed(s: Store, l: LedgerEntry) {
    EventKey(l.eventId) in s.governance && s.governance[EventKey(l.eventId)].data == LedgerDoc(l)
  }

  predicate AnchorEvidence(s: Store, installation: Id, a: AnchorEntry) {
    && 2 <= a.version <= MAX_VERSION
    && (a.version > 2 ==> AnchorKey(installation, a.version - 1) in s.governance)
    && Listed(s, LedgerEntry(a.eventId, PolicyAnchor, a.record, a.manifest))
    && a.record.Record? && a.record.envelope.installation == installation
    && a.record.envelope.policyVersion == a.version
  }

  predicate HasAnchor(s: Store, i: Id, v: nat) {
    AnchorKey(i, v) in s.governance
  }

  predicate AnchorStored(s: Store, installation: Id, a: AnchorEntry) {
    HasAnchor(s, installation, a.version) && s.governance[AnchorKey(installation, a.version)].data == AnchorDoc(a)
  }

  function AnchorFor(record: Blob, ref: Ref): AnchorEntry
    requires record.Record?
  {
    AnchorEntry(ref, record.envelope.policyVersion, record.envelope.eventId, record)
  }

  /** A policy anchor is stored as its version's anchor; other records need none. */
  predicate Anchored(s: Store, record: Blob, ref: Ref) {
    record.Record? && record.envelope.eventType.PolicyAnchor? ==>
      AnchorStored(s, record.envelope.installation, AnchorFor(record, ref))
  }

  /** A signed token repeats its event's ledger entry, and the manifest's times where they are fixed. */
  predicate Backed(c: Config, s: Store, t: Token) {
    var k := t.claims;
    && ExpectedFor(k.record).Some?
    && var e := ExpectedFor(k.record).value.(nonce := k.nonce);
    && t == Sign(c, e, k.manifest, k.issuedAt, k.expiresAt)
    && WellTimed(c, e, k.manifest, k.issuedAt, k.expiresAt)
    && Listed(s, LedgerEntry(k.eventId, k.eventType, k.record, k.manifest)) && Anchored(s, k.record, k.manifest)
    && k.manifest.hash.ManifestDoc?
    && (FixedTimes(k.eventType) ==>
          k.issuedAt == k.manifest.hash.manifest.issuedAt && k.expiresAt == k.manifest.hash.manifest.expiresAt)
  }

  /** What may be stored under a key. */
  predicate Fits(c: Config, s: Store, b: Bucket, k: Key, data: Blob) {
    match k
    case ManifestKey(id) =>
      data.ManifestDoc? && data.manifest.eventId == id && Complete(s, b, data.manifest) && Retained(c, data.manifest)
    case EventKey(id) => b == Governance && data.LedgerDoc? && data.entry.eventId == id && Evidence(c, s, data.entry)
    case AnchorKey(i, v) =>
      b == Governance && data.AnchorDoc? && data.anchor.version == v && AnchorEvidence(s, i, data.anchor)
    case _ => true
  }

  predicate ArchiveGood(c: Config, s: Store, b: Bucket) {
    forall k :: k in s.In(b) ==> Fits(c, s, b, k, s.In(b)[k].data)
  }

  predicate Good(c: Config, s: Store) {
    && ArchiveGood(c, s, Originals) && ArchiveGood(c, s, Governance)
    && forall t :: t in s.issued ==> Backed(c, s, t)
  }

  /** What one request may see others do between two of its own steps. */
  predicate Rely(c: Config, s: Store, t: Store) {
    Good(c, t) && Grows(s, t)
  }

  // --------------------------------------------------------------------- stability

  lemma GrowsTransitive(s: Store, t: Store, u: Store)
    requires Grows(s, t) && Grows(t, u)
    ensures Grows(s, u)
  {
  }

  lemma HoldsIsStable(s: Store, t: Store, r: Ref)
    requires Grows(s, t) && Holds(s, r)
    ensures Holds(t, r)
  {
    assert Extends(s.In(r.bucket), t.In(r.bucket));
  }

  lemma CompleteIsStable(s: Store, t: Store, b: Bucket, m: Manifest)
    requires Grows(s, t) && Complete(s, b, m)
    ensures Complete(t, b, m)
  {
    HoldsIsStable(s, t, m.envelope);
    forall i | 0 <= i < |m.attachments|
      ensures Stored(t, b, m.attachments[i], m.retainUntil)
    {
      HoldsIsStable(s, t, m.attachments[i]);
    }
  }

  lemma EvidenceIsStable(c: Config, s: Store, t: Store, l: LedgerEntry)
    requires Grows(s, t) && Evidence(c, s, l)
    ensures Evidence(c, t, l)
  {
    HoldsIsStable(s, t, l.manifest);
    CompleteIsStable(s, t, l.manifest.bucket, l.manifest.hash.manifest);
  }

  lemma ListedIsStable(s: Store, t: Store, l: LedgerEntry)
    requires Grows(s, t) && Listed(s, l)
    ensures Listed(t, l)
  {
  }

  lemma AnchorEvidenceIsStable(s: Store, t: Store, i: Id, a: AnchorEntry)
    requires Grows(s, t) && AnchorEvidence(s, i, a)
    ensures AnchorEvidence(t, i, a)
  {
    ListedIsStable(s, t, LedgerEntry(a.eventId, PolicyAnchor, a.record, a.manifest));
  }

  lemma FitsIsStable(c: Config, s: Store, t: Store, b: Bucket, k: Key, data: Blob)
    requires Grows(s, t) && Fits(c, s, b, k, data)
    ensures Fits(c, t, b, k, data)
  {
    match k
    case ManifestKey(_) => CompleteIsStable(s, t, b, data.manifest);
    case EventKey(_) => EvidenceIsStable(c, s, t, data.entry);
    case AnchorKey(i, _) => AnchorEvidenceIsStable(s, t, i, data.anchor);
    case _ =>
  }

  lemma BackedIsStable(c: Config, s: Store, t: Store, token: Token)
    requires Grows(s, t) && Backed(c, s, token)
    ensures Backed(c, t, token)
  {
    var k := token.claims;
    ListedIsStable(s, t, LedgerEntry(k.eventId, k.eventType, k.record, k.manifest));
  }

  // ----------------------------------------------------------------------- the writes

  lemma CreateGrows(s: Store, b: Bucket, k: Key, o: Object)
    requires k !in s.In(b)
    ensures Grows(s, s.With(b, k, o))
  {
  }

  lemma ArchiveGoodAfterCreate(c: Config, s: Store, b: Bucket, k: Key, o: Object, b': Bucket)
    requires ArchiveGood(c, s, b') && k !in s.In(b) && Fits(c, s, b, k, o.data)
    ensures ArchiveGood(c, s.With(b, k, o), b')
  {
    var t := s.With(b, k, o);
    CreateGrows(s, b, k, o);
    forall j | j in t.In(b')
      ensures Fits(c, t, b', j, t.In(b')[j].data)
    {
      if b == b' && j == k {
        assert t.In(b')[j] == o;
      } else {
        assert j in s.In(b') && t.In(b')[j] == s.In(b')[j];
      }
      FitsIsStable(c, s, t, b', j, t.In(b')[j].data);
    }
  }

  /** A conditional create of fitting content keeps everything. */
  lemma CreateKeepsGood(c: Config, s: Store, b: Bucket, k: Key, o: Object)
    requires Good(c, s) && k !in s.In(b) && Fits(c, s, b, k, o.data)
    ensures Rely(c, s, s.With(b, k, o))
  {
    var t := s.With(b, k, o);
    CreateGrows(s, b, k, o);
    ArchiveGoodAfterCreate(c, s, b, k, o, Originals);
    ArchiveGoodAfterCreate(c, s, b, k, o, Governance);
    forall token | token in t.issued
      ensures Backed(c, t, token)
    {
      BackedIsStable(c, s, t, token);
    }
  }

  lemma IssueKeepsGood(c: Config, s: Store, token: Token)
    requires Good(c, s) && Backed(c, s, token)
    ensures Rely(c, s, s.(issued := s.issued + {token}))
  {
    var t := s.(issued := s.issued + {token});
    forall b, k | k in t.In(b)
      ensures Fits(c, t, b, k, t.In(b)[k].data)
    {
      assert t.In(b) == s.In(b);
      FitsIsStable(c, s, t, b, k, t.In(b)[k].data);
    }
    forall other | other in t.issued
      ensures Backed(c, t, other)
    {
      BackedIsStable(c, s, t, other);
    }
  }

  // ------------------------------------------------------------------------------ runs

  /** The only two ways in which requests change what the archives and the verifiers can see. */
  datatype Step = Create(bucket: Bucket, key: Key, object: Object) | SignToken(token: Token)

  predicate Allowed(c: Config, s: Store, e: Step) {
    match e
    case Create(b, k, o) => k !in s.In(b) && Fits(c, s, b, k, o.data)
    case SignToken(t) => Backed(c, s, t)
  }

  function Perform(s: Store, e: Step): Store {
    match e
    case Create(b, k, o) => s.With(b, k, o)
    case SignToken(t) => s.(issued := s.issued + {t})
  }

  /** Steps of any number of requests, in any order. */
  predicate Possible(c: Config, s: Store, steps: seq<Step>)
    decreases |steps|
  {
    steps == [] || (Allowed(c, s, steps[0]) && Possible(c, Perform(s, steps[0]), steps[1..]))
  }

  function After(s: Store, steps: seq<Step>): Store
    decreases |steps|
  {
    if steps == [] then s else After(Perform(s, steps[0]), steps[1..])
  }

  const EMPTY: Store := Store(map[], map[], {})

  lemma StepKeepsGood(c: Config, s: Store, e: Step)
    requires Good(c, s) && Allowed(c, s, e)
    ensures Rely(c, s, Perform(s, e))
  {
    match e
    case Create(b, k, o) => CreateKeepsGood(c, s, b, k, o);
    case SignToken(t) => IssueKeepsGood(c, s, t);
  }

  lemma {:induction false} RunKeepsGood(c: Config, s: Store, steps: seq<Step>)
    requires Good(c, s) && Possible(c, s, steps)
    ensures Rely(c, s, After(s, steps))
    decreases |steps|
  {
    if steps != [] {
      StepKeepsGood(c, s, steps[0]);
      RunKeepsGood(c, Perform(s, steps[0]), steps[1..]);
      GrowsTransitive(s, Perform(s, steps[0]), After(s, steps));
    }
  }

  // -------------------------------------------------------------------- main results

  /** All receipts of one event agree, and those of fixed kinds agree on their times. */
  lemma ReceiptsAgree(c: Config, s: Store, t: Token, u: Token)
    requires Good(c, s) && t in s.issued && u in s.issued && t.claims.eventId == u.claims.eventId
    ensures t.claims.record == u.claims.record && t.claims.eventType == u.claims.eventType
    ensures t.claims.manifest == u.claims.manifest
    ensures FixedTimes(t.claims.eventType) ==>
              t.claims.issuedAt == u.claims.issuedAt && t.claims.expiresAt == u.claims.expiresAt
  {
    assert Backed(c, s, t) && Backed(c, s, u);
  }

  /** Receipts signed at any two moments of any run agree. */
  lemma ReceiptsAgreeAcrossRun(c: Config, before: seq<Step>, after: seq<Step>, t: Token, u: Token)
    requires Possible(c, EMPTY, before) && Possible(c, After(EMPTY, before), after)
    requires t in After(EMPTY, before).issued && u in After(After(EMPTY, before), after).issued
    requires t.claims.eventId == u.claims.eventId
    ensures t.claims.record == u.claims.record && t.claims.eventType == u.claims.eventType
    ensures t.claims.manifest == u.claims.manifest
    ensures FixedTimes(t.claims.eventType) ==>
              t.claims.issuedAt == u.claims.issuedAt && t.claims.expiresAt == u.claims.expiresAt
  {
    RunKeepsGood(c, EMPTY, before);
    RunKeepsGood(c, After(EMPTY, before), after);
    ReceiptsAgree(c, After(After(EMPTY, before), after), t, u);
  }

  /** Behind every receipt the record and every declared attachment are archived, under one retention. */
  lemma ReceiptIsEvidence(c: Config, s: Store, t: Token)
    requires Good(c, s) && t in s.issued
    ensures var k := t.claims;
      && Holds(s, k.manifest) && k.manifest.hash.ManifestDoc? && k.record.Record?
      && k.record.envelope.eventId == k.eventId && k.record.envelope.eventType == k.eventType
      && var m := k.manifest.hash.manifest;
      && m.record == k.record && m.envelope.hash == k.record && Holds(s, m.envelope)
      && |m.attachments| == |k.record.envelope.attachments|
      && (forall i :: 0 <= i < |m.attachments| ==>
            Holds(s, m.attachments[i]) && m.attachments[i].hash == k.record.envelope.attachments[i].hash)
      && CommonRetention(m, k.manifest)
  {
    var k := t.claims;
    assert Backed(c, s, t);
    assert Fits(c, s, Governance, EventKey(k.eventId), s.In(Governance)[EventKey(k.eventId)].data);
  }

  /** Behind every policy receipt all of it lies in the governance archive, behind every other in the archive of
      originals, and all of it is retained for at least that archive's configured time from its issue on. */
  lemma EvidenceIsRetained(c: Config, s: Store, t: Token, r: Ref)
    requires Good(c, s) && t in s.issued
    requires t.claims.manifest.hash.ManifestDoc? ==>
      var m := t.claims.manifest.hash.manifest; r == t.claims.manifest || r == m.envelope || r in m.attachments
    ensures t.claims.manifest.hash.ManifestDoc? && Holds(s, r)
    ensures var m := t.claims.manifest.hash.manifest;
      if IsPolicy(t.claims.eventType) then r.bucket == Governance && m.issuedAt + c.governanceRetention <= r.retain
      else r.bucket == Originals && m.issuedAt + c.retention <= r.retain
  {
    var k := t.claims;
    assert Backed(c, s, t);
    assert Fits(c, s, Governance, EventKey(k.eventId), s.In(Governance)[EventKey(k.eventId)].data);
    var m := k.manifest.hash.manifest;
    if r in m.attachments {
      var i :| 0 <= i < |m.attachments| && m.attachments[i] == r;
      assert Stored(s, k.manifest.bucket, m.attachments[i], m.retainUntil);
    }
  }

  /** Behind every receipt for a policy anchor, that anchor is stored for its version. */
  lemma AnchorReceiptIsAnchored(c: Config, s: Store, t: Token)
    requires Good(c, s) && t in s.issued && t.claims.eventType.PolicyAnchor?
    ensures t.claims.record.Record? && t.claims.policyVersion == t.claims.record.envelope.policyVersion
    ensures AnchorStored(s, t.claims.record.envelope.installation, AnchorFor(t.claims.record, t.claims.manifest))
  {
    assert Backed(c, s, t);
  }

  /** An admission receipt never outlives the preparation it admits. */
  lemma AdmissionEndsWithPreparation(c: Config, s: Store, t: Token)
    requires Good(c, s) && t in s.issued && t.claims.eventType.ExecutionAdmission?
    ensures t.claims.record.Record? && t.claims.record.envelope.execution.Some?
    ensures t.claims.expiresAt <= t.claims.record.envelope.execution.value.preparedUntil
  {
    assert Backed(c, s, t);
  }

  /** What a verifier demands for the record `data`. */
  function Demand(data: Blob, nonce: string, minRetain: Time): Expected
    requires ExpectedFor(data).Some?
  {
    ExpectedFor(data).value.(nonce := nonce, minRetain := minRetain)
  }

  /** A signed receipt passes for exactly its own record and nonce, at exactly the matching verifiers that allow
      its life and retention, and exactly from issue (less the skew) up to expiry. */
  lemma IssuedAcceptedExactlyInWindow(c: Config, s: Store, t: Token, v: Verifier, data: Blob, nonce: string,
                                      minRetain: Time, now: Time)
    requires Good(c, s) && t in s.issued && v.clockSkew >= 0 && ExpectedFor(data).Some?
    ensures Accepts(v, t, Demand(data, nonce, minRetain), now)
       <==> (data == t.claims.record && nonce == t.claims.nonce && Matches(v, c, t.claims.eventType)
             && t.claims.expiresAt - t.claims.issuedAt <= v.maxTTL && minRetain <= t.claims.manifest.retain
             && t.claims.issuedAt - v.clockSkew <= now < t.claims.expiresAt)
  {
    assert Backed(c, s, t);
    var k := t.claims;
    var e := Demand(k.record, k.nonce, 0);
    AcceptedExactlyInWindow(c, v, e, Demand(data, nonce, minRetain), k.manifest, k.issuedAt, k.expiresAt, now);
  }

  /** Completed evidence passes as history for exactly its own record and nonce, for ever after its issue, and
      nothing else passes as history. */
  lemma HistoricalNeverExpires(c: Config, s: Store, t: Token, v: Verifier, data: Blob, nonce: string,
                               minRetain: Time, now: Time)
    requires Good(c, s) && t in s.issued && v.clockSkew >= 0 && ExpectedFor(data).Some?
    ensures AcceptsHistorical(v, t, Demand(data, nonce, minRetain), now)
       <==> (data == t.claims.record && nonce == t.claims.nonce && Matches(v, c, t.claims.eventType)
             && t.claims.expiresAt - t.claims.issuedAt <= v.maxTTL && minRetain <= t.claims.manifest.retain
             && (t.claims.eventType.ExecutionLifecycle? || t.claims.eventType.ExecutionDenial?)
             && t.claims.issuedAt - v.clockSkew <= now)
  {
    assert Backed(c, s, t);
    IssuedAcceptedExactlyInWindow(c, s, t, v, data, nonce, minRetain, t.claims.issuedAt);
  }

  lemma AnchorHasPredecessor(c: Config, s: Store, i: Id, w: nat)
    requires ArchiveGood(c, s, Governance) && HasAnchor(s, i, w)
    ensures 2 <= w <= MAX_VERSION && (w > 2 ==> HasAnchor(s, i, w - 1))
  {
    assert Fits(c, s, Governance, AnchorKey(i, w), s.In(Governance)[AnchorKey(i, w)].data);
  }

  lemma {:induction false} AnchorsBelow(c: Config, s: Store, i: Id, v: nat, w: nat)
    requires Good(c, s) && HasAnchor(s, i, w) && 2 <= v <= w
    ensures HasAnchor(s, i, v)
    decreases w - v
  {
    if v < w {
      AnchorHasPredecessor(c, s, i, w);
      AnchorsBelow(c, s, i, v, w - 1);
    }
  }

  /** The largest stored version up to `bound`, or 1. */
  function Latest(s: Store, i: Id, bound: nat): (k: nat)
    ensures k >= 1 && (k > 1 ==> k <= bound && HasAnchor(s, i, k))
    ensures forall v :: k < v <= bound ==> !HasAnchor(s, i, v)
  {
    if bound <= 1 then 1 else if HasAnchor(s, i, bound) then bound else Latest(s, i, bound - 1)
  }

  /** The stored anchor versions of an installation are exactly 2..k. */
  lemma AnchorVersionsAreContiguous(c: Config, s: Store, i: Id, v: nat)
    requires Good(c, s)
    ensures HasAnchor(s, i, v) <==> 2 <= v <= Latest(s, i, MAX_VERSION)
  {
    var k := Latest(s, i, MAX_VERSION);
    if HasAnchor(s, i, v) {
      AnchorHasPredecessor(c, s, i, v);
    } else if 2 <= v <= k {
      AnchorsBelow(c, s, i, v, k);
    }
  }

  /** Over every run the anchors are exactly 2..k, k never shrinks, and each stored anchor stays as it is. */
  lemma AnchorsGrowContiguously(c: Config, before: seq<Step>, after: seq<Step>, i: Id, v: nat)
    requires Possible(c, EMPTY, before) && Possible(c, After(EMPTY, before), after)
    ensures var s, t := After(EMPTY, before), After(After(EMPTY, before), after);
      && (HasAnchor(t, i, v) <==> 2 <= v <= Latest(t, i, MAX_VERSION))
      && (HasAnchor(s, i, v) ==> HasAnchor(t, i, v) && t.governance[AnchorKey(i, v)] == s.governance[AnchorKey(i, v)])
  {
    RunKeepsGood(c, EMPTY, before);
    RunKeepsGood(c, After(EMPTY, before), after);
    AnchorVersionsAreContiguous(c, After(After(EMPTY, before), after), i, v);
  }
}
