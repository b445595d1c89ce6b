/**
  Protected audit records, the receipts signed for them and their verification
  (hub/internal/auditrecord, hub/internal/auditgate/verifier.go and the signing half of
  hub/internal/auditingest/service.go).

  A digest is the content it identifies, so a `Blob` stands for its own SHA-256; a token
  carries the key that signed it, so nobody without that key can make one.
 */
module Receipts {
  import opened Basics
  import Text

  type Id = string

  type Time = int

  const MAX_VERSION: nat := Text.MAX_UINT64

  datatype EventType =
    | ExecutionAdmission | ExecutionLifecycle | ExecutionDenial
    | PolicyIntent | PolicyCommit | PolicyResult | PolicyAnchor
    | OriginalReadIntent | OriginalReadResult

  /** `strings.HasPrefix(eventType, "policy.")`. */
  predicate IsPolicy(t: EventType) {
    t.PolicyIntent? || t.PolicyCommit? || t.PolicyResult? || t.PolicyAnchor?
  }

  /** Receipts of every other type are signed anew on each request. */
  predicate FixedTimes(t: EventType) {
    t.ExecutionAdmission? || t.OriginalReadIntent?
  }

  datatype Bucket = Originals | Governance

  function BucketFor(t: EventType): Bucket {
    if IsPolicy(t) then Governance else Originals
  }

  datatype Key =
    | ManifestKey(id: Id)
    | EnvelopeKey(id: Id, record: Blob)
    | AttachmentKey(id: Id, record: Blob, attachment: Id)
    | EventKey(id: Id)
    | AnchorKey(installation: Id, version: nat)

  datatype Ref = Ref(bucket: Bucket, key: Key, version: nat, hash: Blob, retain: Time)

  datatype Blob =
    | Opaque(bytes: string)
    | Record(bytes: string, envelope: Envelope)
    | ManifestDoc(manifest: Manifest)
    | LedgerDoc(entry: LedgerEntry)
    | AnchorDoc(anchor: AnchorEntry)

  datatype Attachment = Attachment(id: Id, hash: Blob)

  datatype ExecutionNames = ExecutionNames(execution: Id, preparation: Id, boot: Id, node: Id, identity: string)

  datatype Execution = Execution(names: ExecutionNames, preparedUntil: Time)

  /** `installation` and `expectedVersion` are the details an anchor needs; `details` is the rest. */
  datatype Envelope = Envelope(eventId: Id, eventType: EventType, actor: string, execution: Option<Execution>,
                               policyVersion: nat, policyHash: string, attachments: seq<Attachment>,
                               installation: Id, expectedVersion: nat, details: string)

  datatype Manifest = Manifest(eventId: Id, record: Blob, envelope: Ref, attachments: seq<Ref>, signingKey: Id,
                               issuedAt: Time, expiresAt: Time, retainUntil: Time, qualification: string)

  datatype LedgerEntry = LedgerEntry(eventId: Id, eventType: EventType, record: Blob, manifest: Ref)

  datatype AnchorEntry = AnchorEntry(manifest: Ref, version: nat, eventId: Id, record: Blob)

  predicate IdChar(c: char) {
    'a' <= c <= 'z' || 'A' <= c <= 'Z' || '0' <= c <= '9' || c == '-' || c == '_' || c == '.' || c == ':'
  }

  predicate ValidId(s: Id) {
    0 < |s| <= 128 && forall i :: 0 <= i < |s| ==> IdChar(s[i])
  }

  predicate DistinctIds(attachments: seq<Attachment>) {
    forall i, j :: 0 <= i < j < |attachments| ==> attachments[i].id != attachments[j].id
  }

  /** The part of `Envelope.Validate` that the archive protocol relies on. */
  predicate ValidEnvelope(e: Envelope) {
    && ValidId(e.eventId) && 0 < e.policyVersion <= MAX_VERSION
    && (e.eventType.ExecutionAdmission? ==> e.execution.Some?)
    && (!e.eventType.ExecutionAdmission? ==> e.attachments == []) && DistinctIds(e.attachments)
    && (IsPolicy(e.eventType) ==> e.execution.None?)
    && (e.eventType.PolicyAnchor? ==>
          ValidId(e.installation) && 0 < e.expectedVersion < MAX_VERSION && e.policyVersion == e.expectedVersion + 1)
  }

  datatype Expected = Expected(eventId: Id, eventType: EventType, record: Blob, actor: string,
                               binding: (Option<Execution>, Id, nat, string), policyVersion: nat, policyHash: string,
                               execution: Option<Execution>, minRetain: Time, nonce: string)

  /** `ExpectedFor`: what a valid record demands of its receipt. */
  function ExpectedFor(data: Blob): Option<Expected> {
    if data.Record? && ValidEnvelope(data.envelope) then
      var e := data.envelope;
      Some(Expected(e.eventId, e.eventType, data, e.actor, (e.execution, e.installation, e.expectedVersion, e.details),
                    e.policyVersion, e.policyHash, e.execution, 0, ""))
    else None
  }

  // ------------------------------------------------------------------------ receipts

  datatype Config = Config(issuer: string, audience: string, retention: int, governanceRetention: int, receiptTTL: int,
                           keyId: Id, key: nat, qualification: string, governanceQualification: string) {
    function Qualification(b: Bucket): string {
      if b == Governance then governanceQualification else qualification
    }

    function Retention(t: EventType): int {
      if IsPolicy(t) then governanceRetention else retention
    }

    /** The limits that NewService enforces. */
    predicate Valid() {
      SECOND <= receiptTTL <= 300 * SECOND && 3600 * SECOND <= retention && 3600 * SECOND <= governanceRetention
    }
  }

  datatype Claims = Claims(issuer: string, audience: seq<string>, tokenId: Id,
                           issuedAt: Time, notBefore: Time, expiresAt: Time,
                           keyId: Id, eventId: Id, eventType: EventType, record: Blob, actor: string,
                           binding: (Option<Execution>, Id, nat, string), policyVersion: nat, policyHash: string,
                           names: Option<ExecutionNames>, manifest: Ref, qualification: string, nonce: string)

  datatype Token = Token(header: Id, signer: nat, claims: Claims)

  function Names(x: Option<Execution>): Option<ExecutionNames> {
    if x.Some? then Some(x.value.names) else None
  }

  function Sign(c: Config, e: Expected, ref: Ref, issuedAt: Time, expiresAt: Time): Token {
    Token(c.keyId, c.key,
          Claims(c.issuer, [c.audience], e.eventId, issuedAt, issuedAt, expiresAt,
                 c.keyId, e.eventId, e.eventType, e.record,
                 e.actor, e.binding, e.policyVersion, e.policyHash, Names(e.execution), ref,
                 c.Qualification(BucketFor(e.eventType)), e.nonce))
  }

  /** `Truncate(time.Second)`, and the precision of a JWT numeric date. */
  function Truncate(t: Time): Time {
    t - t % SECOND
  }

  datatype Verifier = Verifier(issuer: string, audience: string, keys: map<Id, nat>, qualification: string,
                               governanceQualification: string, maxTTL: int, clockSkew: int) {
    function Pin(t: EventType): string {
      if IsPolicy(t) && governanceQualification != "" then governanceQualification else qualification
    }
  }

  /** `Verify`, check by check; the token library's own checks come first. */
  predicate Accepts(v: Verifier, token: Token, e: Expected, now: Time) {
    var c := token.claims;
    && token.header in v.keys && v.keys[token.header] == token.signer
    && c.issuer == v.issuer && v.audience in c.audience
    && now < c.expiresAt + v.clockSkew && c.notBefore <= now + v.clockSkew
    && c.keyId == token.header && c.tokenId == e.eventId && c.eventId == e.eventId && c.eventType == e.eventType
    && c.record == e.record && c.actor == e.actor && c.binding == e.binding
    && c.policyVersion == e.policyVersion && c.policyHash == e.policyHash
    && c.qualification == v.Pin(e.eventType) && |c.audience| == 1 && e.minRetain <= c.manifest.retain
    && c.nonce == e.nonce
    && now < c.expiresAt && c.issuedAt <= now + v.clockSkew && c.notBefore <= now + v.clockSkew
    && c.issuedAt < c.expiresAt && c.expiresAt - c.issuedAt <= v.maxTTL && c.issuedAt <= c.notBefore
    && c.expiresAt <= c.manifest.retain
    && c.names == Names(e.execution)
    && (e.execution.Some? && e.eventType.ExecutionAdmission? ==>
          now < e.execution.value.preparedUntil && c.expiresAt <= e.execution.value.preparedUntil)
  }

  /** `VerifyHistorical`: completed evidence, judged at its own issue time. */
  predicate AcceptsHistorical(v: Verifier, token: Token, e: Expected, now: Time) {
    && (e.eventType.ExecutionLifecycle? || e.eventType.ExecutionDenial?)
    && token.claims.issuedAt <= now + v.clockSkew
    && Accepts(v, token, e, token.claims.issuedAt)
  }

  /** The verifier's trust settings agree with the service's. */
  predicate Matches(v: Verifier, c: Config, t: EventType) {
    && v.issuer == c.issuer && v.audience == c.audience
    && c.keyId in v.keys && v.keys[c.keyId] == c.key
    && v.Pin(t) == if IsPolicy(t) then c.governanceQualification else c.qualification
  }

  /** The times of a receipt, as the service must choose them. */
  predicate WellTimed(c: Config, e: Expected, ref: Ref, issuedAt: Time, expiresAt: Time) {
    && issuedAt < expiresAt && expiresAt - issuedAt <= c.receiptTTL && expiresAt <= ref.retain
    && (e.eventType.ExecutionAdmission? && e.execution.Some? ==> expiresAt <= e.execution.value.preparedUntil)
  }

  /** A service that the verifier's settings describe, signing with the token's key. */
  function Trusted(v: Verifier, t: Token): Config {
    var pin := v.Pin(t.claims.eventType);
    Config(v.issuer, v.audience, 0, 0, v.maxTTL, t.header, t.signer, pin, pin)
  }

  /** Whatever token is presented: it is accepted if and only if it is, field by field, what a trusted service
      signs for this very expectation, well timed, and presented inside its window. */
  lemma AcceptedIffSignedForExpectation(v: Verifier, t: Token, e: Expected, now: Time)
    requires v.clockSkew >= 0
    ensures Accepts(v, t, e, now) <==>
      var k := t.claims;
      && t.header in v.keys && v.keys[t.header] == t.signer
      && t == Postponed(Sign(Trusted(v, t), e, k.manifest, k.issuedAt, k.expiresAt), k.notBefore)
      && WellTimed(Trusted(v, t), e, k.manifest, k.issuedAt, k.expiresAt) && e.minRetain <= k.manifest.retain
      && k.issuedAt <= k.notBefore <= now + v.clockSkew && now < k.expiresAt
  {
    if v.audience in t.claims.audience && |t.claims.audience| == 1 {
      assert t.claims.audience == [v.audience];
    }
  }

  function Postponed(t: Token, notBefore: Time): Token {
    t.(claims := t.claims.(notBefore := notBefore))
  }

  /** A receipt signed for `e` passes for `d` exactly if `d` demands the same as `e`, at matching verifiers that
      allow its life, and inside its window. */
  lemma AcceptedExactlyInWindow(c: Config, v: Verifier, e: Expected, d: Expected, ref: Ref, issuedAt: Time,
                                expiresAt: Time, now: Time)
    requires WellTimed(c, e, ref, issuedAt, expiresAt) && v.clockSkew >= 0
    requires SameExecution(e, d)
    ensures Accepts(v, Sign(c, e, ref, issuedAt, expiresAt), d, now)
       <==> (d == e.(minRetain := d.minRetain) && Matches(v, c, e.eventType) && expiresAt - issuedAt <= v.maxTTL
             && d.minRetain <= ref.retain && issuedAt - v.clockSkew <= now < expiresAt)
  {
  }

  /** The execution of an expectation is part of the binding it demands. */
  predicate SameExecution(e: Expected, d: Expected) {
    e.execution == e.binding.0 && d.execution == d.binding.0
  }

  // -------------------------------------------------------------------------- key texts

  /** `%0<width>d` for numbers that fit the width. */
  function Padded(n: nat, width: nat): (s: string)
    ensures |s| == width && Text.Digits(s)
  {
    if width == 0 then "" else Padded(n / 10, width - 1) + [Text.DigitChar(n % 10)]
  }

  lemma {:induction false} PaddedValue(n: nat, width: nat)
    requires n < Text.Power10(width)
    ensures Text.Value(Padded(n, width)) == n
  {
    if width > 0 {
      PaddedValue(n / 10, width - 1);
      var s := Padded(n, width);
      assert s[..|s| - 1] == Padded(n / 10, width - 1);
    }
  }

  const VERSION_WIDTH: nat := 20

  function Family(k: Key): string {
    match k
    case ManifestKey(_) => "manifests"
    case EnvelopeKey(_, _) => "envelopes"
    case AttachmentKey(_, _, _) => "attachments"
    case EventKey(_) => "events"
    case AnchorKey(_, _) => "anchors"
  }

  /** `hex` spells a digest, as 64 hexadecimal characters in the source. */
  function Rest(k: Key, hex: Blob -> string): string {
    match k
    case ManifestKey(id) => id
    case EnvelopeKey(id, record) => id + "/" + hex(record)
    case AttachmentKey(id, record, a) => id + "/" + (hex(record) + "/" + a)
    case EventKey(id) => id
    case AnchorKey(i, v) => i + "/" + Padded(v, VERSION_WIDTH)
  }

  function KeyText(k: Key, hex: Blob -> string): string {
    Family(k) + "/" + Rest(k, hex)
  }

  lemma {:induction false} CompareCommonPrefix(p: string, a: string, b: string)
    ensures Text.Compare(p + a, p + b) == Text.Compare(a, b)
  {
    if p == "" {
      assert p + a == a && p + b == b;
    } else {
      assert (p + a)[1..] == p[1..] + a && (p + b)[1..] == p[1..] + b;
      CompareCommonPrefix(p[1..], a, b);
    }
  }

  /** Anchor keys of one installation sort by version. */
  lemma AnchorKeysSortByVersion(i: Id, v: nat, w: nat, hex: Blob -> string)
    requires v <= MAX_VERSION && w <= MAX_VERSION
    ensures Text.Compare(KeyText(AnchorKey(i, v), hex), KeyText(AnchorKey(i, w), hex)) == Text.Sign(v - w)
  {
    Text.FitsTwentyDigits(v); Text.FitsTwentyDigits(w);
    PaddedValue(v, VERSION_WIDTH); PaddedValue(w, VERSION_WIDTH);
    Text.EqualLengthOrder(Padded(v, VERSION_WIDTH), Padded(w, VERSION_WIDTH));
    CompareCommonPrefix(i + "/", Padded(v, VERSION_WIDTH), Padded(w, VERSION_WIDTH));
    var k, l := AnchorKey(i, v), AnchorKey(i, w);
    CompareCommonPrefix(Family(k) + "/", Rest(k, hex), Rest(l, hex));
  }

  predicate NoSlash(s: string) {
    Text.Lacks(s, '/')
  }

  predicate ValidKey(k: Key) {
    match k
    case ManifestKey(id) => ValidId(id)
    case EnvelopeKey(id, _) => ValidId(id)
    case AttachmentKey(id, _, a) => ValidId(id) && ValidId(a)
    case EventKey(id) => ValidId(id)
    case AnchorKey(i, v) => ValidId(i) && v <= MAX_VERSION
  }

  /** Distinct keys have distinct texts, so `Key` stands for the stored key. */
  lemma KeyTextIsInjective(k: Key, l: Key, hex: Blob -> string)
    requires ValidKey(k) && ValidKey(l)
    requires forall b :: NoSlash(hex(b))
    requires forall b, c :: hex(b) == hex(c) ==> b == c
    requires KeyText(k, hex) == KeyText(l, hex)
    ensures k == l
  {
    Text.SplitAt('/', Family(k), Rest(k, hex), Family(l), Rest(l, hex));
    match k
    case ManifestKey(_) =>
    case EventKey(_) =>
    case EnvelopeKey(id, record) => Text.SplitAt('/', id, hex(record), l.id, hex(l.record));
    case AttachmentKey(id, record, a) =>
      Text.SplitAt('/', id, hex(record) + "/" + a, l.id, hex(l.record) + "/" + l.attachment);
      Text.SplitAt('/', hex(record), a, hex(l.record), l.attachment);
    case AnchorKey(i, v) =>
      Text.SplitAt('/', i, Padded(v, VERSION_WIDTH), l.installation, Padded(l.version, VERSION_WIDTH));
      Text.FitsTwentyDigits(v); Text.FitsTwentyDigits(l.version);
      PaddedValue(v, VERSION_WIDTH); PaddedValue(l.version, VERSION_WIDTH);
  }
}
