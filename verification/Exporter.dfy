/**
  The archive-to-search exporter (hub/internal/auditingest: exporter.go, export_index.go): a
  cursor over an append-only ledger, one page per step, with a checkpoint saved after each.

  The ledger may grow at any time; the index, the archive, the search sink and the checkpoint
  file may each fail at any time; the exporter may be restarted from any checkpoint that a
  crash can leave.
 */
module Exporter {
  import opened Basics
  import Text
  import Receipts

  type Id = string

  const WEEK: int := 7 * 24 * 3600 * SECOND
  const MAX_PAGE: nat := 32
  const STEP_PAGE: nat := 8
  const PREFIX: string := "events/"

  /** A ledger entry; `occurred` is the time in the archived record it refers to. */
  datatype Reference = Reference(id: Id, wellFormed: bool, record: string, bucket: string, retainUntil: int,
                                 occurred: int)

  /** What an archive returned as the manifest of an entry. */
  datatype Manifest = Manifest(schema: int, id: Id, record: string, retainUntil: int, envelopeValid: bool,
                               envelopeBucket: string, envelopeRecord: string, envelopeBytes: int, envelopeRetain: int)

  /** The manifest that was archived for an entry. */
  function TrueManifest(ref: Reference): Manifest {
    Manifest(1, ref.id, ref.record, ref.retainUntil, true, ref.bucket, ref.record, 1, ref.retainUntil)
  }

  const MAX_ENVELOPE: int := 0x2_0000

  /** The manifest belongs to the entry, and its envelope lies beside it under the same retention. */
  predicate BelongsTo(m: Manifest, ref: Reference) {
    && m.schema == 1 && m.id == ref.id && m.record == ref.record && m.envelopeValid
    && m.envelopeBucket == ref.bucket && m.envelopeRecord == ref.record && m.envelopeBytes <= MAX_ENVELOPE
    && m.retainUntil == ref.retainUntil && m.envelopeRetain == m.retainUntil
  }

  type Ledger = map<Id, Reference>

  predicate ValidLedger(l: Ledger) {
    forall id :: id in l ==> id != "" && l[id].id == id
  }

  predicate LedgerGrows(l: Ledger, k: Ledger) {
    ValidLedger(k) && forall id :: id in l ==> id in k && k[id] == l[id]
  }

  datatype Page = Page(records: seq<Reference>, next: Id)

  // ------------------------------------------------------------------------- the index

  /** A listing of ledger keys behind `after`: nothing between the keys listed is missing. */
  predicate Lists(l: Ledger, after: Id, ids: seq<Id>, truncated: bool) {
    && (forall i :: 0 <= i < |ids| ==> ids[i] in l && Text.Less(after, ids[i]))
    && (truncated ==> ids != [])
    && (truncated ==> forall id :: id in l && Text.Less(after, id) && !Text.Less(ids[|ids| - 1], id) ==> id in ids)
    && (!truncated ==> forall id :: id in l && Text.Less(after, id) ==> id in ids)
  }

  function LastOr(after: Id, ids: seq<Id>): Id {
    if ids == [] then after else ids[|ids| - 1]
  }

  /** Strictly ascending, and all behind `after`. */
  predicate Ascending(after: Id, ids: seq<Id>) {
    ids == [] ||
    (var front := ids[..|ids| - 1]; Ascending(after, front) && Text.Less(LastOr(after, front), ids[|ids| - 1]))
  }

  lemma AscendingSnoc(after: Id, ids: seq<Id>, id: Id)
    ensures Ascending(after, ids + [id]) <==> Ascending(after, ids) && Text.Less(LastOr(after, ids), id)
  {
    assert (ids + [id])[..|ids|] == ids;
  }

  lemma {:induction false} AscendingPrefix(after: Id, ids: seq<Id>, i: nat)
    requires i <= |ids| && Ascending(after, ids)
    ensures Ascending(after, ids[..i])
  {
    if i < |ids| {
      assert ids[..|ids| - 1][..i] == ids[..i];
      AscendingPrefix(after, ids[..|ids| - 1], i);
    } else {
      assert ids[..i] == ids;
    }
  }

  lemma AscendingAt(after: Id, ids: seq<Id>, i: nat)
    requires i < |ids| && Ascending(after, ids)
    ensures Text.Less(LastOr(after, ids[..i]), ids[i])
  {
    AscendingPrefix(after, ids, i + 1);
    assert ids[..i + 1] == ids[..i] + [ids[i]];
    AscendingSnoc(after, ids[..i], ids[i]);
  }

  predicate ValidQuery(after: Id, limit: int) {
    1 <= limit <= MAX_PAGE && (after == "" || Receipts.ValidId(after))
  }

  function KeyId(key: string): Id {
    if PREFIX <= key then key[|PREFIX|..] else key
  }

  function KeyIds(keys: seq<string>): (ids: seq<Id>)
    ensures |ids| == |keys| && forall i :: 0 <= i < |keys| ==> ids[i] == KeyId(keys[i])
  {
    seq(|keys|, i requires 0 <= i < |keys| => KeyId(keys[i]))
  }

  predicate WellNamed(key: string) {
    PREFIX <= key && Receipts.ValidId(KeyId(key))
  }

  predicate WellListed(after: Id, keys: seq<string>) {
    Ascending(after, KeyIds(keys)) && AllNamed(keys)
  }

  predicate AllNamed(keys: seq<string>) {
    forall i :: 0 <= i < |keys| ==> WellNamed(keys[i])
  }

  lemma AllNamedSnoc(keys: seq<string>, key: string)
    ensures AllNamed(keys + [key]) <==> AllNamed(keys) && WellNamed(key)
  {
    if AllNamed(keys + [key]) {
      assert (keys + [key])[|keys|] == key;
      forall i | 0 <= i < |keys|
        ensures WellNamed(keys[i])
      {
        assert (keys + [key])[i] == keys[i];
      }
    }
  }

  /** A listing is well formed as far as the next key if and only if that key is. */
  lemma ListingStep(after: Id, keys: seq<string>, i: nat)
    requires i < |keys|
    ensures KeyIds(keys[..i + 1]) == KeyIds(keys[..i]) + [KeyId(keys[i])]
    ensures WellListed(after, keys[..i + 1])
       <==> (WellListed(after, keys[..i]) && WellNamed(keys[i])
             && Text.Less(LastOr(after, KeyIds(keys[..i])), KeyId(keys[i])))
  {
    assert keys[..i + 1] == keys[..i] + [keys[i]];
    AllNamedSnoc(keys[..i], keys[i]);
    AscendingSnoc(after, KeyIds(keys[..i]), KeyId(keys[i]));
  }

  lemma ListingPrefix(after: Id, keys: seq<string>, i: nat)
    requires i <= |keys| && WellListed(after, keys)
    ensures WellListed(after, keys[..i])
  {
    AscendingPrefix(after, KeyIds(keys), i);
    assert KeyIds(keys[..i]) == KeyIds(keys)[..i];
  }

  lemma BadKeySpoilsListing(after: Id, keys: seq<string>, i: nat)
    requires i < |keys| && !WellListed(after, keys[..i + 1])
    ensures !WellListed(after, keys)
  {
    if WellListed(after, keys) {
      ListingPrefix(after, keys, i + 1);
    }
  }

  /** Accept exactly the listings whose keys are valid event IDs in ascending order behind `after`. */
  method ExportKeys(after: Id, limit: int, keys: seq<string>, truncated: bool) returns (r: Option<seq<Id>>)
    ensures r.Some? <==>
      ValidQuery(after, limit) && |keys| <= limit && WellListed(after, keys) && !(truncated && keys == [])
    ensures r.Some? ==> r.value == KeyIds(keys)
  {
    if !ValidQuery(after, limit) || |keys| > limit {
      return None;
    }
    var ids: seq<Id> := [];
    var prior := after;
    for i := 0 to |keys|
      invariant WellListed(after, keys[..i]) && ids == KeyIds(keys[..i]) && prior == LastOr(after, ids)
    {
      var id := KeyId(keys[i]);
      ListingStep(after, keys, i);
      if !WellNamed(keys[i]) || !Text.Less(prior, id) {
        BadKeySpoilsListing(after, keys, i);
        return None;
      }
      prior := id;
      ids := ids + [id];
    }
    assert keys[..|keys|] == keys;
    if truncated && ids == [] {
      return None;
    }
    return Some(ids);
  }

  predicate Known(l: Ledger, id: Id) {
    Receipts.ValidId(id) && id in l
  }

  predicate AllKnown(l: Ledger, ids: seq<Id>) {
    forall i :: 0 <= i < |ids| ==> Known(l, ids[i])
  }

  predicate Indexable(l: Ledger, after: Id, ids: seq<Id>) {
    Ascending(after, ids) && AllKnown(l, ids)
  }

  lemma AllKnownSnoc(l: Ledger, ids: seq<Id>, id: Id)
    ensures AllKnown(l, ids + [id]) <==> AllKnown(l, ids) && Known(l, id)
  {
    if AllKnown(l, ids + [id]) {
      assert (ids + [id])[|ids|] == id;
      forall i | 0 <= i < |ids|
        ensures Known(l, ids[i])
      {
        assert (ids + [id])[i] == ids[i];
      }
    }
  }

  lemma IndexStep(l: Ledger, after: Id, ids: seq<Id>, i: nat)
    requires i < |ids|
    ensures Indexable(l, after, ids[..i + 1])
       <==> Indexable(l, after, ids[..i]) && Known(l, ids[i]) && Text.Less(LastOr(after, ids[..i]), ids[i])
    ensures LastOr(after, ids[..i + 1]) == ids[i]
  {
    assert ids[..i + 1] == ids[..i] + [ids[i]];
    AllKnownSnoc(l, ids[..i], ids[i]);
    AscendingSnoc(after, ids[..i], ids[i]);
  }

  lemma BadIdSpoilsIndex(l: Ledger, after: Id, ids: seq<Id>, i: nat)
    requires i < |ids| && !Indexable(l, after, ids[..i + 1])
    ensures !Indexable(l, after, ids)
  {
    if Indexable(l, after, ids) {
      AscendingPrefix(after, ids, i + 1);
    }
  }

  /** One page: the ledger entry of every listed key, and the last key as the continuation if there is more. */
  method ExportIndex(l: Ledger, after: Id, limit: int, ids: seq<Id>, more: bool, calm: bool) returns (r: Option<Page>)
    requires ValidLedger(l)
    ensures calm ==> (r.Some? <==> ValidQuery(after, limit) && |ids| <= limit && Indexable(l, after, ids))
    ensures r.Some? ==> |ids| <= limit && Indexable(l, after, ids) && Describes(l, ids, r.value)
    ensures r.Some? ==> r.value.next == if more then LastOr(after, ids) else ""
  {
    if !ValidQuery(after, limit) || |ids| > limit {
      return None;
    }
    var records: seq<Reference> := [];
    var previous := after;
    for i := 0 to |ids|
      invariant |records| == i && previous == LastOr(after, ids[..i]) && Indexable(l, after, ids[..i])
      invariant forall j :: 0 <= j < i ==> ids[j] in l && records[j] == l[ids[j]]
    {
      var reachable := *;
      IndexStep(l, after, ids, i);
      if !Known(l, ids[i]) || !Text.Less(previous, ids[i]) {
        BadIdSpoilsIndex(l, after, ids, i);
        return None;
      }
      if !(calm || reachable) {
        return None;
      }
      previous := ids[i];
      records := records + [l[ids[i]]];
    }
    assert ids[..|ids|] == ids;
    return Some(Page(records, if more then previous else ""));
  }

  // ----------------------------------------------------------------------- checkpoints

  datatype Failure =
    | NoFailure | IndexUnavailable | IndexInvalid | ArchiveUnavailable | ArchiveInvalid | ProjectionInvalid
    | SearchUnavailable | CheckpointUnavailable

  datatype Checkpoint = Checkpoint(cursor: Id, accepted: nat, skipped: nat, lastCycleCompletedAt: int, attemptedAt: int,
                                   failure: Failure, failures: nat, retryAt: int)

  const FRESH: Checkpoint := Checkpoint("", 0, 0, 0, 0, NoFailure, 0, 0)

  /** An acknowledged send: the entry and the manifest that was checked for it. */
  datatype Delivery = Delivery(id: Id, manifest: Manifest)

  /** Why an entry needs no further work: its place in the log of sends, or the step at whose time it was
      past its retention or older than seven days. */
  datatype Reason = Sent(at: nat) | Expired(at: nat) | TooOld(at: nat)

  /** A pass over the ledger: the entries present when it began, and how many sends and steps came before it. */
  datatype Pass = Pass(start: set<Id>, began: nat, since: nat)

  /** The pass that a cursor belongs to, and the entries dealt with in it. */
  datatype Cycle = Cycle(index: nat, covered: map<Id, Reason>)

  /** What has happened so far: the ledger, the acknowledged sends, the times of the steps that were not
      refused, and every pass that was begun. */
  datatype Past = Past(ledger: Ledger, log: seq<Delivery>, times: seq<int>, passes: seq<Pass>)

  predicate PastGrows(p: Past, q: Past) {
    LedgerGrows(p.ledger, q.ledger) && p.log <= q.log && p.times <= q.times && p.passes <= q.passes
  }

  /** The reason lies at or behind the given places in the log of sends and the list of step times. */
  predicate Justified(id: Id, why: Reason, began: nat, since: nat, p: Past) {
    && id in p.ledger
    && match why
       case Sent(at) => began <= at < |p.log| && p.log[at].id == id && BelongsTo(p.log[at].manifest, p.ledger[id])
       case Expired(at) => since <= at < |p.times| && p.ledger[id].retainUntil <= p.times[at]
       case TooOld(at) => since <= at < |p.times| && p.ledger[id].occurred < p.times[at] - WEEK
  }

  predicate AllJustified(covered: map<Id, Reason>, began: nat, since: nat, p: Past) {
    forall id :: id in covered ==> Justified(id, covered[id], began, since, p)
  }

  /** Every entry the pass claims to have dealt with was sent in the pass, or was too old in it. */
  predicate Honest(c: Cycle, p: Past) {
    && c.index < |p.passes|
    && var pass := p.passes[c.index];
    && pass.start <= p.ledger.Keys && pass.began <= |p.log| && pass.since <= |p.times|
    && AllJustified(c.covered, pass.began, pass.since, p)
  }

  /** Everything present when the pass began, at or before the cursor, is dealt with. */
  predicate UpTo(cursor: Id, start: set<Id>, covered: map<Id, Reason>) {
    cursor != "" ==> Passed(start, cursor) <= covered.Keys
  }

  function Passed(start: set<Id>, cursor: Id): set<Id> {
    set id | id in start && !Text.Less(cursor, id)
  }

  /** The pass is complete: everything present when it began is dealt with. */
  predicate Complete(c: Cycle, p: Past) {
    Honest(c, p) && p.passes[c.index].start <= c.covered.Keys
  }

  datatype Snapshot = Snapshot(checkpoint: Checkpoint, cycle: Cycle)

  predicate Sound(s: Snapshot, p: Past) {
    && Honest(s.cycle, p) && UpTo(s.checkpoint.cursor, p.passes[s.cycle.index].start, s.cycle.covered)
    && s.checkpoint.failures <= 7
  }

  predicate AllSound(disk: set<Snapshot>, p: Past) {
    disk != {} && forall s :: s in disk ==> Sound(s, p)
  }

  predicate AllComplete(finished: seq<Cycle>, p: Past) {
    forall c :: c in finished ==> Complete(c, p)
  }

  lemma JustifiedIsStable(covered: map<Id, Reason>, began: nat, since: nat, p: Past, q: Past)
    requires AllJustified(covered, began, since, p) && PastGrows(p, q)
    ensures AllJustified(covered, began, since, q)
  {
    forall id | id in covered
      ensures Justified(id, covered[id], began, since, q)
    {
      assert Justified(id, covered[id], began, since, p);
    }
  }

  lemma HonestIsStable(c: Cycle, p: Past, q: Past)
    requires Honest(c, p) && PastGrows(p, q)
    ensures Honest(c, q) && q.passes[c.index] == p.passes[c.index]
  {
    JustifiedIsStable(c.covered, p.passes[c.index].began, p.passes[c.index].since, p, q);
  }

  lemma SoundIsStable(disk: set<Snapshot>, p: Past, q: Past)
    requires AllSound(disk, p) && PastGrows(p, q)
    ensures AllSound(disk, q)
  {
    forall s | s in disk
      ensures Sound(s, q)
    {
      HonestIsStable(s.cycle, p, q);
    }
  }

  lemma CompleteIsStable(finished: seq<Cycle>, p: Past, q: Past)
    requires AllComplete(finished, p) && PastGrows(p, q)
    ensures AllComplete(finished, q)
  {
    forall c | c in finished
      ensures Complete(c, q)
    {
      HonestIsStable(c, p, q);
    }
  }

  /** The live pass, every checkpoint that a crash may leave and every finished pass agree with what happened. */
  predicate ValidIn(p: Past, live: Checkpoint, cycle: Cycle, disk: set<Snapshot>, finished: seq<Cycle>) {
    && ValidLedger(p.ledger) && Sound(Snapshot(live, cycle), p)
    && AllSound(disk, p) && AllComplete(finished, p)
  }

  lemma ValidIsStable(p: Past, q: Past, live: Checkpoint, later: Checkpoint, cycle: Cycle, disk: set<Snapshot>,
                      finished: seq<Cycle>)
    requires ValidIn(p, live, cycle, disk, finished) && PastGrows(p, q)
    requires later.cursor == live.cursor && later.failures == live.failures
    ensures ValidIn(q, later, cycle, disk, finished)
  {
    HonestIsStable(cycle, p, q);
    SoundIsStable(disk, p, q);
    CompleteIsStable(finished, p, q);
  }

  lemma NonemptyFollowsEmpty(id: Id)
    requires id != ""
    ensures Text.Less("", id)
  {
  }

  /** What one page adds to a pass. */
  lemma PageExtends(cursor: Id, start: set<Id>, covered: map<Id, Reason>, l: Ledger, ids: seq<Id>, truncated: bool,
                    added: map<Id, Reason>)
    requires ValidLedger(l) && Lists(l, cursor, ids, truncated) && start <= l.Keys && UpTo(cursor, start, covered)
    requires forall i :: 0 <= i < |ids| ==> ids[i] in added
    ensures truncated ==> UpTo(ids[|ids| - 1], start, covered + added)
    ensures !truncated ==> start <= (covered + added).Keys
  {
    assert cursor != "" ==> forall id :: id in start && !Text.Less(cursor, id) ==> id in Passed(start, cursor);
    forall id | id in start && (truncated ==> !Text.Less(ids[|ids| - 1], id))
      ensures id in covered + added
    {
      if Text.Less(cursor, id) {
        assert id in ids;
      } else if cursor == "" {
        NonemptyFollowsEmpty(id);
        assert false;
      }
    }
  }

  /** `1 << n`. */
  function Shift(n: nat): int {
    if n == 0 then 1 else 2 * Shift(n - 1)
  }

  lemma ShiftBounds(n: nat)
    requires 1 <= n <= 7
    ensures 2 <= Shift(n) <= 128
  {
    assert Shift(3) == 8;
    assert Shift(7) == 128;
    assert Shift(n) == 2 * Shift(n - 1);
    assert n > 3 ==> n == 4 || n == 5 || n == 6 || n == 7;
  }

  /** A failure doubles the wait, up to 128 seconds. */
  function FailedCheckpoint(c: Checkpoint, code: Failure, now: int): Checkpoint {
    var failures := if c.failures < 7 then c.failures + 1 else c.failures;
    c.(failure := code, failures := failures, retryAt := now + Shift(failures) * SECOND)
  }

  /** A failure is recorded, after `before` earlier ones, and the next attempt put off accordingly. */
  predicate Waits(c: Checkpoint, before: nat, now: int) {
    && c.failure != NoFailure && c.failures == (if before < 7 then before + 1 else before)
    && c.retryAt == now + Shift(c.failures) * SECOND
  }

  /** A listing that the index accepts and whose entries can all be read. */
  predicate Serviceable(l: Ledger, archives: set<string>, cursor: Id, keys: seq<string>, truncated: bool) {
    && ValidQuery(cursor, STEP_PAGE) && |keys| <= STEP_PAGE && WellListed(cursor, keys) && !(truncated && keys == [])
    && Lists(l, cursor, KeyIds(keys), truncated) && AllReadable(l, archives, KeyIds(keys))
  }

  predicate AllReadable(l: Ledger, archives: set<string>, ids: seq<Id>) {
    forall i :: 0 <= i < |ids| ==> ids[i] in l && l[ids[i]].wellFormed && l[ids[i]].bucket in archives
  }

  // ------------------------------------------------------------------------ the exporter

  datatype Command = TryStep(now: int, keys: seq<string>, truncated: bool) | Crash | Grow

  /** `ledger` is the environment's. The history fields say what happened: `cycle` is the pass of the cursor,
      `log` the acknowledged sends, `times` the times of the steps, `passes` the passes begun, `finished` those
      completed, `disk` the checkpoints that a crash may leave. In a `calm` world the ledger rests and every call
      succeeds; what a step achieves is stated there. */
  class Exporter {
    const archives: set<string>
    const calm: bool
    var checkpoint: Checkpoint
    var ledger: Ledger
    var cycle: Cycle
    var log: seq<Delivery>
    var times: seq<int>
    var passes: seq<Pass>
    var finished: seq<Cycle>
    var disk: set<Snapshot>

    function History(): Past
      reads this
    {
      Past(ledger, log, times, passes)
    }

    /** What a failed or unfinished page must leave as it is. */
    function Progress(): (Id, int, nat)
      reads this
    {
      (checkpoint.cursor, checkpoint.lastCycleCompletedAt, checkpoint.failures)
    }

    predicate Valid()
      reads this
    {
      ValidIn(History(), checkpoint, cycle, disk, finished)
    }

    /** The empty pass stands for the time before the first. */
    constructor (archives: set<string>, calm: bool)
      ensures Valid() && checkpoint == FRESH && log == [] && times == [] && finished == [] && passes == [Pass({}, 0, 0)]
    {
      this.archives, this.calm := archives, calm;
      checkpoint := FRESH;
      ledger := map[];
      cycle := Cycle(0, map[]);
      log, times, finished := [], [], [];
      passes := [Pass({}, 0, 0)];
      disk := {Snapshot(FRESH, Cycle(0, map[]))};
    }

    /** Other requests add ledger entries. */
    method Interfere()
      requires ValidLedger(ledger)
      modifies this`ledger
      ensures LedgerGrows(old(ledger), ledger) && (calm ==> ledger == old(ledger))
    {
      var more: Ledger := *;
      if !calm && LedgerGrows(ledger, more) {
        ledger := more;
      }
    }

    /** Write a temporary file, rename it, sync the directory: each may fail. */
    method Save() returns (ok: bool)
      requires Valid()
      modifies this`disk
      ensures Valid()
      ensures ok ==> disk == {Snapshot(checkpoint, cycle)}
      ensures disk <= old(disk) + {Snapshot(checkpoint, cycle)} && (calm ==> ok)
    {
      var renamed, synced := *, *;
      if !(calm || renamed) {
        return false;
      }
      if !(calm || synced) {
        disk := disk + {Snapshot(checkpoint, cycle)};
        return false;
      }
      disk := {Snapshot(checkpoint, cycle)};
      return true;
    }

    /** Record the failure and back off; the cursor stays. */
    method Fail(code: Failure, now: int)
      requires Valid()
      modifies this`checkpoint, this`disk
      ensures Valid() && checkpoint == FailedCheckpoint(old(checkpoint), code, now)
      ensures now + 2 * SECOND <= checkpoint.retryAt <= now + 128 * SECOND
    {
      var failures := if checkpoint.failures < 7 then checkpoint.failures + 1 else checkpoint.failures;
      ShiftBounds(failures);
      checkpoint := checkpoint.(failure := code, failures := failures, retryAt := now + Shift(failures) * SECOND);
      var _ := Save();
    }

    /** Start again from whatever checkpoint survived, in the pass that checkpoint belongs to. */
    method Restart()
      requires Valid()
      modifies this`checkpoint, this`cycle, this`disk
      ensures Valid() && Snapshot(checkpoint, cycle) in old(disk)
    {
      var left :| left in disk;
      checkpoint := left.checkpoint;
      cycle := left.cycle;
      disk := {left};
    }

    /** List keys behind the cursor and read their entries, while the ledger grows. `keys` is whatever the
        archive lists. */
    method FetchPage(keys: seq<string>, truncated: bool) returns (r: Option<Page>, ids: seq<Id>, seen: Ledger)
      requires ValidLedger(ledger)
      modifies this`ledger
      ensures LedgerGrows(old(ledger), seen) && LedgerGrows(seen, ledger) && (calm ==> ledger == old(ledger))
      ensures r.Some? ==> Lists(seen, checkpoint.cursor, ids, r.value.next != "") && Describes(ledger, ids, r.value)
      ensures r.Some? ==> ids == KeyIds(keys) && Ascending(checkpoint.cursor, ids) && |ids| <= STEP_PAGE
      ensures calm && Serviceable(old(ledger), archives, checkpoint.cursor, keys, truncated) ==>
        r.Some? && r.value.next == if truncated then LastOr(checkpoint.cursor, KeyIds(keys)) else ""
    {
      Interfere();
      seen := ledger;
      ids := [];
      var found := ExportKeys(checkpoint.cursor, STEP_PAGE, keys, truncated);
      if found.None? || !Lists(ledger, checkpoint.cursor, found.value, truncated) {
        return None, ids, seen;
      }
      ids := found.value;
      ListedAreKnown(ledger, checkpoint.cursor, keys, truncated);
      Interfere();
      r := ExportIndex(ledger, checkpoint.cursor, STEP_PAGE, ids, truncated, calm);
    }

    /** Read the entry's manifest and envelope and project them. */
    method ReadEntry(ref: Reference) returns (failure: Failure, manifest: Option<Manifest>)
      ensures failure == NoFailure ==> manifest.Some? && BelongsTo(manifest.value, ref) && ref.bucket in archives
      ensures failure == ArchiveInvalid <==>
        ref.bucket in archives && !(manifest.Some? && BelongsTo(manifest.value, ref))
      ensures ref.bucket !in archives ==> failure == ArchiveUnavailable
      ensures failure == ProjectionInvalid ==> manifest.Some? && BelongsTo(manifest.value, ref)
      ensures failure.NoFailure? || failure.ArchiveUnavailable? || failure.ArchiveInvalid? || failure.ProjectionInvalid?
      ensures calm && ref.bucket in archives ==> failure == NoFailure
    {
      manifest := None;
      if ref.bucket !in archives {
        return ArchiveUnavailable, manifest;
      }
      var envelopeRead, projected := *, *;
      manifest := *;
      if calm {
        manifest := Some(TrueManifest(ref));
      }
      if manifest.None? || !BelongsTo(manifest.value, ref) {
        return ArchiveInvalid, manifest;
      }
      if !(calm || envelopeRead) {
        return ArchiveUnavailable, manifest;
      }
      return if calm || projected then NoFailure else ProjectionInvalid, manifest;
    }

    /** The time of the step in progress. */
    predicate At(now: int)
      reads this
    {
      times != [] && times[|times| - 1] == now
    }

    /** Deal with one entry: skip it exactly for its retention or its age, or read it and send it. */
    method Handle(ref: Reference, now: int) returns (failure: Failure, why: Reason)
      requires At(now) && ref.id in ledger && ledger[ref.id] == ref
      modifies this`checkpoint, this`log
      ensures old(log) <= log && Progress() == old(Progress())
      ensures failure == NoFailure ==> Justified(ref.id, why, |old(log)|, |times| - 1, History())
      ensures failure == NoFailure ==> (why.Expired? <==> ref.retainUntil <= now)
      ensures failure == NoFailure ==> (why.TooOld? <==> now < ref.retainUntil && ref.occurred < now - WEEK)
      ensures failure == NoFailure ==>
        checkpoint.accepted + checkpoint.skipped == old(checkpoint.accepted) + old(checkpoint.skipped) + 1
      ensures failure == NoFailure && why.Sent? ==> |log| == |old(log)| + 1
      ensures failure != NoFailure || !why.Sent? ==> log == old(log)
      ensures calm && ref.bucket in archives ==> failure == NoFailure
      ensures failure != CheckpointUnavailable
    {
      why := Expired(|times| - 1);
      if ref.retainUntil <= now {
        checkpoint := checkpoint.(skipped := checkpoint.skipped + 1);
        return NoFailure, why;
      }
      var manifest;
      failure, manifest := ReadEntry(ref);
      if failure != NoFailure {
        return;
      }
      if ref.occurred < now - WEEK {
        checkpoint := checkpoint.(skipped := checkpoint.skipped + 1);
        return NoFailure, TooOld(|times| - 1);
      }
      var acknowledged := *;
      if !(calm || acknowledged) {
        return SearchUnavailable, why;
      }
      var sent := Delivery(ref.id, manifest.value);
      log := log + [sent];
      checkpoint := checkpoint.(accepted := checkpoint.accepted + 1);
      return NoFailure, Sent(|log| - 1);
    }

    /** The page loop. On success every entry of the page has a reason that arose in this step. */
    method HandlePage(page: Page, ids: seq<Id>, now: int) returns (failure: Failure, prior: Id, added: map<Id, Reason>)
      requires ValidLedger(ledger) && At(now) && Describes(ledger, ids, page)
      modifies this`checkpoint, this`log
      ensures old(log) <= log && Progress() == old(Progress())
      ensures AllJustified(added, |old(log)|, |times| - 1, History())
      ensures failure == NoFailure ==> (forall i :: 0 <= i < |ids| ==> ids[i] in added)
      ensures failure == NoFailure ==> prior == LastOr(old(checkpoint.cursor), ids)
      ensures calm && Ascending(old(checkpoint.cursor), ids) && AllReadable(ledger, archives, ids) ==>
        failure == NoFailure
      ensures failure != CheckpointUnavailable
    {
      prior, added, failure := checkpoint.cursor, map[], NoFailure;
      ghost var fine := calm && Ascending(checkpoint.cursor, ids) && AllReadable(ledger, archives, ids);
      var i := 0;
      while i < |page.records| && failure == NoFailure
        invariant 0 <= i <= |ids| && old(log) <= log && Progress() == old(Progress())
        invariant AllJustified(added, |old(log)|, |times| - 1, History())
        invariant failure == NoFailure ==> forall j :: 0 <= j < i ==> ids[j] in added
        invariant failure == NoFailure ==> prior == if i == 0 then old(checkpoint.cursor) else ids[i - 1]
        invariant (fine ==> failure == NoFailure) && failure != CheckpointUnavailable
      {
        failure, added := IncludeAt(page.records[i], ids, i, prior, now, added, |old(log)|, fine);
        prior := ids[i];
        i := i + 1;
      }
    }

    /** The same for the entry at `i`; `fine` marks a calm world and a page in order. */
    method IncludeAt(ref: Reference, ids: seq<Id>, i: nat, prior: Id, now: int, before: map<Id, Reason>,
                     ghost began: nat, ghost fine: bool)
      returns (failure: Failure, added: map<Id, Reason>)
      requires ValidLedger(ledger) && At(now) && i < |ids| && ids[i] in ledger && ref == ledger[ids[i]]
      requires began <= |log| && AllJustified(before, began, |times| - 1, History())
      requires prior == if i == 0 then checkpoint.cursor else ids[i - 1]
      requires fine ==> calm && Ascending(checkpoint.cursor, ids) && AllReadable(ledger, archives, ids)
      modifies this`checkpoint, this`log
      ensures old(log) <= log && Progress() == old(Progress())
      ensures AllJustified(added, began, |times| - 1, History())
      ensures added.Keys == if failure == NoFailure then before.Keys + {ids[i]} else before.Keys
      ensures (fine ==> failure == NoFailure) && failure != CheckpointUnavailable
    {
      if fine {
        ReadableAt(ledger, archives, checkpoint.cursor, ids, i);
      }
      failure, added := Include(ref, prior, now, before, began);
    }

    /** Deal with one entry of a page, and keep its reason with those before it. */
    method Include(ref: Reference, prior: Id, now: int, before: map<Id, Reason>, ghost began: nat)
      returns (failure: Failure, added: map<Id, Reason>)
      requires ValidLedger(ledger) && At(now) && ref.id in ledger && ledger[ref.id] == ref
      requires began <= |log| && AllJustified(before, began, |times| - 1, History())
      modifies this`checkpoint, this`log
      ensures old(log) <= log && Progress() == old(Progress())
      ensures AllJustified(added, began, |times| - 1, History())
      ensures added.Keys == if failure == NoFailure then before.Keys + {ref.id} else before.Keys
      ensures !ref.wellFormed || !Text.Less(prior, ref.id) ==> failure == IndexInvalid
      ensures calm && ref.wellFormed && Text.Less(prior, ref.id) && ref.bucket in archives ==> failure == NoFailure
      ensures failure != CheckpointUnavailable
    {
      if !ref.wellFormed || !Text.Less(prior, ref.id) {
        return IndexInvalid, before;
      }
      var why;
      failure, why := Handle(ref, now);
      JustifiedIsStable(before, began, |times| - 1, old(History()), History());
      added := if failure == NoFailure then before[ref.id := why] else before;
    }

    /** Note the step's time; a step that starts at the head of the ledger begins a pass. */
    method BeginStep(now: int) returns (pass: Cycle)
      requires Valid()
      modifies this`times, this`passes
      ensures Valid() && Honest(pass, History()) && UpTo(checkpoint.cursor, passes[pass.index].start, pass.covered)
      ensures times == old(times) + [now]
      ensures passes == if checkpoint.cursor == ""
                        then old(passes) + [Pass(ledger.Keys, |log|, |old(times)|)] else old(passes)
      ensures checkpoint.cursor == "" ==> pass == Cycle(|old(passes)|, map[])
      ensures checkpoint.cursor != "" ==> pass == cycle
    {
      pass := cycle;
      times := times + [now];
      if checkpoint.cursor == "" {
        pass := Cycle(|passes|, map[]);
        passes := passes + [Pass(ledger.Keys, |log|, |times| - 1)];
      }
      ValidIsStable(old(History()), History(), checkpoint, checkpoint, cycle, disk, finished);
    }

    /** Fetch a page and deal with it: on success the pass reaches the page's end. */
    method WorkPage(pass: Cycle, now: int, keys: seq<string>, truncated: bool)
      returns (failure: Failure, next: Id, further: Cycle)
      requires ValidLedger(ledger) && At(now) && Honest(pass, History()) && passes[pass.index].since < |times|
      requires UpTo(checkpoint.cursor, passes[pass.index].start, pass.covered)
      modifies this`checkpoint, this`ledger, this`log
      ensures PastGrows(old(History()), History()) && Progress() == old(Progress())
      ensures further.index == pass.index && failure != CheckpointUnavailable
      ensures failure == NoFailure ==> Honest(further, History())
      ensures failure == NoFailure ==> UpTo(next, passes[pass.index].start, further.covered)
      ensures failure == NoFailure && next == "" ==> Complete(further, History())
      ensures calm && Serviceable(old(ledger), archives, checkpoint.cursor, keys, truncated) ==>
        && failure == NoFailure && ledger == old(ledger)
        && next == if truncated then LastOr(checkpoint.cursor, KeyIds(keys)) else ""
    {
      next, further := "", pass;
      ghost var before := History();
      var page, ids, seen := FetchPage(keys, truncated);
      if page.None? || |page.value.records| > MAX_PAGE {
        failure := IndexUnavailable;
      } else {
        var prior, added;
        failure, prior, added := HandlePage(page.value, ids, now);
        next := page.value.next;
        if failure == NoFailure && next != "" && (page.value.records == [] || next != prior) {
          failure := IndexInvalid;
        }
        if failure == NoFailure {
          further := pass.(covered := pass.covered + added);
          PassReaches(pass, before, History(), checkpoint.cursor, seen, ids, next, added);
        }
      }
    }

    /** One step. `advanced` means a page was finished, `completed` that it was the last page of its pass. */
    method Step(now: int, keys: seq<string>, truncated: bool) returns (ok: bool, advanced: bool, completed: bool)
      requires Valid()
      modifies this
      ensures Valid() && PastGrows(old(History()), History())
      ensures times == if old(checkpoint).retryAt <= now then old(times) + [now] else old(times)
      ensures passes == if old(checkpoint).retryAt <= now && old(checkpoint).cursor == ""
                        then old(passes) + [Pass(old(ledger).Keys, |old(log)|, |old(times)|)] else old(passes)
      ensures advanced ==> cycle.index == if old(checkpoint).cursor == "" then |old(passes)| else old(cycle).index
      ensures !advanced ==> cycle == old(cycle) && checkpoint.cursor == old(checkpoint).cursor
      ensures completed <==> advanced && checkpoint.cursor == ""
      ensures finished == if completed then old(finished) + [cycle] else old(finished)
      ensures checkpoint.lastCycleCompletedAt == if completed then now else old(checkpoint).lastCycleCompletedAt
      ensures completed ==> Complete(cycle, History())
      ensures ok ==> disk == {Snapshot(checkpoint, cycle)} && advanced
      ensures now < old(checkpoint).retryAt ==> checkpoint == old(checkpoint) && !advanced
      ensures old(checkpoint).retryAt <= now && !advanced ==>
        Waits(checkpoint, old(checkpoint).failures, now) && checkpoint.failure != CheckpointUnavailable
      ensures advanced && ok ==>
        checkpoint.failure == NoFailure && checkpoint.failures == 0 && checkpoint.retryAt == now + 5 * SECOND
      ensures advanced && !ok ==> Waits(checkpoint, 0, now) && checkpoint.failure == CheckpointUnavailable
      ensures (calm && old(checkpoint).retryAt <= now
               && Serviceable(old(ledger), archives, old(checkpoint).cursor, keys, truncated)) ==>
        ok && checkpoint.cursor == if truncated then LastOr(old(checkpoint).cursor, KeyIds(keys)) else ""
    {
      if now < checkpoint.retryAt {
        return false, false, false;
      }
      checkpoint := checkpoint.(attemptedAt := now);
      var pass := BeginStep(now);
      ghost var before, live := History(), checkpoint;
      var failure, next, further := WorkPage(pass, now, keys, truncated);
      ValidIsStable(before, History(), live, checkpoint, cycle, disk, finished);
      if failure != NoFailure {
        Fail(failure, now);
        return false, false, false;
      }
      ok := Commit(now, next, further);
      return ok, true, next == "";
    }

    /** Advance the cursor to the end of the page and save; without a next page the pass is finished. */
    method Commit(now: int, next: Id, pass: Cycle) returns (ok: bool)
      requires Valid() && Honest(pass, History()) && UpTo(next, passes[pass.index].start, pass.covered)
      requires next == "" ==> Complete(pass, History())
      modifies this`checkpoint, this`cycle, this`finished, this`disk
      ensures Valid() && checkpoint.cursor == next && cycle == pass
      ensures finished == if next == "" then old(finished) + [pass] else old(finished)
      ensures checkpoint.lastCycleCompletedAt == if next == "" then now else old(checkpoint).lastCycleCompletedAt
      ensures ok ==> disk == {Snapshot(checkpoint, cycle)}
      ensures ok ==>
        checkpoint.failure == NoFailure && checkpoint.failures == 0 && checkpoint.retryAt == now + 5 * SECOND
      ensures !ok ==> Waits(checkpoint, 0, now) && checkpoint.failure == CheckpointUnavailable
      ensures calm ==> ok
    {
      cycle := pass;
      checkpoint := checkpoint.(cursor := next, failure := NoFailure, failures := 0, retryAt := now + 5 * SECOND);
      if next == "" {
        checkpoint := checkpoint.(lastCycleCompletedAt := now);
        finished := finished + [pass];
      }
      ok := Save();
      if !ok {
        Fail(CheckpointUnavailable, now);
      }
    }

    /** Every sequence of steps, crashes with restarts, and ledger growth, whatever fails inside the steps.
        An observer of the ledger and the clock notes `begun` whenever a step starts at the head, `clock` at
        every step, and `done` whenever one reports the end of a pass. Each pass so completed dealt with
        everything in the ledger when it began: sent since, or expired or too old at the time of one of its steps. */
    method Drive(commands: seq<Command>) returns (begun: seq<Pass>, clock: seq<int>, done: seq<Cycle>)
      requires Valid()
      modifies this
      ensures Valid() && PastGrows(old(History()), History())
      ensures passes == old(passes) + begun && times == old(times) + clock && finished == old(finished) + done
      ensures forall c :: c in done ==> Complete(c, History())
    {
      begun, clock, done := [], [], [];
      for i := 0 to |commands|
        invariant Valid() && PastGrows(old(History()), History())
        invariant passes == old(passes) + begun && times == old(times) + clock && finished == old(finished) + done
      {
        var newPass, newTime, newDone := Obey(commands[i]);
        begun, clock, done := begun + newPass, clock + newTime, done + newDone;
      }
    }

    /** One command, with what the observer notes at it. */
    method Obey(command: Command) returns (begun: seq<Pass>, clock: seq<int>, done: seq<Cycle>)
      requires Valid()
      modifies this
      ensures Valid() && PastGrows(old(History()), History())
      ensures passes == old(passes) + begun && times == old(times) + clock && finished == old(finished) + done
    {
      begun, clock, done := [], [], [];
      match command {
        case TryStep(now, keys, truncated) =>
          if checkpoint.retryAt <= now {
            begun := if checkpoint.cursor == "" then [Pass(ledger.Keys, |log|, |times|)] else [];
            clock := [now];
          }
          var _, _, completed := Step(now, keys, truncated);
          done := if completed then [cycle] else [];
        case Crash => Restart();
        case Grow =>
          Interfere();
          ValidIsStable(old(History()), History(), checkpoint, checkpoint, cycle, disk, finished);
      }
    }
  }

  /** The records of a page are the ledger's entries for the listed keys. */
  predicate Describes(l: Ledger, ids: seq<Id>, page: Page) {
    |page.records| == |ids| && forall i :: 0 <= i < |ids| ==> ids[i] in l && page.records[i] == l[ids[i]]
  }

  /** A pass stays honest when the reasons that arose in one of its steps are added to it. */
  lemma PassIsHonest(pass: Cycle, p: Past, q: Past, added: map<Id, Reason>)
    requires Honest(pass, p) && PastGrows(p, q) && p.times == q.times && p.passes[pass.index].since < |p.times|
    requires AllJustified(added, |p.log|, |p.times| - 1, q)
    ensures Honest(pass.(covered := pass.covered + added), q)
  {
    HonestIsStable(pass, p, q);
    var began, since := q.passes[pass.index].began, q.passes[pass.index].since;
    var covered := pass.covered + added;
    forall id | id in covered
      ensures Justified(id, covered[id], began, since, q)
    {
      if id in added {
        assert Justified(id, added[id], |p.log|, |p.times| - 1, q);
      } else {
        assert Justified(id, pass.covered[id], began, since, q);
      }
    }
  }

  lemma ReadableAt(l: Ledger, archives: set<string>, after: Id, ids: seq<Id>, i: nat)
    requires i < |ids| && Ascending(after, ids) && AllReadable(l, archives, ids)
    ensures Text.Less(if i == 0 then after else ids[i - 1], ids[i])
    ensures ids[i] in l && l[ids[i]].wellFormed && l[ids[i]].bucket in archives
  {
    AscendingAt(after, ids, i);
  }

  lemma ListedAreKnown(l: Ledger, after: Id, keys: seq<string>, truncated: bool)
    requires WellListed(after, keys) && Lists(l, after, KeyIds(keys), truncated)
    ensures AllKnown(l, KeyIds(keys))
  {
    forall i | 0 <= i < |keys|
      ensures Known(l, KeyIds(keys)[i])
    {
      assert WellNamed(keys[i]);
    }
  }

  /** A pass that has reached `cursor` reaches the end of the page that was dealt with. */
  lemma PassReaches(pass: Cycle, p: Past, q: Past, cursor: Id, seen: Ledger, ids: seq<Id>, next: Id,
                    added: map<Id, Reason>)
    requires Honest(pass, p) && PastGrows(p, q) && p.times == q.times && p.passes[pass.index].since < |p.times|
    requires AllJustified(added, |p.log|, |p.times| - 1, q) && forall i :: 0 <= i < |ids| ==> ids[i] in added
    requires LedgerGrows(p.ledger, seen) && Lists(seen, cursor, ids, next != "")
    requires next != "" ==> next == LastOr(cursor, ids)
    requires UpTo(cursor, p.passes[pass.index].start, pass.covered)
    ensures var further := pass.(covered := pass.covered + added);
      && Honest(further, q) && UpTo(next, q.passes[pass.index].start, further.covered)
      && (next == "" ==> Complete(further, q))
  {
    PassIsHonest(pass, p, q, added);
    PageExtends(cursor, p.passes[pass.index].start, pass.covered, seen, ids, next != "", added);
  }
}
