/**
  The durable claim journal of command execution (agent/internal/execution/journal.go).

  A file is visible as soon as it is created or renamed; what a power loss leaves of it
  depends on which syncs completed. `Slot.crash` is the set of those possibilities.
 */
module ExecutionJournal {
  import opened Basics

  type Id = string

  datatype Binding = Binding(id: Id, preparation: nat, boot: nat, expires: int)

  datatype Outcome = Outcome(state: string, exitCode: int, reason: string)

  datatype Stage = Claimed | Running | Final(outcome: Outcome)

  /** A record file; `Torn` is an empty, partial or otherwise unreadable one. */
  datatype File = Torn | Whole(binding: Binding, stage: Stage)

  datatype Slot = Slot(now: Option<File>, crash: set<Option<File>>)

  const ABSENT: Slot := Slot(None, {None})

  datatype JournalState = JournalState(files: map<Id, Slot>, records: map<Id, File>)

  function SlotOf(j: JournalState, id: Id): Slot {
    if id in j.files then j.files[id] else ABSENT
  }

  /** How far a claim or an update got before it returned or was interrupted. */
  datatype ClaimEnd = Exists | OpenFailed | Created | Wrote | SyncedFile | Durable
  datatype UpdateEnd = Unclaimed | NoTempFile | NotRenamed | Renamed | Recorded

  /** Which system calls of a claim succeed: the exclusive create, the write, the file's sync, the directory's. */
  datatype ClaimIO = ClaimIO(created: bool, wrote: bool, synced: bool, linked: bool) {
    function End(): ClaimEnd {
      if !created then OpenFailed
      else if !wrote then Created
      else if !synced then Wrote
      else if !linked then SyncedFile
      else Durable
    }
  }

  /** Which system calls of an update succeed: reading the file, the temporary file, everything up to and
      including the rename, the directory's sync. */
  datatype UpdateIO = UpdateIO(readable: bool, created: bool, renamed: bool, linked: bool) {
    function End(): UpdateEnd {
      if !created then NoTempFile else if !renamed then NotRenamed else if !linked then Renamed else Recorded
    }
  }

  /** An update: whether it could read the file where it had to, and how far it got. */
  datatype Attempt = Attempt(readable: bool, end: UpdateEnd)

  /** The file a claim leaves. Only `Durable` returns success. */
  function ClaimSlot(record: File, end: ClaimEnd): Slot {
    match end
    case Created => Slot(Some(Torn), {None, Some(Torn)})
    case Wrote => Slot(Some(record), {None, Some(Torn), Some(record)})
    case SyncedFile => Slot(Some(record), {None, Some(record)})
    case _ => Slot(Some(record), {Some(record)})
  }

  predicate ClaimPossible(j: JournalState, id: Id, end: ClaimEnd) {
    end == Exists <==> id in j.records || SlotOf(j, id).now.Some?
  }

  function ClaimState(j: JournalState, id: Id, b: Binding, end: ClaimEnd): JournalState {
    var record := Whole(b, Claimed);
    match end
    case Exists => j
    case OpenFailed => j
    case Durable => JournalState(j.files[id := ClaimSlot(record, end)], j.records[id := record])
    case _ => JournalState(j.files[id := ClaimSlot(record, end)], j.records[id := record] - {id})
  }

  /** `readRecord`: an interrupted claim or run reads back as an unknown outcome. */
  datatype Answer = NotFound | Unknown | Known(stage: Stage)

  function ReadBack(file: Option<File>): Answer {
    match file
    case None => NotFound
    case Some(Torn) => Unknown
    case Some(Whole(_, Final(outcome))) => Known(Final(outcome))
    case Some(Whole(_, _)) => Unknown
  }

  /** A record in memory answers; otherwise the file does, and any error but "does not exist" on opening or
      reading it (`!readable`) answers an unknown outcome. */
  function Status(j: JournalState, id: Id, readable: bool): Answer {
    if id in j.records then (if j.records[id].Torn? then Unknown else Known(j.records[id].stage))
    else if readable then ReadBack(SlotOf(j, id).now) else Unknown
  }

  /** The record an update starts from: memory first, then the file; an unreadable file yields a bare binding. */
  function OldBinding(j: JournalState, id: Id, readable: bool): Option<Binding> {
    var file: Option<File> :=
      if id in j.records then Some(j.records[id]) else if readable then SlotOf(j, id).now else Some(Torn);
    match file
    case None => None
    case Some(Torn) => Some(Binding(id, 0, 0, 0))
    case Some(Whole(b, _)) => Some(b)
  }

  predicate UpdatePossible(j: JournalState, id: Id, a: Attempt) {
    a.end == Unclaimed <==> OldBinding(j, id, a.readable).None?
  }

  function UpdateState(j: JournalState, id: Id, stage: Stage, a: Attempt): JournalState
    requires UpdatePossible(j, id, a)
  {
    if a.end == Unclaimed then j else
      var next := Whole(OldBinding(j, id, a.readable).value, stage);
      match a.end
      case Unclaimed => j
      case NoTempFile => j
      case NotRenamed => j.(records := j.records - {id})
      case Renamed =>
        JournalState(j.files[id := Slot(Some(next), SlotOf(j, id).crash + {Some(next)})], j.records - {id})
      case Recorded => JournalState(j.files[id := Slot(Some(next), {Some(next)})],
                             if stage == Running then j.records[id := next] else j.records - {id})
  }

  // ------------------------------------------------------------ the object, as coded

  class Journal {
    var files: map<Id, Slot>
    var records: map<Id, File>

    function Contents(): JournalState
      reads this
    {
      JournalState(files, records)
    }

    constructor ()
      ensures Contents() == JournalState(map[], map[])
    {
      files, records := map[], map[];
    }

    /** `readable` is whether opening and reading the file succeeds, should it come to that. */
    method Lookup(id: Id, readable: bool) returns (answer: Answer)
      ensures answer == Status(Contents(), id, readable)
    {
      if id in records {
        return if records[id].Torn? then Unknown else Known(records[id].stage);
      }
      var file := SlotOf(Contents(), id).now;
      if !readable {
        return Unknown;
      }
      if file.None? {
        return NotFound;
      }
      if file.value.Torn? || !file.value.stage.Final? {
        return Unknown;
      }
      return Known(file.value.stage);
    }

    /** Every system call may fail; a failure after the exclusive create consumes the ID. */
    method Claim(id: Id, b: Binding, io: ClaimIO) returns (end: ClaimEnd)
      modifies this
      ensures ClaimPossible(old(Contents()), id, end)
      ensures end != Exists ==> end == io.End()
      ensures Contents() == ClaimState(old(Contents()), id, b, end)
    {
      if id in records {
        return Exists;
      }
      if SlotOf(Contents(), id).now.Some? {
        return Exists;
      }
      if !io.created {
        return OpenFailed;
      }
      var record := Whole(b, Claimed);
      var others := files;
      records := records[id := record];
      files := others[id := ClaimSlot(record, Created)];
      end := Created;
      if io.wrote {
        files := others[id := ClaimSlot(record, Wrote)];
        end := Wrote;
      }
      if io.wrote && io.synced {
        files := others[id := ClaimSlot(record, SyncedFile)];
        end := SyncedFile;
      }
      if io.wrote && io.synced && io.linked {
        files := others[id := ClaimSlot(record, Durable)];
        end := Durable;
      } else {
        records := records - {id};
      }
    }

    method Update(id: Id, stage: Stage, io: UpdateIO) returns (a: Attempt)
      modifies this
      ensures UpdatePossible(old(Contents()), id, a) && a.readable == io.readable
      ensures a.end != Unclaimed ==> a.end == io.End()
      ensures Contents() == UpdateState(old(Contents()), id, stage, a)
    {
      var readable := io.readable;
      var old' := OldBinding(Contents(), id, readable);
      if old'.None? {
        return Attempt(readable, Unclaimed);
      }
      var next := Whole(old'.value, stage);
      if !io.created {
        return Attempt(readable, NoTempFile);
      }
      if !io.renamed {
        records := records - {id};
        return Attempt(readable, NotRenamed);
      }
      var others, survivors := files, SlotOf(Contents(), id).crash;
      files := others[id := Slot(Some(next), survivors + {Some(next)})];
      if !io.linked {
        records := records - {id};
        return Attempt(readable, Renamed);
      }
      files := others[id := Slot(Some(next), {Some(next)})];
      if stage == Running {
        records := records[id := next];
      } else {
        records := records - {id};
      }
      return Attempt(readable, Recorded);
    }
  }

  // -------------------------------------------------------------- what the journal keeps

  /** The visible file is one of the possible survivors, for every ID. */
  predicate Valid(j: JournalState) {
    forall id :: id in j.files ==> j.files[id].now in j.files[id].crash
  }

  /** No power loss can make the ID claimable again. */
  predicate Consumed(j: JournalState, id: Id) {
    None !in SlotOf(j, id).crash && SlotOf(j, id).now.Some?
  }

  /** `outcome` is what every later lookup finds that can read the file. */
  predicate Settled(j: JournalState, id: Id, outcome: Outcome) {
    && id !in j.records
    && id in j.files && j.files[id].now.Some? && j.files[id].crash == {j.files[id].now}
    && j.files[id].now.value.Whole? && j.files[id].now.value.stage == Final(outcome)
  }

  lemma SettledIsAnswered(j: JournalState, id: Id, outcome: Outcome, readable: bool)
    requires Settled(j, id, outcome)
    ensures Status(j, id, readable) == if readable then Known(Final(outcome)) else Unknown
    ensures Consumed(j, id)
  {
  }

  /** A recorded result that a later lookup does not return: the final update left memory, and the read fails. */
  lemma UnreadableResultIsUnknown(id: Id, b: Binding, outcome: Outcome) returns (j: JournalState)
    ensures var claimed := ClaimState(JournalState(map[], map[]), id, b, Durable);
      j == UpdateState(claimed, id, Final(outcome), Attempt(true, Recorded))
    ensures Settled(j, id, outcome) && Status(j, id, true) == Known(Final(outcome)) && Status(j, id, false) == Unknown
  {
    var claimed := ClaimState(JournalState(map[], map[]), id, b, Durable);
    j := UpdateState(claimed, id, Final(outcome), Attempt(true, Recorded));
    SettledIsAnswered(j, id, outcome, true);
    SettledIsAnswered(j, id, outcome, false);
  }

  /** A power loss or restart: memory is gone, and each file is one of its survivors. */
  predicate Survives(j: JournalState, k: JournalState) {
    && k.records == map[] && k.files.Keys <= j.files.Keys
    && (forall id :: id in j.files ==> SlotOf(k, id).now in j.files[id].crash)
    && (forall id :: id in k.files ==> k.files[id].crash == {k.files[id].now})
  }
}
