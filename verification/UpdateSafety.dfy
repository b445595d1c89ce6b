/**
  Safety of the self-update protocol over every run: whatever the interleaving of
  staging, supervisor, agent and operator, and wherever kills and power losses fall.
 */
module UpdateSafety {
  import opened Basics
  import opened UpdateProtocol
  import Versions

  // ------------------------------------------------------------------ the invariant

  predicate SameBinding(r: Record, e: Record) {
    r.op == e.op && r.target == e.target && r.original == e.original && r.expires == e.expires
  }

  /** The operation has passed `installing`: its binary may have been replaced. */
  predicate Touched(r: Record) {
    Forward(r) || Backward(r)
  }

  predicate Forward(r: Record) {
    r.phase.Installing? || r.phase.Reconnecting? || r.phase.Succeeded?
  }

  predicate Backward(r: Record) {
    r.phase.RollingBack? || r.phase.RolledBack?
  }

  predicate BackwardPc(pc: Pc) {
    pc.Decided? || pc.RollbackStopped? || pc.Restored? || pc.RollbackMarked? || pc.RollbackStarted?
  }

  /** The preserved original of `r` exists, is exact, and survives a power loss. */
  predicate Preserved(s: State, r: Record) {
    BackupIntact(s, r) && r.op in s.kept
  }

  /** Image `x` on disk is consistent with journal record `r`. */
  predicate Consistent(r: Record, x: Image) {
    match r.phase
    case Downloading => true
    case Staged => true
    case Failed => true
    case Installing => x == r.original.image || x == r.target.image
    case RollingBack => x == r.original.image || x == r.target.image
    case Reconnecting => x == r.target.image
    case Succeeded => x == r.target.image
    case RolledBack => x == r.original.image
  }

  predicate WellFormed(r: Record) {
    && (r.confirmed ==> r.phase == Succeeded || r.phase == RolledBack)
    && (r.phase == Succeeded ==> r.confirmed)
    && Distinct(r)
  }

  /** A verified target is never the original it replaces. */
  predicate Distinct(r: Record) {
    r.target == Describe(r.target.image) ==> r.original.image != r.target.image
  }

  /** Everything a power loss could leave in the journal agrees with everything it could leave on disk. */
  predicate JournalInv(s: State) {
    && s.journal.now in s.journal.crash
    && s.binary.now in s.binary.crash
    && s.kept <= s.backups.Keys
    && (forall j :: j in s.journal.crash && j.Some? ==> RecordInv(s, j.value))
    && (forall j, x :: j in s.journal.crash && j.Some? && x in s.binary.crash ==> Consistent(j.value, x))
  }

  predicate RecordInv(s: State, r: Record) {
    WellFormed(r) && (Touched(r) ==> r.op in s.launched && Preserved(s, r) && r.target == Describe(r.target.image))
  }

  /** What a power loss may leave of the current operation, besides its visible record. */
  predicate OrderInv(s: State) {
    s.journal.now.Some? ==>
      var r := s.journal.now.value;
      forall j :: j in s.journal.crash && j.Some? && j.value.op == r.op ==>
        && (Forward(r) ==> Forward(j.value) || (r.phase == Installing && s.binary.crash == {r.original.image}))
        && (Backward(r) ==> Touched(j.value))
  }

  /** A running agent executes exactly the image on disk, and a durable one if it could confirm. */
  predicate AgentInv(s: State) {
    && (s.agent != Stopped ==> s.binary.crash == {s.binary.now} || !CouldConfirm(s))
    && (s.agent.Running? ==> s.agent.identity == Describe(s.binary.now))
  }

  predicate OnlyRecord(s: State, r: Record) {
    s.journal == Cell(Some(r), {Some(r)})
  }

  predicate OwnerInv(s: State) {
    match s.owner
    case Free => true
    case Stager(e) =>
      && s.journal.now.Some? && SameBinding(s.journal.now.value, e)
      && (s.journal.now.value.phase.Downloading? || s.journal.now.value.phase.Staged?) && !e.confirmed
      && e.op !in s.launched
    case Supervisor(e, pc, since) =>
      && e.op in s.launched && e.op !in s.waiting && e.op !in s.launching
      && e.target == Describe(e.target.image) && e.phase == Staged && !e.confirmed
      && since < e.expires && s.now <= since + SUPERVISOR_LIFE
      && SupervisorInv(s, e, pc)
  }

  /** A journal that the supervisor of `e` may find, or a power loss may leave, while it is at `pc`. */
  predicate JournalAt(j: Option<Record>, e: Record, pc: Pc) {
    && j.Some? && SameBinding(j.value, e)
    && (if BackwardPc(pc) then Backward(j.value) else Forward(j.value))
    && (pc.DidMark? || pc.ServiceStopped? ==> !j.value.phase.Reconnecting?)
  }

  predicate SupervisorInv(s: State, e: Record, pc: Pc) {
    if pc == Checked || pc == BackedUp then
      && OnlyRecord(s, e) && e.phase == Staged
      && s.binary.now == e.original.image
      && (pc == BackedUp ==> Preserved(s, e) && s.binary.crash == {e.original.image})
    else
      && (forall j :: j in s.journal.crash ==> JournalAt(j, e, pc))
      && (pc.DidMark? || pc.ServiceStopped? ==>
            OnlyRecord(s, e.(phase := Installing)) && s.binary.crash == {e.original.image})
      && (pc.ServiceStopped? ==> s.agent == Stopped)
      && (pc.RollbackStopped? ==> s.agent == Stopped || s.binary.crash == {e.original.image})
      && (pc.Recovering? || pc.Decided? || pc.RollbackStopped? ==>
            s.binary.now == e.original.image ==> s.binary.crash == {e.original.image})
      && (pc.Copied? || pc.Marked? || pc.Started? ==> s.binary.crash == {e.target.image})
      && (pc.Restored? || pc.RollbackMarked? || pc.RollbackStarted? ==> s.binary.crash == {e.original.image})
  }

  predicate LaunchInv(s: State) {
    && (forall op :: op in s.launching ==>
          && op in s.launched && op !in s.waiting
          && s.launching[op].op == op && s.launching[op].phase == Staged
          && OnlyRecord(s, s.launching[op]) && s.now <= SupersedableAfter(s.launching[op]))
    && (forall op :: op in s.waiting ==> op in s.launched)
    && (forall op :: op in s.waiting && s.journal.now.Some? && s.journal.now.value.op == op ==>
          s.journal.now.value.phase == Staged && s.journal.crash == {s.journal.now})
  }

  /** Marked `installing`, but the original is in place and no supervisor of the operation is left. */
  predicate Untouched(s: State, r: Record) {
    && r.phase == Installing
    && s.binary.crash == {r.original.image}
    && !(s.owner.Supervisor? && s.owner.entry.op == r.op)
  }

  /** Past confirmations bind what can still happen to their operation. */
  predicate HistoryInv(s: State) {
    forall c :: c in s.confirmations ==>
      && (c.1 == Succeeded || c.1 == RolledBack)
      && c.0 in s.launched && c.0 !in s.waiting && c.0 !in s.launching
      && (forall j :: j in s.journal.crash && j.Some? && j.value.op == c.0 ==>
            if c.1 == Succeeded then Forward(j.value) else Backward(j.value) || Untouched(s, j.value))
      && (s.owner.Supervisor? && s.owner.entry.op == c.0 ==>
            if c.1 == Succeeded then !BackwardPc(s.owner.pc) && s.journal.now.Some? && s.journal.now.value.confirmed
            else BackwardPc(s.owner.pc))
  }

  predicate DiskInv(s: State) {
    JournalInv(s) && OrderInv(s)
  }

  predicate ActorsInv(s: State) {
    AgentInv(s) && OwnerInv(s) && LaunchInv(s)
  }

  predicate SafetyInv(s: State) {
    DiskInv(s) && ActorsInv(s) && HistoryInv(s)
  }

  lemma InitIsSafe(s: State)
    requires Init(s)
    ensures SafetyInv(s)
  {
  }

  // -------------------------------------------------------- one event at a time

  /** The journal's record in another phase. */
  function Rewritten(s: State, phase: Phase, w: Write): State
    requires s.journal.now.Some?
  {
    s.(journal := s.journal.Replace(Some(s.journal.now.value.(phase := phase)), w))
  }

  lemma PowerLossSafe(s: State, j: Option<Record>, b: Image, lost: set<Operation>)
    requires SafetyInv(s) && j in s.journal.crash && b in s.binary.crash && lost !! s.kept
    ensures SafetyInv(LosePower(s, j, b, lost))
  {
  }

  lemma SyncBackupsSafe(s: State, synced: set<Operation>)
    requires SafetyInv(s)
    ensures SafetyInv(SyncBackups(s, synced))
  {
  }

  lemma SyncJournalSafe(s: State)
    requires SafetyInv(s)
    ensures SafetyInv(SyncJournal(s))
  {
  }

  lemma SyncBinarySafe(s: State)
    requires SafetyInv(s)
    ensures SafetyInv(SyncBinary(s))
  {
  }

  lemma TickSafe(s: State, to: int)
    requires SafetyInv(s) && WorldEnabled(s, Tick(to))
    ensures SafetyInv(s.(now := to))
  {
  }

  lemma AgentSafe(s: State, agent: Agent)
    requires SafetyInv(s)
    requires || agent == Stopped
             || (agent == Down && s.agent != Stopped)
             || ((s.agent != Stopped || SafeStart(s)) && agent == Running(Describe(s.binary.now)))
    ensures SafetyInv(s.(agent := agent))
  {
  }

  lemma StageSafe(s: State, entry: Record, w: Write)
    requires SafetyInv(s) && s.owner == Free && w != NotWritten
    requires entry.phase == Downloading && !entry.confirmed && entry.op !in s.launched && Distinct(entry)
    requires s.journal.now.Some? ==>
      var previous := s.journal.now.value;
      previous.op != entry.op && (Active(previous) ==> CanSupersede(previous, entry.original, entry.op, s.now))
    ensures SafetyInv(WriteIntent(s, entry, w))
  {
  }

  lemma FinishStagingSafe(s: State, w: Write)
    requires SafetyInv(s) && s.owner.Stager? && s.now <= SupersedableAfter(s.owner.entry)
    ensures SafetyInv(WriteStaged(s, w))
  {
  }

  lemma StagingFailsSafe(s: State, w: Write)
    requires SafetyInv(s) && s.owner.Stager?
    ensures SafetyInv(AbandonStaging(s, w))
  {
  }

  lemma LaunchSucceedsSafe(s: State, op: Operation)
    requires SafetyInv(s) && op in s.launching
    ensures SafetyInv(s.(launching := s.launching - {op}, waiting := s.waiting + {op}))
  {
  }

  lemma LauncherDiesSafe(s: State, op: Operation)
    requires SafetyInv(s) && op in s.launching
    ensures SafetyInv(s.(launching := s.launching - {op}))
  {
  }

  lemma LaunchFailsSafe(s: State, op: Operation, w: Write)
    requires SafetyInv(s) && op in s.launching
    ensures SafetyInv(AbandonLaunch(s, op, w))
  {
  }

  lemma WaiterExitsSafe(s: State, op: Operation)
    requires SafetyInv(s) && op in s.waiting
    ensures SafetyInv(s.(waiting := s.waiting - {op}))
  {
  }

  lemma RefuseSafe(s: State, op: Operation, w: Write)
    requires SafetyInv(s) && op in s.waiting && s.owner == Free
    ensures SafetyInv(RefuseStaged(s, op, w))
  {
    WaiterExitsSafe(s, op);
    if JournalIs(s, op, Staged) && !s.journal.now.value.confirmed && w != NotWritten {
      RefusalWriteSafe(s, op, w);
    }
  }

  lemma RefusalWriteSafe(s: State, op: Operation, w: Write)
    requires SafetyInv(s) && op in s.waiting && s.owner == Free && w != NotWritten
    requires JournalIs(s, op, Staged) && !s.journal.now.value.confirmed
    ensures SafetyInv(Rewritten(s, Failed, w).(waiting := s.waiting - {op}))
  {
  }

  lemma CheckSafe(s: State, op: Operation)
    requires SafetyInv(s) && op in s.waiting && s.owner == Free && MayInstall(s, op)
    ensures SafetyInv(TakeOver(s, op))
  {
  }

  lemma BackUpDisk(s: State)
    requires SafetyInv(s) && StepEnabled(s, BackUp)
    ensures DiskInv(SaveBackup(s))
  {
  }

  lemma BackUpActors(s: State)
    requires SafetyInv(s) && StepEnabled(s, BackUp)
    ensures ActorsInv(SaveBackup(s))
  {
  }

  lemma BackUpHistory(s: State)
    requires SafetyInv(s) && StepEnabled(s, BackUp)
    ensures HistoryInv(SaveBackup(s))
  {
  }

  lemma BackUpSafe(s: State)
    requires SafetyInv(s) && StepEnabled(s, BackUp)
    ensures SafetyInv(SaveBackup(s))
  {
    BackUpDisk(s);
    BackUpActors(s);
    BackUpHistory(s);
  }

  lemma BackUpFailsSafe(s: State, created: bool, w: Write)
    requires SafetyInv(s) && StepEnabled(s, BackUpFails(created, w))
    ensures SafetyInv(AbandonBackup(s, created, w))
  {
    SupervisorExitsSafe(s);
    var t := s.(owner := Free);
    if created {
      t := t.(backups := s.backups[s.owner.entry.op := s.binary.now]);
      SpareBackupSafe(s);
    }
    if w != NotWritten {
      FailureWriteSafe(t, s.owner.entry, w);
    }
  }

  lemma SpareBackupSafe(s: State)
    requires SafetyInv(s) && Holds(s, Checked) && s.owner.entry.op !in s.backups
    ensures SafetyInv(s.(owner := Free, backups := s.backups[s.owner.entry.op := s.binary.now]))
  {
  }

  lemma FailureWriteSafe(s: State, e: Record, w: Write)
    requires SafetyInv(s) && s.owner == Free && OnlyRecord(s, e) && e.phase == Staged
    requires e.op !in s.waiting && e.op !in s.launching
    requires w != NotWritten
    ensures SafetyInv(s.(journal := s.journal.Replace(Some(e.(phase := Failed)), w)))
  {
  }

  lemma MarkInstallingSafe(s: State, w: Write)
    requires SafetyInv(s) && Holds(s, BackedUp)
    ensures SafetyInv(Mark(s, Installing, w, DidMark, None))
  {
    if w == NotWritten {
      SupervisorExitsSafe(s);
    } else if w == Unsynced {
      UndurableInstallingSafe(s);
    } else {
      InstallingSafe(s);
    }
  }

  lemma InstallingDisk(s: State)
    requires SafetyInv(s) && Holds(s, BackedUp)
    ensures DiskInv(MoveTo(Rewritten(s, Installing, Synced), DidMark))
  {
  }

  lemma InstallingActors(s: State)
    requires SafetyInv(s) && Holds(s, BackedUp)
    ensures ActorsInv(MoveTo(Rewritten(s, Installing, Synced), DidMark))
  {
  }

  lemma InstallingHistory(s: State)
    requires SafetyInv(s) && Holds(s, BackedUp)
    ensures HistoryInv(MoveTo(Rewritten(s, Installing, Synced), DidMark))
  {
  }

  lemma InstallingSafe(s: State)
    requires SafetyInv(s) && Holds(s, BackedUp)
    ensures SafetyInv(MoveTo(Rewritten(s, Installing, Synced), DidMark))
  {
    InstallingDisk(s);
    InstallingActors(s);
    InstallingHistory(s);
  }

  lemma UndurableInstallingSafe(s: State)
    requires SafetyInv(s) && Holds(s, BackedUp)
    ensures SafetyInv(Rewritten(s, Installing, Unsynced).(owner := Free))
  {
  }

  lemma StopServiceDisk(s: State, ok: bool, stopped: bool)
    requires SafetyInv(s) && Holds(s, DidMark)
    ensures DiskInv(StopForInstall(s, ok, stopped))
  {
  }

  lemma StopServiceActors(s: State, ok: bool, stopped: bool)
    requires SafetyInv(s) && Holds(s, DidMark)
    ensures ActorsInv(StopForInstall(s, ok, stopped))
  {
  }

  lemma StopServiceHistory(s: State, ok: bool, stopped: bool)
    requires SafetyInv(s) && Holds(s, DidMark)
    ensures HistoryInv(StopForInstall(s, ok, stopped))
  {
  }

  lemma StopServiceSafe(s: State, ok: bool, stopped: bool)
    requires SafetyInv(s) && Holds(s, DidMark)
    ensures SafetyInv(StopForInstall(s, ok, stopped))
  {
    StopServiceDisk(s, ok, stopped);
    StopServiceActors(s, ok, stopped);
    StopServiceHistory(s, ok, stopped);
  }

  lemma InstallTargetDisk(s: State, w: Write)
    requires SafetyInv(s) && Holds(s, ServiceStopped)
    ensures DiskInv(CopyTarget(s, w))
  {
  }

  lemma InstallTargetActors(s: State, w: Write)
    requires SafetyInv(s) && Holds(s, ServiceStopped)
    ensures ActorsInv(CopyTarget(s, w))
  {
  }

  lemma InstallTargetHistory(s: State, w: Write)
    requires SafetyInv(s) && Holds(s, ServiceStopped)
    ensures HistoryInv(CopyTarget(s, w))
  {
  }

  lemma InstallTargetSafe(s: State, w: Write)
    requires SafetyInv(s) && Holds(s, ServiceStopped)
    ensures SafetyInv(CopyTarget(s, w))
  {
    InstallTargetDisk(s, w);
    InstallTargetActors(s, w);
    InstallTargetHistory(s, w);
  }

  lemma MarkReconnectingSafe(s: State, w: Write)
    requires SafetyInv(s) && Holds(s, Copied)
    ensures SafetyInv(Mark(s, Reconnecting, w, Marked, Some(Recovering)))
  {
    var r := s.journal.now.value;
    if w == NotWritten || r.confirmed {
      RecoverSafe(s);
      assert Mark(s, Reconnecting, w, Marked, Some(Recovering)) == MoveTo(s, Recovering);
    } else {
      SupervisorWriteSafe(s, Reconnecting, w, if w == Synced then Marked else Recovering);
    }
  }

  predicate ForwardPc(pc: Pc) {
    pc.DidMark? || pc.ServiceStopped? || pc.Copied? || pc.Marked? || pc.Started?
  }

  lemma RecoverDisk(s: State)
    requires SafetyInv(s) && s.owner.Supervisor? && ForwardPc(s.owner.pc)
    ensures DiskInv(MoveTo(s, Recovering))
  {
  }

  lemma RecoverActors(s: State)
    requires SafetyInv(s) && s.owner.Supervisor? && ForwardPc(s.owner.pc)
    ensures ActorsInv(MoveTo(s, Recovering))
  {
  }

  lemma RecoverHistory(s: State)
    requires SafetyInv(s) && s.owner.Supervisor? && ForwardPc(s.owner.pc)
    ensures HistoryInv(MoveTo(s, Recovering))
  {
  }

  /** The forward path may turn to recovery at any point after the service was stopped. */
  lemma RecoverSafe(s: State)
    requires SafetyInv(s) && s.owner.Supervisor? && ForwardPc(s.owner.pc)
    ensures SafetyInv(MoveTo(s, Recovering))
  {
    RecoverDisk(s);
    RecoverActors(s);
    RecoverHistory(s);
  }

  lemma SupervisorWriteDisk(s: State, phase: Phase, w: Write, pc: Pc)
    requires SafetyInv(s) && s.owner.Supervisor? && !s.journal.now.value.confirmed && w != NotWritten
    requires phase == Reconnecting && s.owner.pc == Copied && (pc == Recovering || (pc == Marked && w == Synced))
    ensures DiskInv(MoveTo(Rewritten(s, phase, w), pc))
  {
  }

  lemma SupervisorWriteActors(s: State, phase: Phase, w: Write, pc: Pc)
    requires SafetyInv(s) && s.owner.Supervisor? && !s.journal.now.value.confirmed && w != NotWritten
    requires phase == Reconnecting && s.owner.pc == Copied && (pc == Recovering || (pc == Marked && w == Synced))
    ensures ActorsInv(MoveTo(Rewritten(s, phase, w), pc))
  {
  }

  lemma SupervisorWriteHistory(s: State, phase: Phase, w: Write, pc: Pc)
    requires SafetyInv(s) && s.owner.Supervisor? && !s.journal.now.value.confirmed && w != NotWritten
    requires phase == Reconnecting && s.owner.pc == Copied && (pc == Recovering || (pc == Marked && w == Synced))
    ensures HistoryInv(MoveTo(Rewritten(s, phase, w), pc))
  {
  }

  /** A transition the journal accepts, with the supervisor left at `pc`. */
  lemma SupervisorWriteSafe(s: State, phase: Phase, w: Write, pc: Pc)
    requires SafetyInv(s) && s.owner.Supervisor? && !s.journal.now.value.confirmed && w != NotWritten
    requires phase == Reconnecting && s.owner.pc == Copied && (pc == Recovering || (pc == Marked && w == Synced))
    ensures SafetyInv(MoveTo(Rewritten(s, phase, w), pc))
  {
    SupervisorWriteDisk(s, phase, w, pc);
    SupervisorWriteActors(s, phase, w, pc);
    SupervisorWriteHistory(s, phase, w, pc);
  }

  lemma DecisionDisk(s: State)
    requires SafetyInv(s) && Holds(s, Recovering) && !s.journal.now.value.confirmed
    ensures DiskInv(MoveTo(Rewritten(s, RollingBack, Synced), Decided))
  {
  }

  lemma DecisionActors(s: State)
    requires SafetyInv(s) && Holds(s, Recovering) && !s.journal.now.value.confirmed
    ensures ActorsInv(MoveTo(Rewritten(s, RollingBack, Synced), Decided))
  {
  }

  lemma DecisionHistory(s: State)
    requires SafetyInv(s) && Holds(s, Recovering) && !s.journal.now.value.confirmed
    ensures HistoryInv(MoveTo(Rewritten(s, RollingBack, Synced), Decided))
  {
  }

  lemma DecisionSafe(s: State)
    requires SafetyInv(s) && Holds(s, Recovering) && !s.journal.now.value.confirmed
    ensures SafetyInv(MoveTo(Rewritten(s, RollingBack, Synced), Decided))
  {
    DecisionDisk(s);
    DecisionActors(s);
    DecisionHistory(s);
  }

  lemma RestorationMarkDisk(s: State)
    requires SafetyInv(s) && Holds(s, Restored) && !s.journal.now.value.confirmed
    ensures DiskInv(MoveTo(Rewritten(s, RolledBack, Synced), RollbackMarked))
  {
  }

  lemma RestorationMarkActors(s: State)
    requires SafetyInv(s) && Holds(s, Restored) && !s.journal.now.value.confirmed
    ensures ActorsInv(MoveTo(Rewritten(s, RolledBack, Synced), RollbackMarked))
  {
  }

  lemma RestorationMarkHistory(s: State)
    requires SafetyInv(s) && Holds(s, Restored) && !s.journal.now.value.confirmed
    ensures HistoryInv(MoveTo(Rewritten(s, RolledBack, Synced), RollbackMarked))
  {
  }

  lemma RestorationMarkSafe(s: State)
    requires SafetyInv(s) && Holds(s, Restored) && !s.journal.now.value.confirmed
    ensures SafetyInv(MoveTo(Rewritten(s, RolledBack, Synced), RollbackMarked))
  {
    RestorationMarkDisk(s);
    RestorationMarkActors(s);
    RestorationMarkHistory(s);
  }

  lemma UndurableDecisionDisk(s: State)
    requires SafetyInv(s) && Holds(s, Recovering) && !s.journal.now.value.confirmed
    ensures DiskInv(Rewritten(s, RollingBack, Unsynced).(owner := Free))
  {
  }

  lemma UndurableDecisionActors(s: State)
    requires SafetyInv(s) && Holds(s, Recovering) && !s.journal.now.value.confirmed
    ensures ActorsInv(Rewritten(s, RollingBack, Unsynced).(owner := Free))
  {
  }

  lemma UndurableDecisionHistory(s: State)
    requires SafetyInv(s) && Holds(s, Recovering) && !s.journal.now.value.confirmed
    ensures HistoryInv(Rewritten(s, RollingBack, Unsynced).(owner := Free))
  {
  }

  /** A rollback decision whose directory sync failed: the supervisor gives up. */
  lemma UndurableDecisionSafe(s: State)
    requires SafetyInv(s) && Holds(s, Recovering) && !s.journal.now.value.confirmed
    ensures SafetyInv(Rewritten(s, RollingBack, Unsynced).(owner := Free))
  {
    UndurableDecisionDisk(s);
    UndurableDecisionActors(s);
    UndurableDecisionHistory(s);
  }

  lemma UndurableRestorationDisk(s: State)
    requires SafetyInv(s) && Holds(s, Restored) && !s.journal.now.value.confirmed
    ensures DiskInv(Rewritten(s, RolledBack, Unsynced).(owner := Free))
  {
  }

  lemma UndurableRestorationActors(s: State)
    requires SafetyInv(s) && Holds(s, Restored) && !s.journal.now.value.confirmed
    ensures ActorsInv(Rewritten(s, RolledBack, Unsynced).(owner := Free))
  {
  }

  lemma UndurableRestorationHistory(s: State)
    requires SafetyInv(s) && Holds(s, Restored) && !s.journal.now.value.confirmed
    ensures HistoryInv(Rewritten(s, RolledBack, Unsynced).(owner := Free))
  {
  }

  lemma UndurableRestorationSafe(s: State)
    requires SafetyInv(s) && Holds(s, Restored) && !s.journal.now.value.confirmed
    ensures SafetyInv(Rewritten(s, RolledBack, Unsynced).(owner := Free))
  {
    UndurableRestorationDisk(s);
    UndurableRestorationActors(s);
    UndurableRestorationHistory(s);
  }

  lemma StartServiceDisk(s: State, ok: bool, started: bool)
    requires SafetyInv(s) && Holds(s, Marked)
    ensures DiskInv(StartTarget(s, ok, started))
  {
  }

  lemma StartServiceActors(s: State, ok: bool, started: bool)
    requires SafetyInv(s) && Holds(s, Marked)
    ensures ActorsInv(StartTarget(s, ok, started))
  {
  }

  lemma StartServiceHistory(s: State, ok: bool, started: bool)
    requires SafetyInv(s) && Holds(s, Marked)
    ensures HistoryInv(StartTarget(s, ok, started))
  {
  }

  lemma StartServiceSafe(s: State, ok: bool, started: bool)
    requires SafetyInv(s) && Holds(s, Marked)
    ensures SafetyInv(StartTarget(s, ok, started))
  {
    StartServiceDisk(s, ok, started);
    StartServiceActors(s, ok, started);
    StartServiceHistory(s, ok, started);
  }

  lemma WaitFailsSafe(s: State)
    requires SafetyInv(s) && Holds(s, Started)
    ensures SafetyInv(MoveTo(s, Recovering))
  {
    RecoverSafe(s);
  }

  lemma SupervisorExitsSafe(s: State)
    requires SafetyInv(s) && s.owner.Supervisor?
    ensures SafetyInv(s.(owner := Free))
  {
  }

  lemma BeginRollbackSafe(s: State, w: Write)
    requires SafetyInv(s) && Holds(s, Recovering)
    ensures SafetyInv(Mark(s, RollingBack, w, Decided, None))
  {
    if w == NotWritten || s.journal.now.value.confirmed {
      SupervisorExitsSafe(s);
    } else if w == Unsynced {
      UndurableDecisionSafe(s);
    } else {
      DecisionSafe(s);
    }
  }

  lemma StopForRollbackDisk(s: State, ok: bool, stopped: bool)
    requires SafetyInv(s) && Holds(s, Decided)
    ensures DiskInv(StopForRestore(s, ok, stopped))
  {
  }

  lemma StopForRollbackActors(s: State, ok: bool, stopped: bool)
    requires SafetyInv(s) && Holds(s, Decided)
    ensures ActorsInv(StopForRestore(s, ok, stopped))
  {
  }

  lemma StopForRollbackHistory(s: State, ok: bool, stopped: bool)
    requires SafetyInv(s) && Holds(s, Decided)
    ensures HistoryInv(StopForRestore(s, ok, stopped))
  {
  }

  lemma StopForRollbackSafe(s: State, ok: bool, stopped: bool)
    requires SafetyInv(s) && Holds(s, Decided)
    ensures SafetyInv(StopForRestore(s, ok, stopped))
  {
    StopForRollbackDisk(s, ok, stopped);
    StopForRollbackActors(s, ok, stopped);
    StopForRollbackHistory(s, ok, stopped);
  }

  lemma RestoreOriginalDisk(s: State, w: Write)
    requires SafetyInv(s) && Holds(s, RollbackStopped)
    ensures DiskInv(CopyOriginal(s, w))
  {
  }

  lemma RestoreOriginalActors(s: State, w: Write)
    requires SafetyInv(s) && Holds(s, RollbackStopped)
    ensures ActorsInv(CopyOriginal(s, w))
  {
  }

  lemma RestoreOriginalHistory(s: State, w: Write)
    requires SafetyInv(s) && Holds(s, RollbackStopped)
    ensures HistoryInv(CopyOriginal(s, w))
  {
  }

  lemma RestoreOriginalSafe(s: State, w: Write)
    requires SafetyInv(s) && Holds(s, RollbackStopped)
    ensures SafetyInv(CopyOriginal(s, w))
  {
    RestoreOriginalDisk(s, w);
    RestoreOriginalActors(s, w);
    RestoreOriginalHistory(s, w);
  }

  lemma MarkRolledBackSafe(s: State, w: Write)
    requires SafetyInv(s) && Holds(s, Restored)
    ensures SafetyInv(Mark(s, RolledBack, w, RollbackMarked, None))
  {
    if w == NotWritten || s.journal.now.value.confirmed {
      SupervisorExitsSafe(s);
    } else if w == Unsynced {
      UndurableRestorationSafe(s);
    } else {
      RestorationMarkSafe(s);
    }
  }

  lemma StartOriginalDisk(s: State, ok: bool, started: bool)
    requires SafetyInv(s) && Holds(s, RollbackMarked)
    ensures DiskInv(StartRestored(s, ok, started))
  {
  }

  lemma StartOriginalActors(s: State, ok: bool, started: bool)
    requires SafetyInv(s) && Holds(s, RollbackMarked)
    ensures ActorsInv(StartRestored(s, ok, started))
  {
  }

  lemma StartOriginalHistory(s: State, ok: bool, started: bool)
    requires SafetyInv(s) && Holds(s, RollbackMarked)
    ensures HistoryInv(StartRestored(s, ok, started))
  {
  }

  lemma StartOriginalSafe(s: State, ok: bool, started: bool)
    requires SafetyInv(s) && Holds(s, RollbackMarked)
    ensures SafetyInv(StartRestored(s, ok, started))
  {
    StartOriginalDisk(s, ok, started);
    StartOriginalActors(s, ok, started);
    StartOriginalHistory(s, ok, started);
  }

  lemma ConfirmSafe(s: State, phase: Phase, w: Write)
    requires SafetyInv(s) && w != NotWritten && MayConfirm(s, phase)
    ensures SafetyInv(WriteConfirmation(s, phase, w))
  {
    if phase == Succeeded {
      ConfirmSuccessSafe(s, w);
    } else {
      ConfirmRollbackSafe(s, w);
    }
  }

  lemma ConfirmSuccessDisk(s: State, w: Write)
    requires SafetyInv(s) && w != NotWritten && MayConfirm(s, Succeeded)
    ensures DiskInv(WriteConfirmation(s, Succeeded, w))
  {
  }

  lemma ConfirmSuccessActors(s: State, w: Write)
    requires SafetyInv(s) && w != NotWritten && MayConfirm(s, Succeeded)
    ensures ActorsInv(WriteConfirmation(s, Succeeded, w))
  {
  }

  lemma ConfirmSuccessHistory(s: State, w: Write)
    requires SafetyInv(s) && w != NotWritten && MayConfirm(s, Succeeded)
    ensures HistoryInv(WriteConfirmation(s, Succeeded, w))
  {
  }

  lemma ConfirmSuccessSafe(s: State, w: Write)
    requires SafetyInv(s) && w != NotWritten && MayConfirm(s, Succeeded)
    ensures SafetyInv(WriteConfirmation(s, Succeeded, w))
  {
    ConfirmSuccessDisk(s, w);
    ConfirmSuccessActors(s, w);
    ConfirmSuccessHistory(s, w);
  }

  lemma ConfirmRollbackDisk(s: State, w: Write)
    requires SafetyInv(s) && w != NotWritten && MayConfirm(s, RolledBack)
    ensures DiskInv(WriteConfirmation(s, RolledBack, w))
  {
  }

  lemma ConfirmRollbackActors(s: State, w: Write)
    requires SafetyInv(s) && w != NotWritten && MayConfirm(s, RolledBack)
    ensures ActorsInv(WriteConfirmation(s, RolledBack, w))
  {
  }

  lemma ConfirmRollbackHistory(s: State, w: Write)
    requires SafetyInv(s) && w != NotWritten && MayConfirm(s, RolledBack)
    ensures HistoryInv(WriteConfirmation(s, RolledBack, w))
  {
  }

  lemma ConfirmRollbackSafe(s: State, w: Write)
    requires SafetyInv(s) && w != NotWritten && MayConfirm(s, RolledBack)
    ensures SafetyInv(WriteConfirmation(s, RolledBack, w))
  {
    ConfirmRollbackDisk(s, w);
    ConfirmRollbackActors(s, w);
    ConfirmRollbackHistory(s, w);
  }

  lemma RequestIsDistinct(r: Record, now: int)
    requires Requestable(r, now)
    ensures Distinct(r)
  {
    Versions.NewerDiffers(r.target.version, r.original.version);
  }

  lemma WorldIsSafe(s: State, e: WorldEvent)
    requires SafetyInv(s) && WorldEnabled(s, e)
    ensures SafetyInv(Happen(s, e))
  {
    match e
    case Tick(to) => TickSafe(s, to);
    case WritebackJournal => SyncJournalSafe(s);
    case WritebackBinary => SyncBinarySafe(s);
    case WritebackBackups(synced) => SyncBackupsSafe(s, synced);
    case PowerLoss(j, b, lost) => PowerLossSafe(s, j, b, lost);
    case AgentDies => AgentSafe(s, Down);
    case AgentRestarts => AgentSafe(s, Running(Describe(s.binary.now)));
    case OperatorStops => AgentSafe(s, Stopped);
    case OperatorStarts => AgentSafe(s, Running(Describe(s.binary.now)));
  }

  lemma StagingIsSafe(s: State, e: StagingStep)
    requires SafetyInv(s) && StagingEnabled(s, e)
    ensures SafetyInv(Work(s, e))
  {
    match e
    case Intent(entry, w) => RequestIsDistinct(entry, s.now); StageSafe(s, entry, w);
    case FinishStaging(w) => FinishStagingSafe(s, w);
    case StagingFails(w) => StagingFailsSafe(s, w);
    case LaunchSucceeds(op) => LaunchSucceedsSafe(s, op);
    case LaunchFails(op, w) => LaunchFailsSafe(s, op, w);
    case LauncherDies(op) => LauncherDiesSafe(s, op);
  }

  lemma SupervisorIsSafe(s: State, e: SupervisorStep)
    requires SafetyInv(s) && StepEnabled(s, e)
    ensures SafetyInv(Act(s, e))
  {
    match e
    case WaiterExits(op) => WaiterExitsSafe(s, op);
    case Refuse(op, w) => RefuseSafe(s, op, w);
    case Check(op) => CheckSafe(s, op);
    case BackUp => BackUpSafe(s);
    case BackUpFails(created, w) => BackUpFailsSafe(s, created, w);
    case MarkInstalling(w) => MarkInstallingSafe(s, w);
    case StopService(ok, stopped) => StopServiceSafe(s, ok, stopped);
    case InstallTarget(w) => InstallTargetSafe(s, w);
    case MarkReconnecting(w) => MarkReconnectingSafe(s, w);
    case StartService(ok, started) => StartServiceSafe(s, ok, started);
    case SeeSuccess => SupervisorExitsSafe(s);
    case WaitFails => WaitFailsSafe(s);
    case BeginRollback(w) => BeginRollbackSafe(s, w);
    case StopForRollback(ok, stopped) => StopForRollbackSafe(s, ok, stopped);
    case RestoreOriginal(w) => RestoreOriginalSafe(s, w);
    case MarkRolledBack(w) => MarkRolledBackSafe(s, w);
    case StartOriginal(ok, started) => StartOriginalSafe(s, ok, started);
    case SupervisorExits => SupervisorExitsSafe(s);
  }

  /** Every event, by whichever process, keeps the invariant. */
  lemma StepIsSafe(s: State, e: Event)
    requires SafetyInv(s) && Enabled(s, e)
    ensures SafetyInv(Apply(s, e))
  {
    match e
    case World(what) => WorldIsSafe(s, what);
    case Staging(stage) => StagingIsSafe(s, stage);
    case Supervise(step) => SupervisorIsSafe(s, step);
    case Confirm(phase, w) => ConfirmSafe(s, phase, w);
  }

  lemma {:induction false} RunIsSafe(s: State, events: seq<Event>)
    requires SafetyInv(s) && Possible(s, events)
    ensures SafetyInv(After(s, events))
    decreases |events|
  {
    if events != [] {
      StepIsSafe(s, events[0]);
      RunIsSafe(Apply(s, events[0]), events[1..]);
    }
  }

  // ----------------------------------------------------------------- main results

  /** A confirmed journal tells the truth about the installed bytes. */
  predicate Truthful(s: State) {
    s.journal.now.Some? && s.journal.now.value.confirmed ==>
      var r := s.journal.now.value;
      || (r.phase == Succeeded && s.binary.now == r.target.image)
      || (r.phase == RolledBack && s.binary.now == r.original.image)
  }

  lemma SafeIsTruthful(s: State)
    requires SafetyInv(s)
    ensures Truthful(s)
  {
  }

  /** In every reachable state a confirmed journal tells the truth. */
  lemma ConfirmedMeansInstalled(start: State, events: seq<Event>)
    requires Init(start) && Possible(start, events)
    ensures Truthful(After(start, events))
  {
    InitIsSafe(start);
    RunIsSafe(start, events);
  }

  /** From `installing` on, in every reachable state, the exact original is preserved and the
      installed file is the whole original or the whole target. */
  lemma OriginalAlwaysRecoverable(start: State, events: seq<Event>)
    requires Init(start) && Possible(start, events)
    ensures var s := After(start, events);
            s.journal.now.Some? && Touched(s.journal.now.value) ==>
              var r := s.journal.now.value;
              && r.op in s.backups && s.backups[r.op] == r.original.image
              && (s.binary.now == r.original.image || s.binary.now == r.target.image)
  {
    InitIsSafe(start);
    RunIsSafe(start, events);
  }

  /** The confirm-versus-timeout race has one winner. */
  lemma OneFinalOutcome(start: State, events: seq<Event>, op: Operation)
    requires Init(start) && Possible(start, events)
    ensures var c := After(start, events).confirmations; !((op, Succeeded) in c && (op, RolledBack) in c)
  {
    InitIsSafe(start);
    OneOutcomeRun(start, events, op);
  }

  predicate OneOutcome(s: State, op: Operation) {
    !((op, Succeeded) in s.confirmations && (op, RolledBack) in s.confirmations)
  }

  lemma ConfirmDecidesOnce(s: State, phase: Phase, w: Write, op: Operation)
    requires SafetyInv(s) && MayConfirm(s, phase) && OneOutcome(s, op)
    ensures OneOutcome(WriteConfirmation(s, phase, w), op)
  {
  }

  lemma OnlyConfirmConfirms(s: State, e: Event)
    requires Enabled(s, e) && !e.Confirm?
    ensures Apply(s, e).confirmations == s.confirmations && Apply(s, e).successes == s.successes
  {
    if e.Staging? {
      StagingKeepsBinary(s, e.stage);
    } else if e.Supervise? {
      SupervisorNeverConfirms(s, e.step);
    }
  }

  lemma SupervisorNeverConfirms(s: State, e: SupervisorStep)
    requires StepEnabled(s, e)
    ensures Act(s, e).confirmations == s.confirmations && Act(s, e).successes == s.successes
  {
  }

  lemma {:induction false} OneOutcomeRun(s: State, events: seq<Event>, op: Operation)
    requires SafetyInv(s) && Possible(s, events) && OneOutcome(s, op)
    ensures OneOutcome(After(s, events), op)
    decreases |events|
  {
    if events != [] {
      StepIsSafe(s, events[0]);
      if events[0].Confirm? {
        ConfirmDecidesOnce(s, events[0].phase, events[0].w, op);
      } else {
        OnlyConfirmConfirms(s, events[0]);
      }
      OneOutcomeRun(Apply(s, events[0]), events[1..], op);
    }
  }

  /** A supervisor step cannot change a confirmed record, whatever its program counter. */
  lemma SupervisorKeepsConfirmed(s: State, e: SupervisorStep)
    requires StepEnabled(s, e) && s.journal.now.Some? && s.journal.now.value.confirmed
    ensures Act(s, e).journal == s.journal
  {
  }

  lemma StagingKeepsConfirmed(s: State, e: StagingStep)
    requires SafetyInv(s) && StagingEnabled(s, e) && s.journal.now.Some? && s.journal.now.value.confirmed
    ensures var j := Work(s, e).journal.now;
            j == s.journal.now || (e.Intent? && j == Some(e.entry) && e.entry.op != s.journal.now.value.op)
  {
  }

  /** A confirmed record changes only by another operation's staging, or by a power loss that
      drops a confirmation whose directory sync never completed. */
  lemma ConfirmedRecordIsFinal(s: State, e: Event)
    requires SafetyInv(s) && Enabled(s, e) && s.journal.now.Some? && s.journal.now.value.confirmed
    requires e.World? && e.what.PowerLoss? ==> s.journal.crash == {s.journal.now}
    ensures var j := Apply(s, e).journal.now;
            || j == s.journal.now
            || (e.Staging? && e.stage.Intent? && j == Some(e.stage.entry) && e.stage.entry.op != s.journal.now.value.op)
  {
    match e
    case World(what) =>
    case Staging(stage) => StagingKeepsConfirmed(s, stage);
    case Supervise(step) => SupervisorKeepsConfirmed(s, step);
    case Confirm(_, _) =>
  }

  /** A durable confirmation stays in the journal, through power losses too, until another intent is written. */
  lemma {:induction false} ConfirmedUntilReplaced(s: State, events: seq<Event>, r: Record)
    requires SafetyInv(s) && Possible(s, events) && OnlyRecord(s, r) && r.confirmed
    requires forall i :: 0 <= i < |events| ==> !(events[i].Staging? && events[i].stage.Intent?)
    ensures OnlyRecord(After(s, events), r)
    decreases |events|
  {
    if events != [] {
      ConfirmedStays(s, events[0], r);
      StepIsSafe(s, events[0]);
      ConfirmedUntilReplaced(Apply(s, events[0]), events[1..], r);
    }
  }

  lemma ConfirmedStays(s: State, e: Event, r: Record)
    requires SafetyInv(s) && Enabled(s, e) && OnlyRecord(s, r) && r.confirmed
    requires !(e.Staging? && e.stage.Intent?)
    ensures OnlyRecord(Apply(s, e), r)
  {
    if e.Supervise? {
      SupervisorKeepsConfirmed(s, e.step);
    }
  }

  lemma OnlyCopiesChangeBinary(s: State, e: SupervisorStep)
    requires StepEnabled(s, e) && Act(s, e).binary.now != s.binary.now
    ensures (e.InstallTarget? && Holds(s, ServiceStopped)) || (e.RestoreOriginal? && Holds(s, RollbackStopped))
    ensures e.RestoreOriginal? ==> s.binary.now != s.owner.entry.original.image
  {
  }

  lemma WorldKeepsBinary(s: State, e: WorldEvent)
    requires WorldEnabled(s, e) && !e.PowerLoss?
    ensures Happen(s, e).binary.now == s.binary.now
  {
  }

  /** Only the holder of the owner lock, for the journal's current operation, with the service
      stopped, replaces the binary. */
  lemma OnlyCurrentSupervisorReplacesBinary(s: State, e: Event)
    requires SafetyInv(s) && Enabled(s, e) && Apply(s, e).binary.now != s.binary.now
    requires !(e.World? && e.what.PowerLoss?)
    ensures s.owner.Supervisor? && s.journal.now.Some? && s.journal.now.value.op == s.owner.entry.op
    ensures s.agent == Stopped
  {
    match e
    case World(what) => WorldKeepsBinary(s, what);
    case Staging(stage) => StagingKeepsBinary(s, stage);
    case Supervise(step) => OnlyCopiesChangeBinary(s, step);
    case Confirm(_, _) =>
  }

  lemma StagingKeepsBinary(s: State, e: StagingStep)
    requires StagingEnabled(s, e)
    ensures Work(s, e).binary == s.binary
    ensures Work(s, e).confirmations == s.confirmations && Work(s, e).successes == s.successes
  {
  }

  /** Neither a live supervisor's record nor one whose launch is undecided can be superseded,
      even ignoring the owner lock: its 185 s life, or its launch limit, ends within the 190 s delay. */
  lemma LiveOperationCannotBeSuperseded(s: State, current: Metadata, op: Operation)
    requires SafetyInv(s) && s.journal.now.Some?
    requires s.owner.Supervisor? || s.launching != map[]
    ensures !CanSupersede(s.journal.now.value, current, op, s.now)
  {
    if !s.owner.Supervisor? {
      var other :| other in s.launching;
      assert OnlyRecord(s, s.launching[other]);
    }
  }

  // ------------------------------------------------------------------ supersession

  predicate NoneOf(j: Cell<Option<Record>>, op: Operation) {
    forall x :: x in j.crash && x.Some? ==> x.value.op != op
  }

  /** `op` has been durably superseded. */
  predicate Superseded(s: State, op: Operation) {
    && op in s.launched && op !in s.launching
    && NoneOf(s.journal, op)
    && !(s.owner.Supervisor? && s.owner.entry.op == op)
  }

  /** The part of the invariant that supersession rests on. */
  predicate FreshStaging(s: State) {
    && s.journal.now in s.journal.crash
    && (s.owner.Stager? ==> s.owner.entry.op !in s.launched)
    && (forall o :: o in s.launching ==> s.launching[o].op == o)
  }

  lemma StagingKeepsSuperseded(s: State, e: StagingStep, op: Operation)
    requires FreshStaging(s) && StagingEnabled(s, e) && Superseded(s, op)
    ensures Superseded(Work(s, e), op)
  {
  }

  lemma TransitionKeepsNone(j: Cell<Option<Record>>, current: Operation, op: Operation, phase: Phase, w: Write)
    requires j.now in j.crash && NoneOf(j, op)
    ensures NoneOf(Transition(j, current, phase, w), op)
  {
  }

  lemma TransitionKeepsSuperseded(s: State, op: Operation, phase: Phase, w: Write, next: Pc, otherwise: Option<Pc>)
    requires s.owner.Supervisor? && s.journal.now in s.journal.crash && Superseded(s, op)
    ensures Superseded(Mark(s, phase, w, next, otherwise), op)
    ensures NoneOf(Transition(s.journal, s.owner.entry.op, phase, w), op)
  {
    TransitionKeepsNone(s.journal, s.owner.entry.op, op, phase, w);
  }

  lemma SupervisorKeepsSuperseded(s: State, e: SupervisorStep, op: Operation)
    requires FreshStaging(s) && StepEnabled(s, e) && Superseded(s, op)
    ensures Superseded(Act(s, e), op)
  {
    match e
    case BackUpFails(_, w) => TransitionKeepsSuperseded(s, op, Failed, w, Checked, None);
    case MarkInstalling(w) => TransitionKeepsSuperseded(s, op, Installing, w, DidMark, None);
    case MarkReconnecting(w) => TransitionKeepsSuperseded(s, op, Reconnecting, w, Marked, Some(Recovering));
    case BeginRollback(w) => TransitionKeepsSuperseded(s, op, RollingBack, w, Decided, None);
    case MarkRolledBack(w) => TransitionKeepsSuperseded(s, op, RolledBack, w, RollbackMarked, None);
    case _ =>
  }

  lemma StepKeepsSuperseded(s: State, e: Event, op: Operation)
    requires FreshStaging(s) && Enabled(s, e) && Superseded(s, op)
    ensures Superseded(Apply(s, e), op)
  {
    match e
    case World(_) =>
    case Staging(stage) => StagingKeepsSuperseded(s, stage, op);
    case Supervise(step) => SupervisorKeepsSuperseded(s, step, op);
    case Confirm(_, _) =>
  }

  /** A superseded operation's supervisor never holds the lock again. */
  lemma {:induction false} SupersededForever(s: State, events: seq<Event>, op: Operation)
    requires SafetyInv(s) && Possible(s, events) && Superseded(s, op)
    ensures Superseded(After(s, events), op)
    decreases |events|
  {
    if events != [] {
      StepKeepsSuperseded(s, events[0], op);
      StepIsSafe(s, events[0]);
      SupersededForever(Apply(s, events[0]), events[1..], op);
    }
  }

  /** A record that may be staged over has no launch under way. */
  lemma ReplaceableIsSettled(s: State, entry: Record)
    requires SafetyInv(s) && MayReplaceJournal(s, entry) && s.journal.now.Some?
    ensures s.launching == map[]
  {
  }

  lemma ReplacementSupersedes(s: State, entry: Record)
    requires SafetyInv(s) && s.owner == Free && MayReplaceJournal(s, entry)
    requires s.journal.now.Some? && s.journal.now.value.op in s.launched
    ensures Superseded(WriteIntent(s, entry, Synced), s.journal.now.value.op)
  {
    ReplaceableIsSettled(s, entry);
  }

  /** A durable intent over a launched operation's record supersedes that operation. */
  lemma IntentSupersedes(s: State, entry: Record)
    requires SafetyInv(s) && StagingEnabled(s, Intent(entry, Synced))
    requires s.journal.now.Some? && s.journal.now.value.op in s.launched
    ensures Superseded(Work(s, Intent(entry, Synced)), s.journal.now.value.op)
  {
    ReplacementSupersedes(s, entry);
  }

  /** Once a launched operation's record is durably replaced, whatever follows, its supervisor never holds the
      lock, no journal that a power loss may leave is its, and its remaining steps change nothing. */
  lemma ReplacedOperationIsPowerless(s: State, entry: Record, events: seq<Event>, e: SupervisorStep)
    requires SafetyInv(s) && StagingEnabled(s, Intent(entry, Synced))
    requires s.journal.now.Some? && s.journal.now.value.op in s.launched
    requires Possible(Work(s, Intent(entry, Synced)), events)
    ensures var op, t := s.journal.now.value.op, After(Work(s, Intent(entry, Synced)), events);
      && Superseded(t, op)
      && (StepEnabled(t, e) && (e == Check(op) || e == WaiterExits(op) || (e.Refuse? && e.op == op)) ==>
            !e.Check? && Act(t, e).journal == t.journal && Act(t, e).binary == t.binary)
  {
    var op, first := s.journal.now.value.op, Work(s, Intent(entry, Synced));
    IntentSupersedes(s, entry);
    StagingIsSafe(s, Intent(entry, Synced));
    SupersededForever(first, events, op);
    RunIsSafe(first, events);
    var t := After(first, events);
    if StepEnabled(t, e) && (e == Check(op) || e == WaiterExits(op) || (e.Refuse? && e.op == op)) {
      SupersededIsIdle(t, e, op);
    }
  }

  /** The steps a superseded operation's supervisor can still take change neither journal nor binary. */
  lemma SupersededIsIdle(s: State, e: SupervisorStep, op: Operation)
    requires SafetyInv(s) && StepEnabled(s, e) && Superseded(s, op)
    requires e == Check(op) || e == WaiterExits(op) || (e.Refuse? && e.op == op)
    ensures !e.Check? && Act(s, e).journal == s.journal && Act(s, e).binary == s.binary
  {
  }
}
