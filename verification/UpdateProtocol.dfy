/**
  The agent self-update protocol (agent/internal/update): the running agent, the
  staging worker, the supervisor process and the Hub's confirmation share one journal
  record, two file locks and one binary path.

  Every critical section under the journal lock, every rename, every service-manager
  call and every process start is one event, so the events of different processes
  interleave freely; a kill or a power loss can come between any two of them.

  Modelling choices:
  - a SHA-256 digest is the image itself (digests are injective);
  - a rename is visible at once and survives a power loss only once its directory is
    synced: `Cell.crash` is the set of values a power loss may leave behind;
  - a journal write is `NotWritten`, `Unsynced` (renamed, directory sync failed or not
    reached) or `Synced`; the writer continues only after `Synced`.
 */
module UpdateProtocol {
  import opened Basics
  import Versions

  type Operation = string

  /** A file's whole content, with the release stamps the linker embedded in it. */
  datatype Image = Image(version: string, revision: string, code: seq<bv8>)

  datatype Metadata = Metadata(version: string, revision: string, image: Image)

  datatype Phase = Downloading | Staged | Installing | Reconnecting | RollingBack | RolledBack | Succeeded | Failed

  datatype Record = Record(op: Operation, target: Metadata, original: Metadata, expires: int, phase: Phase,
                           confirmed: bool)

  const SUPERSEDE_DELAY: int := 190_000   // milliseconds past expiry
  const SUPERVISOR_LIFE: int := 185_000   // RuntimeMaxSec=180 and TimeoutStopSec=5
  const MAX_EXPIRY: int := 900_000

  function Describe(i: Image): Metadata {
    Metadata(i.version, i.revision, i)
  }

  predicate Active(r: Record) {
    !r.confirmed && r.phase != Failed
  }

  /** The last instant at which an unfinished record is safe from supersession. Every failed launch is assumed
      to have written its failure by then. */
  function SupersedableAfter(r: Record): int {
    r.expires + SUPERSEDE_DELAY
  }

  predicate CanSupersede(previous: Record, current: Metadata, op: Operation, now: int) {
    && previous.op != op
    && (previous.phase.RolledBack? || previous.phase.RollingBack?
        || previous.phase.Downloading? || previous.phase.Staged?)
    && !previous.confirmed
    && now > SupersedableAfter(previous)
    && current == previous.original
  }

  // ------------------------------------------------------------------- the state

  datatype Write = NotWritten | Unsynced | Synced

  /** A renamed-over file: what is visible, and what a power loss may leave. */
  datatype Cell<T> = Cell(now: T, crash: set<T>) {
    function Replace(x: T, w: Write): Cell<T> {
      match w
      case NotWritten => this
      case Unsynced => Cell(x, crash + {x})
      case Synced => Cell(x, {x})
    }
  }

  /** `Down` is a dead process that the service manager will restart; `Stopped` is not restarted. */
  datatype Agent = Stopped | Down | Running(identity: Metadata)

  /** Program counter of the supervisor that holds the owner lock. */
  datatype Pc =
    | Checked | BackedUp | DidMark | ServiceStopped | Copied | Marked | Started | Recovering
    | Decided | RollbackStopped | Restored | RollbackMarked | RollbackStarted

  /** Holder of `agent-update-supervisor.lock`. */
  datatype Owner = Free | Stager(entry: Record) | Supervisor(entry: Record, pc: Pc, since: int)

  datatype State = State(
    journal: Cell<Option<Record>>,
    binary: Cell<Image>,
    backups: map<Operation, Image>,
    kept: set<Operation>,               // backups whose directory entry is durable
    agent: Agent,
    owner: Owner,
    launching: map<Operation, Record>,  // staged records whose worker waits for `systemd-run`
    waiting: set<Operation>,            // started supervisors that do not hold the lock yet
    launched: set<Operation>,           // operations that ever reached the launch call
    now: int,
    confirmations: set<(Operation, Phase)>,  // history: every confirmation written
    successes: seq<Record>                   // history: first success confirmations, in order
  )

  predicate Init(s: State) {
    && s.journal == Cell(None, {None})
    && s.binary.crash == {s.binary.now}
    && s.backups == map[] && s.kept == {}
    && s.agent == Running(Describe(s.binary.now))
    && s.owner == Free && s.launching == map[] && s.waiting == {} && s.launched == {}
    && s.confirmations == {} && s.successes == []
  }

  // ------------------------------------------------------------------- the events

  datatype Event =
    | World(what: WorldEvent)
    | Staging(stage: StagingStep)
    | Supervise(step: SupervisorStep)
    | Confirm(phase: Phase, w: Write)      // the agent, on a Hub confirmation

  datatype WorldEvent =
    | Tick(to: int)
    | WritebackJournal
    | WritebackBinary
    | WritebackBackups(synced: set<Operation>)
    | PowerLoss(journal: Option<Record>, binary: Image, lost: set<Operation>)
    | AgentDies
    | AgentRestarts
    | OperatorStops
    | OperatorStarts

  /** Begin and bootstrap, to the end of their launch call. */
  datatype StagingStep =
    | Intent(entry: Record, w: Write)
    | FinishStaging(w: Write)
    | StagingFails(w: Write)
    | LaunchSucceeds(op: Operation)
    | LaunchFails(op: Operation, w: Write)
    | LauncherDies(op: Operation)

  datatype SupervisorStep =
    | WaiterExits(op: Operation)
    | Refuse(op: Operation, w: Write)
    | Check(op: Operation)
    | BackUp
    | BackUpFails(created: bool, w: Write)
    | MarkInstalling(w: Write)
    | StopService(ok: bool, stopped: bool)
    | InstallTarget(w: Write)
    | MarkReconnecting(w: Write)
    | StartService(ok: bool, started: bool)
    | SeeSuccess
    | WaitFails
    | BeginRollback(w: Write)
    | StopForRollback(ok: bool, stopped: bool)
    | RestoreOriginal(w: Write)
    | MarkRolledBack(w: Write)
    | StartOriginal(ok: bool, started: bool)
    | SupervisorExits

  predicate Holds(s: State, pc: Pc) {
    s.owner.Supervisor? && s.owner.pc == pc
  }

  predicate JournalIs(s: State, op: Operation, phase: Phase) {
    s.journal.now.Some? && s.journal.now.value.op == op && s.journal.now.value.phase == phase
  }

  /** A record that Begin or bootstrap may write, with the stamps `installedMetadata` accepts. */
  predicate Requestable(r: Record, now: int) {
    && r.phase == Downloading && !r.confirmed
    && now < r.expires <= now + MAX_EXPIRY
    && Versions.Newer(r.target.version, r.original.version)
    && (r.original == Describe(r.original.image) || r.original.image.version == "")
  }

  /** The staging guard: an inactive journal, or one that may be superseded. */
  predicate MayStage(s: State, r: Record) {
    Requestable(r, s.now) && MayReplaceJournal(s, r)
  }

  predicate MayReplaceJournal(s: State, r: Record) {
    && r.op !in s.launched
    && (s.journal.now.Some? ==>
          var previous := s.journal.now.value;
          previous.op != r.op && (Active(previous) ==> CanSupersede(previous, r.original, r.op, s.now)))
  }

  /** The checks of runOperation before anything is changed. */
  predicate MayInstall(s: State, op: Operation) {
    && JournalIs(s, op, Staged) && !s.journal.now.value.confirmed
    && s.now < s.journal.now.value.expires
    && s.journal.now.value.target == Describe(s.journal.now.value.target.image)
    && s.journal.now.value.original.image == s.binary.now
  }

  predicate MayConfirm(s: State, phase: Phase) {
    && s.agent.Running? && s.journal.now.Some?
    && var r := s.journal.now.value;
    && !r.confirmed
    && ((phase == Succeeded && (r.phase.Reconnecting? || r.phase.Installing?) && s.agent.identity == r.target)
        || (phase == RolledBack && (r.phase.RollingBack? || r.phase.RolledBack?) && s.agent.identity == r.original))
  }

  predicate BackupIntact(s: State, r: Record) {
    r.op in s.backups && s.backups[r.op] == r.original.image
  }

  /** The agent that would start from the binary now could confirm the journal's operation. */
  predicate CouldConfirm(s: State) {
    var t := s.(agent := Running(Describe(s.binary.now)));
    MayConfirm(t, Succeeded) || MayConfirm(t, RolledBack)
  }

  /** When starting the stopped service is harmless: no supervisor is about to replace the binary by other
      bytes, and a process that could confirm runs from bytes that a power loss cannot take back. */
  predicate SafeStart(s: State) {
    && !Holds(s, ServiceStopped)
    && (Holds(s, RollbackStopped) ==> s.binary.now == s.owner.entry.original.image)
    && (s.binary.crash == {s.binary.now} || !CouldConfirm(s))
  }

  predicate Enabled(s: State, e: Event) {
    match e
    case World(what) => WorldEnabled(s, what)
    case Staging(stage) => StagingEnabled(s, stage)
    case Supervise(step) => StepEnabled(s, step)
    case Confirm(phase, w) => w != NotWritten && MayConfirm(s, phase)
  }

  predicate WorldEnabled(s: State, e: WorldEvent) {
    match e
    case Tick(to) =>
      && s.now <= to
      && (s.owner.Supervisor? ==> to <= s.owner.since + SUPERVISOR_LIFE)
      && forall op :: op in s.launching ==> to <= SupersedableAfter(s.launching[op])
    case WritebackJournal => true
    case WritebackBinary => true
    case WritebackBackups(_) => true
    case PowerLoss(j, b, lost) => j in s.journal.crash && b in s.binary.crash && lost !! s.kept
    case AgentDies => s.agent.Running?
    case AgentRestarts => s.agent == Down
    case OperatorStops => true
    case OperatorStarts => s.agent == Stopped && SafeStart(s)
  }

  predicate StagingEnabled(s: State, e: StagingStep) {
    match e
    case Intent(entry, w) => s.owner == Free && w != NotWritten && MayStage(s, entry)
    case FinishStaging(w) =>
      && s.owner.Stager? && s.owner.entry.target == Describe(s.owner.entry.target.image)
      && s.now <= SupersedableAfter(s.owner.entry)
    case StagingFails(_) => s.owner.Stager?
    case LaunchSucceeds(op) => op in s.launching
    case LaunchFails(op, _) => op in s.launching
    case LauncherDies(op) => op in s.launching
  }

  predicate StepEnabled(s: State, e: SupervisorStep) {
    match e
    case WaiterExits(op) => op in s.waiting
    case Refuse(op, _) => op in s.waiting && s.owner == Free
    case Check(op) => op in s.waiting && s.owner == Free && MayInstall(s, op)
    case BackUp => Holds(s, Checked) && s.owner.entry.op !in s.backups && s.binary.now == s.owner.entry.original.image
    case BackUpFails(created, _) => Holds(s, Checked) && (created ==> s.owner.entry.op !in s.backups)
    case MarkInstalling(_) => Holds(s, BackedUp)
    case StopService(_, _) => Holds(s, DidMark)
    case InstallTarget(_) => Holds(s, ServiceStopped)
    case MarkReconnecting(_) => Holds(s, Copied)
    case StartService(_, _) => Holds(s, Marked)
    case SeeSuccess => Holds(s, Started) && JournalIs(s, s.owner.entry.op, Succeeded) && s.journal.now.value.confirmed
    case WaitFails => Holds(s, Started)
    case BeginRollback(_) => Holds(s, Recovering)
    case StopForRollback(_, _) => Holds(s, Decided)
    case RestoreOriginal(w) => Holds(s, RollbackStopped) && (w != NotWritten ==> BackupIntact(s, s.owner.entry))
    case MarkRolledBack(_) => Holds(s, Restored)
    case StartOriginal(_, _) => Holds(s, RollbackMarked)
    case SupervisorExits => s.owner.Supervisor?
  }

  // ------------------------------------------------- the critical sections, as functions

  /** `transition`: under the journal lock, refuse another operation's or a confirmed record. */
  function Transition(j: Cell<Option<Record>>, op: Operation, phase: Phase, w: Write): Cell<Option<Record>> {
    if j.now.None? || j.now.value.op != op || j.now.value.confirmed then j
    else j.Replace(Some(j.now.value.(phase := phase)), w)
  }

  /** Whether `transition` returns without error. */
  predicate TransitionOk(j: Cell<Option<Record>>, op: Operation, w: Write) {
    j.now.Some? && j.now.value.op == op && !j.now.value.confirmed && w == Synced
  }

  function MoveTo(s: State, pc: Pc): State
    requires s.owner.Supervisor?
  {
    s.(owner := s.owner.(pc := pc))
  }

  function StartAgent(s: State): Agent {
    if s.agent.Running? then s.agent else Running(Describe(s.binary.now))
  }

  function SyncJournal(s: State): State {
    s.(journal := Cell(s.journal.now, {s.journal.now}))
  }

  function SyncBinary(s: State): State {
    s.(binary := Cell(s.binary.now, {s.binary.now}))
  }

  function SyncBackups(s: State, synced: set<Operation>): State {
    s.(kept := s.kept + synced * s.backups.Keys)
  }

  function LosePower(s: State, j: Option<Record>, b: Image, lost: set<Operation>): State {
    s.(journal := Cell(j, {j}), binary := Cell(b, {b}), backups := s.backups - lost, kept := s.backups.Keys - lost,
       agent := Down, owner := Free, launching := map[], waiting := {})
  }

  function WriteIntent(s: State, entry: Record, w: Write): State {
    s.(journal := s.journal.Replace(Some(entry), w), owner := if w == Synced then Stager(entry) else Free)
  }

  function WriteStaged(s: State, w: Write): State
    requires s.owner.Stager?
  {
    var staged := s.owner.entry.(phase := Staged);
    var t := s.(journal := s.journal.Replace(Some(staged), w));
    if w != Synced then t else
      t.(owner := Free, launching := s.launching[staged.op := staged], launched := s.launched + {staged.op})
  }

  function AbandonStaging(s: State, w: Write): State
    requires s.owner.Stager?
  {
    s.(journal := s.journal.Replace(Some(s.owner.entry.(phase := Failed)), w), owner := Free)
  }

  /** `markFailed` after a failed launch: it writes without reading the journal again. */
  function AbandonLaunch(s: State, op: Operation, w: Write): State
    requires op in s.launching
  {
    s.(journal := s.journal.Replace(Some(s.launching[op].(phase := Failed)), w), launching := s.launching - {op})
  }

  function RefuseStaged(s: State, op: Operation, w: Write): State {
    var t := s.(waiting := s.waiting - {op});
    if JournalIs(s, op, Staged) then t.(journal := Transition(s.journal, op, Failed, w)) else t
  }

  function TakeOver(s: State, op: Operation): State
    requires s.journal.now.Some?
  {
    s.(waiting := s.waiting - {op}, owner := Supervisor(s.journal.now.value, Checked, s.now))
  }

  /** The backup's directory sync covers the binary beside it. */
  function SaveBackup(s: State): State
    requires s.owner.Supervisor?
  {
    MoveTo(s, BackedUp).(backups := s.backups[s.owner.entry.op := s.binary.now], kept := s.kept + {s.owner.entry.op},
                         binary := Cell(s.binary.now, {s.binary.now}))
  }

  function AbandonBackup(s: State, created: bool, w: Write): State
    requires s.owner.Supervisor?
  {
    s.(backups := if created then s.backups[s.owner.entry.op := s.binary.now] else s.backups,
       journal := Transition(s.journal, s.owner.entry.op, Failed, w), owner := Free)
  }

  /** A supervisor's journal transition: on success to `next`, on failure to `otherwise` or exit. */
  function Mark(s: State, phase: Phase, w: Write, next: Pc, otherwise: Option<Pc>): State
    requires s.owner.Supervisor?
  {
    var t := s.(journal := Transition(s.journal, s.owner.entry.op, phase, w));
    if TransitionOk(s.journal, s.owner.entry.op, w) then MoveTo(t, next)
    else if otherwise.Some? then MoveTo(t, otherwise.value) else t.(owner := Free)
  }

  function StopForInstall(s: State, ok: bool, stopped: bool): State
    requires s.owner.Supervisor?
  {
    MoveTo(s.(agent := if ok || stopped then Stopped else s.agent), if ok then ServiceStopped else Recovering)
  }

  function CopyTarget(s: State, w: Write): State
    requires s.owner.Supervisor?
  {
    MoveTo(s.(binary := s.binary.Replace(s.owner.entry.target.image, w)), if w == Synced then Copied else Recovering)
  }

  function StartTarget(s: State, ok: bool, started: bool): State
    requires s.owner.Supervisor?
  {
    MoveTo(s.(agent := if ok || started then StartAgent(s) else s.agent), if ok then Started else Recovering)
  }

  function StopForRestore(s: State, ok: bool, stopped: bool): State
    requires s.owner.Supervisor?
  {
    if !BackupIntact(s, s.owner.entry) then s.(owner := Free) else
      var t := s.(agent := if ok || stopped then Stopped else s.agent);
      if ok then MoveTo(t, RollbackStopped) else t.(owner := Free)
  }

  function CopyOriginal(s: State, w: Write): State
    requires s.owner.Supervisor?
  {
    var t := s.(binary := s.binary.Replace(s.owner.entry.original.image, w));
    if w == Synced then MoveTo(t, Restored) else t.(owner := Free)
  }

  function StartRestored(s: State, ok: bool, started: bool): State
    requires s.owner.Supervisor?
  {
    var t := s.(agent := if ok || started then StartAgent(s) else s.agent);
    if ok then MoveTo(t, RollbackStarted) else t.(owner := Free)
  }

  function WriteConfirmation(s: State, phase: Phase, w: Write): State
    requires s.journal.now.Some?
  {
    var r := s.journal.now.value.(phase := phase, confirmed := true);
    s.(journal := s.journal.Replace(Some(r), w),
       confirmations := s.confirmations + {(r.op, phase)},
       successes := if phase == Succeeded && (r.op, Succeeded) !in s.confirmations
                    then s.successes + [r] else s.successes)
  }

  function Apply(s: State, e: Event): State
    requires Enabled(s, e)
  {
    match e
    case World(what) => Happen(s, what)
    case Staging(stage) => Work(s, stage)
    case Supervise(step) => Act(s, step)
    case Confirm(phase, w) => WriteConfirmation(s, phase, w)
  }

  function Happen(s: State, e: WorldEvent): State
    requires WorldEnabled(s, e)
  {
    match e
    case Tick(to) => s.(now := to)
    case WritebackJournal => SyncJournal(s)
    case WritebackBinary => SyncBinary(s)
    case WritebackBackups(synced) => SyncBackups(s, synced)
    case PowerLoss(j, b, lost) => LosePower(s, j, b, lost)
    case AgentDies => s.(agent := Down)
    case AgentRestarts => s.(agent := Running(Describe(s.binary.now)))
    case OperatorStops => s.(agent := Stopped)
    case OperatorStarts => s.(agent := Running(Describe(s.binary.now)))
  }

  function Work(s: State, e: StagingStep): State
    requires StagingEnabled(s, e)
  {
    match e
    case Intent(entry, w) => WriteIntent(s, entry, w)
    case FinishStaging(w) => WriteStaged(s, w)
    case StagingFails(w) => AbandonStaging(s, w)
    case LaunchSucceeds(op) => s.(launching := s.launching - {op}, waiting := s.waiting + {op})
    case LaunchFails(op, w) => AbandonLaunch(s, op, w)
    case LauncherDies(op) => s.(launching := s.launching - {op})
  }

  function Act(s: State, e: SupervisorStep): State
    requires StepEnabled(s, e)
  {
    match e
    case WaiterExits(op) => s.(waiting := s.waiting - {op})
    case Refuse(op, w) => RefuseStaged(s, op, w)
    case Check(op) => TakeOver(s, op)
    case BackUp => SaveBackup(s)
    case BackUpFails(created, w) => AbandonBackup(s, created, w)
    case MarkInstalling(w) => Mark(s, Installing, w, DidMark, None)
    case StopService(ok, stopped) => StopForInstall(s, ok, stopped)
    case InstallTarget(w) => CopyTarget(s, w)
    case MarkReconnecting(w) => Mark(s, Reconnecting, w, Marked, Some(Recovering))
    case StartService(ok, started) => StartTarget(s, ok, started)
    case SeeSuccess => s.(owner := Free)
    case WaitFails => MoveTo(s, Recovering)
    case BeginRollback(w) => Mark(s, RollingBack, w, Decided, None)
    case StopForRollback(ok, stopped) => StopForRestore(s, ok, stopped)
    case RestoreOriginal(w) => CopyOriginal(s, w)
    case MarkRolledBack(w) => Mark(s, RolledBack, w, RollbackMarked, None)
    case StartOriginal(ok, started) => StartRestored(s, ok, started)
    case SupervisorExits => s.(owner := Free)
  }

  // ---------------------------------------------------------------------- runs

  /** `events` can happen one after the other from `s`. */
  predicate Possible(s: State, events: seq<Event>)
    decreases |events|
  {
    events == [] || (Enabled(s, events[0]) && Possible(Apply(s, events[0]), events[1..]))
  }

  function After(s: State, events: seq<Event>): State
    requires Possible(s, events)
    decreases |events|
  {
    if events == [] then s else After(Apply(s, events[0]), events[1..])
  }
}
