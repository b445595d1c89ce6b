/**
  The execution manager (agent/internal/execution/manager.go and script.go) over its claim
  journal and the shared session budget. Every critical section under the manager's mutex,
  every journal call, every process start and every `budget.Release` is one event; calls for
  different executions, timers, cancel and close interleave freely, the agent may be restarted
  on the same journal directory, and a power loss may drop whatever was not synced.
 */
module ExecutionManager {
  import opened Basics
  import opened ExecutionJournal
  import SessionBudget

  /** A preparation; `scripted` means a protected interpreter reads its input from the spool.
      A digest is the content it identifies. `chunks` are the accepted script frames. */
  datatype Prep = Prep(binding: Binding, enhanced: bool, scripted: bool, length: nat, digest: Bytes,
                       chunks: seq<Bytes>, spool: Bytes, attached: bool, complete: bool)

  /** Where a Start call is, between taking its preparation and its deferred cleanup. */
  datatype LaunchPc = Entered | HasClaim | ProcessUp | RunningRecorded | HandedOver

  datatype Launch = Launch(prep: Prep, pc: LaunchPc)

  datatype Run = Run(prep: Prep, reported: bool)

  /** Progress of the first Close call. */
  datatype Closer = Open | Closing | Collected(waitingFor: set<Id>) | Done

  datatype Manager = Manager(
    budget: SessionBudget.Counters,
    external: nat,                 // units held by terminals
    resolving: set<Id>,            // Prepare calls between their two critical sections
    cleaning: set<Id>,             // Prepare calls that installed and still have to clear `pending`
    prepared: map<Id, Prep>,
    launching: map<Id, Launch>,
    runs: map<Id, Run>,
    releasing: nat,                // calls that gave up their entry and are about to release its unit
    closer: Closer)

  datatype History = History(
    starts: multiset<Id>,          // process starts
    issued: set<Binding>,          // bindings ever prepared
    invalid: set<Binding>,         // bindings ended by a bad script frame
    admitted: set<Binding>,        // bindings that ever entered Start
    settled: map<Id, Outcome>)     // results recorded durably

  datatype System = System(m: Manager, j: JournalState, h: History)

  function Fresh(maximum: int): Manager {
    Manager(SessionBudget.Counters(0, maximum, false, 0), 0, {}, {}, map[], map[], map[], 0, Open)
  }

  predicate Init(s: System) {
    && s.m == Fresh(s.m.budget.maximum)
    && s.j == JournalState(map[], map[])
    && s.h == History(multiset{}, {}, {}, {}, map[])
  }

  // ------------------------------------------------------------------------- events

  datatype Event =
    | Preparing(p: PrepareStep)
    | Holding(q: PreparedStep)
    | Starting(l: LaunchStep)
    | Other(w: WorldStep)

  datatype PrepareStep =
    | Enter(id: Id)
    | Install(id: Id, prep: Prep)
    | Fail(id: Id)
    | ClearPending(id: Id)

  datatype PreparedStep =
    | Expire(id: Id)
    | Cancel(binding: Binding)
    | Attach(binding: Binding, inTime: bool)
    | ScriptChunk(binding: Binding, inTime: bool, offset: int, data: Bytes, stored: bool)
    | ScriptEOF(binding: Binding, inTime: bool, length: nat, digest: Bytes, sealed: bool)

  datatype LaunchStep =
    | Start(binding: Binding, authorized: bool)
    | Abort(id: Id)
    | Claim(id: Id, end: ClaimEnd)
    | AbortClaimed(id: Id, outcome: Outcome, update: Attempt)
    | ProcessStart(id: Id)
    | RecordRunning(id: Id, update: Attempt)
    | HandOver(id: Id)
    | ClearLaunching(id: Id)
    | Report(id: Id, outcome: Outcome, update: Attempt)
    | Finish(id: Id)

  datatype WorldStep =
    | ReleaseUnit
    | TerminalOpens
    | TerminalCloses
    | CloseBegins
    | CloseWaited
    | CloseDone
    | Restart(maximum: int)
    | PowerLoss(maximum: int, left: JournalState)

  predicate Closed(m: Manager) {
    m.closer != Open
  }

  predicate AtPc(m: Manager, id: Id, pc: LaunchPc) {
    id in m.launching && m.launching[id].pc == pc
  }

  /** A preparation as Prepare builds it. */
  predicate NewPrep(p: Prep) {
    p.chunks == [] && p.spool == [] && !p.attached && (p.scripted ==> p.enhanced) && p.complete == !p.scripted
  }

  predicate Enabled(s: System, e: Event) {
    match e
    case Preparing(p) => PrepareEnabled(s, p)
    case Holding(q) => q.Expire? ==> q.id in s.m.prepared
    case Starting(l) => LaunchEnabled(s, l)
    case Other(w) => WorldEnabled(s, w)
  }

  predicate PrepareEnabled(s: System, e: PrepareStep) {
    match e
    case Enter(id) =>
      && !Closed(s.m) && id !in s.m.resolving && id !in s.m.cleaning
      && id !in s.m.prepared && id !in s.m.launching && id !in s.m.runs
      && s.m.budget.CanAcquire()
    case Install(id, prep) =>
      && id in s.m.resolving && !Closed(s.m) && id !in s.m.prepared && id !in s.m.runs
      && NewPrep(prep) && prep.binding.id == id && prep.binding !in s.h.issued
    case Fail(id) => id in s.m.resolving
    case ClearPending(id) => id in s.m.cleaning
  }

  predicate LaunchEnabled(s: System, e: LaunchStep) {
    match e
    case Start(binding, authorized) => authorized && MayStart(s, binding)
    case Abort(id) => AtPc(s.m, id, Entered) || AtPc(s.m, id, HasClaim)
    case Claim(id, end) => AtPc(s.m, id, Entered) && ClaimPossible(s.j, id, end)
    case AbortClaimed(id, _, update) => AtPc(s.m, id, HasClaim) && UpdatePossible(s.j, id, update)
    case ProcessStart(id) => AtPc(s.m, id, HasClaim)
    case RecordRunning(id, update) => AtPc(s.m, id, ProcessUp) && UpdatePossible(s.j, id, update)
    case HandOver(id) => AtPc(s.m, id, RunningRecorded)
    case ClearLaunching(id) => AtPc(s.m, id, HandedOver)
    case Report(id, _, update) => id in s.m.runs && !s.m.runs[id].reported && UpdatePossible(s.j, id, update)
    case Finish(id) => id in s.m.runs && s.m.runs[id].reported
  }

  /** The checks of Start, under the manager's mutex; a lookup that cannot read the journal refuses. */
  predicate MayStart(s: System, binding: Binding) {
    && !Closed(s.m) && Status(s.j, binding.id, true) == NotFound
    && binding.id in s.m.prepared && s.m.prepared[binding.id].binding == binding
    && (s.m.prepared[binding.id].enhanced ==> s.m.prepared[binding.id].complete)
  }

  predicate WorldEnabled(s: System, e: WorldStep) {
    match e
    case ReleaseUnit => s.m.releasing > 0
    case TerminalOpens => s.m.budget.CanAcquire()
    case TerminalCloses => s.m.external > 0
    case CloseBegins => s.m.closer == Open
    case CloseWaited => s.m.closer == Closing && s.m.launching == map[]
    case CloseDone => s.m.closer.Collected? && s.m.closer.waitingFor !! s.m.runs.Keys
    case Restart(_) => true
    case PowerLoss(_, left) => Survives(s.j, left)
  }

  // ----------------------------------------------------------- effects on the manager

  function Acquire(m: Manager): Manager {
    m.(budget := m.budget.(used := m.budget.used + 1))
  }

  function Release(m: Manager): Manager {
    m.(budget := m.budget.Released())
  }

  /** Remove a prepared entry and release its unit, in one critical section. */
  function DropPrepared(m: Manager, id: Id): Manager {
    Release(m.(prepared := m.prepared - {id}))
  }

  /** Remove a launching entry; its unit is released after the mutex is given up. */
  function DropLaunch(m: Manager, id: Id): Manager {
    m.(launching := m.launching - {id}, releasing := m.releasing + 1)
  }

  function MoveLaunch(m: Manager, id: Id, pc: LaunchPc): Manager
    requires id in m.launching
  {
    m.(launching := m.launching[id := m.launching[id].(pc := pc)])
  }

  /** The loop of Close over the prepared entries. */
  function ReleaseEach(m: Manager, n: nat): Manager
    decreases n
  {
    if n == 0 then m else ReleaseEach(Release(m), n - 1)
  }

  lemma {:induction false} ReleaseEachTouchesBudget(m: Manager, n: nat)
    ensures ReleaseEach(m, n) == m.(budget := ReleaseEach(m, n).budget)
    decreases n
  {
    if n > 0 {
      ReleaseEachTouchesBudget(Release(m), n - 1);
    }
  }

  function PrepareManager(m: Manager, e: PrepareStep): Manager {
    match e
    case Enter(id) => Acquire(m.(resolving := m.resolving + {id}))
    case Install(id, prep) =>
      m.(resolving := m.resolving - {id}, cleaning := m.cleaning + {id}, prepared := m.prepared[id := prep])
    case Fail(id) => m.(resolving := m.resolving - {id}, releasing := m.releasing + 1)
    case ClearPending(id) => m.(cleaning := m.cleaning - {id})
  }

  // --------------------------------------------------------------- protected scripts

  /** `scriptPreparation`. */
  predicate ScriptReady(m: Manager, binding: Binding, inTime: bool) {
    && !Closed(m) && binding.id in m.prepared
    && var p := m.prepared[binding.id];
    && p.attached && p.binding == binding && inTime && p.enhanced && p.scripted && !p.complete
  }

  predicate ChunkAccepted(m: Manager, e: PreparedStep)
    requires e.ScriptChunk?
  {
    && ScriptReady(m, e.binding, e.inTime)
    && var p := m.prepared[e.binding.id];
    && 0 < |e.data| <= MAX_FRAME && e.offset == |p.spool| && |e.data| <= p.length - |p.spool| && e.stored
  }

  predicate EOFAccepted(m: Manager, e: PreparedStep)
    requires e.ScriptEOF?
  {
    && ScriptReady(m, e.binding, e.inTime)
    && var p := m.prepared[e.binding.id];
    && e.length == p.length && |p.spool| == p.length && e.digest == p.digest && p.spool == p.digest && e.sealed
  }

  predicate Named(m: Manager, binding: Binding) {
    binding.id in m.prepared && m.prepared[binding.id].binding == binding
  }

  function PreparedManager(m: Manager, e: PreparedStep): Manager {
    match e
    case Expire(id) => DropPrepared(m, id)
    case Cancel(binding) => if Named(m, binding) then DropPrepared(m, binding.id) else m
    case Attach(binding, inTime) =>
      if !Closed(m) && Named(m, binding) && inTime && !m.prepared[binding.id].attached
      then m.(prepared := m.prepared[binding.id := m.prepared[binding.id].(attached := true)]) else m
    case ScriptChunk(binding, _, _, data, _) =>
      if ChunkAccepted(m, e) then
        var p := m.prepared[binding.id];
        m.(prepared := m.prepared[binding.id := p.(chunks := p.chunks + [data], spool := p.spool + data)])
      else if Named(m, binding) then DropPrepared(m, binding.id) else m
    case ScriptEOF(binding, _, _, _, _) =>
      if EOFAccepted(m, e) then m.(prepared := m.prepared[binding.id := m.prepared[binding.id].(complete := true)])
      else if Named(m, binding) then DropPrepared(m, binding.id) else m
  }

  /** The bindings that this step ends for a bad frame. */
  function Invalidates(m: Manager, e: PreparedStep): set<Binding> {
    match e
    case ScriptChunk(binding, _, _, _, _) => if !ChunkAccepted(m, e) && Named(m, binding) then {binding} else {}
    case ScriptEOF(binding, _, _, _, _) => if !EOFAccepted(m, e) && Named(m, binding) then {binding} else {}
    case _ => {}
  }

  // ------------------------------------------------------------------------ launching

  function LaunchManager(s: System, e: LaunchStep): Manager
    requires LaunchEnabled(s, e)
  {
    var m := s.m;
    match e
    case Start(binding, _) =>
      m.(prepared := m.prepared - {binding.id},
         launching := m.launching[binding.id := Launch(m.prepared[binding.id], Entered)])
    case Abort(id) => DropLaunch(m, id)
    case Claim(id, end) => if end == Durable then MoveLaunch(m, id, HasClaim) else DropLaunch(m, id)
    case AbortClaimed(id, _, _) => DropLaunch(m, id)
    case ProcessStart(id) => MoveLaunch(m, id, ProcessUp)
    case RecordRunning(id, update) =>
      if update.end == Recorded then MoveLaunch(m, id, RunningRecorded) else DropLaunch(m, id)
    case HandOver(id) => MoveLaunch(m, id, HandedOver).(runs := m.runs[id := Run(m.launching[id].prep, false)])
    case ClearLaunching(id) => m.(launching := m.launching - {id})
    case Report(id, _, _) => m.(runs := m.runs[id := m.runs[id].(reported := true)])
    case Finish(id) => m.(runs := m.runs - {id}, releasing := m.releasing + 1)
  }

  function LaunchJournal(s: System, e: LaunchStep): JournalState
    requires LaunchEnabled(s, e)
  {
    match e
    case Claim(id, end) => ClaimState(s.j, id, s.m.launching[id].prep.binding, end)
    case AbortClaimed(id, outcome, update) => UpdateState(s.j, id, Final(outcome), update)
    case RecordRunning(id, update) => UpdateState(s.j, id, Running, update)
    case Report(id, outcome, update) => UpdateState(s.j, id, Final(outcome), update)
    case _ => s.j
  }

  function LaunchHistory(h: History, e: LaunchStep): History {
    match e
    case Start(binding, _) => h.(admitted := h.admitted + {binding})
    case ProcessStart(id) => h.(starts := h.starts + multiset{id})
    case AbortClaimed(id, outcome, update) =>
      if update.end == Recorded then h.(settled := h.settled[id := outcome]) else h
    case Report(id, outcome, update) => if update.end == Recorded then h.(settled := h.settled[id := outcome]) else h
    case _ => h
  }

  function WorldManager(s: System, e: WorldStep): Manager
    requires WorldEnabled(s, e)
  {
    var m := s.m;
    match e
    case ReleaseUnit => Release(m.(releasing := m.releasing - 1))
    case TerminalOpens => Acquire(m.(external := m.external + 1))
    case TerminalCloses => Release(m.(external := m.external - 1))
    case CloseBegins => ReleaseEach(m, |m.prepared|).(prepared := map[], closer := Closing)
    case CloseWaited => m.(closer := Collected(m.runs.Keys))
    case CloseDone => m.(closer := Done)
    case Restart(maximum) => Fresh(maximum)
    case PowerLoss(maximum, _) => Fresh(maximum)
  }

  function WorldJournal(j: JournalState, e: WorldStep): JournalState {
    match e
    case Restart(_) => j.(records := map[])
    case PowerLoss(_, left) => left
    case _ => j
  }

  function Apply(s: System, e: Event): System
    requires Enabled(s, e)
  {
    match e
    case Preparing(p) =>
      System(PrepareManager(s.m, p), s.j, if p.Install? then s.h.(issued := s.h.issued + {p.prep.binding}) else s.h)
    case Holding(q) => System(PreparedManager(s.m, q), s.j, s.h.(invalid := s.h.invalid + Invalidates(s.m, q)))
    case Starting(l) => System(LaunchManager(s, l), LaunchJournal(s, l), LaunchHistory(s.h, l))
    case Other(w) => System(WorldManager(s, w), WorldJournal(s.j, w), s.h)
  }

  predicate Possible(s: System, events: seq<Event>)
    decreases |events|
  {
    events == [] || (Enabled(s, events[0]) && Possible(Apply(s, events[0]), events[1..]))
  }

  function After(s: System, events: seq<Event>): System
    requires Possible(s, events)
    decreases |events|
  {
    if events == [] then s else After(Apply(s, events[0]), events[1..])
  }
}
