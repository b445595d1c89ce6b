/**
  When a rollback is carried through to the start of the original, and what a failed launch's
  late journal write would do.
 */
module UpdateRollback {
  import opened Basics
  import opened UpdateProtocol
  import opened UpdateSafety
  import opened UpdateLimits

  /** Events of a rollback in which the supervisor's own calls succeed, it is not killed, the power stays on
      and nobody else starts the service; the agent, the Hub and the service manager do as they like. */
  predicate Willing(e: Event) {
    match e
    case World(what) => !what.PowerLoss? && !what.OperatorStarts?
    case Staging(_) => true
    case Confirm(_, _) => true
    case Supervise(step) =>
      && !step.SupervisorExits?
      && (step.StopForRollback? ==> step.ok) && (step.RestoreOriginal? ==> step.w == Synced)
      && (step.MarkRolledBack? ==> step.w == Synced) && (step.StartOriginal? ==> step.ok)
  }

  predicate AllWilling(events: seq<Event>) {
    forall i :: 0 <= i < |events| ==> Willing(events[i])
  }

  /** The supervisor of `e` has not given up. */
  predicate GoesOn(s: State, e: Record) {
    s.owner.Supervisor? && s.owner.entry == e && BackwardPc(s.owner.pc)
  }

  /** The original can report before the supervisor has marked the rollback. */
  predicate OriginalMayReport(s: State, e: Record) {
    s.agent != Stopped && Describe(s.binary.now) == e.original
  }

  /** Until the rollback is marked nothing can confirm it. */
  predicate Unreported(s: State, e: Record) {
    && GoesOn(s, e) && s.journal.now.Some?
    && (s.owner.pc.Decided? ==> !s.journal.now.value.confirmed && !OriginalMayReport(s, e))
    && (s.owner.pc.RollbackStopped? || s.owner.pc.Restored? ==> !s.journal.now.value.confirmed && s.agent == Stopped)
  }

  lemma WorldKeepsUnreported(s: State, what: WorldEvent, e: Record)
    requires SafetyInv(s) && Unreported(s, e) && WorldEnabled(s, what) && Willing(World(what))
    ensures Unreported(Happen(s, what), e)
  {
  }

  /** While a rollback is under way no staging step is possible. */
  lemma NoStaging(s: State, stage: StagingStep, e: Record)
    requires SafetyInv(s) && GoesOn(s, e)
    ensures !StagingEnabled(s, stage)
  {
    assert JournalAt(s.journal.now, e, s.owner.pc);
  }

  lemma SupervisorKeepsUnreported(s: State, step: SupervisorStep, e: Record)
    requires SafetyInv(s) && Unreported(s, e) && StepEnabled(s, step) && Willing(Supervise(step))
    ensures Unreported(Act(s, step), e)
  {
    assert JournalAt(s.journal.now, e, s.owner.pc) && RecordInv(s, s.journal.now.value);
  }

  lemma ConfirmKeepsUnreported(s: State, phase: Phase, w: Write, e: Record)
    requires SafetyInv(s) && Unreported(s, e) && MayConfirm(s, phase)
    ensures Unreported(WriteConfirmation(s, phase, w), e)
  {
    assert JournalAt(s.journal.now, e, s.owner.pc);
  }

  lemma {:induction false} UnreportedRun(s: State, events: seq<Event>, e: Record)
    requires SafetyInv(s) && Unreported(s, e) && Possible(s, events) && AllWilling(events)
    ensures Unreported(After(s, events), e) && SafetyInv(After(s, events))
    decreases |events|
  {
    if events != [] {
      match events[0] {
        case World(what) => WorldKeepsUnreported(s, what, e);
        case Staging(stage) => NoStaging(s, stage, e);
        case Supervise(step) => SupervisorKeepsUnreported(s, step, e);
        case Confirm(phase, w) => ConfirmKeepsUnreported(s, phase, w, e);
      }
      StepIsSafe(s, events[0]);
      UnreportedRun(Apply(s, events[0]), events[1..], e);
    }
  }

  // ------------------------------------------------------------------------ progress

  function NextStep(pc: Pc): SupervisorStep
    requires BackwardPc(pc) && !pc.RollbackStarted?
  {
    match pc
    case Decided => StopForRollback(true, true)
    case RollbackStopped => RestoreOriginal(Synced)
    case Restored => MarkRolledBack(Synced)
    case RollbackMarked => StartOriginal(true, true)
  }

  function NextPc(pc: Pc): Pc
    requires BackwardPc(pc) && !pc.RollbackStarted?
  {
    match pc
    case Decided => RollbackStopped
    case RollbackStopped => Restored
    case Restored => RollbackMarked
    case RollbackMarked => RollbackStarted
  }

  /** The supervisor's next step is possible, moves it on, and the last one leaves the original running. */
  lemma RollbackProgresses(s: State, e: Record)
    requires SafetyInv(s) && Unreported(s, e) && !s.owner.pc.RollbackStarted?
    ensures StepEnabled(s, NextStep(s.owner.pc))
    ensures Holds(Act(s, NextStep(s.owner.pc)), NextPc(s.owner.pc))
    ensures s.owner.pc.RollbackMarked? ==> Act(s, NextStep(s.owner.pc)).agent == Running(Describe(e.original.image))
  {
    assert JournalAt(s.journal.now, e, s.owner.pc) && RecordInv(s, s.journal.now.value);
  }

  // ---------------------------------------------------------------- the failing run

  /** An original that confirms before the supervisor's stop is then stopped and not started again: the
      outcome is recorded truthfully, but the service stays down. */
  lemma EarlyConfirmationLeavesServiceStopped(s: State) returns (events: seq<Event>, end: State)
    requires SafetyInv(s) && Holds(s, Decided) && !s.journal.now.value.confirmed && OriginalMayReport(s, s.owner.entry)
    ensures Leads(s, events, end) && AllWilling(events)
    ensures end.owner == Free && end.agent == Stopped && Truthful(end)
    ensures JournalIs(end, s.owner.entry.op, RolledBack) && end.journal.now.value.confirmed
  {
    var e := s.owner.entry;
    assert JournalAt(s.journal.now, e, Decided) && RecordInv(s, s.journal.now.value);
    if s.agent == Down {
      var s1 := s.(agent := Running(Describe(s.binary.now)));
      events, end := ConfirmThenStop(s1);
      Prepend(s, World(AgentRestarts), events, end);
      events := [World(AgentRestarts)] + events;
    } else {
      events, end := ConfirmThenStop(s);
    }
  }

  lemma ConfirmThenStop(s: State) returns (events: seq<Event>, end: State)
    requires Holds(s, Decided) && BackupIntact(s, s.owner.entry) && MayConfirm(s, RolledBack)
    requires s.agent == Running(s.owner.entry.original) && SameBinding(s.journal.now.value, s.owner.entry)
    ensures Leads(s, events, end) && AllWilling(events)
    ensures end.owner == Free && end.agent == Stopped && Truthful(end)
    ensures JournalIs(end, s.owner.entry.op, RolledBack) && end.journal.now.value.confirmed
  {
    var s1 := WriteConfirmation(s, RolledBack, Synced);
    var s2 := StopForRestore(s1, true, true);
    var s3 := CopyOriginal(s2, Synced);
    end := s3.(owner := Free);
    events := [];
    Prepend(s3, Supervise(MarkRolledBack(Synced)), events, end);
    events := [Supervise(MarkRolledBack(Synced))] + events;
    Prepend(s2, Supervise(RestoreOriginal(Synced)), events, end);
    events := [Supervise(RestoreOriginal(Synced))] + events;
    Prepend(s1, Supervise(StopForRollback(true, true)), events, end);
    events := [Supervise(StopForRollback(true, true))] + events;
    Prepend(s, Confirm(RolledBack, Synced), events, end);
    events := [Confirm(RolledBack, Synced)] + events;
  }

  /** A supervisor that has decided for rollback, and whose calls succeed, goes on to start the original in
      every run, if and only if the original cannot report before it is stopped. */
  lemma RollbackRestartsIff(s: State)
    requires SafetyInv(s) && Holds(s, Decided) && !s.journal.now.value.confirmed
    ensures !OriginalMayReport(s, s.owner.entry) <==>
            forall events :: Possible(s, events) && AllWilling(events) ==> GoesOn(After(s, events), s.owner.entry)
  {
    if OriginalMayReport(s, s.owner.entry) {
      var events, end := EarlyConfirmationLeavesServiceStopped(s);
      assert Possible(s, events) && AllWilling(events);
    } else {
      assert JournalAt(s.journal.now, s.owner.entry, Decided);
      forall events | Possible(s, events) && AllWilling(events)
        ensures GoesOn(After(s, events), s.owner.entry)
      {
        UnreportedRun(s, events, s.owner.entry);
      }
    }
  }

  // ------------------------------------------------------------- late failure writes

  /** The clock assumption on an undecided launch is exact: a later time is admitted if and only if the record
      cannot yet be superseded at it. */
  lemma LaunchOutlivesSupersessionIff(s: State, op: Operation, late: int)
    requires LaunchInv(s) && op in s.launching && s.owner == Free && s.now <= late
    ensures WorldEnabled(s, Tick(late)) <==> late <= SupersedableAfter(s.launching[op])
    ensures OnlyRecord(s, s.launching[op]) && s.launching[op].op == op
  {
    forall other | other in s.launching
      ensures other == op
    {
      assert OnlyRecord(s, s.launching[other]) && OnlyRecord(s, s.launching[op]);
    }
  }

  /** `markFailed` does not read the journal again: at every later time a newer operation may replace the
      record, and the failure of the launch would then replace the newer operation's record. */
  lemma LateFailureOverwritesNewerRecord(s: State, op: Operation, late: int, next: Record) returns (end: State)
    requires LaunchInv(s) && op in s.launching && s.owner == Free && late > SupersedableAfter(s.launching[op])
    requires MayStage(s.(now := late), next)
    ensures Leads(s.(now := late), [Staging(Intent(next, Synced)), Staging(LaunchFails(op, Synced))], end)
    ensures OnlyRecord(end, s.launching[op].(phase := Failed)) && next.op != op
  {
    var s0 := s.(now := late);
    var s1 := WriteIntent(s0, next, Synced);
    end := AbandonLaunch(s1, op, Synced);
    assert OnlyRecord(s, s.launching[op]);
    Prepend(s1, Staging(LaunchFails(op, Synced)), [], end);
    Prepend(s0, Staging(Intent(next, Synced)), [Staging(LaunchFails(op, Synced))], end);
    assert [Staging(Intent(next, Synced))] + [Staging(LaunchFails(op, Synced))]
        == [Staging(Intent(next, Synced)), Staging(LaunchFails(op, Synced))];
  }
}
