/**
  What an update achieves when its calls succeed: from the request to the confirmed target, and
  from any failure after the service was stopped back to the confirmed original.
 */
module UpdateForward {
  import opened Basics
  import opened UpdateProtocol
  import opened UpdateSafety
  import opened UpdateLimits
  import opened UpdateRollback

  /** The supervisor is on its way to starting the target. */
  predicate OnTheWay(pc: Pc) {
    pc.Checked? || pc.BackedUp? || pc.DidMark? || pc.ServiceStopped? || pc.Copied? || pc.Marked?
  }

  function ForwardStep(pc: Pc): SupervisorStep
    requires OnTheWay(pc)
  {
    match pc
    case Checked => BackUp
    case BackedUp => MarkInstalling(Synced)
    case DidMark => StopService(true, true)
    case ServiceStopped => InstallTarget(Synced)
    case Copied => MarkReconnecting(Synced)
    case Marked => StartService(true, true)
  }

  function ForwardTo(pc: Pc): Pc
    requires OnTheWay(pc)
  {
    match pc
    case Checked => BackedUp
    case BackedUp => DidMark
    case DidMark => ServiceStopped
    case ServiceStopped => Copied
    case Copied => Marked
    case Marked => Started
  }

  /** The next succeeding call is possible and moves the supervisor on; the last leaves the target running
      and able to confirm. */
  lemma ForwardProgresses(s: State)
    requires SafetyInv(s) && s.owner.Supervisor? && OnTheWay(s.owner.pc) && !s.journal.now.value.confirmed
    requires s.owner.pc.Checked? ==> s.owner.entry.op !in s.backups
    ensures StepEnabled(s, ForwardStep(s.owner.pc))
    ensures var t := Act(s, ForwardStep(s.owner.pc));
      && t.owner == s.owner.(pc := ForwardTo(s.owner.pc)) && !t.journal.now.value.confirmed
      && (s.owner.pc.DidMark? ==> t.agent == Stopped)
      && (s.owner.pc.ServiceStopped? ==> t.binary == Cell(s.owner.entry.target.image, {s.owner.entry.target.image}))
      && (s.owner.pc.Copied? ==> OnlyRecord(t, s.owner.entry.(phase := Reconnecting)))
      && (s.owner.pc.Marked? ==> t.agent == Running(s.owner.entry.target) && MayConfirm(t, Succeeded))
  {
    assert s.journal.now in s.journal.crash;
    if !s.owner.pc.Checked? && !s.owner.pc.BackedUp? {
      assert JournalAt(s.journal.now, s.owner.entry, s.owner.pc) && RecordInv(s, s.journal.now.value);
    }
  }

  // ------------------------------------------------------------- every undisturbed run

  /** Events of an update in which the supervisor's calls succeed and it is not killed, the power stays on, the
      agent does not die and nobody else starts or stops the service or stages another update. */
  predicate Undisturbed(e: Event) {
    match e
    case World(what) => what.Tick? || what.WritebackJournal? || what.WritebackBinary? || what.WritebackBackups?
    case Staging(_) => false
    case Confirm(_, _) => true
    case Supervise(step) =>
      && !step.SupervisorExits? && !step.BackUpFails? && !step.WaitFails?
      && (step.StopService? ==> step.ok) && (step.StartService? ==> step.ok)
      && (step.MarkInstalling? || step.InstallTarget? || step.MarkReconnecting? ==> step.w == Synced)
  }

  predicate AllUndisturbed(events: seq<Event>) {
    forall i :: 0 <= i < |events| ==> Undisturbed(events[i])
  }

  /** The update of `e` is finished: confirmed, installed and running. */
  predicate Finished(s: State, e: Record) {
    && s.owner == Free && s.agent == Running(e.target)
    && s.binary == Cell(e.target.image, {e.target.image})
    && s.journal.now == Some(e.(phase := Succeeded, confirmed := true))
  }

  /** The supervisor of `e` goes on towards the confirmed target. */
  predicate GoingForward(s: State, e: Record) {
    && s.owner.Supervisor? && s.owner.entry == e && s.journal.now.Some? && SameBinding(s.journal.now.value, e)
    && (OnTheWay(s.owner.pc) || s.owner.pc.Started?)
    && (OnTheWay(s.owner.pc) ==> !s.journal.now.value.confirmed)
    && (s.owner.pc.Checked? ==> e.op !in s.backups)
    && (s.owner.pc.ServiceStopped? || s.owner.pc.Copied? || s.owner.pc.Marked? ==> s.agent == Stopped)
    && (s.owner.pc.Started? ==> s.agent == Running(e.target))
  }

  lemma WorldKeepsForward(s: State, what: WorldEvent, e: Record)
    requires GoingForward(s, e) && WorldEnabled(s, what) && Undisturbed(World(what))
    ensures GoingForward(Happen(s, what), e)
  {
  }

  lemma OwnStepKeepsForward(s: State, step: SupervisorStep, e: Record)
    requires SafetyInv(s) && GoingForward(s, e) && StepEnabled(s, step) && Undisturbed(Supervise(step))
    requires OnTheWay(s.owner.pc) && !step.WaiterExits?
    ensures GoingForward(Act(s, step), e)
  {
    assert s.journal.now in s.journal.crash;
    ForwardProgresses(s);
  }

  lemma SightFinishes(s: State, e: Record)
    requires SafetyInv(s) && GoingForward(s, e) && StepEnabled(s, SeeSuccess)
    ensures Finished(Act(s, SeeSuccess), e)
  {
    assert s.journal.now in s.journal.crash;
    assert JournalAt(s.journal.now, e, Started);
  }

  /** A supervisor's own step carries the update on, and seeing the confirmation finishes it. */
  lemma SupervisorKeepsForward(s: State, step: SupervisorStep, e: Record)
    requires SafetyInv(s) && GoingForward(s, e) && StepEnabled(s, step) && Undisturbed(Supervise(step))
    ensures GoingForward(Act(s, step), e) || Finished(Act(s, step), e)
  {
    if step.WaiterExits? {
      assert Act(s, step) == s.(waiting := s.waiting - {step.op});
    } else if OnTheWay(s.owner.pc) {
      OwnStepKeepsForward(s, step, e);
    } else {
      assert step.SeeSuccess?;
      SightFinishes(s, e);
    }
  }

  lemma ConfirmKeepsForward(s: State, phase: Phase, w: Write, e: Record)
    requires SafetyInv(s) && GoingForward(s, e) && MayConfirm(s, phase) && w != NotWritten
    ensures GoingForward(WriteConfirmation(s, phase, w), e)
  {
    assert s.journal.now in s.journal.crash;
    if !s.owner.pc.Checked? && !s.owner.pc.BackedUp? {
      assert JournalAt(s.journal.now, e, s.owner.pc) && RecordInv(s, s.journal.now.value);
    }
  }

  /** A finished update stays finished. */
  lemma FinishedStays(s: State, e: Event, r: Record)
    requires Finished(s, r) && Enabled(s, e) && Undisturbed(e)
    ensures Finished(Apply(s, e), r)
  {
  }

  /** In every undisturbed run the supervisor goes forward until the update is finished. */
  lemma {:induction false} UpdateIsCarriedThrough(s: State, events: seq<Event>, e: Record)
    requires SafetyInv(s) && (GoingForward(s, e) || Finished(s, e)) && Possible(s, events) && AllUndisturbed(events)
    ensures GoingForward(After(s, events), e) || Finished(After(s, events), e)
    decreases |events|
  {
    if events != [] {
      if Finished(s, e) {
        FinishedStays(s, events[0], e);
      } else {
        match events[0] {
          case World(what) => WorldKeepsForward(s, what, e);
          case Supervise(step) => SupervisorKeepsForward(s, step, e);
          case Confirm(phase, w) => ConfirmKeepsForward(s, phase, w, e);
        }
      }
      StepIsSafe(s, events[0]);
      UpdateIsCarriedThrough(Apply(s, events[0]), events[1..], e);
    }
  }

  // ------------------------------------------------------------------- the whole run

  lemma Concatenate(s: State, first: seq<Event>, middle: State, second: seq<Event>, end: State)
    requires Leads(s, first, middle) && Leads(middle, second, end)
    ensures Leads(s, first + second, end)
    decreases |first|
  {
    if first == [] {
      assert first + second == second;
    } else {
      Concatenate(Apply(s, first[0]), first[1..], middle, second, end);
      Prepend(s, first[0], first[1..] + second, end);
      assert [first[0]] + (first[1..] + second) == first + second;
    }
  }

  function StepsLeft(pc: Pc): nat
    requires OnTheWay(pc)
  {
    match pc
    case Checked => 6
    case BackedUp => 5
    case DidMark => 4
    case ServiceStopped => 3
    case Copied => 2
    case Marked => 1
  }

  /** The supervisor's remaining calls, up to the start of the target. */
  function InstallSteps(pc: Pc): seq<Event>
    requires OnTheWay(pc)
    decreases StepsLeft(pc)
  {
    [Supervise(ForwardStep(pc))] + if pc.Marked? then [] else InstallSteps(ForwardTo(pc))
  }

  /** One succeeding call after another leads to the running target. */
  lemma {:induction false} InstallReachesTarget(s: State) returns (t: State)
    requires SafetyInv(s) && s.owner.Supervisor? && GoingForward(s, s.owner.entry) && OnTheWay(s.owner.pc)
    ensures Leads(s, InstallSteps(s.owner.pc), t) && SafetyInv(t)
    ensures GoingForward(t, s.owner.entry) && t.owner.pc == Started && MayConfirm(t, Succeeded)
    decreases StepsLeft(s.owner.pc)
  {
    var step := ForwardStep(s.owner.pc);
    ForwardProgresses(s);
    var next := Act(s, step);
    SupervisorIsSafe(s, step);
    SupervisorKeepsForward(s, step, s.owner.entry);
    if s.owner.pc.Marked? {
      t := next;
      Prepend(s, Supervise(step), [], t);
    } else {
      t := InstallReachesTarget(next);
      Prepend(s, Supervise(step), InstallSteps(next.owner.pc), t);
    }
  }

  const FINISH: seq<Event> := [Confirm(Succeeded, Synced), Supervise(SeeSuccess)]

  /** Then the Hub's confirmation and the supervisor's observation finish the update. */
  lemma ConfirmationFinishes(s: State, e: Record) returns (t: State)
    requires SafetyInv(s) && GoingForward(s, e) && s.owner.pc == Started && MayConfirm(s, Succeeded)
    ensures Leads(s, FINISH, t) && Finished(t, e)
  {
    var s1 := WriteConfirmation(s, Succeeded, Synced);
    ConfirmKeepsForward(s, Succeeded, Synced, e);
    ConfirmSafe(s, Succeeded, Synced);
    SupervisorKeepsForward(s1, SeeSuccess, e);
    t := s1.(owner := Free);
    Prepend(s1, Supervise(SeeSuccess), [], t);
    Prepend(s, Confirm(Succeeded, Synced), [Supervise(SeeSuccess)], t);
    assert [Confirm(Succeeded, Synced)] + [Supervise(SeeSuccess)] == FINISH;
  }

  function RequestSteps(entry: Record): seq<Event> {
    [Staging(Intent(entry, Synced)), Staging(FinishStaging(Synced))]
    + [Staging(LaunchSucceeds(entry.op)), Supervise(Check(entry.op))]
  }

  /** A durably staged request for the installed original. */
  predicate StagedFor(s: State, staged: Record) {
    && s.owner == Free && OnlyRecord(s, staged) && staged.op in s.launching && staged.phase == Staged
    && !staged.confirmed && s.now < staged.expires && staged.target == Describe(staged.target.image)
    && staged.original.image == s.binary.now && staged.op !in s.backups
  }

  lemma StagingIsDurable(s: State, entry: Record) returns (t: State)
    requires s.owner == Free && MayStage(s, entry) && entry.op !in s.backups
    requires entry.target == Describe(entry.target.image) && entry.original.image == s.binary.now
    ensures Leads(s, [Staging(Intent(entry, Synced)), Staging(FinishStaging(Synced))], t)
    ensures StagedFor(t, entry.(phase := Staged))
  {
    var s1 := WriteIntent(s, entry, Synced);
    t := WriteStaged(s1, Synced);
    Prepend(s1, Staging(FinishStaging(Synced)), [], t);
    Prepend(s, Staging(Intent(entry, Synced)), [Staging(FinishStaging(Synced))], t);
    assert [Staging(Intent(entry, Synced))] + [Staging(FinishStaging(Synced))]
        == [Staging(Intent(entry, Synced)), Staging(FinishStaging(Synced))];
  }

  lemma LaunchReachesSupervisor(s: State, staged: Record) returns (t: State)
    requires StagedFor(s, staged)
    ensures Leads(s, [Staging(LaunchSucceeds(staged.op)), Supervise(Check(staged.op))], t)
    ensures Holds(t, Checked) && t.owner.entry == staged && GoingForward(t, staged)
  {
    var s1 := s.(launching := s.launching - {staged.op}, waiting := s.waiting + {staged.op});
    t := TakeOver(s1, staged.op);
    Prepend(s1, Supervise(Check(staged.op)), [], t);
    Prepend(s, Staging(LaunchSucceeds(staged.op)), [Supervise(Check(staged.op))], t);
    assert [Staging(LaunchSucceeds(staged.op))] + [Supervise(Check(staged.op))]
        == [Staging(LaunchSucceeds(staged.op)), Supervise(Check(staged.op))];
  }

  /** Every admissible request for the installed original, with every call succeeding and the Hub confirming,
      ends with the target confirmed, durably installed and running, and the supervisor gone. */
  lemma UpdateSucceeds(s: State, entry: Record) returns (events: seq<Event>, end: State)
    requires SafetyInv(s) && s.owner == Free && MayStage(s, entry) && entry.op !in s.backups
    requires entry.target == Describe(entry.target.image) && entry.original.image == s.binary.now
    ensures events == RequestSteps(entry) + InstallSteps(Checked) + FINISH
    ensures Leads(s, events, end) && Finished(end, entry.(phase := Staged))
  {
    var staged := entry.(phase := Staged);
    var s1 := StagingIsDurable(s, entry);
    var s2 := LaunchReachesSupervisor(s1, staged);
    Concatenate(s, [Staging(Intent(entry, Synced)), Staging(FinishStaging(Synced))], s1,
                [Staging(LaunchSucceeds(entry.op)), Supervise(Check(entry.op))], s2);
    RunIsSafe(s, RequestSteps(entry));
    var s3 := InstallReachesTarget(s2);
    end := ConfirmationFinishes(s3, staged);
    Concatenate(s, RequestSteps(entry), s2, InstallSteps(Checked), s3);
    Concatenate(s, RequestSteps(entry) + InstallSteps(Checked), s3, FINISH, end);
    events := RequestSteps(entry) + InstallSteps(Checked) + FINISH;
  }

  // ---------------------------------------------------------------------- and back

  /** The ways in which a call after the mark `installing` fails. */
  predicate Fails(pc: Pc, step: SupervisorStep) {
    match pc
    case DidMark => step.StopService? && !step.ok
    case ServiceStopped => step.InstallTarget? && step.w != Synced
    case Copied => step.MarkReconnecting? && step.w != Synced
    case Marked => step.StartService? && !step.ok
    case Started => step.WaitFails?
    case _ => false
  }

  /** Every such failure turns to recovery, and recovery decides for rollback unless success is confirmed. */
  lemma FailureTurnsToRollback(s: State, step: SupervisorStep)
    requires SafetyInv(s) && s.owner.Supervisor? && Fails(s.owner.pc, step) && StepEnabled(s, step)
    ensures var t := Act(s, step);
      && t.owner == s.owner.(pc := Recovering) && StepEnabled(t, BeginRollback(Synced))
      && var u := Act(t, BeginRollback(Synced));
      && (t.journal.now.value.confirmed ==> u.owner == Free && u.journal == t.journal && u.binary == t.binary)
      && (!t.journal.now.value.confirmed ==>
            u.owner == s.owner.(pc := Decided) && OnlyRecord(u, s.owner.entry.(phase := RollingBack)))
  {
    assert s.journal.now in s.journal.crash;
    assert JournalAt(s.journal.now, s.owner.entry, s.owner.pc);
  }

  const RESTORE: seq<Event> :=
    [Supervise(StopForRollback(true, true)), Supervise(RestoreOriginal(Synced)), Supervise(MarkRolledBack(Synced)),
     Supervise(StartOriginal(true, true))]

  /** The original is back: durably installed, running, and marked for the Hub to confirm. */
  predicate Restored(s: State, e: Record) {
    && Holds(s, RollbackStarted) && s.owner.entry == e && s.binary == Cell(e.original.image, {e.original.image})
    && s.agent == Running(Describe(e.original.image)) && OnlyRecord(s, e.(phase := RolledBack))
  }

  /** A decided rollback whose calls succeed, and whose original cannot report before it is stopped, restores
      the original and starts it; a stamped original can then confirm. */
  lemma RollbackRestores(s: State) returns (t: State)
    requires SafetyInv(s) && Holds(s, Decided) && !s.journal.now.value.confirmed
    requires !OriginalMayReport(s, s.owner.entry)
    ensures Leads(s, RESTORE, t) && Restored(t, s.owner.entry)
    ensures s.owner.entry.original == Describe(s.owner.entry.original.image) ==> MayConfirm(t, RolledBack)
  {
    var e := s.owner.entry;
    assert JournalAt(s.journal.now, e, Decided) && RecordInv(s, s.journal.now.value);
    t := RestoreRun(s, e);
  }

  lemma RestoreRun(s: State, e: Record) returns (t: State)
    requires Holds(s, Decided) && s.owner.entry == e && BackupIntact(s, e) && !e.confirmed
    requires s.journal.now.Some? && SameBinding(s.journal.now.value, e) && !s.journal.now.value.confirmed
    ensures Leads(s, RESTORE, t) && Restored(t, e)
    ensures e.original == Describe(e.original.image) ==> MayConfirm(t, RolledBack)
  {
    var s1 := StopForRestore(s, true, true);
    var s2 := CopyOriginal(s1, Synced);
    var s3 := Mark(s2, RolledBack, Synced, RollbackMarked, None);
    t := StartRestored(s3, true, true);
    assert OnlyRecord(s3, e.(phase := RolledBack));
    Prepend(s3, RESTORE[3], [], t);
    Prepend(s2, RESTORE[2], RESTORE[3..], t);
    Prepend(s1, RESTORE[1], RESTORE[2..], t);
    Prepend(s, RESTORE[0], RESTORE[1..], t);
  }

  // ------------------------------------------------------------------------- giving up

  /** Whoever gives an operation up before anything was installed, with a durable write, leaves it failed, lets
      go of it, and leaves the journal open to every new operation. */
  lemma GivingUpFreesTheJournal(s: State, e: Event, op: Operation, next: Record)
    requires SafetyInv(s) && Enabled(s, e) && next.op != op && next.op !in s.launched
    requires
      || (e == Staging(StagingFails(Synced)) && s.owner.entry.op == op)
      || e == Staging(LaunchFails(op, Synced))
      || (e == Supervise(Refuse(op, Synced)) && JournalIs(s, op, Staged) && !s.journal.now.value.confirmed)
      || (e.Supervise? && e.step.BackUpFails? && e.step.w == Synced && s.owner.entry.op == op)
    ensures var t := Apply(s, e);
      && t.journal.now.Some? && JournalIs(t, op, Failed) && t.journal.crash == {t.journal.now}
      && op !in t.launching && op !in t.waiting && MayReplaceJournal(t, next)
      && (e.Staging? && e.stage.StagingFails? ==> t.owner == Free) && (e.Supervise? ==> t.owner == Free)
  {
    if e.Staging? && e.stage.LaunchFails? {
      assert OnlyRecord(s, s.launching[op]);
    }
  }

  /** A staged operation whose launcher died stands in nobody's way for longer than the delay: then time may
      pass, and an operation for the same original may replace it. */
  lemma DeadLauncherIsSuperseded(s: State, op: Operation, next: Record, late: int)
    requires SafetyInv(s) && op in s.launching && s.owner == Free && late > SupersedableAfter(s.launching[op])
    requires next.op != op && next.op !in s.launched && next.original == s.launching[op].original
    ensures var t := Apply(s, Staging(LauncherDies(op)));
      && WorldEnabled(t, Tick(late)) && MayReplaceJournal(Happen(t, Tick(late)), next)
  {
    LaunchOutlivesSupersessionIff(s, op, late);
    forall other | other in s.launching
      ensures other == op
    {
      assert OnlyRecord(s, s.launching[other]) && OnlyRecord(s, s.launching[op]);
    }
  }

  /** A service that the operator stops confirms nothing until it is started again. */
  lemma StoppedServiceConfirmsNothing(s: State, phase: Phase)
    ensures !MayConfirm(Apply(s, World(OperatorStops)), phase)
    ensures s.agent == Stopped ==> !MayConfirm(s, phase)
  {
  }
}
