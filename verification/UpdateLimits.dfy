/**
  Where the update protocol's promises end, each with its exact condition: which starts of the
  service are harmless, and when a rollback is carried through to the start of the original.
 */
module UpdateLimits {
  import opened Basics
  import opened UpdateProtocol
  import opened UpdateSafety
  import UpdateVersions
  import Versions

  /** `events` lead from `s` to `end`. */
  predicate Leads(s: State, events: seq<Event>, end: State) {
    Possible(s, events) && After(s, events) == end
  }

  lemma Prepend(s: State, e: Event, rest: seq<Event>, end: State)
    requires Enabled(s, e) && Leads(Apply(s, e), rest, end)
    ensures Leads(s, [e] + rest, end)
  {
    assert ([e] + rest)[1..] == rest;
  }

  // ----------------------------------------------------------- starting the service

  /** An operator's start of the stopped service, whatever the supervisor is doing. */
  function StartNow(s: State): State {
    s.(agent := Running(Describe(s.binary.now)))
  }

  /** A confirmation of bytes that are not durable, and then a power loss that takes them back. */
  lemma ConfirmThenLoseBytes(s: State, phase: Phase, x: Image) returns (events: seq<Event>, end: State)
    requires MayConfirm(s, phase) && s.agent.identity == Describe(s.binary.now)
    requires x in s.binary.crash && x != s.binary.now
    ensures Leads(s, events, end) && !Truthful(end)
    ensures end.journal.now.Some? && end.journal.now.value.confirmed && end.journal.crash == {end.journal.now}
  {
    var s1 := WriteConfirmation(s, phase, Synced);
    end := LosePower(s1, s1.journal.now, x, {});
    events := [];
    Prepend(s1, World(PowerLoss(s1.journal.now, x, {})), events, end);
    events := [World(PowerLoss(s1.journal.now, x, {}))] + events;
    Prepend(s, Confirm(phase, Synced), events, end);
    events := [Confirm(phase, Synced)] + events;
  }

  /** After a copy whose directory sync failed, with or without a supervisor left. */
  lemma StartOnUndurableBytesBreaksConfirmation(s: State) returns (events: seq<Event>, end: State)
    requires SafetyInv(s) && s.binary.crash != {s.binary.now} && CouldConfirm(s)
    ensures Leads(StartNow(s), events, end) && !Truthful(end)
  {
    assert s.binary.now in s.binary.crash;
    var x :| x in s.binary.crash && x != s.binary.now;
    var phase := if MayConfirm(StartNow(s), Succeeded) then Succeeded else RolledBack;
    events, end := ConfirmThenLoseBytes(StartNow(s), phase, x);
  }

  /** Between the supervisor's stop and its copy of the target: the process started may die, and the service
      manager's restart then runs from the copy before that is durable. */
  lemma StartBeforeInstallBreaksConfirmation(s: State) returns (events: seq<Event>, end: State)
    requires SafetyInv(s) && Holds(s, ServiceStopped)
    ensures Leads(StartNow(s), events, end) && !Truthful(end)
  {
    var e := s.owner.entry;
    var s1 := StartNow(s).(agent := Down);
    var s2 := CopyTarget(s1, Unsynced);
    var s3 := s2.(agent := Running(Describe(s2.binary.now)));
    assert RecordInv(s, e.(phase := Installing));
    events, end := ConfirmThenLoseBytes(s3, Succeeded, e.original.image);
    Prepend(s2, World(AgentRestarts), events, end);
    events := [World(AgentRestarts)] + events;
    Prepend(s1, Supervise(InstallTarget(Unsynced)), events, end);
    events := [Supervise(InstallTarget(Unsynced))] + events;
    Prepend(StartNow(s), World(AgentDies), events, end);
    events := [World(AgentDies)] + events;
  }

  lemma {:induction false} LongerThanAll(used: set<Operation>) returns (op: Operation)
    ensures forall x :: x in used ==> |x| < |op|
    decreases used
  {
    if used == {} {
      return "";
    }
    var x :| x in used;
    var r := LongerThanAll(used - {x});
    return if |x| < |r| then r else x + "a";
  }

  /** The original is back on disk, its rollback is not confirmed, and a process of the target still runs. */
  predicate StaleTarget(s: State, e: Record) {
    && s.owner == Free && s.launching == map[] && s.agent == Running(e.target)
    && s.binary == Cell(e.original.image, {e.original.image})
    && s.journal.now.Some? && SameBinding(s.journal.now.value, e) && !s.journal.now.value.confirmed
    && s.journal.now.value.phase == RollingBack && e.op in s.launched && e.phase == Staged && !e.confirmed
    && e.target == Describe(e.target.image) && e.original.image != e.target.image
    && UpdateVersions.Ordered(Versions.Newer, e)
  }

  /** The next attempt at the same update is confirmed by that process before anything is installed. */
  lemma StaleTargetConfirmsRetry(s: State, e: Record) returns (events: seq<Event>, end: State)
    requires StaleTarget(s, e)
    ensures Leads(s, events, end) && !Truthful(end)
  {
    var op := LongerThanAll(s.launched + s.backups.Keys + s.waiting);
    var late := if s.now > e.expires + SUPERSEDE_DELAY then s.now else e.expires + SUPERSEDE_DELAY + 1;
    var entry := e.(op := op, phase := Downloading, expires := late + 1);
    var s1 := s.(now := late);
    var s2 := WriteIntent(s1, entry, Synced);
    assert MayStage(s1, entry);
    events, end := StagedRetryIsConfirmed(s2, entry);
    Prepend(s1, Staging(Intent(entry, Synced)), events, end);
    events := [Staging(Intent(entry, Synced))] + events;
    Prepend(s, World(Tick(late)), events, end);
    events := [World(Tick(late))] + events;
  }

  lemma StagedRetryIsConfirmed(s: State, entry: Record) returns (events: seq<Event>, end: State)
    requires s.owner == Stager(entry) && s.launching == map[] && OnlyRecord(s, entry)
    requires s.agent == Running(entry.target) && s.binary == Cell(entry.original.image, {entry.original.image})
    requires entry.op !in s.backups && entry.op !in s.waiting
    requires entry.phase == Downloading && !entry.confirmed && s.now < entry.expires
    requires entry.target == Describe(entry.target.image) && entry.original.image != entry.target.image
    ensures Leads(s, events, end) && !Truthful(end)
  {
    var staged := entry.(phase := Staged);
    var s1 := WriteStaged(s, Synced);
    var s2 := s1.(launching := s1.launching - {entry.op}, waiting := s1.waiting + {entry.op});
    var s3 := TakeOver(s2, entry.op);
    assert OnlyRecord(s3, staged) && s3.owner == Supervisor(staged, Checked, s.now);
    events, end := InstallingRetryIsConfirmed(s3, staged);
    Prepend(s2, Supervise(Check(entry.op)), events, end);
    events := [Supervise(Check(entry.op))] + events;
    Prepend(s1, Staging(LaunchSucceeds(entry.op)), events, end);
    events := [Staging(LaunchSucceeds(entry.op))] + events;
    Prepend(s, Staging(FinishStaging(Synced)), events, end);
    events := [Staging(FinishStaging(Synced))] + events;
  }

  lemma InstallingRetryIsConfirmed(s: State, staged: Record) returns (events: seq<Event>, end: State)
    requires s.owner == Supervisor(staged, Checked, s.now) && OnlyRecord(s, staged) && s.agent == Running(staged.target)
    requires s.binary == Cell(staged.original.image, {staged.original.image}) && staged.op !in s.backups
    requires staged.phase == Staged && !staged.confirmed && staged.original.image != staged.target.image
    ensures Leads(s, events, end) && !Truthful(end)
  {
    var s1 := SaveBackup(s);
    var s2 := Mark(s1, Installing, Synced, DidMark, None);
    assert OnlyRecord(s2, staged.(phase := Installing));
    end := WriteConfirmation(s2, Succeeded, Synced);
    events := [];
    Prepend(s2, Confirm(Succeeded, Synced), events, end);
    events := [Confirm(Succeeded, Synced)] + events;
    Prepend(s1, Supervise(MarkInstalling(Synced)), events, end);
    events := [Supervise(MarkInstalling(Synced))] + events;
    Prepend(s, Supervise(BackUp), events, end);
    events := [Supervise(BackUp)] + events;
  }

  /** Between the stop for a rollback and the copy of the original, while the target is installed. */
  lemma StartBeforeRestoreBreaksConfirmation(s: State) returns (events: seq<Event>, end: State)
    requires SafetyInv(s) && UpdateVersions.Good(Versions.Newer, s)
    requires Holds(s, RollbackStopped) && s.binary.now != s.owner.entry.original.image
    ensures Leads(StartNow(s), events, end) && !Truthful(end)
  {
    var e := s.owner.entry;
    assert JournalAt(s.journal.now, e, RollbackStopped) && RecordInv(s, s.journal.now.value);
    assert Consistent(s.journal.now.value, s.binary.now);
    assert UpdateVersions.RecordAbove(Versions.Newer, UpdateVersions.ViewOf(s), s.journal.now.value);
    var s1 := CopyOriginal(StartNow(s), Synced);
    var s2 := s1.(owner := Free);
    events, end := StaleTargetConfirmsRetry(s2, e);
    Prepend(s1, Supervise(SupervisorExits), events, end);
    events := [Supervise(SupervisorExits)] + events;
    Prepend(StartNow(s), Supervise(RestoreOriginal(Synced)), events, end);
    events := [Supervise(RestoreOriginal(Synced))] + events;
  }

  lemma UnsafeStartBreaksConfirmation(s: State) returns (events: seq<Event>, end: State)
    requires SafetyInv(s) && UpdateVersions.Good(Versions.Newer, s) && !SafeStart(s)
    ensures Leads(StartNow(s), events, end) && !Truthful(end)
  {
    if Holds(s, ServiceStopped) {
      events, end := StartBeforeInstallBreaksConfirmation(s);
    } else if Holds(s, RollbackStopped) && s.binary.now != s.owner.entry.original.image {
      events, end := StartBeforeRestoreBreaksConfirmation(s);
    } else {
      events, end := StartOnUndurableBytesBreaksConfirmation(s);
    }
  }

  lemma SafeStartKeepsTruth(s: State, more: seq<Event>)
    requires SafetyInv(s) && s.agent == Stopped && SafeStart(s) && Possible(StartNow(s), more)
    ensures Truthful(After(StartNow(s), more))
  {
    AgentSafe(s, Running(Describe(s.binary.now)));
    RunIsSafe(StartNow(s), more);
    SafeIsTruthful(After(StartNow(s), more));
  }

  /** Confirmations stay truthful in every continuation. */
  ghost predicate StaysTruthful(s: State) {
    forall more :: Possible(s, more) ==> Truthful(After(s, more))
  }

  lemma HarmlessIffSafe(s: State)
    requires SafetyInv(s) && UpdateVersions.Good(Versions.Newer, s) && s.agent == Stopped
    ensures SafeStart(s) <==> StaysTruthful(StartNow(s))
  {
    if SafeStart(s) {
      forall more | Possible(StartNow(s), more)
        ensures Truthful(After(StartNow(s), more))
      {
        SafeStartKeepsTruth(s, more);
      }
    } else {
      var more, end := UnsafeStartBreaksConfirmation(s);
      assert Possible(StartNow(s), more);
    }
  }

  /** In every reachable state, starting the stopped service keeps confirmations truthful for ever after if
      and only if the start is a safe one. */
  lemma StartIsHarmlessIffSafe(start: State, events: seq<Event>)
    requires Init(start) && Possible(start, events) && After(start, events).agent == Stopped
    ensures SafeStart(After(start, events)) <==> StaysTruthful(StartNow(After(start, events)))
  {
    InitIsSafe(start);
    RunIsSafe(start, events);
    UpdateVersions.RunKeepsVersions(start, events);
    HarmlessIffSafe(After(start, events));
  }
}
