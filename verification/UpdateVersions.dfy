/**
  Installed versions only move forward: the targets of successive confirmed updates
  strictly increase, over every run of the update protocol.

  The order is a parameter here: only that it is strict and that an unstamped image
  (empty version) is above nothing is used. `Versions.Newer` is put in at the end.
 */
module UpdateVersions {
  import opened Basics
  import opened UpdateProtocol
  import opened UpdateSafety
  import Versions

  type Order = (string, string) -> bool

  ghost predicate Strict(newer: Order) {
    && (forall a, b, c {:trigger newer(a, b), newer(b, c)} :: newer(a, b) && newer(b, c) ==> newer(a, c))
    && (forall b :: !newer("", b))
  }

  predicate AtLeast(newer: Order, a: string, b: string) {
    a == b || newer(a, b)
  }

  /** What the argument needs of a state: possible journals and images, confirmed successes, the supervisor. */
  datatype View = View(journals: set<Option<Record>>, images: set<Image>, confirmations: set<(Operation, Phase)>,
                       log: seq<Record>, supervisor: Option<Record>)

  function ViewOf(s: State): View {
    View(s.journal.crash, s.binary.crash, s.confirmations, s.successes,
         if s.owner.Supervisor? then Some(s.owner.entry) else None)
  }

  function Last(v: View): string
    requires v.log != []
  {
    v.log[|v.log| - 1].target.version
  }

  predicate Ordered(newer: Order, r: Record) {
    && newer(r.target.version, r.original.version)
    && (r.original == Describe(r.original.image) || r.original.image.version == "")
  }

  predicate Undecided(v: View, r: Record) {
    Forward(r) && (r.op, Succeeded) !in v.confirmations
  }

  predicate Chain(newer: Order, log: seq<Record>) {
    forall i :: 0 < i < |log| ==> newer(log[i].target.version, log[i - 1].target.version)
  }

  /** The supervisor may still install its target or restore its original. */
  predicate SupervisorAbove(newer: Order, v: View) {
    v.log != [] && v.supervisor.Some? && (v.supervisor.value.op, Succeeded) !in v.confirmations ==>
      && AtLeast(newer, v.supervisor.value.original.image.version, Last(v))
      && newer(v.supervisor.value.target.version, Last(v))
  }

  predicate RecordAbove(newer: Order, v: View, r: Record) {
    Ordered(newer, r) && (v.log != [] && Undecided(v, r) ==> newer(r.target.version, Last(v)))
  }

  /** The last confirmed version bounds everything that is, or may again be, installed. */
  predicate VersionInv(newer: Order, v: View) {
    && Chain(newer, v.log)
    && (v.log != [] ==> Last(v) != "")
    && (v.log != [] ==> forall x :: x in v.images ==> AtLeast(newer, x.version, Last(v)))
    && (forall j :: j in v.journals && j.Some? ==> RecordAbove(newer, v, j.value))
    && (forall j, k :: j in v.journals && k in v.journals && j.Some? && k.Some? ==>
          Undecided(v, j.value) && Undecided(v, k.value) ==> j.value.op == k.value.op)
    && SupervisorAbove(newer, v)
  }

  // ------------------------------------------------------------ changes of the view

  predicate Within(v: View, w: View) {
    && v.journals <= w.journals && v.images <= w.images
    && v.confirmations == w.confirmations && v.log == w.log
    && (v.supervisor == None || v.supervisor == w.supervisor)
  }

  lemma Fewer(newer: Order, v: View, w: View)
    requires VersionInv(newer, w) && Within(v, w)
    ensures VersionInv(newer, v)
  {
  }

  lemma AddIdle(newer: Order, v: View, r: Record)
    requires VersionInv(newer, v) && Ordered(newer, r) && !Forward(r)
    ensures VersionInv(newer, v.(journals := v.journals + {Some(r)}))
  {
  }

  lemma AddForward(newer: Order, v: View, r: Record)
    requires VersionInv(newer, v) && RecordAbove(newer, v, r)
    requires Undecided(v, r) ==> forall j :: j in v.journals && j.Some? && Undecided(v, j.value) ==> j.value.op == r.op
    ensures VersionInv(newer, v.(journals := v.journals + {Some(r)}))
  {
  }

  lemma AddImage(newer: Order, v: View, x: Image)
    requires VersionInv(newer, v) && (v.log != [] && x !in v.images ==> AtLeast(newer, x.version, Last(v)))
    ensures VersionInv(newer, v.(images := v.images + {x}))
  {
  }

  /** A target above the disk is above the last confirmed version. */
  lemma AddSupervisor(newer: Order, v: View, e: Record)
    requires Strict(newer) && VersionInv(newer, v) && Ordered(newer, e) && e.original.image in v.images
    ensures VersionInv(newer, v.(supervisor := Some(e)))
  {
    if v.log != [] {
      assert AtLeast(newer, e.original.image.version, Last(v));
      assert e.original.image.version != "";
      assert newer(e.target.version, e.original.version);
    }
  }

  lemma AddSuccess(newer: Order, v: View, r: Record)
    requires Strict(newer) && VersionInv(newer, v) && Ordered(newer, r) && Some(r) in v.journals && Undecided(v, r)
    requires r.target == Describe(r.target.image) && v.images == {r.target.image}
    requires v.supervisor.Some? ==> v.supervisor.value.op == r.op
    ensures VersionInv(newer, v.(confirmations := v.confirmations + {(r.op, Succeeded)},
                                 log := v.log + [r.(phase := Succeeded, confirmed := true)]))
  {
    var done := r.(phase := Succeeded, confirmed := true);
    var w := v.(confirmations := v.confirmations + {(r.op, Succeeded)}, log := v.log + [done]);
    forall j | j in w.journals && j.Some?
      ensures RecordAbove(newer, w, j.value) && !Undecided(w, j.value)
    {
      assert RecordAbove(newer, v, j.value);
      assert Undecided(v, j.value) ==> j.value.op == r.op;
    }
    assert Chain(newer, w.log) by {
      assert RecordAbove(newer, v, r);
      assert forall i :: 0 <= i < |v.log| ==> w.log[i] == v.log[i];
    }
  }

  // ------------------------------------------------------------------ the events

  predicate Good(newer: Order, s: State) {
    VersionInv(newer, ViewOf(s))
  }

  lemma WorldKeepsVersions(newer: Order, s: State, e: WorldEvent)
    requires SafetyInv(s) && Good(newer, s) && WorldEnabled(s, e)
    ensures Good(newer, Happen(s, e))
  {
    Fewer(newer, ViewOf(Happen(s, e)), ViewOf(s));
  }

  /** A journal write of a record that is not forward, by a process that is no supervisor afterwards. */
  lemma IdleWrite(newer: Order, s: State, t: State, r: Record, w: Write)
    requires Good(newer, s) && Ordered(newer, r) && !Forward(r)
    requires t.journal == s.journal.Replace(Some(r), w) && t.binary == s.binary
    requires t.confirmations == s.confirmations && t.successes == s.successes
    requires t.owner.Supervisor? ==> s.owner.Supervisor? && t.owner.entry == s.owner.entry
    ensures Good(newer, t)
  {
    AddIdle(newer, ViewOf(s), r);
    Fewer(newer, ViewOf(t), ViewOf(s).(journals := s.journal.crash + {Some(r)}));
  }

  lemma CurrentIsOrdered(newer: Order, s: State, e: Record)
    requires SafetyInv(s) && Good(newer, s) && s.journal.now.Some? && SameBinding(s.journal.now.value, e)
    ensures Ordered(newer, e)
  {
    assert RecordAbove(newer, ViewOf(s), s.journal.now.value);
  }

  lemma StagingKeepsVersions(newer: Order, s: State, e: StagingStep)
    requires SafetyInv(s) && Good(newer, s) && StagingEnabled(s, e) && (e.Intent? ==> Ordered(newer, e.entry))
    ensures Good(newer, Work(s, e))
  {
    match e
    case Intent(entry, w) =>
      assert entry.phase == Downloading;
      IdleWrite(newer, s, WriteIntent(s, entry, w), entry, w);
    case FinishStaging(w) =>
      CurrentIsOrdered(newer, s, s.owner.entry);
      IdleWrite(newer, s, WriteStaged(s, w), s.owner.entry.(phase := Staged), w);
    case StagingFails(w) =>
      CurrentIsOrdered(newer, s, s.owner.entry);
      IdleWrite(newer, s, AbandonStaging(s, w), s.owner.entry.(phase := Failed), w);
    case LaunchFails(op, w) =>
      assert OnlyRecord(s, s.launching[op]);
      CurrentIsOrdered(newer, s, s.launching[op]);
      IdleWrite(newer, s, AbandonLaunch(s, op, w), s.launching[op].(phase := Failed), w);
    case LaunchSucceeds(op) =>
    case LauncherDies(op) =>
  }

  /** A transition to a phase that is not forward. */
  lemma IdleTransition(newer: Order, s: State, t: State, op: Operation, phase: Phase, w: Write)
    requires SafetyInv(s) && Good(newer, s)
    requires phase == RollingBack || phase == RolledBack || phase == Failed
    requires t.journal == Transition(s.journal, op, phase, w) && t.binary == s.binary
    requires t.confirmations == s.confirmations && t.successes == s.successes
    requires t.owner.Supervisor? ==> s.owner.Supervisor? && t.owner.entry == s.owner.entry
    ensures Good(newer, t)
  {
    if t.journal == s.journal {
      Fewer(newer, ViewOf(t), ViewOf(s));
    } else {
      CurrentIsOrdered(newer, s, s.journal.now.value);
      IdleWrite(newer, s, t, s.journal.now.value.(phase := phase), w);
    }
  }

  lemma CheckKeepsVersions(newer: Order, s: State, op: Operation)
    requires SafetyInv(s) && Strict(newer) && Good(newer, s) && MayInstall(s, op)
    ensures Good(newer, TakeOver(s, op))
  {
    CurrentIsOrdered(newer, s, s.journal.now.value);
    AddSupervisor(newer, ViewOf(s), s.journal.now.value);
    assert ViewOf(TakeOver(s, op)) == ViewOf(s).(supervisor := s.journal.now);
  }

  /** A forward write by the supervisor: its target is above the last confirmed version. */
  lemma ForwardWrite(newer: Order, s: State, t: State, phase: Phase, w: Write)
    requires SafetyInv(s) && Good(newer, s) && s.owner.Supervisor? && !BackwardPc(s.owner.pc)
    requires phase == Installing || phase == Reconnecting
    requires t.journal == Transition(s.journal, s.owner.entry.op, phase, w) && t.binary == s.binary
    requires t.confirmations == s.confirmations && t.successes == s.successes
    requires t.owner.Supervisor? ==> t.owner.entry == s.owner.entry
    ensures Good(newer, t)
  {
    if t.journal == s.journal {
      Fewer(newer, ViewOf(t), ViewOf(s));
    } else {
      var r := s.journal.now.value.(phase := phase);
      CurrentIsOrdered(newer, s, s.journal.now.value);
      assert SameBinding(s.journal.now.value, s.owner.entry);
      assert forall j :: j in s.journal.crash && j.Some? ==> j.value.op == r.op;
      AddForward(newer, ViewOf(s), r);
      Fewer(newer, ViewOf(t), ViewOf(s).(journals := s.journal.crash + {Some(r)}));
    }
  }

  lemma CopyKeepsVersions(newer: Order, s: State, w: Write)
    requires SafetyInv(s) && Good(newer, s) && Holds(s, ServiceStopped)
    ensures Good(newer, CopyTarget(s, w))
  {
    var x := s.owner.entry.target.image;
    assert x.version == s.owner.entry.target.version;
    assert (s.owner.entry.op, Succeeded) !in s.confirmations;
    AddImage(newer, ViewOf(s), x);
    Fewer(newer, ViewOf(CopyTarget(s, w)), ViewOf(s).(images := s.binary.crash + {x}));
  }

  lemma RestoreKeepsVersions(newer: Order, s: State, w: Write)
    requires SafetyInv(s) && Good(newer, s) && Holds(s, RollbackStopped)
    ensures Good(newer, CopyOriginal(s, w))
  {
    var x := s.owner.entry.original.image;
    assert (s.owner.entry.op, Succeeded) !in s.confirmations;
    AddImage(newer, ViewOf(s), x);
    Fewer(newer, ViewOf(CopyOriginal(s, w)), ViewOf(s).(images := s.binary.crash + {x}));
  }

  lemma SupervisorKeepsVersions(newer: Order, s: State, e: SupervisorStep)
    requires SafetyInv(s) && Strict(newer) && Good(newer, s) && StepEnabled(s, e)
    ensures Good(newer, Act(s, e))
  {
    match e
    case Check(op) => CheckKeepsVersions(newer, s, op);
    case MarkInstalling(w) => ForwardStep(newer, s, e);
    case MarkReconnecting(w) => ForwardStep(newer, s, e);
    case InstallTarget(w) => CopyKeepsVersions(newer, s, w);
    case RestoreOriginal(w) => RestoreKeepsVersions(newer, s, w);
    case BeginRollback(w) => BackwardStep(newer, s, e);
    case MarkRolledBack(w) => BackwardStep(newer, s, e);
    case BackUpFails(created, w) => FailureStep(newer, s, e);
    case Refuse(op, w) => FailureStep(newer, s, e);
    case _ => QuietStep(newer, s, e);
  }

  lemma ForwardStep(newer: Order, s: State, e: SupervisorStep)
    requires SafetyInv(s) && Good(newer, s) && StepEnabled(s, e) && (e.MarkInstalling? || e.MarkReconnecting?)
    ensures Good(newer, Act(s, e))
  {
    ForwardWrite(newer, s, Act(s, e), if e.MarkInstalling? then Installing else Reconnecting, e.w);
  }

  lemma BackwardStep(newer: Order, s: State, e: SupervisorStep)
    requires SafetyInv(s) && Good(newer, s) && StepEnabled(s, e) && (e.BeginRollback? || e.MarkRolledBack?)
    ensures Good(newer, Act(s, e))
  {
    IdleTransition(newer, s, Act(s, e), s.owner.entry.op, if e.BeginRollback? then RollingBack else RolledBack, e.w);
  }

  lemma FailureStep(newer: Order, s: State, e: SupervisorStep)
    requires SafetyInv(s) && Good(newer, s) && StepEnabled(s, e) && (e.BackUpFails? || e.Refuse?)
    ensures Good(newer, Act(s, e))
  {
    if e.BackUpFails? {
      IdleTransition(newer, s, Act(s, e), s.owner.entry.op, Failed, e.w);
    } else if JournalIs(s, e.op, Staged) {
      IdleTransition(newer, s, Act(s, e), e.op, Failed, e.w);
    } else {
      Fewer(newer, ViewOf(Act(s, e)), ViewOf(s));
    }
  }

  lemma QuietStep(newer: Order, s: State, e: SupervisorStep)
    requires SafetyInv(s) && Good(newer, s) && StepEnabled(s, e)
    requires e.WaiterExits? || e.BackUp? || e.StopService? || e.StartService? || e.SeeSuccess? || e.WaitFails?
             || e.StopForRollback? || e.StartOriginal? || e.SupervisorExits?
    ensures Good(newer, Act(s, e))
  {
    QuietWithin(s, e);
    Fewer(newer, ViewOf(Act(s, e)), ViewOf(s));
  }

  lemma QuietWithin(s: State, e: SupervisorStep)
    requires StepEnabled(s, e) && s.binary.now in s.binary.crash
    requires e.WaiterExits? || e.BackUp? || e.StopService? || e.StartService? || e.SeeSuccess? || e.WaitFails?
             || e.StopForRollback? || e.StartOriginal? || e.SupervisorExits?
    ensures Within(ViewOf(Act(s, e)), ViewOf(s))
  {
  }

  /** A confirmed success is durable, and newer than every success before it. */
  lemma SuccessKeepsVersions(newer: Order, s: State, w: Write)
    requires SafetyInv(s) && Strict(newer) && Good(newer, s) && w != NotWritten && MayConfirm(s, Succeeded)
    ensures Good(newer, WriteConfirmation(s, Succeeded, w))
  {
    var r := s.journal.now.value;
    var done := r.(phase := Succeeded, confirmed := true);
    var v, t := ViewOf(s), WriteConfirmation(s, Succeeded, w);
    CurrentIsOrdered(newer, s, r);
    TargetIsInstalled(s, r);
    if (r.op, Succeeded) !in s.confirmations {
      AddSuccess(newer, v, r);
    }
    v := v.(confirmations := t.confirmations, log := t.successes);
    assert VersionInv(newer, v);
    AddForward(newer, v, done);
    Fewer(newer, ViewOf(t), v.(journals := s.journal.crash + {Some(done)}));
  }

  lemma TargetIsInstalled(s: State, r: Record)
    requires SafetyInv(s) && s.journal.now == Some(r) && MayConfirm(s, Succeeded)
    ensures s.binary.crash == {r.target.image} && r.target == Describe(r.target.image)
    ensures s.owner.Supervisor? ==> s.owner.entry.op == r.op
  {
    assert CouldConfirm(s);
  }

  lemma RollbackKeepsVersions(newer: Order, s: State, w: Write)
    requires SafetyInv(s) && Good(newer, s) && w != NotWritten && MayConfirm(s, RolledBack)
    ensures Good(newer, WriteConfirmation(s, RolledBack, w))
  {
    var r := s.journal.now.value;
    var done := r.(phase := RolledBack, confirmed := true);
    var v, t := ViewOf(s), WriteConfirmation(s, RolledBack, w);
    CurrentIsOrdered(newer, s, r);
    RollbackIsNoSuccess(newer, v, r.op);
    v := v.(confirmations := t.confirmations);
    AddIdle(newer, v, done);
    Fewer(newer, ViewOf(t), v.(journals := s.journal.crash + {Some(done)}));
  }

  lemma ConfirmKeepsVersions(newer: Order, s: State, phase: Phase, w: Write)
    requires SafetyInv(s) && Strict(newer) && Good(newer, s) && w != NotWritten && MayConfirm(s, phase)
    ensures Good(newer, WriteConfirmation(s, phase, w))
  {
    if phase == Succeeded {
      SuccessKeepsVersions(newer, s, w);
    } else {
      RollbackKeepsVersions(newer, s, w);
    }
  }

  lemma RollbackIsNoSuccess(newer: Order, v: View, op: Operation)
    requires VersionInv(newer, v)
    ensures VersionInv(newer, v.(confirmations := v.confirmations + {(op, RolledBack)}))
  {
  }

  lemma IntentIsOrdered(s: State, e: StagingStep)
    requires StagingEnabled(s, e) && e.Intent?
    ensures Ordered(Versions.Newer, e.entry)
  {
  }

  lemma NewerIsStrict()
    ensures Strict(Versions.Newer)
  {
    forall a, b, c | Versions.Newer(a, b) && Versions.Newer(b, c)
      ensures Versions.Newer(a, c)
    {
      Versions.NewerIsStrictOrder(a, b, c);
    }
    forall b
      ensures !Versions.Newer("", b)
    {
      if Versions.Newer("", b) {
        Versions.NewerDiffers("", b);
      }
    }
  }

  lemma StepKeepsVersions(newer: Order, s: State, e: Event)
    requires SafetyInv(s) && Strict(newer) && Good(newer, s) && Enabled(s, e)
    requires e.Staging? && e.stage.Intent? ==> Ordered(newer, e.stage.entry)
    ensures Good(newer, Apply(s, e))
  {
    match e
    case World(what) => WorldKeepsVersions(newer, s, what);
    case Staging(stage) => StagingKeepsVersions(newer, s, stage);
    case Supervise(step) => SupervisorKeepsVersions(newer, s, step);
    case Confirm(phase, w) => ConfirmKeepsVersions(newer, s, phase, w);
  }

  lemma {:induction false} RunKeepsVersions(s: State, events: seq<Event>)
    requires SafetyInv(s) && Good(Versions.Newer, s) && Possible(s, events)
    ensures Good(Versions.Newer, After(s, events))
    decreases |events|
  {
    if events != [] {
      NewerIsStrict();
      if events[0].Staging? && events[0].stage.Intent? {
        IntentIsOrdered(s, events[0].stage);
      }
      StepKeepsVersions(Versions.Newer, s, events[0]);
      StepIsSafe(s, events[0]);
      RunKeepsVersions(Apply(s, events[0]), events[1..]);
    }
  }

  lemma {:induction false} ChainOrders(newer: Order, log: seq<Record>, i: nat, k: nat)
    requires Strict(newer) && Chain(newer, log) && i < k < |log|
    ensures newer(log[k].target.version, log[i].target.version)
    decreases k
  {
    assert newer(log[k].target.version, log[k - 1].target.version);
    if i < k - 1 {
      ChainOrders(newer, log, i, k - 1);
    }
  }

  /** Over every run, a later confirmed update installed a strictly newer version than an earlier one. */
  lemma ConfirmedVersionsIncrease(start: State, events: seq<Event>, i: nat, k: nat)
    requires Init(start) && Possible(start, events) && i < k < |After(start, events).successes|
    ensures var log := After(start, events).successes;
            Versions.Newer(log[k].target.version, log[i].target.version)
  {
    InitIsSafe(start);
    RunKeepsVersions(start, events);
    NewerIsStrict();
    ChainOrders(Versions.Newer, After(start, events).successes, i, k);
  }
}
