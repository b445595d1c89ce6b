/**
  What Status answers while an execution is under way, and after the agent was interrupted.
 */
module ExecutionStatus {
  import opened Basics
  import opened ExecutionJournal
  import opened ExecutionManager
  import opened ExecutionOwnership
  import opened ExecutionOnce

  /** The journal's memory holds the ID at `stage`, and no file that a crash may leave has a result. */
  predicate Remembered(j: JournalState, id: Id, stage: Stage) {
    && id in j.records && j.records[id].Whole? && j.records[id].stage == stage
    && forall f :: f in SlotOf(j, id).crash ==> f.Some? && f.value.Whole? && !f.value.stage.Final?
  }

  predicate LaunchRemembered(j: JournalState, id: Id, pc: LaunchPc) {
    match pc
    case HasClaim => Remembered(j, id, Claimed)
    case ProcessUp => Remembered(j, id, Claimed)
    case RunningRecorded => Remembered(j, id, Running)
    case _ => true
  }

  predicate LiveInv(s: System) {
    && (forall id :: id in s.m.launching ==> LaunchRemembered(s.j, id, s.m.launching[id].pc))
    && (forall id :: id in s.m.runs && !s.m.runs[id].reported ==> Remembered(s.j, id, Running))
  }

  /** Nothing about `id` changes. */
  predicate Untouched(j: JournalState, k: JournalState, id: Id) {
    && SlotOf(j, id) == SlotOf(k, id) && (id in j.records <==> id in k.records)
    && (id in j.records ==> j.records[id] == k.records[id])
  }

  lemma ClaimLeavesOthers(j: JournalState, id: Id, b: Binding, end: ClaimEnd)
    requires ClaimPossible(j, id, end)
    ensures forall k :: k != id ==> Untouched(j, ClaimState(j, id, b, end), k)
    ensures end == Durable ==> Remembered(ClaimState(j, id, b, end), id, Claimed)
  {
  }

  lemma UpdateLeavesOthers(j: JournalState, id: Id, stage: Stage, a: Attempt)
    requires UpdatePossible(j, id, a)
    ensures forall k :: k != id ==> Untouched(j, UpdateState(j, id, stage, a), k)
    ensures a.end == Recorded && stage == Running ==> Remembered(UpdateState(j, id, stage, a), id, Running)
  {
  }

  /** A step of one ID that leaves the journal's knowledge of all others alone. */
  lemma OthersStayLive(s: System, t: System, id: Id)
    requires LiveInv(s) && forall k :: k != id ==> Untouched(s.j, t.j, k)
    requires forall k :: k in t.m.launching && k != id ==> k in s.m.launching && t.m.launching[k] == s.m.launching[k]
    requires forall k :: k in t.m.runs && k != id ==> k in s.m.runs && t.m.runs[k] == s.m.runs[k]
    requires id in t.m.launching ==> LaunchRemembered(t.j, id, t.m.launching[id].pc)
    requires id in t.m.runs && !t.m.runs[id].reported ==> Remembered(t.j, id, Running)
    ensures LiveInv(t)
  {
    forall k | k in t.m.launching
      ensures LaunchRemembered(t.j, k, t.m.launching[k].pc)
    {
      if k != id {
        assert LaunchRemembered(s.j, k, s.m.launching[k].pc) && Untouched(s.j, t.j, k);
      }
    }
    forall k | k in t.m.runs && !t.m.runs[k].reported
      ensures Remembered(t.j, k, Running)
    {
      if k != id {
        assert Remembered(s.j, k, Running) && Untouched(s.j, t.j, k);
      }
    }
  }

  lemma ClaimStaysLive(s: System, e: LaunchStep)
    requires LiveInv(s) && OnceInv(s) && e.Claim? && LaunchEnabled(s, e)
    ensures LiveInv(Apply(s, Starting(e)))
  {
    var t := Apply(s, Starting(e));
    ClaimLeavesOthers(s.j, e.id, s.m.launching[e.id].prep.binding, e.end);
    if e.id in s.m.runs {
      assert RunKnown(s, e.id, s.m.runs[e.id].reported) && Consumed(s.j, e.id);
    }
    OthersStayLive(s, t, e.id);
  }

  lemma UpdateStaysLive(s: System, e: LaunchStep)
    requires LiveInv(s) && OnceInv(s) && OwnershipInv(s.m) && LaunchEnabled(s, e)
    requires e.AbortClaimed? || e.RecordRunning? || e.Report?
    ensures LiveInv(Apply(s, Starting(e)))
  {
    var t := Apply(s, Starting(e));
    match e {
      case AbortClaimed(id, outcome, update) =>
        assert LaunchKnown(s, id, HasClaim);
        assert id !in s.m.runs;
        UpdateLeavesOthers(s.j, id, Final(outcome), update);
      case RecordRunning(id, update) =>
        assert id in Launchers(s.m) && id !in s.m.runs;
        UpdateLeavesOthers(s.j, id, Running, update);
      case Report(id, outcome, update) =>
        assert id in s.m.launching ==> id !in Launchers(s.m);
        UpdateLeavesOthers(s.j, id, Final(outcome), update);
    }
    OthersStayLive(s, t, e.id);
  }

  lemma QuietStaysLive(s: System, e: LaunchStep)
    requires LiveInv(s) && LaunchEnabled(s, e)
    requires !e.Claim? && !e.AbortClaimed? && !e.RecordRunning? && !e.Report?
    ensures LiveInv(Apply(s, Starting(e)))
  {
    var t := Apply(s, Starting(e));
    var id := if e.Start? then e.binding.id else e.id;
    assert id in s.m.launching ==> LaunchRemembered(s.j, id, s.m.launching[id].pc);
    OthersStayLive(s, t, id);
  }

  lemma WorldStaysLive(s: System, e: WorldStep)
    requires LiveInv(s) && WorldEnabled(s, e)
    ensures LiveInv(Apply(s, Other(e)))
  {
    if e.CloseBegins? {
      ReleaseEachTouchesBudget(s.m, |s.m.prepared|);
    }
  }

  lemma PreparingStaysLive(s: System, e: PrepareStep)
    requires LiveInv(s) && PrepareEnabled(s, e)
    ensures LiveInv(Apply(s, Preparing(e)))
  {
    assert PrepareManager(s.m, e).launching == s.m.launching && PrepareManager(s.m, e).runs == s.m.runs;
  }

  lemma HoldingStaysLive(s: System, e: PreparedStep)
    requires LiveInv(s) && (e.Expire? ==> e.id in s.m.prepared)
    ensures LiveInv(Apply(s, Holding(e)))
  {
    assert PreparedManager(s.m, e).launching == s.m.launching && PreparedManager(s.m, e).runs == s.m.runs;
  }

  lemma StepStaysLive(s: System, e: Event)
    requires LiveInv(s) && OnceInv(s) && OwnershipInv(s.m) && Enabled(s, e)
    ensures LiveInv(Apply(s, e))
  {
    match e
    case Preparing(p) => PreparingStaysLive(s, p);
    case Holding(q) => HoldingStaysLive(s, q);
    case Other(w) => WorldStaysLive(s, w);
    case Starting(l) =>
      if l.Claim? {
        ClaimStaysLive(s, l);
      } else if l.AbortClaimed? || l.RecordRunning? || l.Report? {
        UpdateStaysLive(s, l);
      } else {
        QuietStaysLive(s, l);
      }
  }

  lemma {:induction false} RunStaysLive(s: System, events: seq<Event>)
    requires LiveInv(s) && OnceInv(s) && OwnershipInv(s.m) && Possible(s, events)
    ensures LiveInv(After(s, events))
    decreases |events|
  {
    if events != [] {
      StepStaysLive(s, events[0]);
      StepKeepsOnce(s, events[0]);
      RunStaysLive(Apply(s, events[0]), events[1..]);
    }
  }

  // -------------------------------------------------------------------- main results

  /** The stage of an execution that is under way: claimed until its running record is written, then running
      until its result is reported. */
  function LiveStage(m: Manager, id: Id): Option<Stage> {
    if AtPc(m, id, HasClaim) || AtPc(m, id, ProcessUp) then Some(Claimed)
    else if AtPc(m, id, RunningRecorded) || (id in m.runs && !m.runs[id].reported) then Some(Running)
    else None
  }

  /** In every reachable state Status answers the stage of an execution that is under way, from memory. */
  lemma LiveStatusIsExact(s: System, events: seq<Event>, id: Id, readable: bool)
    requires Init(s) && Possible(s, events) && LiveStage(After(s, events).m, id).Some?
    ensures var t := After(s, events);
      ManagerStatus(t, id, readable) == Journalled(Known(LiveStage(t.m, id).value))
  {
    InitOnce(s);
    RunStaysLive(s, events);
    var t := After(s, events);
    assert id in t.m.launching ==> LaunchRemembered(t.j, id, t.m.launching[id].pc);
  }

  /** An execution that was under way when the agent was restarted or the power failed answers an unknown outcome. */
  lemma InterruptedIsUnknown(s: System, events: seq<Event>, id: Id, w: WorldStep, readable: bool)
    requires Init(s) && Possible(s, events) && LiveStage(After(s, events).m, id).Some?
    requires (w.Restart? || w.PowerLoss?) && WorldEnabled(After(s, events), w)
    ensures ManagerStatus(Apply(After(s, events), Other(w)), id, readable) == Journalled(Unknown)
  {
    InitOnce(s);
    RunKeepsOnce(s, events);
    RunStaysLive(s, events);
    InterruptionLeavesUnknown(After(s, events), id, w, readable);
  }

  lemma InterruptionLeavesUnknown(t: System, id: Id, w: WorldStep, readable: bool)
    requires Valid(t.j) && LiveInv(t) && LiveStage(t.m, id).Some?
    requires (w.Restart? || w.PowerLoss?) && WorldEnabled(t, w)
    ensures ManagerStatus(Apply(t, Other(w)), id, readable) == Journalled(Unknown)
  {
    assert id in t.m.launching ==> LaunchRemembered(t.j, id, t.m.launching[id].pc);
    SurvivorIsUnknown(t.j, WorldJournal(t.j, w), id, LiveStage(t.m, id).value, readable);
  }

  lemma SurvivorIsUnknown(j: JournalState, k: JournalState, id: Id, stage: Stage, readable: bool)
    requires Valid(j) && Remembered(j, id, stage) && (k == j.(records := map[]) || Survives(j, k))
    ensures Status(k, id, readable) == Unknown
  {
    assert id !in j.files ==> SlotOf(j, id).crash == {None} && None in SlotOf(j, id).crash;
    assert SlotOf(k, id).now in j.files[id].crash;
  }
}
