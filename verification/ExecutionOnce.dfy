/**
  At-most-once process start, over concurrent Starts, restarts on the same journal directory
  and power losses that drop whatever was not synced.
 */
module ExecutionOnce {
  import opened Basics
  import opened ExecutionJournal
  import opened ExecutionManager
  import opened ExecutionOwnership

  /** What the position of a Start call says about its ID. */
  predicate LaunchKnown(s: System, id: Id, pc: LaunchPc) {
    match pc
    case Entered => true
    case HasClaim => Consumed(s.j, id) && id !in s.h.starts && id !in s.h.settled
    case HandedOver => id in s.h.starts
    case _ => id in s.h.starts && id !in s.h.settled
  }

  predicate RunKnown(s: System, id: Id, reported: bool) {
    id in s.h.starts && (!reported ==> id !in s.h.settled)
  }

  predicate StartedOnce(s: System) {
    forall id :: id in s.h.starts ==> s.h.starts[id] == 1 && Consumed(s.j, id)
  }

  predicate ResultsKept(s: System) {
    forall id :: id in s.h.settled ==> Settled(s.j, id, s.h.settled[id])
  }

  predicate OnceInv(s: System) {
    && Valid(s.j) && StartedOnce(s) && ResultsKept(s)
    && (forall id :: id in s.m.launching ==> LaunchKnown(s, id, s.m.launching[id].pc))
    && (forall id :: id in s.m.runs ==> RunKnown(s, id, s.m.runs[id].reported))
  }

  // ------------------------------------------------------------------ journal effects

  /** The journal's knowledge about `id` is the same in both states. */
  predicate SameFor(j: JournalState, k: JournalState, id: Id) {
    && (id in j.files <==> id in k.files) && SlotOf(j, id) == SlotOf(k, id)
    && (id in j.records <==> id in k.records)
  }

  lemma ClaimTouchesOne(j: JournalState, id: Id, b: Binding, end: ClaimEnd)
    requires Valid(j) && ClaimPossible(j, id, end)
    ensures Valid(ClaimState(j, id, b, end))
    ensures forall k :: k != id ==> SameFor(j, ClaimState(j, id, b, end), k)
    ensures Consumed(j, id) ==> ClaimState(j, id, b, end) == j
    ensures end == Durable ==> Consumed(ClaimState(j, id, b, end), id)
  {
  }

  lemma UpdateTouchesOne(j: JournalState, id: Id, stage: Stage, a: Attempt)
    requires Valid(j) && UpdatePossible(j, id, a)
    ensures Valid(UpdateState(j, id, stage, a))
    ensures forall k :: k != id ==> SameFor(j, UpdateState(j, id, stage, a), k)
  {
  }

  lemma UpdateKeepsConsumed(j: JournalState, id: Id, stage: Stage, a: Attempt)
    requires Consumed(j, id) && UpdatePossible(j, id, a)
    ensures Consumed(UpdateState(j, id, stage, a), id)
    ensures a.end == Recorded && stage.Final? ==> Settled(UpdateState(j, id, stage, a), id, stage.outcome)
  {
  }

  lemma SurvivorKeeps(j: JournalState, k: JournalState)
    requires Survives(j, k)
    ensures Valid(k)
    ensures forall id :: Consumed(j, id) ==> Consumed(k, id)
    ensures forall id, o :: Settled(j, id, o) ==> Settled(k, id, o)
  {
    forall id | Consumed(j, id)
      ensures Consumed(k, id)
    {
      assert id in j.files;
    }
    forall id, o | Settled(j, id, o)
      ensures Settled(k, id, o)
    {
      assert SlotOf(k, id).now == j.files[id].now;
    }
  }

  // -------------------------------------------------------------------- every event

  lemma StartOnce(s: System, e: LaunchStep)
    requires OnceInv(s) && e.Start? && LaunchEnabled(s, e)
    ensures OnceInv(Apply(s, Starting(e)))
  {
  }

  lemma DropOnce(s: System, e: LaunchStep)
    requires OnceInv(s) && (e.Abort? || e.ClearLaunching? || e.Finish?) && LaunchEnabled(s, e)
    ensures OnceInv(Apply(s, Starting(e)))
  {
  }

  lemma ClaimOnce(s: System, e: LaunchStep)
    requires OnceInv(s) && e.Claim? && LaunchEnabled(s, e)
    ensures OnceInv(Apply(s, Starting(e)))
  {
    var t := Apply(s, Starting(e));
    ClaimTouchesOne(s.j, e.id, s.m.launching[e.id].prep.binding, e.end);
    if e.id in s.h.settled {
      SettledIsAnswered(s.j, e.id, s.h.settled[e.id], true);
    }
    forall id | id in t.m.launching
      ensures LaunchKnown(t, id, t.m.launching[id].pc)
    {
      assert id != e.id ==> LaunchKnown(s, id, s.m.launching[id].pc) && SameFor(s.j, t.j, id);
    }
    forall id | id in t.h.settled
      ensures Settled(t.j, id, t.h.settled[id])
    {
      assert id != e.id ==> SameFor(s.j, t.j, id);
    }
    forall id | id in t.m.runs
      ensures RunKnown(t, id, t.m.runs[id].reported)
    {
    }
  }

  lemma ProcessStartOnce(s: System, e: LaunchStep)
    requires OnceInv(s) && OwnershipInv(s.m) && e.ProcessStart? && LaunchEnabled(s, e)
    ensures OnceInv(Apply(s, Starting(e)))
  {
    assert LaunchKnown(s, e.id, HasClaim);
  }

  lemma HandOverOnce(s: System, e: LaunchStep)
    requires OnceInv(s) && e.HandOver? && LaunchEnabled(s, e)
    ensures OnceInv(Apply(s, Starting(e)))
  {
    assert LaunchKnown(s, e.id, RunningRecorded);
  }

  /** The journal part common to the three callers of `update`. */
  lemma UpdateOnce(s: System, id: Id, stage: Stage, a: Attempt)
    requires OnceInv(s) && UpdatePossible(s.j, id, a) && Consumed(s.j, id) && id !in s.h.settled
    ensures var j := UpdateState(s.j, id, stage, a);
      && Valid(j) && StartedOnce(s.(j := j)) && ResultsKept(s.(j := j)) && Consumed(j, id)
      && (forall k :: k != id ==> SameFor(s.j, j, k))
      && (a.end == Recorded && stage.Final? ==> Settled(j, id, stage.outcome))
  {
    var j := UpdateState(s.j, id, stage, a);
    UpdateTouchesOne(s.j, id, stage, a);
    UpdateKeepsConsumed(s.j, id, stage, a);
    forall k | k in s.h.settled
      ensures Settled(j, k, s.h.settled[k])
    {
      assert k != id && SameFor(s.j, j, k);
    }
  }

  lemma AbortClaimedOnce(s: System, e: LaunchStep)
    requires OnceInv(s) && e.AbortClaimed? && LaunchEnabled(s, e)
    ensures OnceInv(Apply(s, Starting(e)))
  {
    var t := Apply(s, Starting(e));
    assert LaunchKnown(s, e.id, HasClaim);
    UpdateOnce(s, e.id, Final(e.outcome), e.update);
    forall id | id in t.m.launching
      ensures LaunchKnown(t, id, t.m.launching[id].pc)
    {
      assert LaunchKnown(s, id, s.m.launching[id].pc) && SameFor(s.j, t.j, id);
    }
    forall id | id in t.m.runs
      ensures RunKnown(t, id, t.m.runs[id].reported)
    {
      assert RunKnown(s, id, s.m.runs[id].reported);
    }
  }

  lemma RecordRunningOnce(s: System, e: LaunchStep)
    requires OnceInv(s) && e.RecordRunning? && LaunchEnabled(s, e)
    ensures OnceInv(Apply(s, Starting(e)))
  {
    var t := Apply(s, Starting(e));
    assert LaunchKnown(s, e.id, ProcessUp);
    UpdateOnce(s, e.id, Running, e.update);
    forall id | id in t.m.launching
      ensures LaunchKnown(t, id, t.m.launching[id].pc)
    {
      assert LaunchKnown(s, id, s.m.launching[id].pc);
      assert id != e.id ==> SameFor(s.j, t.j, id);
    }
    forall id | id in t.m.runs
      ensures RunKnown(t, id, t.m.runs[id].reported)
    {
      assert RunKnown(s, id, s.m.runs[id].reported);
    }
  }

  lemma ReportOnce(s: System, e: LaunchStep)
    requires OnceInv(s) && OwnershipInv(s.m) && e.Report? && LaunchEnabled(s, e)
    ensures OnceInv(Apply(s, Starting(e)))
  {
    var t := Apply(s, Starting(e));
    assert RunKnown(s, e.id, false);
    UpdateOnce(s, e.id, Final(e.outcome), e.update);
    assert e.id !in Launchers(s.m);
    forall id | id in t.m.launching
      ensures LaunchKnown(t, id, t.m.launching[id].pc)
    {
      assert LaunchKnown(s, id, s.m.launching[id].pc);
      assert id != e.id ==> SameFor(s.j, t.j, id);
    }
    forall id | id in t.m.runs
      ensures RunKnown(t, id, t.m.runs[id].reported)
    {
      assert RunKnown(s, id, s.m.runs[id].reported);
    }
  }

  lemma WorldOnce(s: System, e: WorldStep)
    requires OnceInv(s) && WorldEnabled(s, e)
    ensures OnceInv(Apply(s, Other(e)))
  {
    match e
    case PowerLoss(_, left) => SurvivorKeeps(s.j, left);
    case CloseBegins =>
      ReleaseEachTouchesBudget(s.m, |s.m.prepared|);
    case _ =>
  }

  lemma LaunchOnce(s: System, e: LaunchStep)
    requires OnceInv(s) && OwnershipInv(s.m) && LaunchEnabled(s, e)
    ensures OnceInv(Apply(s, Starting(e)))
  {
    match e
    case Start(_, _) => StartOnce(s, e);
    case Abort(_) => DropOnce(s, e);
    case Claim(_, _) => ClaimOnce(s, e);
    case AbortClaimed(_, _, _) => AbortClaimedOnce(s, e);
    case ProcessStart(_) => ProcessStartOnce(s, e);
    case RecordRunning(_, _) => RecordRunningOnce(s, e);
    case HandOver(_) => HandOverOnce(s, e);
    case ClearLaunching(_) => DropOnce(s, e);
    case Report(_, _, _) => ReportOnce(s, e);
    case Finish(_) => DropOnce(s, e);
  }

  lemma PreparingOnce(s: System, e: PrepareStep)
    requires OnceInv(s) && PrepareEnabled(s, e)
    ensures OnceInv(Apply(s, Preparing(e)))
  {
    assert PrepareManager(s.m, e).launching == s.m.launching && PrepareManager(s.m, e).runs == s.m.runs;
  }

  lemma HoldingOnce(s: System, e: PreparedStep)
    requires OnceInv(s) && (e.Expire? ==> e.id in s.m.prepared)
    ensures OnceInv(Apply(s, Holding(e)))
  {
    assert PreparedManager(s.m, e).launching == s.m.launching && PreparedManager(s.m, e).runs == s.m.runs;
  }

  /** Neither a start nor a durable result is ever forgotten or changed. */
  predicate HistoryGrows(h: History, k: History) {
    && h.starts <= k.starts
    && (forall id :: id in h.settled ==> id in k.settled && k.settled[id] == h.settled[id])
  }

  lemma HistoryOnlyGrows(s: System, e: Event)
    requires OnceInv(s) && Enabled(s, e)
    ensures HistoryGrows(s.h, Apply(s, e).h)
  {
    if e.Starting? && e.l.AbortClaimed? {
      assert LaunchKnown(s, e.l.id, HasClaim);
    } else if e.Starting? && e.l.Report? {
      assert RunKnown(s, e.l.id, false);
    }
  }

  lemma StepKeepsOnce(s: System, e: Event)
    requires OnceInv(s) && OwnershipInv(s.m) && Enabled(s, e)
    ensures OnceInv(Apply(s, e)) && OwnershipInv(Apply(s, e).m)
    ensures HistoryGrows(s.h, Apply(s, e).h)
  {
    StepKeepsOwnership(s, e);
    HistoryOnlyGrows(s, e);
    match e
    case Preparing(p) => PreparingOnce(s, p);
    case Holding(q) => HoldingOnce(s, q);
    case Starting(l) => LaunchOnce(s, l);
    case Other(w) => WorldOnce(s, w);
  }

  lemma {:induction false} RunKeepsOnce(s: System, events: seq<Event>)
    requires OnceInv(s) && OwnershipInv(s.m) && Possible(s, events)
    ensures OnceInv(After(s, events)) && OwnershipInv(After(s, events).m)
    ensures HistoryGrows(s.h, After(s, events).h)
    decreases |events|
  {
    if events != [] {
      StepKeepsOnce(s, events[0]);
      RunKeepsOnce(Apply(s, events[0]), events[1..]);
    }
  }

  lemma InitOnce(s: System)
    requires Init(s)
    ensures OnceInv(s) && OwnershipInv(s.m)
  {
    FreshIsOwned(s.m.budget.maximum);
  }

  // -------------------------------------------------------------------- main results

  /** The manager's own Status: the journal first, then the prepared entries. */
  datatype Reply = Unheard | Prepared | Journalled(answer: Answer)

  function ManagerStatus(s: System, id: Id, readable: bool): Reply {
    if Status(s.j, id, readable) != NotFound then Journalled(Status(s.j, id, readable))
    else if id in s.m.prepared then Prepared else Unheard
  }

  lemma StartsAtMostOnce(s: System, events: seq<Event>, id: Id)
    requires Init(s) && Possible(s, events)
    ensures After(s, events).h.starts[id] <= 1
  {
    InitOnce(s);
    RunKeepsOnce(s, events);
    if id !in After(s, events).h.starts {
      assert After(s, events).h.starts[id] == 0;
    }
  }

  /** Whatever follows a start, and whether or not the journal file can be read, Status neither forgets the
      execution nor calls it prepared. */
  lemma StartedIsNeverForgotten(s: System, before: seq<Event>, after: seq<Event>, id: Id, readable: bool)
    requires Init(s) && Possible(s, before) && Possible(After(s, before), after)
    requires id in After(s, before).h.starts
    ensures ManagerStatus(After(After(s, before), after), id, readable).Journalled?
  {
    InitOnce(s);
    RunKeepsOnce(s, before);
    RunKeepsOnce(After(s, before), after);
  }

  /** A result recorded durably is what a later Status returns if and only if it can read the file; if it
      cannot, it answers an unknown outcome. */
  lemma DurableResultIsFinal(s: System, before: seq<Event>, after: seq<Event>, id: Id, readable: bool)
    requires Init(s) && Possible(s, before) && Possible(After(s, before), after)
    requires id in After(s, before).h.settled
    ensures ManagerStatus(After(After(s, before), after), id, readable)
         == Journalled(if readable then Known(Final(After(s, before).h.settled[id])) else Unknown)
  {
    InitOnce(s);
    RunKeepsOnce(s, before);
    RunKeepsOnce(After(s, before), after);
    SettledIsAnswered(After(After(s, before), after).j, id, After(s, before).h.settled[id], readable);
  }
}
