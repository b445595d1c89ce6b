/**
  Who owns each session unit that executions take, over every run of the manager: a Prepare
  call, a prepared entry, a Start call, a run, or a call that is about to release it.
 */
module ExecutionOwnership {
  import opened Basics
  import opened ExecutionJournal
  import opened ExecutionManager

  /** Start calls that still own their unit; after the hand-over the run owns it. */
  function Launchers(m: Manager): set<Id> {
    set id | id in m.launching && m.launching[id].pc != HandedOver
  }

  function Owners(m: Manager): nat {
    m.external + |m.resolving| + |m.prepared| + |Launchers(m)| + |m.runs| + m.releasing
  }

  /** No execution ID stands for two owners at once. */
  predicate OneOwnerEach(m: Manager) {
    && m.resolving !! m.prepared.Keys && m.resolving !! m.launching.Keys && m.resolving !! m.runs.Keys
    && m.prepared.Keys !! m.launching.Keys && m.prepared.Keys !! m.runs.Keys
    && Launchers(m) !! m.runs.Keys
  }

  predicate Accounted(m: Manager) {
    m.budget.used == Owners(m) && !m.budget.maintenance
  }

  predicate Draining(m: Manager) {
    && (m.closer != Open ==> m.prepared == map[])
    && (m.closer.Collected? ==> m.launching == map[] && m.runs.Keys <= m.closer.waitingFor)
    && (m.closer == Done ==> m.launching == map[] && m.runs == map[])
  }

  predicate OwnershipInv(m: Manager) {
    OneOwnerEach(m) && Accounted(m) && Draining(m)
  }

  // ---------------------------------------------------------------- single effects

  lemma MapGains<V>(s: map<Id, V>, id: Id, v: V)
    ensures s[id := v].Keys == s.Keys + {id}
    ensures |s[id := v]| == |s| + (if id in s then 0 else 1)
  {
    assert |s[id := v].Keys| == |s[id := v]| && |s.Keys| == |s|;
    if id in s {
      assert s.Keys + {id} == s.Keys;
    }
  }

  lemma MapLoses<V>(s: map<Id, V>, id: Id)
    ensures (s - {id}).Keys == s.Keys - {id}
    ensures |s - {id}| == |s| - (if id in s then 1 else 0)
  {
    assert |(s - {id}).Keys| == |s - {id}| && |s.Keys| == |s|;
    if id !in s {
      assert s.Keys - {id} == s.Keys;
    }
  }

  lemma DropPreparedKeeps(m: Manager, id: Id)
    requires OwnershipInv(m) && id in m.prepared
    ensures OwnershipInv(DropPrepared(m, id)) && m.budget.used >= 1
  {
    MapLoses(m.prepared, id);
    assert Launchers(DropPrepared(m, id)) == Launchers(m);
  }

  lemma ReplacePreparedKeeps(m: Manager, id: Id, p: Prep)
    requires OwnershipInv(m) && id in m.prepared
    ensures OwnershipInv(m.(prepared := m.prepared[id := p]))
  {
    MapGains(m.prepared, id, p);
    assert Launchers(m.(prepared := m.prepared[id := p])) == Launchers(m);
    assert m.prepared != map[];
  }

  lemma DropLaunchKeeps(m: Manager, id: Id)
    requires OwnershipInv(m) && id in Launchers(m)
    ensures OwnershipInv(DropLaunch(m, id))
  {
    assert Launchers(DropLaunch(m, id)) == Launchers(m) - {id};
  }

  lemma MoveLaunchKeeps(m: Manager, id: Id, pc: LaunchPc)
    requires OwnershipInv(m) && id in Launchers(m) && pc != HandedOver
    ensures OwnershipInv(MoveLaunch(m, id, pc))
  {
    assert Launchers(MoveLaunch(m, id, pc)) == Launchers(m);
  }

  lemma EnterKeeps(m: Manager, id: Id)
    requires OwnershipInv(m) && id !in m.resolving && id !in m.prepared && id !in m.launching && id !in m.runs
    ensures OwnershipInv(PrepareManager(m, Enter(id)))
  {
    assert Launchers(PrepareManager(m, Enter(id))) == Launchers(m);
  }

  lemma InstallKeeps(m: Manager, id: Id, p: Prep)
    requires OwnershipInv(m) && id in m.resolving && !Closed(m)
    ensures OwnershipInv(PrepareManager(m, Install(id, p)))
  {
    MapGains(m.prepared, id, p);
    assert Launchers(PrepareManager(m, Install(id, p))) == Launchers(m);
  }

  lemma FailKeeps(m: Manager, id: Id)
    requires OwnershipInv(m) && id in m.resolving
    ensures OwnershipInv(PrepareManager(m, Fail(id)))
  {
    assert Launchers(PrepareManager(m, Fail(id))) == Launchers(m);
  }

  lemma StartKeeps(s: System, binding: Binding)
    requires OwnershipInv(s.m) && MayStart(s, binding)
    ensures OwnershipInv(LaunchManager(s, Start(binding, true)))
  {
    var m' := LaunchManager(s, Start(binding, true));
    MapLoses(s.m.prepared, binding.id);
    assert Launchers(m') == Launchers(s.m) + {binding.id};
    assert binding.id in s.m.prepared.Keys;
    assert binding.id !in Launchers(s.m);
    assert m'.launching.Keys == s.m.launching.Keys + {binding.id};
  }

  lemma HandOverKeeps(s: System, id: Id)
    requires OwnershipInv(s.m) && AtPc(s.m, id, RunningRecorded)
    ensures OwnershipInv(LaunchManager(s, HandOver(id)))
  {
    var m' := LaunchManager(s, HandOver(id));
    assert id in Launchers(s.m);
    MapGains(s.m.runs, id, Run(s.m.launching[id].prep, false));
    assert Launchers(m') == Launchers(s.m) - {id};
    assert m'.launching.Keys == s.m.launching.Keys;
  }

  lemma ClearLaunchingKeeps(s: System, id: Id)
    requires OwnershipInv(s.m) && AtPc(s.m, id, HandedOver)
    ensures OwnershipInv(LaunchManager(s, ClearLaunching(id)))
  {
    assert Launchers(LaunchManager(s, ClearLaunching(id))) == Launchers(s.m);
  }

  lemma ReportKeeps(s: System, e: LaunchStep)
    requires OwnershipInv(s.m) && e.Report? && LaunchEnabled(s, e)
    ensures OwnershipInv(LaunchManager(s, e))
  {
    MapGains(s.m.runs, e.id, s.m.runs[e.id].(reported := true));
    assert s.m.runs.Keys + {e.id} == s.m.runs.Keys;
    assert Launchers(LaunchManager(s, e)) == Launchers(s.m);
  }

  lemma FinishKeeps(s: System, id: Id)
    requires OwnershipInv(s.m) && id in s.m.runs && s.m.runs[id].reported
    ensures OwnershipInv(LaunchManager(s, Finish(id)))
  {
    MapLoses(s.m.runs, id);
    assert Launchers(LaunchManager(s, Finish(id))) == Launchers(s.m);
  }

  lemma {:induction false} ReleaseEachSubtracts(m: Manager, n: nat)
    requires n <= m.budget.used
    ensures ReleaseEach(m, n) == m.(budget := m.budget.(used := m.budget.used - n))
    decreases n
  {
    if n > 0 {
      ReleaseEachSubtracts(Release(m), n - 1);
    }
  }

  lemma CloseKeeps(s: System, e: WorldStep)
    requires OwnershipInv(s.m) && WorldEnabled(s, e) && (e.CloseBegins? || e.CloseWaited? || e.CloseDone?)
    ensures OwnershipInv(WorldManager(s, e))
  {
    assert Launchers(WorldManager(s, e)) == Launchers(s.m) by {
      if e.CloseBegins? {
        ReleaseEachSubtracts(s.m, |s.m.prepared|);
      }
    }
    match e
    case CloseBegins => ReleaseEachSubtracts(s.m, |s.m.prepared|);
    case CloseWaited =>
    case CloseDone => assert s.m.runs.Keys == {};
  }

  lemma FreshIsOwned(maximum: int)
    ensures OwnershipInv(Fresh(maximum))
  {
    assert Launchers(Fresh(maximum)) == {};
  }

  // -------------------------------------------------------------------- every event

  lemma PrepareOwned(s: System, e: PrepareStep)
    requires OwnershipInv(s.m) && PrepareEnabled(s, e)
    ensures OwnershipInv(PrepareManager(s.m, e))
  {
    match e
    case Enter(id) => EnterKeeps(s.m, id);
    case Install(id, p) => InstallKeeps(s.m, id, p);
    case Fail(id) => FailKeeps(s.m, id);
    case ClearPending(id) => assert Launchers(PrepareManager(s.m, e)) == Launchers(s.m);
  }

  lemma PreparedOwned(m: Manager, e: PreparedStep)
    requires OwnershipInv(m) && (e.Expire? ==> e.id in m.prepared)
    ensures OwnershipInv(PreparedManager(m, e))
    ensures m.budget.used >= PreparedReleases(m, e)
  {
    match e
    case Expire(id) => DropPreparedKeeps(m, id);
    case Cancel(binding) => if Named(m, binding) { DropPreparedKeeps(m, binding.id); }
    case Attach(binding, _) =>
      if Named(m, binding) { ReplacePreparedKeeps(m, binding.id, m.prepared[binding.id].(attached := true)); }
    case ScriptChunk(binding, _, _, data, _) =>
      if Named(m, binding) {
        DropPreparedKeeps(m, binding.id);
        var p := m.prepared[binding.id];
        ReplacePreparedKeeps(m, binding.id, p.(chunks := p.chunks + [data], spool := p.spool + data));
      }
    case ScriptEOF(binding, _, _, _, _) =>
      if Named(m, binding) {
        DropPreparedKeeps(m, binding.id);
        ReplacePreparedKeeps(m, binding.id, m.prepared[binding.id].(complete := true));
      }
  }

  lemma LaunchOwned(s: System, e: LaunchStep)
    requires OwnershipInv(s.m) && LaunchEnabled(s, e)
    ensures OwnershipInv(LaunchManager(s, e))
  {
    match e
    case Start(binding, _) => StartKeeps(s, binding);
    case Abort(id) => DropLaunchKeeps(s.m, id);
    case Claim(id, end) => DropLaunchKeeps(s.m, id); MoveLaunchKeeps(s.m, id, HasClaim);
    case AbortClaimed(id, _, _) => DropLaunchKeeps(s.m, id);
    case ProcessStart(id) => MoveLaunchKeeps(s.m, id, ProcessUp);
    case RecordRunning(id, end) => DropLaunchKeeps(s.m, id); MoveLaunchKeeps(s.m, id, RunningRecorded);
    case HandOver(id) => HandOverKeeps(s, id);
    case ClearLaunching(id) => ClearLaunchingKeeps(s, id);
    case Report(_, _, _) => ReportKeeps(s, e);
    case Finish(id) => FinishKeeps(s, id);
  }

  lemma WorldOwned(s: System, e: WorldStep)
    requires OwnershipInv(s.m) && WorldEnabled(s, e)
    ensures OwnershipInv(WorldManager(s, e))
    ensures s.m.budget.used >= WorldReleases(s.m, e)
  {
    match e
    case Restart(maximum) => FreshIsOwned(maximum);
    case PowerLoss(maximum, _) => FreshIsOwned(maximum);
    case CloseBegins => CloseKeeps(s, e);
    case CloseWaited => CloseKeeps(s, e);
    case CloseDone => CloseKeeps(s, e);
    case _ => assert Launchers(WorldManager(s, e)) == Launchers(s.m);
  }

  /** The calls of `budget.Release` that an event makes. */
  function PreparedReleases(m: Manager, e: PreparedStep): nat {
    match e
    case Expire(_) => 1
    case Cancel(binding) => if Named(m, binding) then 1 else 0
    case Attach(_, _) => 0
    case _ => |Invalidates(m, e)|
  }

  function WorldReleases(m: Manager, e: WorldStep): nat {
    match e
    case ReleaseUnit => 1
    case TerminalCloses => 1
    case CloseBegins => |m.prepared|
    case _ => 0
  }

  function Releases(s: System, e: Event): nat {
    match e
    case Holding(q) => PreparedReleases(s.m, q)
    case Other(w) => WorldReleases(s.m, w)
    case _ => 0
  }

  lemma StepKeepsOwnership(s: System, e: Event)
    requires OwnershipInv(s.m) && Enabled(s, e)
    ensures OwnershipInv(Apply(s, e).m)
    ensures Releases(s, e) <= s.m.budget.used
  {
    match e
    case Preparing(p) => PrepareOwned(s, p);
    case Holding(q) => PreparedOwned(s.m, q);
    case Starting(l) => LaunchOwned(s, l);
    case Other(w) => WorldOwned(s, w);
  }

  lemma {:induction false} RunKeepsOwnership(s: System, events: seq<Event>)
    requires OwnershipInv(s.m) && Possible(s, events)
    ensures OwnershipInv(After(s, events).m)
    decreases |events|
  {
    if events != [] {
      StepKeepsOwnership(s, events[0]);
      RunKeepsOwnership(Apply(s, events[0]), events[1..]);
    }
  }

  // -------------------------------------------------------------------- main results

  /** In every reachable state the budget counts the owners exactly, and no ID has two. */
  lemma BudgetCountsOwners(s: System, events: seq<Event>)
    requires Init(s) && Possible(s, events)
    ensures var m := After(s, events).m; m.budget.used == Owners(m) && OneOwnerEach(m)
  {
    FreshIsOwned(s.m.budget.maximum);
    RunKeepsOwnership(s, events);
  }

  /** No event releases more units than are in use, so the floor at zero never hides a double release. */
  lemma FloorNeverFires(s: System, events: seq<Event>, e: Event)
    requires Init(s) && Possible(s, events) && Enabled(After(s, events), e)
    ensures Releases(After(s, events), e) <= After(s, events).m.budget.used
  {
    FreshIsOwned(s.m.budget.maximum);
    RunKeepsOwnership(s, events);
    StepKeepsOwnership(After(s, events), e);
  }

  /** Once Close has returned nothing is prepared, launching or running. */
  lemma CloseDrains(s: System, events: seq<Event>)
    requires Init(s) && Possible(s, events) && After(s, events).m.closer == Done
    ensures var m := After(s, events).m; m.prepared == map[] && m.launching == map[] && m.runs == map[]
  {
    FreshIsOwned(s.m.budget.maximum);
    RunKeepsOwnership(s, events);
  }
}
