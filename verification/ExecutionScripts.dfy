/**
  Protected scripts: what is sealed, what may launch, and what the process is given
  (agent/internal/execution/script.go and the protected input of manager.go).
 */
module ExecutionScripts {
  import opened Basics
  import opened ExecutionJournal
  import opened ExecutionManager
  import opened ExecutionOwnership
  import opened ExecutionOnce

  /** The spool is the accepted chunks; complete means the declared length and digest. */
  predicate Stored(p: Prep) {
    && p.spool == Concat(p.chunks)
    && (p.scripted && p.complete ==> |p.spool| == p.length && p.spool == p.digest)
    && (p.scripted ==> p.enhanced)
  }

  predicate Launchable(p: Prep) {
    Stored(p) && (p.enhanced ==> p.complete)
  }

  predicate ScriptsHeld(m: Manager) {
    && (forall id :: id in m.prepared ==> Stored(m.prepared[id]) && m.prepared[id].binding.id == id)
    && (forall id :: id in m.launching ==> Launchable(m.launching[id].prep) && m.launching[id].prep.binding.id == id)
    && (forall id :: id in m.runs ==> Launchable(m.runs[id].prep) && m.runs[id].prep.binding.id == id)
  }

  /** A binding is in at most one of: still prepared, ended by a bad frame, admitted to Start. */
  predicate BindingsApart(m: Manager, issued: set<Binding>, invalid: set<Binding>, admitted: set<Binding>) {
    && invalid !! admitted && invalid <= issued && admitted <= issued
    && (forall id :: id in m.prepared ==>
          m.prepared[id].binding in issued && m.prepared[id].binding !in invalid && m.prepared[id].binding !in admitted)
    && (forall id :: id in m.launching ==> m.launching[id].prep.binding in admitted)
    && (forall id :: id in m.runs ==> m.runs[id].prep.binding in admitted)
  }

  /** The manager `m` agrees with the bindings of a history. */
  predicate Held(m: Manager, h: History) {
    ScriptsHeld(m) && BindingsApart(m, h.issued, h.invalid, h.admitted)
  }

  predicate ScriptInv(s: System) {
    Held(s.m, s.h)
  }

  lemma PreparingHeld(s: System, e: PrepareStep)
    requires ScriptInv(s) && PrepareEnabled(s, e)
    ensures ScriptInv(Apply(s, Preparing(e)))
  {
  }

  lemma ChunkHeld(s: System, e: PreparedStep)
    requires ScriptInv(s) && e.ScriptChunk?
    ensures ScriptInv(Apply(s, Holding(e)))
  {
    if ChunkAccepted(s.m, e) {
      ConcatSnoc(s.m.prepared[e.binding.id].chunks, e.data);
    }
  }

  lemma EOFHeld(s: System, e: PreparedStep)
    requires ScriptInv(s) && e.ScriptEOF?
    ensures ScriptInv(Apply(s, Holding(e)))
  {
  }

  lemma HoldingHeld(s: System, e: PreparedStep)
    requires ScriptInv(s) && (e.Expire? ==> e.id in s.m.prepared)
    ensures ScriptInv(Apply(s, Holding(e)))
  {
    match e
    case ScriptChunk(_, _, _, _, _) => ChunkHeld(s, e);
    case ScriptEOF(_, _, _, _, _) => EOFHeld(s, e);
    case _ =>
  }

  lemma StartHeld(s: System, e: LaunchStep)
    requires ScriptInv(s) && e.Start? && LaunchEnabled(s, e)
    ensures ScriptInv(Apply(s, Starting(e)))
  {
  }

  lemma MoveHeld(s: System, id: Id, pc: LaunchPc)
    requires ScriptInv(s) && id in s.m.launching
    ensures Held(MoveLaunch(s.m, id, pc), s.h)
    ensures Held(DropLaunch(s.m, id), s.h)
  {
  }

  lemma RunsHeld(s: System, e: LaunchStep)
    requires ScriptInv(s) && (e.HandOver? || e.ClearLaunching? || e.Report? || e.Finish?) && LaunchEnabled(s, e)
    ensures Held(LaunchManager(s, e), s.h)
  {
  }

  /** No step of Start after its admission touches these parts of the history. */
  lemma LaunchKeepsBindings(h: History, e: LaunchStep)
    requires !e.Start?
    ensures var k := LaunchHistory(h, e); k.invalid == h.invalid && k.issued == h.issued && k.admitted == h.admitted
  {
  }

  lemma LaunchManagerHeld(s: System, e: LaunchStep)
    requires ScriptInv(s) && !e.Start? && LaunchEnabled(s, e)
    ensures Held(LaunchManager(s, e), s.h)
  {
    match e
    case Abort(id) => MoveHeld(s, id, Entered);
    case Claim(id, _) => MoveHeld(s, id, HasClaim);
    case AbortClaimed(id, _, _) => MoveHeld(s, id, Entered);
    case ProcessStart(id) => MoveHeld(s, id, ProcessUp);
    case RecordRunning(id, _) => MoveHeld(s, id, RunningRecorded);
    case _ => RunsHeld(s, e);
  }

  lemma LaunchHeld(s: System, e: LaunchStep)
    requires ScriptInv(s) && !e.Start? && LaunchEnabled(s, e)
    ensures ScriptInv(Apply(s, Starting(e)))
  {
    LaunchKeepsBindings(s.h, e);
    LaunchManagerHeld(s, e);
  }

  lemma WorldHeld(s: System, e: WorldStep)
    requires ScriptInv(s) && WorldEnabled(s, e)
    ensures ScriptInv(Apply(s, Other(e)))
  {
    if e.CloseBegins? {
      ReleaseEachTouchesBudget(s.m, |s.m.prepared|);
    }
  }

  lemma StepKeepsScripts(s: System, e: Event)
    requires ScriptInv(s) && Enabled(s, e)
    ensures ScriptInv(Apply(s, e)) && s.h.invalid <= Apply(s, e).h.invalid
  {
    match e
    case Preparing(p) => PreparingHeld(s, p);
    case Holding(q) => HoldingHeld(s, q);
    case Starting(l) => if l.Start? { StartHeld(s, l); } else { LaunchHeld(s, l); }
    case Other(w) => WorldHeld(s, w);
  }

  lemma {:induction false} RunKeepsScripts(s: System, events: seq<Event>)
    requires ScriptInv(s) && Possible(s, events)
    ensures ScriptInv(After(s, events)) && s.h.invalid <= After(s, events).h.invalid
    decreases |events|
  {
    if events != [] {
      StepKeepsScripts(s, events[0]);
      RunKeepsScripts(Apply(s, events[0]), events[1..]);
    }
  }

  /** Every protected script being launched or run is the accepted chunks, at the declared length and digest. */
  lemma LaunchedScriptIsWhole(s: System, events: seq<Event>, p: Prep)
    requires Init(s) && Possible(s, events) && p.scripted
    requires var m := After(s, events).m;
      || (exists id :: id in m.launching && m.launching[id].prep == p)
      || (exists id :: id in m.runs && m.runs[id].prep == p)
    ensures p.spool == Concat(p.chunks) && |p.spool| == p.length && p.spool == p.digest
  {
    RunKeepsScripts(s, events);
  }

  /** After a bad frame its preparation is gone, and no later event prepares or launches it again. */
  lemma BadFrameEndsPreparation(s: System, before: seq<Event>, after: seq<Event>, b: Binding)
    requires Init(s) && Possible(s, before) && Possible(After(s, before), after)
    requires b in After(s, before).h.invalid
    ensures var t := After(After(s, before), after);
      && b !in t.h.admitted && !Named(t.m, b)
      && (forall id :: id in t.m.launching ==> t.m.launching[id].prep.binding != b)
      && (forall id :: id in t.m.runs ==> t.m.runs[id].prep.binding != b)
  {
    RunKeepsScripts(s, before);
    RunKeepsScripts(After(s, before), after);
  }

  // ----------------------------------------------------------------- feeding the process

  const MAX_EMPTY_READS: nat := 100

  datatype ReadError = NoError | EOF | SourceClosed | ReadFailed

  datatype CopyEnd = ReachedEOF | InputFailed | Cancelled | ProcessGone | StdinClosed

  /** What the source returns, read by read. */
  datatype ReadResult = ReadResult(data: Bytes, error: ReadError)

  /** The data of the first `n` reads, each cut to the buffer. */
  function Delivered(source: nat -> ReadResult, n: nat): Bytes {
    if n == 0 then [] else Delivered(source, n - 1) + Cut(source(n - 1).data)
  }

  function Cut(data: Bytes): Bytes {
    if |data| > MAX_FRAME then data[..MAX_FRAME] else data
  }

  /** The source delivers exactly the script: pieces without error, and the end with the last of them. */
  predicate Whole(source: nat -> ReadResult, n: nat, length: nat, digest: Bytes) {
    && (forall i :: 0 <= i < n ==> source(i).error == NoError && source(i).data != [])
    && source(n).error == EOF && Delivered(source, n + 1) == digest && |digest| == length
  }

  lemma {:induction false} DeliveredGrows(source: nat -> ReadResult, i: nat, n: nat)
    requires i <= n
    ensures Delivered(source, i) <= Delivered(source, n)
    decreases n
  {
    if i < n {
      DeliveredGrows(source, i, n - 1);
    }
  }

  /** Copy the sealed spool to the process. The source may return anything, in any pieces, for ever;
      the context, the process and its input pipe may end at any time, except in a `calm` world.
      `given` is what the input pipe took, `read` what the source delivered. */
  method CopyProtectedInput(length: nat, digest: Bytes, source: nat -> ReadResult, calm: bool)
    returns (end: CopyEnd, given: Bytes, ghost read: Bytes)
    ensures given <= read && |given| <= length
    ensures end == ReachedEOF ==> given == read == digest && |given| == length
    ensures |read| > length ==> end == InputFailed || end == Cancelled || end == ProcessGone
    ensures forall n: nat :: calm && Whole(source, n, length, digest) ==> end == ReachedEOF
  {
    given, read := [], [];
    var sum: Bytes := [];
    var count, emptyReads, k := 0, 0, 0;
    while true
      invariant given == read == sum == Delivered(source, k) && count == |sum| <= length && emptyReads < MAX_EMPTY_READS
      invariant forall n: nat :: calm && Whole(source, n, length, digest) ==> k <= n && emptyReads == 0
      decreases length - count, MAX_EMPTY_READS - emptyReads
    {
      var data, error := Cut(source(k).data), source(k).error;
      var cancelled, exited := *, *;
      forall n: nat | calm && Whole(source, n, length, digest)
        ensures |Delivered(source, k + 1)| <= length && (error != NoError ==> k == n) && (k < n ==> data != [])
      {
        DeliveredGrows(source, k + 1, n + 1);
      }
      k := k + 1;
      read := read + data;
      if |data| > 0 {
        emptyReads := 0;
        count := count + |data|;
        sum := sum + data;
      } else if error == NoError {
        emptyReads := emptyReads + 1;
      }
      if !calm && cancelled {
        return Cancelled, given, read;
      }
      if error == SourceClosed && exited {
        return ProcessGone, given, read;
      }
      if error == SourceClosed || error == ReadFailed || count > length || emptyReads >= MAX_EMPTY_READS
         || (error == EOF && (count != length || sum != digest)) {
        return InputFailed, given, read;
      }
      if |data| > 0 {
        var written: nat, broken: bool := *, *;
        if calm || written > |data| {
          written := |data|;
        }
        given := given + data[..written];
        if !calm && broken {
          return StdinClosed, given, read;
        }
        if written != |data| {
          return InputFailed, given, read;
        }
      }
      if error == EOF {
        return ReachedEOF, given, read;
      }
    }
  }
}
