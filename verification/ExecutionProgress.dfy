/**
  What an undisturbed execution achieves: a script uploaded in order completes its preparation, and a
  complete preparation runs to a durable result with every unit given back.
 */
module ExecutionProgress {
  import opened Basics
  import opened ExecutionJournal
  import opened ExecutionManager
  import opened ExecutionOwnership
  import opened ExecutionScripts
  import opened ExecutionOnce

  predicate Leads(s: System, events: seq<Event>, t: System) {
    Possible(s, events) && After(s, events) == t
  }

  lemma Prepend(s: System, e: Event, rest: seq<Event>, t: System)
    requires Enabled(s, e) && Leads(Apply(s, e), rest, t)
    ensures Leads(s, [e] + rest, t)
  {
    assert ([e] + rest)[1..] == rest;
  }

  lemma {:induction false} Concatenate(s: System, first: seq<Event>, middle: System, second: seq<Event>, t: System)
    requires Leads(s, first, middle) && Leads(middle, second, t)
    ensures Leads(s, first + second, t)
    decreases |first|
  {
    if first == [] {
      assert first + second == second;
    } else {
      Concatenate(Apply(s, first[0]), first[1..], middle, second, t);
      Prepend(s, first[0], first[1..] + second, t);
      assert [first[0]] + (first[1..] + second) == first + second;
    }
  }

  // ------------------------------------------------------------------------- uploading

  function WithPrep(s: System, p: Prep): System {
    s.(m := s.m.(prepared := s.m.prepared[p.binding.id := p]))
  }

  function Uploaded(p: Prep, chunks: seq<Bytes>): Prep {
    p.(chunks := p.chunks + chunks, spool := p.spool + Concat(chunks))
  }

  /** The chunk frames of a script, each at its offset. */
  function ChunkFrames(b: Binding, at: nat, chunks: seq<Bytes>): seq<Event> {
    if chunks == [] then [] else
      var front := chunks[..|chunks| - 1];
      ChunkFrames(b, at, front)
      + [Holding(ScriptChunk(b, true, at + |Concat(front)|, chunks[|chunks| - 1], true))]
  }

  /** An attached preparation that waits for its script. */
  predicate Waits(s: System, p: Prep) {
    && !Closed(s.m) && Named(s.m, p.binding) && s.m.prepared[p.binding.id] == p
    && p.attached && p.enhanced && p.scripted && !p.complete
  }

  /** Chunks sent in order, each bounded and together no longer than declared, are all accepted. */
  lemma {:induction false} ChunksAreStored(s: System, p: Prep, chunks: seq<Bytes>)
    requires Waits(s, p) && forall i :: 0 <= i < |chunks| ==> 0 < |chunks[i]| <= MAX_FRAME
    requires |p.spool| + |Concat(chunks)| <= p.length
    ensures Leads(s, ChunkFrames(p.binding, |p.spool|, chunks), WithPrep(s, Uploaded(p, chunks)))
    decreases |chunks|
  {
    if chunks == [] {
      assert Uploaded(p, chunks) == p && s.m.prepared[p.binding.id := p] == s.m.prepared;
    } else {
      var front, last := chunks[..|chunks| - 1], chunks[|chunks| - 1];
      ChunksAreStored(s, p, front);
      var q := Uploaded(p, front);
      var middle := WithPrep(s, q);
      var e := Holding(ScriptChunk(p.binding, true, |q.spool|, last, true));
      ChunkIsStored(middle, q, last);
      UploadedInTurn(s, p, front, last);
      assert chunks == front + [last];
      Prepend(middle, e, [], WithPrep(s, Uploaded(p, chunks)));
      Concatenate(s, ChunkFrames(p.binding, |p.spool|, front), middle, [e], WithPrep(s, Uploaded(p, chunks)));
    }
  }

  lemma UploadedInTurn(s: System, p: Prep, front: seq<Bytes>, last: Bytes)
    ensures var q := Uploaded(p, front);
      WithPrep(WithPrep(s, q), Uploaded(q, [last])) == WithPrep(s, Uploaded(p, front + [last]))
  {
    ConcatSnoc(front, last);
    ConcatSnoc([], last);
    assert [] + [last] == [last];
    assert p.chunks + front + [last] == p.chunks + (front + [last]);
    assert p.spool + Concat(front) + last == p.spool + (Concat(front) + last);
    var q, r := Uploaded(p, front), Uploaded(p, front + [last]);
    assert Uploaded(q, [last]) == r;
    assert s.m.prepared[p.binding.id := q][p.binding.id := r] == s.m.prepared[p.binding.id := r];
  }

  lemma ChunkIsStored(s: System, p: Prep, data: Bytes)
    requires Waits(s, p) && 0 < |data| <= MAX_FRAME && |p.spool| + |data| <= p.length
    ensures Apply(s, Holding(ScriptChunk(p.binding, true, |p.spool|, data, true))) == WithPrep(s, Uploaded(p, [data]))
  {
    assert Concat([data]) == data by { assert [data][..0] == []; }
  }

  /** A script sent in order, in any pieces, and then ended, completes its preparation with exactly its bytes. */
  lemma ScriptIsUploaded(s: System, p: Prep, chunks: seq<Bytes>) returns (events: seq<Event>, t: System)
    requires Waits(s, p) && p.spool == [] && Concat(chunks) == p.digest && |p.digest| == p.length
    requires forall i :: 0 <= i < |chunks| ==> 0 < |chunks[i]| <= MAX_FRAME
    ensures events == ChunkFrames(p.binding, 0, chunks)
                      + [Holding(ScriptEOF(p.binding, true, p.length, p.digest, true))]
    ensures Leads(s, events, t) && t == WithPrep(s, Uploaded(p, chunks).(complete := true))
    ensures t.m.prepared[p.binding.id].spool == p.digest
  {
    ChunksAreStored(s, p, chunks);
    var q := Uploaded(p, chunks);
    var middle := WithPrep(s, q);
    var e := Holding(ScriptEOF(p.binding, true, p.length, p.digest, true));
    t := WithPrep(s, q.(complete := true));
    assert Apply(middle, e) == t;
    Prepend(middle, e, [], t);
    Concatenate(s, ChunkFrames(p.binding, 0, chunks), middle, [e], t);
    events := ChunkFrames(p.binding, 0, chunks) + [e];
  }

  // ------------------------------------------------------------------------- preparing

  const DONE: Attempt := Attempt(true, Recorded)

  /** An ID that nothing holds and the journal does not know. */
  predicate Unused(s: System, id: Id) {
    && id !in s.m.resolving && id !in s.m.cleaning && id !in s.m.prepared && id !in s.m.launching && id !in s.m.runs
    && id !in s.j.records && SlotOf(s.j, id).now.None? && id !in s.h.starts
  }

  function PrepareSteps(p: Prep): seq<Event> {
    [Preparing(Enter(p.binding.id)), Preparing(Install(p.binding.id, p)), Preparing(ClearPending(p.binding.id))]
  }

  /** Preparing an unused ID within the budget takes one unit and installs the preparation. */
  lemma PreparationIsInstalled(s: System, p: Prep) returns (t: System)
    requires Unused(s, p.binding.id) && !Closed(s.m) && s.m.budget.CanAcquire()
    requires NewPrep(p) && p.binding !in s.h.issued
    ensures Leads(s, PrepareSteps(p), t) && t.j == s.j && t.h == s.h.(issued := s.h.issued + {p.binding})
    ensures t.m == Acquire(s.m).(prepared := s.m.prepared[p.binding.id := p])
  {
    var e := PrepareSteps(p);
    var s1 := Apply(s, e[0]);
    var s2 := Apply(s1, e[1]);
    t := Apply(s2, e[2]);
    assert s.m.resolving + {p.binding.id} - {p.binding.id} == s.m.resolving;
    assert s.m.cleaning + {p.binding.id} - {p.binding.id} == s.m.cleaning;
    Prepend(s2, e[2], [], t);
    Prepend(s1, e[1], e[2..], t);
    Prepend(s, e[0], e[1..], t);
  }

  // ------------------------------------------------------------------------- running

  function LaunchSteps(b: Binding): seq<Event> {
    [Starting(Start(b, true)), Starting(Claim(b.id, Durable)), Starting(ProcessStart(b.id))]
  }

  function RecordSteps(id: Id): seq<Event> {
    [Starting(RecordRunning(id, DONE)), Starting(HandOver(id)), Starting(ClearLaunching(id))]
  }

  function StartSteps(b: Binding): seq<Event> {
    LaunchSteps(b) + RecordSteps(b.id)
  }

  /** A complete preparation of an unclaimed ID. */
  predicate Startable(s: System, p: Prep) {
    && !Closed(s.m) && Named(s.m, p.binding) && s.m.prepared[p.binding.id] == p && (p.enhanced ==> p.complete)
    && p.binding.id !in s.j.records && SlotOf(s.j, p.binding.id).now.None?
    && p.binding.id !in s.m.launching && p.binding.id !in s.m.runs && p.binding.id !in s.h.starts
  }

  /** It is claimed durably and its process started, exactly once. */
  lemma PreparationStarts(s: System, p: Prep) returns (t: System)
    requires Startable(s, p)
    ensures Leads(s, LaunchSteps(p.binding), t) && t.h.starts == s.h.starts + multiset{p.binding.id}
    ensures t.m == s.m.(prepared := s.m.prepared - {p.binding.id},
                        launching := s.m.launching[p.binding.id := Launch(p, ProcessUp)])
    ensures Consumed(t.j, p.binding.id) && t.h.settled == s.h.settled
  {
    var e := LaunchSteps(p.binding);
    var s1 := Apply(s, e[0]);
    var s2 := Apply(s1, e[1]);
    t := Apply(s2, e[2]);
    Prepend(s2, e[2], [], t);
    Prepend(s1, e[1], e[2..], t);
    Prepend(s, e[0], e[1..], t);
  }

  /** Its running record is written and its unit goes to the run. */
  lemma StartIsHandedOver(s: System, id: Id) returns (t: System)
    requires AtPc(s.m, id, ProcessUp) && Consumed(s.j, id)
    ensures Leads(s, RecordSteps(id), t) && t.h == s.h
    ensures t.m == s.m.(launching := s.m.launching - {id}, runs := s.m.runs[id := Run(s.m.launching[id].prep, false)])
    ensures Status(t.j, id, true) == Known(Running) && Consumed(t.j, id)
  {
    var e := RecordSteps(id);
    var s1 := Apply(s, e[0]);
    var s2 := Apply(s1, e[1]);
    t := Apply(s2, e[2]);
    assert s2.m.launching - {id} == s.m.launching - {id};
    Prepend(s2, e[2], [], t);
    Prepend(s1, e[1], e[2..], t);
    Prepend(s, e[0], e[1..], t);
  }

  lemma PreparationRuns(s: System, p: Prep) returns (t: System)
    requires Startable(s, p)
    ensures Leads(s, StartSteps(p.binding), t)
    ensures t.m == s.m.(prepared := s.m.prepared - {p.binding.id}, runs := s.m.runs[p.binding.id := Run(p, false)])
    ensures Status(t.j, p.binding.id, true) == Known(Running) && Consumed(t.j, p.binding.id)
    ensures t.h.starts == s.h.starts + multiset{p.binding.id} && t.h.settled == s.h.settled
  {
    var id := p.binding.id;
    var middle := PreparationStarts(s, p);
    t := StartIsHandedOver(middle, id);
    assert s.m.launching[id := Launch(p, ProcessUp)] - {id} == s.m.launching;
    Concatenate(s, LaunchSteps(p.binding), middle, RecordSteps(id), t);
  }

  function FinishSteps(id: Id, outcome: Outcome): seq<Event> {
    [Starting(Report(id, outcome, DONE)), Starting(Finish(id)), Other(ReleaseUnit)]
  }

  /** A run that ends has its result recorded, answered by Status, and its unit given back. */
  lemma RunFinishes(s: System, id: Id, outcome: Outcome) returns (t: System)
    requires id in s.m.runs && !s.m.runs[id].reported && Consumed(s.j, id) && s.m.budget.used > 0
    ensures Leads(s, FinishSteps(id, outcome), t)
    ensures t.m == s.m.(runs := s.m.runs - {id}, budget := s.m.budget.(used := s.m.budget.used - 1))
    ensures Settled(t.j, id, outcome) && Status(t.j, id, true) == Known(Final(outcome))
    ensures t.h == s.h.(settled := s.h.settled[id := outcome])
  {
    var e := FinishSteps(id, outcome);
    var s1 := Apply(s, e[0]);
    var s2 := Apply(s1, e[1]);
    t := Apply(s2, e[2]);
    assert s1.m.runs - {id} == s.m.runs - {id};
    Prepend(s2, e[2], [], t);
    Prepend(s1, e[1], e[2..], t);
    Prepend(s, e[0], e[1..], t);
  }

  /** Any unused ID, prepared without a script, can run to any outcome: one start, the result durable and
      answered, and the manager exactly as it was. */
  lemma ExecutionCompletes(s: System, p: Prep, outcome: Outcome) returns (events: seq<Event>, t: System)
    requires Unused(s, p.binding.id) && !Closed(s.m) && s.m.budget.CanAcquire()
    requires NewPrep(p) && !p.scripted && p.binding !in s.h.issued
    ensures events == PrepareSteps(p) + StartSteps(p.binding) + FinishSteps(p.binding.id, outcome)
    ensures Leads(s, events, t) && t.m == s.m && t.h.starts == s.h.starts + multiset{p.binding.id}
    ensures ManagerStatus(t, p.binding.id, true) == Journalled(Known(Final(outcome)))
  {
    var id := p.binding.id;
    var s1 := PreparationIsInstalled(s, p);
    var s2 := PreparationRuns(s1, p);
    t := RunFinishes(s2, id, outcome);
    assert s.m.prepared[id := p] - {id} == s.m.prepared && s.m.runs[id := Run(p, false)] - {id} == s.m.runs;
    Concatenate(s, PrepareSteps(p), s1, StartSteps(p.binding), s2);
    Concatenate(s, PrepareSteps(p) + StartSteps(p.binding), s2, FinishSteps(id, outcome), t);
    events := PrepareSteps(p) + StartSteps(p.binding) + FinishSteps(id, outcome);
  }

  /** A preparation with a protected script, attached and uploaded in any pieces, is ready to start. */
  lemma ScriptIsPrepared(s: System, p: Prep, chunks: seq<Bytes>) returns (events: seq<Event>, t: System, q: Prep)
    requires Unused(s, p.binding.id) && !Closed(s.m) && s.m.budget.CanAcquire()
    requires NewPrep(p) && p.scripted && p.binding !in s.h.issued
    requires Concat(chunks) == p.digest && |p.digest| == p.length
    requires forall i :: 0 <= i < |chunks| ==> 0 < |chunks[i]| <= MAX_FRAME
    ensures Leads(s, events, t) && t.j == s.j && t.h == s.h.(issued := s.h.issued + {p.binding})
    ensures t.m == Acquire(s.m).(prepared := s.m.prepared[p.binding.id := q])
    ensures q.binding == p.binding && q.complete && q.spool == p.digest
  {
    var s1 := PreparationIsInstalled(s, p);
    var attach := [Holding(Attach(p.binding, true))];
    var attached := p.(attached := true);
    var s2 := WithPrep(s1, attached);
    assert Apply(s1, attach[0]) == s2;
    Prepend(s1, attach[0], [], s2);
    var upload;
    upload, t := ScriptIsUploaded(s2, attached, chunks);
    q := t.m.prepared[p.binding.id];
    Concatenate(s, PrepareSteps(p), s1, attach, s2);
    Concatenate(s, PrepareSteps(p) + attach, s2, upload, t);
    events := PrepareSteps(p) + attach + upload;
  }

  /** It runs to any outcome: one start, the result durable and answered, and the manager exactly as it was. */
  lemma ScriptCompletes(s: System, p: Prep, chunks: seq<Bytes>, outcome: Outcome)
    returns (events: seq<Event>, t: System)
    requires Unused(s, p.binding.id) && !Closed(s.m) && s.m.budget.CanAcquire()
    requires NewPrep(p) && p.scripted && p.binding !in s.h.issued
    requires Concat(chunks) == p.digest && |p.digest| == p.length
    requires forall i :: 0 <= i < |chunks| ==> 0 < |chunks[i]| <= MAX_FRAME
    ensures Leads(s, events, t) && t.m == s.m && t.h.starts == s.h.starts + multiset{p.binding.id}
    ensures ManagerStatus(t, p.binding.id, true) == Journalled(Known(Final(outcome)))
  {
    var id := p.binding.id;
    var prepare, s1, q := ScriptIsPrepared(s, p, chunks);
    var s2 := PreparationRuns(s1, q);
    t := RunFinishes(s2, id, outcome);
    assert s.m.prepared[id := q] - {id} == s.m.prepared && s.m.runs[id := Run(q, false)] - {id} == s.m.runs;
    Concatenate(s, prepare, s1, StartSteps(p.binding), s2);
    Concatenate(s, prepare + StartSteps(p.binding), s2, FinishSteps(id, outcome), t);
    events := prepare + StartSteps(p.binding) + FinishSteps(id, outcome);
  }

  // -------------------------------------------------------------------------- giving up

  /** A call that ends its execution: by failing before or in its claim, before or after its process start, or
      by finishing its run. */
  predicate Ends(e: Event, id: Id) {
    || e == Preparing(Fail(id))
    || (e.Starting? && !e.l.Start? && e.l.id == id
        && match e.l
           case Abort(_) => true
           case AbortClaimed(_, _, _) => true
           case Claim(_, end) => end != Durable
           case RecordRunning(_, update) => update.end != Recorded
           case Finish(_) => true
           case _ => false)
  }

  /** However it ends, its entry is gone, no other entry is touched, and releasing gives exactly one unit back. */
  lemma EveryEndReturnsOneUnit(s: System, e: Event, id: Id)
    requires OwnershipInv(s.m) && Enabled(s, e) && Ends(e, id)
    ensures var t := Apply(s, e);
      && id !in t.m.resolving && id !in Launchers(t.m) && (e == Starting(Finish(id)) ==> id !in t.m.runs)
      && t.m.resolving >= s.m.resolving - {id} && t.m.launching.Keys >= s.m.launching.Keys - {id}
      && t.m.runs.Keys >= s.m.runs.Keys - {id} && t.m.prepared == s.m.prepared
      && Enabled(t, Other(ReleaseUnit)) && s.m.budget.used > 0
      && Apply(t, Other(ReleaseUnit)).m.budget.used == s.m.budget.used - 1
  {
    if e.Preparing? {
      assert id in s.m.resolving && |s.m.resolving| > 0;
    } else if e.l.Finish? {
      assert |s.m.runs| > 0;
    } else {
      assert id in Launchers(s.m) && |Launchers(s.m)| > 0;
    }
  }

  const CLOSE: seq<Event> := [Other(CloseBegins), Other(CloseWaited), Other(CloseDone)]

  /** With no Start call and no run left, Close returns, with one unit given back per prepared entry. */
  lemma CloseReturns(s: System) returns (t: System)
    requires OwnershipInv(s.m) && s.m.closer == Open && s.m.launching == map[] && s.m.runs == map[]
    ensures Leads(s, CLOSE, t) && t.m.closer == Done && t.m.prepared == map[]
    ensures |s.m.prepared| <= s.m.budget.used && t.m.budget.used == s.m.budget.used - |s.m.prepared|
  {
    ReleaseEachSubtracts(s.m, |s.m.prepared|);
    var s1 := Apply(s, CLOSE[0]);
    var s2 := Apply(s1, CLOSE[1]);
    t := Apply(s2, CLOSE[2]);
    Prepend(s2, CLOSE[2], [], t);
    Prepend(s1, CLOSE[1], CLOSE[2..], t);
    Prepend(s, CLOSE[0], CLOSE[1..], t);
  }
}
