/**
  What every run of the tunnel keeps: the bytes read are a prefix of the bytes written, an end
  of file means all of them, and no frame of the peer is ever rejected.
 */
module TunnelSafety {
  import opened Basics
  import opened Tunnel

  function Data(frames: seq<Frame>): Bytes {
    if frames == [] then [] else Data(frames[..|frames| - 1]) + frames[|frames| - 1].data
  }

  predicate Shaped(f: Frame, sequence: nat) {
    f.sequence == sequence && |f.data| <= MAX_FRAME && (f.eof <==> |f.data| == 0)
  }

  predicate NoEOF(frames: seq<Frame>) {
    forall i :: 0 <= i < |frames| ==> !frames[i].eof
  }

  /** Frames in transmission order: numbered from zero, an end of file only at the end. */
  predicate Ordered(sent: seq<Frame>) {
    && (forall i :: 0 <= i < |sent| ==> Shaped(sent[i], i))
    && (forall i :: 0 <= i < |sent| - 1 ==> !sent[i].eof)
  }

  predicate EndsInEOF(sent: seq<Frame>) {
    sent != [] && sent[|sent| - 1].eof
  }

  /** The sender goroutine will transmit no further frame. */
  predicate Stopped(a: Source) {
    a.done || a.pc.Failed? || a.pc.Exited?
  }

  predicate NothingInFlight(a: Source) {
    a.outgoing.None? && !a.pc.Took? && !a.pc.Sending?
  }

  /** Only `r` is on its way to the transport, if anything is. */
  predicate OnlyInFlight(a: Source, r: Request) {
    && (a.outgoing.Some? ==> a.outgoing.value == r && !a.pc.Took? && !a.pc.Sending?)
    && (a.pc.Took? ==> a.pc.request == r) && (a.pc.Sending? ==> a.pc.request == r)
  }

  /** `f` is the frame that comes after everything sent. */
  predicate IsNext(h: History, f: Frame) {
    && Shaped(f, |h.sent|) && NoEOF(h.sent) && Data(h.sent) + f.data == h.written && (f.eof ==> h.finished)
  }

  predicate IdsBelow(a: Source) {
    && (forall id :: id in a.replies ==> id < a.nextId)
    && (!a.writer.Idle? ==> a.writer.request.id < a.nextId)
    && (a.outgoing.Some? ==> a.outgoing.value.id < a.nextId)
    && (a.pc.Took? ==> a.pc.request.id < a.nextId) && (a.pc.Sending? ==> a.pc.request.id < a.nextId)
  }

  /** No Write has failed yet. */
  predicate Healthy(a: Source, h: History) {
    match a.writer
    case Idle =>
      && |h.sent| == a.sendSequence && Data(h.sent) == h.written && NothingInFlight(a)
      && a.writeEOF == EndsInEOF(h.sent) && h.finished == a.writeEOF
    case Offering(r, rest) =>
      && |h.sent| == a.sendSequence && IsNext(h, r.frame) && NothingInFlight(a) && r.id !in a.replies && !a.writeEOF
      && h.finished == r.frame.eof && (r.frame.eof ==> rest == [])
    case Awaiting(r, rest) =>
      && !a.writeEOF && h.finished == r.frame.eof && (r.frame.eof ==> rest == [])
      && if |h.sent| == a.sendSequence then
           && IsNext(h, r.frame) && OnlyInFlight(a, r)
           && (r.id in a.replies ==> NothingInFlight(a) && !a.replies[r.id] && Stopped(a))
         else
           && |h.sent| == a.sendSequence + 1 && h.sent[a.sendSequence] == r.frame && Data(h.sent) == h.written
           && NothingInFlight(a) && r.id in a.replies && (!a.replies[r.id] ==> Stopped(a))
  }

  /** Some Write has failed: nothing new reaches the transport. */
  predicate Broken(a: Source, h: History) {
    && Stopped(a) && a.sendSequence <= |h.sent|
    && (if a.pc.Sending? then IsNext(h, a.pc.request.frame) else Data(h.sent) <= h.written)
    && (!a.writer.Idle? && a.writer.request.id in a.replies ==> !a.replies[a.writer.request.id])
    && (!a.writer.Idle? && a.pc.Sending? ==> a.pc.request.id != a.writer.request.id)
  }

  predicate SourceInv(a: Source, h: History) {
    && Ordered(h.sent) && IdsBelow(a)
    && a.sendSequence <= |h.sent| && Data(h.sent[..a.sendSequence]) == h.confirmed
    && (EndsInEOF(h.sent) ==> h.finished && Data(h.sent) == h.written)
    && (if h.broken then Broken(a, h) else Healthy(a, h))
  }

  predicate TargetInv(wire: seq<Frame>, b: Target, sent: seq<Frame>, got: Reading) {
    var waiting := if b.delivering.Some? then 1 else 0;
    var arrived := |sent| - |wire|;
    && b.receiveSequence + waiting <= arrived && wire == sent[arrived..]
    && (!b.done ==> b.receiveSequence + waiting == arrived)
    && (b.delivering.Some? ==> b.delivering.value == sent[b.receiveSequence])
    && b.receiveEOF == EndsInEOF(sent[..b.receiveSequence])
    && (b.incoming.Some? ==> b.receiveSequence > 0 && b.incoming.value == sent[b.receiveSequence - 1])
    && got.read + b.readData + (if b.incoming.Some? then b.incoming.value.data else [])
       == Data(sent[..b.receiveSequence])
    && (b.readEOF ==> b.incoming.None? && b.receiveEOF && b.readData == [])
    && (got.sawEOF ==> b.readEOF)
  }

  predicate Inv(s: State) {
    SourceInv(s.a, s.h) && TargetInv(s.wire, s.b, s.h.sent, s.got)
  }

  // ----------------------------------------------------------------------------- data

  lemma DataSnoc(frames: seq<Frame>, f: Frame)
    ensures Data(frames + [f]) == Data(frames) + f.data
  {
    assert (frames + [f])[..|frames|] == frames;
  }

  lemma {:induction false} DataPrefix(frames: seq<Frame>, k: nat)
    requires k <= |frames|
    ensures Data(frames[..k]) <= Data(frames)
    decreases |frames|
  {
    if k < |frames| {
      var front := frames[..|frames| - 1];
      assert front[..k] == frames[..k];
      DataPrefix(front, k);
    } else {
      assert frames[..k] == frames;
    }
  }

  // -------------------------------------------------------------------------- the writer

  lemma OfferKeeps(a: Source, h: History, data: Bytes, eof: bool)
    requires SourceInv(a, h) && a.writer.Idle? && !a.writeEOF && (eof <==> data == [])
    ensures SourceInv(Offer(a, data, eof), Offered(h, data, eof))
  {
    if !h.broken {
      var f := Offer(a, data, eof).writer.request.frame;
      assert Ordered(h.sent) && !EndsInEOF(h.sent);
      assert NoEOF(h.sent);
      assert IsNext(Offered(h, data, eof), f);
    } else {
      assert a.nextId !in a.replies;
    }
  }

  lemma RepliedKeeps(s: State)
    requires SourceInv(s.a, s.h) && WriteEnabled(s, TakeReply)
    ensures SourceInv(Replied(s).a, Replied(s).h)
  {
    var r, rest := s.a.writer.request, s.a.writer.rest;
    if s.a.replies[r.id] {
      var a := s.a.(sendSequence := s.a.sendSequence + 1, writer := Idle, writeEOF := r.frame.eof);
      var h := s.h.(confirmed := s.h.confirmed + r.frame.data);
      ConfirmKeeps(s, a, h);
      if rest != [] {
        OfferKeeps(a, h, rest, false);
      }
    }
  }

  lemma ConfirmKeeps(s: State, a: Source, h: History)
    requires SourceInv(s.a, s.h) && WriteEnabled(s, TakeReply) && s.a.replies[s.a.writer.request.id]
    requires a == s.a.(sendSequence := s.a.sendSequence + 1, writer := Idle, writeEOF := s.a.writer.request.frame.eof)
    requires h == s.h.(confirmed := s.h.confirmed + s.a.writer.request.frame.data)
    ensures SourceInv(a, h) && (s.a.writer.rest != [] ==> !a.writeEOF)
  {
    var k := s.a.sendSequence;
    assert h.sent[..k + 1] == h.sent[..k] + [h.sent[k]];
    DataSnoc(h.sent[..k], h.sent[k]);
  }

  lemma GiveUpKeeps(s: State, timeout: bool)
    requires SourceInv(s.a, s.h) && WriteEnabled(s, GiveUp(timeout))
    ensures SourceInv(WriteApply(s, GiveUp(timeout)).a, WriteApply(s, GiveUp(timeout)).h)
  {
  }

  lemma WriteKeeps(s: State, e: WriteStep)
    requires Inv(s) && WriteEnabled(s, e)
    ensures Inv(WriteApply(s, e))
  {
    match e
    case Write(data) => OfferKeeps(s.a, s.h, data, false);
    case CloseWrite => OfferKeeps(s.a, s.h, [], true);
    case Enqueue => EnqueueKeeps(s);
    case GiveUp(timeout) => GiveUpKeeps(s, timeout);
    case TakeReply => RepliedKeeps(s);
    case CloseSource =>
  }

  lemma EnqueueKeeps(s: State)
    requires SourceInv(s.a, s.h) && WriteEnabled(s, Enqueue)
    ensures SourceInv(WriteApply(s, Enqueue).a, s.h)
  {
  }

  // -------------------------------------------------------------------------- the sender

  lemma TransmitKeepsTarget(s: State, f: Frame)
    requires TargetInv(s.wire, s.b, s.h.sent, s.got)
    ensures TargetInv(Transmit(s, f).wire, s.b, Transmit(s, f).h.sent, s.got)
  {
    var sent := s.h.sent;
    var arrived := |sent| - |s.wire|;
    assert (sent + [f])[arrived..] == sent[arrived..] + [f];
    assert (sent + [f])[..s.b.receiveSequence] == sent[..s.b.receiveSequence];
  }

  /** A frame that comes next may be transmitted. */
  lemma TransmitKeepsOrder(h: History, f: Frame, k: nat)
    requires Ordered(h.sent) && IsNext(h, f) && k <= |h.sent|
    ensures Ordered(h.sent + [f]) && Data(h.sent + [f]) == h.written && (h.sent + [f])[..k] == h.sent[..k]
    ensures EndsInEOF(h.sent + [f]) ==> h.finished
  {
    DataSnoc(h.sent, f);
  }

  lemma SendOkKeeps(s: State)
    requires SourceInv(s.a, s.h) && s.a.pc.Sending?
    ensures SourceInv(SendApply(s, SendOk).a, SendApply(s, SendOk).h)
  {
    TransmitKeepsOrder(s.h, s.a.pc.request.frame, s.a.sendSequence);
  }

  lemma SendFailsKeeps(s: State, transmitted: bool)
    requires SourceInv(s.a, s.h) && s.a.pc.Sending?
    ensures SourceInv(SendApply(s, SendFails(transmitted)).a, SendApply(s, SendFails(transmitted)).h)
  {
    TransmitKeepsOrder(s.h, s.a.pc.request.frame, s.a.sendSequence);
  }

  lemma QuietSendKeeps(s: State, e: SendStep)
    requires SourceInv(s.a, s.h) && SendEnabled(s, e) && !e.SendOk? && !e.SendFails?
    ensures SourceInv(SendApply(s, e).a, s.h)
  {
  }

  lemma SendKeeps(s: State, e: SendStep)
    requires Inv(s) && SendEnabled(s, e)
    ensures Inv(SendApply(s, e))
  {
    match e
    case SendOk => SendOkKeeps(s); TransmitKeepsTarget(s, s.a.pc.request.frame);
    case SendFails(transmitted) => SendFailsKeeps(s, transmitted); TransmitKeepsTarget(s, s.a.pc.request.frame);
    case _ => QuietSendKeeps(s, e);
  }

  // -------------------------------------------------------------------------- the reader

  lemma DeliverKeeps(s: State)
    requires Ordered(s.h.sent) && TargetInv(s.wire, s.b, s.h.sent, s.got) && ReadEnabled(s, Deliver)
    ensures TargetInv(ReadApply(s, Deliver).wire, ReadApply(s, Deliver).b, s.h.sent, s.got)
    ensures !s.b.done ==> Acceptable(s.b, s.wire[0])
  {
    var arrived := |s.h.sent| - |s.wire|;
    assert s.wire[0] == s.h.sent[arrived];
    assert s.wire[1..] == s.h.sent[arrived + 1..];
    if !s.b.done && s.b.receiveSequence > 0 {
      assert s.h.sent[..s.b.receiveSequence][s.b.receiveSequence - 1] == s.h.sent[s.b.receiveSequence - 1];
    }
  }

  lemma EnterKeeps(s: State)
    requires Ordered(s.h.sent) && TargetInv(s.wire, s.b, s.h.sent, s.got) && ReadEnabled(s, Enter)
    ensures TargetInv(s.wire, ReadApply(s, Enter).b, s.h.sent, s.got)
  {
    var k := s.b.receiveSequence;
    assert s.h.sent[..k + 1] == s.h.sent[..k] + [s.h.sent[k]];
    DataSnoc(s.h.sent[..k], s.h.sent[k]);
    if s.b.readEOF {
      assert false;
    }
  }

  lemma NextFrameKeeps(s: State)
    requires Ordered(s.h.sent) && TargetInv(s.wire, s.b, s.h.sent, s.got) && ReadEnabled(s, NextFrame)
    ensures TargetInv(s.wire, ReadApply(s, NextFrame).b, s.h.sent, s.got)
  {
    var k := s.b.receiveSequence;
    assert Shaped(s.h.sent[k - 1], k - 1);
    assert s.h.sent[..k][k - 1] == s.h.sent[k - 1];
  }

  lemma MoveBytes(read: Bytes, data: Bytes, n: nat, later: Bytes)
    requires n <= |data|
    ensures read + data[..n] + data[n..] + later == read + data + later
  {
    assert data == data[..n] + data[n..];
  }

  lemma CopyKeeps(s: State, n: nat)
    requires Ordered(s.h.sent) && TargetInv(s.wire, s.b, s.h.sent, s.got) && ReadEnabled(s, Copy(n))
    ensures TargetInv(s.wire, ReadApply(s, Copy(n)).b, s.h.sent, ReadApply(s, Copy(n)).got)
  {
    MoveBytes(s.got.read, s.b.readData, n, if s.b.incoming.Some? then s.b.incoming.value.data else []);
  }

  lemma ReadKeeps(s: State, e: ReadStep)
    requires Inv(s) && ReadEnabled(s, e)
    ensures Inv(ReadApply(s, e))
  {
    match e
    case Deliver => DeliverKeeps(s);
    case Enter => EnterKeeps(s);
    case Drop =>
    case NextFrame => NextFrameKeeps(s);
    case Copy(n) => CopyKeeps(s, n);
    case ReturnEOF =>
    case CloseTarget =>
  }

  lemma StepKeepsInv(s: State, e: Event)
    requires Inv(s) && Enabled(s, e)
    ensures Inv(Apply(s, e))
  {
    match e
    case Writes(w) => WriteKeeps(s, w);
    case Sends(x) => SendKeeps(s, x);
    case Reads(r) => ReadKeeps(s, r);
  }

  lemma {:induction false} RunKeepsInv(s: State, events: seq<Event>)
    requires Inv(s) && Possible(s, events)
    ensures Inv(After(s, events))
    decreases |events|
  {
    if events != [] {
      StepKeepsInv(s, events[0]);
      RunKeepsInv(Apply(s, events[0]), events[1..]);
    }
  }

  lemma {:induction false} WrittenGrows(s: State, events: seq<Event>)
    requires Inv(s) && Possible(s, events)
    ensures KeepsWritten(s.h, After(s, events).h)
    decreases |events|
  {
    if events != [] {
      StepKeepsInv(s, events[0]);
      StepGrowsWritten(s, events[0]);
      WrittenGrows(Apply(s, events[0]), events[1..]);
    }
  }

  predicate KeepsWritten(h: History, k: History) {
    h.written <= k.written && (h.finished ==> k.finished && k.written == h.written)
  }

  lemma StepGrowsWritten(s: State, e: Event)
    requires Inv(s) && Enabled(s, e)
    ensures KeepsWritten(s.h, Apply(s, e).h)
  {
    match e
    case Writes(w) => WriteGrowsWritten(s, w);
    case Sends(x) => assert Apply(s, e).h.written == s.h.written && Apply(s, e).h.finished == s.h.finished;
    case Reads(r) => assert Apply(s, e).h == s.h;
  }

  lemma WriteGrowsWritten(s: State, e: WriteStep)
    requires SourceInv(s.a, s.h) && WriteEnabled(s, e)
    ensures KeepsWritten(s.h, WriteApply(s, e).h)
  {
  }

  // -------------------------------------------------------------------- main results

  /** Read bytes are a prefix of sent bytes, and confirmed bytes were sent; both lie within the bytes written. */
  lemma ReadIsPrefixOfWritten(s: State, events: seq<Event>)
    requires Init(s) && Possible(s, events)
    ensures var t := After(s, events); t.got.read <= t.h.written && t.h.confirmed <= t.h.written
  {
    RunKeepsInv(s, events);
    var t := After(s, events);
    SentWithinWritten(t);
    DataPrefix(t.h.sent, t.b.receiveSequence);
    DataPrefix(t.h.sent, t.a.sendSequence);
  }

  lemma SentWithinWritten(s: State)
    requires Inv(s)
    ensures Data(s.h.sent) <= s.h.written
  {
  }

  /** When Read reports end of file, CloseWrite was called and every byte written before it has been read. */
  lemma EOFMeansEverythingRead(s: State, events: seq<Event>)
    requires Init(s) && Possible(s, events) && After(s, events).got.sawEOF
    ensures var t := After(s, events); t.h.finished && t.got.read == t.h.written
  {
    RunKeepsInv(s, events);
    var t := After(s, events);
    var k := t.b.receiveSequence;
    assert t.h.sent[..k][k - 1] == t.h.sent[k - 1];
    assert k == |t.h.sent|;
    assert t.h.sent[..k] == t.h.sent;
  }

  /** Bytes are never added behind a CloseWrite that was reached before any failure. */
  lemma NothingFollowsCloseWrite(s: State, before: seq<Event>, after: seq<Event>)
    requires Init(s) && Possible(s, before) && Possible(After(s, before), after) && After(s, before).h.finished
    ensures After(After(s, before), after).h.written == After(s, before).h.written
  {
    RunKeepsInv(s, before);
    WrittenGrows(After(s, before), after);
  }

  /** Deliver accepts every frame of the peer as long as its own Conn is open. */
  lemma PeerFrameIsNeverRejected(s: State, events: seq<Event>)
    requires Init(s) && Possible(s, events)
    ensures var t := After(s, events);
      t.wire != [] && t.b.delivering.None? && !t.b.done ==> Acceptable(t.b, t.wire[0])
  {
    RunKeepsInv(s, events);
    var t := After(s, events);
    if t.wire != [] && t.b.delivering.None? {
      DeliverKeeps(t);
    }
  }

  // ---------------------------------------------------------------------------- closing

  predicate NothingMore(s: State, most: nat) {
    s.a.done && |s.h.sent| + (if s.a.pc.Sending? then 1 else 0) <= most
  }

  lemma ClosedStepSendsNothing(s: State, e: Event, most: nat)
    requires NothingMore(s, most) && Enabled(s, e)
    ensures NothingMore(Apply(s, e), most)
  {
  }

  lemma {:induction false} ClosedRunSendsNothing(s: State, events: seq<Event>, most: nat)
    requires NothingMore(s, most) && Possible(s, events)
    ensures NothingMore(After(s, events), most)
    decreases |events|
  {
    if events != [] {
      ClosedStepSendsNothing(s, events[0], most);
      ClosedRunSendsNothing(Apply(s, events[0]), events[1..], most);
    }
  }

  /** After Close, whatever follows, at most the frame that the sender was already handing to the transport goes out. */
  lemma CloseStopsSending(s: State, events: seq<Event>)
    requires Possible(Apply(s, Writes(CloseSource)), events)
    ensures |After(Apply(s, Writes(CloseSource)), events).h.sent| <= |s.h.sent| + (if s.a.pc.Sending? then 1 else 0)
  {
    var most := |s.h.sent| + if s.a.pc.Sending? then 1 else 0;
    ClosedRunSendsNothing(Apply(s, Writes(CloseSource)), events, most);
  }

  /** Close releases whoever waits: a writer may give up, the sender goroutine is on its way out, and a receiver
      that waits for the slot may drop its frame. */
  lemma CloseReleasesWaiters(s: State)
    ensures var t := Apply(s, Writes(CloseSource));
      && (!t.a.writer.Idle? ==> Enabled(t, Writes(GiveUp(false))) && Apply(t, Writes(GiveUp(false))).a.writer.Idle?)
      && (t.a.pc.Looping? ==> Apply(t, Sends(CheckDone)).a.pc == Exited)
      && (t.a.pc.Selecting? ==> Enabled(t, Sends(Quit)) && Apply(t, Sends(Quit)).a.pc == Exited)
      && (t.a.pc.Took? ==> Apply(t, Sends(CheckTaken)).a.pc == Exited)
    ensures var t := Apply(s, Reads(CloseTarget));
      t.b.delivering.Some? ==> Enabled(t, Reads(Drop)) && Apply(t, Reads(Drop)).b.delivering.None?
  {
  }
}
