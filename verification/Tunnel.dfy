/**
  One direction of the framed byte tunnel (proto/applicationproxy/conn.go): the writing Conn,
  an ordered lossless transport and the reading Conn. A step is one channel operation, one
  transport call or one critical section; every ready case of a `select` may be taken.
  Close, deadlines and context cancellation may strike either end at any time.
 */
module Tunnel {
  import opened Basics

  datatype Frame = Frame(sequence: nat, data: Bytes, eof: bool)

  /** `id` names the request's private result channel. */
  datatype Request = Request(frame: Frame, id: nat)

  /** The holder of `writeMu`: `rest` is what its Write still has to frame after this one. */
  datatype Writer = Idle | Offering(request: Request, rest: Bytes) | Awaiting(request: Request, rest: Bytes)

  /** The sender goroutine, between its checks of `done`. */
  datatype SenderPc = Looping | Selecting | Took(request: Request) | Sending(request: Request) | Failed | Exited

  datatype Source = Source(done: bool, writer: Writer, outgoing: Option<Request>, pc: SenderPc, replies: map<nat, bool>,
                           sendSequence: nat, writeEOF: bool, nextId: nat)

  /** `delivering` is a checked frame that waits for the incoming slot. */
  datatype Target = Target(done: bool, delivering: Option<Frame>, incoming: Option<Frame>, readData: Bytes,
                           readEOF: bool, receiveEOF: bool, receiveSequence: nat)

  /** `written`: bytes handed to Write in order, up to and including the first frame that failed (`broken`).
      `confirmed`: bytes that Write reported as written. `finished`: CloseWrite was reached before any failure. */
  datatype History = History(written: Bytes, confirmed: Bytes, broken: bool, finished: bool, sent: seq<Frame>)

  /** What Read has returned so far. */
  datatype Reading = Reading(read: Bytes, sawEOF: bool)

  datatype State = State(a: Source, wire: seq<Frame>, b: Target, h: History, got: Reading)

  predicate Init(s: State) {
    && s.a == Source(false, Idle, None, Looping, map[], 0, false, 0)
    && s.wire == []
    && s.b == Target(false, None, None, [], false, false, 0)
    && s.h == History([], [], false, false, [])
    && s.got == Reading([], false)
  }

  datatype Event = Writes(w: WriteStep) | Sends(x: SendStep) | Reads(r: ReadStep)

  datatype WriteStep =
    | Write(data: Bytes)
    | CloseWrite
    | Enqueue
    | GiveUp(timeout: bool)
    | TakeReply
    | CloseSource

  datatype SendStep =
    | CheckDone
    | Quit
    | Take
    | CheckTaken
    | SendOk
    | SendFails(transmitted: bool)
    | CloseAfterFailure

  datatype ReadStep =
    | Deliver
    | Enter
    | Drop
    | NextFrame
    | Copy(n: nat)
    | ReturnEOF
    | CloseTarget

  // ----------------------------------------------------------------------------- writing

  predicate WriteEnabled(s: State, e: WriteStep) {
    match e
    case Write(data) => s.a.writer.Idle? && !s.a.writeEOF && data != []
    case CloseWrite => s.a.writer.Idle? && !s.a.writeEOF
    case Enqueue => s.a.writer.Offering? && s.a.outgoing.None?
    case GiveUp(timeout) => !s.a.writer.Idle? && (timeout || s.a.done)
    case TakeReply => s.a.writer.Awaiting? && s.a.writer.request.id in s.a.replies
    case CloseSource => true
  }

  function Chunk(data: Bytes): nat {
    if |data| < MAX_FRAME then |data| else MAX_FRAME
  }

  /** Start offering the next frame of `data`; an empty `data` with `eof` is the end-of-stream frame. */
  function Offer(a: Source, data: Bytes, eof: bool): Source {
    a.(writer := Offering(Request(Frame(a.sendSequence, data[..Chunk(data)], eof), a.nextId), data[Chunk(data)..]),
       nextId := a.nextId + 1)
  }

  function Offered(h: History, data: Bytes, eof: bool): History {
    if h.broken then h else h.(written := h.written + data[..Chunk(data)], finished := h.finished || eof)
  }

  function WriteApply(s: State, e: WriteStep): State
    requires WriteEnabled(s, e)
  {
    var a := s.a;
    match e
    case Write(data) => s.(a := Offer(a, data, false), h := Offered(s.h, data, false))
    case CloseWrite => s.(a := Offer(a, [], true), h := Offered(s.h, [], true))
    case Enqueue => s.(a := a.(outgoing := Some(a.writer.request), writer := Awaiting(a.writer.request, a.writer.rest)))
    case GiveUp(timeout) => s.(a := a.(done := a.done || timeout, writer := Idle), h := s.h.(broken := true))
    case TakeReply => Replied(s)
    case CloseSource => s.(a := a.(done := true))
  }

  /** `writeFrame` returns: count the frame and go on with the rest, or report the failure. */
  function Replied(s: State): State
    requires WriteEnabled(s, TakeReply)
  {
    var r, rest := s.a.writer.request, s.a.writer.rest;
    if !s.a.replies[r.id] then s.(a := s.a.(writer := Idle), h := s.h.(broken := true))
    else
      var a := s.a.(sendSequence := s.a.sendSequence + 1, writer := Idle, writeEOF := r.frame.eof);
      var h := s.h.(confirmed := s.h.confirmed + r.frame.data);
      if rest == [] then s.(a := a, h := h) else s.(a := Offer(a, rest, false), h := Offered(h, rest, false))
  }

  // ----------------------------------------------------------------------------- sending

  predicate SendEnabled(s: State, e: SendStep) {
    match e
    case CheckDone => s.a.pc.Looping?
    case Quit => s.a.pc.Selecting? && s.a.done
    case Take => s.a.pc.Selecting? && s.a.outgoing.Some?
    case CheckTaken => s.a.pc.Took?
    case SendOk => s.a.pc.Sending?
    case SendFails(_) => s.a.pc.Sending?
    case CloseAfterFailure => s.a.pc.Failed?
  }

  /** The sender answers the request it holds. */
  function Answer(a: Source, ok: bool, pc: SenderPc): Source
    requires a.pc.Took? || a.pc.Sending?
  {
    a.(replies := a.replies[a.pc.request.id := ok], pc := pc)
  }

  function Transmit(s: State, f: Frame): State {
    s.(wire := s.wire + [f], h := s.h.(sent := s.h.sent + [f]))
  }

  function SendApply(s: State, e: SendStep): State
    requires SendEnabled(s, e)
  {
    var a := s.a;
    match e
    case CheckDone => s.(a := a.(pc := if a.done then Exited else Selecting))
    case Quit => s.(a := a.(pc := Exited))
    case Take => s.(a := a.(pc := Took(a.outgoing.value), outgoing := None))
    case CheckTaken =>
      if a.done then s.(a := Answer(a, false, Exited))
      else s.(a := a.(pc := Sending(a.pc.request)))
    case SendOk => Transmit(s, a.pc.request.frame).(a := Answer(a, true, Looping))
    case SendFails(transmitted) =>
      (if transmitted then Transmit(s, a.pc.request.frame) else s).(a := Answer(a, false, Failed))
    case CloseAfterFailure => s.(a := a.(done := true, pc := Exited))
  }

  // ----------------------------------------------------------------------------- reading

  /** The check of Deliver. */
  predicate Acceptable(b: Target, f: Frame) {
    && !b.receiveEOF && f.sequence == b.receiveSequence && |f.data| <= MAX_FRAME
    && (f.eof ==> |f.data| == 0) && (!f.eof ==> |f.data| != 0)
  }

  function Checked(b: Target, f: Frame): Target {
    if Acceptable(b, f) then b.(delivering := Some(f)) else b.(done := true)
  }

  function Entered(b: Target): Target
    requires b.delivering.Some?
  {
    b.(incoming := b.delivering, delivering := None, receiveSequence := b.receiveSequence + 1,
       receiveEOF := b.delivering.value.eof)
  }

  function FrameTaken(b: Target): Target
    requires b.incoming.Some?
  {
    b.(readData := b.incoming.value.data, readEOF := b.incoming.value.eof, incoming := None)
  }

  predicate ReadEnabled(s: State, e: ReadStep) {
    match e
    case Deliver => s.wire != [] && s.b.delivering.None?
    case Enter => s.b.delivering.Some? && s.b.incoming.None?
    case Drop => s.b.delivering.Some? && s.b.done
    case NextFrame => s.b.incoming.Some? && s.b.readData == [] && !s.b.readEOF
    case Copy(n) => 0 < n <= |s.b.readData|
    case ReturnEOF => s.b.readData == [] && s.b.readEOF
    case CloseTarget => true
  }

  function ReadApply(s: State, e: ReadStep): State
    requires ReadEnabled(s, e)
  {
    var b := s.b;
    match e
    case Deliver => s.(wire := s.wire[1..], b := Checked(b, s.wire[0]))
    case Enter => s.(b := Entered(b))
    case Drop => s.(b := b.(delivering := None))
    case NextFrame => s.(b := FrameTaken(b))
    case Copy(n) => s.(b := b.(readData := b.readData[n..]), got := s.got.(read := s.got.read + b.readData[..n]))
    case ReturnEOF => s.(got := s.got.(sawEOF := true))
    case CloseTarget => s.(b := b.(done := true))
  }

  // --------------------------------------------------------------------------------- runs

  predicate Enabled(s: State, e: Event) {
    match e
    case Writes(w) => WriteEnabled(s, w)
    case Sends(x) => SendEnabled(s, x)
    case Reads(r) => ReadEnabled(s, r)
  }

  function Apply(s: State, e: Event): State
    requires Enabled(s, e)
  {
    match e
    case Writes(w) => WriteApply(s, w)
    case Sends(x) => SendApply(s, x)
    case Reads(r) => ReadApply(s, r)
  }

  predicate Possible(s: State, events: seq<Event>)
    decreases |events|
  {
    events == [] || (Enabled(s, events[0]) && Possible(Apply(s, events[0]), events[1..]))
  }

  function After(s: State, events: seq<Event>): State
    requires Possible(s, events)
    decreases |events|
  {
    if events == [] then s else After(Apply(s, events[0]), events[1..])
  }
}
