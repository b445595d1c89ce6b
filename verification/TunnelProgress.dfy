/**
  What an undisturbed tunnel achieves: whatever is written arrives, and then the end of file.
 */
module TunnelProgress {
  import opened Basics
  import opened Tunnel

  predicate Leads(s: State, events: seq<Event>, t: State) {
    Possible(s, events) && After(s, events) == t
  }

  lemma Prepend(s: State, e: Event, rest: seq<Event>, t: State)
    requires Enabled(s, e) && Leads(Apply(s, e), rest, t)
    ensures Leads(s, [e] + rest, t)
  {
    assert ([e] + rest)[1..] == rest;
  }

  lemma {:induction false} Concatenate(s: State, first: seq<Event>, middle: State, second: seq<Event>, t: State)
    requires Leads(s, first, middle) && Leads(middle, second, t)
    ensures Leads(s, first + second, t)
    decreases |first|
  {
    if first == [] {
      assert first + second == second;
    } else {
      Concatenate(Apply(s, first[0]), first[1..], middle, second, t);
      Prepend(s, first[0], first[1..] + second, t);
      assert [first[0]] + (first[1..] + second) == first + second;
    }
  }

  /** Both Conns are open, and nothing is under way between the writer and the reader. */
  predicate Calm(s: State) {
    && !s.a.done && !s.a.writeEOF && s.a.outgoing.None? && s.a.pc.Looping?
    && s.wire == [] && !s.b.done && s.b.delivering.None? && s.b.incoming.None?
    && s.b.readData == [] && !s.b.readEOF && !s.b.receiveEOF && s.b.receiveSequence == s.a.sendSequence
  }

  predicate Resting(s: State) {
    Calm(s) && s.a.writer.Idle?
  }

  /** The writer offers the next frame of `data`. */
  predicate OfferingNext(s: State, data: Bytes) {
    && Calm(s) && data != [] && s.a.writer.Offering?
    && s.a.writer.request.frame == Frame(s.a.sendSequence, data[..Chunk(data)], false)
    && s.a.writer.rest == data[Chunk(data)..]
  }

  const SEND: seq<Event> :=
    [Writes(Enqueue), Sends(CheckDone), Sends(Take), Sends(CheckTaken), Sends(SendOk), Writes(TakeReply)]

  /** An offered frame reaches the transport, and its writer goes on. */
  lemma FrameIsSent(s: State) returns (t: State)
    requires Calm(s) && s.a.writer.Offering?
    ensures Leads(s, SEND, t) && t.b == s.b && t.got == s.got && t.wire == [s.a.writer.request.frame]
    ensures t.a.sendSequence == s.a.sendSequence + 1 && t.a.pc.Looping? && t.a.outgoing.None? && !t.a.done
    ensures t.a.writeEOF == s.a.writer.request.frame.eof
    ensures s.a.writer.rest == [] ==> t.a.writer.Idle?
    ensures s.a.writer.rest != [] ==>
      && t.a.writer.Offering? && t.a.writer.rest == s.a.writer.rest[Chunk(s.a.writer.rest)..]
      && t.a.writer.request.frame == Frame(t.a.sendSequence, s.a.writer.rest[..Chunk(s.a.writer.rest)], false)
  {
    var s1 := WriteApply(s, Enqueue);
    var s2 := SendApply(s1, CheckDone);
    var s3 := SendApply(s2, Take);
    var s4 := SendApply(s3, CheckTaken);
    var s5 := SendApply(s4, SendOk);
    t := Replied(s5);
    Prepend(s5, SEND[5], [], t);
    Prepend(s4, SEND[4], SEND[5..], t);
    Prepend(s3, SEND[3], SEND[4..], t);
    Prepend(s2, SEND[2], SEND[3..], t);
    Prepend(s1, SEND[1], SEND[2..], t);
    Prepend(s, SEND[0], SEND[1..], t);
  }

  function ReceiveSteps(f: Frame): seq<Event> {
    [Reads(Deliver), Reads(Enter), Reads(NextFrame)] + [if f.eof then Reads(ReturnEOF) else Reads(Copy(|f.data|))]
  }

  /** A frame on the wire is delivered and read. */
  lemma FrameIsRead(s: State) returns (t: State)
    requires |s.wire| == 1 && Acceptable(s.b, s.wire[0]) && s.b.delivering.None? && s.b.incoming.None?
    requires s.b.readData == [] && !s.b.readEOF
    ensures Leads(s, ReceiveSteps(s.wire[0]), t) && t.a == s.a && t.wire == []
    ensures var f := s.wire[0];
      t.b == s.b.(receiveSequence := s.b.receiveSequence + 1, receiveEOF := f.eof, readEOF := f.eof)
    ensures t.got.read == s.got.read + s.wire[0].data && t.got.sawEOF == (s.got.sawEOF || s.wire[0].eof)
  {
    var f := s.wire[0];
    var e := ReceiveSteps(f);
    var s1 := ReadApply(s, Deliver);
    var s2 := ReadApply(s1, Enter);
    var s3 := ReadApply(s2, NextFrame);
    assert Enabled(s3, e[3]);
    t := Apply(s3, e[3]);
    assert f.data[..|f.data|] == f.data;
    Prepend(s3, e[3], [], t);
    Prepend(s2, e[2], e[3..], t);
    Prepend(s1, e[1], e[2..], t);
    Prepend(s, e[0], e[1..], t);
  }

  /** The rest of a Write arrives frame by frame. */
  lemma {:induction false} OfferedBytesArrive(s: State, data: Bytes) returns (events: seq<Event>, t: State)
    requires OfferingNext(s, data)
    ensures Leads(s, events, t) && Resting(t)
    ensures t.got == s.got.(read := s.got.read + data)
    decreases |data|
  {
    var s1 := FrameIsSent(s);
    var s2 := FrameIsRead(s1);
    var first := SEND + ReceiveSteps(s1.wire[0]);
    Concatenate(s, SEND, s1, ReceiveSteps(s1.wire[0]), s2);
    var rest := data[Chunk(data)..];
    assert data == data[..Chunk(data)] + rest;
    if rest == [] {
      events, t := first, s2;
    } else {
      var more;
      more, t := OfferedBytesArrive(s2, rest);
      Concatenate(s, first, s2, more, t);
      events := first + more;
      assert s.got.read + data == s2.got.read + rest;
    }
  }

  /** Whatever one Write is given arrives. */
  lemma WriteArrives(s: State, data: Bytes) returns (events: seq<Event>, t: State)
    requires Resting(s) && data != []
    ensures Leads(s, events, t) && Resting(t) && t.got == s.got.(read := s.got.read + data)
  {
    var s1 := WriteApply(s, Write(data));
    var more;
    more, t := OfferedBytesArrive(s1, data);
    Prepend(s, Writes(Write(data)), more, t);
    events := [Writes(Write(data))] + more;
  }

  /** The end of the stream arrives. */
  lemma CloseWriteArrives(s: State) returns (events: seq<Event>, t: State)
    requires Resting(s)
    ensures Leads(s, events, t) && t.got == Reading(s.got.read, true) && t.a.writeEOF
  {
    var s1 := WriteApply(s, CloseWrite);
    var s2 := FrameIsSent(s1);
    t := FrameIsRead(s2);
    Concatenate(s1, SEND, s2, ReceiveSteps(s2.wire[0]), t);
    Prepend(s, Writes(CloseWrite), SEND + ReceiveSteps(s2.wire[0]), t);
    events := [Writes(CloseWrite)] + (SEND + ReceiveSteps(s2.wire[0]));
  }

  lemma {:induction false} WritesArrive(s: State, writes: seq<Bytes>) returns (events: seq<Event>, t: State)
    requires Resting(s) && forall i :: 0 <= i < |writes| ==> writes[i] != []
    ensures Leads(s, events, t) && Resting(t) && t.got == s.got.(read := s.got.read + Concat(writes))
    decreases |writes|
  {
    if writes == [] {
      events, t := [], s;
    } else {
      var first, middle := WritesArrive(s, writes[..|writes| - 1]);
      var last;
      last, t := WriteArrives(middle, writes[|writes| - 1]);
      Concatenate(s, first, middle, last, t);
      events := first + last;
    }
  }

  /** Whatever is written, in whatever pieces, and then closed, can all be read, followed by the end of file. */
  lemma EverythingArrives(s: State, writes: seq<Bytes>) returns (events: seq<Event>, t: State)
    requires Init(s) && forall i :: 0 <= i < |writes| ==> writes[i] != []
    ensures Leads(s, events, t) && t.got == Reading(Concat(writes), true)
  {
    var first, middle := WritesArrive(s, writes);
    var last;
    last, t := CloseWriteArrives(middle);
    Concatenate(s, first, middle, last, t);
    events := first + last;
  }
}
