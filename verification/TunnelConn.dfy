/**
  The Conn object's own calls (proto/applicationproxy/conn.go), as one caller sees them while it
  holds its mutex. `Source` and `Target` of the machine are the two sides of a Conn; each call is
  proved to take the machine's steps. What may happen around a call is a parameter: the transport
  failing, the Conn being closed by others, a deadline passing.
 */
module TunnelConn {
  import opened Basics
  import opened Tunnel
  import opened TunnelSafety

  /** `Blocked` is a call that waits: for the incoming slot, or for a frame. */
  datatype DeliverEnd = Accepted | Rejected | DeliverClosed | DeliverBlocked
  datatype ReadEnd = GotBytes(data: Bytes) | GotEOF | ReadClosed | TimedOut | ReadBlocked

  /** One more chunk of `data` extends what was framed so far. */
  lemma ChunkAppends(before: seq<Frame>, base: Bytes, data: Bytes, written: nat, f: Frame)
    requires written + |f.data| <= |data| && Data(before) == base + data[..written]
    requires f.data == data[written..][..|f.data|]
    ensures Data(before + [f]) == base + data[..written + |f.data|]
    ensures data[written..][|f.data|..] == data[written + |f.data|..]
  {
    DataSnoc(before, f);
    assert data[..written + |f.data|] == data[..written] + f.data;
  }

  /** A frame as Deliver lets it in. */
  predicate Framed(f: Frame) {
    f.eof <==> f.data == []
  }

  /** Whatever waits on the reading side is well formed, and nothing follows an end of file. */
  predicate Arrived(b: Target) {
    && (b.delivering.Some? ==> Framed(b.delivering.value) && !b.receiveEOF)
    && (b.incoming.Some? ==> Framed(b.incoming.value) && (b.incoming.value.eof ==> b.receiveEOF))
    && (b.readEOF ==> b.readData == [] && b.incoming.None? && b.receiveEOF)
  }

  /** The bytes that Read finds first: those buffered, or else those of the waiting frame. */
  function Front(b: Target): Bytes {
    if b.readData != [] then b.readData else if b.incoming.Some? then b.incoming.value.data else []
  }

  /** Everything that has arrived and was not read. */
  function Waiting(b: Target): Bytes {
    b.readData + if b.incoming.Some? then b.incoming.value.data else []
  }

  predicate EndArrived(b: Target) {
    b.readEOF || (b.incoming.Some? && b.incoming.value.eof)
  }

  function AtMost(data: Bytes, n: nat): Bytes {
    if |data| <= n then data else data[..n]
  }

  lemma TakingKeepsWaiting(b: Target)
    requires Arrived(b) && b.readData == [] && b.incoming.Some?
    ensures Arrived(FrameTaken(b)) && Waiting(FrameTaken(b)) == Waiting(b) && Front(FrameTaken(b)) == Front(b)
    ensures EndArrived(FrameTaken(b)) == EndArrived(b)
  {
  }

  lemma CopyingTakesFront(b: Target, n: nat)
    requires Arrived(b) && b.readData != [] && n > 0
    ensures var data := AtMost(b.readData, n); var c := b.(readData := b.readData[|data|..]);
      Arrived(c) && data == AtMost(Front(b), n) && data != [] && Waiting(b) == data + Waiting(c)
  {
    var data := AtMost(b.readData, n);
    assert b.readData == data + b.readData[|data|..];
  }

  class Conn {
    var sendSequence: nat
    var writeEOF: bool
    var b: Target                      // the reading side
    ghost var accepted: seq<Frame>     // frames that writeFrame reported as sent

    constructor ()
      ensures Numbered() && Arrived(b) && !writeEOF && accepted == []
      ensures b == Target(false, None, None, [], false, false, 0)
    {
      sendSequence, writeEOF, accepted := 0, false, [];
      b := Target(false, None, None, [], false, false, 0);
    }

    ghost predicate Numbered()
      reads this
    {
      |accepted| == sendSequence && forall i :: 0 <= i < |accepted| ==> Shaped(accepted[i], i)
    }

    // ---------------------------------------------------------------------------- writing

    /** The transport outcome of one frame; a deadline closes the Conn. */
    method WriteFrame(f: Frame, healthy: bool) returns (ok: bool)
      modifies this`b, this`accepted
      ensures accepted == if ok then old(accepted) + [f] else old(accepted)
      ensures healthy ==> ok && b == old(b)
      ensures b == old(b) || b == old(b).(done := true)
    {
      var sent, timeout := *, *;
      if healthy || sent {
        accepted := accepted + [f];
        return true;
      }
      if timeout {
        b := b.(done := true);
      }
      return false;
    }

    /** The bytes counted as written are exactly the data of the frames sent, in order and numbered on; on a
        healthy transport that is everything. */
    method Write(data: Bytes, healthy: bool) returns (written: nat, ok: bool)
      requires Numbered()
      modifies this`b, this`accepted, this`sendSequence
      ensures Numbered() && old(accepted) <= accepted
      ensures written <= |data| && Data(accepted) == Data(old(accepted)) + data[..written]
      ensures ok <==> written == |data| && !old(writeEOF)
      ensures old(writeEOF) ==> accepted == old(accepted) && written == 0
      ensures healthy && !old(writeEOF) ==> ok && b == old(b)
    {
      written, ok := 0, false;
      if writeEOF {
        return;
      }
      var rest := data;
      while rest != []
        invariant Numbered() && old(accepted) <= accepted && written <= |data| && rest == data[written..]
        invariant Data(accepted) == Data(old(accepted)) + data[..written]
        invariant healthy ==> b == old(b)
        decreases |rest|
      {
        var n := Chunk(rest);
        var f := Frame(sendSequence, rest[..n], false);
        ghost var before := accepted;
        var sent := WriteFrame(f, healthy);
        if !sent {
          return;
        }
        ChunkAppends(before, Data(old(accepted)), data, written, f);
        sendSequence := sendSequence + 1;
        written := written + n;
        rest := rest[n..];
      }
      ok := true;
    }

    /** The end of the stream is sent at most once, and on a healthy transport it is sent. */
    method CloseWrite(healthy: bool) returns (ok: bool)
      requires Numbered()
      modifies this`b, this`accepted, this`sendSequence, this`writeEOF
      ensures Numbered() && (ok <==> writeEOF) && (healthy ==> ok)
      ensures ok && !old(writeEOF) ==> accepted == old(accepted) + [Frame(old(sendSequence), [], true)]
      ensures !ok || old(writeEOF) ==> accepted == old(accepted)
    {
      if writeEOF {
        return true;
      }
      ok := WriteFrame(Frame(sendSequence, [], true), healthy);
      if ok {
        sendSequence := sendSequence + 1;
        writeEOF := true;
      }
    }

    // ---------------------------------------------------------------------------- receiving

    /** Check a frame and hand it to the reader. The check is the machine's `Deliver`, the hand-over its `Enter`
        or, when the `select` finds the Conn closed, its `Drop`; with a full slot on an open Conn the call waits,
        and `Resume` goes on from there. */
    method Deliver(f: Frame) returns (end: DeliverEnd)
      requires Arrived(b) && b.delivering.None?
      modifies this`b
      ensures Arrived(b)
      ensures end == Rejected <==> !Acceptable(old(b), f)
      ensures end == Rejected ==> b == Checked(old(b), f)
      ensures end == Accepted ==> old(b).incoming.None? && b == Entered(Checked(old(b), f))
      ensures end == DeliverClosed ==> old(b).done && b == old(b)
      ensures end == DeliverBlocked <==> Acceptable(old(b), f) && old(b).incoming.Some? && !old(b).done
      ensures end == DeliverBlocked ==> b == Checked(old(b), f)
      ensures Acceptable(old(b), f) && old(b).incoming.None? && !old(b).done ==> end == Accepted
    {
      if b.receiveEOF || f.sequence != b.receiveSequence || |f.data| > MAX_FRAME
         || (f.eof && |f.data| != 0) || (!f.eof && |f.data| == 0) {
        b := b.(done := true);
        return Rejected;
      }
      b := b.(delivering := Some(f));
      end := Resume();
    }

    /** The `select` of Deliver, once the slot or the Conn has changed. */
    method Resume() returns (end: DeliverEnd)
      requires Arrived(b) && b.delivering.Some?
      modifies this`b
      ensures Arrived(b)
      ensures end == Accepted ==> old(b).incoming.None? && b == Entered(old(b))
      ensures end == DeliverClosed ==> old(b).done && b == old(b).(delivering := None)
      ensures end == DeliverBlocked <==> old(b).incoming.Some? && !old(b).done
      ensures end == DeliverBlocked ==> b == old(b)
      ensures end != Rejected
    {
      if b.incoming.Some? && !b.done {
        return DeliverBlocked;
      }
      var preferClose := *;
      if b.incoming.Some? || (b.done && preferClose) {
        b := b.(delivering := None);
        return DeliverClosed;
      }
      b := b.(incoming := b.delivering, delivering := None, receiveSequence := b.receiveSequence + 1,
              receiveEOF := b.delivering.value.eof);
      return Accepted;
    }

    // ------------------------------------------------------------------------------ reading

    /** `closing` and `deadline` say whether the Conn is closed, or the deadline passes, while the call looks.
        Otherwise, on an open Conn, bytes are returned if and only if some have arrived, the end of file if and
        only if all were read and it has arrived, and else the call waits. What is returned is taken off the
        front of what has arrived. */
    method Read(n: nat, closing: bool, deadline: bool) returns (end: ReadEnd)
      requires Arrived(b)
      modifies this`b
      ensures Arrived(b) && b.done == old(b).done
      ensures n == 0 ==> end == GotBytes([]) && b == old(b)
      ensures n > 0 && old(b).done ==> end == ReadClosed && b == old(b)
      ensures end == ReadClosed ==> old(b).done || closing
      ensures end == TimedOut ==> deadline && old(b).readData == []
      ensures end.GotBytes? ==> end.data == AtMost(Front(old(b)), n) && (n > 0 ==> end.data != [])
      ensures end.GotBytes? ==> Waiting(old(b)) == end.data + Waiting(b)
      ensures !end.GotBytes? ==> Waiting(b) == Waiting(old(b)) && EndArrived(b) == EndArrived(old(b))
      ensures end == GotEOF ==> Waiting(b) == [] && b.readEOF
      ensures n > 0 && !old(b).done && !closing && !deadline ==>
        && (end.GotBytes? <==> Waiting(old(b)) != [])
        && (end == GotEOF <==> Waiting(old(b)) == [] && EndArrived(old(b)))
        && (end == ReadBlocked <==> Waiting(old(b)) == [] && !EndArrived(old(b)))
    {
      if n == 0 {
        return GotBytes([]);
      }
      while true
        invariant b == old(b)
          || (!old(b).done && old(b).readData == [] && old(b).incoming.Some? && b == FrameTaken(old(b)))
        invariant Arrived(b) && Waiting(b) == Waiting(old(b)) && Front(b) == Front(old(b))
        invariant EndArrived(b) == EndArrived(old(b))
        decreases b.incoming.Some?
      {
        var closed, deadlineFirst := *, *;
        if b.done || (closing && closed) {
          return ReadClosed;
        }
        if |b.readData| > 0 {
          var data := AtMost(b.readData, n);
          CopyingTakesFront(b, n);
          b := b.(readData := b.readData[|data|..]);
          return GotBytes(data);
        }
        if b.readEOF {
          return GotEOF;
        }
        if deadline && (deadlineFirst || b.incoming.None?) {
          return TimedOut;
        }
        if b.incoming.None? {
          return ReadBlocked;
        }
        TakingKeepsWaiting(b);
        b := FrameTaken(b);
      }
    }
  }
}
