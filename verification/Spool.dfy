/**
  Byte accounting of the protected input spools (proto/protectedinput/spool.go). Each method is
  one critical section or one file operation; the two mutexes let the sections of different
  spools interleave freely, so every order of these calls on different spools is possible.
 */
module Spool {

  const MAX_SCRIPT: nat := 0x100_0000
  const MAX_AGGREGATE: nat := 0x800_0000

  /** Where the holder of a spool's mutex is. */
  datatype Phase =
    | Free
    | Reserved(length: nat)                  // Write reserved the whole length
    | Stored(length: nat, written: nat)      // the file took `written` bytes of it
    | Closing                                // Close marked the spool and still has to give its bytes back

  datatype File = File(bytes: nat, sealed: bool, closed: bool, phase: Phase) {
    /** The part of `used` that this spool answers for. */
    function Held(): nat {
      match phase
      case Free => if closed then 0 else bytes
      case Reserved(length) => bytes + length
      case Stored(length, written) => bytes + (if written <= length then length - written else 0)
      case Closing => bytes
    }

    predicate Valid() {
      && bytes <= MAX_SCRIPT && (closed ==> phase.Free? || phase.Closing?) && (phase.Closing? ==> closed)
      && (phase.Reserved? ==> bytes + phase.length <= MAX_SCRIPT)
      && (phase.Stored? ==> phase.written <= phase.length)
    }
  }

  function Total(files: seq<File>): nat {
    if files == [] then 0 else Total(files[..|files| - 1]) + files[|files| - 1].Held()
  }

  lemma {:induction false} TotalAfterChange(files: seq<File>, i: nat, f: File)
    requires i < |files|
    ensures Total(files[i := f]) == Total(files) - files[i].Held() + f.Held()
    ensures files[i].Held() <= Total(files)
  {
    var last := |files| - 1;
    if i == last {
      assert files[i := f][..last] == files[..last];
    } else {
      TotalAfterChange(files[..last], i, f);
      assert files[i := f][..last] == files[..last][i := f];
    }
  }

  lemma TotalSnoc(files: seq<File>, f: File)
    ensures Total(files + [f]) == Total(files) + f.Held()
  {
    assert (files + [f])[..|files|] == files;
  }

  /** When every spool is closed and no Close is in progress, nothing is accounted. */
  lemma {:induction false} AllClosedIsZero(files: seq<File>)
    requires forall i :: 0 <= i < |files| ==> files[i].closed && files[i].phase.Free?
    ensures Total(files) == 0
  {
    if files != [] {
      AllClosedIsZero(files[..|files| - 1]);
    }
  }

  datatype WriteStart = Accepted | Refused | OverLimit

  class Manager {
    var used: nat
    var files: seq<File>

    predicate Valid()
      reads this
    {
      used == Total(files) && used <= MAX_AGGREGATE && forall i :: 0 <= i < |files| ==> files[i].Valid()
    }

    constructor ()
      ensures Valid() && used == 0 && files == []
    {
      used, files := 0, [];
    }

    method Create() returns (i: nat)
      requires Valid()
      modifies this
      ensures Valid() && used == old(used) && i == |old(files)| && files == old(files) + [File(0, false, false, Free)]
    {
      i := |files|;
      TotalSnoc(files, File(0, false, false, Free));
      files := files + [File(0, false, false, Free)];
    }

    /** Sections of other spools; this one's mutex is held. */
    method Interfere(i: nat)
      requires Valid() && i < |files|
      modifies this
      ensures Valid() && |files| >= |old(files)| && files[i] == old(files)[i]
    {
      var others: seq<File>, now: nat := *, *;
      if |others| >= |files| && others[i] == files[i] && now == Total(others) && now <= MAX_AGGREGATE
         && forall j :: 0 <= j < |others| ==> others[j].Valid() {
        files, used := others, now;
      }
    }

    /** The first section of Write: check both limits and reserve. */
    method Reserve(i: nat, length: nat) returns (start: WriteStart)
      requires Valid() && i < |files| && files[i].phase.Free?
      modifies this
      ensures Valid()
      ensures start == Refused <==> old(files)[i].closed || old(files)[i].sealed
      ensures start == OverLimit <==> (!old(files)[i].closed && !old(files)[i].sealed
        && (old(files)[i].bytes + length > MAX_SCRIPT || old(used) + length > MAX_AGGREGATE))
      ensures start == Accepted ==> used == old(used) + length
      ensures start == Accepted ==> files == old(files)[i := old(files)[i].(phase := Reserved(length))]
      ensures start != Accepted ==> used == old(used) && files == old(files)
    {
      if files[i].closed || files[i].sealed {
        return Refused;
      }
      if files[i].bytes + length > MAX_SCRIPT || used + length > MAX_AGGREGATE {
        return OverLimit;
      }
      TotalAfterChange(files, i, files[i].(phase := Reserved(length)));
      used := used + length;
      files := files[i := files[i].(phase := Reserved(length))];
      return Accepted;
    }

    /** The file takes some of the bytes. */
    method Store(i: nat, n: nat)
      requires Valid() && i < |files| && files[i].phase.Reserved? && n <= files[i].phase.length
      modifies this
      ensures Valid() && used == old(used)
      ensures var f := old(files)[i];
        files == old(files)[i := f.(bytes := f.bytes + n, phase := Stored(f.phase.length, n))]
    {
      var f := files[i].(bytes := files[i].bytes + n, phase := Stored(files[i].phase.length, n));
      TotalAfterChange(files, i, f);
      files := files[i := f];
    }

    /** The last section of Write: give back what the file did not take. */
    method GiveBack(i: nat)
      requires Valid() && i < |files| && files[i].phase.Stored?
      modifies this
      ensures Valid() && files == old(files)[i := old(files)[i].(phase := Free)]
      ensures used == old(used) - (old(files)[i].phase.length - old(files)[i].phase.written)
    {
      TotalAfterChange(files, i, files[i].(phase := Free));
      used := used - (files[i].phase.length - files[i].phase.written);
      files := files[i := files[i].(phase := Free)];
    }

    /** The first half of Close. */
    method MarkClosed(i: nat) returns (first: bool)
      requires Valid() && i < |files| && files[i].phase.Free?
      modifies this
      ensures Valid() && used == old(used) && first == !old(files)[i].closed
      ensures files == if first then old(files)[i := old(files)[i].(closed := true, phase := Closing)] else old(files)
    {
      if files[i].closed {
        return false;
      }
      TotalAfterChange(files, i, files[i].(closed := true, phase := Closing));
      files := files[i := files[i].(closed := true, phase := Closing)];
      return true;
    }

    /** The second half of Close: give the bytes back, once. */
    method Settle(i: nat)
      requires Valid() && i < |files| && files[i].phase.Closing?
      modifies this
      ensures Valid() && files == old(files)[i := old(files)[i].(phase := Free)]
      ensures used == old(used) - old(files)[i].bytes
    {
      TotalAfterChange(files, i, files[i].(phase := Free));
      used := used - files[i].bytes;
      files := files[i := files[i].(phase := Free)];
    }

    // ------------------------------------------------------------------- whole calls

    /** Write while other spools are written and closed: exactly the bytes the file took stay accounted. `taken` is
        how many the file would take. */
    method Write(i: nat, length: nat, taken: nat) returns (n: nat, start: WriteStart)
      requires Valid() && i < |files| && files[i].phase.Free?
      modifies this
      ensures Valid() && |files| >= |old(files)| && n <= length
      ensures files[i] == old(files)[i].(bytes := old(files)[i].bytes + n)
      ensures n == if start != Accepted then 0 else if taken < length then taken else length
      ensures start == Accepted <==> (!old(files)[i].closed && !old(files)[i].sealed
        && old(files)[i].bytes + length <= MAX_SCRIPT && old(used) + length <= MAX_AGGREGATE)
    {
      n := 0;
      start := Reserve(i, length);
      if start != Accepted {
        return;
      }
      Interfere(i);
      n := if taken < length then taken else length;
      Store(i, n);
      Interfere(i);
      GiveBack(i);
    }

    method Close(i: nat)
      requires Valid() && i < |files| && files[i].phase.Free?
      modifies this
      ensures Valid() && |files| >= |old(files)| && files[i] == old(files)[i].(closed := true)
    {
      var first := MarkClosed(i);
      if first {
        Interfere(i);
        Settle(i);
      }
    }

    method Seal(i: nat, synced: bool) returns (ok: bool)
      requires Valid() && i < |files| && files[i].phase.Free?
      modifies this
      ensures Valid() && used == old(used)
      ensures ok <==> synced && !old(files)[i].closed && !old(files)[i].sealed
      ensures files == if ok then old(files)[i := old(files)[i].(sealed := true)] else old(files)
    {
      if files[i].closed || files[i].sealed || !synced {
        return false;
      }
      TotalAfterChange(files, i, files[i].(sealed := true));
      files := files[i := files[i].(sealed := true)];
      return true;
    }
  }
}
