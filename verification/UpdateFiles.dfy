/**
  The two loops that move artifact bytes (agent/internal/update): the download into the
  private candidate file, and the verified copy behind every backup, install and restore.
  A SHA-256 digest is represented by the content it identifies.
 */
module UpdateFiles {
  import opened Basics

  type Path = string

  /** One result of the artifact stream's Recv; `Chunk` may be anything the peer sends. */
  datatype Recv = Chunk(offset: int, data: Bytes) | End | Broken

  /** The bytes of the chunks before the first non-chunk. */
  function Payload(stream: seq<Recv>): Bytes {
    if stream == [] || !stream[0].Chunk? then [] else stream[0].data + Payload(stream[1..])
  }

  /** Chunks numbered by byte offset from `at`, each non-empty and bounded, then a clean end. */
  predicate WellFramed(stream: seq<Recv>, at: nat) {
    && stream != []
    && match stream[0]
       case End => true
       case Broken => false
       case Chunk(offset, data) => offset == at && 0 < |data| <= MAX_FRAME && WellFramed(stream[1..], at + |data|)
  }

  lemma {:induction false} PayloadSnoc(stream: seq<Recv>, i: nat)
    requires i < |stream| && (forall k :: 0 <= k <= i ==> stream[k].Chunk?)
    ensures Payload(stream[..i + 1]) == Payload(stream[..i]) + stream[i].data
  {
    if i == 0 {
      assert stream[..1][1..] == [] && Payload(stream[..1][1..]) == [];
    } else {
      PayloadSnoc(stream[1..], i - 1);
      assert stream[..i + 1][1..] == stream[1..][..i] && stream[..i][1..] == stream[1..][..i - 1];
    }
  }

  lemma {:induction false} PayloadSplit(stream: seq<Recv>, i: nat)
    requires i <= |stream| && (forall k :: 0 <= k < i ==> stream[k].Chunk?)
    ensures Payload(stream) == Payload(stream[..i]) + Payload(stream[i..])
  {
    if i == 0 {
      assert stream[0..] == stream;
    } else {
      PayloadSplit(stream[1..], i - 1);
      assert stream[..i][1..] == stream[1..][..i - 1] && stream[1..][i - 1..] == stream[i..];
    }
  }

  lemma {:induction false} FramedPrefix(stream: seq<Recv>, i: nat, at: nat)
    requires i <= |stream| && WellFramedSoFar(stream[..i], at)
    ensures WellFramed(stream, at) == WellFramed(stream[i..], at + |Payload(stream[..i])|)
  {
    if i == 0 {
      assert stream[0..] == stream;
    } else {
      assert stream[..i][1..] == stream[1..][..i - 1] && stream[1..][i - 1..] == stream[i..];
      FramedPrefix(stream[1..], i - 1, at + |stream[0].data|);
    }
  }

  predicate WellFramedSoFar(chunks: seq<Recv>, at: nat) {
    chunks == [] || (chunks[0].Chunk? && chunks[0].offset == at && 0 < |chunks[0].data| <= MAX_FRAME
                     && WellFramedSoFar(chunks[1..], at + |chunks[0].data|))
  }

  lemma {:induction false} FramedSnoc(stream: seq<Recv>, i: nat, at: nat)
    requires i < |stream| && WellFramedSoFar(stream[..i], at) && stream[i].Chunk?
    requires stream[i].offset == at + |Payload(stream[..i])| && 0 < |stream[i].data| <= MAX_FRAME
    ensures WellFramedSoFar(stream[..i + 1], at)
  {
    if i != 0 {
      assert stream[..i][1..] == stream[1..][..i - 1] && stream[..i + 1][1..] == stream[1..][..i];
      FramedSnoc(stream[1..], i - 1, at + |stream[0].data|);
    }
  }

  lemma {:induction false} SoFarAreChunks(chunks: seq<Recv>, at: nat)
    requires WellFramedSoFar(chunks, at)
    ensures forall k :: 0 <= k < |chunks| ==> chunks[k].Chunk?
  {
    if chunks != [] {
      SoFarAreChunks(chunks[1..], at + |chunks[0].data|);
    }
  }

  /** The receive loop: accepted exactly when the frames are well formed and spell the target. */
  method Download(stream: seq<Recv>, target: Bytes) returns (ok: bool, file: Bytes)
    ensures ok <==> WellFramed(stream, 0) && Payload(stream) == target
    ensures ok ==> file == target
  {
    file := [];
    var received, i := 0, 0;
    while i < |stream| && stream[i].Chunk?
      invariant 0 <= i <= |stream| && WellFramedSoFar(stream[..i], 0)
      invariant file == Payload(stream[..i]) && received == |file| <= |target|
    {
      var chunk := stream[i];
      SoFarAreChunks(stream[..i], 0);
      FramedPrefix(stream, i, 0);
      PayloadSplit(stream, i);
      assert forall k :: 0 <= k < i ==> stream[k] == stream[..i][k];
      PayloadSnoc(stream, i);
      if |chunk.data| == 0 || |chunk.data| > MAX_FRAME
         || chunk.offset != received || |chunk.data| > |target| - received {
        return false, file;
      }
      file := file + chunk.data;
      received := received + |chunk.data|;
      FramedSnoc(stream, i, 0);
      i := i + 1;
    }
    SoFarAreChunks(stream[..i], 0);
    assert forall k :: 0 <= k < i ==> stream[k] == stream[..i][k];
    FramedPrefix(stream, i, 0);
    PayloadSplit(stream, i);
    if i == |stream| || stream[i].Broken? {
      return false, file;
    }
    ok := received == |target| && file == target;
  }

  /** The directory that holds the binary, its backups and the private candidates. */
  class Directory {
    var files: map<Path, Bytes>

    /** `copyVerified`: hash the bytes being copied, then rename over the destination. The source
        may be rewritten while it is read (`read` is whatever the descriptor returns), and any
        system call may fail; the destination is only ever its old content or the expected content. */
    method CopyVerified(source: Path, destination: Path, expected: Bytes, replace: bool, read: seq<Bytes>, io: CopyIO)
      returns (ok: bool)
      modifies this
      ensures ok <==>
        && source in old(files) && old(files)[source] == expected && (replace || destination !in old(files))
        && Concat(read) == expected && io.renamed && io.linked
      ensures ok ==> destination in files && files[destination] == expected
      ensures files == old(files) || files == old(files)[destination := expected]
      ensures !replace && destination in old(files) ==> files == old(files)
    {
      if source !in files || files[source] != expected {
        return false;
      }
      if !replace && destination in files {
        return false;
      }
      var tmp, limit, i := [], |expected| + 1, 0;
      while i < |read| && |tmp| < limit
        invariant 0 <= i <= |read| && |tmp| <= limit && files == old(files)
        invariant tmp == Truncate(Concat(read[..i]), limit)
      {
        ConcatSnoc(read[..i], read[i]);
        assert read[..i + 1] == read[..i] + [read[i]];
        tmp := Truncate(tmp + read[i], limit);
        i := i + 1;
      }
      ConcatGrows(read, i);
      assert i == |read| ==> read[..i] == read;
      if |tmp| != |expected| || tmp != expected {
        return false;
      }
      if !io.renamed {
        return false;
      }
      files := files[destination := tmp];
      ok := io.linked;
    }
  }

  /** Whether everything up to and including the rename succeeds, and then the directory's sync. */
  datatype CopyIO = CopyIO(renamed: bool, linked: bool)

  lemma {:induction false} ConcatGrows(chunks: seq<Bytes>, i: nat)
    requires i <= |chunks|
    ensures |Concat(chunks[..i])| <= |Concat(chunks)|
    decreases |chunks|
  {
    if i < |chunks| {
      var front := chunks[..|chunks| - 1];
      assert front[..i] == chunks[..i];
      ConcatGrows(front, i);
    } else {
      assert chunks[..i] == chunks;
    }
  }

  function Truncate(b: Bytes, limit: nat): Bytes {
    if |b| <= limit then b else b[..limit]
  }
}
