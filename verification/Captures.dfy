/** How a stream of the selected process is captured (`_capture_ready_streams` of
    `conformance/sq_evidence_process.py`): a chunk is read, written and counted in three
    steps, and the handler of a signal, or the write itself, may raise between any two
    of them. What is written is buffered, and on the disk only once it is flushed. */
module Captures {
  import opened Basics

  const STREAM_LIMIT: nat := 1024 * 1024
  const CHUNK: nat := 64 * 1024

  /** One output pipe and the file that captures it. `stream` is all the process ever
      writes to it and `delivered` how much of that has been read; `origin` says of
      every byte written to the file which byte of the stream it is, `flushed` how many
      of them have left the buffer, and `count` is the helper's own account of the
      file. `torn` says that an exception was raised inside the capture of a chunk that
      the file had room for. */
  datatype Pipe = Pipe(
    stream: seq<bv8>, delivered: nat, open: bool, eof: bool, origin: seq<nat>, flushed: nat, count: nat, torn: bool)

  function Positions(from: nat, n: nat): (r: seq<nat>)
    ensures |r| == n && forall i | 0 <= i < n :: r[i] == from + i
  {
    seq(n, i => from + i)
  }

  /** The bytes written to the captured file, its buffer included. */
  function File(q: Pipe): (r: seq<bv8>)
    requires Selected(q)
    ensures |r| == |q.origin| && forall i | 0 <= i < |r| :: r[i] == q.stream[q.origin[i]]
  {
    seq(|q.origin|, i requires 0 <= i < |q.origin| => q.stream[q.origin[i]])
  }

  /** The bytes that the operating system has. */
  function OnDisk(q: Pipe): seq<bv8>
    requires Selected(q) && q.flushed <= |q.origin|
  {
    File(q)[..q.flushed]
  }

  /** Nothing is left in the buffer. */
  predicate Emptied(q: Pipe) {
    q.flushed == |q.origin|
  }

  /** The file is made of delivered bytes, in their order and none of them twice. */
  ghost predicate Selected(q: Pipe) {
    && q.delivered <= |q.stream|
    && (forall i | 0 <= i < |q.origin| :: q.origin[i] < q.delivered)
    && (forall i, j | 0 <= i < j < |q.origin| :: q.origin[i] < q.origin[j])
  }

  /** The file is what was delivered, up to the limit, and the count is right. */
  ghost predicate Intact(q: Pipe) {
    && q.count == |q.origin| == Min(q.delivered, STREAM_LIMIT)
    && forall i | 0 <= i < |q.origin| :: q.origin[i] == i
  }

  /** The count is stale, or a byte within the limit is missing. */
  ghost predicate Damaged(q: Pipe) {
    || q.count < |q.origin|
    || exists k :: 0 <= k < Min(q.delivered, STREAM_LIMIT) && k !in q.origin
  }

  ghost predicate PipeInv(q: Pipe) {
    && Selected(q) && q.count <= STREAM_LIMIT && q.count <= |q.origin| && q.flushed <= |q.origin|
    && (q.eof ==> q.delivered == |q.stream| && !q.open)
    && (if q.torn then Damaged(q) else Intact(q))
  }

  /** The stream has ended, and the file is all of it. */
  ghost predicate Ended(q: Pipe) {
    PipeInv(q) && !q.open && !q.torn && File(q) == q.stream && |q.stream| <= STREAM_LIMIT
  }

  /** An intact file is a prefix of its stream, and only an untorn one is intact. */
  lemma IntactIffUntorn(q: Pipe)
    requires PipeInv(q)
    ensures Intact(q) <==> !q.torn
    ensures !q.torn ==> File(q) == q.stream[..q.count] && OnDisk(q) == q.stream[..q.flushed]
    ensures !q.torn && q.eof && q.delivered <= STREAM_LIMIT ==> File(q) == q.stream
  {
    forall k | Intact(q) && 0 <= k < |q.origin| ensures k in q.origin {
      assert q.origin[k] == k;
    }
  }

  // ---- The three steps -------------------------------------------------------------

  /** The file still has room, as far as the helper knows. */
  predicate HasRoom(q: Pipe) {
    q.count < STREAM_LIMIT
  }

  function Available(q: Pipe): nat
    requires q.count <= STREAM_LIMIT
  {
    STREAM_LIMIT - q.count
  }

  /** `os.read` has returned `n` bytes. */
  function Read(q: Pipe, n: nat): Pipe {
    q.(delivered := q.delivered + n)
  }

  /** `destination.write(chunk[:available])` of the last `n` bytes delivered, of which
      `kept` are taken, all of them unless it raises. */
  function Write(q: Pipe, n: nat, kept: nat): Pipe
    requires n <= q.delivered && q.count <= STREAM_LIMIT && kept <= Min(n, Available(q))
  {
    q.(origin := q.origin + Positions(q.delivered - n, kept))
  }

  /** The buffer is written out up to some byte, wherever it stood before. */
  function Flush(q: Pipe, to: nat): Pipe {
    q.(flushed := if q.flushed < to <= |q.origin| then to else q.flushed)
  }

  /** `counts[label] += min(len(chunk), available)`. */
  function Count(q: Pipe, n: nat): Pipe
    requires q.count <= STREAM_LIMIT
  {
    q.(count := q.count + Min(n, Available(q)))
  }

  /** Where an exception cuts the capture of a chunk short: it was read, and `kept` of
      its bytes were written, but it was not counted. */
  datatype Tear = Nowhere | Cut(kept: nat)

  /** One nonempty chunk (`sq_evidence_process.py:354-365`). */
  function Capture(q: Pipe, n: nat, tear: Tear): Pipe
    requires q.count <= STREAM_LIMIT
  {
    var read := Read(q, n);
    if !HasRoom(q) then read
    else
      var whole := Min(n, Available(q));
      match tear
      case Cut(kept) => Write(read, n, Min(kept, whole)).(torn := true)
      case Nowhere => Count(Write(read, n, whole), n)
  }

  /** Whatever is written was read just now, and is counted at most once. */
  lemma CaptureSelects(q: Pipe, n: nat, tear: Tear)
    requires Selected(q) && q.count <= STREAM_LIMIT && 0 < n <= |q.stream| - q.delivered
    ensures var r := Capture(q, n, tear);
            && Selected(r) && q.origin <= r.origin
            && (forall i | |q.origin| <= i < |r.origin| :: r.origin[i] == q.delivered + i - |q.origin|)
            && |q.origin| - q.count <= |r.origin| - r.count
  {
    hide Selected, Write, Positions;
    var whole := Min(n, Available(q));
    ReadSelects(q, n);
    if HasRoom(q) {
      var kept := if tear.Cut? then Min(tear.kept, whole) else whole;
      WriteSelects(q, n, kept);
      var w, r := Write(Read(q, n), n, kept), Capture(q, n, tear);
      assert r == w.(count := r.count, torn := r.torn);
    }
  }

  lemma ReadSelects(q: Pipe, n: nat)
    requires Selected(q) && n <= |q.stream| - q.delivered
    ensures Selected(Read(q, n)) && forall torn :: Selected(Read(q, n).(torn := torn))
  {
  }

  lemma WriteSelects(q: Pipe, n: nat, kept: nat)
    requires Selected(q) && q.count <= STREAM_LIMIT && n <= |q.stream| - q.delivered && kept <= Min(n, Available(q))
    ensures var r := Write(Read(q, n), n, kept);
            && r.count == q.count && r.delivered == q.delivered + n && r.stream == q.stream && r.torn == q.torn
            && r.open == q.open && r.eof == q.eof && r.flushed == q.flushed
            && (forall count, torn :: Selected(r.(count := count, torn := torn)))
            && q.origin <= r.origin && |r.origin| == |q.origin| + kept
            && (forall i | |q.origin| <= i < |r.origin| :: r.origin[i] == q.delivered + i - |q.origin|)
  {
    var r := Write(Read(q, n), n, kept);
    assert forall i | 0 <= i < |q.origin| :: r.origin[i] == q.origin[i];
    assert forall i | |q.origin| <= i < |r.origin| :: r.origin[i] == q.delivered + i - |q.origin|;
    assert Selected(r);
  }

  lemma CaptureKeeps(q: Pipe, n: nat, tear: Tear)
    requires PipeInv(q) && 0 < n <= |q.stream| - q.delivered
    ensures PipeInv(Capture(q, n, tear))
    ensures Capture(q, n, tear).torn <==> q.torn || (HasRoom(q) && tear != Nowhere)
  {
    hide Selected;
    var r := Capture(q, n, tear);
    CaptureSelects(q, n, tear);
    if q.torn {
      DamageStays(q, r);
    } else if r.torn && r.origin == q.origin {
      assert q.delivered == |q.origin|;
      assert 0 <= q.delivered < Min(r.delivered, STREAM_LIMIT) && q.delivered !in r.origin;
    }
  }

  lemma DamageStays(q: Pipe, r: Pipe)
    requires Damaged(q) && q.origin <= r.origin && q.delivered <= r.delivered
    requires forall i | |q.origin| <= i < |r.origin| :: r.origin[i] >= q.delivered
    requires |q.origin| - q.count <= |r.origin| - r.count
    ensures Damaged(r)
  {
    if q.count >= |q.origin| {
      var k :| 0 <= k < Min(q.delivered, STREAM_LIMIT) && k !in q.origin;
      forall i | 0 <= i < |r.origin| ensures r.origin[i] != k {
        if i < |q.origin| {
          assert r.origin[i] == q.origin[i] && q.origin[i] in q.origin;
        }
      }
      assert 0 <= k < Min(r.delivered, STREAM_LIMIT) && k !in r.origin;
    }
  }

  lemma FlushKeeps(q: Pipe, to: nat)
    requires PipeInv(q)
    ensures PipeInv(Flush(q, to)) && (Intact(q) <==> Intact(Flush(q, to)))
    ensures File(Flush(q, to)) == File(q) && OnDisk(q) <= OnDisk(Flush(q, to)) <= File(q)
  {
    assert Damaged(Flush(q, to)) <==> Damaged(q);
    assert File(Flush(q, to)) == File(q);
  }

  lemma Capturable(q: Pipe)
    requires PipeInv(q)
    ensures q.count <= STREAM_LIMIT && q.flushed <= |q.origin|
    ensures !q.torn ==> q.count == Min(q.delivered, STREAM_LIMIT)
  {
  }

  // ---- Whole runs --------------------------------------------------------------------

  /** A chunk, and how far the buffer is written out when its capture is over. */
  datatype Chunk = Chunk(size: nat, tear: Tear, flushed: nat)

  function Fresh(stream: seq<bv8>): Pipe {
    Pipe(stream, 0, true, false, [], 0, 0, false)
  }

  function Size(chunks: seq<Chunk>): nat {
    if chunks == [] then 0 else Size(chunks[..|chunks| - 1]) + chunks[|chunks| - 1].size
  }

  /** Nonempty chunks that the stream can have delivered. */
  predicate Deliverable(chunks: seq<Chunk>, stream: seq<bv8>) {
    Size(chunks) <= |stream| && forall i | 0 <= i < |chunks| :: 0 < chunks[i].size
  }

  function CaptureAll(stream: seq<bv8>, chunks: seq<Chunk>): (q: Pipe)
    ensures q.count <= STREAM_LIMIT
  {
    if chunks == [] then Fresh(stream)
    else
      var last := chunks[|chunks| - 1];
      Flush(Capture(CaptureAll(stream, chunks[..|chunks| - 1]), last.size, last.tear), last.flushed)
  }

  /** An exception was raised inside the capture of a chunk that began within the limit. */
  ghost predicate Interrupted(chunks: seq<Chunk>) {
    exists i :: 0 <= i < |chunks| && chunks[i].tear != Nowhere && Size(chunks[..i]) < STREAM_LIMIT
  }

  lemma InterruptedSteps(chunks: seq<Chunk>)
    requires chunks != []
    ensures var before, last := chunks[..|chunks| - 1], chunks[|chunks| - 1];
            Interrupted(chunks) <==> Interrupted(before) || (last.tear != Nowhere && Size(before) < STREAM_LIMIT)
  {
    var before := chunks[..|chunks| - 1];
    assert forall i | 0 <= i < |before| :: chunks[i] == before[i] && chunks[..i] == before[..i];
  }

  lemma {:induction false} CapturesKeep(stream: seq<bv8>, chunks: seq<Chunk>)
    requires Deliverable(chunks, stream)
    ensures var q := CaptureAll(stream, chunks);
            PipeInv(q) && q.stream == stream && q.delivered == Size(chunks) && (q.torn <==> Interrupted(chunks))
  {
    if chunks != [] {
      var before, last := chunks[..|chunks| - 1], chunks[|chunks| - 1];
      CapturesKeep(stream, before);
      CaptureKeeps(CaptureAll(stream, before), last.size, last.tear);
      FlushKeeps(Capture(CaptureAll(stream, before), last.size, last.tear), last.flushed);
      InterruptedSteps(chunks);
    }
  }

  /** For every stream and every run of captures: the file is the delivered prefix,
      rightly counted, exactly when no exception was raised inside the capture of a
      chunk that began within the limit. */
  lemma IntactIff(stream: seq<bv8>, chunks: seq<Chunk>)
    requires Deliverable(chunks, stream)
    ensures Intact(CaptureAll(stream, chunks)) <==> !Interrupted(chunks)
    ensures var q := CaptureAll(stream, chunks);
            PipeInv(q) && (!Interrupted(chunks) ==> OnDisk(q) <= File(q) == stream[..Min(Size(chunks), STREAM_LIMIT)])
  {
    CapturesKeep(stream, chunks);
    IntactIffUntorn(CaptureAll(stream, chunks));
  }

  /** The failing run: a chunk is read, the handler raises, and the final drain appends
      the next chunk behind the hole. */
  lemma TornFile()
    ensures var stream: seq<bv8>, chunks := [1, 2], [Chunk(1, Cut(0), 0), Chunk(1, Nowhere, 0)];
            && Deliverable(chunks, stream) && Selected(CaptureAll(stream, chunks))
            && File(CaptureAll(stream, chunks)) == [2] && !([2] <= stream)
  {
    hide CaptureAll, PipeInv;
    var stream: seq<bv8>, chunks := [1, 2], [Chunk(1, Cut(0), 0), Chunk(1, Nowhere, 0)];
    assert chunks[..1] == [Chunk(1, Cut(0), 0)] && chunks[..1][..0] == [];
    assert Size(chunks) == Size(chunks[..1]) + 1 && Size(chunks[..1]) == Size(chunks[..1][..0]) + 1;
    TornPipe(stream);
    var file: seq<bv8> := [2];
    assert file[0] == 2 && stream[0] == 1;
  }

  lemma TornPipe(stream: seq<bv8>)
    requires |stream| == 2
    ensures CaptureAll(stream, [Chunk(1, Cut(0), 0), Chunk(1, Nowhere, 0)])
         == Pipe(stream, 2, true, false, [1], 0, 1, true)
  {
    var chunks := [Chunk(1, Cut(0), 0), Chunk(1, Nowhere, 0)];
    assert chunks[..1] == [Chunk(1, Cut(0), 0)] && chunks[..1][..0] == [];
    var first := Capture(Fresh(stream), 1, Cut(0));
    assert CaptureAll(stream, chunks[..1]) == first == Pipe(stream, 1, true, false, [], 0, 0, true);
    assert Positions(1, 1) == [1];
    assert Capture(first, 1, Nowhere) == Pipe(stream, 2, true, false, [1], 0, 1, true);
  }

  /** A stale count also lets the drain write beyond the limit. */
  lemma OverfullFile(stream: seq<bv8>)
    requires |stream| > STREAM_LIMIT
    ensures var chunks := [Chunk(1, Cut(1), 0)] + seq(16, _ => Chunk(CHUNK, Nowhere, 0));
            && Deliverable(chunks, stream) && Selected(CaptureAll(stream, chunks))
            && |File(CaptureAll(stream, chunks))| == STREAM_LIMIT + 1
  {
    StaleCount(stream, 16);
    CapturesKeep(stream, [Chunk(1, Cut(1), 0)] + seq(16, _ => Chunk(CHUNK, Nowhere, 0)));
  }

  lemma FullChunk(q: Pipe)
    requires q.count + CHUNK <= STREAM_LIMIT
    ensures var r := Capture(q, CHUNK, Nowhere);
            r.count == q.count + CHUNK && |r.origin| == |q.origin| + CHUNK && r.delivered == q.delivered + CHUNK
  {
  }

  lemma {:induction false} StaleCount(stream: seq<bv8>, k: nat)
    requires k <= 16
    ensures var chunks := [Chunk(1, Cut(1), 0)] + seq(k, _ => Chunk(CHUNK, Nowhere, 0));
            var q := CaptureAll(stream, chunks);
            && Size(chunks) == 1 + k * CHUNK
            && q.count == k * CHUNK && |q.origin| == 1 + k * CHUNK && q.delivered == Size(chunks)
  {
    hide Capture;
    var chunks := [Chunk(1, Cut(1), 0)] + seq(k, _ => Chunk(CHUNK, Nowhere, 0));
    if k == 0 {
      assert chunks == [Chunk(1, Cut(1), 0)] && chunks[..0] == [];
      FirstIsStale(stream);
    } else {
      StaleCount(stream, k - 1);
      assert chunks[..|chunks| - 1] == [Chunk(1, Cut(1), 0)] + seq(k - 1, _ => Chunk(CHUNK, Nowhere, 0));
      FullChunk(CaptureAll(stream, chunks[..|chunks| - 1]));
    }
  }

  lemma FirstIsStale(stream: seq<bv8>)
    ensures var q := Capture(Fresh(stream), 1, Cut(1));
            q.count == 0 && |q.origin| == 1 && q.delivered == 1
  {
  }

  // ---- The files as they are left --------------------------------------------------------

  /** How far the two closes at the end of `run_process` come
      (`sq_evidence_process.py:564-565`). A close that raises may have flushed a part,
      and the second never comes after it; neither comes if the helper is interrupted
      or killed before. */
  datatype Fate = NotReached | FirstRaises(to: nat) | FirstOnly | SecondRaises(to: nat) | Both

  function Close(q: Pipe): Pipe {
    q.(flushed := |q.origin|)
  }

  function CloseFiles(output: Pipe, errors: Pipe, fate: Fate): (Pipe, Pipe) {
    match fate
    case NotReached => (output, errors)
    case FirstRaises(to) => (Flush(output, to), errors)
    case FirstOnly => (Close(output), errors)
    case SecondRaises(to) => (Close(output), Flush(errors, to))
    case Both => (Close(output), Close(errors))
  }

  /** Both streams are on the disk, to their ends. */
  ghost predicate BothOnDisk(files: (Pipe, Pipe))
    requires PipeInv(files.0) && PipeInv(files.1)
  {
    OnDisk(files.0) == files.0.stream && OnDisk(files.1) == files.1.stream
  }

  lemma CloseKeeps(output: Pipe, errors: Pipe, fate: Fate)
    requires PipeInv(output) && PipeInv(errors)
    ensures var files := CloseFiles(output, errors, fate);
            && PipeInv(files.0) && PipeInv(files.1)
            && files.0 == output.(flushed := files.0.flushed) && files.1 == errors.(flushed := files.1.flushed)
            && (Ended(output) ==> Ended(files.0)) && (Ended(errors) ==> Ended(files.1))
            && (fate.Both? ==> Emptied(files.0) && Emptied(files.1))
  {
    hide PipeInv;
    CloseIsSame(output);
    CloseIsSame(errors);
    match fate
    case FirstRaises(to) => FlushIsSame(output, to);
    case SecondRaises(to) => FlushIsSame(errors, to);
    case _ =>
  }

  lemma FlushIsSame(q: Pipe, to: nat)
    requires PipeInv(q)
    ensures PipeInv(Flush(q, to)) && (Ended(q) ==> Ended(Flush(q, to)))
  {
    FlushKeeps(q, to);
  }

  lemma CloseIsSame(q: Pipe)
    requires PipeInv(q)
    ensures PipeInv(Close(q)) && (Ended(q) ==> Ended(Close(q)))
  {
    FlushKeeps(q, |q.origin|);
    assert Close(q) == Flush(q, |q.origin|);
  }

  /** For every pair of files that were captured to their ends, however far the closes
      come: what is on the disk is complete if and only if both closes succeeded, or
      nothing is left in either buffer. */
  lemma OnDiskIff(output: Pipe, errors: Pipe, fate: Fate)
    requires Ended(output) && Ended(errors)
    ensures var files := CloseFiles(output, errors, fate);
            && PipeInv(files.0) && PipeInv(files.1)
            && (BothOnDisk(files) <==> fate.Both? || (Emptied(files.0) && Emptied(files.1)))
  {
    hide CloseFiles;
    CloseKeeps(output, errors, fate);
    var files := CloseFiles(output, errors, fate);
    EndedOnDisk(files.0);
    EndedOnDisk(files.1);
  }

  lemma EndedOnDisk(q: Pipe)
    requires Ended(q)
    ensures OnDisk(q) == q.stream[..q.flushed]
    ensures OnDisk(q) == q.stream <==> Emptied(q)
  {
  }

  /** For every stream captured to its end, in whatever chunks and with whatever flushes:
      before the close it is on the disk if and only if the capture of its last chunk
      flushed all of it. Nothing that was flushed earlier helps. */
  lemma OnDiskBeforeClose(stream: seq<bv8>, chunks: seq<Chunk>)
    requires Deliverable(chunks, stream) && !Interrupted(chunks) && Size(chunks) == |stream| <= STREAM_LIMIT
    ensures var q := CaptureAll(stream, chunks);
            && PipeInv(q) && File(q) == stream
            && (OnDisk(q) == stream <==> chunks == [] || chunks[|chunks| - 1].flushed == |stream|)
  {
    hide PipeInv, Capture, Flush, Size, CaptureAll, Interrupted;
    CapturesKeep(stream, chunks);
    var q := CaptureAll(stream, chunks);
    IntactIffUntorn(q);
    Capturable(q);
    FileIsEnough(q);
    if chunks == [] {
      NothingCaptured(stream);
    } else {
      LastCapture(stream, chunks);
    }
  }

  lemma NothingCaptured(stream: seq<bv8>)
    ensures Size([]) == 0 && CaptureAll(stream, []) == Fresh(stream)
  {
  }

  lemma FileIsEnough(q: Pipe)
    requires PipeInv(q) && !q.torn && q.delivered == |q.stream| <= STREAM_LIMIT
    ensures File(q) == q.stream && (OnDisk(q) == q.stream <==> q.flushed == |q.stream|)
  {
    IntactIffUntorn(q);
  }

  lemma LastCapture(stream: seq<bv8>, chunks: seq<Chunk>)
    requires chunks != [] && Deliverable(chunks, stream) && !Interrupted(chunks)
    requires Size(chunks) == |stream| <= STREAM_LIMIT
    ensures CaptureAll(stream, chunks).flushed == |stream| <==> chunks[|chunks| - 1].flushed == |stream|
  {
    hide PipeInv, Capture, Flush, Interrupted;
    var before, last := chunks[..|chunks| - 1], chunks[|chunks| - 1];
    CapturesKeep(stream, before);
    InterruptedSteps(chunks);
    Capturable(CaptureAll(stream, before));
    LastFlush(CaptureAll(stream, before), last.size, last.flushed);
  }

  lemma LastFlush(q: Pipe, n: nat, to: nat)
    requires PipeInv(q) && !q.torn && 0 < n && q.delivered + n <= STREAM_LIMIT
    ensures Flush(Capture(q, n, Nowhere), to).flushed == q.delivered + n <==> to == q.delivered + n
  {
  }

  /** The failing run: an output that one read takes and the buffer holds is complete to
      the helper, which goes on to write the status, and not on the disk; killed before
      the closes, the helper leaves an empty file beside the status. */
  lemma BufferedFile(stream: seq<bv8>, errors: Pipe)
    requires 0 < |stream| <= CHUNK && Ended(errors)
    ensures var q := CaptureAll(stream, [Chunk(|stream|, Nowhere, 0)]).(open := false, eof := true);
            && Ended(q) && OnDisk(q) == [] && !BothOnDisk(CloseFiles(q, errors, NotReached))
  {
    hide CaptureAll, Capture;
    OneChunk(stream);
    var q := Pipe(stream, |stream|, false, true, Positions(0, |stream|), 0, |stream|, false);
    IntactIffUntorn(q);
    EndedOnDisk(q);
  }

  lemma OneChunk(stream: seq<bv8>)
    requires 0 < |stream| <= CHUNK
    ensures CaptureAll(stream, [Chunk(|stream|, Nowhere, 0)])
         == Pipe(stream, |stream|, true, false, Positions(0, |stream|), 0, |stream|, false)
  {
    var chunks := [Chunk(|stream|, Nowhere, 0)];
    assert chunks[..0] == [];
    assert Capture(Fresh(stream), |stream|, Nowhere).origin == Positions(0, |stream|);
  }
}
