/**
 * `main`: build the port pool, resolve the size, fetch every chunk whose
 * progress file is not already complete, verify that every progress file
 * is complete, then concatenate them in index order into the output and
 * remove them. Dispatch to the worker pool is a plain call, since `main`
 * waits for each chunk before it submits the next.
 */
module Download {
  import opened Common
  import opened Ports
  import opened SizeProbe
  import opened ChunkPlan
  import opened Fetcher

  /** How a run ends. */
  datatype Outcome =
    | SizeUnknown               // "Cannot determine file size", exit status 1
    | SizeNotInteger(text: string)  // the ValueError `int()` raised in get_file_size
    | ProgressFileBad(index: nat)   // "Progress file ... is missing or has incorrect size", exit status 1
    | Written(output: seq<byte>)    // the contents of the output file

  /** The network's answers for a run: chunk index to the answers to that chunk's requests. */
  type Network = nat -> Responses

  /**
   * The progress file of chunk `i` exists and has exactly the expected size:
   * the test of both the skip and the verification. A complete file is
   * exactly as long as the range requested for its chunk.
   */
  predicate Complete(files: Files, size: int, i: nat)
    ensures Complete(files, size, i) ==> i in files && |files[i]| == RangeLength(ChunkRange(size, i))
  {
    i in files && |files[i]| == ExpectedSize(size, i)
  }

  /** Progress files `0 .. k-1` are all complete. */
  predicate AllComplete(files: Files, size: int, k: nat)
  {
    forall i :: 0 <= i < k ==> i in files && |files[i]| == ExpectedSize(size, i)
  }

  /**
   * The scratch directory after `main` has handled chunk `i`: skipped it, or
   * dispatched `download_chunk`. Only progress file `i` can change; a
   * complete one is kept as it was; and it is complete afterwards exactly
   * when it was complete before or its fetch succeeded.
   */
  function FetchStep(size: int, files: Files, net: Network, i: nat): (r: Files)
    ensures forall j :: j != i ==> (j in r <==> j in files)
    ensures forall j :: j != i && j in files ==> r[j] == files[j]
    ensures Complete(files, size, i) ==> r == files
    ensures Complete(r, size, i) <==> Complete(files, size, i) || Fetch(ChunkRange(size, i), net(i)).data.Some?
  {
    if Complete(files, size, i) then files
    else match Fetch(ChunkRange(size, i), net(i)).data
      case Some(d) => files[i := d]
      case None => files
  }

  /**
   * The scratch directory after the fetch loop has handled chunks `0 .. k-1`.
   * It removes no progress file, and creates none outside `0 .. k-1`.
   */
  function AfterFetch(size: int, files: Files, net: Network, k: nat): (r: Files)
    ensures forall j :: j in files ==> j in r
    ensures forall j :: j in r ==> j in files || j < k
  {
    if k == 0 then files else FetchStep(size, AfterFetch(size, files, net, k - 1), net, k - 1)
  }

  /** The chunks among `0 .. k-1`, in order, for which `download_chunk` is called. */
  function Pending(size: int, files: Files, k: nat): seq<nat>
  {
    if k == 0 then [] else Pending(size, files, k - 1) + (if Complete(files, size, k - 1) then [] else [k - 1])
  }

  /** The progress-file indices `0 .. k-1`. */
  function Indices(k: nat): (r: set<nat>)
    ensures forall j: nat :: j in r <==> j < k
  {
    if k == 0 then {} else Indices(k - 1) + {k - 1}
  }

  /** The first incomplete progress file among `i .. n-1`, if any. */
  function FirstIncomplete(files: Files, size: int, i: nat, n: nat): (r: Option<nat>)
    requires i <= n
    ensures r.None? <==> forall j :: i <= j < n ==> j in files && |files[j]| == ExpectedSize(size, j)
    ensures r.Some? ==> i <= r.value < n && !Complete(files, size, r.value)
    ensures r.Some? ==> forall j :: i <= j < r.value ==> Complete(files, size, j)
    decreases n - i
  {
    if i == n then None
    else if !Complete(files, size, i) then Some(i)
    else FirstIncomplete(files, size, i + 1, n)
  }

  /**
   * The progress files `0 .. k-1` concatenated in index order: `k` full
   * chunks make `k * 2^20` bytes.
   */
  function Concat(files: Files, k: nat): (r: seq<byte>)
    requires forall i :: 0 <= i < k ==> i in files
    ensures (forall i :: 0 <= i < k ==> |files[i]| == ChunkSize) ==> |r| == k * ChunkSize
  {
    if k == 0 then [] else Concat(files, k - 1) + files[k - 1]
  }

  /** The fetch loop touches only the chunks it has handled: files from `k` on are as they were. */
  lemma {:induction false} AfterFetchLeavesRest(size: int, files: Files, net: Network, k: nat, j: nat)
    requires k <= j
    ensures j in AfterFetch(size, files, net, k) <==> j in files
    ensures j in files ==> AfterFetch(size, files, net, k)[j] == files[j]
  {
    if k > 0 {
      AfterFetchLeavesRest(size, files, net, k - 1, j);
    }
  }

  /** One more pass of the fetch loop decides chunk `i` on the file as it was at start. */
  lemma FetchLoopStep(size: int, files: Files, net: Network, i: nat)
    ensures AfterFetch(size, files, net, i + 1) == FetchStep(size, AfterFetch(size, files, net, i), net, i)
    ensures Complete(AfterFetch(size, files, net, i), size, i) == Complete(files, size, i)
    ensures Pending(size, files, i + 1) ==
      Pending(size, files, i) + if Complete(AfterFetch(size, files, net, i), size, i) then [] else [i]
  {
    AfterFetchLeavesRest(size, files, net, i, i);
  }

  /** Progress file `i` of a scratch directory, or `None` when it is missing. */
  function Entry(files: Files, i: nat): Option<seq<byte>>
  {
    if i in files then Some(files[i]) else None
  }

  /**
   * Handling chunk `i` looks only at progress file `i`: two scratch
   * directories that agree on it are left agreeing on it.
   */
  lemma FetchStepLocal(size: int, a: Files, b: Files, net: Network, i: nat)
    requires Entry(a, i) == Entry(b, i)
    ensures Entry(FetchStep(size, a, net, i), i) == Entry(FetchStep(size, b, net, i), i)
  {
    assert Complete(a, size, i) == Complete(b, size, i);
  }

  /** The pass for chunk `i` finds progress file `i` as it was at start, so it leaves what handling `i` alone would. */
  lemma AfterOwnStep(size: int, files: Files, net: Network, i: nat)
    ensures Entry(AfterFetch(size, files, net, i + 1), i) == Entry(FetchStep(size, files, net, i), i)
  {
    var prev := AfterFetch(size, files, net, i);
    assert AfterFetch(size, files, net, i + 1) == FetchStep(size, prev, net, i);
    AfterFetchLeavesRest(size, files, net, i, i);
    assert Entry(prev, i) == Entry(files, i);
    FetchStepLocal(size, prev, files, net, i);
  }

  /** A later pass, for chunk `k-1`, leaves progress file `i` as it was. */
  lemma AfterLaterStep(size: int, files: Files, net: Network, k: nat, i: nat)
    requires i < k - 1
    ensures Entry(AfterFetch(size, files, net, k), i) == Entry(AfterFetch(size, files, net, k - 1), i)
  {
    var prev := AfterFetch(size, files, net, k - 1);
    assert AfterFetch(size, files, net, k) == FetchStep(size, prev, net, k - 1);
  }

  /**
   * After the fetch loop has handled chunks `0 .. k-1`, the progress file of
   * a handled chunk `i` is what handling `i` alone would have made of the
   * scratch directory at start: the loop decides each chunk on its own file.
   */
  lemma {:induction false} AfterFetchEntry(size: int, files: Files, net: Network, k: nat, i: nat)
    requires i < k
    ensures Entry(AfterFetch(size, files, net, k), i) == Entry(FetchStep(size, files, net, i), i)
  {
    if i == k - 1 {
      AfterOwnStep(size, files, net, i);
    } else {
      AfterFetchEntry(size, files, net, k - 1, i);
      AfterLaterStep(size, files, net, k, i);
    }
  }

  /**
   * What the fetch loop leaves for a handled chunk `i`: a progress file that
   * was complete is kept as it was (it was skipped, without any request);
   * otherwise a fetch that succeeded wrote its body, and one that failed
   * left the file as it was. The file is complete afterwards exactly when it
   * was complete before or its fetch succeeded.
   */
  lemma AfterFetchChunk(size: int, files: Files, net: Network, k: nat, i: nat)
    requires i < k
    ensures Complete(files, size, i) ==> i in AfterFetch(size, files, net, k) && AfterFetch(size, files, net, k)[i] == files[i]
    ensures !Complete(files, size, i) && Fetch(ChunkRange(size, i), net(i)).data.Some? ==>
      i in AfterFetch(size, files, net, k) && AfterFetch(size, files, net, k)[i] == Fetch(ChunkRange(size, i), net(i)).data.value
    ensures !Complete(files, size, i) && Fetch(ChunkRange(size, i), net(i)).data.None? ==>
      (i in AfterFetch(size, files, net, k) <==> i in files) &&
      (i in files ==> AfterFetch(size, files, net, k)[i] == files[i])
    ensures Complete(AfterFetch(size, files, net, k), size, i) <==>
      Complete(files, size, i) || Fetch(ChunkRange(size, i), net(i)).data.Some?
  {
    AfterFetchEntry(size, files, net, k, i);
    var step := FetchStep(size, files, net, i);
    assert Entry(AfterFetch(size, files, net, k), i) == Entry(step, i);
    assert Complete(AfterFetch(size, files, net, k), size, i) == Complete(step, size, i);
  }

  /** `download_chunk` is called for chunk `i` exactly when its progress file is missing or has another size than expected. */
  lemma {:induction false} PendingIff(size: int, files: Files, k: nat, i: nat)
    ensures i in Pending(size, files, k) <==> i < k && !Complete(files, size, i)
  {
    if k > 0 {
      PendingIff(size, files, k - 1, i);
    }
  }

  /** Resuming with every progress file complete makes no request and changes no file. */
  lemma {:induction false} ResumeFetchesNothing(size: int, files: Files, net: Network, k: nat)
    requires AllComplete(files, size, k)
    ensures Pending(size, files, k) == []
    ensures AfterFetch(size, files, net, k) == files
  {
    if k > 0 {
      ResumeFetchesNothing(size, files, net, k - 1);
    }
  }

  /** With the first `k` progress files complete, their concatenation has `min(k * 2^20, size)` bytes. */
  lemma {:induction false} ConcatLength(files: Files, size: int, k: nat)
    requires size > 0 && k <= NumChunks(size)
    requires AllComplete(files, size, k)
    ensures |Concat(files, k)| == Min(k * ChunkSize, size)
  {
    if k > 0 {
      ConcatLength(files, size, k - 1);
      assert |files[k - 1]| == ExpectedSize(size, k - 1);
    }
  }

  /** With the first `k` progress files complete, the bytes of chunk `i`'s range in their concatenation are progress file `i`. */
  lemma {:induction false} ConcatChunk(files: Files, size: int, k: nat, i: nat)
    requires size > 0 && i < k <= NumChunks(size)
    requires AllComplete(files, size, k)
    ensures ChunkRange(size, i).1 + 1 <= |Concat(files, k)|
    ensures Concat(files, k)[ChunkRange(size, i).0 .. ChunkRange(size, i).1 + 1] == files[i]
  {
    var prefix := Concat(files, k - 1);
    var r := ChunkRange(size, i);
    assert Concat(files, k) == prefix + files[k - 1];
    ConcatLength(files, size, k - 1);
    if i < k - 1 {
      ConcatChunk(files, size, k - 1, i);
      assert r.1 + 1 <= |prefix|;
      assert Concat(files, k)[r.0 .. r.1 + 1] == prefix[r.0 .. r.1 + 1];
    } else {
      assert |prefix| == r.0;
      assert r.1 + 1 == |prefix| + |files[k - 1]|;
      assert (prefix + files[k - 1])[|prefix| ..] == files[k - 1];
    }
  }

  /**
   * One pass of `main`'s fetch loop: chunk `i` is skipped when its progress
   * file is complete, and otherwise `download_chunk` is called for its range
   * (the result is ignored). `dispatched` says whether the call was made.
   */
  method HandleChunk(size: int, i: nat, files: Files, pm: PortManager, net: Network)
    returns (files': Files, ghost dispatched: bool)
    requires pm.Valid() && false in pm.Flags()
    modifies pm.ports
    ensures files' == FetchStep(size, files, net, i)
    ensures dispatched == !Complete(files, size, i)
    ensures pm.Flags() == old(pm.Flags())
  {
    if Complete(files, size, i) {
      return files, false;
    }
    var byterange := ChunkRange(size, i);
    var result;
    ghost var attempts;
    result, files', attempts := DownloadChunk(byterange, i, files, pm, net(i));
    dispatched := true;
  }

  /**
   * The fetch loop of `main` (`for i in range(num_chunks)`) over every
   * chunk. Every call of `download_chunk` gives its port back, so the pool's
   * flags end as they began.
   */
  method FetchAll(size: int, files: Files, pm: PortManager, net: Network)
    returns (files': Files, ghost dispatched: seq<nat>)
    requires size > 0
    requires pm.Valid() && false in pm.Flags()
    modifies pm.ports
    ensures files' == AfterFetch(size, files, net, NumChunks(size))
    ensures dispatched == Pending(size, files, NumChunks(size))
    ensures pm.Flags() == old(pm.Flags())
  {
    files', dispatched := files, [];
    var n := NumChunks(size);
    for i := 0 to n
      invariant files' == AfterFetch(size, files, net, i)
      invariant dispatched == Pending(size, files, i)
      invariant pm.Flags() == old(pm.Flags())
    {
      FetchLoopStep(size, files, net, i);
      ghost var called;
      files', called := HandleChunk(size, i, files', pm, net);
      if called {
        dispatched := dispatched + [i];
      }
    }
  }

  /**
   * The verification loop of `main`: finds the first progress file that is
   * missing or has another size than expected, or reports that there is none.
   */
  method VerifyAll(size: int, files: Files) returns (bad: Option<nat>)
    requires size > 0
    ensures bad == FirstIncomplete(files, size, 0, NumChunks(size))
  {
    var n := NumChunks(size);
    for i := 0 to n
      invariant FirstIncomplete(files, size, 0, n) == FirstIncomplete(files, size, i, n)
    {
      if !Complete(files, size, i) {
        return Some(i);
      }
    }
    return None;
  }

  /**
   * The reassembly loop of `main`: appends progress files `0 .. n-1` to the
   * output in index order, removing each one after it is copied. It runs only
   * after verification, so every file it reads is complete; the output then
   * has exactly `size` bytes, and each chunk's range of it holds that chunk's file.
   */
  method Reassemble(size: int, files: Files) returns (output: seq<byte>, files': Files)
    requires size > 0
    requires AllComplete(files, size, NumChunks(size))
    ensures output == Concat(files, NumChunks(size))
    ensures |output| == size
    ensures forall i :: 0 <= i < NumChunks(size) ==>
      output[ChunkRange(size, i).0 .. ChunkRange(size, i).1 + 1] == files[i]
    ensures files' == files - Indices(NumChunks(size))
  {
    var n := NumChunks(size);
    output, files' := [], files;
    for i := 0 to n
      invariant output == Concat(files, i)
      invariant files' == files - Indices(i)
    {
      output := output + files'[i];
      files' := files' - {i};
    }
    ConcatLength(files, size, n);
    forall i | 0 <= i < n
      ensures output[ChunkRange(size, i).0 .. ChunkRange(size, i).1 + 1] == files[i]
    {
      ConcatChunk(files, size, n, i);
    }
  }

  /** `[Port(start_port + i) for i in range(thread_count)]`: fresh, distinct, free ports. */
  method MakePorts(startPort: int, threadCount: nat) returns (ports: seq<Port>)
    ensures |ports| == threadCount && Distinct(ports)
    ensures forall i :: 0 <= i < threadCount ==> fresh(ports[i]) && ports[i].value == startPort + i && !ports[i].busy
  {
    ports := [];
    for i := 0 to threadCount
      invariant |ports| == i && Distinct(ports)
      invariant forall j :: 0 <= j < i ==> fresh(ports[j]) && ports[j].value == startPort + j && !ports[j].busy
    {
      var port := new Port(startPort + i);
      ports := ports + [port];
    }
  }

  /**
   * What a run produces, from the size probe's replies, the scratch
   * directory at start, and the network's answers. A size `main` rejects
   * ends the run before any chunk work, with the scratch directory
   * untouched; an unreadable size is reported as such; chunk work happens
   * only with a usable size.
   */
  function RunSpec(head: Reply, get: Reply, files: Files, net: Network): (res: (Outcome, Files))
    ensures !UsableSize(ResolveSize(head, get)) ==> (res.0.SizeUnknown? || res.0.SizeNotInteger?) && res.1 == files
    ensures res.0.SizeNotInteger? <==> ResolveSize(head, get).IntError?
    ensures res.0.Written? || res.0.ProgressFileBad? ==> UsableSize(ResolveSize(head, get))
  {
    match ResolveSize(head, get)
    case IntError(text) => (SizeNotInteger(text), files)
    case NoSize => (SizeUnknown, files)
    case Size(size) =>
      if size <= 0 then (SizeUnknown, files)
      else
        var n := NumChunks(size);
        var fetched := AfterFetch(size, files, net, n);
        match FirstIncomplete(fetched, size, 0, n)
        case Some(i) => (ProgressFileBad(i), fetched)
        case None => (Written(Concat(fetched, n)), fetched - Indices(n))
  }

  /**
   * `main` after argument parsing, with the size probe's two replies, the
   * scratch directory at start and the network's answers as inputs; it
   * returns how the run ends and the scratch directory it leaves. The
   * original hangs in `get_port` when `thread_count` is not positive.
   */
  method Run(startPort: int, threadCount: int, head: Reply, get: Reply, files: Files, net: Network)
    returns (outcome: Outcome, files': Files)
    requires threadCount > 0
    ensures (outcome, files') == RunSpec(head, get, files, net)
  {
    var ports := MakePorts(startPort, threadCount);
    var pm := new PortManager(ports);
    assert pm.Flags()[0] == false;
    var probe := GetFileSize(pm, head, get);
    match probe {
      case IntError(text) =>
        return SizeNotInteger(text), files;
      case NoSize =>
        return SizeUnknown, files;
      case Size(size) =>
        if size <= 0 {
          return SizeUnknown, files;
        }
        ClearAll(ports);
        assert pm.Flags()[0] == false;
        ghost var dispatched;
        files', dispatched := FetchAll(size, files, pm, net);
        var bad := VerifyAll(size, files');
        if bad.Some? {
          return ProgressFileBad(bad.value), files';
        }
        var output;
        output, files' := Reassemble(size, files');
        outcome := Written(output);
    }
  }

  /**
   * With a usable size, the output file is written exactly when every chunk
   * either had a complete progress file at start or was fetched.
   */
  lemma RunSucceedsIff(head: Reply, get: Reply, files: Files, net: Network)
    requires UsableSize(ResolveSize(head, get))
    ensures var size := ResolveSize(head, get).n;
      RunSpec(head, get, files, net).0.Written? <==>
      forall i :: 0 <= i < NumChunks(size) ==>
        Complete(files, size, i) || Fetch(ChunkRange(size, i), net(i)).data.Some?
  {
    var size := ResolveSize(head, get).n;
    var n := NumChunks(size);
    var fetched := AfterFetch(size, files, net, n);
    forall i | 0 <= i < n
      ensures Complete(fetched, size, i) <==> Complete(files, size, i) || Fetch(ChunkRange(size, i), net(i)).data.Some?
    {
      AfterFetchChunk(size, files, net, n, i);
    }
  }

  /** A written run had a usable size, found every progress file complete after the fetch loop, and wrote their concatenation. */
  lemma RunSpecWritten(head: Reply, get: Reply, files: Files, net: Network)
    requires RunSpec(head, get, files, net).0.Written?
    ensures UsableSize(ResolveSize(head, get))
    ensures var size := ResolveSize(head, get).n;
      var fetched := AfterFetch(size, files, net, NumChunks(size));
      && AllComplete(fetched, size, NumChunks(size))
      && RunSpec(head, get, files, net) == (Written(Concat(fetched, NumChunks(size))), fetched - Indices(NumChunks(size)))
  {
    var size := ResolveSize(head, get).n;
    var n := NumChunks(size);
    assert FirstIncomplete(AfterFetch(size, files, net, n), size, 0, n).None?;
  }

  /**
   * Chunk `i`'s range of `output` holds the progress file that was complete
   * at start, or else the body the fetch of chunk `i` accepted.
   */
  predicate HoldsChunk(output: seq<byte>, size: int, files: Files, net: Network, i: nat)
  {
    var r := ChunkRange(size, i);
    && 0 <= r.0 <= r.1 + 1 <= |output|
    && (Complete(files, size, i) ==> output[r.0 .. r.1 + 1] == files[i])
    && (!Complete(files, size, i) ==> Fetch(r, net(i)).data == Some(output[r.0 .. r.1 + 1]))
  }

  /**
   * A written output file has exactly `size` bytes; the bytes of chunk `i`'s
   * range are the progress file found complete at start, or else the body
   * the fetch of chunk `i` accepted; and no progress file `0 .. n-1` is left.
   */
  lemma RunWritesWholeFile(head: Reply, get: Reply, files: Files, net: Network)
    requires RunSpec(head, get, files, net).0.Written?
    ensures UsableSize(ResolveSize(head, get))
    ensures var size := ResolveSize(head, get).n;
      var output := RunSpec(head, get, files, net).0.output;
      && |output| == size
      && (forall i :: 0 <= i < NumChunks(size) ==> HoldsChunk(output, size, files, net, i))
      && (forall i: nat :: i < NumChunks(size) ==> i !in RunSpec(head, get, files, net).1)
  {
    RunSpecWritten(head, get, files, net);
    var size := ResolveSize(head, get).n;
    var n := NumChunks(size);
    var fetched := AfterFetch(size, files, net, n);
    ConcatLength(fetched, size, n);
    forall i | 0 <= i < n
      ensures HoldsChunk(Concat(fetched, n), size, files, net, i)
    {
      WrittenChunk(size, files, net, i);
    }
  }

  /** Once every progress file is complete after the fetch loop, their concatenation holds every chunk's resumed file or fetched body. */
  lemma WrittenChunk(size: int, files: Files, net: Network, i: nat)
    requires size > 0 && i < NumChunks(size)
    requires AllComplete(AfterFetch(size, files, net, NumChunks(size)), size, NumChunks(size))
    ensures HoldsChunk(Concat(AfterFetch(size, files, net, NumChunks(size)), NumChunks(size)), size, files, net, i)
  {
    var n := NumChunks(size);
    ConcatChunk(AfterFetch(size, files, net, n), size, n, i);
    AfterFetchChunk(size, files, net, n, i);
  }

  /**
   * Resuming with every progress file complete makes no request, whatever
   * the network would answer, and writes the concatenation of those files.
   */
  lemma ResumeNeedsNoNetwork(head: Reply, get: Reply, files: Files, net: Network)
    requires UsableSize(ResolveSize(head, get))
    requires AllComplete(files, ResolveSize(head, get).n, NumChunks(ResolveSize(head, get).n))
    ensures Pending(ResolveSize(head, get).n, files, NumChunks(ResolveSize(head, get).n)) == []
    ensures RunSpec(head, get, files, net).0 == Written(Concat(files, NumChunks(ResolveSize(head, get).n)))
  {
    var size := ResolveSize(head, get).n;
    ResumeFetchesNothing(size, files, net, NumChunks(size));
  }

  /**
   * A chunk without a complete progress file whose requests all fail makes
   * the verification reject the run at or before that chunk; every progress
   * file that was complete or was fetched is left complete on disk.
   */
  lemma FailedChunkAbortsRun(head: Reply, get: Reply, files: Files, net: Network, i: nat)
    requires UsableSize(ResolveSize(head, get))
    requires i < NumChunks(ResolveSize(head, get).n)
    requires !Complete(files, ResolveSize(head, get).n, i)
    requires forall k :: 0 <= k < MaxRetries ==> !Accepted(net(i)(k), ExpectedSize(ResolveSize(head, get).n, i))
    ensures var size := ResolveSize(head, get).n;
      && RunSpec(head, get, files, net).0.ProgressFileBad?
      && RunSpec(head, get, files, net).0.index <= i
      && forall j :: 0 <= j < NumChunks(size) && (Complete(files, size, j) || Fetch(ChunkRange(size, j), net(j)).data.Some?) ==>
           Complete(RunSpec(head, get, files, net).1, size, j)
  {
    var size := ResolveSize(head, get).n;
    var n := NumChunks(size);
    AfterFetchChunk(size, files, net, n, i);
    forall j | 0 <= j < n && (Complete(files, size, j) || Fetch(ChunkRange(size, j), net(j)).data.Some?)
      ensures Complete(AfterFetch(size, files, net, n), size, j)
    {
      AfterFetchChunk(size, files, net, n, j);
    }
  }

  /** The first-attempt bodies of chunks `0 .. k-1`, concatenated in order. */
  function FirstBodies(net: Network, k: nat): seq<byte>
    requires forall i :: 0 <= i < k ==> net(i)(0).Body?
  {
    if k == 0 then [] else FirstBodies(net, k - 1) + net(k - 1)(0).data
  }

  /** Progress files `0 .. k-1` holding the first-attempt bodies concatenate to those bodies. */
  lemma {:induction false} ConcatFirstBodies(files: Files, net: Network, k: nat)
    requires forall i :: 0 <= i < k ==> net(i)(0).Body? && i in files && files[i] == net(i)(0).data
    ensures Concat(files, k) == FirstBodies(net, k)
  {
    if k > 0 {
      ConcatFirstBodies(files, net, k - 1);
    }
  }

  /**
   * A run from an empty scratch directory, in which the first request of
   * every chunk brings a body of the chunk's length, writes those bodies
   * concatenated in chunk order.
   */
  lemma FreshRunWritesBodies(head: Reply, get: Reply, net: Network)
    requires UsableSize(ResolveSize(head, get))
    requires forall i :: 0 <= i < NumChunks(ResolveSize(head, get).n) ==>
      net(i)(0).Body? && |net(i)(0).data| == ExpectedSize(ResolveSize(head, get).n, i)
    ensures RunSpec(head, get, map[], net).0 == Written(FirstBodies(net, NumChunks(ResolveSize(head, get).n)))
  {
    var size := ResolveSize(head, get).n;
    var n := NumChunks(size);
    var fetched := AfterFetch(size, map[], net, n);
    forall i | 0 <= i < n
      ensures i in fetched && fetched[i] == net(i)(0).data
      ensures Complete(fetched, size, i)
    {
      AfterFetchChunk(size, map[], net, n, i);
    }
    ConcatFirstBodies(fetched, net, n);
  }
}
