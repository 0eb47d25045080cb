/**
 * The overwrite and verify loops. Besides their results, `Overwrite` and `Verify` return the run of the crash
 * machine they performed, so everything proved about all runs of that machine holds of them. A process can
 * end after any statement that touches the device or the store: the outcome `Died` stands for that.
 */
module Engine {
  import opened Domain
  import opened Keystream
  import opened CrashMachine
  import opened Counting
  import opened Sampling
  import opened StoreModel
  import opened RunnerModel
  import opened MemoryStore

  // ---- the device ----

  /** Without unsynced writes a power loss leaves every byte as it is. */
  ghost function Settled(bytes: seq<Byte>): (leftovers: seq<set<Byte>>)
    ensures |leftovers| == |bytes| && forall b :: 0 <= b < |bytes| ==> leftovers[b] == {bytes[b]}
  {
    seq(|bytes|, b requires 0 <= b < |bytes| => {bytes[b]})
  }

  ghost function AtRisk(media: Media): (leftovers: seq<set<Byte>>)
    ensures |leftovers| == |media| && forall b :: 0 <= b < |media| ==> leftovers[b] == media[b].survivors
  {
    seq(|media|, b requires 0 <= b < |media| => media[b].survivors)
  }

  /**
   * `media` records what was written, `bytes` is what a reader gets. On a reliable device they agree; an
   * unreliable one may alter data after it was written, which is what verification is there to find. No call on a
   * steady device fails.
   */
  class Device {
    const bytes: array<Byte>
    const reliable: bool
    const steady: bool
    ghost var media: Media

    constructor (content: array<Byte>, reliable: bool, steady: bool)
      ensures Valid() && bytes == content && media == Untouched(content[..], Settled(content[..]))
      ensures this.reliable == reliable && this.steady == steady
    {
      bytes, media, this.reliable, this.steady := content, Untouched(content[..], Settled(content[..])), reliable, steady;
    }

    ghost predicate Valid()
      reads this, bytes
    {
      |media| == bytes.Length && (reliable ==> forall b :: 0 <= b < bytes.Length ==> media[b].value == bytes[b])
    }

    /** The next job on the device starts its own record; what is not yet synced stays at risk. */
    ghost method HandOver()
      requires Valid() && forall b :: 0 <= b < |media| ==> media[b].value in media[b].survivors
      modifies this`media
      ensures Valid() && media == Untouched(Values(old(media)), AtRisk(old(media)))
    {
      media := Untouched(Values(media), AtRisk(media));
    }

    /** What may happen to the data between writing and reading it. */
    method Decay()
      requires Valid()
      modifies bytes
      ensures Valid() && (reliable ==> bytes[..] == old(bytes[..]))
    {
      if !reliable {
        for b := 0 to bytes.Length {
          bytes[b] := *;
        }
      }
    }

    /** Writes `chunk[..n]` at `offset`; a failing or dying call may have written only a part. */
    method WriteAt(chunk: array<Byte>, n: nat, offset: nat, ghost pass: nat) returns (ok: bool, ghost count: nat)
      requires Valid() && chunk != bytes && n <= chunk.Length && offset + n <= bytes.Length
      modifies this`media, bytes
      ensures Valid() && count <= n && (ok ==> count == n) && (steady ==> ok)
      ensures media == WriteCells(old(media), pass, offset, chunk[..count])
    {
      var reach: nat :| reach <= n && (steady ==> reach == n);
      ok := reach == n;
      count := reach;
      for i := 0 to reach
        invariant media == old(media)
        invariant forall b :: 0 <= b < bytes.Length ==>
                    bytes[b] == if offset <= b < offset + i then chunk[b - offset] else old(bytes[b])
      {
        bytes[offset + i] := chunk[i];
      }
      media := WriteCells(media, pass, offset, chunk[..count]);
    }

    /** Whether a call gets through. */
    method Works() returns (ok: bool)
      ensures steady ==> ok
    {
      ok := *;
      ok := ok || steady;
    }

    /** fsync; it may fail. */
    method Sync() returns (ok: bool)
      requires Valid()
      modifies this`media
      ensures Valid() && (steady ==> ok) && media == if ok then SyncCells(old(media)) else old(media)
    {
      ok := Works();
      if ok {
        media := SyncCells(media);
      }
    }

    method ReadAt(buf: array<Byte>, n: nat, offset: nat) returns (ok: bool)
      requires buf != bytes && n <= buf.Length && offset + n <= bytes.Length
      modifies buf
      ensures (steady ==> ok) && forall i :: 0 <= i < n ==> buf[i] == bytes[offset + i]
    {
      for i := 0 to n
        invariant forall j :: 0 <= j < i ==> buf[j] == bytes[offset + j]
      {
        buf[i] := bytes[offset + i];
      }
      ok := Works();
    }
  }

  // ---- progress reports ----

  datatype Phase = OverwritePhase | VerifyPhase

  /**
   * The progress callback of one job run: it saves progress in the store and remembers the bytes written. It also stands
   * for the run's context: a calm run is neither cancelled nor killed, and its job stays in the store.
   */
  class ProgressSink {
    const st: Memory
    ghost const runner: Runner
    const job: Id
    const calm: bool
    var wrote: nat
    ghost var path: Path

    constructor (st: Memory, job: Id, calm: bool, ghost runner: Runner, ghost path: Path)
      requires job == runner.job && path.Valid(runner) && path.Last() == (st.View(), Working) && (calm ==> job in st.jobs)
      ensures this.st == st && this.job == job && this.calm == calm && this.runner == runner && this.path == path && wrote == 0
      ensures Valid()
    {
      this.st, this.job, this.calm, this.runner, this.path, wrote := st, job, calm, runner, path, 0;
    }

    ghost predicate Valid()
      reads this, st
    {
      job == runner.job && path.Valid(runner) && path.Last() == (st.View(), Working) && (calm ==> job in st.jobs)
    }

    /** Whether the run has been cancelled or killed by now. */
    method Cut() returns (cut: bool)
      ensures calm ==> !cut
    {
      cut := *;
      cut := cut && !calm;
    }

    /** The checkpoint row of the job. */
    function Row(): Option<Cursor>
      reads this, st
    {
      if job in st.checkpoints then Some(Cursor(st.checkpoints[job].pass, st.checkpoints[job].offset)) else None
    }

    /** Saves one report. `ok` is false when the store refuses it or the run has been cancelled meanwhile. */
    method Report(pass: nat, offset: nat, total: nat, phase: Phase) returns (ok: bool, ghost saved: bool)
      requires Valid()
      modifies this, st
      ensures Valid() && (ok ==> saved) && (calm ==> ok)
      ensures Row() == if saved then Some(Cursor(pass, offset)) else old(Row())
      ensures forall j :: j != job ==> (j in st.checkpoints <==> j in old(st.checkpoints))
      ensures wrote == if phase == OverwritePhase then offset else old(wrote)
      ensures path.states[0] == old(path).states[0]
    {
      var status := JobRunning;
      if phase == VerifyPhase {
        status := JobVerifying;
      } else {
        wrote := offset; // bytes read back do not count as written
      }
      var now: nat := *;
      var out := st.SaveProgress(job, pass, offset, total, status, now);
      if out != Ok {
        return false, false;
      }
      path := path.Then(Progress(pass, offset, total, phase == VerifyPhase, now), st.View(), Working);
      var cancelled := Cut();
      return !cancelled, true;
    }
  }

  // ---- options and results ----

  datatype Options = Options(
    std: Standard, streams: nat -> Keystream, chunk: nat, step: nat,
    resumePass: nat, resumeOffset: nat, fraction: real, draw: nat -> nat)

  ghost predicate Serves(opt: Options, plan: Plan) {
    plan.std == opt.std && plan.streams == opt.streams && plan.chunk == opt.chunk && plan.step == opt.step
  }

  datatype Ending = Completed | Cancelled | Errored | Died

  /** How a stream that could not be derived ends the run: an unknown pattern is an error, a panic ends the process. */
  function Failure(status: StreamStatus): Ending {
    if status == CounterExhausted then Died else Errored
  }

  datatype VerifyResult = VerifyResult(mode: VerifyMode, bytes: nat, mismatches: nat, samples: seq<(nat, nat)>)

  // ---- overwrite ----

  /** Where the pass loop stands, given that the crash machine has already booted. */
  ghost predicate AtPass(plan: Plan, opt: Options, passIdx: nat, proc: Proc)
    requires plan.Valid()
  {
    if passIdx > plan.Final() then proc == Verifying
    else if passIdx == opt.resumePass && opt.resumeOffset >= plan.Size() then
      proc == if passIdx < plan.Final() then Overwriting(passIdx + 1, 0, 0, false) else Verifying
    else
      var start := if passIdx == opt.resumePass then opt.resumeOffset else 0;
      proc == Overwriting(passIdx, start, start, false)
  }

  /**
   * The run `t` of the crash machine, from state `first`, has come to the device, checkpoint row and process
   * state at hand; the callback's path through the runner started at `entry`.
   */
  ghost predicate At(plan: Plan, t: Trace, dev: Device, sink: ProgressSink, proc: Proc, first: Machine, entry: (Store, Pc))
    reads dev, dev.bytes, sink, sink.st
  {
    && plan.Valid() && t.Valid(plan) && t.First() == first
    && dev.Valid() && sink.Valid() && sink.path.states[0] == entry
    && t.Last() == Machine(dev.media, sink.Row(), proc)
  }

  /** Nothing gets in the way: the device answers, the run is left alone, and no call exhausts the block counter. */
  ghost predicate Smooth(plan: Plan, dev: Device, sink: ProgressSink) {
    plan.Valid() && dev.steady && sink.calm && GridInRange(plan)
  }

  method Overwrite(dev: Device, opt: Options, sink: ProgressSink,
                   ghost plan: Plan, ghost before: Trace, ghost first: Machine, ghost entry: (Store, Pc))
    returns (ending: Ending, ghost t: Trace)
    requires Serves(opt, plan) && At(plan, before, dev, sink, Off, first, entry) && Inv(plan, before.Last())
    requires Cursor(opt.resumePass, opt.resumeOffset) == (match sink.Row() case None => Cursor(0, 0) case Some(c) => c)
    modifies dev`media, dev.bytes, sink, sink.st
    ensures At(plan, t, dev, sink, if ending == Completed then Verifying else Off, first, entry)
    ensures Smooth(plan, dev, sink) ==> ending == Completed
  {
    t := before;
    var size := dev.bytes.Length;
    ghost var c := Resume(plan, sink.Row());
    assert opt.resumePass <= plan.Final() && plan.Aligned(opt.resumePass, opt.resumeOffset);
    t := Extend(plan, t, Boot, t.Last().(proc :=
           if c.offset < plan.Size() then Overwriting(c.pass, c.offset, c.offset, false) else Verifying));
    var finalPass := |opt.std.passes| - 1;
    var passIdx := opt.resumePass;
    while passIdx <= finalPass
      invariant passIdx <= finalPass + 1 && |t.states| > 0
      invariant At(plan, t, dev, sink, t.Last().proc, first, entry) && AtPass(plan, opt, passIdx, t.Last().proc)
    {
      var start := 0;
      if passIdx == opt.resumePass && opt.resumeOffset > 0 {
        start := opt.resumeOffset;
      }
      if start >= size {
        passIdx := passIdx + 1;
        continue;
      }
      ending, t := OverwritePass(dev, opt, passIdx, start, sink, plan, t, first, entry);
      if ending != Completed {
        return;
      }
      passIdx := passIdx + 1;
    }
    return Completed, t;
  }

  /** One pass of the outer loop, from `start` to the end of the device. */
  method OverwritePass(dev: Device, opt: Options, passIdx: nat, start: nat, sink: ProgressSink,
                       ghost plan: Plan, ghost before: Trace, ghost first: Machine, ghost entry: (Store, Pc))
    returns (ending: Ending, ghost t: Trace)
    requires At(plan, before, dev, sink, Overwriting(passIdx, start, start, false), first, entry)
    requires Serves(opt, plan) && passIdx <= plan.Final() && start < plan.Size() && plan.Aligned(passIdx, start)
    modifies dev`media, dev.bytes, sink, sink.st
    ensures At(plan, t, dev, sink, if ending == Completed then AfterPass(plan, passIdx) else Off, first, entry)
    ensures Smooth(plan, dev, sink) ==> ending == Completed
  {
    t := before;
    var size := dev.bytes.Length;
    var buf := new Byte[opt.chunk](_ => 0);
    var offset: nat := start;
    var lastCheckpoint: nat := start;
    while offset < size
      invariant lastCheckpoint <= offset <= size && plan.Aligned(passIdx, offset)
      invariant At(plan, t, dev, sink, Overwriting(passIdx, offset, lastCheckpoint, false), first, entry)
      invariant !CheckpointDue(plan, offset, lastCheckpoint)
      invariant offset == size ==> lastCheckpoint == size
    {
      var cancelled := sink.Cut();
      if cancelled {
        return Cancelled, Stop(plan, t);
      }
      var n := opt.chunk;
      if offset + n > size {
        n := size - offset;
      }
      AlignedNext(plan, passIdx, offset);
      ending, t := WriteOne(dev, opt, passIdx, buf, n, offset, lastCheckpoint, sink, plan, t, first, entry);
      if ending != Completed {
        return;
      }
      offset := offset + n;
      if offset - lastCheckpoint >= opt.step || offset >= size {
        ending, t := Checkpoint(dev, opt.std.passes[passIdx].index, offset, lastCheckpoint, sink, plan, t, first, entry);
        if ending != Completed {
          return;
        }
        lastCheckpoint := offset;
      }
    }
    var flushed := dev.Sync();
    if !flushed {
      return Errored, Stop(plan, t);
    }
    t := Extend(plan, t, NextPass, t.Last().(media := dev.media, proc := AfterPass(plan, passIdx)));
    return Completed, t;
  }

  ghost function AfterPass(plan: Plan, passIdx: nat): Proc
    requires plan.Valid()
  {
    if passIdx < plan.Final() then Overwriting(passIdx + 1, 0, 0, false) else Verifying
  }

  /** The body of the chunk loop up to the write: derive the stream, write it. */
  method WriteOne(dev: Device, opt: Options, passIdx: nat, buf: array<Byte>, n: nat, offset: nat, ghost lastCheckpoint: nat,
                  sink: ProgressSink, ghost plan: Plan, ghost before: Trace, ghost first: Machine, ghost entry: (Store, Pc))
    returns (ending: Ending, ghost t: Trace)
    requires At(plan, before, dev, sink, Overwriting(passIdx, offset, lastCheckpoint, false), first, entry)
    requires Serves(opt, plan) && passIdx <= plan.Final() && offset < plan.Size()
    requires !CheckpointDue(plan, offset, lastCheckpoint)
    requires n == plan.Length(offset) && n <= buf.Length && buf != dev.bytes && plan.Aligned(passIdx, offset)
    modifies dev`media, dev.bytes, buf
    ensures Smooth(plan, dev, sink) ==> ending == Completed
    ensures At(plan, t, dev, sink,
               if ending == Completed then Overwriting(passIdx, offset + n, lastCheckpoint, false) else Off, first, entry)
  {
    t := before;
    var spec := opt.std.passes[passIdx];
    var status := StreamAt(spec.pattern, opt.streams(spec.index), buf, n, offset);
    if GridInRange(plan) {
      WriteInRange(plan, passIdx, offset);
    }
    if status != Filled {
      return Failure(status), Stop(plan, t);
    }
    assert buf[..n] == plan.Chunk(passIdx, offset);
    var wrote, count := dev.WriteAt(buf, n, offset, spec.index);
    if !wrote {
      assert buf[..count] == plan.Chunk(passIdx, offset)[..count];
      t := Extend(plan, t, TornWrite(count), t.Last().(media := dev.media, proc := Off));
      return Errored, t;
    }
    t := Extend(plan, t, WriteChunk,
           t.Last().(media := dev.media, proc := Overwriting(passIdx, offset + n, lastCheckpoint, false)));
    var died := sink.Cut();
    if died {
      return Died, Stop(plan, t);
    }
    return Completed, t;
  }

  /** The checkpoint branch of the loop: fsync first, then the report. */
  method Checkpoint(dev: Device, pass: nat, offset: nat, ghost lastCheckpoint: nat, sink: ProgressSink,
                    ghost plan: Plan, ghost before: Trace, ghost first: Machine, ghost entry: (Store, Pc))
    returns (ending: Ending, ghost t: Trace)
    requires At(plan, before, dev, sink, Overwriting(pass, offset, lastCheckpoint, false), first, entry)
    requires CheckpointDue(plan, offset, lastCheckpoint)
    modifies dev`media, sink, sink.st
    ensures At(plan, t, dev, sink, if ending == Completed then Overwriting(pass, offset, offset, false) else Off, first, entry)
    ensures Smooth(plan, dev, sink) ==> ending == Completed
  {
    t := before;
    var flushed := dev.Sync();
    if !flushed {
      return Errored, Stop(plan, t);
    }
    t := Extend(plan, t, SyncDue, t.Last().(media := dev.media, proc := Overwriting(pass, offset, lastCheckpoint, true)));
    var died := sink.Cut();
    if died {
      return Died, Stop(plan, t);
    }
    var ok, saved := sink.Report(pass, offset, dev.bytes.Length, OverwritePhase);
    if saved {
      t := Extend(plan, t, Save,
             t.Last().(row := Some(Cursor(pass, offset)), proc := Overwriting(pass, offset, offset, false)));
    }
    if !ok {
      return Errored, Stop(plan, t);
    }
    return Completed, t;
  }

  /** The run extended by one step. */
  ghost function Extend(plan: Plan, t: Trace, step: Step, m: Machine): (t': Trace)
    requires plan.Valid() && t.Valid(plan) && |m.media| == plan.Size() && Next(plan, t.Last(), step, m)
    ensures t'.Valid(plan) && t'.First() == t.First() && t'.Last() == m
  {
    t.Then(step, m)
  }

  /** The process ends here; the device keeps its cache until power is lost. */
  ghost function Stop(plan: Plan, t: Trace): (t': Trace)
    requires plan.Valid() && t.Valid(plan)
    ensures t'.Valid(plan) && t'.First() == t.First() && t'.Last() == t.Last().(proc := Off)
  {
    Extend(plan, t, Halt, t.Last().(proc := Off))
  }

  // ---- verification ----

  /** What verification expects at byte `b` of a range that starts at `start`: its chunks start there. */
  function Want(opt: Options, start: nat, b: nat): Byte
    requires 0 < opt.chunk && |opt.std.passes| > 0 && start <= b
  {
    var final := opt.std.passes[|opt.std.passes| - 1];
    StreamByte(final.pattern, opt.streams(final.index), b - (b - start) % opt.chunk, (b - start) % opt.chunk)
  }

  /** The positions of a range at which the device does not hold what verification expects. */
  function Differing(bytes: seq<Byte>, opt: Options, start: nat, end: nat): set<nat>
    requires 0 < opt.chunk && |opt.std.passes| > 0 && start <= end <= |bytes|
  {
    set b: nat | start <= b < end && bytes[b] != Want(opt, start, b)
  }

  function DiffCount(bytes: seq<Byte>, opt: Options, start: nat, end: nat): nat
    requires 0 < opt.chunk && |opt.std.passes| > 0 && start <= end <= |bytes|
    decreases end
  {
    if start == end then 0
    else DiffCount(bytes, opt, start, end - 1) + if bytes[end - 1] != Want(opt, start, end - 1) then 1 else 0
  }

  lemma {:induction false} DiffCountCounts(bytes: seq<Byte>, opt: Options, start: nat, end: nat)
    requires 0 < opt.chunk && |opt.std.passes| > 0 && start <= end <= |bytes|
    ensures DiffCount(bytes, opt, start, end) == |Differing(bytes, opt, start, end)|
    decreases end
  {
    if start == end {
      assert Differing(bytes, opt, start, end) == {};
    } else {
      var last := end - 1;
      var before := Differing(bytes, opt, start, last);
      DiffCountCounts(bytes, opt, start, last);
      assert Differing(bytes, opt, start, end) == if bytes[last] != Want(opt, start, last) then before + {last} else before;
    }
  }

  function SumDiff(bytes: seq<Byte>, opt: Options, spans: seq<Span>): nat
    requires 0 < opt.chunk && |opt.std.passes| > 0
    requires forall i :: 0 <= i < |spans| ==> spans[i].start <= spans[i].end <= |bytes|
    decreases |spans|
  {
    if |spans| == 0 then 0
    else
      var last := spans[|spans| - 1];
      SumDiff(bytes, opt, spans[..|spans| - 1]) + |Differing(bytes, opt, last.start, last.end)|
  }

  /** countMismatches, over the chunk of a range that lies at `offset`. */
  method CountMismatches(a: array<Byte>, b: array<Byte>, n: nat,
                         ghost bytes: seq<Byte>, ghost opt: Options, ghost start: nat, ghost offset: nat)
    returns (count: nat)
    requires n <= a.Length && n <= b.Length && 0 < opt.chunk && |opt.std.passes| > 0
    requires start <= offset && offset + n <= |bytes|
    requires forall i :: 0 <= i < n ==> a[i] == bytes[offset + i] && b[i] == Want(opt, start, offset + i)
    ensures count == DiffCount(bytes, opt, start, offset + n) - DiffCount(bytes, opt, start, offset)
  {
    count := 0;
    for i := 0 to n
      invariant count == DiffCount(bytes, opt, start, offset + i) - DiffCount(bytes, opt, start, offset)
    {
      assert a[i] == bytes[offset + i] && b[i] == Want(opt, start, offset + i);
      if a[i] != b[i] {
        count := count + 1;
      }
    }
  }

  lemma {:induction false} NoDifference(bytes: seq<Byte>, opt: Options, start: nat, offset: nat, n: nat)
    requires 0 < opt.chunk && |opt.std.passes| > 0 && start <= offset && offset + n <= |bytes|
    requires forall b :: offset <= b < offset + n ==> bytes[b] == Want(opt, start, b)
    ensures DiffCount(bytes, opt, start, offset + n) == DiffCount(bytes, opt, start, offset)
    decreases n
  {
    if n > 0 {
      NoDifference(bytes, opt, start, offset, n - 1);
    }
  }

  lemma WantInChunk(opt: Options, start: nat, offset: nat, i: nat)
    requires 0 < opt.chunk && |opt.std.passes| > 0 && start <= offset && (offset - start) % opt.chunk == 0 && i < opt.chunk
    ensures var final := opt.std.passes[|opt.std.passes| - 1];
            Want(opt, start, offset + i) == StreamByte(final.pattern, opt.streams(final.index), offset, i)
  {
    GridStart(opt.chunk, offset - start, i);
  }

  /** With a callback, the verify phase is the verify phase of the crash machine and of the runner. */
  ghost predicate Linked(plan: Plan, t: Trace, dev: Device, sink: ProgressSink?, proc: Proc, first: Machine, entry: (Store, Pc))
    reads dev, dev.bytes, sink, if sink == null then {} else {sink.st}
  {
    sink != null ==> At(plan, t, dev, sink, proc, first, entry)
  }

  /** Where a chunk of a range can start: on the grid of the range, or at its end. */
  predicate AtChunk(opt: Options, rn: Span, offset: nat)
    requires 0 < opt.chunk
  {
    rn.start <= offset <= rn.end && ((offset - rn.start) % opt.chunk == 0 || offset == rn.end)
  }

  function ChunkLength(opt: Options, rn: Span, offset: nat): (n: nat)
    requires 0 < opt.chunk && offset < rn.end
    ensures 0 < n && offset + n <= rn.end
  {
    if offset + opt.chunk > rn.end then rn.end - offset else opt.chunk
  }

  /** Nothing gets in the way of a verification. */
  ghost predicate Easy(plan: Plan, opt: Options, dev: Device, calm: bool) {
    && plan.Valid() && Serves(opt, plan) && plan.Size() == dev.bytes.Length
    && dev.steady && calm && GridInRange(plan)
  }

  lemma ChunkInRange(plan: Plan, opt: Options, rn: Span, offset: nat, n: nat)
    requires plan.Valid() && Serves(opt, plan) && GridInRange(plan) && AtChunk(opt, rn, offset) && offset < rn.end
    requires n == ChunkLength(opt, rn, offset) && (opt.std.mode == Full ==> rn == Span(0, plan.Size()))
    ensures StatusOf(opt.std.passes[|opt.std.passes| - 1].pattern, offset, n) == Filled
  {
    VerifyStaysInRange(plan, offset, n);
  }

  /** Reads one chunk of a range and counts the bytes that are not what the final pass wrote there. */
  method CheckChunk(dev: Device, opt: Options, readBuf: array<Byte>, wantBuf: array<Byte>, n: nat, offset: nat,
                    ghost rn: Span, ghost bytes: seq<Byte>, ghost plan: Plan)
    returns (ending: Ending, mismatches: nat)
    requires dev.bytes[..] == bytes && 0 < opt.chunk && |opt.std.passes| > 0
    requires AtChunk(opt, rn, offset) && offset < rn.end <= |bytes| && n == ChunkLength(opt, rn, offset)
    requires opt.std.mode == Full ==> rn == Span(0, |bytes|)
    requires readBuf.Length == wantBuf.Length == opt.chunk
    requires readBuf != wantBuf && readBuf != dev.bytes && wantBuf != dev.bytes
    modifies readBuf, wantBuf
    ensures ending == Completed ==> mismatches == DiffCount(bytes, opt, rn.start, offset + n) - DiffCount(bytes, opt, rn.start, offset)
    ensures Easy(plan, opt, dev, true) ==> ending == Completed
  {
    ghost var start := rn.start;
    if Easy(plan, opt, dev, true) {
      ChunkInRange(plan, opt, rn, offset, n);
    }
    mismatches := 0;
    var final := opt.std.passes[|opt.std.passes| - 1];
    var ok := dev.ReadAt(readBuf, n, offset);
    if !ok {
      return Errored, 0;
    }
    var status := StreamAt(final.pattern, opt.streams(final.index), wantBuf, n, offset);
    if status != Filled {
      return Failure(status), 0;
    }
    ending := Completed;
    forall i | 0 <= i < n ensures readBuf[i] == bytes[offset + i] && wantBuf[i] == Want(opt, start, offset + i) {
      assert dev.bytes[..][offset + i] == dev.bytes[offset + i];
      WantInChunk(opt, start, offset, i);
    }
    if readBuf[..n] != wantBuf[..n] {
      mismatches := CountMismatches(readBuf, wantBuf, n, bytes, opt, start, offset);
    } else {
      forall b | offset <= b < offset + n ensures bytes[b] == Want(opt, start, b) {
        assert readBuf[..n][b - offset] == wantBuf[..n][b - offset];
      }
      NoDifference(bytes, opt, start, offset, n);
    }
  }

  /** The inner loop of verification: one range, chunk by chunk. */
  method VerifySpan(dev: Device, opt: Options, rn: Span, readBuf: array<Byte>, wantBuf: array<Byte>, since: nat,
                    sink: ProgressSink?, calm: bool, ghost bytes: seq<Byte>,
                    ghost plan: Plan, ghost before: Trace, ghost first: Machine, ghost entry: (Store, Pc))
    returns (ending: Ending, mismatches: nat, sinceReport: nat, ghost t: Trace)
    requires sink != null ==> calm == sink.calm
    requires dev.bytes[..] == bytes && 0 < opt.chunk && |opt.std.passes| > 0 && rn.start <= rn.end <= |bytes|
    requires opt.std.mode == Full ==> rn == Span(0, |bytes|)
    requires readBuf.Length == wantBuf.Length == opt.chunk
    requires readBuf != wantBuf && readBuf != dev.bytes && wantBuf != dev.bytes
    requires Linked(plan, before, dev, sink, Verifying, first, entry) && (sink != null ==> Serves(opt, plan))
    modifies readBuf, wantBuf, sink, if sink == null then {} else {sink.st}
    ensures ending == Completed ==> mismatches == DiffCount(bytes, opt, rn.start, rn.end)
    ensures ending == Completed && sink != null && rn.start < rn.end ==> sinceReport == 0 && Reported(opt, sink, rn.end)
    ensures Easy(plan, opt, dev, calm) ==> ending == Completed
    ensures Linked(plan, t, dev, sink, if ending == Completed then Verifying else Off, first, entry)
  {
    t := before;
    mismatches := 0;
    sinceReport := since;
    var offset := rn.start;
    while offset < rn.end
      invariant AtChunk(opt, rn, offset)
      invariant mismatches == DiffCount(bytes, opt, rn.start, offset)
      invariant ToldAtEnd(opt, sink, rn, offset, sinceReport)
      invariant Linked(plan, t, dev, sink, Verifying, first, entry)
    {
      var n, count: nat;
      ending, n, count, sinceReport, t :=
        VerifyChunk(dev, opt, rn, readBuf, wantBuf, offset, sinceReport, sink, calm, bytes, plan, t, first, entry);
      if ending != Completed {
        return;
      }
      mismatches := mismatches + count;
      offset := offset + n;
    }
    ending := Completed;
  }

  /** One round of the inner loop: check a chunk, report if a report is due. */
  method VerifyChunk(dev: Device, opt: Options, rn: Span, readBuf: array<Byte>, wantBuf: array<Byte>, offset: nat, since: nat,
                     sink: ProgressSink?, calm: bool, ghost bytes: seq<Byte>,
                     ghost plan: Plan, ghost before: Trace, ghost first: Machine, ghost entry: (Store, Pc))
    returns (ending: Ending, n: nat, mismatches: nat, sinceReport: nat, ghost t: Trace)
    requires sink != null ==> calm == sink.calm
    requires dev.bytes[..] == bytes && 0 < opt.chunk && |opt.std.passes| > 0
    requires AtChunk(opt, rn, offset) && offset < rn.end <= dev.bytes.Length
    requires opt.std.mode == Full ==> rn == Span(0, dev.bytes.Length)
    requires readBuf.Length == wantBuf.Length == opt.chunk
    requires readBuf != wantBuf && readBuf != dev.bytes && wantBuf != dev.bytes
    requires Linked(plan, before, dev, sink, Verifying, first, entry) && (sink != null ==> Serves(opt, plan))
    modifies readBuf, wantBuf, sink, if sink == null then {} else {sink.st}
    ensures ending == Completed ==>
              && n == ChunkLength(opt, rn, offset) && AtChunk(opt, rn, offset + n)
              && ToldAtEnd(opt, sink, rn, offset + n, sinceReport)
              && mismatches == DiffCount(bytes, opt, rn.start, offset + n) - DiffCount(bytes, opt, rn.start, offset)
    ensures Easy(plan, opt, dev, calm) ==> ending == Completed
    ensures Linked(plan, t, dev, sink, if ending == Completed then Verifying else Off, first, entry)
  {
    n, mismatches, sinceReport := opt.chunk, 0, since;
    var cancelled: bool := *;
    cancelled := cancelled && !calm;
    if cancelled {
      return Cancelled, n, mismatches, sinceReport, Stopped(plan, before, sink);
    }
    if offset + n > rn.end {
      n := rn.end - offset;
    }
    ending, mismatches := CheckChunk(dev, opt, readBuf, wantBuf, n, offset, rn, bytes, plan);
    if ending != Completed {
      return ending, n, mismatches, sinceReport, Stopped(plan, before, sink);
    }
    if n == opt.chunk {
      GridNext(opt.chunk, offset - rn.start);
    }
    sinceReport := sinceReport + n;
    ending, sinceReport, t := ReportIfDue(dev, opt, offset + n, rn.end, sinceReport, sink, plan, before, first, entry);
  }

  /** The checkpoint stands at `offset` of the final pass. */
  ghost predicate Reported(opt: Options, sink: ProgressSink, offset: nat)
    requires |opt.std.passes| > 0
    reads sink, sink.st
  {
    sink.Row() == Some(Cursor(opt.std.passes[|opt.std.passes| - 1].index, offset))
  }

  /** A range that has been read to its end ends with a report. */
  ghost predicate ToldAtEnd(opt: Options, sink: ProgressSink?, rn: Span, offset: nat, sinceReport: nat)
    requires |opt.std.passes| > 0
    reads sink, if sink == null then {} else {sink.st}
  {
    sink != null && rn.start < offset == rn.end ==> sinceReport == 0 && Reported(opt, sink, rn.end)
  }

  /** A report is due every four checkpoint steps and at the end of a range. */
  method ReportIfDue(dev: Device, opt: Options, offset: nat, end: nat, since: nat, sink: ProgressSink?,
                     ghost plan: Plan, ghost before: Trace, ghost first: Machine, ghost entry: (Store, Pc))
    returns (ending: Ending, sinceReport: nat, ghost t: Trace)
    requires |opt.std.passes| > 0 && offset <= dev.bytes.Length
    requires Linked(plan, before, dev, sink, Verifying, first, entry)
    requires sink != null ==> Serves(opt, plan) && plan.Aligned(plan.Final(), offset)
    modifies sink, if sink == null then {} else {sink.st}
    ensures Linked(plan, t, dev, sink, if ending == Completed then Verifying else Off, first, entry)
    ensures sink == null || sink.calm ==> ending == Completed
    ensures ending == Completed && sink != null ==>
              if since >= opt.step * 4 || offset >= end then sinceReport == 0 && Reported(opt, sink, offset)
              else sinceReport == since && sink.Row() == old(sink.Row())
  {
    if sink != null && (since >= opt.step * 4 || offset >= end) {
      sinceReport := 0;
      ending, t := ReportVerify(dev, opt.std.passes[|opt.std.passes| - 1].index, offset, sink, plan, before, first, entry);
    } else {
      ending, sinceReport, t := Completed, since, before;
    }
  }

  /** A progress report of the verify phase. It moves the checkpoint, possibly back into the final pass. */
  method ReportVerify(dev: Device, pass: nat, offset: nat, sink: ProgressSink,
                      ghost plan: Plan, ghost before: Trace, ghost first: Machine, ghost entry: (Store, Pc))
    returns (ending: Ending, ghost t: Trace)
    requires At(plan, before, dev, sink, Verifying, first, entry)
    requires pass == plan.Final() && offset <= plan.Size() && plan.Aligned(plan.Final(), offset)
    modifies sink, sink.st
    ensures At(plan, t, dev, sink, if ending == Completed then Verifying else Off, first, entry)
    ensures ending == Completed ==> sink.Row() == Some(Cursor(pass, offset))
    ensures sink.calm ==> ending == Completed
  {
    t := before;
    var ok, saved := sink.Report(pass, offset, dev.bytes.Length, VerifyPhase);
    if saved {
      t := Extend(plan, t, VerifySave(offset), t.Last().(row := Some(Cursor(pass, offset))));
    }
    if !ok {
      return Errored, Stop(plan, t);
    }
    return Completed, t;
  }

  ghost function Stopped(plan: Plan, t: Trace, sink: ProgressSink?): (t': Trace)
    requires sink != null ==> plan.Valid() && t.Valid(plan)
    ensures sink != null ==> t' == Stop(plan, t)
  {
    if sink != null then Stop(plan, t) else t
  }

  /** The ranges a verification covers: the whole device once, or the sample windows. */
  ghost predicate Covers(opt: Options, size: nat, spans: seq<Span>) {
    match opt.std.mode
    case Full => spans == [Span(0, size)]
    case Sample => CoversSample(size, Target(size, opt.fraction), spans)
  }

  /** The result after the first `k` ranges: every position that differs is counted, once per range that contains it. */
  ghost predicate ExactUpTo(bytes: seq<Byte>, opt: Options, spans: seq<Span>, k: nat, res: VerifyResult)
    requires 0 < opt.chunk && |opt.std.passes| > 0 && k <= |spans|
  {
    && (forall i :: 0 <= i < |spans| ==> spans[i].start <= spans[i].end <= |bytes|)
    && res.mode == opt.std.mode
    && res.bytes == Total(spans[..k])
    && res.mismatches == SumDiff(bytes, opt, spans[..k])
    && |res.samples| == (if opt.std.mode == Sample then k else 0)
    && forall i :: 0 <= i < |res.samples| ==> res.samples[i] == (spans[i].start, spans[i].end - spans[i].start)
  }

  /** Verification is exact on the ranges it covers. */
  ghost predicate Exact(bytes: seq<Byte>, opt: Options, spans: seq<Span>, res: VerifyResult)
    requires 0 < opt.chunk && |opt.std.passes| > 0
  {
    Covers(opt, |bytes|, spans) && ExactUpTo(bytes, opt, spans, |spans|, res)
  }

  function Added(res: VerifyResult, rn: Span, mismatches: nat): VerifyResult
    requires rn.start <= rn.end
  {
    res.(bytes := res.bytes + (rn.end - rn.start),
         mismatches := res.mismatches + mismatches,
         samples := if res.mode == Sample then res.samples + [(rn.start, rn.end - rn.start)] else res.samples)
  }

  lemma ExactNext(bytes: seq<Byte>, opt: Options, spans: seq<Span>, k: nat, res: VerifyResult)
    requires 0 < opt.chunk && |opt.std.passes| > 0 && k < |spans| && ExactUpTo(bytes, opt, spans, k, res)
    ensures ExactUpTo(bytes, opt, spans, k + 1, Added(res, spans[k], DiffCount(bytes, opt, spans[k].start, spans[k].end)))
  {
    DiffCountCounts(bytes, opt, spans[k].start, spans[k].end);
    assert spans[..k + 1][..k] == spans[..k];
  }

  method Ranges(opt: Options, size: nat) returns (spans: seq<Span>)
    requires 0 < size
    ensures Covers(opt, size, spans)
    ensures forall i :: 0 <= i < |spans| ==> spans[i].start <= spans[i].end <= size
  {
    spans := [Span(0, size)];
    if opt.std.mode == Sample {
      spans := SampleRanges(size, opt.fraction, opt.draw);
    }
  }

  method VerifyDevice(dev: Device, opt: Options, sink: ProgressSink?, calm: bool, ghost plan: Plan, ghost before: Trace,
                      ghost first: Machine, ghost entry: (Store, Pc))
    returns (ending: Ending, res: VerifyResult, ghost spans: seq<Span>, ghost t: Trace)
    requires sink != null ==> calm == sink.calm
    requires 0 < opt.chunk && |opt.std.passes| > 0 && 0 < dev.bytes.Length
    requires Linked(plan, before, dev, sink, Verifying, first, entry) && (sink != null ==> Serves(opt, plan))
    modifies sink, if sink == null then {} else {sink.st}
    ensures ending == Completed ==> Exact(dev.bytes[..], opt, spans, res)
    ensures ending == Completed && sink != null && opt.std.mode == Full ==> Reported(opt, sink, dev.bytes.Length)
    ensures Easy(plan, opt, dev, calm) ==> ending == Completed
    ensures Linked(plan, t, dev, sink, if ending == Completed then Verifying else Off, first, entry)
  {
    var ranges := Ranges(opt, dev.bytes.Length);
    spans := ranges;
    ending, res, t := VerifyRanges(dev, opt, ranges, sink, calm, dev.bytes[..], plan, before, first, entry);
  }

  method VerifyRanges(dev: Device, opt: Options, ranges: seq<Span>, sink: ProgressSink?, calm: bool, ghost bytes: seq<Byte>,
                      ghost plan: Plan, ghost before: Trace, ghost first: Machine, ghost entry: (Store, Pc))
    returns (ending: Ending, res: VerifyResult, ghost t: Trace)
    requires sink != null ==> calm == sink.calm
    requires dev.bytes[..] == bytes && 0 < opt.chunk && |opt.std.passes| > 0
    requires forall i :: 0 <= i < |ranges| ==> ranges[i].start <= ranges[i].end <= |bytes|
    requires opt.std.mode == Full ==> ranges == [Span(0, |bytes|)]
    requires Linked(plan, before, dev, sink, Verifying, first, entry) && (sink != null ==> Serves(opt, plan))
    modifies sink, if sink == null then {} else {sink.st}
    ensures ending == Completed ==> ExactUpTo(bytes, opt, ranges, |ranges|, res)
    ensures ending == Completed && sink != null && |ranges| > 0 && ranges[|ranges| - 1].start < ranges[|ranges| - 1].end ==>
              Reported(opt, sink, ranges[|ranges| - 1].end)
    ensures Easy(plan, opt, dev, calm) ==> ending == Completed
    ensures Linked(plan, t, dev, sink, if ending == Completed then Verifying else Off, first, entry)
  {
    t := before;
    var readBuf := new Byte[opt.chunk](_ => 0);
    var wantBuf := new Byte[opt.chunk](_ => 0);
    res := VerifyResult(opt.std.mode, 0, 0, []);
    var sinceReport: nat := 0;
    for i := 0 to |ranges|
      invariant ExactUpTo(bytes, opt, ranges, i, res)
      invariant sink != null && i > 0 && ranges[i - 1].start < ranges[i - 1].end ==> Reported(opt, sink, ranges[i - 1].end)
      invariant Linked(plan, t, dev, sink, Verifying, first, entry)
    {
      var mismatches: nat;
      ending, mismatches, sinceReport, t :=
        VerifySpan(dev, opt, ranges[i], readBuf, wantBuf, sinceReport, sink, calm, bytes, plan, t, first, entry);
      if ending != Completed {
        return;
      }
      ExactNext(bytes, opt, ranges, i, res);
      res := Added(res, ranges[i], mismatches);
    }
    ending := Completed;
  }

  // ---- the two phases together ----

  function Normalized(opt: Options): Options {
    opt.(chunk := if opt.chunk == 0 then 0x40_0000 else opt.chunk,
         step := if opt.step == 0 then 0x400_0000 else opt.step)
  }

  /** The default sizes: with chunks of 4 MiB no pass over a device of any size exhausts the block counter. */
  lemma DefaultsStayInRange(plan: Plan, opt: Options)
    requires plan.Valid() && Serves(Normalized(opt), plan)
    ensures opt.chunk == 0 ==> plan.chunk == 4 * 1024 * 1024 && GridInRange(plan)
    ensures opt.step == 0 ==> plan.step == 64 * 1024 * 1024
    ensures opt.chunk != 0 ==> plan.chunk == opt.chunk
    ensures opt.step != 0 ==> plan.step == opt.step
  {
    CounterRange(plan);
  }

  /** A standard the engine can follow, on a device it can derive every stream of. */
  predicate InReach(opt: Options, size: nat)
    requires 0 < opt.chunk
  {
    WellFormed(opt.std) && (size <= 0x40_0000_0000 || 0x40_0000_0000 % opt.chunk == 0)
  }

  /** Standalone verification: no progress is saved. */
  method Verify(dev: Device, options: Options, calm: bool) returns (ending: Ending, res: VerifyResult, ghost spans: seq<Span>)
    requires |options.std.passes| > 0
    ensures dev.bytes.Length == 0 ==> ending == Errored
    ensures ending == Completed ==> Exact(dev.bytes[..], Normalized(options), spans, res)
    ensures calm && dev.steady && dev.bytes.Length > 0 && InReach(Normalized(options), dev.bytes.Length) ==> ending == Completed
  {
    var opt := Normalized(options);
    if dev.bytes.Length == 0 {
      return Errored, VerifyResult(opt.std.mode, 0, 0, []), [];
    }
    ghost var t := Trace([], []);
    ghost var plan := Plan(opt.std, opt.streams, opt.chunk, opt.step, dev.bytes[..], Settled(dev.bytes[..]));
    if WellFormed(options.std) {
      CounterRange(plan);
    }
    ending, res, spans, t := VerifyDevice(dev, opt, null, calm, plan, t, Machine([], None, Off), (EMPTY, Claimed));
  }

  /** The device holds what one uninterrupted run writes, and verification has confirmed it. */
  ghost predicate Wiped(plan: Plan, bytes: seq<Byte>, res: VerifyResult) {
    && plan.Valid() && bytes == FreshRun(plan)
    && res.mismatches == 0 && res.mode == plan.std.mode
    && (plan.std.mode == Full ==> res.bytes == |bytes|)
  }

  ghost predicate On(spans: seq<Span>, size: nat) {
    forall i :: 0 <= i < |spans| ==> spans[i].start <= spans[i].end <= size
  }

  /** Every byte of every range is what an uninterrupted run leaves there. */
  ghost predicate AllRight(plan: Plan, bytes: seq<Byte>, spans: seq<Span>)
    requires plan.Valid() && |bytes| == plan.Size() && On(spans, |bytes|)
  {
    forall i, b :: 0 <= i < |spans| && spans[i].start <= b < spans[i].end ==> bytes[b] == FreshRun(plan)[b]
  }

  /** The result is that of looking at exactly these ranges, and they are the ones the standard asks for. */
  ghost predicate Inspected(plan: Plan, bytes: seq<Byte>, spans: seq<Span>, res: VerifyResult, fraction: real)
    requires plan.Valid() && |bytes| == plan.Size()
  {
    && On(spans, |bytes|)
    && (plan.std.mode == Full ==> spans == [Span(0, |bytes|)])
    && (plan.std.mode == Sample ==> CoversSample(|bytes|, Target(|bytes|, fraction), spans))
    && res.mismatches
       == |set i: nat, b: nat | i < |spans| && spans[i].start <= b < spans[i].end && bytes[b] != FreshRun(plan)[b] :: (i, b)|
    && (res.mismatches == 0 <==> AllRight(plan, bytes, spans))
  }

  ghost predicate Examined(plan: Plan, bytes: seq<Byte>, res: VerifyResult, fraction: real) {
    plan.Valid() && |bytes| == plan.Size() && exists spans :: Inspected(plan, bytes, spans, res, fraction)
  }

  /**
   * What a completed run has established, whatever happened in earlier lifetimes. On a reliable device the wipe
   * succeeds; on any device a full verification that finds no mismatch proves that it did, and a sampled one that
   * every byte of its windows is right.
   */
  ghost predicate Established(plan: Plan, dev: Device, res: VerifyResult, fraction: real)
    reads dev, dev.bytes
  {
    && res.mode == plan.std.mode && Examined(plan, dev.bytes[..], res, fraction)
    && (dev.reliable ==> Wiped(plan, dev.bytes[..], res))
    && (plan.Valid() && plan.std.mode == Full ==>
          res.bytes == plan.Size() && (res.mismatches == 0 <==> Wiped(plan, dev.bytes[..], res)))
  }

  /** After a completed run by one of these standards a reliable device holds nothing but zero bytes. */
  lemma LeavesZeros(plan: Plan, dev: Device, res: VerifyResult, fraction: real, code: string)
    requires code == "nist_clear" || code == "nist_purge" || code == "sample_quick"
    requires code in STANDARDS && plan.std == STANDARDS[code] && dev.reliable && Established(plan, dev, res, fraction)
    ensures forall b :: 0 <= b < dev.bytes.Length ==> dev.bytes[b] == 0x00
  {
    ZeroStandards(plan, code);
    assert dev.bytes[..] == FreshRun(plan);
    forall b | 0 <= b < dev.bytes.Length ensures dev.bytes[b] == 0x00 {
      assert dev.bytes[..][b] == dev.bytes[b];
    }
  }

  /** Overwrite from the resume point, then verify. */
  method RunEngine(dev: Device, options: Options, sink: ProgressSink,
                   ghost plan: Plan, ghost before: Trace, ghost first: Machine, ghost entry: (Store, Pc))
    returns (ending: Ending, res: VerifyResult, ghost t: Trace)
    requires dev.bytes.Length > 0 ==>
               && At(plan, before, dev, sink, Off, first, entry) && Init(plan, first)
               && Serves(Normalized(options), plan)
               && Cursor(options.resumePass, options.resumeOffset) ==
                    (match sink.Row() case None => Cursor(0, 0) case Some(c) => c)
    modifies dev`media, dev.bytes, sink, sink.st
    ensures dev.bytes.Length == 0 ==> ending == Errored && unchanged(sink) && unchanged(sink.st) && t == before
    ensures dev.bytes.Length > 0 ==>
              At(plan, t, dev, sink, if ending == Completed then Verifying else Off, first, entry)
    ensures ending == Completed ==> Established(plan, dev, res, options.fraction)
    ensures dev.bytes.Length > 0 && Smooth(plan, dev, sink) ==> ending == Completed
    ensures ending == Completed && plan.std.mode == Full ==> sink.Row() == Some(Cursor(plan.Final(), plan.Size()))
  {
    var opt := Normalized(options);
    if dev.bytes.Length == 0 {
      return Errored, VerifyResult(opt.std.mode, 0, 0, []), before;
    }
    ending, res, t := RunPhases(dev, opt, sink, plan, before, first, entry);
  }

  method RunPhases(dev: Device, opt: Options, sink: ProgressSink,
                   ghost plan: Plan, ghost before: Trace, ghost first: Machine, ghost entry: (Store, Pc))
    returns (ending: Ending, res: VerifyResult, ghost t: Trace)
    requires At(plan, before, dev, sink, Off, first, entry) && Init(plan, first) && Serves(opt, plan)
    requires Cursor(opt.resumePass, opt.resumeOffset) == (match sink.Row() case None => Cursor(0, 0) case Some(c) => c)
    modifies dev`media, dev.bytes, sink, sink.st
    ensures At(plan, t, dev, sink, if ending == Completed then Verifying else Off, first, entry)
    ensures ending == Completed ==> Established(plan, dev, res, opt.fraction)
    ensures Smooth(plan, dev, sink) ==> ending == Completed
    ensures ending == Completed && plan.std.mode == Full ==> sink.Row() == Some(Cursor(plan.Final(), plan.Size()))
  {
    res := VerifyResult(opt.std.mode, 0, 0, []);
    RunInv(plan, before, |before.states| - 1);
    ending, t := Overwrite(dev, opt, sink, plan, before, first, entry);
    if ending != Completed {
      return;
    }
    ending, res, t := CheckWiped(dev, opt, sink, plan, t, first, entry);
  }

  /** The second phase, when all passes are over. */
  method CheckWiped(dev: Device, opt: Options, sink: ProgressSink,
                     ghost plan: Plan, ghost before: Trace, ghost first: Machine, ghost entry: (Store, Pc))
    returns (ending: Ending, res: VerifyResult, ghost t: Trace)
    requires At(plan, before, dev, sink, Verifying, first, entry) && Init(plan, first) && Serves(opt, plan)
    modifies dev.bytes, sink, sink.st
    ensures At(plan, t, dev, sink, if ending == Completed then Verifying else Off, first, entry)
    ensures ending == Completed ==> Established(plan, dev, res, opt.fraction)
    ensures Smooth(plan, dev, sink) ==> ending == Completed
    ensures ending == Completed && plan.std.mode == Full ==> sink.Row() == Some(Cursor(plan.Final(), plan.Size()))
  {
    dev.Decay();
    OverwrittenDevice(plan, before, dev, sink, first, entry);
    ghost var spans;
    ending, res, spans, t := VerifyDevice(dev, opt, sink, sink.calm, plan, before, first, entry);
    if ending == Completed {
      VerifiedDevice(plan, opt, dev, spans, res);
    }
  }

  /** However an earlier job was cut short, the next one can take over the device from any of its states. */
  lemma NextJobCanStart(plan: Plan, t: Trace, next: Plan)
    requires plan.Valid() && t.Valid(plan) && Init(plan, t.First())
    requires WellFormed(next.std) && 0 < next.chunk && 0 < next.step
    requires next.original == Values(t.Last().media) && next.leftovers == AtRisk(t.Last().media)
    ensures next.Valid() && Init(next, Machine(Untouched(Values(t.Last().media), AtRisk(t.Last().media)), None, Off))
  {
    RunInv(plan, t, |t.states| - 1);
    InvResumable(plan, t.Last());
    var c := Resume(plan, t.Last().row);
    forall b | 0 <= b < plan.Size() ensures next.original[b] in next.leftovers[b] {
      assert CellAt(plan, t.Last().media[b], b, c.pass, c.offset);
    }
  }

  lemma OverwrittenDevice(plan: Plan, t: Trace, dev: Device, sink: ProgressSink, first: Machine, entry: (Store, Pc))
    requires At(plan, t, dev, sink, Verifying, first, entry) && Init(plan, first)
    ensures Values(dev.media) == FreshRun(plan) && (dev.reliable ==> dev.bytes[..] == FreshRun(plan))
  {
    CrashRefinement(plan, t, |t.states| - 1);
    assert dev.reliable ==> dev.bytes[..] == Values(dev.media);
  }

  lemma VerifiedDevice(plan: Plan, opt: Options, dev: Device, spans: seq<Span>, res: VerifyResult)
    requires plan.Valid() && Serves(opt, plan) && dev.bytes.Length == plan.Size() && Exact(dev.bytes[..], opt, spans, res)
    requires dev.reliable ==> dev.bytes[..] == FreshRun(plan)
    ensures Established(plan, dev, res, opt.fraction)
  {
    VerifyDecides(plan, opt, dev.bytes[..], spans, res);
    assert Inspected(plan, dev.bytes[..], spans, res, opt.fraction);
    if dev.bytes[..] == FreshRun(plan) {
      VerifiedFresh(plan, opt, dev.bytes[..], spans, res);
    }
    if plan.std.mode == Full {
      FullVerifyDecides(plan, opt, dev.bytes[..], spans, res);
    }
  }

  lemma VerifiedFresh(plan: Plan, opt: Options, bytes: seq<Byte>, spans: seq<Span>, res: VerifyResult)
    requires plan.Valid() && Serves(opt, plan) && bytes == FreshRun(plan) && Exact(bytes, opt, spans, res)
    ensures Wiped(plan, bytes, res)
  {
    NothingDiffers(plan, opt, bytes, spans);
    WholeDevice(bytes, opt, spans, res);
    assert spans[..|spans|] == spans;
  }

  /** On a device that holds the image of an uninterrupted run no range of its own standard has a mismatch. */
  lemma {:induction false} NothingDiffers(plan: Plan, opt: Options, bytes: seq<Byte>, spans: seq<Span>)
    requires plan.Valid() && Serves(opt, plan) && bytes == FreshRun(plan)
    requires forall i :: 0 <= i < |spans| ==> spans[i].start <= spans[i].end <= |bytes|
    requires opt.std.mode == Full ==> forall i :: 0 <= i < |spans| ==> spans[i].start == 0
    ensures SumDiff(bytes, opt, spans) == 0
    decreases |spans|
  {
    if |spans| > 0 {
      NothingDiffers(plan, opt, bytes, spans[..|spans| - 1]);
      var last := spans[|spans| - 1];
      FreshImage(plan, plan.original, 0, 0);
      forall b: nat | last.start <= b < last.end ensures bytes[b] == Want(opt, last.start, b) {
        assert bytes[b] == plan.Expect(plan.Final(), b);
      }
      assert Differing(bytes, opt, last.start, last.end) == {};
    }
  }

  lemma WholeDevice(bytes: seq<Byte>, opt: Options, spans: seq<Span>, res: VerifyResult)
    requires 0 < opt.chunk && |opt.std.passes| > 0 && Exact(bytes, opt, spans, res)
    ensures opt.std.mode == Full ==> res.bytes == |bytes| && res.mismatches == |Differing(bytes, opt, 0, |bytes|)|
  {
    if opt.std.mode == Full {
      var all := Span(0, |bytes|);
      TotalOfMore([], all);
      assert spans[..|spans|] == [all] == [] + [all];
      assert SumDiff(bytes, opt, [all]) == SumDiff(bytes, opt, [all][..0]) + |Differing(bytes, opt, all.start, all.end)|;
    }
  }

  /** Full verification reports zero mismatches exactly when the device holds the image of an uninterrupted run. */
  lemma FullVerifyDecides(plan: Plan, opt: Options, bytes: seq<Byte>, spans: seq<Span>, res: VerifyResult)
    requires plan.Valid() && Serves(opt, plan) && |bytes| == plan.Size() && opt.std.mode == Full
    requires Exact(bytes, opt, spans, res)
    ensures res.bytes == plan.Size()
    ensures res.mismatches == |set b: nat | b < |bytes| && bytes[b] != FreshRun(plan)[b]|
    ensures res.mismatches == 0 <==> bytes == FreshRun(plan)
  {
    WholeDevice(bytes, opt, spans, res);
    FreshImage(plan, plan.original, 0, 0);
    var bad := set b: nat | b < |bytes| && bytes[b] != FreshRun(plan)[b];
    assert Differing(bytes, opt, 0, |bytes|) == bad;
    if bytes != FreshRun(plan) {
      var b :| 0 <= b < |bytes| && bytes[b] != FreshRun(plan)[b];
      assert b in bad;
    }
  }

  // ---- what a verification counts, as sets: pairs of a range and a position in it ----

  lemma {:induction false} SumDiffIsSizes(bytes: seq<Byte>, opt: Options, spans: seq<Span>, found: seq<set<nat>>)
    requires 0 < opt.chunk && |opt.std.passes| > 0 && On(spans, |bytes|) && |found| == |spans|
    requires forall i :: 0 <= i < |spans| ==> found[i] == Differing(bytes, opt, spans[i].start, spans[i].end)
    ensures SumDiff(bytes, opt, spans) == Sizes(found)
    decreases |spans|
  {
    if |spans| > 0 {
      SumDiffIsSizes(bytes, opt, spans[..|spans| - 1], found[..|spans| - 1]);
    }
  }

  ghost predicate Expects(opt: Options, start: nat, image: seq<Byte>)
    requires 0 < opt.chunk && |opt.std.passes| > 0
  {
    forall b: nat :: start <= b < |image| ==> Want(opt, start, b) == image[b]
  }

  /** The sum over the ranges counts pairs, if verification expects `image` in every range. */
  lemma SumDiffCounts(opt: Options, bytes: seq<Byte>, image: seq<Byte>, spans: seq<Span>)
    requires 0 < opt.chunk && |opt.std.passes| > 0 && |image| == |bytes| && On(spans, |bytes|)
    requires forall i :: 0 <= i < |spans| ==> Expects(opt, spans[i].start, image)
    ensures SumDiff(bytes, opt, spans)
            == |set i: nat, b: nat | i < |spans| && spans[i].start <= b < spans[i].end && bytes[b] != image[b] :: (i, b)|
  {
    var found := seq(|spans|, i requires 0 <= i < |spans| => Differing(bytes, opt, spans[i].start, spans[i].end));
    SumDiffIsSizes(bytes, opt, spans, found);
    SizesCount(found);
    forall i, b: nat | 0 <= i < |spans|
      ensures b in found[i] <==> spans[i].start <= b < spans[i].end && bytes[b] != image[b]
    {
      assert Expects(opt, spans[i].start, image);
    }
    assert (set i: nat, b: nat | i < |found| && b in found[i] :: (i, b))
           == set i: nat, b: nat | i < |spans| && spans[i].start <= b < spans[i].end && bytes[b] != image[b] :: (i, b);
  }

  /** Verification expects the image of an uninterrupted run, from the start of the device or, if sampled, from anywhere. */
  lemma WantIsFresh(plan: Plan, opt: Options, start: nat)
    requires plan.Valid() && Serves(opt, plan) && (opt.std.mode == Full ==> start == 0)
    ensures Expects(opt, start, FreshRun(plan))
  {
    FreshImage(plan, plan.original, 0, 0);
    forall b: nat | start <= b < plan.Size() ensures Want(opt, start, b) == FreshRun(plan)[b] {
      assert FreshRun(plan)[b] == plan.Expect(plan.Final(), b);
    }
  }

  /**
   * What a verification reports, in full mode or sampled. Its byte count is the number of pairs of a range and a
   * position in it, its mismatch count the number of those pairs at which the device differs from an uninterrupted
   * run; so it is zero if and only if every byte of every range is right.
   */
  lemma VerifyDecides(plan: Plan, opt: Options, bytes: seq<Byte>, spans: seq<Span>, res: VerifyResult)
    requires plan.Valid() && Serves(opt, plan) && |bytes| == plan.Size() && Exact(bytes, opt, spans, res)
    ensures On(spans, |bytes|)
    ensures res.bytes == |set i: nat, b: nat | i < |spans| && spans[i].start <= b < spans[i].end :: (i, b)|
    ensures res.mismatches
            == |set i: nat, b: nat | i < |spans| && spans[i].start <= b < spans[i].end && bytes[b] != FreshRun(plan)[b] :: (i, b)|
    ensures res.mismatches == 0 <==> AllRight(plan, bytes, spans)
  {
    assert spans[..|spans|] == spans;
    TotalCounts(spans);
    forall i | 0 <= i < |spans| ensures Expects(opt, spans[i].start, FreshRun(plan)) {
      WantIsFresh(plan, opt, spans[i].start);
    }
    SumDiffCounts(opt, bytes, FreshRun(plan), spans);
    var wrong := set i: nat, b: nat | i < |spans| && spans[i].start <= b < spans[i].end && bytes[b] != FreshRun(plan)[b] :: (i, b);
    if !AllRight(plan, bytes, spans) {
      var i, b :| 0 <= i < |spans| && spans[i].start <= b < spans[i].end && bytes[b] != FreshRun(plan)[b];
      assert (i, b) in wrong;
    }
  }
}
