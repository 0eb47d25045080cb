/**
 * The overwrite engine as a machine that can stop, be killed or lose power between any two of its actions.
 * A `Media` is the device: per byte, what a reader sees, what a power loss may leave, and which passes were
 * written and forced to stable storage. The checkpoint row lives in a separate durable store.
 */
module CrashMachine {
  import opened Domain
  import opened Keystream

  // ---- the device ----

  datatype Cell = Cell(
    value: Byte,              // what ReadAt returns
    survivors: set<Byte>,     // what a power loss may leave here
    writes: seq<nat>,         // index of the pass of every write to this byte, oldest first
    pending: set<nat>,        // passes written since the last fsync
    durable: set<nat>)        // passes that an fsync forced to stable storage

  type Media = seq<Cell>

  function Written(c: Cell, pass: nat, v: Byte): Cell {
    Cell(v, c.survivors + {v}, c.writes + [pass], c.pending + {pass}, c.durable)
  }

  function Synced(c: Cell): Cell {
    Cell(c.value, {c.value}, c.writes, {}, c.durable + c.pending)
  }

  function WriteCells(media: Media, pass: nat, offset: nat, data: seq<Byte>): (m: Media)
    requires offset + |data| <= |media|
    ensures |m| == |media|
    ensures forall b :: 0 <= b < |m| ==>
              m[b] == if offset <= b < offset + |data| then Written(media[b], pass, data[b - offset]) else media[b]
  {
    seq(|media|, b requires 0 <= b < |media| =>
      if offset <= b < offset + |data| then Written(media[b], pass, data[b - offset]) else media[b])
  }

  function SyncCells(media: Media): (m: Media)
    ensures |m| == |media| && forall b :: 0 <= b < |m| ==> m[b] == Synced(media[b])
  {
    seq(|media|, b requires 0 <= b < |media| => Synced(media[b]))
  }

  /** After a power loss every byte holds one of its survivors; unsynced writes no longer count. */
  predicate AfterPowerLoss(media: Media, media': Media) {
    && |media'| == |media|
    && forall b :: 0 <= b < |media| ==>
         && media'[b].value in media[b].survivors
         && media'[b] == Cell(media'[b].value, {media'[b].value}, media[b].writes, {}, media[b].durable)
  }

  function Values(media: Media): (v: seq<Byte>)
    ensures |v| == |media| && forall b :: 0 <= b < |v| ==> v[b] == media[b].value
  {
    seq(|media|, b requires 0 <= b < |media| => media[b].value)
  }

  /** A device as the job finds it: never written by the job, perhaps with writes of others not yet synced. */
  function Untouched(bytes: seq<Byte>, leftovers: seq<set<Byte>>): (m: Media)
    requires |leftovers| == |bytes|
    ensures |m| == |bytes| && forall b :: 0 <= b < |m| ==> m[b] == Cell(bytes[b], leftovers[b], [], {}, {})
  {
    seq(|bytes|, b requires 0 <= b < |bytes| => Cell(bytes[b], leftovers[b], [], {}, {}))
  }

  // ---- the job ----

  /**
   * Everything that stays fixed over all lifetimes of one job. `original` is what the job finds on the device, and
   * `leftovers`, byte by byte, what a power loss before its first fsync could turn that into.
   */
  datatype Plan = Plan(std: Standard, streams: nat -> Keystream, chunk: nat, step: nat,
                       original: seq<Byte>, leftovers: seq<set<Byte>>) {
    function Size(): nat { |original| }

    predicate Valid() {
      && WellFormed(std) && 0 < chunk && 0 < step && 0 < Size()
      && |leftovers| == Size() && forall b :: 0 <= b < Size() ==> original[b] in leftovers[b]
    }

    function Final(): nat
      requires Valid()
    {
      |std.passes| - 1
    }

    function Length(offset: nat): nat
      requires offset <= Size()
    {
      if offset + chunk > Size() then Size() - offset else chunk
    }

    /** What one call of the engine writes at `offset` in pass `p`. */
    function Chunk(p: nat, offset: nat): (data: seq<Byte>)
      requires p < |std.passes| && offset <= Size()
      ensures |data| == Length(offset)
    {
      seq(Length(offset), i requires 0 <= i => StreamByte(std.passes[p].pattern, streams(p), offset, i))
    }

    /** What pass `p` writes at byte `b` when all chunks start at multiples of the chunk size. */
    function Expect(p: nat, b: nat): Byte
      requires p < |std.passes| && 0 < chunk
    {
      StreamByte(std.passes[p].pattern, streams(p), b - b % chunk, b % chunk)
    }

    /** What the device can hold at `b` when pass `p` begins. */
    function Before(p: nat, b: nat): set<Byte>
      requires p < |std.passes| && 0 < chunk && b < |leftovers|
    {
      if p == 0 then leftovers[b] else {Expect(p - 1, b)}
    }

    /**
     * An offset at which pass `p` may be entered without changing what it writes: the chunk grid, or
     * anywhere in the final pass of a sampled standard, which is never random.
     */
    predicate Aligned(p: nat, offset: nat)
      requires Valid() && p <= Final()
    {
      offset % chunk == 0 || offset == Size() || (p == Final() && std.mode == Sample)
    }
  }

  lemma MulPositive(k: nat, c: nat)
    requires 1 <= k
    ensures k * c >= c
  {
    assert k * c == (k - 1) * c + c;
  }

  lemma Quotient(c: nat, q: nat, r: nat)
    requires r < c
    ensures (q * c + r) / c == q && (q * c + r) % c == r
  {
    var x := q * c + r;
    var d, m := x / c, x % c;
    assert x == d * c + m;
    if d < q {
      MulPositive(q - d, c);
    } else if d > q {
      MulPositive(d - q, c);
    }
  }

  lemma GridStart(chunk: nat, x: nat, i: nat)
    requires 0 < chunk && x % chunk == 0 && i < chunk
    ensures (x + i) % chunk == i
  {
    Quotient(chunk, x / chunk, i);
  }

  lemma GridNext(chunk: nat, x: nat)
    requires 0 < chunk && x % chunk == 0
    ensures (x + chunk) % chunk == 0
  {
    var q := x / chunk;
    Quotient(chunk, q + 1, 0);
    assert (q + 1) * chunk == q * chunk + chunk;
  }

  /** From an aligned offset the engine writes exactly what the grid expects. */
  lemma ChunkIsExpected(plan: Plan, p: nat, offset: nat)
    requires plan.Valid() && p <= plan.Final() && offset <= plan.Size() && plan.Aligned(p, offset)
    ensures forall i :: 0 <= i < plan.Length(offset) ==> plan.Chunk(p, offset)[i] == plan.Expect(p, offset + i)
  {
    forall i | 0 <= i < plan.Length(offset)
      ensures plan.Chunk(p, offset)[i] == plan.Expect(p, offset + i)
    {
      if offset % plan.chunk == 0 {
        GridStart(plan.chunk, offset, i);
      }
    }
  }

  lemma AlignedNext(plan: Plan, p: nat, offset: nat)
    requires plan.Valid() && p <= plan.Final() && offset < plan.Size() && plan.Aligned(p, offset)
    ensures plan.Aligned(p, offset + plan.Length(offset))
  {
    if offset % plan.chunk == 0 {
      GridNext(plan.chunk, offset);
    }
  }

  // ---- the reference: one uninterrupted run, without checkpoints ----

  function Splice(bytes: seq<Byte>, offset: nat, data: seq<Byte>): (r: seq<Byte>)
    requires offset + |data| <= |bytes|
    ensures |r| == |bytes|
  {
    bytes[..offset] + data + bytes[offset + |data|..]
  }

  function WriteFrom(plan: Plan, bytes: seq<Byte>, p: nat, offset: nat): (r: seq<Byte>)
    requires plan.Valid() && p <= plan.Final() && offset <= plan.Size() && |bytes| == plan.Size()
    ensures |r| == plan.Size()
    decreases plan.Final() - p, plan.Size() - offset
  {
    if offset < plan.Size() then
      WriteFrom(plan, Splice(bytes, offset, plan.Chunk(p, offset)), p, offset + plan.Length(offset))
    else if p < plan.Final() then
      WriteFrom(plan, bytes, p + 1, 0)
    else
      bytes
  }

  function FreshRun(plan: Plan): seq<Byte>
    requires plan.Valid()
  {
    WriteFrom(plan, plan.original, 0, 0)
  }

  lemma {:induction false} FreshImage(plan: Plan, bytes: seq<Byte>, p: nat, offset: nat)
    requires plan.Valid() && p <= plan.Final() && offset <= plan.Size() && |bytes| == plan.Size()
    requires offset % plan.chunk == 0 || offset == plan.Size()
    requires forall b :: 0 <= b < offset ==> bytes[b] == plan.Expect(p, b)
    ensures forall b :: 0 <= b < plan.Size() ==> WriteFrom(plan, bytes, p, offset)[b] == plan.Expect(plan.Final(), b)
    decreases plan.Final() - p, plan.Size() - offset
  {
    if offset < plan.Size() {
      var next := offset + plan.Length(offset);
      var bytes' := Splice(bytes, offset, plan.Chunk(p, offset));
      ChunkIsExpected(plan, p, offset);
      if next != plan.Size() {
        GridNext(plan.chunk, offset);
      }
      forall b | 0 <= b < next ensures bytes'[b] == plan.Expect(p, b) {
        if offset <= b {
          assert bytes'[b] == plan.Chunk(p, offset)[b - offset];
        }
      }
      FreshImage(plan, bytes', p, next);
    } else if p < plan.Final() {
      FreshImage(plan, bytes, p + 1, 0);
    }
  }

  /** What is left on the device, byte for byte, tells the last pass; `start` is where the chunk of the byte begins. */
  lemma LastPassShows(plan: Plan, start: nat, b: nat)
    requires plan.Valid() && start % plan.chunk == 0 && start <= b < start + plan.chunk && b < plan.Size()
    ensures var final := plan.std.passes[|plan.std.passes| - 1];
            && (final.pattern == Zeros ==> FreshRun(plan)[b] == 0x00)
            && (final.pattern == Ones ==> FreshRun(plan)[b] == 0xFF)
            && (final.pattern == Random ==>
                  FreshRun(plan)[b] == Accumulated(plan.streams(final.index), start / 64, b / 64, b % 64))
  {
    FreshImage(plan, plan.original, 0, 0);
    GridStart(plan.chunk, start, b - start);
  }

  /** Three of the built-in standards leave nothing but zero bytes. */
  lemma ZeroStandards(plan: Plan, code: string)
    requires code == "nist_clear" || code == "nist_purge" || code == "sample_quick"
    requires plan.Valid() && code in STANDARDS && plan.std == STANDARDS[code]
    ensures forall b :: 0 <= b < plan.Size() ==> FreshRun(plan)[b] == 0x00
  {
    FreshImage(plan, plan.original, 0, 0);
  }

  // ---- the machine ----

  /** The checkpoint row of the job. */
  datatype Cursor = Cursor(pass: nat, offset: nat)

  /** The running process; `Off` when there is none. */
  datatype Proc =
    | Off
    | Overwriting(pass: nat, offset: nat, saved: nat, synced: bool)
    | Verifying
    | Finished

  datatype Machine = Machine(media: Media, row: Option<Cursor>, proc: Proc)

  datatype Step =
    | Boot
    | WriteChunk
    | TornWrite(count: nat)     // the write call returns an error, or the process dies inside it
    | SyncDue
    | Save
    | NextPass
    | VerifySave(offset: nat)
    | Finish
    | Halt                      // the process stops or is killed; the device keeps its cache
    | PowerLoss

  /** Where the next lifetime starts: a completed pass is skipped. */
  function Resume(plan: Plan, row: Option<Cursor>): Cursor
    requires plan.Valid()
  {
    match row
    case None => Cursor(0, 0)
    case Some(c) => if c.offset < plan.Size() || c.pass >= plan.Final() then c else Cursor(c.pass + 1, 0)
  }

  predicate CheckpointDue(plan: Plan, offset: nat, saved: nat) {
    saved < offset && (offset - saved >= plan.step || offset >= plan.Size())
  }

  predicate Init(plan: Plan, m: Machine)
    requires plan.Valid()
  {
    m == Machine(Untouched(plan.original, plan.leftovers), None, Off)
  }

  predicate Next(plan: Plan, m: Machine, step: Step, m': Machine)
    requires plan.Valid() && |m.media| == plan.Size()
  {
    match step
    case Boot =>
      var c := Resume(plan, m.row);
      && m.proc.Off?
      && m' == m.(proc := if c.offset < plan.Size() then Overwriting(c.pass, c.offset, c.offset, false) else Verifying)
    case WriteChunk =>
      && Writing(plan, m)
      && m' == m.(media := WriteCells(m.media, m.proc.pass, m.proc.offset, plan.Chunk(m.proc.pass, m.proc.offset)),
                  proc := m.proc.(offset := m.proc.offset + plan.Length(m.proc.offset)))
    case TornWrite(count) =>
      && Writing(plan, m) && count <= plan.Length(m.proc.offset)
      && m' == m.(media := WriteCells(m.media, m.proc.pass, m.proc.offset, plan.Chunk(m.proc.pass, m.proc.offset)[..count]),
                  proc := Off)
    case SyncDue =>
      && m.proc.Overwriting? && !m.proc.synced && CheckpointDue(plan, m.proc.offset, m.proc.saved)
      && m' == m.(media := SyncCells(m.media), proc := m.proc.(synced := true))
    case Save =>
      && m.proc.Overwriting? && m.proc.synced
      && m' == m.(row := Some(Cursor(m.proc.pass, m.proc.offset)),
                  proc := m.proc.(saved := m.proc.offset, synced := false))
    case NextPass =>
      && m.proc.Overwriting? && !m.proc.synced && m.proc.offset == plan.Size() == m.proc.saved
      && m' == m.(media := SyncCells(m.media),
                  proc := if m.proc.pass < plan.Final() then Overwriting(m.proc.pass + 1, 0, 0, false) else Verifying)
    case VerifySave(offset) =>
      && m.proc.Verifying? && offset <= plan.Size() && plan.Aligned(plan.Final(), offset)
      && m' == m.(row := Some(Cursor(plan.Final(), offset)))
    case Finish =>
      m.proc.Verifying? && m' == m.(proc := Finished)
    case Halt =>
      m' == m.(proc := Off)
    case PowerLoss =>
      AfterPowerLoss(m.media, m'.media) && m' == Machine(m'.media, m.row, Off)
  }

  predicate Writing(plan: Plan, m: Machine)
    requires plan.Valid()
  {
    && m.proc.Overwriting? && !m.proc.synced
    && m.proc.pass <= plan.Final() && m.proc.offset < plan.Size()
    && !CheckpointDue(plan, m.proc.offset, m.proc.saved)
  }

  // ---- what every step keeps ----

  predicate Nondecreasing(s: seq<nat>) {
    forall i, j :: 0 <= i < j < |s| ==> s[i] <= s[j]
  }

  /** A byte of a device on which pass `p` is durable below `o` and no later pass has begun. */
  ghost predicate CellAt(plan: Plan, c: Cell, b: nat, p: nat, o: nat)
    requires plan.Valid() && p <= plan.Final() && b < plan.Size()
  {
    && Nondecreasing(c.writes) && (forall q :: q in c.writes ==> q <= p)
    && (forall r: nat :: r < p ==> r in c.durable)
    && c.value in c.survivors
    && (if b < o then p in c.durable && c.survivors == {plan.Expect(p, b)}
        else c.survivors <= plan.Before(p, b) + {plan.Expect(p, b)})
  }

  /** The same byte while pass `p` is being written and has reached offset `o`. */
  ghost predicate CellRunning(plan: Plan, c: Cell, b: nat, p: nat, o: nat, saved: nat)
    requires plan.Valid() && p <= plan.Final() && b < plan.Size()
  {
    && CellAt(plan, c, b, p, saved)
    && (b < o ==> c.value == plan.Expect(p, b) && (p in c.pending || p in c.durable))
  }

  ghost predicate MediaAt(plan: Plan, media: Media, p: nat, o: nat)
    requires plan.Valid() && p <= plan.Final()
  {
    |media| == plan.Size() && forall b :: 0 <= b < |media| ==> CellAt(plan, media[b], b, p, o)
  }

  ghost predicate MediaRunning(plan: Plan, media: Media, p: nat, o: nat, saved: nat)
    requires plan.Valid() && p <= plan.Final()
  {
    |media| == plan.Size() && forall b :: 0 <= b < |media| ==> CellRunning(plan, media[b], b, p, o, saved)
  }

  predicate ValidRow(plan: Plan, row: Option<Cursor>)
    requires plan.Valid()
  {
    row.Some? ==>
      && row.value.pass <= plan.Final()
      && row.value.offset <= plan.Size()
      && plan.Aligned(row.value.pass, row.value.offset)
  }

  /**
   * The invariant of every lifetime. The row alone does not describe the device: after `(p, size)` the next
   * pass may already have replaced what pass `p` wrote, so the bytes are described through `Resume`.
   */
  ghost predicate Inv(plan: Plan, m: Machine)
    requires plan.Valid()
  {
    && |m.media| == plan.Size()
    && ValidRow(plan, m.row)
    && var c := Resume(plan, m.row);
       match m.proc
       case Off => MediaAt(plan, m.media, c.pass, c.offset)
       case Overwriting(p, o, saved, synced) =>
         && p <= plan.Final() && saved <= o <= plan.Size() && plan.Aligned(p, o)
         && c == Resume(plan, Some(Cursor(p, saved)))
         && o - saved < plan.step + plan.chunk
         && (synced ==> CheckpointDue(plan, o, saved))
         && MediaRunning(plan, m.media, p, o, if synced then o else saved)
       case Verifying => c.pass == plan.Final() && MediaAt(plan, m.media, plan.Final(), plan.Size())
       case Finished => c.pass == plan.Final() && MediaAt(plan, m.media, plan.Final(), plan.Size())
  }

  lemma MediaWeaken(plan: Plan, media: Media, p: nat, o: nat, o': nat)
    requires plan.Valid() && p <= plan.Final() && o' <= o && MediaAt(plan, media, p, o)
    ensures MediaAt(plan, media, p, o')
  {
    forall b | 0 <= b < |media| ensures CellAt(plan, media[b], b, p, o') {
      assert CellAt(plan, media[b], b, p, o);
    }
  }

  /** A completed pass is what the next pass finds. */
  lemma MediaAdvance(plan: Plan, media: Media, p: nat)
    requires plan.Valid() && p < plan.Final() && MediaAt(plan, media, p, plan.Size())
    ensures MediaAt(plan, media, p + 1, 0)
  {
    forall b | 0 <= b < |media| ensures CellAt(plan, media[b], b, p + 1, 0) {
      assert CellAt(plan, media[b], b, p, plan.Size());
    }
  }

  lemma MediaResumable(plan: Plan, media: Media, p: nat, o: nat)
    requires plan.Valid() && p <= plan.Final() && o <= plan.Size() && MediaAt(plan, media, p, o)
    ensures var c := Resume(plan, Some(Cursor(p, o))); c.pass <= plan.Final() && MediaAt(plan, media, c.pass, c.offset)
  {
    if o == plan.Size() && p < plan.Final() {
      MediaAdvance(plan, media, p);
    }
  }

  lemma MediaRunningIsAt(plan: Plan, media: Media, p: nat, o: nat, saved: nat)
    requires plan.Valid() && p <= plan.Final() && MediaRunning(plan, media, p, o, saved)
    ensures MediaAt(plan, media, p, saved)
  {
    forall b | 0 <= b < |media| ensures CellAt(plan, media[b], b, p, saved) {
      assert CellRunning(plan, media[b], b, p, o, saved);
    }
  }

  lemma WriteKeeps(plan: Plan, media: Media, p: nat, o: nat, saved: nat, data: seq<Byte>)
    requires plan.Valid() && p <= plan.Final() && saved <= o && o + |data| <= plan.Size()
    requires MediaRunning(plan, media, p, o, saved)
    requires forall i :: 0 <= i < |data| ==> data[i] == plan.Expect(p, o + i)
    ensures MediaRunning(plan, WriteCells(media, p, o, data), p, o + |data|, saved)
  {
    var media' := WriteCells(media, p, o, data);
    forall b | 0 <= b < |media'| ensures CellRunning(plan, media'[b], b, p, o + |data|, saved) {
      assert CellRunning(plan, media[b], b, p, o, saved);
      if o <= b < o + |data| {
        assert data[b - o] == plan.Expect(p, b);
        WritesGrow(media[b].writes, p);
      }
    }
  }

  lemma WritesGrow(writes: seq<nat>, p: nat)
    requires Nondecreasing(writes) && forall q :: q in writes ==> q <= p
    ensures Nondecreasing(writes + [p]) && forall q :: q in writes + [p] ==> q <= p
  {
    forall i, j | 0 <= i < j < |writes + [p]| ensures (writes + [p])[i] <= (writes + [p])[j] {
      if j == |writes| {
        assert writes[i] in writes;
      }
    }
  }

  lemma SyncKeeps(plan: Plan, media: Media, p: nat, o: nat, saved: nat)
    requires plan.Valid() && p <= plan.Final() && saved <= o
    requires MediaRunning(plan, media, p, o, saved)
    ensures MediaRunning(plan, SyncCells(media), p, o, o)
  {
    var media' := SyncCells(media);
    forall b | 0 <= b < |media'| ensures CellRunning(plan, media'[b], b, p, o, o) {
      assert CellRunning(plan, media[b], b, p, o, saved);
    }
  }

  lemma PowerLossKeeps(plan: Plan, media: Media, media': Media, p: nat, o: nat)
    requires plan.Valid() && p <= plan.Final() && MediaAt(plan, media, p, o) && AfterPowerLoss(media, media')
    ensures MediaAt(plan, media', p, o)
  {
    forall b | 0 <= b < |media'| ensures CellAt(plan, media'[b], b, p, o) {
      assert CellAt(plan, media[b], b, p, o);
    }
  }

  /** Whatever the process was doing, the device is what the next lifetime expects. */
  lemma InvResumable(plan: Plan, m: Machine)
    requires plan.Valid() && Inv(plan, m)
    ensures Resume(plan, m.row).pass <= plan.Final()
    ensures MediaAt(plan, m.media, Resume(plan, m.row).pass, Resume(plan, m.row).offset)
  {
    match m.proc
    case Off =>
    case Overwriting(p, o, saved, synced) =>
      MediaRunningIsAt(plan, m.media, p, o, if synced then o else saved);
      if synced {
        MediaWeaken(plan, m.media, p, o, saved);
      }
      MediaResumable(plan, m.media, p, saved);
    case Verifying =>
      MediaWeaken(plan, m.media, plan.Final(), plan.Size(), Resume(plan, m.row).offset);
    case Finished =>
      MediaWeaken(plan, m.media, plan.Final(), plan.Size(), Resume(plan, m.row).offset);
  }

  lemma BootKeepsInv(plan: Plan, m: Machine, m': Machine)
    requires plan.Valid() && Inv(plan, m) && Next(plan, m, Boot, m')
    ensures Inv(plan, m')
  {
    var c := Resume(plan, m.row);
    forall b | 0 <= b < |m.media| ensures CellRunning(plan, m.media[b], b, c.pass, c.offset, c.offset) {
      assert CellAt(plan, m.media[b], b, c.pass, c.offset);
    }
  }

  lemma WriteStepsKeepInv(plan: Plan, m: Machine, step: Step, m': Machine)
    requires plan.Valid() && Inv(plan, m) && (step.WriteChunk? || step.TornWrite?) && Next(plan, m, step, m')
    ensures Inv(plan, m')
  {
    var p, o, saved := m.proc.pass, m.proc.offset, m.proc.saved;
    ChunkIsExpected(plan, p, o);
    if step.WriteChunk? {
      AlignedNext(plan, p, o);
      WriteKeeps(plan, m.media, p, o, saved, plan.Chunk(p, o));
    } else {
      var data := plan.Chunk(p, o)[..step.count];
      WriteKeeps(plan, m.media, p, o, saved, data);
      MediaRunningIsAt(plan, m'.media, p, o + |data|, saved);
      MediaResumable(plan, m'.media, p, saved);
    }
  }

  lemma SaveStepsKeepInv(plan: Plan, m: Machine, step: Step, m': Machine)
    requires plan.Valid() && Inv(plan, m) && (step.SyncDue? || step.Save? || step.NextPass?) && Next(plan, m, step, m')
    ensures Inv(plan, m')
  {
    var p, o, saved := m.proc.pass, m.proc.offset, m.proc.saved;
    if !step.Save? {
      SyncKeeps(plan, m.media, p, o, saved);
    }
    if step.NextPass? {
      MediaRunningIsAt(plan, m'.media, p, o, o);
      if p < plan.Final() {
        MediaAdvance(plan, m'.media, p);
        forall b | 0 <= b < |m'.media| ensures CellRunning(plan, m'.media[b], b, p + 1, 0, 0) {
          assert CellAt(plan, m'.media[b], b, p + 1, 0);
        }
        assert 0 % plan.chunk == 0;
      }
    }
  }

  lemma StepKeepsInv(plan: Plan, m: Machine, step: Step, m': Machine)
    requires plan.Valid() && Inv(plan, m) && Next(plan, m, step, m')
    ensures Inv(plan, m')
  {
    match step
    case Boot => BootKeepsInv(plan, m, m');
    case WriteChunk => WriteStepsKeepInv(plan, m, step, m');
    case TornWrite(_) => WriteStepsKeepInv(plan, m, step, m');
    case SyncDue => SaveStepsKeepInv(plan, m, step, m');
    case Save => SaveStepsKeepInv(plan, m, step, m');
    case NextPass => SaveStepsKeepInv(plan, m, step, m');
    case VerifySave(_) =>
    case Finish =>
    case Halt => InvResumable(plan, m);
    case PowerLoss =>
      InvResumable(plan, m);
      PowerLossKeeps(plan, m.media, m'.media, Resume(plan, m.row).pass, Resume(plan, m.row).offset);
  }

  // ---- every run ----

  datatype Trace = Trace(states: seq<Machine>, steps: seq<Step>) {
    /** A run of the machine: any number of lifetimes, cut short anywhere. */
    ghost predicate Valid(plan: Plan)
      requires plan.Valid()
    {
      && |states| == |steps| + 1
      && (forall i :: 0 <= i < |states| ==> |states[i].media| == plan.Size())
      && (forall i :: 0 <= i < |steps| ==> Next(plan, states[i], steps[i], states[i + 1]))
    }

    function First(): Machine
      requires |states| > 0
    {
      states[0]
    }

    function Last(): Machine
      requires |states| > 0
    {
      states[|states| - 1]
    }

    function Then(step: Step, m: Machine): Trace {
      Trace(states + [m], steps + [step])
    }
  }

  lemma {:induction false} RunKeepsInv(plan: Plan, t: Trace, i: nat)
    requires plan.Valid() && t.Valid(plan) && Inv(plan, t.First()) && i < |t.states|
    ensures Inv(plan, t.states[i])
    decreases i
  {
    if i > 0 {
      RunKeepsInv(plan, t, i - 1);
      StepKeepsInv(plan, t.states[i - 1], t.steps[i - 1], t.states[i]);
    }
  }

  lemma InitInv(plan: Plan, m: Machine)
    requires plan.Valid() && Init(plan, m)
    ensures Inv(plan, m)
  {}

  lemma RunInv(plan: Plan, t: Trace, i: nat)
    requires plan.Valid() && t.Valid(plan) && Init(plan, t.First()) && i < |t.states|
    ensures Inv(plan, t.states[i])
  {
    InitInv(plan, t.First());
    RunKeepsInv(plan, t, i);
  }

  /**
   * Crash refinement. Whatever the schedule of stops, torn writes and power losses, once the overwrite phase
   * is over the device reads exactly as after one uninterrupted run from scratch, and so does every state a
   * further power loss could leave.
   */
  lemma CrashRefinement(plan: Plan, t: Trace, i: nat)
    requires plan.Valid() && t.Valid(plan) && Init(plan, t.First()) && i < |t.states|
    requires t.states[i].proc.Verifying? || t.states[i].proc.Finished?
    ensures Values(t.states[i].media) == FreshRun(plan)
    ensures forall media: Media :: AfterPowerLoss(t.states[i].media, media) ==> Values(media) == FreshRun(plan)
  {
    RunInv(plan, t, i);
    var m := t.states[i];
    FreshImage(plan, plan.original, 0, 0);
    forall b | 0 <= b < |m.media| ensures m.media[b].value == FreshRun(plan)[b] && m.media[b].survivors == {FreshRun(plan)[b]} {
      assert CellAt(plan, m.media[b], b, plan.Final(), plan.Size());
    }
    forall media: Media | AfterPowerLoss(m.media, media) ensures Values(media) == FreshRun(plan) {
      forall b | 0 <= b < |media| ensures media[b].value == FreshRun(plan)[b] {
        assert m.media[b].survivors == {FreshRun(plan)[b]};
      }
    }
  }

  /** No byte of the device has seen pass `q` before every byte has seen all earlier passes durably. */
  ghost predicate PassesInOrder(media: Media) {
    forall b, q :: 0 <= b < |media| && q in media[b].writes ==> AllBelow(media, q)
  }

  ghost predicate AllBelow(media: Media, q: nat) {
    forall b, r: nat :: 0 <= b < |media| && r < q ==> r in media[b].durable
  }

  /** Every pass reaches every byte, in order, and is made durable everywhere before the next one begins. */
  lemma EveryPassReachesEveryByte(plan: Plan, t: Trace, i: nat)
    requires plan.Valid() && t.Valid(plan) && Init(plan, t.First()) && i < |t.states|
    ensures forall b :: 0 <= b < plan.Size() ==> Nondecreasing(t.states[i].media[b].writes)
    ensures PassesInOrder(t.states[i].media)
    ensures t.states[i].proc.Verifying? || t.states[i].proc.Finished? ==> AllBelow(t.states[i].media, |plan.std.passes|)
  {
    RunInv(plan, t, i);
    var m := t.states[i];
    InvResumable(plan, m);
    var p, o := Resume(plan, m.row).pass, Resume(plan, m.row).offset;
    forall b, q | 0 <= b < |m.media| && q in m.media[b].writes ensures AllBelow(m.media, q) {
      assert CellAt(plan, m.media[b], b, p, o);
      forall b', r: nat | 0 <= b' < |m.media| && r < q ensures r in m.media[b'].durable {
        assert CellAt(plan, m.media[b'], b', p, o);
      }
    }
    forall b | 0 <= b < |m.media| ensures Nondecreasing(m.media[b].writes) {
      assert CellAt(plan, m.media[b], b, p, o);
    }
    if m.proc.Verifying? || m.proc.Finished? {
      forall b, r: nat | 0 <= b < |m.media| && r < |plan.std.passes| ensures r in m.media[b].durable {
        assert CellAt(plan, m.media[b], b, plan.Final(), plan.Size());
      }
    }
  }

  /**
   * What a power loss can reveal. The checkpoint row, read as a resume point `(p, o)`, bounds the contents:
   * below `o` only pass `p`, from `o` on only pass `p` or what pass `p` found. In particular the original
   * data can only reappear above the offset reached by the first pass.
   */
  lemma PowerLossReveals(plan: Plan, t: Trace, i: nat, media: Media, b: nat)
    requires plan.Valid() && t.Valid(plan) && Init(plan, t.First()) && i < |t.states|
    requires AfterPowerLoss(t.states[i].media, media) && b < plan.Size()
    ensures var c := Resume(plan, t.states[i].row);
            && c.pass <= plan.Final()
            && (b < c.offset ==> media[b].value == plan.Expect(c.pass, b))
            && (media[b].value == plan.Expect(c.pass, b) || media[b].value in plan.Before(c.pass, b))
  {
    RunInv(plan, t, i);
    InvResumable(plan, t.states[i]);
    var c := Resume(plan, t.states[i].row);
    assert CellAt(plan, t.states[i].media[b], b, c.pass, c.offset);
  }

  /**
   * Checkpoint spacing. A checkpoint saved while overwriting lies at least `step` past the previous one of
   * the pass unless it ends the pass, and less than `step + chunk` past it.
   */
  lemma CheckpointSpacing(plan: Plan, t: Trace, i: nat)
    requires plan.Valid() && t.Valid(plan) && Init(plan, t.First()) && i < |t.steps| && t.steps[i].Save?
    ensures var m, m' := t.states[i], t.states[i + 1];
            && m'.row == Some(Cursor(m.proc.pass, m.proc.offset))
            && m.proc.saved < m.proc.offset < m.proc.saved + plan.step + plan.chunk
            && (m.proc.offset >= m.proc.saved + plan.step || m.proc.offset == plan.Size())
            && (m.proc.saved < plan.Size() ==> Resume(plan, m.row) == Cursor(m.proc.pass, m.proc.saved))
  {
    RunInv(plan, t, i);
  }

  /**
   * Bounded loss. Cutting a lifetime short while pass `p` has reached `offset` makes the next lifetime start
   * in the same pass and write again at most `step + chunk - 1` bytes, or start the next pass if `p` is over.
   */
  lemma BoundedLoss(plan: Plan, t: Trace, i: nat)
    requires plan.Valid() && t.Valid(plan) && Init(plan, t.First()) && i < |t.states| && t.states[i].proc.Overwriting?
    ensures var m, c := t.states[i], Resume(plan, t.states[i].row);
            || (c.pass == m.proc.pass && c.offset <= m.proc.offset && m.proc.offset - c.offset <= plan.step + plan.chunk - 1)
            || (c == Cursor(m.proc.pass + 1, 0) && m.proc.offset == plan.Size())
  {
    RunInv(plan, t, i);
  }

  /** In full mode every checkpoint of every lifetime lies on the chunk grid or at the end of the device. */
  lemma RowsOnGrid(plan: Plan, t: Trace, i: nat)
    requires plan.Valid() && t.Valid(plan) && Init(plan, t.First()) && i < |t.states|
    requires plan.std.mode == Full && t.states[i].row.Some?
    ensures var offset := t.states[i].row.value.offset; offset % plan.chunk == 0 || offset == plan.Size()
  {
    RunInv(plan, t, i);
  }

  // ---- a lifetime that nothing interrupts comes to its end ----

  /** Steps of a running process; no stop, no torn write, no power loss. */
  predicate Undisturbed(step: Step) {
    step.Boot? || step.WriteChunk? || step.SyncDue? || step.Save? || step.NextPass? || step.Finish?
  }

  /** `t'` goes on from `t` by steps of the running process. */
  ghost predicate RunsOn(plan: Plan, t: Trace, t': Trace)
    requires plan.Valid()
  {
    && t.Valid(plan) && t'.Valid(plan) && t'.First() == t.First() && t.steps <= t'.steps
    && forall i :: |t.steps| <= i < |t'.steps| ==> Undisturbed(t'.steps[i])
  }

  lemma TakeStep(plan: Plan, t: Trace, step: Step, m: Machine) returns (t': Trace)
    requires plan.Valid() && t.Valid(plan) && Inv(plan, t.Last()) && Undisturbed(step) && Next(plan, t.Last(), step, m)
    ensures RunsOn(plan, t, t') && t'.Last() == m && Inv(plan, m)
  {
    StepKeepsInv(plan, t.Last(), step, m);
    t' := t.Then(step, m);
  }

  /** What the loop still has to do for the chunk it is at: sync, then save. */
  function Pending(plan: Plan, proc: Proc): nat
    requires proc.Overwriting?
  {
    if proc.synced then 1 else if CheckpointDue(plan, proc.offset, proc.saved) then 2 else 0
  }

  function Due(plan: Plan, m: Machine): (step: Step)
    requires plan.Valid() && m.proc.Overwriting?
  {
    if m.proc.synced then Save
    else if CheckpointDue(plan, m.proc.offset, m.proc.saved) then SyncDue
    else if m.proc.offset < plan.Size() then WriteChunk
    else NextPass
  }

  function After(plan: Plan, m: Machine): (m': Machine)
    requires plan.Valid() && |m.media| == plan.Size() && m.proc.Overwriting?
    requires m.proc.pass <= plan.Final() && m.proc.offset <= plan.Size()
  {
    match Due(plan, m)
    case Save => m.(row := Some(Cursor(m.proc.pass, m.proc.offset)), proc := m.proc.(saved := m.proc.offset, synced := false))
    case SyncDue => m.(media := SyncCells(m.media), proc := m.proc.(synced := true))
    case WriteChunk =>
      m.(media := WriteCells(m.media, m.proc.pass, m.proc.offset, plan.Chunk(m.proc.pass, m.proc.offset)),
         proc := m.proc.(offset := m.proc.offset + plan.Length(m.proc.offset)))
    case _ =>
      m.(media := SyncCells(m.media),
         proc := if m.proc.pass < plan.Final() then Overwriting(m.proc.pass + 1, 0, 0, false) else Verifying)
  }

  lemma {:induction false} OverwritingEnds(plan: Plan, t: Trace) returns (t': Trace)
    requires plan.Valid() && t.Valid(plan) && Inv(plan, t.Last()) && t.Last().proc.Overwriting?
    ensures RunsOn(plan, t, t') && Inv(plan, t'.Last()) && t'.Last().proc == Verifying
    decreases plan.Final() - t.Last().proc.pass, plan.Size() - t.Last().proc.offset, Pending(plan, t.Last().proc)
  {
    var m := t.Last();
    var next := TakeStep(plan, t, Due(plan, m), After(plan, m));
    if next.Last().proc.Overwriting? {
      t' := OverwritingEnds(plan, next);
    } else {
      t' := next;
    }
  }

  /** From every state in which a lifetime can begin, one that nothing interrupts finishes. */
  lemma UninterruptedFinishes(plan: Plan, m: Machine) returns (t: Trace)
    requires plan.Valid() && Inv(plan, m) && m.proc.Off?
    ensures t.Valid(plan) && t.First() == m && t.Last().proc.Finished?
    ensures forall i :: 0 <= i < |t.steps| ==> Undisturbed(t.steps[i])
  {
    var c := Resume(plan, m.row);
    var booted := m.(proc := if c.offset < plan.Size() then Overwriting(c.pass, c.offset, c.offset, false) else Verifying);
    t := TakeStep(plan, Trace([m], []), Boot, booted);
    if t.Last().proc.Overwriting? {
      t := OverwritingEnds(plan, t);
    }
    t := TakeStep(plan, t, Finish, t.Last().(proc := Finished));
  }

  // ---- the range of the block counter ----

  /** Every call that a pass over the grid makes stays inside the cipher's 32-bit counter. */
  ghost predicate GridInRange(plan: Plan)
    requires plan.Valid()
  {
    forall q: nat :: q * plan.chunk < plan.Size() ==> FitsCounter(q * plan.chunk, plan.Length(q * plan.chunk))
  }

  /** A random pass over the whole device is possible exactly when the device ends within one run of the
      counter, or the chunk size divides the 2^38 bytes of a run (the default of 4 MiB does). */
  lemma CounterRange(plan: Plan)
    requires plan.Valid()
    ensures GridInRange(plan) <==> plan.Size() <= 0x40_0000_0000 || 0x40_0000_0000 % plan.chunk == 0
  {
    if 0x40_0000_0000 % plan.chunk == 0 {
      forall q: nat | q * plan.chunk < plan.Size()
        ensures FitsCounter(q * plan.chunk, plan.Length(q * plan.chunk))
      {
        GridFits(plan.chunk, q, plan.Length(q * plan.chunk));
      }
    } else if plan.Size() <= 0x40_0000_0000 {
      forall q: nat | q * plan.chunk < plan.Size()
        ensures FitsCounter(q * plan.chunk, plan.Length(q * plan.chunk))
      {
        RunCovers(q * plan.chunk);
        RunCovers(q * plan.chunk + plan.Length(q * plan.chunk) - 1);
      }
    } else {
      var q := 0x40_0000_0000 / plan.chunk;
      var start := q * plan.chunk;
      assert start < 0x40_0000_0000 < start + plan.chunk;
      RunCovers(start);
      RunCovers(start + plan.Length(start) - 1);
      assert !FitsCounter(start, plan.Length(start));
    }
  }

  /** From an aligned offset the stream of a pass can be derived. */
  lemma WriteInRange(plan: Plan, p: nat, offset: nat)
    requires plan.Valid() && GridInRange(plan) && p <= plan.Final() && offset < plan.Size() && plan.Aligned(p, offset)
    ensures StatusOf(plan.std.passes[p].pattern, offset, plan.Length(offset)) == Filled
  {
    if plan.std.passes[p].pattern == Random {
      var q := offset / plan.chunk;
      assert q * plan.chunk == offset;
    }
  }

  /** In any run, fresh or resumed, the calls of the random passes are calls of the grid, also before a torn write. */
  lemma WritesStayInRange(plan: Plan, t: Trace, i: nat)
    requires plan.Valid() && GridInRange(plan) && t.Valid(plan) && Init(plan, t.First())
    requires i < |t.steps| && (t.steps[i].WriteChunk? || t.steps[i].TornWrite?)
    ensures Writing(plan, t.states[i])
    ensures var proc := t.states[i].proc;
            StatusOf(plan.std.passes[proc.pass].pattern, proc.offset, plan.Length(proc.offset)) == Filled
  {
    RunInv(plan, t, i);
    assert Next(plan, t.states[i], t.steps[i], t.states[i + 1]);
    WriteInRange(plan, t.states[i].proc.pass, t.states[i].proc.offset);
  }

  /** So are the calls of a full verification; a sampled one never derives a random stream. */
  lemma VerifyStaysInRange(plan: Plan, offset: nat, n: nat)
    requires plan.Valid() && GridInRange(plan)
    requires plan.std.mode == Full ==> offset % plan.chunk == 0 && offset < plan.Size() && n == plan.Length(offset)
    ensures StatusOf(plan.std.passes[plan.Final()].pattern, offset, n) == Filled
  {
    if plan.std.passes[plan.Final()].pattern == Random {
      var q := offset / plan.chunk;
      assert q * plan.chunk == offset;
    }
  }

  /** The price of the truncated counter: with such a chunk size the expected stream repeats every 2^38 bytes. */
  lemma ExpectedStreamRepeats(plan: Plan, p: nat, b: nat)
    requires plan.Valid() && p <= plan.Final() && 0x40_0000_0000 % plan.chunk == 0
    ensures plan.Expect(p, b + 0x40_0000_0000) == plan.Expect(p, b)
  {
    var start, i := b - b % plan.chunk, b % plan.chunk;
    ShiftedStart(plan.chunk, b);
    AccumulatedRepeats(plan.streams(p), BlockOf(start), BlockOf(start + i), ColumnOf(start + i));
  }

  lemma ShiftedStart(chunk: nat, b: nat)
    requires 0 < chunk && 0x40_0000_0000 % chunk == 0
    ensures (b + 0x40_0000_0000) % chunk == b % chunk
  {
    var per := 0x40_0000_0000 / chunk;
    assert per * chunk == 0x40_0000_0000;
    var q, i := b / chunk, b % chunk;
    assert b == q * chunk + i;
    assert (q + per) * chunk == q * chunk + per * chunk;
    Quotient(chunk, q + per, i);
  }

  lemma {:induction false} AccumulatedRepeats(ks: Keystream, lo: nat, hi: nat, k: nat)
    requires lo <= hi && k < 64
    ensures Accumulated(ks, lo + 0x1_0000_0000, hi + 0x1_0000_0000, k) == Accumulated(ks, lo, hi, k)
    decreases hi
  {
    assert CounterOf(hi + 0x1_0000_0000) == CounterOf(hi);
    if hi > lo {
      AccumulatedRepeats(ks, lo, hi - 1, k);
    }
  }
}
