/**
 * The bytes a pass writes. The ChaCha20 block function is a parameter: a `Keystream` is the cipher with its
 * key fixed, mapping a block counter to 64 bytes.
 */
module Keystream {
  import opened Domain

  type Byte = bv8

  function BlockOf(x: nat): nat { x / 64 }

  function ColumnOf(x: nat): nat { x % 64 }

  /** The cipher's block counter is 32 bits wide (section 2.3 of RFC 8439); a larger block number is truncated. */
  function CounterOf(block: nat): nat { block % 0x1_0000_0000 }

  /** Which run of the 32-bit counter an absolute offset falls in: one run covers 2^38 bytes. */
  function RunOf(x: nat): nat { BlockOf(x) / 0x1_0000_0000 }

  type Block = b: seq<Byte> | |b| == 64 witness seq(64, _ => 0)

  type Keystream = nat -> Block

  // ---- key derivation: the cipher key starts with 16 bytes folded from the job id ----

  /** XOR of the bytes of `s` whose position is congruent to `column` modulo 16. */
  function Column(s: seq<Byte>, column: nat): Byte
    decreases |s|
  {
    if |s| == 0 then 0
    else
      var rest := Column(s[..|s| - 1], column);
      if (|s| - 1) % 16 == column then rest ^ s[|s| - 1] else rest
  }

  function Folded(s: seq<Byte>): (key: seq<Byte>)
    ensures |key| == 16
  {
    seq(16, i requires 0 <= i => Column(s, i))
  }

  /** pad16: copies the first sixteen bytes, then folds the rest in place. */
  method Pad16(s: seq<Byte>) returns (out: array<Byte>)
    ensures fresh(out) && out[..] == Folded(s)
  {
    out := new Byte[16](_ => 0);
    var head := if |s| < 16 then |s| else 16;
    for i := 0 to head
      invariant forall c :: 0 <= c < 16 ==> out[c] == if c < i then s[c] else 0
    {
      out[i] := s[i];
    }
    forall c | 0 <= c < 16 ensures out[c] == Column(s[..head], c) {
      ColumnOfShort(s[..head], c);
    }
    if |s| > 16 {
      for i := 16 to |s|
        invariant forall c :: 0 <= c < 16 ==> out[c] == Column(s[..i], c)
      {
        assert s[..i + 1][..i] == s[..i];
        out[i % 16] := out[i % 16] ^ s[i];
      }
    }
    assert s[..|s|] == s;
    assert |s| <= 16 ==> s[..head] == s;
  }

  lemma {:induction false} ColumnOfShort(s: seq<Byte>, column: nat)
    requires |s| <= 16 && column < 16
    ensures Column(s, column) == if column < |s| then s[column] else 0
  {
    if |s| > 0 {
      ColumnOfShort(s[..|s| - 1], column);
      if column == |s| - 1 {
        XorZero(s[column]);
      }
    }
  }

  lemma XorZero(x: Byte)
    ensures 0 ^ x == x
  {}

  /**
   * Job ids issued by the program are 32 bytes long. Two of them give the same key for a pass exactly when
   * every byte of the first half, folded with its partner in the second half, agrees: the key is a function
   * of the job id but not an injective one.
   */
  lemma KeyCollision(s: seq<Byte>, t: seq<Byte>)
    requires |s| == 32 && |t| == 32
    ensures Folded(s) == Folded(t) <==> forall i :: 0 <= i < 16 ==> Pair(s, i) == Pair(t, i)
  {
    assert s[..32] == s && t[..32] == t;
    forall i | 0 <= i < 16
      ensures Folded(s)[i] == Pair(s, i) && Folded(t)[i] == Pair(t, i)
    {
      ColumnOfTwoRows(s, 32, i);
      ColumnOfTwoRows(t, 32, i);
    }
  }

  function Pair(s: seq<Byte>, i: nat): Byte
    requires i + 16 < |s|
  {
    s[i] ^ s[i + 16]
  }

  lemma {:induction false} ColumnOfTwoRows(s: seq<Byte>, n: nat, column: nat)
    requires 16 <= n <= 32 && n <= |s| && column < 16
    ensures Column(s[..n], column) == if column + 16 < n then s[column] ^ s[column + 16] else s[column]
  {
    if n == 16 {
      ColumnOfShort(s[..16], column);
    } else {
      assert s[..n][..n - 1] == s[..n - 1];
      ColumnOfTwoRows(s, n - 1, column);
    }
  }

  // ---- the random stream ----

  /** What one call has XORed into position `k` of its block buffer after blocks `lo` to `hi`. */
  function Accumulated(ks: Keystream, lo: nat, hi: nat, k: nat): Byte
    requires lo <= hi && k < 64
    decreases hi
  {
    var block := ks(CounterOf(hi))[k];
    if hi == lo then block else Accumulated(ks, lo, hi - 1, k) ^ block
  }

  /** Byte `i` of a call that starts at absolute offset `offset`. */
  function StreamByte(pattern: Pattern, ks: Keystream, offset: nat, i: nat): Byte {
    match pattern
    case Zeros => 0x00
    case Ones => 0xFF
    case Random => Accumulated(ks, BlockOf(offset), BlockOf(offset + i), ColumnOf(offset + i))
    case OtherPattern(_) => 0x00
  }

  /** The blocks a call of `n` bytes needs all lie in one run of the 32-bit counter. */
  predicate FitsCounter(offset: nat, n: nat) {
    n == 0 || RunOf(offset + n - 1) == RunOf(offset)
  }

  /** When the counter is exhausted the cipher panics, which ends the process. */
  datatype StreamStatus = Filled | UnknownPattern | CounterExhausted

  function StatusOf(pattern: Pattern, offset: nat, n: nat): StreamStatus {
    match pattern
    case Zeros => Filled
    case Ones => Filled
    case Random => if FitsCounter(offset, n) then Filled else CounterExhausted
    case OtherPattern(_) => UnknownPattern
  }

  /** The block buffer of a call that started in block `lo` and has used the blocks below `next`. */
  ghost predicate Holds(blockBuf: seq<Byte>, ks: Keystream, lo: nat, next: nat) {
    && |blockBuf| == 64 && lo <= next
    && forall k :: 0 <= k < 64 ==> blockBuf[k] == if next == lo then 0 else Accumulated(ks, lo, next - 1, k)
  }

  /** One call of the cipher: XORs the next block into the buffer, which is never cleared in between. */
  method XorBlock(ks: Keystream, counter: nat, blockBuf: array<Byte>, ghost lo: nat, ghost next: nat)
    requires Holds(blockBuf[..], ks, lo, next) && counter == CounterOf(next)
    modifies blockBuf
    ensures Holds(blockBuf[..], ks, lo, next + 1)
  {
    for k := 0 to 64
      invariant forall j :: 0 <= j < k ==> blockBuf[j] == old(blockBuf[j]) ^ ks(counter)[j]
      invariant forall j :: k <= j < 64 ==> blockBuf[j] == old(blockBuf[j])
    {
      blockBuf[k] := blockBuf[k] ^ ks(counter)[k];
    }
    forall k | 0 <= k < 64 ensures blockBuf[k] == Accumulated(ks, lo, next, k) {
      if next == lo {
        XorZero(ks(counter)[k]);
      }
    }
  }

  /** Copies as much of `blockBuf[skip..]` into `buf[pos..n]` as fits. */
  method CopyBlock(blockBuf: array<Byte>, skip: nat, buf: array<Byte>, pos: nat, n: nat) returns (count: nat)
    requires blockBuf != buf && blockBuf.Length == 64 && skip <= 64 && pos <= n <= buf.Length
    modifies buf
    ensures count == if n - pos < 64 - skip then n - pos else 64 - skip
    ensures forall i :: pos <= i < pos + count ==> buf[i] == blockBuf[skip + i - pos]
    ensures forall i :: 0 <= i < buf.Length && !(pos <= i < pos + count) ==> buf[i] == old(buf[i])
  {
    count := if n - pos < 64 - skip then n - pos else 64 - skip;
    for i := 0 to count
      invariant forall j :: pos <= j < pos + i ==> buf[j] == blockBuf[skip + j - pos]
      invariant forall j :: 0 <= j < buf.Length && !(pos <= j < pos + i) ==> buf[j] == old(buf[j])
    {
      buf[pos + i] := blockBuf[skip + i];
    }
  }

  method Fill(buf: array<Byte>, n: nat, value: Byte)
    requires n <= buf.Length
    modifies buf
    ensures forall i :: 0 <= i < n ==> buf[i] == value
    ensures forall i :: n <= i < buf.Length ==> buf[i] == old(buf[i])
  {
    for i := 0 to n
      invariant forall j :: 0 <= j < i ==> buf[j] == value
      invariant forall j :: i <= j < buf.Length ==> buf[j] == old(buf[j])
    {
      buf[i] := value;
    }
  }

  /** streamAt: fills `buf[..n]` with what the pass expects at `offset`. */
  method StreamAt(pattern: Pattern, ks: Keystream, buf: array<Byte>, n: nat, offset: nat) returns (status: StreamStatus)
    requires n <= buf.Length
    modifies buf
    ensures status == StatusOf(pattern, offset, n)
    ensures status == Filled ==> forall i :: 0 <= i < n ==> buf[i] == StreamByte(pattern, ks, offset, i)
    ensures pattern == Zeros ==> status == Filled && forall i :: 0 <= i < n ==> buf[i] == 0x00
    ensures pattern == Ones ==> status == Filled && forall i :: 0 <= i < n ==> buf[i] == 0xFF
    ensures forall i :: n <= i < buf.Length ==> buf[i] == old(buf[i])
  {
    match pattern {
      case Zeros =>
        Fill(buf, n, 0x00);
        return Filled;
      case Ones =>
        Fill(buf, n, 0xFF);
        return Filled;
      case Random =>
        status := RandomAt(ks, buf, n, offset);
      case OtherPattern(_) =>
        return UnknownPattern;
    }
  }

  method RandomAt(ks: Keystream, buf: array<Byte>, n: nat, offset: nat) returns (status: StreamStatus)
    requires n <= buf.Length
    modifies buf
    ensures status == if FitsCounter(offset, n) then Filled else CounterExhausted
    ensures status == Filled ==> forall i :: 0 <= i < n ==> buf[i] == StreamByte(Random, ks, offset, i)
    ensures forall i :: n <= i < buf.Length ==> buf[i] == old(buf[i])
  {
    ghost var lo := BlockOf(offset);
    ghost var next := lo;
    var counter := CounterOf(BlockOf(offset));
    var blockBuf := new Byte[64](_ => 0);
    var skip := ColumnOf(offset);
    var pos := 0;
    if skip > 0 {
      XorBlock(ks, counter, blockBuf, lo, next);
      counter := counter + 1;
      pos := CopyStream(ks, blockBuf, skip, buf, 0, n, offset, next);
      next := lo + 1;
    }
    while pos < n
      invariant lo <= next && counter == CounterOf(lo) + (next - lo) <= 0x1_0000_0000
      invariant pos == Reached(offset, n, next)
      invariant Holds(blockBuf[..], ks, lo, next)
      invariant forall i :: 0 <= i < pos ==> buf[i] == StreamByte(Random, ks, offset, i)
      invariant forall i :: n <= i < buf.Length ==> buf[i] == old(buf[i])
      decreases n - pos
    {
      if counter == 0x1_0000_0000 {
        // the cipher refuses to run its counter past 2^32 - 1
        Exhausted(offset, n, next);
        return CounterExhausted;
      }
      XorBlock(ks, counter, blockBuf, lo, next);
      counter := counter + 1;
      var count := CopyStream(ks, blockBuf, 0, buf, pos, n, offset, next);
      pos := pos + count;
      next := next + 1;
    }
    NotExhausted(offset, n, next);
    return Filled;
  }

  /** How far a call of `n` bytes at `offset` has filled its buffer once it has used the blocks below `next`. */
  function Reached(offset: nat, n: nat, next: nat): int
  {
    if n < next * 64 - offset then n else next * 64 - offset
  }

  /** Bytes copied out of the buffer that holds block `block` are the stream bytes of that stretch of the call. */
  lemma StreamFrom(blockBuf: seq<Byte>, ks: Keystream, offset: nat, block: nat, pos: nat, count: nat)
    requires BlockOf(offset) <= block && Holds(blockBuf, ks, BlockOf(offset), block + 1)
    requires block * 64 <= offset + pos && offset + pos + count <= block * 64 + 64
    ensures forall i :: pos <= i < pos + count ==>
              blockBuf[offset + i - block * 64] == StreamByte(Random, ks, offset, i)
  {
    forall i | pos <= i < pos + count
      ensures blockBuf[offset + i - block * 64] == StreamByte(Random, ks, offset, i)
    {
      assert BlockOf(offset + i) == block && ColumnOf(offset + i) == offset + i - block * 64;
    }
  }

  /** Copies out of the buffer that holds block `block`; the call continues at `buf[pos]`. */
  method CopyStream(ghost ks: Keystream, blockBuf: array<Byte>, skip: nat, buf: array<Byte>, pos: nat, n: nat,
                    ghost offset: nat, ghost block: nat)
    returns (count: nat)
    requires blockBuf != buf && blockBuf.Length == 64 && skip < 64 && pos <= n <= buf.Length
    requires BlockOf(offset) <= block && Holds(blockBuf[..], ks, BlockOf(offset), block + 1)
    requires offset + pos == block * 64 + skip
    modifies buf
    ensures count == if n - pos < 64 - skip then n - pos else 64 - skip
    ensures forall i :: pos <= i < pos + count ==> buf[i] == StreamByte(Random, ks, offset, i)
    ensures forall i :: 0 <= i < buf.Length && !(pos <= i < pos + count) ==> buf[i] == old(buf[i])
  {
    count := CopyBlock(blockBuf, skip, buf, pos, n);
    StreamFrom(blockBuf[..], ks, offset, block, pos, count);
    forall i | pos <= i < pos + count ensures buf[i] == StreamByte(Random, ks, offset, i) {
      assert buf[i] == blockBuf[..][offset + i - block * 64];
    }
  }

  lemma Exhausted(offset: nat, n: nat, next: nat)
    requires BlockOf(offset) <= next && CounterOf(BlockOf(offset)) + (next - BlockOf(offset)) == 0x1_0000_0000
    requires Reached(offset, n, next) < n
    ensures !FitsCounter(offset, n)
  {
    assert next <= BlockOf(offset + n - 1);
  }

  lemma NotExhausted(offset: nat, n: nat, next: nat)
    requires BlockOf(offset) <= next && CounterOf(BlockOf(offset)) + (next - BlockOf(offset)) <= 0x1_0000_0000
    requires n == 0 || n <= next * 64 - offset
    ensures FitsCounter(offset, n)
  {}

  // ---- what the stream of a call depends on ----

  /** The stream value at absolute position `x`, as produced by a call that starts in block `lo`. */
  function ValueAt(ks: Keystream, lo: nat, x: nat): Byte
    requires lo <= BlockOf(x)
  {
    Accumulated(ks, lo, BlockOf(x), ColumnOf(x))
  }

  lemma {:induction false} AccumulatedSplit(ks: Keystream, lo: nat, mid: nat, hi: nat, k: nat)
    requires lo < mid <= hi && k < 64
    ensures Accumulated(ks, lo, hi, k) == Accumulated(ks, lo, mid - 1, k) ^ Accumulated(ks, mid, hi, k)
    decreases hi
  {
    if hi > mid {
      AccumulatedSplit(ks, lo, mid, hi - 1, k);
      XorAssociates(Accumulated(ks, lo, mid - 1, k), Accumulated(ks, mid, hi - 1, k), ks(CounterOf(hi))[k]);
    }
  }

  lemma XorAssociates(a: Byte, b: Byte, c: Byte)
    ensures (a ^ b) ^ c == a ^ (b ^ c)
  {}

  lemma XorCancels(a: Byte, b: Byte)
    ensures a ^ b == b <==> a == 0
  {
    assert a ^ b == b ==> (a ^ b) ^ b == b ^ b;
    assert (a ^ b) ^ b == a;
    assert b ^ b == 0;
    if a == 0 {
      XorZero(b);
    }
  }

  /**
   * For a fixed key, a later starting block gives the same byte at `x` exactly when the keystream blocks it
   * skipped cancel out at that column.
   */
  lemma SplitAgrees(ks: Keystream, lo: nat, mid: nat, x: nat)
    requires lo < mid <= BlockOf(x)
    ensures ValueAt(ks, lo, x) == ValueAt(ks, mid, x) <==> Accumulated(ks, lo, mid - 1, ColumnOf(x)) == 0
  {
    AccumulatedSplit(ks, lo, mid, BlockOf(x), ColumnOf(x));
    XorCancels(Accumulated(ks, lo, mid - 1, ColumnOf(x)), Accumulated(ks, mid, BlockOf(x), ColumnOf(x)));
  }

  /** A keystream whose only non-zero block is the one at counter `hot`. */
  function SpikeAt(hot: nat): Keystream {
    (counter: nat) => if counter == hot then seq(64, _ => 1) else seq(64, _ => 0)
  }

  lemma {:induction false} SpikeAccumulates(lo: nat, hi: nat, k: nat)
    requires lo <= hi && k < 64 && hi - lo < 0x1_0000_0000
    ensures Accumulated(SpikeAt(CounterOf(lo)), lo, hi, k) == 1
    decreases hi
  {
    if hi > lo {
      SpikeAccumulates(lo, hi - 1, k);
      assert CounterOf(hi) != CounterOf(lo);
      assert (1 as Byte) ^ 0 == 1;
    }
  }

  predicate Agree(ks: Keystream, first: nat, second: nat, x: nat)
    requires first <= x && second <= x
  {
    StreamByte(Random, ks, first, x - first) == StreamByte(Random, ks, second, x - second)
  }

  /**
   * The comment in the source promises that any offset can be derived independently. That holds exactly for
   * calls that start in the same 64-byte block: those agree on a shared position under every key, and two
   * calls that start in different blocks disagree under some key.
   */
  lemma AgreeUnderEveryKey(first: nat, second: nat, x: nat)
    requires first <= x && second <= x && BlockOf(x) - BlockOf(first) < 0x1_0000_0000 && BlockOf(x) - BlockOf(second) < 0x1_0000_0000
    ensures (forall ks: Keystream :: Agree(ks, first, second, x)) <==> BlockOf(first) == BlockOf(second)
  {
    var lo, mid := BlockOf(first), BlockOf(second);
    if lo < mid {
      StartsDisagree(lo, mid, x);
      var ks := SpikeAt(CounterOf(lo));
      assert !Agree(ks, first, second, x);
    } else if mid < lo {
      StartsDisagree(mid, lo, x);
      var ks := SpikeAt(CounterOf(mid));
      assert !Agree(ks, first, second, x);
    }
  }

  lemma StartsDisagree(lo: nat, mid: nat, x: nat)
    requires lo < mid <= BlockOf(x) && BlockOf(x) - lo < 0x1_0000_0000
    ensures ValueAt(SpikeAt(CounterOf(lo)), lo, x) != ValueAt(SpikeAt(CounterOf(lo)), mid, x)
  {
    SpikeAccumulates(lo, mid - 1, ColumnOf(x));
    SplitAgrees(SpikeAt(CounterOf(lo)), lo, mid, x);
  }

  // ---- the counter range ----

  lemma RunCovers(x: nat)
    ensures RunOf(x) == x / 0x40_0000_0000
  {}

  /** A call that stays inside one chunk of a grid whose width divides 2^38 stays inside one run of the counter. */
  lemma GridFits(chunk: nat, q: nat, n: nat)
    requires 0 < chunk && 0x40_0000_0000 % chunk == 0 && 0 < n <= chunk
    ensures FitsCounter(q * chunk, n)
  {
    var per := 0x40_0000_0000 / chunk;
    assert per * chunk == 0x40_0000_0000;
    InPeriod(chunk, per, q, 0);
    InPeriod(chunk, per, q, n - 1);
    RunCovers(q * chunk);
    RunCovers(q * chunk + n - 1);
  }

  lemma InPeriod(chunk: nat, per: nat, q: nat, i: nat)
    requires 0 < chunk && 0 < per && per * chunk == 0x40_0000_0000 && i < chunk
    ensures (q * chunk + i) / 0x40_0000_0000 == q / per
  {
    var a, r := q / per, q % per;
    var rest := r * chunk + i;
    calc {
      q * chunk + i;
      == { assert q == a * per + r; }
      (a * per + r) * chunk + i;
      ==
      a * (per * chunk) + rest;
      ==
      a * 0x40_0000_0000 + rest;
    }
    assert rest < 0x40_0000_0000 by {
      assert r * chunk <= (per - 1) * chunk == per * chunk - chunk;
    }
  }
}
