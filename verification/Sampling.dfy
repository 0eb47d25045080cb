/** The sample windows of a quick verification. */
module Sampling {
  import opened Counting

  datatype Span = Span(start: nat, end: nat)

  /** 4 MiB. */
  const WINDOW: nat := 0x40_0000

  function Min(a: int, b: int): int { if a < b then a else b }

  function Max(a: int, b: int): int { if a > b then a else b }

  /** How many bytes the sample aims at; the float multiplication of the source is taken over the reals. */
  function Target(size: nat, fraction: real): (t: nat)
    ensures t <= size && t >= Min(WINDOW, size)
    ensures var wanted := size as real * (if fraction <= 0.0 then 0.01 else fraction);
            && (t > WINDOW ==> t as real <= wanted)         // no more than asked for, beyond the first window
            && (t < size ==> wanted < t as real + 1.0)      // and no less, short of the whole device
  {
    var f := if fraction <= 0.0 then 0.01 else fraction;
    var raw := (size as real * f).Floor;
    Min(Max(raw, WINDOW), size)
  }

  function Total(spans: seq<Span>): int
    decreases |spans|
  {
    if |spans| == 0 then 0
    else Total(spans[..|spans| - 1]) + spans[|spans| - 1].end - spans[|spans| - 1].start
  }

  lemma TotalOfMore(spans: seq<Span>, s: Span)
    ensures Total(spans + [s]) == Total(spans) + s.end - s.start
  {
    assert (spans + [s])[..|spans|] == spans;
  }

  lemma {:induction false} TotalIsSizes(spans: seq<Span>, found: seq<set<nat>>)
    requires |found| == |spans| && forall i :: 0 <= i < |spans| ==> |found[i]| == spans[i].end - spans[i].start
    ensures Total(spans) == Sizes(found)
    decreases |spans|
  {
    if |spans| > 0 {
      TotalIsSizes(spans[..|spans| - 1], found[..|spans| - 1]);
    }
  }

  lemma {:induction false} PositionsOf(spans: seq<Span>) returns (found: seq<set<nat>>)
    requires forall i :: 0 <= i < |spans| ==> spans[i].start <= spans[i].end
    ensures |found| == |spans| && forall i :: 0 <= i < |spans| ==> |found[i]| == spans[i].end - spans[i].start
    ensures forall i, b: nat :: 0 <= i < |spans| ==> (b in found[i] <==> spans[i].start <= b < spans[i].end)
    decreases |spans|
  {
    found := [];
    if |spans| > 0 {
      var init, last := spans[..|spans| - 1], spans[|spans| - 1];
      found := PositionsOf(init);
      var positions := Positions(last.start, last.end);
      found := found + [positions];
    }
  }

  lemma TotalCounts(spans: seq<Span>)
    requires forall i :: 0 <= i < |spans| ==> spans[i].start <= spans[i].end
    ensures Total(spans) == |set i: nat, b: nat | i < |spans| && spans[i].start <= b < spans[i].end :: (i, b)|
  {
    var found := PositionsOf(spans);
    TotalIsSizes(spans, found);
    SizesCount(found);
    assert (set i: nat, b: nat | i < |found| && b in found[i] :: (i, b))
           == set i: nat, b: nat | i < |spans| && spans[i].start <= b < spans[i].end :: (i, b);
  }

  /**
   * What the sample promises for every size, fraction and outcome of the random draws: the spans are
   * non-empty, lie on the device and include head and tail; there are at most 4097 of them; they reach the
   * target exactly when 4097 windows can, and by less than one window too much once the target exceeds two.
   */
  ghost predicate CoversSample(size: nat, target: nat, spans: seq<Span>) {
    && 2 <= |spans| <= 4097
    && spans[0] == Span(0, Min(WINDOW, size))
    && spans[1] == Span(Max(0, size - WINDOW), size)
    && (forall i :: 0 <= i < |spans| ==> spans[i].start < spans[i].end <= size)
    && (forall i :: 2 <= i < |spans| ==> spans[i].end == spans[i].start + WINDOW)
    && (Total(spans) >= target <==> target <= 4097 * WINDOW)
    && (target > 2 * WINDOW ==> Total(spans) < target + WINDOW)
    && (size > WINDOW && target <= 2 * WINDOW ==> |spans| == 2)
  }

  /** Int63n: one draw of the generator, reduced to `[0, n)`. */
  function Draw(draw: nat -> nat, k: nat, n: nat): (r: nat)
    requires 0 < n
    ensures r < n
  {
    draw(k) % n
  }

  /** The ranges after head and tail are whole windows, at the positions drawn. */
  ghost predicate Windows(size: nat, draw: nat -> nat, spans: seq<Span>) {
    forall i :: 2 <= i < |spans| ==> WindowAt(size, draw, i - 2, spans[i])
  }

  predicate WindowAt(size: nat, draw: nat -> nat, k: nat, s: Span) {
    s.start == Draw(draw, k, Max(1, size - WINDOW)) && s.end == s.start + WINDOW
  }

  lemma OneMoreWindow(size: nat, draw: nat -> nat, spans: seq<Span>, s: Span)
    requires |spans| >= 2 && Windows(size, draw, spans) && WindowAt(size, draw, |spans| - 2, s)
    ensures Windows(size, draw, spans + [s])
  {}

  /** sampleRanges; `draw` is the seeded generator, so the same job always gets the same windows, anywhere on the device. */
  method SampleRanges(size: nat, fraction: real, draw: nat -> nat) returns (spans: seq<Span>)
    requires size > 0
    ensures CoversSample(size, Target(size, fraction), spans)
    ensures forall i :: 2 <= i < |spans| ==> spans[i].start == draw(i - 2) % Max(1, size - WINDOW)
  {
    spans := SpansFor(size, Target(size, fraction), draw);
  }

  method DrawSpan(size: nat, draw: nat -> nat, k: nat) returns (s: Span)
    requires size > WINDOW
    ensures WindowAt(size, draw, k, s) && s.end <= size
  {
    var start := Draw(draw, k, Max(1, size - WINDOW));
    var end := start + WINDOW;
    if end > size {
      end := size;
    }
    return Span(start, end);
  }

  method SpansFor(size: nat, target: nat, draw: nat -> nat) returns (spans: seq<Span>)
    requires size > 0 && target <= size && (size >= WINDOW ==> target >= WINDOW)
    ensures CoversSample(size, target, spans) && Windows(size, draw, spans)
  {
    spans := [Span(0, Min(WINDOW, size)), Span(Max(0, size - WINDOW), size)];
    HeadAndTail(spans);
    var covered := spans[0].end - spans[0].start;
    if size > WINDOW {
      covered := covered + spans[1].end - spans[1].start;
    }
    while covered < target
      invariant 2 <= |spans| <= 4096 || (|spans| == 2 && target <= covered)
      invariant size <= WINDOW ==> target <= covered && |spans| == 2 && Total(spans) == 2 * size
      invariant size > WINDOW ==> covered == Total(spans) == |spans| * WINDOW
      invariant |spans| > 2 ==> covered < target + WINDOW
      invariant spans[0] == Span(0, Min(WINDOW, size)) && spans[1] == Span(Max(0, size - WINDOW), size)
      invariant forall i :: 0 <= i < |spans| ==> spans[i].start < spans[i].end <= size
      invariant Windows(size, draw, spans)
      decreases target - covered
    {
      var next := DrawSpan(size, draw, |spans| - 2);
      TotalOfMore(spans, next);
      OneMoreWindow(size, draw, spans, next);
      spans := spans + [next];
      covered := covered + next.end - next.start;
      if |spans| > 4096 {
        break;
      }
    }
  }

  lemma HeadAndTail(spans: seq<Span>)
    requires |spans| == 2
    ensures Total(spans) == spans[0].end - spans[0].start + spans[1].end - spans[1].start
  {
    TotalOfMore([], spans[0]);
    TotalOfMore([spans[0]], spans[1]);
    assert [] + [spans[0]] == [spans[0]] && spans == [spans[0]] + [spans[1]];
  }
}
