/** The selection logic of the ping-pong Gaussian blur: which of the two
    ping-pong buffers each pass writes, in which direction it blurs and what it
    samples, and which buffer the composite reads afterwards. The loop in
    `PostProcess.Pipeline.Blur` is proved to follow this schedule. */
module BlurSchedule {

  /** The C++ conversion of a `bool` used as an array index: true is 1, false is 0. */
  function BoolToIndex(b: bool): (r: nat)
    ensures r < 2 && (r == 1 <==> b)
  {
    if b then 1 else 0
  }

  /** What a blur pass samples: the bright-pass attachment of the HDR target, or
      the colour buffer of one of the two ping-pong framebuffers. */
  datatype Source = BrightPass | PingPong(index: nat)

  /** One pass of the loop: the ping-pong buffer it renders into, the value of the
      `horizontal` uniform, and the texture it samples. */
  datatype Step = Step(write: nat, horizontal: bool, read: Source)

  /** The loop's two locals, `horizontal` and `first_iteration`. */
  datatype LoopState = LoopState(horizontal: bool, firstIteration: bool)

  /** Both locals start out true. */
  const Initial := LoopState(true, true)

  /** The pass the loop body issues in state `s`: it writes `pingpongFBO[horizontal]`,
      and samples the bright-pass texture on the first pass and
      `pingpongColorbuffers[!horizontal]` after that. */
  function StepOf(s: LoopState): Step {
    Step(BoolToIndex(s.horizontal), s.horizontal,
         if s.firstIteration then BrightPass else PingPong(BoolToIndex(!s.horizontal)))
  }

  /** The end of the loop body: `horizontal` flips and `first_iteration` is cleared. */
  function Next(s: LoopState): LoopState {
    LoopState(!s.horizontal, false)
  }

  /** The locals after `k` passes. */
  function StateAfter(k: nat): LoopState {
    if k == 0 then Initial else Next(StateAfter(k - 1))
  }

  /** The passes of a loop of `n` iterations, in order. */
  function Schedule(n: nat): (steps: seq<Step>)
    ensures |steps| == n
  {
    if n == 0 then [] else Schedule(n - 1) + [StepOf(StateAfter(n - 1))]
  }

  /** The ping-pong buffer the composite samples after `n` passes:
      `pingpongColorbuffers[!horizontal]` with the final value of `horizontal`. */
  function CompositeIndex(n: nat): nat {
    BoolToIndex(!StateAfter(n).horizontal)
  }

  /** Number of passes in `steps` that blur horizontally. */
  function HorizontalPasses(steps: seq<Step>): nat {
    if steps == [] then 0
    else HorizontalPasses(steps[..|steps| - 1]) + (if steps[|steps| - 1].horizontal then 1 else 0)
  }

  /** After `k` passes `horizontal` is true exactly when `k` is even, and only the
      initial state still has `first_iteration` set. */
  lemma {:induction false} StateAfterClosedForm(k: nat)
    ensures StateAfter(k) == LoopState(k % 2 == 0, k == 0)
  {
    if k > 0 {
      StateAfterClosedForm(k - 1);
    }
  }

  /** A loop of `n` iterations issues `n` passes, pass `k` being the one issued
      from the state after `k` passes. */
  lemma {:induction false} ScheduleAt(n: nat, k: nat)
    requires k < n
    ensures Schedule(n)[k] == StepOf(StateAfter(k))
  {
    if k < n - 1 {
      ScheduleAt(n - 1, k);
    }
  }

  /** Pass `k` blurs horizontally exactly when `k` is even (T, F, T, F, ...) and writes
      the buffer whose index is its direction flag. */
  lemma DirectionAlternates(n: nat, k: nat)
    requires k < n
    ensures Schedule(n)[k].horizontal == (k % 2 == 0)
    ensures Schedule(n)[k].write == BoolToIndex(Schedule(n)[k].horizontal)
    ensures Schedule(n)[k].write == (if k % 2 == 0 then 1 else 0)
  {
    ScheduleAt(n, k);
    StateAfterClosedForm(k);
  }

  /** Only the first pass samples the bright-pass texture; every later pass samples
      the ping-pong buffer it does not write. So no pass reads the buffer it writes. */
  lemma ReadIsNeverWritten(n: nat, k: nat)
    requires k < n
    ensures Schedule(n)[k].read == BrightPass <==> k == 0
    ensures k > 0 ==> Schedule(n)[k].read.PingPong? && Schedule(n)[k].read.index + Schedule(n)[k].write == 1
    ensures Schedule(n)[k].read != PingPong(Schedule(n)[k].write)
  {
    ScheduleAt(n, k);
    StateAfterClosedForm(k);
  }

  /** Each pass after the first samples exactly the buffer the previous pass wrote. */
  lemma ReadsPreviousOutput(n: nat, k: nat)
    requires 0 < k < n
    ensures Schedule(n)[k].read == PingPong(Schedule(n)[k - 1].write)
  {
    ScheduleAt(n, k);
    ScheduleAt(n, k - 1);
    StateAfterClosedForm(k);
    StateAfterClosedForm(k - 1);
  }

  /** With at least one pass, the composite samples the buffer the last pass wrote. */
  lemma CompositeReadsLastWrite(n: nat)
    requires n >= 1
    ensures CompositeIndex(n) == Schedule(n)[n - 1].write
    ensures CompositeIndex(n) == (if n % 2 == 0 then 0 else 1)
  {
    ScheduleAt(n, n - 1);
    StateAfterClosedForm(n);
    StateAfterClosedForm(n - 1);
  }

  /** Of `n` passes, ceil(n/2) are horizontal and floor(n/2) vertical. */
  lemma {:induction false} HorizontalPassCount(n: nat)
    ensures HorizontalPasses(Schedule(n)) == (n + 1) / 2
  {
    if n > 0 {
      var s := Schedule(n);
      HorizontalPassCount(n - 1);
      assert s[..n - 1] == Schedule(n - 1);
      StateAfterClosedForm(n - 1);
      var h := HorizontalPasses(Schedule(n - 1));
      if (n - 1) % 2 == 0 {
        assert s[n - 1].horizontal;
        assert HorizontalPasses(s) == h + 1;
      } else {
        assert !s[n - 1].horizontal;
        assert HorizontalPasses(s) == h;
      }
    }
  }

  /** The loop the source runs (ten passes): directions T,F,T,F,T,F,T,F,T,F, five
      of each, and the composite samples ping-pong buffer 0, the one written last. */
  lemma TenPasses()
    ensures |Schedule(10)| == 10
    ensures forall k :: 0 <= k < 10 ==> Schedule(10)[k].horizontal == (k % 2 == 0)
    ensures HorizontalPasses(Schedule(10)) == 5
    ensures CompositeIndex(10) == 0 && Schedule(10)[9].write == 0
  {
    forall k | 0 <= k < 10
      ensures Schedule(10)[k].horizontal == (k % 2 == 0)
    {
      DirectionAlternates(10, k);
    }
    HorizontalPassCount(10);
    CompositeReadsLastWrite(10);
  }
}
