/** The capabilities the stress harness consumes without defining them: the
    numeric kernels, the available-memory probe and the wall clock. Each is
    modelled by what the harness observes of it, as a stream of readings. */
module Platform {

  /** One invocation of a numeric kernel, with the arguments it was given. */
  datatype Call =
    | CpuBound(size: nat, iterations: nat)  // cos/sqrt/log10/sin/matmul rounds on a size x size tensor
    | MemoryCopy(size: nat, copies: nat)    // repeated clones of a size x size tensor
    | Elementwise(size: nat)                // fifty cos/sqrt/log10/sin rounds, no matmul

  /** Every kernel reports a non-negative duration. */
  ghost predicate NonNegative(durations: nat -> real) {
    forall k :: durations(k) >= 0.0
  }

  /** Later clock readings are never smaller than earlier ones. */
  ghost predicate NonDecreasing(clock: nat -> real) {
    forall i, j :: i <= j ==> clock(i) <= clock(j)
  }

  /** Total duration of `count` consecutive kernel calls starting with call number `from`. */
  function Elapsed(durations: nat -> real, from: nat, count: nat): real
    decreases count
  {
    if count == 0 then 0.0 else Elapsed(durations, from, count - 1) + durations(from + count - 1)
  }

  lemma {:induction false} ElapsedNonNegative(durations: nat -> real, from: nat, count: nat)
    requires NonNegative(durations)
    ensures Elapsed(durations, from, count) >= 0.0
    decreases count
  {
    if count > 0 {
      ElapsedNonNegative(durations, from, count - 1);
    }
  }

  /** A window of calls splits into two adjacent windows. */
  lemma {:induction false} ElapsedSplit(durations: nat -> real, from: nat, a: nat, b: nat)
    ensures Elapsed(durations, from, a + b) == Elapsed(durations, from, a) + Elapsed(durations, from + a, b)
    decreases b
  {
    if b > 0 {
      ElapsedSplit(durations, from, a, b - 1);
    }
  }

  /** The sum of a sequence of timings, added left to right. */
  function Sum(s: seq<real>): real
    decreases |s|
  {
    if s == [] then 0.0 else Sum(s[..|s| - 1]) + s[|s| - 1]
  }

  /** The calls made by `n` identical workers, each of which makes the calls `w`,
      run one after the other. */
  function FanOut(n: nat, w: seq<Call>): seq<Call>
    decreases n
  {
    if n == 0 then [] else FanOut(n - 1, w) + w
  }

  lemma {:induction false} FanOutLength(n: nat, w: seq<Call>)
    ensures |FanOut(n, w)| == n * |w|
    decreases n
  {
    if n > 0 {
      FanOutLength(n - 1, w);
      assert (n - 1) * |w| + |w| == n * |w|;
    }
  }

  /** Worker `i` of a fan-out makes exactly the calls `w`, with the same arguments. */
  lemma {:induction false} FanOutAt(n: nat, w: seq<Call>, i: nat, j: nat)
    requires i < n && j < |w|
    ensures i * |w| + j < |FanOut(n, w)| && FanOut(n, w)[i * |w| + j] == w[j]
    decreases n
  {
    FanOutLength(n - 1, w);
    FanOutLength(n, w);
    if i < n - 1 {
      assert i * |w| + j < (i + 1) * |w| <= (n - 1) * |w| by {
        assert (i + 1) * |w| == i * |w| + |w|;
        MulMonotone(i + 1, n - 1, |w|);
      }
      FanOutAt(n - 1, w, i, j);
    }
  }

  /** The k-th call of a fan-out is the (k mod |w|)-th call of one worker. */
  lemma FanOutPeriodic(n: nat, w: seq<Call>)
    ensures |FanOut(n, w)| == n * |w|
    ensures forall k :: 0 <= k < |FanOut(n, w)| ==> FanOut(n, w)[k] == w[k % |w|]
  {
    FanOutLength(n, w);
    forall k | 0 <= k < |FanOut(n, w)|
      ensures FanOut(n, w)[k] == w[k % |w|]
    {
      var i, j := k / |w|, k % |w|;
      assert k == i * |w| + j;
      assert i < n by {
        if i >= n {
          MulMonotone(n, i, |w|);
        }
      }
      FanOutAt(n, w, i, j);
    }
  }

  /** A fan-out of single-call workers is that call repeated `n` times. */
  lemma {:induction false} FanOutSingle(n: nat, c: Call)
    ensures |FanOut(n, [c])| == n
    ensures forall k :: 0 <= k < n ==> FanOut(n, [c])[k] == c
    decreases n
  {
    if n > 0 {
      FanOutSingle(n - 1, c);
      assert FanOut(n, [c]) == FanOut(n - 1, [c]) + [c];
    }
  }

  /** Multiplying by the same factor keeps the order. */
  lemma MulMonotone(a: nat, b: nat, c: nat)
    requires a <= b
    ensures a * c <= b * c && c * a <= c * b
  {
  }

  /** When worker `i` reports the durations of the `i`-th block of `width`
      calls, the summed worker timings are the duration of the whole fan-out. */
  lemma {:induction false} SumOfBlocks(durations: nat -> real, from: nat, width: nat, results: seq<real>)
    requires forall i :: 0 <= i < |results| ==> results[i] == Elapsed(durations, from + i * width, width)
    ensures Sum(results) == Elapsed(durations, from, |results| * width)
    decreases |results|
  {
    if results != [] {
      var n := |results| - 1;
      var init := results[..n];
      var a := n * width;
      assert forall i :: 0 <= i < |init| ==> init[i] == results[i];
      SumOfBlocks(durations, from, width, init);
      assert |results| * width == a + width by {
        MulSucc(n, width);
      }
      calc {
        Sum(results);
        Sum(init) + results[n];
        Elapsed(durations, from, a) + Elapsed(durations, from + a, width);
        { ElapsedSplit(durations, from, a, width); }
        Elapsed(durations, from, a + width);
      }
    }
  }

  lemma AppendAssociative(a: seq<Call>, b: seq<Call>, c: seq<Call>)
    ensures (a + b) + c == a + (b + c)
  {
  }

  lemma MulSucc(n: nat, w: nat)
    ensures (n + 1) * w == n * w + w
  {
  }

  /** The machine the harness runs on. The readings of the memory probe, the
      durations the kernels report and the readings of the clock are fixed
      streams; the fields record how much of each has been consumed and which
      kernel calls were made, in order. */
  class Host {
    const memory: nat -> real     // k-th reading of available memory, in MB
    const durations: nat -> real  // duration reported by the k-th kernel call, in seconds
    const clock: nat -> real      // k-th reading of the wall clock, in seconds
    var probes: nat               // memory readings taken so far
    var ticks: nat                // clock readings taken so far
    var trace: seq<Call>          // kernel calls made so far, oldest first

    ghost predicate Valid() {
      NonNegative(durations) && NonDecreasing(clock)
    }

    constructor (memory: nat -> real, durations: nat -> real, clock: nat -> real)
      requires NonNegative(durations) && NonDecreasing(clock)
      ensures Valid()
      ensures this.memory == memory && this.durations == durations && this.clock == clock
      ensures probes == 0 && ticks == 0 && trace == []
    {
      this.memory, this.durations, this.clock := memory, durations, clock;
      probes, ticks, trace := 0, 0, [];
    }

    /** Available memory in MB, a fresh reading on every call. */
    method AvailableMemoryMb() returns (mb: real)
      modifies this`probes
      ensures mb == memory(old(probes)) && probes == old(probes) + 1
    {
      mb := memory(probes);
      probes := probes + 1;
    }

    /** The current wall-clock time. */
    method Time() returns (t: real)
      modifies this`ticks
      ensures t == clock(old(ticks)) && ticks == old(ticks) + 1
    {
      t := clock(ticks);
      ticks := ticks + 1;
    }

    /** Runs one kernel call and returns the duration it reports. */
    method Run(call: Call) returns (d: real)
      modifies this`trace
      ensures trace == old(trace) + [call]
      ensures d == durations(|old(trace)|)
      ensures Valid() ==> d >= 0.0
    {
      d := durations(|trace|);
      trace := trace + [call];
    }
  }
}
