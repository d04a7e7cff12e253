/** The plain CPU stress harness (co-lab.torch.gpu.py): every round fans out
    one worker per core, each of which repeats a fixed elementwise kernel;
    there is no memory check and no recursive test. */
module Gpu {
  import opened Platform
  import Scaling

  /** The multipliers of the successive rounds. */
  const SizeMultipliers: seq<nat> := [1, 2, 4, 8, 16]

  /** One worker: `repetitions` kernel calls on the same size, their durations summed. */
  method WorkerFunction(host: Host, size: nat, repetitions: nat) returns (totalTime: real)
    requires host.Valid()
    modifies host`trace
    ensures host.trace == old(host.trace) + FanOut(repetitions, [Elementwise(size)])
    ensures totalTime == Elapsed(host.durations, |old(host.trace)|, repetitions)
    ensures totalTime >= 0.0 && (repetitions == 0 ==> totalTime == 0.0)
  {
    totalTime := 0.0;
    for k := 0 to repetitions
      invariant host.trace == old(host.trace) + FanOut(k, [Elementwise(size)])
      invariant totalTime == Elapsed(host.durations, |old(host.trace)|, k)
    {
      FanOutLength(k, [Elementwise(size)]);
      var d := host.Run(Elementwise(size));
      totalTime := totalTime + d;
    }
    ElapsedNonNegative(host.durations, |old(host.trace)|, repetitions);
  }

  /** The process pool's map: `numProcesses` identical workers, results in worker order. */
  method MapWorkers(host: Host, numProcesses: nat, size: nat, repetitions: nat) returns (results: seq<real>)
    requires host.Valid()
    modifies host`trace
    ensures host.trace == old(host.trace) + FanOut(numProcesses, FanOut(repetitions, [Elementwise(size)]))
    ensures |results| == numProcesses
    ensures forall i :: 0 <= i < numProcesses ==>
      results[i] == Elapsed(host.durations, |old(host.trace)| + i * repetitions, repetitions)
  {
    ghost var w := FanOut(repetitions, [Elementwise(size)]);
    FanOutLength(repetitions, [Elementwise(size)]);
    results := [];
    for i := 0 to numProcesses
      invariant host.trace == old(host.trace) + FanOut(i, w)
      invariant |results| == i
      invariant forall k :: 0 <= k < i ==> results[k] == Elapsed(host.durations, |old(host.trace)| + k * repetitions, repetitions)
    {
      FanOutLength(i, w);
      var r := WorkerFunction(host, size, repetitions);
      results := results + [r];
    }
  }

  /** The dispatcher: a fan-out of `numProcesses` workers on the unchanged
      size. It returns the wall-clock time of the dispatch; the summed worker
      time, which the source only prints, is the ghost `workerTotal`. */
  method StressCpuMultiprocessing(host: Host, size: nat, numProcesses: nat, repetitions: nat)
    returns (elapsed: real, ghost workerTotal: real)
    requires host.Valid() && numProcesses >= 1
    modifies host`trace, host`ticks
    ensures host.trace == old(host.trace) + FanOut(numProcesses, FanOut(repetitions, [Elementwise(size)]))
    ensures workerTotal == Elapsed(host.durations, |old(host.trace)|, numProcesses * repetitions)
    ensures host.ticks == old(host.ticks) + 2
    ensures elapsed == host.clock(old(host.ticks) + 1) - host.clock(old(host.ticks))
    ensures elapsed >= 0.0 && workerTotal >= 0.0
  {
    var startTime := host.Time();
    var results := MapWorkers(host, numProcesses, size, repetitions);
    var totalTime := Sum(results);
    SumOfBlocks(host.durations, |old(host.trace)|, repetitions, results);
    ElapsedNonNegative(host.durations, |old(host.trace)|, numProcesses * repetitions);
    var endTime := host.Time();
    elapsed, workerTotal := endTime - startTime, totalTime;
  }

  /** Every worker of a dispatch makes the same number of identical calls:
      the dispatch makes `numProcesses * repetitions` calls, all on `size`. */
  lemma DispatchShape(numProcesses: nat, size: nat, repetitions: nat)
    ensures var calls := FanOut(numProcesses, FanOut(repetitions, [Elementwise(size)]));
      && |calls| == numProcesses * repetitions
      && forall k :: 0 <= k < |calls| ==> calls[k] == Elementwise(size)
  {
    var w := FanOut(repetitions, [Elementwise(size)]);
    FanOutSingle(repetitions, Elementwise(size));
    FanOutPeriodic(numProcesses, w);
  }

  /** Parameters of one round. */
  datatype Config = Config(size: nat, repetitions: nat)

  function Derive(sizeMult: nat): Config
    requires sizeMult >= 1
  {
    Config(Scaling.ScaledSize(sizeMult), Scaling.ScaledCount(sizeMult))
  }

  /** Over the rounds' multipliers the size strictly increases and the
      repetitions strictly decrease. */
  lemma ScheduleMonotone()
    ensures forall i :: 0 <= i < |SizeMultipliers| ==> SizeMultipliers[i] >= 1
    ensures forall i, j :: 0 <= i < j < |SizeMultipliers| ==>
      && Derive(SizeMultipliers[i]).size < Derive(SizeMultipliers[j]).size
      && Derive(SizeMultipliers[j]).repetitions < Derive(SizeMultipliers[i]).repetitions
  {
    assert Scaling.Doubling(SizeMultipliers);
    Scaling.ScheduleMonotone(SizeMultipliers);
  }

  /** The record of the round's only test. */
  datatype Record = Multiprocessing(size: nat, numProcesses: nat, repetitions: nat, time: real)
  {
    function Test(): string {
      "multiprocessing CPU"
    }
  }

  /** One entry of the result set. */
  datatype Entry = Entry(sizeMultiplier: nat, results: seq<Record>)

  /** The records of a round: exactly one, for the pool test, with the derived
      parameters and a non-negative time. */
  ghost predicate IsRound(results: seq<Record>, sizeMult: nat, numProcesses: nat) {
    && sizeMult >= 1
    && |results| == 1
    && var c := Derive(sizeMult);
    && results[0] == Multiprocessing(c.size, numProcesses, c.repetitions, results[0].time)
    && results[0].time >= 0.0
  }

  /** The kernel calls of a round with multiplier `m`: one fan-out over the cores. */
  function RoundCalls(m: nat, cpuCount: nat): seq<Call>
    requires m >= 1
  {
    var c := Derive(m);
    FanOut(cpuCount, FanOut(c.repetitions, [Elementwise(c.size)]))
  }

  /** A round whose clock readings start at number `ticks`: its record, whose
      time is the difference of the round's two clock readings. */
  ghost predicate RoundRecord(clock: nat -> real, sizeMult: nat, numProcesses: nat, ticks: nat, results: seq<Record>) {
    && IsRound(results, sizeMult, numProcesses)
    && results[0].time == clock(ticks + 1) - clock(ticks)
  }

  /** One round: the pool test with one worker per core. */
  method RunTests(host: Host, sizeMult: nat, cpuCount: nat) returns (results: seq<Record>)
    requires host.Valid() && sizeMult >= 1 && cpuCount >= 1
    modifies host`trace, host`ticks
    ensures RoundRecord(host.clock, sizeMult, cpuCount, old(host.ticks), results)
    ensures results[0].Test() == "multiprocessing CPU"
    ensures host.trace == old(host.trace) + RoundCalls(sizeMult, cpuCount)
    ensures host.ticks == old(host.ticks) + 2
  {
    results := [];
    var c := Derive(sizeMult);
    var numProcesses := cpuCount;
    var cpuTime;
    ghost var workerTotal;
    cpuTime, workerTotal := StressCpuMultiprocessing(host, c.size, numProcesses, c.repetitions);
    results := results + [Multiprocessing(c.size, numProcesses, c.repetitions, cpuTime)];
  }

  /** The kernel calls of the first `n` rounds of the schedule `ms`, in order. */
  function ScheduleCalls(ms: seq<nat>, n: nat, cpuCount: nat): seq<Call>
    requires forall i :: 0 <= i < |ms| ==> ms[i] >= 1
    requires n <= |ms|
    decreases n
  {
    if n == 0 then [] else ScheduleCalls(ms, n - 1, cpuCount) + RoundCalls(ms[n - 1], cpuCount)
  }

  /** The entries of the first rounds of the schedule `ms`, whose clock
      readings start at number `ticks`: entry k is round k's, with multiplier
      `ms[k]`, and its clock readings are numbers `ticks + 2 * k` and after. */
  ghost predicate RoundsRecorded(clock: nat -> real, ms: seq<nat>, cpuCount: nat, ticks: nat, entries: seq<Entry>) {
    && |entries| <= |ms|
    && forall k :: 0 <= k < |entries| ==>
         && entries[k].sizeMultiplier == ms[k]
         && RoundRecord(clock, ms[k], cpuCount, ticks + 2 * k, entries[k].results)
  }

  lemma RoundsRecordedExtend(clock: nat -> real, ms: seq<nat>, cpuCount: nat, ticks: nat, entries: seq<Entry>,
                             results: seq<Record>)
    requires RoundsRecorded(clock, ms, cpuCount, ticks, entries) && |entries| < |ms|
    requires RoundRecord(clock, ms[|entries|], cpuCount, ticks + 2 * |entries|, results)
    ensures RoundsRecorded(clock, ms, cpuCount, ticks, entries + [Entry(ms[|entries|], results)])
  {
  }

  /** The main loop: one entry per multiplier, in the order given. The host
      sees every round's calls in turn, and round i's record holds the
      difference of its two clock readings. */
  method RunAll(host: Host, multipliers: seq<nat>, cpuCount: nat) returns (allResults: seq<Entry>)
    requires host.Valid() && cpuCount >= 1
    requires forall i :: 0 <= i < |multipliers| ==> multipliers[i] >= 1
    modifies host`trace, host`ticks
    ensures |allResults| == |multipliers|
    ensures RoundsRecorded(host.clock, multipliers, cpuCount, old(host.ticks), allResults)
    ensures host.trace == old(host.trace) + ScheduleCalls(multipliers, |multipliers|, cpuCount)
    ensures host.ticks == old(host.ticks) + 2 * |multipliers|
  {
    allResults := [];
    for i := 0 to |multipliers|
      invariant |allResults| == i
      invariant RoundsRecorded(host.clock, multipliers, cpuCount, old(host.ticks), allResults)
      invariant host.trace == old(host.trace) + ScheduleCalls(multipliers, i, cpuCount)
      invariant host.ticks == old(host.ticks) + 2 * i
    {
      var results := RunTests(host, multipliers[i], cpuCount);
      RoundsRecordedExtend(host.clock, multipliers, cpuCount, old(host.ticks), allResults, results);
      AppendAssociative(old(host.trace), ScheduleCalls(multipliers, i, cpuCount), RoundCalls(multipliers[i], cpuCount));
      allResults := allResults + [Entry(multipliers[i], results)];
    }
  }
}
