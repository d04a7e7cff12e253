/** The memory-aware CPU stress harness (co-lab_torch.stressed.py): a pool of
    identical workers, a recursive single-process driver, both of which shrink
    the tensor size when available memory is low, and a scheduler that runs
    both once per size multiplier and collects the round records. */
module Stressed {
  import opened Platform
  import Scaling

  /** Available memory, in MB, below which a workload is shrunk. */
  const MaxMemoryMb: real := 500.0
  /** Smallest size worth running after a shrink. */
  const MinSize: nat := 16
  /** The multipliers of the successive rounds. */
  const SizeMultipliers: seq<nat> := [1, 2, 4, 8, 16]

  /* ---------------- Shrink-on-low-memory policy ---------------- */

  /** What a memory check decides: go on with a (possibly shrunk) size, or skip the work. */
  datatype Decision = Proceed(size: nat) | Abort

  /** The check both the dispatcher and every level of the recursion make:
      with `available` below `floor` the size drops to int(size * 0.8), and
      below 16 the work is skipped; otherwise the size is kept. */
  function Policy(size: nat, available: real, floor: real): (d: Decision)
    ensures available >= floor ==> d == Proceed(size)
    ensures d.Abort? <==> available < floor && size < 20
    ensures d.Proceed? ==> d.size <= size
    ensures d.Proceed? && available < floor ==> MinSize <= d.size && 5 * d.size <= 4 * size < 5 * d.size + 5
  {
    if available < floor then
      var shrunk := size * 4 / 5;
      if shrunk < MinSize then Abort else Proceed(shrunk)
    else
      Proceed(size)
  }

  /** The decisions for the three documented probe readings against a 500 MB floor. */
  lemma PolicyExamples()
    ensures Policy(128, 10000.0, MaxMemoryMb) == Proceed(128)
    ensures Policy(128, 100.0, MaxMemoryMb) == Proceed(102)
    ensures Policy(16, 100.0, MaxMemoryMb) == Abort
  {
  }

  /* ---------------- Workers and the pool dispatcher ---------------- */

  /** The kernel calls one worker makes: the optional copy phase, then the CPU phase. */
  function WorkerCalls(size: nat, iterations: nat, numCopies: nat, useMemory: bool): seq<Call> {
    (if useMemory then [MemoryCopy(size, numCopies)] else []) + [CpuBound(size, iterations)]
  }

  /** The kernel calls of a whole dispatch after its memory check. */
  function DispatchCalls(d: Decision, numProcesses: nat, iterations: nat, numCopies: nat, useMemory: bool): seq<Call> {
    match d
    case Abort => []
    case Proceed(s) => FanOut(numProcesses, WorkerCalls(s, iterations, numCopies, useMemory))
  }

  /** A skipped dispatch makes no kernel call; otherwise every worker makes the
      same calls with the same (possibly shrunk) size: the k-th call of the
      dispatch is call k mod |w| of a single worker. */
  lemma DispatchShape(d: Decision, numProcesses: nat, iterations: nat, numCopies: nat, useMemory: bool)
    ensures var calls := DispatchCalls(d, numProcesses, iterations, numCopies, useMemory);
      && (d.Abort? ==> calls == [])
      && (d.Proceed? ==> var w := WorkerCalls(d.size, iterations, numCopies, useMemory);
            && |w| == (if useMemory then 2 else 1)
            && |calls| == numProcesses * |w|
            && forall k :: 0 <= k < |calls| ==> calls[k] == w[k % |w|])
  {
    if d.Proceed? {
      FanOutPeriodic(numProcesses, WorkerCalls(d.size, iterations, numCopies, useMemory));
    }
  }

  /** One worker: its result is the copy-phase time, when that phase runs,
      plus the CPU-phase time. */
  method WorkerFunction(host: Host, size: nat, iterations: nat, numCopies: nat, useMemory: bool)
    returns (totalTime: real)
    requires host.Valid()
    modifies host`trace
    ensures host.trace == old(host.trace) + WorkerCalls(size, iterations, numCopies, useMemory)
    ensures totalTime == Elapsed(host.durations, |old(host.trace)|, |WorkerCalls(size, iterations, numCopies, useMemory)|)
    ensures totalTime >= host.durations(|host.trace| - 1) >= 0.0
  {
    totalTime := 0.0;
    if useMemory {
      var copyTime := host.Run(MemoryCopy(size, numCopies));
      totalTime := totalTime + copyTime;
    }
    var cpuTime := host.Run(CpuBound(size, iterations));
    totalTime := totalTime + cpuTime;
    assert useMemory ==> Elapsed(host.durations, |old(host.trace)|, 1) == host.durations(|old(host.trace)|);
  }

  /** The process pool's map: `numProcesses` identical workers, results in worker order. */
  method MapWorkers(host: Host, numProcesses: nat, size: nat, iterations: nat, numCopies: nat, useMemory: bool)
    returns (results: seq<real>)
    requires host.Valid()
    modifies host`trace
    ensures var w := WorkerCalls(size, iterations, numCopies, useMemory);
      && host.trace == old(host.trace) + FanOut(numProcesses, w)
      && |results| == numProcesses
      && forall i :: 0 <= i < numProcesses ==>
           results[i] == Elapsed(host.durations, |old(host.trace)| + i * |w|, |w|)
  {
    ghost var w := WorkerCalls(size, iterations, numCopies, useMemory);
    results := [];
    for i := 0 to numProcesses
      invariant host.trace == old(host.trace) + FanOut(i, w)
      invariant |results| == i
      invariant forall k :: 0 <= k < i ==> results[k] == Elapsed(host.durations, |old(host.trace)| + k * |w|, |w|)
    {
      FanOutLength(i, w);
      var r := WorkerFunction(host, size, iterations, numCopies, useMemory);
      results := results + [r];
    }
  }

  /** The dispatcher: one memory check, then either nothing (result 0) or a
      fan-out of `numProcesses` workers. It returns the wall-clock time of the
      dispatch; the summed worker time, which the source only prints, is the
      ghost `workerTotal`. */
  method StressCpuMultiprocessing(host: Host, size: nat, numProcesses: nat, iterations: nat,
                                  useMemory: bool, numCopies: nat, maxMemoryMb: real)
    returns (elapsed: real, ghost workerTotal: real)
    requires host.Valid() && numProcesses >= 1
    modifies host
    ensures var d := Policy(size, host.memory(old(host.probes)), maxMemoryMb);
      var calls := DispatchCalls(d, numProcesses, iterations, numCopies, useMemory);
      && host.probes == old(host.probes) + 1
      && host.trace == old(host.trace) + calls
      && workerTotal == Elapsed(host.durations, |old(host.trace)|, |calls|)
      && (d.Abort? ==> elapsed == 0.0 && host.ticks == old(host.ticks) + 1)
      && (d.Proceed? ==> elapsed == host.clock(old(host.ticks) + 1) - host.clock(old(host.ticks))
                         && host.ticks == old(host.ticks) + 2)
    ensures elapsed >= 0.0 && workerTotal >= 0.0
  {
    var startTime := host.Time();
    var currentMemory := host.AvailableMemoryMb();
    match Policy(size, currentMemory, maxMemoryMb)
    case Abort =>
      elapsed, workerTotal := 0.0, 0.0;
    case Proceed(s) =>
      var w := WorkerCalls(s, iterations, numCopies, useMemory);
      var results := MapWorkers(host, numProcesses, s, iterations, numCopies, useMemory);
      var totalTime := Sum(results);
      SumOfBlocks(host.durations, |old(host.trace)|, |w|, results);
      FanOutLength(numProcesses, w);
      ElapsedNonNegative(host.durations, |old(host.trace)|, numProcesses * |w|);
      var endTime := host.Time();
      elapsed, workerTotal := endTime - startTime, totalTime;
  }

  /* ---------------- Recursive driver ---------------- */

  /** What one recursive run does: its summed time, the kernel calls it made
      (oldest first) and the number of memory readings it took. */
  datatype Run = Run(time: real, calls: seq<Call>, probes: nat)

  /** Number of levels a recursion of the given depth has. */
  function Levels(depth: int): nat {
    if depth <= 0 then 1 else depth + 1
  }

  /** The recursive driver. Level after level it checks memory (reading number
      `probe` onwards) and passes the possibly shrunk size down; the deeper
      levels run before the current level's own single-round kernel call
      (call number `call` onwards). */
  function Recursion(size: nat, depth: int, floor: real, memory: nat -> real, durations: nat -> real,
                     probe: nat, call: nat): Run
    decreases if depth <= 0 then 0 else depth
  {
    match Policy(size, memory(probe), floor)
    case Abort => Run(0.0, [], 1)
    case Proceed(s) =>
      if depth <= 0 then
        Run(durations(call), [CpuBound(s, 1)], 1)
      else
        var deeper := Recursion(s, depth - 1, floor, memory, durations, probe + 1, call);
        Run(deeper.time + durations(call + |deeper.calls|), deeper.calls + [CpuBound(s, 1)], 1 + deeper.probes)
  }

  /** Every level reached checks memory once and makes at most one kernel
      call; only a level that skips its work makes none, and then no deeper
      level runs, so stopping early means the deepest level reached skipped.
      The whole run makes no call exactly when the first check skips, and
      otherwise the outermost level's own call comes last, after every deeper one. */
  lemma {:induction false} RecursionCounts(size: nat, depth: int, floor: real, memory: nat -> real,
                                           durations: nat -> real, probe: nat, call: nat)
    ensures var r := Recursion(size, depth, floor, memory, durations, probe, call);
      && 1 <= r.probes <= Levels(depth)
      && |r.calls| <= r.probes <= |r.calls| + 1
      && (r.probes < Levels(depth) ==> r.probes == |r.calls| + 1)
      && (r.calls == [] <==> Policy(size, memory(probe), floor).Abort?)
      && (Policy(size, memory(probe), floor).Proceed? ==>
            r.calls[|r.calls| - 1] == CpuBound(Policy(size, memory(probe), floor).size, 1))
    decreases if depth <= 0 then 0 else depth
  {
    match Policy(size, memory(probe), floor)
    case Abort =>
    case Proceed(s) =>
      if depth > 0 {
        RecursionCounts(s, depth - 1, floor, memory, durations, probe + 1, call);
      }
  }

  /** The driver's result is the summed duration of exactly the kernel calls it made. */
  lemma {:induction false} RecursionTime(size: nat, depth: int, floor: real, memory: nat -> real,
                                         durations: nat -> real, probe: nat, call: nat)
    ensures var r := Recursion(size, depth, floor, memory, durations, probe, call);
      r.time == Elapsed(durations, call, |r.calls|)
    decreases if depth <= 0 then 0 else depth
  {
    match Policy(size, memory(probe), floor)
    case Abort =>
    case Proceed(s) =>
      if depth > 0 {
        RecursionTime(s, depth - 1, floor, memory, durations, probe + 1, call);
      }
  }

  /** Every call is a one-round CPU call on a size no larger than `size`:
      either `size` itself or, once shrunk, at least 16. */
  ghost predicate OneRoundCalls(calls: seq<Call>, size: nat) {
    forall i :: 0 <= i < |calls| ==>
      && calls[i].CpuBound? && calls[i].iterations == 1
      && calls[i].size <= size
      && (calls[i].size == size || MinSize <= calls[i].size)
  }

  /** Call sizes never decrease from first to last. */
  ghost predicate SizesAscending(calls: seq<Call>) {
    forall i, j :: 0 <= i <= j < |calls| ==> calls[i].size <= calls[j].size
  }

  /** Every call of the driver is a one-round CPU call on the size it was
      given or on a shrunk size of at least 16; since the shrunk size is
      passed down, sizes never grow from the deepest level (the first call)
      to the outermost (the last). */
  lemma {:induction false} RecursionSizes(size: nat, depth: int, floor: real, memory: nat -> real,
                                          durations: nat -> real, probe: nat, call: nat)
    ensures var r := Recursion(size, depth, floor, memory, durations, probe, call);
      OneRoundCalls(r.calls, size) && SizesAscending(r.calls)
    decreases if depth <= 0 then 0 else depth
  {
    match Policy(size, memory(probe), floor)
    case Abort =>
    case Proceed(s) =>
      if depth > 0 {
        RecursionSizes(s, depth - 1, floor, memory, durations, probe + 1, call);
        var deeper := Recursion(s, depth - 1, floor, memory, durations, probe + 1, call);
        var calls := deeper.calls + [CpuBound(s, 1)];
        assert Recursion(size, depth, floor, memory, durations, probe, call).calls == calls;
        assert OneRoundCalls(deeper.calls, s) && SizesAscending(deeper.calls);
        forall i | 0 <= i < |calls|
          ensures && calls[i].CpuBound? && calls[i].iterations == 1
                  && calls[i].size <= size
                  && (calls[i].size == size || MinSize <= calls[i].size)
        {
          if i < |deeper.calls| {
            assert calls[i] == deeper.calls[i];
          }
        }
        forall i, j | 0 <= i <= j < |calls|
          ensures calls[i].size <= calls[j].size
        {
          if i < |deeper.calls| {
            assert calls[i] == deeper.calls[i];
          }
          if j < |deeper.calls| {
            assert calls[j] == deeper.calls[j];
          }
        }
      }
  }

  /** With memory above the floor at every check, the driver makes exactly one
      one-round call per level, all on the size it was given. */
  lemma {:induction false} RecursionWithoutPressure(size: nat, depth: int, floor: real, memory: nat -> real,
                                                    durations: nat -> real, probe: nat, call: nat)
    requires forall k :: probe <= k < probe + Levels(depth) ==> floor <= memory(k)
    ensures var r := Recursion(size, depth, floor, memory, durations, probe, call);
      r.probes == Levels(depth) && r.calls == FanOut(Levels(depth), [CpuBound(size, 1)])
    decreases if depth <= 0 then 0 else depth
  {
    if depth > 0 {
      RecursionWithoutPressure(size, depth - 1, floor, memory, durations, probe + 1, call);
    }
  }

  /** Every call is on a size of at most four fifths of `size`. */
  ghost predicate AllShrunk(calls: seq<Call>, size: nat) {
    forall i :: 0 <= i < |calls| ==> 5 * calls[i].size <= 4 * size
  }

  /** Each call is on a strictly smaller size than the next. */
  ghost predicate SizesStrictlyAscending(calls: seq<Call>) {
    forall i :: 0 <= i < |calls| - 1 ==> calls[i].size < calls[i + 1].size
  }

  /** With memory below the floor at every check, each level shrinks the size
      it was given, so every call is on a shrunk size and the size strictly
      drops from each level to the next deeper one. */
  lemma {:induction false} RecursionUnderPressure(size: nat, depth: int, floor: real, memory: nat -> real,
                                                  durations: nat -> real, probe: nat, call: nat)
    requires forall k :: probe <= k < probe + Levels(depth) ==> memory(k) < floor
    ensures var r := Recursion(size, depth, floor, memory, durations, probe, call);
      AllShrunk(r.calls, size) && SizesStrictlyAscending(r.calls)
    decreases if depth <= 0 then 0 else depth
  {
    match Policy(size, memory(probe), floor)
    case Abort =>
    case Proceed(s) =>
      if depth > 0 {
        RecursionUnderPressure(s, depth - 1, floor, memory, durations, probe + 1, call);
        var deeper := Recursion(s, depth - 1, floor, memory, durations, probe + 1, call);
        var calls := deeper.calls + [CpuBound(s, 1)];
        assert Recursion(size, depth, floor, memory, durations, probe, call).calls == calls;
        assert AllShrunk(deeper.calls, s) && SizesStrictlyAscending(deeper.calls);
        assert 5 * s <= 4 * size && MinSize <= s;
        forall i | 0 <= i < |calls|
          ensures 5 * calls[i].size <= 4 * size
        {
          if i < |deeper.calls| {
            assert calls[i] == deeper.calls[i];
          }
        }
        forall i | 0 <= i < |calls| - 1
          ensures calls[i].size < calls[i + 1].size
        {
          assert calls[i] == deeper.calls[i];
          if i + 1 < |deeper.calls| {
            assert calls[i + 1] == deeper.calls[i + 1];
          } else {
            assert 5 * deeper.calls[i].size <= 4 * s;
          }
        }
      }
  }

  /** What the recursive driver does to the host: it consumes the memory
      readings and appends the kernel calls of `Recursion`, and returns its time. */
  ghost predicate RecursionEffect(memory: nat -> real, durations: nat -> real, size: nat, depth: int, floor: real,
                                  probes: nat, trace: seq<Call>, probes': nat, trace': seq<Call>, time: real)
  {
    var r := Recursion(size, depth, floor, memory, durations, probes, |trace|);
    probes' == probes + r.probes && trace' == trace + r.calls && time == r.time
  }

  /** The recursive driver as the source runs it, against the host. */
  method StressCpuRecursion(host: Host, size: nat, depth: int, useMemory: bool, maxMemoryMb: real)
    returns (time: real)
    requires host.Valid()
    modifies host`probes, host`trace
    ensures RecursionEffect(host.memory, host.durations, size, depth, maxMemoryMb,
                            old(host.probes), old(host.trace), host.probes, host.trace, time)
    ensures time >= 0.0
    decreases if depth <= 0 then 0 else depth
  {
    RecursionTime(size, depth, maxMemoryMb, host.memory, host.durations, host.probes, |host.trace|);
    ElapsedNonNegative(host.durations, |host.trace|,
      |Recursion(size, depth, maxMemoryMb, host.memory, host.durations, host.probes, |host.trace|).calls|);
    var currentMemory := host.AvailableMemoryMb();
    match Policy(size, currentMemory, maxMemoryMb)
    case Abort =>
      time := 0.0;
    case Proceed(s) =>
      if depth <= 0 {
        time := host.Run(CpuBound(s, 1));
      } else {
        var deeper := StressCpuRecursion(host, s, depth - 1, useMemory, maxMemoryMb);
        var own := host.Run(CpuBound(s, 1));
        time := deeper + own;
      }
  }

  /* ---------------- Round scheduler ---------------- */

  /** Parameters of one round. */
  datatype Config = Config(size: nat, iterations: nat, numCopies: nat, depth: nat)

  function Derive(sizeMult: nat): Config
    requires sizeMult >= 1
  {
    Config(Scaling.ScaledSize(sizeMult), Scaling.ScaledCount(sizeMult), 1000 * sizeMult, 10 * sizeMult)
  }

  /** A larger multiplier gives a larger size, more copies, a deeper recursion
      and no more iterations; at least doubling it (up to 1000) gives strictly fewer. */
  lemma DeriveMonotone(m1: nat, m2: nat)
    requires 1 <= m1 < m2
    ensures Derive(m1).size < Derive(m2).size
    ensures Derive(m1).numCopies < Derive(m2).numCopies
    ensures Derive(m1).depth < Derive(m2).depth
    ensures Derive(m2).iterations <= Derive(m1).iterations
    ensures 2 * m1 <= m2 <= 1000 ==> Derive(m2).iterations < Derive(m1).iterations
  {
    Scaling.CountAntitone(m1, m2);
    if 2 * m1 <= m2 <= 1000 {
      Scaling.CountHalves(m1, m2);
    }
  }

  /** Over the rounds' multipliers every parameter moves strictly in its direction. */
  lemma ScheduleMonotone()
    ensures forall i :: 0 <= i < |SizeMultipliers| ==> SizeMultipliers[i] >= 1
    ensures forall i, j :: 0 <= i < j < |SizeMultipliers| ==>
      && Derive(SizeMultipliers[i]).size < Derive(SizeMultipliers[j]).size
      && Derive(SizeMultipliers[i]).numCopies < Derive(SizeMultipliers[j]).numCopies
      && Derive(SizeMultipliers[i]).depth < Derive(SizeMultipliers[j]).depth
      && Derive(SizeMultipliers[j]).iterations < Derive(SizeMultipliers[i]).iterations
  {
    var ms := SizeMultipliers;
    assert Scaling.Doubling(ms);
    forall i, j | 0 <= i < j < |ms|
      ensures && Derive(ms[i]).size < Derive(ms[j]).size
              && Derive(ms[i]).numCopies < Derive(ms[j]).numCopies
              && Derive(ms[i]).depth < Derive(ms[j]).depth
              && Derive(ms[j]).iterations < Derive(ms[i]).iterations
    {
      Scaling.DoublingSpread(ms, i, j);
      DeriveMonotone(ms[i], ms[j]);
    }
  }

  /** The parameters of the five rounds. */
  lemma ScheduleValues()
    ensures Derive(1) == Config(128, 1000, 1000, 10)
    ensures Derive(2) == Config(256, 500, 2000, 20)
    ensures Derive(4) == Config(512, 250, 4000, 40)
    ensures Derive(8) == Config(1024, 125, 8000, 80)
    ensures Derive(16) == Config(2048, 62, 16000, 160)
  {
  }

  /** A record of one test in a round. */
  datatype Record =
    | MultiprocessingWithMemory(size: nat, numProcesses: nat, iterations: nat, numCopies: nat, time: real)
    | Recursive(size: nat, depth: nat, time: real)
  {
    function Test(): string {
      match this
      case MultiprocessingWithMemory(_, _, _, _, _) => "multiprocessing CPU with memory"
      case Recursive(_, _, _) => "recursive CPU"
    }
  }

  /** One entry of the result set. */
  datatype Entry = Entry(sizeMultiplier: nat, results: seq<Record>)

  /** The records of a round: the pool test, then the recursion test, each
      with the nominal derived parameters (never a shrunk size) and a
      non-negative time. */
  ghost predicate IsRound(results: seq<Record>, sizeMult: nat, numProcesses: nat) {
    && sizeMult >= 1
    && |results| == 2
    && var c := Derive(sizeMult);
    && results[0] == MultiprocessingWithMemory(c.size, numProcesses, c.iterations, c.numCopies, results[0].time)
    && results[1] == Recursive(c.size, c.depth, results[1].time)
    && results[0].time >= 0.0 && results[1].time >= 0.0
  }

  /** What a round does to the host: the dispatcher's memory check and kernel
      calls (with the memory phase on), then the recursion's, starting with
      the next memory reading and the next kernel call. */
  ghost predicate RoundEffect(memory: nat -> real, durations: nat -> real, sizeMult: nat, numProcesses: nat,
                              probes: nat, trace: seq<Call>, probes': nat, trace': seq<Call>, recursionTime: real)
  {
    && sizeMult >= 1
    && var c := Derive(sizeMult);
    && var first := DispatchCalls(Policy(c.size, memory(probes), MaxMemoryMb), numProcesses,
                                  c.iterations, c.numCopies, true);
    && RecursionEffect(memory, durations, c.size, c.depth, MaxMemoryMb, probes + 1, trace + first,
                       probes', trace', recursionTime)
  }

  /** A round's nominal size is at least 128, so the dispatcher's memory
      check never skips it: at worst it shrinks the size to four fifths. */
  lemma RoundNeverSkips(sizeMult: nat, available: real, floor: real)
    requires sizeMult >= 1
    ensures Policy(Derive(sizeMult).size, available, floor).Proceed?
    ensures available < floor ==> Policy(Derive(sizeMult).size, available, floor).size >= 102
  {
    var size := Derive(sizeMult).size;
    assert size >= 128;
  }

  /** A round run on the host from memory reading `probes`, trace `trace` and
      clock reading `ticks` onwards, leaving it at `probes'` and `trace'`: its
      records, its effect on the host, and the pool record's time, which is
      the difference of the round's two clock readings. */
  ghost predicate RoundRecord(memory: nat -> real, durations: nat -> real, clock: nat -> real,
                              sizeMult: nat, numProcesses: nat, probes: nat, trace: seq<Call>, ticks: nat,
                              probes': nat, trace': seq<Call>, results: seq<Record>)
  {
    && IsRound(results, sizeMult, numProcesses)
    && RoundEffect(memory, durations, sizeMult, numProcesses, probes, trace, probes', trace', results[1].time)
    && results[0].time == clock(ticks + 1) - clock(ticks)
  }

  /** One round: the pool test with the memory phase on, then the recursion test. */
  method RunTests(host: Host, sizeMult: nat, cpuCount: nat) returns (results: seq<Record>)
    requires host.Valid() && sizeMult >= 1 && cpuCount >= 2
    modifies host
    ensures RoundRecord(host.memory, host.durations, host.clock, sizeMult, cpuCount / 2,
                        old(host.probes), old(host.trace), old(host.ticks), host.probes, host.trace, results)
    ensures results[0].Test() == "multiprocessing CPU with memory" && results[1].Test() == "recursive CPU"
    ensures Policy(Derive(sizeMult).size, host.memory(old(host.probes)), MaxMemoryMb).Proceed?
    ensures host.ticks == old(host.ticks) + 2
  {
    results := [];
    var c := Derive(sizeMult);
    var numProcesses := cpuCount / 2;
    var useMemory := true;
    ghost var probes0, trace0, ticks0 := host.probes, host.trace, host.ticks;
    ghost var first := DispatchCalls(Policy(c.size, host.memory(probes0), MaxMemoryMb), numProcesses,
                                     c.iterations, c.numCopies, useMemory);

    var cpuTime;
    ghost var workerTotal;
    cpuTime, workerTotal := StressCpuMultiprocessing(host, c.size, numProcesses, c.iterations,
                                                      useMemory, c.numCopies, MaxMemoryMb);
    results := results + [MultiprocessingWithMemory(c.size, numProcesses, c.iterations, c.numCopies, cpuTime)];
    assert host.probes == probes0 + 1 && host.trace == trace0 + first;
    RoundNeverSkips(sizeMult, host.memory(probes0), MaxMemoryMb);
    assert results[0].time == host.clock(ticks0 + 1) - host.clock(ticks0);

    var cpuTimeRecursion := StressCpuRecursion(host, c.size, c.depth, false, MaxMemoryMb);
    results := results + [Recursive(c.size, c.depth, cpuTimeRecursion)];
  }

  /** The entries of the first rounds of the schedule `ms`: entry k is round
      k's, with multiplier `ms[k]`; it runs from memory reading `probesAt[k]`,
      trace `traceAt[k]` and clock reading `ticks + 2 * k` onwards and leaves
      the host at `probesAt[k + 1]` and `traceAt[k + 1]`. */
  ghost predicate RoundsRecorded(memory: nat -> real, durations: nat -> real, clock: nat -> real, ms: seq<nat>,
                                 numProcesses: nat, ticks: nat, probesAt: seq<nat>, traceAt: seq<seq<Call>>,
                                 entries: seq<Entry>)
  {
    && |entries| <= |ms|
    && |probesAt| == |traceAt| == |entries| + 1
    && forall k :: 0 <= k < |entries| ==>
         && entries[k].sizeMultiplier == ms[k]
         && RoundRecord(memory, durations, clock, ms[k], numProcesses, probesAt[k], traceAt[k], ticks + 2 * k,
                        probesAt[k + 1], traceAt[k + 1], entries[k].results)
  }

  lemma RoundsRecordedExtend(memory: nat -> real, durations: nat -> real, clock: nat -> real, ms: seq<nat>,
                             numProcesses: nat, ticks: nat, probesAt: seq<nat>, traceAt: seq<seq<Call>>,
                             entries: seq<Entry>, probes': nat, trace': seq<Call>, results: seq<Record>)
    requires RoundsRecorded(memory, durations, clock, ms, numProcesses, ticks, probesAt, traceAt, entries)
    requires |entries| < |ms|
    requires RoundRecord(memory, durations, clock, ms[|entries|], numProcesses, probesAt[|entries|],
                         traceAt[|entries|], ticks + 2 * |entries|, probes', trace', results)
    ensures RoundsRecorded(memory, durations, clock, ms, numProcesses, ticks, probesAt + [probes'],
                           traceAt + [trace'], entries + [Entry(ms[|entries|], results)])
  {
  }

  /** The main loop: one entry per multiplier, in the order given. Round i
      runs on the host from memory reading `probesAt[i]` and trace
      `traceAt[i]` onwards, and leaves it at `probesAt[i + 1]` and
      `traceAt[i + 1]`; its pool record holds the difference of its two clock
      readings, and its recursion record the recursion's summed time. */
  method RunAll(host: Host, multipliers: seq<nat>, cpuCount: nat)
    returns (allResults: seq<Entry>, ghost probesAt: seq<nat>, ghost traceAt: seq<seq<Call>>)
    requires host.Valid() && cpuCount >= 2
    requires forall i :: 0 <= i < |multipliers| ==> multipliers[i] >= 1
    modifies host
    ensures |allResults| == |multipliers|
    ensures RoundsRecorded(host.memory, host.durations, host.clock, multipliers, cpuCount / 2, old(host.ticks),
                           probesAt, traceAt, allResults)
    ensures probesAt[0] == old(host.probes) && traceAt[0] == old(host.trace)
    ensures probesAt[|multipliers|] == host.probes && traceAt[|multipliers|] == host.trace
    ensures host.ticks == old(host.ticks) + 2 * |multipliers|
  {
    allResults := [];
    probesAt, traceAt := [host.probes], [host.trace];
    for i := 0 to |multipliers|
      invariant |allResults| == i
      invariant RoundsRecorded(host.memory, host.durations, host.clock, multipliers, cpuCount / 2, old(host.ticks),
                               probesAt, traceAt, allResults)
      invariant probesAt[0] == old(host.probes) && traceAt[0] == old(host.trace)
      invariant probesAt[i] == host.probes && traceAt[i] == host.trace
      invariant host.ticks == old(host.ticks) + 2 * i
    {
      var results := RunTests(host, multipliers[i], cpuCount);
      RoundsRecordedExtend(host.memory, host.durations, host.clock, multipliers, cpuCount / 2, old(host.ticks),
                           probesAt, traceAt, allResults, host.probes, host.trace, results);
      allResults := allResults + [Entry(multipliers[i], results)];
      probesAt, traceAt := probesAt + [host.probes], traceAt + [host.trace];
    }
  }
}
