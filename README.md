# CPU stress harness — orchestration model

This project models the orchestration logic of a two-script PyTorch CPU stress
harness and proves properties of it in Dafny.

- `co-lab_torch.stressed.py` is the memory-aware harness. Each round derives
  its parameters from a size multiplier. It then runs a pool of identical
  workers, each doing an optional tensor-copy phase and a CPU phase. Next it
  runs a recursive single-process driver. Both check available memory first
  and shrink the tensor size to `int(size * 0.8)` when memory is below
  500 MB. They skip the work (result 0) when the shrunk size falls below 16.
  The round returns two records, and the main loop collects one entry per
  multiplier.
- `co-lab.torch.gpu.py` is the plain variant. Each round fans out one worker
  per core. Each worker repeats a fixed elementwise kernel `repetitions`
  times. The round returns one record.

What the harness consumes but does not define is modelled by what it observes
(module `Platform`, class `Host`):

- The memory probe is a stream of readings `memory(k)`, consumed one per
  check (`probes` counts them).
- The kernels report durations `durations(k)` for the k-th kernel call, all
  non-negative. Their arguments are recorded, in order, in the trace `trace`.
- The wall clock is a non-decreasing stream of readings `clock(k)`.

The process pool is modelled as a sequential map over its workers, collecting
results in worker order (as `executor.map` does). Stated as contracts:

- how the memory check decides;
- which kernel calls each operation makes, in what order, and with which
  arguments;
- what each operation returns in terms of the durations and clock readings
  it consumed;
- how round parameters scale with the multiplier;
- which records a round and the main loop produce.

Files: `platform.dfy` (module `Platform`), `scaling.dfy` (module `Scaling`:
the `int(128*m)` / `int(1000/m)` derivation shared by both scripts),
`stressed.dfy` (module `Stressed`), `gpu.dfy` (module `Gpu`).

Three points of the code's behaviour are easy to misread:

- The pool dispatcher does not return the summed worker time. It returns the wall-clock time of the dispatch and only prints the summed
  worker time. `StressCpuMultiprocessing` returns the wall-clock time and
  exposes the sum as a ghost out-parameter.
- A recursion level's result is its own kernel time plus the deeper result,
  but the code evaluates the deeper call first, so kernel
  calls happen deepest level first. `Recursion` records them in that order.
- Not only depth 0 is the base case: the code treats every `depth <= 0` as
  the base case, and so does the model.

## Model

| member | source | states |
|---|---|---|
| `Stressed.Policy` | co-lab_torch.stressed.py:52-58 | With the reading at or above the floor the size is kept. Below it the work is skipped exactly when the size is under 20, i.e. when `int(size*0.8)` is under 16. Otherwise the new size is `int(size*0.8)`, which is at least 16 and never larger than the old size. |
| `Stressed.PolicyExamples` | co-lab_torch.stressed.py:54-58 | Against a 500 MB floor: 10000 MB keeps 128; 100 MB shrinks 128 to 102; 100 MB with size 16 skips the work. |
| `Stressed.DispatchShape` | co-lab_torch.stressed.py:60-61 | A skipped dispatch makes no kernel call. Otherwise the dispatch makes `numProcesses` times the worker's one or two calls, and call k is call `k mod width` of a single worker, so every worker gets the same (possibly shrunk) size, iterations, copies and memory flag. |
| `Stressed.WorkerFunction` | co-lab_torch.stressed.py:39-46 | A worker makes the copy call (only when `use_memory` holds), then the CPU call. It returns the sum of their durations, which is at least the CPU-phase duration and so at least 0. |
| `Stressed.MapWorkers` | co-lab_torch.stressed.py:60-61 | The pool runs exactly `numProcesses` workers. The trace grows by their calls, and result i is the duration of the i-th worker's block of calls. |
| `Stressed.StressCpuMultiprocessing` | co-lab_torch.stressed.py:48-66 | The dispatcher takes one clock reading, then one memory reading. When the policy skips, it returns 0 with no kernel call. Otherwise it makes the fan-out's calls and returns the difference of its two clock readings, which is at least 0. The printed worker total equals the duration of all calls made. |
| `Stressed.Recursion` | co-lab_torch.stressed.py:68-79 | The value-level driver: each level takes the next memory reading and applies `Policy`. A skip yields time 0 and no call. At `depth <= 0` one single-round call is made on the checked size. Otherwise the deeper level runs first on the checked size, then the level's own single-round call. The result is the summed time, the calls in order and the readings taken. Its properties are the five `Recursion…` lemmas below. |
| `Stressed.RecursionCounts` | co-lab_torch.stressed.py:68-79 | The driver takes between 1 and `depth+1` memory readings (one if `depth <= 0`). Each level reached makes at most one kernel call, and a level that skips ends the descent. Stopping before the last level means the deepest level reached skipped. No call at all happens exactly when the first check skips. Otherwise the outermost level's own call, on its checked size, is the last call: the deeper levels run first. |
| `Stressed.RecursionTime` | co-lab_torch.stressed.py:76-79 | The driver's result is the summed duration of exactly the kernel calls it made. |
| `Stressed.RecursionSizes` | co-lab_torch.stressed.py:70-79 | Every call is `cpu_bound_operation(s, 1)` with `s` at most the given size, and `s` is either that size or at least 16. Sizes never decrease from the first (deepest) call to the last (outermost). |
| `Stressed.RecursionWithoutPressure` | co-lab_torch.stressed.py:76-79 | With no reading below the floor, the driver takes `depth+1` readings (one if `depth <= 0`) and makes exactly that many calls, all one-round calls on the given size. |
| `Stressed.RecursionUnderPressure` | co-lab_torch.stressed.py:70-75 | With every reading below the floor, every call is on at most four fifths of the given size. Each call's size is strictly smaller than the next one's, so the shrink compounds level by level. |
| `Stressed.StressCpuRecursion` | co-lab_torch.stressed.py:68-79 | The recursive method consumes exactly the memory readings that `Recursion` consumes, makes its calls in the same order, and returns its time, which is at least 0. |
| `Stressed.Derive` | co-lab_torch.stressed.py:84-89 | A round's parameters: size `128*m`, iterations `1000/m` (rounded down), `1000*m` copies and depth `10*m`. Their ordering is proved in `Stressed.DeriveMonotone`, and the five concrete rounds in `Stressed.ScheduleValues`. |
| `Stressed.DeriveMonotone` | co-lab_torch.stressed.py:84-89 | For multipliers `m1 < m2`, `m2` gives a strictly larger size, copy count and depth, and no more iterations. At least doubling the multiplier (up to 1000) gives strictly fewer iterations. |
| `Stressed.ScheduleMonotone` | co-lab_torch.stressed.py:105 | Over the multipliers 1, 2, 4, 8, 16, size, copies and depth strictly increase and iterations strictly decrease. |
| `Stressed.ScheduleValues` | co-lab_torch.stressed.py:84-89 | The five rounds' (size, iterations, copies, depth): (128,1000,1000,10) … (2048,62,16000,160). |
| `Stressed.RoundNeverSkips` | co-lab_torch.stressed.py:52-58 | With a round's nominal size (`128*m`, at least 128), the memory check never skips the work, whatever the reading. Under the floor the size shrinks to at least 102. The skip branch of the dispatcher is therefore reachable only with a size under 20, which no round passes. |
| `Stressed.RunTests` | co-lab_torch.stressed.py:81-100 | A round returns exactly two records, "multiprocessing CPU with memory" then "recursive CPU". They carry the nominal derived parameters (never the shrunk size), `cpu_count // 2` workers and non-negative times. The host sees the dispatcher's memory check and calls first, then the recursion's, which starts with the next memory reading. The dispatcher's memory check never skips in a round. The round takes exactly two clock readings, and the first record's time is their difference. The second record's time is the recursion's summed time (`RoundRecord`). |
| `Stressed.RunAll` | co-lab_torch.stressed.py:105-111 | The main loop yields exactly one entry per multiplier, in list order, each with that multiplier's two records. Round i runs from the memory reading and trace where round i-1 left the host: the first round starts at the host's initial state, and the last leaves it in its final state (`RoundsRecorded`). Its pool record's time is the difference of clock readings 2i and 2i+1 of the loop, and the loop takes exactly two clock readings per round. |
| `Gpu.WorkerFunction` | co-lab.torch.gpu.py:23-29 | A worker makes exactly `repetitions` kernel calls on the given size and returns the sum of their durations: at least 0, and 0 when `repetitions` is 0. |
| `Gpu.MapWorkers` | co-lab.torch.gpu.py:36-38 | The pool runs exactly `numProcesses` workers in order. Result i is the duration of the i-th block of `repetitions` calls. |
| `Gpu.StressCpuMultiprocessing` | co-lab.torch.gpu.py:31-42 | The dispatcher has no memory check and leaves the size unchanged. It fans out `numProcesses` identical workers and returns the difference of its two clock readings, which is at least 0. The printed worker total is the duration of all `numProcesses * repetitions` calls. |
| `Gpu.DispatchShape` | co-lab.torch.gpu.py:36-37 | A dispatch makes exactly `numProcesses * repetitions` calls, every one on the same size. |
| `Gpu.Derive` | co-lab.torch.gpu.py:47-48 | A round's parameters: size `128*m` and repetitions `1000/m` (rounded down). Their ordering is proved in `Gpu.ScheduleMonotone`. |
| `Gpu.ScheduleMonotone` | co-lab.torch.gpu.py:47-48 | Over the multipliers 1, 2, 4, 8, 16, the size strictly increases and the repetitions strictly decrease. |
| `Gpu.RunTests` | co-lab.torch.gpu.py:44-54 | A round returns exactly one record, "multiprocessing CPU". It holds the derived size and repetitions, `cpu_count` workers and a non-negative time. The round takes exactly two clock readings, and the record's time is their difference. Its calls are the dispatch's fan-out (`RoundCalls`). |
| `Gpu.RunAll` | co-lab.torch.gpu.py:57-66 | The main loop yields exactly one entry per multiplier, in list order. The host's trace grows by every round's fan-out in turn (`ScheduleCalls`). The loop takes exactly two clock readings per round, and round i's record holds the difference of readings 2i and 2i+1 (`RoundsRecorded`). |
| `Scaling.ScheduleMonotone` | co-lab_torch.stressed.py:84-85 | For any schedule where each multiplier at least doubles the previous one and all stay within 1..1000, `int(128*m)` strictly increases and `int(1000/m)` strictly decreases. |
| `Scaling.CountAntitone` | co-lab_torch.stressed.py:85 | `int(1000/m)` never increases as `m` grows. |
| `Scaling.CountHalves` | co-lab_torch.stressed.py:85 | At least doubling `m` (up to 1000) strictly lowers `int(1000/m)`. |
| `Platform.Host.AvailableMemoryMb` | co-lab_torch.stressed.py:9-12 | Each probe returns the next reading of the stream and consumes it. |
| `Platform.Host.Run` | co-lab_torch.stressed.py:14-37 | A kernel call is appended to the trace and reports the next duration of the stream, which is non-negative. |
| `Platform.Host.Time` | co-lab_torch.stressed.py:51-64 | Each clock query returns the next reading of the non-decreasing clock stream. |
| `Platform.SumOfBlocks` | co-lab_torch.stressed.py:61-62 | When worker i reports the duration of the i-th block of calls, the sum of the worker results is the duration of the whole fan-out. |
| `Platform.FanOutPeriodic` | co-lab_torch.stressed.py:61 | A fan-out of n workers has n times the worker's calls, and its k-th call is the worker's call `k mod width`. |
| `Platform.FanOutSingle` | co-lab.torch.gpu.py:26-27 | Repeating one call n times gives exactly n copies of that call. |
| `Platform.ElapsedNonNegative` | co-lab_torch.stressed.py:41-46 | A sum of kernel durations is never negative. |

## Left out

- The kernel bodies (`cpu_bound_operation`, `memory_intensive_operation`) are left out. They are floating-point tensor work inside PyTorch. A kernel call is its recorded arguments plus the next duration of a non-negative stream. The durations do not depend on size or iteration count, so the cost profile is not modelled.
- The kernels' own `time.time()` readings are folded into their reported durations.
- `psutil.virtual_memory` and the division by 1024*1024 are left out. The probe is a stream of readings already in MB.
- The process pool runs its workers one after another in the model. Parallelism, process start-up and worker exceptions are not modelled.
- `ProcessPoolExecutor` rejects fewer than one worker. The dispatchers therefore require `numProcesses >= 1`. So the stressed `RunTests` requires `cpuCount >= 2` (it uses `cpu_count // 2`) and the plain one requires `cpuCount >= 1`. The model is not called with the source's crashing inputs: a single-core host, or `os.cpu_count()` returning `None`.
- The rounds require a multiplier of at least 1 (`int(1000/0)` raises). Multipliers are natural numbers. The float conversions `int(size*0.8)` and `int(1000/m)` are integer divisions, which agree with the floats for these inputs.
- `time.sleep` pauses, every `print`, and the JSON file write at the end of each script are left out. They are timing, logging and I/O.
- The `use_memory` argument of `stress_cpu_recursion` is passed down but never used, in the source and in the model.
- Python's recursion limit is not modelled. The deepest recursion used has depth 160, i.e. 161 levels.
- Stressed.StressCpuMultiprocessing: requires at least one worker even when the memory check skips the pool. The source would return 0 there before creating the pool.
- Repeating the memory check has no separate lemma. `Policy` is a function of the reading, so two checks that see the same reading always decide the same.
- The wall clock is assumed never to go back (`Platform.NonDecreasing`). `time.time()` can return a smaller value after the system clock is set back. The dispatchers' `elapsed >= 0` rests on this assumption, not on the source.
- Timings are exact reals. The source adds Python floats, so its summed worker total can differ by rounding from the exact total, which `Platform.SumOfBlocks` regroups into the duration of the whole fan-out.
