# Scheduler statistics census (`runtime.ReadSchedStats`)

This project models the goroutine-scheduler census of a locally patched Go
runtime (`src/runtime/pstats.go`). `ReadSchedStats` overwrites a
caller-owned `SchedStats` record. When the `SchedStatsStates` flag bit is
set, it counts goroutines in four states:

- **Running**: one per P in `_Prunning`.
- **Runnable**: the depth of every P's local run queue, plus one for an
  occupied `runnext` slot, plus the global run queue size.
- **NonGo**: one per P in `_Psyscall`, plus the `nGsyscallNoP` counter
  when that counter is not negative.
- **Blocked**: the goroutine total minus the other three, clamped at zero.

The scan of `allp` stops at the first nil or `_Pdead` entry. A P in
`_Pgcstop` throws the pass away and starts again. A run-queue read whose
`runqhead` moved, or whose `int32(tail - head)` is negative, is retried.

The concurrent reads are inputs of the model:

- A pass is a sequence of `PSlot` values, the table as that pass saw it.
- Each P carries the successive `RunqLoads` attempts the census makes on
  its queue.
- The retries of the whole pass are a sequence of passes.
- `Sched` holds the global counters read after the scan.

The project has three modules:

- `GoInts` (`goints.dfy`) covers uint32 wrap-around and the `int32(...)`
  conversion.
- `SchedSpec` (`sched_spec.dfy`) has the snapshot datatypes. It defines
  the census as functions (`ScanPass`, `Census`). It also gives an
  independent description by counting (`Tally`), with the lemmas that
  connect the two.
- `PStats` (`pstats.dfy`) has the `SchedStats` class and the imperative
  methods. `ReadSchedStatsStates` is the retry loop over passes and
  updates the record's fields in place. `ScanPassInto` is its loop over
  the Ps of one pass, and `ReadRunq` is the per-P retry loop on a run
  queue. `ReadSchedStats` has no loop: it zeroes the record and, when the
  flag bit is set, calls `ReadSchedStatsStates`. Each method is proved
  equal to the census functions.

The syscall counter `nGsyscallNoP` is read as a raw uint32 word and
converted with `int32(...)`, as the code does (pstats.go:140), rather than
read directly as a signed count. A word of 2^31 or more therefore counts
as negative and adds nothing. The global queue size `sched.runqsize` is
an int32 that the code adds without a clamp (pstats.go:137). Runnable is
therefore proved non-negative only when that size is non-negative.

## Model

| member | source | states |
|---|---|---|
| GoInts.Sub32 | src/runtime/pstats.go:124 | uint32 `t - h` is congruent to the true difference modulo 2^32 and equals it when no wrap occurs |
| GoInts.AsInt32 | src/runtime/pstats.go:124 | `int32(x)` is the int32 value congruent to `x` modulo 2^32, and it is non-negative exactly when `x < 2^31` |
| SchedSpec.Depth | src/runtime/pstats.go:124 | the depth `int32(t - h)` is an int32 congruent to `tail - head` modulo 2^32 |
| SchedSpec.RingDepth | src/runtime/pstats.go:124 | a ring holding `len < 2^31` entries reads as depth `len`, even after `tail` has wrapped below `head` |
| SchedSpec.Accepted | src/runtime/pstats.go:124-125 | an attempt is kept exactly when `runqhead` read the same twice and the uint32 word `tail - head` is below 2^31, i.e. `int32(t - h)` is not negative |
| SchedSpec.FirstAccepted | src/runtime/pstats.go:120-127 | the read loop stops at an accepted attempt, and every earlier attempt was torn (head moved or negative depth) |
| SchedSpec.Contribution | src/runtime/pstats.go:128-131 | an accepted read adds between 0 and 2^31 to Runnable: the ring entries modulo 2^32, plus one when `runnext != 0` |
| SchedSpec.Live | src/runtime/pstats.go:102-105 | the scan visits exactly the entries before the first nil or `_Pdead` one |
| SchedSpec.ScanPass | src/runtime/pstats.go:102-134 | a pass that completes has non-negative Running, NonGo and Runnable accumulators, and its running and syscall Ps together number at most the table's entries |
| SchedSpec.SyscallNoP | src/runtime/pstats.go:140-144 | the syscall counter adds its value when its word is below 2^31 (non-negative as int32), and nothing otherwise |
| SchedSpec.Blocked | src/runtime/pstats.go:149-153 | Blocked is at least `totalGs - counted` and is either 0 or exactly that difference, so it is never negative |
| SchedSpec.Finish | src/runtime/pstats.go:136-153 | after the scan, Running is kept, the global queue size joins Runnable, the clamped syscall counter joins NonGo, and Blocked is non-negative: the four counts sum to totalGs when Blocked is not clamped, and Blocked is 0 otherwise |
| SchedSpec.Census | src/runtime/pstats.go:94-153 | no passes give no result; a result has non-negative Running, NonGo and Blocked, and Runnable at least the global queue size |
| SchedSpec.CountStatus | src/runtime/pstats.go:106-110 | a status count never exceeds the number of entries counted |
| SchedSpec.StatusCountsDisjoint | src/runtime/pstats.go:106-110 | `_Prunning` and `_Psyscall` Ps are counted disjointly, so the two counts together are at most the number of Ps |
| SchedSpec.Tally | src/runtime/pstats.go:101-153 | reference census of the scanned Ps: Running plus the Ps in a syscall fit in the Ps scanned; NonGo is at least the clamped syscall counter; Runnable is at least the global queue size; Blocked is non-negative; the four counts sum to totalGs when Blocked is not clamped, and Blocked is 0 otherwise |
| SchedSpec.SentinelStopsScan | src/runtime/pstats.go:102-105 | nothing at or after a nil or dead entry changes the outcome of a pass or the number of entries scanned |
| SchedSpec.ScanPassMatchesTally | src/runtime/pstats.go:102-134 | a pass completes exactly when every scanned P is readable and not `_Pgcstop`; its accumulators are then the `_Prunning` count, the `_Psyscall` count and the sum of accepted queue contributions; a restarted pass met a `_Pgcstop` P before the sentinel |
| SchedSpec.CensusSkipsRestarted | src/runtime/pstats.go:111-117 | after a run of restarted passes the census is that of the remaining passes, so the accumulators of those passes are discarded |
| SchedSpec.CensusFromFullPass | src/runtime/pstats.go:94-153 | a fully readable pass reached after restarted passes yields the census, which equals the reference `Tally` of that pass's scanned Ps and the global counters |
| SchedSpec.CensusNeedsFullPass | src/runtime/pstats.go:111-117 | a census result exists only if some pass, after a run of restarted ones, had no `_Pgcstop` P before its sentinel |
| SchedSpec.CensusBounds | src/runtime/pstats.go:101-153 | every census result has non-negative Running, NonGo and Blocked (and Runnable, when the global queue size is non-negative); NonGo is at least the clamped syscall counter; Running, and Running plus the Ps in a syscall, are at most GOMAXPROCS as seen by the counted pass, whatever the restarted passes saw (GOMAXPROCS may shrink while the world is stopped); the counts sum to the total when Blocked is not clamped |
| SchedSpec.FourPExample | src/runtime/pstats.go:91-156 | four Ps with two queued goroutines each (three running, one in a syscall), a global queue of 3 and 16 goroutines give Running 3, Runnable 11, NonGo 1, Blocked 1 |
| PStats.SchedStats.constructor | src/runtime/pstats.go:84 | the zero value `SchedStats{}` has all four counts 0 |
| PStats.ReadRunq | src/runtime/pstats.go:120-133 | the retry loop returns a non-negative depth, namely the contribution of the first accepted attempt |
| PStats.ScanPassInto | src/runtime/pstats.go:102-134 | one in-place pass into a zeroed record reports a restart exactly when the pass meets `_Pgcstop` before its sentinel; otherwise the record holds the pass's accumulators, and Blocked stays 0 |
| PStats.ReadSchedStatsStates | src/runtime/pstats.go:91-156 | starting from a zero record, the in-place scan with pass restarts, global folding and Blocked clamp leaves the record equal to the census |
| PStats.ReadSchedStats | src/runtime/pstats.go:83-89 | the record is zeroed; with the `SchedStatsStates` bit clear it stays zero and nothing of the scheduler state is required; with the bit set it holds the census |

## Left out

- `lock(&sched.lock)`, `unlock(&sched.lock)` and `Gosched()` (pstats.go:99, 114-115, 155) are runtime synchronisation and rescheduling. Each retry is instead a further pass in the input sequence.
- The memory ordering of `atomic.Load` and `atomic.Loaduintptr` is not modelled. Each load is an input value, and the concurrent mutation by other Ps is represented only through the observed values.
- The code loads `p.status` twice per P, once for the sentinel test and once for the switch (pstats.go:103, 106). The model keeps one status per slot and pass. Nothing observable is lost, because a P cannot enter or leave `_Pdead` or `_Pgcstop` while `sched.lock` is held.
- `gcount(true)` is a foreign runtime call and is not part of this model. Its result is the input `Sched.totalGs`.
- `src/runtime/proc_unix_test.go` is a `syscall.Pipe` test shim with no logic to model.
- PStats.ReadRunq: an attempt sequence with no accepted attempt is excluded by `requires Settles(...)`. With such a sequence the runtime's loop spins forever and never returns.
- PStats.ReadSchedStatsStates: pass sequences on which the runtime would still be looping are excluded by `requires Census(...).Some?`. These are sequences where every pass meets `_Pgcstop`, or where some queue read never settles. The requirement that the record starts at zero holds because `ReadSchedStats` zeroes it first.
- PStats.ReadSchedStats: the same termination requirement applies when the flag bit is set.
- SchedSpec.Contribution: the int32 overflow of `runnable++` at depth 2^31-1 is not modelled, because the run-queue ring is far smaller than 2^31 entries. The addition is taken as exact.
- The 64-bit overflow of Go's `int` accumulators (`Running`, `Runnable`, `NonGo`, `Blocked`) is not modelled. Integers are unbounded here.
- `flags` is modelled as a 64-bit word. Only bit 0 (`SchedStatsStates`) has a meaning.
