/** The scheduler census as the runtime performs it: a caller-owned
    `SchedStats` record overwritten in place by `ReadSchedStats`, whose
    counts are accumulated field by field while scanning the Ps. */
module PStats {
  import opened GoInts
  import opened SchedSpec

  /** Statistics about the goroutine scheduler: the four approximate
      counts of `SchedStats.States`. */
  class SchedStats {
    var running: int
    var runnable: int
    var nonGo: int
    var blocked: int

    /** The zero value `SchedStats{}`. */
    constructor ()
      ensures Counts() == Zero
    {
      running, runnable, nonGo, blocked := 0, 0, 0, 0;
    }

    /** The counts as a value. */
    function Counts(): States
      reads this
    {
      States(running, runnable, nonGo, blocked)
    }
  }

  /** Reads one P's run-queue depth, retrying torn attempts: an attempt is
      kept only if `runqhead` did not move and `int32(tail - head)` is not
      negative, and then counts the ring plus an occupied `runnext`. */
  method ReadRunq(loads: seq<RunqLoads>) returns (n: int)
    requires Settles(loads)
    ensures n >= 0
    ensures n == Contribution(loads[FirstAccepted(loads)])
  {
    var j := 0;
    while true
      invariant j <= FirstAccepted(loads)
      decreases FirstAccepted(loads) - j
    {
      var h := loads[j].head;
      var t := loads[j].tail;
      var next := loads[j].runnext;
      var runnable: int := AsInt32(Sub32(t, h));
      if loads[j].headAgain != h || runnable < 0 {
        j := j + 1;
        continue;
      }
      if next != 0 {
        runnable := runnable + 1;
      }
      n := runnable;
      break;
    }
  }

  /** One pass over `allp` into the zeroed record `s`: stops at the first
      nil or dead P, counts running and syscall Ps and adds each P's
      run-queue depth; a `_Pgcstop` P abandons the pass. */
  method ScanPassInto(s: SchedStats, pass: Pass) returns (restart: bool)
    requires s.Counts() == Zero
    requires !ScanPass(pass).Spinning?
    modifies s
    ensures restart <==> ScanPass(pass).Restarted?
    ensures !restart ==> ScanPass(pass) == Counted(s.running, s.nonGo, s.runnable)
    ensures s.blocked == 0
  {
    restart := false;
    var i := 0;
    while i < |pass|
      invariant 0 <= i <= |pass|
      invariant s.blocked == 0
      invariant ScanPass(pass) == Shift(s.running, s.nonGo, s.runnable, ScanPass(pass[i..]))
      invariant !ScanPass(pass[i..]).Spinning?
    {
      var p := pass[i];
      ScanPassAt(pass, i);
      ghost var running0, nonGo0, runnable0 := s.running, s.nonGo, s.runnable;
      if p.NilP? || p.status == Pdead {
        break;
      }
      match p.status {
        case Prunning => s.running := s.running + 1;
        case Psyscall => s.nonGo := s.nonGo + 1;
        case Pgcstop =>
          restart := true;
          return;
        case _ =>
      }
      ghost var dr, ds := if p.status == Prunning then 1 else 0, if p.status == Psyscall then 1 else 0;
      ghost var rest := ScanPass(pass[i + 1..]);
      var n := ReadRunq(p.runq);
      s.runnable := s.runnable + n;
      assert ScanPass(pass[i..]) == Shift(dr, ds, n, rest);
      ShiftShift(running0, nonGo0, runnable0, dr, ds, n, rest);
      i := i + 1;
    }
    if i == |pass| {
      assert pass[i..] == [];
    }
  }

  /** Fills `s` with the state counts, which it expects to be zero. Each
      pass scans `allp` up to the first nil or dead P; a `_Pgcstop` P
      discards the accumulators and starts the next pass. After a full
      pass the global queue and the syscall counter are folded in and
      Blocked is derived by subtraction, clamped at zero. */
  method ReadSchedStatsStates(s: SchedStats, passes: seq<Pass>, g: Sched)
    requires s.Counts() == Zero
    requires Census(passes, g).Some?
    modifies s
    ensures s.Counts() == Census(passes, g).value
  {
    var k := 0;
    while true
      invariant 0 <= k <= |passes|
      invariant Census(passes[k..], g) == Census(passes, g)
      invariant s.Counts() == Zero
      decreases |passes| - k
    {
      assert passes[k..][0] == passes[k];
      var restart := ScanPassInto(s, passes[k]);
      if !restart {
        break;
      }
      assert passes[k..][1..] == passes[k + 1..];
      s.running, s.runnable, s.nonGo, s.blocked := 0, 0, 0, 0;
      k := k + 1;
    }
    assert Census(passes, g) == Some(Finish(s.running, s.nonGo, s.runnable, g));

    s.runnable := s.runnable + g.runqsize;

    var nGsyscallNoP := AsInt32(g.nGsyscallNoP);
    if nGsyscallNoP >= 0 {
      s.nonGo := s.nonGo + nGsyscallNoP;
    }

    var totalGs := g.totalGs;
    s.blocked := totalGs - (s.running + s.runnable + s.nonGo);
    if s.blocked < 0 {
      s.blocked := 0;
    }
  }

  /** Overwrites `s` with scheduler statistics. With the `SchedStatsStates`
      bit clear the record is left zero and no pass is made, whatever the
      scheduler's state; with it set the state counts are the census. */
  method ReadSchedStats(s: SchedStats, flags: bv64, passes: seq<Pass>, g: Sched)
    requires flags & SchedStatsStates != 0 ==> Census(passes, g).Some?
    modifies s
    ensures flags & SchedStatsStates == 0 ==> s.Counts() == Zero
    ensures flags & SchedStatsStates != 0 ==> s.Counts() == Census(passes, g).value
  {
    s.running, s.runnable, s.nonGo, s.blocked := 0, 0, 0, 0;
    if flags & SchedStatsStates != 0 {
      ReadSchedStatsStates(s, passes, g);
    }
  }
}
