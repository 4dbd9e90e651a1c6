/** internal/runtime/runtime.go: the polling loop of monitorCheckSingle, against a specification
    over the whole history of samples. */
module Monitor {
  import opened Basics

  const SECOND := 1_000_000_000   // nanoseconds
  const TIMELINE_MAX := 50

  /** What one poll saw; status is already lower-cased and trimmed. */
  datatype Sample = Sample(status: string, restartCount: int, at: int)

  /** nonRunningStart and startedAt are the two clock readings before the loop. */
  datatype Settings = Settings(stableSeconds: int, recoverSeconds: int, restartThreshold: int,
                               baseRestart: int, nonRunningStart: int, startedAt: int)
  {
    function Stable(): int { stableSeconds * SECOND }
    function Recover(): int { recoverSeconds * SECOND }
    function MaxRuntime(): int { (stableSeconds + recoverSeconds + 3600) * SECOND }
  }

  datatype Verdict = Undecided | StableEnough | RestartThreshold | RecoverTimeout | TooLong

  /** What ends the polling from outside: a cancellation, or an inspection that fails or finds nothing. */
  datatype Interruption = Cancelled | InspectFailed | Missing

  /** What is done to the monitor container at the end. */
  datatype Cleanup = Untouched | Stopped | Removed

  datatype Outcome =
    | Interrupted(why: Interruption)
    | Success(timeline: seq<Sample>)
    | Failure(verdict: Verdict)

  predicate Running(s: Sample) { s.status == "running" }

  // ---- the history specification ----

  /** The first sample of the maximal running or non-running streak that sample i belongs to. */
  function StreakStart(h: seq<Sample>, i: nat): (j: nat)
    requires i < |h|
    ensures j <= i
  {
    if i == 0 || Running(h[i - 1]) != Running(h[i]) then i else StreakStart(h, i - 1)
  }

  lemma {:induction false} StreakIsMaximal(h: seq<Sample>, i: nat)
    requires i < |h|
    ensures var j := StreakStart(h, i);
            && (forall k :: j <= k <= i ==> (Running(h[k]) <==> Running(h[i])))
            && (j > 0 ==> (Running(h[j - 1]) <==> !Running(h[i])))
  {
    if i == 0 || Running(h[i - 1]) != Running(h[i]) {
    } else {
      StreakIsMaximal(h, i - 1);
    }
  }

  /** When the current streak began. A non-running streak that no running sample precedes began with
      the monitor; changes between different non-running statuses do not restart it. */
  function StreakSince(c: Settings, h: seq<Sample>, i: nat): int
    requires i < |h|
  {
    var j := StreakStart(h, i);
    if !Running(h[i]) && j == 0 then c.nonRunningStart else h[j].at
  }

  /** The verdict at sample i, from the history alone. */
  function Judge(c: Settings, h: seq<Sample>, i: nat): Verdict
    requires i < |h|
  {
    var span := h[i].at - StreakSince(c, h, i);
    if h[i].restartCount - c.baseRestart >= c.restartThreshold then RestartThreshold
    else if Running(h[i]) && span >= c.Stable() then StableEnough
    else if !Running(h[i]) && span >= c.Recover() then RecoverTimeout
    else if h[i].at - c.startedAt > c.MaxRuntime() then TooLong
    else Undecided
  }

  ghost predicate UndecidedBefore(c: Settings, h: seq<Sample>, n: nat)
    requires n <= |h|
  {
    forall k :: 0 <= k < n ==> Judge(c, h, k) == Undecided
  }

  function Tail(timeline: seq<Sample>): seq<Sample> {
    if |timeline| <= TIMELINE_MAX then timeline else timeline[|timeline| - TIMELINE_MAX..]
  }

  function Conclude(c: Settings, h: seq<Sample>, n: nat): (Outcome, Cleanup)
    requires n < |h|
  {
    match Judge(c, h, n)
    case StableEnough => (Success(Tail(h[..n + 1])), Stopped)
    case RestartThreshold => (Failure(RestartThreshold), Removed)
    case RecoverTimeout => (Failure(RecoverTimeout), Removed)
    case v => (Failure(v), Untouched)
  }

  lemma StreakStep(c: Settings, h: seq<Sample>, n: nat)
    requires n < |h|
    ensures StreakSince(c, h, n) ==
              if n > 0 && Running(h[n - 1]) == Running(h[n]) then StreakSince(c, h, n - 1)
              else if n == 0 && !Running(h[0]) then c.nonRunningStart
              else h[n].at
  {
  }

  // ---- the loop ----

  // ---- the outcome in plain terms ----

  /** The samples j to n are the current streak: all running, or all not running. */
  ghost predicate StreakFrom(h: seq<Sample>, j: nat, n: nat) {
    && j <= n < |h|
    && (forall k :: j <= k <= n ==> (h[k].status == "running" <==> h[n].status == "running"))
    && (j > 0 ==> (h[j - 1].status == "running" <==> h[n].status != "running"))
  }

  /** At sample n the current streak has lasted so many seconds. */
  ghost predicate Lasts(c: Settings, h: seq<Sample>, n: nat, seconds: int)
    requires n < |h|
  {
    exists j: nat :: StreakFrom(h, j, n)
      && h[n].at - (if h[n].status != "running" && j == 0 then c.nonRunningStart else h[j].at) >= seconds * 1_000_000_000
  }

  ghost predicate Restarts(c: Settings, h: seq<Sample>, n: nat)
    requires n < |h|
  {
    h[n].restartCount - c.baseRestart >= c.restartThreshold
  }

  ghost predicate Stabilizes(c: Settings, h: seq<Sample>, n: nat)
    requires n < |h|
  {
    !Restarts(c, h, n) && h[n].status == "running" && Lasts(c, h, n, c.stableSeconds)
  }

  ghost predicate GivesUp(c: Settings, h: seq<Sample>, n: nat)
    requires n < |h|
  {
    !Restarts(c, h, n) && h[n].status != "running" && Lasts(c, h, n, c.recoverSeconds)
  }

  ghost predicate Overruns(c: Settings, h: seq<Sample>, n: nat)
    requires n < |h|
  {
    && !Restarts(c, h, n) && !Stabilizes(c, h, n) && !GivesUp(c, h, n)
    && h[n].at - c.startedAt > c.stableSeconds * 1_000_000_000 + c.recoverSeconds * 1_000_000_000 + 3_600_000_000_000
  }

  ghost predicate GoesOn(c: Settings, h: seq<Sample>, n: nat)
    requires n <= |h|
  {
    forall k :: 0 <= k < n ==>
      !Restarts(c, h, k) && !Stabilizes(c, h, k) && !GivesUp(c, h, k) && !Overruns(c, h, k)
  }

  /** When each outcome comes, and what is then done to the monitor container. */
  ghost predicate Decided(c: Settings, h: seq<Sample>, why: Interruption, outcome: Outcome, cleanup: Cleanup) {
    && (outcome.Success? <==> exists n :: 0 <= n < |h| && GoesOn(c, h, n) && Stabilizes(c, h, n))
    && (outcome == Failure(RestartThreshold) <==> exists n :: 0 <= n < |h| && GoesOn(c, h, n) && Restarts(c, h, n))
    && (outcome == Failure(RecoverTimeout) <==> exists n :: 0 <= n < |h| && GoesOn(c, h, n) && GivesUp(c, h, n))
    && (outcome == Failure(TooLong) <==> exists n :: 0 <= n < |h| && GoesOn(c, h, n) && Overruns(c, h, n))
    && (outcome == Interrupted(why) <==> GoesOn(c, h, |h|))
    && (cleanup == Stopped <==> outcome.Success?)
    && (cleanup == Removed <==> outcome == Failure(RestartThreshold) || outcome == Failure(RecoverTimeout))
    && (forall n :: 0 <= n < |h| && GoesOn(c, h, n) && Stabilizes(c, h, n) ==>
          outcome == Success(h[if n < 50 then 0 else n - 49..n + 1]))
  }

  lemma LastsIs(c: Settings, h: seq<Sample>, n: nat, seconds: int)
    requires n < |h|
    ensures Lasts(c, h, n, seconds) <==> h[n].at - StreakSince(c, h, n) >= seconds * 1_000_000_000
  {
    StreakIsMaximal(h, n);
    assert StreakFrom(h, StreakStart(h, n), n);
    forall j: nat | StreakFrom(h, j, n) ensures j == StreakStart(h, n) {
      StreakStartUnique(h, n, j);
    }
  }

  lemma JudgeIs(c: Settings, h: seq<Sample>, n: nat)
    requires n < |h|
    ensures Judge(c, h, n) == RestartThreshold <==> Restarts(c, h, n)
    ensures Judge(c, h, n) == StableEnough <==> Stabilizes(c, h, n)
    ensures Judge(c, h, n) == RecoverTimeout <==> GivesUp(c, h, n)
    ensures Judge(c, h, n) == TooLong <==> Overruns(c, h, n)
  {
    LastsIs(c, h, n, c.stableSeconds);
    LastsIs(c, h, n, c.recoverSeconds);
  }

  lemma UndecidedIsGoesOn(c: Settings, h: seq<Sample>, n: nat)
    requires n <= |h|
    ensures UndecidedBefore(c, h, n) <==> GoesOn(c, h, n)
  {
    forall k | 0 <= k < n
      ensures Judge(c, h, k) == Undecided
         <==> !Restarts(c, h, k) && !Stabilizes(c, h, k) && !GivesUp(c, h, k) && !Overruns(c, h, k)
    {
      JudgeIs(c, h, k);
    }
  }

  /** Only the first sample at which something happens is reached. */
  lemma OnlyFirst(c: Settings, h: seq<Sample>, n: nat, m: nat)
    requires n < |h| && m < |h| && GoesOn(c, h, n) && GoesOn(c, h, m) && !GoesOn(c, h, n + 1) && !GoesOn(c, h, m + 1)
    ensures n == m
  {
  }

  lemma JudgeDecides(c: Settings, h: seq<Sample>, n: nat, why: Interruption)
    requires n < |h| && UndecidedBefore(c, h, n) && Judge(c, h, n) != Undecided
    ensures var (outcome, cleanup) := Conclude(c, h, n); Decided(c, h, why, outcome, cleanup)
  {
    UndecidedIsGoesOn(c, h, n);
    UndecidedIsGoesOn(c, h, n + 1);
    UndecidedIsGoesOn(c, h, |h|);
    JudgeIs(c, h, n);
    forall m | 0 <= m < |h| && GoesOn(c, h, m)
      ensures Restarts(c, h, m) || Stabilizes(c, h, m) || GivesUp(c, h, m) || Overruns(c, h, m) ==> m == n
    {
      if Restarts(c, h, m) || Stabilizes(c, h, m) || GivesUp(c, h, m) || Overruns(c, h, m) {
        OnlyFirst(c, h, n, m);
      }
    }
    TailIs(h, n);
  }

  lemma TailIs(h: seq<Sample>, n: nat)
    requires n < |h|
    ensures Tail(h[..n + 1]) == h[if n < 50 then 0 else n - 49..n + 1]
  {
  }

  lemma NothingDecided(c: Settings, h: seq<Sample>, why: Interruption)
    requires UndecidedBefore(c, h, |h|)
    ensures Decided(c, h, why, Interrupted(why), Untouched)
  {
    UndecidedIsGoesOn(c, h, |h|);
  }

  /** The loop's two times at the end of an iteration. */
  datatype Since = Since(running: int, nonRunning: int)

  /** The time that counts for the kind of sample i is when its streak began. */
  ghost predicate Tracked(c: Settings, h: seq<Sample>, i: nat, since: Since)
    requires i < |h|
  {
    (if Running(h[i]) then since.running else since.nonRunning) == StreakSince(c, h, i)
  }

  ghost predicate AllTracked(c: Settings, h: seq<Sample>, trace: seq<Since>) {
    |trace| <= |h| && forall k :: 0 <= k < |trace| ==> Tracked(c, h, k, trace[k])
  }

  lemma TrackedNext(c: Settings, h: seq<Sample>, trace: seq<Since>, since: Since)
    requires AllTracked(c, h, trace) && |trace| < |h| && Tracked(c, h, |trace|, since)
    ensures AllTracked(c, h, trace + [since])
  {
  }

  lemma UndecidedNext(c: Settings, h: seq<Sample>, n: nat)
    requires n < |h| && UndecidedBefore(c, h, n) && Judge(c, h, n) == Undecided
    ensures UndecidedBefore(c, h, n + 1)
  {
  }

  /** Polls see the samples one after another; if none decides, why ends the polling. n is the number of
      polls that were left undecided; trace has runningSince and nonRunningSince after each of them. */
  method MonitorCheckSingle(c: Settings, samples: seq<Sample>, why: Interruption)
    returns (outcome: Outcome, cleanup: Cleanup, n: nat, ghost trace: seq<Since>)
    ensures n <= |samples| && UndecidedBefore(c, samples, n)
    ensures |trace| == n && AllTracked(c, samples, trace)
    ensures n == |samples| ==> outcome == Interrupted(why) && cleanup == Untouched
    ensures n < |samples| ==> Judge(c, samples, n) != Undecided && (outcome, cleanup) == Conclude(c, samples, n)
    ensures Decided(c, samples, why, outcome, cleanup)
  {
    var lastStatus := "";
    var runningSince := 0;
    var nonRunningSince := c.nonRunningStart;
    var timeline := [];
    n, trace := 0, [];
    while n < |samples|
      invariant |trace| == n && AllTracked(c, samples, trace)
      invariant n <= |samples| && UndecidedBefore(c, samples, n)
      invariant timeline == samples[..n]
      invariant lastStatus == if n == 0 then "" else samples[n - 1].status
      invariant n > 0 ==> trace[n - 1] == Since(runningSince, nonRunningSince)
      invariant n == 0 ==> nonRunningSince == c.nonRunningStart
    {
      var status, now := samples[n].status, samples[n].at;
      var delta := samples[n].restartCount - c.baseRestart;
      timeline := timeline + [samples[n]];
      assert timeline == samples[..n + 1];
      StreakStep(c, samples, n);
      if delta >= c.restartThreshold {
        JudgeDecides(c, samples, n, why);
        return Failure(RestartThreshold), Removed, n, trace;
      }
      if status == "running" {
        if lastStatus != "running" {
          runningSince := now;
        }
        assert runningSince == StreakSince(c, samples, n);
        if now - runningSince >= c.Stable() {
          JudgeDecides(c, samples, n, why);
          return Success(Tail(timeline)), Stopped, n, trace;
        }
      } else {
        if lastStatus == "running" {
          nonRunningSince := now;
        }
        assert nonRunningSince == StreakSince(c, samples, n);
        if now - nonRunningSince >= c.Recover() {
          JudgeDecides(c, samples, n, why);
          return Failure(RecoverTimeout), Removed, n, trace;
        }
      }
      if now - c.startedAt > c.MaxRuntime() {
        JudgeDecides(c, samples, n, why);
        return Failure(TooLong), Untouched, n, trace;
      }
      lastStatus := status;
      TrackedNext(c, samples, trace, Since(runningSince, nonRunningSince));
      UndecidedNext(c, samples, n);
      trace := trace + [Since(runningSince, nonRunningSince)];
      n := n + 1;
    }
    NothingDecided(c, samples, why);
    return Interrupted(why), Untouched, n, trace;
  }

  // ---- what the specification means ----

  /** Every sample so far keeps monitoring going: its restarts are below the threshold, its streak is
      shorter than the window that applies to it, and the total runtime is within the cap. */
  ghost predicate Quiet(c: Settings, h: seq<Sample>, k: nat)
    requires k < |h|
  {
    && h[k].restartCount - c.baseRestart < c.restartThreshold
    && h[k].at - StreakSince(c, h, k) < (if Running(h[k]) then c.Stable() else c.Recover())
    && h[k].at - c.startedAt <= c.MaxRuntime()
  }

  lemma UndecidedIffQuiet(c: Settings, h: seq<Sample>, k: nat)
    requires k < |h|
    ensures Judge(c, h, k) == Undecided <==> Quiet(c, h, k)
  {
  }

  /** Some run of samples j..n is all running, spans the stable time and starts at the monitor's first
      sample or right after a non-running one. */
  ghost predicate StableRun(c: Settings, h: seq<Sample>, j: nat, n: nat)
    requires j <= n < |h|
  {
    && (forall k :: j <= k <= n ==> Running(h[k]))
    && (j > 0 ==> !Running(h[j - 1]))
    && h[n].at - h[j].at >= c.Stable()
  }

  /** The streak start is the only index with its two properties. */
  lemma {:induction false} StreakStartUnique(h: seq<Sample>, i: nat, j: nat)
    requires j <= i < |h|
    requires forall k :: j <= k <= i ==> (Running(h[k]) <==> Running(h[i]))
    requires j > 0 ==> (Running(h[j - 1]) <==> !Running(h[i]))
    ensures StreakStart(h, i) == j
  {
    if i == j {
    } else {
      StreakStartUnique(h, i - 1, j);
    }
  }

  /** Success comes at sample n exactly when a running streak has spanned the stable time at n, the
      restarts at n are below the threshold, and every earlier sample was quiet. */
  lemma SuccessIff(c: Settings, h: seq<Sample>, n: nat)
    requires n < |h|
    ensures Judge(c, h, n) == StableEnough && UndecidedBefore(c, h, n) <==>
              && (exists j :: 0 <= j <= n && StableRun(c, h, j, n))
              && h[n].restartCount - c.baseRestart < c.restartThreshold
              && (forall k :: 0 <= k < n ==> Quiet(c, h, k))
  {
    forall k | 0 <= k < n ensures Judge(c, h, k) == Undecided <==> Quiet(c, h, k) {
      UndecidedIffQuiet(c, h, k);
    }
    if Judge(c, h, n) == StableEnough {
      StreakIsMaximal(h, n);
      assert StableRun(c, h, StreakStart(h, n), n);
    }
    if exists j :: 0 <= j <= n && StableRun(c, h, j, n) {
      var j :| 0 <= j <= n && StableRun(c, h, j, n);
      StreakStartUnique(h, n, j);
    }
  }

  /** One flap restarts the clock: a success needs the whole stable time after the last non-running
      sample. */
  lemma FlapRestartsWindow(c: Settings, h: seq<Sample>, f: nat, n: nat)
    requires f < n < |h| && !Running(h[f])
    requires forall a, b :: 0 <= a <= b < |h| ==> h[a].at <= h[b].at
    ensures Judge(c, h, n) == StableEnough ==> h[n].at - h[f + 1].at >= c.Stable()
  {
    if Judge(c, h, n) == StableEnough {
      var j := StreakStart(h, n);
      StreakIsMaximal(h, n);
      assert f < j;
    }
  }

  /** Different non-running statuses are one streak: only "running" or not matters to the verdict. */
  ghost predicate SameUpToStatus(a: seq<Sample>, b: seq<Sample>) {
    |a| == |b| && forall k :: 0 <= k < |a| ==>
      a[k].at == b[k].at && a[k].restartCount == b[k].restartCount && (Running(a[k]) <==> Running(b[k]))
  }

  lemma OnlyRunningMatters(c: Settings, a: seq<Sample>, b: seq<Sample>, i: nat)
    requires SameUpToStatus(a, b) && i < |a|
    ensures Judge(c, a, i) == Judge(c, b, i)
  {
    var j := StreakStart(b, i);
    StreakIsMaximal(b, i);
    assert Running(a[i]) <==> Running(b[i]);
    assert forall k :: j <= k <= i ==> (Running(a[k]) <==> Running(b[k]));
    StreakStartUnique(a, i, j);
  }

  lemma {:induction false} Elapsed(c: Settings, h: seq<Sample>, d: nat, i: nat)
    requires i < |h| && h[0].at >= c.startedAt
    requires forall k :: 0 <= k < |h| - 1 ==> h[k + 1].at - h[k].at >= d
    ensures h[i].at - c.startedAt >= i * d
  {
    if i == 0 {
    } else {
      Elapsed(c, h, d, i - 1);
      assert h[i - 1 + 1].at - h[i - 1].at >= d;
    }
  }

  lemma QuotientBound(i: int, d: int, m: int)
    requires d > 0 && i * d <= m
    ensures i <= m / d
  {
    if i > m / d {
      Times(m / d + 1, i, d);
    }
  }

  /** The loop ends on every trace of statuses, endless flapping included: polled at least d apart it
      decides within floor(M / d) + 2 samples. */
  lemma MonitorTerminates(c: Settings, h: seq<Sample>, d: nat)
    requires d > 0 && c.MaxRuntime() >= 0
    requires h != [] ==> h[0].at >= c.startedAt
    requires forall k :: 0 <= k < |h| - 1 ==> h[k + 1].at - h[k].at >= d
    requires h != [] ==> UndecidedBefore(c, h, |h| - 1)   // the loop got as far as its last sample
    ensures |h| <= c.MaxRuntime() / d + 2
  {
    if |h| >= 2 {
      var last := |h| - 2;
      Elapsed(c, h, d, last);
      UndecidedIffQuiet(c, h, last);
      QuotientBound(last, d, c.MaxRuntime());
    }
  }
}
