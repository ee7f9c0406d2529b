/**
 * The aggregator's Redis worker: each iteration of its `loop` connects,
 * moves one job from `aggregator:worker:jobs` onto `aggregator:worker:failed`
 * with BRPOPLPUSH, runs the aggregator when the payload is `run:all`, and
 * then deletes the failed list.
 *
 * Redis lists are sequences with the head first: BRPOPLPUSH pops the last
 * element of `jobs` and pushes it in front of `failed`. What Redis and the
 * aggregator answer on each iteration is an `Env`; the endless loop becomes
 * a run over a finite script of them.
 */
module Worker {
  import opened Wrappers
  import Numerals

  const DefaultRetryTimeout: nat := 10
  const JobsList: string := "aggregator:worker:jobs"
  const FailedList: string := "aggregator:worker:failed"
  const RunAll: string := "run:all"

  /**
   * `get_retry_timeout_duration`: the configured seconds when they fit a u64,
   * otherwise the default of 10.
   */
  function RetryTimeoutSecs(configured: nat): (secs: nat)
    ensures secs < Numerals.U64Bound
    ensures configured < Numerals.U64Bound ==> secs == configured
    ensures configured >= Numerals.U64Bound ==> secs == DefaultRetryTimeout
  {
    if configured < Numerals.U64Bound then configured else DefaultRetryTimeout
  }

  /** What one iteration of the loop writes to its logs. */
  datatype Event =
    | Running(msg: string)
    | Finished
    | CouldNotRun(reason: string)
    | CouldNotClear(reason: string)
    | CouldNotGet(reason: string)
    | CouldNotConnect(reason: string)

  /**
   * The answers of one iteration: the jobs other clients LPUSHed onto the
   * head of `jobs` since the previous iteration (in the order they now stand
   * in the list), the connection, the BRPOPLPUSH call (which times out with
   * no job when `jobs` is empty), the aggregator run and the DEL of the
   * failed list.
   */
  datatype Env = Env(pushed: seq<string>, connect: Result<(), string>, dequeue: Result<(), string>,
                     run: Result<(), string>, delete: Result<(), string>)

  datatype State = State(jobs: seq<string>, failed: seq<string>, log: seq<Event>)

  /** The job BRPOPLPUSH hands out, if any: the tail of `jobs`. */
  function Dequeued(jobs: seq<string>): (msg: Option<string>)
    ensures msg.None? <==> jobs == []
    ensures msg.Some? ==> jobs == jobs[..|jobs| - 1] + [msg.value]
  {
    if |jobs| == 0 then None else Some(jobs[|jobs| - 1])
  }

  /** The `jobs` list the iteration finds: what was pushed in front of what was left. */
  function Waiting(s: State, env: Env): seq<string>
  {
    env.pushed + s.jobs
  }

  /** The events of running the aggregator for `msg`, if it is `run:all`. */
  function RunEvents(msg: Option<string>, run: Result<(), string>): seq<Event>
  {
    if msg == Some(RunAll) then
      [Running(RunAll)] + (if run.Ok? then [Finished] else [CouldNotRun(run.error)])
    else []
  }

  /** One iteration of the loop, on the `jobs` list it finds. */
  function Attempt(s: State, env: Env): State
  {
    if env.connect.Err? then s.(log := s.log + [CouldNotConnect(env.connect.error)])
    else if env.dequeue.Err? then s.(log := s.log + [CouldNotGet(env.dequeue.error)])
    else
      var msg := Dequeued(s.jobs);
      var jobs := if msg.Some? then s.jobs[..|s.jobs| - 1] else s.jobs;
      var failed := if msg.Some? then [msg.value] + s.failed else s.failed;
      var logged := s.log + RunEvents(msg, env.run);
      if env.delete.Ok? then State(jobs, [], logged)
      else State(jobs, failed, logged + [CouldNotClear(env.delete.error)])
  }

  /** One iteration of the loop, after other clients' pushes. */
  function Next(s: State, env: Env): State
  {
    Attempt(s.(jobs := Waiting(s, env)), env)
  }

  /** The loop over a finite script of iterations. */
  function Iterate(s: State, script: seq<Env>): State
    decreases |script|
  {
    if |script| == 0 then s else Next(Iterate(s, script[..|script| - 1]), script[|script| - 1])
  }

  /** Everything other clients pushed during the script, newest first, as it stands in `jobs`. */
  function Pushed(script: seq<Env>): seq<string>
    decreases |script|
  {
    if |script| == 0 then [] else script[|script| - 1].pushed + Pushed(script[..|script| - 1])
  }

  /** The two lists and the log, held by the worker and updated in place. */
  class Queue {
    var jobs: seq<string>
    var failed: seq<string>
    var log: seq<Event>

    ghost function Snapshot(): State
      reads this
    {
      State(jobs, failed, log)
    }

    constructor (jobs: seq<string>, failed: seq<string>)
      ensures Snapshot() == State(jobs, failed, [])
    {
      this.jobs := jobs;
      this.failed := failed;
      log := [];
    }

    /** One pass through the body of `run`'s loop. */
    method Step(env: Env)
      modifies this
      ensures Snapshot() == Next(old(Snapshot()), env)
    {
      jobs := env.pushed + jobs;
      Try(env);
    }

    /** The body of `run`'s loop on the `jobs` list as it now stands. */
    method Try(env: Env)
      modifies this
      ensures Snapshot() == Attempt(old(Snapshot()), env)
    {
      match env.connect {
        case Err(e) =>
          log := log + [CouldNotConnect(e)];
        case Ok(_) =>
          match env.dequeue {
            case Err(e) =>
              log := log + [CouldNotGet(e)];
            case Ok(_) =>
              var msg: Option<string> := None;
              if |jobs| > 0 {
                msg := Some(jobs[|jobs| - 1]);
                jobs := jobs[..|jobs| - 1];
                failed := [msg.value] + failed;
              }
              if msg == Some(RunAll) {
                log := log + [Running(RunAll)];
                match env.run {
                  case Ok(_) => log := log + [Finished];
                  case Err(e) => log := log + [CouldNotRun(e)];
                }
              }
              match env.delete {
                case Ok(_) => failed := [];
                case Err(e) => log := log + [CouldNotClear(e)];
              }
          }
      }
    }

    /** `run`, cut off after the iterations of `script`. */
    method Run(script: seq<Env>)
      modifies this
      ensures Snapshot() == Iterate(old(Snapshot()), script)
    {
      var i := 0;
      while i < |script|
        invariant 0 <= i <= |script|
        invariant Snapshot() == Iterate(old(Snapshot()), script[..i])
      {
        assert script[..i + 1][..i] == script[..i];
        Step(script[i]);
        i := i + 1;
      }
      assert script[..i] == script;
    }
  }

  /** Without a connection nothing is dequeued; the failure is logged. */
  lemma ConnectFailureChangesNothing(s: State, env: Env)
    requires env.connect.Err?
    ensures Next(s, env).jobs == env.pushed + s.jobs && Next(s, env).failed == s.failed
    ensures Next(s, env).log == s.log + [CouldNotConnect(env.connect.error)]
  {
  }

  /** A dequeue error skips the delete and changes neither list. */
  lemma DequeueFailureSkipsDelete(s: State, env: Env)
    requires env.connect.Ok? && env.dequeue.Err?
    ensures Next(s, env).jobs == env.pushed + s.jobs && Next(s, env).failed == s.failed
    ensures Next(s, env).log == s.log + [CouldNotGet(env.dequeue.error)]
  {
  }

  /**
   * A dequeue moves the tail of `jobs` in front of `failed`, where it stays
   * only when the delete fails.
   */
  lemma DequeueMovesJob(s: State, env: Env)
    requires env.connect.Ok? && env.dequeue.Ok? && |Waiting(s, env)| > 0
    ensures var w := Waiting(s, env);
      && Next(s, env).jobs == w[..|w| - 1]
      && (env.delete.Err? ==> Next(s, env).failed == [w[|w| - 1]] + s.failed)
      && (env.delete.Ok? ==> Next(s, env).failed == [])
  {
  }

  /**
   * After every successful dequeue call the failed list is gone when the
   * delete succeeds, whether or not a job arrived and whatever the run did.
   */
  lemma FailedClearedAfterDequeue(s: State, env: Env)
    requires env.connect.Ok? && env.dequeue.Ok? && env.delete.Ok?
    ensures Next(s, env).failed == []
  {
  }

  /** The aggregator runs exactly when the dequeued payload is `run:all`. */
  lemma RunsOnlyForRunAll(s: State, env: Env)
    requires env.connect.Ok? && env.dequeue.Ok?
    ensures Running(RunAll) in Next(s, env).log[|s.log|..] <==> Dequeued(Waiting(s, env)) == Some(RunAll)
  {
    var tail := Next(s, env).log[|s.log|..];
    var events := RunEvents(Dequeued(Waiting(s, env)), env.run);
    assert tail == events + (if env.delete.Ok? then [] else [CouldNotClear(env.delete.error)]);
  }

  /**
   * A job whose run fails is deleted with the failed list all the same: it
   * is in neither list afterwards, and the loop goes on.
   */
  lemma FailedRunIsDropped(s: State, env: Env)
    requires env.connect.Ok? && env.dequeue.Ok? && env.run.Err? && env.delete.Ok?
    requires var w := Waiting(s, env); Dequeued(w) == Some(RunAll) && RunAll !in w[..|w| - 1]
    ensures RunAll !in Next(s, env).jobs + Next(s, env).failed
    ensures CouldNotRun(env.run.error) in Next(s, env).log
  {
    assert Next(s, env).log == s.log + [Running(RunAll), CouldNotRun(env.run.error)];
  }

  /**
   * No job is made up: one iteration keeps every job it found in a list,
   * except that a successful delete drops the failed list, which is returned.
   */
  lemma StepConservesJobs(s: State, env: Env) returns (dropped: seq<string>)
    ensures multiset(Next(s, env).jobs) + multiset(Next(s, env).failed) + multiset(dropped) ==
            multiset(env.pushed) + multiset(s.jobs) + multiset(s.failed)
  {
    dropped := [];
    var w := Waiting(s, env);
    assert multiset(w) == multiset(env.pushed) + multiset(s.jobs);
    if env.connect.Ok? && env.dequeue.Ok? {
      var msg := Dequeued(w);
      var failed := if msg.Some? then [msg.value] + s.failed else s.failed;
      if env.delete.Ok? {
        dropped := failed;
      }
    }
  }

  /**
   * Jobs are taken oldest first: after any run the remaining jobs are a
   * prefix of everything that was ever in the queue (the pushes, newest
   * first, in front of the original jobs), and each iteration takes at most
   * one job.
   */
  lemma {:induction false} IterateTakesFromTail(s: State, script: seq<Env>)
    ensures |Pushed(script) + s.jobs| - |script| <= |Iterate(s, script).jobs| <= |Pushed(script) + s.jobs|
    ensures Iterate(s, script).jobs == (Pushed(script) + s.jobs)[..|Iterate(s, script).jobs|]
    decreases |script|
  {
    if |script| > 0 {
      var n := |script| - 1;
      IterateTakesFromTail(s, script[..n]);
      var mid := Iterate(s, script[..n]);
      var all := Pushed(script[..n]) + s.jobs;
      StepKeepsPrefix(mid, script[n], all, n);
      assert Pushed(script) + s.jobs == script[n].pushed + all;
    } else {
      assert s.jobs[..|s.jobs|] == s.jobs;
    }
  }

  /** One iteration keeps the remaining jobs a prefix of everything queued, taking at most one. */
  lemma StepKeepsPrefix(mid: State, env: Env, all: seq<string>, k: nat)
    requires |mid.jobs| <= |all| && mid.jobs == all[..|mid.jobs|] && |all| - k <= |mid.jobs|
    ensures var after := Next(mid, env).jobs;
      && |env.pushed + all| - (k + 1) <= |after| <= |env.pushed + all|
      && after == (env.pushed + all)[..|after|]
  {
    NextTakesAtMostOne(mid, env);
    PrefixUnderPush(env.pushed, all, mid.jobs, |Next(mid, env).jobs|);
  }

  /** One iteration leaves the jobs it found, or all of them but the tail. */
  lemma NextTakesAtMostOne(s: State, env: Env)
    ensures var w := Waiting(s, env);
      Next(s, env).jobs == w || (|w| > 0 && Next(s, env).jobs == w[..|w| - 1])
  {
  }

  /** A prefix of `all` with `p` pushed in front, cut anywhere, is a prefix of `p + all`. */
  lemma PrefixUnderPush(p: seq<string>, all: seq<string>, jobs: seq<string>, k: nat)
    requires |jobs| <= |all| && jobs == all[..|jobs|]
    requires k <= |p + jobs|
    ensures (p + jobs)[..k] == (p + all)[..k]
  {
    assert p + jobs == (p + all)[..|p| + |jobs|];
  }

  /**
   * Every iteration that connects and dequeues takes one job while there
   * are some: with at least as many jobs as iterations, each takes one; with
   * no other client pushing, the queue is drained down to empty.
   */
  lemma {:induction false} IterateDrains(s: State, script: seq<Env>)
    requires forall i :: 0 <= i < |script| ==> script[i].connect.Ok? && script[i].dequeue.Ok?
    ensures |s.jobs| >= |script| ==> |Iterate(s, script).jobs| == |s.jobs| + |Pushed(script)| - |script|
    ensures Pushed(script) == [] ==>
      |Iterate(s, script).jobs| == if |s.jobs| >= |script| then |s.jobs| - |script| else 0
    decreases |script|
  {
    if |script| > 0 {
      var n := |script| - 1;
      IterateDrains(s, script[..n]);
      assert |Pushed(script)| == |script[n].pushed| + |Pushed(script[..n])|;
    }
  }
}
