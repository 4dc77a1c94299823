/**
 * The process supervisor of helpers/parallel_runner.py.
 *
 * The runner keeps a registry of named processes, each with a restart
 * policy: whether to restart a failed run at all, and an optional limit on
 * restarts. A supervision loop launches the process again and again and,
 * after each run, decides from the exit code and the policy whether to go on.
 * What each launch ends with (an exit code, or an exception while launching
 * or waiting) is an input to the model.
 */
module ParallelRunner {
  import opened Wrappers

  /** How one launch ended: the process's exit code, or an exception. */
  datatype Outcome = Exited(code: int) | Raised

  predicate Failed(o: Outcome)
  {
    o != Exited(0)
  }

  /** autorestart and max_restarts (None for no limit). */
  datatype Policy = Policy(autorestart: bool, maxRestarts: Option<int>)

  /** Why the supervision loop ended, or ScriptEnded if every given outcome was used up while it still ran. */
  datatype Exit = Stopped | Completed | NoRestart | LimitReached | ScriptEnded

  /** What a failed run leaves: the new restart_count and whether the loop must end. */
  datatype Decision = Decision(restartCount: int, stop: Option<Exit>)

  /**
   * The decision after a failed run, the same whether the process exited
   * non-zero or an exception was raised: without autorestart, stop; with a
   * limit, count the restart and stop once the count reaches the limit.
   */
  function AfterFailure(p: Policy, rc: int): (d: Decision)
    ensures !p.autorestart ==> d == Decision(rc, Some(NoRestart))
    ensures p.autorestart && p.maxRestarts.None? ==> d == Decision(rc, None)
    ensures p.autorestart && p.maxRestarts.Some? ==>
      d.restartCount == rc + 1 && (d.stop.Some? <==> rc + 1 >= p.maxRestarts.value)
    ensures d.stop.Some? ==> d.stop.value in {NoRestart, LimitReached}
  {
    if !p.autorestart then Decision(rc, Some(NoRestart))
    else match p.maxRestarts
      case None => Decision(rc, None)
      case Some(m) => Decision(rc + 1, if rc + 1 >= m then Some(LimitReached) else None)
  }

  datatype Supervision = Supervision(launches: nat, restartCount: int, exit: Exit)

  /**
   * _run_process with both running flags set throughout, over the outcomes
   * of successive launches.
   */
  function Supervise(p: Policy, rc: int, outcomes: seq<Outcome>): (s: Supervision)
    ensures s.launches <= |outcomes| && (s.launches == 0 <==> outcomes == [])
    ensures s.exit != Stopped
    ensures s.exit == ScriptEnded ==> s.launches == |outcomes| && forall k :: 0 <= k < |outcomes| ==> Failed(outcomes[k])
    ensures s.exit == Completed <==> (s.launches > 0 && outcomes[s.launches - 1] == Exited(0))
    ensures forall k :: 0 <= k < s.launches - 1 ==> Failed(outcomes[k])
    ensures p.maxRestarts.None? || !p.autorestart ==> s.restartCount == rc
    ensures rc <= s.restartCount <= rc + s.launches
    decreases |outcomes|
  {
    if outcomes == [] then Supervision(0, rc, ScriptEnded)
    else if outcomes[0] == Exited(0) then Supervision(1, rc, Completed)
    else
      var d := AfterFailure(p, rc);
      if d.stop.Some? then Supervision(1, d.restartCount, d.stop.value)
      else
        var s := Supervise(p, d.restartCount, outcomes[1..]);
        Supervision(s.launches + 1, s.restartCount, s.exit)
  }

  function Max(a: int, b: int): int
  {
    if a >= b then a else b
  }

  /**
   * With a limit of m restarts, a process that fails every time is launched
   * max(1, m - rc) times from restart_count rc, and the loop ends at the limit.
   */
  lemma {:induction false} AlwaysFailingLaunches(m: int, rc: int, outcomes: seq<Outcome>)
    requires forall k :: 0 <= k < |outcomes| ==> Failed(outcomes[k])
    requires |outcomes| >= Max(1, m - rc)
    ensures Supervise(Policy(true, Some(m)), rc, outcomes) == Supervision(Max(1, m - rc), Max(rc + 1, m), LimitReached)
    decreases |outcomes|
  {
    if rc + 1 < m {
      AlwaysFailingLaunches(m, rc + 1, outcomes[1..]);
    }
  }

  /**
   * Without a limit, a process that fails every time is launched once per
   * outcome and restart_count never changes.
   */
  lemma {:induction false} UnlimitedKeepsRestarting(rc: int, outcomes: seq<Outcome>)
    requires forall k :: 0 <= k < |outcomes| ==> Failed(outcomes[k])
    ensures Supervise(Policy(true, None), rc, outcomes) == Supervision(|outcomes|, rc, ScriptEnded)
    decreases |outcomes|
  {
    if outcomes != [] {
      UnlimitedKeepsRestarting(rc, outcomes[1..]);
    }
  }

  /** An exception during a launch is handled exactly like a non-zero exit. */
  lemma {:induction false} RaisedLikeFailedExit(p: Policy, rc: int, outcomes: seq<Outcome>, i: nat)
    requires i < |outcomes| && Failed(outcomes[i])
    ensures Supervise(p, rc, outcomes[i := Raised]) == Supervise(p, rc, outcomes)
    decreases |outcomes|
  {
    var o := outcomes[i := Raised];
    if i > 0 {
      assert o[1..] == outcomes[1..][i - 1 := Raised];
      RaisedLikeFailedExit(p, AfterFailure(p, rc).restartCount, outcomes[1..], i - 1);
    } else {
      assert o[1..] == outcomes[1..];
    }
  }

  /** A supervision seen from i launches later. */
  function Resumed(s: Supervision, i: nat): Supervision
  {
    s.(launches := s.launches + i)
  }

  /** A run that exits with code 0 ends supervision with no restart. */
  lemma CleanExitEnds(p: Policy, rc: int, outcomes: seq<Outcome>)
    requires outcomes != [] && outcomes[0] == Exited(0)
    ensures Supervise(p, rc, outcomes) == Supervision(1, rc, Completed)
  {
  }

  /** Without autorestart, the first failure ends supervision. */
  lemma NoAutorestartEnds(maxRestarts: Option<int>, rc: int, outcomes: seq<Outcome>)
    requires outcomes != [] && Failed(outcomes[0])
    ensures Supervise(Policy(false, maxRestarts), rc, outcomes) == Supervision(1, rc, NoRestart)
  {
  }

  /** One registered process (ProcessInfo). */
  class ProcessInfo {
    const name: string
    const command: string
    const policy: Policy
    var restartCount: int
    var running: bool

    constructor (name: string, command: string, autorestart: bool, maxRestarts: Option<int>)
      ensures this.name == name && this.command == command && policy == Policy(autorestart, maxRestarts)
      ensures restartCount == 0 && !running
    {
      this.name := name;
      this.command := command;
      policy := Policy(autorestart, maxRestarts);
      restartCount, running := 0, false;
    }
  }

  class Runner {
    /** The registry, and its names in the order they were added. */
    var processes: map<string, ProcessInfo>
    var names: seq<string>
    var running: bool

    ghost predicate Valid()
      reads this
    {
      (forall n :: n in processes <==> n in names) &&
      (forall a, b :: 0 <= a < b < |names| ==> names[a] != names[b]) &&
      (forall x, y :: x in processes && y in processes && x != y ==> processes[x] != processes[y])
    }

    constructor ()
      ensures Valid() && processes == map[] && names == [] && !running
    {
      processes, names, running := map[], [], false;
    }

    /** add_process: a name already registered is refused and nothing changes. */
    method AddProcess(name: string, command: string, autorestart: bool, maxRestarts: Option<int>) returns (r: Result<(), string>)
      requires Valid()
      modifies this
      ensures Valid() && running == old(running)
      ensures r.Err? <==> name in old(processes)
      ensures r.Err? ==> (r.error == "Process with name '" + name + "' already exists" &&
        processes == old(processes) && names == old(names))
      ensures r.Ok? ==> (names == old(names) + [name] && processes.Keys == old(processes).Keys + {name} &&
        (forall n :: n in old(processes) ==> processes[n] == old(processes)[n]) &&
        fresh(processes[name]) && processes[name].name == name && processes[name].command == command &&
        processes[name].policy == Policy(autorestart, maxRestarts) &&
        processes[name].restartCount == 0 && !processes[name].running)
    {
      if name in processes {
        return Err("Process with name '" + name + "' already exists");
      }
      var info := new ProcessInfo(name, command, autorestart, maxRestarts);
      processes := processes[name := info];
      names := names + [name];
      return Ok(());
    }

    /**
     * _run_process over the outcomes of successive launches. The running
     * flags are read at each turn of the loop; nothing else sets them while
     * it runs.
     */
    method RunProcess(info: ProcessInfo, outcomes: seq<Outcome>) returns (launches: nat, exit: Exit)
      modifies info
      ensures old(running && info.running) ==>
        Supervision(launches, info.restartCount, exit) == Supervise(info.policy, old(info.restartCount), outcomes)
      ensures !old(running && info.running) ==> launches == 0 && exit == Stopped && info.restartCount == old(info.restartCount)
      ensures info.running == (exit == ScriptEnded)
    {
      launches, exit := 0, ScriptEnded;
      ghost var rc0 := info.restartCount;
      var i := 0;
      var done := false;
      while running && info.running && !done && i < |outcomes|
        invariant 0 <= i <= |outcomes| && launches == i
        invariant info.running == old(info.running) && running == old(running)
        invariant done ==> exit in {Completed, NoRestart, LimitReached}
        invariant !done ==> exit == ScriptEnded
        invariant !old(running && info.running) ==> launches == 0 && info.restartCount == rc0
        invariant old(running && info.running) && done ==>
          Supervision(launches, info.restartCount, exit) == Supervise(info.policy, rc0, outcomes)
        invariant old(running && info.running) && !done ==>
          Resumed(Supervise(info.policy, info.restartCount, outcomes[i..]), i) == Supervise(info.policy, rc0, outcomes)
        decreases |outcomes| - i, !done
      {
        assert outcomes[i..][1..] == outcomes[i + 1..];
        var o := outcomes[i];
        launches, i := launches + 1, i + 1;
        if o == Exited(0) {
          exit, done := Completed, true;
        } else if !info.policy.autorestart {
          exit, done := NoRestart, true;
        } else if info.policy.maxRestarts.Some? {
          info.restartCount := info.restartCount + 1;
          if info.restartCount >= info.policy.maxRestarts.value {
            exit, done := LimitReached, true;
          }
        }
      }
      if !(running && info.running) {
        exit := Stopped;
      }
      if exit != ScriptEnded {
        info.running := false;
      }
    }
  
    /**
     * run: with an empty registry nothing starts; otherwise set the runner's
     * flag and every process's flag, as each supervision thread is started.
     */
    method Run() returns (started: bool)
      requires Valid()
      modifies this, processes.Values
      ensures Valid() && processes == old(processes) && names == old(names)
      ensures started <==> |names| > 0
      ensures running == (started || old(running))
      ensures forall n :: n in processes ==>
        processes[n].running == (old(processes[n].running) || started) &&
        processes[n].restartCount == old(processes[n].restartCount)
    {
      if |names| == 0 {
        return false;
      }
      running := true;
      for k := 0 to |names|
        invariant processes == old(processes) && names == old(names) && running
        invariant forall j :: 0 <= j < k ==> processes[names[j]].running
        invariant forall n :: n in processes ==> processes[n].restartCount == old(processes[n].restartCount)
      {
        processes[names[k]].running := true;
      }
      return true;
    }

    /** stop_all: clear the runner's flag and every process's flag. */
    method StopAll()
      requires Valid()
      modifies this, processes.Values
      ensures Valid() && processes == old(processes) && names == old(names)
      ensures !running
      ensures forall n :: n in processes ==>
        !processes[n].running && processes[n].restartCount == old(processes[n].restartCount)
    {
      running := false;
      for k := 0 to |names|
        invariant processes == old(processes) && names == old(names) && !running
        invariant forall j :: 0 <= j < k ==> !processes[names[j]].running
        invariant forall n :: n in processes ==> processes[n].restartCount == old(processes[n].restartCount)
      {
        processes[names[k]].running := false;
      }
    }
  }

}
