/** What each event does to the registered tasks, their cron jobs and the pending
    startup timers, and what the startup loop begins. */
module HousekeeperRegistry {
  import opened Basics
  import opened Housekeeper
  import opened HousekeeperRuns

  ghost predicate Listed(s: State, name: Name) { exists t <- s.tasks :: t.name == name }

  lemma FindIff(tasks: seq<Task>, name: Name)
    ensures Find(tasks, name).Some? <==> exists t <- tasks :: t.name == name
  {}

  /** The task stands for the same name with the same startup run. */
  ghost predicate Stays(was: Task, t: Task) { t.name == was.name && t.startup == was.startup }

  /** Every task of the first list stays in the second. */
  ghost predicate AllStay(from: seq<Task>, to: seq<Task>) {
    forall was <- from :: exists t <- to :: Stays(was, t)
  }

  /** The tasks are those registered before, with the one registered now under a new
      name, without the one unregistered now, and none at the end of a shutdown. */
  lemma TasksMean(s: State, e: Event)
    requires Inv(s) && Enabled(s, e)
    ensures var t := Step(s, e);
      match e
      case Register(name, _, startup) =>
        if Listed(s, name) then t.tasks == s.tasks
        else |t.tasks| == |s.tasks| + 1 && Init(t.tasks) == s.tasks && Last(t.tasks).name == name && Last(t.tasks).startup == startup
      case Unregister(name) => forall task :: task in t.tasks <==> task in s.tasks && task.name != name
      case ShutdownStarts => |t.tasks| == |s.tasks| && AllStay(s.tasks, t.tasks) && AllStay(t.tasks, s.tasks)
      case ShutdownEnds => t.tasks == []
      case _ => t.tasks == s.tasks
  {
    if OfRegistry(e) {
      match e
      case Register(n, cron, startup) =>
        FindIff(s.tasks, n);
        hide Inv, Find;
      case Unregister(n) =>
        DroppedAmong(s.tasks, n);
        FindIff(s.tasks, n);
        hide Inv, Find, Dropped;
      case ShutdownStarts =>
        StoppedStay(s.tasks);
        hide Inv, AllStay;
      case _ => hide Inv, Find;
    } else {
      OthersLeaveJobs(s, e);
      hide Inv, Step;
    }
  }

  lemma StoppedStay(tasks: seq<Task>)
    ensures AllStay(tasks, Stopped(tasks)) && AllStay(Stopped(tasks), tasks)
  {
    forall was | was in tasks
      ensures exists t <- Stopped(tasks) :: Stays(was, t)
    {
      var i :| 0 <= i < |tasks| && tasks[i] == was;
      assert Stopped(tasks)[i] in Stopped(tasks) && Stays(was, Stopped(tasks)[i]);
    }
    forall t | t in Stopped(tasks)
      ensures exists was <- tasks :: Stays(t, was)
    {
      var i :| 0 <= i < |tasks| && Stopped(tasks)[i] == t;
      assert tasks[i] in tasks && Stays(t, tasks[i]);
    }
  }

  predicate Ticks(s: State, j: nat) { j in s.jobs && s.jobs[j].ticking }

  /** A job ticks from its registration on, until it is toggled off, or its task is
      unregistered or listed when a shutdown begins; a toggle sets it as it was told,
      once its write is done. */
  lemma JobTicksIff(s: State, e: Event, j: nat)
    requires Inv(s) && Enabled(s, e)
    ensures Ticks(Step(s, e), j) <==>
      match e
      case Register(name, cron, _) => Ticks(s, j) || (cron && !Listed(s, name) && j == s.next)
      case Unregister(name) => Ticks(s, j) && !exists t <- s.tasks :: t.name == name && t.job == Some(j)
      case ToggleReturns(t, ok) =>
        if ok && s.toggles[t].job == Some(j) then j in s.jobs && s.toggles[t].on else Ticks(s, j)
      case ShutdownStarts => Ticks(s, j) && !exists t <- s.tasks :: t.job == Some(j)
      case _ => Ticks(s, j)
    ensures e.Register? && e.cron && !Listed(s, e.name) ==>
      && s.next in Step(s, e).jobs && Step(s, e).jobs[s.next].name == e.name
      && exists t <- Step(s, e).tasks :: t.name == e.name && t.job == Some(s.next)
  {
    if OfRegistry(e) {
      match e
      case Register(n, cron, startup) =>
        FindIff(s.tasks, n);
        assert s.next !in s.jobs;
        var t := Task(n, if cron then Some(s.next) else None, startup);
        assert t in s.tasks + [t];
        hide Inv, Find;
      case Unregister(n) =>
        JobOfName(s, n);
        FindIff(s.tasks, n);
        hide Inv, Find, Dropped;
      case ShutdownStarts =>
        assert j in JobsOf(s.tasks) <==> exists t <- s.tasks :: t.job == Some(j);
        hide Inv, Find, JobsOf, Stopped;
      case _ => hide Inv, Find;
    } else {
      OthersLeaveJobs(s, e);
      hide Inv, Step;
    }
  }

  /** A registered name has one task. */
  lemma JobOfName(s: State, name: Name)
    requires Inv(s)
    ensures forall t <- s.tasks :: t.name == name ==> Find(s.tasks, name) == Some(t)
  {
    forall t | t in s.tasks && t.name == name
      ensures Find(s.tasks, name) == Some(t)
    {
      var found := Find(s.tasks, name).value;
      var i :| 0 <= i < |s.tasks| && s.tasks[i] == t;
      var k :| 0 <= k < |s.tasks| && s.tasks[k] == found;
      hide Find;
    }
  }

  /** A toggle under way is for the job its task had when it began. */
  lemma ToggleKeepsJob(s: State, name: Name, on: bool)
    requires Inv(s)
    ensures var t := Step(s, ToggleStarts(name, on));
      && (!Listed(s, name) ==> t == s)
      && forall task <- s.tasks :: task.name == name ==> t.toggles == s.toggles[s.next := Toggle(task.job, on)]
  {
    JobOfName(s, name);
    FindIff(s.tasks, name);
    hide Find, Inv;
  }

  // --------------------------------------------------------------- startup timers

  /** How many of the tasks wait for their startup run under this name. */
  ghost function Waiting(tasks: seq<Task>, name: Name): nat {
    |set i | 0 <= i < |tasks| && tasks[i].name == name && tasks[i].startup.After?|
  }

  ghost function Times(names: seq<Name>, name: Name): nat { multiset(names)[name] }

  lemma {:induction false} ElapseTakesOne(delayed: seq<Name>, n: Name, name: Name)
    requires n in delayed
    ensures Times(Elapse(delayed, n), name) == Times(delayed, name) - if n == name then 1 else 0
  {
    assert delayed == [delayed[0]] + delayed[1..];
    if delayed[0] != n { ElapseTakesOne(delayed[1..], n, name); }
  }

  lemma {:induction false} StartAllDelays(s: State, tasks: seq<Task>, name: Name)
    ensures Times(StartAll(s, tasks).delayed, name) == Times(s.delayed, name) + Waiting(tasks, name)
  {
    if tasks == [] {
      NoneWaits(name);
    } else {
      StartAllDelays(s, Init(tasks), name);
      WaitingSnoc(tasks, name);
      hide Waiting;
    }
  }

  lemma NoneWaits(name: Name)
    ensures Waiting([], name) == 0
  {
    var none: seq<Task> := [];
    assert (set i | 0 <= i < |none| && none[i].name == name && none[i].startup.After?) == {};
  }

  lemma WaitingSnoc(tasks: seq<Task>, name: Name)
    requires tasks != []
    ensures Waiting(tasks, name)
         == Waiting(Init(tasks), name) + if Last(tasks).name == name && Last(tasks).startup.After? then 1 else 0
  {
    var n, earlier := |tasks| - 1, Init(tasks);
    var before := set i | 0 <= i < |earlier| && earlier[i].name == name && earlier[i].startup.After?;
    var here := if tasks[n].name == name && tasks[n].startup.After? then {n} else {};
    assert (set i | 0 <= i < |tasks| && tasks[i].name == name && tasks[i].startup.After?) == before + here;
  }

  /** A startup timer is set for each delayed task by the startup loop, elapses once,
      and is cleared by a shutdown. */
  lemma TimersMean(s: State, e: Event, name: Name)
    requires Inv(s) && Enabled(s, e)
    ensures Times(Step(s, e).delayed, name) ==
      match e
      case StartupRuns => Times(s.delayed, name) + Waiting(s.tasks, name)
      case TimerElapses(n) => Times(s.delayed, name) - (if n == name then 1 else 0)
      case ShutdownStarts => 0
      case _ => Times(s.delayed, name)
  {
    if OfRegistry(e) {
      hide Inv;
    } else {
      match e
      case StartupRuns => StartAllDelays(s, s.tasks, name);
      case TimerElapses(n) =>
        ElapseTakesOne(s.delayed, n, name);
        BeginLeavesJobs(s.(delayed := Elapse(s.delayed, n)), n, AtStartup);
      case _ =>
        OthersLeaveJobs(s, e);
        hide Step, Inv;
    }
  }

  lemma {:induction false} StartAllRuns(s: State, tasks: seq<Task>, name: Name)
    ensures name in StartAll(s, tasks).running <==>
      name in s.running || exists t <- tasks :: t.name == name && t.startup == Immediately
  {
    if tasks != [] {
      StartAllRuns(s, Init(tasks), name);
      assert tasks == Init(tasks) + [Last(tasks)];
    }
  }

  /** A name comes to be running exactly by a trigger of its own: a tick, an elapsed
      timer, a manual run of a registered task, or the startup loop if its task is to
      run at once. */
  lemma RunningMeans(s: State, e: Event, name: Name)
    requires Inv(s) && Enabled(s, e)
    ensures name in Step(s, e).running && name !in s.running <==>
      name !in s.running &&
      match e
      case CronTicks(j) => s.jobs[j].name == name
      case TimerElapses(n) => n == name
      case RunManually(n) => n == name && Listed(s, name)
      case StartupRuns => exists t <- s.tasks :: t.name == name && t.startup == Immediately
      case _ => false
  {
    if OfRegistry(e) {
      RegistryAside(s, e);
      hide Step, Inv;
    } else {
      hide Inv;
      match e
      case StartupRuns => StartAllRuns(s, s.tasks, name);
      case RunManually(n) => FindIff(s.tasks, n);
      case _ => hide Write, StartAll, Find;
    }
  }
}
