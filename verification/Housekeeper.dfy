/** The housekeeper (housekeeper/src/housekeeper.ts): tasks with cron jobs, startup
    runs and manual triggers, and one table row per run. Each await of `runTask`
    is a point where anything else may happen; a suspended call is an activation. */
module Housekeeper {
  import opened Basics

  type Name = string

  datatype Startup = Never | Immediately | After(delay: nat)

  /** A registered task, with its cron job if it has one. */
  datatype Task = Task(name: Name, job: Option<nat>, startup: Startup)

  /** A cron job calls `runTask` for the task it was made for, whether or not that is
      still registered. Stopping and deleting a job takes it out of `jobs`. */
  datatype Job = Job(name: Name, ticking: bool)

  /** A call of `toggleTask` that awaits its write, with the job of its task. */
  datatype Toggle = Toggle(job: Option<nat>, on: bool)

  datatype Status = Running | Success | Error
  datatype Trigger = Scheduler | Manual | AtStartup

  /** A row of housekeeper_runs with every status it has had. */
  datatype Row = Row(task: Name, trigger: Trigger, history: seq<Status>)

  /** Where a call of `runTask` is suspended. */
  datatype Phase = Inserting | InBody(row: nat) | Succeeding(row: nat) | Failing(row: nat)
  datatype Activation = Activation(task: Name, trigger: Trigger, phase: Phase)

  /** How the database answers a write: done, refused, or done but reported as failed. */
  datatype Answer = Done | Refused | DoneButThrows

  /** How a task's body ends: well, rejecting with an error, or rejecting with nothing
      (or with another value whose message the catch clause fails to put into text). */
  datatype Outcome = Resolved | Failed | Bare

  /** `stopping` counts the shutdowns that wait for running tasks. */
  datatype State = State(
    tasks: seq<Task>,
    jobs: map<nat, Job>,
    toggles: map<nat, Toggle>,
    stopping: nat,
    delayed: seq<Name>,
    running: set<Name>,
    calls: map<nat, Activation>,
    rows: map<nat, Row>,
    next: nat)

  const EMPTY: State := State([], map[], map[], 0, [], {}, map[], map[], 0)

  // ------------------------------------------------------------------- registry

  function Find(tasks: seq<Task>, name: Name): (found: Option<Task>)
    ensures found.Some? ==> found.value in tasks && found.value.name == name
    ensures found.None? ==> forall t <- tasks :: t.name != name
  {
    if tasks == [] then None
    else if Last(tasks).name == name then Some(Last(tasks))
    else Find(Init(tasks), name)
  }

  function Dropped(tasks: seq<Task>, name: Name): seq<Task> {
    if tasks == [] then []
    else Dropped(Init(tasks), name) + (if Last(tasks).name == name then [] else [Last(tasks)])
  }

  function Stopped(tasks: seq<Task>): seq<Task> {
    seq(|tasks|, i requires 0 <= i < |tasks| => tasks[i].(job := None))
  }

  function JobsOf(tasks: seq<Task>): set<nat> { set t | t in tasks && t.job.Some? :: t.job.value }

  /** A timeout's call: the first occurrence of the name leaves the list. */
  function Elapse(delayed: seq<Name>, name: Name): seq<Name> {
    if delayed == [] then [] else if delayed[0] == name then delayed[1..] else [delayed[0]] + Elapse(delayed[1..], name)
  }

  // ----------------------------------------------------------------------- calls

  /** The start of `runTask`, up to the insert it awaits. */
  function Begin(s: State, name: Name, trigger: Trigger): State {
    if name in s.running then s
    else s.(running := s.running + {name},
            calls := s.calls[s.next := Activation(name, trigger, Inserting)],
            next := s.next + 1)
  }

  function Finish(s: State, c: nat): State
    requires c in s.calls
  {
    s.(running := s.running - {s.calls[c].task}, calls := s.calls - {c})
  }

  function Insert(s: State, c: nat, answer: Answer): State
    requires c in s.calls
  {
    var a := s.calls[c];
    var written :=
      if answer == Refused then s
      else s.(rows := s.rows[s.next := Row(a.task, a.trigger, [Running])], next := s.next + 1);
    if answer == Done then written.(calls := s.calls[c := a.(phase := InBody(s.next))]) else Finish(written, c)
  }

  /** After a rejection with nothing the call ends without any further write. */
  function BodyEnds(s: State, c: nat, outcome: Outcome): State
    requires c in s.calls && s.calls[c].phase.InBody?
  {
    var a := s.calls[c];
    match outcome
    case Resolved => s.(calls := s.calls[c := a.(phase := Succeeding(a.phase.row))])
    case Failed => s.(calls := s.calls[c := a.(phase := Failing(a.phase.row))])
    case Bare => Finish(s, c)
  }

  /** An UPDATE of a row that is there; one that is gone is not affected. */
  function Write(rows: map<nat, Row>, r: nat, status: Status): map<nat, Row> {
    if r in rows then rows[r := rows[r].(history := rows[r].history + [status])] else rows
  }

  /** The UPDATE to success; if it throws, the catch clause goes on to write an error. */
  function WriteSuccess(s: State, c: nat, answer: Answer): State
    requires c in s.calls && s.calls[c].phase.Succeeding?
  {
    var a := s.calls[c];
    var written := if answer == Refused then s else s.(rows := Write(s.rows, a.phase.row, Success));
    if answer == Done then Finish(written, c) else written.(calls := s.calls[c := a.(phase := Failing(a.phase.row))])
  }

  function WriteError(s: State, c: nat, answer: Answer): State
    requires c in s.calls && s.calls[c].phase.Failing?
  {
    var written := if answer == Refused then s else s.(rows := Write(s.rows, s.calls[c].phase.row, Error));
    Finish(written, c)
  }

  // ---------------------------------------------------------------------- events

  /** `cron` says that a schedule is given and can be read. */
  function RegisterTask(s: State, name: Name, cron: bool, startup: Startup): State {
    if Find(s.tasks, name).Some? then s
    else if cron then
      s.(tasks := s.tasks + [Task(name, Some(s.next), startup)],
         jobs := s.jobs[s.next := Job(name, true)],
         next := s.next + 1)
    else s.(tasks := s.tasks + [Task(name, None, startup)])
  }

  function UnregisterTask(s: State, name: Name): State {
    var t := Find(s.tasks, name);
    if t.None? then s
    else s.(tasks := Dropped(s.tasks, name), jobs := if t.value.job.Some? then s.jobs - {t.value.job.value} else s.jobs)
  }

  /** `toggleTask` up to the write it awaits. */
  function ToggleBegins(s: State, name: Name, on: bool): State {
    var t := Find(s.tasks, name);
    if t.None? then s else s.(toggles := s.toggles[s.next := Toggle(t.value.job, on)], next := s.next + 1)
  }

  /** The rest of it: the job is set if the task still has it. */
  function ToggleEnds(s: State, t: nat, ok: bool): State
    requires t in s.toggles
  {
    var toggle := s.toggles[t];
    var left := s.(toggles := s.toggles - {t});
    if ok && toggle.job.Some? && toggle.job.value in s.jobs
    then left.(jobs := s.jobs[toggle.job.value := s.jobs[toggle.job.value].(ticking := toggle.on)])
    else left
  }

  /** The startup loop of `initialize` over the registered tasks, in order. */
  function StartAll(s: State, tasks: seq<Task>): State {
    if tasks == [] then s
    else
      var before, t := StartAll(s, Init(tasks)), Last(tasks);
      match t.startup
      case Never => before
      case Immediately => Begin(before, t.name, AtStartup)
      case After(_) => before.(delayed := before.delayed + [t.name])
  }

  /** `shutdown` up to its wait: the jobs of listed tasks go, and all startup timers. */
  function ShutdownBegins(s: State): State {
    s.(tasks := Stopped(s.tasks), jobs := s.jobs - JobsOf(s.tasks), delayed := [], stopping := s.stopping + 1)
  }

  /** After the wait the list is cleared. Nothing is stopped then. */
  function ShutdownFinishes(s: State): State
    requires s.stopping > 0
  {
    s.(tasks := [], stopping := s.stopping - 1)
  }

  datatype Event =
    | Register(name: Name, cron: bool, startup: Startup)
    | Unregister(name: Name)
    | ToggleStarts(name: Name, on: bool)
    | ToggleReturns(toggle: nat, ok: bool)
    | StartupRuns
    | CronTicks(job: nat)
    | TimerElapses(name: Name)
    | RunManually(name: Name)
    | InsertReturns(call: nat, answer: Answer)
    | BodyReturns(call: nat, outcome: Outcome)
    | SuccessReturns(call: nat, answer: Answer)
    | ErrorReturns(call: nat, answer: Answer)
    | ShutdownStarts
    | ShutdownEnds

  /** Which events can happen. */
  predicate Enabled(s: State, e: Event) {
    match e
    case ToggleReturns(t, _) => t in s.toggles
    case CronTicks(j) => j in s.jobs && s.jobs[j].ticking
    case TimerElapses(name) => name in s.delayed
    case InsertReturns(c, _) => c in s.calls && s.calls[c].phase.Inserting?
    case BodyReturns(c, _) => c in s.calls && s.calls[c].phase.InBody?
    case SuccessReturns(c, _) => c in s.calls && s.calls[c].phase.Succeeding?
    case ErrorReturns(c, _) => c in s.calls && s.calls[c].phase.Failing?
    case ShutdownEnds => s.stopping > 0
    case _ => true
  }

  function Step(s: State, e: Event): State
    requires Enabled(s, e)
  {
    match e
    case Register(name, cron, startup) => RegisterTask(s, name, cron, startup)
    case Unregister(name) => UnregisterTask(s, name)
    case ToggleStarts(name, on) => ToggleBegins(s, name, on)
    case ToggleReturns(t, ok) => ToggleEnds(s, t, ok)
    case StartupRuns => StartAll(s, s.tasks)
    case CronTicks(j) => Begin(s, s.jobs[j].name, Scheduler)
    case TimerElapses(name) => Begin(s.(delayed := Elapse(s.delayed, name)), name, AtStartup)
    case RunManually(name) => if Find(s.tasks, name).Some? then Begin(s, name, Manual) else s
    case InsertReturns(c, answer) => Insert(s, c, answer)
    case BodyReturns(c, outcome) => BodyEnds(s, c, outcome)
    case SuccessReturns(c, answer) => WriteSuccess(s, c, answer)
    case ErrorReturns(c, answer) => WriteError(s, c, answer)
    case ShutdownStarts => ShutdownBegins(s)
    case ShutdownEnds => ShutdownFinishes(s)
  }

  // ------------------------------------------------------------------ the object

  /** The closures of `createHousekeeper` over its variables. */
  class TaskRunner {
    var tasks: seq<Task>
    var jobs: map<nat, Job>
    var toggles: map<nat, Toggle>
    var stopping: nat
    var delayedStartupTasks: seq<Name>
    var runningTasks: set<Name>
    var calls: map<nat, Activation>
    var rows: map<nat, Row>
    var next: nat
    const enabled: bool

    constructor (enabled: bool)
      ensures Contents() == EMPTY && this.enabled == enabled
    {
      tasks, jobs, toggles, stopping := [], map[], map[], 0;
      delayedStartupTasks, runningTasks, calls, rows, next := [], {}, map[], map[], 0;
      this.enabled := enabled;
    }

    function Contents(): State
      reads this
    {
      State(tasks, jobs, toggles, stopping, delayedStartupTasks, runningTasks, calls, rows, next)
    }

    method RegisterOne(name: Name, cron: bool, startup: Startup)
      modifies this
      ensures Contents() == if enabled then RegisterTask(old(Contents()), name, cron, startup) else old(Contents())
    {
      if !enabled || Find(tasks, name).Some? {
        return;
      }
      var job := None;
      if cron {
        job := Some(next);
        jobs := jobs[next := Job(name, true)];
        next := next + 1;
      }
      tasks := tasks + [Task(name, job, startup)];
    }

    method UnregisterOne(name: Name)
      modifies this
      ensures Contents() == UnregisterTask(old(Contents()), name)
    {
      var task := Find(tasks, name);
      if task.None? {
        return;
      }
      if task.value.job.Some? { jobs := jobs - {task.value.job.value}; }
      var kept := [];
      for i := 0 to |tasks|
        invariant Contents() == old(Contents()).(jobs := jobs)
        invariant jobs == UnregisterTask(old(Contents()), name).jobs
        invariant kept == Dropped(tasks[..i], name)
      {
        assert Init(tasks[..i + 1]) == tasks[..i];
        if tasks[i].name != name { kept := kept + [tasks[i]]; }
      }
      assert tasks[..|tasks|] == tasks;
      tasks := kept;
    }

    /** Throws for a name that is not registered. */
    method BeginToggle(name: Name, on: bool) returns (found: bool)
      modifies this
      ensures Contents() == ToggleBegins(old(Contents()), name, on)
      ensures found == Find(old(tasks), name).Some?
    {
      var task := Find(tasks, name);
      found := task.Some?;
      if found {
        toggles := toggles[next := Toggle(task.value.job, on)];
        next := next + 1;
      }
    }

    method ResumeToggle(t: nat, ok: bool)
      requires t in toggles
      modifies this
      ensures Contents() == ToggleEnds(old(Contents()), t, ok)
    {
      var toggle := toggles[t];
      toggles := toggles - {t};
      if ok && toggle.job.Some? && toggle.job.value in jobs {
        jobs := jobs[toggle.job.value := jobs[toggle.job.value].(ticking := toggle.on)];
      }
    }

    /** The part of `runTask` before its first await; says whether it went ahead. */
    method RunTask(name: Name, trigger: Trigger) returns (began: bool)
      modifies this
      ensures Contents() == Begin(old(Contents()), name, trigger)
      ensures began == (name !in old(runningTasks))
    {
      if name in runningTasks {
        return false;
      }
      runningTasks := runningTasks + {name};
      calls := calls[next := Activation(name, trigger, Inserting)];
      next := next + 1;
      return true;
    }

    /** Throws for a name that is not registered. */
    method RunTaskManually(name: Name) returns (found: bool)
      modifies this
      ensures Contents() == Step(old(Contents()), RunManually(name))
      ensures found == Find(old(tasks), name).Some?
    {
      found := Find(tasks, name).Some?;
      if found { var _ := RunTask(name, Manual); }
    }

    /** The startup loop of `initialize`. */
    method RunStartupTasks()
      modifies this
      ensures Contents() == StartAll(old(Contents()), old(tasks))
    {
      for i := 0 to |tasks|
        invariant tasks == old(tasks)
        invariant Contents() == StartAll(old(Contents()), tasks[..i])
      {
        assert Init(tasks[..i + 1]) == tasks[..i];
        match tasks[i].startup
        case Never =>
        case Immediately => var _ := RunTask(tasks[i].name, AtStartup);
        case After(_) => delayedStartupTasks := delayedStartupTasks + [tasks[i].name];
      }
      assert tasks[..|tasks|] == tasks;
    }

    /** The `finally` clause. */
    method Leave(c: nat)
      requires c in calls
      modifies this
      ensures Contents() == Finish(old(Contents()), c)
    {
      runningTasks := runningTasks - {calls[c].task};
      calls := calls - {c};
    }

    method ResumeAfterInsert(c: nat, answer: Answer)
      requires c in calls && calls[c].phase.Inserting?
      modifies this
      ensures Contents() == Insert(old(Contents()), c, answer)
    {
      var runId := None;
      if answer != Refused {
        rows := rows[next := Row(calls[c].task, calls[c].trigger, [Running])];
        if answer == Done { runId := Some(next); }
        next := next + 1;
      }
      if runId.Some? {
        calls := calls[c := calls[c].(phase := InBody(runId.value))];
      } else {
        Leave(c);
      }
    }

    method ResumeAfterBody(c: nat, outcome: Outcome)
      requires c in calls && calls[c].phase.InBody?
      modifies this
      ensures Contents() == BodyEnds(old(Contents()), c, outcome)
    {
      var runId := calls[c].phase.row;
      match outcome
      case Resolved => calls := calls[c := calls[c].(phase := Succeeding(runId))];
      case Failed => calls := calls[c := calls[c].(phase := Failing(runId))];
      case Bare => Leave(c);
    }

    method ResumeAfterSuccess(c: nat, answer: Answer)
      requires c in calls && calls[c].phase.Succeeding?
      modifies this
      ensures Contents() == WriteSuccess(old(Contents()), c, answer)
    {
      var runId := calls[c].phase.row;
      if answer != Refused { rows := Write(rows, runId, Success); }
      if answer == Done {
        Leave(c);
      } else {
        calls := calls[c := calls[c].(phase := Failing(runId))];
      }
    }

    method ResumeAfterError(c: nat, answer: Answer)
      requires c in calls && calls[c].phase.Failing?
      modifies this
      ensures Contents() == WriteError(old(Contents()), c, answer)
    {
      if answer != Refused { rows := Write(rows, calls[c].phase.row, Error); }
      Leave(c);
    }

    /** `shutdown` up to its wait: jobs stopped and deleted, timers cleared. */
    method Shutdown()
      modifies this
      ensures Contents() == ShutdownBegins(old(Contents()))
    {
      var stopped := [];
      for i := 0 to |tasks|
        invariant Contents() == old(Contents()).(jobs := jobs)
        invariant jobs == old(jobs) - JobsOf(tasks[..i])
        invariant stopped == Stopped(tasks[..i])
      {
        var task := tasks[i];
        assert tasks[..i + 1] == tasks[..i] + [task];
        assert JobsOf(tasks[..i + 1]) == JobsOf(tasks[..i]) + if task.job.Some? then {task.job.value} else {};
        if task.job.Some? { jobs := jobs - {task.job.value}; }
        stopped := stopped + [task.(job := None)];
      }
      assert tasks[..|tasks|] == tasks;
      tasks := stopped;
      delayedStartupTasks := [];
      stopping := stopping + 1;
    }

    /** The end of `shutdown`, once no task runs or the wait has timed out. */
    method FinishShutdown()
      requires stopping > 0
      modifies this
      ensures Contents() == ShutdownFinishes(old(Contents()))
    {
      tasks := [];
      stopping := stopping - 1;
    }
  }
}
