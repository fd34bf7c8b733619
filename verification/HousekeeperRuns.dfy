/** What every interleaving of triggers and completions keeps. */
module HousekeeperRuns {
  import opened Basics
  import opened Housekeeper

  // ------------------------------------------------------------------- exclusion

  /** `runningTasks` is the set of names with a call in flight, one call each. */
  ghost predicate Exclusive(s: State) {
    && (forall c <- s.calls :: c < s.next && s.calls[c].task in s.running)
    && (forall c, d | c in s.calls && d in s.calls && s.calls[c].task == s.calls[d].task :: c == d)
    && (forall n <- s.running :: exists c <- s.calls :: s.calls[c].task == n)
  }

  predicate Owns(a: Activation, r: nat) { !a.phase.Inserting? && a.phase.row == r }

  /** Calls past their insert hold rows of their own task, each its own. */
  ghost predicate RowsOwned(s: State) {
    && (forall r <- s.rows :: r < s.next)
    && (forall c <- s.calls :: !s.calls[c].phase.Inserting? ==>
         && s.calls[c].phase.row in s.rows
         && s.rows[s.calls[c].phase.row].task == s.calls[c].task)
    && (forall c, d, r | c in s.calls && d in s.calls && Owns(s.calls[c], r) && Owns(s.calls[d], r) :: c == d)
  }

  /** Names are registered once, and a task's job is made for it. */
  ghost predicate Scheduled(s: State) {
    && (forall j <- s.jobs :: j < s.next)
    && (forall t <- s.toggles :: t < s.next)
    && (forall i, j | 0 <= i < j < |s.tasks| :: s.tasks[i].name != s.tasks[j].name)
    && (forall t <- s.tasks :: t.job.Some? ==> t.job.value in s.jobs && s.jobs[t.job.value].name == t.name)
  }

  ghost predicate Inv(s: State) { Exclusive(s) && RowsOwned(s) && Scheduled(s) }

  lemma BeginKeeps(s: State, name: Name, trigger: Trigger)
    requires Inv(s)
    ensures Inv(Begin(s, name, trigger))
  {
    BeginExclusive(s, name, trigger);
    BeginRowsOwned(s, name, trigger);
    hide Exclusive, RowsOwned;
  }

  lemma BeginRowsOwned(s: State, name: Name, trigger: Trigger)
    requires Exclusive(s) && RowsOwned(s)
    ensures RowsOwned(Begin(s, name, trigger))
  {
    var t := Begin(s, name, trigger);
    assert forall c <- t.calls :: !t.calls[c].phase.Inserting? ==> c in s.calls && t.calls[c] == s.calls[c];
    assert t.rows == s.rows && s.next <= t.next;
    hide Exclusive, Begin;
    forall c, d, r | c in t.calls && d in t.calls && Owns(t.calls[c], r) && Owns(t.calls[d], r)
      ensures c == d
    {
      assert Owns(s.calls[c], r) && Owns(s.calls[d], r);
    }
  }

  lemma BeginExclusive(s: State, name: Name, trigger: Trigger)
    requires Exclusive(s)
    ensures Exclusive(Begin(s, name, trigger))
  {
    var after := Begin(s, name, trigger);
    if name !in s.running {
      assert after.calls[s.next].task == name;
      forall n | n in after.running ensures exists c <- after.calls :: after.calls[c].task == n {
        if n != name {
          var c :| c in s.calls && s.calls[c].task == n;
          assert c in after.calls && after.calls[c].task == n;
        }
      }
    }
  }

  lemma {:induction false} StartAllKeeps(s: State, tasks: seq<Task>)
    requires Inv(s)
    ensures Inv(StartAll(s, tasks))
    ensures var t := StartAll(s, tasks);
      t.tasks == s.tasks && t.jobs == s.jobs && t.toggles == s.toggles && t.stopping == s.stopping
  {
    if tasks != [] {
      StartAllKeeps(s, Init(tasks));
      BeginKeeps(StartAll(s, Init(tasks)), Last(tasks).name, AtStartup);
    }
  }

  lemma FinishKeeps(s: State, c: nat)
    requires Inv(s) && c in s.calls
    ensures Inv(Finish(s, c))
  {
    var after := Finish(s, c);
    forall n | n in after.running ensures exists d <- after.calls :: after.calls[d].task == n {
      var d :| d in s.calls && s.calls[d].task == n;
      assert d in after.calls && after.calls[d].task == n;
    }
  }

  /** A call moves on to another phase, perhaps on a row of its own. */
  lemma MoveKeeps(s: State, c: nat, phase: Phase)
    requires Inv(s) && c in s.calls
    requires !phase.Inserting? ==> phase.row in s.rows && s.rows[phase.row].task == s.calls[c].task
    requires !phase.Inserting? ==> forall d <- s.calls :: Owns(s.calls[d], phase.row) ==> d == c
    ensures Inv(s.(calls := s.calls[c := s.calls[c].(phase := phase)]))
  {
    MoveExclusive(s, c, phase);
    hide Exclusive;
  }

  lemma MoveExclusive(s: State, c: nat, phase: Phase)
    requires Exclusive(s) && c in s.calls
    ensures Exclusive(s.(calls := s.calls[c := s.calls[c].(phase := phase)]))
  {
    var after := s.(calls := s.calls[c := s.calls[c].(phase := phase)]);
    forall n | n in after.running ensures exists d <- after.calls :: after.calls[d].task == n {
      var d :| d in s.calls && s.calls[d].task == n;
      assert d in after.calls && after.calls[d].task == n;
    }
  }

  lemma RowsKeep(s: State, rows: map<nat, Row>, next: nat)
    requires Inv(s) && next >= s.next
    requires forall r <- s.rows :: r in rows && rows[r].task == s.rows[r].task
    requires forall r <- rows :: r < next
    ensures Inv(s.(rows := rows, next := next))
  {}

  lemma StepKeeps(s: State, e: Event)
    requires Inv(s) && Enabled(s, e)
    ensures Inv(Step(s, e))
  {
    hide Inv;
    if OfRegistry(e) {
      RegistryKeeps(s, e);
    } else {
      match e
      case StartupRuns => StartAllKeeps(s, s.tasks);
      case CronTicks(j) => BeginKeeps(s, s.jobs[j].name, Scheduler);
      case TimerElapses(name) =>
        DelayedAside(s, Elapse(s.delayed, name));
        BeginKeeps(s.(delayed := Elapse(s.delayed, name)), name, AtStartup);
      case RunManually(name) => BeginKeeps(s, name, Manual);
      case InsertReturns(c, answer) => InsertKeeps(s, c, answer);
      case BodyReturns(c, outcome) => BodyKeeps(s, c, outcome);
      case SuccessReturns(c, answer) => SuccessKeeps(s, c, answer);
      case ErrorReturns(c, answer) => ErrorKeeps(s, c, answer);
    }
  }

  lemma DelayedAside(s: State, delayed: seq<Name>)
    requires Inv(s)
    ensures Inv(s.(delayed := delayed))
  {}

  lemma BodyKeeps(s: State, c: nat, outcome: Outcome)
    requires Inv(s) && c in s.calls && s.calls[c].phase.InBody?
    ensures Inv(BodyEnds(s, c, outcome))
  {
    if outcome == Bare { FinishKeeps(s, c); } else { MoveKeeps(s, c, BodyEnds(s, c, outcome).calls[c].phase); }
  }

  lemma SuccessKeeps(s: State, c: nat, answer: Answer)
    requires Inv(s) && c in s.calls && s.calls[c].phase.Succeeding?
    ensures Inv(WriteSuccess(s, c, answer))
  {
    RowsKeep(s, Write(s.rows, s.calls[c].phase.row, Success), s.next);
    var written := if answer == Refused then s else s.(rows := Write(s.rows, s.calls[c].phase.row, Success));
    FinishKeeps(written, c);
    MoveKeeps(written, c, Failing(s.calls[c].phase.row));
  }

  lemma ErrorKeeps(s: State, c: nat, answer: Answer)
    requires Inv(s) && c in s.calls && s.calls[c].phase.Failing?
    ensures Inv(WriteError(s, c, answer))
  {
    RowsKeep(s, Write(s.rows, s.calls[c].phase.row, Error), s.next);
    FinishKeeps(if answer == Refused then s else s.(rows := Write(s.rows, s.calls[c].phase.row, Error)), c);
  }

  predicate OfRegistry(e: Event) {
    || e.Register? || e.Unregister? || e.ToggleStarts? || e.ToggleReturns? || e.ShutdownStarts? || e.ShutdownEnds?
  }

  /** The registry's events touch no call and no row. */
  lemma RegistryAside(s: State, e: Event)
    requires Enabled(s, e) && OfRegistry(e)
    ensures var t := Step(s, e);
      t.calls == s.calls && t.rows == s.rows && t.running == s.running && t.next >= s.next
  {}

  lemma RegistryKeeps(s: State, e: Event)
    requires Inv(s) && Enabled(s, e) && OfRegistry(e)
    ensures Inv(Step(s, e))
  {
    RegistryAside(s, e);
    RegistryScheduled(s, e);
    hide Step, Enabled, Scheduled;
  }

  lemma RegistryScheduled(s: State, e: Event)
    requires Scheduled(s) && Enabled(s, e) && OfRegistry(e)
    ensures Scheduled(Step(s, e))
  {
    match e
    case Register(name, cron, startup) => RegisterScheduled(s, name, cron, startup);
    case Unregister(name) => UnregisterScheduled(s, name);
    case ShutdownStarts =>
      assert forall t <- Stopped(s.tasks) :: t.job.None?;
    case _ =>
  }

  lemma RegisterScheduled(s: State, name: Name, cron: bool, startup: Startup)
    requires Scheduled(s)
    ensures Scheduled(RegisterTask(s, name, cron, startup))
  {
    assert forall i | 0 <= i < |s.tasks| :: s.tasks[i] in s.tasks;
    assert s.next !in s.jobs;
  }

  lemma UnregisterScheduled(s: State, name: Name)
    requires Scheduled(s)
    ensures Scheduled(UnregisterTask(s, name))
  {
    DroppedUnique(s.tasks, name);
    DroppedAmong(s.tasks, name);
    hide Dropped;
  }

  lemma {:induction false} DroppedUnique(tasks: seq<Task>, name: Name)
    requires forall i, j | 0 <= i < j < |tasks| :: tasks[i].name != tasks[j].name
    ensures forall i, j | 0 <= i < j < |Dropped(tasks, name)| :: Dropped(tasks, name)[i].name != Dropped(tasks, name)[j].name
  {
    if tasks != [] {
      DroppedUnique(Init(tasks), name);
      DroppedAmong(Init(tasks), name);
      var kept := Dropped(Init(tasks), name);
      forall i | 0 <= i < |kept|
        ensures kept[i].name != Last(tasks).name
      {
        assert kept[i] in Init(tasks);
      }
    }
  }

  lemma InsertedRow(s: State, row: Row)
    requires Inv(s)
    ensures Inv(s.(rows := s.rows[s.next := row], next := s.next + 1))
    ensures forall d <- s.calls :: !Owns(s.calls[d], s.next)
  {
    assert s.next !in s.rows;
    RowsKeep(s, s.rows[s.next := row], s.next + 1);
  }

  lemma InsertKeeps(s: State, c: nat, answer: Answer)
    requires Inv(s) && c in s.calls && s.calls[c].phase.Inserting?
    ensures Inv(Insert(s, c, answer))
  {
    hide Inv, Owns;
    var a := s.calls[c];
    var row := Row(a.task, a.trigger, [Running]);
    InsertedRow(s, row);
    var written := s.(rows := s.rows[s.next := row], next := s.next + 1);
    if answer == Done {
      MoveKeeps(written, c, InBody(s.next));
    } else {
      FinishKeeps(if answer == Refused then s else written, c);
    }
  }

  // ----------------------------------------------------------------- whole runs

  ghost predicate Possible(s: State, run: seq<Event>)
    decreases |run|
  {
    run == [] || (Possible(s, Init(run)) && Enabled(Reached(s, Init(run)), Last(run)))
  }

  function Reached(s: State, run: seq<Event>): State
    decreases |run|
  {
    if run == [] then s
    else
      var before := Reached(s, Init(run));
      if Enabled(before, Last(run)) then Step(before, Last(run)) else before
  }

  /** Under every interleaving, `runningTasks` is exactly the set of names with a
      call in flight, with one call per name and one row per call past its insert. */
  lemma {:induction false} EveryRunIsExclusive(run: seq<Event>)
    requires Possible(EMPTY, run)
    ensures Inv(Reached(EMPTY, run))
  {
    ReachedIsSound(EMPTY, run);
  }

  /** A trigger for a task in flight is skipped without any effect; any other
      trigger of a registered task begins one call. */
  lemma TriggerBeginsIff(s: State, name: Name)
    requires Inv(s) && Find(s.tasks, name).Some?
    ensures Step(s, RunManually(name)) == s <==> exists c <- s.calls :: s.calls[c].task == name
    ensures Step(s, RunManually(name)) != s ==>
      && Step(s, RunManually(name)).calls == s.calls[s.next := Activation(name, Manual, Inserting)]
      && s.next !in s.calls
  {
    if name !in s.running { assert s.next in Step(s, RunManually(name)).calls; }
  }

  // ------------------------------------------------------------------------ rows

  /** Each row is running while a call holds it, and has otherwise gone once from
      running to success or to error. */
  ghost predicate Tidy(s: State) {
    forall r <- s.rows :: TidyAt(s, r)
  }

  ghost predicate TidyAt(s: State, r: nat)
    requires r in s.rows
  {
    if exists c <- s.calls :: Owns(s.calls[c], r) then s.rows[r].history == [Running]
    else s.rows[r].history == [Running, Success] || s.rows[r].history == [Running, Error]
  }

  /** The database answers that break that: a write done but reported as failed,
      except the last one of a call, or the last write refused. */
  predicate Misleads(e: Event) {
    || (e.InsertReturns? && e.answer == DoneButThrows)
    || (e.SuccessReturns? && e.answer == DoneButThrows)
    || (e.ErrorReturns? && e.answer == Refused)
  }

  /** The body rejects with nothing, so that its row is never brought to an end. */
  predicate RejectsBare(e: Event) { e.BodyReturns? && e.outcome == Bare }

  predicate Spoils(e: Event) { Misleads(e) || RejectsBare(e) }

  /** The row of every other call is still held by it. */
  lemma HeldElsewhere(s: State, t: State, c: nat, r: nat)
    requires Inv(s) && c in s.calls
    requires t.calls.Keys + {c} == s.calls.Keys + {c} && forall d <- t.calls :: d != c ==> d in s.calls && t.calls[d] == s.calls[d]
    requires !Owns(s.calls[c], r) && (c in t.calls ==> !Owns(t.calls[c], r))
    ensures (exists d <- t.calls :: Owns(t.calls[d], r)) <==> (exists d <- s.calls :: Owns(s.calls[d], r))
  {
    if d :| d in s.calls && Owns(s.calls[d], r) { assert d in t.calls; }
  }

  /** Only a call's own row changes when it proceeds; the rest stay as tidy as they were. */
  lemma CallStepTidyIff(s: State, e: Event, c: nat)
    requires Inv(s) && Tidy(s) && Enabled(s, e)
    requires (e.InsertReturns? || e.BodyReturns? || e.SuccessReturns? || e.ErrorReturns?) && e.call == c
    ensures Tidy(Step(s, e)) <==> !Spoils(e)
  {
    MineAfter(s, e, c);
    OthersAfter(s, e, c);
    hide Inv, Step, Enabled, RowOf, Owns, Spoils, TidyAt;
  }

  /** The row a call holds, or is about to insert. */
  function RowOf(s: State, c: nat): nat
    requires c in s.calls
  {
    if s.calls[c].phase.Inserting? then s.next else s.calls[c].phase.row
  }

  /** Every other row is as tidy as before. */
  lemma OthersAfter(s: State, e: Event, c: nat)
    requires Inv(s) && Enabled(s, e)
    requires (e.InsertReturns? || e.BodyReturns? || e.SuccessReturns? || e.ErrorReturns?) && e.call == c
    ensures forall r <- Step(s, e).rows :: r != RowOf(s, c) ==>
      r in s.rows && (TidyAt(Step(s, e), r) <==> TidyAt(s, r))
  {
    var t, mine := Step(s, e), RowOf(s, c);
    OnlyOneCallMoves(s, e, c);
    forall r | r in t.rows && r != mine
      ensures r in s.rows && (TidyAt(t, r) <==> TidyAt(s, r))
    {
      OtherRow(s, t, c, r);
    }
    hide Step, Enabled, RowOf, Owns, Inv, TidyAt;
  }

  lemma OtherRow(s: State, t: State, c: nat, r: nat)
    requires Inv(s) && c in s.calls && r in t.rows && r in s.rows && t.rows[r] == s.rows[r]
    requires t.calls.Keys + {c} == s.calls.Keys + {c} && forall d <- t.calls :: d != c ==> d in s.calls && t.calls[d] == s.calls[d]
    requires !Owns(s.calls[c], r) && (c in t.calls ==> !Owns(t.calls[c], r))
    ensures TidyAt(t, r) <==> TidyAt(s, r)
  {
    HeldElsewhere(s, t, c, r);
    hide Inv, Owns;
  }

  lemma OnlyOneCallMoves(s: State, e: Event, c: nat)
    requires Enabled(s, e)
    requires (e.InsertReturns? || e.BodyReturns? || e.SuccessReturns? || e.ErrorReturns?) && e.call == c
    ensures c in s.calls
    ensures s.rows.Keys <= Step(s, e).rows.Keys
    ensures forall r <- Step(s, e).rows :: r != RowOf(s, c) ==> r in s.rows && Step(s, e).rows[r] == s.rows[r]
    ensures Step(s, e).calls.Keys + {c} == s.calls.Keys + {c}
    ensures forall d <- Step(s, e).calls :: d != c ==> d in s.calls && Step(s, e).calls[d] == s.calls[d]
    ensures forall r | r != RowOf(s, c) ::
      !Owns(s.calls[c], r) && (c in Step(s, e).calls ==> !Owns(Step(s, e).calls[c], r))
  {}

  lemma OwnerAfter(s: State, e: Event, c: nat)
    requires Inv(s) && Enabled(s, e)
    requires (e.InsertReturns? || e.BodyReturns? || e.SuccessReturns? || e.ErrorReturns?) && e.call == c
    ensures var t, mine := Step(s, e), RowOf(s, c);
      && (c in t.calls ==> Owns(t.calls[c], mine))
      && (c !in t.calls ==> !exists d <- t.calls :: Owns(t.calls[d], mine))
  {
    var mine := RowOf(s, c);
    if !s.calls[c].phase.Inserting? { assert Owns(s.calls[c], mine); }
    assert forall d <- s.calls :: d != c ==> !Owns(s.calls[d], mine);
    hide Inv, Write;
  }

  lemma HistoryAfter(s: State, e: Event, c: nat)
    requires Enabled(s, e)
    requires (e.InsertReturns? || e.BodyReturns? || e.SuccessReturns? || e.ErrorReturns?) && e.call == c
    requires if s.calls[c].phase.Inserting? then s.next !in s.rows
             else RowOf(s, c) in s.rows && s.rows[RowOf(s, c)].history == [Running]
    ensures var t, mine := Step(s, e), RowOf(s, c);
      Spoils(e) <==> (mine in t.rows
        && if c in t.calls then t.rows[mine].history != [Running]
           else t.rows[mine].history != [Running, Success] && t.rows[mine].history != [Running, Error])
  {
    assert [Running] + [Success] == [Running, Success] && [Running] + [Error] == [Running, Error];
  }

  lemma MineAfter(s: State, e: Event, c: nat)
    requires Inv(s) && Tidy(s) && Enabled(s, e)
    requires (e.InsertReturns? || e.BodyReturns? || e.SuccessReturns? || e.ErrorReturns?) && e.call == c
    ensures Spoils(e) <==> RowOf(s, c) in Step(s, e).rows && !TidyAt(Step(s, e), RowOf(s, c))
  {
    if !s.calls[c].phase.Inserting? {
      assert Owns(s.calls[c], RowOf(s, c));
      assert TidyAt(s, RowOf(s, c));
    }
    OwnerAfter(s, e, c);
    HistoryAfter(s, e, c);
    hide Step, Inv, Tidy, Enabled, Spoils, RowOf, Owns;
  }

  lemma TriggerKeepsTidy(s: State, name: Name, trigger: Trigger)
    requires Inv(s) && Tidy(s)
    ensures Tidy(Begin(s, name, trigger))
  {
    var t := Begin(s, name, trigger);
    forall r | r in s.rows
      ensures (exists d <- t.calls :: Owns(t.calls[d], r)) <==> (exists d <- s.calls :: Owns(s.calls[d], r))
    {
      if d :| d in s.calls && Owns(s.calls[d], r) { assert d in t.calls && t.calls[d] == s.calls[d]; }
    }
  }

  lemma {:induction false} StartAllTidy(s: State, tasks: seq<Task>)
    requires Inv(s) && Tidy(s)
    ensures Tidy(StartAll(s, tasks))
  {
    if tasks != [] {
      StartAllKeeps(s, Init(tasks));
      StartAllTidy(s, Init(tasks));
      TriggerKeepsTidy(StartAll(s, Init(tasks)), Last(tasks).name, AtStartup);
    }
  }

  lemma StepTidyIff(s: State, e: Event)
    requires Inv(s) && Tidy(s) && Enabled(s, e)
    ensures Tidy(Step(s, e)) <==> !Spoils(e)
  {
    if e.InsertReturns? || e.BodyReturns? || e.SuccessReturns? || e.ErrorReturns? {
      CallStepTidyIff(s, e, e.call);
    } else if OfRegistry(e) {
      RegistryAside(s, e);
      hide Step, Owns;
    } else {
      match e
      case StartupRuns => StartAllTidy(s, s.tasks);
      case CronTicks(j) => TriggerKeepsTidy(s, s.jobs[j].name, Scheduler);
      case TimerElapses(name) => TriggerKeepsTidy(s.(delayed := Elapse(s.delayed, name)), name, AtStartup);
      case RunManually(name) => TriggerKeepsTidy(s, name, Manual);
      case _ =>
    }
  }

  ghost predicate TidyThroughout(run: seq<Event>)
    decreases |run|
  {
    Tidy(Reached(EMPTY, run)) && (run == [] || TidyThroughout(Init(run)))
  }

  /** The rows are tidy at every point of a run exactly when the database never
      misleads (no insert or success write done but reported as failed, and no error
      write refused) and no body rejects with nothing. */
  lemma {:induction false} RowsTidyIff(run: seq<Event>)
    requires Possible(EMPTY, run)
    ensures TidyThroughout(run) <==> forall e <- run :: !Spoils(e)
  {
    if run != [] {
      RowsTidyIff(Init(run));
      EveryRunIsExclusive(Init(run));
      assert run == Init(run) + [Last(run)];
      if TidyThroughout(Init(run)) { StepTidyIff(Reached(EMPTY, Init(run)), Last(run)); }
    }
  }

  // -------------------------------------------------------------- release, shutdown

  function Remaining(s: State, c: nat): nat {
    if c !in s.calls then 0
    else match s.calls[c].phase
      case Inserting => 4
      case InBody(_) => 3
      case Succeeding(_) => 2
      case Failing(_) => 1
  }

  /** Whatever the database answers, each completion brings its call closer to
      releasing its task's name, and no other event moves it. */
  lemma EachCompletionReleases(s: State, e: Event, c: nat)
    requires Inv(s) && Enabled(s, e) && c in s.calls
    ensures if (e.InsertReturns? || e.BodyReturns? || e.SuccessReturns? || e.ErrorReturns?) && e.call == c
            then Remaining(Step(s, e), c) < Remaining(s, c)
            else c in Step(s, e).calls && Step(s, e).calls[c] == s.calls[c]
    ensures c !in Step(s, e).calls ==> s.calls[c].task !in Step(s, e).running
  {
    if OfRegistry(e) {
      RegistryAside(s, e);
      hide Step, Inv;
    } else if e.StartupRuns? {
      StartAllLeaves(s, s.tasks, c);
    } else if e.CronTicks? || e.TimerElapses? || e.RunManually? {
      assert s.next !in s.calls;
      hide Inv;
    } else {
      hide Exclusive, RowsOwned, Scheduled;
      CompletionReleases(s, e, c);
    }
  }

  lemma CompletionReleases(s: State, e: Event, c: nat)
    requires Enabled(s, e) && c in s.calls
    requires e.InsertReturns? || e.BodyReturns? || e.SuccessReturns? || e.ErrorReturns?
    ensures if e.call == c then Remaining(Step(s, e), c) < Remaining(s, c)
            else c in Step(s, e).calls && Step(s, e).calls[c] == s.calls[c]
    ensures c !in Step(s, e).calls ==> s.calls[c].task !in Step(s, e).running
  {
    hide Write;
  }

  lemma {:induction false} StartAllLeaves(s: State, tasks: seq<Task>, c: nat)
    requires Inv(s) && c in s.calls
    ensures c in StartAll(s, tasks).calls && StartAll(s, tasks).calls[c] == s.calls[c]
    ensures c < StartAll(s, tasks).next
  {
    if tasks != [] { StartAllLeaves(s, Init(tasks), c); }
  }

  /** The job ticks, or a pending toggle may yet set it ticking. */
  ghost predicate Alive(s: State, j: nat) {
    j in s.jobs && (s.jobs[j].ticking || exists t <- s.toggles :: s.toggles[t] == Toggle(Some(j), true))
  }

  /** A job that no registered task has. */
  ghost predicate Orphan(s: State, j: nat) {
    j in s.jobs && j !in JobsOf(s.tasks)
  }

  /** No registered task has a cron job, no job is alive, no startup timer pending. */
  ghost predicate Quiet(s: State) {
    s.delayed == [] && JobsOf(s.tasks) == {} && forall j :: !Alive(s, j)
  }

  /** The start of a shutdown silences everything but jobs without a task; and then,
      until a task with a schedule is registered or the startup loop is run anew, the
      only calls begun are manual ones. */
  lemma ShutdownLeavesManualRuns(s: State, e: Event)
    requires Inv(s) && Enabled(s, e)
    ensures e.ShutdownStarts? ==> (Quiet(Step(s, e)) <==> forall j :: Orphan(s, j) ==> !Alive(s, j))
    ensures Quiet(s) && !e.StartupRuns? && (e.Register? ==> !e.cron) ==>
      && Quiet(Step(s, e))
      && forall c <- Step(s, e).calls :: c !in s.calls ==> Step(s, e).calls[c].trigger == Manual && e.RunManually?
  {
    var t := Step(s, e);
    if e.ShutdownStarts? {
      assert JobsOf(t.tasks) == {};
      assert forall j :: Alive(t, j) <==> Orphan(s, j) && Alive(s, j);
    } else if Quiet(s) && !e.StartupRuns? && (e.Register? ==> !e.cron) {
      assert e.CronTicks? ==> Alive(s, e.job);
      JoblessStays(s, e);
      forall j
        ensures !Alive(t, j)
      {
        assert !Alive(s, j);
        QuietJobStays(s, e, j);
      }
      NewCallsAreManual(s, e);
      hide Step, Inv, Alive;
    }
  }

  lemma JoblessStays(s: State, e: Event)
    requires Inv(s) && Enabled(s, e) && JobsOf(s.tasks) == {} && (e.Register? ==> !e.cron)
    ensures JobsOf(Step(s, e).tasks) == {}
  {
    match e
    case StartupRuns => StartAllKeeps(s, s.tasks);
    case Register(name, cron, startup) => RegisteredJobs(s.tasks, Task(name, None, startup));
    case Unregister(name) => DroppedAmong(s.tasks, name);
    case _ =>
  }

  lemma NewCallsAreManual(s: State, e: Event)
    requires Inv(s) && Enabled(s, e) && s.delayed == [] && !e.CronTicks? && !e.StartupRuns?
    ensures forall c <- Step(s, e).calls :: c !in s.calls ==> Step(s, e).calls[c].trigger == Manual && e.RunManually?
  {
    if OfRegistry(e) { RegistryAside(s, e); }
    hide Inv;
  }

  /** Registry, jobs and shutdowns are as they were. */
  predicate SameRegistry(s: State, t: State) {
    t.jobs == s.jobs && t.toggles == s.toggles && t.tasks == s.tasks && t.stopping == s.stopping
  }

  lemma BeginLeavesJobs(s: State, name: Name, trigger: Trigger)
    ensures SameRegistry(s, Begin(s, name, trigger)) && Begin(s, name, trigger).delayed == s.delayed
  {}

  lemma CompletionLeavesJobs(s: State, e: Event)
    requires Enabled(s, e) && (e.InsertReturns? || e.BodyReturns? || e.SuccessReturns? || e.ErrorReturns?)
    ensures SameRegistry(s, Step(s, e)) && Step(s, e).delayed == s.delayed
  {
    hide Write, Begin, StartAll;
  }

  lemma OthersLeaveJobs(s: State, e: Event)
    requires Inv(s) && Enabled(s, e) && !OfRegistry(e)
    ensures SameRegistry(s, Step(s, e))
    ensures !e.StartupRuns? && !e.TimerElapses? ==> Step(s, e).delayed == s.delayed
  {
    match e
    case StartupRuns => StartAllKeeps(s, s.tasks);
    case CronTicks(j) => BeginLeavesJobs(s, s.jobs[j].name, Scheduler);
    case TimerElapses(n) => BeginLeavesJobs(s.(delayed := Elapse(s.delayed, n)), n, AtStartup);
    case RunManually(n) => BeginLeavesJobs(s, n, Manual);
    case _ => CompletionLeavesJobs(s, e);
  }

  lemma ToggleEnlivens(s: State, name: Name, on: bool, j: nat)
    requires s.next !in s.toggles
    ensures Alive(ToggleBegins(s, name, on), j)
      <==> Alive(s, j) || (j in s.jobs && on && Find(s.tasks, name).Some? && Find(s.tasks, name).value.job == Some(j))
  {
    var t := ToggleBegins(s, name, on);
    assert forall x <- s.toggles :: x in t.toggles && t.toggles[x] == s.toggles[x];
    if Find(s.tasks, name).Some? { assert t.toggles[s.next] == Toggle(Find(s.tasks, name).value.job, on); }
  }

  /** A job is enlivened only by being made, or by a toggle of the task that has it. */
  lemma QuietJobStays(s: State, e: Event, j: nat)
    requires Inv(s) && Enabled(s, e) && !Alive(s, j)
    requires j in s.jobs || !(e.Register? && e.cron)
    requires !(e.ToggleStarts? && e.on && j in JobsOf(s.tasks))
    ensures !Alive(Step(s, e), j)
  {
    if OfRegistry(e) {
      match e
      case ToggleStarts(name, on) =>
        assert s.next !in s.toggles;
        var found := Find(s.tasks, name);
        assert found.Some? && found.value.job == Some(j) ==> j in JobsOf(s.tasks);
        hide Inv, JobsOf, Alive;
        ToggleEnlivens(s, name, on, j);
      case Register(name, cron, _) =>
        assert s.next !in s.jobs;
        hide Inv, JobsOf, Find;
      case _ => hide Inv, JobsOf, Find;
    } else {
      hide Inv, Step;
      OthersLeaveJobs(s, e);
    }
  }

  lemma {:induction false} DroppedAmong(tasks: seq<Task>, name: Name)
    ensures forall t :: t in Dropped(tasks, name) <==> t in tasks && t.name != name
  {
    if tasks != [] {
      DroppedAmong(Init(tasks), name);
      assert tasks == Init(tasks) + [Last(tasks)];
    }
  }

  // ------------------------------------------------------------- unregistered tasks

  /** The event begins a call of `name`. */
  ghost predicate Begins(s: State, t: State, name: Name) {
    exists c <- t.calls :: c !in s.calls && t.calls[c].task == name
  }

  lemma BeginsOwnName(s: State, n: Name, trigger: Trigger, name: Name)
    requires Inv(s)
    ensures Begins(s, Begin(s, n, trigger), name) <==> n == name && n !in s.running
  {
    var t := Begin(s, n, trigger);
    if n !in s.running { assert s.next in t.calls && s.next !in s.calls && t.calls[s.next].task == n; }
  }

  lemma {:induction false} StartAllBeginsOnly(s: State, tasks: seq<Task>, name: Name)
    requires Inv(s) && forall t <- tasks :: t.name != name
    ensures !Begins(s, StartAll(s, tasks), name)
    ensures name in StartAll(s, tasks).delayed <==> name in s.delayed
    ensures name in StartAll(s, tasks).running <==> name in s.running
  {
    if tasks != [] {
      assert Last(tasks) in tasks && forall t <- Init(tasks) :: t in tasks;
      StartAllBeginsOnly(s, Init(tasks), name);
    }
  }

  lemma OwnedByName(s: State, j: nat)
    requires Inv(s) && j in JobsOf(s.tasks)
    ensures j in s.jobs && Find(s.tasks, s.jobs[j].name).Some?
  {
    var t :| t in s.tasks && t.job == Some(j);
  }

  /** In every reachable state, a call of a name that is not registered begins exactly
      with a pending startup timer of that name, or with a tick of a job that was made
      for it and has lost its task, while the name is not running. */
  lemma UnregisteredBeginsIff(s: State, e: Event, name: Name)
    requires Inv(s) && Enabled(s, e) && Find(s.tasks, name).None?
    ensures Begins(s, Step(s, e), name)
      <==> && name !in s.running
           && (e == TimerElapses(name) || (e.CronTicks? && s.jobs[e.job].name == name && Orphan(s, e.job)))
  {
    if OfRegistry(e) {
      RegistryAside(s, e);
      hide Step, Inv;
    } else {
      hide Inv, Begins;
      match e
      case StartupRuns => StartAllBeginsOnly(s, s.tasks, name);
      case CronTicks(j) =>
        BeginsOwnName(s, s.jobs[j].name, Scheduler, name);
        if j in JobsOf(s.tasks) { OwnedByName(s, j); }
      case RunManually(n) => BeginsOwnName(s, n, Manual, name);
      case TimerElapses(n) => TimerBegins(s, n, name);
      case _ => CompletionBeginsNothing(s, e, name);
    }
  }

  lemma TimerBegins(s: State, n: Name, name: Name)
    requires Inv(s) && n in s.delayed
    ensures Begins(s, Step(s, TimerElapses(n)), name) <==> n == name && n !in s.running
  {
    var waiting := s.(delayed := Elapse(s.delayed, n));
    DelayedAside(s, Elapse(s.delayed, n));
    BeginsOwnName(waiting, n, AtStartup, name);
    assert Begins(waiting, Step(s, TimerElapses(n)), name) <==> Begins(s, Step(s, TimerElapses(n)), name);
  }

  lemma CompletionBeginsNothing(s: State, e: Event, name: Name)
    requires Enabled(s, e) && (e.InsertReturns? || e.BodyReturns? || e.SuccessReturns? || e.ErrorReturns?)
    ensures !Begins(s, Step(s, e), name)
  {}

  // -------------------------------------------------------------- jobs without a task

  /** A job loses its task exactly where a shutdown ends with the task registered; it
      is stopped nowhere afterwards. */
  lemma OrphanArisesIff(s: State, e: Event, j: nat)
    requires Inv(s) && Enabled(s, e)
    ensures Orphan(Step(s, e), j) && !Orphan(s, j) <==> e.ShutdownEnds? && j in JobsOf(s.tasks)
    ensures Orphan(s, j) ==> Orphan(Step(s, e), j) && Step(s, e).jobs[j].name == s.jobs[j].name
    ensures Orphan(s, j) && s.jobs[j].ticking && !e.ToggleReturns? ==> Step(s, e).jobs[j].ticking
  {
    if OfRegistry(e) {
      match e
      case Register(name, cron, startup) =>
        assert s.next !in s.jobs;
        RegisteredJobs(s.tasks, Task(name, if cron then Some(s.next) else None, startup));
        hide Inv, JobsOf, Find;
      case Unregister(name) =>
        UnregisteredJobs(s, name);
        UnregisterTakes(s, name);
        hide Inv, JobsOf, Find, Dropped;
      case ShutdownStarts =>
        assert JobsOf(Stopped(s.tasks)) == {};
        hide Inv, JobsOf, Stopped;
      case _ => hide Inv, Find;
    } else {
      OthersLeaveJobs(s, e);
      hide Inv, Step, JobsOf;
    }
  }

  /** The job that unregistering deletes is one the task has. */
  lemma UnregisterTakes(s: State, name: Name)
    ensures var t := Find(s.tasks, name);
      t.Some? && t.value.job.Some? ==> t.value.job.value in JobsOf(s.tasks)
  {}

  lemma RegisteredJobs(tasks: seq<Task>, t: Task)
    ensures JobsOf(tasks + [t]) == JobsOf(tasks) + if t.job.Some? then {t.job.value} else {}
  {
    assert t in tasks + [t];
    assert forall x <- tasks :: x in tasks + [t];
  }

  lemma UnregisteredJobs(s: State, name: Name)
    requires Inv(s)
    ensures var t := Find(s.tasks, name);
      JobsOf(Step(s, Unregister(name)).tasks)
      == JobsOf(s.tasks) - if t.Some? && t.value.job.Some? then {t.value.job.value} else {}
  {
    var found := Find(s.tasks, name);
    DroppedAmong(s.tasks, name);
    if found.Some? {
      forall t | t in s.tasks
        ensures t.name == name <==> t == found.value
      {
        var i :| 0 <= i < |s.tasks| && s.tasks[i] == t;
        var k :| 0 <= k < |s.tasks| && s.tasks[k] == found.value;
      }
      hide Dropped, Find;
    }
  }

  /** The job was made while a shutdown was waiting. */
  ghost predicate MadeLate(run: seq<Event>, j: nat, name: Name) {
    exists b | 0 <= b < |run| ::
      && run[b].Register? && run[b].cron && run[b].name == name
      && Reached(EMPTY, run[..b]).next == j && Reached(EMPTY, run[..b]).stopping > 0
  }

  lemma MadeLateGrows(run: seq<Event>, e: Event, j: nat, name: Name)
    requires MadeLate(run, j, name)
    ensures MadeLate(run + [e], j, name)
  {
    var b :| 0 <= b < |run|
      && run[b].Register? && run[b].cron && run[b].name == name
      && Reached(EMPTY, run[..b]).next == j && Reached(EMPTY, run[..b]).stopping > 0;
    assert (run + [e])[..b] == run[..b] && (run + [e])[b] == run[b];
  }

  /** Over every run, a job without a task was made for a task registered while a
      shutdown waited for running ones; so are all jobs that there are during a wait. */
  lemma {:induction false} OrphansAreLate(run: seq<Event>, j: nat)
    requires Possible(EMPTY, run)
    ensures j in Reached(EMPTY, run).jobs && (Orphan(Reached(EMPTY, run), j) || Reached(EMPTY, run).stopping > 0) ==>
      MadeLate(run, j, Reached(EMPTY, run).jobs[j].name)
  {
    if run != [] {
      var past, e := Init(run), Last(run);
      assert run == past + [e];
      OrphansAreLate(past, j);
      EveryRunIsExclusive(past);
      var s := Reached(EMPTY, past);
      var t := Reached(EMPTY, run);
      OrphanArisesIff(s, e, j);
      JobHistory(s, e, j);
      if j in s.jobs && j in t.jobs {
        if MadeLate(past, j, s.jobs[j].name) { MadeLateGrows(past, e, j, s.jobs[j].name); }
      } else if j in t.jobs && t.stopping > 0 {
        assert run[|past|] == e && run[..|past|] == past;
      }
      hide Step, MadeLate, Inv;
    }
  }

  /** Where a job and a wait come from. */
  lemma JobHistory(s: State, e: Event, j: nat)
    requires Inv(s) && Enabled(s, e)
    ensures j in Step(s, e).jobs && j in s.jobs ==> Step(s, e).jobs[j].name == s.jobs[j].name
    ensures j in Step(s, e).jobs && j !in s.jobs ==>
      && e.Register? && e.cron && j == s.next && Step(s, e).jobs[j].name == e.name && !Orphan(Step(s, e), j)
      && Step(s, e).stopping == s.stopping
    ensures Step(s, e).stopping > 0 && s.stopping == 0 ==> e.ShutdownStarts?
    ensures e.ShutdownStarts? && j in Step(s, e).jobs ==> Orphan(s, j)
    ensures e.ShutdownEnds? ==> s.stopping > 0
  {
    if OfRegistry(e) {
      match e
      case Register(name, cron, startup) =>
        RegisteredJobs(s.tasks, Task(name, if cron then Some(s.next) else None, startup));
        hide Inv, JobsOf, Find;
      case _ => hide Inv, JobsOf, Find, Dropped;
    } else {
      OthersLeaveJobs(s, e);
      hide Inv, Step, JobsOf;
    }
  }

  // ------------------------------------------------------------- unregistering for good

  /** Nobody registers `name` during the run. */
  ghost predicate NotRegistered(run: seq<Event>, name: Name) {
    forall e <- run :: e.Register? ==> e.name != name
  }

  /** Some event of the run begins a call of `name`. */
  ghost predicate BeginsDuring(s: State, run: seq<Event>, name: Name) {
    exists i | 0 <= i < |run| :: Begins(Reached(s, run[..i]), Reached(s, run[..i + 1]), name)
  }

  lemma ElapseOnly(delayed: seq<Name>, n: Name, name: Name)
    requires name !in delayed
    ensures name !in Elapse(delayed, n)
  {
    if delayed != [] && delayed[0] != n {
      assert forall x <- delayed[1..] :: x in delayed;
      ElapseOnly(delayed[1..], n, name);
    }
  }

  lemma {:induction false} FindNone(tasks: seq<Task>, name: Name)
    ensures Find(tasks, name).None? <==> forall t <- tasks :: t.name != name
  {
    if tasks != [] {
      FindNone(Init(tasks), name);
      assert tasks == Init(tasks) + [Last(tasks)];
    }
  }

  /** Neither registered nor pending, and no job made for it is alive. */
  ghost predicate Gone(s: State, name: Name) {
    && Find(s.tasks, name).None? && name !in s.delayed
    && forall j <- s.jobs :: s.jobs[j].name == name ==> !Alive(s, j)
  }

  lemma GoneStaysGone(s: State, e: Event, name: Name)
    requires Inv(s) && Enabled(s, e) && Gone(s, name)
    requires e.Register? ==> e.name != name
    ensures Gone(Step(s, e), name)
  {
    RegistryStaysGone(s, e, name);
    forall j | j in Step(s, e).jobs && Step(s, e).jobs[j].name == name
      ensures !Alive(Step(s, e), j)
    {
      JobHistory(s, e, j);
      if j in JobsOf(s.tasks) { OwnedByName(s, j); }
      if j in s.jobs { QuietJobStays(s, e, j); }
      hide Inv, Step, Alive, Enabled;
    }
  }

  lemma RegistryStaysGone(s: State, e: Event, name: Name)
    requires Inv(s) && Enabled(s, e) && Find(s.tasks, name).None? && name !in s.delayed
    requires e.Register? ==> e.name != name
    ensures Find(Step(s, e).tasks, name).None? && name !in Step(s, e).delayed
  {
    FindNone(s.tasks, name);
    if OfRegistry(e) {
      ListStaysGone(s, e, name);
    } else {
      OthersLeaveJobs(s, e);
      if e.StartupRuns? {
        StartAllBeginsOnly(s, s.tasks, name);
      } else if e.TimerElapses? {
        ElapseOnly(s.delayed, e.name, name);
        BeginLeavesJobs(s.(delayed := Elapse(s.delayed, e.name)), e.name, AtStartup);
      }
      hide Inv, Find, Begin;
    }
  }

  lemma ListStaysGone(s: State, e: Event, name: Name)
    requires Enabled(s, e) && OfRegistry(e) && name !in s.delayed && (e.Register? ==> e.name != name)
    requires forall t <- s.tasks :: t.name != name
    ensures Find(Step(s, e).tasks, name).None? && name !in Step(s, e).delayed
  {
    FindNone(Step(s, e).tasks, name);
    if e.Unregister? { DroppedAmong(s.tasks, e.name); }
    hide Find, JobsOf, Dropped;
  }

  lemma {:induction false} ReachedIsGone(s: State, run: seq<Event>, name: Name)
    requires Inv(s) && Possible(s, run) && NotRegistered(run, name) && Gone(s, name)
    ensures Inv(Reached(s, run)) && Gone(Reached(s, run), name)
  {
    if run != [] {
      assert run == Init(run) + [Last(run)];
      ReachedIsGone(s, Init(run), name);
      StepKeeps(Reached(s, Init(run)), Last(run));
      GoneStaysGone(Reached(s, Init(run)), Last(run), name);
    }
  }

  lemma {:induction false} PossiblePrefix(s: State, run: seq<Event>, i: nat)
    requires Possible(s, run) && i <= |run|
    ensures Possible(s, run[..i])
    ensures i < |run| ==>
      && Enabled(Reached(s, run[..i]), run[i])
      && Reached(s, run[..i + 1]) == Step(Reached(s, run[..i]), run[i])
  {
    if i == |run| {
      assert run[..i] == run;
    } else {
      assert Init(run)[..i] == run[..i];
      PossiblePrefix(s, Init(run), i);
      assert Init(run[..i + 1]) == run[..i];
      if i + 1 < |run| { assert Init(run)[..i + 1] == run[..i + 1]; } else { assert run[..i + 1] == run; }
    }
  }

  /** The event that brings a suspended call on. */
  function Completion(a: Activation, c: nat): Event {
    match a.phase
    case Inserting => InsertReturns(c, Refused)
    case InBody(_) => BodyReturns(c, Failed)
    case Succeeding(_) => SuccessReturns(c, Done)
    case Failing(_) => ErrorReturns(c, Done)
  }

  lemma OneMore(s: State, run: seq<Event>, e: Event)
    requires Possible(s, run) && Enabled(Reached(s, run), e)
    ensures Possible(s, run + [e]) && Reached(s, run + [e]) == Step(Reached(s, run), e)
  {
    assert Init(run + [e]) == run && Last(run + [e]) == e;
  }

  /** A call can be brought to its end while timers and jobs stay as they are. */
  lemma {:induction false} CanRelease(s: State, run: seq<Event>, c: nat, name: Name) returns (longer: seq<Event>)
    requires Possible(s, run) && Inv(Reached(s, run)) && NotRegistered(run, name)
    requires c in Reached(s, run).calls && Reached(s, run).calls[c].task == name
    ensures Possible(s, longer) && NotRegistered(longer, name) && name !in Reached(s, longer).running
    ensures Reached(s, longer).delayed == Reached(s, run).delayed && Reached(s, longer).jobs == Reached(s, run).jobs
    decreases Remaining(Reached(s, run), c)
  {
    var now := Reached(s, run);
    var e := Completion(now.calls[c], c);
    longer := run + [e];
    OneMore(s, run, e);
    StepKeeps(now, e);
    EachCompletionReleases(now, e, c);
    assert NotRegistered(longer, name);
    if c in Step(now, e).calls { longer := CanRelease(s, longer, c, name); }
  }

  /** The event would begin a call of `name`, were the name not running. */
  predicate Calls(s: State, e: Event, name: Name) {
    Enabled(s, e) && (e == TimerElapses(name) || (e.CronTicks? && s.jobs[e.job].name == name))
  }

  lemma PendingStarts(s: State, past: seq<Event>, e: Event, name: Name) returns (run: seq<Event>)
    requires Inv(s) && Possible(s, past) && NotRegistered(past, name) && Calls(Reached(s, past), e, name)
    ensures Possible(s, run) && NotRegistered(run, name) && BeginsDuring(s, run, name)
  {
    var ready := past;
    ReachedIsSound(s, past);
    if name in Reached(s, past).running {
      var c :| c in Reached(s, past).calls && Reached(s, past).calls[c].task == name;
      ready := CanRelease(s, past, c, name);
    }
    ReachedIsSound(s, ready);
    var now := Reached(s, ready);
    run := ready + [e];
    OneMore(s, ready, e);
    StartsNow(now, e, name);
    LastBegins(s, ready, e, name);
  }

  lemma LastBegins(s: State, run: seq<Event>, e: Event, name: Name)
    requires Begins(Reached(s, run), Reached(s, run + [e]), name)
    ensures BeginsDuring(s, run + [e], name)
  {
    hide Begins, Reached;
    var more := run + [e];
    assert more[..|run|] == run && more[..|run| + 1] == more;
  }

  lemma StartsNow(s: State, e: Event, name: Name)
    requires Inv(s) && Calls(s, e, name) && name !in s.running
    ensures Begins(s, Step(s, e), name)
  {
    if e.CronTicks? {
      BeginsOwnName(s, name, Scheduler, name);
    } else {
      BeginsOwnName(s.(delayed := Elapse(s.delayed, name)), name, AtStartup, name);
    }
  }

  lemma {:induction false} ReachedIsSound(s: State, run: seq<Event>)
    requires Inv(s) && Possible(s, run)
    ensures Inv(Reached(s, run))
  {
    if run != [] {
      ReachedIsSound(s, Init(run));
      StepKeeps(Reached(s, Init(run)), Last(run));
    }
  }

  /** A job without a task that is alive can be made to call. */
  lemma AliveStarts(s: State, j: nat) returns (run: seq<Event>)
    requires Inv(s) && Alive(s, j)
    ensures Possible(s, run) && NotRegistered(run, s.jobs[j].name) && BeginsDuring(s, run, s.jobs[j].name)
  {
    var past: seq<Event> := [];
    if !s.jobs[j].ticking {
      var t :| t in s.toggles && s.toggles[t] == Toggle(Some(j), true);
      past := [ToggleReturns(t, true)];
      assert [] + past == past;
      OneMore(s, [], ToggleReturns(t, true));
    }
    run := PendingStarts(s, past, CronTicks(j), s.jobs[j].name);
  }

  /** Some job made for `name` has lost its task and is alive. */
  ghost predicate Haunted(s: State, name: Name) {
    exists j <- s.jobs :: Orphan(s, j) && s.jobs[j].name == name && Alive(s, j)
  }

  /** Unregistering a task, as long as it is not registered anew, stops it for good
      exactly when no startup timer of its name is pending and no job of an earlier
      registration of the name lives on. */
  lemma UnregisteringStopsIff(s: State, name: Name)
    requires Inv(s)
    ensures (exists run :: Possible(Step(s, Unregister(name)), run) && NotRegistered(run, name)
                           && BeginsDuring(Step(s, Unregister(name)), run, name))
       <==> name in s.delayed || Haunted(s, name)
  {
    var gone := Step(s, Unregister(name));
    DroppedAmong(s.tasks, name);
    FindNone(gone.tasks, name);
    StepKeeps(s, Unregister(name));
    UnregisterHaunts(s, name);
    if name in s.delayed {
      var run := PendingStarts(gone, [], TimerElapses(name), name);
    } else if Haunted(s, name) {
      var j :| j in gone.jobs && gone.jobs[j].name == name && Alive(gone, j);
      var run := AliveStarts(gone, j);
    } else {
      forall run | Possible(gone, run) && NotRegistered(run, name)
        ensures !BeginsDuring(gone, run, name)
      {
        NothingBegins(gone, run, name);
      }
    }
  }

  /** What is left of a name's jobs are those that had lost their task before. */
  lemma UnregisterHaunts(s: State, name: Name)
    requires Inv(s)
    ensures var gone := Step(s, Unregister(name));
      && Find(gone.tasks, name).None? && gone.delayed == s.delayed
      && (Haunted(s, name) <==> exists j <- gone.jobs :: gone.jobs[j].name == name && Alive(gone, j))
  {
    var gone := Step(s, Unregister(name));
    DroppedAmong(s.tasks, name);
    FindNone(gone.tasks, name);
    FindNone(s.tasks, name);
    StepKeeps(s, Unregister(name));
    forall j
      ensures j in gone.jobs && gone.jobs[j].name == name <==> Orphan(s, j) && s.jobs[j].name == name
      ensures j in gone.jobs ==> (Alive(gone, j) <==> Alive(s, j))
    {
      OrphanArisesIff(s, Unregister(name), j);
      if j in JobsOf(gone.tasks) { OwnedByName(gone, j); }
    }
    hide Inv, Step, Orphan, Alive;
  }

  lemma NothingBegins(s: State, run: seq<Event>, name: Name)
    requires Inv(s) && Possible(s, run) && NotRegistered(run, name) && Gone(s, name)
    ensures !BeginsDuring(s, run, name)
  {
    forall i | 0 <= i < |run|
      ensures !Begins(Reached(s, run[..i]), Reached(s, run[..i + 1]), name)
    {
      PossiblePrefix(s, run, i);
      assert NotRegistered(run[..i], name);
      ReachedIsGone(s, run[..i], name);
      UnregisteredBeginsIff(Reached(s, run[..i]), run[i], name);
      assert run[i].CronTicks? ==> Alive(Reached(s, run[..i]), run[i].job);
    }
  }
}
