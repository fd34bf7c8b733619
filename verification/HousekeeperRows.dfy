/** What a row of housekeeper_runs tells about the call it was written for, over
    every run: who began the call, how its body ended, and which writes took effect. */
module HousekeeperRows {
  import opened Basics
  import opened Housekeeper
  import opened HousekeeperRuns

  // ------------------------------------------------------------ the events of a call

  /** The event ends one of the waits of a call. */
  predicate OfCall(e: Event) { e.InsertReturns? || e.BodyReturns? || e.SuccessReturns? || e.ErrorReturns? }

  predicate Of(e: Event, c: nat) { OfCall(e) && e.call == c }

  function Trace(run: seq<Event>, c: nat): seq<Event> {
    if run == [] then [] else Trace(Init(run), c) + (if Of(Last(run), c) then [Last(run)] else [])
  }

  lemma {:induction false} TraceHolds(run: seq<Event>, c: nat, e: Event)
    ensures e in Trace(run, c) <==> e in run && Of(e, c)
  {
    if run != [] {
      TraceHolds(Init(run), c, e);
      InLast(run, e);
    }
  }

  lemma TraceSnoc(run: seq<Event>, c: nat)
    requires run != []
    ensures Of(Last(run), c) ==> Trace(run, c) == Trace(Init(run), c) + [Last(run)]
    ensures !Of(Last(run), c) ==> Trace(run, c) == Trace(Init(run), c)
  {
    assert Trace(Init(run), c) + [] == Trace(Init(run), c);
  }

  /** What an event writes to the row of its call. */
  function Writes(e: Event): seq<Status> {
    match e
    case InsertReturns(_, answer) => if answer == Refused then [] else [Status.Running]
    case SuccessReturns(_, answer) => if answer == Refused then [] else [Success]
    case ErrorReturns(_, answer) => if answer == Refused then [] else [Error]
    case _ => []
  }

  function Written(events: seq<Event>): seq<Status> {
    if events == [] then [] else Written(Init(events)) + Writes(Last(events))
  }

  lemma WrittenSnoc(events: seq<Event>, e: Event)
    ensures Written(events + [e]) == Written(events) + Writes(e)
  {
    assert Init(events + [e]) == events;
  }

  /** A call's insert, then its body, then at most one success and one error write:
      the error write only after a body that failed or a success write that threw. */
  ghost predicate Life(t: seq<Event>, c: nat) {
    || (exists a :: t == [InsertReturns(c, a)])
    || (exists o :: t == [InsertReturns(c, Done), BodyReturns(c, o)])
    || (exists a :: t == [InsertReturns(c, Done), BodyReturns(c, Resolved), SuccessReturns(c, a)])
    || (exists a :: t == [InsertReturns(c, Done), BodyReturns(c, Failed), ErrorReturns(c, a)])
    || (exists a, b ::
          a != Done && t == [InsertReturns(c, Done), BodyReturns(c, Resolved), SuccessReturns(c, a), ErrorReturns(c, b)])
  }

  /** Where a call with these events is suspended. */
  ghost predicate Awaits(t: seq<Event>, c: nat, phase: Phase) {
    match phase
    case Inserting => t == []
    case InBody(_) => t == [InsertReturns(c, Done)]
    case Succeeding(_) => t == [InsertReturns(c, Done), BodyReturns(c, Resolved)]
    case Failing(_) =>
      || t == [InsertReturns(c, Done), BodyReturns(c, Failed)]
      || exists a :: a != Done && t == [InsertReturns(c, Done), BodyReturns(c, Resolved), SuccessReturns(c, a)]
  }

  // ------------------------------------------------------------- how calls begin

  /** The event begins calls of `name`, marked with this trigger. */
  ghost predicate Triggers(s: State, e: Event, name: Name, trigger: Trigger) {
    match e
    case CronTicks(j) => j in s.jobs && s.jobs[j].name == name && trigger == Scheduler
    case TimerElapses(n) => n == name && trigger == AtStartup
    case RunManually(n) => n == name && trigger == Manual
    case StartupRuns => trigger == AtStartup && exists t <- s.tasks :: t.name == name && t.startup == Immediately
    case _ => false
  }

  /** Call `c` began at one event of the run, with this name and trigger. */
  ghost predicate Began(run: seq<Event>, c: nat, name: Name, trigger: Trigger) {
    exists b | 0 <= b < |run| ::
      && c !in Reached(EMPTY, run[..b]).calls && c in Reached(EMPTY, run[..b + 1]).calls
      && Triggers(Reached(EMPTY, run[..b]), run[b], name, trigger)
  }

  lemma BeganGrows(run: seq<Event>, c: nat, name: Name, trigger: Trigger)
    requires run != [] && Began(Init(run), c, name, trigger)
    ensures Began(run, c, name, trigger)
  {
    hide Triggers, Reached;
    var past := Init(run);
    var b :| 0 <= b < |past|
      && c !in Reached(EMPTY, past[..b]).calls && c in Reached(EMPTY, past[..b + 1]).calls
      && Triggers(Reached(EMPTY, past[..b]), past[b], name, trigger);
    assert run[..b] == past[..b] && run[..b + 1] == past[..b + 1] && run[b] == past[b];
  }

  lemma BeganNow(run: seq<Event>, c: nat, name: Name, trigger: Trigger)
    requires run != [] && Triggers(Reached(EMPTY, Init(run)), Last(run), name, trigger)
    requires c !in Reached(EMPTY, Init(run)).calls && c in Reached(EMPTY, run).calls
    ensures Began(run, c, name, trigger)
  {
    hide Triggers, Reached;
    var b := |run| - 1;
    assert run[..b] == Init(run) && run[..b + 1] == run && run[b] == Last(run);
  }

  /** A new call waits for its insert; the others keep their name and trigger. */
  ghost predicate NewOrKept(s: State, t: State, e: Event, c: nat)
    requires c in t.calls
  {
    if c in s.calls then t.calls[c].task == s.calls[c].task && t.calls[c].trigger == s.calls[c].trigger
    else c >= s.next && t.calls[c].phase == Inserting && Triggers(s, e, t.calls[c].task, t.calls[c].trigger)
  }

  ghost predicate Starter(s: State, tasks: seq<Task>, t: State, c: nat)
    requires c in t.calls
  {
    && c >= s.next && t.calls[c].phase == Inserting && t.calls[c].trigger == AtStartup
    && exists task <- tasks :: task.name == t.calls[c].task && task.startup == Immediately
  }

  lemma {:induction false} StartAllBegins(s: State, tasks: seq<Task>)
    ensures StartAll(s, tasks).next >= s.next && StartAll(s, tasks).rows == s.rows
    ensures forall c <- StartAll(s, tasks).calls :: c in s.calls || Starter(s, tasks, StartAll(s, tasks), c)
    ensures forall c <- s.calls :: c < s.next ==> c in StartAll(s, tasks).calls && StartAll(s, tasks).calls[c] == s.calls[c]
  {
    if tasks != [] {
      StartAllBegins(s, Init(tasks));
      assert Last(tasks) in tasks && forall t <- Init(tasks) :: t in tasks;
    }
  }

  lemma BeginCalls(s: State, name: Name, trigger: Trigger)
    ensures var t := Begin(s, name, trigger);
      && t.next >= s.next && t.rows == s.rows
      && (forall c <- s.calls :: c < s.next ==> c in t.calls && t.calls[c] == s.calls[c])
      && forall c <- t.calls :: c in s.calls
           || (c == s.next && t.calls[c].task == name && t.calls[c].trigger == trigger && t.calls[c].phase == Inserting)
  {}

  lemma StepCalls(s: State, e: Event)
    requires Inv(s) && Enabled(s, e)
    ensures Step(s, e).next >= s.next
    ensures forall c <- Step(s, e).calls :: NewOrKept(s, Step(s, e), e, c)
    ensures !OfCall(e) ==>
      Step(s, e).rows == s.rows && forall c <- s.calls :: c in Step(s, e).calls && Step(s, e).calls[c] == s.calls[c]
  {
    hide RowsOwned, Scheduled;
    if OfRegistry(e) {
      RegistryAside(s, e);
      hide Step;
    } else if OfCall(e) {
      MovedOn(s, e);
    } else {
      hide Begin, StartAll;
      match e
      case StartupRuns => StartAllBegins(s, s.tasks);
      case CronTicks(j) => BeginCalls(s, s.jobs[j].name, Scheduler);
      case TimerElapses(n) => BeginCalls(s.(delayed := Elapse(s.delayed, n)), n, AtStartup);
      case RunManually(n) => BeginCalls(s, n, Manual);
    }
  }

  lemma MovedOn(s: State, e: Event)
    requires Enabled(s, e) && OfCall(e)
    ensures Step(s, e).next >= s.next
    ensures forall c <- Step(s, e).calls ::
      && c in s.calls
      && Step(s, e).calls[c].task == s.calls[c].task && Step(s, e).calls[c].trigger == s.calls[c].trigger
  {
    hide Write, Begin, StartAll, Find;
    match e
    case InsertReturns(_, _) =>
    case BodyReturns(_, _) =>
    case SuccessReturns(_, _) =>
    case ErrorReturns(_, _) =>
  }

  // ------------------------------------------------------------- one event of a call

  /** The event takes its call on to where it waits next, or ends its life. */
  lemma LifeGoesOn(s: State, e: Event, c: nat, t: seq<Event>)
    requires Enabled(s, e) && Of(e, c) && Awaits(t, c, s.calls[c].phase)
    ensures Life(t + [e], c)
    ensures c in Step(s, e).calls ==> Awaits(t + [e], c, Step(s, e).calls[c].phase)
  {
    hide Write;
    match e
    case InsertReturns(_, _) =>
      assert t + [e] == [e];
    case BodyReturns(_, _) =>
      assert t + [e] == [InsertReturns(c, Done), e];
    case SuccessReturns(_, _) =>
      assert t + [e] == [InsertReturns(c, Done), BodyReturns(c, Resolved), e];
    case ErrorReturns(_, b) =>
      if t == [InsertReturns(c, Done), BodyReturns(c, Failed)] {
        assert t + [e] == [InsertReturns(c, Done), BodyReturns(c, Failed), e];
      } else {
        var a :| a != Done && t == [InsertReturns(c, Done), BodyReturns(c, Resolved), SuccessReturns(c, a)];
        assert t + [e] == [InsertReturns(c, Done), BodyReturns(c, Resolved), SuccessReturns(c, a), ErrorReturns(c, b)];
      }
  }

  /** The event adds a row for its call, or writes to the row its call holds. */
  lemma RowsGoOn(s: State, e: Event, c: nat)
    requires Inv(s) && Enabled(s, e) && Of(e, c)
    ensures var a := s.calls[c];
      Step(s, e).rows ==
        if a.phase.Inserting? then
          if Writes(e) == [] then s.rows else s.rows[s.next := Row(a.task, a.trigger, Writes(e))]
        else s.rows[a.phase.row := s.rows[a.phase.row].(history := s.rows[a.phase.row].history + Writes(e))]
  {
    hide Exclusive, Scheduled;
    if !s.calls[c].phase.Inserting? {
      var r := s.calls[c].phase.row;
      assert s.rows[r].(history := s.rows[r].history + []) == s.rows[r] by { assert s.rows[r].history + [] == s.rows[r].history; }
      assert s.rows[r := s.rows[r]] == s.rows;
    }
    match e
    case InsertReturns(_, _) =>
    case BodyReturns(_, o) =>
    case SuccessReturns(_, _) =>
    case ErrorReturns(_, _) =>
  }

  /** Only its own call moves, and keeps its row. */
  lemma CallsGoOn(s: State, e: Event, c: nat)
    requires Enabled(s, e) && Of(e, c)
    ensures c in s.calls
    ensures s.calls[c].phase.Inserting? ==> Step(s, e).next == s.next + |Writes(e)|
    ensures c in Step(s, e).calls && !Step(s, e).calls[c].phase.Inserting? ==>
      Step(s, e).calls[c].phase.row == if s.calls[c].phase.Inserting? then s.next else s.calls[c].phase.row
    ensures forall d <- Step(s, e).calls :: d != c ==> d in s.calls && Step(s, e).calls[d] == s.calls[d]
    ensures forall d <- s.calls :: d != c ==> d in Step(s, e).calls
  {
    hide Write;
  }

  // ------------------------------------------------------------------- whole runs

  /** The call whose insert made the row. */
  function Inserter(run: seq<Event>, r: nat): Option<nat> {
    if run == [] then None
    else
      var e := Last(run);
      if e.InsertReturns? && e.answer != Refused && Reached(EMPTY, Init(run)).next == r then Some(e.call)
      else Inserter(Init(run), r)
  }

  ghost predicate CallTold(run: seq<Event>, c: nat)
    requires c in Reached(EMPTY, run).calls
  {
    var a := Reached(EMPTY, run).calls[c];
    && Began(run, c, a.task, a.trigger)
    && Awaits(Trace(run, c), c, a.phase)
    && (!a.phase.Inserting? ==> Inserter(run, a.phase.row) == Some(c))
  }

  ghost predicate RowTold(run: seq<Event>, r: nat)
    requires r in Reached(EMPTY, run).rows
  {
    var s := Reached(EMPTY, run);
    && Inserter(run, r).Some?
    && var c := Inserter(run, r).value;
    && c < s.next
    && Began(run, c, s.rows[r].task, s.rows[r].trigger)
    && Life(Trace(run, c), c) && s.rows[r].history == Written(Trace(run, c))
    && (c in s.calls ==> !s.calls[c].phase.Inserting? && s.calls[c].phase.row == r)
  }

  ghost predicate Told(run: seq<Event>) {
    var s := Reached(EMPTY, run);
    && (forall c <- s.calls :: CallTold(run, c))
    && (forall r <- s.rows :: RowTold(run, r))
    && (forall c :: c >= s.next ==> Trace(run, c) == [])
  }

  /** Where an event leaves a call and its row alone, what is told of them stays true. */
  lemma CallStaysTold(run: seq<Event>, c: nat)
    requires run != [] && !Of(Last(run), c)
    requires c in Reached(EMPTY, Init(run)).calls && CallTold(Init(run), c)
    requires c in Reached(EMPTY, run).calls && Reached(EMPTY, run).calls[c] == Reached(EMPTY, Init(run)).calls[c]
    requires !Reached(EMPTY, run).calls[c].phase.Inserting? ==>
      Reached(EMPTY, run).calls[c].phase.row != Reached(EMPTY, Init(run)).next
    ensures CallTold(run, c)
  {
    hide Began, Reached, Awaits, Trace;
    TraceSnoc(run, c);
    BeganGrows(run, c, Reached(EMPTY, run).calls[c].task, Reached(EMPTY, run).calls[c].trigger);
  }

  lemma RowStaysTold(run: seq<Event>, r: nat)
    requires run != [] && r in Reached(EMPTY, Init(run)).rows && RowTold(Init(run), r)
    requires r in Reached(EMPTY, run).rows && Reached(EMPTY, run).rows[r] == Reached(EMPTY, Init(run)).rows[r]
    requires r != Reached(EMPTY, Init(run)).next && Reached(EMPTY, run).next >= Reached(EMPTY, Init(run)).next
    requires !Of(Last(run), Inserter(Init(run), r).value)
    requires var c := Inserter(Init(run), r).value;
      c in Reached(EMPTY, run).calls ==>
        c in Reached(EMPTY, Init(run)).calls && Reached(EMPTY, run).calls[c] == Reached(EMPTY, Init(run)).calls[c]
    ensures RowTold(run, r)
  {
    hide Began, Reached, Life, Trace;
    TraceSnoc(run, Inserter(Init(run), r).value);
    BeganGrows(run, Inserter(Init(run), r).value, Reached(EMPTY, run).rows[r].task, Reached(EMPTY, run).rows[r].trigger);
  }

  lemma OtherEventTells(run: seq<Event>)
    requires run != [] && Possible(EMPTY, run) && Inv(Reached(EMPTY, Init(run))) && Told(Init(run)) && !OfCall(Last(run))
    ensures Told(run)
  {
    var past, e := Init(run), Last(run);
    var s, t := Reached(EMPTY, past), Reached(EMPTY, run);
    assert Enabled(s, e) && t == Step(s, e);
    StepCalls(s, e);
    RowsAreOld(s);
    hide Step, Enabled, Inv, Reached, Began, Triggers, Life, Trace, RowTold;
    forall c
      ensures Trace(run, c) == Trace(past, c)
    {
      TraceSnoc(run, c);
    }
    forall c | c in t.calls
      ensures CallTold(run, c)
    {
      if c in s.calls {
        CallStaysTold(run, c);
      } else {
        assert NewOrKept(s, t, e, c) && Trace(past, c) == [];
        BeganNow(run, c, t.calls[c].task, t.calls[c].trigger);
      }
    }
    forall r | r in t.rows
      ensures RowTold(run, r)
    {
      assert RowTold(past, r);
      OwnerIsOld(past, r);
      RowStaysTold(run, r);
    }
  }

  lemma OwnerIsOld(run: seq<Event>, r: nat)
    requires r in Reached(EMPTY, run).rows && RowTold(run, r)
    ensures Inserter(run, r).Some? && Inserter(run, r).value < Reached(EMPTY, run).next
  {}

  lemma RowsAreOld(s: State)
    requires Inv(s)
    ensures forall r <- s.rows :: r < s.next
    ensures forall c <- s.calls :: c < s.next && (!s.calls[c].phase.Inserting? ==> s.calls[c].phase.row < s.next)
  {}

  /** What is told of the call that moves on. */
  lemma MoverTold(run: seq<Event>, c: nat)
    requires run != [] && Possible(EMPTY, run) && Inv(Reached(EMPTY, Init(run))) && Of(Last(run), c)
    requires c in Reached(EMPTY, Init(run)).calls && CallTold(Init(run), c)
    ensures var s := Reached(EMPTY, Init(run));
      && Trace(run, c) == Trace(Init(run), c) + [Last(run)] && Life(Trace(run, c), c)
      && Began(run, c, s.calls[c].task, s.calls[c].trigger)
      && (c in Reached(EMPTY, run).calls ==> CallTold(run, c))
      && (s.calls[c].phase.Inserting? ==> Trace(run, c) == [Last(run)])
  {
    var past, e := Init(run), Last(run);
    var s, t := Reached(EMPTY, past), Reached(EMPTY, run);
    assert Enabled(s, e) && t == Step(s, e);
    TraceSnoc(run, c);
    LifeGoesOn(s, e, c, Trace(past, c));
    if s.calls[c].phase.Inserting? { assert [] + [e] == [e]; }
    BeganGrows(run, c, s.calls[c].task, s.calls[c].trigger);
    hide Step, Enabled, Inv, Reached, Began, Triggers, Life, Trace, Inserter, Possible;
    if c in t.calls {
      StepCalls(s, e);
      CallsGoOn(s, e, c);
      InserterSnoc(run, c);
      assert NewOrKept(s, t, e, c);
    }
  }

  /** The insert of a call that goes on makes the row it holds. */
  lemma InserterSnoc(run: seq<Event>, c: nat)
    requires run != [] && Possible(EMPTY, run) && Of(Last(run), c)
    requires c in Reached(EMPTY, Init(run)).calls && c in Reached(EMPTY, run).calls
    ensures !Reached(EMPTY, run).calls[c].phase.Inserting? ==>
      Inserter(run, Reached(EMPTY, run).calls[c].phase.row)
      == if Reached(EMPTY, Init(run)).calls[c].phase.Inserting? then Some(c)
         else Inserter(Init(run), Reached(EMPTY, Init(run)).calls[c].phase.row)
  {
    var s, e := Reached(EMPTY, Init(run)), Last(run);
    assert Enabled(s, e) && Reached(EMPTY, run) == Step(s, e);
    InsertGoesOn(s, e, c);
    CallsGoOn(s, e, c);
    hide Step, Enabled, Reached, Possible;
  }

  lemma InsertGoesOn(s: State, e: Event, c: nat)
    requires Enabled(s, e) && Of(e, c) && c in Step(s, e).calls
    ensures e.InsertReturns? <==> s.calls[c].phase.Inserting?
    ensures e.InsertReturns? ==> e.answer != Refused
  {
    hide Write;
  }

  /** What is told of the row it adds. */
  lemma NewRowTold(run: seq<Event>, c: nat)
    requires run != [] && Possible(EMPTY, run) && Inv(Reached(EMPTY, Init(run))) && Told(Init(run)) && Of(Last(run), c)
    requires c in Reached(EMPTY, Init(run)).calls && Reached(EMPTY, Init(run)).calls[c].phase.Inserting?
    requires Reached(EMPTY, Init(run)).next in Reached(EMPTY, run).rows
    ensures RowTold(run, Reached(EMPTY, Init(run)).next)
  {
    var past, e := Init(run), Last(run);
    var s, t := Reached(EMPTY, past), Reached(EMPTY, run);
    assert Enabled(s, e) && t == Step(s, e);
    assert CallTold(past, c);
    MoverTold(run, c);
    RowsGoOn(s, e, c);
    CallsGoOn(s, e, c);
    RowsAreOld(s);
    OneWrite(e);
    assert Inserter(run, s.next) == Some(c);
    hide Step, Enabled, Inv, Reached, Began, Triggers, Life, Trace, Inserter, Written, Writes;
  }

  lemma OneWrite(e: Event)
    ensures Written([e]) == Writes(e)
  {
    assert Init([e]) == [];
  }

  /** What is told of the row it writes to. */
  lemma OwnRowTold(run: seq<Event>, c: nat)
    requires run != [] && Possible(EMPTY, run) && Inv(Reached(EMPTY, Init(run))) && Told(Init(run)) && Of(Last(run), c)
    requires c in Reached(EMPTY, Init(run)).calls && !Reached(EMPTY, Init(run)).calls[c].phase.Inserting?
    ensures var r := Reached(EMPTY, Init(run)).calls[c].phase.row;
      r in Reached(EMPTY, Init(run)).rows && r in Reached(EMPTY, run).rows && RowTold(run, r)
  {
    var past, e := Init(run), Last(run);
    var s, t := Reached(EMPTY, past), Reached(EMPTY, run);
    var r := s.calls[c].phase.row;
    assert Enabled(s, e) && t == Step(s, e);
    assert CallTold(past, c) && r in s.rows && RowTold(past, r);
    MoverTold(run, c);
    RowsGoOn(s, e, c);
    CallsGoOn(s, e, c);
    StepCalls(s, e);
    WrittenSnoc(Trace(past, c), e);
    BeganGrows(run, c, s.rows[r].task, s.rows[r].trigger);
    assert Inserter(run, r) == Inserter(past, r);
    hide Step, Enabled, Inv, Reached, Began, Triggers, Life, Trace, Inserter, Written, Writes;
  }

  ghost predicate Resumes(run: seq<Event>, c: nat) {
    && run != [] && Possible(EMPTY, run) && Inv(Reached(EMPTY, Init(run))) && Told(Init(run))
    && Of(Last(run), c) && c in Reached(EMPTY, Init(run)).calls
  }

  lemma OwnEventTellsCalls(run: seq<Event>, c: nat, d: nat)
    requires Resumes(run, c)
    ensures d in Reached(EMPTY, run).calls ==> CallTold(run, d)
    ensures d >= Reached(EMPTY, run).next ==> Trace(run, d) == []
  {
    var past, e := Init(run), Last(run);
    var s, t := Reached(EMPTY, past), Reached(EMPTY, run);
    assert Enabled(s, e) && t == Step(s, e);
    CallsGoOn(s, e, c);
    StepCalls(s, e);
    RowsAreOld(s);
    assert CallTold(past, c);
    hide Step, Enabled, Inv, Reached, Began, Triggers, Life, Trace, RowTold, CallTold, Possible;
    if d == c {
      MoverTold(run, c);
    } else {
      TraceSnoc(run, d);
      if d in t.calls {
        assert CallTold(past, d);
        CallStaysTold(run, d);
      }
    }
  }

  lemma OwnEventTellsRow(run: seq<Event>, c: nat, r: nat)
    requires Resumes(run, c) && r in Reached(EMPTY, run).rows
    ensures RowTold(run, r)
  {
    var past, e := Init(run), Last(run);
    var s, t := Reached(EMPTY, past), Reached(EMPTY, run);
    assert Enabled(s, e) && t == Step(s, e);
    RowsGoOn(s, e, c);
    hide Step, Enabled, Inv, Reached, Began, Triggers, Life, Trace, RowTold, CallTold, Possible, Told;
    if s.calls[c].phase.Inserting? {
      if r == s.next { NewRowTold(run, c); } else { OtherRowTold(run, c, r); }
    } else {
      OwnRowTold(run, c);
      if r != s.calls[c].phase.row { OtherRowTold(run, c, r); }
    }
  }

  lemma CallIsThere(run: seq<Event>, c: nat)
    requires run != [] && Possible(EMPTY, run) && Inv(Reached(EMPTY, Init(run))) && Told(Init(run)) && Of(Last(run), c)
    ensures Resumes(run, c)
  {
    hide Inv, Told, Reached;
  }

  lemma OwnEventTells(run: seq<Event>)
    requires run != [] && Possible(EMPTY, run) && Inv(Reached(EMPTY, Init(run))) && Told(Init(run)) && OfCall(Last(run))
    ensures Told(run)
  {
    var c := Last(run).call;
    CallIsThere(run, c);
    hide *;
    forall d
      ensures CallFits(run, d)
    {
      OwnEventTellsCalls(run, c, d);
    }
    forall r
      ensures RowFits(run, r)
    {
      if r in Reached(EMPTY, run).rows { OwnEventTellsRow(run, c, r); }
    }
    ToldAll(run);
  }

  ghost predicate CallFits(run: seq<Event>, d: nat) {
    && (d in Reached(EMPTY, run).calls ==> CallTold(run, d))
    && (d >= Reached(EMPTY, run).next ==> Trace(run, d) == [])
  }

  ghost predicate RowFits(run: seq<Event>, r: nat) {
    r in Reached(EMPTY, run).rows ==> RowTold(run, r)
  }

  lemma ToldAll(run: seq<Event>)
    requires forall d :: CallFits(run, d)
    requires forall r :: RowFits(run, r)
    ensures Told(run)
  {
    hide Reached, Trace, CallTold, RowTold;
    forall c | c in Reached(EMPTY, run).calls
      ensures CallTold(run, c)
    {
      assert CallFits(run, c);
    }
    forall r | r in Reached(EMPTY, run).rows
      ensures RowTold(run, r)
    {
      assert RowFits(run, r);
    }
    forall c | c >= Reached(EMPTY, run).next
      ensures Trace(run, c) == []
    {
      assert CallFits(run, c);
    }
  }

  /** The rows of all other calls. */
  lemma OtherRowTold(run: seq<Event>, c: nat, r: nat)
    requires run != [] && Possible(EMPTY, run) && Inv(Reached(EMPTY, Init(run))) && Told(Init(run)) && Of(Last(run), c)
    requires c in Reached(EMPTY, Init(run)).calls
    requires r in Reached(EMPTY, Init(run)).rows && r in Reached(EMPTY, run).rows
    requires Reached(EMPTY, run).rows[r] == Reached(EMPTY, Init(run)).rows[r]
    requires !Reached(EMPTY, Init(run)).calls[c].phase.Inserting? ==> r != Reached(EMPTY, Init(run)).calls[c].phase.row
    ensures RowTold(run, r)
  {
    var past, e := Init(run), Last(run);
    var s, t := Reached(EMPTY, past), Reached(EMPTY, run);
    assert Enabled(s, e) && t == Step(s, e);
    assert RowTold(past, r) && CallTold(past, c);
    CallsGoOn(s, e, c);
    StepCalls(s, e);
    RowsAreOld(s);
    RowStaysTold(run, r);
    hide Step, Enabled, Inv, Reached, Began, Triggers, Life, Trace;
  }

  lemma {:induction false} EveryRunTells(run: seq<Event>)
    requires Possible(EMPTY, run)
    ensures Told(run)
  {
    if run != [] {
      EveryRunTells(Init(run));
      EveryRunIsExclusive(Init(run));
      if OfCall(Last(run)) { OwnEventTells(run); } else { OtherEventTells(run); }
    }
  }

  lemma {:induction false} InserterIn(run: seq<Event>, r: nat)
    ensures Inserter(run, r).Some? ==>
      InsertReturns(Inserter(run, r).value, Done) in run || InsertReturns(Inserter(run, r).value, DoneButThrows) in run
  {
    if run != [] {
      InserterIn(Init(run), r);
      assert run == Init(run) + [Last(run)];
      hide Reached;
    }
  }

  /** The events hold this write of call `c`, and the write took effect. */
  ghost predicate WroteSuccess(run: seq<Event>, c: nat) {
    SuccessReturns(c, Done) in run || SuccessReturns(c, DoneButThrows) in run
  }

  ghost predicate WroteError(run: seq<Event>, c: nat) {
    ErrorReturns(c, Done) in run || ErrorReturns(c, DoneButThrows) in run
  }

  ghost predicate SuccessThrew(run: seq<Event>, c: nat) {
    SuccessReturns(c, Refused) in run || SuccessReturns(c, DoneButThrows) in run
  }

  lemma LifeMeans(t: seq<Event>, c: nat)
    requires Life(t, c) && (InsertReturns(c, Done) in t || InsertReturns(c, DoneButThrows) in t)
    ensures Written(t) == [Status.Running] + (if WroteSuccess(t, c) then [Success] else []) + (if WroteError(t, c) then [Error] else [])
    ensures WroteSuccess(t, c) ==> BodyReturns(c, Resolved) in t
    ensures WroteError(t, c) ==> BodyReturns(c, Failed) in t || SuccessThrew(t, c)
    ensures SuccessThrew(t, c) ==> BodyReturns(c, Resolved) in t && BodyReturns(c, Failed) !in t
    ensures BodyReturns(c, Failed) in t ==> !WroteSuccess(t, c) && BodyReturns(c, Resolved) !in t
  {
    WrittenPrefix(t);
    hide Written;
    if a :| t == [InsertReturns(c, a)] {
    } else if o :| t == [InsertReturns(c, Done), BodyReturns(c, o)] {
    } else if a :| t == [InsertReturns(c, Done), BodyReturns(c, Resolved), SuccessReturns(c, a)] {
    } else if a :| t == [InsertReturns(c, Done), BodyReturns(c, Failed), ErrorReturns(c, a)] {
    } else {
      LongestLife(t, c);
    }
  }

  lemma LongestLife(t: seq<Event>, c: nat)
    requires exists a, b ::
      a != Done && t == [InsertReturns(c, Done), BodyReturns(c, Resolved), SuccessReturns(c, a), ErrorReturns(c, b)]
    ensures Written(t) == [Status.Running] + (if WroteSuccess(t, c) then [Success] else []) + (if WroteError(t, c) then [Error] else [])
    ensures BodyReturns(c, Resolved) in t && BodyReturns(c, Failed) !in t && SuccessThrew(t, c)
  {
    WrittenPrefix(t);
    hide Written;
  }

  lemma WrittenTwo(a: Event, b: Event)
    ensures Written([a, b]) == Writes(a) + Writes(b)
  {
    OneWrite(a);
    WrittenSnoc([a], b);
    assert [a] + [b] == [a, b];
    hide Written, Writes;
  }

  lemma WrittenThree(a: Event, b: Event, c: Event)
    ensures Written([a, b, c]) == Writes(a) + Writes(b) + Writes(c)
  {
    WrittenTwo(a, b);
    WrittenSnoc([a, b], c);
    assert [a, b] + [c] == [a, b, c];
    hide Written, Writes;
  }

  lemma WrittenPrefix(t: seq<Event>)
    ensures |t| == 1 ==> Written(t) == Writes(t[0])
    ensures |t| == 2 ==> Written(t) == Writes(t[0]) + Writes(t[1])
    ensures |t| == 3 ==> Written(t) == Writes(t[0]) + Writes(t[1]) + Writes(t[2])
    ensures |t| == 4 ==> Written(t) == Writes(t[0]) + Writes(t[1]) + Writes(t[2]) + Writes(t[3])
  {
    hide Written, Writes;
    if |t| == 1 {
      assert t == [t[0]];
      OneWrite(t[0]);
    } else if |t| == 2 {
      assert t == [t[0], t[1]];
      WrittenTwo(t[0], t[1]);
    } else if |t| == 3 {
      assert t == [t[0], t[1], t[2]];
      WrittenThree(t[0], t[1], t[2]);
    } else if |t| == 4 {
      assert t == [t[0], t[1], t[2]] + [t[3]];
      WrittenThree(t[0], t[1], t[2]);
      WrittenSnoc([t[0], t[1], t[2]], t[3]);
    }
  }

  lemma TraceAgrees(run: seq<Event>, c: nat)
    ensures var t := Trace(run, c);
      && (WroteSuccess(t, c) <==> WroteSuccess(run, c)) && (WroteError(t, c) <==> WroteError(run, c))
      && (SuccessThrew(t, c) <==> SuccessThrew(run, c))
      && (forall a :: InsertReturns(c, a) in t <==> InsertReturns(c, a) in run)
      && (forall o :: BodyReturns(c, o) in t <==> BodyReturns(c, o) in run)
  {
    forall e
      ensures e in Trace(run, c) <==> e in run && Of(e, c)
    {
      TraceHolds(run, c, e);
    }
    hide Trace;
  }

  /** Over every run, each row belongs to one call, whose name and trigger it bears. It
      was running first, and has since got a success exactly where the body resolved and
      that write took effect, and after it an error exactly where the body failed with an
      error, or the success write threw, and that write took effect. */
  lemma RowsTellTheirCalls(run: seq<Event>, r: nat)
    requires Possible(EMPTY, run) && r in Reached(EMPTY, run).rows
    ensures var row := Reached(EMPTY, run).rows[r];
      && Inserter(run, r).Some?
      && var c := Inserter(run, r).value;
      && Began(run, c, row.task, row.trigger)
      && row.history == [Status.Running] + (if WroteSuccess(run, c) then [Success] else []) + (if WroteError(run, c) then [Error] else [])
      && (WroteSuccess(run, c) ==> BodyReturns(c, Resolved) in run)
      && (WroteError(run, c) ==> BodyReturns(c, Failed) in run || SuccessThrew(run, c))
      && (SuccessThrew(run, c) ==> BodyReturns(c, Resolved) in run && BodyReturns(c, Failed) !in run)
      && (BodyReturns(c, Failed) in run ==> !WroteSuccess(run, c) && BodyReturns(c, Resolved) !in run)
  {
    EveryRunTells(run);
    assert RowTold(run, r);
    var c := Inserter(run, r).value;
    InserterIn(run, r);
    TraceAgrees(run, c);
    LifeMeans(Trace(run, c), c);
    hide *;
  }
}
