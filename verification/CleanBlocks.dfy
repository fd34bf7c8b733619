/** From single steps to blocks and whole failure-free passes: every pass moves
    each service's container along `Moves`, and nothing else happens to it. */
module CleanBlocks {
  import opened Basics
  import opened Compose
  import opened Ports
  import opened Engine
  import opened Retry
  import opened Planner
  import opened Execution
  import opened Blocks
  import opened Agreement
  import opened CleanSteps

  lemma RunOne(sys: Sys, target: Apps, x: AppStep, e: Env)
    ensures Run(sys, target, [x], [e]) == ExecStep(sys, target, x, e).sys
  {
    hide ExecStep;
    assert Init([x]) == [] && Init([e]) == [];
  }

  lemma RunTwo(sys: Sys, target: Apps, x: AppStep, y: AppStep, es: seq<Env>)
    requires |es| == 2
    ensures Run(sys, target, [x, y], es) == ExecStep(ExecStep(sys, target, x, es[0]).sys, target, y, es[1]).sys
  {
    hide ExecStep;
    assert Init([x, y]) == [x] && Init(es) == [es[0]];
    RunOne(sys, target, x, es[0]);
  }

  lemma RunThree(sys: Sys, target: Apps, x: AppStep, y: AppStep, z: AppStep, es: seq<Env>)
    requires |es| == 3
    ensures var s1 := ExecStep(sys, target, x, es[0]).sys;
            var s2 := ExecStep(s1, target, y, es[1]).sys;
            Run(sys, target, [x, y, z], es) == ExecStep(s2, target, z, es[2]).sys
  {
    hide ExecStep;
    assert Init([x, y, z]) == [x, y] && Init(es) == es[..2];
    RunTwo(sys, target, x, y, es[..2]);
  }

  // ------------------------------------------------------- one kind of block

  lemma CleanStopStep(sys: Sys, target: Apps, k: Key, cid: Cid, c: Container, e: Env, names: Naming)
    requires Good(sys, names) && At(sys, k, cid, c) && !e.first
    ensures var after := ExecStep(sys, target, StopContainer(k.app, k.svc, cid), e).sys;
            Aside(sys, after, k, names) && At(after, k, cid, c.(status := StExited))
  {
    hide Aside, At, Good;
    SoleThere(sys, k, cid, c);
    CleanStatus(sys, k, cid, c, StExited, Stopped, names);
  }

  lemma CleanPauseStep(sys: Sys, target: Apps, k: Key, cid: Cid, c: Container, e: Env, names: Naming)
    requires Good(sys, names) && At(sys, k, cid, c) && !e.first && c.status == StRunning
    ensures var after := ExecStep(sys, target, PauseContainer(k.app, k.svc, cid), e).sys;
            Aside(sys, after, k, names) && At(after, k, cid, c.(status := StPaused))
  {
    SoleThere(sys, k, cid, c);
    hide Aside, At, Good;
    CleanStatus(sys, k, cid, c, StPaused, Paused, names);
  }

  lemma CleanUnpauseStep(sys: Sys, target: Apps, k: Key, cid: Cid, c: Container, e: Env, names: Naming)
    requires Good(sys, names) && At(sys, k, cid, c) && !e.first && c.status == StPaused
    ensures var after := ExecStep(sys, target, UnpauseContainer(k.app, k.svc, cid), e).sys;
            Aside(sys, after, k, names) && At(after, k, cid, c.(status := StRunning))
  {
    SoleThere(sys, k, cid, c);
    hide Aside, At, Good;
    CleanStatus(sys, k, cid, c, StRunning, Running, names);
  }

  lemma SoleThere(sys: Sys, k: Key, cid: Cid, c: Container)
    requires At(sys, k, cid, c)
    ensures cid in sys.world.containers && sys.world.containers[cid] == c && c.key == k
  {}

  lemma AsideGood(before: Sys, after: Sys, k: Key, names: Naming)
    requires Aside(before, after, k, names)
    ensures Good(after, names) && after.world.networks == before.world.networks
  {}

  lemma DownloadAside(sys: Sys, target: Apps, step: AppStep, e: Env, k: Key, names: Naming)
    requires step.DownloadImage? && Good(sys, names)
    ensures var after := ExecStep(sys, target, step, e).sys;
            Aside(sys, after, k, names) && after.view == sys.view && after.world == sys.world
  {
    AsideSame(sys, ExecStep(sys, target, step, e).sys, k, names);
  }

  /** Stop and remove. */
  lemma CleanDrop(sys: Sys, target: Apps, k: Key, cid: Cid, c: Container, es: seq<Env>, names: Naming)
    requires Good(sys, names) && At(sys, k, cid, c) && |es| == 2 && IsClean(es)
    ensures var after := Run(sys, target, [StopContainer(k.app, k.svc, cid), RemoveContainer(k.app, k.svc, cid)], es);
            Aside(sys, after, k, names) && Empty(after, k)
  {
    hide Aside, At, Good, Empty, ExecRemove, ExecStatus;
    var stop, remove := StopContainer(k.app, k.svc, cid), RemoveContainer(k.app, k.svc, cid);
    RunTwo(sys, target, stop, remove, es);
    CleanStopStep(sys, target, k, cid, c, es[0], names);
    var mid := ExecStep(sys, target, stop, es[0]).sys;
    AsideGood(sys, mid, k, names);
    CleanRemove(mid, k, cid, c.(status := StExited), names);
    AsideTransitive(sys, mid, ExecStep(mid, target, remove, es[1]).sys, k, names);
  }

  /** Download and start. */
  lemma CleanAdd(sys: Sys, target: Apps, k: Key, s: Service, es: seq<Env>, names: Naming, strict: bool)
    requires Good(sys, names) && (strict ==> Disjoint(names)) && Empty(sys, k) && |es| == 2 && IsClean(es)
    requires Key(s.appId, s.serviceId) == k && s.ContainerName() in names(k)
    ensures var after := Run(sys, target, [DownloadImage(k.app, s.imageName), StartContainer(k.app, s)], es);
            && Aside(sys, after, k, names)
            && Lands(after, k, Deployed(s, sys.world.networks), strict)
  {
    hide Aside, At, Good, ExecStart, Disjoint, ExecDownload, NewContainer, Lands, Deployed;
    var get, start := DownloadImage(k.app, s.imageName), StartContainer(k.app, s);
    RunTwo(sys, target, get, start, es);
    DownloadAside(sys, target, get, es[0], k, names);
    var mid := ExecStep(sys, target, get, es[0]).sys;
    AsideGood(sys, mid, k, names);
    CleanStart(mid, k, s, names, strict);
    AsideTransitive(sys, mid, ExecStart(mid, k.app, s, false).sys, k, names);
  }

  /** Stop, remove and start from the target. */
  lemma CleanReplace(sys: Sys, target: Apps, k: Key, cid: Cid, c: Container, s: Service, es: seq<Env>, names: Naming, strict: bool)
    requires Good(sys, names) && (strict ==> Disjoint(names)) && At(sys, k, cid, c) && |es| == 3 && IsClean(es)
    requires Key(s.appId, s.serviceId) == k && s.ContainerName() in names(k)
    ensures var after := Run(sys, target, [StopContainer(k.app, k.svc, cid), RemoveContainer(k.app, k.svc, cid),
                                           StartContainer(k.app, s)], es);
            && Aside(sys, after, k, names)
            && Lands(after, k, Deployed(s, sys.world.networks), strict)
  {
    hide Aside, At, Good, ExecStart, Disjoint, NewContainer, ExecRemove, ExecStatus, Empty, Lands, Deployed;
    var stop, remove, start := StopContainer(k.app, k.svc, cid), RemoveContainer(k.app, k.svc, cid), StartContainer(k.app, s);
    RunThree(sys, target, stop, remove, start, es);
    RunTwo(sys, target, stop, remove, es[..2]);
    CleanDrop(sys, target, k, cid, c, es[..2], names);
    var mid := Run(sys, target, [stop, remove], es[..2]);
    AsideGood(sys, mid, k, names);
    CleanStart(mid, k, s, names, strict);
    AsideTransitive(sys, mid, ExecStart(mid, k.app, s, false).sys, k, names);
  }

  lemma CleanRecreate(sys: Sys, target: Apps, k: Key, cid: Cid, c: Container, cur: Service, s: Service,
                      es: seq<Env>, names: Naming, strict: bool)
    requires Good(sys, names) && (strict ==> Disjoint(names)) && At(sys, k, cid, c) && IsClean(es)
    requires |es| == |RecreateSteps(k.app, k.app, k.svc, cid, cur, s)|
    requires Key(s.appId, s.serviceId) == k && s.ContainerName() in names(k)
    ensures var after := Run(sys, target, RecreateSteps(k.app, k.app, k.svc, cid, cur, s), es);
            && Aside(sys, after, k, names)
            && Lands(after, k, Deployed(s, sys.world.networks), strict)
  {
    hide Aside, Good, Disjoint, NewContainer, ExecStep, Run, Lands, Deployed;
    var rest := [StopContainer(k.app, k.svc, cid), RemoveContainer(k.app, k.svc, cid), StartContainer(k.app, s)];
    if cur.imageName != s.imageName {
      var get := DownloadImage(k.app, s.imageName);
      assert RecreateSteps(k.app, k.app, k.svc, cid, cur, s) == [get] + rest;
      assert es == [es[0]] + es[1..];
      RunConcat(sys, target, [get], rest, [es[0]], es[1..]);
      RunOne(sys, target, get, es[0]);
      DownloadAside(sys, target, get, es[0], k, names);
      var mid := ExecStep(sys, target, get, es[0]).sys;
      AsideGood(sys, mid, k, names);
      CleanReplace(mid, target, k, cid, c, s, es[1..], names, strict);
      AsideTransitive(sys, mid, Run(mid, target, rest, es[1..]), k, names);
    } else {
      assert RecreateSteps(k.app, k.app, k.svc, cid, cur, s) == rest;
      CleanReplace(sys, target, k, cid, c, s, es, names, strict);
    }
  }

  /** The entry that a revival starts from. */
  lemma EntryFound(sys: Sys, k: Key, cid: Cid, c: Container, names: Naming)
    requires Good(sys, names) && At(sys, k, cid, c) && Entries(sys.view, k) == [ViewOf(cid, c)]
    ensures FirstById(ServicesOf(sys.view, k.app), k.svc) == Some(ViewOf(cid, c))
    ensures c.key == k && ViewOf(cid, c).ContainerName() in names(k)
  {
    var services := ServicesOf(sys.view, k.app);
    FirstIsEntry(services, k.svc);
    assert GoodEntry(k.app, FirstById(services, k.svc).value, names);
  }

  /** Remove and recreate from the entry in the view. */
  lemma CleanRevive(sys: Sys, target: Apps, k: Key, cid: Cid, c: Container, e: Env, names: Naming, strict: bool)
    requires Good(sys, names) && (strict ==> Disjoint(names)) && At(sys, k, cid, c) && c.status == StExited
    requires Entries(sys.view, k) == [ViewOf(cid, c)]
    requires !e.first && !e.second
    ensures var after := ExecStep(sys, target, StartStoppedContainer(k.app, k.svc, cid), e).sys;
            && Aside(sys, after, k, names) && cid !in after.world.containers
            && Lands(after, k, Deployed(ViewOf(cid, c), sys.world.networks), strict)
  {
    hide Aside, At, Good, ExecStart, Disjoint, NewContainer, ExecRemove, Empty, FirstById, Accepted, Lands, Deployed;
    EntryFound(sys, k, cid, c, names);
    var s := ViewOf(cid, c);
    CleanRemove(sys, k, cid, c, names);
    var mid := ExecRemove(sys, k.app, k.svc, cid, false).sys;
    AsideGood(sys, mid, k, names);
    CleanStart(mid, k, s, names, strict);
    var after := ExecStart(mid, k.app, s, false).sys;
    AsideTransitive(sys, mid, after, k, names);
    OldIdGone(sys, mid, after, k, cid, c, s, names);
  }

  lemma OldIdGone(sys: Sys, mid: Sys, after: Sys, k: Key, cid: Cid, c: Container, s: Service, names: Naming)
    requires Good(sys, names) && At(sys, k, cid, c)
    requires mid == ExecRemove(sys, k.app, k.svc, cid, false).sys && Empty(mid, k)
    requires after == ExecStart(mid, k.app, s, false).sys
    ensures cid !in after.world.containers
  {}

  function StatusFor(mode: Mode): Status {
    match mode
    case Running => StRunning
    case Paused => StPaused
    case Stopped => StExited
  }

  /** A change of desired state. Pausing after a revival names the old id and does nothing. */
  lemma CleanTransition(sys: Sys, target: Apps, k: Key, cid: Cid, c: Container, to: Mode, es: seq<Env>, names: Naming, strict: bool)
    requires Good(sys, names) && (strict ==> Disjoint(names)) && At(sys, k, cid, c) && IsClean(es) && ModeOf(c.status) != to
    requires Entries(sys.view, k) == [ViewOf(cid, c)]
    requires |es| == |TransitionSteps(k.app, k.svc, cid, ModeOf(c.status), to)|
    ensures var after := Run(sys, target, TransitionSteps(k.app, k.svc, cid, ModeOf(c.status), to), es);
            && Aside(sys, after, k, names)
            && if c.status == StExited
               then Lands(after, k, Deployed(ViewOf(cid, c), sys.world.networks), strict)
               else At(after, k, cid, c.(status := StatusFor(to)))
  {
    hide Aside, Good, Disjoint, At, ExecStep, ViewOf, NewContainer, Entries, Lands, Deployed;
    var steps := TransitionSteps(k.app, k.svc, cid, ModeOf(c.status), to);
    if |steps| == 1 {
      assert es == [es[0]];
      RunOne(sys, target, steps[0], es[0]);
      if c.status == StExited {
        CleanRevive(sys, target, k, cid, c, es[0], names, strict);
      } else if to == Stopped {
        CleanStopStep(sys, target, k, cid, c, es[0], names);
      } else if to == Paused {
        CleanPauseStep(sys, target, k, cid, c, es[0], names);
      } else {
        CleanUnpauseStep(sys, target, k, cid, c, es[0], names);
      }
    } else {
      RunTwo(sys, target, steps[0], steps[1], es);
      var mid := ExecStep(sys, target, steps[0], es[0]).sys;
      if c.status == StExited {
        CleanRevive(sys, target, k, cid, c, es[0], names, strict);
        AsideGood(sys, mid, k, names);
        LatePauseFails(mid, target, k, cid, es[1]);
      } else {
        CleanUnpauseStep(sys, target, k, cid, c, es[0], names);
        AsideGood(sys, mid, k, names);
        CleanStopStep(mid, target, k, cid, c.(status := StRunning), es[1], names);
        AsideTransitive(sys, mid, ExecStep(mid, target, steps[1], es[1]).sys, k, names);
      }
    }
  }

  lemma LatePauseFails(sys: Sys, target: Apps, k: Key, cid: Cid, e: Env)
    requires cid !in sys.world.containers
    ensures ExecStep(sys, target, PauseContainer(k.app, k.svc, cid), e).sys == sys
  {}

  // ------------------------------------------------------- any service block

  ghost predicate Settled(sys: Sys, k: Key) {
    Empty(sys, k) || exists cid: Cid, c: Container :: At(sys, k, cid, c)
  }

  /** `view` is what a sync reads for `k`, and `k` has not been touched since. */
  ghost predicate Synced(view: Apps, sys: Sys, k: Key) {
    && Entries(sys.view, k) == Entries(view, k)
    && (if Entries(view, k) == [] then Empty(sys, k)
        else exists cid: Cid, c: Container :: At(sys, k, cid, c) && Entries(view, k) == [ViewOf(cid, c)])
  }

  /** The service's move; if not `strict`, its container may also be lost, because a
      shared name or the retry table keeps it from being started. */
  ghost predicate Went(tgt: Option<Service>, before: Option<Container>, after: Option<Container>, networks: set<NetName>,
                       strict: bool)
  {
    Moves(tgt, before, after, networks) || (!strict && after == None)
  }

  lemma AbsentMoves(sys: Sys, target: Apps, k: Key, tgt: Option<Service>, gate: Gate, es: seq<Env>, names: Naming, strict: bool)
    requires Good(sys, names) && (strict ==> Disjoint(names)) && Empty(sys, k) && IsClean(es)
    requires tgt.Some? ==> var s := tgt.value;
               && Key(s.appId, s.serviceId) == k && s.ContainerName() in names(k)
               && (strict ==> Allows(gate, s.imageName))
    requires |es| == |ServiceSteps(k.app, k.app, k.svc, None, tgt, gate)|
    ensures var after := Run(sys, target, ServiceSteps(k.app, k.app, k.svc, None, tgt, gate), es);
            && Aside(sys, after, k, names) && Settled(after, k)
            && Went(tgt, None, ContainerOf(after.world, k), sys.world.networks, strict)
  {
    hide Aside, Good, Disjoint, At, Empty, ExecStep, ContainerOf, Allows, DriftOf, NewContainer, Lands, Deployed;
    if tgt.Some? && tgt.value.Desired() == Running && Allows(gate, tgt.value.imageName) {
      CleanAdd(sys, target, k, tgt.value, es, names, strict);
      var after := Run(sys, target, ServiceSteps(k.app, k.app, k.svc, None, tgt, gate), es);
      LandsMeans(after, k, Deployed(tgt.value, sys.world.networks), strict);
    } else {
      AsideSame(sys, sys, k, names);
      EmptyAgrees(sys, k);
    }
  }

  lemma PresentMoves(sys: Sys, target: Apps, k: Key, cid: Cid, c: Container, tgt: Option<Service>, gate: Gate,
                     es: seq<Env>, names: Naming, strict: bool)
    requires Good(sys, names) && (strict ==> Disjoint(names)) && At(sys, k, cid, c) && IsClean(es)
    requires tgt.Some? ==> var s := tgt.value;
               Key(s.appId, s.serviceId) == k && s.ContainerName() in names(k)
    requires Entries(sys.view, k) == [ViewOf(cid, c)]
    requires |es| == |ServiceSteps(k.app, k.app, k.svc, Some(ViewOf(cid, c)), tgt, gate)|
    ensures var after := Run(sys, target, ServiceSteps(k.app, k.app, k.svc, Some(ViewOf(cid, c)), tgt, gate), es);
            && Aside(sys, after, k, names) && Settled(after, k)
            && Went(tgt, Some(c), ContainerOf(after.world, k), sys.world.networks, strict)
  {
    hide Aside, Good, Disjoint, At, Empty, ExecStep, ContainerOf, NewContainer, ConfigChanged, RecreateSteps, TransitionSteps, Run, Lands, Deployed, Entries;
    var cur := ViewOf(cid, c);
    var after := Run(sys, target, ServiceSteps(k.app, k.app, k.svc, Some(cur), tgt, gate), es);
    if tgt.None? {
      CleanDrop(sys, target, k, cid, c, es, names);
      EmptyAgrees(after, k);
    } else if cur.Desired() != tgt.value.Desired() {
      CleanTransition(sys, target, k, cid, c, tgt.value.Desired(), es, names, strict);
      AsideGood(sys, after, k, names);
      if c.status == StExited {
        LandsMeans(after, k, Deployed(cur, sys.world.networks), strict);
      } else {
        AtAgrees(after, k, cid, c.(status := StatusFor(tgt.value.Desired())), names);
      }
    } else if NeedsUpdate(cur, tgt.value) {
      CleanRecreate(sys, target, k, cid, c, cur, tgt.value, es, names, strict);
      LandsMeans(after, k, Deployed(tgt.value, sys.world.networks), strict);
    } else {
      NothingRun(sys, target, es);
      AsideSame(sys, sys, k, names);
      AtAgrees(sys, k, cid, c, names);
    }
  }

  lemma NothingRun(sys: Sys, target: Apps, es: seq<Env>)
    requires |es| == 0
    ensures Run(sys, target, [], es) == sys
  {}

  lemma BlockMoves(view: Apps, sys: Sys, target: Apps, gate: Gate, k: Key, es: seq<Env>, names: Naming, strict: bool)
    requires Good(sys, names) && GoodView(view, names) && GoodTarget(target, names) && (strict ==> Disjoint(names))
    requires Synced(view, sys, k) && IsClean(es)
    requires strict && Find(target, k).Some? ==> Allows(GateFor(view, k.app, gate), Find(target, k).value.imageName)
    requires |es| == |BlockSteps(One(k), view, target, gate)|
    ensures var after := Run(sys, target, BlockSteps(One(k), view, target, gate), es);
            && Aside(sys, after, k, names) && Settled(after, k)
            && Went(Find(target, k), ContainerOf(sys.world, k), ContainerOf(after.world, k), sys.world.networks, strict)
  {
    hide Run, ServiceSteps, Aside, Good, At, Empty, Disjoint, Moves, ContainerOf, Allows;
    FoundEntry(view, k, names);
    if Find(target, k).Some? { FoundTarget(target, k, names); }
    if Entries(view, k) == [] {
      EmptyAgrees(sys, k);
      AbsentMoves(sys, target, k, Find(target, k), GateFor(view, k.app, gate), es, names, strict);
    } else {
      var cid, c :| At(sys, k, cid, c) && Entries(view, k) == [ViewOf(cid, c)];
      AtAgrees(sys, k, cid, c, names);
      PresentMoves(sys, target, k, cid, c, Find(target, k), GateFor(view, k.app, gate), es, names, strict);
    }
  }
}
