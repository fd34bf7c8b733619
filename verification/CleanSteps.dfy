/** What a service's block does when no engine call fails: it moves the
    service's container one step along a small automaton and leaves every
    other service alone. */
module CleanSteps {
  import opened Basics
  import opened Compose
  import opened Ports
  import opened Engine
  import opened Retry
  import opened Planner
  import opened Execution
  import opened Blocks
  import opened Agreement

  ghost predicate Disjoint(names: Naming) {
    forall j: Key, k: Key :: j != k ==> names(j) !! names(k)
  }

  predicate IsClean(es: seq<Env>) {
    forall e <- es :: !e.first && !e.second
  }

  ghost function ContainerOf(w: World, k: Key): Option<Container> {
    if exists id :: id in w.containers && w.containers[id].key == k
    then
      var id :| id in w.containers && w.containers[id].key == k;
      Some(w.containers[id])
    else None
  }

  predicate DriftOf(c: Container, s: Service) { Drifted(ViewOf(0, c), s) }

  // ------------------------------------------------------ faithful services

  function OwnNetworks(s: Service): set<NetName> {
    set n | n in s.config.Networks() :: NetName(Decimal(s.appId), n)
  }

  /** The service survives being started and read back: the engine takes it and
      nothing the planner compares has changed. This can be checked before the
      service is deployed. */
  predicate Faithful(s: Service) {
    Accepted(s, OwnNetworks(s)) && !ConfigChanged(Report(s, OwnNetworks(s)), s.config)
  }

  /** What a start leads to where the service has no container. */
  function Deployed(s: Service, networks: set<NetName>): Option<Container> {
    if Accepted(s, networks) then Some(NewContainer(s, networks)) else None
  }

  lemma {:induction false} JoinsAll(a: nat, wanted: seq<string>, n1: set<NetName>, n2: set<NetName>)
    requires forall n <- wanted :: NetName(Decimal(a), n) in n1 && NetName(Decimal(a), n) in n2
    ensures JoinedNetworks(a, wanted, n1) == JoinedNetworks(a, wanted, n2)
  {
    if wanted != [] {
      JoinsAll(a, Init(wanted), n1, n2);
      assert Last(wanted) in wanted;
    }
  }

  lemma FaithfulStart(s: Service, networks: set<NetName>)
    requires Faithful(s) && OwnNetworks(s) <= networks
    ensures Accepted(s, networks) && !DriftOf(NewContainer(s, networks), s)
  {
    hide ReportedPorts, ReportedEnv, ReportedMounts, PortBindings, PublishedPorts, SharesNamespace, OwnNetwork, PortsTaken;
    forall n | n in s.config.Networks()
      ensures NetName(Decimal(s.appId), n) in networks && NetName(Decimal(s.appId), n) in OwnNetworks(s)
    {}
    JoinsAll(s.appId, s.config.Networks(), networks, OwnNetworks(s));
  }

  // ------------------------------------------------------------ single steps

  /** Service `k` has exactly the container `cid`, equal to `c`, and one entry for it. */
  ghost predicate At(sys: Sys, k: Key, cid: Cid, c: Container) {
    && Sole(sys.world, k, cid) && sys.world.containers[cid] == c
    && |Entries(sys.view, k)| == 1 && Entries(sys.view, k)[0].containerId == Some(cid)
  }

  ghost predicate Empty(sys: Sys, k: Key) {
    Vacant(sys.world, k) && Entries(sys.view, k) == []
  }

  /** Service `k` has the container `c`, or neither container nor entry. */
  ghost predicate Holds(sys: Sys, k: Key, c: Option<Container>) {
    match c
    case None => Empty(sys, k)
    case Some(found) => exists cid :: At(sys, k, cid, found)
  }

  /** Or the start of `c` has not come about, which is ruled out if `strict`. */
  ghost predicate Lands(sys: Sys, k: Key, c: Option<Container>, strict: bool) {
    Holds(sys, k, c) || (!strict && Empty(sys, k))
  }

  lemma LandsMeans(sys: Sys, k: Key, c: Option<Container>, strict: bool)
    requires Lands(sys, k, c, strict)
    ensures ContainerOf(sys.world, k) == c || (!strict && ContainerOf(sys.world, k) == None)
    ensures Empty(sys, k) || exists cid: Cid, found: Container :: At(sys, k, cid, found)
  {}

  /** A clean step of `k` keeps everything but `k`. */
  ghost predicate Aside(before: Sys, after: Sys, k: Key, names: Naming) {
    && Good(after, names)
    && after.world.networks == before.world.networks
    && forall o: Key :: o != k ==> Untouched(before, after, o)
  }

  lemma AsideSame(sys: Sys, after: Sys, k: Key, names: Naming)
    requires Good(sys, names) && after.view == sys.view && after.world == sys.world
    ensures Aside(sys, after, k, names)
  {}

  lemma AsideTransitive(s1: Sys, s2: Sys, s3: Sys, k: Key, names: Naming)
    requires Aside(s1, s2, k, names) && Aside(s2, s3, k, names)
    ensures Aside(s1, s3, k, names)
  {
    forall o: Key | o != k
      ensures Untouched(s1, s3, o)
    {
      hide Entries, Good;
      UntouchedTransitive(s1, s2, s3, o);
    }
  }

  lemma AtAgrees(sys: Sys, k: Key, cid: Cid, c: Container, names: Naming)
    requires At(sys, k, cid, c) && Good(sys, names)
    ensures Agree(sys, k) && Claimed(sys.world, k, cid) && Loose(sys.world, k, cid)
    ensures ContainerOf(sys.world, k) == Some(c) && c.key == k
  {}

  lemma EmptyAgrees(sys: Sys, k: Key)
    requires Empty(sys, k)
    ensures Agree(sys, k) && ContainerOf(sys.world, k) == None
  {}

  lemma CleanStatus(sys: Sys, k: Key, cid: Cid, c: Container, status: Status, state: Mode, names: Naming)
    requires Good(sys, names) && At(sys, k, cid, c)
    ensures var after := ExecStatus(sys, k.app, k.svc, Reply(SetStatus(sys.world, cid, status), true), state, false).sys;
            Aside(sys, after, k, names) && At(after, k, cid, c.(status := status))
  {
    var r := Reply(SetStatus(sys.world, cid, status), true);
    AtAgrees(sys, k, cid, c, names);
    StatusKeeps(sys, k, cid, r, state, false, names);
    UpdatedEntries(sys.view, k.app, k.svc, state, k);
  }

  lemma CleanRemove(sys: Sys, k: Key, cid: Cid, c: Container, names: Naming)
    requires Good(sys, names) && At(sys, k, cid, c) && c.status == StExited
    ensures var r := ExecRemove(sys, k.app, k.svc, cid, false);
            r.ok && Aside(sys, r.sys, k, names) && Empty(r.sys, k)
  {
    AtAgrees(sys, k, cid, c, names);
    RemoveKeeps(sys, k, cid, false, names);
  }

  lemma NameFree(w: World, k: Key, name: string, names: Naming)
    requires GoodWorld(w, names) && Disjoint(names) && Vacant(w, k) && name in names(k)
    ensures !NameTaken(w, name)
  {}

  lemma CleanStart(sys: Sys, k: Key, s: Service, names: Naming, strict: bool)
    requires Good(sys, names) && (strict ==> Disjoint(names)) && Empty(sys, k)
    requires Key(s.appId, s.serviceId) == k && s.ContainerName() in names(k)
    ensures var r := ExecStart(sys, k.app, s, false);
            && Aside(sys, r.sys, k, names)
            && Lands(r.sys, k, Deployed(s, sys.world.networks), strict)
  {
    if strict { NameFree(sys.world, k, s.ContainerName(), names); }
    var r := ExecStart(sys, k.app, s, false);
    if r.ok {
      assert Accepted(s, sys.world.networks);
      hide Report, NamedVolumes, NewContainer, AddService, Entries, Accepted;
      assert sys.world.networks == r.sys.world.networks;
      EmptyAgrees(sys, k);
      StartedWorld(sys.world, k, s, names);
      NoIdLoose(sys.world, k, names);
      StartKeeps(sys, k, s, false, 0, names);
      AddedEntries(sys.view, k.app, s, sys.world.nextId, k);
      assert At(r.sys, k, sys.world.nextId, NewContainer(s, sys.world.networks));
    } else {
      AsideSame(sys, r.sys, k, names);
      assert strict ==> !Accepted(s, sys.world.networks);
    }
  }

  lemma NoIdLoose(w: World, k: Key, names: Naming)
    requires GoodWorld(w, names)
    ensures Loose(w, k, 0)
  {}

  // ---------------------------------------------------------- the automaton

  /** One pass in the life of a service's container; `networks` are those that
      exist when the service's turn comes. */
  ghost predicate Moves(tgt: Option<Service>, before: Option<Container>, after: Option<Container>, networks: set<NetName>) {
    match tgt
    case None => after == None
    case Some(s) =>
      match (s.Desired(), before)
      case (Running, None) => Fresh(s, after, networks)
      case (_, None) => after == None
      case (Running, Some(c)) =>
        if c.status == StExited then Revived(c, after, networks)
        else if c.status == StPaused then after == Some(c.(status := StRunning))
        else if DriftOf(c, s) then Fresh(s, after, networks)
        else after == before
      case (Paused, Some(c)) =>
        if c.status == StExited then Revived(c, after, networks)
        else if c.status == StRunning then after == Some(c.(status := StPaused))
        else if DriftOf(c, s) then Fresh(s, after, networks)
        else after == before
      case (Stopped, Some(c)) =>
        if c.status == StExited then Fresh(s, after, networks)
        else after == Some(c.(status := StExited))
  }

  /** Newly started from the target, unless the engine refuses it. */
  ghost predicate Fresh(s: Service, after: Option<Container>, networks: set<NetName>) {
    after == Deployed(s, networks)
  }

  /** Newly started from what the view recorded of the exited container, unless the
      network its mode names is gone. */
  ghost predicate Revived(c: Container, after: Option<Container>, networks: set<NetName>) {
    exists cid :: after == Deployed(ViewOf(cid, c), networks)
  }
}
