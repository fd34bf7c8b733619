/** Which services read back unchanged: the condition `Faithful`, which decides
    whether reconciliation settles, spelled out field by field. */
module ReadBack {
  import opened Basics
  import opened Compose
  import opened Ports
  import opened Engine
  import opened CleanSteps

  lemma {:induction false} NetworksReadBack(a: nat, wanted: seq<string>, networks: set<NetName>)
    requires forall n <- wanted :: NetName(Decimal(a), n) in networks
    ensures |JoinedNetworks(a, wanted, networks)| <= |wanted|
    ensures JoinedNetworks(a, wanted, networks) == wanted <==> NoDup(wanted)
  {
    if wanted != [] {
      var earlier, n := Init(wanted), Last(wanted);
      var joined := JoinedNetworks(a, earlier, networks);
      NetworksReadBack(a, earlier, networks);
      assert wanted == earlier + [n] && n in wanted;
      if NoDup(wanted) { LastIsNew(wanted); }
      if JoinedNetworks(a, wanted, networks) == wanted {
        assert Init(joined + [n]) == joined;
        assert joined == earlier && n !in earlier;
      }
    }
  }

  lemma MountsReadBack(entries: seq<string>)
    ensures ReportedMounts(entries) == entries <==> forall e <- entries :: ReportedMount(e) == e
  {
    var reported := ReportedMounts(entries);
    if reported == entries {
      forall e | e in entries
        ensures ReportedMount(e) == e
      {
        var i :| 0 <= i < |entries| && entries[i] == e;
        assert reported[i] == e;
      }
    }
  }

  lemma EnvironmentReadsBack(env: map<string, string>)
    ensures FilteredEnvironment(ReportedEnv(env), env) == env <==> forall k <- env :: k != "" && '=' !in k && k != "__proto__"
  {
    EnvironmentTestIsSubmap(ReportedEnv(env), env);
  }

  lemma {:induction false} WithoutFirst(w: seq<string>, n: string)
    requires NoDup(w) && w != [] && w[0] == n
    ensures Without(w, [n]) == w[1..]
  {
    var earlier := Init(w);
    if earlier == [] {
      assert w == [n];
    } else {
      LastIsNew(w);
      assert earlier[0] == n && n in earlier;
      WithoutFirst(earlier, n);
      assert earlier[1..] + [Last(w)] == w[1..];
    }
  }

  /** The networks read back as listed exactly if none is listed twice, none at all
      where there is no namespace of its own, and the one its mode names first. */
  lemma AttachedReadsBack(s: Service)
    ensures var own := OwnNetwork(s.appId, NetworkMode(s.config));
      (ModeThere(s.appId, NetworkMode(s.config), OwnNetworks(s)) && Attached(s, OwnNetworks(s)) == s.config.Networks())
      <==> if SharesNamespace(NetworkMode(s.config)) then s.config.Networks() == []
           else NoDup(s.config.Networks()) && (own.Some? ==> s.config.Networks() != [] && s.config.Networks()[0] == own.value)
  {
    var wanted, networks := s.config.Networks(), OwnNetworks(s);
    var own := OwnNetwork(s.appId, NetworkMode(s.config));
    var joined := JoinedNetworks(s.appId, wanted, networks);
    OwnIsNoShared(s.appId, NetworkMode(s.config));
    forall n | n in wanted
      ensures NetName(Decimal(s.appId), n) in networks
    {}
    NetworksReadBack(s.appId, wanted, networks);
    JoinedOnce(s.appId, wanted, networks);
    if own.Some? && !SharesNamespace(NetworkMode(s.config)) {
      var n := own.value;
      if NoDup(wanted) && wanted != [] && wanted[0] == n {
        WithoutFirst(wanted, n);
        assert wanted[0] in wanted && [n] + wanted[1..] == wanted;
      }
      if Attached(s, networks) == wanted { FirstThenRest(joined, n, wanted); }
    }
    hide SharesNamespace, OwnNetwork, JoinedNetworks, NoDup, Without, OwnNetworks;
  }

  lemma {:induction false} JoinedOnce(a: nat, wanted: seq<string>, networks: set<NetName>)
    ensures NoDup(JoinedNetworks(a, wanted, networks))
  {
    if wanted != [] { JoinedOnce(a, Init(wanted), networks); }
  }

  lemma FirstThenRest(joined: seq<string>, n: string, wanted: seq<string>)
    requires NoDup(joined) && [n] + Without(joined, [n]) == wanted
    ensures NoDup(wanted) && wanted[0] == n && n in wanted
  {
    WithoutUnique(joined, [n]);
    var rest := Without(joined, [n]);
    assert forall i | 0 < i < |wanted| :: wanted[i] == rest[i - 1] && rest[i - 1] in rest;
    assert wanted[0] == n;
  }

  lemma {:induction false} WithoutUnique(s: seq<string>, excluded: seq<string>)
    requires NoDup(s)
    ensures NoDup(Without(s, excluded))
  {
    if s != [] {
      LastIsNew(s);
      WithoutUnique(Init(s), excluded);
      var kept := Without(Init(s), excluded);
      assert forall i | 0 <= i < |kept| :: kept[i] in kept;
    }
  }

  /** A service reads back unchanged exactly when every port is a plain
      `host:container` pair with its own container port, no variable name is empty,
      contains '=' or is `__proto__`, every mount is a plain `source:destination`, no
      network is listed twice, and the restart policy is not the empty text; when it
      has neither ports nor networks if its mode leaves it no namespace of its own; and
      when the network of the app that its mode names, if any, is the first it lists. */
  lemma FaithfulMeans(s: Service)
    ensures var mode := NetworkMode(s.config);
      Faithful(s) <==>
        && (if SharesNamespace(mode) then s.config.Ports() == [] && s.config.Networks() == []
            else DistinctTargets(s.config.Ports()) && (forall p <- s.config.Ports() :: PlainPort(p)) && NoDup(s.config.Networks()))
        && (OwnNetwork(s.appId, mode).Some? ==>
              s.config.Networks() != [] && s.config.Networks()[0] == OwnNetwork(s.appId, mode).value)
        && (forall k <- s.config.Env() :: k != "" && '=' !in k && k != "__proto__")
        && (forall e <- s.config.Volumes() :: ReportedMount(e) == e)
        && s.config.restart != Some("")
  {
    FaithfulIs(s);
    PublishedReadBack(s);
    AttachedReadsBack(s);
    OwnIsNoShared(s.appId, NetworkMode(s.config));
    EnvironmentReadsBack(s.config.Env());
    MountsReadBack(s.config.Volumes());
    hide *;
  }

  lemma PublishedReadBack(s: Service)
    ensures (PortsTaken(s) && PublishedPorts(s.config) == s.config.Ports())
      <==> if SharesNamespace(NetworkMode(s.config)) then s.config.Ports() == []
           else DistinctTargets(s.config.Ports()) && forall p <- s.config.Ports() :: PlainPort(p)
  {
    PortsReadBack(s.config.Ports());
    assert StartsWith(NetworkMode(s.config), "container:") ==> SharesNamespace(NetworkMode(s.config));
    assert PortBindings([]) == [];
    hide SharesNamespace, ReportedPorts, DistinctTargets, PlainPort, PortBindings, StartsWith;
  }

  lemma FaithfulIs(s: Service)
    ensures Faithful(s) <==>
      && PortsTaken(s) && PublishedPorts(s.config) == s.config.Ports()
      && ModeThere(s.appId, NetworkMode(s.config), OwnNetworks(s)) && Attached(s, OwnNetworks(s)) == s.config.Networks()
      && FilteredEnvironment(ReportedEnv(s.config.Env()), s.config.Env()) == s.config.Env()
      && ReportedMounts(s.config.Volumes()) == s.config.Volumes()
      && s.config.restart != Some("")
  {
    hide PublishedPorts, PortsTaken, ModeThere, FilteredEnvironment, ReportedEnv, ReportedMounts, Attached;
  }

  /** A mount with an access mode, such as `data:/data:ro`, does not read back. */
  lemma {:induction false} MountMeans(e: string)
    ensures ReportedMount(e) == e <==> exists source: string, destination: string ::
      ':' !in source && ':' !in destination && e == source + ":" + destination
  {
    if ReportedMount(e) == e && ':' in e {
      assert e == BeforeColon(e) + ":" + AfterColon(e);
      NoColonBefore(e);
      NoColonAfter(e);
    }
    if source, destination :| ':' !in source && ':' !in destination && e == source + ":" + destination {
      JoinSplit(source, destination);
    }
  }

  // --------------------------------------------------------------- created volumes

  /** The entry mounts the Docker volume `v`. */
  predicate Mounts(e: string, v: string) {
    ':' in e && e[0] != '/' && BeforeColon(e) == v
  }

  lemma ReportedMountOf(e: string, v: string)
    requires v != ""
    ensures v in NamedVolumes([ReportedMount(e)]) <==> Mounts(e, v)
  {
    var r := ReportedMount(e);
    assert Init([r]) == [];
    if ':' in e {
      NoColonBefore(e);
      NoColonAfter(e);
      JoinSplit(BeforeColon(e), AfterColon(e));
      assert r[0] == if BeforeColon(e) == "" then ':' else BeforeColon(e)[0];
    }
  }

  lemma {:induction false} NamedJoins(one: seq<string>, two: seq<string>)
    ensures NamedVolumes(one + two) == NamedVolumes(one) + NamedVolumes(two)
  {
    if two == [] {
      assert one + two == one;
    } else {
      assert Init(one + two) == one + Init(two) && Last(one + two) == Last(two);
      NamedJoins(one, Init(two));
    }
  }

  predicate AnyMounts(entries: seq<string>, v: string) {
    exists e <- entries :: Mounts(e, v)
  }

  lemma AnyMountsSnoc(entries: seq<string>, v: string)
    requires entries != []
    ensures AnyMounts(entries, v) <==> AnyMounts(Init(entries), v) || Mounts(Last(entries), v)
  {
    hide Mounts;
    forall e
      ensures e in entries <==> e in Init(entries) || e == Last(entries)
    {
      InLast(entries, e);
    }
  }

  lemma ReportedSnoc(entries: seq<string>)
    requires entries != []
    ensures ReportedMounts(entries) == ReportedMounts(Init(entries)) + [ReportedMount(Last(entries))]
  {
    hide ReportedMount;
  }

  lemma {:induction false} ReportedMountsOf(entries: seq<string>, v: string)
    requires v != ""
    ensures v in NamedVolumes(ReportedMounts(entries)) <==> AnyMounts(entries, v)
  {
    if entries != [] {
      hide *;
      var e, earlier := Last(entries), Init(entries);
      ReportedMountsOf(earlier, v);
      ReportedMountOf(e, v);
      ReportedSnoc(entries);
      NamedJoins(ReportedMounts(earlier), [ReportedMount(e)]);
      AnyMountsSnoc(entries, v);
    }
  }

  /** The volume that a `createVolume` step makes for `v` is mounted by a container
      started afterwards exactly if some entry of the service spells out that
      volume's Docker name, app id included. The entries that name `v`, for which it
      was made, mount another volume. */
  lemma CreatedVolumeMountedIff(w: World, a: nat, v: string, s: Service)
    requires StartOp(CreateVolumeOp(w, a, v).world, s).ok
    ensures var c := StartOp(CreateVolumeOp(w, a, v).world, s).world.containers[w.nextId];
      VolumeDockerName(a, v) in NamedVolumes(c.config.Volumes())
      <==> AnyMounts(s.config.Volumes(), VolumeDockerName(a, v))
    ensures forall e :: Mounts(e, v) ==> !Mounts(e, VolumeDockerName(a, v))
  {
    ReportedMountsOf(s.config.Volumes(), VolumeDockerName(a, v));
    assert |VolumeDockerName(a, v)| > |v|;
    hide NamedVolumes, AnyMounts, ReportedMounts, NameTaken, Accepted;
  }
}
