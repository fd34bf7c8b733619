/** What a service asks for, what a container was given, and when the planner takes
    the one for the other, spelled out field by field. */
module Expectations {
  import opened Basics
  import opened Compose
  import opened Ports
  import opened Engine
  import opened Retry
  import opened Planner

  /** A list or table that is not given counts as empty. */
  function Given<T>(field: Option<T>, empty: T): T {
    match field
    case Some(value) => value
    case None => empty
  }

  /** So does a text, and an empty one counts as not given. */
  function Chosen(field: Option<string>, default: string): string {
    match field
    case Some(text) => if text == "" then default else text
    case None => default
  }

  // ---------------------------------------------------------- being up to date

  /** Every variable the target defines has its target value. */
  ghost predicate Provides(current: Option<map<string, string>>, wanted: Option<map<string, string>>) {
    forall v <- Given(wanted, map[]) ::
      v in Given(current, map[]) && Given(current, map[])[v] == Given(wanted, map[])[v]
  }

  /** An image and a configuration are what the target asks for, as far as it says. */
  ghost predicate Meets(image: string, current: Config, target: Service) {
    var wanted := target.config;
    && image == target.imageName
    && Given(current.ports, []) == Given(wanted.ports, [])
    && Given(current.volumes, []) == Given(wanted.volumes, [])
    && Given(current.networks, []) == Given(wanted.networks, [])
    && Provides(current.environment, wanted.environment)
    && (wanted.restart.Some? ==> Chosen(current.restart, "no") == Chosen(wanted.restart, "no"))
    && (wanted.networkMode.Some? ==> Chosen(current.networkMode, "bridge") == Chosen(wanted.networkMode, "bridge"))
  }

  /** The container is in the state the target asks for, running if it does not say,
      and was given what the target asks for. */
  ghost predicate Serves(c: Container, s: Service) {
    && Meets(c.image, c.config, s)
    && c.status == match s.state
                   case Some(Paused) => StPaused
                   case Some(Stopped) => StExited
                   case _ => StRunning
  }

  lemma DriftMeans(cur: Service, tgt: Service)
    ensures Drifted(cur, tgt) <==> !Meets(cur.imageName, cur.config, tgt)
  {
    var current, wanted := cur.config, tgt.config;
    EnvironmentTestIsSubmap(current.Env(), wanted.Env());
    assert Given(current.environment, map[]) == current.Env() && Given(wanted.environment, map[]) == wanted.Env();
    assert Provides(current.environment, wanted.environment) <==> FilteredEnvironment(current.Env(), wanted.Env()) == wanted.Env();
    hide FilteredEnvironment, Provides;
  }

  /** An update is needed exactly if the image or some field the target gives differs,
      or the container has exited. */
  lemma UpdateNeededIff(cur: Service, tgt: Service)
    ensures NeedsUpdate(cur, tgt) <==> !Meets(cur.imageName, cur.config, tgt) || cur.status == Some(StExited)
  {
    DriftMeans(cur, tgt);
    hide Drifted, Meets;
  }

  // ------------------------------------------------------------- being started

  /** The text has these two parts before its first and its second colon. */
  ghost predicate Splits(entry: string, first: string, second: string) {
    && ':' !in first && ':' !in second
    && (entry == first + ":" + second || exists rest :: entry == first + ":" + second + ":" + rest)
  }

  lemma {:induction false} SplitsIff(entry: string, first: string, second: string)
    ensures Splits(entry, first, second) <==> ':' in entry && BeforeColon(entry) == first && AfterColon(entry) == second
  {
    if ':' in entry { SplitsAtColons(entry); }
    if Splits(entry, first, second) {
      if entry == first + ":" + second {
        JoinSplit(first, second);
      } else {
        var rest :| entry == first + ":" + second + ":" + rest;
        JoinSplitRest(first, second, rest);
      }
    }
  }

  lemma {:induction false} JoinSplitRest(first: string, second: string, rest: string)
    requires ':' !in first && ':' !in second
    ensures BeforeColon(first + ":" + second + ":" + rest) == first
    ensures AfterColon(first + ":" + second + ":" + rest) == second
  {
    var e := first + ":" + second + ":" + rest;
    if first == "" {
      assert e[1..] == second + ":" + rest;
      BeforeFirstColon(second, rest);
    } else {
      assert e[1..] == first[1..] + ":" + second + ":" + rest;
      JoinSplitRest(first[1..], second, rest);
    }
  }

  lemma {:induction false} BeforeFirstColon(text: string, rest: string)
    requires ':' !in text
    ensures BeforeColon(text + ":" + rest) == text
  {
    if text != "" {
      assert (text + ":" + rest)[1..] == text[1..] + ":" + rest;
      BeforeFirstColon(text[1..], rest);
    }
  }

  lemma {:induction false} SplitsAtColons(entry: string)
    requires ':' in entry
    ensures Splits(entry, BeforeColon(entry), AfterColon(entry))
  {
    NoColonBefore(entry);
    NoColonAfter(entry);
    if entry[0] == ':' {
      RestOfText(entry[1..]);
      assert entry == "" + ":" + entry[1..];
      if entry[1..] != BeforeColon(entry[1..]) {
        var rest :| entry[1..] == BeforeColon(entry[1..]) + ":" + rest;
        assert entry == "" + ":" + BeforeColon(entry[1..]) + ":" + rest;
      }
    } else {
      assert ':' in entry[1..];
      SplitsAtColons(entry[1..]);
      var b, a := BeforeColon(entry[1..]), AfterColon(entry[1..]);
      assert BeforeColon(entry) == [entry[0]] + b && AfterColon(entry) == a;
      if entry[1..] == b + ":" + a {
        assert entry == BeforeColon(entry) + ":" + a;
      } else {
        var rest :| entry[1..] == b + ":" + a + ":" + rest;
        assert entry == BeforeColon(entry) + ":" + a + ":" + rest;
      }
    }
  }

  lemma {:induction false} RestOfText(text: string)
    ensures text == BeforeColon(text) || exists rest :: text == BeforeColon(text) + ":" + rest
  {
    if text != "" {
      if text[0] == ':' {
        assert text == BeforeColon(text) + ":" + text[1..];
      } else {
        RestOfText(text[1..]);
        if text[1..] != BeforeColon(text[1..]) {
          var rest :| text[1..] == BeforeColon(text[1..]) + ":" + rest;
          assert text == BeforeColon(text) + ":" + rest;
        }
      }
    }
  }

  /** Entry `i` binds the container port to the host port, and no later entry rebinds it. */
  ghost predicate LastBinding(entries: seq<string>, i: nat, host: string, port: string)
    requires i < |entries|
  {
    && host != "" && port != "" && Splits(entries[i], host, port)
    && forall j, h | i < j < |entries| && h != "" :: !Splits(entries[j], h, port)
  }

  /** The agent asks for exactly the bindings that are complete and not overwritten. */
  lemma {:induction false} BindingsMean(entries: seq<string>, host: string, port: string)
    ensures (port, host) in PortBindings(entries) <==> exists i: nat :: i < |entries| && LastBinding(entries, i, host, port)
    ensures OncePerPort(PortBindings(entries))
  {
    if entries != [] {
      var earlier, e := Init(entries), Last(entries);
      var h, p := BeforeColon(e), AfterColon(e);
      BindingsMean(earlier, host, port);
      LastBindingSnoc(entries, host, port);
      forall first, second
        ensures second != "" ==> (Splits(e, first, second) <==> h == first && p == second)
      {
        SplitsIff(e, first, second);
        if p != "" { ColonNeeded(e); }
      }
      hide Splits, LastBinding, BeforeColon, AfterColon;
      if h != "" && p != "" {
        BindMeans(PortBindings(earlier), p, h);
        assert Splits(e, h, p);
      }
      assert (host != "" && port != "" && Splits(e, host, port)) <==> (h != "" && p != "" && (port, host) == (p, h));
    }
  }

  lemma {:induction false} ColonNeeded(entry: string)
    requires AfterColon(entry) != ""
    ensures ':' in entry
  {
    if entry != "" && entry[0] != ':' { ColonNeeded(entry[1..]); }
  }

  lemma LastBindingSnoc(entries: seq<string>, host: string, port: string)
    requires entries != []
    ensures (exists i: nat :: i < |entries| && LastBinding(entries, i, host, port))
      <==> || (host != "" && port != "" && Splits(Last(entries), host, port))
           || (&& (exists i: nat :: i < |entries| - 1 && LastBinding(Init(entries), i, host, port))
               && forall h | h != "" :: !Splits(Last(entries), h, port))
  {
    hide Splits;
    var n, earlier := |entries| - 1, Init(entries);
    if i: nat :| i < |entries| && LastBinding(entries, i, host, port) {
      if i < n {
        assert Splits(earlier[i], host, port);
        assert LastBinding(earlier, i, host, port);
      }
    }
    if host != "" && port != "" && Splits(Last(entries), host, port) {
      assert LastBinding(entries, n, host, port);
    } else if i: nat :| i < n && LastBinding(earlier, i, host, port) {
      if forall h | h != "" :: !Splits(Last(entries), h, port) {
        assert LastBinding(entries, i, host, port);
      }
    }
  }

  ghost predicate OncePerPort(bindings: seq<(string, string)>) {
    forall i, j | 0 <= i < j < |bindings| :: bindings[i].0 != bindings[j].0
  }

  /** Binding a port replaces what it was bound to. */
  lemma {:induction false} BindMeans(bindings: seq<(string, string)>, port: string, host: string)
    requires OncePerPort(bindings)
    ensures forall b :: b in Bind(bindings, port, host) <==> b == (port, host) || (b in bindings && b.0 != port)
    ensures OncePerPort(Bind(bindings, port, host))
  {
    if bindings != [] {
      var first, rest := bindings[0], bindings[1..];
      assert bindings == [first] + rest;
      assert forall b <- rest :: b.0 != first.0;
      if first.0 != port {
        BindMeans(rest, port, host);
        assert forall b <- Bind(rest, port, host) :: b.0 != first.0;
      }
    }
  }

  /** How the engine reports a mount: the source and the destination, without more. */
  ghost predicate IsMountOf(reported: string, entry: string) {
    if ':' in entry then exists source, destination ::
      Splits(entry, source, destination) && reported == source + ":" + destination
    else reported == ":" + entry
  }

  lemma MountOf(entry: string)
    ensures IsMountOf(ReportedMount(entry), entry)
  {
    if ':' in entry { SplitsAtColons(entry); }
    hide Splits;
  }

  /** The modes without a network namespace of the container's own. */
  ghost predicate Joinless(mode: string) {
    mode == "host" || mode == "none" || exists other :: mode == "container:" + other
  }

  lemma JoinlessIs(mode: string)
    ensures SharesNamespace(mode) <==> Joinless(mode)
    ensures StartsWith(mode, "container:") <==> exists other :: mode == "container:" + other
  {
    PrefixMeans(mode, "container:");
    hide StartsWith;
  }

  lemma PrefixMeans(text: string, prefix: string)
    ensures StartsWith(text, prefix) <==> exists rest :: text == prefix + rest
    ensures StartsWith(text, prefix) ==> text == prefix + text[|prefix|..]
  {
    if StartsWith(text, prefix) { assert text == prefix + text[|prefix|..]; }
    if rest :| text == prefix + rest { assert text[..|prefix|] == prefix; }
  }

  lemma OwnNetworkMeans(a: nat, mode: string)
    ensures forall n :: OwnNetwork(a, mode) == Some(n) <==> mode == Decimal(a) + "_" + n
  {
    var prefix := Decimal(a) + "_";
    PrefixMeans(mode, prefix);
    forall n
      ensures OwnNetwork(a, mode) == Some(n) <==> mode == Decimal(a) + "_" + n
    {
      if mode == prefix + n { assert mode[|prefix|..] == n; }
    }
    hide StartsWith;
  }

  /** The variables that survive `key=value` texts and a plain object. */
  ghost predicate Environs(got: map<string, string>, asked: map<string, string>) {
    && (forall v :: v in got <==> v in asked && v != "" && '=' !in v && v != "__proto__")
    && (forall v <- got :: got[v] == asked[v])
  }

  /** Published are the bindings asked for, unless there is no namespace of its own. */
  ghost predicate Publishes(got: seq<string>, asked: seq<string>, mode: string) {
    forall p :: p in got <==> !Joinless(mode) && exists i: nat, host, port ::
      i < |asked| && LastBinding(asked, i, host, port) && p == PortText((port, host))
  }

  ghost predicate Mounts(got: seq<string>, asked: seq<string>) {
    |got| == |asked| && forall i | 0 <= i < |got| :: IsMountOf(got[i], asked[i])
  }

  /** Joined are the network that the mode names and those asked for that exist. */
  ghost predicate Joins(got: seq<string>, asked: seq<string>, mode: string, a: nat, networks: set<NetName>) {
    forall n :: n in got <==>
      !Joinless(mode) && (mode == Decimal(a) + "_" + n || (n in asked && NetName(Decimal(a), n) in networks))
  }

  /** The container runs, and was made for the service. */
  ghost predicate MadeFor(c: Container, s: Service, networks: set<NetName>) {
    var got, asked, mode := c.config, s.config, Chosen(s.config.networkMode, "bridge");
    && c.key == Key(s.appId, s.serviceId) && c.appName == s.appName && c.serviceName == s.serviceName
    && c.image == s.imageName && c.status == StRunning
    && Environs(Given(got.environment, map[]), Given(asked.environment, map[]))
    && Publishes(Given(got.ports, []), Given(asked.ports, []), mode)
    && Mounts(Given(got.volumes, []), Given(asked.volumes, []))
    && Joins(Given(got.networks, []), Given(asked.networks, []), mode, s.appId, networks)
    && got.networkMode == Some(mode)
    && got.restart == Some(Chosen(asked.restart, "unless-stopped"))
  }

  lemma PublishedMean(asked: Config)
    ensures Publishes(PublishedPorts(asked), asked.Ports(), NetworkMode(asked))
  {
    var mode, entries := NetworkMode(asked), asked.Ports();
    JoinlessIs(mode);
    if !Joinless(mode) {
      forall p
        ensures p in PublishedPorts(asked) <==> exists i: nat, host, port ::
          i < |entries| && LastBinding(entries, i, host, port) && p == PortText((port, host))
      {
        TextOfBinding(entries, p);
      }
    }
    hide LastBinding, Joinless, SharesNamespace, ReportedPorts;
  }

  lemma TextOfBinding(entries: seq<string>, p: string)
    ensures p in ReportedPorts(PortBindings(entries)) <==> exists i: nat, host, port ::
      i < |entries| && LastBinding(entries, i, host, port) && p == PortText((port, host))
  {
    hide LastBinding, PortText;
    var bindings := PortBindings(entries);
    var texts := PortTexts(bindings);
    if p in texts {
      var j :| 0 <= j < |texts| && texts[j] == p;
      var (port, host) := bindings[j];
      assert bindings[j] == (port, host) && (port, host) in bindings;
      BindingsMean(entries, host, port);
    }
    if i: nat, host, port :| i < |entries| && LastBinding(entries, i, host, port) && p == PortText((port, host)) {
      BindingsMean(entries, host, port);
      var j :| 0 <= j < |bindings| && bindings[j] == (port, host);
      assert texts[j] == p;
    }
  }

  lemma NewContainerMeans(s: Service, networks: set<NetName>)
    ensures MadeFor(NewContainer(s, networks), s, networks)
  {
    var asked, mode := s.config, NetworkMode(s.config);
    var got := Report(s, networks);
    PublishedMean(asked);
    forall i | 0 <= i < |asked.Volumes()|
      ensures IsMountOf(got.Volumes()[i], asked.Volumes()[i])
    {
      MountOf(asked.Volumes()[i]);
    }
    JoinlessIs(mode);
    OwnNetworkMeans(s.appId, mode);
    JoinedMean(s, networks);
    hide Publishes, IsMountOf, Attached, Joinless, PublishedPorts;
  }

  lemma JoinedMean(s: Service, networks: set<NetName>)
    ensures Joins(Attached(s, networks), s.config.Networks(), NetworkMode(s.config), s.appId, networks)
  {
    var mode := NetworkMode(s.config);
    JoinlessIs(mode);
    OwnNetworkMeans(s.appId, mode);
    hide Joinless, OwnNetwork, SharesNamespace, JoinedNetworks;
  }

  /** When the engine takes a service: no container has its name, all bindings can be
      read, and its mode asks for no ports and no network that cannot be had. */
  ghost predicate Takes(w: World, s: Service) {
    var entries, mode := Given(s.config.ports, []), Chosen(s.config.networkMode, "bridge");
    && (forall c <- w.containers.Values ::
         c.appName + "_" + c.serviceName + "_" + Decimal(c.key.svc)
         != s.appName + "_" + s.serviceName + "_" + Decimal(s.serviceId))
    && (forall i: nat, host, port | i < |entries| && LastBinding(entries, i, host, port) ::
         Published((port, host)).Some? && !exists other :: mode == "container:" + other)
    && (forall n :: mode == Decimal(s.appId) + "_" + n ==> NetName(Decimal(s.appId), n) in w.networks)
  }

  lemma TakesIff(w: World, s: Service)
    ensures Takes(w, s) <==> !NameTaken(w, s.ContainerName()) && Accepted(s, w.networks)
  {
    OwnNetworkMeans(s.appId, NetworkMode(s.config));
    NamesIff(w, s);
    PortsTakenIff(s);
    hide LastBinding, Published, PortsTaken, NameTaken, OwnNetwork;
  }

  lemma PortsTakenIff(s: Service)
    ensures var entries, mode := Given(s.config.ports, []), Chosen(s.config.networkMode, "bridge");
      PortsTaken(s) <==> forall i: nat, host, port | i < |entries| && LastBinding(entries, i, host, port) ::
        Published((port, host)).Some? && !exists other :: mode == "container:" + other
  {
    var entries, bindings := Given(s.config.ports, []), PortBindings(s.config.Ports());
    assert entries == s.config.Ports();
    var mode := Chosen(s.config.networkMode, "bridge");
    JoinlessIs(mode);
    forall i: nat, host, port | i < |entries| && LastBinding(entries, i, host, port)
      ensures (port, host) in bindings
    {
      BindingsMean(entries, host, port);
    }
    forall b | b in bindings
      ensures b == (b.0, b.1) && exists i: nat :: i < |entries| && LastBinding(entries, i, b.1, b.0)
    {
      BindingsMean(entries, b.1, b.0);
    }
    hide LastBinding, Published, PortBindings, StartsWith;
    var taken := forall i: nat, host, port | i < |entries| && LastBinding(entries, i, host, port) ::
      Published((port, host)).Some? && !exists other :: mode == "container:" + other;
    if taken {
      forall b | b in bindings
        ensures Published(b).Some? && !StartsWith(mode, "container:")
      {
        var i: nat :| i < |entries| && LastBinding(entries, i, b.1, b.0);
        assert Published((b.0, b.1)).Some?;
      }
      if bindings != [] { assert bindings[0] in bindings; }
    }
    if PortsTaken(s) {
      forall i: nat, host, port | i < |entries| && LastBinding(entries, i, host, port)
        ensures Published((port, host)).Some? && !StartsWith(mode, "container:")
      {
        assert (port, host) in bindings;
      }
    }
  }

  lemma NamesIff(w: World, s: Service)
    ensures NameTaken(w, s.ContainerName()) <==> exists c <- w.containers.Values ::
      c.appName + "_" + c.serviceName + "_" + Decimal(c.key.svc)
      == s.appName + "_" + s.serviceName + "_" + Decimal(s.serviceId)
  {
    if c :|
      c in w.containers.Values
      && c.appName + "_" + c.serviceName + "_" + Decimal(c.key.svc)
         == s.appName + "_" + s.serviceName + "_" + Decimal(s.serviceId)
    {
      var id :| id in w.containers && w.containers[id] == c;
      assert w.containers[id].Name() == s.ContainerName();
    }
  }

  /** The text up to the first colon, or all of it, is `source`. */
  ghost predicate HasSource(entry: string, source: string) {
    ':' !in source && (entry == source || exists rest :: entry == source + ":" + rest)
  }

  lemma {:induction false} HasSourceIff(entry: string, source: string)
    ensures HasSource(entry, source) <==> BeforeColon(entry) == source
  {
    NoColonBefore(entry);
    RestOfText(entry);
    if HasSource(entry, source) {
      if entry == source {
        NoColonIsAll(entry);
      } else {
        var rest :| entry == source + ":" + rest;
        BeforeFirstColon(source, rest);
      }
    }
  }

  /** The entry names a volume, and is no path of the host. */
  ghost predicate NamesVolume(entry: string, v: string) {
    (entry == "" || entry[0] != '/') && HasSource(entry, v)
  }

  lemma {:induction false} NamedVolumesMean(entries: seq<string>, v: string)
    ensures v in NamedVolumes(entries) <==> exists e <- entries :: NamesVolume(e, v)
  {
    if entries != [] {
      NamedVolumesMean(Init(entries), v);
      var e, earlier := Last(entries), Init(entries);
      HasSourceIff(e, v);
      assert v in NamedVolumes(entries) <==> v in NamedVolumes(earlier) || NamesVolume(e, v);
      assert entries == earlier + [e];
      hide NamesVolume, NamedVolumes;
    }
  }

  /** A start makes one new running container for the service, and the volumes its
      entries name, or nothing. */
  lemma StartMeans(w: World, s: Service)
    ensures var (after, ok) := (StartOp(w, s).world, StartOp(w, s).ok);
      && (ok <==> Takes(w, s))
      && (!ok ==> after == w)
      && (ok ==>
        && after.networks == w.networks && after.nextId == w.nextId + 1
        && w.nextId in after.containers && MadeFor(after.containers[w.nextId], s, w.networks)
        && after.containers == w.containers[w.nextId := after.containers[w.nextId]]
        && forall v :: v in after.volumes <==> v in w.volumes || exists e <- Given(s.config.volumes, []) :: NamesVolume(e, v))
  {
    NewContainerMeans(s, w.networks);
    TakesIff(w, s);
    forall v
      ensures v in NamedVolumes(s.config.Volumes()) <==> exists e <- s.config.Volumes() :: NamesVolume(e, v)
    {
      NamedVolumesMean(s.config.Volumes(), v);
    }
    hide MadeFor, NewContainer, Takes, NameTaken, Accepted, NamedVolumes, NamesVolume;
  }
}
