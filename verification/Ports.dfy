/** Published ports: from the texts of a configuration to the engine's port
    numbers and back to the texts its listing is turned into. */
module Ports {
  import opened Basics
  import opened Compose

  /** Text after the first colon, up to the next one; empty if there is none. */
  function AfterColon(s: string): string {
    if s == "" then "" else if s[0] == ':' then BeforeColon(s[1..]) else AfterColon(s[1..])
  }

  /** Port bindings are keyed by container port; a repeated one overwrites in place. */
  function Bind(bindings: seq<(string, string)>, port: string, host: string): seq<(string, string)> {
    if bindings == [] then [(port, host)]
    else if bindings[0].0 == port then [(port, host)] + bindings[1..]
    else [bindings[0]] + Bind(bindings[1..], port, host)
  }

  /** What the agent asks for: entries without both parts are skipped. */
  function PortBindings(ports: seq<string>): seq<(string, string)> {
    if ports == [] then []
    else
      var earlier := PortBindings(Init(ports));
      var host, port := BeforeColon(Last(ports)), AfterColon(Last(ports));
      if host == "" || port == "" then earlier else Bind(earlier, port, host)
  }

  // ------------------------------------------------------------------ the engine

  const MAX_PORT: nat := 65535

  /** Stands for whichever free port the engine picks when asked for host port 0. */
  const FREE_PORT: nat := 32768

  /** A port number as the engine reads it from text. */
  function ReadPort(text: string): (n: Option<nat>)
    ensures n.Some? ==> n.value <= MAX_PORT
  {
    if text != "" && (forall c <- text :: IsDigit(c)) && ParseDecimal(text) <= MAX_PORT then Some(ParseDecimal(text))
    else None
  }

  /** The protocol after a slash does not belong to the number. */
  function BeforeSlash(s: string): string {
    if s == "" || s[0] == '/' then "" else [s[0]] + BeforeSlash(s[1..])
  }

  /** The host and container port of a binding, both positive, or nothing for one
      that the engine cannot read. */
  function Published(binding: (string, string)): (ports: Option<(nat, nat)>)
    ensures ports.Some? ==> 0 < ports.value.0 <= MAX_PORT && 0 < ports.value.1 <= MAX_PORT
  {
    var port, host := ReadPort(BeforeSlash(binding.0)), ReadPort(binding.1);
    if port.None? || port.value == 0 || host.None? then None
    else Some((if host.value == 0 then FREE_PORT else host.value, port.value))
  }

  /** The engine takes the bindings if it can read all of them. */
  predicate Readable(bindings: seq<(string, string)>) {
    forall b <- bindings :: Published(b).Some?
  }

  /** `${p.PublicPort}:${p.PrivatePort}` */
  function PortText(binding: (string, string)): string {
    match Published(binding)
    case Some((host, port)) => Decimal(host) + ":" + Decimal(port)
    case None => ""
  }

  function PortTexts(bindings: seq<(string, string)>): (r: seq<string>)
    ensures |r| == |bindings| && forall i | 0 <= i < |r| :: r[i] == PortText(bindings[i])
  {
    seq(|bindings|, i requires 0 <= i < |bindings| => PortText(bindings[i]))
  }

  /** What the listing of a container's ports is turned into. */
  function ReportedPorts(bindings: seq<(string, string)>): seq<string> { Dedup(PortTexts(bindings)) }

  // ------------------------------------------------------------------- plain ports

  /** The decimal of a positive port number, and not merely a text that reads as one. */
  predicate Canonical(text: string) {
    ReadPort(text).Some? && ReadPort(text).value > 0 && Decimal(ReadPort(text).value) == text
  }

  /** `host:container` with two canonical numbers. */
  predicate PlainPort(p: string) {
    Canonical(BeforeColon(p)) && Canonical(AfterColon(p)) && p == BeforeColon(p) + ":" + AfterColon(p)
  }

  lemma DecimalIsCanonical(n: nat)
    requires 0 < n <= MAX_PORT
    ensures Canonical(Decimal(n))
  {
    DecimalRoundTrip(n);
  }

  lemma {:induction false} BeforeSlashIsAll(s: string)
    requires '/' !in s
    ensures BeforeSlash(s) == s
  {
    if s != "" { BeforeSlashIsAll(s[1..]); }
  }

  lemma {:induction false} BeforeFirstSlash(text: string, rest: string)
    requires '/' !in text
    ensures BeforeSlash(text + "/" + rest) == text
  {
    if text != "" {
      assert (text + "/" + rest)[1..] == text[1..] + "/" + rest;
      BeforeFirstSlash(text[1..], rest);
    }
  }

  /** The numbers the engine publishes: both are digits up to 65535, the container port
      positive and perhaps with a protocol behind it; zero stands for a free host port. */
  lemma PublishedMeans(port: string, protocol: string, host: string)
    requires port != "" && (forall c <- port :: IsDigit(c)) && host != "" && (forall c <- host :: IsDigit(c))
    ensures var (p, h) := (ParseDecimal(port), ParseDecimal(host));
      var published := if 0 < p <= 65535 && h <= 65535 then Some((if h == 0 then FREE_PORT else h, p)) else None;
      Published((port, host)) == Published((port + "/" + protocol, host)) == published
  {
    BeforeSlashIsAll(port);
    BeforeFirstSlash(port, protocol);
  }

  lemma DigitsOnly(n: nat)
    ensures ':' !in Decimal(n) && '/' !in Decimal(n)
  {
    assert forall c <- Decimal(n) :: IsDigit(c);
  }

  /** A port is plain exactly if it is two positive numbers in plain decimals. */
  lemma PlainPortMeans(p: string)
    ensures PlainPort(p) <==> exists host: nat, port: nat ::
      0 < host <= 65535 && 0 < port <= 65535 && p == Decimal(host) + ":" + Decimal(port)
  {
    if PlainPort(p) {
      var host, port := ReadPort(BeforeColon(p)).value, ReadPort(AfterColon(p)).value;
      assert p == Decimal(host) + ":" + Decimal(port);
    }
    if host: nat, port: nat :|
      0 < host <= MAX_PORT && 0 < port <= MAX_PORT && p == Decimal(host) + ":" + Decimal(port)
    {
      TextIsPlain(host, port);
    }
  }

  lemma TextIsPlain(host: nat, port: nat)
    requires 0 < host <= MAX_PORT && 0 < port <= MAX_PORT
    ensures PlainPort(Decimal(host) + ":" + Decimal(port))
  {
    DigitsOnly(host);
    DigitsOnly(port);
    JoinSplit(Decimal(host), Decimal(port));
    DecimalIsCanonical(host);
    DecimalIsCanonical(port);
  }

  /** The engine's text for a binding is plain, and names the binding itself only
      if that was plain already. */
  lemma PortTextMeans(b: (string, string))
    ensures Published(b).Some? ==> PlainPort(PortText(b))
    ensures b.0 != "" && ':' !in b.0 && ':' !in b.1 ==>
      (PortText(b) == b.1 + ":" + b.0 <==> Canonical(b.0) && Canonical(b.1))
  {
    match Published(b)
    case Some((host, port)) =>
      TextIsPlain(host, port);
      if ':' !in b.0 && ':' !in b.1 {
        JoinSplit(b.1, b.0);
        DigitsOnly(host);
        DigitsOnly(port);
        JoinSplit(Decimal(host), Decimal(port));
        if PortText(b) == b.1 + ":" + b.0 {
          assert b.1 == Decimal(host) && b.0 == Decimal(port);
          DecimalIsCanonical(host);
          DecimalIsCanonical(port);
        } else if Canonical(b.0) {
          CanonicalHasNoSlash(b.0);
        }
      }
    case None =>
      if Canonical(b.0) { CanonicalHasNoSlash(b.0); }
  }

  lemma CanonicalHasNoSlash(text: string)
    requires Canonical(text)
    ensures BeforeSlash(text) == text
  {
    DigitsOnly(ReadPort(text).value);
    BeforeSlashIsAll(text);
  }

  lemma {:induction false} ParsedBack(text: string)
    requires text != "" && (forall c <- text :: IsDigit(c)) && text[0] != '0'
    ensures ParseDecimal(text) > 0 && Decimal(ParseDecimal(text)) == text
  {
    var d := DigitValue(Last(text));
    assert DigitChar(d) == Last(text);
    if |text| == 1 {
      assert Init(text) == "" && ParseDecimal(text) == d && text == [DigitChar(d)];
    } else {
      ParsedBack(Init(text));
      assert ParseDecimal(text) / 10 == ParseDecimal(Init(text)) && ParseDecimal(text) % 10 == d;
      assert Init(text) + [Last(text)] == text;
    }
  }

  lemma {:induction false} NoLeadingZero(n: nat)
    requires n > 0
    ensures Decimal(n)[0] != '0'
  {
    if n >= 10 { NoLeadingZero(n / 10); }
  }

  /** Canonical means digits without a leading zero, in range. */
  lemma CanonicalMeans(text: string)
    ensures Canonical(text)
      <==> text != "" && (forall c <- text :: IsDigit(c)) && text[0] != '0' && ParseDecimal(text) <= MAX_PORT
  {
    if text != "" && (forall c <- text :: IsDigit(c)) && ParseDecimal(text) <= MAX_PORT {
      if text[0] != '0' { ParsedBack(text); }
      if ParseDecimal(text) > 0 { NoLeadingZero(ParseDecimal(text)); }
    }
  }

  /** Host port zero (`0:80`), a leading zero (`08080:80`) and a protocol suffix
      (`53:53/udp`) are all accepted by the agent, and none of them is plain. */
  lemma UnplainPorts(host: string, port: string)
    requires host != "" && port != "" && ':' !in host && ':' !in port
    ensures host[0] == '0' || port[0] == '0' || '/' in port ==> !PlainPort(host + ":" + port)
  {
    JoinSplit(host, port);
    CanonicalMeans(host);
    CanonicalMeans(port);
    hide Canonical;
  }

  // -------------------------------------------------------------- bindings and back

  ghost predicate DistinctTargets(ports: seq<string>) {
    forall i, j | 0 <= i < j < |ports| :: AfterColon(ports[i]) != AfterColon(ports[j])
  }

  ghost predicate Complete(ports: seq<string>) {
    DistinctTargets(ports) && forall p <- ports :: BeforeColon(p) != "" && AfterColon(p) != ""
  }

  function PairOf(p: string): (string, string) { (AfterColon(p), BeforeColon(p)) }

  function Pairs(ports: seq<string>): (r: seq<(string, string)>)
    ensures |r| == |ports| && forall i | 0 <= i < |ports| :: r[i] == PairOf(ports[i])
  {
    seq(|ports|, i requires 0 <= i < |ports| => PairOf(ports[i]))
  }

  predicate Bound(bindings: seq<(string, string)>, port: string) {
    exists b <- bindings :: b.0 == port
  }

  lemma {:induction false} BindGrowsIff(bindings: seq<(string, string)>, port: string, host: string)
    ensures Bound(bindings, port) ==> |Bind(bindings, port, host)| == |bindings|
    ensures !Bound(bindings, port) ==> Bind(bindings, port, host) == bindings + [(port, host)]
  {
    if bindings != [] {
      var first, rest := bindings[0], bindings[1..];
      assert bindings == [first] + rest;
      if first.0 != port {
        BindGrowsIff(rest, port, host);
        assert Bound(bindings, port) <==> Bound(rest, port) by {
          if Bound(rest, port) {
            var b :| b in rest && b.0 == port;
            assert b in bindings;
          }
        }
      }
    }
  }

  lemma PairsBound(ports: seq<string>, port: string)
    ensures Bound(Pairs(ports), port) <==> exists p <- ports :: AfterColon(p) == port
  {
    if p :| p in ports && AfterColon(p) == port {
      var i :| 0 <= i < |ports| && ports[i] == p;
      assert Pairs(ports)[i] in Pairs(ports);
    }
  }

  lemma CompleteSnoc(earlier: seq<string>, p: string)
    ensures Complete(earlier + [p]) <==>
      && Complete(earlier) && BeforeColon(p) != "" && AfterColon(p) != ""
      && forall e <- earlier :: AfterColon(e) != AfterColon(p)
  {
    hide BeforeColon, AfterColon;
    var ports := earlier + [p];
    assert forall i | 0 <= i < |earlier| :: ports[i] == earlier[i] && earlier[i] in earlier;
    assert ports[|earlier|] == p && forall e <- earlier :: e in ports;
    if Complete(ports) {
      forall e | e in earlier
        ensures AfterColon(e) != AfterColon(p)
      {
        var i :| 0 <= i < |earlier| && earlier[i] == e;
        assert AfterColon(ports[i]) != AfterColon(ports[|earlier|]);
      }
      forall i, j | 0 <= i < j < |earlier|
        ensures AfterColon(earlier[i]) != AfterColon(earlier[j])
      {
        assert AfterColon(ports[i]) != AfterColon(ports[j]);
      }
    }
  }

  /** No binding is lost exactly when the entries are complete and distinct. */
  lemma {:induction false} BindingsAre(ports: seq<string>)
    ensures |PortBindings(ports)| <= |ports|
    ensures |PortBindings(ports)| == |ports| <==> Complete(ports)
    ensures Complete(ports) ==> PortBindings(ports) == Pairs(ports)
  {
    if ports != [] {
      var earlier, p := Init(ports), Last(ports);
      assert ports == earlier + [p];
      CompleteSnoc(earlier, p);
      BindingsAre(earlier);
      PairsBound(earlier, AfterColon(p));
      BindGrowsIff(PortBindings(earlier), AfterColon(p), BeforeColon(p));
      hide BeforeColon, AfterColon, Complete, Bind, Bound;
      assert Pairs(ports) == Pairs(earlier) + [PairOf(p)];
    }
  }

  lemma TextsAre(ports: seq<string>)
    requires Complete(ports)
    ensures PortTexts(Pairs(ports)) == ports <==> forall p <- ports :: PlainPort(p)
  {
    var texts := PortTexts(Pairs(ports));
    forall i | 0 <= i < |ports|
      ensures texts[i] == ports[i] <==> PlainPort(ports[i])
    {
      var p := ports[i];
      NoColonBefore(p);
      NoColonAfter(p);
      PortTextMeans(PairOf(p));
      SplitOfText(p);
    }
    assert forall i | 0 <= i < |ports| :: ports[i] in ports;
    if texts == ports {
      forall p | p in ports
        ensures PlainPort(p)
      {
        var i :| 0 <= i < |ports| && ports[i] == p;
        assert texts[i] == p;
      }
    }
  }

  /** Whatever the engine reports has a colon in the right place. */
  lemma SplitOfText(p: string)
    ensures PortText(PairOf(p)) == p && p != "" ==> p == BeforeColon(p) + ":" + AfterColon(p)
  {
    if Published(PairOf(p)).Some? { PortTextMeans(PairOf(p)); }
  }

  lemma {:induction false} DedupShrinks<T(!new)>(s: seq<T>)
    ensures |Dedup(s)| <= |s|
    ensures |Dedup(s)| == |s| ==> Dedup(s) == s
  {
    if s != [] {
      assert s == Init(s) + [Last(s)];
      DedupShrinks(Init(s));
      var d := Dedup(Init(s));
      assert Dedup(s) == d || Dedup(s) == d + [Last(s)];
      hide Dedup;
    }
  }

  lemma DistinctIsNoDup(ports: seq<string>)
    requires DistinctTargets(ports)
    ensures NoDup(ports)
  {}

  /** Ports come back as they were asked for exactly when each is a plain pair of
      numbers with a container port of its own; and then the engine takes them. */
  lemma PortsReadBack(ports: seq<string>)
    ensures ReportedPorts(PortBindings(ports)) == ports
       <==> DistinctTargets(ports) && forall p <- ports :: PlainPort(p)
    ensures (forall p <- ports :: PlainPort(p)) ==> Readable(PortBindings(ports))
  {
    BindingsAre(ports);
    assert forall p: string :: PlainPort(p) ==> BeforeColon(p) != "" && AfterColon(p) != "";
    DedupShrinks(PortTexts(PortBindings(ports)));
    if Complete(ports) {
      TextsAre(ports);
      DistinctIsNoDup(ports);
      DedupOfUnique(ports);
    }
    if forall p <- ports :: PlainPort(p) { PlainIsReadable(ports); }
  }

  lemma {:induction false} BindAmong(bindings: seq<(string, string)>, port: string, host: string)
    ensures forall b <- Bind(bindings, port, host) :: b in bindings || b == (port, host)
  {
    if bindings != [] { BindAmong(bindings[1..], port, host); }
  }

  lemma {:induction false} PlainIsReadable(ports: seq<string>)
    requires forall p <- ports :: PlainPort(p)
    ensures Readable(PortBindings(ports))
  {
    if ports != [] {
      var p := Last(ports);
      PlainIsReadable(Init(ports));
      BindAmong(PortBindings(Init(ports)), AfterColon(p), BeforeColon(p));
      assert PlainPort(p);
      CanonicalHasNoSlash(AfterColon(p));
    }
  }

  /** Every reported port is plain, so what was read back can be started again. */
  lemma ReportedIsPlain(bindings: seq<(string, string)>)
    requires Readable(bindings)
    ensures forall p <- ReportedPorts(bindings) :: PlainPort(p)
  {
    forall p | p in ReportedPorts(bindings)
      ensures PlainPort(p)
    {
      var i :| 0 <= i < |bindings| && PortTexts(bindings)[i] == p;
      assert bindings[i] in bindings;
      PortTextMeans(bindings[i]);
    }
  }

  // ----------------------------------------------------------------------- colons

  lemma {:induction false} NoColonBefore(e: string)
    ensures ':' !in BeforeColon(e)
  {
    if e != "" && e[0] != ':' { NoColonBefore(e[1..]); }
  }

  lemma {:induction false} NoColonAfter(e: string)
    ensures ':' !in AfterColon(e)
  {
    if e != "" {
      if e[0] == ':' { NoColonBefore(e[1..]); } else { NoColonAfter(e[1..]); }
    }
  }

  lemma {:induction false} JoinSplit(source: string, destination: string)
    requires ':' !in source && ':' !in destination
    ensures BeforeColon(source + ":" + destination) == source
    ensures AfterColon(source + ":" + destination) == destination
  {
    var e := source + ":" + destination;
    if source == "" {
      assert e[1..] == destination;
      NoColonIsAll(destination);
    } else {
      assert e[1..] == source[1..] + ":" + destination;
      JoinSplit(source[1..], destination);
    }
  }

  lemma {:induction false} NoColonIsAll(s: string)
    requires ':' !in s
    ensures BeforeColon(s) == s
  {
    if s != "" { NoColonIsAll(s[1..]); }
  }
}
