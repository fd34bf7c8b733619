/** Docker names of networks and volumes (agent/src/compose/network.ts and
    volume.ts): how they are put together and taken apart. */
module Names {
  import opened Basics

  type Text = string

  // ------------------------------------------------------------ character classes

  /** `[0-9a-f-A-F]`, which includes the hyphen. */
  predicate IsHex(c: char) { IsDigit(c) || 'a' <= c <= 'f' || c == '-' || 'A' <= c <= 'F' }

  /** `\s` */
  predicate IsSpace(c: char) {
    || '\t' <= c <= '\r'
    || c in [' ', '\U{a0}', '\U{1680}', '\U{2028}', '\U{2029}', '\U{202f}', '\U{205f}', '\U{3000}', '\U{feff}']
    || '\U{2000}' <= c <= '\U{200a}'
  }

  predicate IsPrintable(c: char) { !IsSpace(c) }

  /** The longest prefix of characters that satisfy `class`, as a greedy `class*` takes. */
  function Span(s: Text, allowed: char -> bool): (n: nat)
    ensures n <= |s| && (n < |s| ==> !allowed(s[n]))
    ensures forall i | 0 <= i < n :: allowed(s[i])
  {
    if s == "" || !allowed(s[0]) then 0 else 1 + Span(s[1..], allowed)
  }

  // --------------------------------------------------------------------- numbers

  /** The number that the digits at the front make. */
  function Magnitude(body: Text, negative: bool): Option<int> {
    var digits := body[..Span(body, IsDigit)];
    if digits == "" then None
    else
      var n: int := ParseDecimal(digits);
      Some(if negative then -n else n)
  }

  function Signed(text: Text): Option<int> {
    if text != "" && (text[0] == '-' || text[0] == '+') then Magnitude(text[1..], text[0] == '-') else Magnitude(text, false)
  }

  /** `parseInt(text, 10)`, with `None` for NaN. */
  function ParseInt(text: Text): Option<int> { Signed(text[Span(text, IsSpace)..]) }

  // ----------------------------------------------------------------------- names

  /** `${owner}_${name}` */
  function DockerName(owner: Text, name: Text): Text { owner + "_" + name }

  datatype Parts = Parts(owner: Text, name: Text)

  /** An anchored `(class{min,})_(\S+)`; no character of a class is an underscore,
      so the greedy run is the only way to match. */
  function MatchOwned(s: Text, allowed: char -> bool, min: nat): (found: Option<Parts>)
    ensures found.Some? ==> Spaceless(found.value.name)
    ensures found.Some? ==> |found.value.owner| >= min && forall c <- found.value.owner :: allowed(c)
  {
    var n := Span(s, allowed);
    if n < min || n == |s| || s[n] != '_' then None
    else
      var rest := s[n + 1..];
      var k := Span(rest, IsPrintable);
      if k == 0 then None else Some(Parts(s[..n], rest[..k]))
  }

  datatype NetworkName = NetworkName(name: Text, appId: Option<int>, appUuid: Option<Text>)

  /** `None` stands for the invalid-name error; `known` is the app-id label. */
  function DeconstructNetwork(docker: Text, known: Option<int>): Option<NetworkName> {
    var byId := MatchOwned(docker, IsDigit, 1);
    if byId.None? then
      var byUuid := MatchOwned(docker, IsHex, 32);
      if byUuid.None? then None
      else Some(NetworkName(byUuid.value.name, None, Some(byUuid.value.owner)))
    else if known.Some? then Some(NetworkName(byId.value.name, known, Some(byId.value.owner)))
    else Some(NetworkName(byId.value.name, ParseInt(byId.value.owner), None))
  }

  datatype VolumeName = VolumeName(name: Text, appId: int)

  /** `/(\d+)_(\S+)/` matches anywhere, leftmost first. */
  function MatchAnywhere(s: Text): (found: Option<Parts>)
    ensures found.Some? ==> Spaceless(found.value.name) && Digits(found.value.owner)
  {
    var here := MatchOwned(s, IsDigit, 1);
    if here.Some? || s == "" then here else MatchAnywhere(s[1..])
  }

  function DeconstructVolume(docker: Text): Option<VolumeName> {
    var found := MatchAnywhere(docker);
    if found.None? then None
    else
      var appId := ParseInt(found.value.owner);
      if appId.None? then None else Some(VolumeName(found.value.name, appId.value))
  }

  // ------------------------------------------------------------------ round trips

  predicate Digits(s: Text) { s != "" && forall c <- s :: IsDigit(c) }

  predicate HexId(s: Text) { |s| >= 32 && forall c <- s :: IsHex(c) }

  /** The app uuids whose networks can be read back. */
  predicate Readable(owner: Text) { Digits(owner) || HexId(owner) }

  predicate Spaceless(name: Text) { name != "" && forall c <- name :: IsPrintable(c) }

  lemma {:induction false} SpanIs(s: Text, allowed: char -> bool, n: nat)
    requires n <= |s| && (forall i | 0 <= i < n :: allowed(s[i])) && (n < |s| ==> !allowed(s[n]))
    ensures Span(s, allowed) == n
  {
    if n > 0 { SpanIs(s[1..], allowed, n - 1); }
  }

  lemma NameSpan(name: Text)
    ensures Spaceless(name[..Span(name, IsPrintable)]) <==> name != "" && !IsSpace(name[0])
    ensures name[..Span(name, IsPrintable)] == name <==> forall c <- name :: IsPrintable(c)
  {
    var k := Span(name, IsPrintable);
    if k < |name| { assert name[k] in name; }
  }

  /** The first underscore after the owner is where the name is cut. */
  lemma MatchOfDockerName(owner: Text, name: Text, allowed: char -> bool, min: nat)
    requires !allowed('_')
    ensures MatchOwned(DockerName(owner, name), allowed, min)
         == if (forall c <- owner :: allowed(c)) then
              (if |owner| < min || name == "" || IsSpace(name[0]) then None
               else Some(Parts(owner, name[..Span(name, IsPrintable)])))
            else MatchOwned(DockerName(owner, name), allowed, min)
  {
    var s := DockerName(owner, name);
    if forall c <- owner :: allowed(c) {
      assert forall i | 0 <= i < |owner| :: s[i] == owner[i];
      SpanIs(s, allowed, |owner|);
      assert s[|owner| + 1..] == name && s[..|owner|] == owner;
    }
  }

  /** An owner with a foreign character is cut short before its underscore. */
  lemma ForeignOwner(owner: Text, name: Text, allowed: char -> bool, min: nat)
    requires exists c <- owner :: !allowed(c)
    requires '_' !in owner
    ensures MatchOwned(DockerName(owner, name), allowed, min) == None
  {
    var s, n := DockerName(owner, name), Span(owner, allowed);
    assert n < |owner| by {
      var c :| c in owner && !allowed(c);
      var i :| 0 <= i < |owner| && owner[i] == c;
    }
    assert forall i | 0 <= i < |owner| :: s[i] == owner[i];
    SpanIs(s, allowed, n);
    assert s[n] in owner;
  }

  /** Exactly when, and as what, the name of an app's network is read back while
      the network carries its app-id label. */
  lemma NetworkNameReadsBackIff(owner: Text, name: Text, appId: int)
    requires '_' !in owner
    ensures DeconstructNetwork(DockerName(owner, name), Some(appId))
         == if Readable(owner) && name != "" && !IsSpace(name[0])
            then Some(NetworkName(name[..Span(name, IsPrintable)], if Digits(owner) then Some(appId) else None, Some(owner)))
            else None
  {
    hide MatchOwned, Span;
    MatchOfDockerName(owner, name, IsDigit, 1);
    MatchOfDockerName(owner, name, IsHex, 32);
    if exists c <- owner :: !IsDigit(c) { ForeignOwner(owner, name, IsDigit, 1); }
    if exists c <- owner :: !IsHex(c) { ForeignOwner(owner, name, IsHex, 32); }
  }

  /** For every owner and name, the two are recovered exactly when the owner is all
      digits or at least 32 hex characters or hyphens, and the name has no space. */
  lemma NetworkNameRoundTripIff(owner: Text, name: Text, appId: int)
    ensures var read := DeconstructNetwork(DockerName(owner, name), Some(appId));
      (read.Some? && read.value.name == name && read.value.appUuid == Some(owner))
      <==> Readable(owner) && Spaceless(name)
  {
    hide MatchOwned, Span;
    MatchOfDockerName(owner, name, IsDigit, 1);
    MatchOfDockerName(owner, name, IsHex, 32);
    NameSpan(name);
    if Readable(owner) { NetworkNameReadsBackIff(owner, name, appId); }
  }

  /** (owner, name) is determined by the Docker name. */
  lemma DockerNameIsInjective(owner: Text, name: Text, owner': Text, name': Text)
    requires Readable(owner) && Readable(owner')
    requires DockerName(owner, name) == DockerName(owner', name')
    ensures owner == owner' && name == name'
  {
    var s := DockerName(owner, name);
    assert forall i | 0 <= i < |owner| :: s[i] == owner[i] && IsHex(owner[i]);
    assert forall i | 0 <= i < |owner'| :: s[i] == owner'[i] && IsHex(owner'[i]);
    SpanIs(s, IsHex, |owner|);
    SpanIs(s, IsHex, |owner'|);
    assert s[..|owner|] == owner && s[|owner| + 1..] == name;
    assert s[..|owner'|] == owner' && s[|owner'| + 1..] == name';
  }

  // --------------------------------------------------------------------- volumes

  lemma ParsesDecimal(n: nat)
    ensures ParseInt(Decimal(n)) == Some(n)
  {
    DecimalRoundTrip(n);
    DigitsParse(Decimal(n));
  }

  /** The name of an app's volume is taken apart into the app id and the name. */
  lemma VolumeNameReadsBackIff(appId: nat, name: Text)
    ensures DeconstructVolume(DockerName(Decimal(appId), name)) == Some(VolumeName(name, appId)) <==> Spaceless(name)
    ensures name != "" && !IsSpace(name[0]) ==>
      DeconstructVolume(DockerName(Decimal(appId), name)) == Some(VolumeName(name[..Span(name, IsPrintable)], appId))
  {
    var owner := Decimal(appId);
    var s := DockerName(owner, name);
    ParsesDecimal(appId);
    MatchOfDockerName(owner, name, IsDigit, 1);
    NameSpan(name);
    assert name != "" ==> name[0] in name;
  }

  // ------------------------------------------------------------- claimed volumes

  /** A digit, an underscore and something printable stand at `j`. */
  predicate ClaimAt(s: Text, j: nat) {
    j + 2 < |s| && IsDigit(s[j]) && s[j + 1] == '_' && IsPrintable(s[j + 2])
  }

  ghost predicate FirstClaim(s: Text, j: nat) {
    ClaimAt(s, j) && forall k: nat | k < j :: !ClaimAt(s, k)
  }

  /** Where the run of digits that ends at `j` begins. */
  function RunStart(s: Text, j: nat): (b: nat)
    requires j < |s| && IsDigit(s[j])
    ensures b <= j && (forall k | b <= k <= j :: IsDigit(s[k])) && (b > 0 ==> !IsDigit(s[b - 1]))
  {
    if j == 0 || !IsDigit(s[j - 1]) then j else RunStart(s, j - 1)
  }

  lemma MatchIsClaim(s: Text)
    ensures MatchOwned(s, IsDigit, 1).Some? ==> exists j: nat :: ClaimAt(s, j) && Span(s, IsDigit) == j + 1
  {
    if MatchOwned(s, IsDigit, 1).Some? {
      var n := Span(s, IsDigit);
      assert s[n + 1..][0] == s[n + 1];
      assert ClaimAt(s, n - 1);
    }
  }

  /** What follows a claim, up to the next space. */
  function NameAfter(s: Text, j: nat): Text
    requires j + 2 <= |s|
  {
    s[j + 2..][..Span(s[j + 2..], IsPrintable)]
  }

  lemma ClaimMatches(s: Text, j: nat)
    requires ClaimAt(s, j) && forall k | 0 <= k <= j :: IsDigit(s[k])
    ensures MatchOwned(s, IsDigit, 1) == Some(Parts(s[..j + 1], NameAfter(s, j)))
  {
    SpanIs(s, IsDigit, j + 1);
    assert s[j + 2..][0] == s[j + 2];
  }

  lemma ClaimOfTail(s: Text)
    requires s != ""
    ensures forall k: nat :: ClaimAt(s[1..], k) <==> ClaimAt(s, k + 1)
  {}

  /** The leftmost match is the digit run of the first claim and what follows it. */
  lemma {:induction false} MatchesFirstClaim(s: Text, b: nat, j: nat)
    requires FirstClaim(s, j) && b <= j
    requires (forall k | b <= k <= j :: IsDigit(s[k])) && (b > 0 ==> !IsDigit(s[b - 1]))
    ensures MatchAnywhere(s) == Some(Parts(s[b..j + 1], NameAfter(s, j)))
  {
    if b == 0 {
      ClaimMatches(s, j);
    } else {
      MatchIsClaim(s);
      assert MatchOwned(s, IsDigit, 1) == None;
      var rest := s[1..];
      ClaimOfTail(s);
      assert rest[b - 1..j] == s[b..j + 1] && rest[j + 1..] == s[j + 2..];
      assert NameAfter(rest, j - 1) == NameAfter(s, j);
      hide MatchOwned, Span, ClaimAt, NameAfter;
      MatchesFirstClaim(rest, b - 1, j - 1);
    }
  }

  lemma {:induction false} NoClaimNoMatch(s: Text)
    requires forall j: nat :: !ClaimAt(s, j)
    ensures MatchAnywhere(s) == None
  {
    MatchIsClaim(s);
    if s != "" {
      assert forall k: nat :: ClaimAt(s[1..], k) ==> ClaimAt(s, k + 1);
      NoClaimNoMatch(s[1..]);
    }
  }

  lemma {:induction false} FirstOf(s: Text, j: nat) returns (first: nat)
    requires ClaimAt(s, j)
    ensures FirstClaim(s, first)
  {
    if k: nat :| k < j && ClaimAt(s, k) {
      first := FirstOf(s, k);
    } else {
      first := j;
    }
  }

  /** Which volumes of any name are taken for the agent's own, and as which: exactly
      those where a digit is followed by an underscore and a printable character.
      The app id is then the whole run of digits before the first such underscore,
      and the name is what follows up to the next space; all else is ignored. */
  lemma VolumeClaimedIff(s: Text)
    ensures DeconstructVolume(s).Some? <==> exists j: nat :: ClaimAt(s, j)
    ensures forall j: nat | FirstClaim(s, j) ::
      DeconstructVolume(s)
      == Some(VolumeName(NameAfter(s, j), ParseDecimal(s[RunStart(s, j)..j + 1])))
  {
    forall j: nat | FirstClaim(s, j)
      ensures DeconstructVolume(s)
           == Some(VolumeName(NameAfter(s, j), ParseDecimal(s[RunStart(s, j)..j + 1])))
    {
      MatchesFirstClaim(s, RunStart(s, j), j);
      DigitsParse(s[RunStart(s, j)..j + 1]);
    }
    if j: nat :| ClaimAt(s, j) {
      var first := FirstOf(s, j);
    } else {
      NoClaimNoMatch(s);
    }
  }

  lemma DigitsParse(owner: Text)
    requires Digits(owner)
    ensures ParseInt(owner) == Some(ParseDecimal(owner))
  {
    assert owner[0] in owner;
    SpanIs(owner, IsSpace, 0);
    SpanIs(owner, IsDigit, |owner|);
    assert owner[0..] == owner && owner[..|owner|] == owner;
  }

  // ------------------------------------------------------------- classes and numbers

  /** The class of the regular expression, character by character. */
  lemma HexMeans(c: char)
    ensures IsHex(c) <==> c in "0123456789abcdefABCDEF-"
  {}

  /** Spaces, a sign, digits and anything that does not continue them. */
  ghost predicate Reads(text: Text, spaces: Text, sign: Text, digits: Text, rest: Text) {
    && text == spaces + (sign + (digits + rest))
    && (forall c <- spaces :: IsSpace(c)) && (sign == "" || sign == "-" || sign == "+")
    && Digits(digits) && (rest == "" || !IsDigit(rest[0]))
  }

  ghost function Value(sign: Text, digits: Text): int
    requires Digits(digits)
  {
    var n: int := ParseDecimal(digits);
    if sign == "-" then -n else n
  }

  lemma MagnitudeMeans(digits: Text, rest: Text, negative: bool)
    requires Digits(digits) && (rest == "" || !IsDigit(rest[0]))
    ensures Magnitude(digits + rest, negative) == Some(Value(if negative then "-" else "", digits))
  {
    var body := digits + rest;
    assert forall i | 0 <= i < |digits| :: body[i] == digits[i] && digits[i] in digits;
    SpanIs(body, IsDigit, |digits|);
    assert body[..|digits|] == digits;
  }

  lemma SignedMeans(sign: Text, digits: Text, rest: Text)
    requires (sign == "" || sign == "-" || sign == "+") && Digits(digits) && (rest == "" || !IsDigit(rest[0]))
    ensures Signed(sign + (digits + rest)) == Some(Value(sign, digits))
  {
    hide IsSpace;
    var body := digits + rest;
    assert digits[0] in digits && body[0] == digits[0];
    MagnitudeMeans(digits, rest, sign == "-");
    if sign == "" {
      assert sign + body == body;
    } else {
      assert (sign + body)[0] == sign[0] && (sign + body)[1..] == body;
    }
    hide Magnitude, ParseDecimal;
  }

  lemma NumberIsNoSpace(sign: Text, digits: Text, rest: Text)
    requires (sign == "" || sign == "-" || sign == "+") && Digits(digits)
    ensures !IsSpace((sign + (digits + rest))[0])
  {
    assert digits[0] in digits;
    assert (sign + (digits + rest))[0] == if sign == "" then digits[0] else sign[0];
  }

  /** A number is read exactly from the digits that stand first, but for spaces and one
      sign; what follows them does not matter. */
  lemma ParseIntMeans(text: Text, spaces: Text, sign: Text, digits: Text, rest: Text)
    requires Reads(text, spaces, sign, digits, rest)
    ensures Digits(digits) && ParseInt(text) == Some(Value(sign, digits))
  {
    SignedMeans(sign, digits, rest);
    NumberIsNoSpace(sign, digits, rest);
    var unsigned := sign + (digits + rest);
    assert forall i | 0 <= i < |spaces| :: text[i] == spaces[i] && spaces[i] in spaces;
    assert text[|spaces|] == unsigned[0] && text[|spaces|..] == unsigned;
    hide Signed, IsSpace, Value, IsDigit;
    SpanIs(text, IsSpace, |spaces|);
  }

  lemma ParseIntIff(text: Text)
    ensures ParseInt(text).Some? <==> exists spaces, sign, digits, rest :: Reads(text, spaces, sign, digits, rest)
  {
    if ParseInt(text).Some? { NumberHasParts(text); }
    if spaces, sign, digits, rest :| Reads(text, spaces, sign, digits, rest) {
      ParseIntMeans(text, spaces, sign, digits, rest);
    }
    hide ParseInt, Reads;
  }

  lemma MagnitudeHasParts(body: Text, negative: bool) returns (digits: Text, rest: Text)
    requires Magnitude(body, negative).Some?
    ensures body == digits + rest && Digits(digits) && (rest == "" || !IsDigit(rest[0]))
  {
    var d := Span(body, IsDigit);
    digits, rest := body[..d], body[d..];
  }

  lemma SignedHasParts(text: Text) returns (sign: Text, digits: Text, rest: Text)
    requires Signed(text).Some?
    ensures text == sign + (digits + rest) && (sign == "" || sign == "-" || sign == "+")
    ensures Digits(digits) && (rest == "" || !IsDigit(rest[0]))
  {
    hide Magnitude, Digits;
    if text != "" && (text[0] == '-' || text[0] == '+') {
      digits, rest := MagnitudeHasParts(text[1..], text[0] == '-');
      sign := [text[0]];
      assert text == sign + text[1..];
    } else {
      digits, rest := MagnitudeHasParts(text, false);
      sign := "";
      assert text == sign + text;
    }
  }

  lemma NumberHasParts(text: Text)
    requires ParseInt(text).Some?
    ensures exists spaces, sign, digits, rest :: Reads(text, spaces, sign, digits, rest)
  {
    hide Signed, IsSpace;
    var k := Span(text, IsSpace);
    var spaces := text[..k];
    var sign, digits, rest := SignedHasParts(text[k..]);
    assert text == spaces + text[k..];
    assert Reads(text, spaces, sign, digits, rest);
  }
}
