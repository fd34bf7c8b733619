/** Small vocabulary shared by every module: optional values, sequences
    without repetition, and decimal rendering of identifiers. */
module Basics {
  datatype Option<+T> = None | Some(value: T) {
    function GetOr(default: T): T {
      match this
      case Some(v) => v
      case None => default
    }
  }

  /** JavaScript's `text || default`: an absent or empty text counts as false. */
  function OrText(o: Option<string>, default: string): string {
    if o.Some? && o.value != "" then o.value else default
  }

  /** The name under which a plain object has the object it inherits from. */
  const Proto := "__proto__"

  function Init<T>(s: seq<T>): seq<T>
    requires s != []
  {
    s[..|s| - 1]
  }

  function Last<T>(s: seq<T>): T
    requires s != []
  {
    s[|s| - 1]
  }

  ghost predicate NoDup<T>(s: seq<T>) {
    forall i, j | 0 <= i < j < |s| :: s[i] != s[j]
  }

  /** A JavaScript `Set` filled from `s`, in insertion order. */
  function Dedup<T(==,!new)>(s: seq<T>): (d: seq<T>)
    ensures NoDup(d)
    ensures forall x :: x in d <==> x in s
  {
    if s == [] then [] else
      var d := Dedup(Init(s));
      if Last(s) in d then d else d + [Last(s)]
  }

  /** The elements of `s` that are not in `excluded`, in order. */
  function Without<T(==,!new)>(s: seq<T>, excluded: seq<T>): (r: seq<T>)
    ensures forall x :: x in r <==> x in s && x !in excluded
  {
    if s == [] then []
    else if Last(s) in excluded then Without(Init(s), excluded)
    else Without(Init(s), excluded) + [Last(s)]
  }

  predicate StartsWith(s: string, prefix: string) {
    |prefix| <= |s| && s[..|prefix|] == prefix
  }

  lemma StartsWithAt(s: string, prefix: string, i: nat)
    requires i < |prefix|
    ensures StartsWith(s, prefix) ==> s[i] == prefix[i]
  {
    if StartsWith(s, prefix) { assert s[..|prefix|][i] == s[i]; }
  }

  lemma LastIsNew<T>(s: seq<T>)
    requires NoDup(s) && s != []
    ensures NoDup(Init(s)) && Last(s) !in Init(s)
  {}

  lemma {:induction false} AllExcluded<T(!new)>(s: seq<T>, excluded: seq<T>)
    requires forall x <- s :: x in excluded
    ensures Without(s, excluded) == []
  {
    if s != [] {
      AllExcluded(Init(s), excluded);
      assert Last(s) in s;
    }
  }

  lemma {:induction false} DedupOfUnique<T(!new)>(s: seq<T>)
    requires NoDup(s)
    ensures Dedup(s) == s
  {
    if s != [] {
      LastIsNew(s);
      assert Init(s) + [Last(s)] == s;
      DedupOfUnique(Init(s));
    }
  }

  lemma InLast<T>(s: seq<T>, x: T)
    requires s != []
    ensures x in s <==> x in Init(s) || x == Last(s)
  {
    assert s == Init(s) + [Last(s)];
  }

  lemma SplitAround<T>(s: seq<T>, i: nat)
    requires i < |s|
    ensures s == s[..i] + ([s[i]] + s[i + 1..])
    ensures forall x <- s[..i] + s[i + 1..] :: x in s
  {}

  lemma EmptyIsUnit<T>(s: seq<T>)
    ensures s + [] == s && [] + s == s && s[..|s|] == s
  {}

  function Max(s: set<nat>): (m: nat)
    requires s != {}
    ensures m in s && forall x <- s :: x <= m
  {
    MaxExists(s);
    var m :| m in s && forall x <- s :: x <= m;
    m
  }

  lemma {:induction false} MaxExists(s: set<nat>)
    requires s != {}
    ensures exists m :: m in s && forall x <- s :: x <= m
    decreases |s|
  {
    var x :| x in s;
    if s != {x} {
      var rest := s - {x};
      MaxExists(rest);
      var m :| m in rest && forall y <- rest :: y <= m;
      var top := if x <= m then m else x;
      assert top in s && forall y <- s :: y <= top by {
        forall y | y in s ensures y <= top {
          if y != x { assert y in rest; }
        }
      }
    }
  }

  /** The order in which JavaScript lists integer-like keys of an object. */
  function Ascending(s: set<nat>): (r: seq<nat>)
    ensures NoDup(r)
    ensures forall x :: x in r <==> x in s
    decreases |s|
  {
    if s == {} then [] else Ascending(s - {Max(s)}) + [Max(s)]
  }

  lemma {:induction false} AscendingIsSorted(s: set<nat>)
    ensures forall i, j | 0 <= i < j < |Ascending(s)| :: Ascending(s)[i] < Ascending(s)[j]
    decreases |s|
  {
    if s != {} {
      var m := Max(s);
      var rest := s - {m};
      AscendingIsSorted(rest);
      var earlier := Ascending(rest);
      assert Ascending(s) == earlier + [m];
      hide Ascending, Max;
      assert forall i | 0 <= i < |earlier| :: earlier[i] in earlier && earlier[i] < m;
    }
  }

  /** Where an element first occurs. */
  function FirstPlace<T(==)>(s: seq<T>, x: T): (i: nat)
    requires x in s
    ensures i < |s| && s[i] == x && x !in s[..i]
  {
    if s[0] == x then 0
    else
      assert s == [s[0]] + s[1..];
      FirstPlace(s[1..], x) + 1
  }

  /** A set keeps the order of first occurrence. */
  lemma {:induction false} DedupInOrder<T(!new)>(s: seq<T>)
    ensures forall i, j | 0 <= i < j < |Dedup(s)| :: FirstPlace(s, Dedup(s)[i]) < FirstPlace(s, Dedup(s)[j])
  {
    if s != [] {
      var earlier, d := Init(s), Dedup(Init(s));
      DedupInOrder(earlier);
      forall x | x in earlier
        ensures FirstPlace(s, x) == FirstPlace(earlier, x)
      {
        var i, k := FirstPlace(s, x), FirstPlace(earlier, x);
        assert s[k] == x && earlier[k] == x;
      }
      assert forall i | 0 <= i < |d| :: d[i] in d;
      if Last(s) !in d { assert FirstPlace(s, Last(s)) == |s| - 1; }
      hide FirstPlace;
    }
  }

  // ---------------------------------------------------------------- decimal

  predicate IsDigit(c: char) { '0' <= c <= '9' }

  function DigitChar(d: nat): char
    requires d < 10
  {
    "0123456789"[d]
  }

  /** `String(n)` for a non-negative integer. */
  function Decimal(n: nat): (s: string)
    ensures s != [] && forall c <- s :: IsDigit(c)
  {
    if n < 10 then [DigitChar(n)] else Decimal(n / 10) + [DigitChar(n % 10)]
  }

  function DigitValue(c: char): nat
    requires IsDigit(c)
  {
    (c - '0') as nat
  }

  /** `parseInt(s, 10)` on a string of digits. */
  function ParseDecimal(s: string): nat
    requires forall c <- s :: IsDigit(c)
  {
    if s == [] then 0 else 10 * ParseDecimal(Init(s)) + DigitValue(Last(s))
  }

  lemma {:induction false} DecimalRoundTrip(n: nat)
    ensures ParseDecimal(Decimal(n)) == n
  {
    if n >= 10 {
      DecimalRoundTrip(n / 10);
      var s := Decimal(n);
      assert Init(s) == Decimal(n / 10);
      assert DigitValue(DigitChar(n % 10)) == n % 10;
    }
  }

  lemma DecimalInjective(a: nat, b: nat)
    requires Decimal(a) == Decimal(b)
    ensures a == b
  {
    DecimalRoundTrip(a);
    DecimalRoundTrip(b);
  }

  /** A number and a text joined by '_' can be told apart again. */
  lemma NumberedInjective(a: nat, x: string, b: nat, y: string)
    requires Decimal(a) + "_" + x == Decimal(b) + "_" + y
    ensures a == b && x == y
  {
    var s, t := Decimal(a) + "_" + x, Decimal(b) + "_" + y;
    var m, n := |Decimal(a)|, |Decimal(b)|;
    assert s[m] == '_' && t[n] == '_';
    assert forall i | 0 <= i < m :: s[i] == Decimal(a)[i] && Decimal(a)[i] in Decimal(a);
    assert forall i | 0 <= i < n :: t[i] == Decimal(b)[i] && Decimal(b)[i] in Decimal(b);
    assert m == n;
    assert Decimal(a) == s[..m] == t[..m] == Decimal(b);
    assert x == s[m + 1..] && y == t[m + 1..];
    DecimalInjective(a, b);
  }
}
