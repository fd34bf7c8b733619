/** The mail escaper (postoffice/src/sanitizer.ts). */
module Sanitizer {
  import opened Basics

  /** `value.replace(/c/g, into)` */
  function Replace(value: string, c: char, into: string): string {
    if value == "" then "" else Replace(Init(value), c, into) + (if Last(value) == c then into else [Last(value)])
  }

  const HiddenBreak := "<br style=\"display: none;\"/>"

  datatype SanitizedText = SanitizedText(text: string, html: string)

  function HtmlEscape(value: string): string {
    Replace(Replace(Replace(value, '&', "&amp;"), '<', "&lt;"), '>', "&gt;")
  }

  function SanitizeText(value: string): SanitizedText {
    SanitizedText(Replace(value, '.', " "), Replace(HtmlEscape(value), '.', HiddenBreak + "."))
  }

  // ------------------------------------------------------------ the meaning

  function Entity(c: char): string {
    match c
    case '&' => "&amp;"
    case '<' => "&lt;"
    case '>' => "&gt;"
    case _ => [c]
  }

  /** Every character translated on its own. */
  function PerCharacter(value: string): string {
    if value == "" then "" else PerCharacter(Init(value)) + Entity(Last(value))
  }

  /** What a reader of the markup sees: one pass from the left. */
  function Decode(html: string): string
    decreases |html|
  {
    if html == "" then ""
    else if StartsWith(html, "&amp;") then "&" + Decode(html[5..])
    else if StartsWith(html, "&lt;") then "<" + Decode(html[4..])
    else if StartsWith(html, "&gt;") then ">" + Decode(html[4..])
    else [html[0]] + Decode(html[1..])
  }

  /** `html` with every hidden break deleted, in one pass from the left. */
  function WithoutBreaks(html: string): string
    decreases |html|
  {
    if html == "" then ""
    else if StartsWith(html, HiddenBreak) then WithoutBreaks(html[|HiddenBreak|..])
    else [html[0]] + WithoutBreaks(html[1..])
  }

  // ------------------------------------------------------------------ replacing

  lemma {:induction false} ReplaceJoins(a: string, b: string, c: char, into: string)
    ensures Replace(a + b, c, into) == Replace(a, c, into) + Replace(b, c, into)
  {
    if b == "" {
      assert a + b == a;
    } else {
      assert Init(a + b) == a + Init(b) && Last(a + b) == Last(b);
      ReplaceJoins(a, Init(b), c, into);
      var tail := if Last(b) == c then into else [Last(b)];
      assert (Replace(a, c, into) + Replace(Init(b), c, into)) + tail == Replace(a, c, into) + (Replace(Init(b), c, into) + tail);
    }
  }

  lemma {:induction false} ReplaceAbsent(a: string, c: char, into: string)
    requires c !in a
    ensures Replace(a, c, into) == a
  {
    if a != "" {
      ReplaceAbsent(Init(a), c, into);
      assert Init(a) + [Last(a)] == a;
    }
  }

  lemma ReplaceOne(x: char, c: char, into: string)
    ensures Replace([x], c, into) == if x == c then into else [x]
  {
    assert Init([x]) == "";
  }

  lemma EscapeOne(x: char)
    ensures HtmlEscape([x]) == Entity(x)
  {
    hide Replace;
    ReplaceOne(x, '&', "&amp;");
    if x == '&' {
      ReplaceAbsent("&amp;", '<', "&lt;");
      ReplaceAbsent("&amp;", '>', "&gt;");
    } else {
      ReplaceOne(x, '<', "&lt;");
      if x == '<' { ReplaceAbsent("&lt;", '>', "&gt;"); } else { ReplaceOne(x, '>', "&gt;"); }
    }
  }

  lemma EscapeJoins(a: string, b: string)
    ensures HtmlEscape(a + b) == HtmlEscape(a) + HtmlEscape(b)
  {
    ReplaceJoins(a, b, '&', "&amp;");
    var a1, b1 := Replace(a, '&', "&amp;"), Replace(b, '&', "&amp;");
    ReplaceJoins(a1, b1, '<', "&lt;");
    ReplaceJoins(Replace(a1, '<', "&lt;"), Replace(b1, '<', "&lt;"), '>', "&gt;");
  }

  /** The three global replacements in sequence translate each character once. */
  lemma {:induction false} EscapeIsPerCharacter(value: string)
    ensures HtmlEscape(value) == PerCharacter(value)
  {
    if value != "" {
      EscapeIsPerCharacter(Init(value));
      assert value == Init(value) + [Last(value)];
      EscapeJoins(Init(value), [Last(value)]);
      EscapeOne(Last(value));
    }
  }

  lemma PerCharacterFromLeft(value: string)
    requires value != ""
    ensures PerCharacter(value) == Entity(value[0]) + PerCharacter(value[1..])
  {
    hide *;
    assert value == [value[0]] + value[1..];
    EscapeIsPerCharacter(value);
    EscapeJoins([value[0]], value[1..]);
    EscapeOne(value[0]);
    EscapeIsPerCharacter(value[1..]);
  }

  // ------------------------------------------------------------------- escaping

  /** No markup survives: the escaped text has no angle bracket. */
  lemma {:induction false} EscapedHasNoBrackets(value: string)
    ensures '<' !in HtmlEscape(value) && '>' !in HtmlEscape(value)
  {
    EscapeIsPerCharacter(value);
    NoBracketsPerCharacter(value);
  }

  lemma {:induction false} NoBracketsPerCharacter(value: string)
    ensures '<' !in PerCharacter(value) && '>' !in PerCharacter(value)
  {
    if value != "" {
      NoBracketsPerCharacter(Init(value));
      var entity := Entity(Last(value));
      assert '<' !in entity && '>' !in entity;
      hide Entity;
    }
  }

  lemma DecodeEntity(c: char, rest: string)
    ensures Decode(Entity(c) + rest) == [c] + Decode(rest)
  {
    var html := Entity(c) + rest;
    assert html[|Entity(c)|..] == rest && html[..|Entity(c)|] == Entity(c);
    if c == '<' || c == '>' {
      StartsWithAt(html, "&amp;", 1);
      StartsWithAt(html, "&lt;", 1);
    } else if c != '&' {
      StartsWithAt(html, "&amp;", 0);
      StartsWithAt(html, "&lt;", 0);
      StartsWithAt(html, "&gt;", 0);
    }
  }

  /** Reading the escaped text back gives the original. */
  lemma {:induction false} DecodeUndoesEscape(value: string)
    ensures Decode(HtmlEscape(value)) == value
  {
    EscapeIsPerCharacter(value);
    if value != "" {
      PerCharacterFromLeft(value);
      EscapeIsPerCharacter(value[1..]);
      DecodeEntity(value[0], PerCharacter(value[1..]));
      DecodeUndoesEscape(value[1..]);
    }
  }

  /** Different texts never look the same once escaped. */
  lemma EscapeIsInjective(a: string, b: string)
    requires HtmlEscape(a) == HtmlEscape(b)
    ensures a == b
  {
    DecodeUndoesEscape(a);
    DecodeUndoesEscape(b);
  }

  // ----------------------------------------------------------------- sanitizing

  lemma {:induction false} ReplaceFromLeft(s: string, c: char, into: string)
    requires s != ""
    ensures Replace(s, c, into) == (if s[0] == c then into else [s[0]]) + Replace(s[1..], c, into)
  {
    assert s == [s[0]] + s[1..];
    ReplaceJoins([s[0]], s[1..], c, into);
    ReplaceOne(s[0], c, into);
  }

  lemma {:induction false} BreaksComeOut(escaped: string)
    requires '<' !in escaped
    ensures WithoutBreaks(Replace(escaped, '.', HiddenBreak + ".")) == escaped
  {
    if escaped != "" {
      var head, tail := escaped[0], escaped[1..];
      ReplaceFromLeft(escaped, '.', HiddenBreak + ".");
      BreaksComeOut(tail);
      var rest := Replace(tail, '.', HiddenBreak + ".");
      if head == '.' {
        var html := HiddenBreak + "." + rest;
        assert html[..|HiddenBreak|] == HiddenBreak;
        assert html[|HiddenBreak|..] == "." + rest;
        assert ("." + rest)[0] == '.' && ("." + rest)[1..] == rest;
        StartsWithAt("." + rest, HiddenBreak, 0);
      } else {
        assert ([head] + rest)[1..] == rest;
        assert head in escaped;
        StartsWithAt([head] + rest, HiddenBreak, 0);
      }
      assert [head] + tail == escaped;
    }
  }

  /** Deleting the hidden breaks and reading the entities gives back the original. */
  lemma SanitizedHtmlReadsBack(value: string)
    ensures Decode(WithoutBreaks(SanitizeText(value).html)) == value
  {
    EscapedHasNoBrackets(value);
    BreaksComeOut(HtmlEscape(value));
    DecodeUndoesEscape(value);
  }

  /** Position `i` of the markup comes right after a mark. */
  predicate ShieldedAt(html: string, i: nat, mark: string)
    requires i <= |html|
  {
    i >= |mark| && html[i - |mark|..i] == mark
  }

  /** The places where a link could still form: full stops not right after a mark. */
  predicate ShieldedDots(html: string, mark: string) {
    forall i | 0 <= i < |html| :: html[i] == '.' ==> ShieldedAt(html, i, mark)
  }

  lemma ShieldedBefore(before: string, piece: string, i: nat, mark: string)
    requires i <= |before| && ShieldedAt(before, i, mark)
    ensures ShieldedAt(before + piece, i, mark)
  {
    assert (before + piece)[i - |mark|..i] == before[i - |mark|..i];
  }

  lemma ShieldedAfter(before: string, piece: string, i: nat, mark: string)
    requires i <= |piece| && ShieldedAt(piece, i, mark)
    ensures ShieldedAt(before + piece, |before| + i, mark)
  {
    assert (before + piece)[|before| + i - |mark|..|before| + i] == piece[i - |mark|..i];
  }

  lemma ShieldedJoins(before: string, piece: string, mark: string)
    requires ShieldedDots(before, mark) && ShieldedDots(piece, mark)
    ensures ShieldedDots(before + piece, mark)
  {
    var html := before + piece;
    forall i | 0 <= i < |html| && html[i] == '.'
      ensures ShieldedAt(html, i, mark)
    {
      hide ShieldedAt;
      if i < |before| {
        ShieldedBefore(before, piece, i, mark);
      } else {
        ShieldedAfter(before, piece, i - |before|, mark);
      }
    }
  }

  lemma ShieldedPiece(mark: string, c: char)
    requires '.' !in mark
    ensures ShieldedDots(if c == '.' then mark + "." else [c], mark)
  {
    assert (mark + ".")[|mark| - |mark|..|mark|] == mark;
    assert forall i | 0 <= i < |mark| :: (mark + ".")[i] in mark;
  }

  lemma {:induction false} DotsAreShielded(s: string, mark: string)
    requires '.' !in mark
    ensures ShieldedDots(Replace(s, '.', mark + "."), mark)
  {
    if s != "" {
      DotsAreShielded(Init(s), mark);
      ShieldedPiece(mark, Last(s));
      hide ShieldedDots;
      ShieldedJoins(Replace(Init(s), '.', mark + "."), if Last(s) == '.' then mark + "." else [Last(s)], mark);
    }
  }

  /** No full stop is left bare: none in the plain text, each behind a break in the markup. */
  lemma NoBareDots(value: string)
    ensures |SanitizeText(value).text| == |value|
    ensures forall i | 0 <= i < |value| :: SanitizeText(value).text[i] == if value[i] == '.' then ' ' else value[i]
    ensures ShieldedDots(SanitizeText(value).html, "<br style=\"display: none;\"/>")
  {
    DotsAreShielded(HtmlEscape(value), HiddenBreak);
    DotsBecomeSpaces(value);
  }

  lemma {:induction false} DotsBecomeSpaces(value: string)
    ensures |Replace(value, '.', " ")| == |value|
    ensures forall i | 0 <= i < |value| :: Replace(value, '.', " ")[i] == if value[i] == '.' then ' ' else value[i]
  {
    if value != "" { DotsBecomeSpaces(Init(value)); }
  }
}
