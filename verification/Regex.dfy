/** The part of RE2 syntax that the templates print: literal characters, groups, alternatives and anchors. */
module Regex {
  import opened Prelude

  datatype Re = Empty | Chr(c: char) | Start | End | Cat(first: Re, second: Re) | Alt(left: Re, right: Re)

  const META := "\\.+*?()|[]{}^$"

  predicate Plain(s: string) {
    forall c :: c in s ==> c !in META
  }

  // --------------------------------------------------------------- meaning

  /** The expression matches the stretch of `s` from i up to j. */
  predicate Matches(r: Re, s: string, i: nat, j: nat)
    requires i <= j <= |s|
  {
    match r
    case Empty => i == j
    case Chr(c) => j == i + 1 && s[i] == c
    case Start => i == j == 0
    case End => i == j == |s|
    case Cat(a, b) => exists k: nat :: i <= k <= j && Matches(a, s, i, k) && Matches(b, s, k, j)
    case Alt(a, b) => Matches(a, s, i, j) || Matches(b, s, i, j)
  }

  /** Both Prometheus and Alertmanager match the whole string. */
  predicate FullMatch(r: Re, s: string) {
    Matches(r, s, 0, |s|)
  }

  // --------------------------------------------------------------- parsing

  datatype Parsed = Parsed(re: Re, rest: string)

  /** Alternatives, up to an unmatched ')' or the end. */
  function ParseAlt(s: string): (r: Option<Parsed>)
    ensures r.Some? ==> |r.value.rest| <= |s|
    decreases |s|, 2
  {
    match ParseCat(s)
    case None => None
    case Some(Parsed(left, rest)) =>
      if rest == "" || rest[0] != '|' then Some(Parsed(left, rest))
      else match ParseAlt(rest[1..])
           case None => None
           case Some(Parsed(right, rest')) => Some(Parsed(Alt(left, right), rest'))
  }

  /** A possibly empty run of atoms. */
  function ParseCat(s: string): (r: Option<Parsed>)
    ensures r.Some? ==> |r.value.rest| <= |s|
    decreases |s|, 1
  {
    if Closed(s) then Some(Parsed(Empty, s))
    else match ParseAtom(s)
         case None => None
         case Some(Parsed(first, rest)) =>
           match ParseCat(rest)
           case None => None
           case Some(Parsed(second, rest')) => Some(Parsed(Cat(first, second), rest'))
  }

  function ParseAtom(s: string): (r: Option<Parsed>)
    requires s != ""
    ensures r.Some? ==> |r.value.rest| < |s|
    decreases |s|, 0
  {
    if s[0] == '^' then Some(Parsed(Start, s[1..]))
    else if s[0] == '$' then Some(Parsed(End, s[1..]))
    else if s[0] == '(' then
      match ParseAlt(s[1..])
      case None => None
      case Some(Parsed(inner, rest)) =>
        if rest != "" && rest[0] == ')' then Some(Parsed(inner, rest[1..])) else None
    else if s[0] in META then None
    else Some(Parsed(Chr(s[0]), s[1..]))
  }

  /** None if the text is not in the modelled syntax. */
  function Parse(s: string): Option<Re> {
    match ParseAlt(s)
    case None => None
    case Some(Parsed(r, rest)) => if rest == "" then Some(r) else None
  }

  /** Here a run of atoms ends. */
  predicate Closed(s: string) {
    s == "" || s[0] == '|' || s[0] == ')'
  }

  // ------------------------------------------------------------ composing

  /** The characters of a text, then r. */
  function Prepend(text: string, r: Re): Re {
    if text == "" then r else Cat(Chr(text[0]), Prepend(text[1..], r))
  }

  /** One of the expressions; with none, the empty one. */
  function AnyOf(rs: seq<Re>): Re {
    if rs == [] then Empty
    else if |rs| == 1 then rs[0]
    else Alt(rs[0], AnyOf(rs[1..]))
  }

  lemma {:induction false} ParsePlain(text: string, tail: string)
    requires Plain(text) && ParseCat(tail).Some?
    ensures var t := ParseCat(tail).value; ParseCat(text + tail) == Some(Parsed(Prepend(text, t.re), t.rest))
  {
    if text == "" {
      assert text + tail == tail;
    } else {
      assert text[0] in text;
      assert (text + tail)[1..] == text[1..] + tail;
      ParsePlain(text[1..], tail);
    }
  }

  /** Wherever a run of atoms may end after it, this text is one and means r. */
  ghost predicate ParsesTo(text: string, r: Re) {
    forall tail :: Closed(tail) ==> ParseCat(text + tail) == Some(Parsed(r, tail))
  }

  lemma {:induction false} ParseJoined(parts: seq<string>, rs: seq<Re>, tail: string)
    requires |parts| == |rs|
    requires forall k :: 0 <= k < |parts| ==> ParsesTo(parts[k], rs[k])
    requires tail == "" || tail[0] == ')'
    ensures ParseAlt(Join(parts, "|") + tail) == Some(Parsed(AnyOf(rs), tail))
  {
    if parts == [] {
      assert Join(parts, "|") + tail == tail;
    } else if |parts| == 1 {
      assert ParsesTo(parts[0], rs[0]);
    } else {
      var rest := "|" + (Join(parts[1..], "|") + tail);
      assert Join(parts, "|") + tail == parts[0] + rest;
      assert ParsesTo(parts[0], rs[0]);
      assert rest[1..] == Join(parts[1..], "|") + tail;
      ParseJoined(parts[1..], rs[1..], tail);
    }
  }

  lemma {:induction false} MatchesPrepend(text: string, r: Re, s: string, i: nat, j: nat)
    requires i <= j <= |s|
    ensures Matches(Prepend(text, r), s, i, j)
       <==> i + |text| <= j && s[i..i + |text|] == text && Matches(r, s, i + |text|, j)
  {
    if text != "" {
      var rest := Prepend(text[1..], r);
      if i < j {
        MatchesPrepend(text[1..], r, s, i + 1, j);
        assert Matches(Prepend(text, r), s, i, j) <==> s[i] == text[0] && Matches(rest, s, i + 1, j);
        if i + |text| <= j {
          assert s[i..i + |text|] == [s[i]] + s[i + 1..i + |text|];
          assert text == [text[0]] + text[1..];
        }
      }
    }
  }

  lemma MatchesLiteral(text: string, s: string)
    ensures FullMatch(Prepend(text, Empty), s) <==> s == text
  {
    MatchesPrepend(text, Empty, s, 0, |s|);
  }

  /** An empty expression behind another changes nothing. */
  lemma MatchesThenEmpty(r: Re, s: string, i: nat, j: nat)
    requires i <= j <= |s|
    ensures Matches(Cat(r, Empty), s, i, j) <==> Matches(r, s, i, j)
  {
  }

  lemma MatchesStartThen(r: Re, s: string, j: nat)
    requires j <= |s|
    ensures Matches(Cat(Start, r), s, 0, j) <==> Matches(r, s, 0, j)
  {
    assert Matches(Start, s, 0, 0);
  }

  lemma {:induction false} MatchesAnyOf(rs: seq<Re>, s: string, i: nat, j: nat)
    requires i <= j <= |s|
    ensures Matches(AnyOf(rs), s, i, j)
       <==> (rs == [] && i == j) || exists k :: 0 <= k < |rs| && Matches(rs[k], s, i, j)
  {
    if |rs| > 1 {
      MatchesAnyOf(rs[1..], s, i, j);
      if k :| 0 <= k < |rs| && Matches(rs[k], s, i, j) {
        assert k > 0 ==> rs[1..][k - 1] == rs[k];
      }
    }
  }
}
