/** The two printed regular expressions: the remote-write keep rule (getRelableRegex) and the alert matchers
    (getRegexMatcher), and the routes that use the matchers. */
module Alerting {
  import opened Prelude
  import opened Regex

  // ---------------------------------------------------- remote-write filter

  function MetricGroups(metrics: seq<string>): seq<string> {
    seq(|metrics|, i requires 0 <= i < |metrics| => "(" + metrics[i] + ";)")
  }

  /** getRelableRegex */
  function RelabelRegex(alerts: seq<string>, metrics: seq<string>): string {
    "(ALERTS;(" + Join(alerts, "|") + "))|" + Join(MetricGroups(metrics), "|")
  }

  predicate Listable(name: string) {
    Plain(name) && ';' !in name
  }

  function Literals(texts: seq<string>): seq<Re> {
    seq(|texts|, i requires 0 <= i < |texts| => Prepend(texts[i], Empty))
  }

  lemma PlainParsesTo(text: string)
    requires Plain(text)
    ensures ParsesTo(text, Prepend(text, Empty))
  {
    forall tail | Closed(tail)
      ensures ParseCat(text + tail) == Some(Parsed(Prepend(text, Empty), tail))
    {
      ParsePlain(text, tail);
    }
  }

  lemma ParseLiterals(texts: seq<string>, tail: string)
    requires forall t :: t in texts ==> Plain(t)
    requires tail == "" || tail[0] == ')'
    ensures ParseAlt(Join(texts, "|") + tail) == Some(Parsed(AnyOf(Literals(texts)), tail))
  {
    forall k | 0 <= k < |texts|
      ensures ParsesTo(texts[k], Literals(texts)[k])
    {
      assert texts[k] in texts;
      PlainParsesTo(texts[k]);
    }
    ParseJoined(texts, Literals(texts), tail);
  }

  /** A group at the front: what is inside, then the rest of the run. */
  lemma ParseGroup(inside: string, inner: Re, tail: string)
    requires ParseAlt(inside + ")" + tail) == Some(Parsed(inner, ")" + tail))
    requires ParseCat(tail).Some?
    ensures var t := ParseCat(tail).value;
            ParseCat("(" + inside + ")" + tail) == Some(Parsed(Cat(inner, t.re), t.rest))
  {
    var s := "(" + inside + ")" + tail;
    assert s[0] == '(' && s[1..] == inside + ")" + tail;
    assert (")" + tail)[1..] == tail;
    assert ParseAtom(s) == Some(Parsed(inner, tail));
  }

  function MetricRe(metric: string): Re {
    Cat(Prepend(metric + ";", Empty), Empty)
  }

  lemma MetricGroupParsesTo(metric: string)
    requires Listable(metric)
    ensures ParsesTo("(" + metric + ";)", MetricRe(metric))
  {
    forall tail | Closed(tail)
      ensures ParseCat("(" + metric + ";)" + tail) == Some(Parsed(MetricRe(metric), tail))
    {
      var text := metric + ";";
      ParsePlain(text, ")" + tail);
      assert text + (")" + tail) == text + ")" + tail;
      ParseGroup(text, Prepend(text, Empty), tail);
      assert "(" + text + ")" + tail == "(" + metric + ";)" + tail;
    }
  }

  function GroupRe(text: string, inner: Re): Re {
    Cat(Prepend(text, Cat(inner, Empty)), Empty)
  }

  const ALERT_STATE := "ALERTS;"

  function AlertsRe(alerts: seq<string>): Re {
    GroupRe(ALERT_STATE, AnyOf(Literals(alerts)))
  }

  lemma Regroup(text: string, list: string, tail: string)
    ensures text + ("(" + list + ")" + (")" + tail)) == (text + "(" + list + ")") + ")" + tail
  {
  }

  /** A text and a group, in a group. */
  lemma ParseNestedGroup(text: string, list: string, inner: Re, tail: string)
    requires Plain(text) && Closed(tail)
    requires ParseAlt(list + ")" + (")" + tail)) == Some(Parsed(inner, ")" + (")" + tail)))
    ensures ParseCat("(" + (text + "(" + list + ")") + ")" + tail) == Some(Parsed(GroupRe(text, inner), tail))
  {
    var close := ")" + tail;
    ParseGroup(list, inner, close);
    ParsePlain(text, "(" + list + ")" + close);
    Regroup(text, list, tail);
    ParseGroup(text + "(" + list + ")", Prepend(text, Cat(inner, Empty)), tail);
  }

  lemma NestedListParses(text: string, list: string, alerts: seq<string>, tail: string)
    requires Plain(text) && forall a :: a in alerts ==> Plain(a)
    requires list == Join(alerts, "|")
    requires Closed(tail)
    ensures ParseCat("(" + (text + "(" + list + ")") + ")" + tail)
         == Some(Parsed(GroupRe(text, AnyOf(Literals(alerts))), tail))
  {
    var close := ")" + (")" + tail);
    ParseLiterals(alerts, close);
    assert list + close == list + ")" + (")" + tail);
    ParseNestedGroup(text, list, AnyOf(Literals(alerts)), tail);
  }

  lemma AlertsText(text: string, list: string, tail: string)
    requires text == ALERT_STATE
    ensures "(" + (text + "(" + list + ")") + ")" + tail == "(ALERTS;(" + list + "))" + tail
    ensures Plain(text)
  {
    assert "(" + (text + "(") == "(ALERTS;(";
    assert ")" + ")" == "))";
    assert "(" + (text + "(" + list + ")") + ")" + tail == ("(" + (text + "(")) + list + (")" + ")") + tail;
  }

  lemma AlertsGroupParses(alerts: seq<string>, list: string, tail: string)
    requires forall a :: a in alerts ==> Listable(a)
    requires list == Join(alerts, "|")
    requires Closed(tail)
    ensures ParseCat("(ALERTS;(" + list + "))" + tail) == Some(Parsed(AlertsRe(alerts), tail))
  {
    var text := ALERT_STATE;
    AlertsText(text, list, tail);
    NestedListParses(text, list, alerts, tail);
  }

  function MetricRes(metrics: seq<string>): seq<Re> {
    seq(|metrics|, i requires 0 <= i < |metrics| => MetricRe(metrics[i]))
  }

  lemma RelabelRegexParses(alerts: seq<string>, metrics: seq<string>)
    requires forall a :: a in alerts ==> Listable(a)
    requires forall m :: m in metrics ==> Listable(m)
    ensures Parse(RelabelRegex(alerts, metrics)) == Some(Alt(AlertsRe(alerts), AnyOf(MetricRes(metrics))))
  {
    var groups := Join(MetricGroups(metrics), "|");
    forall k | 0 <= k < |metrics|
      ensures ParsesTo(MetricGroups(metrics)[k], MetricRes(metrics)[k])
    {
      assert metrics[k] in metrics;
      MetricGroupParsesTo(metrics[k]);
    }
    ParseJoined(MetricGroups(metrics), MetricRes(metrics), "");
    assert groups + "" == groups;
    AlertsGroupParses(alerts, Join(alerts, "|"), "|" + groups);
    assert ("|" + groups)[1..] == groups;
    assert "(ALERTS;(" + Join(alerts, "|") + "))" + ("|" + groups) == RelabelRegex(alerts, metrics);
  }

  /** What Prometheus matches the rule against: the values of __name__ and alertname. */
  function Labels(name: string, alertname: string): string {
    name + ";" + alertname
  }

  lemma LabelsAreUnambiguous(name: string, alertname: string, name': string, alertname': string)
    requires ';' !in name' && ';' !in alertname'
    ensures Labels(name, alertname) == Labels(name', alertname') <==> name == name' && alertname == alertname'
  {
    var s, s' := Labels(name, alertname), Labels(name', alertname');
    assert s[|name|] == ';' && s[|name| + 1..] == alertname && s[..|name|] == name;
    assert s'[|name'|] == ';' && s'[|name'| + 1..] == alertname' && s'[..|name'|] == name';
    forall k | 0 <= k < |s'| && k != |name'|
      ensures s'[k] != ';'
    {
      assert s'[k] == if k < |name'| then name'[k] else alertname'[k - |name'| - 1];
    }
  }

  lemma MatchesMetric(metric: string, name: string, alertname: string)
    requires ';' !in metric
    ensures FullMatch(MetricRe(metric), Labels(name, alertname)) <==> name == metric && alertname == ""
  {
    var s := Labels(name, alertname);
    MatchesThenEmpty(Prepend(metric + ";", Empty), s, 0, |s|);
    MatchesLiteral(metric + ";", s);
    assert Labels(metric, "") == metric + ";";
    LabelsAreUnambiguous(name, alertname, metric, "");
  }

  lemma MatchesSomeMetric(metrics: seq<string>, name: string, alertname: string)
    requires forall m :: m in metrics ==> Listable(m)
    ensures FullMatch(AnyOf(MetricRes(metrics)), Labels(name, alertname)) <==> name in metrics && alertname == ""
  {
    var s := Labels(name, alertname);
    MatchesAnyOf(MetricRes(metrics), s, 0, |s|);
    forall k | 0 <= k < |metrics|
      ensures FullMatch(MetricRes(metrics)[k], s) <==> name == metrics[k] && alertname == ""
    {
      assert metrics[k] in metrics;
      MatchesMetric(metrics[k], name, alertname);
    }
    if name in metrics && alertname == "" {
      var k :| 0 <= k < |metrics| && metrics[k] == name;
      assert FullMatch(MetricRes(metrics)[k], s);
    }
  }

  /** The stretch behind `start` is one of the texts; an empty list stands for the empty text. */
  lemma MatchesSomeLiteral(texts: seq<string>, s: string, start: nat)
    requires start <= |s|
    ensures Matches(AnyOf(Literals(texts)), s, start, |s|)
       <==> s[start..] in texts || (texts == [] && s[start..] == "")
  {
    MatchesAnyOf(Literals(texts), s, start, |s|);
    forall k | 0 <= k < |texts|
      ensures Matches(Literals(texts)[k], s, start, |s|) <==> s[start..] == texts[k]
    {
      MatchesPrepend(texts[k], Empty, s, start, |s|);
    }
    if s[start..] in texts {
      var k :| 0 <= k < |texts| && texts[k] == s[start..];
      assert Matches(Literals(texts)[k], s, start, |s|);
    }
  }

  predicate ListedAlert(alerts: seq<string>, alertname: string) {
    alertname in alerts || (alerts == [] && alertname == "")
  }

  lemma MatchesAlerts(alerts: seq<string>, name: string, alertname: string)
    requires forall a :: a in alerts ==> Listable(a)
    ensures FullMatch(AlertsRe(alerts), Labels(name, alertname)) <==> name == "ALERTS" && ListedAlert(alerts, alertname)
  {
    var s := Labels(name, alertname);
    var text := ALERT_STATE;
    var list := Cat(AnyOf(Literals(alerts)), Empty);
    MatchesThenEmpty(Prepend(text, list), s, 0, |s|);
    MatchesPrepend(text, list, s, 0, |s|);
    if |text| <= |s| && s[..|text|] == text {
      MatchesThenEmpty(AnyOf(Literals(alerts)), s, |text|, |s|);
      MatchesSomeLiteral(alerts, s, |text|);
      assert s == Labels("ALERTS", s[|text|..]);
      if ListedAlert(alerts, s[|text|..]) {
        LabelsAreUnambiguous(name, alertname, "ALERTS", s[|text|..]);
      }
    }
    if name == "ALERTS" {
      assert s[..|text|] == text && s[|text|..] == alertname;
    }
  }

  /** A series is kept exactly if it is the state of a listed alert or a listed metric without an alert. */
  lemma RelabelRegexMeaning(alerts: seq<string>, metrics: seq<string>, name: string, alertname: string)
    requires forall a :: a in alerts ==> Listable(a)
    requires forall m :: m in metrics ==> Listable(m)
    ensures Parse(RelabelRegex(alerts, metrics)).Some?
    ensures FullMatch(Parse(RelabelRegex(alerts, metrics)).value, Labels(name, alertname))
       <==> || (name == "ALERTS" && ListedAlert(alerts, alertname))
            || (name in metrics && alertname == "")
  {
    RelabelRegexParses(alerts, metrics);
    MatchesAlerts(alerts, name, alertname);
    MatchesSomeMetric(metrics, name, alertname);
  }

  // --------------------------------------------------------- alert matchers

  /** getRegexMatcher */
  function RegexMatcher(alerts: seq<string>): string {
    "^" + Join(alerts, "$|^") + "$"
  }

  function Anchored(alerts: seq<string>): seq<string> {
    seq(|alerts|, i requires 0 <= i < |alerts| => "^" + alerts[i] + "$")
  }

  function AnchoredRe(alert: string): Re {
    Cat(Start, Prepend(alert, Cat(End, Empty)))
  }

  function AnchoredRes(alerts: seq<string>): seq<Re> {
    seq(|alerts|, i requires 0 <= i < |alerts| => AnchoredRe(alerts[i]))
  }

  /** Joining with "$|^" anchors every name on both sides. */
  lemma {:induction false} MatcherIsJoinOfAnchored(alerts: seq<string>)
    requires alerts != []
    ensures RegexMatcher(alerts) == Join(Anchored(alerts), "|")
  {
    if |alerts| > 1 {
      MatcherIsJoinOfAnchored(alerts[1..]);
      assert Anchored(alerts)[1..] == Anchored(alerts[1..]);
      calc {
        RegexMatcher(alerts);
        "^" + (alerts[0] + "$|^" + Join(alerts[1..], "$|^")) + "$";
        ("^" + alerts[0] + "$") + "|" + ("^" + Join(alerts[1..], "$|^") + "$");
        Join(Anchored(alerts), "|");
      }
    }
  }

  lemma AnchoredParses(alert: string, tail: string)
    requires Plain(alert) && Closed(tail)
    ensures ParseCat("^" + alert + "$" + tail) == Some(Parsed(AnchoredRe(alert), tail))
  {
    var s, end := "^" + alert + "$" + tail, "$" + tail;
    assert end[1..] == tail;
    assert ParseCat(end) == Some(Parsed(Cat(End, Empty), tail));
    ParsePlain(alert, end);
    assert s[0] == '^' && s[1..] == alert + end;
  }

  lemma AnchoredParsesTo(alert: string)
    requires Plain(alert)
    ensures ParsesTo("^" + alert + "$", AnchoredRe(alert))
  {
    forall tail | Closed(tail)
      ensures ParseCat("^" + alert + "$" + tail) == Some(Parsed(AnchoredRe(alert), tail))
    {
      AnchoredParses(alert, tail);
    }
  }

  lemma MatchesAnchored(alert: string, s: string)
    ensures FullMatch(AnchoredRe(alert), s) <==> s == alert
  {
    var inner := Prepend(alert, Cat(End, Empty));
    MatchesPrepend(alert, Cat(End, Empty), s, 0, |s|);
    MatchesStartThen(inner, s, |s|);
    if |alert| <= |s| {
      assert Matches(Cat(End, Empty), s, |alert|, |s|) <==> |alert| == |s|
        by { MatchesThenEmpty(End, s, |alert|, |s|); }
    }
  }

  /** The matcher accepts exactly the listed names, and only the empty name if none is listed. */
  lemma RegexMatcherMeaning(alerts: seq<string>, name: string)
    requires forall a :: a in alerts ==> Plain(a)
    ensures Parse(RegexMatcher(alerts)).Some?
    ensures FullMatch(Parse(RegexMatcher(alerts)).value, name) <==> ListedAlert(alerts, name)
  {
    if alerts == [] {
      AnchoredParsesTo("");
      assert ParseCat("^" + "" + "$" + "") == Some(Parsed(AnchoredRe(""), ""));
      assert RegexMatcher(alerts) == "^" + "" + "$" + "";
      MatchesAnchored("", name);
    } else {
      MatcherIsJoinOfAnchored(alerts);
      forall k | 0 <= k < |alerts|
        ensures ParsesTo(Anchored(alerts)[k], AnchoredRes(alerts)[k])
        ensures FullMatch(AnchoredRes(alerts)[k], name) <==> name == alerts[k]
      {
        assert alerts[k] in alerts;
        AnchoredParsesTo(alerts[k]);
        MatchesAnchored(alerts[k], name);
      }
      ParseJoined(Anchored(alerts), AnchoredRes(alerts), "");
      assert RegexMatcher(alerts) + "" == RegexMatcher(alerts);
      MatchesAnyOf(AnchoredRes(alerts), name, 0, |name|);
      if name in alerts {
        var k :| 0 <= k < |alerts| && alerts[k] == name;
        assert FullMatch(AnchoredRes(alerts)[k], name);
      }
    }
  }
}
