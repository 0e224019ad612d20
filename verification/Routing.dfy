/** Where alerts go: the routes of the Alertmanager template, and the alerts that leave the cluster. */
module Routing {
  import opened Alerting
  import opened Regex

  datatype Matcher = MatchRegexp(pattern: string) | MatchEqual(value: string)

  datatype Route = Route(matcher: Matcher, receiver: string)

  const NULL := "null"
  const SENDGRID := "SendGrid"
  const PAGERDUTY := "pagerduty"
  const SNITCH := "DeadMansSnitch"

  const SMTP_ALERTS := [
    "CephClusterNearFull",
    "CephClusterCriticallyFull",
    "CephClusterReadOnly",
    "PersistentVolumeUsageNearFull",
    "PersistentVolumeUsageCritical"]

  const PAGERDUTY_ALERTS := [
    "CephMdsMissingReplicas",
    "CephMgrIsAbsent",
    "CephMgrIsMissingReplicas",
    "CephNodeDown",
    "CephClusterErrorState",
    "CephClusterWarningState",
    "CephOSDVersionMismatch",
    "CephMonVersionMismatch",
    "CephOSDFlapping",
    "CephOSDDiskNotResponding",
    "CephOSDDiskUnavailable",
    "CephDataRecoveryTakingTooLong",
    "CephPGRepairTakingTooLong",
    "CephMonQuorumAtRisk",
    "CephMonQuorumLost"]

  /** The list of templates/prometheus.go, which is kept apart from the one above. */
  const REMOTE_ALERTS := [
    "CephMdsMissingReplicas",
    "CephMgrIsAbsent",
    "CephMgrIsMissingReplicas",
    "CephNodeDown",
    "CephClusterErrorState",
    "CephClusterWarningState",
    "CephOSDVersionMismatch",
    "CephMonVersionMismatch",
    "CephOSDFlapping",
    "CephOSDDiskNotResponding",
    "CephOSDDiskUnavailable",
    "CephDataRecoveryTakingTooLong",
    "CephPGRepairTakingTooLong",
    "CephMonQuorumAtRisk",
    "CephMonQuorumLost"]

  predicate Accepts(m: Matcher, alertname: string) {
    match m
    case MatchRegexp(pattern) =>
      var r := Parse(pattern);
      r.Some? && FullMatch(r.value, alertname)
    case MatchEqual(value) => alertname == value
  }

  /** The first route that accepts the alert names its receiver. */
  function Receiver(routes: seq<Route>, otherwise: string, alertname: string): string {
    if routes == [] then otherwise
    else if Accepts(routes[0].matcher, alertname) then routes[0].receiver
    else Receiver(routes[1..], otherwise, alertname)
  }

  function Routes(mailed: seq<string>, paged: seq<string>): seq<Route> {
    [Route(MatchRegexp(RegexMatcher(mailed)), SENDGRID),
     Route(MatchRegexp(RegexMatcher(paged)), PAGERDUTY),
     Route(MatchEqual(SNITCH), SNITCH)]
  }

  lemma ThreeRoutes(a: Route, b: Route, c: Route, otherwise: string, alertname: string)
    ensures Receiver([a, b, c], otherwise, alertname)
         == if Accepts(a.matcher, alertname) then a.receiver
            else if Accepts(b.matcher, alertname) then b.receiver
            else if Accepts(c.matcher, alertname) then c.receiver
            else otherwise
  {
    assert [a, b, c][1..] == [b, c] && [b, c][1..] == [c];
    assert Receiver([c], otherwise, alertname) == if Accepts(c.matcher, alertname) then c.receiver else otherwise;
    assert Receiver([b, c], otherwise, alertname)
        == if Accepts(b.matcher, alertname) then b.receiver else Receiver([c], otherwise, alertname);
  }

  /** The order of the routes: mail before paging before the watchdog. An alert on both lists is only mailed. */
  lemma RoutesMeaning(mailed: seq<string>, paged: seq<string>, alertname: string)
    requires forall a :: a in mailed || a in paged ==> Plain(a)
    ensures Receiver(Routes(mailed, paged), NULL, alertname)
         == if ListedAlert(mailed, alertname) then SENDGRID
            else if ListedAlert(paged, alertname) then PAGERDUTY
            else if alertname == SNITCH then SNITCH
            else NULL
  {
    RegexMatcherMeaning(mailed, alertname);
    RegexMatcherMeaning(paged, alertname);
    var mail := Route(MatchRegexp(RegexMatcher(mailed)), SENDGRID);
    var page := Route(MatchRegexp(RegexMatcher(paged)), PAGERDUTY);
    ThreeRoutes(mail, page, Route(MatchEqual(SNITCH), SNITCH), NULL, alertname);
  }

  // ---------------------------------------------------- the template's lists

  predicate NameChar(c: char) {
    'a' <= c <= 'z' || 'A' <= c <= 'Z'
  }

  predicate IsName(s: string) {
    s != "" && forall i :: 0 <= i < |s| ==> NameChar(s[i])
  }

  predicate EndsInLOrY(s: string) {
    s != "" && (s[|s| - 1] == 'l' || s[|s| - 1] == 'y')
  }

  lemma NamesAreListable(s: string)
    requires IsName(s)
    ensures Listable(s)
  {
  }

  predicate MailedName(s: string) {
    IsName(s) && EndsInLOrY(s)
  }

  lemma MailedCephNames()
    ensures MailedName("CephClusterNearFull")
    ensures MailedName("CephClusterCriticallyFull")
    ensures MailedName("CephClusterReadOnly")
  {
  }

  lemma MailedVolumeNames()
    ensures MailedName("PersistentVolumeUsageNearFull")
    ensures MailedName("PersistentVolumeUsageCritical")
  {
  }

  lemma MailedNames(a: string)
    requires a in SMTP_ALERTS
    ensures MailedName(a)
  {
    MailedCephNames();
    MailedVolumeNames();
  }

  predicate PagedName(s: string) {
    IsName(s) && !EndsInLOrY(s) && |s| != |SNITCH|
  }

  lemma FirstPagedNames()
    ensures PagedName("CephMdsMissingReplicas")
    ensures PagedName("CephMgrIsAbsent")
    ensures PagedName("CephMgrIsMissingReplicas")
  {
  }

  lemma SecondPagedNames()
    ensures PagedName("CephNodeDown")
    ensures PagedName("CephClusterErrorState")
    ensures PagedName("CephClusterWarningState")
  {
  }

  lemma ThirdPagedNames()
    ensures PagedName("CephOSDVersionMismatch")
    ensures PagedName("CephMonVersionMismatch")
    ensures PagedName("CephOSDFlapping")
  {
  }

  lemma FourthPagedNames()
    ensures PagedName("CephOSDDiskNotResponding")
    ensures PagedName("CephOSDDiskUnavailable")
    ensures PagedName("CephDataRecoveryTakingTooLong")
  {
  }

  lemma FifthPagedNames()
    ensures PagedName("CephPGRepairTakingTooLong")
    ensures PagedName("CephMonQuorumAtRisk")
    ensures PagedName("CephMonQuorumLost")
  {
  }

  lemma PagedNames(a: string)
    requires a in PAGERDUTY_ALERTS
    ensures PagedName(a)
  {
    FirstPagedNames();
    SecondPagedNames();
    ThirdPagedNames();
    FourthPagedNames();
    FifthPagedNames();
  }

  /** No alert is on two lists. */
  lemma ListsAreDisjoint(alertname: string)
    ensures alertname in SMTP_ALERTS ==> alertname !in PAGERDUTY_ALERTS && alertname != SNITCH
    ensures alertname in PAGERDUTY_ALERTS ==> alertname != SNITCH
  {
    if alertname in SMTP_ALERTS {
      MailedNames(alertname);
    }
    if alertname in PAGERDUTY_ALERTS {
      PagedNames(alertname);
    }
    assert !EndsInLOrY(SNITCH);
  }

  function TemplateReceiver(alertname: string): string {
    Receiver(Routes(SMTP_ALERTS, PAGERDUTY_ALERTS), NULL, alertname)
  }

  /** Each alert has one receiver, and each receiver gets exactly its list. */
  lemma EachReceiverGetsItsList(alertname: string)
    ensures TemplateReceiver(alertname) == SENDGRID <==> alertname in SMTP_ALERTS
    ensures TemplateReceiver(alertname) == PAGERDUTY <==> alertname in PAGERDUTY_ALERTS
    ensures TemplateReceiver(alertname) == SNITCH <==> alertname == SNITCH
    ensures TemplateReceiver(alertname) in [SENDGRID, PAGERDUTY, SNITCH, NULL]
  {
    ListsAreDisjoint(alertname);
    forall a | a in SMTP_ALERTS || a in PAGERDUTY_ALERTS
      ensures Plain(a)
    {
      if a in PAGERDUTY_ALERTS {
        PagedNames(a);
      } else {
        MailedNames(a);
      }
      NamesAreListable(a);
    }
    RoutesMeaning(SMTP_ALERTS, PAGERDUTY_ALERTS, alertname);
    assert |SENDGRID| == 8 && |PAGERDUTY| == 9 && |SNITCH| == 14 && |NULL| == 4;
  }

  /** The state of an alert leaves the cluster exactly if the alert pages somebody, whatever metrics are kept. */
  lemma RemoteWriteKeepsThePagedAlerts(metrics: seq<string>, alertname: string)
    requires forall m :: m in metrics ==> Listable(m)
    requires alertname != ""
    ensures Parse(RelabelRegex(REMOTE_ALERTS, metrics)).Some?
    ensures FullMatch(Parse(RelabelRegex(REMOTE_ALERTS, metrics)).value, Labels("ALERTS", alertname))
       <==> TemplateReceiver(alertname) == PAGERDUTY
  {
    EachReceiverGetsItsList(alertname);
    assert REMOTE_ALERTS == PAGERDUTY_ALERTS;
    forall a | a in REMOTE_ALERTS
      ensures Listable(a)
    {
      PagedNames(a);
      NamesAreListable(a);
    }
    RelabelRegexMeaning(REMOTE_ALERTS, metrics, "ALERTS", alertname);
  }
}
