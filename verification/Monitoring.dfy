/** Labelling the monitoring resources one update at a time (reconcileMonitoringResources). */
module Monitoring {
  import opened Pipeline

  type Monitors = map<string, Monitor>

  datatype Kind = PodMonitor | ServiceMonitor | PrometheusRule

  /** The listing returns every object once, in some order. */
  ghost predicate Lists(names: seq<string>, ms: Monitors) {
    forall n :: n in names <==> n in ms
  }

  /** Each object is either as before or has got the label, and nothing else has changed. */
  ghost predicate PartlyLabelled(before: Monitors, after: Monitors) {
    && after.Keys == before.Keys
    && forall n :: n in before ==> after[n] == before[n] || after[n] == before[n].(labels := Labelled(before[n].labels))
  }

  /** Wherever an earlier attempt stopped, a later one that succeeds gives the same result. */
  lemma RetryFinishes(before: Monitors, after: Monitors)
    requires PartlyLabelled(before, after)
    ensures LabelAll(after) == LabelAll(before)
  {
    forall n | n in before
      ensures LabelAll(after)[n] == LabelAll(before)[n]
    {
      assert Labelled(Labelled(before[n].labels)) == Labelled(before[n].labels);
    }
  }

  /** utils.AddLabel on an object whose label map may still be missing. */
  method AddLabel(labels: map<string, string>, key: string, value: string) returns (r: map<string, string>)
    ensures r.Keys == labels.Keys + {key} && r[key] == value
    ensures forall k :: k in labels && k != key ==> r[k] == labels[k]
  {
    r := labels[key := value];
  }

  lemma OneMoreLabelled(before: Monitors, after: Monitors, name: string)
    requires PartlyLabelled(before, after) && name in before
    ensures var r := after[name := after[name].(labels := Labelled(after[name].labels))];
            PartlyLabelled(before, r) && r[name] == LabelAll(before)[name]
  {
    assert Labelled(Labelled(before[name].labels)) == Labelled(before[name].labels);
  }

  /** One of the three loops. `refuses` says which updates the server refuses. */
  method LabelListed(ms: Monitors, names: seq<string>, refuses: string -> bool) returns (r: Monitors, ok: bool)
    requires Lists(names, ms)
    ensures ok <==> forall n :: n in ms ==> !refuses(n)
    ensures ok ==> r == LabelAll(ms)
    ensures PartlyLabelled(ms, r)
  {
    r := ms;
    for i := 0 to |names|
      invariant PartlyLabelled(ms, r)
      invariant forall n :: n in names[..i] ==> !refuses(n) && r[n] == LabelAll(ms)[n]
    {
      var name := names[i];
      var labels := AddLabel(r[name].labels, MON_LABEL_KEY, MON_LABEL_VALUE);
      assert labels == Labelled(r[name].labels);
      OneMoreLabelled(ms, r, name);
      if refuses(name) {
        return r, false;
      }
      r := r[name := r[name].(labels := labels)];
    }
    return r, true;
  }

  class Namespace {
    var podMonitors: Monitors
    var serviceMonitors: Monitors
    var rules: Monitors

    /** The names are what the three listings return. */
    method ReconcileMonitoringResources(pods: seq<string>, services: seq<string>, promRules: seq<string>,
                                        refuses: (Kind, string) -> bool)
      returns (ok: bool)
      requires Lists(pods, podMonitors) && Lists(services, serviceMonitors) && Lists(promRules, rules)
      modifies this
      ensures PartlyLabelled(old(podMonitors), podMonitors)
      ensures PartlyLabelled(old(serviceMonitors), serviceMonitors)
      ensures PartlyLabelled(old(rules), rules)
      ensures ok ==> podMonitors == LabelAll(old(podMonitors))
      ensures ok ==> serviceMonitors == LabelAll(old(serviceMonitors))
      ensures ok ==> rules == LabelAll(old(rules))
      ensures ok <==>
        && (forall n :: n in old(podMonitors) ==> !refuses(PodMonitor, n))
        && (forall n :: n in old(serviceMonitors) ==> !refuses(ServiceMonitor, n))
        && (forall n :: n in old(rules) ==> !refuses(PrometheusRule, n))
    {
      podMonitors, ok := LabelListed(podMonitors, pods, n => refuses(PodMonitor, n));
      if !ok {
        return;
      }
      serviceMonitors, ok := LabelListed(serviceMonitors, services, n => refuses(ServiceMonitor, n));
      if !ok {
        return;
      }
      rules, ok := LabelListed(rules, promRules, n => refuses(PrometheusRule, n));
    }
  }
}
