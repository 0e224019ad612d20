/** The gather loop of cmd/awsDataGather: how long it sleeps, and what it leaves in the config map. */
module DataGather {
  import CidrPipeline
  import opened Prelude

  /** What one turn of the loop meets: the body of the metadata reply, an unreachable metadata service, or
      a config map that could not be written. */
  datatype Outcome = Fetched(body: string) | FetchFailed | SaveFailed(unsaved: string)

  const CIDR_KEY := "vpc-cidr"
  const MAX_SLEEP := 300

  class ConfigMap {
    /** None until the config map is first created. */
    var data: Option<map<string, string>>

    constructor ()
      ensures data == None
    {
      data := None;
    }
  }

  /** Failures since the last success, or since the start. */
  function TrailingFailures(history: seq<Outcome>): nat {
    if history == [] || history[|history| - 1].Fetched? then 0
    else 1 + TrailingFailures(history[..|history| - 1])
  }

  /** The sleep after the last turn of a history: 300 seconds after a success, and otherwise a time that
      doubles with each failure in a row, up to 300 seconds. */
  function SleepAfter(history: seq<Outcome>): (seconds: int)
    requires history != []
    ensures 1 <= seconds <= MAX_SLEEP
  {
    if history[|history| - 1].Fetched? then MAX_SLEEP
    else Min(Pow2(TrailingFailures(history) - 1), MAX_SLEEP)
  }

  /** The body of the last turn that both fetched and saved. */
  function LastFetched(history: seq<Outcome>): Option<string> {
    if history == [] then None
    else if history[|history| - 1].Fetched? then Some(history[|history| - 1].body)
    else LastFetched(history[..|history| - 1])
  }

  method GatherAndSave(configMap: ConfigMap, outcome: Outcome) returns (ok: bool)
    modifies configMap
    ensures ok <==> outcome.Fetched?
    ensures !ok ==> configMap.data == old(configMap.data)
    ensures ok ==> configMap.data == Some(map[CIDR_KEY := CidrPipeline.Encode(outcome.body)])
  {
    if outcome.FetchFailed? {
      return false;
    }
    var body := if outcome.Fetched? then outcome.body else outcome.unsaved;
    var cidr := CidrPipeline.Encode(body);
    if outcome.SaveFailed? {
      return false;
    }
    configMap.data := Some(map[CIDR_KEY := cidr]);
    return true;
  }

  /** The loop over any finite beginning of its life. */
  method GatherLoop(configMap: ConfigMap, outcomes: seq<Outcome>) returns (sleeps: seq<int>)
    modifies configMap
    ensures |sleeps| == |outcomes|
    ensures forall k :: 0 <= k < |sleeps| ==> sleeps[k] == SleepAfter(outcomes[..k + 1])
    ensures configMap.data ==
      match LastFetched(outcomes)
      case None => old(configMap.data)
      case Some(body) => Some(map[CIDR_KEY := CidrPipeline.Encode(body)])
  {
    sleeps := [];
    var backoff := 1;
    for k := 0 to |outcomes|
      invariant |sleeps| == k
      invariant forall j :: 0 <= j < k ==> sleeps[j] == SleepAfter(outcomes[..j + 1])
      invariant backoff == Min(Pow2(TrailingFailures(outcomes[..k])), MAX_SLEEP)
      invariant configMap.data ==
        match LastFetched(outcomes[..k])
        case None => old(configMap.data)
        case Some(body) => Some(map[CIDR_KEY := CidrPipeline.Encode(body)])
    {
      var sleep;
      assert outcomes[..k + 1][..k] == outcomes[..k];
      var ok := GatherAndSave(configMap, outcomes[k]);
      if ok {
        sleep := MAX_SLEEP;
        backoff := 1;
      } else {
        sleep := backoff;
        backoff := 2 * backoff;
        if backoff > MAX_SLEEP {
          backoff := MAX_SLEEP;
        }
      }
      sleeps := sleeps + [sleep];
    }
    assert outcomes[..|outcomes|] == outcomes;
  }

  /** What was fetched before the last success, and all that failed after it, does not matter. */
  lemma {:induction false} LastFetchedIsLast(before: seq<Outcome>, body: string, failures: seq<Outcome>)
    requires forall f :: f in failures ==> !f.Fetched?
    ensures LastFetched(before + [Fetched(body)] + failures) == Some(body)
    ensures LastFetched(failures) == None
  {
    var history := before + [Fetched(body)] + failures;
    if failures == [] {
      assert history[..|history| - 1] == before;
    } else {
      var n := |failures| - 1;
      assert history[|history| - 1] == failures[n] && failures[n] in failures;
      assert history[..|history| - 1] == before + [Fetched(body)] + failures[..n];
      LastFetchedIsLast(before, body, failures[..n]);
    }
  }

  lemma {:induction false} CountFailures(before: seq<Outcome>, failures: seq<Outcome>)
    requires before == [] || before[|before| - 1].Fetched?
    requires forall f :: f in failures ==> !f.Fetched?
    ensures TrailingFailures(before + failures) == |failures|
  {
    if failures == [] {
      assert before + failures == before;
    } else {
      var n := |failures| - 1;
      var history := before + failures;
      assert history[|history| - 1] == failures[n] && failures[n] in failures;
      assert history[..|history| - 1] == before + failures[..n];
      CountFailures(before, failures[..n]);
    }
  }

  /** After a start or a success, the k-th failure in a row is followed by min(2^(k-1), 300) seconds. */
  lemma SleepAfterFailures(before: seq<Outcome>, failures: seq<Outcome>)
    requires before == [] || before[|before| - 1].Fetched?
    requires failures != [] && forall f :: f in failures ==> !f.Fetched?
    ensures SleepAfter(before + failures) == Min(Pow2(|failures| - 1), MAX_SLEEP)
  {
    CountFailures(before, failures);
    assert failures[|failures| - 1] in failures;
  }

  lemma SleepAfterSuccess(before: seq<Outcome>, body: string)
    ensures SleepAfter(before + [Fetched(body)]) == MAX_SLEEP
  {
  }

  /** Ten failures in a row reach the ceiling, and no fewer do. */
  lemma CeilingAfterTenFailures(history: seq<Outcome>)
    requires history != [] && !history[|history| - 1].Fetched?
    ensures SleepAfter(history) == MAX_SLEEP <==> TrailingFailures(history) >= 10
  {
    var k := TrailingFailures(history) - 1;
    assert Pow2(8) == 256 && Pow2(9) == 512;
    if k >= 9 {
      Pow2Monotone(9, k);
    } else {
      Pow2Monotone(k, 8);
    }
  }

  lemma {:induction false} Pow2Monotone(m: nat, n: nat)
    requires m <= n
    ensures Pow2(m) <= Pow2(n)
  {
    if m < n {
      Pow2Monotone(m, n - 1);
    }
  }
}
