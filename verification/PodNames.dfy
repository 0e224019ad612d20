/** The deployment's name inside the name of one of its pods (utils/utils.go). */
module PodNames {
  import opened Prelude

  /** strings.LastIndex for one character, -1 if there is none. */
  function LastIndex(s: string, c: char): (i: int)
    ensures -1 <= i < |s|
    ensures i >= 0 ==> s[i] == c
    ensures forall j :: i < j < |s| ==> s[j] != c
  {
    if s == "" then -1
    else if s[|s| - 1] == c then |s| - 1
    else LastIndex(s[..|s| - 1], c)
  }

  function Dashes(s: string): nat {
    if s == "" then 0 else Dashes(s[..|s| - 1]) + if s[|s| - 1] == '-' then 1 else 0
  }

  /** The convention for pods of deployments: name, template hash and id. */
  predicate PodOf(podName: string, deployment: string, hash: string, id: string) {
    podName == deployment + "-" + hash + "-" + id && '-' !in hash && '-' !in id
  }

  lemma {:induction false} DashesAppend(s: string, t: string)
    ensures Dashes(s + t) == Dashes(s) + Dashes(t)
  {
    if t == "" {
      assert s + t == s;
    } else {
      assert (s + t)[..|s + t| - 1] == s + t[..|t| - 1];
      DashesAppend(s, t[..|t| - 1]);
    }
  }

  lemma {:induction false} NoDashes(s: string)
    ensures Dashes(s) == 0 <==> '-' !in s
  {
    if s != "" {
      NoDashes(s[..|s| - 1]);
      assert s == s[..|s| - 1] + [s[|s| - 1]];
    }
  }

  lemma SplitAtLast(s: string, i: int)
    requires i == LastIndex(s, '-') >= 0
    ensures s == s[..i] + "-" + s[i + 1..] && '-' !in s[i + 1..]
    ensures Dashes(s) == Dashes(s[..i]) + 1
  {
    assert s == s[..i] + "-" + s[i + 1..];
    DashesAppend(s[..i], "-");
    DashesAppend(s[..i] + "-", s[i + 1..]);
    NoDashes(s[i + 1..]);
    assert Dashes("-") == 1;
  }

  lemma LastIndexOfJoined(head: string, tail: string)
    requires '-' !in tail
    ensures LastIndex(head + "-" + tail, '-') == |head|
  {
    var s := head + "-" + tail;
    assert s[|head|] == '-';
    assert s[|head| + 1..] == tail;
    forall j | |head| < j < |s|
      ensures s[j] != '-'
    {
      assert s[j] == tail[j - |head| - 1];
    }
  }

  /** The name without its last two sections, if it has three. */
  function DeploymentOf(podName: string): Option<string> {
    var i := LastIndex(podName, '-');
    if i == -1 then None
    else
      var j := LastIndex(podName[..i], '-');
      if j == -1 then None else Some(podName[..j])
  }

  /** Every pod of a deployment leads back to it, whatever dashes the deployment's own name has. */
  lemma PodLeadsToDeployment(podName: string, deployment: string, hash: string, id: string)
    requires PodOf(podName, deployment, hash, id)
    ensures DeploymentOf(podName) == Some(deployment)
  {
    LastIndexOfJoined(deployment + "-" + hash, id);
    assert podName[..|deployment + "-" + hash|] == deployment + "-" + hash;
    LastIndexOfJoined(deployment, hash);
    assert podName[..|deployment|] == deployment;
  }

  /** A name is refused exactly if it has fewer than two dashes. */
  lemma RefusedIffTooFewDashes(podName: string)
    ensures DeploymentOf(podName).None? <==> Dashes(podName) < 2
  {
    NoDashes(podName);
    var i := LastIndex(podName, '-');
    if i >= 0 {
      SplitAtLast(podName, i);
      NoDashes(podName[..i]);
      var j := LastIndex(podName[..i], '-');
      if j >= 0 {
        SplitAtLast(podName[..i], j);
      }
    }
  }

  /** Every name that is not refused is that of some pod of the result. */
  lemma AcceptedIsAPod(podName: string)
    requires DeploymentOf(podName).Some?
    ensures exists hash, id :: PodOf(podName, DeploymentOf(podName).value, hash, id)
  {
    var i := LastIndex(podName, '-');
    var front, id := podName[..i], podName[i + 1..];
    var j := LastIndex(front, '-');
    var deployment, hash := front[..j], front[j + 1..];
    SplitAtLast(podName, i);
    SplitAtLast(front, j);
    assert podName[..j] == deployment;
    assert PodOf(podName, deployment, hash, id);
  }

  /** Refused exactly if there are fewer than two dashes; otherwise the input is the name of a pod of the result, and
      of no other deployment. */
  method DeploymentNameFromPodName(podName: string) returns (r: Option<string>)
    ensures r.None? <==> Dashes(podName) < 2
    ensures r.Some? ==> exists hash, id :: PodOf(podName, r.value, hash, id)
    ensures forall deployment, hash, id :: PodOf(podName, deployment, hash, id) ==> r == Some(deployment)
  {
    var i := LastIndex(podName, '-');
    if i == -1 {
      OnlyDeployment(podName, None);
      return None;
    }
    i := LastIndex(podName[0..i], '-');
    if i == -1 {
      OnlyDeployment(podName, None);
      return None;
    }
    AcceptedIsAPod(podName);
    OnlyDeployment(podName, Some(podName[0..i]));
    return Some(podName[0..i]);
  }

  lemma OnlyDeployment(podName: string, r: Option<string>)
    requires r == DeploymentOf(podName)
    ensures r.None? <==> Dashes(podName) < 2
    ensures forall deployment, hash, id :: PodOf(podName, deployment, hash, id) ==> r == Some(deployment)
  {
    RefusedIffTooFewDashes(podName);
    forall deployment, hash, id | PodOf(podName, deployment, hash, id)
      ensures r == Some(deployment)
    {
      PodLeadsToDeployment(podName, deployment, hash, id);
    }
  }
}
