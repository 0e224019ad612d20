/** The customer addresses that alerts are mailed to (reconcileAlertmanagerConfig). */
module Notification {
  import opened Decimals
  import opened Text

  type Params = map<string, string>

  const KEY_PREFIX := "notification-email"

  function Key(i: nat): string {
    KEY_PREFIX + "-" + Decimal(i)
  }

  /** The keys 0, 1, ... up to n are all there. */
  predicate GapFree(params: Params, n: nat) {
    forall i :: 0 <= i < n ==> Key(i) in params
  }

  lemma KeyIsInjective(i: nat, j: nat)
    ensures Key(i) == Key(j) <==> i == j
  {
    DecimalIsInjective(i, j);
    var p := KEY_PREFIX + "-";
    assert Key(i)[|p|..] == Decimal(i) && Key(j)[|p|..] == Decimal(j);
  }

  ghost function Keys(n: nat): set<string> {
    set i | 0 <= i < n :: Key(i)
  }

  lemma NextKeyIsNew(n: nat)
    ensures Key(n) !in Keys(n) && Keys(n + 1) == Keys(n) + {Key(n)}
  {
    forall i: nat | i < n
      ensures Key(i) != Key(n)
    {
      KeyIsInjective(i, n);
    }
  }

  lemma {:induction false} CountKeys(n: nat)
    ensures |Keys(n)| == n
  {
    if n > 0 {
      CountKeys(n - 1);
      NextKeyIsNew(n - 1);
    }
  }

  /** A gap-free run has no more keys than there are parameters. */
  lemma RunIsBounded(params: Params, n: nat)
    requires GapFree(params, n)
    ensures n <= |params|
  {
    CountKeys(n);
    assert Keys(n) <= params.Keys;
    SubsetCount(Keys(n), params.Keys);
  }

  lemma {:induction false} SubsetCount<T>(a: set<T>, b: set<T>)
    requires a <= b
    ensures |a| <= |b|
  {
    if a != {} {
      var x :| x in a;
      SubsetCount(a - {x}, b - {x});
    }
  }

  /** The length of the longest gap-free run. */
  function Run(params: Params, from: nat := 0): (n: nat)
    requires GapFree(params, from)
    ensures from <= n <= |params|
    ensures GapFree(params, n) && Key(n) !in params
    decreases |params| + 1 - from
  {
    RunIsBounded(params, from);
    if Key(from) in params then Run(params, from + 1) else from
  }

  function Values(params: Params, n: nat): seq<string>
    requires GapFree(params, n)
  {
    seq(n, i requires 0 <= i < n => params[Key(i)])
  }

  /** The non-empty addresses of the longest gap-free run, in order. */
  function Addresses(params: Params): seq<string> {
    NonEmpty(Values(params, Run(params)))
  }

  /** The loop has no bound of its own: it ends because the keys it asks for are pairwise different. */
  method AlertingAddresses(params: Params) returns (addresses: seq<string>)
    ensures addresses == Addresses(params)
  {
    addresses := [];
    var i := 0;
    while true
      invariant GapFree(params, i)
      invariant addresses == NonEmpty(Values(params, i))
      decreases |params| + 1 - i
    {
      RunIsBounded(params, i);
      var key := Key(i);
      if key !in params {
        RunIsUnique(params, i);
        return;
      }
      if params[key] != "" {
        addresses := addresses + [params[key]];
      }
      var all := Values(params, i + 1);
      assert all[..i + 1] == all && all[..i] == Values(params, i);
      NonEmptyNext(all, i);
      i := i + 1;
    }
  }

  lemma RunIsUnique(params: Params, n: nat)
    requires GapFree(params, n) && Key(n) !in params
    ensures Run(params) == n
  {
  }

  /** An address is mailed to exactly if it is the non-empty value of a key all of whose predecessors exist. */
  lemma AddressIsMailedIff(params: Params, address: string)
    ensures address in Addresses(params)
       <==> address != "" && exists i: nat :: GapFree(params, i + 1) && params[Key(i)] == address
  {
    var n := Run(params);
    var values := Values(params, n);
    NonEmptyMembers(values, address);
    if address in values {
      var i :| 0 <= i < n && values[i] == address;
      assert GapFree(params, i + 1) && params[Key(i)] == address;
    }
    if i: nat :| GapFree(params, i + 1) && params[Key(i)] == address {
      assert values[i] == address;
    }
  }

  /** Whatever else the parameters hold, and whatever comes after the first missing key, is never mailed to. */
  lemma OnlyTheRunMatters(params: Params, other: Params)
    requires GapFree(other, Run(params)) && Key(Run(params)) !in other
    requires forall i :: 0 <= i < Run(params) ==> other[Key(i)] == params[Key(i)]
    ensures Addresses(other) == Addresses(params)
  {
    RunIsUnique(other, Run(params));
    assert Values(other, Run(params)) == Values(params, Run(params));
  }

  /** The list in order, with repetitions: it starts empty, and the value of the next key comes at its end, unless
      that is empty. */
  lemma NextAddressIsAppended(params: Params, address: string)
    requires Key(Run(params) + 1) !in params
    ensures var n := Run(params);
            Addresses(params[Key(n) := address]) == Addresses(params) + if address == "" then [] else [address]
    ensures "notification-email-0" !in params ==> Addresses(params) == []
  {
    var n := Run(params);
    var more := params[Key(n) := address];
    forall i: nat
      ensures Key(i) == Key(n) <==> i == n
    {
      KeyIsInjective(i, n);
    }
    KeyIsInjective(n, n + 1);
    RunIsUnique(more, n + 1);
    var all := Values(more, n + 1);
    assert all[..n] == Values(params, n) && all[..n + 1] == all;
    NonEmptyNext(all, n);
    FirstKey();
    if "notification-email-0" !in params {
      RunIsUnique(params, 0);
    }
  }

  lemma FirstKey()
    ensures Key(0) == "notification-email-0"
  {
    assert Decimal(0) == "0";
  }
}
