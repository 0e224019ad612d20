/** The slice and label helpers of utils/utils.go. */
module Slices {

  /** `s` without the occurrences of `x`, in the same order. */
  function Without(s: seq<string>, x: string): (r: seq<string>)
    ensures x !in r
    ensures forall y :: y != x ==> (y in r <==> y in s)
  {
    if s == [] then []
    else if s[0] == x then Without(s[1..], x)
    else [s[0]] + Without(s[1..], x)
  }

  lemma {:induction false} WithoutAppend(s: seq<string>, t: seq<string>, x: string)
    ensures Without(s + t, x) == Without(s, x) + Without(t, x)
  {
    if s == [] {
      assert s + t == t;
    } else {
      assert (s + t)[1..] == s[1..] + t;
      WithoutAppend(s[1..], t, x);
    }
  }

  /** Adding a finalizer and removing it again gives back a list that did not have it. */
  lemma {:induction false} WithoutUndoesAppend(s: seq<string>, x: string)
    requires x !in s
    ensures Without(s + [x], x) == s
  {
    WithoutAppend(s, [x], x);
    WithoutAbsent(s, x);
  }

  lemma {:induction false} WithoutAbsent(s: seq<string>, x: string)
    requires x !in s
    ensures Without(s, x) == s
  {
    if s != [] {
      WithoutAbsent(s[1..], x);
    }
  }

  /** Every other item keeps its number of occurrences. */
  lemma {:induction false} WithoutKeepsTheRest(s: seq<string>, x: string)
    ensures multiset(Without(s, x)) == multiset(s)[x := 0]
  {
    if s != [] {
      assert s == [s[0]] + s[1..];
      WithoutKeepsTheRest(s[1..], x);
    }
  }

  method Contains(slice: seq<string>, s: string) returns (found: bool)
    ensures found <==> s in slice
  {
    for i := 0 to |slice|
      invariant s !in slice[..i]
    {
      if slice[i] == s {
        return true;
      }
    }
    return false;
  }

  method Remove(slice: seq<string>, s: string) returns (result: seq<string>)
    ensures result == Without(slice, s)
  {
    result := [];
    for i := 0 to |slice|
      invariant result == Without(slice[..i], s)
    {
      WithoutAppend(slice[..i], [slice[i]], s);
      assert slice[..i] + [slice[i]] == slice[..i + 1];
      if slice[i] == s {
        continue;
      }
      result := result + [slice[i]];
    }
    assert slice[..|slice|] == slice;
  }

  method MapItems(source: seq<string>, transform: string -> string) returns (target: array<string>)
    ensures fresh(target) && target[..] == seq(|source|, i requires 0 <= i < |source| => transform(source[i]))
  {
    target := new string[|source|];
    for i := 0 to |source|
      invariant forall j :: 0 <= j < i ==> target[j] == transform(source[j])
    {
      target[i] := transform(source[i]);
    }
  }
}
