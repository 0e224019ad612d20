/** Types and string helpers shared by every other module. */
module Prelude {
  datatype Option<+T> = None | Some(value: T)

  datatype Result<+T, +E> = Ok(value: T) | Err(error: E)

  predicate HasPrefix(s: string, prefix: string) {
    prefix <= s
  }

  /** The first listed name with the given prefix. */
  function FirstWithPrefix(names: seq<string>, prefix: string): (r: Option<string>)
    ensures r.None? <==> forall n :: n in names ==> !HasPrefix(n, prefix)
    ensures r.Some? ==> r.value in names && HasPrefix(r.value, prefix)
  {
    if names == [] then None
    else if HasPrefix(names[0], prefix) then Some(names[0])
    else FirstWithPrefix(names[1..], prefix)
  }

  /** No listed name before it has the prefix. */
  lemma {:induction false} FirstWithPrefixIsFirst(names: seq<string>, prefix: string) returns (i: nat)
    requires FirstWithPrefix(names, prefix).Some?
    ensures i < |names| && FirstWithPrefix(names, prefix) == Some(names[i])
    ensures forall j :: 0 <= j < i ==> !HasPrefix(names[j], prefix)
  {
    if HasPrefix(names[0], prefix) {
      i := 0;
    } else {
      var k := FirstWithPrefixIsFirst(names[1..], prefix);
      i := k + 1;
      assert forall j :: 0 < j < i ==> names[j] == names[1..][j - 1];
    }
  }

  /** The text of all parts, with `sep` between neighbours. */
  function Join(parts: seq<string>, sep: string): string {
    if parts == [] then ""
    else if |parts| == 1 then parts[0]
    else parts[0] + sep + Join(parts[1..], sep)
  }

  function Lower(c: char): char {
    if 'A' <= c <= 'Z' then ((c as int) - ('A' as int) + ('a' as int)) as char else c
  }

  /** Equality up to the case of ASCII letters. */
  predicate EqualFold(s: string, t: string) {
    |s| == |t| && forall i :: 0 <= i < |s| ==> Lower(s[i]) == Lower(t[i])
  }

  function Max(a: int, b: int): int {
    if a <= b then b else a
  }

  function Min(a: int, b: int): int {
    if a <= b then a else b
  }

  function Pow2(n: nat): (p: nat)
    ensures p > 0
  {
    if n == 0 then 1 else 2 * Pow2(n - 1)
  }
}
