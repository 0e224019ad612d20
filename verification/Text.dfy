/** strings.Split, strings.Replace and the like. */
module Text {
  /** strings.Split by one character: always at least one part. */
  function Split(s: string, sep: char): (parts: seq<string>)
    ensures |parts| > 0
  {
    if s == "" then [""]
    else
      var rest := Split(s[1..], sep);
      if s[0] == sep then [""] + rest
      else [[s[0]] + rest[0]] + rest[1..]
  }

  /** strings.Replace of every `from`. */
  function Replace(s: string, from: char, to: char): string {
    seq(|s|, i requires 0 <= i < |s| => if s[i] == from then to else s[i])
  }

  function NonEmpty(parts: seq<string>): seq<string> {
    if parts == [] then []
    else if parts[0] == "" then NonEmpty(parts[1..])
    else [parts[0]] + NonEmpty(parts[1..])
  }

  lemma {:induction false} NonEmptyAppend(a: seq<string>, b: seq<string>)
    ensures NonEmpty(a + b) == NonEmpty(a) + NonEmpty(b)
  {
    if a == [] {
      assert a + b == b;
    } else {
      assert (a + b)[1..] == a[1..] + b;
      NonEmptyAppend(a[1..], b);
    }
  }

  lemma NonEmptyNext(parts: seq<string>, k: nat)
    requires k < |parts|
    ensures NonEmpty(parts[..k + 1])
         == if parts[k] == "" then NonEmpty(parts[..k]) else NonEmpty(parts[..k]) + [parts[k]]
  {
    NonEmptyAppend(parts[..k], [parts[k]]);
    assert NonEmpty([parts[k]]) == if parts[k] == "" then [] else [parts[k]];
    assert parts[..k] + [parts[k]] == parts[..k + 1];
  }

  /** The non-empty parts are in the list exactly if they are in its filtered form. */
  lemma {:induction false} NonEmptyMembers(parts: seq<string>, p: string)
    ensures p in NonEmpty(parts) <==> p in parts && p != ""
  {
    if parts != [] {
      NonEmptyMembers(parts[1..], p);
      assert parts == [parts[0]] + parts[1..];
    }
  }

  lemma {:induction false} SplitAtSeparator(a: string, rest: string, sep: char)
    requires sep !in a
    ensures Split(a + [sep] + rest, sep) == [a] + Split(rest, sep)
  {
    var s := a + [sep] + rest;
    if a == "" {
      assert s[1..] == rest;
    } else {
      assert s[1..] == a[1..] + [sep] + rest;
      SplitAtSeparator(a[1..], rest, sep);
      assert [s[0]] + a[1..] == a;
    }
  }

  lemma {:induction false} SplitWithoutSeparator(a: string, sep: char)
    requires sep !in a
    ensures Split(a, sep) == [a]
  {
    if a != "" {
      SplitWithoutSeparator(a[1..], sep);
      assert [a[0]] + a[1..] == a;
    }
  }

  lemma ReplaceConcat(a: string, b: string, from: char, to: char)
    ensures Replace(a + b, from, to) == Replace(a, from, to) + Replace(b, from, to)
  {
  }

  lemma ReplaceAbsent(a: string, from: char, to: char)
    requires from !in a
    ensures Replace(a, from, to) == a
  {
  }
}
