/** How the VPC's address blocks travel: fetched as lines, stored as one semicolon-separated value, and
    split again when the egress rules are built. */
module CidrPipeline {
  import opened Prelude
  import opened Text

  /** IMDSFetchIPv4CIDR on the fetched body. */
  function Encode(body: string): string {
    Replace(body, '\n', ';')
  }

  /** The list the egress rules are built from. */
  function Decode(value: string): seq<string> {
    NonEmpty(Split(value, ';'))
  }

  /** The blocks, one a line, with or without a newline at the end. */
  function Lines(cidrs: seq<string>, newlineAtEnd: bool): string {
    Join(cidrs, "\n") + if newlineAtEnd then "\n" else ""
  }

  predicate Plain(cidr: string) {
    cidr != "" && '\n' !in cidr && ';' !in cidr
  }

  lemma {:induction false} EncodeLines(cidrs: seq<string>)
    requires forall c :: c in cidrs ==> Plain(c)
    ensures Encode(Join(cidrs, "\n")) == Join(cidrs, ";")
  {
    if cidrs != [] {
      assert Plain(cidrs[0]) by {
        assert cidrs[0] in cidrs;
      }
      ReplaceAbsent(cidrs[0], '\n', ';');
      if |cidrs| > 1 {
        EncodeLines(cidrs[1..]);
        ReplaceConcat(cidrs[0], "\n" + Join(cidrs[1..], "\n"), '\n', ';');
        ReplaceConcat("\n", Join(cidrs[1..], "\n"), '\n', ';');
        assert cidrs[0] + ("\n" + Join(cidrs[1..], "\n")) == Join(cidrs, "\n");
        assert Encode(Join(cidrs, "\n")) == cidrs[0] + (";" + Join(cidrs[1..], ";"));
      }
    }
  }

  lemma {:induction false} DecodeJoined(cidrs: seq<string>, tail: string)
    requires forall c :: c in cidrs ==> Plain(c)
    requires tail == "" || tail == ";"
    ensures Decode(Join(cidrs, ";") + tail) == cidrs
  {
    assert Split("", ';') == [""] && NonEmpty([""]) == [];
    if cidrs == [] {
      assert Join(cidrs, ";") + tail == tail;
      if tail == ";" {
        assert tail[1..] == "";
        assert Split(tail, ';') == ["", ""];
      }
    } else {
      var c, rest := cidrs[0], cidrs[1..];
      assert Plain(c) by {
        assert cidrs[0] in cidrs;
      }
      if rest == [] && tail == "" {
        assert Join(cidrs, ";") + tail == c;
        SplitWithoutSeparator(c, ';');
      } else {
        var after := if rest == [] then "" else Join(rest, ";") + tail;
        assert Join(cidrs, ";") + tail == c + ";" + after;
        SplitAtSeparator(c, after, ';');
        NonEmptyAppend([c], Split(after, ';'));
        if rest != [] {
          DecodeJoined(rest, tail);
        }
        assert NonEmpty([c]) == [c];
        assert cidrs == [c] + rest;
      }
    }
  }

  /** Whatever blocks the metadata service lists, the rules are built from exactly these, in order. */
  lemma CidrsRoundTrip(cidrs: seq<string>, newlineAtEnd: bool)
    requires forall c :: c in cidrs ==> Plain(c)
    ensures Decode(Encode(Lines(cidrs, newlineAtEnd))) == cidrs
  {
    var tail := if newlineAtEnd then "\n" else "";
    EncodeLines(cidrs);
    ReplaceConcat(Join(cidrs, "\n"), tail, '\n', ';');
    DecodeJoined(cidrs, Encode(tail));
  }
}
