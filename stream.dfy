/** The streamed reply: chunk contents as the backend delivers them, the
    fragments forwarded to the display, and the text they join into. */
module TokenStream {
  import opened Wrappers

  /** `chunk.choices[0].delta.content`: absent (`None`) or a piece of text. */
  type Chunk = Option<string>

  /** The chunk's text when it is truthy: present and not empty. */
  predicate IsFragment(c: Chunk) {
    c.Some? && c.value != ""
  }

  /** The fragments the generator yields, in arrival order. */
  function Fragments(chunks: seq<Chunk>): (r: seq<string>)
    ensures |r| <= |chunks|
    ensures forall i :: 0 <= i < |r| ==> r[i] != ""
  {
    if chunks == [] then []
    else
      var last := chunks[|chunks| - 1];
      Fragments(chunks[..|chunks| - 1]) + (if IsFragment(last) then [last.value] else [])
  }

  /** The text a chunk carries, treating an absent content as empty. */
  function Text(c: Chunk): (s: string) {
    if c.Some? then c.value else ""
  }

  /** The in-order concatenation of a sequence of strings. */
  function Concat(ss: seq<string>): (r: string)
    ensures ss == [] ==> r == ""
  {
    if ss == [] then "" else Concat(ss[..|ss| - 1]) + ss[|ss| - 1]
  }

  /** Every chunk's text, absent contents counted as empty. */
  function AllText(chunks: seq<Chunk>): (s: string) {
    if chunks == [] then "" else AllText(chunks[..|chunks| - 1]) + Text(chunks[|chunks| - 1])
  }

  lemma {:induction false} FragmentsAppend(a: seq<Chunk>, b: seq<Chunk>)
    ensures Fragments(a + b) == Fragments(a) + Fragments(b)
    decreases |b|
  {
    if b == [] {
      assert a + b == a;
    } else {
      assert (a + b)[..|a + b| - 1] == a + b[..|b| - 1];
      FragmentsAppend(a, b[..|b| - 1]);
    }
  }

  lemma {:induction false} ConcatAppend(a: seq<string>, b: seq<string>)
    ensures Concat(a + b) == Concat(a) + Concat(b)
    decreases |b|
  {
    if b == [] {
      assert a + b == a;
    } else {
      assert (a + b)[..|a + b| - 1] == a + b[..|b| - 1];
      ConcatAppend(a, b[..|b| - 1]);
    }
  }

  /** Dropping the empty chunks loses no text: the joined reply is all the
      text the backend sent, in order. */
  lemma {:induction false} JoinedFragmentsAreAllText(chunks: seq<Chunk>)
    ensures Concat(Fragments(chunks)) == AllText(chunks)
    decreases |chunks|
  {
    if chunks != [] {
      var init, last := chunks[..|chunks| - 1], chunks[|chunks| - 1];
      JoinedFragmentsAreAllText(init);
      var tail := if IsFragment(last) then [last.value] else [];
      ConcatAppend(Fragments(init), tail);
      if IsFragment(last) {
        assert Concat(tail) == Concat([]) + last.value;
      }
    }
  }

  /** Absent and empty chunks are skipped; the other three are yielded in
      order and join into one reply. */
  lemma HelloWorld()
    ensures Fragments([Some("Hel"), None, Some("lo, "), Some(""), Some("world!")]) == ["Hel", "lo, ", "world!"]
    ensures AllText([Some("Hel"), None, Some("lo, "), Some(""), Some("world!")]) == "Hello, world!"
  {
    var c1: seq<Chunk> := [Some("Hel")];
    var c2 := c1 + [None];
    var c3 := c2 + [Some("lo, ")];
    var c4 := c3 + [Some("")];
    var c5 := c4 + [Some("world!")];
    assert c1[..0] == [] && c2[..1] == c1 && c3[..2] == c2 && c4[..3] == c3 && c5[..4] == c4;
    assert Fragments(c1) == ["Hel"] && AllText(c1) == "Hel";
    assert Fragments(c2) == ["Hel"] && AllText(c2) == "Hel";
    assert Fragments(c3) == ["Hel", "lo, "] && AllText(c3) == "Hello, ";
    assert Fragments(c4) == ["Hel", "lo, "] && AllText(c4) == "Hello, ";
    assert c5 == [Some("Hel"), None, Some("lo, "), Some(""), Some("world!")];
  }

  /** `generate_chat_responses`: walks the chunks once, in order, and yields
      the truthy contents. */
  method GenerateChatResponses(chunks: seq<Chunk>) returns (yielded: seq<string>)
    ensures yielded == Fragments(chunks)
    ensures forall i :: 0 <= i < |yielded| ==> yielded[i] != ""
    ensures Concat(yielded) == AllText(chunks)
  {
    yielded := [];
    var i := 0;
    while i < |chunks|
      invariant 0 <= i <= |chunks|
      invariant yielded == Fragments(chunks[..i])
    {
      var content := chunks[i];
      assert chunks[..i + 1][..i] == chunks[..i];
      if content.Some? && content.value != "" {
        yielded := yielded + [content.value];
      }
      i := i + 1;
    }
    assert chunks[..i] == chunks;
    JoinedFragmentsAreAllText(chunks);
  }

  /** The reply the display hands back once the stream is exhausted: the
      fragments joined in arrival order, `""` when there were none. */
  method JoinFragments(fragments: seq<string>) returns (full: string)
    ensures full == Concat(fragments)
  {
    full := "";
    var i := 0;
    while i < |fragments|
      invariant 0 <= i <= |fragments|
      invariant full == Concat(fragments[..i])
    {
      assert fragments[..i + 1][..i] == fragments[..i];
      full := full + fragments[i];
      i := i + 1;
    }
    assert fragments[..i] == fragments;
  }
}
