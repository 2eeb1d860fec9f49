/**
 * The final answer node (src/workflow/node/task_summarizer.py): the sources block of its
 * prompt, numbered for citations, and the filter that forwards only text content from the
 * model's stream. The stream itself is an input: a sequence of chunks, each a list of
 * content pieces.
 */
module Summarizer {
  import opened State
  import opened Strings

  /** The five lines of the block at position `i`. */
  function BlockLines(i: nat, s: Source): seq<string> {
    ["<source>", "<index>" + NatToString(i + 1) + "</index>", "<url>" + s.url + "</url>", "<content>" + s.content + "</content>", "</source>"]
  }

  /**
   * The source at position `i` (0-based) as the prompt shows it, cited as number i + 1:
   * the template's five lines, separated by newlines.
   */
  function SourceBlock(i: nat, s: Source): string {
    Join("\n", BlockLines(i, s))
  }

  function Blocks(sources: seq<Source>): seq<string> {
    seq(|sources|, i requires 0 <= i < |sources| => SourceBlock(i, sources[i]))
  }

  /** The `sources` value of the prompt: the blocks numbered from 1, joined by newlines. */
  function RenderSources(sources: seq<Source>): string {
    Join("\n", Blocks(sources))
  }

  /** The lines of all blocks, source by source. */
  function RenderedLines(sources: seq<Source>): seq<string>
    decreases |sources|
  {
    if |sources| == 0 then [] else RenderedLines(sources[..|sources| - 1]) + BlockLines(|sources| - 1, sources[|sources| - 1])
  }

  lemma RenderEmpty()
    ensures RenderSources([]) == ""
  {
    assert Blocks([]) == [];
  }

  /** The rendered text is the join of the lines of all blocks. */
  lemma {:induction false} RenderJoinsLines(sources: seq<Source>)
    requires |sources| > 0
    ensures RenderSources(sources) == Join("\n", RenderedLines(sources))
    decreases |sources|
  {
    var n := |sources|;
    var init := sources[..n - 1];
    if n == 1 {
      assert Blocks(sources) == [SourceBlock(0, sources[0])];
      assert sources[..0] == [];
      assert RenderedLines(sources) == [] + BlockLines(0, sources[0]);
      assert [] + BlockLines(0, sources[0]) == BlockLines(0, sources[0]);
    } else {
      RenderJoinsLines(init);
      assert Blocks(sources) == Blocks(init) + [SourceBlock(n - 1, sources[n - 1])];
      JoinConcat("\n", Blocks(init), [SourceBlock(n - 1, sources[n - 1])]);
      RenderedLinesShape(init);
      JoinConcat("\n", RenderedLines(init), BlockLines(n - 1, sources[n - 1]));
    }
  }

  /** Five lines per source, in source order: line 5i + r is line r of block i. */
  lemma {:induction false} RenderedLinesShape(sources: seq<Source>)
    ensures |RenderedLines(sources)| == 5 * |sources|
    ensures forall i, r :: 0 <= i < |sources| && 0 <= r < 5 ==> RenderedLines(sources)[5 * i + r] == BlockLines(i, sources[i])[r]
    decreases |sources|
  {
    if |sources| > 0 {
      var init := sources[..|sources| - 1];
      RenderedLinesShape(init);
      forall i, r | 0 <= i < |sources| && 0 <= r < 5
        ensures RenderedLines(sources)[5 * i + r] == BlockLines(i, sources[i])[r]
      {
        if i < |sources| - 1 {
          assert sources[i] == init[i];
        }
      }
    }
  }

  /** With newline-free urls and contents, the text splits back into the lines of the blocks. */
  lemma CitationSplit(sources: seq<Source>)
    requires |sources| > 0
    requires forall i :: 0 <= i < |sources| ==> NoNewline(sources[i].url) && NoNewline(sources[i].content)
    ensures Lines(RenderSources(sources)) == RenderedLines(sources)
  {
    RenderJoinsLines(sources);
    RenderedLinesNoNewline(sources);
    LinesOfJoin(RenderedLines(sources));
  }

  lemma {:induction false} RenderedLinesNoNewline(sources: seq<Source>)
    requires forall i :: 0 <= i < |sources| ==> NoNewline(sources[i].url) && NoNewline(sources[i].content)
    ensures forall k :: 0 <= k < |RenderedLines(sources)| ==> NoNewline(RenderedLines(sources)[k])
    decreases |sources|
  {
    if |sources| > 0 {
      var init := sources[..|sources| - 1];
      assert forall i :: 0 <= i < |init| ==> init[i] == sources[i];
      RenderedLinesNoNewline(init);
      BlockLinesNoNewline(|sources| - 1, sources[|sources| - 1]);
    }
  }

  lemma BlockLinesNoNewline(i: nat, s: Source)
    requires NoNewline(s.url) && NoNewline(s.content)
    ensures forall r :: 0 <= r < 5 ==> NoNewline(BlockLines(i, s)[r])
  {
    NatToStringNoNewline(i + 1);
  }

  /**
   * Citation numbers run from 1 in source order: with newline-free urls and contents, the
   * text has five lines per source, and the second line of block i carries the number
   * i + 1, the next two the source's url and content.
   */
  lemma CitationLines(sources: seq<Source>)
    requires |sources| > 0
    requires forall i :: 0 <= i < |sources| ==> NoNewline(sources[i].url) && NoNewline(sources[i].content)
    ensures |Lines(RenderSources(sources))| == 5 * |sources|
    ensures forall i :: 0 <= i < |sources| ==>
      && Lines(RenderSources(sources))[5 * i + 1] == "<index>" + NatToString(i + 1) + "</index>"
      && LeadingNumber(Lines(RenderSources(sources))[5 * i + 1][7..]) == i + 1
      && Lines(RenderSources(sources))[5 * i + 2] == "<url>" + sources[i].url + "</url>"
      && Lines(RenderSources(sources))[5 * i + 3] == "<content>" + sources[i].content + "</content>"
  {
    CitationSplit(sources);
    var lines := RenderedLines(sources);
    RenderedLinesShape(sources);
    forall i | 0 <= i < |sources|
      ensures lines[5 * i + 1] == "<index>" + NatToString(i + 1) + "</index>"
      ensures LeadingNumber(lines[5 * i + 1][7..]) == i + 1
      ensures lines[5 * i + 2] == "<url>" + sources[i].url + "</url>"
      ensures lines[5 * i + 3] == "<content>" + sources[i].content + "</content>"
    {
      assert lines[5 * i + 1] == BlockLines(i, sources[i])[1];
      assert lines[5 * i + 2] == BlockLines(i, sources[i])[2];
      assert lines[5 * i + 3] == BlockLines(i, sources[i])[3];
      IndexLineNumber(i + 1);
    }
  }

  /** The number in an index line reads back. */
  lemma IndexLineNumber(n: nat)
    ensures LeadingNumber(("<index>" + NatToString(n) + "</index>")[7..]) == n
  {
    assert ("<index>" + NatToString(n) + "</index>")[7..] == NatToString(n) + "</index>";
    LeadingNumberOf(n, "</index>");
  }

  /** One content piece of a streamed chunk: a dictionary. */
  datatype Piece = Piece(fields: map<string, string>)

  type Chunk = seq<Piece>

  const TextKind := "text"

  /** `content.get("type", "unknown")`. */
  function Kind(p: Piece): (k: string)
    ensures "type" in p.fields ==> k == p.fields["type"]
    ensures "type" !in p.fields ==> k == "unknown"
  {
    if "type" in p.fields then p.fields["type"] else "unknown"
  }

  /** The tokens streamed so far, and whether the whole stream was consumed. */
  datatype Streamed = Streamed(tokens: seq<string>, completed: bool)

  function Flatten(chunks: seq<Chunk>): seq<Piece>
    decreases |chunks|
  {
    if |chunks| == 0 then [] else Flatten(chunks[..|chunks| - 1]) + chunks[|chunks| - 1]
  }

  /**
   * The stream filter over the pieces in order: a text piece is forwarded, any other piece
   * dropped; a text piece without a `text` key raises, which ends the stream there.
   */
  function Stream(pieces: seq<Piece>): Streamed
    decreases |pieces|
  {
    if |pieces| == 0 then Streamed([], true)
    else
      var prev := Stream(pieces[..|pieces| - 1]);
      var p := pieces[|pieces| - 1];
      if !prev.completed || Kind(p) != TextKind then prev
      else if "text" in p.fields then Streamed(prev.tokens + [p.fields["text"]], true)
      else Streamed(prev.tokens, false)
  }

  /** `TaskSummarizer.__call__`: the nested loop over chunks and their pieces. */
  method StreamText(chunks: seq<Chunk>) returns (tokens: seq<string>, completed: bool)
    ensures Streamed(tokens, completed) == Stream(Flatten(chunks))
  {
    tokens := [];
    for i := 0 to |chunks|
      invariant Stream(Flatten(chunks[..i])) == Streamed(tokens, true)
    {
      var chunk := chunks[i];
      ghost var before := Flatten(chunks[..i]);
      assert before + chunk[..0] == before;
      for j := 0 to |chunk|
        invariant Stream(before + chunk[..j]) == Streamed(tokens, true)
      {
        var piece := chunk[j];
        StreamStep(before, chunk, j);
        if Kind(piece) == TextKind {
          if "text" !in piece.fields {
            completed := false;
            StopsAtFirstFailure(chunks, i, j);
            return;
          }
          tokens := tokens + [piece.fields["text"]];
        }
      }
      assert chunk[..|chunk|] == chunk;
      FlattenSnoc(chunks, i);
    }
    assert chunks[..|chunks|] == chunks;
    completed := true;
  }

  lemma FlattenSnoc(chunks: seq<Chunk>, i: nat)
    requires i < |chunks|
    ensures Flatten(chunks[..i + 1]) == Flatten(chunks[..i]) + chunks[i]
  {
    assert chunks[..i + 1][..i] == chunks[..i];
  }

  /** The effect of piece `chunk[j]` on the stream after `before + chunk[..j]`. */
  lemma StreamStep(before: seq<Piece>, chunk: Chunk, j: nat)
    requires j < |chunk|
    ensures var p, x := before + chunk[..j], chunk[j];
      Stream(before + chunk[..j + 1]) ==
        if !Stream(p).completed || Kind(x) != TextKind then Stream(p)
        else if "text" in x.fields then Streamed(Stream(p).tokens + [x.fields["text"]], true)
        else Streamed(Stream(p).tokens, false)
  {
    assert before + chunk[..j + 1] == (before + chunk[..j]) + [chunk[j]];
    StreamSnoc(before + chunk[..j], chunk[j]);
  }

  lemma StreamSnoc(p: seq<Piece>, x: Piece)
    ensures Stream(p + [x]) ==
      if !Stream(p).completed || Kind(x) != TextKind then Stream(p)
      else if "text" in x.fields then Streamed(Stream(p).tokens + [x.fields["text"]], true)
      else Streamed(Stream(p).tokens, false)
  {
    assert (p + [x])[..|p + [x]| - 1] == p;
  }

  lemma {:induction false} FlattenAppend(a: seq<Chunk>, b: seq<Chunk>)
    ensures Flatten(a + b) == Flatten(a) + Flatten(b)
    decreases |b|
  {
    if |b| == 0 {
      assert a + b == a;
    } else {
      FlattenAppend(a, b[..|b| - 1]);
      assert (a + b)[..|a + b| - 1] == a + b[..|b| - 1];
    }
  }

  /** Once the stream has stopped, later pieces change nothing. */
  lemma {:induction false} StopIsFinal(p: seq<Piece>, q: seq<Piece>)
    requires !Stream(p).completed
    ensures Stream(p + q) == Stream(p)
    decreases |q|
  {
    if |q| == 0 {
      assert p + q == p;
    } else {
      StopIsFinal(p, q[..|q| - 1]);
      assert (p + q)[..|p + q| - 1] == p + q[..|q| - 1];
    }
  }

  /** The pieces up to `chunks[i][j]`, followed by the rest. */
  lemma FlattenSplit(chunks: seq<Chunk>, i: nat, j: nat)
    requires i < |chunks| && j < |chunks[i]|
    ensures Flatten(chunks) == (Flatten(chunks[..i]) + chunks[i][..j + 1]) + (chunks[i][j + 1..] + Flatten(chunks[i + 1..]))
  {
    var chunk := chunks[i];
    assert chunks == chunks[..i] + ([chunk] + chunks[i + 1..]);
    FlattenAppend(chunks[..i], [chunk] + chunks[i + 1..]);
    FlattenAppend([chunk], chunks[i + 1..]);
    assert [chunk][..0] == [];
    assert Flatten([chunk]) == [] + chunk;
    assert chunk == chunk[..j + 1] + chunk[j + 1..];
  }

  /** The failing piece `chunks[i][j]` ends the whole stream. */
  lemma StopsAtFirstFailure(chunks: seq<Chunk>, i: nat, j: nat)
    requires i < |chunks| && j < |chunks[i]|
    requires !Stream(Flatten(chunks[..i]) + chunks[i][..j + 1]).completed
    ensures Stream(Flatten(chunks)) == Stream(Flatten(chunks[..i]) + chunks[i][..j + 1])
  {
    FlattenSplit(chunks, i, j);
    StopIsFinal(Flatten(chunks[..i]) + chunks[i][..j + 1], chunks[i][j + 1..] + Flatten(chunks[i + 1..]));
  }

  /** Every text piece carries its text. */
  predicate WellFormed(pieces: seq<Piece>) {
    forall i :: 0 <= i < |pieces| && Kind(pieces[i]) == TextKind ==> "text" in pieces[i].fields
  }

  /** The reference filter: the texts of the text pieces, in order. */
  function Texts(pieces: seq<Piece>): seq<string>
    requires WellFormed(pieces)
    decreases |pieces|
  {
    if |pieces| == 0 then []
    else (if Kind(pieces[0]) == TextKind then [pieces[0].fields["text"]] else []) + Texts(pieces[1..])
  }

  lemma {:induction false} TextsSnoc(pieces: seq<Piece>, p: Piece)
    requires WellFormed(pieces)
    requires Kind(p) == TextKind ==> "text" in p.fields
    ensures WellFormed(pieces + [p])
    ensures Texts(pieces + [p]) == Texts(pieces) + (if Kind(p) == TextKind then [p.fields["text"]] else [])
    decreases |pieces|
  {
    assert forall i :: 0 <= i < |pieces| ==> (pieces + [p])[i] == pieces[i];
    if |pieces| > 0 {
      assert (pieces + [p])[1..] == pieces[1..] + [p];
      TextsSnoc(pieces[1..], p);
    } else {
      assert pieces + [p] == [p];
    }
  }

  /**
   * The stream runs to its end iff every text piece carries its text, and then exactly the
   * texts of the text pieces are streamed, in order; all other pieces are dropped.
   */
  lemma {:induction false} StreamForwardsText(pieces: seq<Piece>)
    ensures Stream(pieces).completed <==> WellFormed(pieces)
    ensures WellFormed(pieces) ==> Stream(pieces).tokens == Texts(pieces)
    decreases |pieces|
  {
    if |pieces| > 0 {
      var init := pieces[..|pieces| - 1];
      var p := pieces[|pieces| - 1];
      assert pieces == init + [p];
      assert forall i :: 0 <= i < |init| ==> pieces[i] == init[i];
      StreamForwardsText(init);
      if WellFormed(pieces) {
        TextsSnoc(init, p);
      } else if WellFormed(init) {
        assert Kind(p) == TextKind && "text" !in p.fields;
      }
    }
  }

  /** A text piece without text stops the stream after the texts before it. */
  lemma StopsAfterPrefix(pieces: seq<Piece>, m: nat)
    requires m < |pieces| && WellFormed(pieces[..m])
    requires Kind(pieces[m]) == TextKind && "text" !in pieces[m].fields
    ensures Stream(pieces) == Streamed(Texts(pieces[..m]), false)
  {
    var pre, x := pieces[..m], pieces[m];
    StreamForwardsText(pre);
    PrefixSnoc(pieces, m);
    StreamSnoc(pre, x);
    StopIsFinal(pieces[..m + 1], pieces[m + 1..]);
  }

  lemma PrefixSnoc(pieces: seq<Piece>, m: nat)
    requires m < |pieces|
    ensures pieces[..m + 1] == pieces[..m] + [pieces[m]]
    ensures pieces == pieces[..m + 1] + pieces[m + 1..]
  {
  }

  /** The message text: the streamed tokens concatenated. */
  function Concat(tokens: seq<string>): string
    decreases |tokens|
  {
    if |tokens| == 0 then "" else Concat(tokens[..|tokens| - 1]) + tokens[|tokens| - 1]
  }
}
