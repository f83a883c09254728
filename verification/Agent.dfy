/**
  The single graph node: it turns the checkpointed messages into the model's
  input and the model's chunks into the answer.
 */
module Agent {
  import opened Text
  import opened Wrappers
  import opened Selection

  /** A checkpointed message; the reducer on the list is concatenation. */
  datatype GraphMessage = UserMessage(content: string) | AssistantMessage(content: string)

  datatype ChatMessage = SystemChat(content: string) | HumanChat(content: string) | AIChat(content: string)

  /** A provider content shape: plain text, or blocks of which only some carry text. */
  datatype Block = TextBlock(text: string) | OtherBlock

  datatype Content = Plain(text: string) | Blocks(blocks: seq<Block>)

  /** What a model call gives: chunks in order, then success or failure. */
  datatype ModelRun = ModelRun(chunks: seq<Content>, failure: Option<Failure>)

  datatype AgentResult = AgentResult(tokens: seq<string>, answer: Result<string, Failure>)

  /** Fixed instructions in front of every model call; their wording plays no part. */
  const SYSTEM_PROMPT := "You are a helpful travel assistant."

  const FALLBACK := "我暂时无法生成可用回复，请稍后重试。"

  // ---------------------------------------------------------------- specification

  function ToChat(m: GraphMessage): ChatMessage {
    match m
    case UserMessage(text) => HumanChat(text)
    case AssistantMessage(text) => AIChat(text)
  }

  /** The system prompt followed by the checkpointed messages in order. */
  function ModelInput(messages: seq<GraphMessage>): seq<ChatMessage> {
    [SystemChat(SYSTEM_PROMPT)] + seq(|messages|, i requires 0 <= i < |messages| => ToChat(messages[i]))
  }

  function TextsOf(blocks: seq<Block>): seq<string> {
    if blocks == [] then []
    else (if blocks[0].TextBlock? then [blocks[0].text] else []) + TextsOf(blocks[1..])
  }

  /** The displayable text of one chunk. */
  function ContentText(content: Content): string {
    match content
    case Plain(text) => text
    case Blocks(blocks) => Strip(Join("\n", TextsOf(blocks)))
  }

  /** The non-empty texts of a chunk list. */
  function Deltas(chunks: seq<Content>): seq<string> {
    if chunks == [] then []
    else
      var delta := ContentText(chunks[0]);
      (if delta != "" then [delta] else []) + Deltas(chunks[1..])
  }

  function OrFallback(answer: string): string {
    if answer == "" then FALLBACK else answer
  }

  /** The streaming branch: tokens written so far survive a failing model, the answer does not. */
  function StreamedBy(run: ModelRun): AgentResult {
    AgentResult(Deltas(run.chunks),
      if run.failure.Some? then Err(run.failure.value) else Ok(OrFallback(Concat(Deltas(run.chunks)))))
  }

  // ---------------------------------------------------------------- the node

  method BuildHistory(messages: seq<GraphMessage>) returns (history: seq<ChatMessage>)
    ensures history == ModelInput(messages)
    ensures |history| == |messages| + 1 && history[0] == SystemChat(SYSTEM_PROMPT)
    ensures forall i | 0 <= i < |messages| :: history[i + 1] ==
              (if messages[i].UserMessage? then HumanChat(messages[i].content) else AIChat(messages[i].content))
  {
    history := [SystemChat(SYSTEM_PROMPT)];
    for i := 0 to |messages|
      invariant history == ModelInput(messages[..i])
    {
      if messages[i].UserMessage? {
        history := history + [HumanChat(messages[i].content)];
      } else {
        history := history + [AIChat(messages[i].content)];
      }
    }
    assert messages[..|messages|] == messages;
  }

  method StreamAnswer(run: ModelRun) returns (result: AgentResult)
    ensures result == StreamedBy(run)
  {
    var chunks: seq<string> := [];
    var written: seq<string> := [];
    for i := 0 to |run.chunks|
      invariant chunks == written == Deltas(run.chunks[..i])
    {
      var delta := ContentText(run.chunks[i]);
      DeltasAppend(run.chunks[..i], [run.chunks[i]]);
      assert run.chunks[..i + 1] == run.chunks[..i] + [run.chunks[i]];
      if delta != "" {
        chunks := chunks + [delta];
        written := written + [delta];
      }
    }
    assert run.chunks[..|run.chunks|] == run.chunks;
    match run.failure {
      case Some(failure) => return AgentResult(written, Err(failure));
      case None =>
        var answer := JoinAll(chunks);
        if answer == "" {
          answer := FALLBACK;
        }
        return AgentResult(written, Ok(answer));
    }
  }

  /** The branch without streaming. */
  method InvokeAnswer(response: Content) returns (answer: string)
    ensures answer == OrFallback(ContentText(response)) && answer != ""
  {
    answer := ContentText(response);
    if answer == "" {
      answer := FALLBACK;
    }
  }

  /** `"".join(chunks)`. */
  method JoinAll(chunks: seq<string>) returns (answer: string)
    ensures answer == Concat(chunks)
  {
    answer := "";
    for i := 0 to |chunks|
      invariant answer == Concat(chunks[..i])
    {
      ConcatAppend(chunks[..i], [chunks[i]]);
      assert chunks[..i + 1] == chunks[..i] + [chunks[i]];
      answer := answer + chunks[i];
    }
    assert chunks[..|chunks|] == chunks;
  }

  // ---------------------------------------------------------------- laws

  lemma {:induction false} DeltasAppend(a: seq<Content>, b: seq<Content>)
    ensures Deltas(a + b) == Deltas(a) + Deltas(b)
  {
    if a == [] {
      assert a + b == b;
    } else {
      assert (a + b)[1..] == a[1..] + b;
      DeltasAppend(a[1..], b);
    }
  }

  /** No emitted delta is empty. */
  lemma {:induction false} DeltasNonEmpty(chunks: seq<Content>)
    ensures forall d | d in Deltas(chunks) :: d != ""
  {
    if chunks != [] {
      DeltasNonEmpty(chunks[1..]);
    }
  }

  /** The answer is the concatenation of the deltas, or the fallback exactly when there was none; it is never empty. */
  lemma AnswerOfDeltas(chunks: seq<Content>)
    ensures var deltas := Deltas(chunks);
            OrFallback(Concat(deltas)) ==
              (if deltas == [] then "我暂时无法生成可用回复，请稍后重试。" else Concat(deltas))
    ensures OrFallback(Concat(Deltas(chunks))) != ""
  {
    DeltasNonEmpty(chunks);
    ConcatEmpty(Deltas(chunks));
    var deltas := Deltas(chunks);
    if deltas != [] {
      assert deltas[0] in deltas;
    }
  }

  // ---------------------------------------------------------------- the text of a chunk

  /** `texts` are the texts of all text blocks, in order. */
  ghost predicate TextsIn(blocks: seq<Block>, texts: seq<string>) {
    Keeps((b: Block, t: string) => b == TextBlock(t), (b: Block) => b == OtherBlock, blocks, texts)
  }

  lemma {:induction false} TextsAreExact(blocks: seq<Block>)
    ensures TextsIn(blocks, TextsOf(blocks))
  {
    var hit, miss := (b: Block, t: string) => b == TextBlock(t), (b: Block) => b == OtherBlock;
    if blocks == [] {
      KeepsNone(hit, miss);
    } else {
      TextsAreExact(blocks[1..]);
      if blocks[0].TextBlock? {
        KeepsHit(hit, miss, blocks, blocks[0].text, TextsOf(blocks[1..]));
      } else {
        assert TextsOf(blocks) == [] + TextsOf(blocks[1..]) == TextsOf(blocks[1..]);
        KeepsMiss(hit, miss, blocks, TextsOf(blocks[1..]));
      }
    }
  }

  /**
    A plain chunk is passed on as it is. A chunk of blocks gives the texts of its text blocks in order, one to a line,
    without the white space around the whole; nothing when that is all there is.
   */
  lemma ChunkText(content: Content) returns (texts: seq<string>, joined: string)
    ensures content.Plain? ==> ContentText(content) == content.text
    ensures content.Blocks? ==>
              && TextsIn(content.blocks, texts)
              && LaidOut(joined, "\n", texts)
              && (if ContentText(content) == "" then Blank(joined) else Around(joined, ContentText(content)))
  {
    texts, joined := [], "";
    if content.Blocks? {
      texts := TextsOf(content.blocks);
      TextsAreExact(content.blocks);
      joined := Join("\n", texts);
      JoinLaysOut("\n", texts);
      StripIsCore(joined, Strip(joined));
      StripBlankExactly(joined);
    }
  }

  /** Plain chunks reach the client letter by letter: the deltas spell the chunks, white space included. */
  lemma {:induction false} PlainStreamIsVerbatim(chunks: seq<Content>, texts: seq<string>)
    requires |chunks| == |texts| && forall i | 0 <= i < |chunks| :: chunks[i] == Plain(texts[i])
    ensures Concat(Deltas(chunks)) == Concat(texts)
  {
    if texts != [] {
      PlainStreamIsVerbatim(chunks[1..], texts[1..]);
      ConcatAppend(if texts[0] != "" then [texts[0]] else [], Deltas(chunks[1..]));
    }
  }
}
