/** The events of one turn: what the execution service yields while the graph streams. */
module TurnStream {
  import opened Wrappers
  import opened Agent
  import opened Selection

  /** A custom graph update: a token update whose delta may not be a string, or something else. */
  datatype Update = TokenUpdate(delta: Option<string>) | OtherUpdate

  /** One graph invocation: its updates in order, then the final answer or an exception. */
  datatype GraphRun = GraphRun(updates: seq<Update>, outcome: Result<string, Failure>)

  /** The assistant message as an event carries it. */
  datatype Reply = Reply(id: nat, renderedText: Option<string>)

  datatype ExecEvent = StatusEvent(message: Reply) | TokenEvent(itemId: nat, delta: string) | FinalEvent(result: Reply)

  /** What is stored of the turn in the end. */
  datatype Stored = NotOpened | StoredComplete(text: string) | StoredFailed

  datatype ExecRun = ExecRun(events: seq<ExecEvent>, failure: Option<Failure>, stored: Stored)

  // ---------------------------------------------------------------- specification

  function TokenEvents(id: nat, updates: seq<Update>): seq<ExecEvent> {
    if updates == [] then []
    else (if updates[0].TokenUpdate? && updates[0].delta.Some? && updates[0].delta.value != ""
          then [TokenEvent(id, updates[0].delta.value)] else []) + TokenEvents(id, updates[1..])
  }

  /** `opened` is the assistant message of the opened turn, or why it could not be opened. */
  function Executed(opening: Result<nat, Failure>, graph: GraphRun): ExecRun {
    match opening
    case Err(failure) => ExecRun([], Some(failure), NotOpened)
    case Ok(id) =>
      var body := [StatusEvent(Reply(id, None))] + TokenEvents(id, graph.updates);
      match graph.outcome
      case Ok(answer) => ExecRun(body + [FinalEvent(Reply(id, Some(answer)))], None, StoredComplete(answer))
      case Err(failure) => ExecRun(body, Some(failure), StoredFailed)
  }

  // ---------------------------------------------------------------- the service

  method Stream(opening: Result<nat, Failure>, graph: GraphRun) returns (run: ExecRun)
    ensures run == Executed(opening, graph)
  {
    if opening.Err? {
      return ExecRun([], Some(opening.error), NotOpened);
    }
    var message := Reply(opening.value, None);
    var events := [StatusEvent(message)];
    for i := 0 to |graph.updates|
      invariant events == [StatusEvent(message)] + TokenEvents(message.id, graph.updates[..i])
    {
      TokenEventsAppend(message.id, graph.updates[..i], [graph.updates[i]]);
      assert graph.updates[..i + 1] == graph.updates[..i] + [graph.updates[i]];
      if graph.updates[i].OtherUpdate? {
        continue;
      }
      var delta := graph.updates[i].delta;
      if delta.Some? && delta.value != "" {
        events := events + [TokenEvent(message.id, delta.value)];
      }
    }
    assert graph.updates[..|graph.updates|] == graph.updates;
    match graph.outcome {
      case Ok(answer) =>
        message := message.(renderedText := Some(answer));
        events := events + [FinalEvent(message)];
        return ExecRun(events, None, StoredComplete(answer));
      case Err(failure) =>
        return ExecRun(events, Some(failure), StoredFailed);
    }
  }

  lemma {:induction false} TokenEventsAppend(id: nat, a: seq<Update>, b: seq<Update>)
    ensures TokenEvents(id, a + b) == TokenEvents(id, a) + TokenEvents(id, b)
  {
    if a == [] {
      assert a + b == b;
    } else {
      assert (a + b)[1..] == a[1..] + b;
      TokenEventsAppend(id, a[1..], b);
    }
  }

  // ---------------------------------------------------------------- fed by the agent

  /** The agent writes one token update for each delta, and its answer becomes the state's final answer. */
  function GraphOf(result: AgentResult): GraphRun {
    GraphRun(seq(|result.tokens|, i requires 0 <= i < |result.tokens| => TokenUpdate(Some(result.tokens[i]))),
      result.answer)
  }

  /** The deltas the service passes on: of the token updates, those whose delta is a non-empty string. */
  function Kept(updates: seq<Update>): seq<string> {
    if updates == [] then []
    else if updates[0].TokenUpdate? && updates[0].delta.Some? && updates[0].delta.value != ""
    then [updates[0].delta.value] + Kept(updates[1..])
    else Kept(updates[1..])
  }

  function TokenEventsOf(id: nat, tokens: seq<string>): seq<ExecEvent> {
    if tokens == [] then [] else [TokenEvent(id, tokens[0])] + TokenEventsOf(id, tokens[1..])
  }

  /** Whatever the graph emits, there is one token event for each kept delta, in order. */
  lemma {:induction false} KeptBecomeEvents(id: nat, updates: seq<Update>)
    ensures TokenEvents(id, updates) == TokenEventsOf(id, Kept(updates))
    ensures |TokenEvents(id, updates)| == |Kept(updates)|
    ensures forall i | 0 <= i < |Kept(updates)| :: TokenEvents(id, updates)[i] == TokenEvent(id, Kept(updates)[i])
  {
    if updates != [] {
      KeptBecomeEvents(id, updates[1..]);
      var kept := Kept(updates[1..]);
      assert forall d :: ([d] + kept)[1..] == kept;
    }
  }

  /** What the service keeps: all non-empty string deltas of token updates, in their order, and nothing else. */
  lemma {:induction false} KeptIsExact(updates: seq<Update>)
    ensures Keeps((u: Update, d: string) => u == TokenUpdate(Some(d)) && d != "",
              (u: Update) => u in {OtherUpdate, TokenUpdate(None), TokenUpdate(Some(""))}, updates, Kept(updates))
  {
    var hit := (u: Update, d: string) => u == TokenUpdate(Some(d)) && d != "";
    var miss := (u: Update) => u in {OtherUpdate, TokenUpdate(None), TokenUpdate(Some(""))};
    if updates == [] {
      KeepsNone(hit, miss);
    } else {
      KeptIsExact(updates[1..]);
      if miss(updates[0]) {
        KeepsMiss(hit, miss, updates, Kept(updates[1..]));
      } else {
        KeepsHit(hit, miss, updates, updates[0].delta.value, Kept(updates[1..]));
      }
    }
  }

  /** Nothing the agent writes is dropped: all its tokens are kept, in order. */
  lemma {:induction false} AgentTokensSurvive(tokens: seq<string>, answer: Result<string, Failure>)
    requires forall i | 0 <= i < |tokens| :: tokens[i] != ""
    ensures Kept(GraphOf(AgentResult(tokens, answer)).updates) == tokens
  {
    if tokens != [] {
      assert GraphOf(AgentResult(tokens, answer)).updates[1..] == GraphOf(AgentResult(tokens[1..], answer)).updates;
      AgentTokensSurvive(tokens[1..], answer);
    }
  }

  /** Of a model run, the service passes on exactly the non-empty chunk texts. */
  lemma ModelTokensSurvive(model: ModelRun)
    ensures Kept(GraphOf(StreamedBy(model)).updates) == Deltas(model.chunks)
  {
    var deltas := Deltas(model.chunks);
    DeltasNonEmpty(model.chunks);
    forall i | 0 <= i < |deltas|
      ensures deltas[i] != ""
    {
      assert deltas[i] in deltas;
    }
    AgentTokensSurvive(deltas, StreamedBy(model).answer);
  }
}
