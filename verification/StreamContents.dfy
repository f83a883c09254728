/** What each event of a stream carries, and what a client reads of it: names and fields, spelled out. */
module StreamContents {
  import opened Wrappers
  import opened TurnStream
  import opened ResponseStream
  import E = EventStream

  // ---------------------------------------------------------------- fields

  /** The run and the conversation of the request, at a status, with these output items. */
  predicate Reports(response: Response, ctx: Context, status: ResponseStatus, output: seq<Item>) {
    response == Response(ctx.run, ctx.conversation, status, output)
  }

  /** A completed response with one item: the reply, completed. */
  predicate ReportsAnswer(response: Response, ctx: Context, itemId: nat) {
    |response.output| == 1 && Reports(response, ctx, CompletedStatus, [Item(itemId, ItemCompleted,
      response.output[0].text)])
  }

  /**
    The fields of an event of this request and reply: in progress and empty at first, completed at the end, and after
    a failure failed, with an incomplete item without text.
   */
  predicate HasFields(event: WireEvent, ctx: Context, itemId: nat) {
    match event
    case Created(_, response) => Reports(response, ctx, InProgressStatus, [])
    case InProgress(_, response) => Reports(response, ctx, InProgressStatus, [])
    case ItemAdded(_, item) => item == Item(itemId, ItemInProgress, "")
    case PartAdded(_, id, text) => id == itemId && text == ""
    case Delta(_, id, _) => id == itemId
    case TextDone(_, id, _) => id == itemId
    case PartDone(_, id, _) => id == itemId
    case ItemDone(_, item) => item == Item(itemId, ItemCompleted, item.text)
    case Completed(_, response) => ReportsAnswer(response, ctx, itemId)
    case FailedEvent(_, response) => Reports(response, ctx, FailedStatus, [Item(itemId, ItemIncomplete, "")])
    case ErrorEvent(_, _) => true
  }

  predicate EffectHasFields(effect: Effect, ctx: Context, itemId: nat) {
    match effect
    case Sent(event) => HasFields(event, ctx, itemId)
    case KeyCompleted(snapshot) => ReportsAnswer(snapshot, ctx, itemId)
    case KeyFailed(_) => true
  }

  /** All effects so far carry the fields of this reply, which is open once it is known. */
  predicate AllHaveFields(h: Handler, ctx: Context, itemId: nat) {
    && h.active in {None, Some(Reply(itemId, None))}
    && forall i | 0 <= i < |h.trace| :: EffectHasFields(h.trace[i], ctx, itemId)
  }

  /** An event the service yields for this reply. */
  predicate Yields(event: ExecEvent, itemId: nat) {
    match event
    case StatusEvent(message) => message == Reply(itemId, None)
    case TokenEvent(id, _) => id == itemId
    case FinalEvent(result) => result.id == itemId && result.renderedText.Some?
  }

  lemma EventCarries(h: Handler, ctx: Context, event: ExecEvent, itemId: nat)
    requires AllHaveFields(h, ctx, itemId) && Yields(event, itemId)
    ensures AllHaveFields(OnEvent(h, ctx, event), ctx, itemId)
  {
  }

  lemma {:induction false} EventsCarry(ctx: Context, events: seq<ExecEvent>, itemId: nat)
    requires forall i | 0 <= i < |events| :: Yields(events[i], itemId)
    ensures AllHaveFields(OnEvents(IDLE, ctx, events), ctx, itemId)
  {
    if events != [] {
      EventsCarry(ctx, events[..|events| - 1], itemId);
      EventCarries(OnEvents(IDLE, ctx, events[..|events| - 1]), ctx, events[|events| - 1], itemId);
    }
  }

  lemma FailureCarries(h: Handler, ctx: Context, itemId: nat, failure: Option<Failure>)
    requires AllHaveFields(h, ctx, itemId)
    ensures failure.Some? ==>
              forall e | e in OnFailure(h, ctx, failure.value).trace :: EffectHasFields(e, ctx, itemId)
  {
  }

  /** Whatever the graph emits, every event and the snapshot carry the run, conversation and reply of the turn. */
  lemma EveryEventCarries(ctx: Context, itemId: nat, graph: GraphRun)
    ensures forall e | e in TraceOf(ctx, Executed(Ok(itemId), graph)) :: EffectHasFields(e, ctx, itemId)
  {
    hide OnEvents, OnFailure, EffectHasFields;
    var run := Executed(Ok(itemId), graph);
    KeptBecomeEvents(itemId, graph.updates);
    EventsCarry(ctx, run.events, itemId);
    FailureCarries(OnEvents(IDLE, ctx, run.events), ctx, itemId, run.failure);
  }

  // ---------------------------------------------------------------- names

  function Names(events: seq<WireEvent>): seq<string> {
    seq(|events|, i requires 0 <= i < |events| => E.TypeName(events[i]))
  }

  function Times(name: string, n: nat): seq<string> {
    seq(n, i => name)
  }

  const OPENING := ["response.created", "response.in_progress", "response.output_item.added",
                    "response.content_part.added"]

  /** The names still to come before a stream that has reached this mark ends. */
  function Remaining(mark: Mark): seq<string> {
    match mark
    case SawText => ["response.content_part.done", "response.output_item.done", "response.completed"]
    case SawPart => ["response.output_item.done", "response.completed"]
    case SawItemDone => ["response.completed"]
    case SawFailed => ["error"]
    case _ => []
  }

  lemma FirstName(mark: Mark, events: seq<WireEvent>)
    requires events != [] && Parse(mark, events).Some?
    ensures Step(mark, events[0]).Some? && Parse(Step(mark, events[0]).value, events[1..]) == Parse(mark, events)
    ensures Names(events) == [E.TypeName(events[0])] + Names(events[1..])
  {
  }

  lemma {:induction false} TailNames(mark: Mark, events: seq<WireEvent>)
    requires mark in {SawText, SawPart, SawItemDone, Finished, SawFailed, Closed}
    requires Parse(mark, events) in {Some(Finished), Some(Closed)}
    ensures Names(events) == Remaining(mark)
    ensures DeltasSeen(events) == []
    decreases |events|
  {
    if events != [] {
      FirstName(mark, events);
      TailNames(Step(mark, events[0]).value, events[1..]);
    }
  }

  /** What follows the opening: a delta for each delta seen, and then the end. */
  predicate BodyNames(names: seq<string>, deltas: nat, end: Mark) {
    names == Times("response.output_text.delta", deltas)
             + match end
               case Finished => ["response.output_text.done", "response.content_part.done",
                                 "response.output_item.done", "response.completed"]
               case Closed => ["response.failed", "error"]
               case _ => []
  }

  lemma {:induction false} NamesOfBody(events: seq<WireEvent>, end: Mark)
    requires Parse(Body, events) == Some(end) && end in {Finished, Closed, Body}
    ensures BodyNames(Names(events), |DeltasSeen(events)|, end)
    decreases |events|
  {
    if events != [] {
      FirstName(Body, events);
      if events[0].Delta? {
        NamesOfBody(events[1..], end);
        assert Times("response.output_text.delta", |DeltasSeen(events)|)
            == ["response.output_text.delta"] + Times("response.output_text.delta", |DeltasSeen(events[1..])|);
      } else {
        AfterBody(events, end);
      }
    }
  }

  lemma AfterBody(events: seq<WireEvent>, end: Mark)
    requires events != [] && !events[0].Delta? && Parse(Body, events) == Some(end) && end in {Finished, Closed, Body}
    ensures BodyNames(Names(events), |DeltasSeen(events)|, end)
  {
    FirstName(Body, events);
    var mark := Step(Body, events[0]).value;
    StaysPast(mark, events[1..], end);
    TailNames(mark, events[1..]);
    assert Times("response.output_text.delta", 0) == [];
  }

  /** After the body a stream finishes, or fails, and cannot do both. */
  lemma {:induction false} StaysPast(mark: Mark, events: seq<WireEvent>, end: Mark)
    requires Parse(mark, events) == Some(end) && end in {Finished, Closed, Body}
    requires mark in {SawText, SawPart, SawItemDone, Finished, SawFailed, Closed}
    ensures end == if mark in {SawFailed, Closed} then Closed else Finished
    decreases |events|
  {
    if events != [] {
      FirstName(mark, events);
      StaysPast(Step(mark, events[0]).value, events[1..], end);
    }
  }

  /** The names still to come before a stream that has reached this mark is in its body. */
  function ToBody(mark: Mark): seq<string> {
    match mark
    case Start => OPENING
    case SawCreated => ["response.in_progress", "response.output_item.added", "response.content_part.added"]
    case SawInProgress => ["response.output_item.added", "response.content_part.added"]
    case SawItem => ["response.content_part.added"]
    case _ => []
  }

  /** These names open a stream from the mark on, and then fill its body and end it. */
  predicate OpensAndEnds(mark: Mark, names: seq<string>, deltas: nat, end: Mark) {
    var n := |ToBody(mark)|;
    n <= |names| && names[..n] == ToBody(mark) && BodyNames(names[n..], deltas, end)
  }

  lemma OneNameEarlier(mark: Mark, next: Mark, name: string, names: seq<string>, deltas: nat, end: Mark)
    requires OpensAndEnds(next, names, deltas, end) && ToBody(mark) == [name] + ToBody(next)
    ensures OpensAndEnds(mark, [name] + names, deltas, end)
  {
    var n := |ToBody(next)|;
    assert ([name] + names)[..n + 1] == [name] + names[..n];
    assert ([name] + names)[n + 1..] == names[n..];
  }

  lemma {:induction false} NamesOfStream(mark: Mark, events: seq<WireEvent>, end: Mark)
    requires mark in {Start, SawCreated, SawInProgress, SawItem, Body}
    requires Parse(mark, events) == Some(end) && end in {Finished, Closed, Body}
    requires mark == Start && events != [] ==> !events[0].ErrorEvent?
    ensures OpensAndEnds(mark, Names(events), |DeltasSeen(events)|, end)
    decreases |events|
  {
    if mark == Body {
      NamesOfBody(events, end);
      assert Names(events)[0..] == Names(events);
    } else {
      FirstName(mark, events);
      NamesOfStream(Step(mark, events[0]).value, events[1..], end);
      OneNameEarlier(mark, Step(mark, events[0]).value, E.TypeName(events[0]), Names(events[1..]),
        |DeltasSeen(events)|, end);
    }
  }

  /**
    What the smoke client reads of any execution: by name the documented sequence, with a delta event for each kept
    delta; and what it reads carries the ids and statuses of this turn.
   */
  lemma ClientReadsTheProtocol(dump: WireEvent -> string, load: string -> E.Loaded<WireEvent>, ctx: Context,
                               itemId: nat, graph: GraphRun)
    requires E.Codec(dump, load)
    ensures var events := Events(TraceOf(ctx, Executed(Ok(itemId), graph)));
            var read := E.Decode(load, E.Print(dump, E.Typed(events)));
            && read.error == None && |read.events| == |events| >= 4
            && (forall i | 0 <= i < |events| ::
                  read.events[i] == (Names(events)[i], events[i]) && HasFields(events[i], ctx, itemId))
            && Names(events)[..4] == ["response.created", "response.in_progress", "response.output_item.added",
                                      "response.content_part.added"]
            && BodyNames(Names(events)[4..], |Kept(graph.updates)|, if graph.outcome.Ok? then Finished else Closed)
  {
    var trace := TraceOf(ctx, Executed(Ok(itemId), graph));
    var events := Events(trace);
    StreamOfExecution(ctx, Ok(itemId), graph);
    E.ClientSeesTheStream(dump, load, events);
    E.TypedNames(events);
    EveryEventCarries(ctx, itemId, graph);
    forall i | 0 <= i < |events|
      ensures HasFields(events[i], ctx, itemId)
    {
      EventsIn(trace, events[i]);
    }
    OpensFirst(ctx, itemId, graph);
    NamesOfStream(Start, events, if graph.outcome.Ok? then Finished else Closed);
  }

  /** An opened turn's stream does not begin with an error. */
  lemma OpensFirst(ctx: Context, itemId: nat, graph: GraphRun)
    ensures var events := Events(TraceOf(ctx, Executed(Ok(itemId), graph)));
            events != [] && events[0].Created?
  {
    var run := Executed(Ok(itemId), graph);
    var first := run.events[0];
    assert run.events == [first] + run.events[1..];
    OnEventsAppend(IDLE, ctx, [first], run.events[1..]);
    OneEvent(IDLE, ctx, first);
    TraceGrows(OnEvent(IDLE, ctx, first), ctx, run.events[1..]);
    var trace := TraceOf(ctx, run);
    assert OnEvents(IDLE, ctx, run.events).trace <= trace;
    assert trace[0] == OnEvent(IDLE, ctx, first).trace[0];
  }
}
