/**
  The endpoint's event stream: it numbers the wire events, finalises the
  idempotency key at the right moment, and turns a failure into closing events.
 */
module ResponseStream {
  import opened Text
  import opened Wrappers
  import opened Agent
  import opened TurnStream

  datatype ItemStatus = ItemInProgress | ItemCompleted | ItemIncomplete

  datatype Item = Item(id: nat, status: ItemStatus, text: string)

  datatype ResponseStatus = InProgressStatus | CompletedStatus | FailedStatus

  datatype Response = Response(run: nat, conversation: nat, status: ResponseStatus, output: seq<Item>)

  datatype WireEvent =
    | Created(number: nat, response: Response)
    | InProgress(number: nat, response: Response)
    | ItemAdded(number: nat, item: Item)
    | PartAdded(number: nat, itemId: nat, text: string)
    | Delta(number: nat, itemId: nat, delta: string)
    | TextDone(number: nat, itemId: nat, text: string)
    | PartDone(number: nat, itemId: nat, text: string)
    | ItemDone(number: nat, item: Item)
    | Completed(number: nat, response: Response)
    | FailedEvent(number: nat, response: Response)
    | ErrorEvent(number: nat, code: string)

  /** What the handler does, in order: events sent, and the one finalisation of the idempotency key. */
  datatype Effect = Sent(event: WireEvent) | KeyCompleted(snapshot: Response) | KeyFailed(error: ApiError)

  /** The records the handler closes over. */
  datatype Context = Context(run: nat, conversation: nat)

  // ---------------------------------------------------------------- envelopes

  function ReplyText(message: Reply): string {
    if message.renderedText.Some? then message.renderedText.value else ""
  }

  function OutputItem(message: Reply, status: ResponseStatus): Item {
    var itemStatus := match status
      case CompletedStatus => ItemCompleted
      case InProgressStatus => ItemInProgress
      case FailedStatus => ItemIncomplete;
    Item(message.id, itemStatus, ReplyText(message))
  }

  function Envelope(ctx: Context, status: ResponseStatus, message: Option<Reply>): Response {
    Response(ctx.run, ctx.conversation, status, if message.None? then [] else [OutputItem(message.value, status)])
  }

  // ---------------------------------------------------------------- specification

  /** The handler's variables. */
  datatype Handler = Handler(number: nat, active: Option<Reply>, trace: seq<Effect>)

  function OnEvent(h: Handler, ctx: Context, event: ExecEvent): Handler {
    match event
    case StatusEvent(message) =>
      var n := h.number;
      var response := Envelope(ctx, InProgressStatus, None);
      Handler(n + 4, Some(message), h.trace + [
        Sent(Created(n, response)), Sent(InProgress(n + 1, response)),
        Sent(ItemAdded(n + 2, OutputItem(message, InProgressStatus))), Sent(PartAdded(n + 3, message.id, ""))])
    case TokenEvent(itemId, delta) =>
      h.(number := h.number + 1, trace := h.trace + [Sent(Delta(h.number, itemId, delta))])
    case FinalEvent(result) =>
      var n := h.number;
      var response := Envelope(ctx, CompletedStatus, Some(result));
      h.(number := n + 3, trace := h.trace + [
        KeyCompleted(response),
        Sent(TextDone(n, result.id, ReplyText(result))), Sent(PartDone(n + 1, result.id, ReplyText(result))),
        Sent(ItemDone(n + 2, OutputItem(result, CompletedStatus))), Sent(Completed(n + 3, response))])
  }

  function OnEvents(h: Handler, ctx: Context, events: seq<ExecEvent>): Handler {
    if events == [] then h else OnEvent(OnEvents(h, ctx, events[..|events| - 1]), ctx, events[|events| - 1])
  }

  function OnFailure(h: Handler, ctx: Context, failure: Failure): Handler {
    var finalised := h.trace + [KeyFailed(StoredError(failure))];
    if h.active.None? then h.(trace := finalised + [Sent(ErrorEvent(h.number, StoredError(failure).code))])
    else
      Handler(h.number + 1, h.active, finalised + [
        Sent(FailedEvent(h.number, Envelope(ctx, FailedStatus, h.active))),
        Sent(ErrorEvent(h.number + 1, StoredError(failure).code))])
  }

  const IDLE := Handler(0, None, [])

  /** Everything the handler does for one execution, if its client reads to the end. */
  function TraceOf(ctx: Context, run: ExecRun): seq<Effect> {
    var h := OnEvents(IDLE, ctx, run.events);
    if run.failure.Some? then OnFailure(h, ctx, run.failure.value).trace else h.trace
  }

  /**
    When the row of the key has gone, its finalisation raises. A raise while completing reaches the branch that fails
    the key, which raises again; so either way the stream breaks off where the key would have been finalised.
   */
  function UntilKey(trace: seq<Effect>): seq<Effect> {
    if trace == [] || !trace[0].Sent? then [] else [trace[0]] + UntilKey(trace[1..])
  }

  // ---------------------------------------------------------------- the handler

  /** `gone` says that the row of the key is gone when it is to be finalised. */
  method StreamEvents(ctx: Context, run: ExecRun, gone: bool) returns (trace: seq<Effect>)
    ensures trace == if gone then UntilKey(TraceOf(ctx, run)) else TraceOf(ctx, run)
  {
    trace := [];
    var sequenceNumber: nat := 0;
    var activeMessage: Option<Reply> := None;
    for i := 0 to |run.events|
      invariant Handler(sequenceNumber, activeMessage, trace) == OnEvents(IDLE, ctx, run.events[..i])
      invariant gone ==> AllSent(trace)
    {
      assert run.events[..i + 1][..i] == run.events[..i];
      match run.events[i] {
        case StatusEvent(message) =>
          activeMessage := Some(message);
          sequenceNumber, trace := SendOpening(ctx, message, sequenceNumber, trace);
        case TokenEvent(itemId, delta) =>
          trace := trace + [Sent(Delta(sequenceNumber, itemId, delta))];
          sequenceNumber := sequenceNumber + 1;
        case FinalEvent(result) =>
          if gone {
            FinalBreaksOff(ctx, run, i);
            return;
          }
          sequenceNumber, trace := SendClosing(ctx, result, sequenceNumber, trace);
      }
    }
    assert run.events[..|run.events|] == run.events;
    if gone {
      FailureBreaksOff(ctx, run);
    } else if run.failure.Some? {
      trace := SendFailure(ctx, activeMessage, run.failure.value, sequenceNumber, trace);
    }
  }

  predicate AllSent(trace: seq<Effect>) {
    forall i | 0 <= i < |trace| :: trace[i].Sent?
  }

  lemma {:induction false} UntilKeyStops(sent: seq<Effect>, rest: seq<Effect>)
    requires AllSent(sent) && (rest == [] || !rest[0].Sent?)
    ensures UntilKey(sent + rest) == sent
  {
    if sent == [] {
      assert sent + rest == rest;
    } else {
      assert (sent + rest)[1..] == sent[1..] + rest;
      UntilKeyStops(sent[1..], rest);
    }
  }

  /** What has been sent stays sent. */
  lemma {:induction false} TraceGrows(h: Handler, ctx: Context, events: seq<ExecEvent>)
    ensures h.trace <= OnEvents(h, ctx, events).trace
  {
    if events != [] {
      TraceGrows(h, ctx, events[..|events| - 1]);
    }
  }

  lemma FinalBreaksOff(ctx: Context, run: ExecRun, i: nat)
    requires i < |run.events| && run.events[i].FinalEvent?
    requires AllSent(OnEvents(IDLE, ctx, run.events[..i]).trace)
    ensures UntilKey(TraceOf(ctx, run)) == OnEvents(IDLE, ctx, run.events[..i]).trace
  {
    var h := OnEvents(IDLE, ctx, run.events[..i]);
    var closed := OnEvent(h, ctx, run.events[i]);
    var rest := run.events[i + 1..];
    assert run.events[..i + 1][..i] == run.events[..i];
    assert run.events == run.events[..i + 1] + rest;
    OnEventsAppend(IDLE, ctx, run.events[..i + 1], rest);
    TraceGrows(closed, ctx, rest);
    var trace := TraceOf(ctx, run);
    assert closed.trace <= trace;
    assert trace == h.trace + trace[|h.trace|..];
    assert trace[|h.trace|] == closed.trace[|h.trace|];
    UntilKeyStops(h.trace, trace[|h.trace|..]);
  }

  lemma FailureBreaksOff(ctx: Context, run: ExecRun)
    requires AllSent(OnEvents(IDLE, ctx, run.events).trace)
    ensures UntilKey(TraceOf(ctx, run)) == OnEvents(IDLE, ctx, run.events).trace
  {
    var h := OnEvents(IDLE, ctx, run.events);
    var trace := TraceOf(ctx, run);
    assert trace == h.trace + trace[|h.trace|..];
    UntilKeyStops(h.trace, trace[|h.trace|..]);
  }

  /** The branch for a status event. */
  method SendOpening(ctx: Context, message: Reply, number: nat, sent: seq<Effect>) returns (next: nat,
                     trace: seq<Effect>)
    ensures var h := OnEvent(Handler(number, None, sent), ctx, StatusEvent(message));
            next == h.number && trace == h.trace
  {
    next := number;
    var response := Envelope(ctx, InProgressStatus, None);
    trace := [Sent(Created(next, response))];
    next := next + 1;
    trace := trace + [Sent(InProgress(next, response))];
    next := next + 1;
    trace := trace + [Sent(ItemAdded(next, OutputItem(message, InProgressStatus)))];
    next := next + 1;
    trace := trace + [Sent(PartAdded(next, message.id, ""))];
    next := next + 1;
    trace := sent + trace;
  }

  /** The branch for the final event: the key is completed before any closing event is sent. */
  method SendClosing(ctx: Context, result: Reply, number: nat, sent: seq<Effect>) returns (next: nat,
                     trace: seq<Effect>)
    ensures var h := OnEvent(Handler(number, None, sent), ctx, FinalEvent(result));
            next == h.number && trace == h.trace
  {
    next := number;
    var response := Envelope(ctx, CompletedStatus, Some(result));
    trace := [KeyCompleted(response)];
    var answer := ReplyText(result);
    trace := trace + [Sent(TextDone(next, result.id, answer))];
    next := next + 1;
    var item := OutputItem(result, CompletedStatus);
    trace := trace + [Sent(PartDone(next, result.id, item.text))];
    next := next + 1;
    trace := trace + [Sent(ItemDone(next, item))];
    next := next + 1;
    trace := trace + [Sent(Completed(next, response))];
    trace := sent + trace;
  }

  /** The two `except` branches: the key is failed before the closing events. */
  method SendFailure(ctx: Context, active: Option<Reply>, failure: Failure, number: nat, sent: seq<Effect>)
    returns (trace: seq<Effect>)
    ensures trace == OnFailure(Handler(number, active, sent), ctx, failure).trace
  {
    var next := number;
    trace := sent + [KeyFailed(StoredError(failure))];
    if active.Some? {
      trace := trace + [Sent(FailedEvent(next, Envelope(ctx, FailedStatus, active)))];
      next := next + 1;
    }
    trace := trace + [Sent(ErrorEvent(next, StoredError(failure).code))];
  }

  // ---------------------------------------------------------------- grammar

  /** Where a stream stands. */
  datatype Mark =
    | Start | SawCreated | SawInProgress | SawItem | Body
    | SawText | SawPart | SawItemDone | Finished | SawFailed | Closed

  /** The grammar, one event at a time. */
  function Step(mark: Mark, event: WireEvent): Option<Mark> {
    match (mark, event)
    case (Start, Created(_, _)) => Some(SawCreated)
    case (SawCreated, InProgress(_, _)) => Some(SawInProgress)
    case (SawInProgress, ItemAdded(_, _)) => Some(SawItem)
    case (SawItem, PartAdded(_, _, _)) => Some(Body)
    case (Body, Delta(_, _, _)) => Some(Body)
    case (Body, TextDone(_, _, _)) => Some(SawText)
    case (SawText, PartDone(_, _, _)) => Some(SawPart)
    case (SawPart, ItemDone(_, _)) => Some(SawItemDone)
    case (SawItemDone, Completed(_, _)) => Some(Finished)
    case (Body, FailedEvent(_, _)) => Some(SawFailed)
    case (Start, ErrorEvent(_, _)) => Some(Closed)
    case (SawFailed, ErrorEvent(_, _)) => Some(Closed)
    case _ => None
  }

  function Parse(mark: Mark, events: seq<WireEvent>): Option<Mark>
    decreases |events|
  {
    if events == [] then Some(mark)
    else
      var next := Step(mark, events[0]);
      if next.None? then None else Parse(next.value, events[1..])
  }

  /** The events of a trace. */
  function Events(trace: seq<Effect>): seq<WireEvent> {
    if trace == [] then []
    else if trace[0].Sent? then [trace[0].event] + Events(trace[1..])
    else Events(trace[1..])
  }

  predicate Numbered(events: seq<WireEvent>) {
    forall i | 0 <= i < |events| :: events[i].number == i
  }

  lemma {:induction false} EventsAppend(a: seq<Effect>, b: seq<Effect>)
    ensures Events(a + b) == Events(a) + Events(b)
  {
    if a == [] {
      assert a + b == b;
    } else {
      assert (a + b)[1..] == a[1..] + b;
      EventsAppend(a[1..], b);
    }
  }

  lemma {:induction false} ParseAppend(mark: Mark, a: seq<WireEvent>, b: seq<WireEvent>)
    ensures Parse(mark, a + b) == (if Parse(mark, a).None? then None else Parse(Parse(mark, a).value, b))
    decreases |a|
  {
    if a == [] {
      assert a + b == b;
    } else {
      assert (a + b)[1..] == a[1..] + b;
      if Step(mark, a[0]).Some? {
        ParseAppend(Step(mark, a[0]).value, a[1..], b);
      }
    }
  }

  lemma ParseCons(mark: Mark, event: WireEvent, rest: seq<WireEvent>)
    requires Step(mark, event).Some?
    ensures Parse(mark, [event] + rest) == Parse(Step(mark, event).value, rest)
  {
    assert ([event] + rest)[1..] == rest;
  }

  // ---------------------------------------------------------------- the stream of any execution

  /** The events after which nothing more is generated. */
  predicate Closing(event: WireEvent) {
    event.TextDone? || event.PartDone? || event.ItemDone? || event.Completed? || event.FailedEvent? || event.ErrorEvent?
  }

  /** The deltas a client sees. */
  function DeltasSeen(events: seq<WireEvent>): seq<string> {
    if events == [] then []
    else if events[0].Delta? then [events[0].delta] + DeltasSeen(events[1..])
    else DeltasSeen(events[1..])
  }

  lemma {:induction false} DeltasSeenAppend(a: seq<WireEvent>, b: seq<WireEvent>)
    ensures DeltasSeen(a + b) == DeltasSeen(a) + DeltasSeen(b)
  {
    if a == [] {
      assert a + b == b;
    } else {
      assert (a + b)[1..] == a[1..] + b;
      DeltasSeenAppend(a[1..], b);
    }
  }

  /** The handler has opened the response and sent these deltas; nothing is finalised. */
  ghost predicate InBody(h: Handler, itemId: nat, deltas: seq<string>) {
    var events := Events(h.trace);
    && h.active == Some(Reply(itemId, None))
    && h.number == |events|
    && Numbered(events)
    && Parse(Start, events) == Some(Body)
    && DeltasSeen(events) == deltas
    && AllOpen(h.trace)
  }

  ghost predicate AllOpen(trace: seq<Effect>) {
    forall i | 0 <= i < |trace| :: trace[i].Sent? && !Closing(trace[i].event)
  }

  lemma Four(a: WireEvent, b: WireEvent, c: WireEvent, d: WireEvent)
    ensures Events([Sent(a), Sent(b), Sent(c), Sent(d)]) == [a, b, c, d]
  {
    var e := [Sent(a), Sent(b), Sent(c), Sent(d)];
    assert e == [Sent(a)] + ([Sent(b)] + ([Sent(c)] + [Sent(d)]));
    EventsAppend([Sent(a)], [Sent(b)] + ([Sent(c)] + [Sent(d)]));
    EventsAppend([Sent(b)], [Sent(c)] + [Sent(d)]);
    EventsAppend([Sent(c)], [Sent(d)]);
  }

  lemma ParseFour(mark: Mark, a: WireEvent, b: WireEvent, c: WireEvent, d: WireEvent)
    requires Step(mark, a).Some? && Step(Step(mark, a).value, b).Some?
    requires Step(Step(Step(mark, a).value, b).value, c).Some?
    ensures Parse(mark, [a, b, c, d]) == Step(Step(Step(Step(mark, a).value, b).value, c).value, d)
  {
    assert [a, b, c, d] == [a] + ([b] + ([c] + ([d] + [])));
    ParseCons(mark, a, [b] + ([c] + ([d] + [])));
    ParseCons(Step(mark, a).value, b, [c] + ([d] + []));
    ParseCons(Step(Step(mark, a).value, b).value, c, [d] + []);
  }

  lemma OpenedByFour(h: Handler, itemId: nat, a: WireEvent, b: WireEvent, c: WireEvent, d: WireEvent)
    requires h.active == Some(Reply(itemId, None)) && h.number == 4
    requires h.trace == [Sent(a), Sent(b), Sent(c), Sent(d)]
    requires a.Created? && b.InProgress? && c.ItemAdded? && d.PartAdded?
    requires a.number == 0 && b.number == 1 && c.number == 2 && d.number == 3
    ensures InBody(h, itemId, [])
  {
    Four(a, b, c, d);
    ParseFour(Start, a, b, c, d);
    FourDeltas(a, b, c, d);
  }

  lemma FourDeltas(a: WireEvent, b: WireEvent, c: WireEvent, d: WireEvent)
    requires !a.Delta? && !b.Delta? && !c.Delta? && !d.Delta?
    ensures DeltasSeen([a, b, c, d]) == []
  {
    assert [a, b, c, d] == [a] + ([b] + ([c] + [d]));
    DeltasSeenAppend([a], [b] + ([c] + [d]));
    DeltasSeenAppend([b], [c] + [d]);
    DeltasSeenAppend([c], [d]);
  }

  lemma OpeningInBody(ctx: Context, itemId: nat)
    ensures InBody(OnEvent(IDLE, ctx, StatusEvent(Reply(itemId, None))), itemId, [])
  {
    var h := OnEvent(IDLE, ctx, StatusEvent(Reply(itemId, None)));
    var response := Envelope(ctx, InProgressStatus, None);
    var item := OutputItem(Reply(itemId, None), InProgressStatus);
    assert h.trace == [] + [Sent(Created(0, response)), Sent(InProgress(1, response)),
                            Sent(ItemAdded(2, item)), Sent(PartAdded(3, itemId, ""))];
    OpenedByFour(h, itemId, Created(0, response), InProgress(1, response), ItemAdded(2, item), PartAdded(3, itemId,
      ""));
  }

  lemma {:induction false} NoDeltas(events: seq<WireEvent>)
    requires forall e | e in events :: !e.Delta?
    ensures DeltasSeen(events) == []
  {
    if events != [] {
      assert events[0] in events;
      NoDeltas(events[1..]);
    }
  }

  lemma DeltaStaysInBody(h: Handler, ctx: Context, itemId: nat, deltas: seq<string>, delta: string)
    requires InBody(h, itemId, deltas)
    ensures InBody(OnEvent(h, ctx, TokenEvent(itemId, delta)), itemId, deltas + [delta])
  {
    var event := Delta(h.number, itemId, delta);
    EventsAppend(h.trace, [Sent(event)]);
    assert Events([Sent(event)]) == [event];
    ParseAppend(Start, Events(h.trace), [event]);
    DeltasSeenAppend(Events(h.trace), [event]);
    assert DeltasSeen([event]) == [delta];
  }

  lemma {:induction false} TokensStayInBody(h: Handler, ctx: Context, itemId: nat, deltas: seq<string>,
                                            tokens: seq<string>)
    requires InBody(h, itemId, deltas)
    ensures InBody(OnEvents(h, ctx, TokenEventsOf(itemId, tokens)), itemId, deltas + tokens)
    decreases |tokens|
  {
    if tokens == [] {
      assert deltas + tokens == deltas;
    } else {
      DeltaStaysInBody(h, ctx, itemId, deltas, tokens[0]);
      TokensStayInBody(OnEvent(h, ctx, TokenEvent(itemId, tokens[0])), ctx, itemId, deltas + [tokens[0]], tokens[1..]);
      assert deltas + [tokens[0]] + tokens[1..] == deltas + tokens;
      OnEventsAppend(h, ctx, [TokenEvent(itemId, tokens[0])], TokenEventsOf(itemId, tokens[1..]));
      OneEvent(h, ctx, TokenEvent(itemId, tokens[0]));
    }
  }

  lemma OneEvent(h: Handler, ctx: Context, event: ExecEvent)
    ensures OnEvents(h, ctx, [event]) == OnEvent(h, ctx, event)
  {
    assert [event][..0] == [];
  }

  lemma {:induction false} OnEventsAppend(h: Handler, ctx: Context, a: seq<ExecEvent>, b: seq<ExecEvent>)
    ensures OnEvents(h, ctx, a + b) == OnEvents(OnEvents(h, ctx, a), ctx, b)
    decreases |b|
  {
    if b == [] {
      assert a + b == a;
    } else {
      assert (a + b)[..|a + b| - 1] == a + b[..|b| - 1];
      OnEventsAppend(h, ctx, a, b[..|b| - 1]);
    }
  }

  // ---------------------------------------------------------------- closing

  /** A finished handler: one finalisation, every body event before it and every closing event after it. */
  ghost predicate FinalisedOnce(trace: seq<Effect>, success: bool) {
    exists k: nat ::
      && k < |trace|
      && (if success then trace[k].KeyCompleted? else trace[k].KeyFailed?)
      && (forall i | 0 <= i < k :: trace[i].Sent? && !Closing(trace[i].event))
      && (forall i | k < i < |trace| :: trace[i].Sent? && Closing(trace[i].event))
  }

  /** The texts a successful stream closes with: the done text, the done part, the item and the response. */
  function ClosingTexts(events: seq<WireEvent>): seq<string> {
    if events == [] then []
    else ClosingText(events[0]) + ClosingTexts(events[1..])
  }

  function ClosingText(event: WireEvent): seq<string> {
    match event
    case TextDone(_, _, text) => [text]
    case PartDone(_, _, text) => [text]
    case ItemDone(_, item) => [item.text]
    case Completed(_, response) => OutputTexts(response)
    case FailedEvent(_, response) => OutputTexts(response)
    case _ => []
  }

  function OutputTexts(response: Response): seq<string> {
    seq(|response.output|, i requires 0 <= i < |response.output| => response.output[i].text)
  }

  lemma {:induction false} ClosingTextsAppend(a: seq<WireEvent>, b: seq<WireEvent>)
    ensures ClosingTexts(a + b) == ClosingTexts(a) + ClosingTexts(b)
  {
    if a == [] {
      assert a + b == b;
    } else {
      assert (a + b)[1..] == a[1..] + b;
      ClosingTextsAppend(a[1..], b);
    }
  }

  lemma {:induction false} NoClosingTexts(events: seq<WireEvent>)
    requires forall e | e in events :: !Closing(e)
    ensures ClosingTexts(events) == []
  {
    if events != [] {
      assert events[0] in events;
      NoClosingTexts(events[1..]);
    }
  }

  lemma {:induction false} EventsIn(trace: seq<Effect>, e: WireEvent)
    requires e in Events(trace)
    ensures Sent(e) in trace
  {
    if trace[0] != Sent(e) {
      EventsIn(trace[1..], e);
    }
  }

  lemma TailEvents(h: Handler, itemId: nat, deltas: seq<string>, key: Effect, tail: seq<WireEvent>, sent: seq<Effect>)
    requires InBody(h, itemId, deltas) && !key.Sent? && Events(sent) == tail
    requires forall i | 0 <= i < |tail| :: tail[i].number == h.number + i
    ensures var trace := h.trace + [key] + sent;
            && Events(trace) == Events(h.trace) + tail
            && Numbered(Events(trace))
            && Parse(Start, Events(trace)) == Parse(Body, tail)
  {
    EventsAppend(h.trace + [key], sent);
    EventsAppend(h.trace, [key]);
    assert Events([key]) == [];
    ParseAppend(Start, Events(h.trace), tail);
  }

  lemma {:induction false} TailTexts(h: Handler, itemId: nat, deltas: seq<string>, tail: seq<WireEvent>)
    requires InBody(h, itemId, deltas)
    requires forall i | 0 <= i < |tail| :: Closing(tail[i])
    ensures DeltasSeen(Events(h.trace) + tail) == deltas
    ensures forall i | 0 <= i < |Events(h.trace)| :: !Closing(Events(h.trace)[i])
    ensures ClosingTexts(Events(h.trace) + tail) == ClosingTexts(tail)
  {
    var events := Events(h.trace);
    DeltasSeenAppend(events, tail);
    NoDeltas(tail);
    ClosingTextsAppend(events, tail);
    forall e | e in events
      ensures !Closing(e)
    {
      EventsIn(h.trace, e);
    }
    NoClosingTexts(events);
  }

  /** What the closing tail adds to a body. */
  lemma {:induction false} TailCloses(h: Handler, itemId: nat, deltas: seq<string>, key: Effect, tail: seq<WireEvent>,
                                      sent: seq<Effect>, success: bool)
    requires InBody(h, itemId, deltas)
    requires if success then key.KeyCompleted? else key.KeyFailed?
    requires Events(sent) == tail && (forall i | 0 <= i < |sent| :: sent[i].Sent? && Closing(sent[i].event))
    requires forall i | 0 <= i < |tail| :: tail[i].number == h.number + i && Closing(tail[i])
    ensures var trace := h.trace + [key] + sent;
            && Numbered(Events(trace))
            && Parse(Start, Events(trace)) == Parse(Body, tail)
            && DeltasSeen(Events(trace)) == deltas
            && ClosingTexts(Events(trace)) == ClosingTexts(tail)
            && FinalisedOnce(trace, success)
            && Events(trace) == Events(h.trace) + tail
            && (forall i | 0 <= i < |Events(h.trace)| :: !Closing(Events(h.trace)[i]))
  {
    TailEvents(h, itemId, deltas, key, tail, sent);
    TailTexts(h, itemId, deltas, tail);
    TailFinalises(h.trace, key, sent, success);
  }

  lemma TailFinalises(before: seq<Effect>, key: Effect, sent: seq<Effect>, success: bool)
    requires AllOpen(before)
    requires if success then key.KeyCompleted? else key.KeyFailed?
    requires forall i | 0 <= i < |sent| :: sent[i].Sent? && Closing(sent[i].event)
    ensures FinalisedOnce(before + [key] + sent, success)
  {
    var trace := before + [key] + sent;
    var k := |before|;
    assert trace[k] == key;
    forall i | 0 <= i < k
      ensures trace[i].Sent? && !Closing(trace[i].event)
    {
      assert trace[i] == before[i];
    }
    forall i | k < i < |trace|
      ensures trace[i].Sent? && Closing(trace[i].event)
    {
      assert trace[i] == sent[i - k - 1];
    }
  }

  /** Everything a successful stream says, given what its graph produced. */
  ghost predicate Succeeds(trace: seq<Effect>, deltas: seq<string>, answer: string) {
    var events := Events(trace);
    && Numbered(events)
    && Parse(Start, events) == Some(Finished)
    && DeltasSeen(events) == deltas
    && ClosingTexts(events) == [answer, answer, answer, answer]
    && FinalisedOnce(trace, true)
    && (forall e | e in trace && e.KeyCompleted? :: OutputTexts(e.snapshot) == [answer])
  }

  lemma FinalCloses(h: Handler, ctx: Context, itemId: nat, deltas: seq<string>, answer: string)
    requires InBody(h, itemId, deltas)
    ensures Succeeds(OnEvent(h, ctx, FinalEvent(Reply(itemId, Some(answer)))).trace, deltas, answer)
  {
    var n := h.number;
    var result := Reply(itemId, Some(answer));
    var response := Envelope(ctx, CompletedStatus, Some(result));
    var item := OutputItem(result, CompletedStatus);
    ClosesWithFour(h, itemId, deltas, answer, response, item);
    assert OnEvent(h, ctx, FinalEvent(result)).trace
        == h.trace + [KeyCompleted(response)]
           + [Sent(TextDone(n, itemId, answer)), Sent(PartDone(n + 1, itemId, answer)),
              Sent(ItemDone(n + 2, item)), Sent(Completed(n + 3, response))];
  }

  lemma ClosesWithFour(h: Handler, itemId: nat, deltas: seq<string>, answer: string, response: Response, item: Item)
    requires InBody(h, itemId, deltas)
    requires item.text == answer && OutputTexts(response) == [answer]
    ensures var n := h.number;
            Succeeds(h.trace + [KeyCompleted(response)]
              + [Sent(TextDone(n, itemId, answer)), Sent(PartDone(n + 1, itemId, answer)),
                 Sent(ItemDone(n + 2, item)), Sent(Completed(n + 3, response))], deltas, answer)
  {
    hide FinalisedOnce, DeltasSeen;
    var n := h.number;
    var a, b := TextDone(n, itemId, answer), PartDone(n + 1, itemId, answer);
    var c, d := ItemDone(n + 2, item), Completed(n + 3, response);
    Four(a, b, c, d);
    ParseFour(Body, a, b, c, d);
    FourTexts(a, b, c, d, answer);
    TailCloses(h, itemId, deltas, KeyCompleted(response), [a, b, c, d], [Sent(a), Sent(b), Sent(c), Sent(d)], true);
  }

  lemma FourTexts(a: WireEvent, b: WireEvent, c: WireEvent, d: WireEvent, text: string)
    requires ClosingText(a) == ClosingText(b) == ClosingText(c) == ClosingText(d) == [text]
    ensures ClosingTexts([a, b, c, d]) == [text, text, text, text]
  {
    assert [a, b, c, d] == [a] + ([b] + ([c] + [d]));
    ClosingTextsAppend([a], [b] + ([c] + [d]));
    ClosingTextsAppend([b], [c] + [d]);
    ClosingTextsAppend([c], [d]);
  }

  /**
    Everything a failed stream says: the response failed without text, then, once and last, the error. Its code is
    that of the error the key stores: the expected error itself, or the internal one.
   */
  ghost predicate Fails(trace: seq<Effect>, deltas: seq<string>, failure: Failure) {
    var events := Events(trace);
    var error := if failure.Expected? then failure.error else ApiError(500, "internal_error");
    && Numbered(events)
    && Parse(Start, events) == Some(Closed)
    && DeltasSeen(events) == deltas
    && (forall text | text in ClosingTexts(events) :: text == "")
    && FinalisedOnce(trace, false)
    && (forall e | e in trace && e.KeyFailed? :: e.error == error)
    && events != [] && events[|events| - 1] == ErrorEvent(|events| - 1, error.code)
    && (forall i | 0 <= i < |events| - 1 :: !events[i].ErrorEvent?)
  }

  lemma FailedThenError(a: WireEvent, b: WireEvent)
    requires a.FailedEvent? && b.ErrorEvent?
    ensures Events([Sent(a), Sent(b)]) == [a, b]
    ensures Parse(Body, [a, b]) == Some(Closed)
    ensures ClosingTexts([a, b]) == ClosingText(a) + ClosingText(b)
  {
    EventsAppend([Sent(a)], [Sent(b)]);
    assert [Sent(a), Sent(b)] == [Sent(a)] + [Sent(b)] && [a, b] == [a] + ([b] + []);
    ParseCons(Body, a, [b] + []);
    ParseCons(SawFailed, b, []);
    ClosingTextsAppend([a], [b]);
    assert [a, b] == [a] + [b];
  }

  lemma FailureCloses(h: Handler, ctx: Context, itemId: nat, deltas: seq<string>, failure: Failure)
    requires InBody(h, itemId, deltas)
    ensures Fails(OnFailure(h, ctx, failure).trace, deltas, failure)
  {
    hide FinalisedOnce, DeltasSeen, Parse, Numbered, ClosingTexts;
    var n := h.number;
    var a, b := FailedEvent(n, Envelope(ctx, FailedStatus, h.active)), ErrorEvent(n + 1, StoredError(failure).code);
    var key := KeyFailed(StoredError(failure));
    FailedThenError(a, b);
    TailCloses(h, itemId, deltas, key, [a, b], [Sent(a), Sent(b)], false);
    assert OnFailure(h, ctx, failure).trace == h.trace + [key] + [Sent(a), Sent(b)];
  }

  lemma NeverOpened(ctx: Context, failure: Failure)
    ensures Fails(OnFailure(IDLE, ctx, failure).trace, [], failure)
    ensures Events(OnFailure(IDLE, ctx, failure).trace) == [ErrorEvent(0, StoredError(failure).code)]
  {
    var key := KeyFailed(StoredError(failure));
    var trace := OnFailure(IDLE, ctx, failure).trace;
    var error := ErrorEvent(0, StoredError(failure).code);
    assert trace == [] + [key] + [Sent(error)];
    EventsAppend([key], [Sent(error)]);
    assert Events([key]) == [] && Events([Sent(error)]) == [error];
    assert [error] == [error] + [];
    ParseCons(Start, error, []);
    TailFinalises([], key, [Sent(error)], false);
  }

  // ---------------------------------------------------------------- every execution

  /**
    For every opening and every graph run the events are numbered 0, 1, 2, ... and spell the grammar; the key is
    finalised once, before the first closing event; the deltas sent are those the service keeps; a success closes
    with the answer four times, and the snapshot and the stored reply are that answer; a failure closes without
    text, and the reply is stored failed.
   */
  lemma StreamOfExecution(ctx: Context, opening: Result<nat, Failure>, graph: GraphRun)
    ensures var run := Executed(opening, graph);
            var trace := TraceOf(ctx, run);
            var deltas := Kept(graph.updates);
            if opening.Err? then
              && Fails(trace, [], opening.error) && run.stored == NotOpened
              && Events(trace) == [ErrorEvent(0, StoredError(opening.error).code)]
            else if graph.outcome.Err? then Fails(trace, deltas, graph.outcome.error) && run.stored == StoredFailed
            else Succeeds(trace, deltas, graph.outcome.value) && run.stored == StoredComplete(graph.outcome.value)
  {
    match opening {
      case Err(failure) =>
        NeverOpened(ctx, failure);
      case Ok(itemId) =>
        KeptBecomeEvents(itemId, graph.updates);
        OpenedStream(ctx, itemId, Kept(graph.updates), graph.outcome);
    }
  }

  lemma OpenedStream(ctx: Context, itemId: nat, tokens: seq<string>, outcome: Result<string, Failure>)
    ensures var status := [StatusEvent(Reply(itemId, None))] + TokenEventsOf(itemId, tokens);
            if outcome.Ok? then
              Succeeds(OnEvents(IDLE, ctx, status + [FinalEvent(Reply(itemId, Some(outcome.value)))]).trace, tokens,
                outcome.value)
            else Fails(OnFailure(OnEvents(IDLE, ctx, status), ctx, outcome.error).trace, tokens, outcome.error)
  {
    var status := [StatusEvent(Reply(itemId, None))] + TokenEventsOf(itemId, tokens);
    OpenedBody(ctx, itemId, tokens);
    var h := OnEvents(IDLE, ctx, status);
    match outcome {
      case Ok(answer) =>
        OnEventsAppend(IDLE, ctx, status, [FinalEvent(Reply(itemId, Some(answer)))]);
        OneEvent(h, ctx, FinalEvent(Reply(itemId, Some(answer))));
        FinalCloses(h, ctx, itemId, tokens, answer);
      case Err(failure) =>
        FailureCloses(h, ctx, itemId, tokens, failure);
    }
  }

  /** A stream that breaks off in its body: these deltas, and neither a closing event nor a finalisation. */
  ghost predicate BreaksOff(trace: seq<Effect>, deltas: seq<string>) {
    var events := Events(trace);
    && Numbered(events)
    && Parse(Start, events) == Some(Body)
    && DeltasSeen(events) == deltas
    && AllOpen(trace)
  }

  /**
    When the row of the key is gone by the end of an opened turn, the client has seen the opening and all deltas, and
    then the stream breaks off; if the turn never opened, the client sees nothing.
   */
  lemma LostRowBreaksOff(ctx: Context, opening: Result<nat, Failure>, graph: GraphRun)
    ensures var trace := UntilKey(TraceOf(ctx, Executed(opening, graph)));
            if opening.Err? then trace == [] else BreaksOff(trace, Kept(graph.updates))
  {
    match opening {
      case Err(failure) =>
        FailureBreaksOff(ctx, Executed(opening, graph));
      case Ok(itemId) =>
        KeptBecomeEvents(itemId, graph.updates);
        var run := Executed(opening, graph);
        var body := [StatusEvent(Reply(itemId, None))] + TokenEventsOf(itemId, Kept(graph.updates));
        OpenedBody(ctx, itemId, Kept(graph.updates));
        if graph.outcome.Ok? {
          assert run.events[..|body|] == body;
          FinalBreaksOff(ctx, run, |body|);
        } else {
          FailureBreaksOff(ctx, run);
        }
    }
  }

  lemma OpenedBody(ctx: Context, itemId: nat, tokens: seq<string>)
    ensures InBody(OnEvents(IDLE, ctx, [StatusEvent(Reply(itemId, None))] + TokenEventsOf(itemId, tokens)), itemId,
              tokens)
  {
    var first := StatusEvent(Reply(itemId, None));
    OnEventsAppend(IDLE, ctx, [first], TokenEventsOf(itemId, tokens));
    OneEvent(IDLE, ctx, first);
    OpeningInBody(ctx, itemId);
    TokensStayInBody(OnEvent(IDLE, ctx, first), ctx, itemId, [], tokens);
    assert [] + tokens == tokens;
  }

  /** A client that stops reading has seen a legal beginning, still numbered without gap. */
  lemma PrefixesAreLegal(events: seq<WireEvent>, seen: nat)
    requires seen <= |events| && Numbered(events) && Parse(Start, events).Some?
    ensures Numbered(events[..seen]) && Parse(Start, events[..seen]).Some?
  {
    assert events == events[..seen] + events[seen..];
    ParseAppend(Start, events[..seen], events[seen..]);
  }

  /**
    End to end, for every list of model chunks: on success the client's deltas concatenate to the text of the
    done event, the finished part, the item, the response, the idempotency snapshot and the stored message,
    except that without any delta all of these are the fallback sentence. On failure the client has seen the
    deltas up to the failure, and nothing is stored.
   */
  lemma TextAgrees(ctx: Context, itemId: nat, model: ModelRun)
    ensures var run := Executed(Ok(itemId), GraphOf(StreamedBy(model)));
            var trace := TraceOf(ctx, run);
            var seen := DeltasSeen(Events(trace));
            var answer := if seen == [] then FALLBACK else Concat(seen);
            && seen == Deltas(model.chunks)
            && (model.failure.None? ==> Succeeds(trace, seen, answer) && run.stored == StoredComplete(answer))
            && (model.failure.Some? ==> Fails(trace, seen, model.failure.value) && run.stored == StoredFailed)
  {
    AnswerOfDeltas(model.chunks);
    ModelTokensSurvive(model);
    StreamOfExecution(ctx, Ok(itemId), GraphOf(StreamedBy(model)));
  }
}
