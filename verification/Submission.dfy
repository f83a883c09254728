/**
  Many submissions interleaving over one database.

  A request moves through phases, one per transaction of `submit_message` and the
  services below it; between two phases any other request may run, the clock may
  advance, and the request may stop for good. A run of the system is a list of
  actions; an action that is not enabled changes nothing.
 */
module Submission {
  import opened Wrappers
  import opened Text
  import opened Agent
  import opened Transcript
  import opened Idempotency
  import T = Threads

  datatype Submission = Submission(
    user: UserId, httpMethod: string, route: Route, rawKey: Option<string>, payload: Payload)

  /** How a request left the service. */
  datatype Outcome =
    | Refused(error: ApiError)
    | Crashed
    | Replayed(status: int, snapshot: Snapshot)
    | Answered(run: RunId, text: string)
    | FailedWith(failure: Failure)

  datatype Phase =
    | Arrived                                                    // authorized, key valid
    | Looked(expiresAt: Time)                                    // no valid record found: about to insert
    | Lost                                                       // insert refused: about to read again
    | Reserved(rec: RecId)                                       // about to call execute or stream
    | Opened(rec: RecId, turn: Turn)                             // turn committed, graph not yet started
    | Invoked(rec: RecId, turn: Turn, loaded: seq<GraphMessage>) // graph started with these messages in memory
    | Finished(rec: RecId, turn: Turn, answer: string)           // graph finished
    | Closed(rec: RecId, run: RunId, text: string)               // turn completed: about to complete the key
    | Broken(rec: RecId, failure: Failure)                       // turn failed: about to fail the key
    | Ended(outcome: Outcome)
    | Stopped                                                    // client gone, task cancelled or process lost

  /** `counter` is the message counter of the conversation object the request read when it arrived. */
  datatype Request = Request(submission: Submission, key: Key, counter: nat, phase: Phase)

  /** History entries. */
  datatype Start = Start(request: ReqId, rec: RecId, key: Key, at: Time)

  datatype Replay = Replay(request: ReqId, rec: RecId, key: Key, fingerprint: Payload, final: Final, at: Time)

  datatype Call = Call(conversation: ConvId, turn: nat, input: seq<ChatMessage>)

  datatype State = State(
    now: Time,
    registry: Registry,
    world: T.World,
    requests: map<ReqId, Request>,
    starts: seq<Start>,
    replays: seq<Replay>,
    calls: seq<Call>)

  datatype Action =
    | CreateConversation(c: ConvId, owner: UserId)
    | DeleteConversation(c: ConvId)
    | Arrive(q: ReqId, submission: Submission)
    | Lookup(q: ReqId)
    | Insert(q: ReqId)
    | Reread(q: ReqId)
    | Open(q: ReqId)
    | Invoke(q: ReqId)
    | Finish(q: ReqId, answer: string)
    | Close(q: ReqId)
    | Break(q: ReqId, failure: Failure)
    | Settle(q: ReqId)
    | Stop(q: ReqId)
    | Tick(elapsed: nat)

  const INITIAL := State(0, Registry(map[], map[], map[], 0), T.World(Tables(map[], map[], map[]), map[], map[], 0),
    map[], [], [], [])

  const NOT_FOUND := ApiError(404, "conversation_not_found")
  const MISSING_KEY := ApiError(400, "missing_idempotency_key")
  const NOT_TEXT := ApiError(422, "input_content_not_supported")

  // ---------------------------------------------------------------- one request, step by step

  function Texts(parts: seq<Part>): seq<string> {
    if parts == [] then []
    else (if parts[0].InputText? then [parts[0].text] else []) + Texts(parts[1..])
  }

  function RenderedText(submission: Submission): string {
    Join("\n", Texts(submission.payload.parts))
  }

  predicate TextOnly(payload: Payload) {
    forall p | p in payload.parts :: p.InputText?
  }

  function KeyOf(submission: Submission): Key {
    var raw := if submission.rawKey.Some? then submission.rawKey.value else "";
    Key(submission.user, submission.httpMethod, submission.route, Strip(raw))
  }

  function Conv(request: Request): ConvId {
    request.submission.route.conversation
  }

  /** The checks made before any table is written, in their order. */
  function Admission(s: State, submission: Submission): Option<ApiError> {
    var c := submission.route.conversation;
    var conversations := s.world.tables.conversations;
    if c !in conversations || conversations[c].deleted || conversations[c].owner != submission.user then Some(NOT_FOUND)
    else if submission.rawKey.None? then Some(MISSING_KEY)
    else if !TextOnly(submission.payload) then Some(NOT_TEXT)
    else if NormalizeKey(submission.rawKey.value).None? then Some(INVALID_KEY)
    else None
  }

  function Moved(s: State, q: ReqId, phase: Phase): map<ReqId, Request>
    requires q in s.requests
  {
    s.requests[q := s.requests[q].(phase := phase)]
  }

  function DoArrive(s: State, q: ReqId, submission: Submission): State {
    if q in s.requests then s
    else
      var refusal := Admission(s, submission);
      var c := submission.route.conversation;
      if refusal.Some? then
        s.(requests := s.requests[q := Request(submission, KeyOf(submission), 0, Ended(Refused(refusal.value)))])
      else
        s.(requests := s.requests[q :=
             Request(submission, KeyOf(submission), s.world.tables.conversations[c].latest, Arrived)])
  }

  /** A request answered from a stored record ends, with a 409 or a replay. */
  function Answer(s: State, q: ReqId, answer: Result<Record, ApiError>): State
    requires q in s.requests
  {
    match answer
    case Err(error) => s.(requests := Moved(s, q, Ended(Refused(error))))
    case Ok(record) =>
      if record.responseStatus.None? || record.snapshot.None? then s
      else
        var final := Final(record.responseStatus.value, record.snapshot.value);
        s.(requests := Moved(s, q, Ended(Replayed(final.status, final.snapshot))),
           replays := s.replays + [Replay(q, record.id, s.requests[q].key, s.requests[q].submission.payload, final,
             s.now)])
  }

  function DoLookup(s: State, q: ReqId): State {
    if q !in s.requests || !s.requests[q].phase.Arrived? then s
    else
      var r := s.requests[q];
      var answer := LookupAnswer(s.registry.keys, r.key, r.submission.payload, s.now);
      if answer.Some? then Answer(s, q, answer.value)
      else s.(registry := LookupCommit(s.registry, r.key, s.now), requests := Moved(s, q, Looked(s.now + RETENTION)))
  }

  function DoInsert(s: State, q: ReqId): State {
    if q !in s.requests || !s.requests[q].phase.Looked? then s
    else
      var r := s.requests[q];
      if r.key in s.registry.keys then s.(requests := Moved(s, q, Lost))
      else
        s.(registry := ReserveCommit(s.registry, r.key, r.submission.payload, q, s.now, r.phase.expiresAt),
           requests := Moved(s, q, Reserved(s.registry.nextRecord)))
  }

  function DoReread(s: State, q: ReqId): State {
    if q !in s.requests || !s.requests[q].phase.Lost? then s
    else
      var r := s.requests[q];
      var answer := RereadAnswer(s.registry.keys, r.key, r.submission.payload);
      if answer.Some? then Answer(s, q, answer.value) else s.(requests := Moved(s, q, Ended(Crashed)))
  }

  /** `execute` or `stream` begins: the turn opens, or the conversation is busy. */
  function DoOpen(s: State, q: ReqId): State {
    if q !in s.requests || !s.requests[q].phase.Reserved? then s
    else
      var r := s.requests[q];
      var c := Conv(r);
      if c !in s.world.turns || c !in s.world.tables.conversations then s
      else
        var started := s.(starts := s.starts + [Start(q, r.phase.rec, r.key, s.now)]);
        if TurnFits(s.world.tables, c, r.counter) then
          started.(world := T.Open(s.world, c, r.counter, RenderedText(r.submission), q),
                   requests := Moved(s, q, Opened(r.phase.rec, Turn(s.world.nextRun, Slot(c, r.counter + 2)))))
        else
          started.(requests := Moved(s, q, Broken(r.phase.rec, Expected(BUSY))))
  }

  predicate ThreadReady(s: State, c: ConvId) {
    c in s.world.turns && s.world.turns[c] != [] && c in s.world.checkpoints
  }

  /** The graph loads the thread's checkpoint, appends the input and calls the model. */
  function DoInvoke(s: State, q: ReqId): State {
    if q !in s.requests || !s.requests[q].phase.Opened? || !ThreadReady(s, Conv(s.requests[q])) then s
    else
      var r := s.requests[q];
      var c := Conv(r);
      var before := s.world.checkpoints[c];
      var input := UserMessage(RenderedText(r.submission));
      s.(world := T.Write(s.world, c, before.messages, input, before.finalAnswer),
         requests := Moved(s, q, Invoked(r.phase.rec, r.phase.turn, before.messages + [input])),
         calls := s.calls + [Call(c, |s.world.turns[c]| - 1, ModelInput(before.messages + [input]))])
  }

  /** The graph writes its checkpoint from the messages it has held in memory since it started. */
  function DoFinish(s: State, q: ReqId, answer: string): State {
    if q !in s.requests || !s.requests[q].phase.Invoked? || !ThreadReady(s, Conv(s.requests[q])) then s
    else
      var r := s.requests[q];
      s.(world := T.Write(s.world, Conv(r), r.phase.loaded, AssistantMessage(answer), Some(answer)),
         requests := Moved(s, q, Finished(r.phase.rec, r.phase.turn, answer)))
  }

  /** The answer that closes a turn: returned by the graph, or for a stream read back from the thread. */
  function ClosingAnswer(s: State, r: Request): Option<string>
    requires r.phase.Finished?
  {
    if !r.submission.payload.stream then Some(r.phase.answer)
    else if Conv(r) in s.world.checkpoints then s.world.checkpoints[Conv(r)].finalAnswer
    else None
  }

  predicate TurnStored(s: State, turn: Turn) {
    turn.run in s.world.tables.runs && turn.assistant in s.world.tables.messages
  }

  function DoClose(s: State, q: ReqId): State {
    if q !in s.requests || !s.requests[q].phase.Finished? then s
    else
      var r := s.requests[q];
      var answer := ClosingAnswer(s, r);
      if answer.None? || !TurnStored(s, r.phase.turn) then s
      else
        s.(world := T.Close(s.world, r.phase.turn, answer.value),
           requests := Moved(s, q, Closed(r.phase.rec, r.phase.turn.run, answer.value)))
  }

  predicate InTurn(phase: Phase) {
    phase.Opened? || phase.Invoked? || phase.Finished?
  }

  /** Any exception between the opening and the closing commit. */
  function DoBreak(s: State, q: ReqId, failure: Failure): State {
    if q !in s.requests || !InTurn(s.requests[q].phase) || !TurnStored(s, s.requests[q].phase.turn) then s
    else
      var r := s.requests[q];
      s.(world := T.Fail(s.world, r.phase.turn, failure),
         requests := Moved(s, q, Broken(r.phase.rec, failure)))
  }

  function DoSettle(s: State, q: ReqId): State {
    if q !in s.requests then s
    else
      var r := s.requests[q];
      match r.phase
      case Closed(rec, run, text) =>
        if Owns(s.registry.keys, r.key, rec) then
          s.(registry := CompleteCommit(s.registry, r.key, rec, Conv(r), run, text),
             requests := Moved(s, q, Ended(Answered(run, text))))
        else s.(requests := Moved(s, q, Ended(Crashed)))
      case Broken(rec, failure) =>
        if Owns(s.registry.keys, r.key, rec) then
          s.(registry := FailCommit(s.registry, r.key, rec, StoredError(failure)),
             requests := Moved(s, q, Ended(FailedWith(failure))))
        else s.(requests := Moved(s, q, Ended(Crashed)))
      case _ => s
  }

  function DoStop(s: State, q: ReqId): State {
    if q !in s.requests || s.requests[q].phase.Ended? then s else s.(requests := Moved(s, q, Stopped))
  }

  function Apply(s: State, a: Action): State {
    match a
    case CreateConversation(c, owner) =>
      if c in s.world.tables.conversations then s else s.(world := T.Create(s.world, c, owner))
    case DeleteConversation(c) =>
      if c !in s.world.tables.conversations then s else s.(world := T.Delete(s.world, c))
    case Arrive(q, submission) => DoArrive(s, q, submission)
    case Lookup(q) => DoLookup(s, q)
    case Insert(q) => DoInsert(s, q)
    case Reread(q) => DoReread(s, q)
    case Open(q) => DoOpen(s, q)
    case Invoke(q) => DoInvoke(s, q)
    case Finish(q, answer) => DoFinish(s, q, answer)
    case Close(q) => DoClose(s, q)
    case Break(q, failure) => DoBreak(s, q, failure)
    case Settle(q) => DoSettle(s, q)
    case Stop(q) => DoStop(s, q)
    case Tick(elapsed) => s.(now := s.now + elapsed)
  }

  /** The state after a list of actions. */
  function After(s: State, actions: seq<Action>): State {
    if actions == [] then s
    else Apply(After(s, actions[..|actions| - 1]), actions[|actions| - 1])
  }

  function Run(actions: seq<Action>): State {
    After(INITIAL, actions)
  }
}
