/**
  The conversation tables and the life of one turn: a run, its user message and
  its assistant message, opened in one commit and closed in another.

  A table whose unique index is checked at every insert is a map keyed by the
  indexed columns: messages are keyed by (conversation, sequence).
 */
module Transcript {
  import opened Wrappers

  type UserId = nat
  type ConvId = nat
  type RunId = nat
  type ReqId = nat

  datatype RunStatus = Queued | Running | Interrupted | RunCompleted | RunFailed | Cancelled

  datatype AgentRun = AgentRun(conversation: ConvId, status: RunStatus, errorCode: Option<string>)

  datatype Role = UserRole | AssistantRole | SystemRole | ToolRole

  datatype ContentStatus = Complete | Partial | ContentFailed | Redacted

  /** The columns of `uq_messages_conversation_sequence`. */
  datatype Slot = Slot(conversation: ConvId, sequence: nat)

  datatype Message = Message(role: Role, run: RunId, status: ContentStatus, renderedText: Option<string>)

  datatype Conversation = Conversation(owner: UserId, latest: nat, deleted: bool)

  datatype Tables = Tables(
    conversations: map<ConvId, Conversation>,
    runs: map<RunId, AgentRun>,
    messages: map<Slot, Message>)

  /** The durable records a turn works on after it was opened. */
  datatype Turn = Turn(run: RunId, assistant: Slot)

  const BUSY := ApiError(409, "conversation_busy")

  // ---------------------------------------------------------------- specification

  /** The statuses of the partial unique index `uq_agent_runs_active_conversation`. */
  predicate Active(status: RunStatus) {
    status.Queued? || status.Running? || status.Interrupted?
  }

  predicate HasActiveRun(t: Tables, c: ConvId) {
    exists r | r in t.runs :: t.runs[r].conversation == c && Active(t.runs[r].status)
  }

  /** No unique index objects to opening a turn whose counter was read as `counter`. */
  predicate TurnFits(t: Tables, c: ConvId, counter: nat) {
    !HasActiveRun(t, c) && Slot(c, counter + 1) !in t.messages && Slot(c, counter + 2) !in t.messages
  }

  /** The single transaction that opens a turn. */
  function OpenTurn(t: Tables, c: ConvId, counter: nat, content: string, run: RunId): Tables
    requires c in t.conversations
  {
    Tables(
      t.conversations[c := t.conversations[c].(latest := counter + 2)],
      t.runs[run := AgentRun(c, Running, None)],
      t.messages[Slot(c, counter + 1) := Message(UserRole, run, Complete, Some(content))]
                [Slot(c, counter + 2) := Message(AssistantRole, run, Partial, None)])
  }

  /** The transaction that stores the reply and completes the run. */
  function CloseTurn(t: Tables, turn: Turn, answer: string): Tables
    requires turn.run in t.runs && turn.assistant in t.messages
  {
    t.(runs := t.runs[turn.run := t.runs[turn.run].(status := RunCompleted)],
       messages := t.messages[turn.assistant :=
         t.messages[turn.assistant].(status := Complete, renderedText := Some(answer))])
  }

  /** The error code a failed run keeps. */
  function RunErrorCode(failure: Failure): string {
    match failure
    case Expected(error) => error.code
    case Unexpected => "agent_execution_failed"
  }

  /** The transaction that marks the reply and the run failed. */
  function FailTurn(t: Tables, turn: Turn, failure: Failure): Tables
    requires turn.run in t.runs && turn.assistant in t.messages
  {
    t.(runs := t.runs[turn.run :=
         t.runs[turn.run].(status := RunFailed, errorCode := Some(RunErrorCode(failure)))],
       messages := t.messages[turn.assistant := t.messages[turn.assistant].(status := ContentFailed)])
  }

  // ---------------------------------------------------------------- the service

  /** The request's in-memory conversation object; its counter may be out of date. */
  class ConversationObject {
    const id: ConvId
    var latest: nat

    constructor (id: ConvId, latest: nat)
      ensures this.id == id && this.latest == latest
    {
      this.id, this.latest := id, latest;
    }
  }

  /** The committed tables. */
  class Database {
    var tables: Tables

    constructor ()
      ensures tables == Tables(map[], map[], map[])
    {
      tables := Tables(map[], map[], map[]);
    }
  }

  /** One request session: pending rows, flushed against the unique indexes, then committed or rolled back. */
  class Session {
    const db: Database
    var pending: Tables

    constructor (db: Database)
      ensures this.db == db && pending == db.tables
    {
      this.db, this.pending := db, db.tables;
    }

    /** Add and flush a running run; false is an IntegrityError. */
    method AddRun(run: RunId, c: ConvId) returns (ok: bool)
      modifies this`pending
      ensures ok <==> run !in old(pending).runs && !HasActiveRun(old(pending), c)
      ensures ok <==>
        && run !in old(pending).runs
        && forall r | r in old(pending).runs && old(pending).runs[r].conversation == c ::
             old(pending).runs[r].status in {RunCompleted, RunFailed, Cancelled}
      ensures pending == if ok then old(pending).(runs := old(pending).runs[run := AgentRun(c, Running, None)])
                         else old(pending)
    {
      ok := run !in pending.runs && !HasActiveRun(pending, c);
      if ok {
        pending := pending.(runs := pending.runs[run := AgentRun(c, Running, None)]);
      }
    }

    /** Add and flush one message, then advance the conversation, in memory and pending. */
    method AppendMessage(conversation: ConversationObject, sequence: nat, message: Message) returns (ok: bool)
      requires conversation.id in pending.conversations
      modifies this`pending, conversation`latest
      ensures ok == (Slot(conversation.id, sequence) !in old(pending).messages)
      ensures !ok ==> pending == old(pending) && conversation.latest == old(conversation.latest)
      ensures ok ==> conversation.latest == sequence
      ensures ok ==> pending == Tables(
          old(pending).conversations[conversation.id :=
            old(pending).conversations[conversation.id].(latest := sequence)],
          old(pending).runs,
          old(pending).messages[Slot(conversation.id, sequence) := message])
    {
      var slot := Slot(conversation.id, sequence);
      ok := slot !in pending.messages;
      if ok {
        pending := pending.(messages := pending.messages[slot := message]);
        conversation.latest := sequence;
        pending := pending.(conversations := pending.conversations[conversation.id :=
            pending.conversations[conversation.id].(latest := sequence)]);
      }
    }

    method Commit()
      modifies db
      ensures db.tables == pending
    {
      db.tables := pending;
    }

    method Rollback()
      modifies this`pending
      ensures pending == db.tables
    {
      pending := db.tables;
    }
  }

  /** Coordinates the turn records of one request. */
  class ConversationExecutionService {
    const session: Session

    constructor (session: Session)
      ensures this.session == session
    {
      this.session := session;
    }

    /** Opens a turn exactly when no index objects; otherwise 409 and untouched tables. */
    method BeginTurn(conversation: ConversationObject, content: string, run: RunId) returns (r: Result<Turn, ApiError>)
      requires session.pending == session.db.tables
      requires conversation.id in session.db.tables.conversations
      modifies session`pending, session.db, conversation`latest
      ensures session.pending == session.db.tables
      ensures r.Ok? <==>
        run !in old(session.db.tables).runs
          && TurnFits(old(session.db.tables), conversation.id, old(conversation.latest))
      ensures r.Err? ==> session.db.tables == old(session.db.tables) && r.error == ApiError(409, "conversation_busy")
      ensures r.Ok? ==>
        && session.db.tables == OpenTurn(old(session.db.tables), conversation.id, old(conversation.latest), content,
            run)
        && conversation.latest == old(conversation.latest) + 2
        && r.value == Turn(run, Slot(conversation.id, old(conversation.latest) + 2))
    {
      var ok := session.AddRun(run, conversation.id);
      if ok {
        ok := session.AppendMessage(conversation, conversation.latest + 1, Message(UserRole, run, Complete,
          Some(content)));
      }
      if ok {
        ok := session.AppendMessage(conversation, conversation.latest + 1, Message(AssistantRole, run, Partial, None));
      }
      if !ok {
        session.Rollback();
        return Err(BUSY);
      }
      session.Commit();
      return Ok(Turn(run, Slot(conversation.id, conversation.latest)));
    }

    method CompleteTurn(turn: Turn, answer: string)
      requires session.pending == session.db.tables
      requires turn.run in session.pending.runs && turn.assistant in session.pending.messages
      modifies session`pending, session.db
      ensures session.pending == session.db.tables == CloseTurn(old(session.db.tables), turn, answer)
    {
      var t := session.pending;
      var assistant := t.messages[turn.assistant];
      assistant := assistant.(renderedText := Some(answer));
      assistant := assistant.(status := Complete);
      t := t.(messages := t.messages[turn.assistant := assistant]);
      t := t.(runs := t.runs[turn.run := t.runs[turn.run].(status := RunCompleted)]);
      session.pending := t;
      session.Commit();
    }

    /** Rolls back whatever the failing turn left pending, then records the failure. */
    method MarkFailed(turn: Turn, failure: Failure)
      requires turn.run in session.db.tables.runs && turn.assistant in session.db.tables.messages
      modifies session`pending, session.db
      ensures session.pending == session.db.tables == FailTurn(old(session.db.tables), turn, failure)
    {
      session.Rollback();
      var t := session.pending;
      t := t.(messages := t.messages[turn.assistant := t.messages[turn.assistant].(status := ContentFailed)]);
      var run := t.runs[turn.run].(status := RunFailed);
      match failure {
        case Expected(error) => run := run.(errorCode := Some(error.code));
        case Unexpected => run := run.(errorCode := Some("agent_execution_failed"));
      }
      session.pending := t.(runs := t.runs[turn.run := run]);
      session.Commit();
    }
  }
}
