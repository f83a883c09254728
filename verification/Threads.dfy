/**
  Conversation tables together with the checkpoints of the graph threads, one
  thread per conversation, and the history of the turns opened so far.

  The operations below are the commits a turn makes. What they keep is stated by
  `Sound`, and what they never take back by `Extends`.
 */
module Threads {
  import opened Wrappers
  import opened Agent
  import opened Transcript

  /** The latest checkpoint of one thread. */
  datatype Checkpoint = Checkpoint(messages: seq<GraphMessage>, finalAnswer: Option<string>)

  /** History: who opened the turn, and what it added to the checkpoint so far. */
  datatype TurnLog = TurnLog(run: RunId, owner: ReqId, contribution: seq<GraphMessage>)

  datatype World = World(
    tables: Tables,
    checkpoints: map<ConvId, Checkpoint>,
    turns: map<ConvId, seq<TurnLog>>,
    nextRun: RunId)

  // ---------------------------------------------------------------- the commits

  function Create(w: World, c: ConvId, owner: UserId): World
    requires c !in w.tables.conversations
  {
    w.(tables := w.tables.(conversations := w.tables.conversations[c := Conversation(owner, 0, false)]),
       checkpoints := w.checkpoints[c := Checkpoint([], None)],
       turns := w.turns[c := []])
  }

  function Delete(w: World, c: ConvId): World
    requires c in w.tables.conversations
  {
    w.(tables := w.tables.(conversations :=
         w.tables.conversations[c := w.tables.conversations[c].(deleted := true)]))
  }

  function Open(w: World, c: ConvId, counter: nat, content: string, owner: ReqId): World
    requires c in w.tables.conversations && c in w.turns
  {
    w.(tables := OpenTurn(w.tables, c, counter, content, w.nextRun),
       turns := w.turns[c := w.turns[c] + [TurnLog(w.nextRun, owner, [])]],
       nextRun := w.nextRun + 1)
  }

  /** The graph writes a checkpoint from the messages it holds in memory. */
  function Write(w: World, c: ConvId, loaded: seq<GraphMessage>, added: GraphMessage, answer: Option<string>): World
    requires c in w.turns && w.turns[c] != []
  {
    var last := |w.turns[c]| - 1;
    w.(checkpoints := w.checkpoints[c := Checkpoint(loaded + [added], answer)],
       turns := w.turns[c := w.turns[c][last :=
         w.turns[c][last].(contribution := w.turns[c][last].contribution + [added])]])
  }

  function Close(w: World, turn: Turn, answer: string): World
    requires turn.run in w.tables.runs && turn.assistant in w.tables.messages
  {
    w.(tables := CloseTurn(w.tables, turn, answer))
  }

  function Fail(w: World, turn: Turn, failure: Failure): World
    requires turn.run in w.tables.runs && turn.assistant in w.tables.messages
  {
    w.(tables := FailTurn(w.tables, turn, failure))
  }

  // ---------------------------------------------------------------- invariant

  function UserSlot(c: ConvId, k: nat): Slot { Slot(c, 2 * k + 1) }

  function AssistantSlot(c: ConvId, k: nat): Slot { Slot(c, 2 * k + 2) }

  /** What the turns of a thread added to its checkpoint, in order. */
  function Flatten(turns: seq<TurnLog>): seq<GraphMessage> {
    if turns == [] then [] else Flatten(turns[..|turns| - 1]) + turns[|turns| - 1].contribution
  }

  /** The assistant message's status says what the run's status says. */
  predicate StatusAgrees(run: RunStatus, message: Message) {
    match run
    case Running => message.status == Partial && message.renderedText == None
    case RunCompleted => message.status == Complete && message.renderedText.Some?
    case RunFailed => message.status == ContentFailed && message.renderedText == None
    case _ => false
  }

  /** A turn adds its stored input, then an answer; a completed turn adds its stored answer. */
  predicate ContributionAgrees(run: RunStatus, contribution: seq<GraphMessage>, user: Message, assistant: Message) {
    && user.renderedText.Some?
    && |contribution| <= 2
    && (|contribution| >= 1 ==> contribution[0] == UserMessage(user.renderedText.value))
    && (|contribution| == 2 ==> contribution[1].AssistantMessage?)
    && (run.RunCompleted? ==>
          |contribution| == 2 && assistant.renderedText == Some(contribution[1].content))
  }

  /** Turn `k` of conversation `c` owns one run, one user and one assistant message, in step with each other. */
  predicate TurnSound(w: World, c: ConvId, k: nat)
    requires c in w.turns && k < |w.turns[c]|
  {
    var log := w.turns[c][k];
    && log.run in w.tables.runs
    && UserSlot(c, k) in w.tables.messages
    && AssistantSlot(c, k) in w.tables.messages
    && var run := w.tables.runs[log.run];
       var user := w.tables.messages[UserSlot(c, k)];
       var assistant := w.tables.messages[AssistantSlot(c, k)];
       && run.conversation == c
       && user.role == UserRole && user.run == log.run && user.status == Complete
       && assistant.role == AssistantRole && assistant.run == log.run
       && StatusAgrees(run.status, assistant)
       && ContributionAgrees(run.status, log.contribution, user, assistant)
       && (k + 1 < |w.turns[c]| ==> !Active(run.status))
  }

  ghost predicate ThreadSound(w: World, c: ConvId)
    requires c in w.turns && c in w.tables.conversations && c in w.checkpoints
  {
    && w.tables.conversations[c].latest == 2 * |w.turns[c]|
    && w.checkpoints[c].messages == Flatten(w.turns[c])
    && (forall k {:trigger TurnSound(w, c, k)} | 0 <= k < |w.turns[c]| :: TurnSound(w, c, k))
    && (forall i, j | 0 <= i < j < |w.turns[c]| :: w.turns[c][i].run < w.turns[c][j].run)
  }

  /** Every run is the run of some turn of its conversation. */
  ghost predicate RunListed(w: World, r: RunId)
    requires r in w.tables.runs
  {
    var c := w.tables.runs[r].conversation;
    && r < w.nextRun
    && c in w.turns
    && exists k :: 0 <= k < |w.turns[c]| && w.turns[c][k].run == r
  }

  /** Every message lies at one of the positions 1..latest of its conversation. */
  predicate SlotListed(w: World, m: Slot) {
    m.conversation in w.turns && 1 <= m.sequence <= 2 * |w.turns[m.conversation]|
  }

  ghost predicate Sound(w: World) {
    && w.turns.Keys == w.tables.conversations.Keys == w.checkpoints.Keys
    && (forall c {:trigger ThreadSound(w, c)} | c in w.turns :: ThreadSound(w, c))
    && (forall r {:trigger RunListed(w, r)} | r in w.tables.runs :: RunListed(w, r))
    && (forall m {:trigger SlotListed(w, m)} | m in w.tables.messages :: SlotListed(w, m))
  }

  // ---------------------------------------------------------------- what is never taken back

  /** Turn `k` of `c` completed run `r` with this stored text. */
  predicate CompletedTurn(w: World, c: ConvId, k: nat, r: RunId, text: string) {
    && c in w.turns && k < |w.turns[c]| && w.turns[c][k].run == r
    && r in w.tables.runs && w.tables.runs[r].conversation == c && w.tables.runs[r].status == RunCompleted
    && AssistantSlot(c, k) in w.tables.messages
    && w.tables.messages[AssistantSlot(c, k)].run == r
    && w.tables.messages[AssistantSlot(c, k)].status == Complete
    && w.tables.messages[AssistantSlot(c, k)].renderedText == Some(text)
  }

  ghost predicate CompletedRun(w: World, c: ConvId, r: RunId, text: string) {
    exists k :: CompletedTurn(w, c, k, r, text)
  }

  /** Turn `k` of `c` keeps its run, owner and input; once terminal or followed by another it is frozen. */
  predicate TurnExtends(w: World, w': World, c: ConvId, k: nat)
    requires c in w.turns && c in w'.turns && k < |w.turns[c]| && k < |w'.turns[c]|
  {
    var log, log' := w.turns[c][k], w'.turns[c][k];
    && log'.run == log.run && log'.owner == log.owner
    && (UserSlot(c, k) in w.tables.messages ==>
          UserSlot(c, k) in w'.tables.messages
            && w'.tables.messages[UserSlot(c, k)] == w.tables.messages[UserSlot(c, k)])
    && (log.run in w.tables.runs && !Active(w.tables.runs[log.run].status) ==>
          && log' == log
          && log.run in w'.tables.runs && w'.tables.runs[log.run] == w.tables.runs[log.run]
          && (AssistantSlot(c, k) in w.tables.messages ==>
                && AssistantSlot(c, k) in w'.tables.messages
                && w'.tables.messages[AssistantSlot(c, k)] == w.tables.messages[AssistantSlot(c, k)]))
  }

  ghost predicate Extends(w: World, w': World) {
    && w.nextRun <= w'.nextRun
    && forall c | c in w.turns ::
         && c in w'.turns && |w.turns[c]| <= |w'.turns[c]|
         && c in w.tables.conversations && c in w'.tables.conversations
         && w.tables.conversations[c].latest <= w'.tables.conversations[c].latest
         && forall k | 0 <= k < |w.turns[c]| :: TurnExtends(w, w', c, k)
  }

  /** Conversation `c` and its thread look the same in both worlds. */
  ghost predicate Untouched(w: World, w': World, c: ConvId) {
    && (c in w.turns <==> c in w'.turns)
    && (c in w.checkpoints <==> c in w'.checkpoints)
    && (c in w.tables.conversations <==> c in w'.tables.conversations)
    && (c in w.turns ==> w'.turns[c] == w.turns[c])
    && (c in w.checkpoints ==> w'.checkpoints[c] == w.checkpoints[c])
    && (c in w.tables.conversations ==> w'.tables.conversations[c].latest == w.tables.conversations[c].latest)
    && (forall r | r in w.tables.runs && w.tables.runs[r].conversation == c ::
          r in w'.tables.runs && w'.tables.runs[r] == w.tables.runs[r])
    && (forall m | m in w.tables.messages && m.conversation == c ::
          m in w'.tables.messages && w'.tables.messages[m] == w.tables.messages[m])
  }

  /** A commit of conversation `c` leaves every other conversation alone. */
  ghost predicate OnlyTouches(w: World, w': World, c: ConvId) {
    forall d | d != c :: Untouched(w, w', d)
  }

  lemma UntouchedTurn(w: World, w': World, d: ConvId, k: nat)
    requires Untouched(w, w', d) && d in w.turns && k < |w.turns[d]| && TurnSound(w, d, k)
    ensures TurnSound(w', d, k) && TurnExtends(w, w', d, k)
  {
    var log := w.turns[d][k];
    assert w.tables.runs[log.run].conversation == d;
    assert UserSlot(d, k).conversation == d && AssistantSlot(d, k).conversation == d;
  }

  lemma UntouchedThread(w: World, w': World, d: ConvId)
    requires Untouched(w, w', d) && d in w.turns && d in w.tables.conversations && d in w.checkpoints
    requires ThreadSound(w, d)
    ensures ThreadSound(w', d)
    ensures forall k | 0 <= k < |w.turns[d]| :: TurnExtends(w, w', d, k)
  {
    forall k | 0 <= k < |w.turns[d]|
      ensures TurnSound(w', d, k) && TurnExtends(w, w', d, k)
    {
      UntouchedTurn(w, w', d, k);
    }
  }

  /** What a commit of conversation `c` still has to show once the other conversations are settled. */
  lemma LocalCommit(w: World, w': World, c: ConvId)
    requires Sound(w) && OnlyTouches(w, w', c) && w.nextRun <= w'.nextRun
    requires w'.turns.Keys == w'.tables.conversations.Keys == w'.checkpoints.Keys
    requires c in w'.turns && ThreadSound(w', c)
    requires c in w.turns ==> |w.turns[c]| <= |w'.turns[c]|
    requires c in w.turns ==> forall k | 0 <= k < |w.turns[c]| :: TurnExtends(w, w', c, k)
    requires forall r | r in w'.tables.runs :: RunListed(w', r)
    requires forall m | m in w'.tables.messages :: SlotListed(w', m)
    ensures Sound(w') && Extends(w, w')
  {
    forall d | d in w'.turns && d != c
      ensures d in w.turns && ThreadSound(w', d)
    {
      assert Untouched(w, w', d) && ThreadSound(w, d);
      UntouchedThread(w, w', d);
    }
    forall d | d in w.turns && d != c
      ensures d in w'.turns && |w.turns[d]| <= |w'.turns[d]|
      ensures w'.tables.conversations[d].latest == w.tables.conversations[d].latest
      ensures forall k | 0 <= k < |w.turns[d]| :: TurnExtends(w, w', d, k)
    {
      assert Untouched(w, w', d) && ThreadSound(w, d);
      UntouchedThread(w, w', d);
    }
    assert ThreadSound(w', c) && (c in w.turns ==> ThreadSound(w, c));
  }

  // ---------------------------------------------------------------- opening a turn

  /** Positions 1..latest of a conversation are all taken. */
  lemma Gapless(w: World, c: ConvId, n: nat)
    requires Sound(w) && c in w.turns
    ensures Slot(c, n) in w.tables.messages <==> 1 <= n <= w.tables.conversations[c].latest
  {
    assert ThreadSound(w, c);
    assert Slot(c, n) in w.tables.messages ==> SlotListed(w, Slot(c, n));
    if 1 <= n <= w.tables.conversations[c].latest {
      var k := (n - 1) / 2;
      assert TurnSound(w, c, k);
      assert Slot(c, n) == UserSlot(c, k) || Slot(c, n) == AssistantSlot(c, k);
    }
  }

  /** Only the newest turn of a conversation can still be active. */
  lemma OnlyLastActive(w: World, c: ConvId, r: RunId)
    requires Sound(w) && r in w.tables.runs
    requires w.tables.runs[r].conversation == c && Active(w.tables.runs[r].status)
    ensures c in w.turns && w.turns[c] != [] && w.turns[c][|w.turns[c]| - 1].run == r
  {
    assert RunListed(w, r);
    var k :| 0 <= k < |w.turns[c]| && w.turns[c][k].run == r;
    assert ThreadSound(w, c) && TurnSound(w, c, k);
  }

  /** At most one run of a conversation is active, whatever happened before. */
  lemma OneActiveRun(w: World, r: RunId, r': RunId)
    requires Sound(w) && r in w.tables.runs && r' in w.tables.runs
    requires w.tables.runs[r].conversation == w.tables.runs[r'].conversation
    requires Active(w.tables.runs[r].status) && Active(w.tables.runs[r'].status)
    ensures r == r'
  {
    OnlyLastActive(w, w.tables.runs[r].conversation, r);
    OnlyLastActive(w, w.tables.runs[r'].conversation, r');
  }

  /** A stale counter never opens a turn: the unique index on positions refuses it. */
  lemma FitsExactly(w: World, c: ConvId, counter: nat)
    requires Sound(w) && c in w.turns && counter <= w.tables.conversations[c].latest
    ensures TurnFits(w.tables, c, counter) <==>
            counter == w.tables.conversations[c].latest && !HasActiveRun(w.tables, c)
  {
    Gapless(w, c, counter + 1);
    Gapless(w, c, counter + 2);
  }

  lemma IdleLast(w: World, c: ConvId)
    requires Sound(w) && c in w.turns && w.turns[c] != [] && !HasActiveRun(w.tables, c)
    ensures var last := w.turns[c][|w.turns[c]| - 1].run;
            last in w.tables.runs && !Active(w.tables.runs[last].status)
  {
    assert ThreadSound(w, c) && TurnSound(w, c, |w.turns[c]| - 1);
  }

  lemma OpenTurnSound(w: World, c: ConvId, content: string, owner: ReqId, k: nat)
    requires Sound(w) && c in w.turns && k <= |w.turns[c]| && !HasActiveRun(w.tables, c)
    ensures var w' := Open(w, c, w.tables.conversations[c].latest, content, owner);
            TurnSound(w', c, k) && (k < |w.turns[c]| ==> TurnExtends(w, w', c, k))
  {
    assert ThreadSound(w, c);
    if k < |w.turns[c]| {
      assert TurnSound(w, c, k);
      assert RunListed(w, w.turns[c][k].run);
      if k + 1 == |w.turns[c]| {
        IdleLast(w, c);
      }
    }
  }

  lemma OpenListed(w: World, c: ConvId, content: string, owner: ReqId)
    requires Sound(w) && c in w.turns
    ensures var w' := Open(w, c, w.tables.conversations[c].latest, content, owner);
            && (forall r | r in w'.tables.runs :: RunListed(w', r))
            && (forall m | m in w'.tables.messages :: SlotListed(w', m))
            && OnlyTouches(w, w', c)
  {
    assert ThreadSound(w, c);
    var w' := Open(w, c, w.tables.conversations[c].latest, content, owner);
    forall r | r in w'.tables.runs
      ensures RunListed(w', r)
    {
      if r == w.nextRun {
        assert w'.turns[c][|w.turns[c]|].run == r;
      } else {
        assert RunListed(w, r);
        var d := w.tables.runs[r].conversation;
        var k :| 0 <= k < |w.turns[d]| && w.turns[d][k].run == r;
        assert w'.turns[d][k].run == r;
      }
    }
    forall m | m in w'.tables.messages
      ensures SlotListed(w', m)
    {
      if m in w.tables.messages {
        assert SlotListed(w, m);
      }
    }
    forall r | r in w.tables.runs
      ensures r < w.nextRun
    {
      assert RunListed(w, r);
    }
  }

  /** Opening a turn keeps everything sound. */
  lemma OpenSound(w: World, c: ConvId, content: string, owner: ReqId)
    requires Sound(w) && c in w.turns && !HasActiveRun(w.tables, c)
    ensures var w' := Open(w, c, w.tables.conversations[c].latest, content, owner);
            Sound(w') && Extends(w, w') && OnlyTouches(w, w', c)
  {
    assert ThreadSound(w, c);
    var w' := Open(w, c, w.tables.conversations[c].latest, content, owner);
    forall k: nat | k <= |w.turns[c]|
      ensures TurnSound(w', c, k) && (k < |w.turns[c]| ==> TurnExtends(w, w', c, k))
    {
      OpenTurnSound(w, c, content, owner, k);
    }
    OpenListed(w, c, content, owner);
    assert w'.turns[c][..|w'.turns[c]| - 1] == w.turns[c];
    forall i | 0 <= i < |w.turns[c]|
      ensures w.turns[c][i].run < w.nextRun
    {
      assert TurnSound(w, c, i);
      assert RunListed(w, w.turns[c][i].run);
    }
    assert ThreadSound(w', c);
    LocalCommit(w, w', c);
  }

  // ---------------------------------------------------------------- the open turn

  /** The newest turn of `c` is running, was opened by `owner` as `turn`, and has contributed this much. */
  ghost predicate Running(w: World, c: ConvId, turn: Turn, owner: ReqId, contribution: seq<GraphMessage>) {
    && c in w.turns && w.turns[c] != []
    && w.turns[c][|w.turns[c]| - 1] == TurnLog(turn.run, owner, contribution)
    && turn.assistant == AssistantSlot(c, |w.turns[c]| - 1)
    && turn.run in w.tables.runs && w.tables.runs[turn.run].status.Running?
    && turn.assistant in w.tables.messages
  }

  /**
    `w'` differs from `w` at most in the newest turn of `c`: its run, its reply, its contribution and the
    checkpoint.
   */
  ghost predicate LastTurnUpdate(w: World, w': World, c: ConvId)
    requires c in w.turns && w.turns[c] != []
  {
    var last := |w.turns[c]| - 1;
    var log := w.turns[c][last];
    && w'.tables.conversations == w.tables.conversations
    && w'.nextRun == w.nextRun
    && w'.turns.Keys == w.turns.Keys && w'.checkpoints.Keys == w.checkpoints.Keys
    && (forall d | d in w.turns && d != c :: w'.turns[d] == w.turns[d])
    && (forall d | d in w.checkpoints && d != c :: w'.checkpoints[d] == w.checkpoints[d])
    && |w'.turns[c]| == |w.turns[c]|
    && (forall k | 0 <= k < last :: w'.turns[c][k] == w.turns[c][k])
    && w'.turns[c][last].run == log.run && w'.turns[c][last].owner == log.owner
    && w'.tables.runs.Keys == w.tables.runs.Keys
    && (forall r | r in w.tables.runs && r != log.run :: w'.tables.runs[r] == w.tables.runs[r])
    && w'.tables.messages.Keys == w.tables.messages.Keys
    && (forall m | m in w.tables.messages
        && m != AssistantSlot(c, last) :: w'.tables.messages[m] == w.tables.messages[m])
  }

  lemma LastTurnOthers(w: World, w': World, c: ConvId)
    requires Sound(w) && c in w.turns && w.turns[c] != [] && LastTurnUpdate(w, w', c)
    requires TurnSound(w, c, |w.turns[c]| - 1)
    ensures OnlyTouches(w, w', c)
  {
  }

  lemma LastTurnRuns(w: World, w': World, c: ConvId, r: RunId)
    requires Sound(w) && c in w.turns && w.turns[c] != [] && LastTurnUpdate(w, w', c)
    requires TurnSound(w, c, |w.turns[c]| - 1) && TurnSound(w', c, |w.turns[c]| - 1)
    requires r in w'.tables.runs
    ensures RunListed(w', r)
  {
    assert RunListed(w, r);
    var d := w.tables.runs[r].conversation;
    assert w'.tables.runs[r].conversation == d;
    var k :| 0 <= k < |w.turns[d]| && w.turns[d][k].run == r;
    assert w'.turns[d][k].run == r;
  }

  lemma LastTurnThread(w: World, w': World, c: ConvId, k: nat)
    requires c in w.turns && k < |w.turns[c]| && LastTurnUpdate(w, w', c)
    requires var last := |w.turns[c]| - 1;
             && TurnSound(w, c, k) && TurnSound(w, c, last) && TurnSound(w', c, last)
             && Active(w.tables.runs[w.turns[c][last].run].status)
             && (k < last ==> w.turns[c][k].run != w.turns[c][last].run)
    ensures TurnSound(w', c, k) && TurnExtends(w, w', c, k)
    ensures w'.turns[c][k].run == w.turns[c][k].run
  {
  }

  lemma LastTurnWhole(w: World, w': World, c: ConvId)
    requires c in w.turns && c in w.tables.conversations && c in w.checkpoints && ThreadSound(w, c)
    requires w.turns[c] != [] && LastTurnUpdate(w, w', c)
    requires var last := |w.turns[c]| - 1;
             && TurnSound(w, c, last) && TurnSound(w', c, last)
             && Active(w.tables.runs[w.turns[c][last].run].status)
             && w'.checkpoints[c].messages == Flatten(w.turns[c][..last]) + w'.turns[c][last].contribution
    ensures c in w'.turns && c in w'.tables.conversations && c in w'.checkpoints && ThreadSound(w', c)
    ensures forall k | 0 <= k < |w.turns[c]| :: TurnExtends(w, w', c, k)
  {
    forall k: nat | k < |w.turns[c]|
      ensures TurnSound(w', c, k) && TurnExtends(w, w', c, k)
      ensures w'.turns[c][k].run == w.turns[c][k].run
    {
      assert TurnSound(w, c, k);
      LastTurnThread(w, w', c, k);
    }
    LastTurnFlat(w, w', c);
  }

  lemma LastTurnFlat(w: World, w': World, c: ConvId)
    requires c in w.turns && w.turns[c] != [] && LastTurnUpdate(w, w', c)
    ensures Flatten(w'.turns[c]) == Flatten(w.turns[c][..|w.turns[c]| - 1]) + w'.turns[c][|w.turns[c]| - 1].contribution
  {
    assert w'.turns[c][..|w.turns[c]| - 1] == w.turns[c][..|w.turns[c]| - 1];
  }

  /** Updating the running turn keeps everything sound when the turn itself stays sound and the checkpoint follows. */
  lemma LastTurnSound(w: World, w': World, c: ConvId)
    requires Sound(w) && c in w.turns && w.turns[c] != [] && LastTurnUpdate(w, w', c)
    requires var last := |w.turns[c]| - 1;
             && TurnSound(w', c, last)
             && Active(w.tables.runs[w.turns[c][last].run].status)
             && w'.checkpoints[c].messages == Flatten(w.turns[c][..last]) + w'.turns[c][last].contribution
    ensures Sound(w') && Extends(w, w') && OnlyTouches(w, w', c)
  {
    assert TurnSound(w, c, |w.turns[c]| - 1) by { assert ThreadSound(w, c); }
    LastTurnOthers(w, w', c);
    LastTurnWhole(w, w', c);
    forall r | r in w'.tables.runs
      ensures RunListed(w', r)
    {
      LastTurnRuns(w, w', c, r);
    }
    forall m | m in w'.tables.messages
      ensures SlotListed(w', m)
    {
      assert SlotListed(w, m);
    }
    LocalCommit(w, w', c);
  }

  /** A checkpoint write of the running turn: its input first, then its answer. */
  lemma WriteSound(w: World, c: ConvId, turn: Turn, owner: ReqId, contribution: seq<GraphMessage>,
                   added: GraphMessage, answer: Option<string>)
    requires Sound(w) && Running(w, c, turn, owner, contribution)
    requires || (contribution == []
                 && added.UserMessage?
                 && UserSlot(c, |w.turns[c]| - 1) in w.tables.messages
                 && w.tables.messages[UserSlot(c, |w.turns[c]| - 1)].renderedText == Some(added.content))
             || (|contribution| == 1 && added.AssistantMessage?)
    ensures var w' := Write(w, c, w.checkpoints[c].messages, added, answer);
            && Sound(w') && Extends(w, w') && OnlyTouches(w, w', c)
            && Running(w', c, turn, owner, contribution + [added])
  {
    var last := |w.turns[c]| - 1;
    assert TurnSound(w, c, last) by { assert ThreadSound(w, c); }
    var w' := Write(w, c, w.checkpoints[c].messages, added, answer);
    WriteTurn(w, c, turn, owner, contribution, added, answer);
    assert w'.checkpoints[c].messages == Flatten(w.turns[c][..last]) + (contribution + [added]) by {
      assert ThreadSound(w, c);
      assert Flatten(w.turns[c]) + [added] == Flatten(w.turns[c][..last]) + (contribution + [added]);
    }
    LastTurnSound(w, w', c);
  }

  lemma WriteTurn(w: World, c: ConvId, turn: Turn, owner: ReqId, contribution: seq<GraphMessage>,
                  added: GraphMessage, answer: Option<string>)
    requires Running(w, c, turn, owner, contribution) && TurnSound(w, c, |w.turns[c]| - 1) && c in w.checkpoints
    requires || (contribution == []
                 && added.UserMessage?
                 && w.tables.messages[UserSlot(c, |w.turns[c]| - 1)].renderedText == Some(added.content))
             || (|contribution| == 1 && added.AssistantMessage?)
    ensures var w' := Write(w, c, w.checkpoints[c].messages, added, answer);
            && LastTurnUpdate(w, w', c)
            && TurnSound(w', c, |w.turns[c]| - 1)
            && Running(w', c, turn, owner, contribution + [added])
            && w'.turns[c][|w.turns[c]| - 1].contribution == contribution + [added]
  {
    assert w.turns[c][|w.turns[c]| - 1].contribution == contribution;
  }

  /** Closing the running turn with the answer its graph wrote. */
  lemma CloseSound(w: World, c: ConvId, turn: Turn, owner: ReqId, user: GraphMessage, answer: string)
    requires Sound(w) && Running(w, c, turn, owner, [user, AssistantMessage(answer)])
    ensures var w' := Close(w, turn, answer);
            && Sound(w') && Extends(w, w') && OnlyTouches(w, w', c)
            && CompletedTurn(w', c, |w.turns[c]| - 1, turn.run, answer)
            && !HasActiveRun(w'.tables, c)
  {
    var last := |w.turns[c]| - 1;
    assert TurnSound(w, c, last) && w.checkpoints[c].messages == Flatten(w.turns[c]) by { assert ThreadSound(w, c); }
    var w' := Close(w, turn, answer);
    assert TurnSound(w', c, last);
    assert LastTurnUpdate(w, w', c);
    LastTurnSound(w, w', c);
    IdleAgain(w', c, turn.run);
  }

  /** A failing turn, wherever its graph stopped. */
  lemma FailSound(w: World, c: ConvId, turn: Turn, owner: ReqId, contribution: seq<GraphMessage>, failure: Failure)
    requires Sound(w) && Running(w, c, turn, owner, contribution)
    ensures var w' := Fail(w, turn, failure);
            && Sound(w') && Extends(w, w') && OnlyTouches(w, w', c)
            && !HasActiveRun(w'.tables, c)
  {
    var last := |w.turns[c]| - 1;
    assert TurnSound(w, c, last) && w.checkpoints[c].messages == Flatten(w.turns[c]) by { assert ThreadSound(w, c); }
    var w' := Fail(w, turn, failure);
    assert TurnSound(w', c, last);
    assert LastTurnUpdate(w, w', c);
    LastTurnSound(w, w', c);
    IdleAgain(w', c, turn.run);
  }

  /** Once its newest run is terminal a conversation has no active run. */
  lemma IdleAgain(w: World, c: ConvId, r: RunId)
    requires Sound(w) && c in w.turns && w.turns[c] != [] && w.turns[c][|w.turns[c]| - 1].run == r
    requires r in w.tables.runs && !Active(w.tables.runs[r].status)
    ensures !HasActiveRun(w.tables, c)
  {
    if r' :| r' in w.tables.runs && w.tables.runs[r'].conversation == c && Active(w.tables.runs[r'].status) {
      OnlyLastActive(w, c, r');
      assert false;
    }
  }

  // ---------------------------------------------------------------- conversations come and go

  lemma CreateSound(w: World, c: ConvId, owner: UserId)
    requires Sound(w) && c !in w.tables.conversations
    ensures Sound(Create(w, c, owner)) && Extends(w, Create(w, c, owner)) && OnlyTouches(w, Create(w, c, owner), c)
  {
    var w' := Create(w, c, owner);
    forall r | r in w'.tables.runs
      ensures RunListed(w', r)
    {
      assert RunListed(w, r);
      var d := w.tables.runs[r].conversation;
      var k :| 0 <= k < |w.turns[d]| && w.turns[d][k].run == r;
      assert w'.turns[d][k].run == r;
    }
    forall m | m in w'.tables.messages
      ensures SlotListed(w', m)
    {
      assert SlotListed(w, m);
    }
    LocalCommit(w, w', c);
  }

  lemma {:induction false} DeleteSound(w: World, c: ConvId)
    requires Sound(w) && c in w.tables.conversations
    ensures Sound(Delete(w, c)) && Extends(w, Delete(w, c))
    ensures forall d :: Untouched(w, Delete(w, c), d)
  {
    var w' := Delete(w, c);
    assert Untouched(w, w', c);
    UntouchedThread(w, w', c);
    forall r | r in w'.tables.runs
      ensures RunListed(w', r)
    {
      assert RunListed(w, r);
      var d := w.tables.runs[r].conversation;
      var k :| 0 <= k < |w.turns[d]| && w.turns[d][k].run == r;
      assert w'.turns[d][k].run == r;
    }
    forall m | m in w'.tables.messages
      ensures SlotListed(w', m)
    {
      assert SlotListed(w, m);
    }
    LocalCommit(w, w', c);
  }
}
