/** The inductive invariant of the submission protocol: every action keeps it. */
module SubmissionSound {
  import opened Wrappers
  import opened Agent
  import opened Transcript
  import opened Idempotency
  import opened Submission
  import T = Threads

  // ---------------------------------------------------------------- invariant

  /** The request was admitted to an existing conversation, whose counter it read at or below today's value. */
  predicate Admitted(s: State, r: Request) {
    && Conv(r) in s.world.turns
    && Conv(r) in s.world.tables.conversations
    && r.counter <= s.world.tables.conversations[Conv(r)].latest
  }

  /** The request owns this reservation, and no result has been written for it. */
  predicate Holds(g: Registry, q: ReqId, r: Request, rec: RecId) {
    && rec in g.reservations
    && g.reservations[rec].owner == q
    && g.reservations[rec].key == r.key
    && g.reservations[rec].fingerprint == r.submission.payload
    && rec !in g.finals
  }

  ghost predicate NotStarted(s: State, rec: RecId) {
    forall i | 0 <= i < |s.starts| :: s.starts[i].rec != rec
  }

  /** The newest turn of the request's conversation is its own, with this contribution and its input stored. */
  ghost predicate OwnTurn(s: State, q: ReqId, r: Request, turn: Turn, contribution: seq<GraphMessage>) {
    && T.Running(s.world, Conv(r), turn, q, contribution)
    && Conv(r) in s.world.checkpoints
    && var user := T.UserSlot(Conv(r), |s.world.turns[Conv(r)]| - 1);
       user in s.world.tables.messages && s.world.tables.messages[user].renderedText == Some(RenderedText(r.submission))
  }

  ghost predicate RequestSound(s: State, q: ReqId)
    requires q in s.requests
  {
    var r := s.requests[q];
    var input := UserMessage(RenderedText(r.submission));
    && (!r.phase.Ended? && !r.phase.Stopped? ==>
          && Admitted(s, r)
          && r.key == KeyOf(r.submission))
    && match r.phase
       case Arrived => true
       case Looked(_) => true
       case Lost => true
       case Reserved(rec) => Holds(s.registry, q, r, rec) && NotStarted(s, rec)
       case Opened(rec, turn) => Holds(s.registry, q, r, rec) && OwnTurn(s, q, r, turn, [])
       case Invoked(rec, turn, loaded) =>
         && Holds(s.registry, q, r, rec)
         && OwnTurn(s, q, r, turn, [input])
         && loaded == s.world.checkpoints[Conv(r)].messages
       case Finished(rec, turn, answer) =>
         && Holds(s.registry, q, r, rec)
         && OwnTurn(s, q, r, turn, [input, AssistantMessage(answer)])
         && s.world.checkpoints[Conv(r)].finalAnswer == Some(answer)
       case Closed(rec, run, text) => Holds(s.registry, q, r, rec) && T.CompletedRun(s.world, Conv(r), run, text)
       case Broken(rec, _) => Holds(s.registry, q, r, rec)
       case Ended(outcome) => outcome.Answered? ==> T.CompletedRun(s.world, Conv(r), outcome.run, outcome.text)
       case Stopped => true
  }

  /** A stored success names a completed run of the key's conversation and repeats its stored text. */
  ghost predicate FinalSoundIn(s: State, id: RecId)
    requires id in s.registry.finals
  {
    var final := s.registry.finals[id];
    && id in s.registry.reservations
    && (final.snapshot.ResponseSnapshot? ==>
          && final.status == 200
          && final.snapshot.conversation == s.registry.reservations[id].key.route.conversation
          && T.CompletedRun(s.world, final.snapshot.conversation, final.snapshot.run, final.snapshot.text))
  }

  predicate StartSound(s: State, i: nat)
    requires i < |s.starts|
  {
    var start := s.starts[i];
    && start.rec in s.registry.reservations
    && s.registry.reservations[start.rec].owner == start.request
    && s.registry.reservations[start.rec].key == start.key
    && s.registry.reservations[start.rec].committedAt <= start.at <= s.now
  }

  predicate ReplaySound(s: State, i: nat)
    requires i < |s.replays|
  {
    var replay := s.replays[i];
    && replay.rec in s.registry.finals && s.registry.finals[replay.rec] == replay.final
    && replay.rec in s.registry.reservations
    && s.registry.reservations[replay.rec].key == replay.key
    && s.registry.reservations[replay.rec].fingerprint == replay.fingerprint
  }

  /** A model call saw the system prompt, everything earlier turns contributed, and its own stored input. */
  ghost predicate CallSoundIn(w: T.World, call: Call) {
    && call.conversation in w.turns && call.turn < |w.turns[call.conversation]|
    && T.UserSlot(call.conversation, call.turn) in w.tables.messages
    && var user := w.tables.messages[T.UserSlot(call.conversation, call.turn)].renderedText;
       && user.Some?
       && call.input == ModelInput(T.Flatten(w.turns[call.conversation][..call.turn]) + [UserMessage(user.value)])
  }

  /** One reservation starts at most one execution. */
  predicate DistinctStarts(s: State, i: nat, j: nat)
    requires i < j < |s.starts|
  {
    s.starts[i].rec != s.starts[j].rec
  }

  ghost predicate LogsSound(s: State) {
    && (forall i {:trigger StartSound(s, i)} | 0 <= i < |s.starts| :: StartSound(s, i))
    && (forall i, j {:trigger DistinctStarts(s, i, j)} | 0 <= i < j < |s.starts| :: DistinctStarts(s, i, j))
    && (forall i {:trigger ReplaySound(s, i)} | 0 <= i < |s.replays| :: ReplaySound(s, i))
    && (forall i | 0 <= i < |s.calls| :: CallSoundIn(s.world, s.calls[i]))
  }

  ghost predicate StateSound(s: State) {
    && RegistrySound(s.registry, s.now)
    && T.Sound(s.world)
    && (forall q {:trigger RequestSound(s, q)} | q in s.requests :: RequestSound(s, q))
    && (forall id {:trigger FinalSoundIn(s, id)} | id in s.registry.finals :: FinalSoundIn(s, id))
    && LogsSound(s)
  }

  /** What no step takes back: reservations, written results, completed turns, the clock. */
  ghost predicate Grows(s: State, s': State) {
    && s.now <= s'.now
    && RegistryExtends(s.registry, s'.registry)
    && T.Extends(s.world, s'.world)
  }

  /** A step keeps the invariant and takes nothing back. */
  ghost predicate Keeps(s: State, s': State) {
    StateSound(s') && Grows(s, s')
  }

  // ---------------------------------------------------------------- what survives any step

  lemma CompletedKept(w: T.World, w': T.World, c: ConvId, r: RunId, text: string)
    requires T.Sound(w) && T.Extends(w, w') && T.CompletedRun(w, c, r, text)
    ensures T.CompletedRun(w', c, r, text)
  {
    var k: nat :| T.CompletedTurn(w, c, k, r, text);
    assert T.TurnExtends(w, w', c, k);
    assert T.CompletedTurn(w', c, k, r, text);
  }

  lemma CallKept(w: T.World, w': T.World, call: Call)
    requires T.Sound(w) && T.Extends(w, w') && CallSoundIn(w, call)
    ensures CallSoundIn(w', call)
  {
    var c := call.conversation;
    assert T.TurnExtends(w, w', c, call.turn);
    forall k | 0 <= k < call.turn
      ensures w'.turns[c][k] == w.turns[c][k]
    {
      assert T.ThreadSound(w, c) && T.TurnSound(w, c, k) && T.TurnExtends(w, w', c, k);
    }
    assert w'.turns[c][..call.turn] == w.turns[c][..call.turn];
  }

  /** The log of starts grew only by starts of `q`'s own reservations. */
  ghost predicate StartsBy(s: State, s': State, q: ReqId) {
    && |s.starts| <= |s'.starts|
    && (forall i | 0 <= i < |s.starts| :: s'.starts[i] == s.starts[i])
    && (forall i | |s.starts| <= i < |s'.starts| ::
          s'.starts[i].rec in s.registry.reservations && s.registry.reservations[s'.starts[i].rec].owner == q)
  }

  /** What a step of request `q` may do to the state the other requests see. */
  ghost predicate StepOf(s: State, s': State, q: ReqId) {
    && s.now <= s'.now
    && RegistrySound(s'.registry, s'.now) && RegistryExtends(s.registry, s'.registry)
    && T.Sound(s'.world) && T.Extends(s.world, s'.world)
    && (forall p | p in s.requests && p != q :: p in s'.requests && s'.requests[p] == s.requests[p])
    && (forall p | p in s'.requests && p != q :: p in s.requests)
    && (forall p | p in s.requests && p != q && InTurn(s.requests[p].phase) ::
          T.Untouched(s.world, s'.world, Conv(s.requests[p])))
    && (forall id | id in s'.registry.finals && id !in s.registry.finals ::
          id in s.registry.reservations && s.registry.reservations[id].owner == q)
    && StartsBy(s, s', q)
  }

  lemma HoldsKept(s: State, s': State, q: ReqId, p: ReqId, r: Request, rec: RecId)
    requires StepOf(s, s', q) && p != q && Holds(s.registry, p, r, rec)
    ensures Holds(s'.registry, p, r, rec)
    ensures NotStarted(s, rec) ==> NotStarted(s', rec)
  {
    if NotStarted(s, rec) {
      forall i | 0 <= i < |s'.starts|
        ensures s'.starts[i].rec != rec
      {
        if i < |s.starts| {
          assert s'.starts[i] == s.starts[i];
        }
      }
    }
  }

  lemma OwnTurnKept(s: State, s': State, p: ReqId, r: Request, turn: Turn, contribution: seq<GraphMessage>)
    requires T.Sound(s.world) && T.Untouched(s.world, s'.world, Conv(r)) && OwnTurn(s, p, r, turn, contribution)
    ensures OwnTurn(s', p, r, turn, contribution)
    ensures s'.world.checkpoints[Conv(r)] == s.world.checkpoints[Conv(r)]
  {
    var c := Conv(r);
    assert T.ThreadSound(s.world, c) && T.TurnSound(s.world, c, |s.world.turns[c]| - 1);
  }

  /** A request that does not move stays sound whatever another request does. */
  lemma OtherRequestKept(s: State, s': State, q: ReqId, p: ReqId)
    requires T.Sound(s.world) && StepOf(s, s', q)
    requires p in s.requests && p != q && RequestSound(s, p)
    ensures p in s'.requests && RequestSound(s', p)
  {
    var r := s.requests[p];
    var input := UserMessage(RenderedText(r.submission));
    match r.phase {
      case Reserved(rec) => HoldsKept(s, s', q, p, r, rec);
      case Opened(rec, turn) =>
        HoldsKept(s, s', q, p, r, rec);
        OwnTurnKept(s, s', p, r, turn, []);
      case Invoked(rec, turn, loaded) =>
        HoldsKept(s, s', q, p, r, rec);
        OwnTurnKept(s, s', p, r, turn, [input]);
      case Finished(rec, turn, answer) =>
        HoldsKept(s, s', q, p, r, rec);
        OwnTurnKept(s, s', p, r, turn, [input, AssistantMessage(answer)]);
      case Closed(rec, run, text) =>
        HoldsKept(s, s', q, p, r, rec);
        CompletedKept(s.world, s'.world, Conv(r), run, text);
      case Broken(rec, _) => HoldsKept(s, s', q, p, r, rec);
      case Ended(outcome) =>
        if outcome.Answered? {
          CompletedKept(s.world, s'.world, Conv(r), outcome.run, outcome.text);
        }
      case _ =>
    }
  }

  /** Whatever is not new in the logs and the finals stays sound. */
  lemma OldKept(s: State, s': State, q: ReqId)
    requires StateSound(s) && StepOf(s, s', q)
    ensures forall p {:trigger RequestSound(s', p)} | p in s'.requests && p != q :: RequestSound(s', p)
    ensures forall id {:trigger FinalSoundIn(s', id)} | id in s.registry.finals ::
              id in s'.registry.finals && FinalSoundIn(s', id)
    ensures forall i {:trigger StartSound(s', i)} | 0 <= i < |s.starts| :: StartSound(s', i)
    ensures forall i, j {:trigger DistinctStarts(s', i, j)} | 0 <= i < j < |s.starts| :: DistinctStarts(s', i, j)
    ensures forall i | 0 <= i < |s.calls| :: CallSoundIn(s'.world, s.calls[i])
  {
    forall p | p in s'.requests && p != q
      ensures RequestSound(s', p)
    {
      assert RequestSound(s, p);
      OtherRequestKept(s, s', q, p);
    }
    forall id | id in s.registry.finals
      ensures id in s'.registry.finals && FinalSoundIn(s', id)
    {
      assert FinalSoundIn(s, id);
      var final := s.registry.finals[id];
      if final.snapshot.ResponseSnapshot? {
        CompletedKept(s.world, s'.world, final.snapshot.conversation, final.snapshot.run, final.snapshot.text);
      }
    }
    forall i: nat | i < |s.starts|
      ensures StartSound(s', i)
    {
      assert StartSound(s, i);
      assert s'.starts[i] == s.starts[i];
    }
    forall i: nat, j: nat | i < j < |s.starts|
      ensures DistinctStarts(s', i, j)
    {
      assert DistinctStarts(s, i, j);
    }
    forall i | 0 <= i < |s.calls|
      ensures CallSoundIn(s'.world, s.calls[i])
    {
      CallKept(s.world, s'.world, s.calls[i]);
    }
  }

  lemma OldReplays(s: State, s': State, q: ReqId)
    requires StateSound(s) && StepOf(s, s', q)
    requires |s.replays| <= |s'.replays| && forall i | 0 <= i < |s.replays| :: s'.replays[i] == s.replays[i]
    ensures forall i {:trigger ReplaySound(s', i)} | 0 <= i < |s.replays| :: ReplaySound(s', i)
  {
    forall i: nat | i < |s.replays|
      ensures ReplaySound(s', i)
    {
      assert ReplaySound(s, i);
      assert s'.replays[i] == s.replays[i];
    }
  }

  /** What is new after a step: the request that moved, and the entries it logged. */
  ghost predicate NewSound(s: State, s': State, q: ReqId) {
    && (q in s'.requests ==> RequestSound(s', q))
    && (forall id {:trigger FinalSoundIn(s', id)} | id in s'.registry.finals
        && id !in s.registry.finals :: FinalSoundIn(s', id))
    && |s.starts| <= |s'.starts| <= |s.starts| + 1
    && (|s.starts| < |s'.starts| ==>
          && StartSound(s', |s.starts|)
          && NotStarted(s, s'.starts[|s.starts|].rec))
    && |s.replays| <= |s'.replays| <= |s.replays| + 1
    && (forall i | 0 <= i < |s.replays| :: s'.replays[i] == s.replays[i])
    && (|s.replays| < |s'.replays| ==> ReplaySound(s', |s.replays|))
    && |s.calls| <= |s'.calls| <= |s.calls| + 1
    && (forall i | 0 <= i < |s.calls| :: s'.calls[i] == s.calls[i])
    && (|s.calls| < |s'.calls| ==> CallSoundIn(s'.world, s'.calls[|s.calls|]))
  }

  /** The old obligations survive a step of `q`; the new ones are `NewSound`. */
  lemma StepCloses(s: State, s': State, q: ReqId)
    requires StateSound(s) && StepOf(s, s', q) && NewSound(s, s', q)
    ensures Keeps(s, s')
  {
    OldKept(s, s', q);
    OldReplays(s, s', q);
    forall p | p in s'.requests
      ensures RequestSound(s', p)
    {
    }
    forall id | id in s'.registry.finals
      ensures FinalSoundIn(s', id)
    {
      if id in s.registry.finals {
      }
    }
    assert LogsSound(s') by { NewLogs(s, s', q); }
  }

  lemma NewLogs(s: State, s': State, q: ReqId)
    requires StepOf(s, s', q) && NewSound(s, s', q)
    requires forall i {:trigger StartSound(s', i)} | 0 <= i < |s.starts| :: StartSound(s', i)
    requires forall i, j {:trigger DistinctStarts(s', i, j)} | 0 <= i < j < |s.starts| :: DistinctStarts(s', i, j)
    requires forall i {:trigger ReplaySound(s', i)} | 0 <= i < |s.replays| :: ReplaySound(s', i)
    requires forall i | 0 <= i < |s.calls| :: CallSoundIn(s'.world, s.calls[i])
    ensures LogsSound(s')
  {
    hide T.Sound, T.Extends, T.Untouched, RegistrySound, RegistryExtends;
    forall i: nat | i < |s'.replays|
      ensures ReplaySound(s', i)
    {
    }
    forall i: nat, j: nat | i < j < |s'.starts|
      ensures DistinctStarts(s', i, j)
    {
      if j == |s.starts| {
        assert s'.starts[i] == s.starts[i];
      }
    }
  }
}
