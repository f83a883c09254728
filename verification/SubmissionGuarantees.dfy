/** What the submission protocol promises over every run: the main results. */
module SubmissionGuarantees {
  import opened Wrappers
  import opened Agent
  import opened Transcript
  import opened Idempotency
  import opened Submission
  import opened SubmissionSound
  import opened SubmissionSteps
  import T = Threads

  // ---------------------------------------------------------------- at most one execution per key

  /** `execute` or `stream` was reached while reservation `id` was valid. */
  predicate StartedDuring(s: State, i: nat, id: RecId)
    requires i < |s.starts| && id in s.registry.reservations
  {
    s.registry.reservations[id].committedAt <= s.starts[i].at < s.registry.reservations[id].expiresAt
  }

  /** The request reached `execute` or `stream` only after its own reservation had expired. */
  predicate LateStart(s: State, i: nat)
    requires i < |s.starts| && s.starts[i].rec in s.registry.reservations
  {
    s.registry.reservations[s.starts[i].rec].expiresAt <= s.starts[i].at
  }

  /**
    While a reservation is valid, an execution for its key belongs to another reservation exactly when
    that execution starts late; so among punctual requests at most one executes.
   */
  lemma AtMostOnce(actions: seq<Action>, id: RecId, i: nat, j: nat)
    requires var s := Run(actions);
             && id in s.registry.reservations
             && i < j < |s.starts|
             && s.starts[i].key == s.starts[j].key == s.registry.reservations[id].key
             && StartedDuring(s, i, id) && StartedDuring(s, j, id)
    ensures var s := Run(actions);
            && s.starts[i].rec in s.registry.reservations
            && s.starts[j].rec in s.registry.reservations
            && (s.starts[i].rec != id <==> LateStart(s, i))
            && (s.starts[j].rec != id <==> LateStart(s, j))
            && (LateStart(s, i) || LateStart(s, j))
  {
    RunSound(actions);
    var s := Run(actions);
    OnlyLateIntrude(s, id, i);
    OnlyLateIntrude(s, id, j);
    assert DistinctStarts(s, i, j);
  }

  lemma OnlyLateIntrude(s: State, id: RecId, i: nat)
    requires StateSound(s) && id in s.registry.reservations && i < |s.starts|
    requires s.starts[i].key == s.registry.reservations[id].key && StartedDuring(s, i, id)
    ensures s.starts[i].rec in s.registry.reservations
    ensures s.starts[i].rec != id <==> LateStart(s, i)
  {
    assert StartSound(s, i);
    if !LateStart(s, i) {
      OneValidReservation(s.registry, s.now, s.starts[i].rec, id, s.starts[i].at);
    }
  }

  /** The answer a competing request gets while reservation `id` is valid. */
  predicate TurnedAway(s: State, q: ReqId, id: RecId)
    requires q in s.requests && id in s.registry.reservations
  {
    var r := s.requests[q];
    r.phase == Ended(
      if s.registry.reservations[id].fingerprint != r.submission.payload
      then Refused(ApiError(409, "idempotency_key_reused"))
      else if id in s.registry.finals then Replayed(s.registry.finals[id].status, s.registry.finals[id].snapshot)
      else Refused(ApiError(409, "idempotency_in_progress")))
  }

  lemma ValidRowAnswers(g: Registry, now: Time, id: RecId, payload: Payload)
    requires RegistrySound(g, now) && id in g.reservations && now < g.reservations[id].expiresAt
    ensures var key := g.reservations[id].key;
            && key in g.keys && g.keys[key].id == id && !Expired(g.keys, key, now)
            && ReservationForExisting(g.keys[key], payload) ==
                 (if g.reservations[id].fingerprint != payload then Err(KEY_REUSED)
                  else if id in g.finals then Ok(g.keys[key]) else Err(IN_PROGRESS))
            && (id in g.finals ==>
                  g.keys[key].responseStatus == Some(g.finals[id].status)
                    && g.keys[key].snapshot == Some(g.finals[id].snapshot))
  {
    assert ReservationSound(g, now, id);
    assert RowSound(g, g.reservations[id].key);
  }

  /**
    While a reservation is valid no other request reserves its key: the lookup answers at once, an insert
    under way loses, and the loser's second read answers. The answer is a 409 or the stored result, and
    nothing is written. The 409 for a missing result never occurs.
   */
  lemma OthersAreTurnedAway(actions: seq<Action>, id: RecId, q: ReqId)
    requires var s := Run(actions);
             && id in s.registry.reservations && s.now < s.registry.reservations[id].expiresAt
             && q in s.requests && s.requests[q].key == s.registry.reservations[id].key
    ensures var s := Run(actions);
            var phase := s.requests[q].phase;
            var looked := Apply(s, Lookup(q));
            var inserted := Apply(s, Insert(q));
            var reread := Apply(s, Reread(q));
            && (phase.Arrived? ==>
                  TurnedAway(looked, q, id) && looked.registry == s.registry && looked.world == s.world)
            && (phase.Looked? ==>
                  inserted.requests[q].phase == Lost && inserted.registry == s.registry && inserted.world == s.world)
            && (phase.Lost? ==>
                  TurnedAway(reread, q, id) && reread.registry == s.registry && reread.world == s.world)
  {
    hide DoArrive, DoOpen, DoInvoke, DoFinish, DoClose, DoBreak, DoSettle, DoStop, LogsSound, T.Sound;
    RunSound(actions);
    var s := Run(actions);
    ValidRowAnswers(s.registry, s.now, id, s.requests[q].submission.payload);
  }

  // ---------------------------------------------------------------- transcript

  ghost function RunsOf(t: Tables, c: ConvId): set<RunId> {
    set r | r in t.runs && t.runs[r].conversation == c
  }

  function Elements(runs: seq<RunId>): set<RunId> {
    set r | r in runs
  }

  lemma {:induction false} IncreasingSize(runs: seq<RunId>)
    requires forall i, j | 0 <= i < j < |runs| :: runs[i] < runs[j]
    ensures |Elements(runs)| == |runs|
  {
    if runs == [] {
      assert Elements(runs) == {};
    } else {
      var last := |runs| - 1;
      var most := runs[..last];
      IncreasingSize(most);
      assert runs == most + [runs[last]];
      assert Elements(runs) == Elements(most) + {runs[last]};
      assert runs[last] !in most;
    }
  }

  lemma RunsAreTurns(w: T.World, c: ConvId)
    requires T.Sound(w) && c in w.turns
    ensures |RunsOf(w.tables, c)| == |w.turns[c]|
  {
    assert T.ThreadSound(w, c);
    var runs := seq(|w.turns[c]|, i requires 0 <= i < |w.turns[c]| => w.turns[c][i].run);
    IncreasingSize(runs);
    forall r
      ensures r in RunsOf(w.tables, c) <==> r in runs
    {
      if r in RunsOf(w.tables, c) {
        assert T.RunListed(w, r);
        var k :| 0 <= k < |w.turns[c]| && w.turns[c][k].run == r;
        assert runs[k] == r;
      }
      if r in runs {
        var k :| 0 <= k < |runs| && runs[k] == r;
        assert T.TurnSound(w, c, k);
      }
    }
    assert RunsOf(w.tables, c) == Elements(runs);
  }

  /** Message positions are 1..latest with no gap, users at odd and assistants at even ones, two for each run. */
  lemma GaplessTranscript(actions: seq<Action>, c: ConvId)
    requires c in Run(actions).world.tables.conversations
    ensures var t := Run(actions).world.tables;
            && (forall n: nat :: Slot(c, n) in t.messages <==> 1 <= n <= t.conversations[c].latest)
            && (forall n: nat | Slot(c, n) in t.messages ::
                  t.messages[Slot(c, n)].role == if n % 2 == 1 then UserRole else AssistantRole)
            && t.conversations[c].latest == 2 * |RunsOf(t, c)|
  {
    RunSound(actions);
    var w := Run(actions).world;
    forall n: nat
      ensures Slot(c, n) in w.tables.messages <==> 1 <= n <= w.tables.conversations[c].latest
      ensures Slot(c, n) in w.tables.messages ==>
                w.tables.messages[Slot(c, n)].role == if n % 2 == 1 then UserRole else AssistantRole
    {
      T.Gapless(w, c, n);
      if Slot(c, n) in w.tables.messages {
        RoleAt(w, c, n);
      }
    }
    RunsAreTurns(w, c);
    assert T.ThreadSound(w, c);
  }

  lemma RoleAt(w: T.World, c: ConvId, n: nat)
    requires T.Sound(w) && c in w.turns && Slot(c, n) in w.tables.messages
    ensures w.tables.messages[Slot(c, n)].role == if n % 2 == 1 then UserRole else AssistantRole
  {
    T.Gapless(w, c, n);
    var k := (n - 1) / 2;
    assert T.ThreadSound(w, c) && T.TurnSound(w, c, k);
    assert Slot(c, n) == if n % 2 == 1 then T.UserSlot(c, k) else T.AssistantSlot(c, k);
  }

  /**
    A reserved request opens its turn exactly when its counter is current and no run is active; otherwise no table
    changes.
   */
  lemma OpensExactlyWhenCurrent(actions: seq<Action>, q: ReqId)
    requires q in Run(actions).requests && Run(actions).requests[q].phase.Reserved?
    ensures var s := Run(actions);
            var c := Conv(s.requests[q]);
            var s' := Apply(s, Open(q));
            && c in s.world.tables.conversations
            && (s'.requests[q].phase.Opened? <==>
                  s.requests[q].counter == s.world.tables.conversations[c].latest && !HasActiveRun(s.world.tables, c))
            && (!s'.requests[q].phase.Opened? ==>
                  s'.requests[q].phase == Broken(s.requests[q].phase.rec, Expected(ApiError(409, "conversation_busy")))
                  && s'.world == s.world && s'.registry == s.registry)
  {
    hide DoArrive, DoLookup, DoInsert, DoReread, DoInvoke, DoFinish, DoClose, DoBreak, DoSettle, DoStop,
      LogsSound, RegistrySound;
    RunSound(actions);
    var s := Run(actions);
    assert RequestSound(s, q);
    T.FitsExactly(s.world, Conv(s.requests[q]), s.requests[q].counter);
  }

  // ---------------------------------------------------------------- mutual exclusion and status agreement

  /** No two requests run a graph on one thread at the same time. */
  lemma OneGraphPerThread(actions: seq<Action>, p: ReqId, q: ReqId)
    requires var s := Run(actions);
             && p in s.requests && q in s.requests
             && InTurn(s.requests[p].phase) && InTurn(s.requests[q].phase)
             && Conv(s.requests[p]) == Conv(s.requests[q])
    ensures p == q
  {
    RunSound(actions);
    assert RequestSound(Run(actions), p) && RequestSound(Run(actions), q);
    if p != q {
      Elsewhere(Run(actions), p, q);
    }
  }

  /** The messages of a run are one user and one assistant message, and the assistant's status is the run's. */
  lemma RunOwnsTwoMessages(actions: seq<Action>, r: RunId)
    requires r in Run(actions).world.tables.runs
    ensures var t := Run(actions).world.tables;
            exists k: nat ::
              var user, assistant := T.UserSlot(t.runs[r].conversation, k), T.AssistantSlot(t.runs[r].conversation, k);
              && (forall m :: m in t.messages && t.messages[m].run == r <==> m == user || m == assistant)
              && t.messages[user].role == UserRole && t.messages[assistant].role == AssistantRole
              && (t.messages[assistant].status == Partial <==> t.runs[r].status == Running)
              && (t.messages[assistant].status == Complete <==> t.runs[r].status == RunCompleted)
              && (t.messages[assistant].status == ContentFailed <==> t.runs[r].status == RunFailed)
  {
    RunSound(actions);
    var w := Run(actions).world;
    var c := w.tables.runs[r].conversation;
    assert T.RunListed(w, r);
    var k: nat :| k < |w.turns[c]| && w.turns[c][k].run == r;
    assert T.ThreadSound(w, c) && T.TurnSound(w, c, k);
    forall m | m in w.tables.messages && w.tables.messages[m].run == r
      ensures m == T.UserSlot(c, k) || m == T.AssistantSlot(c, k)
    {
      MessageOfTurn(w, c, k, m);
    }
  }

  lemma MessageOfTurn(w: T.World, c: ConvId, k: nat, m: Slot)
    requires T.Sound(w) && c in w.turns && k < |w.turns[c]|
    requires m in w.tables.messages && w.tables.messages[m].run == w.turns[c][k].run
    ensures m == T.UserSlot(c, k) || m == T.AssistantSlot(c, k)
  {
    assert T.SlotListed(w, m);
    var d := m.conversation;
    var j := (m.sequence - 1) / 2;
    assert T.ThreadSound(w, d) && T.TurnSound(w, d, j);
    assert m == T.UserSlot(d, j) || m == T.AssistantSlot(d, j);
    assert T.ThreadSound(w, c) && T.TurnSound(w, c, k);
  }

  /** The run of a turn is terminal with this status, and a request reading the counter now can open the next turn. */
  predicate Freed(t: Tables, turn: Turn, c: ConvId, status: RunStatus) {
    && turn.run in t.runs && t.runs[turn.run].status == status
    && c in t.conversations && TurnFits(t, c, t.conversations[c].latest)
  }

  /** A turn that ends by an exception, wherever it had got to, leaves a failed run and an idle conversation. */
  lemma FailedTurnFreesConversation(actions: seq<Action>, q: ReqId, failure: Failure)
    requires q in Run(actions).requests && InTurn(Run(actions).requests[q].phase)
    ensures var s := Run(actions);
            var r := s.requests[q];
            var s' := Apply(s, Break(q, failure));
            && q in s'.requests && s'.requests[q] == r.(phase := Broken(r.phase.rec, failure))
            && Freed(s'.world.tables, r.phase.turn, Conv(r), RunFailed)
            && s'.world.tables.runs[r.phase.turn.run].errorCode
               == Some(if failure.Expected? then failure.error.code else "agent_execution_failed")
  {
    hide DoArrive, DoLookup, DoInsert, DoReread, DoOpen, DoInvoke, DoFinish, DoClose, DoSettle, DoStop,
      RegistrySound, LogsSound, T.Extends, T.OnlyTouches;
    RunSound(actions);
    var s := Run(actions);
    var c := Conv(s.requests[q]);
    assert RequestSound(s, q);
    BrokenWorld(s, q, failure);
    T.FitsExactly(Apply(s, Break(q, failure)).world, c, s.world.tables.conversations[c].latest);
  }

  /** A turn that ends by its answer stores exactly that answer, and leaves a completed run and an idle conversation. */
  lemma AnsweredTurnFreesConversation(actions: seq<Action>, q: ReqId)
    requires q in Run(actions).requests && Run(actions).requests[q].phase.Finished?
    ensures var s := Run(actions);
            var r := s.requests[q];
            var s' := Apply(s, Close(q));
            && q in s'.requests && s'.requests[q] == r.(phase := Closed(r.phase.rec, r.phase.turn.run, r.phase.answer))
            && T.CompletedRun(s'.world, Conv(r), r.phase.turn.run, r.phase.answer)
            && Freed(s'.world.tables, r.phase.turn, Conv(r), RunCompleted)
  {
    hide DoArrive, DoLookup, DoInsert, DoReread, DoOpen, DoInvoke, DoFinish, DoBreak, DoSettle, DoStop,
      RegistrySound, LogsSound, T.Extends, T.OnlyTouches;
    RunSound(actions);
    var s := Run(actions);
    var r := s.requests[q];
    assert RequestSound(s, q);
    OwnAnswer(s, q);
    T.CloseSound(s.world, Conv(r), r.phase.turn, q, UserMessage(RenderedText(r.submission)), r.phase.answer);
    var w' := Apply(s, Close(q)).world;
    T.FitsExactly(w', Conv(r), s.world.tables.conversations[Conv(r)].latest);
    assert T.CompletedTurn(w', Conv(r), |s.world.turns[Conv(r)]| - 1, r.phase.turn.run, r.phase.answer);
  }

  // ---------------------------------------------------------------- replay agreement

  /** A stored success names a completed run of the key's conversation and repeats that run's stored text. */
  lemma CompletedRecordAgrees(actions: seq<Action>, key: Key)
    requires key in Run(actions).registry.keys && Run(actions).registry.keys[key].status == KeyCompleted
    ensures var s := Run(actions);
            var record := s.registry.keys[key];
            exists r: RunId, text: string ::
              && record.responseStatus == Some(200)
              && record.conversation == Some(key.route.conversation)
              && record.run == Some(r)
              && record.snapshot == Some(ResponseSnapshot(key.route.conversation, r, text))
              && T.CompletedRun(s.world, key.route.conversation, r, text)
  {
    RunSound(actions);
    var s := Run(actions);
    assert RowSound(s.registry, key);
    var record := s.registry.keys[key];
    assert FinalSoundIn(s, record.id);
    var final := s.registry.finals[record.id];
    assert T.CompletedRun(s.world, key.route.conversation, final.snapshot.run, final.snapshot.text);
  }

  /**
    While its reservation is valid a request that ended its turn writes its result, and the result is the
    outcome it returns; only after expiry can the row be gone.
   */
  lemma SettleStoresTheOutcome(actions: seq<Action>, q: ReqId)
    requires q in Run(actions).requests
    requires Run(actions).requests[q].phase.Closed? || Run(actions).requests[q].phase.Broken?
    ensures var s := Run(actions);
            var r := s.requests[q];
            var rec := r.phase.rec;
            var s' := Apply(s, Settle(q));
            && rec in s.registry.reservations && q in s'.requests
            && (s'.requests[q].phase == Ended(Crashed) ==>
                  s.registry.reservations[rec].expiresAt <= s.now && s'.registry == s.registry)
            && (s'.requests[q].phase != Ended(Crashed) ==>
                  && rec in s'.registry.finals
                  && match r.phase
                     case Closed(_, run, text) =>
                       && s'.requests[q].phase == Ended(Answered(run, text))
                       && s'.registry.finals[rec] == Final(200, ResponseSnapshot(Conv(r), run, text))
                     case Broken(_, failure) =>
                       && s'.requests[q].phase == Ended(FailedWith(failure))
                       && s'.registry.finals[rec] == (if failure.Expected?
                            then Final(failure.error.status, ErrorSnapshot(failure.error.code))
                            else Final(500, ErrorSnapshot("internal_error")))
                     case _ => false)
  {
    hide DoArrive, DoLookup, DoInsert, DoReread, DoOpen, DoInvoke, DoFinish, DoClose, DoBreak, DoStop,
      LogsSound, T.Sound;
    RunSound(actions);
    var s := Run(actions);
    assert RequestSound(s, q);
    assert ReservationSound(s.registry, s.now, s.requests[q].phase.rec);
  }

  /** All replays of one reservation return its one result, and only to its own fingerprint. */
  lemma ReplaysAgree(actions: seq<Action>, i: nat, j: nat)
    requires i < |Run(actions).replays| && j < |Run(actions).replays|
    requires Run(actions).replays[i].rec == Run(actions).replays[j].rec
    ensures var s := Run(actions);
            && s.replays[i].final == s.replays[j].final
            && s.replays[i].fingerprint == s.replays[j].fingerprint
            && s.replays[i].rec in s.registry.reservations
            && s.replays[i].fingerprint == s.registry.reservations[s.replays[i].rec].fingerprint
            && s.replays[i].key == s.registry.reservations[s.replays[i].rec].key
  {
    RunSound(actions);
    assert ReplaySound(Run(actions), i) && ReplaySound(Run(actions), j);
  }

  /** Results and completed turns stay fixed however the run goes on. */
  lemma {:induction false} ResultsStayFixed(before: seq<Action>, after: seq<Action>)
    ensures Grows(Run(before), Run(before + after))
  {
    RunSound(before);
    if after == [] {
      assert before + after == before;
      NoStep(Run(before));
    } else {
      var most := after[..|after| - 1];
      assert (before + after)[..|before + after| - 1] == before + most;
      ResultsStayFixed(before, most);
      RunSound(before + most);
      StepSound(Run(before + most), after[|after| - 1]);
      GrowsTransitive(Run(before), Run(before + most), Run(before + after));
    }
  }

  lemma GrowsTransitive(s: State, s': State, s'': State)
    requires StateSound(s) && StateSound(s') && Grows(s, s') && Grows(s', s'')
    ensures Grows(s, s'')
  {
    forall c, k | c in s.world.turns && 0 <= k < |s.world.turns[c]|
      ensures T.TurnExtends(s.world, s''.world, c, k)
    {
      assert T.TurnExtends(s.world, s'.world, c, k);
      assert T.TurnExtends(s'.world, s''.world, c, k);
      assert T.ThreadSound(s.world, c) && T.TurnSound(s.world, c, k);
    }
  }

  // ---------------------------------------------------------------- checkpoint and transcript

  /** The stored texts of the first `k` turns, in sequence order. */
  function StoredTexts(t: Tables, c: ConvId, k: nat): seq<GraphMessage> {
    if k == 0 then []
    else StoredTexts(t, c, k - 1) + [UserMessage(StoredText(t, T.UserSlot(c, k - 1))),
                                     AssistantMessage(StoredText(t, T.AssistantSlot(c, k - 1)))]
  }

  function StoredText(t: Tables, slot: Slot): string {
    if slot in t.messages && t.messages[slot].renderedText.Some? then t.messages[slot].renderedText.value else ""
  }

  predicate TurnCompleted(w: T.World, c: ConvId, k: nat)
    requires c in w.turns && k < |w.turns[c]|
  {
    w.turns[c][k].run in w.tables.runs && w.tables.runs[w.turns[c][k].run].status == RunCompleted
  }

  lemma {:induction false} CheckpointIsTranscript(w: T.World, c: ConvId, k: nat)
    requires T.Sound(w) && c in w.turns && k <= |w.turns[c]|
    requires forall j | 0 <= j < k :: TurnCompleted(w, c, j)
    ensures T.Flatten(w.turns[c][..k]) == StoredTexts(w.tables, c, k)
  {
    if k > 0 {
      CheckpointIsTranscript(w, c, k - 1);
      assert w.turns[c][..k][..k - 1] == w.turns[c][..k - 1];
      assert T.ThreadSound(w, c) && T.TurnSound(w, c, k - 1) && TurnCompleted(w, c, k - 1);
      var contribution := w.turns[c][k - 1].contribution;
      assert contribution == [contribution[0], contribution[1]];
    }
  }

  lemma {:induction false} StoredTextsAt(t: Tables, c: ConvId, k: nat, j: nat)
    requires j < k
    ensures |StoredTexts(t, c, k)| == 2 * k
    ensures StoredTexts(t, c, k)[2 * j] == UserMessage(StoredText(t, T.UserSlot(c, j)))
    ensures StoredTexts(t, c, k)[2 * j + 1] == AssistantMessage(StoredText(t, T.AssistantSlot(c, j)))
    decreases k
  {
    if j < k - 1 {
      StoredTextsAt(t, c, k - 1, j);
    } else {
      StoredTextsSize(t, c, k - 1);
    }
  }

  lemma {:induction false} StoredTextsSize(t: Tables, c: ConvId, k: nat)
    ensures |StoredTexts(t, c, k)| == 2 * k
  {
    if k > 0 {
      StoredTextsSize(t, c, k - 1);
    }
  }

  /** A chat message of a user at this place, with the text stored at this slot. */
  predicate SaysUser(input: seq<ChatMessage>, at: nat, t: Tables, slot: Slot) {
    && slot in t.messages && t.messages[slot].renderedText.Some?
    && at < |input| && input[at] == HumanChat(t.messages[slot].renderedText.value)
  }

  predicate SaysAssistant(input: seq<ChatMessage>, at: nat, t: Tables, slot: Slot) {
    && slot in t.messages && t.messages[slot].renderedText.Some?
    && at < |input| && input[at] == AIChat(t.messages[slot].renderedText.value)
  }

  /** Each completed turn is in the input with both its stored texts, in the roles they were written. */
  lemma InputSays(w: T.World, call: Call, j: nat)
    requires T.Sound(w) && CallSoundIn(w, call) && j < call.turn && TurnCompleted(w, call.conversation, j)
    requires T.Flatten(w.turns[call.conversation][..call.turn]) == StoredTexts(w.tables, call.conversation, call.turn)
    ensures SaysUser(call.input, 2 * j + 1, w.tables, T.UserSlot(call.conversation, j))
    ensures SaysAssistant(call.input, 2 * j + 2, w.tables, T.AssistantSlot(call.conversation, j))
  {
    StoredTextsAt(w.tables, call.conversation, call.turn, j);
    assert T.ThreadSound(w, call.conversation) && T.TurnSound(w, call.conversation, j);
  }

  /**
    If every earlier turn of the thread completed, the model was called with the system prompt, then for each turn
    the stored input as the user's and the stored answer as the assistant's, and last the new input as stored.
   */
  lemma ModelSeesTranscript(actions: seq<Action>, i: nat)
    requires i < |Run(actions).calls|
    requires var s := Run(actions);
             var call := s.calls[i];
             call.conversation in s.world.turns && call.turn < |s.world.turns[call.conversation]| &&
             forall j | 0 <= j < call.turn :: TurnCompleted(s.world, call.conversation, j)
    ensures var t, call := Run(actions).world.tables, Run(actions).calls[i];
            && |call.input| == 2 * call.turn + 2
            && call.input[0] == SystemChat(SYSTEM_PROMPT)
            && (forall j | 0 <= j < call.turn ::
                  && SaysUser(call.input, 2 * j + 1, t, T.UserSlot(call.conversation, j))
                  && SaysAssistant(call.input, 2 * j + 2, t, T.AssistantSlot(call.conversation, j)))
            && SaysUser(call.input, 2 * call.turn + 1, t, T.UserSlot(call.conversation, call.turn))
  {
    RunSound(actions);
    var s := Run(actions);
    var call := s.calls[i];
    assert CallSoundIn(s.world, call);
    CheckpointIsTranscript(s.world, call.conversation, call.turn);
    StoredTextsSize(s.world.tables, call.conversation, call.turn);
    forall j | 0 <= j < call.turn
      ensures SaysUser(call.input, 2 * j + 1, s.world.tables, T.UserSlot(call.conversation, j))
      ensures SaysAssistant(call.input, 2 * j + 2, s.world.tables, T.AssistantSlot(call.conversation, j))
    {
      InputSays(s.world, call, j);
    }
  }

  /** Failed turns included: a turn adds its stored input first, and a completed turn its stored answer after it. */
  lemma CheckpointOfAnyTurn(actions: seq<Action>, c: ConvId, k: nat)
    requires var w := Run(actions).world; c in w.turns && k < |w.turns[c]|
    ensures var w := Run(actions).world;
            var contribution := w.turns[c][k].contribution;
            var user := UserMessage(StoredText(w.tables, T.UserSlot(c, k)));
            var assistant := AssistantMessage(StoredText(w.tables, T.AssistantSlot(c, k)));
            && (TurnCompleted(w, c, k) ==> contribution == [user, assistant])
            && (contribution == [] || contribution[0] == user)
            && |contribution| <= 2
            && c in w.checkpoints && w.checkpoints[c].messages == T.Flatten(w.turns[c])
  {
    RunSound(actions);
    var w := Run(actions).world;
    assert T.ThreadSound(w, c) && T.TurnSound(w, c, k);
    var contribution := w.turns[c][k].contribution;
    if TurnCompleted(w, c, k) {
      assert contribution == [contribution[0], contribution[1]];
    }
  }

  /** The last answer among the messages of a thread. */
  function LastAnswer(messages: seq<GraphMessage>): Option<string> {
    if messages == [] then None
    else
      var last := messages[|messages| - 1];
      if last.AssistantMessage? then Some(last.content) else LastAnswer(messages[..|messages| - 1])
  }

  predicate AnswerIsLast(s: State, c: ConvId)
    requires c in s.world.checkpoints
  {
    s.world.checkpoints[c].finalAnswer == LastAnswer(s.world.checkpoints[c].messages)
  }

  lemma LastOfAppended(messages: seq<GraphMessage>, added: GraphMessage)
    ensures LastAnswer(messages + [added]) ==
            if added.AssistantMessage? then Some(added.content) else LastAnswer(messages)
  {
    assert (messages + [added])[..|messages + [added]| - 1] == messages;
  }

  lemma InvokeKeepsLast(s: State, q: ReqId, c: ConvId)
    requires c in s.world.checkpoints && AnswerIsLast(s, c)
    ensures c in DoInvoke(s, q).world.checkpoints && AnswerIsLast(DoInvoke(s, q), c)
  {
    hide RenderedText, LastAnswer, ModelInput;
    if q in s.requests {
      LastOfAppended(s.world.checkpoints[c].messages, UserMessage(RenderedText(s.requests[q].submission)));
    }
  }

  lemma LoadedThread(s: State, q: ReqId)
    requires q in s.requests && RequestSound(s, q) && s.requests[q].phase.Invoked?
    ensures Conv(s.requests[q]) in s.world.checkpoints
    ensures s.requests[q].phase.loaded == s.world.checkpoints[Conv(s.requests[q])].messages
  {
    hide T.Running, RenderedText, KeyOf;
  }

  lemma FinishSetsLast(s: State, q: ReqId, answer: string, c: ConvId)
    requires c in s.world.checkpoints && AnswerIsLast(s, c)
    requires q in s.requests && s.requests[q].phase.Invoked? && Conv(s.requests[q]) in s.world.checkpoints ==>
        s.requests[q].phase.loaded == s.world.checkpoints[Conv(s.requests[q])].messages
    ensures c in DoFinish(s, q, answer).world.checkpoints && AnswerIsLast(DoFinish(s, q, answer), c)
  {
    hide LastAnswer;
    LastOfAppended(s.world.checkpoints[c].messages, AssistantMessage(answer));
  }

  lemma CheckpointStays(s: State, a: Action, c: ConvId)
    requires !a.Invoke? && !a.Finish? && c in Apply(s, a).world.checkpoints
    requires s.world.checkpoints.Keys == s.world.tables.conversations.Keys
    ensures if c in s.world.checkpoints then Apply(s, a).world.checkpoints[c] == s.world.checkpoints[c]
            else Apply(s, a).world.checkpoints[c] == T.Checkpoint([], None)
  {
    hide DoInvoke, DoFinish, RenderedText, KeyOf, Admission, ReservationForExisting, LookupCommit, ReserveCommit,
      CompleteCommit, FailCommit, TurnFits, OpenTurn, CloseTurn, FailTurn;
  }

  /** The final answer a thread recalls is the last answer among its messages. */
  lemma {:induction false} FinalAnswerIsLast(actions: seq<Action>, c: ConvId)
    requires c in Run(actions).world.checkpoints
    ensures AnswerIsLast(Run(actions), c)
  {
    hide DoArrive, DoLookup, DoInsert, DoReread, DoOpen, DoInvoke, DoFinish, DoClose, DoBreak, DoSettle, DoStop,
      LogsSound, RegistrySound, T.ThreadSound, RequestSound, AnswerIsLast;
    if actions != [] {
      var s, a := Run(actions[..|actions| - 1]), actions[|actions| - 1];
      RunSound(actions[..|actions| - 1]);
      if c in s.world.checkpoints {
        FinalAnswerIsLast(actions[..|actions| - 1], c);
      }
      if a.Invoke? {
        NoNewThread(s, a, c);
        InvokeKeepsLast(s, a.q, c);
      } else if a.Finish? {
        NoNewThread(s, a, c);
        if a.q in s.requests && s.requests[a.q].phase.Invoked? {
          assert RequestSound(s, a.q);
          LoadedThread(s, a.q);
        }
        FinishSetsLast(s, a.q, a.answer, c);
      } else {
        CheckpointStays(s, a, c);
        assert AnswerIsLast(Apply(s, a), c) by { Unchanged(s, a, c); }
      }
    }
  }

  lemma NoNewThread(s: State, a: Action, c: ConvId)
    requires (a.Invoke? || a.Finish?) && c in Apply(s, a).world.checkpoints
    ensures c in s.world.checkpoints
  {
    hide RenderedText, KeyOf;
  }

  lemma Unchanged(s: State, a: Action, c: ConvId)
    requires c in Apply(s, a).world.checkpoints
    requires c in s.world.checkpoints ==> AnswerIsLast(s, c)
    requires if c in s.world.checkpoints then Apply(s, a).world.checkpoints[c] == s.world.checkpoints[c]
             else Apply(s, a).world.checkpoints[c] == T.Checkpoint([], None)
    ensures AnswerIsLast(Apply(s, a), c)
  {
    hide Apply;
  }
}
