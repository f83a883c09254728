/** Runs that must exist: a lone submission completes and its retry replays; a late start can overlap. */
module SubmissionProgress {
  import opened Wrappers
  import opened Agent
  import opened Transcript
  import opened Idempotency
  import opened Submission
  import opened SubmissionSound
  import opened SubmissionSteps
  import T = Threads

  /** The request is new, its submission acceptable and its key free or expired. */
  predicate MayReserve(s: State, q: ReqId, sub: Submission) {
    && q !in s.requests
    && Admission(s, sub) == None
    && (KeyOf(sub) in s.registry.keys ==> s.registry.keys[KeyOf(sub)].expiresAt <= s.now)
  }

  /** A request that may reserve, to an idle conversation. */
  predicate Welcome(s: State, q: ReqId, sub: Submission) {
    MayReserve(s, q, sub) && !HasActiveRun(s.world.tables, sub.route.conversation)
  }

  /** What an arrival and a reservation without interference do. */
  predicate ReservedBy(s: State, s': State, q: ReqId, sub: Submission) {
    var c, rec := sub.route.conversation, s.registry.nextRecord;
    && s'.now == s.now && s'.world == s.world && s'.starts == s.starts
    && c in s.world.tables.conversations
    && s'.requests == s.requests[q := Request(sub, KeyOf(sub), s.world.tables.conversations[c].latest, Reserved(rec))]
    && s'.registry.nextRecord == rec + 1
    && rec in s'.registry.reservations
    && s'.registry.reservations[rec] == Reservation(KeyOf(sub), sub.payload, q, s.now, s.now + RETENTION)
    && KeyOf(sub) in s'.registry.keys
    && s'.registry.keys[KeyOf(sub)] == NewRecord(rec, sub.payload, s.now + RETENTION)
  }

  /** Conversations keep owner and deletion state. */
  predicate SameOwners(w: T.World, w': T.World) {
    && w'.tables.conversations.Keys == w.tables.conversations.Keys
    && forall c | c in w.tables.conversations ::
         && w'.tables.conversations[c].owner == w.tables.conversations[c].owner
         && w'.tables.conversations[c].deleted == w.tables.conversations[c].deleted
  }

  /** What each of the following steps leaves alone. */
  predicate Quiet(s: State, s': State, q: ReqId) {
    && s'.now == s.now
    && SameOwners(s.world, s'.world)
    && s'.requests.Keys == s.requests.Keys + {q}
    && q in s'.requests
    && (q in s.requests ==>
          s'.requests[q].submission == s.requests[q].submission && s'.requests[q].key == s.requests[q].key)
  }

  lemma ArriveAlone(s: State, q: ReqId, sub: Submission)
    requires q !in s.requests && Admission(s, sub) == None
    ensures var s' := DoArrive(s, q, sub);
            && Quiet(s, s', q) && s'.world == s.world && s'.registry == s.registry && s'.starts == s.starts
            && s'.requests == s.requests[q :=
                 Request(sub, KeyOf(sub), s.world.tables.conversations[sub.route.conversation].latest, Arrived)]
  {
  }

  // ---------------------------------------------------------------- traces

  predicate StepAt(t: seq<State>, steps: seq<Action>, i: nat)
    requires i < |steps| && |t| == |steps| + 1
  {
    t[i + 1] == Apply(t[i], steps[i])
  }

  /** `t` lists the states before, between and after `steps`. */
  ghost predicate Follows(t: seq<State>, steps: seq<Action>) {
    |t| == |steps| + 1 && forall i: nat {:trigger StepAt(t, steps, i)} | i < |steps| :: StepAt(t, steps, i)
  }

  lemma StepAppended(u: seq<State>, most: seq<Action>, action: Action)
    requires Follows(u, most)
    ensures Follows(u + [Apply(u[|most|], action)], most + [action])
  {
    var t, steps := u + [Apply(u[|most|], action)], most + [action];
    forall i: nat | i < |steps|
      ensures StepAt(t, steps, i)
    {
      if i < |most| {
        assert StepAt(u, most, i);
        assert t[i] == u[i] && t[i + 1] == u[i + 1] && steps[i] == most[i];
      }
    }
  }

  lemma {:induction false} TraceOfRun(actions: seq<Action>, steps: seq<Action>) returns (t: seq<State>)
    ensures Follows(t, steps) && t[0] == Run(actions) && t[|steps|] == Run(actions + steps)
  {
    if steps == [] {
      assert actions + steps == actions;
      t := [Run(actions)];
    } else {
      var most := steps[..|steps| - 1];
      var u := TraceOfRun(actions, most);
      var last := steps[|steps| - 1];
      assert (actions + steps)[..|actions + steps| - 1] == actions + most;
      assert steps == most + [last];
      StepAppended(u, most, last);
      t := u + [Apply(u[|most|], last)];
    }
  }

  lemma {:induction false} TraceSound(t: seq<State>, steps: seq<Action>, i: nat)
    requires Follows(t, steps) && StateSound(t[0]) && i <= |steps|
    ensures StateSound(t[i])
  {
    hide DoArrive, DoLookup, DoInsert, DoReread, DoOpen, DoInvoke, DoFinish, DoClose, DoBreak, DoSettle, DoStop, Grows;
    if i > 0 {
      TraceSound(t, steps, i - 1);
      assert StepAt(t, steps, i - 1);
      StepSound(t[i - 1], steps[i - 1]);
    }
  }

  /** What is known of a submission that runs alone before each step of its turn. */
  ghost predicate Stage(s: State, q: ReqId, retry: ReqId, sub: Submission, rec: RecId, phase: Phase) {
    && q in s.requests && retry !in s.requests && retry != q
    && Admission(s, sub) == None
    && s.requests[q].submission == sub && s.requests[q].key == KeyOf(sub) && s.requests[q].phase == phase
    && KeyOf(sub) in s.registry.keys
    && s.registry.keys[KeyOf(sub)] == NewRecord(rec, sub.payload, s.now + RETENTION)
  }

  lemma InsertAlone(s: State, q: ReqId)
    requires q in s.requests && s.requests[q].phase == Arrived
    requires s.requests[q].key in s.registry.keys ==> s.registry.keys[s.requests[q].key].expiresAt <= s.now
    ensures var r, rec := s.requests[q], s.registry.nextRecord;
            var s' := DoInsert(DoLookup(s, q), q);
            && s'.now == s.now && s'.world == s.world && s'.starts == s.starts
            && s'.requests == s.requests[q := r.(phase := Reserved(rec))]
            && s'.registry.nextRecord == rec + 1
            && rec in s'.registry.reservations
            && s'.registry.reservations[rec] == Reservation(r.key, r.submission.payload, q, s.now, s.now + RETENTION)
            && r.key in s'.registry.keys
            && s'.registry.keys[r.key] == NewRecord(rec, r.submission.payload, s.now + RETENTION)
  {
  }

  lemma ReservesAt(t: seq<State>, steps: seq<Action>, i: nat, q: ReqId, sub: Submission)
    requires Follows(t, steps) && i + 2 < |steps|
    requires steps[i] == Arrive(q, sub) && steps[i + 1] == Lookup(q) && steps[i + 2] == Insert(q)
    requires MayReserve(t[i], q, sub)
    ensures ReservedBy(t[i], t[i + 3], q, sub)
  {
    hide DoArrive, DoLookup, DoInsert, DoReread, DoOpen, DoInvoke, DoFinish, DoClose, DoBreak, DoSettle, DoStop,
      T.Create, T.Delete;
    ArriveAlone(t[i], q, sub);
    assert t[i + 1] == DoArrive(t[i], q, sub) by { assert StepAt(t, steps, i); }
    InsertAlone(t[i + 1], q);
    assert t[i + 3] == DoInsert(DoLookup(t[i + 1], q), q) by {
      assert StepAt(t, steps, i + 1) && StepAt(t, steps, i + 2);
    }
  }

  /** After its reservation a welcome submission meets the conditions of its turn. */
  lemma ReservedStage(s: State, s': State, q: ReqId, retry: ReqId, sub: Submission)
    requires ReservedBy(s, s', q, sub) && Welcome(s, q, sub) && retry !in s.requests && retry != q
    ensures Stage(s', q, retry, sub, s.registry.nextRecord, Reserved(s.registry.nextRecord))
    ensures !HasActiveRun(s'.world.tables, sub.route.conversation) && s'.world.nextRun == s.world.nextRun
    ensures s'.requests[q].counter == s'.world.tables.conversations[sub.route.conversation].latest
  {
  }

  lemma StageOpen(s: State, q: ReqId, retry: ReqId, sub: Submission, rec: RecId) returns (turn: Turn)
    requires T.Sound(s.world) && Stage(s, q, retry, sub, rec, Reserved(rec)) && RequestSound(s, q)
    requires !HasActiveRun(s.world.tables, sub.route.conversation)
    requires s.requests[q].counter == s.world.tables.conversations[sub.route.conversation].latest
    ensures Stage(DoOpen(s, q), q, retry, sub, rec, Opened(rec, turn)) && turn.run == s.world.nextRun
  {
    T.FitsExactly(s.world, sub.route.conversation, s.requests[q].counter);
    turn := DoOpen(s, q).requests[q].phase.turn;
  }

  lemma StageInvoke(s: State, q: ReqId, retry: ReqId, sub: Submission, rec: RecId, turn: Turn)
    returns (loaded: seq<GraphMessage>)
    requires Stage(s, q, retry, sub, rec, Opened(rec, turn)) && RequestSound(s, q)
    ensures Stage(DoInvoke(s, q), q, retry, sub, rec, Invoked(rec, turn, loaded))
  {
    loaded := DoInvoke(s, q).requests[q].phase.loaded;
  }

  lemma StageFinish(s: State, q: ReqId, retry: ReqId, sub: Submission, rec: RecId, turn: Turn,
                    loaded: seq<GraphMessage>, answer: string)
    requires Stage(s, q, retry, sub, rec, Invoked(rec, turn, loaded)) && RequestSound(s, q)
    ensures Stage(DoFinish(s, q, answer), q, retry, sub, rec, Finished(rec, turn, answer))
  {
  }

  lemma StageClose(s: State, q: ReqId, retry: ReqId, sub: Submission, rec: RecId, turn: Turn, answer: string)
    requires Stage(s, q, retry, sub, rec, Finished(rec, turn, answer)) && RequestSound(s, q)
    ensures Stage(DoClose(s, q), q, retry, sub, rec, Closed(rec, turn.run, answer))
  {
  }

  /** The submission was answered, and its stored result is what a retry will find. */
  ghost predicate Done(s: State, q: ReqId, retry: ReqId, sub: Submission, run: RunId, answer: string) {
    && q in s.requests && retry !in s.requests && retry != q
    && Admission(s, sub) == None
    && s.requests[q].phase == Ended(Answered(run, answer))
    && T.CompletedRun(s.world, sub.route.conversation, run, answer)
    && KeyOf(sub) in s.registry.keys
    && s.now < s.registry.keys[KeyOf(sub)].expiresAt
    && ReservationForExisting(s.registry.keys[KeyOf(sub)], sub.payload) == Ok(s.registry.keys[KeyOf(sub)])
    && s.registry.keys[KeyOf(sub)].responseStatus == Some(200)
    && s.registry.keys[KeyOf(sub)].snapshot == Some(ResponseSnapshot(sub.route.conversation, run, answer))
  }

  lemma StageSettle(s: State, q: ReqId, retry: ReqId, sub: Submission, rec: RecId, run: RunId, answer: string)
    requires Stage(s, q, retry, sub, rec, Closed(rec, run, answer)) && RequestSound(s, q)
    ensures Done(DoSettle(s, q), q, retry, sub, run, answer)
  {
  }

  lemma StageRetry(s: State, q: ReqId, retry: ReqId, sub: Submission, run: RunId, answer: string)
    requires Done(s, q, retry, sub, run, answer)
    ensures var s' := DoLookup(DoArrive(s, retry, sub), retry);
            Replays(s', q, retry, sub, run, answer) && s'.world == s.world
  {
    ArriveAlone(s, retry, sub);
  }

  /** `q` was answered by a run that completed with this text, and `retry` by a replay of the same result. */
  ghost predicate Replays(s: State, q: ReqId, retry: ReqId, sub: Submission, run: RunId, answer: string) {
    && q in s.requests && s.requests[q].phase == Ended(Answered(run, answer))
    && T.CompletedRun(s.world, sub.route.conversation, run, answer)
    && retry in s.requests
    && s.requests[retry].phase == Ended(Replayed(200, ResponseSnapshot(sub.route.conversation, run, answer)))
  }

  /** An undisturbed submission followed by an undisturbed retry. */
  predicate Scripted(steps: seq<Action>, q: ReqId, retry: ReqId, sub: Submission, answer: string) {
    && |steps| == 10
    && steps[0] == Arrive(q, sub) && steps[1] == Lookup(q) && steps[2] == Insert(q) && steps[3] == Open(q)
    && steps[4] == Invoke(q) && steps[5] == Finish(q, answer) && steps[6] == Close(q) && steps[7] == Settle(q)
    && steps[8] == Arrive(retry, sub) && steps[9] == Lookup(retry)
  }

  lemma SoundAt(t: seq<State>, steps: seq<Action>, i: nat, q: ReqId)
    requires Follows(t, steps) && StateSound(t[0]) && i <= |steps| && q in t[i].requests
    ensures T.Sound(t[i].world) && RequestSound(t[i], q)
  {
    TraceSound(t, steps, i);
  }

  lemma TurnSteps(t: seq<State>, steps: seq<Action>, q: ReqId, retry: ReqId, sub: Submission, answer: string)
    requires Follows(t, steps) && Scripted(steps, q, retry, sub, answer)
    ensures |t| == 11 && |steps| == 10
    ensures t[4] == DoOpen(t[3], q) && t[5] == DoInvoke(t[4], q) && t[6] == DoFinish(t[5], q, answer)
    ensures t[7] == DoClose(t[6], q) && t[8] == DoSettle(t[7], q)
    ensures t[10] == DoLookup(DoArrive(t[8], retry, sub), retry)
  {
    hide DoArrive, DoLookup, DoInsert, DoReread, DoOpen, DoInvoke, DoFinish, DoClose, DoBreak, DoSettle, DoStop,
      T.Create, T.Delete;
    assert t[4] == DoOpen(t[3], q) by { assert StepAt(t, steps, 3); }
    assert t[5] == DoInvoke(t[4], q) by { assert StepAt(t, steps, 4); }
    assert t[6] == DoFinish(t[5], q, answer) by { assert StepAt(t, steps, 5); }
    assert t[7] == DoClose(t[6], q) by { assert StepAt(t, steps, 6); }
    assert t[8] == DoSettle(t[7], q) by { assert StepAt(t, steps, 7); }
    assert t[9] == DoArrive(t[8], retry, sub) by { assert StepAt(t, steps, 8); }
    assert t[10] == DoLookup(t[9], retry) by { assert StepAt(t, steps, 9); }
  }

  lemma TurnAlone(t: seq<State>, steps: seq<Action>, q: ReqId, retry: ReqId, sub: Submission, rec: RecId,
                  answer: string)
    requires Follows(t, steps) && StateSound(t[0]) && Scripted(steps, q, retry, sub, answer)
    requires Stage(t[3], q, retry, sub, rec, Reserved(rec))
    requires !HasActiveRun(t[3].world.tables, sub.route.conversation)
    requires t[3].requests[q].counter == t[3].world.tables.conversations[sub.route.conversation].latest
    ensures Done(t[8], q, retry, sub, t[3].world.nextRun, answer)
  {
    hide Apply, StepAt, Follows, Scripted, StateSound, RequestSound, T.Sound, Done, HasActiveRun, Admission, KeyOf;
    hide DoOpen, DoInvoke, DoFinish, DoClose, DoSettle;
    TurnSteps(t, steps, q, retry, sub, answer);
    SoundAt(t, steps, 3, q);
    var turn := StageOpen(t[3], q, retry, sub, rec);
    SoundAt(t, steps, 4, q);
    var loaded := StageInvoke(t[4], q, retry, sub, rec, turn);
    SoundAt(t, steps, 5, q);
    StageFinish(t[5], q, retry, sub, rec, turn, loaded, answer);
    SoundAt(t, steps, 6, q);
    StageClose(t[6], q, retry, sub, rec, turn, answer);
    SoundAt(t, steps, 7, q);
    StageSettle(t[7], q, retry, sub, rec, turn.run, answer);
  }

  /**
    From every reachable state in which its key is free and its conversation idle, a submission that is not
    interfered with completes with the graph's answer, and a retry of it replays that answer.
   */
  lemma CompletesThenReplays(actions: seq<Action>, steps: seq<Action>, q: ReqId, retry: ReqId, sub: Submission,
                             answer: string)
    requires Scripted(steps, q, retry, sub, answer)
    requires Welcome(Run(actions), q, sub) && retry !in Run(actions).requests && retry != q
    ensures Replays(Run(actions + steps), q, retry, sub, Run(actions).world.nextRun, answer)
  {
    hide Apply, DoArrive, DoLookup, StateSound, Stage, ReservedBy, Done, Replays, HasActiveRun, Follows;
    RunSound(actions);
    var t := TraceOfRun(actions, steps);
    ReservesAt(t, steps, 0, q, sub);
    ReservedStage(t[0], t[3], q, retry, sub);
    TurnAlone(t, steps, q, retry, sub, t[0].registry.nextRecord, answer);
    TurnSteps(t, steps, q, retry, sub, answer);
    StageRetry(t[8], q, retry, sub, t[0].world.nextRun, answer);
  }

  /** There are such states: a new conversation welcomes every acceptable submission of its owner. */
  lemma NewConversationWelcomes(q: ReqId, sub: Submission)
    requires sub.rawKey.Some? && NormalizeKey(sub.rawKey.value).Some? && TextOnly(sub.payload)
    ensures Welcome(Run([CreateConversation(sub.route.conversation, sub.user)]), q, sub)
  {
    var steps := [CreateConversation(sub.route.conversation, sub.user)];
    assert steps[..|steps| - 1] == [];
    assert Run(steps) == Apply(Run([]), steps[0]);
  }

  // ---------------------------------------------------------------- the late start

  /** Request `p` reserves and stalls until its reservation has expired; `q` reserves the same key; both execute. */
  predicate Overlapping(steps: seq<Action>, p: ReqId, q: ReqId, sub: Submission) {
    && |steps| == 9
    && steps[0] == Arrive(p, sub) && steps[1] == Lookup(p) && steps[2] == Insert(p)
    && steps[3] == Tick(RETENTION)
    && steps[4] == Arrive(q, sub) && steps[5] == Lookup(q) && steps[6] == Insert(q)
    && steps[7] == Open(q) && steps[8] == Open(p)
  }

  /** Once the first reservation has expired the key may be reserved again. */
  lemma MayReserveLater(s: State, s': State, p: ReqId, q: ReqId, sub: Submission)
    requires MayReserve(s, p, sub) && q !in s.requests && p != q
    requires s'.now == s.now + RETENTION && ReservedBy(s, s'.(now := s.now), p, sub)
    ensures MayReserve(s', q, sub)
  {
    hide KeyOf, NormalizeKey, TextOnly;
  }

  lemma BothReserve(t: seq<State>, steps: seq<Action>, p: ReqId, q: ReqId, sub: Submission)
    requires Follows(t, steps) && Overlapping(steps, p, q, sub) && p != q
    requires MayReserve(t[0], p, sub) && q !in t[0].requests
    ensures t[7].world == t[0].world && t[7].starts == t[0].starts && t[7].now == t[0].now + RETENTION
    ensures var rec := t[0].registry.nextRecord;
            && p in t[7].requests && t[7].requests[p].phase == Reserved(rec)
            && q in t[7].requests && t[7].requests[q].phase == Reserved(rec + 1)
            && t[7].requests[p].submission == t[7].requests[q].submission == sub
            && t[7].requests[p].key == t[7].requests[q].key == KeyOf(sub)
            && rec + 1 in t[7].registry.reservations
            && t[7].registry.reservations[rec + 1] == Reservation(KeyOf(sub), sub.payload, q, t[7].now,
                t[7].now + RETENTION)
  {
    hide DoArrive, DoLookup, DoInsert, DoReread, DoOpen, DoInvoke, DoFinish, DoClose, DoBreak, DoSettle, DoStop,
      MayReserve, KeyOf;
    ReservesAt(t, steps, 0, p, sub);
    assert t[4] == t[3].(now := t[3].now + RETENTION) by { assert StepAt(t, steps, 3); }
    MayReserveLater(t[0], t[4], p, q, sub);
    ReservesAt(t, steps, 4, q, sub);
  }

  lemma StartsHere(s: State, q: ReqId, rec: RecId)
    requires q in s.requests && s.requests[q].phase == Reserved(rec)
    requires Conv(s.requests[q]) in s.world.turns && Conv(s.requests[q]) in s.world.tables.conversations
    ensures var s' := DoOpen(s, q);
            && s'.starts == s.starts + [Start(q, rec, s.requests[q].key, s.now)]
            && s'.now == s.now && s'.registry == s.registry
            && s.world.turns.Keys <= s'.world.turns.Keys
            && s.world.tables.conversations.Keys <= s'.world.tables.conversations.Keys
            && forall p | p in s.requests && p != q :: p in s'.requests && s'.requests[p] == s.requests[p]
  {
  }

  lemma BothStart(t: seq<State>, steps: seq<Action>, p: ReqId, q: ReqId, sub: Submission, rec: RecId)
    requires Follows(t, steps) && Overlapping(steps, p, q, sub) && p != q
    requires sub.route.conversation in t[7].world.turns && sub.route.conversation in t[7].world.tables.conversations
    requires p in t[7].requests && t[7].requests[p].phase == Reserved(rec)
    requires q in t[7].requests && t[7].requests[q].phase == Reserved(rec + 1)
    requires t[7].requests[p].submission == t[7].requests[q].submission == sub
    requires t[7].requests[p].key == t[7].requests[q].key == KeyOf(sub)
    ensures t[9].starts == t[7].starts + [Start(q, rec + 1, KeyOf(sub), t[7].now), Start(p, rec, KeyOf(sub), t[7].now)]
    ensures t[9].registry == t[7].registry
  {
    hide DoArrive, DoLookup, DoInsert, DoReread, DoOpen, DoInvoke, DoFinish, DoClose, DoBreak, DoSettle, DoStop;
    StartsHere(t[7], q, rec + 1);
    assert StepAt(t, steps, 7);
    StartsHere(t[8], p, rec);
    assert StepAt(t, steps, 8);
  }

  /** Both requests executed at the end of the first retention, in the second reservation, which is valid then. */
  predicate BothExecute(s0: State, s: State, p: ReqId, q: ReqId, sub: Submission) {
    var rec, late := s0.registry.nextRecord, s0.now + 86_400_000_000;
    && s.starts == s0.starts + [Start(q, rec + 1, KeyOf(sub), late), Start(p, rec, KeyOf(sub), late)]
    && rec + 1 in s.registry.reservations
    && s.registry.reservations[rec + 1].key == KeyOf(sub)
    && s.registry.reservations[rec + 1].committedAt <= late < s.registry.reservations[rec + 1].expiresAt
  }

  /**
    Punctuality is needed: from every reachable state that welcomes a submission there is a run in which a request
    stalls past its retention and executes while a newer reservation of the same key is valid and executing.
   */
  lemma LateStartOverlaps(actions: seq<Action>, steps: seq<Action>, p: ReqId, q: ReqId, sub: Submission)
    requires Overlapping(steps, p, q, sub) && p != q
    requires MayReserve(Run(actions), p, sub) && q !in Run(actions).requests
    ensures BothExecute(Run(actions), Run(actions + steps), p, q, sub)
  {
    hide DoArrive, DoLookup, DoInsert, DoReread, DoOpen, DoInvoke, DoFinish, DoClose, DoBreak, DoSettle, DoStop,
      Apply, RegistrySound, LogsSound;
    RunSound(actions);
    var t := TraceOfRun(actions, steps);
    BothReserve(t, steps, p, q, sub);
    BothStart(t, steps, p, q, sub, t[0].registry.nextRecord);
  }
}
