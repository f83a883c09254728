/**
  Who is admitted, under which key a request reserves, for how long, and what is stored of its input: stated on the
  requests and tables of every run.
 */
module SubmissionAdmission {
  import opened Wrappers
  import opened Text
  import opened Transcript
  import opened Idempotency
  import opened Submission
  import opened SubmissionSound
  import opened SubmissionSteps
  import T = Threads

  // ---------------------------------------------------------------- what the statements speak of

  /** The conversation exists, is not deleted, and belongs to the user. */
  predicate Reachable(t: Tables, user: UserId, c: ConvId) {
    c in t.conversations && !t.conversations[c].deleted && t.conversations[c].owner == user
  }

  /** The header is a core of 1 to 255 characters between white space. */
  ghost predicate ValidHeader(raw: string) {
    exists core :: Around(raw, core) && |core| <= 255
  }

  predicate AllText(parts: seq<Part>) {
    forall p | p in parts :: p.InputText?
  }

  /** Same user, method and route, and both headers are the same core between white space. */
  ghost predicate SameKey(a: Submission, b: Submission) {
    && a.user == b.user && a.httpMethod == b.httpMethod && a.route == b.route
    && a.rawKey.Some? && b.rawKey.Some?
    && exists core :: Around(a.rawKey.value, core) && Around(b.rawKey.value, core)
  }

  /** The text of a message of text parts: the parts in order, one to a line. */
  ghost predicate Renders(text: string, parts: seq<Part>) {
    exists texts: seq<string> :: LaidOut(text, "\n", texts) && TextsOfParts(texts, parts)
  }

  predicate TextsOfParts(texts: seq<string>, parts: seq<Part>) {
    |texts| == |parts| && forall i | 0 <= i < |parts| :: parts[i] == InputText(texts[i])
  }

  /** The request was refused before any table was written: 400, 404 or 422, where all later refusals are 409. */
  predicate TurnedDown(phase: Phase) {
    phase.Ended? && phase.outcome.Refused? && phase.outcome.error.status != 409
  }

  // ---------------------------------------------------------------- admission

  lemma HeaderCore(raw: string)
    ensures ValidHeader(raw) <==> 1 <= |Strip(raw)| <= 255
    ensures ValidHeader(raw) ==> Around(raw, Strip(raw))
  {
    StripIsCore(raw, Strip(raw));
    forall core | Around(raw, core)
      ensures core == Strip(raw)
    {
      StripIsCore(raw, core);
    }
  }

  /**
    From every reachable state, a new request is admitted exactly when its conversation is there for its user, the
    header is present and valid, and every part is text; otherwise it gets the error of the first condition that
    fails. Nothing else changes.
   */
  lemma AdmittedExactly(actions: seq<Action>, q: ReqId, sub: Submission)
    requires q !in Run(actions).requests
    ensures var s, s' := Run(actions), Run(actions + [Arrive(q, sub)]);
            var c := sub.route.conversation;
            && q in s'.requests && s'.requests[q].submission == sub
            && s' == s.(requests := s'.requests) && s'.requests == s.requests[q := s'.requests[q]]
            && (s'.requests[q].phase == Arrived <==>
                  && Reachable(s.world.tables, sub.user, c)
                  && sub.rawKey.Some? && ValidHeader(sub.rawKey.value)
                  && AllText(sub.payload.parts))
            && (s'.requests[q].phase == Arrived ==> s'.requests[q].counter == s.world.tables.conversations[c].latest)
            && (s'.requests[q].phase != Arrived ==> s'.requests[q].phase == Ended(Refused(
                  if !Reachable(s.world.tables, sub.user, c) then ApiError(404, "conversation_not_found")
                  else if sub.rawKey.None? then ApiError(400, "missing_idempotency_key")
                  else if !AllText(sub.payload.parts) then ApiError(422, "input_content_not_supported")
                  else ApiError(400, "invalid_idempotency_key"))))
  {
    hide DoLookup, DoInsert, DoReread, DoOpen, DoInvoke, DoFinish, DoClose, DoBreak, DoSettle, DoStop, ValidHeader,
      KeyOf;
    RunOneMore(actions, Arrive(q, sub));
    if sub.rawKey.Some? {
      HeaderCore(sub.rawKey.value);
    }
  }

  // ---------------------------------------------------------------- what a step leaves alone

  /** A request keeps its submission and key, and whether it was turned down. */
  predicate SameRequests(s: State, s': State) {
    forall q | q in s.requests ::
      && q in s'.requests && s'.requests[q].submission == s.requests[q].submission
      && s'.requests[q].key == s.requests[q].key
      && (TurnedDown(s'.requests[q].phase) <==> TurnedDown(s.requests[q].phase))
  }

  /** A conversation keeps its owner, and stays deleted. */
  predicate OwnersKept(s: State, s': State) {
    forall c | c in s.world.tables.conversations ::
      && c in s'.world.tables.conversations
      && s'.world.tables.conversations[c].owner == s.world.tables.conversations[c].owner
      && (s.world.tables.conversations[c].deleted ==> s'.world.tables.conversations[c].deleted)
  }

  lemma AnswerKeeps(s: State, q: ReqId, record: Record, payload: Payload)
    requires q in s.requests && !s.requests[q].phase.Ended?
    ensures SameRequests(s, Answer(s, q, ReservationForExisting(record, payload)))
  {
  }

  /** Steps of the key. */
  lemma KeyStepKeeps(s: State, a: Action)
    requires a.Lookup? || a.Insert? || a.Reread?
    ensures SameRequests(s, Apply(s, a))
  {
    hide DoArrive, DoOpen, DoInvoke, DoFinish, DoClose, DoBreak, DoSettle, DoStop, LookupCommit, ReserveCommit, Expired,
      Answer, ReservationForExisting;
    if a.q in s.requests && !s.requests[a.q].phase.Ended? && s.requests[a.q].key in s.registry.keys {
      AnswerKeeps(s, a.q, s.registry.keys[s.requests[a.q].key], s.requests[a.q].submission.payload);
    }
  }

  /** Steps of the turn. */
  lemma TurnStepKeeps(s: State, a: Action)
    requires a.Open? || a.Invoke? || a.Finish? || a.Close? || a.Break?
    ensures SameRequests(s, Apply(s, a))
  {
    hide DoArrive, DoLookup, DoInsert, DoReread, DoSettle, DoStop, RenderedText, T.Open, T.Write, T.Close, T.Fail,
      TurnFits, TurnStored, ClosingAnswer, ThreadReady;
  }

  lemma OtherStepKeeps(s: State, a: Action)
    requires a.Arrive? || a.Settle? || a.Stop? || a.CreateConversation? || a.DeleteConversation? || a.Tick?
    ensures SameRequests(s, Apply(s, a))
  {
    hide DoLookup, DoInsert, DoReread, DoOpen, DoInvoke, DoFinish, DoClose, DoBreak, KeyOf, Admission, CompleteCommit,
      FailCommit, StoredError;
  }

  lemma OwnersStay(s: State, a: Action)
    ensures OwnersKept(s, Apply(s, a))
  {
    hide RenderedText, CompleteCommit, FailCommit, LookupCommit, ReserveCommit, KeyOf, Admission, TurnFits;
  }

  lemma StepKeepsRequests(s: State, a: Action)
    ensures SameRequests(s, Apply(s, a)) && OwnersKept(s, Apply(s, a))
  {
    hide Apply, SameRequests, OwnersKept;
    OwnersStay(s, a);
    if a.Lookup? || a.Insert? || a.Reread? {
      KeyStepKeeps(s, a);
    } else if a.Open? || a.Invoke? || a.Finish? || a.Close? || a.Break? {
      TurnStepKeeps(s, a);
    } else {
      OtherStepKeeps(s, a);
    }
  }

  lemma {:induction false} RunKeepsRequests(before: seq<Action>, after: seq<Action>)
    ensures SameRequests(Run(before), Run(before + after)) && OwnersKept(Run(before), Run(before + after))
  {
    if after == [] {
      assert before + after == before;
    } else {
      hide Apply;
      var most := after[..|after| - 1];
      assert (before + after)[..|before + after| - 1] == before + most;
      RunKeepsRequests(before, most);
      StepKeepsRequests(Run(before + most), after[|after| - 1]);
    }
  }

  // ---------------------------------------------------------------- admitted requests

  /** An admitted request belongs to the owner of its conversation, and its key is the core of its header. */
  ghost predicate Owned(s: State, q: ReqId)
    requires q in s.requests
  {
    var sub := s.requests[q].submission;
    && sub.route.conversation in s.world.tables.conversations
    && s.world.tables.conversations[sub.route.conversation].owner == sub.user
    && AllText(sub.payload.parts)
    && sub.rawKey.Some?
    && s.requests[q].key.user == sub.user && s.requests[q].key.httpMethod == sub.httpMethod
    && s.requests[q].key.route == sub.route
    && Around(sub.rawKey.value, s.requests[q].key.text) && |s.requests[q].key.text| <= 255
  }

  ghost predicate AllOwned(s: State) {
    forall q {:trigger Owned(s, q)} | q in s.requests :: TurnedDown(s.requests[q].phase) || Owned(s, q)
  }

  lemma OwnedKept(s: State, s': State, q: ReqId)
    requires SameRequests(s, s') && OwnersKept(s, s') && q in s.requests && Owned(s, q)
    ensures q in s'.requests && Owned(s', q)
  {
  }

  lemma ArriveOwned(s: State, q: ReqId, sub: Submission)
    requires q !in s.requests
    ensures var s' := DoArrive(s, q, sub);
            q in s'.requests && (TurnedDown(s'.requests[q].phase) || Owned(s', q))
  {
    hide Around, ValidHeader;
    if sub.rawKey.Some? {
      HeaderCore(sub.rawKey.value);
    }
  }

  lemma OnlyArriveAdds(s: State, a: Action, q: ReqId)
    requires q in Apply(s, a).requests && q !in s.requests
    ensures a.Arrive? && a.q == q
  {
    hide KeyOf, RenderedText, LookupCommit, ReserveCommit, CompleteCommit, FailCommit, Admission;
  }

  lemma {:induction false} RunOwned(actions: seq<Action>)
    ensures AllOwned(Run(actions))
  {
    if actions != [] {
      var s, a := Run(actions[..|actions| - 1]), actions[|actions| - 1];
      RunOwned(actions[..|actions| - 1]);
      StepKeepsRequests(s, a);
      forall q | q in Apply(s, a).requests
        ensures TurnedDown(Apply(s, a).requests[q].phase) || Owned(Apply(s, a), q)
      {
        if q in s.requests {
          assert TurnedDown(s.requests[q].phase) || Owned(s, q);
          if Owned(s, q) {
            OwnedKept(s, Apply(s, a), q);
          }
        } else {
          OnlyArriveAdds(s, a, q);
          ArriveOwned(s, q, a.submission);
        }
      }
    }
  }

  /** Every request that was not turned down on arrival belongs to the owner of its conversation, and is all text. */
  lemma OwnersOnly(actions: seq<Action>, q: ReqId)
    requires q in Run(actions).requests && !TurnedDown(Run(actions).requests[q].phase)
    ensures var s := Run(actions);
            var sub := s.requests[q].submission;
            && sub.route.conversation in s.world.tables.conversations
            && s.world.tables.conversations[sub.route.conversation].owner == sub.user
            && AllText(sub.payload.parts) && sub.rawKey.Some? && ValidHeader(sub.rawKey.value)
  {
    RunOwned(actions);
    assert Owned(Run(actions), q);
  }

  /** Two admitted requests have the same key exactly when user, method, route and the core of the header agree. */
  lemma KeysAgreeExactly(actions: seq<Action>, p: ReqId, q: ReqId)
    requires p in Run(actions).requests && !TurnedDown(Run(actions).requests[p].phase)
    requires q in Run(actions).requests && !TurnedDown(Run(actions).requests[q].phase)
    ensures var s := Run(actions);
            s.requests[p].key == s.requests[q].key <==> SameKey(s.requests[p].submission, s.requests[q].submission)
  {
    RunOwned(actions);
    var s := Run(actions);
    assert Owned(s, p) && Owned(s, q);
    var a, b := s.requests[p].submission.rawKey.value, s.requests[q].submission.rawKey.value;
    forall core
      ensures Around(a, core) ==> core == s.requests[p].key.text
      ensures Around(b, core) ==> core == s.requests[q].key.text
    {
      StripIsCore(a, core);
      StripIsCore(a, s.requests[p].key.text);
      StripIsCore(b, core);
      StripIsCore(b, s.requests[q].key.text);
    }
  }

  // ---------------------------------------------------------------- conversations

  /** Action `k` creates the conversation for this owner. */
  ghost predicate CreatesAt(actions: seq<Action>, k: nat, c: ConvId, owner: UserId)
    requires k < |actions|
  {
    actions[k] == CreateConversation(c, owner) && c !in Run(actions[..k]).world.tables.conversations
  }

  /** Action `k` deletes the conversation. */
  ghost predicate DeletesAt(actions: seq<Action>, k: nat, c: ConvId)
    requires k < |actions|
  {
    actions[k] == DeleteConversation(c) && c in Run(actions[..k]).world.tables.conversations
  }

  /** Steps of requests leave owners and deletions alone. */
  lemma RequestStepKeeps(s: State, a: Action, c: ConvId)
    requires !a.CreateConversation? && !a.DeleteConversation? && c in Apply(s, a).world.tables.conversations
    ensures c in s.world.tables.conversations
    ensures Apply(s, a).world.tables.conversations[c].owner == s.world.tables.conversations[c].owner
    ensures Apply(s, a).world.tables.conversations[c].deleted == s.world.tables.conversations[c].deleted
  {
    hide RenderedText, CompleteCommit, FailCommit, LookupCommit, ReserveCommit, KeyOf, Admission, TurnFits,
      ReservationForExisting, StoredError, RunErrorCode, Expired, RequestSound;
  }

  lemma ConversationStep(s: State, a: Action, c: ConvId)
    requires c in Apply(s, a).world.tables.conversations
    ensures var v := Apply(s, a).world.tables.conversations[c];
            if c !in s.world.tables.conversations then a == CreateConversation(c, v.owner) && !v.deleted
            else
              && v.owner == s.world.tables.conversations[c].owner
              && (v.deleted <==> s.world.tables.conversations[c].deleted || a == DeleteConversation(c))
  {
    hide DoArrive, DoLookup, DoInsert, DoReread, DoOpen, DoInvoke, DoFinish, DoClose, DoBreak, DoSettle, DoStop;
    if !a.CreateConversation? && !a.DeleteConversation? {
      RequestStepKeeps(s, a, c);
    }
  }

  lemma CreatesLater(most: seq<Action>, last: Action, k: nat, c: ConvId, owner: UserId)
    requires k < |most| && CreatesAt(most, k, c, owner)
    ensures CreatesAt(most + [last], k, c, owner)
  {
    assert (most + [last])[..k] == most[..k];
  }

  /** A conversation belongs to whom it was created for. */
  lemma {:induction false} CreatedForOwner(actions: seq<Action>, c: ConvId)
    requires c in Run(actions).world.tables.conversations
    ensures exists k: nat | k < |actions| ::
              CreatesAt(actions, k, c, Run(actions).world.tables.conversations[c].owner)
  {
    hide Apply;
    var most, last := actions[..|actions| - 1], actions[|actions| - 1];
    var owner := Run(actions).world.tables.conversations[c].owner;
    ConversationStep(Run(most), last, c);
    assert actions == most + [last];
    if c in Run(most).world.tables.conversations {
      CreatedForOwner(most, c);
      var k: nat :| k < |most| && CreatesAt(most, k, c, owner);
      CreatesLater(most, last, k, c, owner);
    } else {
      assert CreatesAt(actions, |most|, c, owner);
    }
  }

  lemma DeletesLater(most: seq<Action>, last: Action, k: nat, c: ConvId)
    requires k < |most| && DeletesAt(most, k, c)
    ensures DeletesAt(most + [last], k, c)
  {
    assert (most + [last])[..k] == most[..k];
  }

  lemma {:induction false} DeletedBySomeone(actions: seq<Action>, c: ConvId)
    requires c in Run(actions).world.tables.conversations && Run(actions).world.tables.conversations[c].deleted
    ensures exists k: nat | k < |actions| :: DeletesAt(actions, k, c)
  {
    hide Apply;
    var most, last := actions[..|actions| - 1], actions[|actions| - 1];
    ConversationStep(Run(most), last, c);
    assert actions == most + [last];
    if c in Run(most).world.tables.conversations && Run(most).world.tables.conversations[c].deleted {
      DeletedBySomeone(most, c);
      var k: nat :| k < |most| && DeletesAt(most, k, c);
      DeletesLater(most, last, k, c);
    } else {
      assert DeletesAt(actions, |most|, c);
    }
  }

  /** A conversation is deleted exactly when an action deleted it. */
  lemma DeletedExactly(actions: seq<Action>, c: ConvId)
    requires c in Run(actions).world.tables.conversations
    ensures Run(actions).world.tables.conversations[c].deleted <==>
            exists k: nat | k < |actions| :: DeletesAt(actions, k, c)
  {
    if Run(actions).world.tables.conversations[c].deleted {
      DeletedBySomeone(actions, c);
    }
    forall k: nat | k < |actions| && DeletesAt(actions, k, c)
      ensures Run(actions).world.tables.conversations[c].deleted
    {
      DeleteMarks(actions[..k], c);
      assert actions == actions[..k] + [DeleteConversation(c)] + actions[k + 1..];
      RunKeepsRequests(actions[..k] + [DeleteConversation(c)], actions[k + 1..]);
    }
  }

  /** Once deleted, a conversation answers every new submission with 404, whatever happened in between. */
  lemma DeletedForGood(before: seq<Action>, c: ConvId, after: seq<Action>, q: ReqId, sub: Submission)
    requires c in Run(before).world.tables.conversations && sub.route.conversation == c
    requires q !in Run(before + [DeleteConversation(c)] + after).requests
    ensures var s' := Run(before + [DeleteConversation(c)] + after + [Arrive(q, sub)]);
            q in s'.requests && s'.requests[q].phase == Ended(Refused(ApiError(404, "conversation_not_found")))
  {
    var deleted := before + [DeleteConversation(c)];
    DeleteMarks(before, c);
    RunKeepsRequests(deleted, after);
    AdmittedExactly(deleted + after, q, sub);
  }

  /** Deleting marks this conversation and touches nothing else. */
  lemma DeleteMarks(actions: seq<Action>, c: ConvId)
    requires c in Run(actions).world.tables.conversations
    ensures var s, s' := Run(actions), Run(actions + [DeleteConversation(c)]);
            && s'.world.tables.conversations
               == s.world.tables.conversations[c := s.world.tables.conversations[c].(deleted := true)]
            && s'.world.tables.runs == s.world.tables.runs && s'.world.tables.messages == s.world.tables.messages
            && s'.world.checkpoints == s.world.checkpoints && s'.requests == s.requests && s'.registry == s.registry
  {
    RunOneMore(actions, DeleteConversation(c));
  }

  // ---------------------------------------------------------------- turns

  /** A turn was opened by an admitted request of its conversation, whose input is stored as its user message. */
  ghost predicate TurnOwned(s: State, c: ConvId, k: nat)
    requires c in s.world.turns && k < |s.world.turns[c]|
  {
    var q := s.world.turns[c][k].owner;
    && q in s.requests && !TurnedDown(s.requests[q].phase)
    && s.requests[q].submission.route.conversation == c
    && T.UserSlot(c, k) in s.world.tables.messages
    && s.world.tables.messages[T.UserSlot(c, k)].renderedText == Some(RenderedText(s.requests[q].submission))
  }

  ghost predicate TurnsOwned(s: State) {
    forall c, k {:trigger TurnOwned(s, c, k)} | c in s.world.turns && 0 <= k < |s.world.turns[c]| :: TurnOwned(s, c, k)
  }

  lemma TurnsOnlyByOpen(s: State, a: Action, c: ConvId)
    requires !a.Open? && c in Apply(s, a).world.turns && s.world.turns.Keys == s.world.tables.conversations.Keys
    ensures if c !in s.world.turns then Apply(s, a).world.turns[c] == []
            else |Apply(s, a).world.turns[c]| == |s.world.turns[c]|
  {
    hide DoOpen, RenderedText, CompleteCommit, FailCommit, LookupCommit, ReserveCommit, KeyOf, Admission, CloseTurn,
      FailTurn;
  }

  lemma OpenAddsOne(s: State, q: ReqId, c: ConvId)
    requires c in DoOpen(s, q).world.turns
    ensures var s' := DoOpen(s, q);
            && c in s.world.turns
            && (|s'.world.turns[c]| != |s.world.turns[c]| ==>
                  && |s'.world.turns[c]| == |s.world.turns[c]| + 1
                  && q in s'.requests && s'.requests[q].phase.Opened? && Conv(s'.requests[q]) == c)
  {
    hide OpenTurn, RenderedText, TurnFits;
  }

  lemma OldTurnOwned(s: State, s': State, c: ConvId, k: nat)
    requires T.Extends(s.world, s'.world) && SameRequests(s, s') && c in s.world.turns && k < |s.world.turns[c]|
    requires TurnOwned(s, c, k)
    ensures c in s'.world.turns && k < |s'.world.turns[c]| && TurnOwned(s', c, k)
  {
    assert T.TurnExtends(s.world, s'.world, c, k);
  }

  lemma NewTurnOwned(s: State, q: ReqId)
    requires q in s.requests && RequestSound(s, q) && s.requests[q].phase.Opened?
    ensures var c := Conv(s.requests[q]);
            c in s.world.turns && s.world.turns[c] != [] && TurnOwned(s, c, |s.world.turns[c]| - 1)
  {
    hide RenderedText;
  }

  lemma TurnOwnedStep(s: State, a: Action, c: ConvId, k: nat)
    requires StateSound(s) && TurnsOwned(s)
    requires c in Apply(s, a).world.turns && k < |Apply(s, a).world.turns[c]|
    ensures TurnOwned(Apply(s, a), c, k)
  {
    hide DoArrive, DoLookup, DoInsert, DoReread, DoOpen, DoInvoke, DoFinish, DoClose, DoBreak, DoSettle, DoStop,
      TurnOwned, SameRequests, OwnersKept, RequestSound, LogsSound, T.Extends, T.ThreadSound;
    var s' := Apply(s, a);
    StepSound(s, a);
    StepKeepsRequests(s, a);
    if c in s.world.turns && k < |s.world.turns[c]| {
      assert TurnOwned(s, c, k);
      OldTurnOwned(s, s', c, k);
    } else {
      if !a.Open? {
        TurnsOnlyByOpen(s, a, c);
      }
      OpenAddsOne(s, a.q, c);
      assert RequestSound(s', a.q);
      NewTurnOwned(s', a.q);
    }
  }

  lemma {:induction false} RunTurnsOwned(actions: seq<Action>)
    ensures TurnsOwned(Run(actions))
  {
    hide Apply;
    if actions != [] {
      var most, a := actions[..|actions| - 1], actions[|actions| - 1];
      RunTurnsOwned(most);
      RunSound(most);
      forall c, k: nat | c in Run(actions).world.turns && k < |Run(actions).world.turns[c]|
        ensures TurnOwned(Run(actions), c, k)
      {
        TurnOwnedStep(Run(most), a, c, k);
      }
    }
  }

  /**
    Every turn of a conversation was opened by a request of the conversation's owner, and its stored input is the
    text parts of that request, in order, one to a line.
   */
  lemma TurnsOfTheOwner(actions: seq<Action>, c: ConvId, k: nat)
    requires c in Run(actions).world.turns && k < |Run(actions).world.turns[c]|
    ensures var s := Run(actions);
            var q := s.world.turns[c][k].owner;
            && q in s.requests && !TurnedDown(s.requests[q].phase)
            && s.requests[q].submission.route.conversation == c
            && c in s.world.tables.conversations
            && s.requests[q].submission.user == s.world.tables.conversations[c].owner
            && T.UserSlot(c, k) in s.world.tables.messages
            && s.world.tables.messages[T.UserSlot(c, k)].renderedText.Some?
            && Renders(s.world.tables.messages[T.UserSlot(c, k)].renderedText.value,
                 s.requests[q].submission.payload.parts)
  {
    RunTurnsOwned(actions);
    assert TurnOwned(Run(actions), c, k);
    var q := Run(actions).world.turns[c][k].owner;
    OwnersOnly(actions, q);
    TextRenders(Run(actions).requests[q].submission);
  }

  lemma {:induction false} TextsOfAll(parts: seq<Part>)
    requires AllText(parts)
    ensures TextsOfParts(Texts(parts), parts)
  {
    if parts != [] {
      assert parts[0] in parts && forall p | p in parts[1..] :: p in parts;
      TextsOfAll(parts[1..]);
      assert Texts(parts) == [parts[0].text] + Texts(parts[1..]);
    }
  }

  lemma TextRenders(sub: Submission)
    requires AllText(sub.payload.parts)
    ensures Renders(RenderedText(sub), sub.payload.parts)
  {
    var texts := Texts(sub.payload.parts);
    TextsOfAll(sub.payload.parts);
    JoinLaysOut("\n", texts);
    assert LaidOut(RenderedText(sub), "\n", texts);
  }
}
