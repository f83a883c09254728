/** A turn whose request stops for good is never finished, and its conversation stays busy. */
module SubmissionAbandoned {
  import opened Wrappers
  import opened Transcript
  import I = Idempotency
  import opened Submission
  import opened SubmissionSound
  import opened SubmissionSteps
  import G = SubmissionGuarantees
  import T = Threads

  /** A run of the conversation is active, but no request is working on it. */
  ghost predicate Abandoned(s: State, c: ConvId) {
    HasActiveRun(s.world.tables, c) && !AttendedTo(s, c)
  }

  ghost predicate AttendedTo(s: State, c: ConvId) {
    exists q :: q in s.requests && InTurn(s.requests[q].phase) && Conv(s.requests[q]) == c
  }

  /** No active run of the conversation ends, and no request enters a turn of it. */
  ghost predicate Idle(s: State, s': State, c: ConvId) {
    && (forall r | r in s.world.tables.runs && s.world.tables.runs[r].conversation == c ::
          r in s'.world.tables.runs && s'.world.tables.runs[r] == s.world.tables.runs[r])
    && (forall q | q in s'.requests && InTurn(s'.requests[q].phase) && Conv(s'.requests[q]) == c ::
          q in s.requests && InTurn(s.requests[q].phase) && Conv(s.requests[q]) == c)
  }

  lemma IdleAbandoned(s: State, s': State, c: ConvId)
    requires Abandoned(s, c) && Idle(s, s', c)
    ensures Abandoned(s', c)
  {
  }

  lemma OpenIdle(s: State, q: ReqId, c: ConvId)
    requires T.Sound(s.world) && HasActiveRun(s.world.tables, c)
    ensures Idle(s, DoOpen(s, q), c)
  {
    assert s.world.nextRun in s.world.tables.runs ==> T.RunListed(s.world, s.world.nextRun);
  }

  lemma RunOfTurn(s: State, q: ReqId)
    requires T.Sound(s.world) && q in s.requests && RequestSound(s, q) && InTurn(s.requests[q].phase)
    ensures var run, d := s.requests[q].phase.turn.run, Conv(s.requests[q]);
            run in s.world.tables.runs && s.world.tables.runs[run].conversation == d
  {
    var d := Conv(s.requests[q]);
    assert T.ThreadSound(s.world, d) && T.TurnSound(s.world, d, |s.world.turns[d]| - 1);
  }

  lemma EndIdle(s: State, a: Action, c: ConvId)
    requires a.Close? || a.Break?
    requires T.Sound(s.world) && !AttendedTo(s, c) && (a.q in s.requests ==> RequestSound(s, a.q))
    ensures Idle(s, Apply(s, a), c)
  {
    hide DoArrive, DoLookup, DoInsert, DoReread, DoOpen, DoInvoke, DoFinish, DoSettle, DoStop, RequestSound, T.Sound;
    if a.q in s.requests && InTurn(s.requests[a.q].phase) {
      RunOfTurn(s, a.q);
    }
  }

  predicate OfTheKey(a: Action) {
    a.Arrive? || a.Lookup? || a.Insert? || a.Reread?
  }

  lemma KeyIdle(s: State, a: Action, c: ConvId)
    requires OfTheKey(a)
    ensures Idle(s, Apply(s, a), c)
  {
    hide DoOpen, DoInvoke, DoFinish, DoClose, DoBreak, DoSettle, DoStop, KeyOf, RenderedText, I.ReservationForExisting,
      I.LookupCommit, I.ReserveCommit;
  }

  /** The remaining steps leave all runs alone. */
  lemma OtherIdle(s: State, a: Action, c: ConvId)
    requires !a.Open? && !a.Close? && !a.Break? && !OfTheKey(a)
    ensures Idle(s, Apply(s, a), c)
  {
    hide DoArrive, DoLookup, DoInsert, DoReread, DoOpen, DoClose, DoBreak, RenderedText, I.CompleteCommit, I.FailCommit;
  }

  lemma StepIdle(s: State, a: Action, c: ConvId)
    requires StateSound(s) && Abandoned(s, c)
    ensures Idle(s, Apply(s, a), c)
  {
    hide DoArrive, DoLookup, DoInsert, DoReread, DoOpen, DoInvoke, DoFinish, DoClose, DoBreak, DoSettle,
      DoStop, Idle, T.Sound, LogsSound;
    if a.Open? {
      OpenIdle(s, a.q, c);
    } else if a.Close? || a.Break? {
      assert a.q in s.requests ==> RequestSound(s, a.q);
      EndIdle(s, a, c);
    } else if OfTheKey(a) {
      KeyIdle(s, a, c);
    } else {
      OtherIdle(s, a, c);
    }
  }

  /** Whatever happens afterwards, an abandoned conversation stays abandoned. */
  lemma {:induction false} AbandonedForGood(before: seq<Action>, after: seq<Action>, c: ConvId)
    requires Abandoned(Run(before), c)
    ensures Abandoned(Run(before + after), c)
  {
    if after == [] {
      assert before + after == before;
    } else {
      var most := after[..|after| - 1];
      assert (before + after)[..|before + after| - 1] == before + most;
      AbandonedForGood(before, most, c);
      RunSound(before + most);
      StepIdle(Run(before + most), after[|after| - 1], c);
      IdleAbandoned(Run(before + most), Run(before + after), c);
    }
  }

  /** A request that stops inside its turn abandons its conversation: every later turn finds it busy. */
  lemma StoppedTurnBlocks(before: seq<Action>, q: ReqId, after: seq<Action>, p: ReqId)
    requires q in Run(before).requests && InTurn(Run(before).requests[q].phase)
    ensures var c := Conv(Run(before).requests[q]);
            var s := Run(before + [Stop(q)] + after);
            && Abandoned(s, c)
            && (p in s.requests && s.requests[p].phase.Reserved? && Conv(s.requests[p]) == c ==>
                  Apply(s, Open(p)).requests[p].phase == Broken(s.requests[p].phase.rec,
                    Expected(ApiError(409, "conversation_busy"))))
  {
    hide DoArrive, DoLookup, DoInsert, DoReread, DoOpen, DoInvoke, DoFinish, DoClose, DoBreak, DoSettle, LogsSound;
    var s, c := Run(before), Conv(Run(before).requests[q]);
    RunSound(before);
    assert RequestSound(s, q);
    InTurnActive(s, q);
    forall p | p in s.requests && p != q && InTurn(s.requests[p].phase)
      ensures Conv(s.requests[p]) != c
    {
      assert RequestSound(s, p);
      Elsewhere(s, q, p);
    }
    RunOneMore(before, Stop(q));
    AbandonedForGood(before + [Stop(q)], after, c);
    var s' := Run(before + [Stop(q)] + after);
    if p in s'.requests && s'.requests[p].phase.Reserved? {
      G.OpensExactlyWhenCurrent(before + [Stop(q)] + after, p);
    }
  }

  /**
    From a reachable state with an active run, some continuation frees the conversation exactly when a request is
    in a turn of it.
   */
  lemma FreedExactlyWhenAttended(actions: seq<Action>, c: ConvId)
    requires HasActiveRun(Run(actions).world.tables, c)
    ensures (exists after: seq<Action> :: !HasActiveRun(Run(actions + after).world.tables, c)) <==>
        AttendedTo(Run(actions), c)
  {
    var s := Run(actions);
    if AttendedTo(s, c) {
      var q :| q in s.requests && InTurn(s.requests[q].phase) && Conv(s.requests[q]) == c;
      var failing := [Break(q, Unexpected)];
      G.FailedTurnFreesConversation(actions, q, Unexpected);
      RunOneMore(actions, Break(q, Unexpected));
      assert !HasActiveRun(Run(actions + failing).world.tables, c);
    } else {
      forall after: seq<Action>
        ensures HasActiveRun(Run(actions + after).world.tables, c)
      {
        AbandonedForGood(actions, after, c);
      }
    }
  }
}
