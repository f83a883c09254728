/** A reservation whose request stops for good never gets a result, and every retry is refused until it expires. */
module SubmissionOrphaned {
  import opened Wrappers
  import opened Transcript
  import opened Idempotency
  import opened Submission
  import opened SubmissionSound
  import opened SubmissionSteps
  import G = SubmissionGuarantees
  import T = Threads

  /** Between reserving and finalising, a request carries its reservation. */
  predicate Carries(phase: Phase, id: RecId) {
    (phase.Reserved? || InTurn(phase) || phase.Closed? || phase.Broken?) && phase.rec == id
  }

  ghost predicate Held(s: State, id: RecId) {
    exists q :: q in s.requests && Carries(s.requests[q].phase, id)
  }

  /** The row of the reservation has not been deleted. */
  predicate RowStays(s: State, id: RecId)
    requires id in s.registry.reservations
  {
    Owns(s.registry.keys, s.registry.reservations[id].key, id)
  }

  /** The reservation has no result, and nobody is left who could write one. */
  ghost predicate Orphaned(s: State, id: RecId) {
    && id in s.registry.reservations && id !in s.registry.finals
    && !(Held(s, id) && RowStays(s, id))
  }

  /** No request comes to carry the reservation, its row does not come back, and it gets no result. */
  predicate Neglects(s: State, s': State, id: RecId)
    requires id in s.registry.reservations
  {
    && (forall q | q in s'.requests && Carries(s'.requests[q].phase, id) ::
          q in s.requests && Carries(s.requests[q].phase, id))
    && (Owns(s'.registry.keys, s.registry.reservations[id].key, id) ==> RowStays(s, id))
    && id !in s'.registry.finals
  }

  lemma NeglectOrphans(s: State, s': State, id: RecId)
    requires Orphaned(s, id) && Neglects(s, s', id) && RegistryExtends(s.registry, s'.registry)
    ensures Orphaned(s', id)
  {
  }

  /** Neither arriving nor reading creates a row. */
  lemma ReadNeglects(s: State, a: Action, id: RecId)
    requires a.Arrive? || a.Reread?
    requires id in s.registry.reservations && id !in s.registry.finals
    ensures Neglects(s, Apply(s, a), id)
  {
    hide DoLookup, DoInsert, DoOpen, DoInvoke, DoFinish, DoClose, DoBreak, DoSettle, DoStop, KeyOf, RenderedText,
      Admission, ReservationForExisting;
  }

  lemma LookupNeglects(s: State, q: ReqId, id: RecId)
    requires id in s.registry.reservations && id !in s.registry.finals
    ensures Neglects(s, DoLookup(s, q), id)
  {
    hide ReservationForExisting;
  }

  /** An insert makes a row of a new id. */
  lemma InsertNeglects(s: State, q: ReqId, id: RecId)
    requires id in s.registry.reservations && id !in s.registry.finals && RegistrySound(s.registry, s.now)
    ensures Neglects(s, DoInsert(s, q), id)
  {
    assert ReservationSound(s.registry, s.now, id);
  }

  /** A step inside the turn, or outside all requests, writes no key. */
  lemma TurnNeglects(s: State, a: Action, id: RecId)
    requires !a.Arrive? && !a.Lookup? && !a.Insert? && !a.Reread? && !a.Settle?
    requires id in s.registry.reservations && id !in s.registry.finals
    ensures Neglects(s, Apply(s, a), id)
  {
    hide DoArrive, DoLookup, DoInsert, DoReread, DoSettle, RenderedText, T.Open, T.Write, T.Close, T.Fail, T.Create,
      T.Delete;
  }

  lemma SettleNeglects(s: State, q: ReqId, id: RecId)
    requires Orphaned(s, id) && (q in s.requests ==> RequestSound(s, q))
    ensures Neglects(s, DoSettle(s, q), id)
  {
    hide OwnTurn, NotStarted, T.CompletedRun, Admitted, RenderedText, KeyOf;
  }

  lemma StepNeglects(s: State, a: Action, id: RecId)
    requires StateSound(s) && Orphaned(s, id)
    ensures Orphaned(Apply(s, a), id)
  {
    StepSound(s, a);
    assert id in s.registry.reservations && id !in s.registry.finals;
    hide DoArrive, DoLookup, DoInsert, DoReread, DoOpen, DoInvoke, DoFinish, DoClose, DoBreak, DoSettle, DoStop,
      Neglects, Orphaned, T.Sound, LogsSound, RegistryExtends;
    if a.Settle? {
      assert a.q in s.requests ==> RequestSound(s, a.q);
      SettleNeglects(s, a.q, id);
    } else if a.Insert? {
      InsertNeglects(s, a.q, id);
    } else if a.Lookup? {
      LookupNeglects(s, a.q, id);
    } else if a.Arrive? || a.Reread? {
      ReadNeglects(s, a, id);
    } else {
      TurnNeglects(s, a, id);
    }
    NeglectOrphans(s, Apply(s, a), id);
  }

  /** Whatever happens afterwards, an orphaned reservation stays orphaned. */
  lemma {:induction false} OrphanedForGood(before: seq<Action>, after: seq<Action>, id: RecId)
    requires Orphaned(Run(before), id)
    ensures Orphaned(Run(before + after), id)
  {
    if after == [] {
      assert before + after == before;
    } else {
      var most := after[..|after| - 1];
      assert (before + after)[..|before + after| - 1] == before + most;
      OrphanedForGood(before, most, id);
      RunSound(before + most);
      StepNeglects(Run(before + most), after[|after| - 1], id);
    }
  }

  // ---------------------------------------------------------------- a request that goes on writes its result

  lemma SettlesEnded(actions: seq<Action>, q: ReqId, id: RecId)
    requires q in Run(actions).requests && Carries(Run(actions).requests[q].phase, id)
    requires Run(actions).requests[q].phase.Closed? || Run(actions).requests[q].phase.Broken?
    requires id in Run(actions).registry.reservations && RowStays(Run(actions), id)
    ensures id in Run(actions + [Settle(q)]).registry.finals
  {
    hide DoArrive, DoLookup, DoInsert, DoReread, DoOpen, DoInvoke, DoFinish, DoClose, DoBreak, DoStop, LogsSound,
      T.Sound;
    RunSound(actions);
    assert RequestSound(Run(actions), q);
    RunOneMore(actions, Settle(q));
  }

  lemma SettlesInTurn(actions: seq<Action>, q: ReqId, id: RecId)
    requires q in Run(actions).requests && Carries(Run(actions).requests[q].phase, id)
    requires InTurn(Run(actions).requests[q].phase)
    requires id in Run(actions).registry.reservations && RowStays(Run(actions), id)
    ensures id in Run(actions + [Break(q, Unexpected)] + [Settle(q)]).registry.finals
  {
    hide DoArrive, DoLookup, DoInsert, DoReread, DoOpen, DoInvoke, DoFinish, DoClose, DoSettle, DoStop, LogsSound,
      T.Sound, G.Freed, T.Fail;
    G.FailedTurnFreesConversation(actions, q, Unexpected);
    RunOneMore(actions, Break(q, Unexpected));
    SettlesEnded(actions + [Break(q, Unexpected)], q, id);
  }

  lemma SettlesReserved(actions: seq<Action>, q: ReqId, id: RecId) returns (after: seq<Action>)
    requires q in Run(actions).requests && Carries(Run(actions).requests[q].phase, id)
    requires Run(actions).requests[q].phase.Reserved?
    requires id in Run(actions).registry.reservations && RowStays(Run(actions), id)
    ensures id in Run(actions + after).registry.finals
  {
    hide DoArrive, DoLookup, DoInsert, DoReread, DoInvoke, DoFinish, DoClose, DoBreak, DoSettle, DoStop, LogsSound,
      T.Sound, T.Open, TurnFits;
    G.OpensExactlyWhenCurrent(actions, q);
    RunOneMore(actions, Open(q));
    var begun := actions + [Open(q)];
    if Run(begun).requests[q].phase.Opened? {
      SettlesInTurn(begun, q, id);
      after := [Open(q), Break(q, Unexpected), Settle(q)];
      assert actions + after == begun + [Break(q, Unexpected)] + [Settle(q)];
    } else {
      SettlesEnded(begun, q, id);
      after := [Open(q), Settle(q)];
      assert actions + after == begun + [Settle(q)];
    }
  }

  lemma SettlesCarried(actions: seq<Action>, q: ReqId, id: RecId) returns (after: seq<Action>)
    requires q in Run(actions).requests && Carries(Run(actions).requests[q].phase, id)
    requires id in Run(actions).registry.reservations && RowStays(Run(actions), id)
    ensures id in Run(actions + after).registry.finals
  {
    var phase := Run(actions).requests[q].phase;
    if phase.Reserved? {
      after := SettlesReserved(actions, q, id);
    } else if InTurn(phase) {
      SettlesInTurn(actions, q, id);
      after := [Break(q, Unexpected), Settle(q)];
      assert actions + after == actions + [Break(q, Unexpected)] + [Settle(q)];
    } else {
      SettlesEnded(actions, q, id);
      after := [Settle(q)];
    }
  }

  /**
    From a reachable state in which a reservation has no result, some continuation writes one exactly when a request
    still carries the reservation and its row has not been deleted, which it cannot be before it has expired.
   */
  lemma FinalisedExactlyWhenHeld(actions: seq<Action>, id: RecId)
    requires id in Run(actions).registry.reservations && id !in Run(actions).registry.finals
    ensures var s := Run(actions);
            && ((exists after: seq<Action> :: id in Run(actions + after).registry.finals) <==>
                Held(s, id) && RowStays(s, id))
            && (s.now < s.registry.reservations[id].expiresAt ==> RowStays(s, id))
  {
    var s := Run(actions);
    RunSound(actions);
    assert ReservationSound(s.registry, s.now, id);
    if Held(s, id) && RowStays(s, id) {
      var q :| q in s.requests && Carries(s.requests[q].phase, id);
      var after := SettlesCarried(actions, q, id);
    } else {
      forall after: seq<Action>
        ensures id !in Run(actions + after).registry.finals
      {
        OrphanedForGood(actions, after, id);
      }
    }
  }

  // ---------------------------------------------------------------- what a retry gets

  /** A retry of the reservation's request: same key, same body, at a read that answers, while it is valid. */
  predicate Retries(s: State, p: ReqId, id: RecId) {
    && id in s.registry.reservations && s.now < s.registry.reservations[id].expiresAt
    && p in s.requests && (s.requests[p].phase.Arrived? || s.requests[p].phase.Lost?)
    && s.requests[p].key == s.registry.reservations[id].key
    && s.requests[p].submission.payload == s.registry.reservations[id].fingerprint
  }

  /** The first read of a retry, or the second after a lost insert. */
  function AnswerTo(s: State, p: ReqId): Option<Outcome>
    requires p in s.requests
  {
    var s' := Apply(s, if s.requests[p].phase.Arrived? then Lookup(p) else Reread(p));
    if p in s'.requests && s'.requests[p].phase.Ended? then Some(s'.requests[p].phase.outcome) else None
  }

  /** A retry gets the original result exactly when that has been written, and a 409 otherwise. */
  lemma RetryGetsResultExactly(actions: seq<Action>, id: RecId, p: ReqId)
    requires Retries(Run(actions), p, id)
    ensures var s := Run(actions);
            && (AnswerTo(s, p) == Some(Refused(ApiError(409, "idempotency_in_progress"))) <==> id !in s.registry.finals)
            && (id in s.registry.finals ==>
                  AnswerTo(s, p) == Some(Replayed(s.registry.finals[id].status, s.registry.finals[id].snapshot)))
  {
    hide DoArrive, DoInsert, DoOpen, DoInvoke, DoFinish, DoClose, DoBreak, DoSettle, DoStop, LogsSound, T.Sound,
      ReservationForExisting;
    G.OthersAreTurnedAway(actions, id, p);
  }

  /**
    A request that stops while it carries its reservation orphans it: in every continuation there is no result, and
    until the reservation expires every retry is told that the request is still in progress.
   */
  lemma StoppedRequestBlocksKey(before: seq<Action>, q: ReqId, id: RecId, after: seq<Action>, p: ReqId)
    requires q in Run(before).requests && Carries(Run(before).requests[q].phase, id)
    ensures var s := Run(before + [Stop(q)] + after);
            && Orphaned(s, id)
            && (Retries(s, p, id) ==> AnswerTo(s, p) == Some(Refused(ApiError(409, "idempotency_in_progress"))))
  {
    StopOrphans(before, q, id);
    OrphanedForGood(before + [Stop(q)], after, id);
    if Retries(Run(before + [Stop(q)] + after), p, id) {
      RetryGetsResultExactly(before + [Stop(q)] + after, id, p);
    }
  }

  lemma OneCarrier(s: State, p: ReqId, q: ReqId, id: RecId)
    requires p in s.requests && RequestSound(s, p) && Carries(s.requests[p].phase, id)
    requires q in s.requests && RequestSound(s, q) && Carries(s.requests[q].phase, id)
    ensures p == q && id in s.registry.reservations && id !in s.registry.finals
  {
    hide OwnTurn, NotStarted, T.CompletedRun, Admitted, RenderedText, KeyOf;
  }

  lemma StopOrphans(before: seq<Action>, q: ReqId, id: RecId)
    requires q in Run(before).requests && Carries(Run(before).requests[q].phase, id)
    ensures Orphaned(Run(before + [Stop(q)]), id)
  {
    hide DoArrive, DoLookup, DoInsert, DoReread, DoOpen, DoInvoke, DoFinish, DoClose, DoBreak, DoSettle, LogsSound,
      T.Sound, RegistrySound, RequestSound;
    var s := Run(before);
    RunSound(before);
    forall p | p in s.requests && Carries(s.requests[p].phase, id)
      ensures p == q && id in s.registry.reservations && id !in s.registry.finals
    {
      assert RequestSound(s, p) && RequestSound(s, q);
      OneCarrier(s, p, q, id);
    }
    hide StateSound;
    RunOneMore(before, Stop(q));
  }

  // ---------------------------------------------------------------- a turn that outlives its reservation

  /** The first read of a retry deletes the row of a reservation that has expired, even one that is being worked on. */
  lemma LateLookupDeletes(s: State, id: RecId, p: ReqId)
    requires RegistrySound(s.registry, s.now)
    requires id in s.registry.reservations && s.registry.reservations[id].expiresAt <= s.now
    requires p in s.requests && s.requests[p].phase.Arrived? && s.requests[p].key == s.registry.reservations[id].key
    ensures var s' := DoLookup(s, p);
            id in s'.registry.reservations && !RowStays(s', id) && s'.registry.finals == s.registry.finals
  {
    hide ReservationForExisting, KeyOf, RenderedText;
    var key := s.registry.reservations[id].key;
    assert key in s.registry.keys ==> RowSound(s.registry, key);
  }

  lemma SoundRequest(actions: seq<Action>, q: ReqId)
    requires q in Run(actions).requests
    ensures RegistrySound(Run(actions).registry, Run(actions).now) && RequestSound(Run(actions), q)
  {
    RunSound(actions);
  }

  /** A request whose reservation is orphaned finds its row gone. */
  lemma OrphanSettles(s: State, q: ReqId, id: RecId)
    requires q in s.requests && RequestSound(s, q) && Orphaned(s, id) && Carries(s.requests[q].phase, id)
    requires s.requests[q].phase.Closed? || s.requests[q].phase.Broken?
    ensures DoSettle(s, q).requests[q].phase == Ended(Crashed)
  {
    hide T.CompletedRun, Admitted, RenderedText, KeyOf;
  }

  /** A retry, by the time the reservation has expired. */
  predicate ReadsLate(s: State, p: ReqId, id: RecId, wait: nat) {
    && id in s.registry.reservations && id !in s.registry.finals
    && s.registry.reservations[id].expiresAt <= s.now + wait
    && p in s.requests && s.requests[p].phase.Arrived? && s.requests[p].key == s.registry.reservations[id].key
  }

  lemma LateReadOrphans(actions: seq<Action>, id: RecId, p: ReqId, wait: nat)
    requires ReadsLate(Run(actions), p, id, wait)
    ensures Orphaned(Run(actions + [Tick(wait)] + [Lookup(p)]), id)
  {
    hide DoArrive, DoLookup, DoInsert, DoReread, DoOpen, DoInvoke, DoFinish, DoClose, DoBreak, DoSettle, DoStop,
      StateSound, RequestSound, RegistrySound, RowStays;
    var late := actions + [Tick(wait)];
    RunOneMore(actions, Tick(wait));
    RunOneMore(late, Lookup(p));
    SoundRequest(late, p);
    LateLookupDeletes(Run(late), id, p);
  }

  /**
    From every reachable state, once a reservation without result has expired, the first read of a retry orphans it
    for good; the request that carries it, however far it gets, ends with the error of its missing row.
   */
  lemma LateRetryOrphans(actions: seq<Action>, id: RecId, p: ReqId, wait: nat, after: seq<Action>, q: ReqId)
    requires ReadsLate(Run(actions), p, id, wait)
    ensures var s := Run(actions + [Tick(wait)] + [Lookup(p)] + after);
            && Orphaned(s, id)
            && (q in s.requests && Carries(s.requests[q].phase, id)
                && (s.requests[q].phase.Closed? || s.requests[q].phase.Broken?) ==>
                  DoSettle(s, q).requests[q].phase == Ended(Crashed))
  {
    hide DoSettle, RequestSound, RegistrySound, Orphaned;
    LateReadOrphans(actions, id, p, wait);
    OrphanedForGood(actions + [Tick(wait)] + [Lookup(p)], after, id);
    var s := Run(actions + [Tick(wait)] + [Lookup(p)] + after);
    if q in s.requests && Carries(s.requests[q].phase, id)
       && (s.requests[q].phase.Closed? || s.requests[q].phase.Broken?) {
      SoundRequest(actions + [Tick(wait)] + [Lookup(p)] + after, q);
      OrphanSettles(s, q, id);
    }
  }
}
