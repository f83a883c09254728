/** Whose reservation a request meets, and how long a reservation lasts. */
module SubmissionKeys {
  import opened Wrappers
  import opened Transcript
  import opened Idempotency
  import opened Submission
  import opened SubmissionSound
  import opened SubmissionSteps
  import opened SubmissionAdmission
  import G = SubmissionGuarantees
  import T = Threads

  // ---------------------------------------------------------------- reservations and their requests

  /** The reservation carries the key and the body of the admitted request that made it. */
  predicate OfOwner(s: State, id: RecId)
    requires id in s.registry.reservations
  {
    var reservation := s.registry.reservations[id];
    && reservation.owner in s.requests && !TurnedDown(s.requests[reservation.owner].phase)
    && s.requests[reservation.owner].key == reservation.key
    && s.requests[reservation.owner].submission.payload == reservation.fingerprint
  }

  ghost predicate AllOfOwners(s: State) {
    forall id {:trigger OfOwner(s, id)} | id in s.registry.reservations :: OfOwner(s, id)
  }

  /** A new reservation is that of an insert, with the expiry its request has kept since its first read. */
  lemma ReservationStep(s: State, a: Action, id: RecId)
    requires id in Apply(s, a).registry.reservations && id !in s.registry.reservations
    ensures a.Insert? && a.q in s.requests && s.requests[a.q].phase.Looked?
    ensures Apply(s, a).registry.reservations[id] == Reservation(s.requests[a.q].key,
              s.requests[a.q].submission.payload, a.q, s.now, s.requests[a.q].phase.expiresAt)
    ensures a.q in Apply(s, a).requests && Apply(s, a).requests[a.q].phase.Reserved?
  {
    hide RenderedText, KeyOf, Admission, TurnFits, ReservationForExisting, StoredError, T.Open, T.Write, T.Close,
      T.Fail, T.Create, T.Delete;
  }

  lemma {:induction false} RunOfOwners(actions: seq<Action>)
    ensures AllOfOwners(Run(actions))
  {
    if actions != [] {
      var s, a := Run(actions[..|actions| - 1]), actions[|actions| - 1];
      RunOfOwners(actions[..|actions| - 1]);
      RunSound(actions[..|actions| - 1]);
      StepSound(s, a);
      StepKeepsRequests(s, a);
      hide Apply, T.Sound, LogsSound, T.Extends;
      forall id | id in Apply(s, a).registry.reservations
        ensures OfOwner(Apply(s, a), id)
      {
        if id in s.registry.reservations {
          assert OfOwner(s, id);
        } else {
          ReservationStep(s, a, id);
        }
      }
    }
  }

  /** A valid reservation belongs to a request of the same user, method, route and header core. */
  ghost predicate Meets(s: State, q: ReqId, id: RecId)
    requires q in s.requests
  {
    && id in s.registry.reservations && s.now < s.registry.reservations[id].expiresAt
    && s.registry.reservations[id].owner in s.requests
    && SameKey(s.requests[s.registry.reservations[id].owner].submission, s.requests[q].submission)
  }

  lemma KeyOfReservation(actions: seq<Action>, q: ReqId, id: RecId)
    requires q in Run(actions).requests && !TurnedDown(Run(actions).requests[q].phase)
    requires id in Run(actions).registry.reservations
    ensures var s := Run(actions);
            Meets(s, q, id) <==>
            s.now < s.registry.reservations[id].expiresAt && s.registry.reservations[id].key == s.requests[q].key
  {
    hide SameKey;
    RunOfOwners(actions);
    assert OfOwner(Run(actions), id);
    KeysAgreeExactly(actions, Run(actions).registry.reservations[id].owner, q);
  }

  lemma ReadsOn(s: State, q: ReqId)
    requires RegistrySound(s.registry, s.now) && q in s.requests && s.requests[q].phase.Arrived?
    requires forall id | id in s.registry.reservations && s.registry.reservations[id].key == s.requests[q].key ::
        s.registry.reservations[id].expiresAt <= s.now
    ensures var s' := DoLookup(s, q);
            && q in s'.requests && s'.requests[q] == s.requests[q].(phase := Looked(s.now + 86_400_000_000))
            && s'.now == s.now && s'.registry.nextRecord == s.registry.nextRecord
            && s.requests[q].key !in s'.registry.keys
  {
    hide Answer;
    assert s.requests[q].key in s.registry.keys ==> RowSound(s.registry, s.requests[q].key);
  }

  lemma WinsInsert(s: State, q: ReqId)
    requires q in s.requests && s.requests[q].phase.Looked? && s.requests[q].key !in s.registry.keys
    ensures var s', id := DoInsert(s, q), s.registry.nextRecord;
            && q in s'.requests && s'.requests[q].phase == Reserved(id) && id in s'.registry.reservations
            && s'.registry.reservations[id] == Reservation(s.requests[q].key, s.requests[q].submission.payload, q,
                 s.now, s.requests[q].phase.expiresAt)
  {
  }

  /** Undisturbed, the request reads, inserts, and holds its key for 24 hours. */
  ghost predicate GoesOn(actions: seq<Action>, q: ReqId) {
    var s, s' := Run(actions), Run(actions + [Lookup(q)] + [Insert(q)]);
    && q in s.requests && q in s'.requests
    && s'.requests[q].phase.Reserved?
    && s'.requests[q].phase.rec in s'.registry.reservations
    && s'.registry.reservations[s'.requests[q].phase.rec]
       == Reservation(s.requests[q].key, s.requests[q].submission.payload, q, s.now, s.now + 86_400_000_000)
  }

  /**
    A request whose first read is next goes on to reserve its key exactly when no valid reservation belongs to a
    request of the same user, method, route and header core; reservations of other cores do not stand in its way.
   */
  lemma GoesOnExactly(actions: seq<Action>, q: ReqId)
    requires q in Run(actions).requests && Run(actions).requests[q].phase.Arrived?
    ensures GoesOn(actions, q) <==> !exists id :: Meets(Run(actions), q, id)
  {
    hide DoArrive, DoLookup, DoInsert, DoReread, DoOpen, DoInvoke, DoFinish, DoClose, DoBreak, DoSettle, DoStop, Meets,
      LogsSound, T.Sound;
    var s := Run(actions);
    RunSound(actions);
    RunOneMore(actions, Lookup(q));
    RunOneMore(actions + [Lookup(q)], Insert(q));
    forall id | id in s.registry.reservations
      ensures Meets(s, q, id) <==>
        s.now < s.registry.reservations[id].expiresAt && s.registry.reservations[id].key == s.requests[q].key
    {
      KeyOfReservation(actions, q, id);
    }
    if id :| Meets(s, q, id) {
      MeetsIsStored(s, q, id);
      Answered(actions, q, id);
    } else {
      ReadsOn(s, q);
      WinsInsert(Run(actions + [Lookup(q)]), q);
    }
  }

  lemma MeetsIsStored(s: State, q: ReqId, id: RecId)
    requires q in s.requests && Meets(s, q, id)
    ensures id in s.registry.reservations
  {
  }

  lemma Answered(actions: seq<Action>, q: ReqId, id: RecId)
    requires var s := Run(actions);
             && q in s.requests && s.requests[q].phase.Arrived?
             && id in s.registry.reservations && s.now < s.registry.reservations[id].expiresAt
             && s.registry.reservations[id].key == s.requests[q].key
    ensures !GoesOn(actions, q)
  {
    hide DoArrive, DoLookup, DoReread, DoOpen, DoInvoke, DoFinish, DoClose, DoBreak, DoSettle, DoStop, LogsSound,
      RegistrySound;
    G.OthersAreTurnedAway(actions, id, q);
    RunOneMore(actions, Lookup(q));
    RunOneMore(actions + [Lookup(q)], Insert(q));
  }

  /** What a step may do to the row of a key that is not its own: nothing. */
  lemma OtherRowsStay(s: State, a: Action, key: Key)
    requires a.Lookup? || a.Insert? || a.Reread? || a.Settle? ==> !(a.q in s.requests && s.requests[a.q].key == key)
    ensures key in Apply(s, a).registry.keys <==> key in s.registry.keys
    ensures key in s.registry.keys ==> Apply(s, a).registry.keys[key] == s.registry.keys[key]
  {
    hide RenderedText, KeyOf, Admission, TurnFits, ReservationForExisting, StoredError, T.Open, T.Write, T.Close,
      T.Fail, T.Create, T.Delete;
  }

  /** A first read deletes the row of its key exactly when that has expired, and otherwise leaves it as it is. */
  lemma LookupDeletesExpired(s: State, q: ReqId)
    requires q in s.requests && s.requests[q].phase.Arrived?
    ensures var key := s.requests[q].key;
            var keys := DoLookup(s, q).registry.keys;
            if key in s.registry.keys && s.now < s.registry.keys[key].expiresAt then keys == s.registry.keys
            else key !in keys && keys == s.registry.keys - {key}
  {
    hide ReservationForExisting;
  }

  // ---------------------------------------------------------------- how long a reservation lasts

  /** Action `k` is the first read of the request, 24 hours before this time. */
  ghost predicate ReadsAt(actions: seq<Action>, k: nat, q: ReqId, expiresAt: Time)
    requires k < |actions|
  {
    actions[k] == Lookup(q) && Run(actions[..k]).now + 86_400_000_000 == expiresAt
  }

  ghost predicate WasRead(actions: seq<Action>, q: ReqId, expiresAt: Time) {
    exists k: nat | k < |actions| :: ReadsAt(actions, k, q, expiresAt)
  }

  lemma WasReadLater(most: seq<Action>, last: Action, q: ReqId, expiresAt: Time)
    requires WasRead(most, q, expiresAt)
    ensures WasRead(most + [last], q, expiresAt)
  {
    var k: nat :| k < |most| && ReadsAt(most, k, q, expiresAt);
    assert (most + [last])[..k] == most[..k];
    assert ReadsAt(most + [last], k, q, expiresAt);
  }

  lemma LookedStep(s: State, a: Action, q: ReqId)
    requires q in Apply(s, a).requests && Apply(s, a).requests[q].phase.Looked?
    ensures || (q in s.requests && s.requests[q].phase == Apply(s, a).requests[q].phase)
            || (a == Lookup(q) && Apply(s, a).requests[q].phase.expiresAt == s.now + 86_400_000_000)
  {
    hide RenderedText, KeyOf, Admission, TurnFits, ReservationForExisting, StoredError, T.Open, T.Write, T.Close,
      T.Fail, T.Create, T.Delete, LookupCommit, ReserveCommit, CompleteCommit, FailCommit, Expired;
  }

  /** Each request that has read remembers when, plus 24 hours. */
  lemma {:induction false} LookedWasRead(actions: seq<Action>, q: ReqId)
    requires q in Run(actions).requests && Run(actions).requests[q].phase.Looked?
    ensures WasRead(actions, q, Run(actions).requests[q].phase.expiresAt)
  {
    hide Apply;
    var most, last := actions[..|actions| - 1], actions[|actions| - 1];
    var expiresAt := Run(actions).requests[q].phase.expiresAt;
    LookedStep(Run(most), last, q);
    assert actions == most + [last];
    if q in Run(most).requests && Run(most).requests[q].phase == Run(actions).requests[q].phase {
      LookedWasRead(most, q);
      WasReadLater(most, last, q, expiresAt);
    } else {
      assert ReadsAt(actions, |most|, q, expiresAt);
    }
  }

  /** Every reservation expires exactly 24 hours after the first read of the request that made it. */
  lemma {:induction false} HeldForADay(actions: seq<Action>, id: RecId)
    requires id in Run(actions).registry.reservations
    ensures var reservation := Run(actions).registry.reservations[id];
            WasRead(actions, reservation.owner, reservation.expiresAt)
  {
    hide Apply;
    var most, last := actions[..|actions| - 1], actions[|actions| - 1];
    assert actions == most + [last];
    if id in Run(most).registry.reservations {
      HeldForADay(most, id);
      G.ResultsStayFixed(most, [last]);
      var reservation := Run(most).registry.reservations[id];
      WasReadLater(most, last, reservation.owner, reservation.expiresAt);
    } else {
      ReservationStep(Run(most), last, id);
      LookedWasRead(most, last.q);
      WasReadLater(most, last, last.q, Run(most).requests[last.q].phase.expiresAt);
    }
  }
}
