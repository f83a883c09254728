/** Every action of the submission protocol keeps `StateSound`, hence every run does. */
module SubmissionSteps {
  import opened Wrappers
  import opened Agent
  import opened Transcript
  import opened Idempotency
  import opened Submission
  import opened SubmissionSound
  import T = Threads

  lemma WorldReflexive(w: T.World)
    requires T.Sound(w)
    ensures T.Extends(w, w) && forall d :: T.Untouched(w, w, d)
  {
  }

  /** An action that is not enabled. */
  lemma NoStep(s: State)
    requires StateSound(s)
    ensures Keeps(s, s)
  {
    WorldReflexive(s.world);
  }

  /** A step that leaves the conversations alone and starts nothing. */
  lemma RegistryStep(s: State, s': State, q: ReqId)
    requires T.Sound(s.world)
    requires s'.now == s.now && s'.world == s.world && s'.starts == s.starts
    requires RegistrySound(s'.registry, s.now) && RegistryExtends(s.registry, s'.registry)
    requires forall id | id in s'.registry.finals && id !in s.registry.finals ::
          id in s.registry.reservations && s.registry.reservations[id].owner == q
    requires s'.requests.Keys == s.requests.Keys + {q} && forall p | p in s.requests
        && p != q :: s'.requests[p] == s.requests[p]
    ensures StepOf(s, s', q)
  {
    WorldReflexive(s.world);
  }

  // ---------------------------------------------------------------- arrival and the key

  lemma ArriveStep(s: State, q: ReqId, submission: Submission)
    requires StateSound(s)
    ensures Keeps(s, DoArrive(s, q, submission))
  {
    hide StepOf, Keeps, RegistrySound, T.Extends, T.OnlyTouches, T.Untouched;
    if q !in s.requests {
      RegistryStep(s, DoArrive(s, q, submission), q);
      StepCloses(s, DoArrive(s, q, submission), q);
    } else {
      NoStep(s);
    }
  }

  lemma AnswerNew(s: State, q: ReqId, key: Key)
    requires q in s.requests && key == s.requests[q].key && key in s.registry.keys && RowSound(s.registry, key)
    ensures var answer := ReservationForExisting(s.registry.keys[key], s.requests[q].submission.payload);
            NewSound(s, Answer(s, q, answer), q)
  {
  }

  lemma AnswerStep(s: State, q: ReqId, key: Key)
    requires StateSound(s) && q in s.requests && key == s.requests[q].key && key in s.registry.keys
    ensures var answer := ReservationForExisting(s.registry.keys[key], s.requests[q].submission.payload);
            Keeps(s, Answer(s, q, answer))
  {
    hide StepOf, Keeps, LogsSound, T.Sound, T.Extends, T.OnlyTouches, T.Untouched, NewSound;
    var answer := ReservationForExisting(s.registry.keys[key], s.requests[q].submission.payload);
    assert RowSound(s.registry, key);
    AnswerNew(s, q, key);
    RegistryStep(s, Answer(s, q, answer), q);
    StepCloses(s, Answer(s, q, answer), q);
  }

  lemma LookupStep(s: State, q: ReqId)
    requires StateSound(s)
    ensures Keeps(s, DoLookup(s, q))
  {
    hide StepOf, Keeps, T.Sound, T.Extends, T.OnlyTouches, T.Untouched;
    if q in s.requests && s.requests[q].phase.Arrived? {
      var r := s.requests[q];
      if LookupAnswer(s.registry.keys, r.key, r.submission.payload, s.now).Some? {
        AnswerStep(s, q, r.key);
      } else {
        assert RequestSound(s, q);
        LookupSound(s.registry, r.key, s.now);
        RegistryStep(s, DoLookup(s, q), q);
        StepCloses(s, DoLookup(s, q), q);
      }
    } else {
      NoStep(s);
    }
  }

  lemma FreshRecord(s: State)
    requires RegistrySound(s.registry, s.now) && LogsSound(s)
    ensures s.registry.nextRecord !in s.registry.reservations
    ensures s.registry.nextRecord !in s.registry.finals
    ensures NotStarted(s, s.registry.nextRecord)
  {
    var id := s.registry.nextRecord;
    assert id in s.registry.reservations ==> ReservationSound(s.registry, s.now, id);
    forall i | 0 <= i < |s.starts|
      ensures s.starts[i].rec != id
    {
      assert StartSound(s, i);
    }
  }

  lemma InsertStep(s: State, q: ReqId)
    requires StateSound(s)
    ensures Keeps(s, DoInsert(s, q))
  {
    hide StepOf, Keeps, T.Sound, T.Extends, T.OnlyTouches, T.Untouched;
    if q in s.requests && s.requests[q].phase.Looked? {
      var r := s.requests[q];
      assert RequestSound(s, q);
      if r.key !in s.registry.keys {
        ReserveSound(s.registry, r.key, r.submission.payload, q, s.now, r.phase.expiresAt);
        FreshRecord(s);
      }
      RegistryStep(s, DoInsert(s, q), q);
      StepCloses(s, DoInsert(s, q), q);
    } else {
      NoStep(s);
    }
  }

  lemma {:induction false} RereadStep(s: State, q: ReqId)
    requires StateSound(s)
    ensures Keeps(s, DoReread(s, q))
  {
    hide StepOf, Keeps, T.Sound, T.Extends, T.OnlyTouches, T.Untouched;
    if q in s.requests && s.requests[q].phase.Lost? {
      if s.requests[q].key in s.registry.keys {
        AnswerStep(s, q, s.requests[q].key);
      } else {
        RegistryStep(s, DoReread(s, q), q);
        StepCloses(s, DoReread(s, q), q);
      }
    } else {
      NoStep(s);
    }
  }

  // ---------------------------------------------------------------- the turn

  /** Two requests never work on the newest turn of one conversation. */
  lemma Elsewhere(s: State, q: ReqId, p: ReqId)
    requires q in s.requests && p in s.requests && p != q && RequestSound(s, q) && RequestSound(s, p)
    requires InTurn(s.requests[q].phase) && InTurn(s.requests[p].phase)
    ensures Conv(s.requests[q]) != Conv(s.requests[p])
  {
  }

  /** A request in a turn keeps a run of its conversation active. */
  lemma InTurnActive(s: State, p: ReqId)
    requires T.Sound(s.world) && p in s.requests && RequestSound(s, p) && InTurn(s.requests[p].phase)
    ensures HasActiveRun(s.world.tables, Conv(s.requests[p]))
  {
    var c := Conv(s.requests[p]);
    var r := s.requests[p].phase.turn.run;
    assert T.ThreadSound(s.world, c) && T.TurnSound(s.world, c, |s.world.turns[c]| - 1);
    assert s.world.tables.runs[r].conversation == c && Active(s.world.tables.runs[r].status);
  }

  lemma OthersUntouched(s: State, w': T.World, q: ReqId, p: ReqId)
    requires T.Sound(s.world) && q in s.requests && p in s.requests && p != q
    requires RequestSound(s, q) && RequestSound(s, p) && InTurn(s.requests[p].phase)
    requires T.OnlyTouches(s.world, w', Conv(s.requests[q]))
    requires InTurn(s.requests[q].phase) || !HasActiveRun(s.world.tables, Conv(s.requests[q]))
    ensures T.Untouched(s.world, w', Conv(s.requests[p]))
  {
    InTurnActive(s, p);
    if InTurn(s.requests[q].phase) {
      Elsewhere(s, q, p);
    }
  }

  /** A step of `q` that writes only its own conversation. */
  lemma TurnStep(s: State, s': State, q: ReqId)
    requires StateSound(s) && q in s.requests
    requires s'.now == s.now && s'.registry == s.registry
    requires T.Sound(s'.world) && T.Extends(s.world, s'.world) && T.OnlyTouches(s.world, s'.world, Conv(s.requests[q]))
    requires InTurn(s.requests[q].phase) || !HasActiveRun(s.world.tables, Conv(s.requests[q]))
    requires s'.requests.Keys == s.requests.Keys && forall p | p in s.requests
        && p != q :: s'.requests[p] == s.requests[p]
    requires StartsBy(s, s', q)
    ensures StepOf(s, s', q)
  {
    hide T.Sound, T.Extends, T.OnlyTouches;
    assert RequestSound(s, q);
    forall p | p in s.requests && p != q && InTurn(s.requests[p].phase)
      ensures T.Untouched(s.world, s'.world, Conv(s.requests[p]))
    {
      assert RequestSound(s, p);
      OthersUntouched(s, s'.world, q, p);
    }
  }

  lemma OpenNew(s: State, q: ReqId)
    requires RegistrySound(s.registry, s.now) && T.Sound(s.world)
    requires q in s.requests && s.requests[q].phase.Reserved? && RequestSound(s, q)
    requires s.requests[q].counter == s.world.tables.conversations[Conv(s.requests[q])].latest
    requires TurnFits(s.world.tables, Conv(s.requests[q]), s.requests[q].counter)
    ensures RequestSound(DoOpen(s, q), q)
  {
    var r := s.requests[q];
    var c := Conv(r);
    assert T.ThreadSound(s.world, c);
    var s' := DoOpen(s, q);
    var turn := s'.requests[q].phase.turn;
    assert s'.world.turns[c][|s.world.turns[c]|] == T.TurnLog(turn.run, q, []);
    assert T.Running(s'.world, c, turn, q, []);
  }

  lemma StartNew(s: State, q: ReqId)
    requires RegistrySound(s.registry, s.now)
    requires q in s.requests && s.requests[q].phase.Reserved? && RequestSound(s, q)
    requires RequestSound(DoOpen(s, q), q)
    ensures NewSound(s, DoOpen(s, q), q)
  {
    assert ReservationSound(s.registry, s.now, s.requests[q].phase.rec);
  }

  lemma BusyStep(s: State, q: ReqId)
    requires StateSound(s) && q in s.requests && s.requests[q].phase.Reserved? && RequestSound(s, q)
    requires !TurnFits(s.world.tables, Conv(s.requests[q]), s.requests[q].counter)
    ensures StepOf(s, DoOpen(s, q), q)
  {
    WorldReflexive(s.world);
  }

  lemma FitStep(s: State, q: ReqId)
    requires StateSound(s) && q in s.requests && s.requests[q].phase.Reserved? && RequestSound(s, q)
    requires TurnFits(s.world.tables, Conv(s.requests[q]), s.requests[q].counter)
    ensures StepOf(s, DoOpen(s, q), q) && RequestSound(DoOpen(s, q), q)
  {
    hide StepOf, RegistrySound, T.Sound, T.Extends, T.OnlyTouches, T.Untouched;
    var r := s.requests[q];
    T.FitsExactly(s.world, Conv(r), r.counter);
    T.OpenSound(s.world, Conv(r), RenderedText(r.submission), q);
    assert StartsBy(s, DoOpen(s, q), q);
    TurnStep(s, DoOpen(s, q), q);
    OpenNew(s, q);
  }

  lemma OpenStep(s: State, q: ReqId)
    requires StateSound(s)
    ensures Keeps(s, DoOpen(s, q))
  {
    hide StepOf, Keeps, T.Sound, T.Extends, T.OnlyTouches, T.Untouched;
    if q in s.requests && s.requests[q].phase.Reserved? {
      assert RequestSound(s, q);
      var r := s.requests[q];
      if TurnFits(s.world.tables, Conv(r), r.counter) {
        FitStep(s, q);
      } else {
        BusyStep(s, q);
      }
      StartNew(s, q);
      StepCloses(s, DoOpen(s, q), q);
    } else {
      NoStep(s);
    }
  }

  lemma InvokeNew(s: State, q: ReqId)
    requires T.Sound(s.world)
    requires q in s.requests && s.requests[q].phase.Opened? && RequestSound(s, q) && ThreadReady(s, Conv(s.requests[q]))
    requires var r := s.requests[q];
             T.Running(DoInvoke(s, q).world, Conv(r), r.phase.turn, q, [] + [UserMessage(RenderedText(r.submission))])
    ensures NewSound(s, DoInvoke(s, q), q)
  {
    var input := UserMessage(RenderedText(s.requests[q].submission));
    assert [] + [input] == [input];
    CallNew(s, q);
  }

  lemma CallNew(s: State, q: ReqId)
    requires T.Sound(s.world)
    requires q in s.requests && s.requests[q].phase.Opened? && RequestSound(s, q) && ThreadReady(s, Conv(s.requests[q]))
    ensures CallSoundIn(DoInvoke(s, q).world, DoInvoke(s, q).calls[|s.calls|])
  {
    var c := Conv(s.requests[q]);
    var last := |s.world.turns[c]| - 1;
    assert T.ThreadSound(s.world, c);
    assert DoInvoke(s, q).world.turns[c][..last] == s.world.turns[c][..last];
    assert T.Flatten(s.world.turns[c]) == T.Flatten(s.world.turns[c][..last]) + [];
  }

  lemma InvokeStep(s: State, q: ReqId)
    requires StateSound(s)
    ensures Keeps(s, DoInvoke(s, q))
  {
    hide StepOf, Keeps, RegistrySound, T.Sound, T.Extends, T.OnlyTouches, T.Untouched;
    if q in s.requests && s.requests[q].phase.Opened? && ThreadReady(s, Conv(s.requests[q])) {
      assert RequestSound(s, q);
      var r := s.requests[q];
      T.WriteSound(s.world, Conv(r), r.phase.turn, q, [], UserMessage(RenderedText(r.submission)),
        s.world.checkpoints[Conv(r)].finalAnswer);
      TurnStep(s, DoInvoke(s, q), q);
      InvokeNew(s, q);
      StepCloses(s, DoInvoke(s, q), q);
    } else {
      NoStep(s);
    }
  }

  lemma FinishNew(s: State, q: ReqId, answer: string)
    requires q in s.requests && s.requests[q].phase.Invoked? && RequestSound(s, q)
        && ThreadReady(s, Conv(s.requests[q]))
    requires var r := s.requests[q];
             T.Running(DoFinish(s, q, answer).world, Conv(r), r.phase.turn, q,
               [UserMessage(RenderedText(r.submission))] + [AssistantMessage(answer)])
    ensures NewSound(s, DoFinish(s, q, answer), q)
  {
    var input := UserMessage(RenderedText(s.requests[q].submission));
    assert [input] + [AssistantMessage(answer)] == [input, AssistantMessage(answer)];
  }

  lemma FinishStep(s: State, q: ReqId, answer: string)
    requires StateSound(s)
    ensures Keeps(s, DoFinish(s, q, answer))
  {
    hide StepOf, Keeps, RegistrySound, T.Sound, T.Extends, T.OnlyTouches, T.Untouched;
    if q in s.requests && s.requests[q].phase.Invoked? && ThreadReady(s, Conv(s.requests[q])) {
      assert RequestSound(s, q);
      var r := s.requests[q];
      T.WriteSound(s.world, Conv(r), r.phase.turn, q, [UserMessage(RenderedText(r.submission))],
        AssistantMessage(answer), Some(answer));
      TurnStep(s, DoFinish(s, q, answer), q);
      FinishNew(s, q, answer);
      StepCloses(s, DoFinish(s, q, answer), q);
    } else {
      NoStep(s);
    }
  }

  /** A stream reads back exactly the answer its own graph wrote, because no other turn is open on the thread. */
  lemma OwnAnswer(s: State, q: ReqId)
    requires StateSound(s) && q in s.requests && s.requests[q].phase.Finished?
    ensures ClosingAnswer(s, s.requests[q]) == Some(s.requests[q].phase.answer)
  {
    assert RequestSound(s, q);
  }

  lemma CloseStep(s: State, q: ReqId)
    requires StateSound(s)
    ensures Keeps(s, DoClose(s, q))
  {
    hide StepOf, Keeps, RegistrySound, T.Sound, T.Extends, T.OnlyTouches, T.Untouched;
    if q in s.requests && s.requests[q].phase.Finished? {
      OwnAnswer(s, q);
      assert RequestSound(s, q);
      var r := s.requests[q];
      T.CloseSound(s.world, Conv(r), r.phase.turn, q, UserMessage(RenderedText(r.submission)), r.phase.answer);
      TurnStep(s, DoClose(s, q), q);
      assert T.CompletedRun(DoClose(s, q).world, Conv(r), r.phase.turn.run, r.phase.answer);
      StepCloses(s, DoClose(s, q), q);
    } else {
      NoStep(s);
    }
  }

  lemma BreakStep(s: State, q: ReqId, failure: Failure)
    requires StateSound(s)
    ensures Keeps(s, DoBreak(s, q, failure))
  {
    hide StepOf, Keeps, RegistrySound, LogsSound, T.Sound, T.Extends, T.OnlyTouches, T.Untouched;
    if q in s.requests && InTurn(s.requests[q].phase) {
      assert RequestSound(s, q);
      BrokenWorld(s, q, failure);
      TurnStep(s, DoBreak(s, q, failure), q);
      StepCloses(s, DoBreak(s, q, failure), q);
    } else {
      NoStep(s);
    }
  }

  lemma BrokenWorld(s: State, q: ReqId, failure: Failure)
    requires T.Sound(s.world) && q in s.requests && InTurn(s.requests[q].phase) && RequestSound(s, q)
    ensures TurnStored(s, s.requests[q].phase.turn)
    ensures var w' := T.Fail(s.world, s.requests[q].phase.turn, failure);
            && T.Sound(w') && T.Extends(s.world, w') && T.OnlyTouches(s.world, w', Conv(s.requests[q]))
            && !HasActiveRun(w'.tables, Conv(s.requests[q]))
  {
    var r := s.requests[q];
    var c := Conv(r);
    T.FailSound(s.world, c, r.phase.turn, q, s.world.turns[c][|s.world.turns[c]| - 1].contribution, failure);
  }

  // ---------------------------------------------------------------- the result

  predicate TurnEnded(s: State, q: ReqId) {
    q in s.requests && (s.requests[q].phase.Closed? || s.requests[q].phase.Broken?)
  }

  lemma SettleOwned(s: State, q: ReqId)
    requires RegistrySound(s.registry, s.now) && T.Sound(s.world) && TurnEnded(s, q) && RequestSound(s, q)
    requires Owns(s.registry.keys, s.requests[q].key, s.requests[q].phase.rec)
    ensures StepOf(s, DoSettle(s, q), q) && NewSound(s, DoSettle(s, q), q)
  {
    hide StepOf, NewSound, RegistrySound, RegistryExtends, T.Sound, T.Extends, T.Untouched, CompleteCommit, FailCommit;
    FinalCommit(s, q);
    FinalNew(s, q);
    RegistryStep(s, DoSettle(s, q), q);
  }

  /** The row has expired and gone: nothing is written. */
  lemma SettleGone(s: State, q: ReqId)
    requires RegistrySound(s.registry, s.now) && T.Sound(s.world) && TurnEnded(s, q) && RequestSound(s, q)
    requires !Owns(s.registry.keys, s.requests[q].key, s.requests[q].phase.rec)
    ensures StepOf(s, DoSettle(s, q), q) && NewSound(s, DoSettle(s, q), q)
  {
    hide StepOf, RegistrySound, T.Sound, T.Extends, T.Untouched, CompleteCommit, FailCommit,
      Holds, OwnTurn, FinalSoundIn, StartSound, ReplaySound, CallSoundIn;
    var s' := s.(requests := Moved(s, q, Ended(Crashed)));
    assert DoSettle(s, q) == s';
    RegistryStep(s, s', q) by {
      hide RequestSound;
    }
  }

  lemma FinalCommit(s: State, q: ReqId)
    requires RegistrySound(s.registry, s.now) && TurnEnded(s, q) && RequestSound(s, q)
    requires Owns(s.registry.keys, s.requests[q].key, s.requests[q].phase.rec)
    ensures var g' := DoSettle(s, q).registry;
            && RegistrySound(g', s.now) && RegistryExtends(s.registry, g')
            && g'.reservations == s.registry.reservations
            && g'.finals.Keys == s.registry.finals.Keys + {s.requests[q].phase.rec}
  {
    var r := s.requests[q];
    var g' := DoSettle(s, q).registry;
    FinalSound(s.registry, r.key, r.phase.rec, g'.keys[r.key], g'.finals[r.phase.rec], s.now);
  }

  lemma FinalNew(s: State, q: ReqId)
    requires TurnEnded(s, q) && RequestSound(s, q)
    requires Owns(s.registry.keys, s.requests[q].key, s.requests[q].phase.rec)
    ensures NewSound(s, DoSettle(s, q), q)
  {
    assert FinalSoundIn(DoSettle(s, q), s.requests[q].phase.rec);
  }

  lemma SettleStep(s: State, q: ReqId)
    requires StateSound(s)
    ensures Keeps(s, DoSettle(s, q))
  {
    hide StepOf, Keeps, T.Sound, T.Extends, T.OnlyTouches, T.Untouched, RegistrySound, NewSound;
    if TurnEnded(s, q) {
      assert RequestSound(s, q);
      if Owns(s.registry.keys, s.requests[q].key, s.requests[q].phase.rec) {
        SettleOwned(s, q);
      } else {
        SettleGone(s, q);
      }
      StepCloses(s, DoSettle(s, q), q);
    } else {
      NoStep(s);
    }
  }

  lemma StopStep(s: State, q: ReqId)
    requires StateSound(s)
    ensures Keeps(s, DoStop(s, q))
  {
    hide StepOf, Keeps, T.Sound, T.Extends, T.OnlyTouches, T.Untouched;
    if q in s.requests && !s.requests[q].phase.Ended? {
      RegistryStep(s, DoStop(s, q), q);
      StepCloses(s, DoStop(s, q), q);
    } else {
      NoStep(s);
    }
  }

  // ---------------------------------------------------------------- steps of no request

  /** Seen from any request, a step of nobody is a step of somebody else. */
  lemma GlobalStepOf(s: State, s': State, q: ReqId)
    requires T.Sound(s.world) && (forall p | p in s.requests :: RequestSound(s, p))
    requires s'.requests == s.requests && s.now <= s'.now && s'.starts == s.starts && s'.registry == s.registry
    requires RegistrySound(s'.registry, s'.now)
    requires T.Sound(s'.world) && T.Extends(s.world, s'.world)
    requires forall d | d in s.world.turns :: T.Untouched(s.world, s'.world, d)
    ensures StepOf(s, s', q)
  {
    forall p | p in s.requests && InTurn(s.requests[p].phase)
      ensures T.Untouched(s.world, s'.world, Conv(s.requests[p]))
    {
      assert RequestSound(s, p);
    }
  }

  lemma GlobalStep(s: State, s': State)
    requires StateSound(s) && s'.requests == s.requests && s.now <= s'.now
    requires s'.starts == s.starts && s'.replays == s.replays && s'.calls == s.calls && s'.registry == s.registry
    requires RegistrySound(s'.registry, s'.now)
    requires T.Sound(s'.world) && T.Extends(s.world, s'.world)
    requires forall d | d in s.world.turns :: T.Untouched(s.world, s'.world, d)
    ensures Keeps(s, s')
  {
    forall p | p in s.requests
      ensures RequestSound(s, p)
    {
    }
    forall p | p in s'.requests
      ensures RequestSound(s', p)
    {
      GlobalStepOf(s, s', p + 1);
      OtherRequestKept(s, s', p + 1, p);
    }
    GlobalStepOf(s, s', 0);
    StepCloses(s, s', 0);
  }

  // ---------------------------------------------------------------- every run

  /** Every action keeps the invariant and takes nothing back. */
  lemma StepSound(s: State, a: Action)
    requires StateSound(s)
    ensures Keeps(s, Apply(s, a))
  {
    hide Grows, T.Sound, T.Extends, T.Untouched, RegistrySound;
    hide DoArrive, DoLookup, DoInsert, DoReread, DoOpen, DoInvoke, DoFinish, DoClose, DoBreak, DoSettle, DoStop;
    match a
    case CreateConversation(c, owner) =>
      if c !in s.world.tables.conversations {
        T.CreateSound(s.world, c, owner);
        GlobalStep(s, Apply(s, a));
      } else {
        NoStep(s);
      }
    case DeleteConversation(c) =>
      if c in s.world.tables.conversations {
        T.DeleteSound(s.world, c);
        GlobalStep(s, Apply(s, a));
      } else {
        NoStep(s);
      }
    case Tick(elapsed) =>
      TickRegistry(s.registry, s.now, s.now + elapsed);
      WorldReflexive(s.world);
      GlobalStep(s, Apply(s, a));
    case Arrive(q, submission) => ArriveStep(s, q, submission);
    case Lookup(q) => LookupStep(s, q);
    case Insert(q) => InsertStep(s, q);
    case Reread(q) => RereadStep(s, q);
    case Open(q) => OpenStep(s, q);
    case Invoke(q) => InvokeStep(s, q);
    case Finish(q, answer) => FinishStep(s, q, answer);
    case Close(q) => CloseStep(s, q);
    case Break(q, failure) => BreakStep(s, q, failure);
    case Settle(q) => SettleStep(s, q);
    case Stop(q) => StopStep(s, q);
  }

  lemma RunOneMore(actions: seq<Action>, a: Action)
    ensures Run(actions + [a]) == Apply(Run(actions), a)
  {
    hide Apply;
    assert (actions + [a])[..|actions + [a]| - 1] == actions;
  }

  /** Whatever requests, clients and crashes do, and in whatever order, every reachable state is sound. */
  lemma {:induction false} RunSound(actions: seq<Action>)
    ensures StateSound(Run(actions))
  {
    if actions != [] {
      RunSound(actions[..|actions| - 1]);
      StepSound(Run(actions[..|actions| - 1]), actions[|actions| - 1]);
    }
  }
}
