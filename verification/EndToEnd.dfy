/** One streamed turn seen from all sides: the client's stream, the stored transcript and the stored result agree. */
module EndToEnd {
  import opened Wrappers
  import opened Agent
  import opened Transcript
  import opened Idempotency
  import opened Submission
  import opened SubmissionSound
  import G = SubmissionGuarantees
  import Steps = SubmissionSteps
  import TS = TurnStream
  import Stream = ResponseStream
  import Contents = StreamContents
  import T = Threads

  /** The effects of the endpoint when the model runs like this; `gone` when the row of the key is gone at the end. */
  function TraceOfModel(ctx: Stream.Context, itemId: nat, model: ModelRun, gone: bool): seq<Stream.Effect> {
    var trace := Stream.TraceOf(ctx, TS.Executed(Ok(itemId), TS.GraphOf(StreamedBy(model))));
    if gone then Stream.UntilKey(trace) else trace
  }

  /** Finalising the key found its row gone. */
  predicate RowGone(settled: State, q: ReqId) {
    q in settled.requests && settled.requests[q].phase == Ended(Crashed)
  }

  lemma GoneBreaksOff(ctx: Stream.Context, itemId: nat, model: ModelRun)
    ensures Stream.BreaksOff(TraceOfModel(ctx, itemId, model, true), Deltas(model.chunks))
  {
    hide Stream.BreaksOff, Stream.TraceOf;
    TS.ModelTokensSurvive(model);
    Stream.LostRowBreaksOff(ctx, Ok(itemId), TS.GraphOf(StreamedBy(model)));
  }

  lemma Finishes(actions: seq<Action>, q: ReqId, answer: string)
    requires q in Run(actions).requests && Run(actions).requests[q].phase.Invoked?
    ensures var r := Run(actions).requests[q];
            var s' := Run(actions + [Finish(q, answer)]);
            && q in s'.requests
            && s'.requests[q] == r.(phase := Finished(r.phase.rec, r.phase.turn, answer))
  {
    hide DoArrive, DoLookup, DoInsert, DoReread, DoOpen, DoInvoke, DoClose, DoBreak, DoStop, DoSettle;
    Steps.RunSound(actions);
    assert RequestSound(Run(actions), q);
    Steps.RunOneMore(actions, Finish(q, answer));
  }

  /** What a finished turn stores, and what its key keeps while the reservation is valid. */
  ghost predicate AnswerKept(closed: State, settled: State, q: ReqId, rec: RecId, c: ConvId, run: RunId,
                             answer: string)
  {
    && T.CompletedRun(closed.world, c, run, answer)
    && q in closed.requests && closed.requests[q].phase == Closed(rec, run, answer)
    && q in settled.requests
    && rec in closed.registry.reservations
    && (RowGone(settled, q) ==> closed.registry.reservations[rec].expiresAt <= closed.now)
    && (!RowGone(settled, q) ==>
          rec in settled.registry.finals
            && settled.registry.finals[rec] == Final(200, ResponseSnapshot(c, run, answer)))
  }

  /** The snapshot the stream finalises its key with is, in run, conversation and text, the one stored for replays. */
  predicate SnapshotStored(trace: seq<Stream.Effect>, final: Final) {
    forall e | e in trace && e.KeyCompleted? ::
      final == Final(200, ResponseSnapshot(e.snapshot.conversation, e.snapshot.run,
        if e.snapshot.output != [] then e.snapshot.output[0].text else ""))
  }

  lemma AnswerSnapshot(ctx: Stream.Context, itemId: nat, model: ModelRun, answer: string)
    requires Stream.Succeeds(TraceOfModel(ctx, itemId, model, false), Deltas(model.chunks), answer)
    ensures SnapshotStored(TraceOfModel(ctx, itemId, model, false),
              Final(200, ResponseSnapshot(ctx.conversation, ctx.run, answer)))
  {
    hide Stream.TraceOf, StreamedBy, Stream.FinalisedOnce, Stream.Parse, Stream.Numbered, Stream.ClosingTexts;
    Contents.EveryEventCarries(ctx, itemId, TS.GraphOf(StreamedBy(model)));
    var trace := TraceOfModel(ctx, itemId, model, false);
    forall e | e in trace && e.KeyCompleted?
      ensures e.snapshot.run == ctx.run && e.snapshot.conversation == ctx.conversation
      ensures e.snapshot.output != [] && e.snapshot.output[0].text == answer
    {
      assert Contents.EffectHasFields(e, ctx, itemId);
      assert Stream.OutputTexts(e.snapshot)[0] == answer;
    }
  }

  /**
    A model run that completes: the text all closing events carry is the text stored in the transcript, and in the
    result kept for replays. Only when the reservation has expired and its row is gone does the client see no closing
    event: the stream breaks off after the deltas, though the transcript has the answer.
   */
  lemma StreamedAnswerIsStored(actions: seq<Action>, q: ReqId, ctx: Stream.Context, itemId: nat, model: ModelRun,
                               answer: string)
    requires q in Run(actions).requests && Run(actions).requests[q].phase.Invoked?
    requires StreamedBy(model).answer == Ok(answer)
    ensures var c, phase := Conv(Run(actions).requests[q]), Run(actions).requests[q].phase;
            var closed := Run(actions + [Finish(q, answer)] + [Close(q)]);
            var settled := Apply(closed, Settle(q));
            var trace := TraceOfModel(ctx, itemId, model, RowGone(settled, q));
            && AnswerKept(closed, settled, q, phase.rec, c, phase.turn.run, answer)
            && (!RowGone(settled, q) ==> Stream.Succeeds(trace, Deltas(model.chunks), answer))
            && (!RowGone(settled, q) && ctx == Stream.Context(phase.turn.run, c) ==>
                  SnapshotStored(trace, settled.registry.finals[phase.rec]))
            && (RowGone(settled, q) ==> Stream.BreaksOff(trace, Deltas(model.chunks)))
  {
    hide DoArrive, DoLookup, DoInsert, DoReread, DoOpen, DoInvoke, DoFinish, DoClose, DoBreak, DoSettle, DoStop,
      Apply, G.Freed, T.CompletedRun, Stream.Succeeds, Stream.Fails, Stream.TraceOf, Stream.Events, Stream.DeltasSeen,
      Stream.BreaksOff, Stream.UntilKey, SnapshotStored;
    AnswerOfDeltas(model.chunks);
    Stream.TextAgrees(ctx, itemId, model);
    GoneBreaksOff(ctx, itemId, model);
    var finished := actions + [Finish(q, answer)];
    Finishes(actions, q, answer);
    Steps.RunOneMore(finished, Close(q));
    G.AnsweredTurnFreesConversation(finished, q);
    G.SettleStoresTheOutcome(finished + [Close(q)], q);
    AnswerSnapshot(ctx, itemId, model, answer);
  }

  /** What a broken turn stores, and what its key keeps while the reservation is valid. */
  ghost predicate FailureKept(broken: State, settled: State, q: ReqId, rec: RecId, turn: Turn, c: ConvId,
                              failure: Failure)
  {
    && G.Freed(broken.world.tables, turn, c, RunFailed)
    && q in settled.requests
    && rec in broken.registry.reservations
    && (RowGone(settled, q) ==> broken.registry.reservations[rec].expiresAt <= broken.now)
    && (!RowGone(settled, q) ==>
          && rec in settled.registry.finals
          && settled.registry.finals[rec] == (if failure.Expected?
               then Final(failure.error.status, ErrorSnapshot(failure.error.code))
               else Final(500, ErrorSnapshot("internal_error"))))
  }

  /** The stream ends with an error event, and its code is the one stored for replays. */
  predicate ErrorStored(trace: seq<Stream.Effect>, final: Final) {
    var events := Stream.Events(trace);
    events != [] && events[|events| - 1].ErrorEvent? && final.snapshot == ErrorSnapshot(events[|events| - 1].code)
  }

  lemma LastCode(trace: seq<Stream.Effect>, deltas: seq<string>, failure: Failure, final: Final)
    requires Stream.Fails(trace, deltas, failure)
    requires final.snapshot == ErrorSnapshot(if failure.Expected? then failure.error.code else "internal_error")
    ensures ErrorStored(trace, final)
  {
  }

  /**
    A model run that fails: the error the stream ends with is the one the key keeps for replays, the deltas sent are
    those before the failure, and the run is stored failed. With the row gone, the stream breaks off after the deltas.
   */
  lemma StreamedFailureIsStored(actions: seq<Action>, q: ReqId, ctx: Stream.Context, itemId: nat, model: ModelRun)
    requires q in Run(actions).requests && Run(actions).requests[q].phase.Invoked? && model.failure.Some?
    ensures var c, phase := Conv(Run(actions).requests[q]), Run(actions).requests[q].phase;
            var broken := Run(actions + [Break(q, model.failure.value)]);
            var settled := Apply(broken, Settle(q));
            var trace := TraceOfModel(ctx, itemId, model, RowGone(settled, q));
            && FailureKept(broken, settled, q, phase.rec, phase.turn, c, model.failure.value)
            && (!RowGone(settled, q) ==>
                  && Stream.Fails(trace, Deltas(model.chunks), model.failure.value)
                  && ErrorStored(trace, settled.registry.finals[phase.rec]))
            && (RowGone(settled, q) ==> Stream.BreaksOff(trace, Deltas(model.chunks)))
  {
    hide DoArrive, DoLookup, DoInsert, DoReread, DoOpen, DoInvoke, DoFinish, DoClose, DoBreak, DoSettle, DoStop,
      Apply, G.Freed, StreamedBy, Stream.Succeeds, Stream.Fails, Stream.TraceOf, Stream.Events, Stream.DeltasSeen,
      Stream.BreaksOff, Stream.UntilKey, ErrorStored;
    var failure := model.failure.value;
    Stream.TextAgrees(ctx, itemId, model);
    GoneBreaksOff(ctx, itemId, model);
    Steps.RunOneMore(actions, Break(q, failure));
    G.FailedTurnFreesConversation(actions, q, failure);
    G.SettleStoresTheOutcome(actions + [Break(q, failure)], q);
    var settled := Apply(Run(actions + [Break(q, failure)]), Settle(q));
    if !RowGone(settled, q) {
      LastCode(TraceOfModel(ctx, itemId, model, false), Deltas(model.chunks), failure,
        settled.registry.finals[Run(actions).requests[q].phase.rec]);
    }
  }
}
