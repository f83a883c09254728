# Verified model of the travel assistant service

This project models the service's conversation, authentication and streaming
core and proves what it is meant to guarantee over every run.

**Submissions** (`Transcript`, `Threads`, `Idempotency`, `Submission`,
`SubmissionSound`, `SubmissionSteps`, `SubmissionGuarantees`,
`SubmissionProgress`, `SubmissionAbandoned`, `SubmissionOrphaned`,
`SubmissionAdmission`, `SubmissionKeys`). A request is admitted, reserves an
idempotency key, opens a turn, runs the graph, closes the turn and finalises the
key; each of these is one database transaction. A run of the system is a list of
actions of any number of requests, of the clock and of the other endpoints, in any
order; a request may read stale values and may stop for good anywhere. The
invariant `StateSound` ties the key table, the conversation tables, the checkpoints
and the phase of every request together. History variables (reservations, written
results, executions, replays, model calls) are only read by statements, never by
the protocol. The classes in `Transcript` and `Idempotency` are the services
themselves; their methods are proved against the functions the state machine uses.

**Sessions** (`Auth`, `AuthRuns`, `AuthGuarantees`, `AuthAccess`, `SessionCap`).
Login, refresh rotation, reuse detection, logout, the session cap and bearer
verification, with a clock that does not go back. A refresh holds row locks and is
one step; a login and a logout lock nothing, and anything may happen between their
reads and their commit.

**Streams** (`Agent`, `TurnStream`, `ResponseStream`, `StreamContents`,
`EventStream`, `EndToEnd`). From the model's chunks through the graph node, the
execution service and the endpoint to the lines a client decodes (framing of
sections 9.2.5 and 9.2.6 of the WHATWG HTML Standard), and back to what the
submission protocol stores.

**Small algorithms** (`RateLimit`, `Failover`, `Pagination`). The two
fixed-window limiters, the ordered model failover, and offset pages with a
sentinel row. `Text` and `Selection` hold what is said of strings and of lists
that keep some of another's items.

## Findings

- At most one execution per key (app/services/idempotency.py:57-87) holds for
  requests that reach `execute` or `stream` before their own reservation expires.
  A request that stalls longer than the 24 hours between reserving and executing
  overlaps a newer reservation: `SubmissionGuarantees.AtMostOnce` gives the exact
  condition, and `SubmissionProgress.LateStartOverlaps` such a run from every
  reachable state that admits the submission and has not seen the second request.
- A request that is cancelled during its turn (only `Exception` is caught,
  app/services/conversation_execution.py:103-107 and 157-159) leaves its
  conversation busy for good: `SubmissionAbandoned.FreedExactlyWhenAttended`.
- A request that stops anywhere between reserving its key and finalising it leaves
  the row `processing`: it never gets a result, and every retry gets
  `idempotency_in_progress` until the 24 hours are over
  (app/services/idempotency.py:77-87 and 155-160):
  `SubmissionOrphaned.FinalisedExactlyWhenHeld` and `StoppedRequestBlocksKey`.
- A turn that outlives its reservation loses its row to the first read of a retry
  (app/services/idempotency.py:63-66): `SubmissionOrphaned.LateRetryOrphans`. Its
  finalisations then raise (app/api/v1/conversations.py:373 and 411-449), and the
  stream breaks off with no closing event although the answer is in the
  transcript: `EndToEnd.StreamedAnswerIsStored`.
- The session cap needs logins that see each other, for which the code takes no
  lock (app/services/auth.py:368-377): `SessionCap.CapOverRuns` gives the
  condition, and `SessionCap.OverlappingLoginsOverrun` says from which reachable
  states two overlapping logins exceed the cap.
- Logout takes no lock either (app/services/auth.py:289-300). No access token
  outlives the commit that revokes its session by `access_token_minutes`
  (`AuthGuarantees.BoundedLife`), but one can outlive the recorded `revoked_at` by
  more: exactly if it was issued later than that (`OutlivesExactly`), and
  `RefreshOvertakesLogout` gives the run.
- In any interval of one window length at most `2 * limit - 1` checks pass
  (app/core/rate_limit.py:29-37), one fewer than twice the limit, and this is
  attained: `RateLimit.SlidingBound` and `RateLimit.SlidingBoundAttained`.
- A process lost between the two commands of the shared limiter leaves a counter
  that never expires exactly when the key had no live counter
  (app/core/rate_limit.py:51-53): `RateLimit.LostForGoodExactly`, and
  `RateLimit.LostExpiry` says what still passes.
- docs/conversation-api-design.md:161 promises the active `run_id` with
  `conversation_busy`; the code sends none
  (app/services/conversation_execution.py:195-201). Line 70 promises the original
  result for every retry with the same key and body; the code gives it exactly when
  it has been written, and 409 otherwise (app/services/idempotency.py:155-160):
  `SubmissionOrphaned.RetryGetsResultExactly`. The model follows the code.

## Assumptions

- A commit is atomic. A table with a unique index is a map keyed by the indexed
  columns, or is checked before the insert. A read under a row lock and the
  commit that ends its transaction are one step.
- Generated ids and secrets come from counters, which stands for their
  freshness. Hashes and the request fingerprint are injective; only the service
  signs access tokens.
- Conversations and graph threads correspond one to one.
- `json.dumps` of an event is one line from `{` to `}`, and `json.loads` undoes
  it.
- All clock readings inside one limiter check are one instant. A stored counter
  lives until, but not at, its deadline.

## Model

| member | source | states |
|---|---|---|
| `SubmissionGuarantees.AtMostOnce` | app/services/idempotency.py:57-87 | over every interleaving: of two executions that begin while one reservation of their key is valid, one belongs to a request whose own reservation had already expired, and an execution belongs to another reservation if and only if it starts late; punctual requests therefore execute at most once |
| `SubmissionProgress.LateStartOverlaps` | app/api/v1/conversations.py:290-308 | the promise fails without punctuality: from every reachable state that admits a submission and has not seen the second request there is a run in which the first stalls past the 24 hours, the second reserves the same key, and both execute while the second reservation is valid |
| `SubmissionGuarantees.OthersAreTurnedAway` | app/services/idempotency.py:61-86 | while a reservation is valid, every other request of the key gets a 409 or the stored result at its first read, loses its insert, or gets the same answer at its second read; it writes nothing, and the answer for a missing stored result never occurs |
| `SubmissionGuarantees.GaplessTranscript` | app/services/conversation_execution.py:227-239 | in every reachable state the message positions of a conversation are exactly 1..latest, odd ones user, even ones assistant, and latest is twice the number of its runs |
| `SubmissionGuarantees.OpensExactlyWhenCurrent` | app/services/conversation_execution.py:161-203 | a turn opens if and only if the counter the request read on arrival is still current and no run is active; otherwise 409 `conversation_busy` and no table changes |
| `SubmissionGuarantees.OneGraphPerThread` | app/services/conversation_execution.py:84-107 | no two requests are between opening and closing a turn of the same conversation, in any interleaving |
| `SubmissionGuarantees.RunOwnsTwoMessages` | app/services/conversation_execution.py:164-193 | each run owns exactly one user and one assistant message, and the assistant is partial, complete or failed exactly when the run is running, completed or failed |
| `SubmissionGuarantees.FailedTurnFreesConversation` | app/services/conversation_execution.py:241-256 | from every reachable state an exception at any point of a turn leaves the run failed, with the error's code or `agent_execution_failed`, and lets a request that reads the counter now open the next turn |
| `SubmissionGuarantees.AnsweredTurnFreesConversation` | app/services/conversation_execution.py:205-225 | a finished turn stores the answer its own graph produced, also when the stream reads it back from the thread, completes the run and frees the conversation |
| `SubmissionGuarantees.SettleStoresTheOutcome` | app/api/v1/conversations.py:473-513 | a request that ended its turn stores exactly the outcome it returns, success or error; only a request whose reservation has expired can find its row gone, and then nothing is written |
| `SubmissionGuarantees.CompletedRecordAgrees` | app/api/v1/conversations.py:366-379 | a completed record names a completed run of the key's conversation, and its snapshot text is that run's stored assistant text |
| `SubmissionGuarantees.ReplaysAgree` | app/services/idempotency.py:144-165 | any two replays of one reservation return the same status and snapshot, both to the fingerprint and key of that reservation |
| `SubmissionGuarantees.ResultsStayFixed` | app/services/idempotency.py:89-123 | however a run goes on, reservations, written results, terminal runs and their messages never change |
| `SubmissionGuarantees.ModelSeesTranscript` | app/agent/travel.py:84-90 | if every earlier turn of the thread completed, the model's input at a turn is the system prompt, then for each turn the stored input in the user's role and the stored answer in the assistant's, and last the new input as stored, in the user's role |
| `SubmissionGuarantees.FinalAnswerIsLast` | app/agent/travel.py:105-108 | the final answer a thread recalls is the last answer among its messages, in every reachable state |
| `SubmissionGuarantees.CheckpointOfAnyTurn` | app/agent/travel.py:59 | failed turns included, the checkpoint is what the turns added in order; a turn adds its stored input first, and a completed turn its stored answer next |
| `SubmissionGuarantees.CheckpointIsTranscript` | app/agent/travel.py:105-108 | what completed turns added to the checkpoint equals their stored texts in sequence order |
| `SubmissionGuarantees.RunsAreTurns` | app/services/conversation_execution.py:164-193 | a conversation has as many runs as opened turns |
| `SubmissionProgress.CompletesThenReplays` | app/api/v1/conversations.py:266-306 | from every reachable state in which the key is free and the conversation idle, an undisturbed submission completes with the graph's answer, and an undisturbed retry replays that answer with status 200 |
| `SubmissionProgress.NewConversationWelcomes` | app/api/v1/conversations.py:280-296 | a new conversation welcomes every acceptable submission of its owner, so the two results about undisturbed runs are not empty |
| `SubmissionAbandoned.FreedExactlyWhenAttended` | app/services/conversation_execution.py:91-107 | from a reachable state with an active run, some continuation frees the conversation if and only if a request is in a turn of it |
| `SubmissionAbandoned.AbandonedForGood` | app/services/conversation_execution.py:103-107 | an active run that no request is working on stays active in every continuation |
| `SubmissionAbandoned.StoppedTurnBlocks` | app/services/conversation_execution.py:157-159 | a request that stops inside its turn leaves its conversation busy for good: every later turn is refused with 409 |
| `SubmissionOrphaned.FinalisedExactlyWhenHeld` | app/services/idempotency.py:89-123 | from a reachable state in which a reservation has no result, some continuation writes one if and only if a request still carries the reservation and its row has not been deleted; before the reservation expires the row is never deleted |
| `SubmissionOrphaned.OrphanedForGood` | app/services/idempotency.py:77-87 | a reservation that no request carries, or whose row has gone, gets no result in any continuation |
| `SubmissionOrphaned.RetryGetsResultExactly` | app/services/idempotency.py:144-165 | while a reservation is valid, a retry with the same key and body, at its first read or after a lost insert, gets the original result if and only if it has been written, and `idempotency_in_progress` otherwise |
| `SubmissionOrphaned.StoppedRequestBlocksKey` | app/services/idempotency.py:155-160 | when a request stops anywhere between reserving and finalising, then in every continuation there is no result, and every retry gets `idempotency_in_progress` until the reservation expires |
| `SubmissionOrphaned.LateRetryOrphans` | app/services/idempotency.py:63-66 | from every reachable state, once a reservation without result has expired, the first read of a retry deletes its row, and in every continuation it gets no result and the request carrying it ends with the error of its missing row |
| `SubmissionAdmission.AdmittedExactly` | app/api/v1/conversations.py:280-306 | from every reachable state a new request is admitted exactly when its conversation exists, is not deleted and belongs to the user, the header is present with a core of 1 to 255 characters, and every part is text; otherwise it gets the 404, 400, 422 or 400 of the first condition that fails, and no table changes |
| `SubmissionAdmission.OwnersOnly` | app/core/crud/base.py:73-79 | in every run, a request that was not turned down on arrival belongs to the owner of its conversation, is all text and has a valid header |
| `SubmissionAdmission.TurnsOfTheOwner` | app/schemas/responses.py:86-96 | every turn was opened by a request of the conversation's owner, and its stored input is the text parts of that request, in order, one to a line |
| `SubmissionAdmission.KeysAgreeExactly` | app/services/idempotency.py:57-77 | two admitted requests have the same key if and only if user, method and route agree and both raw headers are one trimmed, non-empty core between white space |
| `SubmissionAdmission.DeletedForGood` | app/services/crud/conversations.py:64-92 | once deleted, a conversation answers every new submission with 404, whatever happened in between |
| `SubmissionAdmission.DeleteMarks` | app/services/crud/conversations.py:72-92 | deleting marks this conversation and touches no other row |
| `SubmissionAdmission.DeletedExactly` | app/services/crud/conversations.py:72-92 | in every run a conversation is deleted if and only if some action deleted it |
| `SubmissionAdmission.CreatedForOwner` | app/services/crud/conversations.py:41-54 | in every run a conversation belongs to the user it was created for |
| `SubmissionKeys.GoesOnExactly` | app/services/idempotency.py:61-87 | a request whose first read is next goes on to reserve its key, for 24 hours, if and only if no valid reservation belongs to a request of the same user, method, route and header core; reservations of other cores do not stand in its way |
| `SubmissionKeys.HeldForADay` | app/services/idempotency.py:70-77 | every reservation expires exactly 24 hours after the first read of the request that made it |
| `SubmissionKeys.LookupDeletesExpired` | app/services/idempotency.py:63-66 | a first read deletes the row of its key exactly when that has expired |
| `SubmissionKeys.OtherRowsStay` | app/services/idempotency.py:125-142 | no step of a request touches the row of another key |
| `SubmissionSteps.RunSound` | app/api/v1/conversations.py:266-513 | the invariant over the key table, the conversation tables, the checkpoints and all requests holds in every reachable state |
| `SubmissionSteps.StepSound` | app/api/v1/conversations.py:266-513 | every action of any request, of the clock or of another endpoint keeps the invariant and takes nothing back |
| `SubmissionSteps.LookupStep` | app/services/idempotency.py:61-68 | the first read, with its deletion of an expired row, keeps the invariant whatever other requests are doing |
| `SubmissionSteps.InsertStep` | app/services/idempotency.py:70-82 | the insert, won or lost, keeps the invariant |
| `SubmissionSteps.RereadStep` | app/services/idempotency.py:81-86 | the read after a lost insert keeps the invariant, also when the row has gone meanwhile |
| `SubmissionSteps.OpenStep` | app/services/conversation_execution.py:161-203 | opening a turn from a possibly stale counter keeps the invariant |
| `SubmissionSteps.InvokeStep` | app/agent/travel.py:81-90 | starting the graph keeps the invariant and logs the model call with the checkpoint it saw |
| `SubmissionSteps.FinishStep` | app/agent/travel.py:105-108 | the graph's final write, made from messages held since it started, keeps the invariant: no other turn wrote in between |
| `SubmissionSteps.CloseStep` | app/services/conversation_execution.py:144-150 | completing a turn keeps the invariant |
| `SubmissionSteps.BreakStep` | app/services/conversation_execution.py:157-159 | failing a turn at any point keeps the invariant |
| `SubmissionSteps.SettleStep` | app/services/idempotency.py:89-123 | finalising a key, or finding its row gone, keeps the invariant |
| `SubmissionSteps.StopStep` | app/api/v1/conversations.py:310-319 | a request that stops for good at any point keeps the invariant |
| `SubmissionSteps.OwnAnswer` | app/services/conversation_execution.py:144-145 | the answer a stream reads back from the thread is the one its own graph wrote |
| `SubmissionSound.OtherRequestKept` | app/api/v1/conversations.py:266-513 | a request that does not move stays sound whatever a step of another request does |
| `SubmissionSound.CompletedKept` | app/services/conversation_execution.py:205-225 | a completed run with its stored text survives every later commit |
| `Threads.Gapless` | app/models/messages.py:33 | positions 1..latest of a sound conversation are taken and no others |
| `Threads.OnlyLastActive` | app/models/agent_runs.py:31-36 | only the newest turn of a conversation can be active |
| `Threads.OneActiveRun` | app/models/agent_runs.py:31-36 | two active runs of one conversation are the same run |
| `Threads.FitsExactly` | app/services/conversation_execution.py:173-200 | the unique indexes accept a turn exactly when its counter is current and no run is active |
| `Threads.OpenSound` | app/services/conversation_execution.py:161-203 | opening a turn keeps the tables, messages and checkpoints in step and touches one conversation only |
| `Threads.WriteSound` | app/agent/travel.py:59 | a checkpoint write by the running turn keeps the thread equal to what its turns added |
| `Threads.CloseSound` | app/services/conversation_execution.py:205-225 | completing the running turn gives a completed run with exactly that text and no active run |
| `Threads.FailSound` | app/services/conversation_execution.py:241-256 | failing the running turn leaves no active run and changes no other turn |
| `Threads.CreateSound` | app/services/crud/conversations.py:41-54 | a new conversation starts with no message, run or checkpoint content and changes no other |
| `Threads.DeleteSound` | app/services/crud/conversations.py:72-92 | hiding a conversation changes nothing a turn in progress relies on |
| `Transcript.Session.AddRun` | app/models/agent_runs.py:31-36 | a running run is added exactly when its id is new and the conversation has no active run |
| `Transcript.Session.AppendMessage` | app/services/conversation_execution.py:227-239 | a message is added exactly when its position is free, and the counter advances in memory and in the transaction |
| `Transcript.ConversationExecutionService.BeginTurn` | app/services/conversation_execution.py:161-203 | one commit opens run, user and assistant message and moves the counter by two, exactly when no unique index objects; otherwise 409 and untouched tables |
| `Transcript.ConversationExecutionService.CompleteTurn` | app/services/conversation_execution.py:205-225 | one commit stores the answer, completes the message and the run, and changes nothing else |
| `Transcript.ConversationExecutionService.MarkFailed` | app/services/conversation_execution.py:241-256 | whatever was pending is dropped; message and run become failed with the error's code, or `agent_execution_failed` |
| `Idempotency.IdempotencyService.Begin` | app/services/idempotency.py:57-68 | the first read deletes only an expired row of this key, and answers exactly for an unexpired one |
| `Idempotency.IdempotencyService.Reserve` | app/services/idempotency.py:70-87 | the insert succeeds exactly when the key is free and stores a processing record |
| `Idempotency.IdempotencyService.Complete` | app/services/idempotency.py:89-107 | the result is written exactly when the row still exists, with status, snapshot, conversation and run |
| `Idempotency.IdempotencyService.Fail` | app/services/idempotency.py:109-123 | the error is written exactly when the row still exists |
| `Idempotency.LookupSound` | app/services/idempotency.py:61-68 | deleting an expired row keeps every valid reservation stored |
| `Idempotency.ReserveSound` | app/models/operations.py:24-31 | inserting a free key keeps reservations of one key disjoint in time |
| `Idempotency.FinalSound` | app/services/idempotency.py:100-106 | writing a result once keeps row and history in step |
| `Idempotency.OneValidReservation` | app/models/operations.py:24-31 | two reservations of one key are never valid at the same time |
| `AuthGuarantees.LinearChain` | app/services/auth.py:255-276 | a session's tokens in issue order are each consumed and replaced by the next; the last is open; all expire exactly with the session; the session has no other token |
| `AuthGuarantees.EachTokenRefreshesOnce` | app/services/auth.py:209-235 | no refresh token succeeds twice in any run |
| `AuthGuarantees.ConsumedExactlyByRefresh` | app/services/auth.py:255-277 | in any run a token is consumed if and only if a refresh with it succeeded, so neither a rate limit nor any other refusal consumes one |
| `AuthGuarantees.OnlyRotationConsumes` | app/services/auth.py:237-262 | a refused refresh consumes and issues nothing, and a rate-limited one changes nothing at all |
| `AuthGuarantees.ReuseRevokes` | app/services/auth.py:224-236 | presenting a consumed token fails and revokes its session |
| `AuthGuarantees.LogoutRevokes` | app/services/auth.py:288-320 | a logout with any token of a session, consumed or not, leaves the session revoked once it commits, whatever happened since its reads; only if another logout denied the same access token in between is the whole commit refused |
| `AuthGuarantees.RevokedForGood` | app/services/auth.py:237-253 | once the commit that revokes a session has happened, by reuse, logout or the cap, the session stays revoked and none of its tokens ever refreshes again |
| `AuthGuarantees.BoundedLife` | app/core/security.py:58-79 | no access token of a session is accepted from the commit that revoked it plus `access_token_minutes` on; the recorded time is never later than that commit |
| `AuthGuarantees.RecordedBound` | app/services/auth.py:297-300 | a token accepted past the bound counted from the recorded `revoked_at` was issued after that time and before the commit; with both at one instant there is none |
| `AuthGuarantees.OutlivesExactly` | app/services/auth.py:289-300 | from every reachable state with a revoked session, some continuation accepts a given token of it `access_token_minutes` or more after the recorded `revoked_at` if and only if the token is neither denied nor expired and its whole-second issue time is later than the recorded one |
| `AuthGuarantees.RefreshOvertakesLogout` | app/services/auth.py:289-320 | the bound from the recorded time fails: from every reachable state in which a token could be refreshed a second later, a refresh that overtakes the commit of a logout gives a token accepted `access_token_minutes` after the recorded time |
| `AuthGuarantees.LoggedOutForGood` | app/services/auth.py:301-331 | an access token named in a logout is never accepted once that logout has been committed or refused, whatever happened between its reads and its commit |
| `AuthGuarantees.PlanStays` | app/services/auth.py:287-320 | nothing but its own commit changes what a login or logout has read |
| `AuthAccess.RefreshesExactly` | app/services/auth.py:206-277 | from every reachable state a refresh succeeds if and only if its token is stored and unconsumed, its session unrevoked and unexpired, the user enabled and the limiter silent; then it writes exactly the consumed token, its successor, the use of the session and one mint; a consumed token revokes its session, once; anything else changes nothing |
| `AuthAccess.RefreshedInTime` | app/services/auth.py:236-244 | in every run each successful refresh happened before its session expired |
| `AuthAccess.AcceptedExactly` | app/services/auth.py:322-331 | a bearer token is accepted if and only if the service minted it, the time lies in its whole span, it is not denied and its user is enabled |
| `AuthAccess.DisabledIsRefused` | app/services/auth.py:328-330 | once an account is disabled, no token of it is accepted in any continuation that does not enable it again |
| `AuthAccess.MintedForItsSession` | app/core/security.py:58-79 | in every run a minted token names the user of its session, carries the whole second of its issue, and expires `access_token_minutes` after that |
| `AuthAccess.LogsInExactly` | app/services/auth.py:167-204 | from every reachable state a login that is read and committed opens one session of `refresh_session_days`, one refresh token and one access token if and only if password and limiter let it pass and the account is enabled |
| `AuthAccess.SessionsFromLogins` | app/services/auth.py:341-351 | in every run each session was opened by a login of its user, enabled then, dates from the reads of that login, and expires `refresh_session_days` later |
| `AuthAccess.LogoutWritesExactly` | app/services/auth.py:279-320 | whatever happens between its reads and its commit, a logout revokes exactly the session it read as unrevoked, as of the read, and denies exactly the bearer token it read as valid, or changes nothing when that has been denied meanwhile |
| `AuthRuns.RunSound` | app/services/auth.py:206-357 | the invariant over families, revocations, plans and mints holds after any interleaving of logins and logouts (reads and commits), refreshes, account changes and waiting |
| `AuthRuns.RunGrows` | app/services/auth.py:206-357 | revocations, mints, the deny list and the log of refreshes only grow, and no refresh of a revoked session is ever logged |
| `AuthRuns.StepKeeps` | app/services/auth.py:206-357 | every step of every operation keeps the invariant |
| `AuthRuns.LogoutCommitKeeps` | app/services/auth.py:296-320 | the commit of a logout keeps the invariant however stale its reads are |
| `AuthRuns.LoginCommitKeeps` | app/services/auth.py:333-357 | the commit of a login keeps the invariant however stale its list of sessions is |
| `AuthRuns.RotatesTheLast` | app/services/auth.py:255-273 | an unconsumed token is the open end of its session's chain |
| `SessionCap.LoginKeepsCap` | app/services/auth.py:333-357 | a login that sees all unrevoked sessions leaves the new one and the newest min(n, max - 1) old ones, never more than the maximum, from any n, and no session of another user changes |
| `SessionCap.OverlappingLoginsOverrun` | app/services/auth.py:368-377 | from every reachable state, two logins of a user that both query before either commits leave the user above the cap if and only if at least max - 1 sessions were active |
| `SessionCap.CapOverRuns` | app/services/auth.py:333-339 | over every run in which each login of a user saw all sessions that are unrevoked at its commit, the user never has more than the maximum, whatever other users and operations do |
| `SessionCap.SerialisedLoginsKeepCap` | app/services/auth.py:333-357 | when nothing comes between the query and the commit of a login, the cap holds for every run |
| `SessionCap.CommitKeepsCap` | app/services/auth.py:335-345 | one commit of a login that saw all unrevoked sessions keeps the cap |
| `Auth.RevokeAllEffect` | app/services/auth.py:337-339 | the loop revokes exactly the listed sessions, with the reason `session_limit` |
| `Auth.AuthService.Refresh` | app/services/auth.py:206-277 | the branches in their order and the new tables of each; a new token if and only if the token is refreshable and the limiter silent, else 429 or 401 |
| `Auth.AuthService.ReadLogout` | app/services/auth.py:288-310 | the reads of a logout find the unrevoked session of the cookie and the timely, not yet denied bearer token, each independently of the other |
| `Auth.AuthService.FinishLogout` | app/services/auth.py:298-320 | the commit writes the planned revocation over the row as it is by then and denies the token, or changes nothing when the token has been denied meanwhile |
| `Auth.AuthService.CreateSessionTokens` | app/services/auth.py:333-357 | revokes the oldest excess sessions of a possibly stale list and opens one session with one token of the session's own expiry |
| `Auth.AuthService.CurrentUser` | app/services/auth.py:322-331 | answers the user if and only if the token's span contains the time, it is not denied and its user is enabled; else 401 |
| `Agent.BuildHistory` | app/agent/travel.py:84-90 | the loop builds the system prompt followed by the messages in order with their roles |
| `Agent.StreamAnswer` | app/agent/travel.py:91-108 | tokens are the non-empty chunk texts in order; the answer is their concatenation or the fallback; a model failure keeps the tokens and gives no answer |
| `Agent.InvokeAnswer` | app/agent/travel.py:100-108 | without streaming the answer is the response text or the fallback, never empty |
| `Agent.AnswerOfDeltas` | app/agent/travel.py:93-104 | the answer is the fallback exactly when no non-empty delta was emitted, and is never empty |
| `Agent.ChunkText` | app/agent/travel.py:69-78 | a plain chunk is passed on as it is; a chunk of blocks gives the texts of exactly its text blocks, in order, one to a line, without the white space around the whole |
| `Agent.PlainStreamIsVerbatim` | app/agent/travel.py:94-99 | the deltas of plain chunks spell the chunks letter by letter, white space included |
| `TurnStream.Stream` | app/services/conversation_execution.py:109-159 | one status event, one token event for each non-empty string delta, then a final event with the stored answer, or the failure with the reply stored failed |
| `TurnStream.KeptBecomeEvents` | app/services/conversation_execution.py:134-143 | whatever updates the graph emits, there is one token event for each update whose delta is a non-empty string, in order, and for no other |
| `TurnStream.KeptIsExact` | app/services/conversation_execution.py:134-143 | what the service keeps is all non-empty string deltas of token updates, in their order, and nothing else |
| `TurnStream.AgentTokensSurvive` | app/agent/travel.py:94-98 | no token the agent writes is filtered out or reordered |
| `ResponseStream.StreamEvents` | app/api/v1/conversations.py:310-469 | the handler's loop with its counter produces exactly the specified trace of events and key finalisations, and breaks it off at the finalisation when the row of the key is gone |
| `ResponseStream.SendOpening` | app/api/v1/conversations.py:320-356 | four opening events with consecutive numbers |
| `ResponseStream.SendClosing` | app/api/v1/conversations.py:366-410 | the key is completed before the four closing events, which are numbered consecutively |
| `ResponseStream.SendFailure` | app/api/v1/conversations.py:411-469 | the key is failed before the failed event, sent only after an opening, and the error event |
| `ResponseStream.StreamOfExecution` | app/api/v1/conversations.py:310-469 | for every opening and every graph run, whatever its updates, the events are numbered 0, 1, 2, ... and spell the grammar; the deltas are those the service keeps; the key is finalised exactly once, before the first closing event; success and failure end as specified and agree with what is stored |
| `ResponseStream.LostRowBreaksOff` | app/api/v1/conversations.py:366-420 | when the row of the key is gone by the end of an opened turn, the client has seen the numbered opening and exactly the kept deltas, and no closing event; when the turn never opened it sees nothing |
| `ResponseStream.TextAgrees` | app/api/v1/conversations.py:357-410 | for every list of model chunks the client's deltas concatenate to the text of the done event, the finished part, the item, the response, the snapshot and the stored message, or all of these are the fallback; on failure the deltas up to it were sent and nothing is stored |
| `ResponseStream.PrefixesAreLegal` | app/api/v1/conversations.py:310-469 | a client that stops reading has seen a legal, gaplessly numbered beginning |
| `ResponseStream.FinalCloses` | app/api/v1/conversations.py:366-410 | a final event closes a legal body into a legal finished stream that says the answer four times |
| `ResponseStream.FailureCloses` | app/api/v1/conversations.py:411-469 | a failure after the opening adds a failed event without text and one last error event, whose code is that of the error the key stores |
| `ResponseStream.NeverOpened` | app/api/v1/conversations.py:434-440 | a failure before the opening gives the single error event numbered 0 |
| `ResponseStream.TokensStayInBody` | app/api/v1/conversations.py:357-365 | any number of token events keeps the stream in its body with exactly these deltas |
| `StreamContents.ClientReadsTheProtocol` | app/api/v1/conversations.py:310-469 | for every graph run the smoke client reads the documented names in the documented order, with one delta event for each kept delta, and every event it reads carries the ids and statuses of this turn |
| `StreamContents.EveryEventCarries` | app/api/v1/conversations.py:119-154 | whatever the graph emits, every event and the stored snapshot carry run, conversation, reply and status of this turn, and a failed response an incomplete item without text |
| `EndToEnd.StreamedAnswerIsStored` | app/api/v1/conversations.py:366-410 | from every reachable state, a model run that completes ends with the one text its client sees in all closing events stored in the transcript, and the snapshot it sends is, in run, conversation and text, the one kept for replays; only with an expired reservation whose row is gone does the stream break off after the deltas, with the answer stored in the transcript all the same |
| `EndToEnd.StreamedFailureIsStored` | app/api/v1/conversations.py:411-469 | a model run that fails leaves the run failed and the conversation free, and the code of the error event its stream ends with is the code kept for replays; with the row gone the stream breaks off after the deltas |
| `EventStream.StreamRequest` | scripts/admin_conversation_smoke.py:87-105 | the line loop computes the decoding of the byte stream, with its two errors |
| `EventStream.RoundTrip` | app/api/v1/conversations.py:80-85 | decoding printed events returns the original pairs if and only if every type is trimmed and has no line feed, for any number of events |
| `EventStream.DecodePrinted` | scripts/admin_conversation_smoke.py:87-105 | whatever the types without line feed, printed events decode to themselves with trimmed types |
| `EventStream.ClientSeesTheStream` | app/api/v1/conversations.py:80-85 | the client reads exactly the types and payloads the endpoint sent, in order |
| `EventStream.TypesAreClean` | app/api/v1/conversations.py:83-85 | every event type the endpoint sends is trimmed and has no line feed |
| `EventStream.NamesHaveNoLineFeed` | scripts/admin_conversation_smoke.py:89-105 | no decoded type contains a line feed, whatever was sent |
| `EventStream.RawLine` | scripts/admin_conversation_smoke.py:89-90 | a text up to its first line feed is the first line and the rest gives the other lines |
| `EventStream.BlockDecodes` | scripts/admin_conversation_smoke.py:89-105 | whatever the lines, a block up to its blank line gives one event, named by its last event line or `message`, with its data lines, one to a line, as payload; no data gives nothing, and a payload that is no JSON or no object ends the reading with its error |
| `EventStream.UnfinishedIsDropped` | scripts/admin_conversation_smoke.py:87-105 | lines after the last blank one give nothing |
| `RateLimit.InMemoryRateLimiter.Check` | app/core/rate_limit.py:29-37 | the dictionary after a check, and the 429 |
| `RateLimit.ValkeyRateLimiter.Check` | app/core/rate_limit.py:49-55 | the counters after a check, and the 429 |
| `RateLimit.LimitersAgree` | app/core/rate_limit.py:49-55 | both limiters accept exactly the same checks, for every timed sequence of keys, limits and windows |
| `RateLimit.SlidingBound` | app/core/rate_limit.py:29-37 | with a fixed limit and window at most 2 * limit - 1 checks of a key pass in any half-open interval of one window length |
| `RateLimit.SlidingBoundAttained` | app/core/rate_limit.py:29-37 | that bound is attained for every limit and window |
| `RateLimit.LostExpiry` | app/core/rate_limit.py:51-53 | when a process is lost between increment and expiry, of all later checks of the key exactly the first limit - 1 pass, at whatever times they come |
| `RateLimit.LostForGoodExactly` | app/core/rate_limit.py:51-53 | lost between increment and expiry, a counter never expires if and only if the key had no live counter before |
| `RateLimit.FixedWindowExact` | app/core/rate_limit.py:29-37 | of the checks in the window that a check opens, exactly the first `limit` pass |
| `RateLimit.PassingBounded` | app/core/rate_limit.py:29-37 | from any state of the dictionary: how many checks can pass in an interval, by where the current window ends |
| `RateLimit.RestOfWindow` | app/core/rate_limit.py:29-37 | inside a window the checks pass until its allowance is used up |
| `Text.StripIsCore` | app/services/idempotency.py:57-59 | a header is its trimmed core between white space, and there is only one such core |
| `Failover.Stream` | app/services/llm.py:53-75 | the consumer receives the whole run of one model: the first that is not silent, else the last; an unusable configuration gives 503 and starts no model; the final assertion is unreachable |
| `Failover.SucceedsExactlyWhen` | app/services/llm.py:66-73 | the call succeeds if and only if some model completes and every earlier one failed before its first chunk |
| `Failover.NeverMixed` | app/services/llm.py:66-73 | everything the started models produced is the stream of the deciding one: nothing mixed, nothing dropped |
| `Failover.OneDecides` | app/services/llm.py:57-73 | exactly one model decides, for every failure pattern |
| `Failover.AgentAnswersFromOneModel` | app/agent/travel.py:91-104 | the agent's tokens and answer are those of one model |
| `Failover.Invoke` | app/services/llm.py:32-51 | the answer of the first model that gives one, or the last model's error when none does |
| `Failover.RegisteredInOrder` | app/services/llm.py:20-30 | distinct usable names, primary first; none without a usable primary, and a fallback never takes its place |
| `Failover.UsableNames` | app/services/llm.py:94-103 | a name counts when something other than the placeholder remains after stripping, and a counted name is a fixed point |
| `Failover.ModelsTried` | app/services/llm.py:76-103 | the models tried are the primary one and then a different usable fallback, each a core between white space other than the placeholder; without a key or a primary model the configuration is refused with 503 |
| `Pagination.GetPage` | app/core/crud/base.py:101-115 | one query with a sentinel row gives the page by counting, and the two range errors |
| `Pagination.WalkShowsListing` | app/core/crud/base.py:92-115 | following `next_offset` from 0 terminates and shows exactly the ordered active rows of the scope, each once, in full pages and a last non-empty one, whatever order each query scans the table in |
| `Pagination.HistoryWalk` | app/services/crud/conversations.py:56-62 | walking a user's history shows exactly that user's conversations that are not deleted, each once, the latest message first, those without messages last, and then by descending id |
| `Pagination.TranscriptWalk` | app/services/crud/messages.py:33-36 | walking a transcript shows exactly the conversation's messages that are not deleted, by ascending sequence |
| `Pagination.ListingIsFixed` | app/services/crud/conversations.py:56-62 | the order in which a query meets the rows does not change its result, because the order separates any two of them |
| `Pagination.ListingLists` | app/services/crud/messages.py:33-36 | the listing is ordered and holds a row exactly when it is active in the scope, each once |
| `Pagination.OneOrder` | app/services/crud/conversations.py:56-62 | an order that separates the rows admits one listing only |
| `Pagination.HistoryOrderSeparates` | app/services/crud/conversations.py:56-62 | last message first, missing ones last, then id: a total order because ids are unique |
| `Pagination.TranscriptOrderSeparates` | app/services/crud/messages.py:33-36 | sequence is a total order because of the unique index |
| `Pagination.PagedTranscript` | app/services/crud/messages.py:33-36 | paging a gapless transcript shows the message with sequence k + 1 at place k |

## Left out

- SubmissionGuarantees.AtMostOnce: the promise without its condition is false once a request outlives the 24-hour retention; the exact condition is stated instead, with a run that shows the failure.
- SubmissionGuarantees.SettleStoresTheOutcome: a stored error keeps status and code, not message text and details.
- SubmissionGuarantees.FailedTurnFreesConversation: a database error inside the failing write itself is not modelled.
- AuthGuarantees.BoundedLife: the bound counts from the commit of the revocation; from the recorded time it is false, and `OutlivesExactly` says for which tokens.
- SessionCap.CapOverRuns: the cap without its condition is false for overlapping logins, which `OverlappingLoginsOverrun` characterises.
- Transcript.Session.AddRun: start and completion times, model aliases and token counts are not modelled.
- Transcript.Session.AppendMessage: the times a message leaves on its conversation are not modelled.
- Idempotency.IdempotencyService.Complete: the completion time is not modelled.
- Idempotency.IdempotencyService.Fail: the stored error keeps status and code, not message text and details.
- Idempotency.IdempotencyService.Begin: the method is taken as already upper-case, as the framework delivers it; the wait for a row lock is not a step of its own.
- Auth.AuthService.Refresh: the audit rows written on each branch are not modelled, nor are the rate limiter's own buckets, whose answer is a parameter.
- Auth.AuthService.FinishLogout: expiry, owner and reason of the denied token's row and the audit row are not modelled.
- Auth.AuthService.CurrentUser: issuer, audience and signature checks are part of the assumption that only the service signs tokens.
- ResponseStream.StreamEvents: creation times and model aliases in envelopes are left out, and so are an error raised while the failed response is being built and a finalisation that raises for another reason than its missing row; a replayed stream, which sends the stored response as one completed event numbered 0, has nothing to prove.
- Failover.Stream: retries, timeouts and construction of the provider client are inside the run of a model.
- RateLimit.ValkeyRateLimiter.Check: increment and expiry are one step; what a process lost between the two leaves behind is stated by `LostExpiry`.
- Pagination.WalkShowsListing: rows do not change during the walk; create, update and delete of the generic helper are not modelled.
- Registration, password hashing, e-mail normalisation, settings validation and account bootstrap: no property that spans operations.
- Routing, middleware, cookies, logging, health probes and migrations: plumbing.
- Attachments, preferences, tool calls, citations and one-time tokens: tables without behaviour in code yet.
- The purge of deleted conversations and of expired rows: not part of the repository's code.
