/**
  Idempotency records: reserve a key once, replay its terminal result, and the
  history of every reservation ever committed.

  The table is keyed by its unique index (user, method, route, key). Record ids
  come from a counter, which stands for the freshness of generated UUIDs.
 */
module Idempotency {
  import opened Text
  import opened Wrappers
  import opened Transcript

  type Time = int
  type RecId = nat

  /** 24 hours, in microseconds. */
  const RETENTION: Time := 24 * 3600 * 1_000_000

  /** A message route names one conversation, possibly in several spellings. */
  datatype Route = Route(conversation: ConvId, spelling: string)

  datatype Key = Key(user: UserId, httpMethod: string, route: Route, text: string)

  datatype Part = InputText(text: string) | InputMedia(reference: string)

  /** The validated request body; the stored fingerprint is an injective digest of it. */
  datatype Payload = Payload(parts: seq<Part>, stream: bool, metadata: map<string, string>)

  datatype KeyStatus = Processing | KeyCompleted | KeyFailed

  datatype Snapshot =
    | ResponseSnapshot(conversation: ConvId, run: RunId, text: string)
    | ErrorSnapshot(code: string)

  datatype Record = Record(
    id: RecId,
    fingerprint: Payload,
    status: KeyStatus,
    responseStatus: Option<int>,
    snapshot: Option<Snapshot>,
    conversation: Option<ConvId>,
    run: Option<RunId>,
    expiresAt: Time)

  const INVALID_KEY := ApiError(400, "invalid_idempotency_key")
  const KEY_REUSED := ApiError(409, "idempotency_key_reused")
  const IN_PROGRESS := ApiError(409, "idempotency_in_progress")
  const UNAVAILABLE := ApiError(409, "idempotency_unavailable")

  // ---------------------------------------------------------------- specification

  function NormalizeKey(raw: string): Option<string> {
    var text := Strip(raw);
    if 1 <= |text| <= 255 then Some(text) else None
  }

  /** A replay, or the 409 that tells the caller why there is none. */
  function ReservationForExisting(record: Record, fingerprint: Payload): Result<Record, ApiError> {
    if record.fingerprint != fingerprint then Err(KEY_REUSED)
    else if record.status.Processing? then Err(IN_PROGRESS)
    else if record.responseStatus.None? || record.snapshot.None? then Err(UNAVAILABLE)
    else Ok(record)
  }

  predicate Expired(keys: map<Key, Record>, key: Key, now: Time) {
    key in keys && keys[key].expiresAt <= now
  }

  /** What the first lookup leaves: only an expired row of this very key may go. */
  function AfterLookup(keys: map<Key, Record>, key: Key, now: Time): map<Key, Record> {
    if Expired(keys, key, now) then keys - {key} else keys
  }

  /** The answer of a lookup; None means that the caller goes on to insert. */
  function LookupAnswer(keys: map<Key, Record>, key: Key, fingerprint: Payload,
                        now: Time): Option<Result<Record, ApiError>> {
    if key in keys && !Expired(keys, key, now) then Some(ReservationForExisting(keys[key], fingerprint)) else None
  }

  /** The answer of the second read, after a lost insert; None means that the row has gone meanwhile. */
  function RereadAnswer(keys: map<Key, Record>, key: Key, fingerprint: Payload): Option<Result<Record, ApiError>> {
    if key in keys then Some(ReservationForExisting(keys[key], fingerprint)) else None
  }

  function NewRecord(id: RecId, fingerprint: Payload, expiresAt: Time): Record {
    Record(id, fingerprint, Processing, None, None, None, None, expiresAt)
  }

  /** A finalising write addresses the row by id; a row that is gone is not written. */
  predicate Owns(keys: map<Key, Record>, key: Key, id: RecId) {
    key in keys && keys[key].id == id
  }

  function Completed(record: Record, status: int, c: ConvId, r: RunId, text: string): Record {
    record.(status := KeyCompleted, responseStatus := Some(status),
            snapshot := Some(ResponseSnapshot(c, r, text)), conversation := Some(c), run := Some(r))
  }

  function Failed(record: Record, error: ApiError): Record {
    record.(status := KeyFailed, responseStatus := Some(error.status), snapshot := Some(ErrorSnapshot(error.code)))
  }

  // ---------------------------------------------------------------- the service

  /** Each method is one database transaction of the service; other requests run between them. */
  class IdempotencyService {
    var keys: map<Key, Record>

    constructor ()
      ensures keys == map[]
    {
      keys := map[];
    }

    /** `begin` up to the insert: the row is read under a lock, so an expired one is deleted atomically. */
    method Begin(key: Key, fingerprint: Payload, now: Time) returns (answer: Option<Result<Record, ApiError>>)
      modifies this
      ensures keys == AfterLookup(old(keys), key, now)
      ensures answer == LookupAnswer(old(keys), key, fingerprint, now)
    {
      answer := None;
      if key in keys {
        var existing := keys[key];
        if existing.expiresAt <= now {
          keys := keys - {key};
        } else {
          var replay := Existing(existing, fingerprint);
          answer := Some(replay);
        }
      }
    }

    /** The insert of `begin`; false is the IntegrityError of the unique index. */
    method Reserve(key: Key, id: RecId, fingerprint: Payload, expiresAt: Time) returns (ok: bool)
      modifies this
      ensures ok <==> key !in old(keys)
      ensures keys == if ok then old(keys)[key := NewRecord(id, fingerprint, expiresAt)] else old(keys)
    {
      ok := key !in keys;
      if ok {
        keys := keys[key := Record(id, fingerprint, Processing, None, None, None, None, expiresAt)];
      }
    }

    /** The branch of `begin` for a lost insert race; None re-raises the IntegrityError. */
    method Concurrent(key: Key, fingerprint: Payload) returns (answer: Option<Result<Record, ApiError>>)
      ensures answer == RereadAnswer(keys, key, fingerprint)
    {
      answer := None;
      if key in keys {
        var replay := Existing(keys[key], fingerprint);
        answer := Some(replay);
      }
    }

    method Existing(record: Record, fingerprint: Payload) returns (r: Result<Record, ApiError>)
      ensures r == ReservationForExisting(record, fingerprint)
    {
      if record.fingerprint != fingerprint {
        return Err(KEY_REUSED);
      }
      if record.status.Processing? {
        return Err(IN_PROGRESS);
      }
      if record.responseStatus.None? || record.snapshot.None? {
        return Err(UNAVAILABLE);
      }
      return Ok(record);
    }

    /** `complete`; false when the row no longer exists. */
    method Complete(key: Key, id: RecId, status: int, c: ConvId, r: RunId, text: string) returns (ok: bool)
      modifies this
      ensures ok == Owns(old(keys), key, id)
      ensures keys == if ok then old(keys)[key := Completed(old(keys)[key], status, c, r, text)] else old(keys)
    {
      ok := key in keys && keys[key].id == id;
      if ok {
        var record := keys[key].(status := KeyCompleted);
        record := record.(responseStatus := Some(status));
        record := record.(snapshot := Some(ResponseSnapshot(c, r, text)));
        record := record.(conversation := Some(c), run := Some(r));
        keys := keys[key := record];
      }
    }

    /** `fail`; false when the row no longer exists. */
    method Fail(key: Key, id: RecId, error: ApiError) returns (ok: bool)
      modifies this
      ensures ok == Owns(old(keys), key, id)
      ensures keys == if ok then old(keys)[key := Failed(old(keys)[key], error)] else old(keys)
    {
      ok := key in keys && keys[key].id == id;
      if ok {
        var record := keys[key].(status := KeyFailed);
        record := record.(responseStatus := Some(error.status));
        keys := keys[key := record.(snapshot := Some(ErrorSnapshot(error.code)))];
      }
    }
  }

  // ---------------------------------------------------------------- history

  /** History: a committed reservation. */
  datatype Reservation = Reservation(key: Key, fingerprint: Payload, owner: ReqId, committedAt: Time, expiresAt: Time)

  /** History: the terminal result written for a reservation. */
  datatype Final = Final(status: int, snapshot: Snapshot)

  datatype Registry = Registry(
    keys: map<Key, Record>,
    reservations: map<RecId, Reservation>,
    finals: map<RecId, Final>,
    nextRecord: RecId)

  function LookupCommit(g: Registry, key: Key, now: Time): Registry {
    g.(keys := AfterLookup(g.keys, key, now))
  }

  function ReserveCommit(g: Registry, key: Key, fingerprint: Payload, owner: ReqId, now: Time,
                         expiresAt: Time): Registry
  {
    g.(keys := g.keys[key := NewRecord(g.nextRecord, fingerprint, expiresAt)],
       reservations := g.reservations[g.nextRecord := Reservation(key, fingerprint, owner, now, expiresAt)],
       nextRecord := g.nextRecord + 1)
  }

  function CompleteCommit(g: Registry, key: Key, id: RecId, c: ConvId, r: RunId, text: string): Registry
    requires key in g.keys
  {
    g.(keys := g.keys[key := Completed(g.keys[key], 200, c, r, text)],
       finals := g.finals[id := Final(200, ResponseSnapshot(c, r, text))])
  }

  function FailCommit(g: Registry, key: Key, id: RecId, error: ApiError): Registry
    requires key in g.keys
  {
    g.(keys := g.keys[key := Failed(g.keys[key], error)],
       finals := g.finals[id := Final(error.status, ErrorSnapshot(error.code))])
  }

  /** The stored row of a key says what the history says about its reservation. */
  predicate RowSound(g: Registry, key: Key)
    requires key in g.keys
  {
    var row := g.keys[key];
    && row.id in g.reservations
    && g.reservations[row.id].key == key
    && g.reservations[row.id].fingerprint == row.fingerprint
    && g.reservations[row.id].expiresAt == row.expiresAt
    && (row.status.Processing? <==> row.id !in g.finals)
    && (row.id in g.finals ==>
          && row.responseStatus == Some(g.finals[row.id].status)
          && row.snapshot == Some(g.finals[row.id].snapshot)
          && (row.status.KeyCompleted? <==> g.finals[row.id].snapshot.ResponseSnapshot?)
          && (row.status.KeyCompleted? ==>
                && row.conversation == Some(g.finals[row.id].snapshot.conversation)
                && row.run == Some(g.finals[row.id].snapshot.run)))
  }

  /** A reservation is stored until it is deleted, and that happens only once it has expired. */
  predicate ReservationSound(g: Registry, now: Time, id: RecId)
    requires id in g.reservations
  {
    && id < g.nextRecord
    && g.reservations[id].committedAt <= now
    && (Owns(g.keys, g.reservations[id].key, id) || g.reservations[id].expiresAt <= now)
  }

  /** Of two reservations of one key, the older had expired when the newer was committed. */
  predicate Successive(g: Registry, i: RecId, j: RecId)
    requires i in g.reservations && j in g.reservations
  {
    i < j && g.reservations[i].key == g.reservations[j].key ==>
      g.reservations[i].expiresAt <= g.reservations[j].committedAt
  }

  ghost predicate Disjoint(g: Registry) {
    forall i, j {:trigger Successive(g, i, j)} | i in g.reservations && j in g.reservations :: Successive(g, i, j)
  }

  ghost predicate RegistrySound(g: Registry, now: Time) {
    && (forall key {:trigger RowSound(g, key)} | key in g.keys :: RowSound(g, key))
    && (forall id {:trigger ReservationSound(g, now, id)} | id in g.reservations :: ReservationSound(g, now, id))
    && Disjoint(g)
    && g.finals.Keys <= g.reservations.Keys
  }

  /** What the history never takes back. */
  ghost predicate RegistryExtends(g: Registry, g': Registry) {
    && g.nextRecord <= g'.nextRecord
    && (forall id | id in g.reservations :: id in g'.reservations && g'.reservations[id] == g.reservations[id])
    && (forall id | id in g.finals :: id in g'.finals && g'.finals[id] == g.finals[id])
  }

  // ---------------------------------------------------------------- every commit keeps the registry sound

  lemma TickRegistry(g: Registry, now: Time, now': Time)
    requires RegistrySound(g, now) && now <= now'
    ensures RegistrySound(g, now')
  {
    forall id | id in g.reservations
      ensures ReservationSound(g, now', id)
    {
      assert ReservationSound(g, now, id);
    }
  }

  lemma SameReservations(g: Registry, g': Registry)
    requires Disjoint(g) && g'.reservations == g.reservations
    ensures Disjoint(g')
  {
    forall i, j | i in g'.reservations && j in g'.reservations
      ensures Successive(g', i, j)
    {
      assert Successive(g, i, j);
    }
  }

  lemma LookupSound(g: Registry, key: Key, now: Time)
    requires RegistrySound(g, now)
    ensures var g' := LookupCommit(g, key, now);
            RegistrySound(g', now) && RegistryExtends(g, g')
  {
    var g' := LookupCommit(g, key, now);
    forall k | k in g'.keys
      ensures RowSound(g', k)
    {
      assert RowSound(g, k);
    }
    SameReservations(g, g');
    forall id | id in g'.reservations
      ensures ReservationSound(g', now, id)
    {
      assert ReservationSound(g, now, id);
      if Expired(g.keys, key, now) && g.reservations[id].key == key {
        assert RowSound(g, key);
      }
    }
  }

  lemma ReserveSound(g: Registry, key: Key, fingerprint: Payload, owner: ReqId, now: Time, expiresAt: Time)
    requires RegistrySound(g, now) && key !in g.keys
    ensures var g' := ReserveCommit(g, key, fingerprint, owner, now, expiresAt);
            RegistrySound(g', now) && RegistryExtends(g, g')
  {
    var g' := ReserveCommit(g, key, fingerprint, owner, now, expiresAt);
    assert g.nextRecord !in g.reservations by {
      assert g.nextRecord in g.reservations ==> ReservationSound(g, now, g.nextRecord);
    }
    forall k | k in g'.keys
      ensures RowSound(g', k)
    {
      if k != key {
        assert RowSound(g, k);
      }
    }
    forall id | id in g'.reservations
      ensures ReservationSound(g', now, id)
    {
      if id != g.nextRecord {
        assert ReservationSound(g, now, id);
      }
    }
    forall i, j | i in g'.reservations && j in g'.reservations
      ensures Successive(g', i, j)
    {
      if i != g.nextRecord && j != g.nextRecord {
        assert Successive(g, i, j);
      } else if i != g.nextRecord {
        assert ReservationSound(g, now, i);
      } else if j != g.nextRecord {
        assert ReservationSound(g, now, j);
      }
    }
  }

  lemma FinalSound(g: Registry, key: Key, id: RecId, row: Record, final: Final, now: Time)
    requires RegistrySound(g, now) && Owns(g.keys, key, id) && id !in g.finals
    requires row.id == id && row.fingerprint == g.keys[key].fingerprint && row.expiresAt == g.keys[key].expiresAt
    requires !row.status.Processing? && row.responseStatus == Some(final.status) && row.snapshot == Some(final.snapshot)
    requires row.status.KeyCompleted? <==> final.snapshot.ResponseSnapshot?
    requires row.status.KeyCompleted? ==>
      row.conversation == Some(final.snapshot.conversation) && row.run == Some(final.snapshot.run)
    ensures var g' := g.(keys := g.keys[key := row], finals := g.finals[id := final]);
            RegistrySound(g', now) && RegistryExtends(g, g')
  {
    var g' := g.(keys := g.keys[key := row], finals := g.finals[id := final]);
    assert RowSound(g, key);
    forall k | k in g'.keys
      ensures RowSound(g', k)
    {
      assert RowSound(g, k);
    }
    SameReservations(g, g');
    forall i | i in g'.reservations
      ensures ReservationSound(g', now, i)
    {
      assert ReservationSound(g, now, i);
    }
  }

  /** Two reservations of one key are never valid at the same time. */
  lemma OneValidReservation(g: Registry, now: Time, i: RecId, j: RecId, at: Time)
    requires RegistrySound(g, now) && i in g.reservations && j in g.reservations
    requires g.reservations[i].key == g.reservations[j].key
    requires g.reservations[i].committedAt <= at < g.reservations[i].expiresAt
    requires g.reservations[j].committedAt <= at < g.reservations[j].expiresAt
    ensures i == j
  {
    assert Successive(g, i, j) && Successive(g, j, i);
  }
}
