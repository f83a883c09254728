/**
  Login, refresh, logout and bearer verification. Row locks make each refresh one
  atomic step; a login and a logout read first, which leaves a plan, and commit later.

  A refresh token is identified with its stored hash, and an access token with its
  claims: hashing and signing are injective, and only the service can sign.
 */
module Auth {
  import opened Wrappers
  import RateLimit

  type Time = int
  type UserId = nat
  type SessId = nat
  type RawToken = nat
  type Jti = nat

  const SECOND: Time := 1_000_000
  const MINUTE: Time := 60 * SECOND
  const DAY: Time := 24 * 60 * MINUTE

  /** The validated settings the service reads. */
  datatype Settings = Settings(accessMinutes: nat, refreshDays: nat, maxSessions: nat)

  predicate ValidSettings(cfg: Settings) {
    1 <= cfg.accessMinutes <= 60 && 1 <= cfg.refreshDays <= 90 && 1 <= cfg.maxSessions <= 20
  }

  datatype Session = Session(
    user: UserId, createdAt: Time, lastUsedAt: Option<Time>, expiresAt: Time,
    revokedAt: Option<Time>, revokedReason: Option<string>)

  datatype RefreshToken = RefreshToken(
    session: SessId, expiresAt: Time, consumedAt: Option<Time>, revokedAt: Option<Time>, replacedBy: Option<RawToken>)

  datatype AccessToken = AccessToken(sub: UserId, jti: Jti, iat: Time, exp: Time)

  datatype Tables = Tables(sessions: map<SessId, Session>, tokens: map<RawToken, RefreshToken>, revoked: set<Jti>)

  const INVALID_REFRESH := ApiError(401, "invalid_refresh_token")
  const INVALID_ACCESS := ApiError(401, "invalid_access_token")

  // ---------------------------------------------------------------- access tokens

  /** NumericDate claims have whole seconds; the expiry counts from the truncated instant. */
  function IssueAccess(user: UserId, jti: Jti, at: Time, cfg: Settings): AccessToken {
    var iat := at - at % SECOND;
    AccessToken(user, jti, iat, iat + cfg.accessMinutes * MINUTE)
  }

  /** Section 4.1.4 of RFC 7519: not accepted on or after `exp`; a future `iat` is refused as well. */
  predicate Timely(token: AccessToken, now: Time) {
    token.iat <= now < token.exp
  }

  /** A genuine token is admitted: timely, not denied, and of an active user. */
  predicate Admits(t: Tables, active: set<UserId>, token: AccessToken, now: Time) {
    Timely(token, now) && token.jti !in t.revoked && token.sub in active
  }

  // ---------------------------------------------------------------- refresh

  datatype Verdict = Unknown | Reuse | Invalid | Limited | Rotate

  /** The branch a refresh takes. */
  function RefreshVerdict(t: Tables, active: set<UserId>, raw: RawToken, now: Time, limited: bool): Verdict {
    if raw !in t.tokens then Unknown
    else
      var stored := t.tokens[raw];
      if stored.consumedAt.Some? || stored.revokedAt.Some? then Reuse
      else if stored.session !in t.sessions then Invalid
      else
        var session := t.sessions[stored.session];
        if session.user !in active || session.revokedAt.Some?
           || stored.expiresAt <= now || session.expiresAt <= now then Invalid
        else if limited then Limited
        else Rotate
  }

  /**
    What a refresh asks of the tables: the token is stored and neither consumed nor revoked nor expired, its session
    neither revoked nor expired, and its user enabled.
   */
  predicate Refreshable(t: Tables, active: set<UserId>, raw: RawToken, now: Time) {
    && raw in t.tokens
    && t.tokens[raw].consumedAt == None && t.tokens[raw].revokedAt == None && now < t.tokens[raw].expiresAt
    && t.tokens[raw].session in t.sessions
    && t.sessions[t.tokens[raw].session].revokedAt == None && now < t.sessions[t.tokens[raw].session].expiresAt
    && t.sessions[t.tokens[raw].session].user in active
  }

  function Revoke(t: Tables, id: SessId, now: Time, reason: string): Tables {
    if id in t.sessions && t.sessions[id].revokedAt.None? then
      t.(sessions := t.sessions[id := t.sessions[id].(revokedAt := Some(now), revokedReason := Some(reason))])
    else t
  }

  /** Consume the presented token and issue its successor with the session's own expiry. */
  function Rotated(t: Tables, raw: RawToken, now: Time, issued: RawToken): Tables
    requires raw in t.tokens && t.tokens[raw].session in t.sessions
  {
    var id := t.tokens[raw].session;
    var session := t.sessions[id];
    t.(sessions := t.sessions[id := session.(lastUsedAt := Some(now))],
       tokens := t.tokens[issued := RefreshToken(id, session.expiresAt, None, None, None)]
                         [raw := t.tokens[raw].(consumedAt := Some(now), replacedBy := Some(issued))])
  }

  function AfterRefresh(t: Tables, verdict: Verdict, raw: RawToken, now: Time, issued: RawToken): Tables
    requires verdict.Reuse? || verdict.Rotate? ==> raw in t.tokens
    requires verdict.Rotate? ==> t.tokens[raw].session in t.sessions
  {
    match verdict
    case Reuse => Revoke(t, t.tokens[raw].session, now, "refresh_token_reuse")
    case Rotate => Rotated(t, raw, now, issued)
    case _ => t
  }

  // ---------------------------------------------------------------- logout

  /** Writes the two columns of a revocation over whatever they hold. */
  function Overwritten(t: Tables, id: SessId, at: Time, reason: string): Tables {
    if id in t.sessions then
      t.(sessions := t.sessions[id := t.sessions[id].(revokedAt := Some(at), revokedReason := Some(reason))])
    else t
  }

  /**
    What a logout or a login has read and decided but not yet committed. Neither locks the session rows it read,
    so other operations may commit in between.
   */
  datatype Plan =
    | LogoutPlan(at: Time, session: Option<SessId>, denies: Option<Jti>)
    | LoginPlan(at: Time, user: UserId, order: seq<SessId>)

  function PlanLogout(t: Tables, raw: Option<RawToken>, access: Option<AccessToken>, now: Time): (plan: Plan)
    ensures plan.LogoutPlan?
  {
    LogoutPlan(
      now,
      if raw.Some? && raw.value in t.tokens && !IsRevoked(t, t.tokens[raw.value].session)
      then Some(t.tokens[raw.value].session) else None,
      if access.Some? && Timely(access.value, now) && access.value.jti !in t.revoked
      then Some(access.value.jti) else None)
  }

  /** Unknown sessions count as revoked: there is nothing to write. */
  predicate IsRevoked(t: Tables, id: SessId) {
    id !in t.sessions || t.sessions[id].revokedAt.Some?
  }

  /** Another logout has denied the same access token meanwhile, and the unique index refuses the whole commit. */
  predicate Clashes(t: Tables, plan: Plan) {
    plan.LogoutPlan? && plan.denies.Some? && plan.denies.value in t.revoked
  }

  function CommitLogout(t: Tables, plan: Plan): Tables
    requires plan.LogoutPlan?
  {
    if Clashes(t, plan) then t
    else
      var t' := if plan.session.Some? then Overwritten(t, plan.session.value, plan.at, "logout") else t;
      if plan.denies.Some? then t'.(revoked := t'.revoked + {plan.denies.value}) else t'
  }

  // ---------------------------------------------------------------- session cap

  predicate ActiveSession(t: Tables, user: UserId, id: SessId) {
    id in t.sessions && t.sessions[id].user == user && t.sessions[id].revokedAt.None?
  }

  /** A possible answer of the query for a user's unrevoked sessions, oldest first. */
  ghost predicate ActiveInOrder(t: Tables, user: UserId, order: seq<SessId>) {
    && (forall id :: id in order <==> ActiveSession(t, user, id))
    && (forall i, j | 0 <= i < j < |order| :: order[i] != order[j])
    && (forall i, j | 0 <= i < j < |order| && order[i] in t.sessions && order[j] in t.sessions ::
          t.sessions[order[i]].createdAt <= t.sessions[order[j]].createdAt)
  }

  /** How many of `count` sessions a login revokes. */
  function Excess(count: nat, cfg: Settings): nat {
    if count >= cfg.maxSessions then count - cfg.maxSessions + 1 else 0
  }

  function RevokeAll(t: Tables, ids: seq<SessId>, at: Time): Tables {
    if ids == [] then t
    else Overwritten(RevokeAll(t, ids[..|ids| - 1], at), ids[|ids| - 1], at, "session_limit")
  }

  function Opened(t: Tables, user: UserId, id: SessId, issued: RawToken, now: Time, cfg: Settings): Tables {
    var session := Session(user, now, None, now + cfg.refreshDays * DAY, None, None);
    t.(sessions := t.sessions[id := session],
       tokens := t.tokens[issued := RefreshToken(id, session.expiresAt, None, None, None)])
  }

  /** `_create_session_tokens` when the query answered `order`. */
  function AfterLogin(t: Tables, order: seq<SessId>, user: UserId, id: SessId, issued: RawToken, now: Time,
                      cfg: Settings): Tables
    requires cfg.maxSessions >= 1
  {
    Opened(RevokeAll(t, order[..Excess(|order|, cfg)], now), user, id, issued, now, cfg)
  }

  // ---------------------------------------------------------------- the service

  class AuthService {
    var sessions: map<SessId, Session>
    var tokens: map<RawToken, RefreshToken>
    var revoked: set<Jti>

    constructor ()
      ensures State() == Tables(map[], map[], {})
    {
      sessions, tokens, revoked := map[], map[], {};
    }

    ghost function State(): Tables
      reads this
    {
      Tables(sessions, tokens, revoked)
    }

    /** `limited` is the rate limiter's answer, asked only after the token was found valid. */
    method Refresh(raw: RawToken, active: set<UserId>, now: Time, limited: bool, issued: RawToken)
      returns (r: Result<RawToken, ApiError>)
      requires issued !in tokens
      modifies this
      ensures var verdict := RefreshVerdict(old(State()), active, raw, now, limited);
              && State() == AfterRefresh(old(State()), verdict, raw, now, issued)
              && r == (if verdict.Rotate? then Ok(issued)
                       else if verdict.Limited? then Err(RateLimit.RATE_LIMITED) else Err(INVALID_REFRESH))
      ensures r == if Refreshable(old(State()), active, raw, now)
                   then (if limited then Err(ApiError(429, "rate_limited")) else Ok(issued))
                   else Err(ApiError(401, "invalid_refresh_token"))
    {
      if raw !in tokens {
        return Err(INVALID_REFRESH);
      }
      var stored := tokens[raw];
      if stored.consumedAt != None || stored.revokedAt != None {
        if stored.session in sessions && sessions[stored.session].revokedAt == None {
          var session := sessions[stored.session].(revokedAt := Some(now));
          sessions := sessions[stored.session := session.(revokedReason := Some("refresh_token_reuse"))];
        }
        return Err(INVALID_REFRESH);
      }
      if stored.session !in sessions {
        return Err(INVALID_REFRESH);
      }
      var session := sessions[stored.session];
      if session.user !in active || session.revokedAt != None || stored.expiresAt <= now || session.expiresAt <= now {
        return Err(INVALID_REFRESH);
      }
      if limited {
        return Err(RateLimit.RATE_LIMITED);
      }
      stored := stored.(consumedAt := Some(now));
      sessions := sessions[stored.session := session.(lastUsedAt := Some(now))];
      tokens := tokens[issued := RefreshToken(stored.session, session.expiresAt, None, None, None)];
      stored := stored.(replacedBy := Some(issued));
      tokens := tokens[raw := stored];
      return Ok(issued);
    }

    /** The reads of `logout`; `access` is the bearer token when its signature verifies. */
    method ReadLogout(raw: Option<RawToken>, access: Option<AccessToken>, now: Time) returns (plan: Plan)
      ensures plan == PlanLogout(State(), raw, access, now)
      ensures plan.LogoutPlan? && plan.at == now
      ensures plan.session == (if raw.Some? && raw.value in tokens && tokens[raw.value].session in sessions
                               && sessions[tokens[raw.value].session].revokedAt == None
                               then Some(tokens[raw.value].session) else None)
      ensures plan.denies == (if access.Some? && access.value.iat <= now < access.value.exp
                              && access.value.jti !in revoked then Some(access.value.jti) else None)
    {
      var session: Option<SessId> := None;
      if raw.Some? && raw.value in tokens {
        var id := tokens[raw.value].session;
        if id in sessions && sessions[id].revokedAt == None {
          session := Some(id);
        }
      }
      var denies: Option<Jti> := None;
      if access.Some? && Timely(access.value, now) {
        if access.value.jti !in revoked {
          denies := Some(access.value.jti);
        }
      }
      return LogoutPlan(now, session, denies);
    }

    /** The commit of `logout`; false is the IntegrityError of the deny list's primary key. */
    method FinishLogout(plan: Plan) returns (ok: bool)
      requires plan.LogoutPlan?
      modifies this
      ensures ok == !Clashes(old(State()), plan)
      ensures State() == CommitLogout(old(State()), plan)
    {
      ok := plan.denies == None || plan.denies.value !in revoked;
      if ok {
        if plan.session.Some? && plan.session.value in sessions {
          var session := sessions[plan.session.value].(revokedAt := Some(plan.at));
          sessions := sessions[plan.session.value := session.(revokedReason := Some("logout"))];
        }
        if plan.denies.Some? {
          revoked := revoked + {plan.denies.value};
        }
      }
    }

    /** `order` is what the query for the user's sessions answered; it may be out of date. */
    method CreateSessionTokens(order: seq<SessId>, user: UserId, id: SessId, issued: RawToken, now: Time, cfg: Settings)
      requires cfg.maxSessions >= 1
      modifies this
      ensures State() == AfterLogin(old(State()), order, user, id, issued, now, cfg)
    {
      var excess := |order| - cfg.maxSessions + 1;
      var bound := if excess > 0 then excess else 0;
      for i := 0 to bound
        invariant State() == RevokeAll(old(State()), order[..i], now)
      {
        assert order[..i + 1][..i] == order[..i];
        if order[i] in sessions {
          sessions := sessions[order[i] :=
            sessions[order[i]].(revokedAt := Some(now), revokedReason := Some("session_limit"))];
        }
      }
      var session := Session(user, now, None, now + cfg.refreshDays * DAY, None, None);
      sessions := sessions[id := session];
      tokens := tokens[issued := RefreshToken(id, session.expiresAt, None, None, None)];
    }

    method CurrentUser(token: AccessToken, active: set<UserId>, now: Time) returns (r: Result<UserId, ApiError>)
      ensures r == if Admits(State(), active, token, now) then Ok(token.sub) else Err(INVALID_ACCESS)
      ensures r.Ok? <==> token.iat <= now < token.exp && token.jti !in revoked && token.sub in active
      ensures r == if r.Ok? then Ok(token.sub) else Err(ApiError(401, "invalid_access_token"))
    {
      if !Timely(token, now) {
        return Err(INVALID_ACCESS);
      }
      if token.jti in revoked {
        return Err(INVALID_ACCESS);
      }
      if token.sub !in active {
        return Err(INVALID_ACCESS);
      }
      return Ok(token.sub);
    }
  }

  // ---------------------------------------------------------------- what the revoking loop does

  lemma {:induction false} RevokeAllEffect(t: Tables, ids: seq<SessId>, now: Time)
    ensures var t' := RevokeAll(t, ids, now);
            && t'.sessions.Keys == t.sessions.Keys && t'.tokens == t.tokens && t'.revoked == t.revoked
            && (forall id | id in t.sessions && id !in ids :: t'.sessions[id] == t.sessions[id])
            && (forall id | id in t.sessions && id in ids ::
                  t'.sessions[id] == t.sessions[id].(revokedAt := Some(now), revokedReason := Some("session_limit")))
  {
    if ids != [] {
      var most := ids[..|ids| - 1];
      RevokeAllEffect(t, most, now);
      assert forall id :: id in ids <==> id in most || id == ids[|ids| - 1];
    }
  }
}
