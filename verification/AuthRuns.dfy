/**
  Whole runs of the authentication service: any sequence of logins, refreshes,
  logouts, account changes and waiting, with a clock that never goes back.

  Row locks make a refresh one step. A login and a logout lock nothing: each is a
  read, which leaves a plan, and a commit of that plan; anything may happen in
  between, and a plan that is never committed belongs to a request that died.
 */
module AuthRuns {
  import opened Wrappers
  import opened Auth

  type PlanId = nat

  /** History: which session an access token was minted for, and when. */
  datatype Mint = Mint(token: AccessToken, session: SessId, at: Time)

  /** History: a successful refresh. */
  datatype Refreshed = Refreshed(token: RawToken, session: SessId, at: Time)

  datatype State = State(
    now: Time,
    tables: Tables,
    active: set<UserId>,
    plans: map<PlanId, Plan>,
    chains: map<SessId, seq<RawToken>>,   // history: the tokens of a session in issue order
    minted: map<Jti, Mint>,
    refreshes: seq<Refreshed>,
    closed: map<SessId, Time>,            // history: when the commit that first revoked a session happened
    nextSession: SessId,
    nextToken: RawToken,
    nextJti: Jti)

  /**
    `admitted` says that neither rate limit nor password stopped the login. `delay` is the time between the first
    clock reading of a refresh and the one that dates its access token; `minted` is that reading of a login.
   */
  datatype Action =
    | ReadLogin(h: PlanId, user: UserId, admitted: bool, order: seq<SessId>)
    | ReadLogout(h: PlanId, cookie: Option<RawToken>, access: Option<AccessToken>)
    | Commit(h: PlanId, minted: Time)
    | Refresh(raw: RawToken, limited: bool, delay: nat)
    | SetActive(user: UserId, enabled: bool)
    | Tick(elapsed: nat)

  const INITIAL := State(0, Tables(map[], map[], {}), {}, map[], map[], map[], [], map[], 0, 0, 0)

  /** A bearer token decodes when this service signed it and its claims are timely. */
  predicate Decodes(s: State, token: AccessToken) {
    Genuine(s, token) && Timely(token, s.now)
  }

  predicate Genuine(s: State, token: AccessToken) {
    token.jti in s.minted && s.minted[token.jti].token == token
  }

  /** `current_user` accepts the token. */
  predicate Accepted(s: State, token: AccessToken) {
    Genuine(s, token) && Admits(s.tables, s.active, token, s.now)
  }

  /** New tables; sessions revoked in them for the first time are closed now. */
  function WithTables(s: State, t: Tables): State {
    s.(tables := t, closed := ClosedIn(s, t))
  }

  function ClosedIn(s: State, t: Tables): map<SessId, Time> {
    map id | id in t.sessions && t.sessions[id].revokedAt.Some? :: if id in s.closed then s.closed[id] else s.now
  }

  function Minted(s: State, session: SessId, user: UserId, at: Time, cfg: Settings): State {
    s.(minted := s.minted[s.nextJti := Mint(IssueAccess(user, s.nextJti, at, cfg), session, at)],
       nextJti := s.nextJti + 1)
  }

  ghost function DoReadLogin(s: State, h: PlanId, user: UserId, admitted: bool, order: seq<SessId>): State {
    if h in s.plans || !admitted || user !in s.active || !ActiveInOrder(s.tables, user, order) then s
    else s.(plans := s.plans[h := LoginPlan(s.now, user, order)])
  }

  function DoReadLogout(s: State, h: PlanId, raw: Option<RawToken>, access: Option<AccessToken>): State {
    if h in s.plans then s
    else
      var bearer := if access.Some? && Decodes(s, access.value) then access else None;
      s.(plans := s.plans[h := PlanLogout(s.tables, raw, bearer, s.now)])
  }

  /** The revoking part of a login. */
  function Capped(s: State, order: seq<SessId>, at: Time, cfg: Settings): State
    requires cfg.maxSessions >= 1
  {
    WithTables(s, RevokeAll(s.tables, order[..Excess(|order|, cfg)], at))
  }

  /** The opening part of a login: a session of one new token, and an access token for it. */
  function Entered(s: State, user: UserId, at: Time, minted: Time, cfg: Settings): State {
    var begun := s.(
      tables := Opened(s.tables, user, s.nextSession, s.nextToken, at, cfg),
      chains := s.chains[s.nextSession := [s.nextToken]],
      nextSession := s.nextSession + 1,
      nextToken := s.nextToken + 1);
    Minted(begun, s.nextSession, user, minted, cfg)
  }

  function DoCommit(s: State, h: PlanId, minted: Time, cfg: Settings): State {
    if h !in s.plans then s
    else
      var plan := s.plans[h];
      var done := s.(plans := s.plans - {h});
      match plan
      case LogoutPlan(_, _, _) => WithTables(done, CommitLogout(s.tables, plan))
      case LoginPlan(at, user, order) =>
        if cfg.maxSessions < 1 || !(at <= minted <= s.now) then s
        else Entered(Capped(done, order, at, cfg), user, at, minted, cfg)
  }

  function DoRefresh(s: State, raw: RawToken, limited: bool, delay: nat, cfg: Settings): State {
    var verdict := RefreshVerdict(s.tables, s.active, raw, s.now, limited);
    var after := WithTables(s, AfterRefresh(s.tables, verdict, raw, s.now, s.nextToken));
    if !verdict.Rotate? then after
    else
      var id := s.tables.tokens[raw].session;
      var rotated := after.(
        now := s.now + delay,
        chains := s.chains[id := (if id in s.chains then s.chains[id] else []) + [s.nextToken]],
        refreshes := s.refreshes + [Refreshed(raw, id, s.now)],
        nextToken := s.nextToken + 1);
      Minted(rotated, id, s.tables.sessions[id].user, s.now + delay, cfg)
  }

  ghost function Apply(s: State, a: Action, cfg: Settings): State {
    match a
    case ReadLogin(h, user, admitted, order) => DoReadLogin(s, h, user, admitted, order)
    case ReadLogout(h, raw, access) => DoReadLogout(s, h, raw, access)
    case Commit(h, minted) => DoCommit(s, h, minted, cfg)
    case Refresh(raw, limited, delay) => DoRefresh(s, raw, limited, delay, cfg)
    case SetActive(user, enabled) => s.(active := if enabled then s.active + {user} else s.active - {user})
    case Tick(elapsed) => s.(now := s.now + elapsed)
  }

  ghost function Run(actions: seq<Action>, cfg: Settings): State {
    if actions == [] then INITIAL
    else Apply(Run(actions[..|actions| - 1], cfg), actions[|actions| - 1], cfg)
  }

  // ---------------------------------------------------------------- invariant

  /** Token `i` of a session: consumed and replaced by the next one, or the open end of the chain. */
  predicate LinkSound(s: State, id: SessId, i: nat)
    requires id in s.chains && i < |s.chains[id]|
  {
    var raw := s.chains[id][i];
    && raw < s.nextToken
    && id in s.tables.sessions && raw in s.tables.tokens
    && var token := s.tables.tokens[raw];
       && token.session == id
       && token.expiresAt == s.tables.sessions[id].expiresAt
       && token.revokedAt == None
       && (if i + 1 < |s.chains[id]| then token.consumedAt.Some? && token.replacedBy == Some(s.chains[id][i + 1])
           else token.consumedAt == None && token.replacedBy == None)
  }

  ghost predicate FamilySound(s: State, id: SessId)
    requires id in s.chains
  {
    && id < s.nextSession
    && s.chains[id] != []
    && (forall i: nat {:trigger LinkSound(s, id, i)} | i < |s.chains[id]| :: LinkSound(s, id, i))
    && (forall i, j | 0 <= i < j < |s.chains[id]| :: s.chains[id][i] < s.chains[id][j])
  }

  ghost predicate TokenListed(s: State, raw: RawToken)
    requires raw in s.tables.tokens
  {
    var id := s.tables.tokens[raw].session;
    id in s.chains && exists i :: 0 <= i < |s.chains[id]| && s.chains[id][i] == raw
  }

  predicate MintSound(s: State, cfg: Settings, j: Jti)
    requires j in s.minted
  {
    var mint := s.minted[j];
    && j < s.nextJti
    && mint.session in s.tables.sessions
    && mint.token == IssueAccess(s.tables.sessions[mint.session].user, j, mint.at, cfg)
    && 0 <= mint.at <= s.now
    && (mint.session in s.closed ==> mint.at <= s.closed[mint.session])
  }

  predicate RefreshSound(s: State, i: nat)
    requires i < |s.refreshes|
  {
    && s.refreshes[i].token in s.tables.tokens
    && s.tables.tokens[s.refreshes[i].token].session == s.refreshes[i].session
    && s.tables.tokens[s.refreshes[i].token].consumedAt == Some(s.refreshes[i].at)
    && s.refreshes[i].session in s.tables.sessions
    && s.refreshes[i].at < s.tables.sessions[s.refreshes[i].session].expiresAt
  }

  predicate OnceOnly(s: State, i: nat, j: nat)
    requires i < j < |s.refreshes|
  {
    s.refreshes[i].token != s.refreshes[j].token
  }

  ghost predicate Families(s: State) {
    && s.chains.Keys == s.tables.sessions.Keys
    && (forall id {:trigger FamilySound(s, id)} | id in s.chains :: FamilySound(s, id))
    && (forall raw {:trigger TokenListed(s, raw)} | raw in s.tables.tokens :: TokenListed(s, raw))
  }

  /** Exactly the revoked sessions are closed, no earlier than the time their rows record. */
  predicate ClosedSound(s: State) {
    && s.closed.Keys <= s.tables.sessions.Keys
    && (forall id | id in s.tables.sessions :: id in s.closed <==> s.tables.sessions[id].revokedAt.Some?)
    && (forall id | id in s.closed :: s.tables.sessions[id].revokedAt.value <= s.closed[id] <= s.now)
  }

  /** A planned revocation carries a time at which the session was still open. */
  predicate Target(s: State, id: SessId, at: Time) {
    id in s.tables.sessions && (id in s.closed ==> at <= s.closed[id])
  }

  predicate PlanSound(s: State, h: PlanId)
    requires h in s.plans
  {
    && 0 <= s.plans[h].at <= s.now
    && match s.plans[h]
       case LogoutPlan(at, session, _) => session.Some? ==> Target(s, session.value, at)
       case LoginPlan(at, user, order) =>
         && (forall id | id in order :: Target(s, id, at) && s.tables.sessions[id].user == user)
         && (forall i, j | 0 <= i < j < |order| :: order[i] != order[j])
  }

  ghost predicate PlansSound(s: State) {
    forall h {:trigger PlanSound(s, h)} | h in s.plans :: PlanSound(s, h)
  }

  ghost predicate LogsSound(s: State) {
    && (forall i: nat {:trigger RefreshSound(s, i)} | i < |s.refreshes| :: RefreshSound(s, i))
    && (forall i: nat, j: nat {:trigger OnceOnly(s, i, j)} | i < j < |s.refreshes| :: OnceOnly(s, i, j))
  }

  ghost predicate MintsSound(s: State, cfg: Settings) {
    forall j {:trigger MintSound(s, cfg, j)} | j in s.minted :: MintSound(s, cfg, j)
  }

  ghost predicate Sound(s: State, cfg: Settings) {
    0 <= s.now && Families(s) && ClosedSound(s) && PlansSound(s) && MintsSound(s, cfg) && LogsSound(s)
  }

  /** A session keeps its user and expiry, stays revoked once it is, and was closed when it was. */
  predicate SessionKept(s: State, s': State, id: SessId)
    requires id in s.tables.sessions
  {
    && id in s'.tables.sessions
    && s'.tables.sessions[id].user == s.tables.sessions[id].user
    && s'.tables.sessions[id].expiresAt == s.tables.sessions[id].expiresAt
    && (s.tables.sessions[id].revokedAt.Some? ==> s'.tables.sessions[id].revokedAt.Some?)
    && (id in s.closed ==> id in s'.closed && s'.closed[id] == s.closed[id])
  }

  ghost predicate SessionsKept(s: State, s': State) {
    forall id {:trigger SessionKept(s, s', id)} | id in s.tables.sessions :: SessionKept(s, s', id)
  }

  /** What no step takes back; and what a step logs is a refresh of an open session. */
  ghost predicate Grows(s: State, s': State) {
    && s.now <= s'.now
    && s.tables.revoked <= s'.tables.revoked
    && (forall j | j in s.minted :: j in s'.minted && s'.minted[j] == s.minted[j])
    && SessionsKept(s, s')
    && |s.refreshes| <= |s'.refreshes|
    && (forall i | 0 <= i < |s.refreshes| :: s'.refreshes[i] == s.refreshes[i])
    && (forall i | |s.refreshes| <= i < |s'.refreshes| :: s'.refreshes[i].session !in s.closed)
  }

  // ---------------------------------------------------------------- steps that plan, revoke or wait

  /** Tokens, chains and logs do not change, sessions at most by being revoked, plans at most by being dropped. */
  ghost predicate OnlyRevokes(s: State, s': State) {
    && s'.now == s.now && s'.chains == s.chains && s'.minted == s.minted && s'.refreshes == s.refreshes
    && s'.nextSession == s.nextSession && s'.nextToken == s.nextToken && s'.nextJti == s.nextJti
    && s'.tables.tokens == s.tables.tokens
    && s.tables.revoked <= s'.tables.revoked
    && s'.tables.sessions.Keys == s.tables.sessions.Keys
    && SessionsKept(s, s')
    && s'.closed == ClosedIn(s, s'.tables)
    && (forall id | id in s'.closed :: s'.tables.sessions[id].revokedAt.value <= s'.closed[id])
    && (forall h | h in s'.plans :: h in s.plans && s'.plans[h] == s.plans[h])
  }

  lemma SameFamilies(s: State, s': State)
    requires Families(s) && SessionsKept(s, s') && s'.tables.tokens == s.tables.tokens && s'.chains == s.chains
    requires s'.tables.sessions.Keys == s.tables.sessions.Keys
    requires s.nextSession == s'.nextSession && s.nextToken == s'.nextToken
    ensures Families(s')
  {
    forall id | id in s'.chains
      ensures FamilySound(s', id)
    {
      assert FamilySound(s, id);
      forall i: nat | i < |s'.chains[id]|
        ensures LinkSound(s', id, i)
      {
        assert LinkSound(s, id, i) && SessionKept(s, s', id);
      }
    }
    forall raw | raw in s'.tables.tokens
      ensures TokenListed(s', raw)
    {
      assert TokenListed(s, raw);
    }
  }

  /** Plans survive a step that keeps sessions, as long as what it closes it closes now. */
  lemma SamePlans(s: State, s': State)
    requires PlansSound(s) && SessionsKept(s, s') && s.now <= s'.now
    requires forall id | id in s'.closed && id !in s.closed :: s.now <= s'.closed[id]
    requires forall h | h in s'.plans :: h in s.plans && s'.plans[h] == s.plans[h]
    ensures PlansSound(s')
  {
    forall h | h in s'.plans
      ensures PlanSound(s', h)
    {
      assert PlanSound(s, h);
      forall id | Target(s, id, s.plans[h].at)
        ensures Target(s', id, s.plans[h].at) && s'.tables.sessions[id].user == s.tables.sessions[id].user
      {
        assert SessionKept(s, s', id);
      }
    }
  }

  /** Mints survive when their sessions do and what is closed is closed no earlier than now. */
  lemma SameMints(s: State, s': State, cfg: Settings)
    requires MintsSound(s, cfg) && SessionsKept(s, s') && s.now <= s'.now && s.nextJti <= s'.nextJti
    requires forall id | id in s'.closed && id !in s.closed :: s.now <= s'.closed[id]
    requires forall j | j in s.minted :: j in s'.minted && s'.minted[j] == s.minted[j]
    ensures forall j {:trigger MintSound(s', cfg, j)} | j in s.minted :: MintSound(s', cfg, j)
  {
    forall j | j in s.minted
      ensures MintSound(s', cfg, j)
    {
      assert MintSound(s, cfg, j) && SessionKept(s, s', s.minted[j].session);
    }
  }

  lemma SameLogs(s: State, s': State)
    requires LogsSound(s) && s'.refreshes == s.refreshes && SessionsKept(s, s')
    requires forall raw | raw in s.tables.tokens && s.tables.tokens[raw].consumedAt.Some? ::
               raw in s'.tables.tokens && s'.tables.tokens[raw] == s.tables.tokens[raw]
    ensures LogsSound(s')
  {
    forall i: nat | i < |s'.refreshes|
      ensures RefreshSound(s', i)
    {
      assert RefreshSound(s, i) && SessionKept(s, s', s.refreshes[i].session);
    }
    forall i: nat, j: nat | i < j < |s'.refreshes|
      ensures OnceOnly(s', i, j)
    {
      assert OnceOnly(s, i, j);
    }
  }

  lemma RevokingKeeps(s: State, s': State, cfg: Settings)
    requires Sound(s, cfg) && OnlyRevokes(s, s')
    ensures Sound(s', cfg) && Grows(s, s')
  {
    SameFamilies(s, s');
    SamePlans(s, s');
    SameMints(s, s', cfg);
    SameLogs(s, s');
  }

  lemma WaitKeeps(s: State, s': State, cfg: Settings)
    requires Sound(s, cfg) && s.now <= s'.now && s' == s.(now := s'.now, active := s'.active)
    ensures Sound(s', cfg) && Grows(s, s')
  {
    SameFamilies(s, s');
    SamePlans(s, s');
    SameMints(s, s', cfg);
    SameLogs(s, s');
  }

  lemma PlanningKeeps(s: State, h: PlanId, plan: Plan, cfg: Settings)
    requires Sound(s, cfg) && h !in s.plans
    requires var s' := s.(plans := s.plans[h := plan]); PlanSound(s', h)
    ensures var s' := s.(plans := s.plans[h := plan]); Sound(s', cfg) && Grows(s, s')
  {
    var s' := s.(plans := s.plans[h := plan]);
    SameFamilies(s, s');
    SameMints(s, s', cfg);
    SameLogs(s, s');
    forall k | k in s'.plans
      ensures PlanSound(s', k)
    {
      assert k != h ==> PlanSound(s, k);
    }
  }

  lemma ReadLoginKeeps(s: State, h: PlanId, user: UserId, admitted: bool, order: seq<SessId>, cfg: Settings)
    requires Sound(s, cfg)
    ensures Sound(DoReadLogin(s, h, user, admitted, order), cfg) && Grows(s, DoReadLogin(s, h, user, admitted, order))
  {
    if !(h in s.plans || !admitted || user !in s.active || !ActiveInOrder(s.tables, user, order)) {
      forall id | id in order
        ensures Target(s, id, s.now) && s.tables.sessions[id].user == user
      {
        assert ActiveSession(s.tables, user, id);
      }
      PlanningKeeps(s, h, LoginPlan(s.now, user, order), cfg);
    }
  }

  lemma ReadLogoutKeeps(s: State, h: PlanId, raw: Option<RawToken>, access: Option<AccessToken>, cfg: Settings)
    requires Sound(s, cfg)
    ensures Sound(DoReadLogout(s, h, raw, access), cfg) && Grows(s, DoReadLogout(s, h, raw, access))
  {
    if h !in s.plans {
      var bearer := if access.Some? && Decodes(s, access.value) then access else None;
      PlanningKeeps(s, h, PlanLogout(s.tables, raw, bearer, s.now), cfg);
    }
  }

  lemma LogoutCommitKeeps(s: State, h: PlanId, minted: Time, cfg: Settings)
    requires Sound(s, cfg) && h in s.plans && s.plans[h].LogoutPlan?
    ensures Sound(DoCommit(s, h, minted, cfg), cfg) && Grows(s, DoCommit(s, h, minted, cfg))
  {
    hide Families, MintsSound, LogsSound, Timely;
    var s' := DoCommit(s, h, minted, cfg);
    assert PlanSound(s, h);
    assert OnlyRevokes(s, s');
    RevokingKeeps(s, s', cfg);
  }

  // ---------------------------------------------------------------- rotation

  /** The token presented to a rotation is the open end of its session's chain. */
  lemma RotatesTheLast(s: State, raw: RawToken)
    requires Families(s) && raw in s.tables.tokens && s.tables.tokens[raw].consumedAt == None
    ensures var id := s.tables.tokens[raw].session;
            id in s.chains && s.chains[id] != [] && s.chains[id][|s.chains[id]| - 1] == raw
  {
    assert TokenListed(s, raw);
    var id := s.tables.tokens[raw].session;
    var i: nat :| i < |s.chains[id]| && s.chains[id][i] == raw;
    assert FamilySound(s, id) && LinkSound(s, id, i);
  }

  predicate Rotates(s: State, raw: RawToken, limited: bool) {
    RefreshVerdict(s.tables, s.active, raw, s.now, limited).Rotate?
  }

  lemma TokenIssued(s: State, raw: RawToken)
    requires Families(s) && raw in s.tables.tokens
    ensures raw < s.nextToken
  {
    assert TokenListed(s, raw);
    var id := s.tables.tokens[raw].session;
    var i: nat :| i < |s.chains[id]| && s.chains[id][i] == raw;
    assert FamilySound(s, id) && LinkSound(s, id, i);
  }

  lemma UnissuedToken(s: State)
    requires Families(s)
    ensures s.nextToken !in s.tables.tokens
  {
    if s.nextToken in s.tables.tokens {
      TokenIssued(s, s.nextToken);
    }
  }

  lemma RotationLink(s: State, raw: RawToken, limited: bool, delay: nat, cfg: Settings, id: SessId, i: nat)
    requires Families(s) && Rotates(s, raw, limited)
    requires id in s.chains && i < |DoRefresh(s, raw, limited, delay, cfg).chains[id]|
    requires s.nextToken !in s.tables.tokens
    ensures LinkSound(DoRefresh(s, raw, limited, delay, cfg), id, i)
  {
    RotatesTheLast(s, raw);
    var s' := DoRefresh(s, raw, limited, delay, cfg);
    assert FamilySound(s, id);
    if i < |s.chains[id]| {
      assert LinkSound(s, id, i);
      assert s'.chains[id][i] == s.chains[id][i];
      if s.chains[id][i] == raw {
        assert s.tables.tokens[raw].session == id;
      }
    }
  }

  lemma RotationFamilies(s: State, raw: RawToken, limited: bool, delay: nat, cfg: Settings)
    requires Families(s) && Rotates(s, raw, limited)
    ensures Families(DoRefresh(s, raw, limited, delay, cfg))
  {
    var s' := DoRefresh(s, raw, limited, delay, cfg);
    RotatesTheLast(s, raw);
    UnissuedToken(s);
    forall id | id in s'.chains
      ensures FamilySound(s', id)
    {
      assert FamilySound(s, id);
      forall i: nat | i < |s'.chains[id]|
        ensures LinkSound(s', id, i)
      {
        RotationLink(s, raw, limited, delay, cfg, id, i);
      }
      forall i: nat | i < |s.chains[id]|
        ensures s.chains[id][i] < s.nextToken
      {
        assert LinkSound(s, id, i);
      }
    }
    forall r | r in s'.tables.tokens
      ensures TokenListed(s', r)
    {
      RotationListed(s, raw, limited, delay, cfg, r);
    }
  }

  lemma RotationListed(s: State, raw: RawToken, limited: bool, delay: nat, cfg: Settings, r: RawToken)
    requires Families(s) && Rotates(s, raw, limited) && s.nextToken !in s.tables.tokens
    requires s.tables.tokens[raw].session in s.chains
    requires r in DoRefresh(s, raw, limited, delay, cfg).tables.tokens
    ensures TokenListed(DoRefresh(s, raw, limited, delay, cfg), r)
  {
    var s' := DoRefresh(s, raw, limited, delay, cfg);
    if r == s.nextToken {
      var id := s.tables.tokens[raw].session;
      assert s'.chains[id][|s.chains[id]|] == r;
    } else {
      assert TokenListed(s, r);
      var id := s.tables.tokens[r].session;
      var i :| 0 <= i < |s.chains[id]| && s.chains[id][i] == r;
      assert s'.chains[id][i] == r;
    }
  }

  lemma RotationLogs(s: State, raw: RawToken, limited: bool, delay: nat, cfg: Settings)
    requires LogsSound(s) && Rotates(s, raw, limited) && s.nextToken !in s.tables.tokens
    requires SessionsKept(s, DoRefresh(s, raw, limited, delay, cfg))
    ensures LogsSound(DoRefresh(s, raw, limited, delay, cfg))
  {
    var s' := DoRefresh(s, raw, limited, delay, cfg);
    forall i: nat | i < |s'.refreshes|
      ensures RefreshSound(s', i)
    {
      if i < |s.refreshes| {
        assert RefreshSound(s, i) && SessionKept(s, s', s.refreshes[i].session);
      }
    }
    forall i: nat, j: nat | i < j < |s'.refreshes|
      ensures OnceOnly(s', i, j)
    {
      assert RefreshSound(s, i);
      if j < |s.refreshes| {
        assert OnceOnly(s, i, j);
      }
    }
  }

  lemma UnusedSession(s: State, id: SessId)
    requires Families(s) && s.nextSession <= id
    ensures id !in s.tables.sessions
  {
    assert id in s.chains ==> FamilySound(s, id);
  }

  lemma UnmintedJti(s: State, cfg: Settings)
    requires MintsSound(s, cfg)
    ensures s.nextJti !in s.minted
  {
    assert s.nextJti in s.minted ==> MintSound(s, cfg, s.nextJti);
  }

  lemma RotationKept(s: State, raw: RawToken, limited: bool, delay: nat, cfg: Settings)
    requires ClosedSound(s) && Rotates(s, raw, limited)
    ensures var s' := DoRefresh(s, raw, limited, delay, cfg);
            SessionsKept(s, s') && ClosedSound(s') && s'.closed == s.closed
  {
    hide IssueAccess, LinkSound;
  }

  lemma RotationMints(s: State, raw: RawToken, limited: bool, delay: nat, cfg: Settings)
    requires 0 <= s.now && ClosedSound(s) && MintsSound(s, cfg) && Rotates(s, raw, limited)
    ensures var s' := DoRefresh(s, raw, limited, delay, cfg);
            MintsSound(s', cfg) && forall j | j in s.minted :: j in s'.minted && s'.minted[j] == s.minted[j]
  {
    var s' := DoRefresh(s, raw, limited, delay, cfg);
    UnmintedJti(s, cfg);
    RotationKept(s, raw, limited, delay, cfg);
    SameMints(s, s', cfg);
    assert MintSound(s', cfg, s.nextJti);
  }

  lemma RotationKeeps(s: State, raw: RawToken, limited: bool, delay: nat, cfg: Settings)
    requires Sound(s, cfg) && Rotates(s, raw, limited)
    ensures Sound(DoRefresh(s, raw, limited, delay, cfg), cfg) && Grows(s, DoRefresh(s, raw, limited, delay, cfg))
  {
    var s' := DoRefresh(s, raw, limited, delay, cfg);
    UnissuedToken(s);
    RotationKept(s, raw, limited, delay, cfg);
    RotationFamilies(s, raw, limited, delay, cfg);
    RotationLogs(s, raw, limited, delay, cfg);
    RotationMints(s, raw, limited, delay, cfg);
    SamePlans(s, s');
  }

  lemma RefreshKeeps(s: State, raw: RawToken, limited: bool, delay: nat, cfg: Settings)
    requires Sound(s, cfg)
    ensures Sound(DoRefresh(s, raw, limited, delay, cfg), cfg) && Grows(s, DoRefresh(s, raw, limited, delay, cfg))
  {
    if Rotates(s, raw, limited) {
      RotationKeeps(s, raw, limited, delay, cfg);
    } else {
      assert OnlyRevokes(s, DoRefresh(s, raw, limited, delay, cfg));
      RevokingKeeps(s, DoRefresh(s, raw, limited, delay, cfg), cfg);
    }
  }

  // ---------------------------------------------------------------- the commit of a login

  lemma CappedKeeps(s: State, order: seq<SessId>, at: Time, cfg: Settings)
    requires Sound(s, cfg) && cfg.maxSessions >= 1 && at <= s.now
    requires forall id | id in order :: Target(s, id, at)
    ensures Sound(Capped(s, order, at, cfg), cfg) && Grows(s, Capped(s, order, at, cfg))
  {
    var gone := order[..Excess(|order|, cfg)];
    RevokeAllEffect(s.tables, gone, at);
    forall id | id in gone
      ensures Target(s, id, at)
    {
      assert id in order;
    }
    assert OnlyRevokes(s, Capped(s, order, at, cfg));
    RevokingKeeps(s, Capped(s, order, at, cfg), cfg);
  }

  lemma EnteredFamilies(s: State, user: UserId, at: Time, minted: Time, cfg: Settings)
    requires Families(s)
    ensures Families(Entered(s, user, at, minted, cfg))
    ensures s.nextSession !in s.tables.sessions && s.nextToken !in s.tables.tokens
  {
    var s' := Entered(s, user, at, minted, cfg);
    UnissuedToken(s);
    assert s.nextSession in s.chains ==> FamilySound(s, s.nextSession);
    forall id | id in s'.chains
      ensures FamilySound(s', id)
    {
      if id == s.nextSession {
        assert LinkSound(s', id, 0);
      } else {
        assert FamilySound(s, id);
        forall i: nat | i < |s'.chains[id]|
          ensures LinkSound(s', id, i)
        {
          assert LinkSound(s, id, i);
        }
      }
    }
    forall r | r in s'.tables.tokens
      ensures TokenListed(s', r)
    {
      if r == s.nextToken {
        assert s'.chains[s.nextSession][0] == r;
      } else {
        assert TokenListed(s, r);
        var id := s.tables.tokens[r].session;
        var i :| 0 <= i < |s.chains[id]| && s.chains[id][i] == r;
        assert s'.chains[id][i] == r;
      }
    }
  }

  lemma EnteredKeeps(s: State, user: UserId, at: Time, minted: Time, cfg: Settings)
    requires Sound(s, cfg) && 0 <= minted <= s.now
    ensures Sound(Entered(s, user, at, minted, cfg), cfg) && Grows(s, Entered(s, user, at, minted, cfg))
  {
    hide Families, LogsSound;
    var s' := Entered(s, user, at, minted, cfg);
    EnteredFamilies(s, user, at, minted, cfg);
    UnmintedJti(s, cfg);
    SamePlans(s, s');
    SameMints(s, s', cfg);
    assert MintSound(s', cfg, s.nextJti);
    SameLogs(s, s');
  }

  lemma GrowsTransitive(s: State, s': State, s'': State)
    requires Grows(s, s') && Grows(s', s'') && s.closed.Keys <= s.tables.sessions.Keys
    ensures Grows(s, s'')
  {
    forall id | id in s.tables.sessions
      ensures SessionKept(s, s'', id)
    {
      assert SessionKept(s, s', id) && SessionKept(s', s'', id);
    }
    forall i | |s.refreshes| <= i < |s''.refreshes|
      ensures s''.refreshes[i].session !in s.closed
    {
      var id := s''.refreshes[i].session;
      assert id in s.closed ==> SessionKept(s, s', id);
      if i < |s'.refreshes| {
        assert s''.refreshes[i] == s'.refreshes[i];
      }
    }
  }

  lemma LoginCommitKeeps(s: State, h: PlanId, minted: Time, cfg: Settings)
    requires Sound(s, cfg) && h in s.plans && s.plans[h].LoginPlan?
    ensures Sound(DoCommit(s, h, minted, cfg), cfg) && Grows(s, DoCommit(s, h, minted, cfg))
  {
    hide Families, MintsSound, LogsSound, Entered, Capped;
    var s' := DoCommit(s, h, minted, cfg);
    var plan := s.plans[h];
    if cfg.maxSessions >= 1 && plan.at <= minted <= s.now {
      assert PlanSound(s, h);
      var done := s.(plans := s.plans - {h});
      assert OnlyRevokes(s, done);
      RevokingKeeps(s, done, cfg);
      forall id | id in plan.order
        ensures Target(done, id, plan.at)
      {
        assert Target(s, id, plan.at);
      }
      CapThenEnter(s, done, plan, minted, cfg);
    }
  }

  lemma CapThenEnter(s: State, done: State, plan: Plan, minted: Time, cfg: Settings)
    requires Sound(done, cfg) && Grows(s, done) && s.closed.Keys <= s.tables.sessions.Keys
    requires plan.LoginPlan? && cfg.maxSessions >= 1 && 0 <= plan.at <= minted <= done.now
    requires forall id | id in plan.order :: Target(done, id, plan.at)
    ensures var s' := Entered(Capped(done, plan.order, plan.at, cfg), plan.user, plan.at, minted, cfg);
            Sound(s', cfg) && Grows(s, s')
  {
    var capped := Capped(done, plan.order, plan.at, cfg);
    CappedKeeps(done, plan.order, plan.at, cfg);
    EnteredKeeps(capped, plan.user, plan.at, minted, cfg);
    GrowsTransitive(s, done, capped);
    GrowsTransitive(s, capped, Entered(capped, plan.user, plan.at, minted, cfg));
  }

  // ---------------------------------------------------------------- every run

  lemma StepKeeps(s: State, a: Action, cfg: Settings)
    requires Sound(s, cfg)
    ensures Sound(Apply(s, a, cfg), cfg) && Grows(s, Apply(s, a, cfg))
  {
    match a
    case ReadLogin(h, user, admitted, order) => ReadLoginKeeps(s, h, user, admitted, order, cfg);
    case ReadLogout(h, raw, access) => ReadLogoutKeeps(s, h, raw, access, cfg);
    case Commit(h, minted) =>
      if h in s.plans && s.plans[h].LogoutPlan? {
        LogoutCommitKeeps(s, h, minted, cfg);
      } else if h in s.plans {
        LoginCommitKeeps(s, h, minted, cfg);
      } else {
        WaitKeeps(s, s, cfg);
      }
    case Refresh(raw, limited, delay) => RefreshKeeps(s, raw, limited, delay, cfg);
    case SetActive(user, enabled) => WaitKeeps(s, Apply(s, a, cfg), cfg);
    case Tick(elapsed) => WaitKeeps(s, Apply(s, a, cfg), cfg);
  }

  lemma {:induction false} RunSound(actions: seq<Action>, cfg: Settings)
    ensures Sound(Run(actions, cfg), cfg)
  {
    if actions != [] {
      RunSound(actions[..|actions| - 1], cfg);
      StepKeeps(Run(actions[..|actions| - 1], cfg), actions[|actions| - 1], cfg);
    }
  }

  lemma RunOneMore(actions: seq<Action>, a: Action, cfg: Settings)
    ensures Run(actions + [a], cfg) == Apply(Run(actions, cfg), a, cfg)
  {
    assert (actions + [a])[..|actions + [a]| - 1] == actions;
  }

  /** However a run goes on, it takes nothing back. */
  lemma {:induction false} RunGrows(before: seq<Action>, after: seq<Action>, cfg: Settings)
    ensures Grows(Run(before, cfg), Run(before + after, cfg))
  {
    RunSound(before, cfg);
    if after == [] {
      assert before + after == before;
      WaitKeeps(Run(before, cfg), Run(before, cfg), cfg);
    } else {
      var most, last := after[..|after| - 1], after[|after| - 1];
      assert before + after == before + most + [last];
      RunOneMore(before + most, last, cfg);
      RunGrows(before, most, cfg);
      RunSound(before + most, cfg);
      StepKeeps(Run(before + most, cfg), last, cfg);
      GrowsTransitive(Run(before, cfg), Run(before + most, cfg), Run(before + after, cfg));
    }
  }
}
