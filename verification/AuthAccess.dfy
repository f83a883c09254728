/** Who may log in, refresh and act, and what each operation writes: stated on the state of every run. */
module AuthAccess {
  import opened Wrappers
  import opened Auth
  import opened AuthRuns
  import G = AuthGuarantees

  // ---------------------------------------------------------------- bearer tokens

  /** Exactly the tokens the service minted are accepted, while timely, not denied, and with their user enabled. */
  lemma AcceptedExactly(s: State, token: AccessToken)
    ensures Accepted(s, token) <==>
            && token.jti in s.minted && s.minted[token.jti].token == token
            && token.iat <= s.now < token.exp
            && token.jti !in s.tables.revoked
            && token.sub in s.active
  {
  }

  lemma IssuedAt(user: UserId, j: Jti, at: Time, cfg: Settings)
    ensures var token := IssueAccess(user, j, at, cfg);
            && token.jti == j && token.sub == user
            && token.iat % 1_000_000 == 0 && token.iat <= at < token.iat + 1_000_000
            && token.exp == token.iat + cfg.accessMinutes * 60_000_000
  {
  }

  /**
    A minted token names the user of its session, was issued at the whole second in which it was minted, and expires
    `accessMinutes` after that.
   */
  lemma MintedForItsSession(actions: seq<Action>, cfg: Settings, j: Jti)
    requires j in Run(actions, cfg).minted
    ensures var s := Run(actions, cfg);
            var mint := s.minted[j];
            && mint.session in s.tables.sessions && mint.at <= s.now
            && mint.token.jti == j && mint.token.sub == s.tables.sessions[mint.session].user
            && mint.token.iat % 1_000_000 == 0 && mint.token.iat <= mint.at < mint.token.iat + 1_000_000
            && mint.token.exp == mint.token.iat + cfg.accessMinutes * 60_000_000
  {
    hide IssueAccess, Apply;
    RunSound(actions, cfg);
    var s := Run(actions, cfg);
    assert MintSound(s, cfg, j);
    IssuedAt(s.tables.sessions[s.minted[j].session].user, j, s.minted[j].at, cfg);
  }

  predicate NeverEnables(actions: seq<Action>, user: UserId) {
    SetActive(user, true) !in actions
  }

  lemma StepKeepsDisabled(s: State, a: Action, cfg: Settings, user: UserId)
    requires user !in s.active && a != SetActive(user, true)
    ensures user !in Apply(s, a, cfg).active
  {
    hide RefreshVerdict, Rotated, RevokeAll;
  }

  lemma {:induction false} StaysDisabled(before: seq<Action>, after: seq<Action>, cfg: Settings, user: UserId)
    requires user !in Run(before, cfg).active && NeverEnables(after, user)
    ensures user !in Run(before + after, cfg).active
  {
    if after == [] {
      assert before + after == before;
    } else {
      var most, last := after[..|after| - 1], after[|after| - 1];
      assert before + after == before + most + [last];
      RunOneMore(before + most, last, cfg);
      assert last in after;
      StaysDisabled(before, most, cfg, user);
      StepKeepsDisabled(Run(before + most, cfg), last, cfg, user);
    }
  }

  /** Once an account is disabled, no token of it is accepted until it is enabled again. */
  lemma DisabledIsRefused(before: seq<Action>, after: seq<Action>, cfg: Settings, user: UserId, token: AccessToken)
    requires NeverEnables(after, user) && token.sub == user
    ensures !Accepted(Run(before + [SetActive(user, false)] + after, cfg), token)
  {
    RunOneMore(before, SetActive(user, false), cfg);
    StaysDisabled(before + [SetActive(user, false)], after, cfg, user);
  }

  // ---------------------------------------------------------------- refresh

  /** Every successful refresh happened before its session expired. */
  lemma RefreshedInTime(actions: seq<Action>, cfg: Settings, i: nat)
    requires i < |Run(actions, cfg).refreshes|
    ensures var s := Run(actions, cfg);
            && s.refreshes[i].session in s.tables.sessions
            && s.refreshes[i].at < s.tables.sessions[s.refreshes[i].session].expiresAt
  {
    RunSound(actions, cfg);
    assert RefreshSound(Run(actions, cfg), i);
  }

  /** The token is the open one of a session that is neither revoked nor expired, and its user is enabled. */
  predicate Open(s: State, raw: RawToken) {
    && raw in s.tables.tokens && s.tables.tokens[raw].consumedAt == None
    && s.tables.tokens[raw].session in s.tables.sessions
    && var session := s.tables.sessions[s.tables.tokens[raw].session];
       session.revokedAt == None && s.now < session.expiresAt && session.user in s.active
  }

  lemma StoredToken(s: State, raw: RawToken)
    requires Families(s) && raw in s.tables.tokens
    ensures s.tables.tokens[raw].session in s.tables.sessions && s.tables.tokens[raw].revokedAt == None
    ensures s.tables.tokens[raw].expiresAt == s.tables.sessions[s.tables.tokens[raw].session].expiresAt
  {
    assert TokenListed(s, raw);
    var id := s.tables.tokens[raw].session;
    var i: nat :| i < |s.chains[id]| && s.chains[id][i] == raw;
    assert FamilySound(s, id) && LinkSound(s, id, i);
  }

  lemma OpenIsRefreshable(s: State, raw: RawToken)
    requires Families(s)
    ensures Open(s, raw) <==> Refreshable(s.tables, s.active, raw, s.now)
  {
    if raw in s.tables.tokens {
      StoredToken(s, raw);
    }
  }

  /** What a successful refresh writes. */
  ghost predicate RotatedInto(s: State, s': State, raw: RawToken, delay: nat)
    requires Open(s, raw)
  {
    var id := s.tables.tokens[raw].session;
    var session, token := s.tables.sessions[id], s.tables.tokens[raw];
    && s'.now == s.now + delay
    && s'.refreshes == s.refreshes + [Refreshed(raw, id, s.now)]
    && s'.tables.tokens == s.tables.tokens[s.nextToken := RefreshToken(id, session.expiresAt, None, None, None)]
                                          [raw := token.(consumedAt := Some(s.now), replacedBy := Some(s.nextToken))]
    && s'.tables.sessions == s.tables.sessions[id := session.(lastUsedAt := Some(s.now))]
    && s'.tables.revoked == s.tables.revoked
    && s'.minted.Keys == s.minted.Keys + {s.nextJti}
    && s'.minted[s.nextJti].session == id && s'.minted[s.nextJti].at == s.now + delay
  }

  /** What a presented token that was consumed before writes: its session is revoked, unless it was already. */
  predicate ReuseInto(s: State, s': State, id: SessId)
    requires id in s.tables.sessions
  {
    && s'.tables.tokens == s.tables.tokens && s'.tables.revoked == s.tables.revoked
    && s'.minted == s.minted && s'.refreshes == s.refreshes
    && s'.tables.sessions == if s.tables.sessions[id].revokedAt.Some? then s.tables.sessions
         else s.tables.sessions[id := s.tables.sessions[id].(revokedAt := Some(s.now),
           revokedReason := Some("refresh_token_reuse"))]
  }

  lemma OpenRotates(s: State, raw: RawToken, delay: nat, cfg: Settings)
    requires Open(s, raw) && Refreshable(s.tables, s.active, raw, s.now)
    ensures RotatedInto(s, DoRefresh(s, raw, false, delay, cfg), raw, delay)
  {
    hide IssueAccess, ClosedIn;
  }

  lemma ConsumedIsReuse(s: State, raw: RawToken, limited: bool, delay: nat, cfg: Settings)
    requires raw in s.tables.tokens && s.tables.tokens[raw].consumedAt.Some?
    requires s.tables.tokens[raw].session in s.tables.sessions
    ensures ReuseInto(s, DoRefresh(s, raw, limited, delay, cfg), s.tables.tokens[raw].session)
  {
    hide IssueAccess, ClosedIn;
  }

  lemma OthersChangeNothing(s: State, raw: RawToken, limited: bool, delay: nat, cfg: Settings)
    requires ClosedSound(s)
    requires !(Refreshable(s.tables, s.active, raw, s.now) && !limited)
    requires raw in s.tables.tokens ==>
      s.tables.tokens[raw].consumedAt == None && s.tables.tokens[raw].revokedAt == None
    ensures DoRefresh(s, raw, limited, delay, cfg) == s
  {
    assert ClosedIn(s, s.tables) == s.closed;
  }

  /**
    From every reachable state a refresh succeeds exactly when its token is open and the limiter lets it pass. It
    consumes the token, stores its one successor with the session's own expiry, notes the use on the session and
    mints one access token for it. A token consumed before revokes its session, and anything else changes nothing.
   */
  lemma RefreshesExactly(actions: seq<Action>, cfg: Settings, raw: RawToken, limited: bool, delay: nat)
    ensures var s, s' := Run(actions, cfg), Run(actions + [Refresh(raw, limited, delay)], cfg);
            && s.nextToken !in s.tables.tokens && s.nextJti !in s.minted
            && (raw in s.tables.tokens ==> s.tables.tokens[raw].session in s.tables.sessions)
            && if Open(s, raw) && !limited then RotatedInto(s, s', raw, delay)
               else if raw in s.tables.tokens && s.tables.tokens[raw].consumedAt.Some?
               then ReuseInto(s, s', s.tables.tokens[raw].session)
               else s' == s
  {
    hide DoRefresh, RotatedInto, ReuseInto;
    RunSound(actions, cfg);
    var s := Run(actions, cfg);
    RunOneMore(actions, Refresh(raw, limited, delay), cfg);
    OpenIsRefreshable(s, raw);
    UnissuedToken(s);
    UnmintedJti(s, cfg);
    if raw in s.tables.tokens {
      StoredToken(s, raw);
    }
    if Open(s, raw) && !limited {
      OpenRotates(s, raw, delay, cfg);
    } else if raw in s.tables.tokens && s.tables.tokens[raw].consumedAt.Some? {
      ConsumedIsReuse(s, raw, limited, delay, cfg);
    } else {
      OthersChangeNothing(s, raw, limited, delay, cfg);
    }
  }

  // ---------------------------------------------------------------- login

  /** Action `k` is the read of a login of the enabled user that password and limiter let pass, at this time. */
  ghost predicate LogsIn(actions: seq<Action>, cfg: Settings, k: nat, user: UserId, at: Time)
    requires k < |actions|
  {
    && actions[k].ReadLogin? && actions[k].user == user && actions[k].admitted
    && user in Run(actions[..k], cfg).active && Run(actions[..k], cfg).now == at
  }

  ghost predicate LoggedIn(actions: seq<Action>, cfg: Settings, user: UserId, at: Time) {
    exists k: nat | k < |actions| :: LogsIn(actions, cfg, k, user, at)
  }

  lemma LoggedInLater(most: seq<Action>, last: Action, cfg: Settings, user: UserId, at: Time)
    requires LoggedIn(most, cfg, user, at)
    ensures LoggedIn(most + [last], cfg, user, at)
  {
    var k: nat :| k < |most| && LogsIn(most, cfg, k, user, at);
    assert (most + [last])[..k] == most[..k];
    assert LogsIn(most + [last], cfg, k, user, at);
  }

  lemma NewPlan(s: State, a: Action, cfg: Settings, h: PlanId)
    requires h in Apply(s, a, cfg).plans && Apply(s, a, cfg).plans[h].LoginPlan?
    ensures || (h in s.plans && s.plans[h] == Apply(s, a, cfg).plans[h])
            || (a.ReadLogin? && a.admitted && a.user in s.active && Apply(s, a, cfg).plans[h].user == a.user
                && Apply(s, a, cfg).plans[h].at == s.now)
  {
    hide RefreshVerdict, Rotated, RevokeAll, ActiveInOrder, ClosedIn;
  }

  lemma {:induction false} PlansFromLogins(actions: seq<Action>, cfg: Settings, h: PlanId)
    requires h in Run(actions, cfg).plans && Run(actions, cfg).plans[h].LoginPlan?
    ensures LoggedIn(actions, cfg, Run(actions, cfg).plans[h].user, Run(actions, cfg).plans[h].at)
  {
    hide Apply;
    var most, last := actions[..|actions| - 1], actions[|actions| - 1];
    assert actions == most + [last];
    var plan := Run(actions, cfg).plans[h];
    NewPlan(Run(most, cfg), last, cfg, h);
    if h in Run(most, cfg).plans && Run(most, cfg).plans[h] == plan {
      PlansFromLogins(most, cfg, h);
      LoggedInLater(most, last, cfg, plan.user, plan.at);
    } else {
      assert LogsIn(actions, cfg, |most|, plan.user, plan.at);
    }
  }

  /** A session lasts `refreshDays` from its creation. */
  predicate SessionSpan(session: Session, cfg: Settings) {
    session.expiresAt == session.createdAt + cfg.refreshDays * 86_400_000_000
  }

  predicate SameSpan(session: Session, session': Session) {
    && session'.user == session.user && session'.createdAt == session.createdAt
    && session'.expiresAt == session.expiresAt
  }

  lemma CommitsSession(s: State, h: PlanId, minted: Time, cfg: Settings, id: SessId)
    requires s.nextSession !in s.tables.sessions && id in DoCommit(s, h, minted, cfg).tables.sessions
    ensures var session := DoCommit(s, h, minted, cfg).tables.sessions[id];
            if id in s.tables.sessions then SameSpan(s.tables.sessions[id], session)
            else
              && h in s.plans && s.plans[h].LoginPlan?
              && session.user == s.plans[h].user && session.createdAt == s.plans[h].at && SessionSpan(session, cfg)
  {
    hide IssueAccess, ClosedIn, RevokeAll;
    if h in s.plans && s.plans[h].LoginPlan? && cfg.maxSessions >= 1 {
      RevokeAllEffect(s.tables, s.plans[h].order[..Excess(|s.plans[h].order|, cfg)], s.plans[h].at);
    }
  }

  lemma OtherStepsKeepSpan(s: State, a: Action, cfg: Settings, id: SessId)
    requires !a.Commit? && id in Apply(s, a, cfg).tables.sessions
    ensures id in s.tables.sessions && SameSpan(s.tables.sessions[id], Apply(s, a, cfg).tables.sessions[id])
  {
    hide IssueAccess, ClosedIn, ActiveInOrder;
  }

  /** Every session was opened by a login of its enabled user, dates from its reads, and lasts `refreshDays`. */
  lemma {:induction false} SessionsFromLogins(actions: seq<Action>, cfg: Settings, id: SessId)
    requires id in Run(actions, cfg).tables.sessions
    ensures var session := Run(actions, cfg).tables.sessions[id];
            LoggedIn(actions, cfg, session.user, session.createdAt) && SessionSpan(session, cfg)
  {
    hide Apply, DoCommit;
    var most, last := actions[..|actions| - 1], actions[|actions| - 1];
    assert actions == most + [last];
    var s, session := Run(most, cfg), Run(actions, cfg).tables.sessions[id];
    if last.Commit? {
      RunSound(most, cfg);
      UnusedSession(s, s.nextSession);
      assert Apply(s, last, cfg) == DoCommit(s, last.h, last.minted, cfg) by { CommitApplies(s, last, cfg); }
      CommitsSession(s, last.h, last.minted, cfg, id);
    } else {
      OtherStepsKeepSpan(s, last, cfg, id);
    }
    if id in s.tables.sessions {
      SessionsFromLogins(most, cfg, id);
    } else {
      PlansFromLogins(most, cfg, last.h);
    }
    LoggedInLater(most, last, cfg, session.user, session.createdAt);
  }

  lemma CommitApplies(s: State, a: Action, cfg: Settings)
    requires a.Commit?
    ensures Apply(s, a, cfg) == DoCommit(s, a.h, a.minted, cfg)
  {
  }

  /** What a login opens: one session of the user, one refresh token and one access token for it. */
  ghost predicate EnteredInto(s: State, s': State, user: UserId, at: Time, minted: Time, cfg: Settings) {
    var session := Session(user, at, None, at + cfg.refreshDays * 86_400_000_000, None, None);
    && s'.now == s.now && s'.active == s.active && s'.refreshes == s.refreshes
    && s'.tables.sessions.Keys == s.tables.sessions.Keys + {s.nextSession}
    && s'.tables.sessions[s.nextSession] == session
    && s'.tables.tokens
       == s.tables.tokens[s.nextToken := RefreshToken(s.nextSession, session.expiresAt, None, None, None)]
    && s'.tables.revoked == s.tables.revoked
    && s'.minted.Keys == s.minted.Keys + {s.nextJti}
    && s'.minted[s.nextJti].session == s.nextSession && s'.minted[s.nextJti].at == minted
  }

  lemma CommitEnters(s: State, h: PlanId, minted: Time, cfg: Settings)
    requires h in s.plans && s.plans[h].LoginPlan? && cfg.maxSessions >= 1 && s.plans[h].at <= minted <= s.now
    ensures EnteredInto(s, DoCommit(s, h, minted, cfg), s.plans[h].user, s.plans[h].at, minted, cfg)
  {
    hide IssueAccess, ClosedIn, RevokeAll;
    RevokeAllEffect(s.tables, s.plans[h].order[..Excess(|s.plans[h].order|, cfg)], s.plans[h].at);
  }

  /**
    From every reachable state a login that is read and committed opens its session exactly when password and limiter
    let it pass and the account is enabled; `order` stands for the answer of the session query, `wait` for the time
    between the read and the commit.
   */
  lemma LogsInExactly(actions: seq<Action>, cfg: Settings, h: PlanId, user: UserId, admitted: bool, order: seq<SessId>,
                      wait: nat)
    requires cfg.maxSessions >= 1 && h !in Run(actions, cfg).plans
    requires ActiveInOrder(Run(actions, cfg).tables, user, order)
    ensures var s := Run(actions, cfg);
            var s' := Run(actions + [ReadLogin(h, user, admitted, order)] + [Tick(wait)] + [Commit(h, s.now)], cfg);
            if admitted && user in s.active then EnteredInto(s.(now := s'.now), s', user, s.now, s.now, cfg)
            else s' == s.(now := s'.now)
  {
    var s := Run(actions, cfg);
    var read := actions + [ReadLogin(h, user, admitted, order)];
    RunOneMore(actions, ReadLogin(h, user, admitted, order), cfg);
    RunOneMore(read, Tick(wait), cfg);
    RunOneMore(read + [Tick(wait)], Commit(h, s.now), cfg);
    if admitted && user in s.active {
      CommitEnters(Run(read + [Tick(wait)], cfg), h, s.now, cfg);
    }
  }

  // ---------------------------------------------------------------- logout

  /** What a logout read is about: the unrevoked session of its refresh token. */
  predicate Ends(s: State, raw: Option<RawToken>, id: SessId) {
    && raw.Some? && raw.value in s.tables.tokens && s.tables.tokens[raw.value].session == id
    && id in s.tables.sessions && s.tables.sessions[id].revokedAt == None
  }

  /** And the bearer token it denies: a minted one, timely and not denied yet. */
  predicate Denies(s: State, access: Option<AccessToken>, j: Jti) {
    && access.Some? && access.value.jti == j && j in s.minted && s.minted[j].token == access.value
    && access.value.iat <= s.now < access.value.exp && j !in s.tables.revoked
  }

  /**
    What the commit of a logout that was read in state `s0` writes in state `s`: nothing when the token it denies has
    been denied meanwhile; otherwise the session is revoked as of the read, and the token is denied.
   */
  ghost predicate EndedInto(s0: State, s: State, s': State, raw: Option<RawToken>, access: Option<AccessToken>) {
    && s'.tables.tokens == s.tables.tokens && s'.minted == s.minted
    && s'.refreshes == s.refreshes && s'.now == s.now && s'.active == s.active
    && if exists j :: Denies(s0, access, j) && j in s.tables.revoked then s'.tables == s.tables
       else
         && s'.tables.sessions.Keys == s.tables.sessions.Keys
         && (forall id | id in s.tables.sessions ::
               s'.tables.sessions[id] ==
                 if Ends(s0, raw, id)
                 then s.tables.sessions[id].(revokedAt := Some(s0.now), revokedReason := Some("logout"))
                 else s.tables.sessions[id])
         && (forall j :: j in s'.tables.revoked <==> j in s.tables.revoked || Denies(s0, access, j))
  }

  lemma CommitEnds(s0: State, s: State, h: PlanId, raw: Option<RawToken>, access: Option<AccessToken>, minted: Time,
                   cfg: Settings)
    requires h !in s0.plans && h in s.plans && s.plans[h] == DoReadLogout(s0, h, raw, access).plans[h]
    ensures EndedInto(s0, s, DoCommit(s, h, minted, cfg), raw, access)
  {
  }

  /** Whatever happens between the reads and the commit of a logout, its commit writes exactly what was read. */
  lemma LogoutWritesExactly(before: seq<Action>, middle: seq<Action>, cfg: Settings, h: PlanId, raw: Option<RawToken>,
                            access: Option<AccessToken>, minted: Time)
    requires h !in Run(before, cfg).plans && G.NoCommit(middle, h)
    ensures var read := before + [ReadLogout(h, raw, access)];
            EndedInto(Run(before, cfg), Run(read + middle, cfg), Run(read + middle + [Commit(h, minted)], cfg), raw,
              access)
  {
    var read := before + [ReadLogout(h, raw, access)];
    RunOneMore(before, ReadLogout(h, raw, access), cfg);
    G.PlanStays(read, middle, cfg, h);
    RunOneMore(read + middle, Commit(h, minted), cfg);
    CommitEnds(Run(before, cfg), Run(read + middle, cfg), h, raw, access, minted, cfg);
  }
}
