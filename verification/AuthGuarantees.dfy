/** What the authentication service promises over every run. */
module AuthGuarantees {
  import opened Wrappers
  import opened Auth
  import opened AuthRuns

  // ---------------------------------------------------------------- refresh families

  /** Token `i` of the chain expires with the session; it is replaced by the next token, or open. */
  predicate ChainLink(s: State, id: SessId, i: nat)
    requires id in s.tables.sessions && id in s.chains && i < |s.chains[id]| && s.chains[id][i] in s.tables.tokens
  {
    var token := s.tables.tokens[s.chains[id][i]];
    && token.expiresAt == s.tables.sessions[id].expiresAt
    && (i + 1 < |s.chains[id]| ==> token.consumedAt.Some? && token.replacedBy == Some(s.chains[id][i + 1]))
    && (i + 1 == |s.chains[id]| ==> token.consumedAt == None && token.replacedBy == None)
  }

  /**
    A session's tokens in issue order form one chain: each is consumed and replaced by the next, the last is
    open, all expire exactly with the session, and the session has no other token.
   */
  lemma LinearChain(actions: seq<Action>, cfg: Settings, id: SessId)
    requires id in Run(actions, cfg).tables.sessions
    ensures var s := Run(actions, cfg);
            && id in s.chains && s.chains[id] != []
            && (forall raw :: raw in s.tables.tokens && s.tables.tokens[raw].session == id <==> raw in s.chains[id])
            && (forall i: nat | i < |s.chains[id]| :: s.chains[id][i] in s.tables.tokens && ChainLink(s, id, i))
            && (forall i, j | 0 <= i < j < |s.chains[id]| :: s.chains[id][i] != s.chains[id][j])
  {
    RunSound(actions, cfg);
    var s := Run(actions, cfg);
    assert FamilySound(s, id);
    forall i: nat | i < |s.chains[id]|
      ensures s.chains[id][i] in s.tables.tokens && ChainLink(s, id, i)
    {
      assert LinkSound(s, id, i);
    }
    forall raw
      ensures raw in s.tables.tokens && s.tables.tokens[raw].session == id <==> raw in s.chains[id]
    {
      if raw in s.chains[id] {
        var i: nat :| i < |s.chains[id]| && s.chains[id][i] == raw;
        assert LinkSound(s, id, i);
      }
      if raw in s.tables.tokens && s.tables.tokens[raw].session == id {
        assert TokenListed(s, raw);
      }
    }
  }

  /** No refresh token ever refreshes twice. */
  lemma EachTokenRefreshesOnce(actions: seq<Action>, cfg: Settings, i: nat, j: nat)
    requires i < j < |Run(actions, cfg).refreshes|
    ensures Run(actions, cfg).refreshes[i].token != Run(actions, cfg).refreshes[j].token
  {
    RunSound(actions, cfg);
    assert OnceOnly(Run(actions, cfg), i, j);
  }

  /** A refresh that is not a rotation, a rate-limited one included, consumes and issues nothing. */
  lemma OnlyRotationConsumes(actions: seq<Action>, cfg: Settings, raw: RawToken, limited: bool, delay: nat)
    requires !Rotates(Run(actions, cfg), raw, limited)
    ensures var s := Run(actions, cfg);
            var s' := Run(actions + [Refresh(raw, limited, delay)], cfg);
            && s'.tables.tokens == s.tables.tokens && s'.chains == s.chains && s'.minted == s.minted
            && (RefreshVerdict(s.tables, s.active, raw, s.now, limited).Limited? ==> s' == s)
  {
    RunSound(actions, cfg);
    RunOneMore(actions, Refresh(raw, limited, delay), cfg);
  }

  /** A successful refresh of this token was logged, at the time it was consumed. */
  ghost predicate Logged(s: State, raw: RawToken)
    requires raw in s.tables.tokens
  {
    exists i | 0 <= i < |s.refreshes| :: s.refreshes[i].token == raw
      && s.tables.tokens[raw].consumedAt == Some(s.refreshes[i].at)
  }

  ghost predicate AllLogged(s: State) {
    forall raw {:trigger Logged(s, raw)} | raw in s.tables.tokens
      && s.tables.tokens[raw].consumedAt.Some? :: Logged(s, raw)
  }

  lemma LoggedKept(s: State, s': State, raw: RawToken)
    requires raw in s.tables.tokens && raw in s'.tables.tokens && s'.tables.tokens[raw] == s.tables.tokens[raw]
    requires |s.refreshes| <= |s'.refreshes| && forall i | 0 <= i < |s.refreshes| :: s'.refreshes[i] == s.refreshes[i]
    requires Logged(s, raw)
    ensures Logged(s', raw)
  {
    var i :| 0 <= i < |s.refreshes| && s.refreshes[i].token == raw
      && s.tables.tokens[raw].consumedAt == Some(s.refreshes[i].at);
    assert s'.refreshes[i].token == raw;
  }

  lemma RotationLogged(s: State, raw: RawToken, limited: bool, delay: nat, cfg: Settings)
    requires Families(s) && AllLogged(s) && Rotates(s, raw, limited)
    ensures AllLogged(DoRefresh(s, raw, limited, delay, cfg))
  {
    var s' := DoRefresh(s, raw, limited, delay, cfg);
    forall r | r in s'.tables.tokens && s'.tables.tokens[r].consumedAt.Some?
      ensures Logged(s', r)
    {
      if r == raw {
        assert s'.refreshes[|s.refreshes|] == Refreshed(raw, s.tables.tokens[raw].session, s.now);
      } else {
        LoggedKept(s, s', r);
      }
    }
  }

  lemma CommitLogged(s: State, h: PlanId, minted: Time, cfg: Settings)
    requires AllLogged(s)
    ensures AllLogged(DoCommit(s, h, minted, cfg))
  {
    var s' := DoCommit(s, h, minted, cfg);
    if h in s.plans && s.plans[h].LoginPlan? && cfg.maxSessions >= 1 {
      var order := s.plans[h].order;
      RevokeAllEffect(s.tables, order[..Excess(|order|, cfg)], s.plans[h].at);
    }
    forall r | r in s'.tables.tokens && s'.tables.tokens[r].consumedAt.Some?
      ensures Logged(s', r)
    {
      LoggedKept(s, s', r);
    }
  }

  lemma StepLogged(s: State, a: Action, cfg: Settings)
    requires Families(s) && AllLogged(s)
    ensures AllLogged(Apply(s, a, cfg))
  {
    var s' := Apply(s, a, cfg);
    if a.Refresh? && Rotates(s, a.raw, a.limited) {
      RotationLogged(s, a.raw, a.limited, a.delay, cfg);
    } else if a.Commit? {
      CommitLogged(s, a.h, a.minted, cfg);
    } else {
      forall r | r in s'.tables.tokens && s'.tables.tokens[r].consumedAt.Some?
        ensures Logged(s', r)
      {
        LoggedKept(s, s', r);
      }
    }
  }

  lemma {:induction false} RunLogged(actions: seq<Action>, cfg: Settings)
    ensures AllLogged(Run(actions, cfg))
  {
    if actions != [] {
      RunLogged(actions[..|actions| - 1], cfg);
      RunSound(actions[..|actions| - 1], cfg);
      StepLogged(Run(actions[..|actions| - 1], cfg), actions[|actions| - 1], cfg);
    }
  }

  /**
    A token is consumed exactly by its one successful refresh; nothing else, a rate limit included, ever consumes
    one.
   */
  lemma ConsumedExactlyByRefresh(actions: seq<Action>, cfg: Settings, raw: RawToken)
    requires raw in Run(actions, cfg).tables.tokens
    ensures var s := Run(actions, cfg);
            s.tables.tokens[raw].consumedAt.Some? <==> exists i | 0 <= i < |s.refreshes| :: s.refreshes[i].token == raw
  {
    RunLogged(actions, cfg);
    RunSound(actions, cfg);
    var s := Run(actions, cfg);
    if s.tables.tokens[raw].consumedAt.Some? {
      assert Logged(s, raw);
    }
    forall i | 0 <= i < |s.refreshes| && s.refreshes[i].token == raw
      ensures s.tables.tokens[raw].consumedAt.Some?
    {
      assert RefreshSound(s, i);
    }
  }

  /** Presenting a consumed token of a session revokes that session. */
  lemma ReuseRevokes(actions: seq<Action>, cfg: Settings, raw: RawToken, limited: bool, delay: nat)
    requires raw in Run(actions, cfg).tables.tokens && Run(actions, cfg).tables.tokens[raw].consumedAt.Some?
    ensures var s := Run(actions, cfg);
            var s' := Run(actions + [Refresh(raw, limited, delay)], cfg);
            var id := s.tables.tokens[raw].session;
            && !Rotates(s, raw, limited)
            && id in s'.tables.sessions && s'.tables.sessions[id].revokedAt.Some?
  {
    RunSound(actions, cfg);
    RunOneMore(actions, Refresh(raw, limited, delay), cfg);
    assert TokenListed(Run(actions, cfg), raw);
  }

  /**
    Once the commit that revokes a session has happened, for whatever reason, the session stays revoked and no
    token of it ever refreshes again.
   */
  lemma RevokedForGood(before: seq<Action>, after: seq<Action>, cfg: Settings, id: SessId, raw: RawToken, limited: bool)
    requires var s := Run(before, cfg); id in s.tables.sessions && s.tables.sessions[id].revokedAt.Some?
    ensures var s := Run(before, cfg);
            var s' := Run(before + after, cfg);
            && id in s'.tables.sessions && s'.tables.sessions[id].revokedAt.Some?
            && |s.refreshes| <= |s'.refreshes|
            && (forall i | |s.refreshes| <= i < |s'.refreshes| :: s'.refreshes[i].session != id)
            && (raw in s'.tables.tokens && s'.tables.tokens[raw].session == id ==> !Rotates(s', raw, limited))
  {
    RunSound(before, cfg);
    RunGrows(before, after, cfg);
    assert SessionKept(Run(before, cfg), Run(before + after, cfg), id);
  }

  // ---------------------------------------------------------------- a logout, from read to commit

  predicate NoCommit(actions: seq<Action>, h: PlanId) {
    forall a | a in actions :: !(a.Commit? && a.h == h)
  }

  lemma StepKeepsPlan(s: State, a: Action, cfg: Settings, h: PlanId)
    requires h in s.plans && !(a.Commit? && a.h == h)
    ensures h in Apply(s, a, cfg).plans && Apply(s, a, cfg).plans[h] == s.plans[h]
  {
    hide RefreshVerdict, Rotated, RevokeAll;
  }

  /** Nothing but its commit touches a plan. */
  lemma {:induction false} PlanStays(before: seq<Action>, middle: seq<Action>, cfg: Settings, h: PlanId)
    requires h in Run(before, cfg).plans && NoCommit(middle, h)
    ensures h in Run(before + middle, cfg).plans
    ensures Run(before + middle, cfg).plans[h] == Run(before, cfg).plans[h]
  {
    if middle == [] {
      assert before + middle == before;
    } else {
      var most, last := middle[..|middle| - 1], middle[|middle| - 1];
      assert before + middle == before + most + [last];
      RunOneMore(before + most, last, cfg);
      PlanStays(before, most, cfg, h);
      assert last in middle;
      StepKeepsPlan(Run(before + most, cfg), last, cfg, h);
    }
  }

  /**
    A logout with any token of a session, consumed or not, leaves the session revoked when it commits, whatever
    happened since its reads, unless another logout has denied the same access token in between: then the commit
    is refused as a whole.
   */
  lemma LogoutRevokes(before: seq<Action>, middle: seq<Action>, cfg: Settings, h: PlanId, raw: RawToken,
                      access: Option<AccessToken>, minted: Time)
    requires raw in Run(before, cfg).tables.tokens && h !in Run(before, cfg).plans && NoCommit(middle, h)
    ensures var s := Run(before + [ReadLogout(h, Some(raw), access)] + middle, cfg);
            var s' := Run(before + [ReadLogout(h, Some(raw), access)] + middle + [Commit(h, minted)], cfg);
            var id := Run(before, cfg).tables.tokens[raw].session;
            && h in s.plans
            && (Clashes(s.tables, s.plans[h]) ==> s'.tables == s.tables)
            && (!Clashes(s.tables, s.plans[h]) ==> id in s'.tables.sessions && s'.tables.sessions[id].revokedAt.Some?)
  {
    var read := ReadLogout(h, Some(raw), access);
    RunSound(before, cfg);
    assert TokenListed(Run(before, cfg), raw);
    RunOneMore(before, read, cfg);
    RunSound(before + [read], cfg);
    PlanStays(before + [read], middle, cfg, h);
    RunGrows(before + [read], middle, cfg);
    var id := Run(before, cfg).tables.tokens[raw].session;
    assert SessionKept(Run(before + [read], cfg), Run(before + [read] + middle, cfg), id);
    RunOneMore(before + [read] + middle, Commit(h, minted), cfg);
  }

  /** A genuine token that a logout names is never accepted once the logout has been committed or refused. */
  lemma LoggedOutForGood(before: seq<Action>, middle: seq<Action>, after: seq<Action>, cfg: Settings, h: PlanId,
                         raw: Option<RawToken>, token: AccessToken, minted: Time)
    requires Genuine(Run(before, cfg), token) && h !in Run(before, cfg).plans && NoCommit(middle, h)
    ensures !Accepted(Run(before + [ReadLogout(h, raw, Some(token))] + middle + [Commit(h, minted)] + after, cfg),
        token)
  {
    var read, commit := ReadLogout(h, raw, Some(token)), Commit(h, minted);
    RunSound(before, cfg);
    var s := Run(before, cfg);
    assert MintSound(s, cfg, token.jti);
    RunOneMore(before, read, cfg);
    PlanStays(before + [read], middle, cfg, h);
    RunGrows(before + [read], middle, cfg);
    RunOneMore(before + [read] + middle, commit, cfg);
    RunGrows(before + [read] + middle, [commit], cfg);
    RunGrows(before + [read] + middle + [commit], after, cfg);
  }

  // ---------------------------------------------------------------- life after revocation

  /**
    No access token of a session is accepted `accessMinutes` or more after the commit that revoked the session.
    The row may record an earlier time, that of the reads of the logout or login that revoked it, but never a
    later one.
   */
  lemma BoundedLife(actions: seq<Action>, cfg: Settings, j: Jti)
    requires var s := Run(actions, cfg); j in s.minted && IsRevoked(s.tables, s.minted[j].session)
    ensures var s := Run(actions, cfg);
            var id := s.minted[j].session;
            && id in s.closed && id in s.tables.sessions && s.tables.sessions[id].revokedAt.Some?
            && s.tables.sessions[id].revokedAt.value <= s.closed[id]
            && (s.now >= s.closed[id] + cfg.accessMinutes * MINUTE ==> !Accepted(s, s.minted[j].token))
  {
    RunSound(actions, cfg);
    assert MintSound(Run(actions, cfg), cfg, j);
  }

  /**
    Counted from the recorded time the bound holds for every token issued by then; a token that outlives it was
    issued between the recorded time and the commit. When they are the same instant there is none.
   */
  lemma RecordedBound(actions: seq<Action>, cfg: Settings, j: Jti)
    requires var s := Run(actions, cfg); j in s.minted && IsRevoked(s.tables, s.minted[j].session)
    ensures var s := Run(actions, cfg);
            var mint := s.minted[j];
            && mint.session in s.closed && mint.session in s.tables.sessions
            && s.tables.sessions[mint.session].revokedAt.Some?
            && var recorded := s.tables.sessions[mint.session].revokedAt.value;
            && (s.now >= recorded + cfg.accessMinutes * MINUTE && Accepted(s, mint.token) ==>
                  recorded < mint.at <= s.closed[mint.session])
            && (recorded == s.closed[mint.session] && s.now >= recorded + cfg.accessMinutes * MINUTE ==>
                  !Accepted(s, mint.token))
  {
    RunSound(actions, cfg);
    assert MintSound(Run(actions, cfg), cfg, j);
  }

  /**
    From a reachable state with a revoked session, some continuation accepts a token of the session `accessMinutes` or
    more after the recorded time exactly when the token is neither denied nor expired yet and its whole-second issue
    time is later than the recorded one.
   */
  lemma OutlivesExactly(actions: seq<Action>, cfg: Settings, j: Jti)
    requires var s := Run(actions, cfg); j in s.minted && IsRevoked(s.tables, s.minted[j].session)
    ensures var s := Run(actions, cfg);
            var token := s.minted[j].token;
            && s.minted[j].session in s.tables.sessions
            && s.tables.sessions[s.minted[j].session].revokedAt.Some?
            && var recorded := s.tables.sessions[s.minted[j].session].revokedAt.value;
               (exists after: seq<Action> :: AcceptedFrom(Run(actions + after, cfg), token,
                  recorded + cfg.accessMinutes * MINUTE)) <==>
               token.iat > recorded && s.now < token.exp && j !in s.tables.revoked
  {
    RunSound(actions, cfg);
    var s := Run(actions, cfg);
    assert MintSound(s, cfg, j);
    var token := s.minted[j].token;
    var due := s.tables.sessions[s.minted[j].session].revokedAt.value + cfg.accessMinutes * MINUTE;
    if token.exp > due && s.now < token.exp && j !in s.tables.revoked {
      LastInstant(actions, cfg, j, due);
    }
    forall after: seq<Action> | AcceptedFrom(Run(actions + after, cfg), token, due)
      ensures token.exp > due && s.now < token.exp && j !in s.tables.revoked
    {
      RunGrows(actions, after, cfg);
    }
  }

  predicate AcceptedFrom(s: State, token: AccessToken, due: Time) {
    s.now >= due && Accepted(s, token)
  }

  /** At its last instant, and with its user enabled, an undenied token is accepted. */
  lemma LastInstant(actions: seq<Action>, cfg: Settings, j: Jti, due: Time)
    requires var s := Run(actions, cfg);
             && j in s.minted && MintSound(s, cfg, j) && j !in s.tables.revoked
             && s.now < s.minted[j].token.exp && due < s.minted[j].token.exp
    ensures exists after: seq<Action> ::
              AcceptedFrom(Run(actions + after, cfg), Run(actions, cfg).minted[j].token, due)
  {
    var s := Run(actions, cfg);
    var token := s.minted[j].token;
    var wait, enable := Tick(token.exp - 1 - s.now), SetActive(token.sub, true);
    RunOneMore(actions, wait, cfg);
    RunOneMore(actions + [wait], enable, cfg);
    var after := [wait, enable];
    assert actions + after == actions + [wait] + [enable];
    assert AcceptedFrom(Run(actions + after, cfg), token, due);
  }

  // ---------------------------------------------------------------- the gap between read and commit

  /** Only minted tokens are denied or about to be. */
  ghost predicate DenialsSound(s: State) {
    && (forall j | j in s.tables.revoked :: j in s.minted)
    && (forall h | h in s.plans && s.plans[h].LogoutPlan?
        && s.plans[h].denies.Some? :: s.plans[h].denies.value in s.minted)
  }

  lemma CommitDenials(s: State, h: PlanId, minted: Time, cfg: Settings)
    requires DenialsSound(s)
    ensures DenialsSound(DoCommit(s, h, minted, cfg))
  {
    if h in s.plans && s.plans[h].LoginPlan? && cfg.maxSessions >= 1 {
      var order := s.plans[h].order;
      RevokeAllEffect(s.tables, order[..Excess(|order|, cfg)], s.plans[h].at);
    }
  }

  lemma RefreshDenials(s: State, raw: RawToken, limited: bool, delay: nat, cfg: Settings)
    requires DenialsSound(s)
    ensures DenialsSound(DoRefresh(s, raw, limited, delay, cfg))
  {
  }

  lemma StepDenials(s: State, a: Action, cfg: Settings)
    requires DenialsSound(s)
    ensures DenialsSound(Apply(s, a, cfg))
  {
    hide DoCommit, DoRefresh;
    match a
    case Commit(h, minted) => CommitDenials(s, h, minted, cfg);
    case Refresh(raw, limited, delay) => RefreshDenials(s, raw, limited, delay, cfg);
    case _ =>
  }

  lemma {:induction false} RunDenials(actions: seq<Action>, cfg: Settings)
    ensures DenialsSound(Run(actions, cfg))
  {
    hide Apply;
    if actions != [] {
      RunDenials(actions[..|actions| - 1], cfg);
      StepDenials(Run(actions[..|actions| - 1], cfg), actions[|actions| - 1], cfg);
    }
  }

  /** A logout is read; a second later the same session refreshes; then the logout commits; then time passes. */
  predicate Overtaken(steps: seq<Action>, h: PlanId, raw: RawToken, cfg: Settings) {
    && |steps| == 5 && cfg.accessMinutes >= 1
    && steps[0] == ReadLogout(h, Some(raw), None) && steps[1] == Tick(SECOND) && steps[2] == Refresh(raw, false, 0)
    && steps[3] == Commit(h, 0) && steps[4] == Tick(cfg.accessMinutes * MINUTE - SECOND)
  }

  /** A second after the reads of the logout, nothing else having happened. */
  function ReadASecondAgo(s: State, h: PlanId, raw: RawToken): State
    requires raw in s.tables.tokens
  {
    s.(now := s.now + SECOND, plans := s.plans[h := LogoutPlan(s.now, Some(s.tables.tokens[raw].session), None)])
  }

  lemma OvertakenSteps(s: State, steps: seq<Action>, h: PlanId, raw: RawToken, cfg: Settings)
    requires Overtaken(steps, h, raw, cfg) && h !in s.plans && Rotates(s.(now := s.now + SECOND), raw, false)
    ensures var committed := DoCommit(DoRefresh(ReadASecondAgo(s, h, raw), raw, false, 0, cfg), h, 0, cfg);
            Apply(Apply(Apply(Apply(Apply(s, steps[0], cfg), steps[1], cfg), steps[2], cfg), steps[3], cfg),
              steps[4], cfg)
            == committed.(now := committed.now + (cfg.accessMinutes * MINUTE - SECOND))
  {
    hide DoReadLogin, DoRefresh, DoCommit;
    assert Apply(Apply(s, steps[0], cfg), steps[1], cfg) == ReadASecondAgo(s, h, raw);
  }

  lemma ActiveToRotate(s: State, raw: RawToken)
    requires Rotates(s, raw, false)
    ensures raw in s.tables.tokens && s.tables.tokens[raw].session in s.tables.sessions
    ensures s.tables.sessions[s.tables.tokens[raw].session].user in s.active
  {
  }

  /** A token issued a second after `recorded` is still accepted `accessMinutes` after `recorded`. */
  lemma StillAccepted(s: State, j: Jti, recorded: Time, cfg: Settings)
    requires j in s.minted && j !in s.tables.revoked && s.now == recorded + SECOND && cfg.accessMinutes >= 1
    requires s.minted[j].token == IssueAccess(s.minted[j].token.sub, j, s.now, cfg) && s.minted[j].token.sub in s.active
    ensures Accepted(s.(now := recorded + cfg.accessMinutes * MINUTE), s.minted[j].token)
  {
  }

  lemma OvertakenEnd(s: State, h: PlanId, raw: RawToken, cfg: Settings)
    requires Rotates(s.(now := s.now + SECOND), raw, false) && cfg.accessMinutes >= 1
    requires s.nextJti !in s.minted && s.nextJti !in s.tables.revoked
    ensures var s' := DoCommit(DoRefresh(ReadASecondAgo(s, h, raw), raw, false, 0, cfg), h, 0, cfg);
            var end := s'.(now := s'.now + (cfg.accessMinutes * MINUTE - SECOND));
            var id := s.tables.tokens[raw].session;
            && id in end.tables.sessions && end.tables.sessions[id].revokedAt == Some(s.now)
            && end.now == s.now + cfg.accessMinutes * MINUTE
            && s.nextJti in end.minted && end.minted[s.nextJti].session == id
            && Accepted(end, end.minted[s.nextJti].token)
  {
    var read := ReadASecondAgo(s, h, raw);
    ActiveToRotate(read, raw);
    OvertakenCommit(read, h, raw, cfg);
    hide Accepted, DoRefresh, DoCommit, Rotates;
    StillAccepted(DoCommit(DoRefresh(read, raw, false, 0, cfg), h, 0, cfg), s.nextJti, s.now, cfg);
  }

  lemma OvertakenCommit(s: State, h: PlanId, raw: RawToken, cfg: Settings)
    requires h in s.plans && Rotates(s, raw, false)
    requires s.plans[h].LogoutPlan? && s.plans[h].session == Some(s.tables.tokens[raw].session)
        && s.plans[h].denies == None
    ensures var s' := DoCommit(DoRefresh(s, raw, false, 0, cfg), h, 0, cfg);
            var id := s.tables.tokens[raw].session;
            && s'.now == s.now && s'.active == s.active && s'.tables.revoked == s.tables.revoked
            && s.nextJti in s'.minted
            && s'.minted[s.nextJti] == Mint(IssueAccess(s.tables.sessions[id].user, s.nextJti, s.now, cfg), id, s.now)
            && id in s'.tables.sessions && s'.tables.sessions[id].revokedAt == Some(s.plans[h].at)
  {
  }

  lemma FreshJti(actions: seq<Action>, cfg: Settings)
    ensures Run(actions, cfg).nextJti !in Run(actions, cfg).minted
    ensures Run(actions, cfg).nextJti !in Run(actions, cfg).tables.revoked
  {
    hide Apply;
    RunSound(actions, cfg);
    RunDenials(actions, cfg);
    UnmintedJti(Run(actions, cfg), cfg);
  }

  /**
    The bound does not hold from the recorded time: from every reachable state in which a token could be refreshed a
    second later, a refresh that overtakes the commit of a logout gives an access token that is still accepted
    `accessMinutes` after the time recorded for the revocation.
   */
  lemma RefreshOvertakesLogout(actions: seq<Action>, steps: seq<Action>, cfg: Settings, h: PlanId, raw: RawToken)
    requires Overtaken(steps, h, raw, cfg) && h !in Run(actions, cfg).plans
    requires var s := Run(actions, cfg); Rotates(s.(now := s.now + SECOND), raw, false)
    ensures var s, s' := Run(actions, cfg), Run(actions + steps, cfg);
            var id := s.tables.tokens[raw].session;
            && id in s'.tables.sessions && s'.tables.sessions[id].revokedAt == Some(s.now)
            && s'.now == s.now + cfg.accessMinutes * MINUTE
            && s.nextJti in s'.minted && s'.minted[s.nextJti].session == id
            && Accepted(s', s'.minted[s.nextJti].token)
  {
    hide Accepted, Apply, DoRefresh, DoCommit, Rotates, Sound, DenialsSound;
    var s := Run(actions, cfg);
    FreshJti(actions, cfg);
    FiveMore(actions, steps, cfg);
    OvertakenSteps(s, steps, h, raw, cfg);
    OvertakenEnd(s, h, raw, cfg);
  }

  lemma FiveMore(actions: seq<Action>, steps: seq<Action>, cfg: Settings)
    requires |steps| == 5
    ensures var s := Run(actions, cfg);
            Run(actions + steps, cfg)
            == Apply(Apply(Apply(Apply(Apply(s, steps[0], cfg), steps[1], cfg), steps[2], cfg), steps[3], cfg),
              steps[4], cfg)
  {
    assert actions + steps == actions + [steps[0]] + [steps[1]] + [steps[2]] + [steps[3]] + [steps[4]];
    RunOneMore(actions, steps[0], cfg);
    RunOneMore(actions + [steps[0]], steps[1], cfg);
    RunOneMore(actions + [steps[0]] + [steps[1]], steps[2], cfg);
    RunOneMore(actions + [steps[0]] + [steps[1]] + [steps[2]], steps[3], cfg);
    RunOneMore(actions + [steps[0]] + [steps[1]] + [steps[2]] + [steps[3]], steps[4], cfg);
  }
}
