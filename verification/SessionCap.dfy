/** The session cap: what a login leaves, when it holds over runs, and why logins of one user must not overlap. */
module SessionCap {
  import opened Auth
  import opened AuthRuns

  ghost function ActiveSet(t: Tables, user: UserId): set<SessId> {
    set id | id in t.sessions && ActiveSession(t, user, id)
  }

  function Ids(order: seq<SessId>): set<SessId> {
    set id | id in order
  }

  lemma {:induction false} IdsSize(order: seq<SessId>)
    requires forall i, j | 0 <= i < j < |order| :: order[i] != order[j]
    ensures |Ids(order)| == |order|
  {
    if order == [] {
      assert Ids(order) == {};
    } else {
      var most := order[..|order| - 1];
      IdsSize(most);
      assert order == most + [order[|order| - 1]];
      assert Ids(order) == Ids(most) + {order[|order| - 1]};
      assert order[|order| - 1] !in most;
    }
  }

  lemma KeptIsNotGone(order: seq<SessId>, excess: nat, id: SessId)
    requires excess <= |order| && id in order[excess..]
    requires forall i, j | 0 <= i < j < |order| :: order[i] != order[j]
    ensures id in order && id !in order[..excess]
  {
    var j :| 0 <= j < |order[excess..]| && order[excess..][j] == id;
    assert order[excess + j] == id;
  }

  /** Of the listed sessions exactly those beyond the excess stay active. */
  lemma CapKeeps(t: Tables, order: seq<SessId>, user: UserId, excess: nat, now: Time, other: SessId)
    requires ActiveInOrder(t, user, order) && excess <= |order|
    ensures ActiveSession(RevokeAll(t, order[..excess], now), user, other) <==> other in order[excess..]
  {
    hide RevokeAll;
    RevokeAllEffect(t, order[..excess], now);
    assert order == order[..excess] + order[excess..];
    assert other in order <==> ActiveSession(t, user, other);
    if other in order[excess..] {
      KeptIsNotGone(order, excess, other);
    }
  }

  lemma CapLeaves(t: Tables, order: seq<SessId>, user: UserId, id: SessId, issued: RawToken, now: Time, cfg: Settings)
    requires ValidSettings(cfg) && ActiveInOrder(t, user, order) && id !in t.sessions
    ensures var t' := AfterLogin(t, order, user, id, issued, now, cfg);
            ActiveSet(t', user) == {id} + Ids(order[Excess(|order|, cfg)..]) && id !in order
  {
    hide RevokeAll;
    assert id in order <==> ActiveSession(t, user, id);
    var excess := Excess(|order|, cfg);
    var t' := AfterLogin(t, order, user, id, issued, now, cfg);
    forall other
      ensures other in ActiveSet(t', user) <==> other in {id} + Ids(order[excess..])
    {
      CapKeeps(t, order, user, excess, now, other);
    }
  }

  lemma OlderGo(t: Tables, order: seq<SessId>, user: UserId, excess: nat, gone: SessId, stays: SessId)
    requires ActiveInOrder(t, user, order) && excess <= |order| && gone in order[..excess] && stays in order[excess..]
    ensures gone in t.sessions && stays in t.sessions && t.sessions[gone].createdAt <= t.sessions[stays].createdAt
  {
    var i :| 0 <= i < excess && order[..excess][i] == gone;
    var j :| 0 <= j < |order| - excess && order[excess..][j] == stays;
    assert order[i] == gone && order[excess + j] == stays;
    assert gone in order && stays in order;
    assert ActiveSession(t, user, gone) && ActiveSession(t, user, stays);
  }

  lemma OldestGo(t: Tables, order: seq<SessId>, user: UserId, excess: nat)
    requires ActiveInOrder(t, user, order) && excess <= |order|
    ensures forall gone, stays | gone in order[..excess] && stays in order[excess..] ::
              gone in t.sessions && stays in t.sessions && t.sessions[gone].createdAt <= t.sessions[stays].createdAt
  {
    forall gone, stays | gone in order[..excess] && stays in order[excess..]
      ensures gone in t.sessions && stays in t.sessions && t.sessions[gone].createdAt <= t.sessions[stays].createdAt
    {
      OlderGo(t, order, user, excess, gone, stays);
    }
  }

  lemma OtherUsersKept(t: Tables, order: seq<SessId>, user: UserId, id: SessId, issued: RawToken, now: Time,
                       cfg: Settings)
    requires ValidSettings(cfg) && ActiveInOrder(t, user, order) && id !in t.sessions
    ensures var t' := AfterLogin(t, order, user, id, issued, now, cfg);
            forall other | other in t.sessions && t.sessions[other].user != user ::
              other in t'.sessions && t'.sessions[other] == t.sessions[other]
  {
    var gone := order[..Excess(|order|, cfg)];
    RevokeAllEffect(t, gone, now);
    forall other | other in t.sessions && t.sessions[other].user != user
      ensures other !in gone
    {
      assert !ActiveSession(t, user, other);
    }
  }

  /**
    A login that sees all unrevoked sessions leaves the new one plus the newest min(n, max - 1) old ones:
    at most the maximum. Sessions of other users do not change.
   */
  lemma LoginKeepsCap(t: Tables, order: seq<SessId>, user: UserId, id: SessId, issued: RawToken, now: Time,
                      cfg: Settings)
    requires ValidSettings(cfg) && ActiveInOrder(t, user, order) && id !in t.sessions
    ensures var t' := AfterLogin(t, order, user, id, issued, now, cfg);
            var kept := order[Excess(|order|, cfg)..];
            && |kept| == (if |order| <= cfg.maxSessions - 1 then |order| else cfg.maxSessions - 1)
            && ActiveSet(t', user) == {id} + Ids(kept)
            && |ActiveSet(t', user)| == |kept| + 1 <= cfg.maxSessions
            && (forall gone, stays | gone in order[..Excess(|order|, cfg)] && stays in kept ::
                  gone in t.sessions && stays in t.sessions
                    && t.sessions[gone].createdAt <= t.sessions[stays].createdAt)
            && (forall other | other in t.sessions && t.sessions[other].user != user ::
                  other in t'.sessions && t'.sessions[other] == t.sessions[other])
  {
    hide AfterLogin, ActiveSession;
    var excess := Excess(|order|, cfg);
    var kept := order[excess..];
    CapLeaves(t, order, user, id, issued, now, cfg);
    IdsSize(kept);
    assert id !in Ids(kept);
    OldestGo(t, order, user, excess);
    OtherUsersKept(t, order, user, id, issued, now, cfg);
  }

  /** A login whose list names no active session to revoke only adds its own. */
  lemma StaleLoginAdds(t: Tables, order: seq<SessId>, user: UserId, id: SessId, issued: RawToken, now: Time,
                       cfg: Settings)
    requires ValidSettings(cfg) && id !in t.sessions
    requires forall other | other in order[..Excess(|order|, cfg)] :: other !in ActiveSet(t, user)
    ensures ActiveSet(AfterLogin(t, order, user, id, issued, now, cfg), user) == ActiveSet(t, user) + {id}
    ensures id !in ActiveSet(t, user)
  {
    RevokeAllEffect(t, order[..Excess(|order|, cfg)], now);
  }

  lemma OverrunBy(t: Tables, order: seq<SessId>, user: UserId, id: SessId, second: SessId,
                  issued: RawToken, reissued: RawToken, now: Time, cfg: Settings)
    requires ValidSettings(cfg) && ActiveInOrder(t, user, order)
    requires id !in t.sessions && second !in t.sessions && id != second
    ensures var t' := AfterLogin(t, order, user, id, issued, now, cfg);
            var t'' := AfterLogin(t', order, user, second, reissued, now, cfg);
            |ActiveSet(t'', user)| == |ActiveSet(t', user)| + 1
  {
    var t' := AfterLogin(t, order, user, id, issued, now, cfg);
    var excess := Excess(|order|, cfg);
    RevokeAllEffect(t, order[..excess], now);
    CapLeaves(t, order, user, id, issued, now, cfg);
    forall other | other in order[..excess]
      ensures other !in ActiveSet(t', user)
    {
      if other in Ids(order[excess..]) {
        KeptIsNotGone(order, excess, other);
      }
    }
    StaleLoginAdds(t', order, user, second, reissued, now, cfg);
  }

  /** On tables: two commits from one query answer overrun the cap exactly when max - 1 sessions were active. */
  lemma StaleCommitsOverrun(t: Tables, order: seq<SessId>, user: UserId, id: SessId, second: SessId,
                            issued: RawToken, reissued: RawToken, now: Time, cfg: Settings)
    requires ValidSettings(cfg) && ActiveInOrder(t, user, order)
    requires id !in t.sessions && second !in t.sessions && id != second
    ensures var t' := AfterLogin(t, order, user, id, issued, now, cfg);
            var t'' := AfterLogin(t', order, user, second, reissued, now, cfg);
            |ActiveSet(t'', user)| > cfg.maxSessions <==> |order| >= cfg.maxSessions - 1
  {
    LoginKeepsCap(t, order, user, id, issued, now, cfg);
    OverrunBy(t, order, user, id, second, issued, reissued, now, cfg);
  }

  // ---------------------------------------------------------------- over runs

  lemma {:induction false} SubsetSize(a: set<SessId>, b: set<SessId>)
    requires a <= b
    ensures |a| <= |b|
  {
    if a != {} {
      var x :| x in a;
      SubsetSize(a - {x}, b - {x});
    }
  }

  /** If the plan is a login of this user, it saw every session of the user that is unrevoked now. */
  predicate SawAll(s: State, h: PlanId, user: UserId) {
    h in s.plans && s.plans[h].LoginPlan? && s.plans[h].user == user ==>
      forall id | id in s.tables.sessions && ActiveSession(s.tables, user, id) :: id in s.plans[h].order
  }

  ghost predicate WithinCap(s: State, user: UserId, cfg: Settings) {
    |ActiveSet(s.tables, user)| <= cfg.maxSessions
  }

  /** Only the commit of a login adds a session to a user. */
  lemma OthersAddNone(s: State, a: Action, user: UserId, cfg: Settings)
    requires !a.Commit?
    ensures ActiveSet(Apply(s, a, cfg).tables, user) <= ActiveSet(s.tables, user)
  {
  }

  lemma CommitAdds(s: State, h: PlanId, minted: Time, user: UserId, cfg: Settings)
    requires cfg.maxSessions >= 1 && h in s.plans && s.plans[h].LoginPlan?
    ensures var plan := s.plans[h];
            var gone := plan.order[..Excess(|plan.order|, cfg)];
            ActiveSet(DoCommit(s, h, minted, cfg).tables, user)
            <= if plan.at <= minted <= s.now
               then (set id | id in ActiveSet(s.tables, user)
                 && id !in gone) + (if plan.user == user then {s.nextSession} else {})
               else ActiveSet(s.tables, user)
  {
    var plan := s.plans[h];
    RevokeAllEffect(s.tables, plan.order[..Excess(|plan.order|, cfg)], plan.at);
  }

  lemma LogoutAddsNone(s: State, h: PlanId, minted: Time, user: UserId, cfg: Settings)
    requires !(h in s.plans && s.plans[h].LoginPlan?)
    ensures ActiveSet(DoCommit(s, h, minted, cfg).tables, user) <= ActiveSet(s.tables, user)
  {
  }

  lemma CommitKeepsCap(s: State, h: PlanId, minted: Time, user: UserId, cfg: Settings)
    requires ValidSettings(cfg) && PlansSound(s) && SawAll(s, h, user) && WithinCap(s, user, cfg)
    ensures WithinCap(DoCommit(s, h, minted, cfg), user, cfg)
  {
    hide DoCommit, ActiveSession;
    var before, after := ActiveSet(s.tables, user), ActiveSet(DoCommit(s, h, minted, cfg).tables, user);
    if h in s.plans && s.plans[h].LoginPlan? {
      var plan := s.plans[h];
      CommitAdds(s, h, minted, user, cfg);
      if plan.user == user && plan.at <= minted <= s.now {
        var excess := Excess(|plan.order|, cfg);
        assert PlanSound(s, h);
        assert plan.order == plan.order[..excess] + plan.order[excess..];
        IdsSize(plan.order[excess..]);
        SubsetSize(after, Ids(plan.order[excess..]) + {s.nextSession});
      } else {
        SubsetSize(after, before);
      }
    } else {
      LogoutAddsNone(s, h, minted, user, cfg);
      SubsetSize(after, before);
    }
  }

  /** Every login of the user saw, when it committed, all sessions of the user that were unrevoked then. */
  ghost predicate LoginsSeeAll(actions: seq<Action>, user: UserId, cfg: Settings) {
    forall k: nat {:trigger SeesAll(actions, k, user, cfg)} | k < |actions| :: SeesAll(actions, k, user, cfg)
  }

  ghost predicate SeesAll(actions: seq<Action>, k: nat, user: UserId, cfg: Settings)
    requires k < |actions|
  {
    actions[k].Commit? ==> SawAll(Run(actions[..k], cfg), actions[k].h, user)
  }

  /**
    Over every run in which each login of the user sees all sessions that are unrevoked at its commit, the user never
    has more than the maximum.
   */
  lemma {:induction false} CapOverRuns(actions: seq<Action>, user: UserId, cfg: Settings)
    requires ValidSettings(cfg) && LoginsSeeAll(actions, user, cfg)
    ensures WithinCap(Run(actions, cfg), user, cfg)
  {
    if actions == [] {
      assert ActiveSet(INITIAL.tables, user) == {};
    } else {
      var most, last := actions[..|actions| - 1], actions[|actions| - 1];
      forall k: nat | k < |most|
        ensures SeesAll(most, k, user, cfg)
      {
        assert SeesAll(actions, k, user, cfg);
        assert most[..k] == actions[..k];
      }
      CapOverRuns(most, user, cfg);
      var s := Run(most, cfg);
      if last.Commit? {
        assert SeesAll(actions, |most|, user, cfg);
        RunSound(most, cfg);
        CommitKeepsCap(s, last.h, last.minted, user, cfg);
      } else {
        OthersAddNone(s, last, user, cfg);
        SubsetSize(ActiveSet(Apply(s, last, cfg).tables, user), ActiveSet(s.tables, user));
      }
    }
  }

  /** The commit at position `k` of a login of the user comes right after its reads. */
  ghost predicate AtOnce(actions: seq<Action>, k: nat, user: UserId, cfg: Settings)
    requires k < |actions|
  {
    actions[k].Commit? ==>
      var s := Run(actions[..k], cfg);
      var h := actions[k].h;
      h in s.plans && s.plans[h].LoginPlan? && s.plans[h].user == user ==>
        k > 0 && actions[k - 1].ReadLogin? && actions[k - 1].h == h && h !in Run(actions[..k - 1], cfg).plans
  }

  lemma AtOnceSeesAll(actions: seq<Action>, k: nat, user: UserId, cfg: Settings)
    requires k < |actions| && AtOnce(actions, k, user, cfg)
    ensures SeesAll(actions, k, user, cfg)
  {
    if actions[k].Commit? && k > 0 {
      assert actions[..k] == actions[..k - 1] + [actions[k - 1]];
      RunOneMore(actions[..k - 1], actions[k - 1], cfg);
    }
  }

  /** When no operation comes between the reads and the commit of a login, the cap holds for every run. */
  lemma SerialisedLoginsKeepCap(actions: seq<Action>, user: UserId, cfg: Settings)
    requires ValidSettings(cfg) && forall k: nat | k < |actions| :: AtOnce(actions, k, user, cfg)
    ensures WithinCap(Run(actions, cfg), user, cfg)
  {
    forall k: nat | k < |actions|
      ensures SeesAll(actions, k, user, cfg)
    {
      AtOnceSeesAll(actions, k, user, cfg);
    }
    CapOverRuns(actions, user, cfg);
  }

  // ---------------------------------------------------------------- overlapping logins

  /** Two logins of one user query, one after the other, before either commits. */
  predicate BothInFlight(steps: seq<Action>, h: PlanId, k: PlanId, user: UserId, order: seq<SessId>, now: Time) {
    && |steps| == 4 && h != k
    && steps[0] == ReadLogin(h, user, true, order) && steps[1] == ReadLogin(k, user, true, order)
    && steps[2] == Commit(h, now) && steps[3] == Commit(k, now)
  }

  /** Both logins have read. */
  ghost function BothRead(s: State, h: PlanId, k: PlanId, user: UserId, order: seq<SessId>): State {
    DoReadLogin(DoReadLogin(s, h, user, true, order), k, user, true, order)
  }

  /** A login that commits at the instant of its reads. */
  lemma CommitsAtOnce(s: State, h: PlanId, user: UserId, order: seq<SessId>, cfg: Settings)
    requires cfg.maxSessions >= 1 && h in s.plans && s.plans[h] == LoginPlan(s.now, user, order)
    ensures var s' := DoCommit(s, h, s.now, cfg);
            && s'.tables == AfterLogin(s.tables, order, user, s.nextSession, s.nextToken, s.now, cfg)
            && s'.plans == s.plans - {h} && s'.now == s.now
            && s'.nextSession == s.nextSession + 1 && s'.nextToken == s.nextToken + 1
  {
    hide RevokeAll, ClosedIn;
  }

  lemma OverlappingTables(s: State, h: PlanId, k: PlanId, user: UserId, order: seq<SessId>, cfg: Settings)
    requires ValidSettings(cfg) && h !in s.plans && k !in s.plans && h != k && user in s.active
    requires ActiveInOrder(s.tables, user, order)
    ensures var t' := AfterLogin(s.tables, order, user, s.nextSession, s.nextToken, s.now, cfg);
            DoCommit(DoCommit(BothRead(s, h, k, user, order), h, s.now, cfg), k, s.now, cfg).tables
            == AfterLogin(t', order, user, s.nextSession + 1, s.nextToken + 1, s.now, cfg)
  {
    hide ActiveInOrder, AfterLogin, DoCommit;
    var read := BothRead(s, h, k, user, order);
    CommitsAtOnce(read, h, user, order, cfg);
    CommitsAtOnce(DoCommit(read, h, s.now, cfg), k, user, order, cfg);
  }

  /**
    From every reachable state, two logins of a user that both query before either commits leave the user above the
    maximum exactly when at least `max - 1` sessions were active.
   */
  lemma OverlappingLoginsOverrun(actions: seq<Action>, steps: seq<Action>, h: PlanId, k: PlanId, user: UserId,
                                 order: seq<SessId>, cfg: Settings)
    requires ValidSettings(cfg) && BothInFlight(steps, h, k, user, order, Run(actions, cfg).now)
    requires var s := Run(actions, cfg);
             h !in s.plans && k !in s.plans && user in s.active && ActiveInOrder(s.tables, user, order)
    ensures !WithinCap(Run(actions + steps, cfg), user, cfg) <==>
        |ActiveSet(Run(actions, cfg).tables, user)| >= cfg.maxSessions - 1
  {
    hide DoCommit, DoReadLogin, ActiveInOrder, AfterLogin, ActiveSet;
    var s := Run(actions, cfg);
    FourMore(actions, steps, cfg);
    OverlappingTables(s, h, k, user, order, cfg);
    assert Families(s) by {
      RunSound(actions, cfg);
    }
    UnusedSession(s, s.nextSession);
    UnusedSession(s, s.nextSession + 1);
    StaleCommitsOverrun(s.tables, order, user, s.nextSession, s.nextSession + 1, s.nextToken, s.nextToken + 1, s.now,
      cfg);
    ActiveCount(s.tables, order, user);
  }

  lemma ActiveCount(t: Tables, order: seq<SessId>, user: UserId)
    requires ActiveInOrder(t, user, order)
    ensures |ActiveSet(t, user)| == |order|
  {
    IdsSize(order);
    assert ActiveSet(t, user) == Ids(order);
  }

  lemma FourMore(actions: seq<Action>, steps: seq<Action>, cfg: Settings)
    requires |steps| == 4
    ensures Run(actions + steps, cfg)
            == Apply(Apply(Apply(Apply(Run(actions, cfg), steps[0], cfg), steps[1], cfg), steps[2], cfg), steps[3], cfg)
  {
    assert actions + steps == actions + [steps[0]] + [steps[1]] + [steps[2]] + [steps[3]];
    RunOneMore(actions, steps[0], cfg);
    RunOneMore(actions + [steps[0]], steps[1], cfg);
    RunOneMore(actions + [steps[0]] + [steps[1]], steps[2], cfg);
    RunOneMore(actions + [steps[0]] + [steps[1]] + [steps[2]], steps[3], cfg);
  }
}
