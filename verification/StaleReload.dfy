/**
 The reload between pages that does not name a cursor version (src/market_intelligence/collection/control_plane.py): the
 runs in which it hits a row of an earlier version, and what becomes of them.
 */
module StaleReload {
  import opened Keys
  import opened Windows
  import opened Continuation
  import opened Pages
  import opened Downstream
  import opened ControlPlane
  import opened PlaneInvariant
  import opened PlaneCommit
  import opened PlaneTheorems
  import opened PlaneGuards
  import opened PlaneProgress

  /** A first page with facts, rows left, and a next state everyone accepts. */
  predicate FirstPageGoesOn(env: Env, t: Target, c: Config) {
    var page := env.provider(c, t.batchLimit, Start);
    && page.Some? && page.value.facts != [] && DistinctIds(page.value.facts) && page.value.more && !page.value.incomplete
    && page.value.next != Start && InDomain(t.api, c, page.value.next) && Storable(t, page.value.next)
  }

  /** None of its items was first stored under another account. */
  predicate FirstPageClear(env: Env, t: Target, c: Config, store: Store) {
    var page := env.provider(c, t.batchLimit, Start);
    page.Some? ==> Clear(store, page.value.facts)
  }

  /** A row of another version that has no checkpoint. */
  predicate OldRow(db: Db, v: nat) {
    v in db.cursors && v != db.target.cursorVersion && db.cursors[v].value.None?
  }

  ghost predicate AtFirstRequest(env: Env, s: Sys) {
    && AtSyncedRequest(env, s) && s.worker.session.token.state == Start && s.worker.session.index == 0
    && s.worker.session.run < |s.db.runs| && PagesPerRun(s.db.target) >= 2
    && s.db.runs[s.worker.session.run].requests == 1
    && FirstPageGoesOn(env, s.db.target, s.worker.session.config)
    && FirstPageClear(env, s.db.target, s.worker.session.config, s.db.store)
  }

  /** After a page that is not final the session holds the row the reload hit. */
  lemma GoesOnWith(env: Env, s: Sys, v: nat)
    requires AtFirstRequest(env, s) && v in s.db.cursors && v != s.db.target.cursorVersion
    ensures var t, x := Step(env, s, Answer(v)), s.worker.session;
            && t.worker.Ready? && t.worker.session.run == x.run < |s.db.runs| && t.worker.session.snapshot == Some(s.db.cursors[v])
            && |t.db.runs| == |s.db.runs| && t.db.target == s.db.target && Current(t.db).value.Some?
            && t.db.runs[x.run].requests == s.db.runs[x.run].requests && t.db.runs[x.run].pages == s.db.runs[x.run].pages + 1
  {
    var x := s.worker.session;
    assert x.limit == s.db.target.batchLimit by { ReachableInv(env, s); }
    var r, saved := CommitShape(env, s, v);
    RunningMaxExact(x.cursor, r.page.facts);
    assert Step(env, s, Answer(v)) == AnswerStep(env, s, v);
  }

  /** The first page is committed, and the session goes on with the checkpoint of the row the reload hit. */
  lemma HitsOldRow(env: Env, s: Sys, v: nat)
    requires AtFirstRequest(env, s) && OldRow(s.db, v)
    ensures var t := Step(env, s, Answer(v));
            && Reachable(env, t) && t.worker.Ready? && !Synced(t.db, t.worker.session) && t.db.target == s.db.target
            && t.worker.session.run == s.worker.session.run < |t.db.runs|
            && t.db.runs[t.worker.session.run].requests == 1 && t.db.runs[t.worker.session.run].pages == 1
  {
    ReachableStep(env, s, Answer(v));
    GoesOnWith(env, s, v);
    assert s.db.runs[s.worker.session.run].pages == 0 by {
      ReachableInv(env, s);
    }
  }

  lemma ChargesAgain(s: Sys)
    requires s.worker.Ready? && s.worker.session.run < |s.db.runs| && PagesPerRun(s.db.target) >= 2 && s.db.target.status.Active?
    requires var r := s.db.runs[s.worker.session.run]; r.requests == 1 && r.pages == 1
    ensures var t := ChargeStep(s);
            && t.worker == Charged(s.worker.session) && t.db.target == s.db.target && Current(t.db) == Current(s.db)
            && |t.db.runs| == |s.db.runs| && t.db.runs[s.worker.session.run].pages == 1
  {
  }

  /** The second page fails: nothing is written after the first. */
  lemma SecondPageFails(env: Env, s: Sys, v: nat, again: nat)
    requires AtFirstRequest(env, s) && OldRow(s.db, v)
    ensures var t := Exec(env, s, [Answer(v), Charge]);
            && Reachable(env, t) && t.worker.Charged? && !Synced(t.db, t.worker.session)
            && t.worker.session.run < |t.db.runs| && t.db.runs[t.worker.session.run].pages == 1
            && Step(env, t, Answer(again)) == Sys(FinishError(t.db, t.worker.session.run, t.worker.session.revision,
                                                              Refuses(env, t.db, t.worker.session)), Idle)
  {
    HitsOldRow(env, s, v);
    var u := Step(env, s, Answer(v));
    ExecConcat(env, s, [Answer(v)], [Charge]);
    assert [Answer(v)] + [Charge] == [Answer(v), Charge];
    ExecOne(env, s, Answer(v));
    ExecOne(env, u, Charge);
    ReachableStep(env, u, Charge);
    ChargesAgain(u);
    var t := Step(env, u, Charge);
    ReachableInv(env, t);
    StaleFails(env, t, again);
  }

  /** A fixed-window target, and its revision under another cursor version. */
  ghost predicate Revises(env: Env, t1: Target, t2: Target) {
    && ValidTarget(t1) && t1.status.Active? && t1.config.spec.Fixed? && PagesPerRun(t1) >= 2
    && t2 == t1.(revision := t1.revision + 1, cursorVersion := t2.cursorVersion) && t2.cursorVersion != t1.cursorVersion
    && FirstPageGoesOn(env, t1, ResolvedConfig(Loaded(t1), t1.config.spec.window))
  }

  predicate Quiet(a: Db, b: Db) {
    && b.target == a.target.(status := Paused) && RunningFrom(b.runs, 0).None? && !Pending(b)
    && b.store == a.store && b.cursors.Keys == a.cursors.Keys && (forall v :: v in a.cursors ==> b.cursors[v].value == a.cursors[v].value)
  }

  lemma AbandonsQuietly(db: Db, run: nat)
    requires db.target.status.Active? && RunningFrom(FinishLockLost(db, run).runs, 0).None?
    ensures Quiet(db, Abandon(PauseForAbandon(FinishLockLost(db, run))))
  {
  }

  /** A lost dispatch, paused and abandoned: no run, no continuation, every row keeps its checkpoint. */
  lemma LostAndAbandoned(env: Env, s: Sys)
    requires Reachable(env, s) && s.worker.Ready? && s.db.target.status.Active?
    ensures var t := Step(env, Step(env, Step(env, s, LockLost), Pause), AbandonPending);
            Reachable(env, t) && t.worker.Idle? && Quiet(s.db, t.db)
  {
    ReachableStep(env, s, LockLost);
    ReachableStep(env, Step(env, s, LockLost), Pause);
    ReachableStep(env, Step(env, Step(env, s, LockLost), Pause), AbandonPending);
    assert RunningFrom(FinishLockLost(s.db, s.worker.session.run).runs, 0).None? by {
      ReachableInv(env, s);
      LostRests(env, s);
    }
    AbandonsQuietly(s.db, s.worker.session.run);
  }

  lemma RevisesFrom(env: Env, s: Sys, t1: Target, t2: Target)
    requires Reachable(env, s) && s.worker.Idle? && s.db.target == t1.(status := Paused) && Revises(env, t1, t2)
    requires RunningFrom(s.db.runs, 0).None? && !Pending(s.db) && s.db.cursors.Keys == {t1.cursorVersion}
    requires s.db.cursors[t1.cursorVersion].value.None?
    ensures var t := Step(env, s, Revise(t2));
            && Reachable(env, t) && t.worker.Idle? && t.db.target == t2 && OldRow(t.db, t1.cursorVersion)
            && t2.cursorVersion !in t.db.cursors && RunningFrom(t.db.runs, 0).None? && t.db.store == s.db.store
  {
    ReachableStep(env, s, Revise(t2));
    assert MayRevise(s.db, t2);
  }

  /** One abandoned dispatch leaves a row of the first version without continuation or checkpoint. */
  lemma LeavesOldRow(env: Env, s: Sys, now: Clock, t2: Target)
    requires Initial(s) && Revises(env, s.db.target, t2)
    ensures var t := Exec(env, s, ([Begin(now)] + [ResolveConfig]) + [LockLost, Pause, AbandonPending, Revise(t2)]);
            && Reachable(env, t) && t.worker.Idle? && t.db.target == t2 && OldRow(t.db, s.db.target.cursorVersion)
            && t2.cursorVersion !in t.db.cursors && RunningFrom(t.db.runs, 0).None? && t.db.store == s.db.store
  {
    var a := Exec(env, s, [Begin(now)] + [ResolveConfig]);
    assert s == Exec(env, s, []);
    assert Reachable(env, s);
    Opens(env, s, now);
    OnlyCurrent(env, s, now);
    LostAndAbandoned(env, a);
    RevisesFrom(env, Step(env, Step(env, Step(env, a, LockLost), Pause), AbandonPending), s.db.target, t2);
    ExecFour(env, s, [Begin(now)] + [ResolveConfig], LockLost, Pause, AbandonPending, Revise(t2));
  }

  lemma LostRests(env: Env, s: Sys)
    requires Inv(env, s) && s.worker.Ready?
    ensures RunningFrom(Step(env, s, LockLost).db.runs, 0).None?
  {
    var i := s.worker.session.run;
    assert forall k :: 0 <= k < |s.db.runs| && k != i ==> !s.db.runs[k].status.Running?;
  }

  /** The first dispatch of a target creates the row of its version and no other, with no checkpoint. */
  lemma OnlyCurrent(env: Env, s: Sys, now: Clock)
    requires Initial(s) && s.db.target.status.Active?
    ensures var t := Exec(env, s, [Begin(now)] + [ResolveConfig]);
            && t.db.cursors.Keys <= {s.db.target.cursorVersion} && Current(t.db).value.None?
  {
    ExecConcat(env, s, [Begin(now)], [ResolveConfig]);
    ExecOne(env, s, Begin(now));
    ExecOne(env, Step(env, s, Begin(now)), ResolveConfig);
  }

  lemma ExecFour(env: Env, s: Sys, head: seq<Action>, a: Action, b: Action, c: Action, d: Action)
    ensures Exec(env, s, head + [a, b, c, d]) ==
              Step(env, Step(env, Step(env, Step(env, Exec(env, s, head), a), b), c), d)
  {
    assert head + [a, b, c, d] == (((head + [a]) + [b]) + [c]) + [d];
    ExecConcat(env, s, head, [a]);
    ExecOne(env, Exec(env, s, head), a);
    ExecConcat(env, s, head + [a], [b]);
    ExecOne(env, Exec(env, s, head + [a]), b);
    ExecConcat(env, s, (head + [a]) + [b], [c]);
    ExecOne(env, Exec(env, s, (head + [a]) + [b]), c);
    ExecConcat(env, s, ((head + [a]) + [b]) + [c], [d]);
    ExecOne(env, Exec(env, s, ((head + [a]) + [b]) + [c]), d);
  }

  lemma ChargesFirst(env: Env, s: Sys)
    requires Poised(env, s) && ReadySynced(s) && AtFreshRun(s) && s.worker.session.index == 0
    ensures var t := Step(env, s, Charge);
            && AtSyncedRequest(env, t) && t.worker.session == s.worker.session && t.db.target == s.db.target
            && t.db.cursors == s.db.cursors && t.db.store == s.db.store && s.worker.session.run < |t.db.runs|
            && t.db.runs[s.worker.session.run].requests == 1
  {
    ReachableStep(env, s, Charge);
    ReachableInv(env, s);
    ChargeOutcome(s);
  }

  lemma SessionOfPending(env: Env, s: Sys)
    requires Reachable(env, s) && s.worker.Ready?
    ensures Current(s.db).token == Some(s.worker.session.token) && PendingConfig(s.db) == s.worker.session.config
  {
    ReachableInv(env, s);
    SessionBinding(env, s.db, s.worker.session);
  }

  /** A dispatch of the revised target reaches its first request beside the old row. */
  lemma ReachesFirstRequest(env: Env, s: Sys, now: Clock, v: nat)
    requires Reachable(env, s) && s.worker.Idle? && s.db.target.status.Active? && Current(s.db).token.None?
    requires RunningFrom(s.db.runs, 0).None? && OldRow(s.db, v) && PagesPerRun(s.db.target) >= 2
    requires ValidTarget(s.db.target) && s.db.target.config.spec.Fixed?
    requires FirstPageGoesOn(env, s.db.target, ResolvedConfig(Loaded(s.db.target), s.db.target.config.spec.window))
    requires FirstPageClear(env, s.db.target, ResolvedConfig(Loaded(s.db.target), s.db.target.config.spec.window), s.db.store)
    ensures var t := Exec(env, s, ([Begin(now)] + [ResolveConfig]) + [Charge]);
            AtFirstRequest(env, t) && OldRow(t.db, v)
  {
    Opens(env, s, now);
    var r := Exec(env, s, [Begin(now)] + [ResolveConfig]);
    ExecConcat(env, s, [Begin(now)] + [ResolveConfig], [Charge]);
    ExecOne(env, r, Charge);
    ChargesFirst(env, r);
    SessionOfPending(env, r);
  }

  /**
   Such runs exist: for every fixed-window target whose first page goes on, and every revision of it under another cursor
   version, there is a run in which the first page is committed and the second one fails as stale, whatever it holds.
   */
  lemma StaleRun(env: Env, s: Sys, now: Clock, t2: Target, again: nat) returns (acts: seq<Action>)
    requires Initial(s) && Revises(env, s.db.target, t2)
    requires var t1 := s.db.target; FirstPageClear(env, t1, ResolvedConfig(Loaded(t1), t1.config.spec.window), s.db.store)
    ensures var t := Exec(env, s, acts);
            && t.worker.Charged? && !Synced(t.db, t.worker.session) && t.worker.session.run < |t.db.runs|
            && t.db.runs[t.worker.session.run].pages == 1
            && Step(env, t, Answer(again)) == Sys(FinishError(t.db, t.worker.session.run, t.worker.session.revision,
                                                              Refuses(env, t.db, t.worker.session)), Idle)
  {
    var head := ([Begin(now)] + [ResolveConfig]) + [LockLost, Pause, AbandonPending, Revise(t2)];
    var next := ([Begin(now)] + [ResolveConfig]) + [Charge];
    var v := s.db.target.cursorVersion;
    LeavesOldRow(env, s, now, t2);
    var a := Exec(env, s, head);
    assert Loaded(t2) == Loaded(s.db.target);
    ReachesFirstRequest(env, a, now, v);
    var b := Exec(env, a, next);
    SecondPageFails(env, b, v, again);
    ExecConcat(env, s, head, next);
    ExecConcat(env, s, head + next, [Answer(v), Charge]);
    acts := (head + next) + [Answer(v), Charge];
  }

  const NEXT := LastKey(Key("t", "a"))

  /** A provider with one fact on its first page, and a Finnhub target with a one-day window. */
  function SamplePage(c: Config, limit: nat, s: Progress): (page: Option<Page>) {
    if s.Start? then Some(Page([Payload("a", "t", "")], [], true, NEXT, false)) else Some(Page([], [], false, Start, false))
  }

  const SAMPLE_TARGET := Target(0, FinnhubNews, 0, Active, Config(Plain(""), Fixed(Window(DayStamp(0), DayStamp(1)))),
                                1, 2, 1, Normal, 1, 2, 2)

  lemma StaleRunExists()
    ensures var env := Env(SamplePage, _ => Clock(0, 0)); Revises(env, SAMPLE_TARGET, SAMPLE_TARGET.(revision := 1, cursorVersion := 2))
  {
  }
}
