/**
 Every transaction of the control plane keeps the invariant.
 */
module PlaneSteps {
  import opened Keys
  import opened Windows
  import opened Continuation
  import opened Pages
  import opened Downstream
  import opened ControlPlane
  import opened PlaneInvariant

  /** What resolving a run establishes, whatever the path: the frozen window is valid and the token is bound to it. */
  predicate Bound(t: Target, persisted: Cursor, frozen: Run, config: Config, token: Token)
    requires ValidTarget(t)
  {
    && frozen.window == Some(token.window) && frozen.hash == Some(token.configHash)
    && ValidFixed(WindowClass(t.api), token.window)
    && config == ResolvedConfig(Loaded(t), token.window)
    && Decode(token, t.api, config, LineageOf(t)) == Some(token.state)
    && (t.config.spec.Fixed? ==> token.window == t.config.spec.window) && StateGuard(t, token.state)
    && (if persisted.token.Some? then persisted.token == Some(token) else token.state == Start)
  }

  lemma ResolveBinds(env: Env, db: Db, run: nat, snapshot: Option<Cursor>)
    requires DbInv(env, db) && run < |db.runs| && db.runs[run].status.Running?
    requires ResolveRun(env, db, run, snapshot).Done?
    ensures var r := ResolveRun(env, db, run, snapshot).value;
            var frozen := db.runs[run].(window := Some(r.token.window), hash := Some(r.token.configHash));
            && Bound(db.target, Current(db), frozen, r.config, r.token)
            && (db.runs[run].window.Some? ==> db.runs[run].window == Some(r.token.window))
            && r.db == SetCurrent(db.(runs := db.runs[run := frozen]),
                                  Current(db).(token := Some(r.token), bound := Some(run)))
  {
    var c := Current(db);
    assert db.target.cursorVersion in db.cursors ==> CursorOk(db.target, db.runs, db.target.cursorVersion, c);
    assert RunOk(db.target, db.runs[run]);
  }

  function Rebound(db: Db, run: nat, token: Token): (after: Db)
    requires run < |db.runs|
  {
    var frozen := db.runs[run].(window := Some(token.window), hash := Some(token.configHash));
    SetCurrent(db.(runs := db.runs[run := frozen]), Current(db).(token := Some(token), bound := Some(run)))
  }

  ghost predicate MayRebind(env: Env, db: Db, run: nat, config: Config, token: Token) {
    && DbInv(env, db) && run < |db.runs| && db.runs[run].status.Running?
    && (db.runs[run].window.Some? ==> db.runs[run].window == Some(token.window))
    && Bound(db.target, Current(db), Rebound(db, run, token).runs[run], config, token)
  }

  lemma ReboundRows(env: Env, db: Db, run: nat, config: Config, token: Token)
    requires MayRebind(env, db, run, config, token)
    ensures var after := Rebound(db, run, token);
            RunsOk(after.target, after.runs) && StoreOk(after.runs, after.store) && CursorsOk(after)
  {
    var after := Rebound(db, run, token);
    assert RunOk(db.target, db.runs[run]);
    assert forall v :: v in db.cursors ==> CursorOk(db.target, db.runs, v, db.cursors[v]);
    assert TokenOk(db.target, after.runs, token, run);
  }

  lemma RebindKeeps(env: Env, db: Db, run: nat, config: Config, token: Token)
    requires MayRebind(env, db, run, config, token)
    ensures DbInv(env, Rebound(db, run, token))
  {
    var after := Rebound(db, run, token);
    ReboundRows(env, db, run, config, token);
    ClosedStays(env, db, after);
    LogStays(db, after);
  }

  lemma ResolveKeeps(env: Env, s: Sys)
    requires Inv(env, s)
    ensures Inv(env, ResolveStep(env, s))
  {
    if s.worker.Started? {
      var run := s.worker.run;
      var r := ResolveRun(env, s.db, run, s.worker.snapshot);
      if !r.Done? {
        SettleKeeps(env, s.db, run, FinishError(s.db, run, s.worker.revision, r.Refused?).runs[run]);
      } else {
        ResolveBinds(env, s.db, run, s.worker.snapshot);
        RebindKeeps(env, s.db, run, r.value.config, r.value.token);
      }
    }
  }

  lemma LogGrows(db: Db, after: Db, sent: Request)
    requires LogOk(db) && after.log == db.log + [sent] && sent.run < |after.runs| == |db.runs| && after.closed == db.closed
    requires after.chain == db.chain == sent.chain && after.trail == db.trail && after.cursors == db.cursors
    requires after.target == db.target && RequestOk(db, sent)
    requires forall i :: 0 <= i < |db.runs| ==>
               after.runs[i].requests == db.runs[i].requests + (if i == sent.run then 1 else 0)
    requires forall r :: r in db.closed ==> db.closed[r].chain < db.chain
    ensures LogOk(after)
  {
    forall i | 0 <= i < |after.log| ensures RequestOk(after, after.log[i]) && SameTerms(after.log[i], sent) {
      assert i < |db.log| ==> RequestOk(db, db.log[i]);
    }
  }

  function AfterCharge(db: Db, session: Session): (after: Db)
    requires session.run < |db.runs|
  {
    var r := db.runs[session.run];
    db.(runs := db.runs[session.run := r.(requests := r.requests + 1)],
        log := db.log + [Request(session.run, db.chain, session.config, session.limit, session.token.state)])
  }

  lemma ChargedRows(env: Env, db: Db, session: Session)
    requires DbInv(env, db) && SessionOk(db, session) && !Exhausted(db.target, db.runs[session.run])
    ensures var after := AfterCharge(db, session);
            && RunsOk(after.target, after.runs) && StoreOk(after.runs, after.store) && CursorsOk(after)
            && TrailOk(env, after) && ObservedOk(env, after)
  {
    assert RunOk(db.target, db.runs[session.run]);
    assert forall v :: v in db.cursors ==> CursorOk(db.target, db.runs, v, db.cursors[v]);
    assert TokenOk(db.target, db.runs, session.token, session.run);
  }

  lemma ChargedHistory(env: Env, db: Db, session: Session)
    requires DbInv(env, db) && SessionOk(db, session)
    ensures var after := AfterCharge(db, session); ClosedOk(env, after) && LogOk(after)
  {
    var after := AfterCharge(db, session);
    ClosedStays(env, db, after);
    LogGrows(db, after, after.log[|db.log|]);
  }

  lemma ChargeKeeps(env: Env, s: Sys)
    requires Inv(env, s)
    ensures Inv(env, ChargeStep(s))
  {
    if s.worker.Ready? {
      var db, session := s.db, s.worker.session;
      var r := s.db.runs[session.run];
      if !db.target.status.Active? {
        SettleKeeps(env, db, session.run, FinishError(db, session.run, session.revision, false).runs[session.run]);
      } else if Exhausted(db.target, r) {
        SettleKeeps(env, db, session.run, r.(status := Partial));
      } else {
        ChargedRows(env, db, session);
        ChargedHistory(env, db, session);
        assert RunOk(db.target, r);
        assert ChargeStep(s) == Sys(AfterCharge(db, session), Charged(session));
      }
    }
  }

  lemma FailKeeps(env: Env, s: Sys, retryable: bool)
    requires Inv(env, s) && !s.worker.Idle?
    ensures DbInv(env, FinishError(s.db, RunOf(s.worker), RevisionOf(s.worker), retryable))
    ensures DbInv(env, FinishLockLost(s.db, RunOf(s.worker)))
  {
    var i := RunOf(s.worker);
    SettleKeeps(env, s.db, i, FinishError(s.db, i, RevisionOf(s.worker), retryable).runs[i]);
    SettleKeeps(env, s.db, i, FinishLockLost(s.db, i).runs[i]);
  }

  lemma RecoverKeeps(env: Env, db: Db)
    requires DbInv(env, db)
    ensures DbInv(env, RecoverStale(db))
  {
    var i := RunningFrom(db.runs, 0);
    if i.Some? {
      SettleKeeps(env, db, i.value, db.runs[i.value].(status := Failed));
    }
  }

  lemma NothingPending(db: Db)
    requires ValidTarget(db.target) && CursorsOk(db) && !Pending(db)
    ensures Current(db).token.None?
    ensures forall v :: v in db.cursors ==> db.cursors[v].token.None? && db.cursors[v].bound.None?
  {
  }

  lemma ReviseKeeps(env: Env, db: Db, t: Target)
    requires DbInv(env, db) && MayRevise(db, t)
    ensures DbInv(env, db.(target := t))
  {
    NothingPending(db);
    var after := db.(target := t);
    assert forall v :: v in db.cursors ==> CursorOk(db.target, db.runs, v, db.cursors[v]) && CursorOk(t, db.runs, v, db.cursors[v]);
    assert forall i :: 0 <= i < |db.runs| ==> RunOk(db.target, db.runs[i]) && !db.runs[i].status.Running?;
    assert RunsOk(t, db.runs);
    ClosedStays(env, db, after);
    LogStays(db, after);
  }

  lemma PausedCursor(t: Target, runs: seq<Run>, v: nat, c: Cursor)
    requires ValidTarget(t) && CursorOk(t, runs, v, c)
    ensures CursorOk(t.(status := Paused), runs, v, c)
  {
  }

  lemma PauseKeeps(env: Env, db: Db)
    requires DbInv(env, db)
    ensures DbInv(env, PauseForAbandon(db))
  {
    var after := PauseForAbandon(db);
    if after != db {
      assert CursorsOk(after) by {
        forall v | v in db.cursors ensures CursorOk(after.target, after.runs, v, after.cursors[v]) {
          PausedCursor(db.target, db.runs, v, db.cursors[v]);
        }
      }
      assert RunsOk(after.target, after.runs) by {
        assert forall i :: 0 <= i < |db.runs| ==> RunOk(db.target, db.runs[i]) && RunOk(after.target, db.runs[i]);
      }
      ClosedStays(env, db, after);
      LogStays(db, after);
    }
  }

  lemma AbandonedCursors(db: Db)
    requires ValidTarget(db.target) && CursorsOk(db)
    ensures CursorsOk(Abandon(db))
  {
  }

  lemma AbandonKeeps(env: Env, db: Db)
    requires DbInv(env, db)
    ensures DbInv(env, Abandon(db))
  {
    var after := Abandon(db);
    AbandonedCursors(db);
    if after != db {
      ClosedStays(env, db, after);
      LogStays(db, after);
    }
  }

  lemma ForeignKeeps(env: Env, db: Db, items: set<string>, owner: Owner)
    requires DbInv(env, db) && !owner.ByRun?
    ensures DbInv(env, Foreign(db, items, owner))
  {
    var after := Foreign(db, items, owner);
    forall i | 0 <= i < |db.runs| ensures OwnedBy(after.store, i) == OwnedBy(db.store, i) {}
    assert forall v :: v in db.cursors ==> CursorOk(db.target, db.runs, v, db.cursors[v]);
    assert forall p: Option<Page> :: Kept(db.store, db.audited, p) ==> Kept(after.store, db.audited, p);
    ClosedStays(env, db, after);
    LogStays(db, after);
  }
}
