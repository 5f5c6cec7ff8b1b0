/**
 What a step leaves on the rows of runs, cursors and target, and exactly when.
 */
module PlaneOutcomes {
  import opened Keys
  import opened Windows
  import opened Continuation
  import opened Pages
  import opened Downstream
  import opened ControlPlane
  import opened PlaneInvariant
  import opened PlaneSteps
  import opened PlaneCommit
  import opened PlaneTheorems

  /** Where the window of a run comes from: it stays once frozen, is the one a pending continuation was opened with, or is
      resolved from the run's start and the watermark of the cursor. */
  predicate WindowFrom(env: Env, t: Target, c: Cursor, before: Run, w: Window) {
    if before.window.Some? then before.window == Some(w)
    else if c.token.Some? then c.token.value.window == w
    else w == Resolve(t.config.spec, before.startedAt, if c.watermark.Some? then Some(env.clockOf(c.watermark.value)) else None)
  }

  lemma FrozenFrom(env: Env, db: Db, run: nat)
    requires DbInv(env, db) && run < |db.runs| && ResolveRun(env, db, run, CurrentRow(db)).Done?
    ensures var r := ResolveRun(env, db, run, CurrentRow(db)).value;
            && run < |r.db.runs| && r.db.runs[run].window.Some?
            && WindowFrom(env, db.target, Current(db), db.runs[run], r.db.runs[run].window.value)
  {
  }

  /** A dispatch works in that window, under the loaded settings with the window fixed in them. */
  lemma WindowFrozen(env: Env, s: Sys)
    requires Reachable(env, s) && s.worker.Started? && ResolveStep(env, s).worker.Ready?
    ensures var n, i := ResolveStep(env, s), s.worker.run;
            && i < |s.db.runs| && i < |n.db.runs| && n.db.runs[i].window.Some? && BreadthConfig(s.db.target.api, s.db.target.config).Some?
            && WindowFrom(env, s.db.target, Current(s.db), s.db.runs[i], n.db.runs[i].window.value)
            && n.worker.session.config == Config(BreadthConfig(s.db.target.api, s.db.target.config).value.settings, Fixed(n.db.runs[i].window.value))
            && n.db.runs[i].hash == Some(Digest(n.worker.session.config))
  {
    ReachableInv(env, s);
    FrozenFrom(env, s.db, s.worker.run);
    ResolveBinds(env, s.db, s.worker.run, s.worker.snapshot);
    HashesAgree(s.db.target.api, s.db.target.config, ResolveStep(env, s).db.runs[s.worker.run].window.value);
  }

  /** Every window ever frozen on a run is bounded: up to 12 calendar months, 7 days of hours, or 31 days. */
  lemma WindowsBounded(env: Env, s: Sys, i: nat)
    requires Reachable(env, s) && i < |s.db.runs| && s.db.runs[i].window.Some?
    ensures var w := s.db.runs[i].window.value;
            if s.db.target.api.EiaRetail? then
              && w.start.MonthStamp? && w.end.MonthStamp? && 1 <= w.start.month <= 12 && 1 <= w.end.month <= 12
              && 0 <= (w.end.year * 12 + w.end.month) - (w.start.year * 12 + w.start.month) <= 11
            else
              && !w.start.MonthStamp? && !w.end.MonthStamp?
              && 0 < Parse(w.end) - Parse(w.start) <= (if s.db.target.api.EiaRto? then 7 else 31) * DAY
  {
    ReachableInv(env, s);
    assert RunOk(s.db.target, s.db.runs[i]);
  }

  /** The last page of a dispatch: cut short, at the end of the chain, or at the smaller of the two budgets. */
  predicate LastOfDispatch(t: Target, x: Session, page: Page) {
    || page.incomplete || !page.more
    || x.index + 1 == (if t.maxPages < t.maxRequests then t.maxPages else t.maxRequests)
  }

  /** The run after a committed page. */
  predicate RunAdvanced(a: Run, b: Run, page: Page, last: bool) {
    && b.pages == a.pages + 1 && b.fetched == a.fetched + |page.facts|
    && (b.inserted - a.inserted) + (b.duplicates - a.duplicates) == |page.facts|
    && b.requests == a.requests && b.retries == a.retries && b.errors == a.errors && b.window == a.window && b.hash == a.hash
    && (!last ==> b.status.Running?)
    && (last && !page.more && !page.incomplete ==> b.status.Succeeded?)
    && (last && (page.more || page.incomplete) ==> b.status.Partial?)
  }

  /** What the answer of the provider becomes when it is committed. */
  ghost predicate PageTaken(s: Sys, n: Sys, page: Page) {
    s.worker.Charged? && s.worker.session.run < |s.db.runs| && |n.db.runs| == |s.db.runs| &&
    var x, i := s.worker.session, s.worker.session.run;
    var last := LastOfDispatch(s.db.target, x, page);
    && RunAdvanced(s.db.runs[i], n.db.runs[i], page, last)
    && (forall p :: p in page.facts ==> p.id in n.db.store.raw)
    && n.db.audited == s.db.audited + (set h | h in page.rejected)
    && (page.more <==> Current(n.db).token.Some?)
    && (page.more ==> Current(n.db).token.value.state == page.next && Current(n.db).bound == Some(i))
    && (if last then n.worker.Idle?
        else n.worker.Ready? && n.worker.session.token.state == page.next && n.worker.session.index == x.index + 1
             && n.worker.session.run == i && n.worker.session.cursor == Current(n.db).value)
  }

  lemma CommitTakes(env: Env, db: Db, x: Session, r: Result, saved: Saved)
    requires Commits(env, db, x, r, IsFinal(db.target, x, r), saved)
    ensures var n := CommitPage(db, x, r, IsFinal(db.target, x, r), saved);
            && |n.runs| == |db.runs| && RunAdvanced(db.runs[x.run], n.runs[x.run], r.page, LastOfDispatch(db.target, x, r.page))
            && (forall p :: p in r.page.facts ==> p.id in n.store.raw)
            && n.audited == db.audited + (set h | h in r.page.rejected)
            && Current(n).token == r.token && Current(n).bound == (if r.token.Some? then Some(x.run) else None)
            && Current(n).value == r.cursor
            && (r.page.more ==> r.token.Some? && r.token.value.state == r.page.next) && (!r.page.more ==> r.token.None?)
  {
    PersistConserves(db.store, x.run, x.token.state, r.page.facts);
  }

  lemma CommittedTakes(env: Env, s: Sys, reload: nat, r: Result, saved: Saved)
    requires CommittedAs(env, s, reload, r, saved)
    ensures PageTaken(s, AnswerStep(env, s, reload), r.page)
    ensures env.provider(s.worker.session.config, s.db.target.batchLimit, s.worker.session.token.state) == Some(r.page)
  {
    CommitTakes(env, s.db, s.worker.session, r, saved);
  }

  /** The run after a failed request: tried again while it may be, otherwise FAILED. */
  predicate RunFailed(a: Run, b: Run, again: bool) {
    b == if again && a.retries < 3 then a.(errors := a.errors + 1, retries := a.retries + 1)
         else a.(status := Failed, errors := a.errors + 1)
  }

  predicate OnlyRun(db: Db, n: Db, i: nat) { i < |db.runs| == |n.runs| && n == db.(runs := db.runs[i := n.runs[i]]) }

  /**
   An answer either becomes its page, whole: facts stored, refusals audited, counters, checkpoint and continuation moved,
   the run ended or continued; or it fails its run and writes nothing else.
   */
  lemma AnswerOutcome(env: Env, s: Sys, reload: nat)
    requires Reachable(env, s) && s.worker.Charged?
    ensures var x, n := s.worker.session, AnswerStep(env, s, reload);
            var page := env.provider(x.config, s.db.target.batchLimit, x.token.state);
            || (page.Some? && PageTaken(s, n, page.value))
            || (n.worker.Idle? && OnlyRun(s.db, n.db, x.run) && exists again :: RunFailed(s.db.runs[x.run], n.db.runs[x.run], again))
  {
    ReachableInv(env, s);
    var x := s.worker.session;
    AnswerCases(env, s, reload);
    if r, saved :| CommittedAs(env, s, reload, r, saved) {
      CommittedTakes(env, s, reload, r, saved);
    } else {
      FailedRun(s.db, x.run, x.revision, Refuses(env, s.db, x));
    }
  }

  lemma FailedRun(db: Db, run: nat, revision: nat, again: bool)
    requires run < |db.runs| && db.runs[run].status.Running? && revision == db.target.revision
    ensures var n := FinishError(db, run, revision, again); OnlyRun(db, n, run) && RunFailed(db.runs[run], n.runs[run], again)
  {
  }

  predicate RunningFailed(db: Db, n: Db) {
    && |n.runs| == |db.runs| && n == db.(runs := n.runs)
    && forall i :: 0 <= i < |db.runs| ==>
         n.runs[i] == if db.runs[i].status.Running? then db.runs[i].(status := Failed) else db.runs[i]
  }

  lemma RecoverFails(db: Db)
    requires RunsOk(db.target, db.runs)
    ensures RunningFailed(db, RecoverStale(db))
  {
  }

  /**
   Interruptions: a failed request is tried again iff it is retryable and fewer than three retries were used, a lost lock
   ends the run as FAILED, a crash writes nothing, and recovery fails the run a dead worker left running.
   */
  lemma InterruptOutcome(env: Env, s: Sys, retryable: bool)
    requires Reachable(env, s)
    ensures !s.worker.Idle? ==>
              var i := RunOf(s.worker);
              && i < |s.db.runs|
              && var n := Step(env, s, RequestFailed(retryable));
                 n.worker.Idle? && OnlyRun(s.db, n.db, i) && RunFailed(s.db.runs[i], n.db.runs[i], retryable)
    ensures !s.worker.Idle? ==>
              var n, i := Step(env, s, LockLost), RunOf(s.worker);
              n.worker.Idle? && OnlyRun(s.db, n.db, i) && n.db.runs[i] == s.db.runs[i].(status := Failed, errors := s.db.runs[i].errors + 1)
    ensures Step(env, s, Crash) == Sys(s.db, Idle)
    ensures s.worker.Idle? ==> Step(env, s, Recover).worker.Idle? && RunningFailed(s.db, Step(env, s, Recover).db)
  {
    ReachableInv(env, s);
    RecoverFails(s.db);
    if !s.worker.Idle? { FailedRun(s.db, RunOf(s.worker), RevisionOf(s.worker), retryable); }
  }

  /** What the head of a page does to the budget: a request is charged and sent, or the run ends. */
  predicate ChargeDecided(db: Db, x: Session, n: Sys) {
    x.run < |db.runs| == |n.db.runs| &&
    var r, t := db.runs[x.run], db.target;
    && (n.worker.Charged? <==> t.status == Active && r.requests < t.maxRequests && r.pages < t.maxPages)
    && (n.worker.Charged? ==> n.db.log == db.log + [Request(x.run, db.chain, x.config, t.batchLimit, x.token.state)]
                              && n.db.runs[x.run] == r.(requests := r.requests + 1))
    && (!n.worker.Charged? ==> n.worker.Idle? && n.db.log == db.log
                               && n.db.runs[x.run].status == (if t.status == Active then Partial else Failed))
  }

  lemma ChargeDecides(db: Db, x: Session)
    requires x.run < |db.runs| && x.revision == db.target.revision && x.limit == db.target.batchLimit
    ensures ChargeDecided(db, x, ChargeStep(Sys(db, Ready(x))))
  {
  }

  /** A request is charged and sent iff the target is active and both budgets have room. */
  lemma ChargeOutcome(env: Env, s: Sys)
    requires Reachable(env, s) && s.worker.Ready?
    ensures ChargeDecided(s.db, s.worker.session, ChargeStep(s))
  {
    ReachableInv(env, s);
    ChargeDecides(s.db, s.worker.session);
    assert s == Sys(s.db, Ready(s.worker.session));
  }

  /**
   The guards of the page transaction stand on their own: whatever the session and the answer, a page is committed only under
   the revision the session was loaded with, onto the checkpoint it last read, and never onto an older key.
   */
  lemma CommitGuarded(db: Db, x: Session, r: Result, final: bool)
    requires PersistPage(db, x, r, final).Done?
    ensures db.target.revision == x.revision && x.run < |db.runs|
    ensures x.snapshot.Some? && CurrentRow(db).Some? ==> Current(db).value == x.snapshot.value.value
    ensures Current(db).value.Some? && r.cursor.Some? ==>
              var a, b := Current(db).value.value, r.cursor.value;
              a == b || StrLt(a.at, b.at) || (a.at == b.at && StrLt(a.id, b.id))
    ensures Clear(db.store, r.page.facts) && RowBound(PersistPage(db, x, r, final).value)
  {
    PersistedClear(db.store, x.run, x.token.state, r.page.facts);
  }

  /** The current cursor row of a state the trigger let through: its continuation and its run agree. */
  predicate RowBound(db: Db) {
    var c := Current(db);
    && (c.token.None? ==> c.bound.None?)
    && (c.token.Some? ==>
          && c.bound.Some? && c.bound.value < |db.runs| && !db.runs[c.bound.value].status.Succeeded?
          && db.runs[c.bound.value].window == Some(c.token.value.window)
          && db.runs[c.bound.value].hash == Some(c.token.value.configHash)
          && c.token.value.version == 1 && c.token.value.api == db.target.api && BoundTo(db.target, c.token.value.lineage)
          && (db.target.config.spec.Fixed? ==> c.token.value.window == db.target.config.spec.window))
  }

  /**
   So do the guards of resolving a run: whatever the state, a frozen window and hash are never replaced, and a pending
   continuation is taken up unchanged, only if it was opened for this target, this configuration and this window.
   */
  lemma ResolveGuarded(env: Env, db: Db, run: nat, snapshot: Option<Cursor>)
    requires run < |db.runs| && ResolveRun(env, db, run, snapshot).Done?
    ensures var r := ResolveRun(env, db, run, snapshot).value;
            && run < |r.db.runs|
            && (db.runs[run].window.Some? ==> r.db.runs[run].window == db.runs[run].window)
            && (db.runs[run].hash.Some? ==> r.db.runs[run].hash == db.runs[run].hash)
            && r.db.runs[run].hash == Some(Digest(r.config)) && Current(r.db).token == Some(r.token) && Current(r.db).bound == Some(run)
            && (Current(db).token.Some? ==> Some(r.token) == Current(db).token)
            && r.token.version == 1 && r.token.api == db.target.api && r.token.configHash == Digest(r.config)
            && BoundTo(db.target, r.token.lineage) && r.config.spec == Fixed(r.token.window)
            && RowBound(r.db)
  {
  }

  /** And of the worker's checks: a session goes on only with a continuation that moved and that it could decode itself. */
  lemma AnswerGuarded(env: Env, s: Sys, reload: nat)
    requires s.worker.Charged? && AnswerStep(env, s, reload).worker.Ready?
    ensures var x, y, t := s.worker.session, AnswerStep(env, s, reload).worker.session, s.db.target;
            && y.token != x.token && y.config == x.config && y.limit == x.limit && y.run == x.run && y.revision == x.revision
            && y.token.version == 1 && y.token.api == t.api && BoundTo(t, y.token.lineage)
            && y.token.configHash == Digest(x.config) && x.config.spec == Fixed(y.token.window) && InDomain(t.api, x.config, y.token.state)
  {
  }

  lemma {:induction false} PersistedClear(s: Store, run: nat, page: Progress, facts: seq<Payload>)
    requires Persist(s, run, page, facts).Done?
    ensures Clear(s, facts)
  {
    if facts != [] {
      var init, last := facts[..|facts| - 1], facts[|facts| - 1];
      PersistedClear(s, run, page, init);
      PersistKeepsAliens(s, run, page, init);
      assert facts == init + [last];
    }
  }

  predicate NoRunning(db: Db) { forall i :: 0 <= i < |db.runs| ==> !db.runs[i].status.Running? }

  predicate NoneOpen(db: Db) { forall v :: v in db.cursors ==> db.cursors[v].token.None? }

  /**
   A dispatch begins iff no worker holds the lock and the target was active when it was loaded, though it may be paused since.
   It adopts the run in flight, or opens a fresh one if there is none, under the budgets in force.
   */
  lemma BeginOutcome(env: Env, s: Sys, now: Clock)
    ensures var n, t := Step(env, s, Begin(now)), s.db.target;
            if s.worker.Idle? && (t.status == Active || t.status == Paused) then
              && n.worker == Started(n.worker.run, t.revision, CurrentRow(s.db))
              && n.worker.run < |n.db.runs| && n.db.runs[n.worker.run].status.Running?
              && (NoRunning(s.db) ==>
                    && n.worker.run == |s.db.runs|
                    && n.db == s.db.(runs := s.db.runs + [Run(Running, now, None, None, 0, 0, 0, 0, 0, 0, 0, t.maxRequests, t.maxPages)]))
              && (!NoRunning(s.db) ==> n.db == s.db)
            else n == s
  {
    assert NoRunning(s.db) <==> RunningFrom(s.db.runs, 0).None?;
  }

  /** Pausing for abandonment needs an active target without a run in flight, and keeps everything but the status. */
  lemma PauseOutcome(env: Env, s: Sys)
    ensures Step(env, s, Pause) ==
            if NoRunning(s.db) && s.db.target.status == Active then s.(db := s.db.(target := s.db.target.(status := Paused))) else s
  {
    assert NoRunning(s.db) <==> RunningFrom(s.db.runs, 0).None?;
  }

  /** Operator transitions of a target. */
  const MOVES: set<(TargetStatus, TargetStatus)> :=
    {(Draft, Paused), (Draft, Blocked), (Paused, Active), (Paused, Blocked), (Paused, Retired),
     (Active, Paused), (Active, Blocked), (Active, Retired), (Blocked, Paused), (Blocked, Retired)}

  /**
   A revision is accepted iff no run is in flight, no continuation is pending on any cursor row, the revision is the next
   one, identity and operation stay, the status move is an operator's, and the new configuration is valid; and then only
   the target row changes.
   */
  lemma ReviseOutcome(env: Env, s: Sys, t: Target)
    ensures var accepted := && NoRunning(s.db) && NoneOpen(s.db)
                            && t.revision == s.db.target.revision + 1 && t.id == s.db.target.id && t.api == s.db.target.api
                            && t.mode == s.db.target.mode
                            && (t.status == s.db.target.status || (s.db.target.status, t.status) in MOVES)
                            && BreadthConfig(t.api, t.config).Some? && 1 <= t.batchLimit <= 100
                            && 1 <= t.maxRequests <= 20 && 1 <= t.maxPages <= 20;
            Step(env, s, Revise(t)) == if accepted then s.(db := s.db.(target := t)) else s
  {
    if Pending(s.db) { assert !NoneOpen(s.db); } else { assert NoneOpen(s.db); }
    assert NoRunning(s.db) <==> RunningFrom(s.db.runs, 0).None?;
  }

  /** Abandoning needs a paused target without a run in flight; it clears every continuation and keeps every checkpoint. */
  lemma AbandonOutcome(env: Env, s: Sys)
    ensures var n := Step(env, s, AbandonPending);
            && n.worker == s.worker && n.db.cursors.Keys == s.db.cursors.Keys
            && n.db.target == s.db.target && n.db.runs == s.db.runs && n.db.store == s.db.store && n.db.audited == s.db.audited
            && (NoRunning(s.db) && s.db.target.status.Paused? ==> NoneOpen(n.db))
            && (!(NoRunning(s.db) && s.db.target.status.Paused?) ==> n == s)
            && (forall v :: v in s.db.cursors ==>
                  && n.db.cursors[v].value == s.db.cursors[v].value && n.db.cursors[v].watermark == s.db.cursors[v].watermark
                  && (s.db.cursors[v].token.None? ==> n.db.cursors[v] == s.db.cursors[v]))
  {
    assert NoRunning(s.db) <==> RunningFrom(s.db.runs, 0).None?;
  }
}
