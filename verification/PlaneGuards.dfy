/**
 The triggers of alembic/versions/0009_m2a_provider_breadth.py as transition predicates, and which steps of
 the control plane they let through.
 */
module PlaneGuards {
  import opened Keys
  import opened Windows
  import opened Continuation
  import opened Downstream
  import opened ControlPlane
  import opened PlaneInvariant
  import opened PlaneSteps
  import opened PlaneCommit
  import opened PlaneTheorems

  /** m2_run_window_guard: frozen values are immutable and frozen before the first request. */
  predicate RunGuard(a: Run, b: Run) {
    && (a.window.Some? ==> b.window == a.window)
    && (a.hash.Some? ==> b.hash == a.hash)
    && ((a.window.None? && b.window.Some?) || (a.hash.None? && b.hash.Some?) ==> a.requests == 0 && a.status.Running?)
  }

  /** m2_run_terminal_continuation_guard, checked when the transaction commits. */
  predicate TerminalGuard(db: Db) {
    forall v :: v in db.cursors && db.cursors[v].token.Some? && db.cursors[v].bound.Some?
                && db.cursors[v].bound.value < |db.runs| ==>
      !db.runs[db.cursors[v].bound.value].status.Succeeded?
  }

  predicate NamesFile(p: Progress) {
    p.SecAt? && (p.file.Some? || (p.files.Some? && p.files.value != []))
  }

  lemma SecStates(stored: string, p: Progress)
    requires p.SecAt? && 1 <= |stored| <= 10 && Digits(stored) && SecInDomain(Zfill(stored), p)
    ensures SecStateGuard(stored, p) <==> (NamesFile(p) ==> |stored| == 10)
  {
    if p.file.Some? { StoredCikGuard(stored, p.file.value); }
    if p.files.Some? && p.files.value != [] {
      assert p.files.value[0] in p.files.value;
      StoredCikGuard(stored, p.files.value[0]);
    }
  }

  /** What the trigger adds to the codec's domain: no SEC history file may be named under a CIK that needs padding. */
  predicate Storable(t: Target, p: Progress) {
    NamesFile(p) ==> t.config.settings.Sec? && |t.config.settings.cik| == 10
  }

  lemma StateGuardExact(t: Target, w: Window, p: Progress)
    requires ValidTarget(t) && InDomain(t.api, ResolvedConfig(Loaded(t), w), p)
    ensures StateGuard(t, p) <==> Storable(t, p)
  {
    if p.SecAt? { SecStates(t.config.settings.cik, p); }
  }

  /**
   The trigger accepts the row a page transaction writes exactly when the next state names no SEC history file or the
   stored CIK needs no padding. Everything else it checks always holds.
   */
  lemma GuardExact(env: Env, db: Db, s: Session, r: Result, final: bool, saved: Saved)
    requires DbInv(env, db) && SessionOk(db, s) && Answers(env, db, s, r) && (r.page.incomplete || !r.page.more ==> final)
    ensures GuardAccepts(CommitPage(db, s, r, final, saved)) <==> (r.page.more ==> Storable(db.target, r.page.next))
  {
    SessionBinding(env, db, s);
    if r.page.more { StateGuardExact(db.target, s.token.window, r.page.next); }
  }

  /** In every state that satisfies the invariant the trigger accepts the current row. */
  lemma GuardHolds(env: Env, db: Db)
    requires DbInv(env, db)
    ensures GuardAccepts(db)
  {
    assert db.target.cursorVersion in db.cursors ==> CursorOk(db.target, db.runs, db.target.cursorVersion, Current(db));
  }

  /** Freezing and rebinding a run is never refused by the trigger. */
  lemma ResolveNeverRefused(env: Env, db: Db, run: nat, snapshot: Option<Cursor>)
    requires DbInv(env, db) && run < |db.runs| && db.runs[run].status.Running?
    ensures !ResolveRun(env, db, run, snapshot).Refused?
  {
    var c := Current(db);
    assert db.target.cursorVersion in db.cursors ==> CursorOk(db.target, db.runs, db.target.cursorVersion, c);
    assert RunOk(db.target, db.runs[run]);
  }

  /** Which cursor rows a step writes. */
  predicate WritesCurrentOnly(db: Db, after: Db) {
    forall v :: v in after.cursors && (v in db.cursors ==> after.cursors[v] != db.cursors[v]) ==>
      v == after.target.cursorVersion
  }

  predicate RunsPass(db: Db, after: Db) {
    && |db.runs| <= |after.runs|
    && (forall i :: 0 <= i < |db.runs| ==> RunGuard(db.runs[i], after.runs[i]))
  }

  lemma ReboundPasses(t: Target, db: Db, run: nat, token: Token)
    requires run < |db.runs| && db.runs[run].status.Running? && RunOk(t, db.runs[run])
    requires db.runs[run].window.Some? ==> db.runs[run].window == Some(token.window) && db.runs[run].hash == Some(token.configHash)
    ensures RunsPass(db, Rebound(db, run, token)) && WritesCurrentOnly(db, Rebound(db, run, token))
  {
  }

  /** A run that is resolved again gets the hash it has. */
  lemma SameHash(env: Env, db: Db, run: nat, snapshot: Option<Cursor>)
    requires DbInv(env, db) && run < |db.runs| && db.runs[run].status.Running? && db.runs[run].window.Some?
    requires ResolveRun(env, db, run, snapshot).Done?
    ensures db.runs[run].hash == Some(ResolveRun(env, db, run, snapshot).value.token.configHash)
  {
    ResolveBinds(env, db, run, snapshot);
    assert CursorOk(db.target, db.runs, db.target.cursorVersion, Current(db));
  }

  lemma ResolvePasses(env: Env, s: Sys)
    requires Inv(env, s)
    ensures RunsPass(s.db, ResolveStep(env, s).db) && WritesCurrentOnly(s.db, ResolveStep(env, s).db)
  {
    if s.worker.Started? {
      var run, r := s.worker.run, ResolveRun(env, s.db, s.worker.run, s.worker.snapshot);
      if r.Done? {
        ResolveBinds(env, s.db, run, s.worker.snapshot);
        if s.db.runs[run].window.Some? { SameHash(env, s.db, run, s.worker.snapshot); }
        assert RunOk(s.db.target, s.db.runs[run]);
        ReboundPasses(s.db.target, s.db, run, r.value.token);
      } else {
        FinishPasses(s.db, run, s.worker.revision, r.Refused?);
      }
    } else {
      SameFreezePasses(s.db, s.db);
    }
  }

  lemma SameFreezePasses(db: Db, after: Db)
    requires |db.runs| <= |after.runs| && after.cursors == db.cursors
    requires forall i :: 0 <= i < |db.runs| ==>
               after.runs[i].window == db.runs[i].window && after.runs[i].hash == db.runs[i].hash
    ensures RunsPass(db, after) && WritesCurrentOnly(db, after)
  {
  }

  lemma CommitPasses(db: Db, x: Session, r: Result, final: bool, saved: Saved)
    requires x.run < |db.runs|
    ensures RunsPass(db, CommitPage(db, x, r, final, saved)) && WritesCurrentOnly(db, CommitPage(db, x, r, final, saved))
  {
  }

  lemma FinishPasses(db: Db, run: nat, revision: nat, again: bool)
    ensures RunsPass(db, FinishError(db, run, revision, again)) && WritesCurrentOnly(db, FinishError(db, run, revision, again))
  {
  }

  lemma AnswerPasses(env: Env, s: Sys, reload: nat)
    requires Inv(env, s)
    ensures RunsPass(s.db, AnswerStep(env, s, reload).db) && WritesCurrentOnly(s.db, AnswerStep(env, s, reload).db)
  {
    if s.worker.Charged? {
      var x, after := s.worker.session, AnswerStep(env, s, reload).db;
      AnswerCases(env, s, reload);
      if after == FinishError(s.db, x.run, x.revision, Refuses(env, s.db, x)) {
        FinishPasses(s.db, x.run, x.revision, Refuses(env, s.db, x));
      } else {
        var r, saved :| CommittedAs(env, s, reload, r, saved);
        CommitPasses(s.db, x, r, IsFinal(s.db.target, x, r), saved);
      }
    } else {
      SameFreezePasses(s.db, s.db);
    }
  }

  lemma OtherPasses(env: Env, s: Sys, a: Action)
    requires ValidTarget(s.db.target) && WorkerOk(s) && !a.ResolveConfig? && !a.AbandonPending? && !a.Answer?
    ensures RunsPass(s.db, Step(env, s, a).db) && WritesCurrentOnly(s.db, Step(env, s, a).db)
  {
    SameFreezePasses(s.db, Step(env, s, a).db);
  }

  lemma AbandonPasses(db: Db)
    requires ValidTarget(db.target) && CursorsOk(db)
    ensures RunsPass(db, Abandon(db)) && WritesCurrentOnly(db, Abandon(db))
  {
  }

  /** Every committed transaction passes the run and continuation triggers, writes only the current cursor row, and leaves
      no bound run succeeded. */
  lemma StepsPassGuards(env: Env, s: Sys, a: Action)
    requires Inv(env, s)
    ensures var db := Step(env, s, a).db;
            RunsPass(s.db, db) && WritesCurrentOnly(s.db, db) && GuardAccepts(db) && TerminalGuard(db)
  {
    StepKeeps(env, s, a);
    var db := Step(env, s, a).db;
    GuardHolds(env, db);
    assert TerminalGuard(db) by {
      assert forall v :: v in db.cursors ==> CursorOk(db.target, db.runs, v, db.cursors[v]);
    }
    match a
    case ResolveConfig => ResolvePasses(env, s);
    case AbandonPending => AbandonPasses(s.db);
    case Answer(reload) => AnswerPasses(env, s, reload);
    case _ => OtherPasses(env, s, a);
  }
}
