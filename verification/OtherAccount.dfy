/**
 An item of the next page that was first stored under another account of the source: the observation trigger of
 alembic/versions/0007_create_safe_fact_projections.py refuses the page in every run, so the traversal stands still.
 */
module OtherAccount {
  import opened Windows
  import opened Continuation
  import opened Pages
  import opened Downstream
  import opened ControlPlane
  import opened PlaneInvariant
  import opened PlaneSteps
  import opened PlaneCommit
  import opened PlaneTheorems
  import opened PlaneProgress
  import opened Standstill

  /** The page the pending continuation asks for, if there is one, holds such an item. */
  predicate Barred(env: Env, db: Db) {
    var c := Current(db);
    c.token.Some? ==>
      var page := env.provider(c.token.value.configHash.of, db.target.batchLimit, c.token.value.state);
      page.Some? ==> !Clear(db.store, page.value.facts)
  }

  lemma {:induction false} DoneIsClear(s: Store, run: nat, page: Progress, facts: seq<Payload>)
    requires Persist(s, run, page, facts).Done?
    ensures Clear(s, facts)
  {
    if facts != [] {
      var init, last := facts[..|facts| - 1], facts[|facts| - 1];
      assert facts == init + [last];
      DoneIsClear(s, run, page, init);
      PersistKeepsAliens(s, run, page, init);
    }
  }

  lemma NoCommit(env: Env, db: Db, x: Session, r: Result, final: bool, saved: Saved)
    requires Barred(env, db)
    ensures !Commits(env, db, x, r, final, saved)
  {
    if Commits(env, db, x, r, final, saved) {
      SessionBinding(env, db, x);
      DoneIsClear(db.store, x.run, x.token.state, r.page.facts);
    }
  }

  lemma StepStuck(env: Env, s: Sys, a: Action)
    requires Reachable(env, s) && Barred(env, s.db) && !a.Revise?
    ensures Stuck(s.db, Step(env, s, a).db)
  {
    if a.Answer? && s.worker.Charged? {
      ReachableInv(env, s);
      AnswerCases(env, s, a.reload);
      if exists r, saved :: CommittedAs(env, s, a.reload, r, saved) {
        var r, saved :| CommittedAs(env, s, a.reload, r, saved);
        NoCommit(env, s.db, s.worker.session, r, IsFinal(s.db.target, s.worker.session, r), saved);
      }
    }
    UncommittedStuck(env, s, a);
  }

  /** A pending continuation outlasts every step but a revision, an abandon and a commit. */
  ghost predicate SamePending(a: Db, b: Db) {
    && Current(b).token == Current(a).token && b.trail == a.trail && b.target.batchLimit == a.target.batchLimit
    && b.target.cursorVersion == a.target.cursorVersion && (forall id :: Alien(a.store, id) ==> Alien(b.store, id))
  }

  lemma ResolveSamePending(env: Env, s: Sys)
    requires Reachable(env, s) && Current(s.db).token.Some?
    ensures SamePending(s.db, ResolveStep(env, s).db)
  {
    if s.worker.Started? {
      ReachableInv(env, s);
      if ResolveRun(env, s.db, s.worker.run, s.worker.snapshot).Done? {
        ResolveBinds(env, s.db, s.worker.run, s.worker.snapshot);
      }
    }
  }

  lemma AnswerSamePending(env: Env, s: Sys, reload: nat)
    requires Reachable(env, s) && Barred(env, s.db)
    ensures SamePending(s.db, AnswerStep(env, s, reload).db)
  {
    if s.worker.Charged? {
      ReachableInv(env, s);
      AnswerCases(env, s, reload);
      if exists r, saved :: CommittedAs(env, s, reload, r, saved) {
        var r, saved :| CommittedAs(env, s, reload, r, saved);
        NoCommit(env, s.db, s.worker.session, r, IsFinal(s.db.target, s.worker.session, r), saved);
      }
    }
  }

  lemma StepSamePending(env: Env, s: Sys, a: Action)
    requires Reachable(env, s) && Barred(env, s.db) && Current(s.db).token.Some? && !a.Revise? && !a.AbandonPending?
    ensures SamePending(s.db, Step(env, s, a).db)
  {
    match a
    case ResolveConfig => ResolveSamePending(env, s);
    case Answer(reload) => AnswerSamePending(env, s, reload);
    case _ =>
  }

  lemma BarredStays(env: Env, a: Db, b: Db)
    requires Barred(env, a) && SamePending(a, b)
    ensures Barred(env, b)
  {
    var c := Current(a);
    if c.token.Some? {
      var page := env.provider(c.token.value.configHash.of, a.target.batchLimit, c.token.value.state);
      if page.Some? {
        var p :| p in page.value.facts && Alien(a.store, p.id);
        assert Alien(b.store, p.id);
      }
    }
  }

  /**
   From every reachable state whose pending page holds such an item, no sequence of dispatches, retries, crashes and
   pauses ever commits a page, moves a checkpoint, closes the traversal or succeeds, until the continuation is abandoned or
   the target revised.
   */
  lemma {:induction false} NeverAdvances(env: Env, s: Sys, acts: seq<Action>)
    requires Reachable(env, s) && Barred(env, s.db) && Current(s.db).token.Some?
    requires forall k :: 0 <= k < |acts| ==> !acts[k].Revise? && !acts[k].AbandonPending?
    ensures var t := Exec(env, s, acts);
            && Stuck(s.db, t.db) && Reachable(env, t) && Barred(env, t.db)
            && Current(t.db).token == Current(s.db).token && t.db.trail == s.db.trail
  {
    if acts != [] {
      var n := |acts| - 1;
      var t := Exec(env, s, acts[..n]);
      NeverAdvances(env, s, acts[..n]);
      StepStuck(env, t, acts[n]);
      StepSamePending(env, t, acts[n]);
      BarredStays(env, t.db, Exec(env, s, acts).db);
      ReachableStep(env, t, acts[n]);
      StuckChains(s.db, t.db, Exec(env, s, acts).db);
    }
  }

  /** Such states are reached by the first dispatch of a fixed-window target whose first page holds such an item. */
  lemma BarredFromTheStart(env: Env, s: Sys, now: Clock)
    requires Initial(s) && s.db.target.status.Active? && s.db.target.config.spec.Fixed?
    requires var t := s.db.target;
             var page := env.provider(ResolvedConfig(Loaded(t), t.config.spec.window), t.batchLimit, Start);
             page.Some? && !Clear(s.db.store, page.value.facts)
    ensures var t := Exec(env, s, [Begin(now)] + [ResolveConfig]);
            Reachable(env, t) && Barred(env, t.db) && Current(t.db).token.Some?
  {
    assert s == Exec(env, s, []);
    assert Reachable(env, s);
    Opens(env, s, now);
  }
}
