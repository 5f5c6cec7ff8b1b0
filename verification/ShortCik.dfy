/**
 A SEC target whose stored CIK has fewer than ten digits, with a history file that overlaps its window: the trigger of
 alembic/versions/0009_m2a_provider_breadth.py refuses every page, so the target never collects anything.
 */
module ShortCik {
  import opened Continuation
  import opened Pages
  import opened Downstream
  import opened ControlPlane
  import opened PlaneInvariant
  import opened PlaneCommit
  import opened PlaneTheorems
  import opened PlaneGuards
  import opened Standstill
  import opened EndToEnd
  import SecEdgar

  ghost predicate ShortTarget(t: Target) {
    t.api.SecSubmissions? && t.config.settings.Sec? && |t.config.settings.cik| < 10
  }

  /** Some history file overlaps the window of the pending traversal, if there is one. */
  predicate Overlaps(site: Config -> SecSite, db: Db) {
    var c := Current(db);
    c.token.Some? ==> var x := site(c.token.value.configHash.of); SecEdgar.Overlapping(x.world.references, x.query) != []
  }

  /** The first page leaves rows or files over, and its next state names a history file. */
  lemma FirstNames(x: SecSite, limit: nat, classify: Classifier)
    requires limit >= 1 && SecEdgar.Overlapping(x.world.references, x.query) != []
    ensures var page := SecEdgar.SecFetch(x.world, x.query, limit, classify, Start);
            page.Some? ==> page.value.more && NamesFile(page.value.next)
  {
  }

  lemma NamingStays(x: SecSite, limit: nat, classify: Classifier, s: Progress)
    requires limit >= 1 && NamesFile(s)
    ensures var page := SecEdgar.SecFetch(x.world, x.query, limit, classify, s);
            page.Some? && page.value.more ==> NamesFile(page.value.next)
  {
  }

  /** After the first request every state of a chain names a history file. */
  lemma {:induction false} ChainNames(f: Fetcher, x: SecSite, limit: nat, classify: Classifier, states: seq<Progress>, k: nat)
    requires limit >= 1 && SecEdgar.Overlapping(x.world.references, x.query) != []
    requires forall s :: f(s) == SecEdgar.SecFetch(x.world, x.query, limit, classify, s)
    requires IsChain(f, states) && 0 < k < |states|
    ensures NamesFile(states[k])
  {
    ChainLink(f, states, k - 1);
    if k == 1 {
      FirstNames(x, limit, classify);
    } else {
      ChainNames(f, x, limit, classify, states, k - 1);
      NamingStays(x, limit, classify, states[k - 1]);
    }
  }

  lemma PositionNames(f: Fetcher, x: SecSite, limit: nat, classify: Classifier, trail: seq<Progress>, state: Progress)
    requires limit >= 1 && SecEdgar.Overlapping(x.world.references, x.query) != []
    requires forall s :: f(s) == SecEdgar.SecFetch(x.world, x.query, limit, classify, s)
    requires Position(f, trail, state) && trail != []
    ensures NamesFile(state)
  {
    var last := |trail| - 1;
    if last == 0 {
      FirstNames(x, limit, classify);
    } else {
      ChainNames(f, x, limit, classify, trail, last);
      NamingStays(x, limit, classify, trail[last]);
    }
  }

  /** A pending traversal of such a target stands at its beginning. */
  lemma PendingAtStart(env: Env, site: Config -> SecSite, classify: Classifier, db: Db)
    requires DbInv(env, db) && SecEnv(env, site, classify) && ShortTarget(db.target) && Overlaps(site, db) && Current(db).token.Some?
    ensures Current(db).token.value.state == Start && db.trail == []
  {
    var t, token := db.target, Current(db).token.value;
    assert CursorOk(t, db.runs, t.cursorVersion, Current(db));
    var c := ResolvedConfig(Loaded(t), token.window);
    StateGuardExact(t, token.window, token.state);
    assert !NamesFile(token.state);
    if db.trail != [] {
      PositionNames(Through(env, c, t.batchLimit), site(c), t.batchLimit, classify, db.trail, token.state);
    }
  }

  /** The page of such a session is never committed: its answer fails the run. */
  lemma NeverCommits(env: Env, site: Config -> SecSite, classify: Classifier, s: Sys, reload: nat)
    requires Inv(env, s) && SecEnv(env, site, classify) && ShortTarget(s.db.target) && Overlaps(site, s.db) && s.worker.Charged?
    ensures AnswerStep(env, s, reload).db ==
              FinishError(s.db, s.worker.session.run, s.worker.session.revision, Refuses(env, s.db, s.worker.session))
  {
    AnswerCases(env, s, reload);
    if exists r, saved :: CommittedAs(env, s, reload, r, saved) {
      var r, saved :| CommittedAs(env, s, reload, r, saved);
      NoCommit(env, site, classify, s.db, s.worker.session, r, IsFinal(s.db.target, s.worker.session, r), saved);
    }
  }

  lemma NoCommit(env: Env, site: Config -> SecSite, classify: Classifier, db: Db, x: Session, r: Result, final: bool, saved: Saved)
    requires SecEnv(env, site, classify) && ShortTarget(db.target) && Overlaps(site, db)
    ensures !Commits(env, db, x, r, final, saved)
  {
    if Commits(env, db, x, r, final, saved) {
      PendingAtStart(env, site, classify, db);
      SessionBinding(env, db, x);
      FirstNames(site(x.config), x.limit, classify);
      GuardExact(env, db, x, r, final, saved);
    }
  }

  lemma StepStuck(env: Env, site: Config -> SecSite, classify: Classifier, s: Sys, a: Action)
    requires Reachable(env, s) && SecEnv(env, site, classify) && ShortTarget(s.db.target) && Overlaps(site, s.db) && !a.Revise?
    ensures Stuck(s.db, Step(env, s, a).db)
  {
    if a.Answer? && s.worker.Charged? {
      ReachableInv(env, s);
      NeverCommits(env, site, classify, s, a.reload);
    }
    UncommittedStuck(env, s, a);
  }

  /**
   As long as such a target is not revised and each traversal it opens meets an overlapping history file, no sequence of
   dispatches, retries, crashes, pauses and abandons ever commits a page, moves a checkpoint, closes a traversal or ends in
   success.
   */
  lemma {:induction false} NeverCollects(env: Env, site: Config -> SecSite, classify: Classifier, s: Sys, acts: seq<Action>)
    requires Reachable(env, s) && SecEnv(env, site, classify) && ShortTarget(s.db.target)
    requires forall k :: 0 <= k < |acts| ==> !acts[k].Revise? && Overlaps(site, Exec(env, s, acts[..k]).db)
    ensures Stuck(s.db, Exec(env, s, acts).db) && Reachable(env, Exec(env, s, acts))
  {
    if acts != [] {
      var n := |acts| - 1;
      var init, t := acts[..n], Exec(env, s, acts[..n]);
      forall k | 0 <= k < |init| ensures !init[k].Revise? && Overlaps(site, Exec(env, s, init[..k]).db) {
        assert init[..k] == acts[..k];
        assert Overlaps(site, Exec(env, s, acts[..k]).db);
      }
      NeverCollects(env, site, classify, s, init);
      StepStuck(env, site, classify, t, acts[n]);
      ReachableStep(env, t, acts[n]);
      StuckChains(s.db, t.db, Exec(env, s, acts).db);
    }
  }

  /** A fixed-window target freezes its own window, so one overlapping file there is enough. */
  lemma FixedOverlaps(env: Env, site: Config -> SecSite, s: Sys)
    requires Reachable(env, s) && ValidTarget(s.db.target) && s.db.target.config.spec.Fixed?
    requires var t := s.db.target; var x := site(ResolvedConfig(Loaded(t), t.config.spec.window));
             SecEdgar.Overlapping(x.world.references, x.query) != []
    ensures Overlaps(site, s.db)
  {
    ReachableInv(env, s);
    assert s.db.target.cursorVersion in s.db.cursors ==>
      CursorOk(s.db.target, s.db.runs, s.db.target.cursorVersion, Current(s.db));
  }

  /** The fixed-window case: a short CIK and an overlapping history file in the target's window, and nothing is collected. */
  lemma {:induction false} FixedNeverCollects(env: Env, site: Config -> SecSite, classify: Classifier, s: Sys, acts: seq<Action>)
    requires Reachable(env, s) && SecEnv(env, site, classify) && ShortTarget(s.db.target)
    requires ValidTarget(s.db.target) && s.db.target.config.spec.Fixed?
    requires var t := s.db.target; var x := site(ResolvedConfig(Loaded(t), t.config.spec.window));
             SecEdgar.Overlapping(x.world.references, x.query) != []
    requires forall k :: 0 <= k < |acts| ==> !acts[k].Revise?
    ensures Stuck(s.db, Exec(env, s, acts).db) && Reachable(env, Exec(env, s, acts))
  {
    if acts != [] {
      var n := |acts| - 1;
      var t := Exec(env, s, acts[..n]);
      FixedNeverCollects(env, site, classify, s, acts[..n]);
      assert Loaded(t.db.target) == Loaded(s.db.target);
      ReachableInv(env, t);
      FixedOverlaps(env, site, t);
      StepStuck(env, site, classify, t, acts[n]);
      ReachableStep(env, t, acts[n]);
      StuckChains(s.db, t.db, Exec(env, s, acts).db);
    }
  }
}
