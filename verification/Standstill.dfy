/**
 What it means that a target collects nothing, and which steps leave it so.
 */
module Standstill {
  import opened ControlPlane
  import opened PlaneInvariant
  import opened PlaneCommit
  import opened PlaneTheorems

  /** Nothing was collected in between: no page, no success, no closed traversal, no checkpoint. */
  predicate Stuck(a: Db, b: Db) {
    && b.closed == a.closed && |a.runs| <= |b.runs|
    && (forall i :: 0 <= i < |b.runs| ==> RunStuck(a, b, i))
    && (forall v :: v in a.cursors ==> v in b.cursors && b.cursors[v].value == a.cursors[v].value)
    && (forall v :: v in b.cursors && v !in a.cursors ==> b.cursors[v].value.None?)
    && b.target.api == a.target.api && b.target.config == a.target.config
  }

  predicate RunStuck(a: Db, b: Db, i: nat)
    requires i < |b.runs|
  {
    && b.runs[i].pages == (if i < |a.runs| then a.runs[i].pages else 0)
    && b.runs[i].inserted == (if i < |a.runs| then a.runs[i].inserted else 0)
    && (b.runs[i].status.Succeeded? ==> i < |a.runs| && a.runs[i].status.Succeeded?)
  }

  lemma StuckChains(a: Db, b: Db, c: Db)
    requires Stuck(a, b) && Stuck(b, c)
    ensures Stuck(a, c)
  {
    forall i | 0 <= i < |c.runs| ensures RunStuck(a, c, i) {
      assert RunStuck(b, c, i);
      if i < |b.runs| { assert RunStuck(a, b, i); }
    }
  }

  lemma FinishStuck(db: Db, run: nat, revision: nat, again: bool)
    ensures Stuck(db, FinishError(db, run, revision, again)) && Stuck(db, FinishLockLost(db, run))
  {
  }

  lemma ResolveStuck(env: Env, s: Sys)
    requires Inv(env, s)
    ensures Stuck(s.db, ResolveStep(env, s).db)
  {
    if s.worker.Started? {
      FinishStuck(s.db, s.worker.run, s.worker.revision, ResolveRun(env, s.db, s.worker.run, s.worker.snapshot).Refused?);
    }
  }

  /** Steps that leave cursors, closed traversals and target alone, and end or charge runs at most. */
  lemma RunsOnlyStuck(a: Db, b: Db)
    requires b.closed == a.closed && b.cursors == a.cursors && b.target.api == a.target.api && b.target.config == a.target.config
    requires |a.runs| <= |b.runs| && forall i :: 0 <= i < |b.runs| ==> RunStuck(a, b, i)
    ensures Stuck(a, b)
  {
  }

  lemma WorkerStuck(env: Env, s: Sys, a: Action)
    requires a.Begin? || a.Charge? || a.RequestFailed? || a.LockLost? || a.Crash? || a.Recover?
    ensures Stuck(s.db, Step(env, s, a).db)
  {
    RunsOnlyStuck(s.db, Step(env, s, a).db);
  }

  lemma OtherStuck(env: Env, s: Sys, a: Action)
    requires !a.Revise? && !a.Answer? && !a.ResolveConfig?
    ensures Stuck(s.db, Step(env, s, a).db)
  {
    match a
    case Pause => RunsOnlyStuck(s.db, Step(env, s, a).db);
    case AbandonPending =>
    case ForeignInsert(_, _) => RunsOnlyStuck(s.db, Step(env, s, a).db);
    case _ => WorkerStuck(env, s, a);
  }

  /** A step other than a revision collects nothing, unless it commits a page. */
  lemma UncommittedStuck(env: Env, s: Sys, a: Action)
    requires Reachable(env, s) && !a.Revise?
    requires a.Answer? && s.worker.Charged? ==>
               AnswerStep(env, s, a.reload).db ==
                 FinishError(s.db, s.worker.session.run, s.worker.session.revision, Refuses(env, s.db, s.worker.session))
    ensures Stuck(s.db, Step(env, s, a).db)
  {
    match a
    case ResolveConfig =>
      ReachableInv(env, s);
      ResolveStuck(env, s);
    case Answer(reload) =>
      if s.worker.Charged? {
        FinishStuck(s.db, s.worker.session.run, s.worker.session.revision, Refuses(env, s.db, s.worker.session));
      }
    case _ => OtherStuck(env, s, a);
  }
}
