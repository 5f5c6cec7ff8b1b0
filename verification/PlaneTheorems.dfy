/**
 What holds over every run of the control plane: dispatches, crashes, retries, lock losses, budget stops,
 resumed runs, revisions and abandoned continuations, in any order.
 */
module PlaneTheorems {
  import opened Keys
  import opened Windows
  import opened Continuation
  import opened Pages
  import opened Downstream
  import opened ControlPlane
  import opened PlaneInvariant
  import opened PlaneSteps
  import opened PlaneCommit

  /** Revisions, pauses and abandons wait for the run in flight, so a working worker is not disturbed. */
  lemma EnvironmentWorker(env: Env, s: Sys, a: Action)
    requires ValidTarget(s.db.target) && WorkerOk(s)
    requires a.Revise? || a.Pause? || a.AbandonPending? || a.ForeignInsert?
    ensures var t := Step(env, s, a); ValidTarget(t.db.target) && WorkerOk(t)
  {
    if RunningFrom(s.db.runs, 0).None? { assert s.worker.Idle?; }
  }

  lemma EnvironmentKeeps(env: Env, s: Sys, a: Action)
    requires Inv(env, s) && (a.Revise? || a.Pause? || a.AbandonPending? || a.ForeignInsert?)
    ensures Inv(env, Step(env, s, a))
  {
    EnvironmentWorker(env, s, a);
    match a
    case Revise(t) => if MayRevise(s.db, t) { ReviseKeeps(env, s.db, t); }
    case Pause => PauseKeeps(env, s.db);
    case AbandonPending => AbandonKeeps(env, s.db);
    case ForeignInsert(items, same) => ForeignKeeps(env, s.db, items, if same then SameAccount else OtherAccount);
  }

  lemma InterruptKeeps(env: Env, s: Sys, a: Action)
    requires Inv(env, s) && (a.RequestFailed? || a.LockLost? || a.Crash? || a.Recover?)
    ensures Inv(env, Step(env, s, a))
  {
    match a
    case RequestFailed(retryable) => if !s.worker.Idle? { FailKeeps(env, s, retryable); }
    case LockLost => if !s.worker.Idle? { FailKeeps(env, s, false); }
    case Crash =>
    case Recover => RecoverKeeps(env, s.db);
  }

  lemma StepKeeps(env: Env, s: Sys, a: Action)
    requires Inv(env, s)
    ensures Inv(env, Step(env, s, a))
  {
    match a
    case Begin(now) => StartKeeps(env, s.db, now);
    case ResolveConfig => ResolveKeeps(env, s);
    case Charge => ChargeKeeps(env, s);
    case Answer(reload) => AnswerKeeps(env, s, reload);
    case Revise(_) => EnvironmentKeeps(env, s, a);
    case Pause => EnvironmentKeeps(env, s, a);
    case AbandonPending => EnvironmentKeeps(env, s, a);
    case ForeignInsert(_, _) => EnvironmentKeeps(env, s, a);
    case _ => InterruptKeeps(env, s, a);
  }

  lemma {:induction false} ExecKeeps(env: Env, s: Sys, acts: seq<Action>)
    requires Inv(env, s)
    ensures Inv(env, Exec(env, s, acts))
  {
    if acts != [] {
      ExecKeeps(env, s, acts[..|acts| - 1]);
      StepKeeps(env, Exec(env, s, acts[..|acts| - 1]), acts[|acts| - 1]);
    }
  }

  /** Some run leads here from a target that never ran. */
  ghost predicate Reachable(env: Env, s: Sys) {
    exists s0, acts :: Initial(s0) && s == Exec(env, s0, acts)
  }

  /** The invariant over every run from a target that never ran. */
  lemma Safety(env: Env, s: Sys, acts: seq<Action>)
    requires Initial(s)
    ensures Inv(env, Exec(env, s, acts))
  {
    InitialHolds(env, s);
    ExecKeeps(env, s, acts);
  }

  lemma ReachableInv(env: Env, s: Sys)
    requires Reachable(env, s)
    ensures Inv(env, s)
  {
    var s0, acts :| Initial(s0) && s == Exec(env, s0, acts);
    Safety(env, s0, acts);
  }

  lemma ReachableStep(env: Env, s: Sys, a: Action)
    requires Reachable(env, s)
    ensures Reachable(env, Step(env, s, a))
  {
    var s0, acts :| Initial(s0) && s == Exec(env, s0, acts);
    assert (acts + [a])[..|acts|] == acts;
    assert Step(env, s, a) == Exec(env, s0, acts + [a]);
  }

  /**
   Committed pages are a prefix of the adapter's chain for the frozen window, none of them committed twice,
   each stored or audited.
   */
  lemma CommittedPrefix(env: Env, s: Sys, whole: seq<Progress>)
    requires Reachable(env, s) && Current(s.db).token.Some?
    requires Complete(Through(env, Current(s.db).token.value.configHash.of, s.db.target.batchLimit), whole)
    ensures var db, token := s.db, Current(s.db).token.value;
            && |db.trail| < |whole| && db.trail == whole[..|db.trail|] && token.state == whole[|db.trail|]
            && Distinct(db.trail)
            && AllKept(db.store, db.audited, Through(env, token.configHash.of, db.target.batchLimit), db.trail)
  {
    ReachableInv(env, s);
    var token := Current(s.db).token.value;
    PositionPrefix(Through(env, token.configHash.of, s.db.target.batchLimit), s.db.trail, token.state, whole);
  }

  lemma PositionPrefix(f: Fetcher, trail: seq<Progress>, state: Progress, whole: seq<Progress>)
    requires Position(f, trail, state) && Complete(f, whole)
    ensures |trail| < |whole| && trail == whole[..|trail|] && state == whole[|trail|] && Distinct(trail)
  {
    NoPageTwice(f, whole);
    if trail != [] {
      ChainPrefix(f, trail, whole);
      assert trail[|trail| - 1] == whole[|trail| - 1];
      if |trail| < |whole| { ChainLink(f, whole, |trail| - 1); }
    }
  }

  /** A complete chain of the configuration, not cut short, with every row kept. */
  ghost predicate Covered(env: Env, db: Db, c: Config, limit: nat, states: seq<Progress>) {
    var f := Through(env, c, limit);
    && 1 <= limit <= 100 && Complete(f, states) && !f(states[|states| - 1]).value.incomplete
    && AllKept(db.store, db.audited, f, states)
  }

  /** SUCCEEDED means covered: every row of the chain is a raw item or audited as rejected, then and ever after. */
  lemma SucceededCovers(env: Env, s: Sys, r: nat)
    requires Reachable(env, s) && r < |s.db.runs| && s.db.runs[r].status.Succeeded?
    ensures var run := s.db.runs[r];
            && run.window.Some? && run.hash.Some? && run.hash.value.of.spec == Fixed(run.window.value)
            && exists limit, states :: Covered(env, s.db, run.hash.value.of, limit, states) && Distinct(states)
  {
    ReachableInv(env, s);
    assert ClosedRun(env, s.db, r);
    var t := s.db.closed[r];
    NoPageTwice(Through(env, t.config, t.limit), t.states);
    assert Covered(env, s.db, s.db.runs[r].hash.value.of, t.limit, t.states);
  }

  /** All requests of one traversal, over all its runs and retries, use one frozen configuration and one batch limit. */
  lemma FrozenTerms(env: Env, s: Sys, i: nat, j: nat)
    requires Reachable(env, s) && i < j < |s.db.log| && s.db.log[i].chain == s.db.log[j].chain
    ensures s.db.log[i].config == s.db.log[j].config && s.db.log[i].limit == s.db.log[j].limit
  {
    ReachableInv(env, s);
    assert SameTerms(s.db.log[i], s.db.log[j]);
  }

  /** A lineage names the target, its revision, operation, versions and run mode. */
  predicate BoundTo(t: Target, l: Lineage) {
    && l.targetId == t.id && l.revision == t.revision && l.api == t.api && l.mode == t.mode
    && l.configVersion == t.configVersion && l.contractVersion == t.contractVersion && l.cursorVersion == t.cursorVersion
  }

  /** A continuation is pending iff a run is bound to it, and then run, window, hash and lineage all agree. */
  lemma ContinuationBinding(env: Env, s: Sys, v: nat)
    requires Reachable(env, s) && v in s.db.cursors
    ensures var db, c := s.db, s.db.cursors[v];
            && (c.token.Some? <==> c.bound.Some?)
            && (c.token.Some? ==>
                && v == db.target.cursorVersion && BoundTo(db.target, c.token.value.lineage)
                && c.bound.value < |db.runs|
                && !db.runs[c.bound.value].status.Succeeded?
                && db.runs[c.bound.value].window == Some(c.token.value.window)
                && db.runs[c.bound.value].hash == Some(c.token.value.configHash))
  {
    ReachableInv(env, s);
    assert CursorOk(s.db.target, s.db.runs, v, s.db.cursors[v]);
  }

  /** Budgets and counters: requests sent and pages committed never exceed the budgets the run started under. */
  lemma Budgets(env: Env, s: Sys, i: nat)
    requires Reachable(env, s) && i < |s.db.runs|
    ensures var r := s.db.runs[i];
            && r.pages <= r.requests == Sent(s.db.log, i) <= r.cap && r.pages <= r.pageCap
            && (r.status.Running? ==> r.cap == s.db.target.maxRequests && r.pageCap == s.db.target.maxPages)
            && r.fetched == r.inserted + r.duplicates && r.inserted == |OwnedBy(s.db.store, i)|
  {
    ReachableInv(env, s);
    assert RunOk(s.db.target, s.db.runs[i]);
  }

  /**
   The durable cursor: a committed page leaves the greatest of the old checkpoint and the keys of its facts, with that
   key's timestamp as the watermark. An answer that commits no page leaves every cursor row alone.
   */
  lemma CheckpointExact(env: Env, s: Sys, reload: nat)
    requires Reachable(env, s) && s.worker.Charged?
    ensures var n, x := AnswerStep(env, s, reload), s.worker.session;
            var page := env.provider(x.config, s.db.target.batchLimit, x.token.state);
            if PageCommitted(s, n) then
              && page.Some? && Greatest(Current(s.db).value, page.value.facts, Current(n.db).value)
              && Current(n.db).watermark == (if Current(n.db).value.Some? then Some(Current(n.db).value.value.at) else None)
              && n.db.cursors == s.db.cursors[s.db.target.cursorVersion := Current(n.db)]
            else n.db.cursors == s.db.cursors
  {
    ReachableInv(env, s);
    var x := s.worker.session;
    AnswerCases(env, s, reload);
    FailedCheckpoint(s.db, x.run, x.revision, Refuses(env, s.db, x));
    if r, saved :| CommittedAs(env, s, reload, r, saved) {
      StepCheckpoint(env, s, reload, r, saved);
    }
  }

  predicate NotBehind(a: Option<Key>, b: Option<Key>) {
    a.Some? ==> b.Some? && KeyLe(a.value, b.value)
  }

  predicate CursorForward(a: Cursor, b: Cursor) {
    && NotBehind(a.value, b.value)
    && (a.watermark.Some? ==> b.watermark.Some? && (a.watermark == b.watermark || StrLt(a.watermark.value, b.watermark.value)))
  }

  /** Checkpoints and watermarks advance, terminal runs are immutable, nothing stored or audited is lost. */
  predicate Forward(db: Db, after: Db) {
    && Grows(db, after)
    && (forall v :: v in db.cursors ==> v in after.cursors && CursorForward(db.cursors[v], after.cursors[v]))
    && (forall i :: 0 <= i < |db.runs| ==> after.runs[i].cap == db.runs[i].cap && after.runs[i].pageCap == db.runs[i].pageCap)
    && db.target.revision <= after.target.revision
    && (db.target.status.Retired? ==> after.target.status.Retired?)
  }

  lemma ForwardChains(a: Db, b: Db, c: Db)
    requires Forward(a, b) && Forward(b, c)
    ensures Forward(a, c)
  {
    KeyOrder();
    forall v | v in a.cursors ensures v in c.cursors && CursorForward(a.cursors[v], c.cursors[v]) {
      assert CursorForward(a.cursors[v], b.cursors[v]) && CursorForward(b.cursors[v], c.cursors[v]);
      if a.cursors[v].watermark.Some? && a.cursors[v].watermark != b.cursors[v].watermark
         && b.cursors[v].watermark != c.cursors[v].watermark {
        StrTransitive(a.cursors[v].watermark.value, b.cursors[v].watermark.value, c.cursors[v].watermark.value);
      }
    }
  }

  lemma CursorAdvances(env: Env, db: Db, s: Session, r: Result, final: bool, saved: Saved)
    requires Commits(env, db, s, r, final, saved)
    ensures CursorForward(Current(db), CursorAfterPage(Current(db), s.run, r))
  {
    RunningMaxExact(s.cursor, r.page.facts);
    assert CursorOk(db.target, db.runs, db.target.cursorVersion, Current(db));
  }

  lemma CommitForward(env: Env, db: Db, s: Session, r: Result, final: bool, saved: Saved)
    requires Commits(env, db, s, r, final, saved)
    ensures Forward(db, CommitPage(db, s, r, final, saved))
  {
    CommitGrows(env, db, s, r, final, saved);
    CursorAdvances(env, db, s, r, final, saved);
  }

  lemma AnswerForward(env: Env, s: Sys, reload: nat)
    requires Inv(env, s)
    ensures Forward(s.db, AnswerStep(env, s, reload).db)
  {
    if s.worker.Charged? {
      var x, after := s.worker.session, AnswerStep(env, s, reload).db;
      AnswerCases(env, s, reload);
      if after == FinishError(s.db, x.run, x.revision, Refuses(env, s.db, x)) {
        FinishForward(s.db, x.run, x.revision, Refuses(env, s.db, x));
      } else {
        var r, saved :| CommittedAs(env, s, reload, r, saved);
        CommitForward(env, s.db, x, r, IsFinal(s.db.target, x, r), saved);
      }
    }
  }

  lemma FinishForward(db: Db, run: nat, revision: nat, again: bool)
    requires run < |db.runs| && db.runs[run].status.Running?
    ensures Forward(db, FinishError(db, run, revision, again))
  {
    SameCursors(db, FinishError(db, run, revision, again));
  }

  lemma ResolveForward(env: Env, s: Sys)
    requires Inv(env, s)
    ensures Forward(s.db, ResolveStep(env, s).db)
  {
    if s.worker.Started? && ResolveRun(env, s.db, s.worker.run, s.worker.snapshot).Done? {
      ResolveBinds(env, s.db, s.worker.run, s.worker.snapshot);
      var r := ResolveRun(env, s.db, s.worker.run, s.worker.snapshot).value;
      ReboundForward(s.db, s.worker.run, r.token);
    }
  }

  lemma ReboundForward(db: Db, run: nat, token: Token)
    requires run < |db.runs| && db.runs[run].status.Running?
    ensures Forward(db, Rebound(db, run, token))
  {
    assert CursorForward(Current(db), Current(Rebound(db, run, token)));
  }

  /** Steps that leave the cursors alone. */
  lemma SameCursors(db: Db, after: Db)
    requires db.target.status.Retired? ==> after.target.status.Retired?
    requires Grows(db, after) && after.cursors == db.cursors && db.target.revision <= after.target.revision
    requires forall i :: 0 <= i < |db.runs| ==> after.runs[i].cap == db.runs[i].cap && after.runs[i].pageCap == db.runs[i].pageCap
    ensures Forward(db, after)
  {
  }

  lemma WorkerForward(env: Env, s: Sys, a: Action)
    requires ValidTarget(s.db.target) && WorkerOk(s)
    requires a.Begin? || a.Charge?
    ensures Forward(s.db, Step(env, s, a).db)
  {
    SameCursors(s.db, Step(env, s, a).db);
  }

  lemma InterruptForward(env: Env, s: Sys, a: Action)
    requires ValidTarget(s.db.target) && WorkerOk(s)
    requires a.RequestFailed? || a.LockLost? || a.Crash? || a.Recover?
    ensures Forward(s.db, Step(env, s, a).db)
  {
    SameCursors(s.db, Step(env, s, a).db);
  }

  lemma EnvironmentForward(env: Env, s: Sys, a: Action)
    requires a.Revise? || a.Pause? || a.AbandonPending? || a.ForeignInsert?
    ensures Forward(s.db, Step(env, s, a).db)
  {
    if !a.AbandonPending? { SameCursors(s.db, Step(env, s, a).db); }
  }

  lemma StepForward(env: Env, s: Sys, a: Action)
    requires Inv(env, s)
    ensures Forward(s.db, Step(env, s, a).db)
  {
    match a
    case Answer(reload) => AnswerForward(env, s, reload);
    case ResolveConfig => ResolveForward(env, s);
    case Revise(_) => EnvironmentForward(env, s, a);
    case Pause => EnvironmentForward(env, s, a);
    case AbandonPending => EnvironmentForward(env, s, a);
    case ForeignInsert(_, _) => EnvironmentForward(env, s, a);
    case Begin(_) => WorkerForward(env, s, a);
    case Charge => WorkerForward(env, s, a);
    case _ => InterruptForward(env, s, a);
  }

  /** Over every run from a reachable state the checkpoint and the watermark never move backward and are never erased. */
  lemma {:induction false} NeverBackward(env: Env, s: Sys, acts: seq<Action>)
    requires Inv(env, s)
    ensures Forward(s.db, Exec(env, s, acts).db)
  {
    KeyOrder();
    if acts != [] {
      var before := Exec(env, s, acts[..|acts| - 1]);
      NeverBackward(env, s, acts[..|acts| - 1]);
      ExecKeeps(env, s, acts[..|acts| - 1]);
      StepForward(env, before, acts[|acts| - 1]);
      ForwardChains(s.db, before.db, Exec(env, s, acts).db);
    }
  }

  /** A step that gave a run back for another try. */
  predicate Retried(db: Db, after: Db, i: nat) {
    && i < |db.runs| && i < |after.runs| && db.runs[i].status.Running? && after.runs[i].status.Running?
    && after.runs[i].errors > db.runs[i].errors
  }

  function RetriesOf(env: Env, s: Sys, acts: seq<Action>, i: nat): (n: nat) {
    if acts == [] then 0
    else
      var before := Exec(env, s, acts[..|acts| - 1]);
      RetriesOf(env, s, acts[..|acts| - 1], i) + (if Retried(before.db, Exec(env, s, acts).db, i) then 1 else 0)
  }

  predicate RetriesStep(db: Db, after: Db, i: nat) {
    && |db.runs| <= |after.runs|
    && (i < |after.runs| ==>
          after.runs[i].retries == (if i < |db.runs| then db.runs[i].retries else 0) + (if Retried(db, after, i) then 1 else 0))
    && (Retried(db, after, i) ==> db.runs[i].retries < 3)
  }

  lemma FinishRetries(db: Db, run: nat, revision: nat, retryable: bool, i: nat)
    requires run < |db.runs| && db.runs[run].status.Running?
    ensures RetriesStep(db, FinishError(db, run, revision, retryable), i)
    ensures RetriesStep(db, FinishLockLost(db, run), i)
  {
  }

  lemma AnswerRetries(env: Env, s: Sys, reload: nat, i: nat)
    requires ValidTarget(s.db.target) && WorkerOk(s)
    ensures RetriesStep(s.db, AnswerStep(env, s, reload).db, i)
  {
    if s.worker.Charged? {
      FinishRetries(s.db, s.worker.session.run, s.worker.session.revision, Refuses(env, s.db, s.worker.session), i);
    }
  }

  lemma StepRetries(env: Env, s: Sys, a: Action, i: nat)
    requires ValidTarget(s.db.target) && WorkerOk(s)
    ensures RetriesStep(s.db, Step(env, s, a).db, i)
  {
    match a
    case Answer(reload) => AnswerRetries(env, s, reload, i);
    case RequestFailed(retryable) =>
      if !s.worker.Idle? { FinishRetries(s.db, RunOf(s.worker), RevisionOf(s.worker), retryable, i); }
    case _ =>
  }

  /** A run is tried again at most three times, over all its dispatches and crashes. */
  lemma {:induction false} RetriesBounded(env: Env, s: Sys, acts: seq<Action>, i: nat)
    requires Initial(s)
    ensures RetriesOf(env, s, acts, i) <= 3
    ensures var runs := Exec(env, s, acts).db.runs;
            if i < |runs| then RetriesOf(env, s, acts, i) == runs[i].retries else RetriesOf(env, s, acts, i) == 0
  {
    if acts != [] {
      var init := acts[..|acts| - 1];
      RetriesBounded(env, s, init, i);
      Safety(env, s, init);
      StepRetries(env, Exec(env, s, init), acts[|acts| - 1], i);
    }
  }
}
