/**
 Which answers are committed, and that a pending traversal can always be driven to its end.
 */
module PlaneProgress {
  import opened Keys
  import opened Windows
  import opened Continuation
  import opened Pages
  import opened Downstream
  import opened ControlPlane
  import opened PlaneInvariant
  import opened PlaneSteps
  import opened PlaneCommit
  import opened PlaneTheorems
  import opened PlaneGuards

  /** The snapshot a session compares with is that of the current row: it was taken by version, or the reload hit it. */
  predicate Synced(db: Db, s: Session) {
    s.snapshot.Some? ==> s.snapshot.value.value == Current(db).value
  }

  predicate Acceptable(api: Api, c: Config, state: Progress, page: Option<Page>) {
    page.Some? && (page.value.more ==> InDomain(api, c, page.value.next) && page.value.next != state)
  }

  lemma PersistExact(env: Env, db: Db, s: Session, page: Page)
    requires DbInv(env, db) && SessionOk(db, s)
    requires env.provider(s.config, s.limit, s.token.state) == Some(page) && DistinctIds(page.facts)
    ensures var saved := Persist(db.store, s.run, s.token.state, page.facts);
            if Clear(db.store, page.facts) then saved.Done? else saved.Refused?
  {
    SessionBinding(env, db, s);
    forall key | key in db.store.observed && key.run == s.run && key.page == s.token.state
      ensures db.store.observed[key] in page.facts && db.store.observed[key].id == key.item
    {
      assert ObservedBy(env, db.target, db.runs[key.run], key, db.store.observed[key]);
    }
    PersistAccepts(db.store, s.run, s.token.state, page.facts, page.facts);
  }

  /** What the page transaction does with an acceptable page: the triggers and the staleness check, in their order. */
  lemma PersistOutcome(env: Env, s: Sys)
    requires Inv(env, s) && s.worker.Charged?
    requires var x := s.worker.session; var page := env.provider(x.config, x.limit, x.token.state);
             Acceptable(s.db.target.api, x.config, x.token.state, page) && DistinctIds(page.value.facts)
    ensures var db, x := s.db, s.worker.session;
            var r := Fetch(env, db.target, x);
            && r.Some? && AnswerSound(db.target, x, r.value) && Answers(env, db, x, r.value) && x.run < |db.runs|
            && var page, final := r.value.page, IsFinal(db.target, x, r.value);
               var saved, ended := Persist(db.store, x.run, x.token.state, page.facts), PersistPage(db, x, r.value, final);
               && (!Clear(db.store, page.facts) ==> ended.Refused?)
               && (Clear(db.store, page.facts) && !Synced(db, x) ==> ended.Raised?)
               && (Clear(db.store, page.facts) && Synced(db, x) ==>
                     saved.Done? && ended == (if page.more ==> Storable(db.target, page.next)
                                              then Done(CommitPage(db, x, r.value, final, saved.value)) else Refused))
  {
    var db, x := s.db, s.worker.session;
    FetchAnswers(env, db, x);
    SessionBinding(env, db, x);
    var r := Fetch(env, db.target, x).value;
    PersistExact(env, db, x, r.page);
    RunningMaxExact(x.cursor, r.page.facts);
    var saved := Persist(db.store, x.run, x.token.state, r.page.facts);
    if saved.Done? { GuardExact(env, db, x, r, IsFinal(db.target, x, r), saved.value); }
  }

  /** The page of the current request, and the four conditions under which it is committed. */
  predicate Committable(env: Env, db: Db, x: Session) {
    var page := env.provider(x.config, x.limit, x.token.state);
    && Acceptable(db.target.api, x.config, x.token.state, page) && Synced(db, x) && Clear(db.store, page.value.facts)
    && (page.value.more ==> Storable(db.target, page.value.next))
  }

  /** A database trigger refuses the page: an item of another account, or a state the continuation trigger does not take. */
  predicate TriggerRefuses(env: Env, db: Db, x: Session) {
    var page := env.provider(x.config, x.limit, x.token.state);
    && Acceptable(db.target.api, x.config, x.token.state, page)
    && (!Clear(db.store, page.value.facts) || (Synced(db, x) && page.value.more && !Storable(db.target, page.value.next)))
  }

  /** The page transaction as the specification of persistence and cursor would have it. */
  ghost predicate Committed(env: Env, db: Db, x: Session, after: Db) {
    exists r, saved ::
      && Fetch(env, db.target, x) == Some(r) && env.provider(x.config, x.limit, x.token.state) == Some(r.page)
      && Persist(db.store, x.run, x.token.state, r.page.facts) == Done(saved)
      && x.run < |db.runs| && after == CommitPage(db, x, r, IsFinal(db.target, x, r), saved)
  }

  /**
   A page whose facts carry distinct identities is committed exactly when its next state lies in the codec's domain and
   differs from the request's, the cursor row reloaded last was the current one, none of its items was first stored under
   another account of the source, and the next state names no SEC history file under a CIK that needs padding. The checks
   on lineage, hash, window, order and idempotency never refuse it. Otherwise nothing is written and the run fails, with a
   retry exactly when a trigger refused.
   */
  lemma AnswerCommits(env: Env, s: Sys, reload: nat)
    requires Inv(env, s) && s.worker.Charged?
    requires var x := s.worker.session; var page := env.provider(x.config, x.limit, x.token.state);
             page.Some? ==> DistinctIds(page.value.facts)
    ensures var x := s.worker.session;
            var after := AnswerStep(env, s, reload);
            if Committable(env, s.db, x) then Committed(env, s.db, x, after.db)
            else after == Sys(FinishError(s.db, x.run, x.revision, TriggerRefuses(env, s.db, x)), Idle)
  {
    var db, x := s.db, s.worker.session;
    var page := env.provider(x.config, x.limit, x.token.state);
    if Acceptable(db.target.api, x.config, x.token.state, page) {
      PersistOutcome(env, s);
      var r := Fetch(env, db.target, x).value;
      if Committable(env, db, x) {
        var saved := Persist(db.store, x.run, x.token.state, r.page.facts).value;
        assert AnswerStep(env, s, reload).db == CommitPage(db, x, r, IsFinal(db.target, x, r), saved);
      }
    } else {
      FetchAnswers(env, db, x);
      SessionBinding(env, db, x);
    }
  }

  /** A session that holds another version's row fails its page without a write, whatever the provider answers. */
  lemma StaleFails(env: Env, s: Sys, reload: nat)
    requires Inv(env, s) && s.worker.Charged? && !Synced(s.db, s.worker.session)
    ensures var x := s.worker.session;
            AnswerStep(env, s, reload) == Sys(FinishError(s.db, x.run, x.revision, Refuses(env, s.db, x)), Idle)
  {
    SessionBinding(env, s.db, s.worker.session);
  }

  /** Nothing of the pending traversal changed. */
  predicate SameTraversal(a: Db, b: Db) {
    && b.target == a.target && b.trail == a.trail && b.chain == a.chain && b.closed == a.closed && b.store == a.store
    && Current(b).token == Current(a).token
  }

  /** A pending traversal of an active target, wherever its worker is. */
  ghost predicate Poised(env: Env, s: Sys) {
    Reachable(env, s) && s.db.target.status.Active? && Current(s.db).token.Some?
  }

  function PendingConfig(db: Db): (c: Config)
    requires Current(db).token.Some?
  {
    Current(db).token.value.configHash.of
  }

  /** The provider's pages for the pending traversal end; codec and triggers accept every state and item on the way. */
  ghost predicate Traversable(env: Env, db: Db, whole: seq<Progress>) {
    Current(db).token.Some? &&
    var c := PendingConfig(db);
    var f := Through(env, c, db.target.batchLimit);
    && Complete(f, whole)
    && (forall i :: 0 <= i < |whole| ==> DistinctIds(f(whole[i]).value.facts) && Clear(db.store, f(whole[i]).value.facts))
    && (forall i :: 0 <= i < |whole| ==> InDomain(db.target.api, c, whole[i]) && Storable(db.target, whole[i]))
  }

  lemma {:induction false} ExecConcat(env: Env, s: Sys, a: seq<Action>, b: seq<Action>)
    ensures Exec(env, s, a + b) == Exec(env, Exec(env, s, a), b)
  {
    if b == [] {
      assert a + b == a;
    } else {
      assert (a + b)[..|a + b| - 1] == a + b[..|b| - 1];
      ExecConcat(env, s, a, b[..|b| - 1]);
    }
  }

  lemma ExecOne(env: Env, s: Sys, a: Action)
    ensures Exec(env, s, [a]) == Step(env, s, a)
  {
  }

  /** What the surroundings choose: which row each reload hits, what the clock says when a run opens, and whether the
      deadline of the run at hand has passed. */
  datatype World = World(pick: Sys -> nat, clock: Sys -> Clock, late: Sys -> bool)

  /** The first request of a run is never late: its deadline lies max_runtime_seconds after its start. */
  ghost predicate Fair(w: World) {
    forall s: Sys {:trigger w.late(s)} ::
      s.worker.Charged? && s.worker.session.run < |s.db.runs| && s.db.runs[s.worker.session.run].requests == 1 ==> !w.late(s)
  }

  /** A run without faults: every request that is not late is answered, a late one fails its run. */
  predicate FollowsAt(env: Env, s: Sys, acts: seq<Action>, w: World, k: nat)
    requires k < |acts|
  {
    var at := Exec(env, s, acts[..k]);
    match acts[k]
    case Begin(t) => t == w.clock(at)
    case ResolveConfig => true
    case Charge => true
    case Answer(reload) => !w.late(at) && reload == w.pick(at)
    case RequestFailed(retryable) => !retryable && at.worker.Charged? && w.late(at)
    case _ => false
  }

  predicate Follows(env: Env, s: Sys, acts: seq<Action>, w: World) {
    forall k :: 0 <= k < |acts| ==> FollowsAt(env, s, acts, w, k)
  }

  lemma FollowsOne(env: Env, s: Sys, a: Action, w: World)
    requires match a
             case Begin(t) => t == w.clock(s)
             case ResolveConfig => true
             case Charge => true
             case Answer(reload) => !w.late(s) && reload == w.pick(s)
             case RequestFailed(retryable) => !retryable && s.worker.Charged? && w.late(s)
             case _ => false
    ensures Follows(env, s, [a], w) && Exec(env, s, [a]) == Step(env, s, a)
  {
    assert [a][..0] == [];
  }

  lemma FollowsConcat(env: Env, s: Sys, a: seq<Action>, b: seq<Action>, w: World)
    requires Follows(env, s, a, w) && Follows(env, Exec(env, s, a), b, w)
    ensures Follows(env, s, a + b, w)
  {
    forall k | 0 <= k < |a + b| ensures FollowsAt(env, s, a + b, w, k) {
      if k < |a| {
        assert (a + b)[..k] == a[..k];
        assert FollowsAt(env, s, a, w, k);
      } else {
        assert (a + b)[..k] == a + b[..k - |a|];
        ExecConcat(env, s, a, b[..k - |a|]);
        assert FollowsAt(env, Exec(env, s, a), b, w, k - |a|);
      }
    }
  }

  /** A pending continuation always resolves, in an adopted run as in a new one. */
  lemma ResolveSucceeds(env: Env, s: Sys)
    requires Inv(env, s) && s.worker.Started? && Current(s.db).token.Some?
    ensures ResolveRun(env, s.db, s.worker.run, s.worker.snapshot).Done?
  {
    var db, i := s.db, s.worker.run;
    var c := Current(db);
    assert CursorOk(db.target, db.runs, db.target.cursorVersion, c);
    assert RunOk(db.target, db.runs[c.bound.value]) && RunOk(db.target, db.runs[i]);
    HashesAgree(db.target.api, db.target.config, c.token.value.window);
    assert db.runs[i].window.Some? ==> c.bound == Some(i);
    ResolveNeverRefused(env, db, i, s.worker.snapshot);
  }

  /** Ready, on behalf of a run that has sent nothing yet, with the snapshot its dispatch took. */
  predicate AtFreshRun(s: Sys) {
    s.worker.Ready? && s.worker.session.run < |s.db.runs| && s.db.runs[s.worker.session.run].requests == 0
  }

  predicate ReadySynced(s: Sys) { s.worker.Ready? && Synced(s.db, s.worker.session) }

  lemma BeginStarts(env: Env, s: Sys, now: Clock)
    requires Reachable(env, s) && s.worker.Idle? && s.db.target.status.Active?
    ensures var t := Step(env, s, Begin(now));
            && Reachable(env, t) && t.worker.Started? && t.worker.snapshot == CurrentRow(t.db) && t.worker.run < |t.db.runs|
            && SameTraversal(s.db, t.db) && t.db.cursors == s.db.cursors
            && ValidTarget(s.db.target) && RunningFrom(t.db.runs, 0) == Some(t.worker.run)
            && (RunningFrom(s.db.runs, 0).None? ==> t.db.runs[t.worker.run].requests == 0)
  {
    ReachableStep(env, s, Begin(now));
    ReachableInv(env, s);
    ReachableInv(env, Step(env, s, Begin(now)));
    var t := Step(env, s, Begin(now));
    assert RunningFrom(t.db.runs, 0).Some?;
  }

  lemma ResolvePoised(env: Env, s: Sys)
    requires Poised(env, s) && s.worker.Started?
    ensures var t := Step(env, s, ResolveConfig);
            && Poised(env, t) && ReadySynced(t) && SameTraversal(s.db, t.db)
            && (s.worker.run < |s.db.runs| && s.db.runs[s.worker.run].requests == 0 ==> AtFreshRun(t))
  {
    ReachableStep(env, s, ResolveConfig);
    ReachableInv(env, s);
    ResolveSucceeds(env, s);
    ResolveBinds(env, s.db, s.worker.run, s.worker.snapshot);
  }

  /** The window the next dispatch freezes when no continuation is pending. */
  function OpeningWindow(env: Env, s: Sys, now: Clock): (w: Window)
    requires ValidTarget(s.db.target)
  {
    var started := StartRun(s.db, now);
    var run := RunningFrom(started.runs, 0);
    var at := if run.Some? then started.runs[run.value].startedAt else now;
    var row := Current(s.db).watermark;
    Resolve(Loaded(s.db.target).spec, at, if row.Some? then Some(env.clockOf(row.value)) else None)
  }

  /** A dispatch without pending continuation freezes the window of its start and opens a traversal. */
  lemma OpensResolve(env: Env, s: Sys)
    requires Inv(env, s) && s.worker.Started? && Current(s.db).token.None?
    requires var row := Current(s.db).watermark;
             ValidFixed(WindowClass(s.db.target.api),
                        Resolve(Loaded(s.db.target).spec, s.db.runs[s.worker.run].startedAt,
                                if row.Some? then Some(env.clockOf(row.value)) else None))
    ensures var r := ResolveRun(env, s.db, s.worker.run, s.worker.snapshot);
            var row := Current(s.db).watermark;
            && r.Done?
            && r.value.token.window == Resolve(Loaded(s.db.target).spec, s.db.runs[s.worker.run].startedAt,
                                               if row.Some? then Some(env.clockOf(row.value)) else None)
  {
    var db, i := s.db, s.worker.run;
    assert db.target.cursorVersion in db.cursors ==> CursorOk(db.target, db.runs, db.target.cursorVersion, Current(db));
    assert RunOk(db.target, db.runs[i]);
    assert db.runs[i].window.None?;
    ResolveNeverRefused(env, db, i, s.worker.snapshot);
  }

  /** What opening a traversal leaves alone: target, chain number, checkpoints, other cursor rows. */
  predicate OpenedFrom(a: Db, b: Db) {
    && b.target == a.target && b.trail == [] && b.chain == a.chain && b.closed == a.closed && b.store == a.store
    && Current(b).value == Current(a).value
    && (forall v :: v in a.cursors && v != a.target.cursorVersion ==> v in b.cursors && b.cursors[v] == a.cursors[v])
  }

  lemma ResolveOpens(env: Env, s: Sys)
    requires Reachable(env, s) && s.worker.Started? && s.worker.snapshot == CurrentRow(s.db) && s.worker.run < |s.db.runs|
    requires s.db.target.status.Active? && Current(s.db).token.None? && ValidTarget(s.db.target)
    requires var row := Current(s.db).watermark;
             ValidFixed(WindowClass(s.db.target.api),
                        Resolve(Loaded(s.db.target).spec, s.db.runs[s.worker.run].startedAt,
                                if row.Some? then Some(env.clockOf(row.value)) else None))
    ensures var t := Step(env, s, ResolveConfig);
            var row := Current(s.db).watermark;
            && Poised(env, t) && ReadySynced(t) && t.worker.session.index == 0 && OpenedFrom(s.db, t.db)
            && Current(t.db).token.value.state == Start
            && PendingConfig(t.db) == ResolvedConfig(Loaded(s.db.target),
                                        Resolve(Loaded(s.db.target).spec, s.db.runs[s.worker.run].startedAt,
                                                if row.Some? then Some(env.clockOf(row.value)) else None))
            && (s.db.runs[s.worker.run].requests == 0 ==> AtFreshRun(t))
  {
    ReachableStep(env, s, ResolveConfig);
    ReachableInv(env, s);
    OpensResolve(env, s);
    ResolveBinds(env, s.db, s.worker.run, s.worker.snapshot);
  }

  /** From rest without pending continuation, one dispatch opens a traversal of the opening window. */
  lemma Opens(env: Env, s: Sys, now: Clock)
    requires Reachable(env, s) && s.worker.Idle? && s.db.target.status.Active? && Current(s.db).token.None?
    requires ValidTarget(s.db.target) && ValidFixed(WindowClass(s.db.target.api), OpeningWindow(env, s, now))
    ensures var t := Exec(env, s, [Begin(now)] + [ResolveConfig]);
            && Poised(env, t) && ReadySynced(t) && t.worker.session.index == 0 && OpenedFrom(s.db, t.db)
            && Current(t.db).token.value.state == Start
            && PendingConfig(t.db) == ResolvedConfig(Loaded(s.db.target), OpeningWindow(env, s, now))
            && (RunningFrom(s.db.runs, 0).None? ==> AtFreshRun(t))
  {
    ExecConcat(env, s, [Begin(now)], [ResolveConfig]);
    ExecOne(env, s, Begin(now));
    BeginStarts(env, s, now);
    var t := Step(env, s, Begin(now));
    ExecOne(env, t, ResolveConfig);
    NothingCommitted(env, s);
    ResolveOpens(env, t);
  }

  lemma NothingCommitted(env: Env, s: Sys)
    requires Reachable(env, s) && Current(s.db).token.None?
    ensures s.db.trail == []
  {
    ReachableInv(env, s);
  }

  ghost predicate AtRequest(env: Env, s: Sys) {
    Reachable(env, s) && s.db.target.status.Active? && s.worker.Charged?
  }

  ghost predicate AtSyncedRequest(env: Env, s: Sys) {
    AtRequest(env, s) && Synced(s.db, s.worker.session)
  }

  /** A request that will be answered, of a session whose snapshot is current. */
  ghost predicate AtServed(env: Env, s: Sys, w: World) {
    AtSyncedRequest(env, s) && !w.late(s)
  }

  /** Between dispatches, with no run left open. */
  ghost predicate AtRest(env: Env, s: Sys) {
    Poised(env, s) && s.worker.Idle? && RunningFrom(s.db.runs, 0).None?
  }

  /** The first request of a run. */
  predicate FirstSent(s: Sys) {
    s.worker.Charged? && s.worker.session.run < |s.db.runs| && s.db.runs[s.worker.session.run].requests == 1
  }

  /** A charge either sends the next request, or ends an exhausted run and leaves none running. */
  lemma ChargeOutcome(s: Sys)
    requires RunsOk(s.db.target, s.db.runs) && WorkerOk(s) && s.worker.Ready? && s.db.target.status.Active?
    ensures var t := ChargeStep(s);
            && SameTraversal(s.db, t.db)
            && (AtFreshRun(s) ==> FirstSent(t))
            && (t.worker.Charged? && ReadySynced(s) ==> Synced(t.db, t.worker.session))
            && (t.worker.Charged? || (t.worker.Idle? && RunningFrom(t.db.runs, 0).None?))
  {
  }

  lemma ChargeOne(env: Env, s: Sys)
    requires Poised(env, s) && s.worker.Ready?
    ensures var t := Step(env, s, Charge);
            && SameTraversal(s.db, t.db)
            && (AtFreshRun(s) ==> AtRequest(env, t) && FirstSent(t))
            && (AtRequest(env, t) && ReadySynced(s) ==> AtSyncedRequest(env, t))
            && (AtRequest(env, t) || AtRest(env, t))
  {
    ReachableStep(env, s, Charge);
    assert RunsOk(s.db.target, s.db.runs) && WorkerOk(s) by { ReachableInv(env, s); }
    ChargeOutcome(s);
  }

  lemma ThenFollows(env: Env, s: Sys, acts: seq<Action>, a: Action, w: World)
    requires Follows(env, s, acts, w) && Follows(env, Exec(env, s, acts), [a], w)
    ensures Follows(env, s, acts + [a], w) && Exec(env, s, acts + [a]) == Step(env, Exec(env, s, acts), a)
  {
    FollowsConcat(env, s, acts, [a], w);
    ExecConcat(env, s, acts, [a]);
    ExecOne(env, Exec(env, s, acts), a);
  }

  /** From a started or idle worker to the request its dispatch sends first, or to rest. */
  lemma FromStarted(env: Env, s: Sys, w: World) returns (acts: seq<Action>)
    requires Poised(env, s) && s.worker.Started?
    ensures Follows(env, s, acts, w)
    ensures var t := Exec(env, s, acts);
            && SameTraversal(s.db, t.db) && (AtSyncedRequest(env, t) || AtRest(env, t))
            && (s.worker.run < |s.db.runs| && s.db.runs[s.worker.run].requests == 0 ==> AtSyncedRequest(env, t) && FirstSent(t))
  {
    ResolvePoised(env, s);
    FollowsOne(env, s, ResolveConfig, w);
    var t := Step(env, s, ResolveConfig);
    ChargeOne(env, t);
    FollowsOne(env, t, Charge, w);
    ThenFollows(env, s, [ResolveConfig], Charge, w);
    acts := [ResolveConfig] + [Charge];
  }

  lemma FromIdle(env: Env, s: Sys, w: World) returns (acts: seq<Action>)
    requires Poised(env, s) && s.worker.Idle? && Fair(w)
    ensures Follows(env, s, acts, w)
    ensures var t := Exec(env, s, acts);
            && SameTraversal(s.db, t.db) && (AtSyncedRequest(env, t) || AtRest(env, t))
            && (RunningFrom(s.db.runs, 0).None? ==> AtServed(env, t, w))
  {
    var now := w.clock(s);
    BeginStarts(env, s, now);
    FollowsOne(env, s, Begin(now), w);
    var t := Step(env, s, Begin(now));
    var tail := FromStarted(env, t, w);
    FollowsConcat(env, s, [Begin(now)], tail, w);
    ExecConcat(env, s, [Begin(now)], tail);
    acts := [Begin(now)] + tail;
  }

  /** What the pending traversal says of the page at hand, but for the session's snapshot. */
  lemma PendingPage(env: Env, sys: Sys, whole: seq<Progress>)
    requires AtRequest(env, sys) && Traversable(env, sys.db, whole)
    ensures var db, s := sys.db, sys.worker.session;
            var f := Through(env, s.config, s.limit);
            var page := f(s.token.state);
            && Current(db).token == Some(s.token) && s.token.configHash == Digest(s.config) && s.limit == db.target.batchLimit
            && |db.trail| < |whole| && s.token.state == whole[|db.trail|]
            && Acceptable(db.target.api, s.config, s.token.state, page)
            && DistinctIds(page.value.facts) && Clear(db.store, page.value.facts)
            && (page.value.more ==> Storable(db.target, page.value.next))
            && (!page.value.more ==> db.trail + [s.token.state] == whole)
  {
    ReachableInv(env, sys);
    var db, s := sys.db, sys.worker.session;
    SessionBinding(env, db, s);
    var f := Through(env, s.config, s.limit);
    PositionPrefix(f, db.trail, s.token.state, whole);
    if f(s.token.state).value.more {
      NextDiffers(f, db.trail, s.token.state, whole);
    } else {
      Extends(f, db.trail, s.token.state);
      ChainPrefix(f, db.trail + [s.token.state], whole);
    }
  }

  lemma NextDiffers(f: Fetcher, trail: seq<Progress>, state: Progress, whole: seq<Progress>)
    requires Position(f, trail, state) && Complete(f, whole) && f(state).Some? && f(state).value.more
    ensures |trail| + 1 < |whole| && f(state).value.next == whole[|trail| + 1] && f(state).value.next != state
  {
    PositionPrefix(f, trail, state, whole);
    NoPageTwice(f, whole);
    if |trail| + 1 < |whole| { ChainLink(f, whole, |trail|); }
  }

  /** A run that fails for good leaves the traversal where it was, and no run open. */
  lemma FailedRests(env: Env, s: Sys)
    requires AtRequest(env, s)
    ensures var x := s.worker.session;
            var t := Sys(FinishError(s.db, x.run, x.revision, false), Idle);
            Current(s.db).token.Some? && SameTraversal(s.db, t.db) && RunningFrom(t.db.runs, 0).None?
  {
    ReachableInv(env, s);
    var db, i := s.db, s.worker.session.run;
    assert forall k :: 0 <= k < |db.runs| && k != i ==> !db.runs[k].status.Running?;
  }

  /** A late request, or one of a stale session, ends its run. */
  lemma GivesUp(env: Env, s: Sys, whole: seq<Progress>, w: World) returns (a: Action)
    requires AtRequest(env, s) && Traversable(env, s.db, whole) && !AtServed(env, s, w)
    ensures Follows(env, s, [a], w)
    ensures var t := Step(env, s, a); SameTraversal(s.db, t.db) && AtRest(env, t)
  {
    var x := s.worker.session;
    FailedRests(env, s);
    if w.late(s) {
      a := RequestFailed(false);
    } else {
      a := Answer(w.pick(s));
      PendingPage(env, s, whole);
      ReachableInv(env, s);
      AnswerCommits(env, s, w.pick(s));
    }
    FollowsOne(env, s, a, w);
    ReachableStep(env, s, a);
    assert Step(env, s, a) == Sys(FinishError(s.db, x.run, x.revision, false), Idle);
  }

  /** From wherever the worker is to some request, or to rest. */
  lemma SomeRequest(env: Env, s: Sys, w: World) returns (acts: seq<Action>)
    requires Poised(env, s) && Fair(w)
    ensures Follows(env, s, acts, w)
    ensures var t := Exec(env, s, acts); SameTraversal(s.db, t.db) && (AtRequest(env, t) || AtRest(env, t))
  {
    match s.worker
    case Idle => acts := FromIdle(env, s, w);
    case Started(_, _, _) => acts := FromStarted(env, s, w);
    case Ready(_) =>
      ChargeOne(env, s);
      FollowsOne(env, s, Charge, w);
      acts := [Charge];
    case Charged(_) => acts := [];
  }

  /** From any pending state to a request that will be answered, over exhausted budgets, deadlines and stale reloads. */
  lemma NextRequest(env: Env, s: Sys, whole: seq<Progress>, w: World) returns (acts: seq<Action>)
    requires Poised(env, s) && Traversable(env, s.db, whole) && Fair(w)
    ensures AtServed(env, Exec(env, s, acts), w) && SameTraversal(s.db, Exec(env, s, acts).db)
    ensures Follows(env, s, acts, w)
  {
    acts := SomeRequest(env, s, w);
    var t := Exec(env, s, acts);
    if AtRequest(env, t) && !AtServed(env, t, w) {
      TraversableStays(env, s.db, t.db, whole);
      var a := GivesUp(env, t, whole, w);
      ThenFollows(env, s, acts, a, w);
      acts := acts + [a];
    }
    var u := Exec(env, s, acts);
    if !AtServed(env, u, w) {
      var tail := FromIdle(env, u, w);
      FollowsConcat(env, s, acts, tail, w);
      ExecConcat(env, s, acts, tail);
      acts := acts + tail;
    }
  }

  lemma TraversableStays(env: Env, a: Db, b: Db, whole: seq<Progress>)
    requires Traversable(env, a, whole) && b.target == a.target && Current(b).token.Some? && PendingConfig(b) == PendingConfig(a)
    requires forall id :: Alien(b.store, id) ==> Alien(a.store, id)
    ensures Traversable(env, b, whole)
  {
    var f := Through(env, PendingConfig(a), a.target.batchLimit);
    forall i | 0 <= i < |whole| ensures Clear(b.store, f(whole[i]).value.facts) {
      assert Clear(a.store, f(whole[i]).value.facts);
    }
  }

  lemma ClosedOfReachable(env: Env, s: Sys, r: nat)
    requires Reachable(env, s) && r in s.db.closed
    ensures ClosedRun(env, s.db, r)
  {
    ReachableInv(env, s);
  }

  /** A committed page leaves the worker idle or ready for the next request, wherever the reload hit. */
  lemma CommitShape(env: Env, s: Sys, reload: nat) returns (r: Result, saved: Saved)
    requires AtSyncedRequest(env, s) && Committable(env, s.db, s.worker.session)
    requires var x := s.worker.session; DistinctIds(env.provider(x.config, x.limit, x.token.state).value.facts)
    ensures var x := s.worker.session;
            var t := AnswerStep(env, s, reload);
            && Answers(env, s.db, x, r) && x.run < |s.db.runs|
            && Persist(s.db.store, x.run, x.token.state, r.page.facts) == Done(saved)
            && t.db == CommitPage(s.db, x, r, IsFinal(s.db.target, x, r), saved)
            && (if IsFinal(s.db.target, x, r) then t.worker.Idle?
                else r.token.Some? && t.worker == Ready(NextSession(t.db, x, r, reload)))
  {
    ReachableInv(env, s);
    var x := s.worker.session;
    PersistOutcome(env, s);
    r := Fetch(env, s.db.target, x).value;
    saved := Persist(s.db.store, x.run, x.token.state, r.page.facts).value;
  }

  ghost predicate Closes(env: Env, before: Db, db: Db, whole: seq<Progress>) {
    && db.chain == before.chain + 1
    && exists r :: ClosedRun(env, db, r) && db.closed[r].chain == before.chain && db.closed[r].states == whole
                   && (Current(before).token.Some? ==> db.closed[r].config == PendingConfig(before))
                   && db.closed[r].limit == before.target.batchLimit
  }

  /** Closed the traversal, or one page further in it. */
  ghost predicate Advanced(env: Env, db: Db, t: Sys, whole: seq<Progress>) {
    || (Closes(env, db, t.db, whole) && Reachable(env, t))
    || (Poised(env, t) && Traversable(env, t.db, whole) && |t.db.trail| == |db.trail| + 1
        && t.db.chain == db.chain && t.db.target == db.target
        && Current(db).token.Some? && PendingConfig(t.db) == PendingConfig(db))
  }

  /** The page transaction commits the next page of the chain. */
  lemma CommitNext(env: Env, s: Sys, whole: seq<Progress>, reload: nat)
    requires AtSyncedRequest(env, s) && Traversable(env, s.db, whole)
    ensures Advanced(env, s.db, AnswerStep(env, s, reload), whole) && |s.db.trail| < |whole|
  {
    var x := s.worker.session;
    PendingPage(env, s, whole);
    var r, saved := CommitShape(env, s, reload);
    var t := AnswerStep(env, s, reload);
    ReachableStep(env, s, Answer(reload));
    PersistKeepsAliens(s.db.store, x.run, x.token.state, r.page.facts);
    if r.page.more {
      TraversableStays(env, s.db, t.db, whole);
    } else {
      assert t.db.closed[x.run] == Trail(s.db.chain, x.config, x.limit, s.db.trail + [x.token.state]);
      ClosedOfReachable(env, t, x.run);
    }
  }

  lemma AdvancedFrom(env: Env, a: Db, b: Db, t: Sys, whole: seq<Progress>)
    requires SameTraversal(a, b) && Advanced(env, b, t, whole)
    ensures Advanced(env, a, t, whole)
  {
  }

  lemma AnswerNext(env: Env, db: Db, t: Sys, whole: seq<Progress>, reload: nat)
    ensures AtSyncedRequest(env, t) && SameTraversal(db, t.db) && Traversable(env, db, whole) ==>
              Advanced(env, db, AnswerStep(env, t, reload), whole) && |db.trail| < |whole|
  {
    if AtSyncedRequest(env, t) && SameTraversal(db, t.db) && Traversable(env, db, whole) {
      TraversableStays(env, db, t.db, whole);
      CommitNext(env, t, whole, reload);
      AdvancedFrom(env, db, t.db, AnswerStep(env, t, reload), whole);
    }
  }

  lemma OnePage(env: Env, s: Sys, whole: seq<Progress>, w: World) returns (acts: seq<Action>)
    requires Poised(env, s) && Traversable(env, s.db, whole) && Fair(w)
    ensures Advanced(env, s.db, Exec(env, s, acts), whole) && |s.db.trail| < |whole|
    ensures Follows(env, s, acts, w)
  {
    var head := NextRequest(env, s, whole, w);
    var t := Exec(env, s, head);
    var answer := Answer(w.pick(t));
    AnswerNext(env, s.db, t, whole, w.pick(t));
    FollowsOne(env, t, answer, w);
    ThenFollows(env, s, head, answer, w);
    acts := head + [answer];
  }

  /**
   Recovery: from every reachable state with a pending continuation, wherever its worker is and whatever crashes, budget
   stops, deadlines and stale reloads led there, dispatches without further faults close the traversal having committed the
   whole chain, even if the database picks the row of every reload and requests after a run's first one may come too late.
   */
  lemma {:induction false} Drains(env: Env, s: Sys, whole: seq<Progress>, w: World) returns (acts: seq<Action>)
    requires Poised(env, s) && Traversable(env, s.db, whole) && Fair(w)
    ensures Closes(env, s.db, Exec(env, s, acts).db, whole) && Reachable(env, Exec(env, s, acts))
    ensures Follows(env, s, acts, w)
    decreases |whole| - |s.db.trail|
  {
    acts := OnePage(env, s, whole, w);
    var u := Exec(env, s, acts);
    if !Closes(env, s.db, u.db, whole) {
      var tail := Drains(env, u, whole, w);
      FollowsConcat(env, s, acts, tail, w);
      ExecConcat(env, s, acts, tail);
      acts := acts + tail;
    }
  }

  /** A window resolved from a valid target is valid for every operation but the monthly one. */
  lemma OpeningValid(env: Env, s: Sys, now: Clock)
    requires ValidTarget(s.db.target) && !s.db.target.api.EiaRetail?
    ensures ValidFixed(WindowClass(s.db.target.api), OpeningWindow(env, s, now))
  {
    var t, started := s.db.target, StartRun(s.db, now);
    var run, row := RunningFrom(started.runs, 0), Current(s.db).watermark;
    var at := if run.Some? then started.runs[run.value].startedAt else now;
    if !Loaded(t).spec.Fixed? {
      RollingWindowSound(WindowClass(t.api), Loaded(t).spec, at, if row.Some? then Some(env.clockOf(row.value)) else None, 0);
    }
  }

  /** A reachable state of an active target; a monthly window to open must not start before year 1. */
  ghost predicate AtWork(env: Env, s: Sys, w: World) {
    && Reachable(env, s) && s.db.target.status.Active? && ValidTarget(s.db.target) && Fair(w)
    && (Current(s.db).token.None? && s.db.target.api.EiaRetail? ==>
          ValidFixed(WindowClass(s.db.target.api), OpeningWindow(env, s, w.clock(s))))
  }

  /** The configuration the next request is made under. */
  function AimOf(env: Env, s: Sys, w: World): (c: Config)
    requires ValidTarget(s.db.target)
  {
    if Current(s.db).token.Some? then PendingConfig(s.db)
    else ResolvedConfig(Loaded(s.db.target), OpeningWindow(env, s, w.clock(s)))
  }

  /** From there to a pending traversal of that configuration, with nothing stored in between. */
  lemma GetsPoised(env: Env, s: Sys, w: World) returns (acts: seq<Action>)
    requires AtWork(env, s, w)
    ensures Follows(env, s, acts, w)
    ensures var t := Exec(env, s, acts);
            Poised(env, t) && t.db.target == s.db.target && t.db.store == s.db.store && PendingConfig(t.db) == AimOf(env, s, w)
  {
    var now := w.clock(s);
    if !s.db.target.api.EiaRetail? { OpeningValid(env, s, now); }
    if Current(s.db).token.Some? {
      acts := [];
    } else {
      UnboundWorker(env, s);
      if s.worker.Idle? {
        Opens(env, s, now);
        BeginStarts(env, s, now);
        FollowsOne(env, s, Begin(now), w);
        FollowsOne(env, Step(env, s, Begin(now)), ResolveConfig, w);
        ThenFollows(env, s, [Begin(now)], ResolveConfig, w);
        acts := [Begin(now)] + [ResolveConfig];
      } else {
        ResolveOpens(env, s);
        FollowsOne(env, s, ResolveConfig, w);
        acts := [ResolveConfig];
      }
    }
  }

  /** Without a continuation the worker is idle, or has just started the one open run. */
  lemma UnboundWorker(env: Env, s: Sys)
    requires Reachable(env, s) && Current(s.db).token.None?
    ensures s.worker.Idle? || (s.worker.Started? && s.worker.snapshot == CurrentRow(s.db) && s.worker.run < |s.db.runs|
                               && RunningFrom(s.db.runs, 0) == Some(s.worker.run))
    ensures s.db.trail == []
  {
    ReachableInv(env, s);
  }
}
