/**
 What every reachable state of the control plane satisfies, one concern per predicate.
 */
module PlaneInvariant {
  import opened Keys
  import opened Windows
  import opened Continuation
  import opened Pages
  import opened Downstream
  import opened ControlPlane

  function Loaded(t: Target): (c: Config)
    requires BreadthConfig(t.api, t.config).Some?
  {
    BreadthConfig(t.api, t.config).value
  }

  /** Window and configuration hash are frozen together, before the first request, and budgets hold. */
  predicate RunOk(t: Target, r: Run) {
    && (r.window.Some? <==> r.hash.Some?)
    && (r.window.Some? ==> ValidFixed(WindowClass(t.api), r.window.value))
    && (r.requests > 0 ==> r.window.Some?)
    && r.pages <= r.requests <= r.cap && r.pages <= r.pageCap
    && r.fetched == r.inserted + r.duplicates
    && (r.status.Running? ==> r.cap == t.maxRequests && r.pageCap == t.maxPages)
  }

  predicate RunsOk(t: Target, runs: seq<Run>) {
    && ValidTarget(t)
    && (forall i :: 0 <= i < |runs| ==> RunOk(t, runs[i]))
    && (forall i, j :: 0 <= i < j < |runs| ==> !(runs[i].status.Running? && runs[j].status.Running?))
  }

  /** The insert counter of a run is the number of raw items it owns. */
  predicate StoreOk(runs: seq<Run>, store: Store) {
    && (forall x :: x in store.raw && store.raw[x].ByRun? ==> store.raw[x].run < |runs|)
    && (forall i :: 0 <= i < |runs| ==> runs[i].inserted == |OwnedBy(store, i)|)
  }

  /** A pending continuation: bound to a run that is not finished, and to the target as it is now. */
  predicate TokenOk(t: Target, runs: seq<Run>, token: Token, bound: nat)
    requires ValidTarget(t)
  {
    && bound < |runs| && !runs[bound].status.Succeeded?
    && runs[bound].window == Some(token.window) && runs[bound].hash == Some(token.configHash)
    && Decode(token, t.api, ResolvedConfig(Loaded(t), token.window), LineageOf(t)) == Some(token.state)
    && (t.config.spec.Fixed? ==> token.window == t.config.spec.window) && StateGuard(t, token.state)
  }

  predicate CursorOk(t: Target, runs: seq<Run>, version: nat, c: Cursor)
    requires ValidTarget(t)
  {
    && (c.token.Some? <==> c.bound.Some?)
    && (c.token.Some? ==> version == t.cursorVersion && TokenOk(t, runs, c.token.value, c.bound.value))
    && c.watermark == (if c.value.Some? then Some(c.value.value.at) else None)
  }

  predicate CursorsOk(db: Db)
    requires ValidTarget(db.target)
  {
    && (forall v :: v in db.cursors ==> CursorOk(db.target, db.runs, v, db.cursors[v]))
    && (forall i :: 0 <= i < |db.runs| && db.runs[i].status.Running? && db.runs[i].window.Some? ==>
          Current(db).bound == Some(i))
  }

  /** Facts stored, refusals audited. */
  predicate Kept(store: Store, audited: set<RowHash>, page: Option<Page>) {
    && page.Some? && Stored(store, page.value.facts)
    && (forall h :: h in page.value.rejected ==> h in audited)
  }

  predicate AllKept(store: Store, audited: set<RowHash>, f: Fetcher, states: seq<Progress>) {
    forall i :: 0 <= i < |states| ==> Kept(store, audited, f(states[i]))
  }

  /** `state` is the request after the committed pages `trail`. */
  ghost predicate Position(f: Fetcher, trail: seq<Progress>, state: Progress) {
    if trail == [] then state == Start
    else
      && IsChain(f, trail)
      && f(trail[|trail| - 1]).value.more && state == f(trail[|trail| - 1]).value.next
  }

  /** The committed pages of a pending traversal are the chain up to the continuation. */
  ghost predicate TrailOk(env: Env, db: Db) {
    var c := Current(db);
    if c.token.None? then db.trail == []
    else
      var f := Through(env, c.token.value.configHash.of, db.target.batchLimit);
      Position(f, db.trail, c.token.value.state) && AllKept(db.store, db.audited, f, db.trail)
  }

  function LastPage(f: Fetcher, states: seq<Progress>): (p: Option<Page>) {
    if states == [] then None else f(states[|states| - 1])
  }

  /** A run that closed its traversal committed the whole chain; it succeeded unless the chain was cut short. */
  ghost predicate ClosedRun(env: Env, db: Db, r: nat) {
    r in db.closed && r < |db.runs| &&
    var t, run := db.closed[r], db.runs[r];
    var f := Through(env, t.config, t.limit);
    && run.hash == Some(Digest(t.config)) && run.window.Some? && t.config.spec == Fixed(run.window.value) && t.chain < db.chain && 1 <= t.limit <= 100
    && Complete(f, t.states) && AllKept(db.store, db.audited, f, t.states)
    && run.status == (if LastPage(f, t.states).value.incomplete then Partial else Succeeded)
  }

  ghost predicate ClosedOk(env: Env, db: Db) {
    && (forall r :: r in db.closed ==> ClosedRun(env, db, r))
    && (forall r :: 0 <= r < |db.runs| && db.runs[r].status.Succeeded? ==> r in db.closed)
  }

  /** Observations of a run in flight are facts of the pages of its traversal. */
  predicate ObservedBy(env: Env, t: Target, run: Run, key: ObservationKey, p: Payload) {
    run.status.Running? ==>
      && run.hash.Some?
      && var page := env.provider(run.hash.value.of, t.batchLimit, key.page);
         page.Some? && p in page.value.facts && p.id == key.item
  }

  predicate ObservedOk(env: Env, db: Db) {
    forall key :: key in db.store.observed ==>
      key.run < |db.runs| && ObservedBy(env, db.target, db.runs[key.run], key, db.store.observed[key])
  }

  /** A request of the pending traversal: its configuration, its limit, a committed page or the next one. */
  predicate RequestOk(db: Db, e: Request) {
    e.chain < db.chain ||
    (e.chain == db.chain &&
     var c := Current(db);
     c.token.Some? && e.config == c.token.value.configHash.of && e.limit == db.target.batchLimit
     && (e.state in db.trail || e.state == c.token.value.state))
  }

  predicate SameTerms(e: Request, e': Request) {
    e.chain == e'.chain ==> e.config == e'.config && e.limit == e'.limit
  }

  /** A request of a closed traversal asked for one of its pages, on its terms. */
  predicate OnTrail(t: Trail, e: Request) {
    e.chain == t.chain ==> e.config == t.config && e.limit == t.limit && e.state in t.states
  }

  /** The transport requests actually sent on behalf of a run. */
  function Sent(log: seq<Request>, run: nat): (n: nat) {
    if log == [] then 0 else Sent(log[..|log| - 1], run) + (if log[|log| - 1].run == run then 1 else 0)
  }

  lemma {:induction false} NoneSent(log: seq<Request>, run: nat)
    requires forall i :: 0 <= i < |log| ==> log[i].run != run
    ensures Sent(log, run) == 0
  {
    if log != [] { NoneSent(log[..|log| - 1], run); }
  }

  predicate LogOk(db: Db) {
    && (forall i :: 0 <= i < |db.log| ==> db.log[i].run < |db.runs|)
    && (forall i :: 0 <= i < |db.runs| ==> Sent(db.log, i) == db.runs[i].requests)
    && (forall i :: 0 <= i < |db.log| ==> RequestOk(db, db.log[i]))
    && (forall i, j :: 0 <= i < j < |db.log| ==> SameTerms(db.log[i], db.log[j]))
    && (forall i, r :: 0 <= i < |db.log| && r in db.closed ==> OnTrail(db.closed[r], db.log[i]))
  }

  /** What the session believes is what the database says. */
  predicate SessionOk(db: Db, s: Session)
    requires ValidTarget(db.target)
  {
    var c := Current(db);
    && s.run < |db.runs| && db.runs[s.run].status.Running?
    && s.revision == db.target.revision && s.limit == db.target.batchLimit
    && db.target.cursorVersion in db.cursors
    && c.token == Some(s.token) && c.bound == Some(s.run) && c.value == s.cursor
    && s.config == ResolvedConfig(Loaded(db.target), s.token.window)
    && s.index < PagesPerRun(db.target)
  }

  /** A request was charged that has no page yet, and the page budget has room for it. */
  predicate Budgeted(r: Run) { r.pages < r.requests && r.pages < r.pageCap }

  predicate WorkerOk(s: Sys)
    requires ValidTarget(s.db.target)
  {
    match s.worker
    case Idle => true
    case Started(run, revision, snapshot) =>
      && run < |s.db.runs| && s.db.runs[run].status.Running?
      && revision == s.db.target.revision && snapshot == CurrentRow(s.db)
    case Ready(session) => SessionOk(s.db, session)
    case Charged(session) =>
      SessionOk(s.db, session) && Budgeted(s.db.runs[session.run])
  }

  ghost predicate DbInv(env: Env, db: Db) {
    && RunsOk(db.target, db.runs) && StoreOk(db.runs, db.store) && CursorsOk(db)
    && TrailOk(env, db) && ClosedOk(env, db) && ObservedOk(env, db) && LogOk(db)
  }

  ghost predicate Inv(env: Env, s: Sys) {
    DbInv(env, s.db) && WorkerOk(s)
  }

  /** A target that never ran, in a store of other targets' items. */
  predicate Initial(s: Sys) {
    && s.worker.Idle? && ValidTarget(s.db.target)
    && s.db.cursors == map[] && s.db.runs == [] && s.db.log == [] && s.db.trail == []
    && s.db.closed == map[] && s.db.store.observed == map[]
    && (forall x :: x in s.db.store.raw ==> !s.db.store.raw[x].ByRun?)
  }

  lemma InitialHolds(env: Env, s: Sys)
    requires Initial(s)
    ensures Inv(env, s)
  {
  }

  /** Between two states: settled runs are untouched, nothing stored or audited is lost. */
  predicate Grows(db: Db, after: Db) {
    && |db.runs| <= |after.runs| && db.chain <= after.chain
    && (forall i :: 0 <= i < |db.runs| && !db.runs[i].status.Running? ==> after.runs[i] == db.runs[i])
    && Keeps(db.store, after.store) && db.audited <= after.audited
  }

  lemma KeptStays(store: Store, audited: set<RowHash>, store': Store, audited': set<RowHash>, f: Fetcher, states: seq<Progress>)
    requires AllKept(store, audited, f, states) && Keeps(store, store') && audited <= audited'
    ensures AllKept(store', audited', f, states)
  {
  }

  lemma ClosedRunStays(env: Env, db: Db, after: Db, r: nat)
    requires ClosedRun(env, db, r) && Grows(db, after) && r in after.closed && after.closed[r] == db.closed[r]
    ensures ClosedRun(env, after, r)
  {
  }

  lemma ClosedStays(env: Env, db: Db, after: Db)
    requires ClosedOk(env, db) && Grows(db, after) && after.closed == db.closed
    requires forall r :: 0 <= r < |after.runs| && after.runs[r].status.Succeeded? ==> r < |db.runs| && db.runs[r].status.Succeeded?
    ensures ClosedOk(env, after)
  {
    forall r | r in db.closed ensures ClosedRun(env, after, r) { ClosedRunStays(env, db, after, r); }
  }

  /** The pending traversal stayed as it was, or there was none, or it is over. */
  lemma LogStays(db: Db, after: Db)
    requires LogOk(db) && after.log == db.log && after.closed == db.closed && |db.runs| <= |after.runs|
    requires forall i :: 0 <= i < |after.runs| ==>
               after.runs[i].requests == if i < |db.runs| then db.runs[i].requests else 0
    requires || db.chain < after.chain
             || (db.chain == after.chain && Current(db).token.None?)
             || (db.chain == after.chain && after.trail == db.trail && after.target.batchLimit == db.target.batchLimit
                 && Current(after).token == Current(db).token)
    ensures LogOk(after)
  {
    forall i | 0 <= i < |db.log| ensures RequestOk(after, db.log[i]) {
      assert RequestOk(db, db.log[i]);
    }
    forall i | |db.runs| <= i < |after.runs| ensures Sent(db.log, i) == 0 { NoneSent(db.log, i); }
  }

  /** Ending a running run, or marking it for retry, disturbs nothing else. */
  predicate Settles(a: Run, b: Run) {
    && a.status.Running? && !b.status.Succeeded?
    && b == a.(status := b.status, retries := b.retries, errors := b.errors)
  }

  lemma SettleRows(db: Db, i: nat, r: Run)
    requires RunsOk(db.target, db.runs) && StoreOk(db.runs, db.store) && CursorsOk(db)
    requires i < |db.runs| && Settles(db.runs[i], r)
    ensures var after := db.(runs := db.runs[i := r]);
            RunsOk(after.target, after.runs) && StoreOk(after.runs, after.store) && CursorsOk(after)
  {
    assert forall v :: v in db.cursors ==> CursorOk(db.target, db.runs, v, db.cursors[v]);
    assert RunOk(db.target, db.runs[i]);
  }

  lemma SettleKeeps(env: Env, db: Db, i: nat, r: Run)
    requires DbInv(env, db) && i < |db.runs| && Settles(db.runs[i], r)
    ensures DbInv(env, db.(runs := db.runs[i := r]))
  {
    var after := db.(runs := db.runs[i := r]);
    SettleRows(db, i, r);
    ClosedStays(env, db, after);
    LogStays(db, after);
  }

  lemma StartRows(db: Db, now: Clock)
    requires RunsOk(db.target, db.runs) && StoreOk(db.runs, db.store) && CursorsOk(db) && RunningFrom(db.runs, 0).None?
    ensures var after := StartRun(db, now);
            RunsOk(after.target, after.runs) && StoreOk(after.runs, after.store) && CursorsOk(after)
  {
    assert OwnedBy(db.store, |db.runs|) == {};
    assert forall v :: v in db.cursors ==> CursorOk(db.target, db.runs, v, db.cursors[v]);
  }

  lemma StartHistory(env: Env, db: Db, now: Clock)
    requires TrailOk(env, db) && ClosedOk(env, db) && ObservedOk(env, db) && LogOk(db) && RunningFrom(db.runs, 0).None?
    ensures var after := StartRun(db, now);
            TrailOk(env, after) && ClosedOk(env, after) && ObservedOk(env, after) && LogOk(after)
  {
    var after := StartRun(db, now);
    ClosedStays(env, db, after);
    LogStays(db, after);
  }

  lemma StartKeeps(env: Env, db: Db, now: Clock)
    requires DbInv(env, db)
    ensures DbInv(env, StartRun(db, now))
    ensures StartedRun(db) < |StartRun(db, now).runs| && StartRun(db, now).runs[StartedRun(db)].status.Running?
  {
    if RunningFrom(db.runs, 0).None? {
      StartRows(db, now);
      StartHistory(env, db, now);
    }
  }
}
