/**
 The v2 collection control plane of one target and run mode
 (src/market_intelligence/collection/control_plane.py and target_repository.py) as a transition system.

 Every database transaction is one step. A worker that holds the target lock is the sequence of its
 transactions; it may crash between any two of them. `trail`, `chain`, `closed`, `log` and a run's `cap` and `pageCap`
 are history variables: they record what was committed and never influence a step.
 */
module ControlPlane {
  import opened Keys
  import opened Windows
  import opened Continuation
  import opened Pages
  import opened Downstream

  /** A stable provider, asked through a resolved configuration, and the reading of a stored timestamp as a clock value. */
  datatype Env = Env(provider: (Config, nat, Progress) -> Option<Page>, clockOf: string -> Clock)

  /** The provider through one frozen configuration and batch limit. */
  function Through(env: Env, c: Config, limit: nat): (f: Fetcher)
    ensures forall s :: f(s) == env.provider(c, limit, s)
  {
    s => env.provider(c, limit, s)
  }

  datatype RunStatus = Running | Succeeded | Partial | Failed
  datatype TargetStatus = Draft | Paused | Active | Blocked | Retired

  datatype Target = Target(id: nat, api: Api, revision: nat, status: TargetStatus, config: Config,
                           configVersion: nat, contractVersion: nat, cursorVersion: nat, mode: RunMode,
                           batchLimit: nat, maxRequests: nat, maxPages: nat)

  datatype Run = Run(status: RunStatus, startedAt: Clock, window: Option<Window>, hash: Option<Digest<Config>>,
                     requests: nat, pages: nat, fetched: nat, inserted: nat, duplicates: nat,
                     retries: nat, errors: nat, cap: nat, pageCap: nat)

  /** The watermark is the timestamp of the checkpoint. */
  datatype Cursor = Cursor(value: Option<Key>, watermark: Option<string>, token: Option<Token>, bound: Option<nat>)

  const EMPTY_CURSOR := Cursor(None, None, None, None)

  datatype Trail = Trail(chain: nat, config: Config, limit: nat, states: seq<Progress>)
  datatype Request = Request(run: nat, chain: nat, config: Config, limit: nat, state: Progress)

  /** Cursor rows are keyed by cursor version, runs by position. */
  datatype Db = Db(target: Target, cursors: map<nat, Cursor>, runs: seq<Run>, store: Store, audited: set<RowHash>,
                   trail: seq<Progress>, chain: nat, closed: map<nat, Trail>, log: seq<Request>)

  function LineageOf(t: Target): (l: Lineage) {
    Lineage(t.id, t.revision, t.api, t.configVersion, t.contractVersion, t.cursorVersion, t.mode)
  }

  function Current(db: Db): (c: Cursor) {
    if db.target.cursorVersion in db.cursors then db.cursors[db.target.cursorVersion] else EMPTY_CURSOR
  }

  function CurrentRow(db: Db): (c: Option<Cursor>) {
    if db.target.cursorVersion in db.cursors then Some(db.cursors[db.target.cursorVersion]) else None
  }

  function SetCurrent(db: Db, c: Cursor): (r: Db) {
    db.(cursors := db.cursors[db.target.cursorVersion := c])
  }

  /** The first running run at or after position i. */
  function RunningFrom(runs: seq<Run>, i: nat): (r: Option<nat>)
    requires i <= |runs|
    ensures r.None? ==> forall k :: i <= k < |runs| ==> !runs[k].status.Running?
    ensures r.Some? ==> i <= r.value < |runs| && runs[r.value].status.Running?
    decreases |runs| - i
  {
    if i == |runs| then None
    else if runs[i].status.Running? then Some(i)
    else RunningFrom(runs, i + 1)
  }

  /** _start_run: adopt the running run or open a new one. */
  function StartRun(db: Db, now: Clock): (r: Db) {
    if RunningFrom(db.runs, 0).Some? then db
    else db.(runs := db.runs + [Run(Running, now, None, None, 0, 0, 0, 0, 0, 0, 0, db.target.maxRequests, db.target.maxPages)])
  }

  function StartedRun(db: Db): (i: nat) {
    if RunningFrom(db.runs, 0).Some? then RunningFrom(db.runs, 0).value else |db.runs|
  }

  /** The window of a run that has none: the one saved in the continuation, or freshly resolved. */
  function ChooseWindow(env: Env, t: Target, run: Run, snapshot: Option<Cursor>, persisted: Cursor): (w: Option<Window>)
  {
    var loaded := BreadthConfig(t.api, t.config);
    if loaded.None? then None
    else if persisted.token.Some? then
      var saved := persisted.token.value.window;
      if Decode(persisted.token.value, t.api, ResolvedConfig(loaded.value, saved), LineageOf(t)).None? then None
      else Some(saved)
    else
      var watermark := if snapshot.Some? && snapshot.value.watermark.Some?
                       then Some(env.clockOf(snapshot.value.watermark.value)) else None;
      Some(Resolve(loaded.value.spec, run.startedAt, watermark))
  }

  /** Freeze window and configuration hash on the run; `None` when the code raises. */
  function Freeze(env: Env, t: Target, run: Run, snapshot: Option<Cursor>, persisted: Cursor): (r: Option<Run>) {
    var loaded := BreadthConfig(t.api, t.config);
    var w := if run.window.Some? then run.window else ChooseWindow(env, t, run, snapshot, persisted);
    if loaded.None? || w.None? then None
    else
      var config := ResolvedConfig(loaded.value, w.value);
      if run.window.None? && BreadthConfig(t.api, config).None? then None
      else if run.hash.Some? && run.hash.value != Digest(config) then None
      else Some(run.(window := w, hash := Some(Digest(config))))
  }

  /** Check the pending continuation against the frozen configuration, or open a new traversal. */
  function BindToken(t: Target, config: Config, persisted: Cursor): (r: Option<Token>) {
    if persisted.token.Some? then
      if Decode(persisted.token.value, t.api, config, LineageOf(t)).None? then None else persisted.token
    else Encode(t.api, config, LineageOf(t), Start)
  }

  /** The SEC branch of the trigger's state check, with the CIK as the target stores it. */
  predicate SecStateGuard(cik: string, p: Progress)
    requires p.SecAt?
  {
    var files := if p.files.Some? then p.files.value else [];
    && (p.after.Some? ==> p.files.Some? && CodecKey(p.after.value))
    && (p.file.None? ==> p.files.Some? && p.after.Some?)
    && |files| <= 5 && Distinct(files) && (forall f :: f in files ==> HistoryFile(cik, f))
    && (p.file.Some? ==> HistoryFile(cik, p.file.value) && p.file.value !in files)
  }

  predicate StateGuard(t: Target, p: Progress) {
    match p
    case Start => true
    case PageNo(n) => t.api.MarketauxNews? && 2 <= n <= 1000
    case LastKey(k) => t.api.FinnhubNews? && CodecKey(k)
    case Offset(n) => (t.api.EiaRetail? || t.api.EiaRto?) && 1 <= n <= 10_000_000
    case SecAt(_, _, _) => t.api.SecSubmissions? && t.config.settings.Sec? && SecStateGuard(t.config.settings.cik, p)
  }

  /** m2_continuation_guard on the cursor row of a version. */
  predicate ContinuationGuard(t: Target, runs: seq<Run>, version: nat, c: Cursor) {
    && version == t.cursorVersion
    && if c.token.None? then c.bound.None?
       else
         && c.bound.Some? && c.bound.value < |runs|
         && var r, token := runs[c.bound.value], c.token.value;
            && r.window.Some? && r.hash.Some? && !r.status.Succeeded?
            && token.version == 1 && token.api == t.api && token.lineage == LineageOf(t)
            && r.hash == Some(token.configHash) && r.window == Some(token.window)
            && (t.config.spec.Fixed? ==> token.window == t.config.spec.window)
            && StateGuard(t, token.state)
  }

  /** The trigger on the current row of a state about to be committed. */
  predicate GuardAccepts(db: Db) {
    ContinuationGuard(db.target, db.runs, db.target.cursorVersion, Current(db))
  }

  datatype Resolution = Resolution(db: Db, config: Config, token: Token)

  /** _resolved_run_config */
  function ResolveRun(env: Env, db: Db, run: nat, snapshot: Option<Cursor>): (r: Attempt<Resolution>)
    requires run < |db.runs|
  {
    var t, persisted, loaded := db.target, Current(db), BreadthConfig(db.target.api, db.target.config);
    var frozen := Freeze(env, t, db.runs[run], snapshot, persisted);
    if loaded.None? || frozen.None? || frozen.value.window.None? then Raised
    else
      var config := ResolvedConfig(loaded.value, frozen.value.window.value);
      var token := BindToken(t, config, persisted);
      if token.None? then Raised
      else
        var db1 := SetCurrent(db.(runs := db.runs[run := frozen.value]), persisted.(token := token, bound := Some(run)));
        if GuardAccepts(db1) then Done(Resolution(db1, config, token.value)) else Refused
  }

  /** What a worker carries between transactions once its configuration is resolved. */
  datatype Session = Session(run: nat, revision: nat, snapshot: Option<Cursor>, config: Config, limit: nat,
                             cursor: Option<Key>, token: Token, index: nat)

  datatype Worker =
    | Idle
    | Started(run: nat, revision: nat, snapshot: Option<Cursor>)
    | Ready(session: Session)
    | Charged(session: Session)

  datatype Sys = Sys(db: Db, worker: Worker)

  predicate Exhausted(t: Target, r: Run) {
    r.requests >= t.maxRequests || r.pages >= t.maxPages
  }

  function PagesPerRun(t: Target): (n: nat) {
    if t.maxPages < t.maxRequests then t.maxPages else t.maxRequests
  }

  /** The adapter's answer to one request: the page, the running maximum of the cursor, the next continuation. */
  datatype Result = Result(page: Page, cursor: Option<Key>, token: Option<Token>)

  function RunningMax(cursor: Option<Key>, facts: seq<Payload>): (r: Option<Key>) {
    if facts == [] then cursor
    else
      var rest, k := RunningMax(cursor, facts[..|facts| - 1]), KeyOf(facts[|facts| - 1]);
      if rest.None? then Some(k) else Some(KeyMax(rest.value, k))
  }

  /** BreadthAdapter.fetch with a transport that answers. `None` is a contract failure, never retried. */
  function Fetch(env: Env, t: Target, s: Session): (r: Option<Result>) {
    var config := BreadthConfig(t.api, s.config);
    if config.None? || WindowOf(config.value).None? || !(1 <= s.limit <= 100) then None
    else
      var state := Decode(s.token, t.api, config.value, LineageOf(t));
      if state.None? then None
      else
        var page := env.provider(config.value, s.limit, state.value);
        if page.None? then None
        else
          var token := if page.value.more then Encode(t.api, config.value, LineageOf(t), page.value.next) else None;
          if page.value.more && token.None? then None
          else Some(Result(page.value, RunningMax(s.cursor, page.value.facts), token))
  }

  /** The worker's own checks on a successful answer. */
  predicate AnswerSound(t: Target, s: Session, r: Result) {
    && (r.page.more ==> r.token.Some? && r.token.value != s.token)
    && (r.token.Some? ==> Decode(r.token.value, t.api, s.config, LineageOf(t)).Some?)
  }

  predicate IsFinal(t: Target, s: Session, r: Result) {
    r.page.incomplete || !r.page.more || s.index + 1 == PagesPerRun(t)
  }

  /** decide_cursor under the compound strategy: refuse to move backward. */
  predicate Successor(current: Option<Key>, candidate: Option<Key>) {
    candidate.None? || current.None? || current == candidate || KeyLt(current.value, candidate.value)
  }

  function Audit(audited: set<RowHash>, rejected: seq<RowHash>): (r: set<RowHash>) {
    audited + set h | h in rejected
  }

  function RunAfterPage(r: Run, c: Counts, final: bool, page: Page): (n: Run) {
    r.(fetched := r.fetched + c.fetched, inserted := r.inserted + c.inserted,
       duplicates := r.duplicates + c.duplicates, pages := r.pages + 1,
       status := if !final then Running else if page.more || page.incomplete then Partial else Succeeded)
  }

  function CursorAfterPage(c: Cursor, run: nat, r: Result): (n: Cursor) {
    Cursor(r.cursor, if r.cursor.Some? then Some(r.cursor.value.at) else c.watermark,
           r.token, if r.token.Some? then Some(run) else None)
  }

  /** The rows a committed page leaves behind. A page without continuation closes the traversal. */
  function CommitPage(db: Db, s: Session, r: Result, final: bool, saved: Saved): (n: Db)
    requires s.run < |db.runs|
  {
    var run := RunAfterPage(db.runs[s.run], saved.counts, final, r.page);
    var states := db.trail + [s.token.state];
    var db1 := db.(runs := db.runs[s.run := run], store := saved.store, audited := Audit(db.audited, r.page.rejected),
                   cursors := db.cursors[db.target.cursorVersion := CursorAfterPage(Current(db), s.run, r)]);
    if r.token.Some? then db1.(trail := states)
    else db1.(trail := [], chain := db.chain + 1,
              closed := db.closed[s.run := Trail(db.chain, s.config, s.limit, states)])
  }

  /** _persist_result in page mode: one transaction, which an exception or the trigger rolls back. */
  function PersistPage(db: Db, s: Session, r: Result, final: bool): (n: Attempt<Db>) {
    if db.target.revision != s.revision || s.run >= |db.runs| then Raised
    else
      var saved := Persist(db.store, s.run, s.token.state, r.page.facts);
      if saved.Raised? then Raised
      else if saved.Refused? then Refused
      else if s.snapshot.Some? && CurrentRow(db).Some? && Current(db).value != s.snapshot.value.value then Raised
      else if !Successor(Current(db).value, r.cursor) then Raised
      else
        var after := CommitPage(db, s, r, final, saved.value);
        if GuardAccepts(after) then Done(after) else Refused
  }

  /** _finish_error */
  function FinishError(db: Db, run: nat, revision: nat, retryable: bool): (n: Db) {
    if run >= |db.runs| then db
    else
      var r := db.runs[run];
      if db.target.revision != revision then db.(runs := db.runs[run := r.(status := Failed)])
      else if retryable && r.retries < 3 then
        db.(runs := db.runs[run := r.(status := Running, errors := r.errors + 1, retries := r.retries + 1)])
      else db.(runs := db.runs[run := r.(status := Failed, errors := r.errors + 1)])
  }

  /** _finish_lock_lost */
  function FinishLockLost(db: Db, run: nat): (n: Db) {
    if run >= |db.runs| then db
    else db.(runs := db.runs[run := db.runs[run].(status := Failed, errors := db.runs[run].errors + 1)])
  }

  /** recover_stale_target_runs, for a run whose lock and dispatch marker are gone. */
  function RecoverStale(db: Db): (n: Db) {
    var i := RunningFrom(db.runs, 0);
    if i.None? then db else db.(runs := db.runs[i.value := db.runs[i.value].(status := Failed)])
  }

  predicate Pending(db: Db) {
    exists v :: v in db.cursors && db.cursors[v].token.Some?
  }

  predicate ValidTarget(t: Target) {
    BreadthConfig(t.api, t.config).Some? && 1 <= t.batchLimit <= 100 && 1 <= t.maxRequests <= 20 && 1 <= t.maxPages <= 20
  }

  predicate Transition(a: TargetStatus, b: TargetStatus) {
    || a == b
    || (a.Draft? && (b.Paused? || b.Blocked?))
    || (a.Paused? && (b.Active? || b.Blocked? || b.Retired?))
    || (a.Active? && (b.Paused? || b.Blocked? || b.Retired?))
    || (a.Blocked? && (b.Paused? || b.Retired?))
  }

  /** revise: compare-and-set on the revision, refused while a run is in flight or a continuation is pending. */
  predicate MayRevise(db: Db, t: Target) {
    && RunningFrom(db.runs, 0).None? && !Pending(db)
    && t.revision == db.target.revision + 1 && t.id == db.target.id && t.api == db.target.api && t.mode == db.target.mode
    && Transition(db.target.status, t.status) && ValidTarget(t)
  }

  /** pause_for_continuation_abandon keeps the revision, and with it the continuation's lineage. */
  function PauseForAbandon(db: Db): (n: Db) {
    if RunningFrom(db.runs, 0).Some? || !db.target.status.Active? then db
    else db.(target := db.target.(status := Paused))
  }

  function Released(c: Cursor): (r: Cursor) {
    if c.token.Some? then c.(token := None, bound := None) else c
  }

  /** abandon_pending_continuations: only the recovery state goes, checkpoints stay. */
  function Abandon(db: Db): (n: Db) {
    if RunningFrom(db.runs, 0).Some? || !db.target.status.Paused? then db
    else db.(cursors := map v | v in db.cursors :: Released(db.cursors[v]),
             trail := [], chain := if Pending(db) then db.chain + 1 else db.chain)
  }

  /** Raw items inserted by runs of other targets of the same source, under the target's account or another one. */
  function Foreign(db: Db, items: set<string>, owner: Owner): (n: Db)
    requires !owner.ByRun?
  {
    db.(store := db.store.(raw := map x | x in db.store.raw.Keys + items ::
                                    if x in db.store.raw then db.store.raw[x] else owner))
  }

  /** What can happen next. `Answer(v)` reloads the cursor row of version v after a page that is not final. */
  datatype Action =
    | Begin(now: Clock)
    | ResolveConfig
    | Charge
    | Answer(reload: nat)
    | RequestFailed(retryable: bool)
    | LockLost
    | Crash
    | Recover
    | Revise(to: Target)
    | Pause
    | AbandonPending
    | ForeignInsert(items: set<string>, sameAccount: bool)

  function RunOf(w: Worker): (i: nat)
    requires !w.Idle?
  {
    match w
    case Started(run, _, _) => run
    case Ready(s) => s.run
    case Charged(s) => s.run
  }

  function RevisionOf(w: Worker): (n: nat)
    requires !w.Idle?
  {
    match w
    case Started(_, revision, _) => revision
    case Ready(s) => s.revision
    case Charged(s) => s.revision
  }

  /** A dispatch loads an active target; a pause that keeps the revision may come before its run is opened. */
  function BeginStep(s: Sys, now: Clock): (n: Sys) {
    if !s.worker.Idle? || !(s.db.target.status.Active? || s.db.target.status.Paused?) then s
    else Sys(StartRun(s.db, now), Started(StartedRun(s.db), s.db.target.revision, CurrentRow(s.db)))
  }

  function ResolveStep(env: Env, s: Sys): (n: Sys) {
    if !s.worker.Started? || s.worker.run >= |s.db.runs| then s
    else
      var r := ResolveRun(env, s.db, s.worker.run, s.worker.snapshot);
      if !r.Done? then Sys(FinishError(s.db, s.worker.run, s.worker.revision, r.Refused?), Idle)
      else
        var cursor := if s.worker.snapshot.Some? then s.worker.snapshot.value.value else None;
        Sys(r.value.db, Ready(Session(s.worker.run, s.worker.revision, s.worker.snapshot, r.value.config,
                                      s.db.target.batchLimit, cursor, r.value.token, 0)))
  }

  /** The head of every page: the target is loaded again, which fails unless it is active, and the budget is charged. */
  function ChargeStep(s: Sys): (n: Sys) {
    if !s.worker.Ready? || s.worker.session.run >= |s.db.runs| then s
    else if !s.db.target.status.Active? then
      Sys(FinishError(s.db, s.worker.session.run, s.worker.session.revision, false), Idle)
    else
      var i := s.worker.session.run;
      var r := s.db.runs[i];
      if Exhausted(s.db.target, r) then Sys(s.db.(runs := s.db.runs[i := r.(status := Partial)]), Idle)
      else
        var sent := Request(i, s.db.chain, s.worker.session.config, s.worker.session.limit,
                            s.worker.session.token.state);
        Sys(s.db.(runs := s.db.runs[i := r.(requests := r.requests + 1)], log := s.db.log + [sent]),
            Charged(s.worker.session))
  }

  /** The session after a page that is not final, with the cursor row a reload without version filter returns. */
  function NextSession(db: Db, s: Session, r: Result, reload: nat): (n: Session)
    requires r.token.Some?
  {
    s.(snapshot := if reload in db.cursors then Some(db.cursors[reload]) else CurrentRow(db),
       cursor := r.cursor, token := r.token.value, index := s.index + 1)
  }

  /** A page arrives: adapter, checks, one commit, and the next request or the end of the dispatch. A trigger's refusal is
      a database error, which is retried; the worker's own exceptions are not. */
  function AnswerStep(env: Env, s: Sys, reload: nat): (n: Sys) {
    if !s.worker.Charged? then s
    else
      var session := s.worker.session;
      var result := Fetch(env, s.db.target, session);
      if result.None? || !AnswerSound(s.db.target, session, result.value) then
        Sys(FinishError(s.db, session.run, session.revision, false), Idle)
      else
        var final := IsFinal(s.db.target, session, result.value);
        var db := PersistPage(s.db, session, result.value, final);
        if !db.Done? then Sys(FinishError(s.db, session.run, session.revision, db.Refused?), Idle)
        else if final || result.value.token.None? then Sys(db.value, Idle)
        else
          Sys(db.value, Ready(NextSession(db.value, session, result.value, reload)))
  }

  function Step(env: Env, s: Sys, a: Action): (n: Sys) {
    match a
    case Begin(now) => BeginStep(s, now)
    case ResolveConfig => ResolveStep(env, s)
    case Charge => ChargeStep(s)
    case Answer(reload) => AnswerStep(env, s, reload)
    case RequestFailed(retryable) =>
      if s.worker.Idle? then s
      else Sys(FinishError(s.db, RunOf(s.worker), RevisionOf(s.worker), retryable), Idle)
    case LockLost => if s.worker.Idle? then s else Sys(FinishLockLost(s.db, RunOf(s.worker)), Idle)
    case Crash => s.(worker := Idle)
    case Recover => if s.worker.Idle? then s.(db := RecoverStale(s.db)) else s
    case Revise(t) => if MayRevise(s.db, t) then s.(db := s.db.(target := t)) else s
    case Pause => s.(db := PauseForAbandon(s.db))
    case AbandonPending => s.(db := Abandon(s.db))
    case ForeignInsert(items, same) => s.(db := Foreign(s.db, items, if same then SameAccount else OtherAccount))
  }

  function Exec(env: Env, s: Sys, acts: seq<Action>): (n: Sys) {
    if acts == [] then s else Step(env, Exec(env, s, acts[..|acts| - 1]), acts[|acts| - 1])
  }
}
