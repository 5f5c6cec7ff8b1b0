/**
 The page transaction: adapter, checks and commit keep the invariant.
 */
module PlaneCommit {
  import opened Keys
  import opened Continuation
  import opened Pages
  import opened Downstream
  import opened ControlPlane
  import opened PlaneInvariant

  /** What the adapter's answer to a session is, in terms of the frozen traversal. */
  predicate Answers(env: Env, db: Db, s: Session, r: Result) {
    && env.provider(s.config, db.target.batchLimit, s.token.state) == Some(r.page)
    && r.cursor == RunningMax(s.cursor, r.page.facts)
    && (if r.page.more then r.token == Some(s.token.(state := r.page.next)) && InDomain(db.target.api, s.config, r.page.next)
        else r.token.None?)
  }

  /** The session's configuration normalises to itself, so request, token and answer share window, hash and lineage. */
  lemma SessionBinding(env: Env, db: Db, s: Session)
    requires DbInv(env, db) && SessionOk(db, s)
    ensures BreadthConfig(db.target.api, s.config) == Some(s.config)
    ensures Decode(s.token, db.target.api, s.config, LineageOf(db.target)) == Some(s.token.state)
    ensures TokenOk(db.target, db.runs, s.token, s.run) && s.token.configHash == Digest(s.config)
  {
    assert CursorOk(db.target, db.runs, db.target.cursorVersion, Current(db));
    assert RunOk(db.target, db.runs[s.run]);
    HashesAgree(db.target.api, db.target.config, s.token.window);
  }

  /** The adapter answers exactly when the provider does and the next state is one the codec knows. */
  lemma FetchAnswers(env: Env, db: Db, s: Session)
    requires DbInv(env, db) && SessionOk(db, s)
    ensures var page := env.provider(s.config, s.limit, s.token.state);
            Fetch(env, db.target, s).Some? <==>
            page.Some? && (page.value.more ==> InDomain(db.target.api, s.config, page.value.next))
    ensures Fetch(env, db.target, s).Some? ==> Answers(env, db, s, Fetch(env, db.target, s).value)
  {
    SessionBinding(env, db, s);
  }

  /** `m` is the greatest of a cursor and the (timestamp, identity) keys of a page's facts; there is none iff there are none. */
  predicate Greatest(cursor: Option<Key>, facts: seq<Payload>, m: Option<Key>) {
    && (m.None? <==> cursor.None? && facts == [])
    && (m.Some? ==>
          && (cursor.Some? ==> KeyLe(cursor.value, m.value))
          && (forall p :: p in facts ==> KeyLe(Key(p.at, p.id), m.value))
          && (m == cursor || exists p :: p in facts && m.value == Key(p.at, p.id)))
  }

  lemma GreatestNext(cursor: Option<Key>, facts: seq<Payload>, m: Option<Key>, p: Payload)
    requires Greatest(cursor, facts, m)
    ensures Greatest(cursor, facts + [p], Some(if m.None? then KeyOf(p) else KeyMax(m.value, KeyOf(p))))
  {
    KeyOrder();
    var n := if m.None? then KeyOf(p) else KeyMax(m.value, KeyOf(p));
    assert forall x :: x in facts + [p] <==> x in facts || x == p;
    assert m.Some? ==> KeyLe(m.value, n) && KeyLe(KeyOf(p), n);
  }

  lemma {:induction false} RunningMaxExact(cursor: Option<Key>, facts: seq<Payload>)
    ensures Greatest(cursor, facts, RunningMax(cursor, facts))
    ensures Successor(cursor, RunningMax(cursor, facts))
  {
    if facts != [] {
      var init, last := facts[..|facts| - 1], facts[|facts| - 1];
      assert facts == init + [last];
      RunningMaxExact(cursor, init);
      GreatestNext(cursor, init, RunningMax(cursor, init), last);
    }
  }

  /** Everything the proofs below share about one commit. */
  ghost predicate Commits(env: Env, db: Db, s: Session, r: Result, final: bool, saved: Saved) {
    && DbInv(env, db) && SessionOk(db, s) && Budgeted(db.runs[s.run])
    && Answers(env, db, s, r) && (r.page.incomplete || !r.page.more ==> final)
    && Persist(db.store, s.run, s.token.state, r.page.facts) == Done(saved)
    && GuardAccepts(CommitPage(db, s, r, final, saved))
  }

  lemma CommitGrows(env: Env, db: Db, s: Session, r: Result, final: bool, saved: Saved)
    requires Commits(env, db, s, r, final, saved)
    ensures Grows(db, CommitPage(db, s, r, final, saved))
    ensures Kept(saved.store, Audit(db.audited, r.page.rejected), Some(r.page))
  {
    PersistConserves(db.store, s.run, s.token.state, r.page.facts);
  }

  lemma CommitRuns(env: Env, db: Db, s: Session, r: Result, final: bool, saved: Saved)
    requires Commits(env, db, s, r, final, saved)
    ensures var after := CommitPage(db, s, r, final, saved); RunsOk(after.target, after.runs)
  {
    var after := CommitPage(db, s, r, final, saved);
    assert RunOk(db.target, db.runs[s.run]);
    assert RunOk(after.target, after.runs[s.run]) by { SessionBinding(env, db, s); }
  }

  lemma CommitStore(db: Db, s: Session, r: Result, final: bool, saved: Saved)
    requires StoreOk(db.runs, db.store) && s.run < |db.runs|
    requires Persist(db.store, s.run, s.token.state, r.page.facts) == Done(saved)
    ensures var after := CommitPage(db, s, r, final, saved); StoreOk(after.runs, after.store)
  {
    PersistConserves(db.store, s.run, s.token.state, r.page.facts);
    var after := CommitPage(db, s, r, final, saved);
    forall x | x in after.store.raw && after.store.raw[x].ByRun? ensures after.store.raw[x].run < |after.runs| {
      var owner := after.store.raw[x].run;
      assert x in OwnedBy(after.store, owner);
      if owner != s.run { assert x in OwnedBy(db.store, owner); }
    }
  }

  lemma CommitCursors(env: Env, db: Db, s: Session, r: Result, final: bool, saved: Saved)
    requires Commits(env, db, s, r, final, saved)
    ensures CursorsOk(CommitPage(db, s, r, final, saved))
  {
    SessionBinding(env, db, s);
    RunningMaxExact(s.cursor, r.page.facts);
    var after := CommitPage(db, s, r, final, saved);
    assert CursorOk(db.target, db.runs, db.target.cursorVersion, Current(db));
    assert CursorOk(after.target, after.runs, db.target.cursorVersion, Current(after));
    forall v | v in after.cursors && v != db.target.cursorVersion ensures CursorOk(after.target, after.runs, v, after.cursors[v]) {
      assert CursorOk(db.target, db.runs, v, db.cursors[v]);
    }
  }

  /** One more page extends the chain. */
  lemma Extends(f: Fetcher, trail: seq<Progress>, state: Progress)
    requires Position(f, trail, state) && f(state).Some?
    ensures IsChain(f, trail + [state])
    ensures f(state).value.more ==> Position(f, trail + [state], f(state).value.next)
    ensures !f(state).value.more ==> Complete(f, trail + [state])
  {
    if trail == [] {
      assert [] + [state] == [Start];
    } else {
      ChainExtends(f, trail, state);
    }
  }

  lemma CommitTrail(env: Env, db: Db, s: Session, r: Result, final: bool, saved: Saved)
    requires Commits(env, db, s, r, final, saved)
    ensures var f, states := Through(env, s.config, s.limit), db.trail + [s.token.state];
            && AllKept(saved.store, Audit(db.audited, r.page.rejected), f, states)
            && (r.page.more ==> Position(f, states, r.page.next))
            && (!r.page.more ==> Complete(f, states))
    ensures TrailOk(env, CommitPage(db, s, r, final, saved))
  {
    var f, states := Through(env, s.config, s.limit), db.trail + [s.token.state];
    CommitGrows(env, db, s, r, final, saved);
    KeptStays(db.store, db.audited, saved.store, Audit(db.audited, r.page.rejected), f, db.trail);
    Extends(f, db.trail, s.token.state);
  }

  lemma CommitCloses(env: Env, db: Db, s: Session, r: Result, final: bool, saved: Saved)
    requires Commits(env, db, s, r, final, saved) && r.token.None?
    ensures ClosedRun(env, CommitPage(db, s, r, final, saved), s.run)
  {
    CommitTrail(env, db, s, r, final, saved);
    SessionBinding(env, db, s);
    var after := CommitPage(db, s, r, final, saved);
    var f, t := Through(env, s.config, s.limit), after.closed[s.run];
    assert t == Trail(db.chain, s.config, s.limit, db.trail + [s.token.state]);
    assert LastPage(f, t.states) == Some(r.page);
  }

  /** The closed runs after a page, from what the page transaction is known to do. */
  lemma ClosesOneMore(env: Env, db: Db, s: Session, r: Result, final: bool, saved: Saved)
    requires ClosedOk(env, db) && s.run < |db.runs| && s.run !in db.closed && Grows(db, CommitPage(db, s, r, final, saved))
    requires (r.page.more <==> r.token.Some?) && (r.token.None? ==> ClosedRun(env, CommitPage(db, s, r, final, saved), s.run))
    ensures ClosedOk(env, CommitPage(db, s, r, final, saved))
  {
    var after := CommitPage(db, s, r, final, saved);
    forall k | k in db.closed ensures ClosedRun(env, after, k) { ClosedRunStays(env, db, after, k); }
  }

  lemma CommitClosed(env: Env, db: Db, s: Session, r: Result, final: bool, saved: Saved)
    requires Commits(env, db, s, r, final, saved)
    ensures ClosedOk(env, CommitPage(db, s, r, final, saved))
  {
    CommitGrows(env, db, s, r, final, saved);
    if r.token.None? { CommitCloses(env, db, s, r, final, saved); }
    assert s.run in db.closed ==> ClosedRun(env, db, s.run);
    ClosesOneMore(env, db, s, r, final, saved);
  }

  lemma CommitObserved(env: Env, db: Db, s: Session, r: Result, final: bool, saved: Saved)
    requires Commits(env, db, s, r, final, saved)
    ensures ObservedOk(env, CommitPage(db, s, r, final, saved))
  {
    var after := CommitPage(db, s, r, final, saved);
    PersistConserves(db.store, s.run, s.token.state, r.page.facts);
    SessionBinding(env, db, s);
    forall key | key in after.store.observed
      ensures key.run < |after.runs| && ObservedBy(env, after.target, after.runs[key.run], key, after.store.observed[key])
    {
      if key in db.store.observed && after.store.observed[key] == db.store.observed[key] {
        assert ObservedBy(env, db.target, db.runs[key.run], key, db.store.observed[key]);
      }
    }
  }

  lemma CommitLog(db: Db, s: Session, r: Result, final: bool, saved: Saved)
    requires ValidTarget(db.target) && LogOk(db) && SessionOk(db, s)
    requires s.token.configHash == Digest(s.config) && (r.token.Some? ==> r.token.value.configHash == s.token.configHash)
    ensures LogOk(CommitPage(db, s, r, final, saved))
  {
    var after := CommitPage(db, s, r, final, saved);
    forall i | 0 <= i < |db.log| ensures RequestOk(after, db.log[i]) {
      assert RequestOk(db, db.log[i]);
    }
    forall i, k | 0 <= i < |db.log| && k in after.closed ensures OnTrail(after.closed[k], db.log[i]) {
      assert RequestOk(db, db.log[i]);
      if k in db.closed && after.closed[k] == db.closed[k] { assert OnTrail(db.closed[k], db.log[i]); }
    }
  }

  lemma CommitKeeps(env: Env, db: Db, s: Session, r: Result, final: bool, saved: Saved)
    requires Commits(env, db, s, r, final, saved)
    ensures DbInv(env, CommitPage(db, s, r, final, saved))
  {
    CommitRuns(env, db, s, r, final, saved);
    CommitStore(db, s, r, final, saved);
    CommitCursors(env, db, s, r, final, saved);
    CommitTrail(env, db, s, r, final, saved);
    CommitClosed(env, db, s, r, final, saved);
    CommitObserved(env, db, s, r, final, saved);
    SessionBinding(env, db, s);
    CommitLog(db, s, r, final, saved);
  }

  lemma CommittedSession(env: Env, db: Db, s: Session, r: Result, saved: Saved, row: Option<Cursor>)
    requires Commits(env, db, s, r, IsFinal(db.target, s, r), saved) && !IsFinal(db.target, s, r)
    ensures SessionOk(CommitPage(db, s, r, false, saved),
                      s.(snapshot := row, cursor := r.cursor, token := r.token.value, index := s.index + 1))
  {
  }

  /** The page transaction of a session ends in a trigger's refusal. */
  predicate Refuses(env: Env, db: Db, s: Session) {
    var result := Fetch(env, db.target, s);
    result.Some? && AnswerSound(db.target, s, result.value) && PersistPage(db, s, result.value, IsFinal(db.target, s, result.value)).Refused?
  }

  /** An answer was committed: what the state after it looks like. */
  ghost predicate CommittedAs(env: Env, s: Sys, reload: nat, r: Result, saved: Saved) {
    s.worker.Charged? && s.worker.session.run < |s.db.runs| &&
    var x, n := s.worker.session, AnswerStep(env, s, reload);
    var final := IsFinal(s.db.target, x, r);
    && Commits(env, s.db, x, r, final, saved) && n.db == CommitPage(s.db, x, r, final, saved)
    && (if final then n.worker.Idle? else r.token.Some? && n.worker == Ready(NextSession(n.db, x, r, reload)))
  }

  /** An answer is committed, or fails its run without any other write. */
  lemma AnswerCases(env: Env, s: Sys, reload: nat)
    requires Inv(env, s) && s.worker.Charged?
    ensures || AnswerStep(env, s, reload) ==
               Sys(FinishError(s.db, s.worker.session.run, s.worker.session.revision, Refuses(env, s.db, s.worker.session)), Idle)
            || (exists r, saved :: CommittedAs(env, s, reload, r, saved))
  {
    var x := s.worker.session;
    FetchAnswers(env, s.db, x);
    var result := Fetch(env, s.db.target, x);
    if result.Some? && AnswerSound(s.db.target, x, result.value) {
      var r, final := result.value, IsFinal(s.db.target, x, result.value);
      if PersistPage(s.db, x, r, final).Done? {
        var saved := Persist(s.db.store, x.run, x.token.state, r.page.facts).value;
        assert CommittedAs(env, s, reload, r, saved);
      }
    }
  }

  /** The cursor row a commit writes, and the rows it leaves alone. */
  lemma CommitCheckpoint(env: Env, db: Db, s: Session, r: Result, final: bool, saved: Saved)
    requires Commits(env, db, s, r, final, saved)
    ensures var after := CommitPage(db, s, r, final, saved);
            && Greatest(Current(db).value, r.page.facts, Current(after).value)
            && Current(after).watermark == (if Current(after).value.Some? then Some(Current(after).value.value.at) else None)
            && after.cursors == db.cursors[db.target.cursorVersion := Current(after)]
            && after.runs[s.run].pages == db.runs[s.run].pages + 1
  {
    RunningMaxExact(s.cursor, r.page.facts);
    assert CursorOk(db.target, db.runs, db.target.cursorVersion, Current(db));
  }

  /** The answer was committed: the run has one more page. */
  predicate PageCommitted(s: Sys, n: Sys) {
    && s.worker.Charged? && s.worker.session.run < |s.db.runs| && s.worker.session.run < |n.db.runs|
    && n.db.runs[s.worker.session.run].pages == s.db.runs[s.worker.session.run].pages + 1
  }

  /** The same about the step. */
  lemma StepCheckpoint(env: Env, s: Sys, reload: nat, r: Result, saved: Saved)
    requires CommittedAs(env, s, reload, r, saved)
    ensures var n, x := AnswerStep(env, s, reload), s.worker.session;
            && PageCommitted(s, n) && env.provider(x.config, s.db.target.batchLimit, x.token.state) == Some(r.page)
            && Greatest(Current(s.db).value, r.page.facts, Current(n.db).value)
            && Current(n.db).watermark == (if Current(n.db).value.Some? then Some(Current(n.db).value.value.at) else None)
            && n.db.cursors == s.db.cursors[s.db.target.cursorVersion := Current(n.db)]
  {
    var x := s.worker.session;
    CommitCheckpoint(env, s.db, x, r, IsFinal(s.db.target, x, r), saved);
  }

  lemma FailedCheckpoint(db: Db, run: nat, revision: nat, again: bool)
    requires run < |db.runs|
    ensures var n := FinishError(db, run, revision, again);
            n.cursors == db.cursors && run < |n.runs| && n.runs[run].pages == db.runs[run].pages
  {
  }

  lemma AnswerKeeps(env: Env, s: Sys, reload: nat)
    requires Inv(env, s)
    ensures Inv(env, AnswerStep(env, s, reload))
  {
    if s.worker.Charged? {
      var x, n := s.worker.session, AnswerStep(env, s, reload);
      var failed := FinishError(s.db, x.run, x.revision, Refuses(env, s.db, x));
      AnswerCases(env, s, reload);
      if n == Sys(failed, Idle) {
        SettleKeeps(env, s.db, x.run, failed.runs[x.run]);
      } else {
        var r, saved :| CommittedAs(env, s, reload, r, saved);
        CommitKeeps(env, s.db, x, r, IsFinal(s.db.target, x, r), saved);
        if n.worker.Ready? { CommittedSession(env, s.db, x, r, saved, n.worker.session.snapshot); }
      }
    }
  }
}
