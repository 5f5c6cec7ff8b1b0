/**
 The worker as it runs: one method per transaction, each proved to be the transition of the same name, and the
 page loop, proved to be a run of the transition system.
 */
module CollectionWorker {
  import opened Keys
  import opened Windows
  import opened Continuation
  import opened Pages
  import opened Downstream
  import opened ControlPlane
  import opened PlaneTheorems
  import opened PlaneProgress

  /** What the world does to one request. */
  datatype Event = Answered(reload: nat) | Errored(retryable: bool) | TimedOut | LostLock | Crashed

  /** TargetRunOutcome; `NoReport` when the process died. */
  datatype Outcome = Completed | Incomplete | Failure | Retry | NoReport

  class ControlPlaneWorker {
    var target: Target
    var cursors: map<nat, Cursor>
    var runs: seq<Run>
    var store: Store
    var audited: set<RowHash>
    ghost var trail: seq<Progress>
    ghost var chain: nat
    ghost var closed: map<nat, Trail>
    ghost var log: seq<Request>

    ghost function View(): (db: Db)
      reads this
    {
      Db(target, cursors, runs, store, audited, trail, chain, closed, log)
    }

    /** The cursor row of the target's version. */
    method SelectCursor() returns (row: Option<Cursor>)
      ensures row == CurrentRow(View())
    {
      row := if target.cursorVersion in cursors then Some(cursors[target.cursorVersion]) else None;
    }

    method StartTargetRun(now: Clock) returns (run: nat, snapshot: Option<Cursor>)
      modifies this
      ensures View() == StartRun(old(View()), now)
      ensures run == StartedRun(old(View())) < |runs| && snapshot == CurrentRow(old(View()))
    {
      var existing := RunningFrom(runs, 0);
      snapshot := SelectCursor();
      if existing.Some? {
        run := existing.value;
      } else {
        run := |runs|;
        runs := runs + [Run(Running, now, None, None, 0, 0, 0, 0, 0, 0, 0, target.maxRequests, target.maxPages)];
      }
    }

    /** _resolved_run_config: freeze, then bind; nothing is written when a step raises or the trigger refuses the row. */
    method ResolvedRunConfig(env: Env, run: nat, snapshot: Option<Cursor>) returns (r: Attempt<(Config, Token)>)
      requires run < |runs|
      modifies this
      ensures target == old(target) && |runs| == old(|runs|)
      ensures var spec := ResolveRun(env, old(View()), run, snapshot);
              match spec
              case Done(x) => r == Done((x.config, x.token)) && View() == x.db
              case Raised => r.Raised? && View() == old(View())
              case Refused => r.Refused? && View() == old(View())
    {
      var loaded := BreadthConfig(target.api, target.config);
      var row := SelectCursor();
      var persisted := if row.Some? then row.value else EMPTY_CURSOR;
      var frozen := Freeze(env, target, runs[run], snapshot, persisted);
      if loaded.None? || frozen.None? || frozen.value.window.None? {
        return Raised;
      }
      var config := ResolvedConfig(loaded.value, frozen.value.window.value);
      var token := BindToken(target, config, persisted);
      if token.None? {
        return Raised;
      }
      var bound := persisted.(token := token, bound := Some(run));
      if !ContinuationGuard(target, runs[run := frozen.value], target.cursorVersion, bound) {
        return Refused;
      }
      runs := runs[run := frozen.value];
      cursors := cursors[target.cursorVersion := bound];
      return Done((config, token.value));
    }

    /** The head of a page: load the target again, then stop as partial or charge one request. */
    method ChargeRequest(s: Session) returns (stopped: Option<Outcome>)
      requires s.run < |runs|
      modifies this
      ensures target == old(target) && |runs| == old(|runs|)
      ensures Sys(View(), if stopped.None? then Charged(s) else Idle) == ChargeStep(Sys(old(View()), Ready(s)))
      ensures stopped.Some? ==> !stopped.value.Completed?
    {
      if !target.status.Active? {
        var _ := FinishWithError(s.run, s.revision, false);
        return Some(Failure);
      }
      var r := runs[s.run];
      if r.requests >= target.maxRequests || r.pages >= target.maxPages {
        runs := runs[s.run := r.(status := Partial)];
        return Some(Incomplete);
      }
      runs := runs[s.run := r.(requests := r.requests + 1)];
      log := log + [Request(s.run, chain, s.config, s.limit, s.token.state)];
      return None;
    }

    /** The writes of a page transaction: raw items, audits, run counters and cursor together. */
    method WritePage(s: Session, r: Result, final: bool, saved: Saved)
      requires s.run < |runs|
      modifies this
      ensures View() == CommitPage(old(View()), s, r, final, saved)
    {
      var row := SelectCursor();
      var cursor := if row.Some? then row.value else EMPTY_CURSOR;
      store := saved.store;
      audited := audited + set h | h in r.page.rejected;
      runs := runs[s.run := RunAfterPage(runs[s.run], saved.counts, final, r.page)];
      cursors := cursors[target.cursorVersion := CursorAfterPage(cursor, s.run, r)];
      if r.token.Some? {
        trail := trail + [s.token.state];
      } else {
        closed := closed[s.run := Trail(chain, s.config, s.limit, trail + [s.token.state])];
        trail, chain := [], chain + 1;
      }
    }

    /** _persist_result: all writes in one transaction, or none when a check raises or the trigger refuses the row. */
    method PersistResult(s: Session, r: Result, final: bool) returns (ended: Attempt<()>)
      modifies this
      ensures match PersistPage(old(View()), s, r, final)
              case Done(db) => ended.Done? && View() == db
              case Raised => ended.Raised? && View() == old(View())
              case Refused => ended.Refused? && View() == old(View())
    {
      if target.revision != s.revision || s.run >= |runs| {
        return Raised;
      }
      var saved := PersistFetchResult(store, s.run, s.token.state, r.page.facts);
      if saved.Raised? {
        return Raised;
      }
      if saved.Refused? {
        return Refused;
      }
      var row := SelectCursor();
      if row.Some? && s.snapshot.Some? && row.value.value != s.snapshot.value.value {
        return Raised;
      }
      var cursor := if row.Some? then row.value else EMPTY_CURSOR;
      if !Successor(cursor.value, r.cursor) {
        return Raised;
      }
      var run := RunAfterPage(runs[s.run], saved.value.counts, final, r.page);
      if !ContinuationGuard(target, runs[s.run := run], target.cursorVersion, CursorAfterPage(cursor, s.run, r)) {
        return Refused;
      }
      WritePage(s, r, final, saved.value);
      return Done(());
    }

    method FinishWithError(run: nat, revision: nat, retryable: bool) returns (retry: bool)
      modifies this
      ensures View() == FinishError(old(View()), run, revision, retryable)
      ensures retry <==> run < |runs| && target.revision == revision && retryable && old(run < |runs| && runs[run].retries < 3)
    {
      if run >= |runs| {
        return false;
      }
      var r := runs[run];
      if target.revision != revision {
        runs := runs[run := r.(status := Failed)];
        return false;
      }
      retry := retryable && r.retries < 3;
      runs := runs[run := if retry then r.(status := Running, errors := r.errors + 1, retries := r.retries + 1)
                          else r.(status := Failed, errors := r.errors + 1)];
    }

    method FinishAfterLockLoss(run: nat)
      modifies this
      ensures View() == FinishLockLost(old(View()), run)
    {
      if run < |runs| {
        runs := runs[run := runs[run].(status := Failed, errors := runs[run].errors + 1)];
      }
    }

    /** recover_stale_target_runs, for this target's run. */
    method RecoverStaleRun()
      modifies this
      ensures View() == RecoverStale(old(View()))
    {
      var stale := RunningFrom(runs, 0);
      if stale.Some? {
        runs := runs[stale.value := runs[stale.value].(status := Failed)];
      }
    }

    /** The release loop: every pending row loses its recovery state and nothing else. */
    method ReleasePending() returns (abandoned: nat)
      modifies this`cursors
      ensures cursors == map v | v in old(cursors) :: Released(old(cursors)[v])
      ensures abandoned > 0 <==> Pending(old(View()))
    {
      var pending := set v | v in cursors && cursors[v].token.Some?;
      ghost var was := cursors;
      assert pending != {} <==> Pending(View()) by {
        assert forall v :: v in pending <==> v in cursors && cursors[v].token.Some?;
      }
      abandoned := 0;
      while pending != {}
        invariant pending <= cursors.Keys == was.Keys
        invariant forall v :: v in was ==> cursors[v] == if v in pending then was[v] else Released(was[v])
        invariant pending != {} || abandoned > 0 <==> Pending(old(View()))
        invariant forall v :: v in pending ==> was[v].token.Some?
        decreases |pending|
      {
        var v :| v in pending;
        cursors := cursors[v := cursors[v].(token := None, bound := None)];
        pending := pending - {v};
        abandoned := abandoned + 1;
      }
    }

    /** abandon_pending_continuations: only recovery state goes, every checkpoint stays. */
    method AbandonPendingContinuations() returns (abandoned: nat)
      modifies this
      ensures View() == Abandon(old(View()))
    {
      if RunningFrom(runs, 0).Some? || !target.status.Paused? {
        return 0;
      }
      abandoned := ReleasePending();
      trail := [];
      chain := if abandoned > 0 then chain + 1 else chain;
    }

    /** The row a reload without a version filter returns. */
    method ReloadCursor(reload: nat) returns (row: Option<Cursor>)
      ensures row == if reload in cursors then Some(cursors[reload]) else CurrentRow(View())
    {
      if reload in cursors {
        row := Some(cursors[reload]);
      } else {
        row := SelectCursor();
      }
    }

    /** The exception handlers of `execute`: a refused row is a database error and is retried. */
    method HandleFailure(s: Session, refused: bool) returns (outcome: Outcome)
      modifies this
      ensures View() == FinishError(old(View()), s.run, s.revision, refused) && (outcome.Retry? || outcome.Failure?)
      ensures target == old(target) && |runs| == old(|runs|)
    {
      var retry := FinishWithError(s.run, s.revision, refused);
      outcome := if retry then Retry else Failure;
    }

    /** Everything between a charged request and the next one. `next` is the session to go on with. */
    method HandlePage(env: Env, s: Session, reload: nat) returns (next: Option<Session>, outcome: Outcome)
      modifies this
      ensures target == old(target) && |runs| == old(|runs|)
      ensures next.Some? ==> next.value.run == s.run && next.value.index == s.index + 1 != PagesPerRun(target)
      ensures Sys(View(), if next.Some? then Ready(next.value) else Idle)
              == AnswerStep(env, Sys(old(View()), Charged(s)), reload)
      ensures outcome.Completed? ==> next.None? && s.run < |runs| && runs[s.run].status.Succeeded?
      ensures outcome.Incomplete? && next.None? ==> s.run < |runs| && runs[s.run].status.Partial?
    {
      next := None;
      var result := Fetch(env, target, s);
      if result.None? || !AnswerSound(target, s, result.value) {
        outcome := HandleFailure(s, false);
        return;
      }
      var r := result.value;
      var final := IsFinal(target, s, r);
      var ended := PersistResult(s, r, final);
      if !ended.Done? {
        outcome := HandleFailure(s, ended.Refused?);
        return;
      }
      if final || r.token.None? {
        return None, if r.page.more || r.page.incomplete then Incomplete else Completed;
      }
      var row := ReloadCursor(reload);
      return Some(s.(snapshot := row, cursor := r.cursor, token := r.token.value, index := s.index + 1)), Incomplete;
    }

    /** A request that brought no page. */
    method HandleFault(env: Env, s: Session, event: Event) returns (outcome: Outcome, ghost a: Action)
      requires !event.Answered?
      modifies this
      ensures Sys(View(), Idle) == Step(env, Sys(old(View()), Charged(s)), a) && !outcome.Completed?
    {
      match event {
        case Errored(retryable) =>
          var retry := FinishWithError(s.run, s.revision, retryable);
          return if retry then Retry else Failure, RequestFailed(retryable);
        case TimedOut =>
          var _ := FinishWithError(s.run, s.revision, false);
          return Failure, RequestFailed(false);
        case LostLock =>
          FinishAfterLockLoss(s.run);
          return Retry, LockLost;
        case Crashed =>
          return NoReport, Crash;
      }
    }

    /**
     _execute_pages. Whatever the world answers, the loop is a run of the transition system; it never falls out
     of its range, and it reports success only for a run it left SUCCEEDED.
     */
    method ExecutePages(env: Env, first: Session, world: nat -> Event) returns (outcome: Outcome, ghost acts: seq<Action>)
      requires first.run < |runs| && first.index == 0 && 0 < PagesPerRun(target)
      modifies this
      ensures Sys(View(), Idle) == Exec(env, Sys(old(View()), Ready(first)), acts)
      ensures outcome.Completed? ==> first.run < |runs| && runs[first.run].status.Succeeded?
    {
      acts := [];
      var s := first;
      ghost var start := Sys(View(), Ready(first));
      var pages := PagesPerRun(target);
      while true
        invariant Sys(View(), Ready(s)) == Exec(env, start, acts)
        invariant s.run == first.run < |runs| && s.index < pages == PagesPerRun(target)
        decreases pages - s.index
      {
        ghost var before := Sys(View(), Ready(s));
        var stopped := ChargeRequest(s);
        acts := Then(env, start, acts, before, Charge);
        if stopped.Some? {
          return stopped.value, acts;
        }
        ghost var asked := Sys(View(), Charged(s));
        var event := world(s.index);
        if !event.Answered? {
          ghost var a;
          outcome, a := HandleFault(env, s, event);
          acts := Then(env, start, acts, asked, a);
          return;
        }
        var next;
        next, outcome := HandlePage(env, s, event.reload);
        acts := Then(env, start, acts, asked, Answer(event.reload));
        if next.None? {
          return;
        }
        s := next.value;
      }
    }

    /** Start or adopt a run, resolve it, work through its pages: a run of the transition system. */
    method RunDispatch(env: Env, now: Clock, world: nat -> Event) returns (outcome: Outcome, run: nat, ghost acts: seq<Action>)
      requires 0 < PagesPerRun(target)
      modifies this
      ensures Sys(View(), Idle) == Exec(env, Sys(old(View()), Idle), acts)
      ensures outcome.Completed? ==> run < |runs| && runs[run].status.Succeeded?
    {
      ghost var start := Sys(View(), Idle);
      acts := [];
      run := 0;
      if !target.status.Active? {
        return Failure, run, acts;
      }
      var snapshot;
      run, snapshot := StartTargetRun(now);
      var revision := target.revision;
      acts := Then(env, start, acts, start, Begin(now));
      ghost var started := Sys(View(), Started(run, revision, snapshot));
      var resolved := ResolvedRunConfig(env, run, snapshot);
      acts := Then(env, start, acts, started, ResolveConfig);
      if !resolved.Done? {
        var retry := FinishWithError(run, revision, resolved.Refused?);
        return if retry then Retry else Failure, run, acts;
      }
      var cursor := if snapshot.Some? then snapshot.value.value else None;
      var session := Session(run, revision, snapshot, resolved.value.0, target.batchLimit, cursor, resolved.value.1, 0);
      ghost var tail;
      outcome, tail := ExecutePages(env, session, world);
      ExecConcat(env, start, acts, tail);
      acts := acts + tail;
    }

    /**
     One dispatch under the target lock, from any reachable state. The new state is reachable again, so everything
     proved of reachable states holds after every dispatch; a report of success means the traversal is covered.
     */
    method Execute(env: Env, now: Clock, world: nat -> Event) returns (outcome: Outcome)
      requires Reachable(env, Sys(View(), Idle))
      modifies this
      ensures Reachable(env, Sys(View(), Idle))
      ensures Forward(old(View()), View())
      ensures outcome.Completed? ==>
                exists r: nat, limit, states ::
                  r < |runs| && runs[r].hash.Some? && Covered(env, View(), runs[r].hash.value.of, limit, states)
    {
      assert 0 < PagesPerRun(target) by { ReachableInv(env, Sys(View(), Idle)); }
      ghost var start := Sys(View(), Idle);
      var run;
      ghost var acts;
      outcome, run, acts := RunDispatch(env, now, world);
      Arrived(env, start, acts);
      if outcome.Completed? {
        SucceededCovers(env, Sys(View(), Idle), run);
      }
    }
  }

  /** Append one step to a run. */
  ghost function Then(env: Env, start: Sys, acts: seq<Action>, at: Sys, a: Action): (more: seq<Action>)
    requires Exec(env, start, acts) == at
    ensures Exec(env, start, more) == Step(env, at, a)
  {
    assert (acts + [a])[..|acts|] == acts;
    acts + [a]
  }

  lemma {:induction false} ReachableExec(env: Env, s: Sys, acts: seq<Action>)
    requires Reachable(env, s)
    ensures Reachable(env, Exec(env, s, acts))
  {
    if acts != [] {
      ReachableExec(env, s, acts[..|acts| - 1]);
      ReachableStep(env, Exec(env, s, acts[..|acts| - 1]), acts[|acts| - 1]);
    }
  }

  lemma Arrived(env: Env, s: Sys, acts: seq<Action>)
    requires Reachable(env, s)
    ensures Reachable(env, Exec(env, s, acts)) && Forward(s.db, Exec(env, s, acts).db)
  {
    ReachableExec(env, s, acts);
    ReachableInv(env, s);
    NeverBackward(env, s, acts);
  }
}
