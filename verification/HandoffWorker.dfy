/**
 The handoff worker as it runs: selected rows are updated in loops, and each item is linked in its own transaction.
 `select` results are parameters, since other workers' locks decide which rows a query skips.
 */
module HandoffWorker {
  import opened Keys
  import opened EvidencePolicy
  import opened Handoff

  datatype Outcome = WasLinked | WasBlocked | WillRetry

  /** What the database does to one link transaction. */
  datatype Weather = Calm | Fault

  datatype Report = Report(claimed: nat, linked: nat, blocked: nat, retried: nat, recovered: nat)

  class EvidenceProjectionHandoffWorker {
    const limits: Limits
    var projections: seq<Projection>
    var raws: seq<Raw>
    var links: seq<Link>
    var evidence: seq<Evidence>
    var contents: seq<Content>

    ghost function View(): (s: State)
      reads this
    {
      State(projections, raws, links, evidence, contents)
    }

    /** _discover_ready */
    method DiscoverReady(rows: seq<nat>) returns (ghost acts: seq<Action>)
      requires Sized(View())
      modifies this`links
      ensures Sized(View()) && View() == Exec(limits, old(View()), acts)
      ensures |acts| == |rows| && forall n :: 0 <= n < |rows| ==> acts[n] == Discovers(rows[n])
    {
      acts := [];
      ghost var start := View();
      for n := 0 to |rows|
        invariant Sized(View()) && View() == Exec(limits, start, acts)
        invariant |acts| == n && forall m :: 0 <= m < n ==> acts[m] == Discovers(rows[m])
      {
        var i := rows[n];
        ghost var before := View();
        if i < |links| && links[i].status.Absent? && projections[i].ready {
          links := links[i := ABSENT.(status := Pending)];
        }
        acts := Then(limits, start, acts, before, Discovers(i));
      }
    }

    /** _recover_stale: give back or block every stale row of the selection, or none when the trigger refuses one. */
    method RecoverStaleLinks(rows: seq<nat>, now: int) returns (raised: bool, ghost acts: seq<Action>)
      requires Sized(View())
      modifies this`links
      ensures Sized(View()) && View() == Exec(limits, old(View()), acts)
      ensures raised <==> RecoveryRefused(limits, old(View()), rows, now)
      ensures if raised then acts == []
              else |acts| == |rows| && forall n :: 0 <= n < |rows| ==> acts[n] == Recovers(rows[n], now)
    {
      acts := [];
      ghost var start := View();
      for n := 0 to |rows|
        invariant !RecoveryRefused(limits, start, rows[..n], now)
      {
        if RefusedRow(limits, State(projections, raws, links, evidence, contents), rows[n], now) {
          return true, [];
        }
      }
      assert rows[..|rows|] == rows;
      for n := 0 to |rows|
        invariant Sized(View()) && View() == Exec(limits, start, acts) && projections == start.projections
        invariant |acts| == n && forall m :: 0 <= m < n ==> acts[m] == Recovers(rows[m], now)
      {
        var i := rows[n];
        ghost var before := View();
        if i < |links| && projections[i].ready && links[i].status.Processing? && links[i].touched < now - limits.staleAfter {
          var row := links[i];
          links := links[i := if row.attempts >= limits.maxAttempts
                              then row.(status := Blocked, retryAt := None, touched := now)
                              else row.(status := Retry, retryAt := Some(now), touched := now)];
        }
        acts := Then(limits, start, acts, before, Recovers(i, now));
      }
      raised := false;
    }

    /** The row updates of `_claim`. */
    method ClaimRow(i: nat, now: int) returns (taken: bool)
      requires Sized(View())
      modifies this`links
      ensures Sized(View()) && View() == Claim(old(View()), i, now) && taken == Claimable(old(View()), i, now)
    {
      taken := Claimable(State(projections, raws, links, evidence, contents), i, now);
      if taken {
        var row := links[i];
        links := links[i := row.(status := Processing, attempts := row.attempts + 1, retryAt := None, touched := now)];
      }
    }

    /** _claim: exactly the selected rows that are due, once each; each is charged one attempt and no other row changes. */
    method ClaimLinks(rows: seq<nat>, now: int) returns (claimed: seq<nat>, ghost acts: seq<Action>)
      requires Sized(View())
      modifies this`links
      ensures Sized(View()) && View() == Exec(limits, old(View()), acts)
      ensures |acts| == |rows| && forall n :: 0 <= n < |rows| ==> acts[n] == Claims(rows[n], now)
      ensures Took(old(View()), rows, now, links, claimed)
    {
      acts, claimed := [], [];
      ghost var start := View();
      for n := 0 to |rows|
        invariant Sized(View()) && View() == Exec(limits, start, acts) && projections == start.projections
        invariant |acts| == n && forall m :: 0 <= m < n ==> acts[m] == Claims(rows[m], now)
        invariant Took(start, rows[..n], now, links, claimed)
      {
        var i := rows[n];
        ghost var before := View();
        assert rows[..n + 1] == rows[..n] + [i];
        TakesNext(start, rows[..n], now, before.links, claimed, i);
        var taken := ClaimRow(i, now);
        if taken {
          claimed := claimed + [i];
        }
        acts := Then(limits, start, acts, before, Claims(i, now));
      }
      assert rows[..|rows|] == rows;
    }

    /** _retry; it raises, and changes nothing, when the projection of a claimed link is no longer READY. */
    method RetryAfter(i: nat, now: int) returns (outcome: Option<Outcome>)
      requires Sized(View())
      modifies this`links
      ensures Sized(View()) && View() == RetryLink(limits, old(View()), i, now)
      ensures outcome.None? <==> OutOfReach(old(View()), i)
      ensures outcome == Some(WillRetry) ==> i < |links| && links[i].status.Retry?
      ensures outcome != Some(WasLinked)
    {
      if i >= |links| || !links[i].status.Processing? {
        return Some(WasBlocked);
      }
      if !projections[i].ready {
        return None;
      }
      var row := links[i];
      if row.attempts >= limits.maxAttempts {
        links := links[i := row.(status := Blocked, retryAt := None, touched := now)];
        return Some(WasBlocked);
      }
      links := links[i := row.(status := Retry, retryAt := Some(now + limits.retryDelay), touched := now)];
      return Some(WillRetry);
    }

    /** _terminal; it raises under the same condition. */
    method TerminalBlock(i: nat, now: int) returns (raised: bool)
      requires Sized(View())
      modifies this`links
      ensures Sized(View()) && View() == Terminal(old(View()), i, now)
      ensures raised <==> OutOfReach(old(View()), i)
    {
      if i < |links| && links[i].status.Processing? {
        if !projections[i].ready {
          return true;
        }
        links := links[i := links[i].(status := Blocked, retryAt := None, touched := now)];
      }
      return false;
    }

    /** The transaction of `_link_one`: content, evidence, canonical flags, then the triggers. */
    method LinkTransaction(i: nat, now: int) returns (conflict: bool)
      requires Sized(View())
      modifies this`links, this`evidence, this`contents
      ensures Sized(View()) && View() == LinkOne(old(View()), i, now)
      ensures i < |links| && old(View()).links[i].status.Processing? && Prepare(old(View()), i).Conflict? ==> conflict
    {
      var s := State(projections, raws, links, evidence, contents);
      if i >= |links| || !links[i].status.Processing? {
        return false;
      }
      if !Eligible(projections[i], raws[projections[i].raw]) {
        return true;
      }
      var content := ChooseContent(s, i);
      if content.Refuse? || content.Break? {
        return content.Refuse?;
      }
      var c := ContentId(s, content);
      var t := WithContent(s, content);
      var item := ChooseEvidence(t, i, c);
      if !item.Use? && !item.Insert? {
        return true;
      }
      var e := if item.Use? then item.row else |t.evidence|;
      t := if item.Use? then t else t.(evidence := t.evidence + [item.new_]);
      var row := LinkedRow(t.links, t.links[i], e, c, now);
      assert Prepare(s, i) == Ready(t, e, c);
      if !Guards(t, i, row) {
        return false;
      }
      contents, evidence, links := t.contents, t.evidence, t.links[i := row];
      return false;
    }

    /** The handlers of `_link_one` and of the batch: a conflict blocks the link, any other failure gives it back. `None`
        when the handler itself raises. */
    method HandleFailure(i: nat, now: int, conflict: bool) returns (outcome: Option<Outcome>, ghost a: Action)
      requires Sized(View())
      modifies this`links
      ensures Sized(View()) && View() == Step(limits, old(View()), a)
      ensures outcome.None? <==> OutOfReach(old(View()), i)
      ensures outcome.None? ==> View() == old(View())
      ensures outcome != Some(WasLinked) && (outcome == Some(WillRetry) ==> i < |links| && links[i].status.Retry?)
    {
      if conflict {
        var raised := TerminalBlock(i, now);
        return if raised then None else Some(WasBlocked), Terminates(i, now);
      }
      outcome := RetryAfter(i, now);
      a := Retries(i, now);
    }

    /** _link_one */
    method LinkItem(i: nat, now: int, weather: Weather) returns (outcome: Option<Outcome>, ghost acts: seq<Action>)
      requires Sized(View())
      modifies this`links, this`evidence, this`contents
      ensures Sized(View()) && View() == Exec(limits, old(View()), acts)
      ensures outcome == Some(WasLinked) ==> i < |links| && links[i].status.Linked?
      ensures outcome == Some(WillRetry) ==> i < |links| && links[i].status.Retry?
      ensures outcome.None? ==> OutOfReach(View(), i)
    {
      ghost var start := View();
      acts := [];
      var conflict := false;
      if weather.Calm? {
        conflict := LinkTransaction(i, now);
        acts := Then(limits, start, [], start, Links(i, now));
        if i < |links| && links[i].status.Linked? {
          return Some(WasLinked), acts;
        }
      }
      ghost var before, a := View(), Discovers(0);
      outcome, a := HandleFailure(i, now, conflict);
      acts := Then(limits, start, acts, before, a);
    }

    /** Other writers between two transactions of the batch. */
    method Interfere(changes: seq<Change>) returns (ghost acts: seq<Action>)
      requires Sized(View())
      modifies this
      ensures Sized(View()) && View() == Exec(limits, old(View()), acts)
    {
      acts := [];
      ghost var start := View();
      for n := 0 to |changes|
        invariant Sized(View()) && View() == Exec(limits, start, acts)
      {
        ghost var before := View();
        StepSized(limits, before, Changes(changes[n]));
        var t := Mutate(State(projections, raws, links, evidence, contents), changes[n]);
        projections, raws, links, evidence, contents := t.projections, t.raws, t.links, t.evidence, t.contents;
        acts := Then(limits, start, acts, before, Changes(changes[n]));
      }
    }

    /**
     process_batch: recover, discover, claim, then link each claimed row. Whatever the selections, the database and other
     writers do in between, the batch is a run of the transition system. Its report accounts for every claimed row. It ends
     without one only if a claimed link has lost its READY projection; when that link is in the stale selection, the batch
     does nothing at all.
     */
    method ProcessBatch(stale: seq<nat>, discovered: seq<nat>, due: seq<nat>, now: int, weather: nat -> Weather,
                        others: nat -> seq<Change>)
      returns (report: Option<Report>, ghost acts: seq<Action>)
      requires Sized(View())
      modifies this
      ensures Sized(View()) && View() == Exec(limits, old(View()), acts)
      ensures report.Some? ==>
                var r := report.value; r.linked + r.blocked + r.retried == r.claimed && r.recovered == |stale|
      ensures report.None? ==> exists i :: OutOfReach(View(), i)
      ensures RecoveryRefused(limits, old(View()), stale, now) ==> report.None? && View() == old(View())
    {
      ghost var start := View();
      ghost var more;
      var raised;
      raised, acts := RecoverStaleLinks(stale, now);
      if raised {
        assert exists n :: 0 <= n < |stale| && RefusedRow(limits, start, stale[n], now);
        return None, acts;
      }
      more := DiscoverReady(discovered);
      ExecConcat(limits, start, acts, more);
      acts := acts + more;
      var claimed;
      claimed, more := ClaimLinks(due, now);
      ExecConcat(limits, start, acts, more);
      acts := acts + more;
      var linked, blocked, retried := 0, 0, 0;
      for n := 0 to |claimed|
        invariant Sized(View()) && View() == Exec(limits, start, acts)
        invariant linked + blocked + retried == n
      {
        more := Interfere(others(n));
        ExecConcat(limits, start, acts, more);
        acts := acts + more;
        var outcome;
        outcome, more := LinkItem(claimed[n], now, weather(claimed[n]));
        ExecConcat(limits, start, acts, more);
        acts := acts + more;
        if outcome.None? {
          return None, acts;
        }
        match outcome.value {
          case WasLinked => linked := linked + 1;
          case WasBlocked => blocked := blocked + 1;
          case WillRetry => retried := retried + 1;
        }
      }
      report := Some(Report(|claimed|, linked, blocked, retried, |stale|));
    }
  }

  /** A link row a claim may take: READY projection, PENDING or RETRY, no retry time left to wait for. */
  predicate DueLink(s: State, i: nat, now: int) {
    && i < |s.links| && i < |s.projections| && s.projections[i].ready
    && (s.links[i].status.Pending? || s.links[i].status.Retry?)
    && (s.links[i].retryAt.None? || s.links[i].retryAt.value <= now)
  }

  /** The row it leaves. */
  function TakenLink(l: Link, now: int): (r: Link) {
    Link(Processing, l.attempts + 1, None, now, l.evidence, l.content, l.canonicalEvidence, l.canonicalContent)
  }

  /** What claiming a selection does: the due rows of it, once each, are taken, and no other row changes. */
  ghost predicate Took(s: State, rows: seq<nat>, now: int, links: seq<Link>, claimed: seq<nat>) {
    && (forall i :: i in claimed <==> i in rows && DueLink(s, i, now))
    && (forall k, m :: 0 <= k < m < |claimed| ==> claimed[k] != claimed[m])
    && |links| == |s.links|
    && (forall i :: 0 <= i < |links| ==> links[i] == if i in claimed then TakenLink(s.links[i], now) else s.links[i])
  }

  lemma TakesNext(s: State, rows: seq<nat>, now: int, links: seq<Link>, claimed: seq<nat>, i: nat)
    requires Sized(s) && Took(s, rows, now, links, claimed)
    ensures Claimable(s.(links := links), i, now) <==> DueLink(s, i, now) && i !in claimed
    ensures if DueLink(s, i, now) && i !in claimed then Took(s, rows + [i], now, links[i := ClaimedRow(links[i], now)], claimed + [i])
            else Took(s, rows + [i], now, links, claimed)
  {
  }

  /** A claimed link whose projection is no longer READY: the trigger refuses every update of it. */
  predicate OutOfReach(s: State, i: nat)
    requires Sized(s)
  {
    i < |s.links| && s.links[i].status.Processing? && !s.projections[i].ready
  }

  /** A row the recovery would update and the trigger refuses. */
  predicate RefusedRow(c: Limits, s: State, i: nat, now: int)
    requires Sized(s)
  {
    OutOfReach(s, i) && IsStale(c, s.links[i], now)
  }

  predicate RecoveryRefused(c: Limits, s: State, rows: seq<nat>, now: int)
    requires Sized(s)
  {
    exists n :: 0 <= n < |rows| && RefusedRow(c, s, rows[n], now)
  }

  ghost function Then(c: Limits, start: State, acts: seq<Action>, at: State, a: Action): (more: seq<Action>)
    requires Sized(start) && Sized(at) && Exec(c, start, acts) == at
    ensures Exec(c, start, more) == Step(c, at, a) && more == acts + [a]
  {
    assert (acts + [a])[..|acts|] == acts;
    acts + [a]
  }

  lemma {:induction false} ExecConcat(c: Limits, s: State, a: seq<Action>, b: seq<Action>)
    requires Sized(s)
    ensures Exec(c, s, a + b) == Exec(c, Exec(c, s, a), b)
  {
    if b == [] {
      assert a + b == a;
    } else {
      assert (a + b)[..|a + b| - 1] == a + b[..|b| - 1];
      ExecConcat(c, s, a, b[..|b| - 1]);
    }
  }
}
