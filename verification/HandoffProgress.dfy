/**
 When a handoff step must happen: claims, retries and recoveries on the columns of the link row, and the life of a link
 whose transactions keep failing.
 */
module HandoffProgress {
  import opened Keys
  import opened Handoff
  import opened HandoffTheorems

  /** The other rows of two states agree. */
  predicate OnlyLink(s: State, n: State, i: nat, row: Link) {
    i < |s.links| && n == s.(links := s.links[i := row])
  }

  /**
   A claim charges link i one attempt and puts it in PROCESSING without a retry time iff its projection is READY, it is
   PENDING or RETRY, and its retry time is absent or not after now. Otherwise it changes nothing.
   */
  lemma ClaimExact(s: State, i: nat, now: int)
    requires Sized(s)
    ensures var due := && i < |s.links| && s.projections[i].ready && (s.links[i].status.Pending? || s.links[i].status.Retry?)
                       && (s.links[i].retryAt.None? || s.links[i].retryAt.value <= now);
            var n := Claim(s, i, now);
            && (due ==> var l := s.links[i];
                        OnlyLink(s, n, i, l.(status := Processing, attempts := l.attempts + 1, retryAt := None, touched := now)))
            && (!due ==> n == s)
  {
  }

  /** Discovery gives projection i a PENDING link without attempts iff it is READY and has none; otherwise it changes nothing. */
  lemma DiscoverExact(s: State, i: nat)
    requires Sized(s)
    ensures var new_ := i < |s.links| && s.links[i].status.Absent? && s.projections[i].ready;
            && (new_ ==> OnlyLink(s, Discover(s, i), i, Link(Pending, 0, None, 0, None, None, false, false)))
            && (!new_ ==> Discover(s, i) == s)
  {
  }

  /**
   Recovery touches link i iff it is in PROCESSING, was last touched longer ago than the staleness bound, and its
   projection is READY: then it may be claimed at once if attempts remain, and is BLOCKED if not.
   */
  lemma RecoveryExact(c: Limits, s: State, i: nat, now: int)
    requires Sized(s)
    ensures var stale := i < |s.links| && s.links[i].status.Processing? && s.links[i].touched + c.staleAfter < now && s.projections[i].ready;
            var n := RecoverStale(c, s, i, now);
            && (stale ==>
                  var l := s.links[i].(touched := now);
                  OnlyLink(s, n, i, if l.attempts < c.maxAttempts then l.(status := Retry, retryAt := Some(now))
                                    else l.(status := Blocked, retryAt := None)))
            && (!stale ==> n == s)
  {
  }

  /** How the transaction of a claimed link fails: its handler gives the link back, or the worker dies. */
  datatype Failure = Handled | Died

  /** One try: claimed at one time, given back at a later one. */
  datatype Round = Round(claimed: int, failure: Failure, failed: int)

  /** When the link may be claimed again. */
  function NextTry(c: Limits, r: Round): (t: int) {
    if r.failure.Handled? then r.failed + c.retryDelay else r.failed
  }

  /** No try comes before its retry time, and a dead worker is noticed once its claim is older than the staleness bound. */
  ghost predicate Timely(c: Limits, rounds: seq<Round>) {
    && (forall k :: 0 <= k < |rounds| && rounds[k].failure.Died? ==> rounds[k].claimed + c.staleAfter < rounds[k].failed)
    && (forall j, k :: 0 <= j < k < |rounds| && k == j + 1 ==> NextTry(c, rounds[j]) <= rounds[k].claimed)
  }

  function GiveBack(i: nat, r: Round): (a: Action) {
    if r.failure.Handled? then Retries(i, r.failed) else Recovers(i, r.failed)
  }

  /** Discovery, then claim after claim, none of which links. */
  function Failing(i: nat, rounds: seq<Round>): (acts: seq<Action>) {
    if rounds == [] then [Discovers(i)]
    else
      var r := rounds[|rounds| - 1];
      Failing(i, rounds[..|rounds| - 1]) + [Claims(i, r.claimed)] + [GiveBack(i, r)]
  }

  /** As many claims as there are tries, but at most max_attempts, or one when that is not positive. */
  function Tries(c: Limits, n: nat): (k: nat) {
    var most: nat := if c.maxAttempts < 1 then 1 else c.maxAttempts;
    if n < most then n else most
  }

  /** The link after n failed tries, the last of them r. */
  predicate AfterTries(c: Limits, l: Link, n: nat, r: Option<Round>) {
    && l.attempts == Tries(c, n)
    && (if r.None? then l.status.Pending? && l.retryAt.None?
        else if n < c.maxAttempts then l.status.Retry? && l.retryAt == Some(NextTry(c, r.value))
        else l.status.Blocked? && l.retryAt.None?)
  }

  function LastRound(rounds: seq<Round>): (r: Option<Round>) {
    if rounds == [] then None else Some(rounds[|rounds| - 1])
  }

  /** One try from a link that may be claimed. */
  lemma OneTry(c: Limits, s: State, i: nat, n: nat, last: Option<Round>, r: Round)
    requires Sized(s) && i < |s.links| && s.projections[i].ready && AfterTries(c, s.links[i], n, last)
    requires (n == 0 <==> last.None?) && (last.Some? ==> NextTry(c, last.value) <= r.claimed)
    requires r.failure.Died? ==> r.claimed + c.staleAfter < r.failed
    ensures var t := Claim(s, i, r.claimed);
            var u := if r.failure.Handled? then RetryLink(c, t, i, r.failed) else RecoverStale(c, t, i, r.failed);
            && Sized(u) && u.projections == s.projections && |u.links| == |s.links| && AfterTries(c, u.links[i], n + 1, Some(r))
            && (Claimable(s, i, r.claimed) <==> n == 0 || n < c.maxAttempts)
  {
  }

  lemma ExecNext(c: Limits, s: State, acts: seq<Action>, a: Action, i: nat)
    requires Sized(s)
    ensures Exec(c, s, acts + [a]) == Step(c, Exec(c, s, acts), a)
    ensures ClaimsOf(c, s, acts + [a], i) ==
            ClaimsOf(c, s, acts, i) + (if a.Claims? && a.i == i && Claimable(Exec(c, s, acts), i, a.now) then 1 else 0)
  {
    assert (acts + [a])[..|acts|] == acts;
  }

  /** A run that ends with one more try. */
  lemma OneMoreTry(c: Limits, s: State, acts: seq<Action>, i: nat, n: nat, last: Option<Round>, r: Round)
    requires Sized(s) && i < |s.links| && Exec(c, s, acts).projections == s.projections && s.projections[i].ready
    requires ClaimsOf(c, s, acts, i) == Tries(c, n) && AfterTries(c, Exec(c, s, acts).links[i], n, last)
    requires (n == 0 <==> last.None?) && (last.Some? ==> NextTry(c, last.value) <= r.claimed)
    requires r.failure.Died? ==> r.claimed + c.staleAfter < r.failed
    ensures var more := acts + [Claims(i, r.claimed)] + [GiveBack(i, r)];
            && Exec(c, s, more).projections == s.projections && ClaimsOf(c, s, more, i) == Tries(c, n + 1)
            && AfterTries(c, Exec(c, s, more).links[i], n + 1, Some(r))
  {
    ExecNext(c, s, acts, Claims(i, r.claimed), i);
    ExecNext(c, s, acts + [Claims(i, r.claimed)], GiveBack(i, r), i);
    OneTry(c, Exec(c, s, acts), i, n, last, r);
  }

  /**
   A link whose projection stays READY and whose tries keep failing, by an error or by a dead worker, on any timely
   schedule: every try is a claim until max_attempts is reached, or one when that is not positive. Before that the link
   waits in RETRY for its retry time; from then on it is BLOCKED and never claimed again.
   */
  lemma {:induction false} FailsUntilBlocked(c: Limits, s: State, i: nat, rounds: seq<Round>)
    requires Sized(s) && i < |s.links| && s.links[i].status.Absent? && s.projections[i].ready && Timely(c, rounds)
    ensures var acts := Failing(i, rounds);
            var t := Exec(c, s, acts);
            && t.projections == s.projections && ClaimsOf(c, s, acts, i) == Tries(c, |rounds|)
            && AfterTries(c, t.links[i], |rounds|, LastRound(rounds))
  {
    if rounds == [] {
      assert [Discovers(i)][..0] == [];
      assert ClaimsOf(c, s, [], i) == 0;
    } else {
      var n := |rounds| - 1;
      var init, r := rounds[..n], rounds[n];
      FailsUntilBlocked(c, s, i, init);
      OneMoreTry(c, s, Failing(i, init), i, n, LastRound(init), r);
    }
  }
}
