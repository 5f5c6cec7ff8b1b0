/**
 Atomic persistence of one page (src/market_intelligence/collection/downstream.py): raw items keyed by
 external identity, observations keyed by (run, item, page), one projection per observation.
 */
module Downstream {
  import opened Continuation
  import opened Pages

  /** Who inserted a raw item: a run of this target, or another target of the source under the same or another account. */
  datatype Owner = ByRun(run: nat) | SameAccount | OtherAccount

  /** How a transaction ends: committed, rolled back by an exception of the worker's, or by a database trigger. */
  datatype Attempt<T> = Done(value: T) | Raised | Refused

  datatype ObservationKey = ObservationKey(run: nat, item: string, page: Progress)

  /** An observation and its projection share the canonical hash, here the payload itself. */
  datatype Store = Store(raw: map<string, Owner>, observed: map<ObservationKey, Payload>)

  datatype Counts = Counts(fetched: nat, inserted: nat, duplicates: nat)

  /** An observation under the same key with another hash aborts the transaction. */
  predicate Clashes(s: Store, run: nat, page: Progress, p: Payload) {
    var key := ObservationKey(run, p.id, page);
    key in s.observed && s.observed[key] != p
  }

  /** r2_observation_provenance_guard refuses to observe an item that belongs to another account of the source. */
  predicate Alien(s: Store, id: string) {
    id in s.raw && s.raw[id].OtherAccount?
  }

  /** No fact of the page is such an item. */
  predicate Clear(s: Store, facts: seq<Payload>) {
    forall p :: p in facts ==> !Alien(s, p.id)
  }

  function PutOne(s: Store, run: nat, page: Progress, p: Payload): (r: Store) {
    Store(if p.id in s.raw then s.raw else s.raw[p.id := ByRun(run)],
          s.observed[ObservationKey(run, p.id, page) := p])
  }

  function CountOne(s: Store, c: Counts, p: Payload): (r: Counts) {
    if p.id in s.raw then Counts(c.fetched + 1, c.inserted, c.duplicates + 1)
    else Counts(c.fetched + 1, c.inserted + 1, c.duplicates)
  }

  /** What a committed page leaves behind. */
  datatype Saved = Saved(store: Store, counts: Counts)

  /** Persisting facts one after the other, until the trigger or a clash aborts the transaction. */
  function Persist(s: Store, run: nat, page: Progress, facts: seq<Payload>): (r: Attempt<Saved>)
    ensures r.Done? ==> r.value.counts.fetched == |facts| == r.value.counts.inserted + r.value.counts.duplicates
  {
    if facts == [] then Done(Saved(s, Counts(0, 0, 0)))
    else
      var init, last := Persist(s, run, page, facts[..|facts| - 1]), facts[|facts| - 1];
      if !init.Done? then init
      else if Alien(init.value.store, last.id) then Refused
      else if Clashes(init.value.store, run, page, last) then Raised
      else Done(Saved(PutOne(init.value.store, run, page, last), CountOne(init.value.store, init.value.counts, last)))
  }

  /** persist_fetch_result as the loop it is. */
  method PersistFetchResult(s: Store, run: nat, page: Progress, facts: seq<Payload>)
    returns (r: Attempt<Saved>)
    ensures r == Persist(s, run, page, facts)
  {
    var t, counts := s, Counts(0, 0, 0);
    for n := 0 to |facts|
      invariant Persist(s, run, page, facts[..n]) == Done(Saved(t, counts))
    {
      assert facts[..n + 1][..n] == facts[..n];
      if Alien(t, facts[n].id) {
        AbortsEarly(s, run, page, facts, n + 1);
        return Refused;
      }
      if Clashes(t, run, page, facts[n]) {
        AbortsEarly(s, run, page, facts, n + 1);
        return Raised;
      }
      counts := CountOne(t, counts, facts[n]);
      t := PutOne(t, run, page, facts[n]);
    }
    assert facts[..|facts|] == facts;
    r := Done(Saved(t, counts));
  }

  lemma {:induction false} AbortsEarly(s: Store, run: nat, page: Progress, facts: seq<Payload>, n: nat)
    requires n <= |facts| && !Persist(s, run, page, facts[..n]).Done?
    ensures Persist(s, run, page, facts) == Persist(s, run, page, facts[..n])
    decreases |facts|
  {
    if n < |facts| {
      assert facts[..|facts| - 1][..n] == facts[..n];
      AbortsEarly(s, run, page, facts[..|facts| - 1], n);
    } else {
      assert facts[..n] == facts;
    }
  }

  /** The raw items a run inserted. */
  function OwnedBy(s: Store, run: nat): (r: set<string>) {
    set x | x in s.raw && s.raw[x] == ByRun(run)
  }

  predicate Stored(s: Store, facts: seq<Payload>) {
    forall p :: p in facts ==> p.id in s.raw
  }

  /** Nothing stored is lost or handed to another run. */
  predicate Keeps(s: Store, t: Store) {
    forall x :: x in s.raw ==> x in t.raw && t.raw[x] == s.raw[x]
  }

  /** Observations of a later state are old ones or facts of the page persisted in between. */
  predicate Observes(s: Store, t: Store, run: nat, page: Progress, facts: seq<Payload>) {
    forall key :: key in t.observed ==>
      || (key in s.observed && t.observed[key] == s.observed[key])
      || (key.run == run && key.page == page && t.observed[key] in facts && t.observed[key].id == key.item)
  }

  lemma PutOwnsOthers(t: Store, run: nat, page: Progress, p: Payload, other: nat)
    requires other != run
    ensures OwnedBy(PutOne(t, run, page, p), other) == OwnedBy(t, other)
  {
  }

  lemma PutOwns(t: Store, run: nat, page: Progress, p: Payload)
    ensures OwnedBy(PutOne(t, run, page, p), run) == OwnedBy(t, run) + (if p.id in t.raw then {} else {p.id})
    ensures p.id !in t.raw ==> p.id !in OwnedBy(t, run)
  {
  }

  /** Ownership moves only towards the run that persists, and only with items nobody had. */
  ghost predicate Gains(s: Store, t: Store, run: nat, n: nat) {
    && |OwnedBy(t, run)| == |OwnedBy(s, run)| + n
    && (forall other :: other != run ==> OwnedBy(t, other) == OwnedBy(s, other))
  }

  lemma PutGains(s: Store, t: Store, run: nat, page: Progress, p: Payload, n: nat)
    requires Gains(s, t, run, n)
    ensures Gains(s, PutOne(t, run, page, p), run, if p.id in t.raw then n else n + 1)
  {
    PutOwns(t, run, page, p);
    forall other | other != run ensures OwnedBy(PutOne(t, run, page, p), other) == OwnedBy(s, other) {
      PutOwnsOthers(t, run, page, p, other);
    }
  }

  lemma PutKeeps(s: Store, t: Store, run: nat, page: Progress, init: seq<Payload>, p: Payload)
    requires Keeps(s, t) && Stored(t, init) && Observes(s, t, run, page, init)
    ensures var u := PutOne(t, run, page, p);
            Keeps(s, u) && Stored(u, init + [p]) && Observes(s, u, run, page, init + [p])
  {
  }

  /**
   Conservation: nothing stored is lost or handed to another run, every fact of the page is stored, and the
   insert counter is exactly the growth of the set of items this run owns.
   */
  lemma {:induction false} PersistConserves(s: Store, run: nat, page: Progress, facts: seq<Payload>)
    requires Persist(s, run, page, facts).Done?
    ensures var saved := Persist(s, run, page, facts).value;
            && Keeps(s, saved.store) && Stored(saved.store, facts) && Observes(s, saved.store, run, page, facts)
            && Gains(s, saved.store, run, saved.counts.inserted)
  {
    if facts != [] {
      var init, last := facts[..|facts| - 1], facts[|facts| - 1];
      assert facts == init + [last];
      PersistConserves(s, run, page, init);
      var before := Persist(s, run, page, init).value;
      PutKeeps(s, before.store, run, page, init, last);
      PutGains(s, before.store, run, page, last, before.counts.inserted);
    }
  }

  /** Persisting a page makes no item alien and frees none. */
  lemma {:induction false} PersistKeepsAliens(s: Store, run: nat, page: Progress, facts: seq<Payload>)
    requires Persist(s, run, page, facts).Done?
    ensures forall id :: Alien(Persist(s, run, page, facts).value.store, id) <==> Alien(s, id)
  {
    if facts != [] { PersistKeepsAliens(s, run, page, facts[..|facts| - 1]); }
  }

  /**
   When earlier observations under its keys came from the same page content, a page is accepted exactly if none of its
   items belongs to another account of the source, and refused by the trigger otherwise.
   */
  lemma {:induction false} PersistAccepts(s: Store, run: nat, page: Progress, facts: seq<Payload>, content: seq<Payload>)
    requires DistinctIds(content) && forall p :: p in facts ==> p in content
    requires forall key :: key in s.observed && key.run == run && key.page == page ==>
               s.observed[key] in content && s.observed[key].id == key.item
    ensures if Clear(s, facts) then Persist(s, run, page, facts).Done? else Persist(s, run, page, facts).Refused?
  {
    if facts != [] {
      var init, last := facts[..|facts| - 1], facts[|facts| - 1];
      assert facts == init + [last];
      PersistAccepts(s, run, page, init, content);
      if Clear(s, init) {
        PersistConserves(s, run, page, init);
        PersistKeepsAliens(s, run, page, init);
        assert last in facts;
        var t := Persist(s, run, page, init).value.store;
        NoClash(t, run, page, last, content);
      }
    }
  }

  /** Facts stand in the way of their page when the item belongs to another account, or was observed under the same key with
      other content. */
  predicate Barred(s: Store, p: Payload) { p.id in s.raw && s.raw[p.id] == OtherAccount }

  predicate Differs(s: Store, run: nat, page: Progress, p: Payload) {
    ObservationKey(run, p.id, page) in s.observed && s.observed[ObservationKey(run, p.id, page)] != p
  }

  predicate AllClear(s: Store, run: nat, page: Progress, facts: seq<Payload>) {
    forall p :: p in facts ==> !Barred(s, p) && !Differs(s, run, page, p)
  }

  /** Fact p follows facts that are all clear and stands in the way: barred, or with other content. */
  predicate Stops(s: Store, run: nat, page: Progress, before: seq<Payload>, p: Payload, barred: bool) {
    AllClear(s, run, page, before) && Barred(s, p) == barred && (Barred(s, p) || Differs(s, run, page, p))
  }

  predicate FirstBad(s: Store, run: nat, page: Progress, facts: seq<Payload>, barred: bool) {
    exists i :: 0 <= i < |facts| && Stops(s, run, page, facts[..i], facts[i], barred)
  }

  lemma FirstBadGrows(s: Store, run: nat, page: Progress, facts: seq<Payload>, p: Payload, barred: bool)
    ensures FirstBad(s, run, page, facts + [p], barred) <==>
            FirstBad(s, run, page, facts, barred) || Stops(s, run, page, facts, p, barred)
  {
    var all, n := facts + [p], |facts|;
    assert all[..n] == facts && all[n] == p;
    if FirstBad(s, run, page, all, barred) {
      var i :| 0 <= i < |all| && Stops(s, run, page, all[..i], all[i], barred);
      if i < n { assert all[..i] == facts[..i] && all[i] == facts[i]; }
    }
    if FirstBad(s, run, page, facts, barred) {
      var i :| 0 <= i < n && Stops(s, run, page, facts[..i], facts[i], barred);
      assert all[..i] == facts[..i] && all[i] == facts[i];
    }
  }

  lemma {:induction false} ElsewhereSame(s: Store, run: nat, page: Progress, facts: seq<Payload>, key: ObservationKey)
    requires Persist(s, run, page, facts).Done? && forall p :: p in facts ==> p.id != key.item
    ensures var t := Persist(s, run, page, facts).value.store;
            (key in t.observed <==> key in s.observed) && (key in t.observed ==> t.observed[key] == s.observed[key])
  {
    if facts != [] {
      assert facts[|facts| - 1] in facts;
      ElsewhereSame(s, run, page, facts[..|facts| - 1], key);
    }
  }

  /** Facts persisted before do not decide about a fact with another identity. */
  lemma LaterSame(s: Store, run: nat, page: Progress, facts: seq<Payload>, p: Payload)
    requires Persist(s, run, page, facts).Done? && forall x :: x in facts ==> x.id != p.id
    ensures var t := Persist(s, run, page, facts).value.store;
            (Alien(t, p.id) <==> Barred(s, p)) && (Clashes(t, run, page, p) <==> Differs(s, run, page, p))
  {
    PersistKeepsAliens(s, run, page, facts);
    ElsewhereSame(s, run, page, facts, ObservationKey(run, p.id, page));
  }

  /** One fact further. */
  lemma PersistNext(s: Store, run: nat, page: Progress, facts: seq<Payload>, p: Payload)
    requires DistinctIds(facts + [p])
    ensures var before, after := Persist(s, run, page, facts), Persist(s, run, page, facts + [p]);
            && (!before.Done? ==> after == before)
            && (before.Done? && Barred(s, p) ==> after.Refused?)
            && (before.Done? && !Barred(s, p) && Differs(s, run, page, p) ==> after.Raised?)
            && (before.Done? && !Barred(s, p) && !Differs(s, run, page, p) ==> after.Done?)
  {
    var all := facts + [p];
    assert all[..|all| - 1] == facts && all[|all| - 1] == p;
    forall x | x in facts ensures x.id != p.id {
      var k :| 0 <= k < |facts| && facts[k] == x;
      assert all[k].id != all[|facts|].id;
    }
    if Persist(s, run, page, facts).Done? { LaterSame(s, run, page, facts, p); }
  }

  lemma {:induction false} DoneExact(s: Store, run: nat, page: Progress, facts: seq<Payload>)
    requires DistinctIds(facts)
    ensures Persist(s, run, page, facts).Done? <==> AllClear(s, run, page, facts)
  {
    if facts != [] {
      var init, last := facts[..|facts| - 1], facts[|facts| - 1];
      assert facts == init + [last];
      DoneExact(s, run, page, init);
      PersistNext(s, run, page, init, last);
      assert forall x :: x in facts <==> x in init || x == last;
    }
  }

  predicate EndsAs(a: Attempt<Saved>, barred: bool) { if barred then a.Refused? else a.Raised? }

  lemma {:induction false} EndsExact(s: Store, run: nat, page: Progress, facts: seq<Payload>, barred: bool)
    requires DistinctIds(facts)
    ensures EndsAs(Persist(s, run, page, facts), barred) <==> FirstBad(s, run, page, facts, barred)
  {
    if facts != [] {
      var init, last := facts[..|facts| - 1], facts[|facts| - 1];
      EndsExact(s, run, page, init, barred);
      DoneExact(s, run, page, init);
      PersistNext(s, run, page, init, last);
      FirstBadGrows(s, run, page, init, last, barred);
      assert facts == init + [last];
    }
  }

  /**
   How a page with distinct identities ends: it is stored iff no fact stands in the way; otherwise the first that does decides,
   a refusal by the trigger if its item belongs to another account, an exception if its content changed.
   */
  lemma PersistExact(s: Store, run: nat, page: Progress, facts: seq<Payload>)
    requires DistinctIds(facts)
    ensures Persist(s, run, page, facts).Done? <==> AllClear(s, run, page, facts)
    ensures Persist(s, run, page, facts).Refused? <==> FirstBad(s, run, page, facts, true)
    ensures Persist(s, run, page, facts).Raised? <==> FirstBad(s, run, page, facts, false)
  {
    DoneExact(s, run, page, facts);
    EndsExact(s, run, page, facts, true);
    EndsExact(s, run, page, facts, false);
  }

  lemma {:induction false} StoredExact(s: Store, run: nat, page: Progress, facts: seq<Payload>)
    requires Persist(s, run, page, facts).Done?
    ensures var t := Persist(s, run, page, facts).value.store;
            && (forall x :: x in t.raw <==> x in s.raw || exists p :: p in facts && p.id == x)
            && (forall x :: x in t.raw ==> t.raw[x] == if x in s.raw then s.raw[x] else ByRun(run))
  {
    if facts != [] {
      var init, last := facts[..|facts| - 1], facts[|facts| - 1];
      StoredExact(s, run, page, init);
      assert facts == init + [last];
      assert forall p :: p in facts <==> p in init || p == last;
    }
  }

  lemma NoClash(t: Store, run: nat, page: Progress, p: Payload, content: seq<Payload>)
    requires DistinctIds(content) && p in content
    requires var key := ObservationKey(run, p.id, page); key in t.observed ==> t.observed[key] in content && t.observed[key].id == p.id
    ensures !Clashes(t, run, page, p)
  {
    var key := ObservationKey(run, p.id, page);
    if key in t.observed {
      var i :| 0 <= i < |content| && content[i] == t.observed[key];
      var j :| 0 <= j < |content| && content[j] == p;
    }
  }

  predicate AlreadyThere(t: Store, run: nat, page: Progress, p: Payload) {
    var key := ObservationKey(run, p.id, page);
    p.id in t.raw && !Alien(t, p.id) && key in t.observed && t.observed[key] == p
  }

  lemma {:induction false} PersistNothing(t: Store, run: nat, page: Progress, facts: seq<Payload>)
    requires forall p :: p in facts ==> AlreadyThere(t, run, page, p)
    ensures Persist(t, run, page, facts) == Done(Saved(t, Counts(|facts|, 0, |facts|)))
  {
    if facts != [] {
      var init, last := facts[..|facts| - 1], facts[|facts| - 1];
      assert facts == init + [last];
      PersistNothing(t, run, page, init);
      assert AlreadyThere(t, run, page, last);
      assert t.observed[ObservationKey(run, last.id, page) := last] == t.observed;
    }
  }

  /** Replaying a page that was persisted changes nothing: every fact counts as a duplicate. */
  lemma {:induction false} ReplayChangesNothing(s: Store, run: nat, page: Progress, facts: seq<Payload>)
    requires DistinctIds(facts) && Persist(s, run, page, facts).Done?
    ensures var t := Persist(s, run, page, facts).value.store;
            Persist(t, run, page, facts) == Done(Saved(t, Counts(|facts|, 0, |facts|)))
  {
    var t := Persist(s, run, page, facts).value.store;
    PersistConserves(s, run, page, facts);
    forall p | p in facts ensures AlreadyThere(t, run, page, p) {
      var i :| 0 <= i < |facts| && facts[i] == p;
      ObservedAfter(s, run, page, facts, i);
    }
    PersistNothing(t, run, page, facts);
  }

  lemma {:induction false} ObservedAfter(s: Store, run: nat, page: Progress, facts: seq<Payload>, i: nat)
    requires Persist(s, run, page, facts).Done? && DistinctIds(facts) && i < |facts|
    ensures var t := Persist(s, run, page, facts).value.store;
            var key := ObservationKey(run, facts[i].id, page);
            key in t.observed && t.observed[key] == facts[i] && !Alien(t, facts[i].id)
  {
    if i < |facts| - 1 {
      ObservedAfter(s, run, page, facts[..|facts| - 1], i);
    }
  }
}
