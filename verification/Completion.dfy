/**
 From an active target to delivered rows: for answers every fetch accepts, dispatches without further faults end with
 every row of the provider stored or audited, from whatever reachable state they start.
 */
module Completion {
  import opened Keys
  import opened Continuation
  import opened Pages
  import opened Downstream
  import opened ControlPlane
  import opened PlaneInvariant
  import opened PlaneTheorems
  import opened PlaneGuards
  import opened PlaneProgress
  import opened EndToEnd
  import Keyset
  import Finnhub
  import SecEdgar
  import Counted

  /** Answers to states the codec knows lead to states the codec knows, and carry distinct identities. */
  ghost predicate WellBehaved(f: Fetcher, api: Api, c: Config) {
    forall s {:trigger f(s)} :: InDomain(api, c, s) && f(s).Some? ==>
      DistinctIds(f(s).value.facts) && (f(s).value.more ==> InDomain(api, c, f(s).value.next))
  }

  lemma {:induction false} ChainWithin(f: Fetcher, api: Api, c: Config, states: seq<Progress>, k: nat)
    requires WellBehaved(f, api, c) && IsChain(f, states) && k < |states|
    ensures InDomain(api, c, states[k])
  {
    if k > 0 {
      ChainWithin(f, api, c, states, k - 1);
      ChainLink(f, states, k - 1);
    }
  }

  /** The run that closed a traversal with every row kept: SUCCEEDED, or PARTIAL when the last page was cut short. */
  ghost predicate ClosedBy(env: Env, db: Db, r: nat, c: Config, limit: nat, whole: seq<Progress>) {
    && r < |db.runs| && db.runs[r].hash == Some(Digest(c)) && Complete(Through(env, c, limit), whole)
    && AllKept(db.store, db.audited, Through(env, c, limit), whole) && 1 <= limit <= 100
    && db.runs[r].status == (if Through(env, c, limit)(whole[|whole| - 1]).value.incomplete then Partial else Succeeded)
  }

  lemma ClosedCovers(env: Env, before: Db, s: Sys, whole: seq<Progress>) returns (r: nat)
    requires Reachable(env, s) && Current(before).token.Some? && Closes(env, before, s.db, whole)
    ensures ClosedBy(env, s.db, r, PendingConfig(before), before.target.batchLimit, whole)
  {
    r :| ClosedRun(env, s.db, r) && s.db.closed[r].chain == before.chain && s.db.closed[r].states == whole
         && s.db.closed[r].config == PendingConfig(before) && s.db.closed[r].limit == before.target.batchLimit;
  }

  /** What a provider must offer under a configuration: a chain that ends, and that codec, triggers and store accept. */
  ghost predicate Offers(env: Env, t: Target, c: Config, store: Store, whole: seq<Progress>) {
    var f := Through(env, c, t.batchLimit);
    && Complete(f, whole) && WellBehaved(f, t.api, c)
    && (forall k :: 0 <= k < |whole| ==> Storable(t, whole[k]) && Clear(store, f(whole[k]).value.facts))
  }

  /** Such a chain is driven to its end, whatever row every reload hits. */
  lemma DrivenToItsEnd(env: Env, s: Sys, whole: seq<Progress>, w: World) returns (acts: seq<Action>)
    requires Poised(env, s) && Fair(w) && Offers(env, s.db.target, PendingConfig(s.db), s.db.store, whole)
    ensures Closes(env, s.db, Exec(env, s, acts).db, whole) && Reachable(env, Exec(env, s, acts))
    ensures Follows(env, s, acts, w)
  {
    var c, t := PendingConfig(s.db), s.db.target;
    var f := Through(env, c, t.batchLimit);
    assert Traversable(env, s.db, whole) by {
      forall k | 0 <= k < |whole| ensures InDomain(t.api, c, whole[k]) {
        ChainWithin(f, t.api, c, whole, k);
      }
    }
    acts := Drains(env, s, whole, w);
  }

  /** From any state at work: open a traversal if none is pending, and drive it to its end. */
  lemma Finishes(env: Env, s: Sys, whole: seq<Progress>, w: World) returns (acts: seq<Action>, r: nat)
    requires AtWork(env, s, w) && Offers(env, s.db.target, AimOf(env, s, w), s.db.store, whole)
    ensures Follows(env, s, acts, w) && Reachable(env, Exec(env, s, acts))
    ensures ClosedBy(env, Exec(env, s, acts).db, r, AimOf(env, s, w), s.db.target.batchLimit, whole)
  {
    acts := GetsPoised(env, s, w);
    var t := Exec(env, s, acts);
    var tail := DrivenToItsEnd(env, t, whole, w);
    r := ClosedCovers(env, t.db, Exec(env, t, tail), whole);
    FollowsConcat(env, s, acts, tail, w);
    ExecConcat(env, s, acts, tail);
    acts := acts + tail;
  }

  /** None of the facts the rows become was first stored under another account of the source. */
  predicate Unclaimed(store: Store, ps: seq<Payload>, classify: Classifier) {
    forall p :: p in ps && classify(p).Accept? ==> !Alien(store, classify(p).fact.id)
  }

  lemma FinishClear(cut: Cut, lastPage: bool, classify: Classifier, all: seq<Payload>, store: Store)
    requires Finish(cut, lastPage, classify).Some? && Unclaimed(store, all, classify) && forall p :: p in cut.payloads ==> p in all
    ensures Clear(store, Finish(cut, lastPage, classify).value.facts)
  {
    var accepted := Accepted(cut.payloads, classify);
    DedupExact(accepted);
    forall x | x in Finish(cut, lastPage, classify).value.facts ensures !Alien(store, x.id) {
      var p := AcceptedFrom(cut.payloads, classify, x);
    }
  }

  lemma FinishDistinct(cut: Cut, lastPage: bool, classify: Classifier)
    requires Finish(cut, lastPage, classify).Some?
    ensures DistinctIds(Finish(cut, lastPage, classify).value.facts)
  {
    DedupExact(Accepted(cut.payloads, classify));
  }

  lemma FinnhubBehaves(x: NewsSite, limit: nat, classify: Classifier, c: Config)
    requires limit >= 1 && Finnhub.Bounded(x.body)
    ensures WellBehaved(Finnhub.FinnhubFetcher(x.body, x.start, x.end, limit, classify), FinnhubNews, c)
  {
    var f := Finnhub.FinnhubFetcher(x.body, x.start, x.end, limit, classify);
    forall s | InDomain(FinnhubNews, c, s) && f(s).Some?
      ensures DistinctIds(f(s).value.facts) && (f(s).value.more ==> InDomain(FinnhubNews, c, f(s).value.next))
    {
      Finnhub.FinnhubProgress(x.body, x.start, x.end, limit, classify, c, s);
      FinishDistinct(Finnhub.FinnhubCut(x.body, x.start, x.end, limit, s).value, false, classify);
    }
  }

  lemma MarketauxBehaves(service: int -> Counted.MarketauxAnswer, limit: int, classify: Classifier, c: Config)
    ensures WellBehaved(Counted.MarketauxFetcher(service, limit, classify), MarketauxNews, c)
  {
    var f := Counted.MarketauxFetcher(service, limit, classify);
    forall s | InDomain(MarketauxNews, c, s) && f(s).Some?
      ensures DistinctIds(f(s).value.facts) && (f(s).value.more ==> InDomain(MarketauxNews, c, f(s).value.next))
    {
      Counted.MarketauxProgress(service, limit, classify, c, s);
      var n := Counted.PageOf(s);
      FinishDistinct(Counted.MarketauxCut(service(n), limit, n).value, n == Counted.MAX_PAGE, classify);
    }
  }

  lemma EiaBehaves(api: Api, service: int -> Counted.EiaAnswer, limit: int, classify: Classifier, c: Config)
    requires api.EiaRetail? || api.EiaRto?
    ensures WellBehaved(Counted.EiaFetcher(service, limit, classify), api, c)
  {
    var f := Counted.EiaFetcher(service, limit, classify);
    forall s | InDomain(api, c, s) && f(s).Some?
      ensures DistinctIds(f(s).value.facts) && (f(s).value.more ==> InDomain(api, c, f(s).value.next))
    {
      Counted.EiaProgress(api, service, limit, classify, c, s);
      var n := Counted.OffsetOf(s);
      FinishDistinct(Counted.EiaCut(service(n), limit, n).value, false, classify);
    }
  }

  lemma SecBehaves(x: SecSite, limit: nat, classify: Classifier, c: Config)
    requires limit >= 1 && c.settings.Sec? && c.settings.cik == x.query.cik
    ensures WellBehaved(SecEdgar.SecFetcher(x.world, x.query, limit, classify), SecSubmissions, c)
  {
    var f := SecEdgar.SecFetcher(x.world, x.query, limit, classify);
    forall s | InDomain(SecSubmissions, c, s) && f(s).Some?
      ensures DistinctIds(f(s).value.facts) && (f(s).value.more ==> InDomain(SecSubmissions, c, f(s).value.next))
    {
      FinishDistinct(SecEdgar.SecCut(x.world, x.query, limit, s).value, false, classify);
    }
  }

  /** An adapter's chain is the plane's chain, with the same behaviour. */
  lemma Offered(env: Env, t: Target, c: Config, store: Store, g: Fetcher, whole: seq<Progress>)
    requires forall s :: env.provider(c, t.batchLimit, s) == g(s)
    requires Complete(g, whole) && WellBehaved(g, t.api, c)
    requires forall k :: 0 <= k < |whole| ==> Storable(t, whole[k]) && Clear(store, g(whole[k]).value.facts)
    ensures Offers(env, t, c, store, whole)
  {
    var f := Through(env, c, t.batchLimit);
    assert forall s :: f(s) == g(s);
    forall i, j | 0 <= i < j < |whole| && j == i + 1 ensures LeadsTo(f, whole[i], whole[j]) {
      ChainLink(g, whole, i);
    }
    forall i | 0 <= i < |whole| ensures f(whole[i]).Some? { assert f(whole[i]) == g(whole[i]); }
    assert IsChain(f, whole);
  }

  /** States of the operations without history files are always storable. */
  lemma PlainStorable(f: Fetcher, t: Target, c: Config, whole: seq<Progress>)
    requires IsChain(f, whole) && WellBehaved(f, t.api, c) && !t.api.SecSubmissions?
    ensures forall k :: 0 <= k < |whole| ==> Storable(t, whole[k])
  {
    forall k | 0 <= k < |whole| ensures Storable(t, whole[k]) {
      ChainWithin(f, t.api, c, whole, k);
    }
  }

  lemma FinnhubClear(x: NewsSite, limit: nat, classify: Classifier, store: Store, s: Progress)
    requires limit >= 1 && Finnhub.FinnhubAt(x.body, x.start, x.end, limit, classify, s).Some?
    requires Unclaimed(store, Finnhub.Kept(x.body, x.start, x.end), classify)
    ensures Clear(store, Finnhub.FinnhubAt(x.body, x.start, x.end, limit, classify, s).value.facts)
  {
    var kept := Finnhub.Kept(x.body, x.start, x.end);
    Keyset.RemainingRises(kept, Finnhub.Resume(s));
    var cut := Finnhub.FinnhubCut(x.body, x.start, x.end, limit, s).value;
    assert forall p :: p in cut.payloads ==> p in Keyset.Remaining(kept, Finnhub.Resume(s)).value;
    FinishClear(cut, false, classify, kept, store);
  }

  /** A body every fetch accepts, none of whose items belongs to another account. */
  predicate NewsServable(x: NewsSite, store: Store, classify: Classifier) {
    Finnhub.Servable(x.body, x.start, x.end, classify) && Unclaimed(store, Finnhub.Kept(x.body, x.start, x.end), classify)
  }

  lemma FinnhubOffers(env: Env, site: Config -> NewsSite, classify: Classifier, t: Target, c: Config, store: Store)
    returns (whole: seq<Progress>)
    requires FinnhubEnv(env, site, classify) && ValidTarget(t) && t.api.FinnhubNews? && NewsServable(site(c), store, classify)
    ensures Offers(env, t, c, store, whole) && !Through(env, c, t.batchLimit)(whole[|whole| - 1]).value.incomplete
  {
    var x := site(c);
    var f := Finnhub.FinnhubFetcher(x.body, x.start, x.end, t.batchLimit, classify);
    whole := Finnhub.FinnhubCompletes(x.body, x.start, x.end, t.batchLimit, classify);
    FinnhubBehaves(x, t.batchLimit, classify, c);
    PlainStorable(f, t, c, whole);
    forall k | 0 <= k < |whole| ensures Clear(store, f(whole[k]).value.facts) {
      FinnhubClear(x, t.batchLimit, classify, store, whole[k]);
    }
    Offered(env, t, c, store, f, whole);
  }

  /** Finnhub: dispatches without further faults end with a SUCCEEDED run and every row of the body delivered. */
  lemma FinnhubRuns(env: Env, site: Config -> NewsSite, classify: Classifier, s: Sys, w: World)
    returns (acts: seq<Action>, r: nat)
    requires FinnhubEnv(env, site, classify) && AtWork(env, s, w) && s.db.target.api.FinnhubNews?
    requires NewsServable(site(AimOf(env, s, w)), s.db.store, classify)
    ensures Follows(env, s, acts, w)
    ensures var db := Exec(env, s, acts).db;
            && r < |db.runs| && db.runs[r].status.Succeeded? && NewsDelivered(db, site(AimOf(env, s, w)), classify)
            && forall row :: row in site(AimOf(env, s, w)).body ==> NewsHeld(db, site(AimOf(env, s, w)), row, classify)
  {
    var t, c := s.db.target, AimOf(env, s, w);
    var whole := FinnhubOffers(env, site, classify, t, c, s.db.store);
    acts, r := Finishes(env, s, whole, w);
    NewsCovered(env, site, classify, Exec(env, s, acts).db, c, t.batchLimit, whole);
    NewsRowsHeld(Exec(env, s, acts).db, site(c), classify);
  }

  /** A result whose pages hold the rows that belong on them, none of them an item of another account. */
  ghost predicate FeedServable(x: Feed, limit: int, store: Store, classify: Classifier) {
    && Counted.MarketauxServable(ServiceOf(x, limit), limit, x.found, classify)
    && (forall n :: 1 <= n <= Counted.MAX_PAGE ==> Unclaimed(store, Counted.UsableOf(x.page(limit, n)), classify))
  }

  lemma MarketauxClear(x: Feed, limit: int, classify: Classifier, store: Store, s: Progress)
    requires FeedServable(x, limit, store, classify) && Counted.MarketauxAt(ServiceOf(x, limit), limit, classify, s).Some?
    ensures Clear(store, Counted.MarketauxAt(ServiceOf(x, limit), limit, classify, s).value.facts)
  {
    var n, service := Counted.PageOf(s), ServiceOf(x, limit);
    var cut := Counted.MarketauxCut(service(n), limit, n).value;
    FinishClear(cut, n == Counted.MAX_PAGE, classify, Counted.UsableOf(x.page(limit, n)), store);
  }

  lemma MarketauxOffers(env: Env, site: Config -> Feed, classify: Classifier, t: Target, c: Config, store: Store)
    returns (whole: seq<Progress>)
    requires MarketauxEnv(env, site, classify) && ValidTarget(t) && t.api.MarketauxNews?
    requires FeedServable(site(c), t.batchLimit, store, classify)
    ensures Offers(env, t, c, store, whole)
  {
    var service := ServiceOf(site(c), t.batchLimit);
    var f := Counted.MarketauxFetcher(service, t.batchLimit, classify);
    whole := Counted.MarketauxCompletes(service, t.batchLimit, site(c).found, classify);
    MarketauxBehaves(service, t.batchLimit, classify, c);
    PlainStorable(f, t, c, whole);
    forall k | 0 <= k < |whole| ensures Clear(store, f(whole[k]).value.facts) {
      MarketauxClear(site(c), t.batchLimit, classify, store, whole[k]);
    }
    Offered(env, t, c, store, f, whole);
  }

  lemma FeedClosed(env: Env, site: Config -> Feed, classify: Classifier, db: Db, r: nat, c: Config, limit: nat, whole: seq<Progress>)
    requires MarketauxEnv(env, site, classify) && ClosedBy(env, db, r, c, limit, whole)
    ensures PagesLanded(db, site(c), limit, |whole|, WithinReach(site(c).found, limit), classify)
    ensures db.runs[r].status == (if site(c).found > 1000 * limit then Partial else Succeeded)
  {
    var f := Counted.MarketauxFetcher(ServiceOf(site(c), limit), limit, classify);
    SameChain(env, db, c, limit, f, whole);
    FeedLands(db, site(c), limit, classify, f, whole);
  }

  /** Marketaux: every row within a thousand pages lands; the run is SUCCEEDED, or PARTIAL iff there are more rows. */
  lemma MarketauxRuns(env: Env, site: Config -> Feed, classify: Classifier, s: Sys, w: World)
    returns (acts: seq<Action>, r: nat, n: nat)
    requires MarketauxEnv(env, site, classify) && AtWork(env, s, w) && s.db.target.api.MarketauxNews?
    requires FeedServable(site(AimOf(env, s, w)), s.db.target.batchLimit, s.db.store, classify)
    ensures Follows(env, s, acts, w)
    ensures var db, x, limit := Exec(env, s, acts).db, site(AimOf(env, s, w)), s.db.target.batchLimit;
            && r < |db.runs| && PagesLanded(db, x, limit, n, WithinReach(x.found, limit), classify)
            && db.runs[r].status == (if x.found > 1000 * limit then Partial else Succeeded)
  {
    var t, c := s.db.target, AimOf(env, s, w);
    var whole := MarketauxOffers(env, site, classify, t, c, s.db.store);
    acts, r := Finishes(env, s, whole, w);
    n := |whole|;
    FeedClosed(env, site, classify, Exec(env, s, acts).db, r, c, t.batchLimit, whole);
  }

  /** A series whose offsets answer with rows up to the total, none of them an item of another account. */
  ghost predicate SeriesServable(x: Series, limit: int, store: Store, classify: Classifier) {
    && Counted.EiaServable(SeriesOf(x, limit), limit, x.total, classify)
    && (forall n :: 0 <= n <= x.total ==> Unclaimed(store, Counted.EiaKept(x.at(limit, n)), classify))
  }

  lemma EiaClear(x: Series, limit: int, classify: Classifier, store: Store, states: seq<Progress>, k: nat)
    requires SeriesServable(x, limit, store, classify) && k < |states|
    requires IsChain(Counted.EiaFetcher(SeriesOf(x, limit), limit, classify), states)
    ensures Clear(store, Counted.EiaAt(SeriesOf(x, limit), limit, classify, states[k]).value.facts)
  {
    var service := SeriesOf(x, limit);
    var n := Counted.OffsetOf(states[k]);
    Counted.OffsetsNatural(service, limit, classify, states, k);
    Counted.EiaStep(service, limit, classify, states[k]);
    assert Unclaimed(store, Counted.EiaKept(x.at(limit, n)), classify);
    FinishClear(Counted.EiaCut(service(n), limit, n).value, false, classify, Counted.EiaKept(x.at(limit, n)), store);
  }

  lemma EiaOffers(env: Env, site: Config -> Series, classify: Classifier, t: Target, c: Config, store: Store)
    returns (whole: seq<Progress>)
    requires EiaEnv(env, site, classify) && ValidTarget(t) && (t.api.EiaRetail? || t.api.EiaRto?)
    requires SeriesServable(site(c), t.batchLimit, store, classify)
    ensures Offers(env, t, c, store, whole) && !Through(env, c, t.batchLimit)(whole[|whole| - 1]).value.incomplete
  {
    var service := SeriesOf(site(c), t.batchLimit);
    var f := Counted.EiaFetcher(service, t.batchLimit, classify);
    whole := Counted.EiaCompletes(service, t.batchLimit, site(c).total, classify);
    EiaBehaves(t.api, service, t.batchLimit, classify, c);
    PlainStorable(f, t, c, whole);
    forall k | 0 <= k < |whole| ensures Clear(store, f(whole[k]).value.facts) {
      EiaClear(site(c), t.batchLimit, classify, store, whole, k);
    }
    Offered(env, t, c, store, f, whole);
  }

  /** EIA: dispatches without further faults end with a SUCCEEDED run whose offsets tile the series. */
  lemma EiaRuns(env: Env, site: Config -> Series, classify: Classifier, s: Sys, w: World)
    returns (acts: seq<Action>, r: nat, offsets: seq<int>)
    requires EiaEnv(env, site, classify) && AtWork(env, s, w) && (s.db.target.api.EiaRetail? || s.db.target.api.EiaRto?)
    requires SeriesServable(site(AimOf(env, s, w)), s.db.target.batchLimit, s.db.store, classify)
    ensures Follows(env, s, acts, w)
    ensures var db := Exec(env, s, acts).db;
            && r < |db.runs| && db.runs[r].status.Succeeded?
            && OffsetsLanded(db, site(AimOf(env, s, w)), s.db.target.batchLimit, offsets, classify)
  {
    var t, c := s.db.target, AimOf(env, s, w);
    var whole := EiaOffers(env, site, classify, t, c, s.db.store);
    acts, r := Finishes(env, s, whole, w);
    offsets := SeriesCovered(env, site, classify, Exec(env, s, acts).db, c, t.batchLimit, whole);
  }

  lemma NamesNoneNext(x: SecSite, limit: nat, classify: Classifier, s: Progress)
    requires limit >= 1 && !NamesFile(s) && SecEdgar.Overlapping(x.world.references, x.query) == []
    ensures var page := SecEdgar.SecFetch(x.world, x.query, limit, classify, s);
            page.Some? && page.value.more ==> !NamesFile(page.value.next)
  {
  }

  /** Without overlapping history files no state of a chain names one. */
  lemma {:induction false} NamesNone(f: Fetcher, x: SecSite, limit: nat, classify: Classifier, states: seq<Progress>, k: nat)
    requires limit >= 1 && SecEdgar.Overlapping(x.world.references, x.query) == []
    requires forall s :: f(s) == SecEdgar.SecFetch(x.world, x.query, limit, classify, s)
    requires IsChain(f, states) && k < |states|
    ensures !NamesFile(states[k])
  {
    if k > 0 {
      NamesNone(f, x, limit, classify, states, k - 1);
      ChainLink(f, states, k - 1);
      NamesNoneNext(x, limit, classify, states[k - 1]);
    }
  }

  /** The stored CIK needs no padding, or there is no history file to name. */
  predicate Nameable(t: Target, x: SecSite) {
    t.config.settings.Sec? && (|t.config.settings.cik| == 10 || SecEdgar.Overlapping(x.world.references, x.query) == [])
  }

  /** Bodies every fetch accepts, none of whose filings belongs to another account. */
  predicate FilingsServable(x: SecSite, store: Store, classify: Classifier) {
    var files := SecEdgar.Overlapping(x.world.references, x.query);
    && SecEdgar.Servable(x.world, x.query, classify)
    && (forall j :: 0 <= j <= |files| ==>
          Unclaimed(store, SecEdgar.Kept(SecEdgar.RowsOf(x.world, SecEdgar.PlanFile(files, j)), x.query), classify))
  }

  lemma SecClear(x: SecSite, limit: nat, classify: Classifier, store: Store, s: Progress, p: SecEdgar.Position)
    requires limit >= 1 && FilingsServable(x, store, classify)
    requires SecEdgar.Stands(SecEdgar.Overlapping(x.world.references, x.query), SecEdgar.Lists(x.world, x.query), s, p)
    requires SecEdgar.SecFetch(x.world, x.query, limit, classify, s).Some?
    ensures Clear(store, SecEdgar.SecFetch(x.world, x.query, limit, classify, s).value.facts)
  {
    var files := SecEdgar.Overlapping(x.world.references, x.query);
    var kept := SecEdgar.Kept(SecEdgar.RowsOf(x.world, SecEdgar.PlanFile(files, p.list)), x.query);
    SecEdgar.CutAccepts(x.world, x.query, limit, classify, s, p);
    var cut := SecEdgar.SecCut(x.world, x.query, limit, s).value;
    var rest := Keyset.Remaining(kept, Keyset.KeyOrBottom(SecEdgar.AfterOf(s))).value;
    assert forall q :: q in cut.payloads ==> q in rest;
    FinishClear(cut, false, classify, kept, store);
  }

  lemma SecChainClear(x: SecSite, limit: nat, classify: Classifier, store: Store, states: seq<Progress>, k: nat)
    requires limit >= 1 && FilingsServable(x, store, classify) && k < |states|
    requires IsChain(SecEdgar.SecFetcher(x.world, x.query, limit, classify), states)
    ensures Clear(store, SecEdgar.SecFetch(x.world, x.query, limit, classify, states[k]).value.facts)
  {
    var lists := SecEdgar.Lists(x.world, x.query);
    SecEdgar.SecServes(x.world, x.query, limit, classify);
    SecEdgar.FollowsPlan(SecEdgar.SecFetcher(x.world, x.query, limit, classify), SecEdgar.Overlapping(x.world.references, x.query),
                         lists, limit, SecEdgar.CutRows(x.world, x.query, limit), SecEdgar.Clean(x.world, x.query), states, k);
    SecClear(x, limit, classify, store, states[k], SecEdgar.PositionAt(lists, limit, k).value);
  }

  lemma SecOffers(env: Env, site: Config -> SecSite, classify: Classifier, t: Target, c: Config, store: Store)
    returns (whole: seq<Progress>)
    requires SecEnv(env, site, classify) && ValidTarget(t) && t.api.SecSubmissions? && c.settings.Sec?
    requires site(c).query.cik == c.settings.cik && FilingsServable(site(c), store, classify) && Nameable(t, site(c))
    ensures Offers(env, t, c, store, whole) && !Through(env, c, t.batchLimit)(whole[|whole| - 1]).value.incomplete
  {
    var x := site(c);
    var f := SecEdgar.SecFetcher(x.world, x.query, t.batchLimit, classify);
    whole := SecEdgar.SecCompletes(x.world, x.query, t.batchLimit, classify);
    SecBehaves(x, t.batchLimit, classify, c);
    forall k | 0 <= k < |whole| ensures Storable(t, whole[k]) && Clear(store, f(whole[k]).value.facts) {
      if |t.config.settings.cik| != 10 { NamesNone(f, x, t.batchLimit, classify, whole, k); }
      SecChainClear(x, t.batchLimit, classify, store, whole, k);
    }
    Offered(env, t, c, store, f, whole);
  }

  /** SEC: dispatches without further faults end with a SUCCEEDED run and every filing of every planned file delivered,
      provided the stored CIK needs no padding or no history file overlaps. */
  lemma SecRuns(env: Env, site: Config -> SecSite, classify: Classifier, s: Sys, w: World)
    returns (acts: seq<Action>, r: nat)
    requires SecEnv(env, site, classify) && AtWork(env, s, w) && s.db.target.api.SecSubmissions?
    requires var c := AimOf(env, s, w);
             && c.settings.Sec? && site(c).query.cik == c.settings.cik
             && FilingsServable(site(c), s.db.store, classify) && Nameable(s.db.target, site(c))
    ensures Follows(env, s, acts, w)
    ensures var db := Exec(env, s, acts).db;
            && r < |db.runs| && db.runs[r].status.Succeeded? && FilingsDelivered(db, site(AimOf(env, s, w)), classify)
            && WindowHeld(db, site(AimOf(env, s, w)), classify)
  {
    var t, c := s.db.target, AimOf(env, s, w);
    var whole := SecOffers(env, site, classify, t, c, s.db.store);
    acts, r := Finishes(env, s, whole, w);
    FilingsCovered(env, site, classify, Exec(env, s, acts).db, c, t.batchLimit, whole);
    DeliveredHeld(Exec(env, s, acts).db, site(c), classify);
  }
}
