/**
 From provider rows to durable rows: what a SUCCEEDED run means for the answers of each provider.
 */
module EndToEnd {
  import opened Keys
  import opened Continuation
  import opened Pages
  import opened ControlPlane
  import opened PlaneInvariant
  import opened PlaneTheorems
  import Keyset
  import Finnhub
  import SecEdgar
  import SecPlan
  import Counted

  /** A provider row is a raw item under its normalised identity, or its identity is audited as rejected. */
  predicate Landed(db: Db, p: Payload, classify: Classifier) {
    || (classify(p).Accept? && classify(p).fact.id in db.store.raw)
    || Digest(p.id) in db.audited
  }

  /** A covered chain of the plane is one of the adapter it runs. */
  lemma SameChain(env: Env, db: Db, c: Config, limit: nat, g: Fetcher, states: seq<Progress>)
    requires Complete(Through(env, c, limit), states) && AllKept(db.store, db.audited, Through(env, c, limit), states)
    requires forall s :: env.provider(c, limit, s) == g(s)
    ensures Complete(g, states) && g(states[|states| - 1]) == Through(env, c, limit)(states[|states| - 1])
    ensures AllKept(db.store, db.audited, g, states)
  {
    var f := Through(env, c, limit);
    assert forall s :: f(s) == g(s);
    forall i | 0 <= i < |states| ensures g(states[i]).Some? && Kept(db.store, db.audited, g(states[i])) {
      assert Kept(db.store, db.audited, f(states[i]));
    }
    forall i, j | 0 <= i < j < |states| && j == i + 1 ensures LeadsTo(g, states[i], states[j]) {
      ChainLink(f, states, i);
    }
  }

  /** A kept page accounts for every row its cut contained. */
  lemma CutLands(db: Db, cut: Cut, lastPage: bool, classify: Classifier, page: Option<Page>)
    requires Finish(cut, lastPage, classify) == page && Kept(db.store, db.audited, page)
    ensures forall p :: p in cut.payloads ==> Landed(db, p, classify)
    ensures forall h :: h in cut.rejected ==> h in db.audited
  {
    forall p | p in cut.payloads ensures Landed(db, p, classify) {
      FinishCovers(cut, lastPage, classify, p);
    }
    forall h | h in cut.rejected ensures h in db.audited {
      assert h in page.value.rejected;
    }
  }

  /** A Finnhub body per resolved configuration, with the window's day bounds. */
  datatype NewsSite = NewsSite(body: seq<Finnhub.NewsRow>, start: string, end: string)

  ghost predicate FinnhubEnv(env: Env, site: Config -> NewsSite, classify: Classifier) {
    forall c: Config, limit: nat, s: Progress {:trigger env.provider(c, limit, s)} :: limit >= 1 ==>
      env.provider(c, limit, s) == Finnhub.FinnhubAt(site(c).body, site(c).start, site(c).end, limit, classify, s)
  }

  /** Every row of the body is outside the window, a raw item, or audited. */
  predicate NewsDelivered(db: Db, x: NewsSite, classify: Classifier) {
    forall row :: row in x.body ==>
      match Finnhub.FateOf(row, x.start, x.end)
      case Keep(p) => Landed(db, p, classify)
      case Reject(h) => h in db.audited
      case Skip => true
      case Fail => false
  }

  lemma {:induction false} FinnhubCovers(x: NewsSite, limit: nat, classify: Classifier, states: seq<Progress>, p: Payload)
    returns (k: nat)
    requires limit >= 1 && Complete(Finnhub.FinnhubFetcher(x.body, x.start, x.end, limit, classify), states)
    requires p in Finnhub.Kept(x.body, x.start, x.end)
    ensures k < |states| && Finnhub.FinnhubCut(x.body, x.start, x.end, limit, states[k]).Some?
    ensures p in Finnhub.FinnhubCut(x.body, x.start, x.end, limit, states[k]).value.payloads
  {
    var pages := seq(|states|, i requires 0 <= i < |states| => Finnhub.CutRows(x.body, x.start, x.end, limit)(states[i]));
    Finnhub.FinnhubTiles(x.body, x.start, x.end, limit, classify, states, pages);
    Finnhub.FetchCuts(x.body, x.start, x.end, limit, classify, states[0]);
    Finnhub.FirstAccepted(x.body, x.start, x.end, limit);
    Keyset.ListingStrict(Finnhub.Kept(x.body, x.start, x.end));
    k := SecEdgar.FlatSource(pages, p);
    Finnhub.FetchCuts(x.body, x.start, x.end, limit, classify, states[k]);
  }

  lemma NewsRowLands(db: Db, x: NewsSite, limit: nat, classify: Classifier, f: Fetcher, states: seq<Progress>, row: Finnhub.NewsRow)
    requires limit >= 1 && f == Finnhub.FinnhubFetcher(x.body, x.start, x.end, limit, classify)
    requires Complete(f, states) && AllKept(db.store, db.audited, f, states) && row in x.body
    ensures match Finnhub.FateOf(row, x.start, x.end)
            case Keep(p) => Landed(db, p, classify)
            case Reject(h) => h in db.audited
            case Skip => true
            case Fail => false
  {
    Finnhub.FetchCuts(x.body, x.start, x.end, limit, classify, states[0]);
    Finnhub.KeptRows(x.body, x.start, x.end);
    match Finnhub.FateOf(row, x.start, x.end)
    case Keep(p) =>
      var k := FinnhubCovers(x, limit, classify, states, p);
      CutLands(db, Finnhub.FinnhubCut(x.body, x.start, x.end, limit, states[k]).value, false, classify, f(states[k]));
    case Reject(h) =>
      CutLands(db, Finnhub.FinnhubCut(x.body, x.start, x.end, limit, states[0]).value, false, classify, f(states[0]));
    case Skip =>
    case Fail =>
  }

  lemma NewsCovered(env: Env, site: Config -> NewsSite, classify: Classifier, db: Db, c: Config, limit: nat, states: seq<Progress>)
    requires FinnhubEnv(env, site, classify) && Covered(env, db, c, limit, states)
    ensures NewsDelivered(db, site(c), classify)
  {
    var x := site(c);
    var f := Finnhub.FinnhubFetcher(x.body, x.start, x.end, limit, classify);
    SameChain(env, db, c, limit, f, states);
    forall row | row in x.body
      ensures match Finnhub.FateOf(row, x.start, x.end)
              case Keep(p) => Landed(db, p, classify)
              case Reject(h) => h in db.audited
              case Skip => true
              case Fail => false
    {
      NewsRowLands(db, x, limit, classify, f, states, row);
    }
  }

  /** A row of a finished run: it has an identity; without a readable URL, identity or timestamp it is audited; dated in the
      window it is a raw item under its normalised identity or audited. */
  predicate NewsHeld(db: Db, x: NewsSite, row: Finnhub.NewsRow, classify: Classifier) {
    && (row.identity.GoodId? || row.url.GoodUrl?)
    && var id := if row.identity.GoodId? then "company-news:id:" + row.identity.text else "company-news:url:" + row.url.digest;
       var day, p := if |row.at| <= 10 then row.at else row.at[..10], Payload(id, row.at, row.body);
       if row.url.BadUrl? || row.identity.BadId? || row.at == "" then Digest(id) in db.audited
       else !StrLt(day, x.start) && !StrLt(x.end, day) ==>
              (classify(p).Accept? && classify(p).fact.id in db.store.raw) || Digest(id) in db.audited
  }

  lemma NewsRowsHeld(db: Db, x: NewsSite, classify: Classifier)
    requires NewsDelivered(db, x, classify)
    ensures forall row :: row in x.body ==> NewsHeld(db, x, row, classify)
  {
  }

  /** Finnhub: once a run has SUCCEEDED, every in-window row of the body is stored or audited, however the run got there. */
  lemma FinnhubDelivered(env: Env, site: Config -> NewsSite, classify: Classifier, s: Sys, r: nat)
    requires Reachable(env, s) && FinnhubEnv(env, site, classify)
    requires r < |s.db.runs| && s.db.runs[r].status.Succeeded?
    ensures s.db.runs[r].hash.Some? && NewsDelivered(s.db, site(s.db.runs[r].hash.value.of), classify)
    ensures var x := site(s.db.runs[r].hash.value.of); forall row :: row in x.body ==> NewsHeld(s.db, x, row, classify)
  {
    SucceededCovers(env, s, r);
    var c := s.db.runs[r].hash.value.of;
    var limit, states :| Covered(env, s.db, c, limit, states) && Distinct(states);
    NewsCovered(env, site, classify, s.db, c, limit, states);
    NewsRowsHeld(s.db, site(c), classify);
  }

  /** The SEC files per resolved configuration, and the query it makes of them. */
  datatype SecSite = SecSite(world: SecEdgar.World, query: SecEdgar.Query)

  ghost predicate SecEnv(env: Env, site: Config -> SecSite, classify: Classifier) {
    forall c: Config, limit: nat, s: Progress {:trigger env.provider(c, limit, s)} :: limit >= 1 ==>
      env.provider(c, limit, s) == SecEdgar.SecFetch(site(c).world, site(c).query, limit, classify, s)
  }

  predicate FilingLands(db: Db, q: SecEdgar.Query, row: SecEdgar.Filing, classify: Classifier) {
    match SecEdgar.FateOf(row, q)
    case Keep(p) => Landed(db, p, classify)
    case Reject(p) => Digest(p.id) in db.audited
    case Skip => true
    case Fail => false
  }

  /** Every filing of the main file and of every overlapping history file is skipped, a raw item, or audited. */
  predicate FilingsDelivered(db: Db, x: SecSite, classify: Classifier) {
    var files := SecEdgar.Overlapping(x.world.references, x.query);
    forall j :: 0 <= j <= |files| ==>
      forall row :: row in SecEdgar.RowsOf(x.world, SecEdgar.PlanFile(files, j)) ==> FilingLands(db, x.query, row, classify)
  }

  lemma FilingsCovered(env: Env, site: Config -> SecSite, classify: Classifier, db: Db, c: Config, limit: nat, states: seq<Progress>)
    requires SecEnv(env, site, classify) && Covered(env, db, c, limit, states)
    ensures FilingsDelivered(db, site(c), classify)
  {
    var x := site(c);
    var f := SecEdgar.SecFetcher(x.world, x.query, limit, classify);
    var files := SecEdgar.Overlapping(x.world.references, x.query);
    SameChain(env, db, c, limit, f, states);
    forall j | 0 <= j <= |files|
      ensures forall row :: row in SecEdgar.RowsOf(x.world, SecEdgar.PlanFile(files, j)) ==> FilingLands(db, x.query, row, classify)
    {
      forall row | row in SecEdgar.RowsOf(x.world, SecEdgar.PlanFile(files, j)) ensures FilingLands(db, x.query, row, classify) {
        SecEdgar.SecNeeds(x.world, x.query, limit, classify, states, j);
        var fate := SecEdgar.FateOf(row, x.query);
        if fate.Keep? || fate.Reject? {
          var k := SecEdgar.SecCovers(x.world, x.query, limit, classify, states, j, row);
          CutLands(db, SecEdgar.SecCut(x.world, x.query, limit, states[k]).value, false, classify, f(states[k]));
        }
      }
    }
  }

  /** A filing dated in the window has an accession number, and is a raw item under its normalised identity or audited if
      its form is allowed, and audited if its form cannot be read. */
  predicate FilingHeld(db: Db, q: SecEdgar.Query, row: SecEdgar.Filing, classify: Classifier) {
    row.date.Some? && row.date.value != "" && !StrLt(row.date.value, q.start) && !StrLt(q.end, row.date.value) ==>
      && row.accession.Some? && row.accession.value != ""
      && var p := Payload(row.accession.value, row.date.value, row.body);
         && (row.form.Some? && row.form.value in q.forms ==>
               (classify(p).Accept? && classify(p).fact.id in db.store.raw) || Digest(p.id) in db.audited)
         && (row.form.None? ==> Digest(p.id) in db.audited)
  }

  /** So it is for every filing of the main file, and for every filing of a history file whose reference covers its date. */
  predicate WindowHeld(db: Db, x: SecSite, classify: Classifier) {
    && (forall row :: row in x.world.main ==> FilingHeld(db, x.query, row, classify))
    && (forall ref, row :: ref in x.world.references && row in x.world.history(ref.name) && row.date.Some?
                           && !StrLt(row.date.value, ref.from) && !StrLt(ref.to, row.date.value) ==>
          FilingHeld(db, x.query, row, classify))
  }

  lemma HistoryHeld(db: Db, x: SecSite, classify: Classifier, ref: SecEdgar.Reference, row: SecEdgar.Filing)
    requires FilingsDelivered(db, x, classify) && ref in x.world.references && row in x.world.history(ref.name)
    requires row.date.Some? && !StrLt(row.date.value, ref.from) && !StrLt(ref.to, row.date.value)
    ensures FilingHeld(db, x.query, row, classify)
  {
    var files, d := SecEdgar.Overlapping(x.world.references, x.query), row.date.value;
    if !StrLt(d, x.query.start) && !StrLt(x.query.end, d) {
      StrOrder();
      var at := SecPlan.OverlappingChosen(x.world.references, x.query);
      var i :| 0 <= i < |x.world.references| && x.world.references[i] == ref;
      assert i in at;
      var j :| 0 <= j < |at| && at[j] == i;
      assert files[j] == ref.name;
      assert row in SecEdgar.RowsOf(x.world, SecEdgar.PlanFile(files, j + 1));
    }
  }

  lemma DeliveredHeld(db: Db, x: SecSite, classify: Classifier)
    requires FilingsDelivered(db, x, classify)
    ensures WindowHeld(db, x, classify)
  {
    forall row | row in x.world.main ensures FilingHeld(db, x.query, row, classify) {
      assert row in SecEdgar.RowsOf(x.world, SecEdgar.PlanFile(SecEdgar.Overlapping(x.world.references, x.query), 0));
    }
    forall ref, row | ref in x.world.references && row in x.world.history(ref.name) && row.date.Some?
                      && !StrLt(row.date.value, ref.from) && !StrLt(ref.to, row.date.value)
      ensures FilingHeld(db, x.query, row, classify)
    {
      HistoryHeld(db, x, classify, ref, row);
    }
  }

  /** SEC: once a run has SUCCEEDED, every in-window filing of an allowed form, in the main file or any overlapping
      history file, is stored or audited. */
  lemma SecDelivered(env: Env, site: Config -> SecSite, classify: Classifier, s: Sys, r: nat)
    requires Reachable(env, s) && SecEnv(env, site, classify)
    requires r < |s.db.runs| && s.db.runs[r].status.Succeeded?
    ensures s.db.runs[r].hash.Some? && WindowHeld(s.db, site(s.db.runs[r].hash.value.of), classify)
    ensures FilingsDelivered(s.db, site(s.db.runs[r].hash.value.of), classify)
  {
    SucceededCovers(env, s, r);
    var c := s.db.runs[r].hash.value.of;
    var limit, states :| Covered(env, s.db, c, limit, states) && Distinct(states);
    FilingsCovered(env, site, classify, s.db, c, limit, states);
    DeliveredHeld(s.db, site(c), classify);
  }

  /** A Marketaux feed per resolved configuration: a stable row count, and the rows of each page for a batch limit. */
  datatype Feed = Feed(found: int, page: (int, int) -> seq<Counted.Entry>)

  function ServiceOf(feed: Feed, limit: int): (service: int -> Counted.MarketauxAnswer)
    ensures forall n :: service(n) == Counted.MarketauxAnswer(feed.page(limit, n), feed.found)
  {
    n => Counted.MarketauxAnswer(feed.page(limit, n), feed.found)
  }

  ghost predicate MarketauxEnv(env: Env, site: Config -> Feed, classify: Classifier) {
    forall c: Config, limit: nat, s: Progress {:trigger env.provider(c, limit, s)} ::
      env.provider(c, limit, s) == Counted.MarketauxAt(ServiceOf(site(c), limit), limit, classify, s)
  }

  /** Pages 1 to n, full up to the last and `total` rows in all, with every entry landed. */
  predicate PagesLanded(db: Db, feed: Feed, limit: int, n: int, total: int, classify: Classifier) {
    && (forall p :: 1 <= p < n ==> |feed.page(limit, p)| == limit)
    && (n - 1) * limit + |feed.page(limit, n)| == total
    && (forall p :: 1 <= p <= n ==> EntriesLanded(db, feed.page(limit, p), classify))
  }

  /** How many rows of a result a thousand pages can hold. */
  function WithinReach(found: int, limit: int): (n: int) {
    if found > 1000 * limit then 1000 * limit else found
  }

  predicate EntriesLanded(db: Db, rows: seq<Counted.Entry>, classify: Classifier) {
    forall e :: e in rows ==>
      match e
      case Usable(p) => Landed(db, p, classify)
      case Unusable(id) => id.Some? && Digest(id.value) in db.audited
  }

  lemma {:induction false} EntrySplit(rows: seq<Counted.Entry>, e: Counted.Entry)
    requires Counted.Unusable(None) !in rows && e in rows
    ensures e.Usable? ==> e.payload in Counted.UsableOf(rows)
    ensures e.Unusable? ==> e.identity.Some? && Digest(e.identity.value) in Counted.UnusableOf(rows)
  {
    if e in rows[..|rows| - 1] { EntrySplit(rows[..|rows| - 1], e); }
  }

  lemma AnswerLands(db: Db, service: int -> Counted.MarketauxAnswer, limit: int, classify: Classifier, s: Progress)
    requires Kept(db.store, db.audited, Counted.MarketauxAt(service, limit, classify, s))
    ensures EntriesLanded(db, service(Counted.PageOf(s)).rows, classify)
  {
    var n := Counted.PageOf(s);
    var cut := Counted.MarketauxCut(service(n), limit, n).value;
    CutLands(db, cut, n == Counted.MAX_PAGE, classify, Counted.MarketauxAt(service, limit, classify, s));
    forall e | e in service(n).rows
      ensures e.Usable? ==> Landed(db, e.payload, classify)
      ensures e.Unusable? ==> e.identity.Some? && Digest(e.identity.value) in db.audited
    {
      EntrySplit(service(n).rows, e);
    }
  }

  lemma FeedLands(db: Db, feed: Feed, limit: nat, classify: Classifier, f: Fetcher, states: seq<Progress>)
    requires 1 <= limit <= 100 && f == Counted.MarketauxFetcher(ServiceOf(feed, limit), limit, classify)
    requires Complete(f, states) && AllKept(db.store, db.audited, f, states)
    ensures PagesLanded(db, feed, limit, |states|, WithinReach(feed.found, limit), classify)
    ensures f(states[|states| - 1]).value.incomplete == (feed.found > 1000 * limit)
  {
    var service := ServiceOf(feed, limit);
    Counted.MarketauxTiles(service, limit, classify, states, feed.found);
    forall p | 1 <= p < |states| ensures |feed.page(limit, p)| == limit { assert |service(p).rows| == limit; }
    forall p | 1 <= p <= |states| ensures EntriesLanded(db, feed.page(limit, p), classify) {
      Counted.MarketauxStates(service, limit, classify, states, p - 1);
      AnswerLands(db, service, limit, classify, states[p - 1]);
    }
  }

  lemma FeedCovered(env: Env, site: Config -> Feed, classify: Classifier, db: Db, c: Config, limit: nat, states: seq<Progress>)
    requires MarketauxEnv(env, site, classify) && Covered(env, db, c, limit, states)
    ensures PagesLanded(db, site(c), limit, |states|, site(c).found, classify)
  {
    var f := Counted.MarketauxFetcher(ServiceOf(site(c), limit), limit, classify);
    SameChain(env, db, c, limit, f, states);
    FeedLands(db, site(c), limit, classify, f, states);
  }

  /** Marketaux: a SUCCEEDED run has covered rows 0 to found - 1, page after page, each stored or audited. */
  lemma MarketauxDelivered(env: Env, site: Config -> Feed, classify: Classifier, s: Sys, r: nat)
    requires Reachable(env, s) && MarketauxEnv(env, site, classify)
    requires r < |s.db.runs| && s.db.runs[r].status.Succeeded?
    ensures s.db.runs[r].hash.Some?
    ensures var feed := site(s.db.runs[r].hash.value.of);
            exists limit: nat, n :: PagesLanded(s.db, feed, limit, n, feed.found, classify)
  {
    SucceededCovers(env, s, r);
    var c := s.db.runs[r].hash.value.of;
    var limit, states :| Covered(env, s.db, c, limit, states) && Distinct(states);
    FeedCovered(env, site, classify, s.db, c, limit, states);
  }

  /** An EIA series per resolved configuration: a stable total, and the rows at each offset for a batch limit. */
  datatype Series = Series(total: int, at: (int, int) -> seq<Counted.EiaEntry>)

  function SeriesOf(x: Series, limit: int): (service: int -> Counted.EiaAnswer)
    ensures forall n :: service(n) == Counted.EiaAnswer(x.at(limit, n), x.total)
  {
    n => Counted.EiaAnswer(x.at(limit, n), x.total)
  }

  ghost predicate EiaEnv(env: Env, site: Config -> Series, classify: Classifier) {
    forall c: Config, limit: nat, s: Progress {:trigger env.provider(c, limit, s)} ::
      env.provider(c, limit, s) == Counted.EiaAt(SeriesOf(site(c), limit), limit, classify, s)
  }

  predicate ReadingsLanded(db: Db, rows: seq<Counted.EiaEntry>, classify: Classifier) {
    forall e :: e in rows ==>
      match e
      case EiaKeep(p) => Landed(db, p, classify)
      case EiaReject(id) => Digest(id) in db.audited
      case EiaSkip => true
      case EiaUntraceable => false
  }

  /** Offsets that tile [0, total): each starts where the rows of the one before end, and all their rows landed. */
  ghost predicate OffsetsLanded(db: Db, x: Series, limit: int, offsets: seq<int>, classify: Classifier) {
    && offsets != [] && offsets[0] == 0
    && (forall k, n :: 0 <= k < n < |offsets| && n == k + 1 ==> offsets[n] == offsets[k] + |x.at(limit, offsets[k])|)
    && offsets[|offsets| - 1] + |x.at(limit, offsets[|offsets| - 1])| == x.total
    && (forall k :: 0 <= k < |offsets| ==> ReadingsLanded(db, x.at(limit, offsets[k]), classify))
  }

  lemma {:induction false} ReadingSplit(rows: seq<Counted.EiaEntry>, e: Counted.EiaEntry)
    requires e in rows
    ensures e.EiaKeep? ==> e.payload in Counted.EiaKept(rows)
    ensures e.EiaReject? ==> Digest(e.identity) in Counted.EiaRejected(rows)
  {
    if e in rows[..|rows| - 1] { ReadingSplit(rows[..|rows| - 1], e); }
  }

  lemma ReadingLands(db: Db, service: int -> Counted.EiaAnswer, limit: int, classify: Classifier, s: Progress)
    requires Kept(db.store, db.audited, Counted.EiaAt(service, limit, classify, s))
    ensures ReadingsLanded(db, service(Counted.OffsetOf(s)).rows, classify)
  {
    var n := Counted.OffsetOf(s);
    var cut := Counted.EiaCut(service(n), limit, n).value;
    CutLands(db, cut, false, classify, Counted.EiaAt(service, limit, classify, s));
    forall e | e in service(n).rows
      ensures e.EiaKeep? ==> Landed(db, e.payload, classify)
      ensures e.EiaReject? ==> Digest(e.identity) in db.audited
    {
      ReadingSplit(service(n).rows, e);
    }
  }

  lemma SeriesLands(db: Db, x: Series, limit: nat, classify: Classifier, f: Fetcher, states: seq<Progress>)
    returns (offsets: seq<int>)
    requires f == Counted.EiaFetcher(SeriesOf(x, limit), limit, classify)
    requires Complete(f, states) && AllKept(db.store, db.audited, f, states)
    ensures OffsetsLanded(db, x, limit, offsets, classify)
  {
    var service := SeriesOf(x, limit);
    Counted.EiaTiles(service, limit, classify, states, x.total);
    offsets := seq(|states|, k requires 0 <= k < |states| => Counted.OffsetOf(states[k]));
    forall k | 0 <= k < |offsets| ensures ReadingsLanded(db, x.at(limit, offsets[k]), classify) {
      assert Kept(db.store, db.audited, f(states[k]));
      ReadingLands(db, service, limit, classify, states[k]);
    }
    forall k, n | 0 <= k < n < |offsets| && n == k + 1 ensures offsets[n] == offsets[k] + |x.at(limit, offsets[k])| {
      assert Counted.OffsetOf(states[n]) == Counted.OffsetOf(states[k]) + |service(Counted.OffsetOf(states[k])).rows|;
    }
  }

  lemma SeriesCovered(env: Env, site: Config -> Series, classify: Classifier, db: Db, c: Config, limit: nat, states: seq<Progress>)
    returns (offsets: seq<int>)
    requires EiaEnv(env, site, classify) && Covered(env, db, c, limit, states)
    ensures OffsetsLanded(db, site(c), limit, offsets, classify)
  {
    var f := Counted.EiaFetcher(SeriesOf(site(c), limit), limit, classify);
    SameChain(env, db, c, limit, f, states);
    offsets := SeriesLands(db, site(c), limit, classify, f, states);
  }

  /** EIA: a SUCCEEDED run has covered rows 0 to total - 1, offset after offset, each skipped by type, stored or audited. */
  lemma EiaDelivered(env: Env, site: Config -> Series, classify: Classifier, s: Sys, r: nat)
    requires Reachable(env, s) && EiaEnv(env, site, classify)
    requires r < |s.db.runs| && s.db.runs[r].status.Succeeded?
    ensures s.db.runs[r].hash.Some?
    ensures exists limit: nat, offsets :: OffsetsLanded(s.db, site(s.db.runs[r].hash.value.of), limit, offsets, classify)
  {
    SucceededCovers(env, s, r);
    var c := s.db.runs[r].hash.value.of;
    var limit, states :| Covered(env, s.db, c, limit, states) && Distinct(states);
    var offsets := SeriesCovered(env, site, classify, s.db, c, limit, states);
  }
}
