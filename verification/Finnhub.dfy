/** Finnhub company news (src/market_intelligence/providers/breadth.py): one body, cut by keyset. */
module Finnhub {
  import opened Keys
  import opened Windows
  import opened Continuation
  import opened Pages
  import opened Keyset

  /** A provider identity that is absent, outside the allowed alphabet, or usable. */
  datatype Identity = NoId | BadId | GoodId(text: string)

  /** A URL that is absent, refused by canonicalisation, or canonical with its SHA-256 hex digest. */
  datatype Url = NoUrl | BadUrl | GoodUrl(digest: string)

  /** `at` is the normalised timestamp, empty when the provider value cannot be read; `hashable` says `_rejection_hash`
      accepts the identity the row would be rejected under. */
  datatype NewsRow = NewsRow(identity: Identity, url: Url, at: string, body: string, hashable: bool)

  datatype Fate = Keep(payload: Payload) | Skip | Reject(hash: RowHash) | Fail

  const ID_PREFIX := "company-news:id:"
  const URL_PREFIX := "company-news:url:"

  function Day(at: string): (d: string) { if |at| <= 10 then at else at[..10] }

  predicate InWindow(at: string, start: string, end: string) {
    !StrLt(Day(at), start) && !StrLt(end, Day(at))
  }

  function GlobalId(r: NewsRow): (id: string)
    requires r.identity.GoodId? || r.url.GoodUrl?
  {
    if r.identity.GoodId? then ID_PREFIX + r.identity.text else URL_PREFIX + r.url.digest
  }

  /** Audit the row under an identity, or fail the page when the identity cannot be hashed. */
  function Rejecting(r: NewsRow, id: string): (f: Fate) {
    if r.hashable then Reject(Digest(id)) else Fail
  }

  /** What happens to one row of the body. */
  function FateOf(r: NewsRow, start: string, end: string): (f: Fate) {
    if r.url.BadUrl? then
      if !r.identity.GoodId? then Fail else Rejecting(r, ID_PREFIX + r.identity.text)
    else if r.identity.BadId? then
      if r.url.NoUrl? then Fail else Rejecting(r, URL_PREFIX + r.url.digest)
    else if r.identity.NoId? && r.url.NoUrl? then Fail
    else if r.at == "" then Rejecting(r, GlobalId(r))
    else if !InWindow(r.at, start, end) then Skip
    else Keep(Payload(GlobalId(r), r.at, r.body))
  }

  function Kept(body: seq<NewsRow>, start: string, end: string): (r: seq<Payload>) {
    if body == [] then []
    else
      var rest := Kept(body[..|body| - 1], start, end);
      match FateOf(body[|body| - 1], start, end)
      case Keep(p) => rest + [p]
      case _ => rest
  }

  function RejectedRows(body: seq<NewsRow>, start: string, end: string): (r: seq<RowHash>) {
    if body == [] then []
    else
      var rest := RejectedRows(body[..|body| - 1], start, end);
      match FateOf(body[|body| - 1], start, end)
      case Reject(h) => rest + [h]
      case _ => rest
  }

  predicate Readable(body: seq<NewsRow>, start: string, end: string) {
    forall r :: r in body ==> !FateOf(r, start, end).Fail?
  }

  /** The row loop, with its early failures and its two growing lists. */
  method ReadBody(body: seq<NewsRow>, start: string, end: string)
    returns (payloads: seq<Payload>, rejected: seq<RowHash>, ok: bool)
    ensures ok <==> Readable(body, start, end)
    ensures ok ==> payloads == Kept(body, start, end) && rejected == RejectedRows(body, start, end)
  {
    payloads, rejected, ok := [], [], true;
    for n := 0 to |body|
      invariant Readable(body[..n], start, end)
      invariant payloads == Kept(body[..n], start, end) && rejected == RejectedRows(body[..n], start, end)
    {
      assert body[..n + 1][..n] == body[..n] && body[..n + 1] == body[..n] + [body[n]];
      match FateOf(body[n], start, end) {
        case Keep(p) => payloads := payloads + [p];
        case Skip =>
        case Reject(h) => rejected := rejected + [h];
        case Fail => ok := false; return;
      }
    }
    assert body[..|body|] == body;
  }

  function AfterOf(s: Progress): (k: Option<Key>) {
    if s.LastKey? then Some(s.key) else None
  }

  function Resume(s: Progress): (k: Key) { KeyOrBottom(AfterOf(s)) }

  /** The adapter itself accepts keys of at most 200 characters, less than the codec's 255. */
  predicate AdapterKey(k: Key) { |k.at| <= 200 && |k.id| <= 200 }

  function FinnhubCut(body: seq<NewsRow>, start: string, end: string, limit: nat, s: Progress): (r: Option<Cut>)
    requires limit >= 1
  {
    if !Readable(body, start, end) || !AdapterKey(Resume(s)) then None
    else
      var rest := Remaining(Kept(body, start, end), Resume(s));
      if rest.None? then None
      else
        var emitted := Take(rest.value, limit);
        Some(Cut(emitted, RejectedRows(body, start, end), |rest.value| > limit,
                 if LastKeyOf(emitted).None? then Start else LastKey(LastKeyOf(emitted).value)))
  }

  function FinnhubAt(body: seq<NewsRow>, start: string, end: string, limit: nat, classify: Classifier, s: Progress)
    : (r: Option<Page>)
    requires limit >= 1
  {
    var cut := FinnhubCut(body, start, end, limit, s);
    if cut.None? then None else Finish(cut.value, false, classify)
  }

  function FinnhubFetcher(body: seq<NewsRow>, start: string, end: string, limit: nat, classify: Classifier)
    : (f: Fetcher)
    requires limit >= 1
    ensures forall s :: f(s) == FinnhubAt(body, start, end, limit, classify, s)
  {
    s => FinnhubAt(body, start, end, limit, classify, s)
  }

  /** The in-window list the paging must deliver. */
  function News(body: seq<NewsRow>, start: string, end: string): (r: seq<Payload>) {
    Listing(Kept(body, start, end))
  }

  lemma {:induction false} KeptRows(body: seq<NewsRow>, start: string, end: string)
    ensures forall p :: p in Kept(body, start, end) ==>
              p.at != "" && exists r :: r in body && FateOf(r, start, end) == Keep(p)
    ensures forall r :: r in body && FateOf(r, start, end).Keep? ==>
              FateOf(r, start, end).payload in Kept(body, start, end)
    ensures forall r :: r in body && FateOf(r, start, end).Reject? ==>
              FateOf(r, start, end).hash in RejectedRows(body, start, end)
  {
    if body != [] {
      var init, last := body[..|body| - 1], body[|body| - 1];
      assert body == init + [last];
      KeptRows(init, start, end);
    }
  }

  /** A row under payload `p`, on its fields: an identity, a canonical or absent URL, a timestamp whose day is in the window. */
  predicate Asked(r: NewsRow, start: string, end: string, p: Payload) {
    && r.at != "" && p.at == r.at && p.body == r.body && !r.identity.BadId? && !r.url.BadUrl?
    && !StrLt(if |r.at| <= 10 then r.at else r.at[..10], start) && !StrLt(end, if |r.at| <= 10 then r.at else r.at[..10])
    && (if r.identity.GoodId? then p.id == "company-news:id:" + r.identity.text
        else r.url.GoodUrl? && p.id == "company-news:url:" + r.url.digest)
  }

  /** A request cuts only in-window rows of the body, under the identity the body gives them. */
  lemma CutsOnlyAsked(body: seq<NewsRow>, start: string, end: string, limit: nat, s: Progress, p: Payload)
    requires limit >= 1 && FinnhubCut(body, start, end, limit, s).Some?
    requires p in FinnhubCut(body, start, end, limit, s).value.payloads
    ensures exists r :: r in body && Asked(r, start, end, p)
  {
    var rest := Remaining(Kept(body, start, end), Resume(s)).value;
    RemainingRises(Kept(body, start, end), Resume(s));
    assert p in rest;
    KeptRows(body, start, end);
    var r :| r in body && FateOf(r, start, end) == Keep(p);
    assert Asked(r, start, end, p);
  }

  /** The cut of a conflict-free body at row n. */
  lemma CutAt(body: seq<NewsRow>, start: string, end: string, limit: nat, s: Progress, n: nat)
    requires limit >= 1 && FinnhubCut(body, start, end, limit, s).Some?
    requires !Conflict(Kept(body, start, end)) && AfterRow(News(body, start, end), AfterOf(s), n)
    ensures var cut := FinnhubCut(body, start, end, limit, s).value;
            && SliceAt(News(body, start, end), n, limit, cut.payloads, cut.more, LastKeyOf(cut.payloads))
            && (cut.more ==> AfterOf(cut.next) == LastKeyOf(cut.payloads))
  {
    KeptRows(body, start, end);
    CutIsSlice(Kept(body, start, end), AfterOf(s), n, limit);
  }

  lemma FirstAccepted(body: seq<NewsRow>, start: string, end: string, limit: nat)
    requires limit >= 1 && FinnhubCut(body, start, end, limit, Start).Some?
    ensures !Conflict(Kept(body, start, end))
  {
    KeptRows(body, start, end);
    AcceptedMeansConflictFree(Kept(body, start, end));
  }

  /** A fetch succeeds only on a body it could cut; the cut decides whether rows are left and where to go on. */
  lemma FetchCuts(body: seq<NewsRow>, start: string, end: string, limit: nat, classify: Classifier, s: Progress)
    requires limit >= 1 && FinnhubFetcher(body, start, end, limit, classify)(s).Some?
    ensures FinnhubCut(body, start, end, limit, s).Some?
    ensures var page, cut := FinnhubFetcher(body, start, end, limit, classify)(s).value,
                             FinnhubCut(body, start, end, limit, s).value;
            page.more == cut.more && page.next == cut.next
  {
  }

  /** The rows one request cuts out of the body. */
  function RowsAt(body: seq<NewsRow>, start: string, end: string, limit: nat, s: Progress): (r: seq<Payload>)
    requires limit >= 1
  {
    var cut := FinnhubCut(body, start, end, limit, s);
    if cut.Some? then cut.value.payloads else []
  }

  function CutRows(body: seq<NewsRow>, start: string, end: string, limit: nat): (rows: Progress -> seq<Payload>)
    requires limit >= 1
    ensures forall s :: rows(s) == RowsAt(body, start, end, limit, s)
  {
    s => RowsAt(body, start, end, limit, s)
  }

  lemma FinnhubSlices(body: seq<NewsRow>, start: string, end: string, limit: nat, classify: Classifier)
    requires limit >= 1 && FinnhubCut(body, start, end, limit, Start).Some?
    ensures Slices(FinnhubFetcher(body, start, end, limit, classify), News(body, start, end), limit,
                   AfterOf, CutRows(body, start, end, limit))
  {
    FirstAccepted(body, start, end, limit);
    var f, d := FinnhubFetcher(body, start, end, limit, classify), News(body, start, end);
    forall s: Progress, n: nat | f(s).Some? && AfterRow(d, AfterOf(s), n)
      ensures SliceAt(d, n, limit, RowsAt(body, start, end, limit, s), f(s).value.more,
                      LastKeyOf(RowsAt(body, start, end, limit, s)))
      ensures f(s).value.more ==> AfterOf(f(s).value.next) == LastKeyOf(RowsAt(body, start, end, limit, s))
    {
      FetchCuts(body, start, end, limit, classify, s);
      CutAt(body, start, end, limit, s, n);
    }
  }

  lemma ChainSlices(body: seq<NewsRow>, start: string, end: string, limit: nat, classify: Classifier,
                    states: seq<Progress>)
    requires limit >= 1 && IsChain(FinnhubFetcher(body, start, end, limit, classify), states)
    ensures Slices(FinnhubFetcher(body, start, end, limit, classify), News(body, start, end), limit,
                   AfterOf, CutRows(body, start, end, limit))
  {
    FetchCuts(body, start, end, limit, classify, states[0]);
    FinnhubSlices(body, start, end, limit, classify);
  }

  /**
   Tiling by keyset: over a fixed body a complete traversal cuts the sorted, deduplicated in-window list
   into consecutive slices of `limit` rows, and the slices concatenate to exactly that list.
   */
  lemma {:induction false} FinnhubTiles(body: seq<NewsRow>, start: string, end: string, limit: nat, classify: Classifier,
                     states: seq<Progress>, pages: seq<seq<Payload>>)
    requires limit >= 1
    requires Complete(FinnhubFetcher(body, start, end, limit, classify), states)
    requires |pages| == |states|
    requires forall k :: 0 <= k < |states| ==> pages[k] == CutRows(body, start, end, limit)(states[k])
    ensures Tiles(pages, News(body, start, end), limit)
  {
    var f, d, rows := FinnhubFetcher(body, start, end, limit, classify), News(body, start, end),
                      CutRows(body, start, end, limit);
    ChainSlices(body, start, end, limit, classify, states);
    SlicedTiles(f, d, limit, AfterOf, rows, states, pages);
  }

  /** Fetch k cuts body k, each page leading to the next request; the body may change between fetches. */
  ghost predicate Drifting(bodies: seq<seq<NewsRow>>, start: string, end: string, limit: nat, states: seq<Progress>, cuts: seq<Cut>)
    requires limit >= 1
  {
    && |bodies| == |states| == |cuts| && states != [] && states[0] == Start
    && (forall k {:trigger FinnhubCut(bodies[k], start, end, limit, states[k])} :: 0 <= k < |states| ==>
          FinnhubCut(bodies[k], start, end, limit, states[k]) == Some(cuts[k]))
    && Handed(states, cuts)
  }

  /** Each request carries the state the page before handed out. */
  ghost predicate Handed(states: seq<Progress>, cuts: seq<Cut>)
    requires |states| == |cuts|
  {
    forall i, j :: 0 <= i < j < |states| && j == i + 1 ==> cuts[i].more && states[j] == cuts[i].next
  }

  /** Rows rise strictly from the requested key to the one handed out. */
  ghost predicate Rising(s: Progress, cut: Cut) {
    && Strict(cut.payloads)
    && (forall x :: x in cut.payloads ==> KeyLt(Resume(s), KeyOf(x)))
    && (cut.more ==> cut.next.LastKey? && KeyLt(Resume(s), cut.next.key))
    && (cut.more ==> forall x :: x in cut.payloads ==> KeyLe(KeyOf(x), cut.next.key))
  }

  /** One page, whatever the body. */
  lemma PageRises(body: seq<NewsRow>, start: string, end: string, limit: nat, s: Progress)
    requires limit >= 1 && FinnhubCut(body, start, end, limit, s).Some?
    ensures Rising(s, FinnhubCut(body, start, end, limit, s).value)
  {
    RemainingRises(Kept(body, start, end), Resume(s));
    var rest := Remaining(Kept(body, start, end), Resume(s)).value;
    TakeRises(rest, limit, Resume(s));
  }

  /** The first rows of a rising list, and the key of the last of them. */
  lemma TakeRises(rest: seq<Payload>, limit: nat, k: Key)
    requires limit >= 1 && Strict(rest) && forall x :: x in rest ==> KeyLt(k, KeyOf(x))
    ensures var rows := Take(rest, limit);
            && Strict(rows) && (forall x :: x in rows ==> KeyLt(k, KeyOf(x)))
            && (rows != [] ==> KeyLt(k, LastKeyOf(rows).value) && forall x :: x in rows ==> KeyLe(KeyOf(x), LastKeyOf(rows).value))
  {
  }

  /** Keys handed out never fall along rising pages. */
  lemma {:induction false} HandedKeysRise(states: seq<Progress>, cuts: seq<Cut>, i: nat, j: nat)
    requires |states| == |cuts| && i < j < |states| && (forall k :: 0 <= k < |states| ==> Rising(states[k], cuts[k]))
    requires Handed(states, cuts)
    ensures cuts[i].more && cuts[i].next.LastKey? && KeyLe(cuts[i].next.key, Resume(states[j]))
    decreases j
  {
    KeyOrder();
    var h := j - 1;
    assert cuts[h].more && states[j] == cuts[h].next && Rising(states[h], cuts[h]);
    if i < h { HandedKeysRise(states, cuts, i, h); }
  }

  /** Even if the body changes between fetches, no (timestamp, identity) key is ever emitted twice. */
  lemma NoKeyTwice(bodies: seq<seq<NewsRow>>, start: string, end: string, limit: nat, states: seq<Progress>, cuts: seq<Cut>,
                   i: nat, j: nat, x: Payload, y: Payload)
    requires limit >= 1 && Drifting(bodies, start, end, limit, states, cuts) && i < j < |states|
    requires x in cuts[i].payloads && y in cuts[j].payloads
    ensures KeyLt(KeyOf(x), KeyOf(y)) && KeyOf(x) != KeyOf(y) && Strict(cuts[i].payloads)
  {
    forall k | 0 <= k < |states| ensures Rising(states[k], cuts[k]) {
      assert FinnhubCut(bodies[k], start, end, limit, states[k]) == Some(cuts[k]);
      PageRises(bodies[k], start, end, limit, states[k]);
    }
    HandedKeysRise(states, cuts, i, j);
    assert Rising(states[i], cuts[i]) && Rising(states[j], cuts[j]);
    KeyOrder();
  }

  /** Identities have 1 to 160 characters, digests 64, timestamps fit the adapter's key bound. */
  predicate Bounded(body: seq<NewsRow>) {
    forall r :: r in body ==>
      && (r.identity.GoodId? ==> 1 <= |r.identity.text| <= 160)
      && (r.url.GoodUrl? ==> |r.url.digest| == 64)
      && |r.at| <= 200
  }

  /** Every kept row fits the adapter's and the codec's key bounds. */
  lemma KeptBounded(body: seq<NewsRow>, start: string, end: string, p: Payload)
    requires Bounded(body) && p in Kept(body, start, end)
    ensures CodecKey(KeyOf(p)) && AdapterKey(KeyOf(p))
  {
  }

  /** A key handed out with rows left is accepted by the codec and by the adapter, and is not the one asked for. */
  lemma FinnhubProgress(body: seq<NewsRow>, start: string, end: string, limit: nat, classify: Classifier,
                        c: Config, s: Progress)
    requires limit >= 1 && Bounded(body) && FinnhubAt(body, start, end, limit, classify, s).Some?
    ensures var page := FinnhubAt(body, start, end, limit, classify, s).value;
            page.more ==> InDomain(FinnhubNews, c, page.next) && AdapterKey(Resume(page.next)) && page.next != s
  {
    var cut := FinnhubCut(body, start, end, limit, s).value;
    PageRises(body, start, end, limit, s);
    RemainingRises(Kept(body, start, end), Resume(s));
    if cut.more {
      var last := cut.payloads[|cut.payloads| - 1];
      KeptBounded(body, start, end, last);
      assert cut.next == LastKey(KeyOf(last));
      StrIrreflexive(last.at);
      StrIrreflexive(last.id);
    }
  }

  /** No chain, complete or not, is longer than one request more than there are rows. */
  lemma FinnhubEnds(body: seq<NewsRow>, start: string, end: string, limit: nat, classify: Classifier)
    requires limit >= 1
    ensures BoundedBy(FinnhubFetcher(body, start, end, limit, classify), |News(body, start, end)| + 1)
  {
    var f := FinnhubFetcher(body, start, end, limit, classify);
    forall states | IsChain(f, states) ensures |states| <= |News(body, start, end)| + 1 {
      ChainSlices(body, start, end, limit, classify, states);
      SlicedEnds(f, News(body, start, end), limit, AfterOf, CutRows(body, start, end, limit), states);
    }
  }

  /** A body every fetch accepts: no unreadable row, no identity with two rows, keys within bounds, a calm classifier. */
  predicate Servable(body: seq<NewsRow>, start: string, end: string, classify: Classifier) {
    && Readable(body, start, end) && !Conflict(Kept(body, start, end)) && Bounded(body) && Calm(Kept(body, start, end), classify)
  }

  lemma FinnhubAccepts(body: seq<NewsRow>, start: string, end: string, limit: nat, classify: Classifier, s: Progress)
    requires limit >= 1 && Servable(body, start, end, classify) && AdapterKey(Resume(s))
    ensures FinnhubAt(body, start, end, limit, classify, s).Some?
  {
    var kept := Kept(body, start, end);
    RemainingAccepts(kept, Resume(s));
    RemainingRises(kept, Resume(s));
    var cut := FinnhubCut(body, start, end, limit, s).value;
    assert forall p :: p in cut.payloads ==> p in Remaining(kept, Resume(s)).value;
    FinishAccepts(cut, false, classify, kept);
  }

  /** For every such body the traversal ends: a complete chain exists, and its pages tile the in-window list. */
  lemma FinnhubCompletes(body: seq<NewsRow>, start: string, end: string, limit: nat, classify: Classifier)
    returns (whole: seq<Progress>)
    requires limit >= 1 && Servable(body, start, end, classify)
    ensures Complete(FinnhubFetcher(body, start, end, limit, classify), whole) && |whole| <= |News(body, start, end)| + 1
    ensures Tiles(seq(|whole|, k requires 0 <= k < |whole| => RowsAt(body, start, end, limit, whole[k])), News(body, start, end), limit)
  {
    var f := FinnhubFetcher(body, start, end, limit, classify);
    FinnhubEnds(body, start, end, limit, classify);
    FinnhubAccepts(body, start, end, limit, classify, Start);
    forall states | IsChain(f, states) && f(states[|states| - 1]).value.more ensures f(f(states[|states| - 1]).value.next).Some? {
      var s := states[|states| - 1];
      FinnhubProgress(body, start, end, limit, classify, Config(Plain(""), Fixed(Window(DayStamp(0), DayStamp(0)))), s);
      FinnhubAccepts(body, start, end, limit, classify, f(s).value.next);
    }
    whole := CompleteExists(f, |News(body, start, end)| + 1);
    var pages := seq(|whole|, k requires 0 <= k < |whole| => RowsAt(body, start, end, limit, whole[k]));
    FinnhubTiles(body, start, end, limit, classify, whole, pages);
  }
}
