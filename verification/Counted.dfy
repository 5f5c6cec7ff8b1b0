/**
 The two counted paging styles: Marketaux page numbers and EIA offsets
 (src/market_intelligence/providers/breadth.py).
 */
module Counted {
  import opened Keys
  import opened Continuation
  import opened Pages

  /** A Marketaux entry: sanitised into a payload, or unusable with an identity that can be audited. It is `None` when the
      identity is outside the allowed alphabet or `_rejection_hash` raises on it. */
  datatype Entry = Usable(payload: Payload) | Unusable(identity: Option<string>)

  datatype MarketauxAnswer = MarketauxAnswer(rows: seq<Entry>, found: int)

  function UsableOf(rows: seq<Entry>): (r: seq<Payload>) {
    if rows == [] then []
    else
      var rest := UsableOf(rows[..|rows| - 1]);
      if rows[|rows| - 1].Usable? then rest + [rows[|rows| - 1].payload] else rest
  }

  function UnusableOf(rows: seq<Entry>): (r: seq<RowHash>)
    requires Unusable(None) !in rows
  {
    if rows == [] then []
    else
      var rest := UnusableOf(rows[..|rows| - 1]);
      if rows[|rows| - 1].Unusable? then rest + [Digest(rows[|rows| - 1].identity.value)] else rest
  }

  /** The sanitising loop of the Marketaux branch. */
  method SplitEntries(rows: seq<Entry>) returns (payloads: seq<Payload>, rejected: seq<RowHash>, ok: bool)
    ensures ok <==> Unusable(None) !in rows
    ensures ok ==> payloads == UsableOf(rows) && rejected == UnusableOf(rows)
  {
    payloads, rejected, ok := [], [], true;
    for n := 0 to |rows|
      invariant Unusable(None) !in rows[..n]
      invariant payloads == UsableOf(rows[..n]) && rejected == UnusableOf(rows[..n])
    {
      assert rows[..n + 1][..n] == rows[..n] && rows[..n + 1] == rows[..n] + [rows[n]];
      match rows[n] {
        case Usable(p) => payloads := payloads + [p];
        case Unusable(Some(identity)) => rejected := rejected + [Digest(identity)];
        case Unusable(None) => ok := false; return;
      }
    }
    assert rows[..|rows|] == rows;
  }

  const MAX_COUNT := 10_000_000
  const MAX_PAGE := 1000

  function MarketauxCut(a: MarketauxAnswer, limit: int, page: int): (r: Option<Cut>) {
    var before := (page - 1) * limit;
    var after := before + |a.rows|;
    if |a.rows| > limit || Unusable(None) in a.rows then None
    else if !(0 <= a.found <= MAX_COUNT) then None
    else if a.found < after || (a.rows == [] && a.found > before) then None
    else if after < a.found && |a.rows| != limit then None
    else Some(Cut(UsableOf(a.rows), UnusableOf(a.rows), after < a.found, PageNo(page + 1)))
  }

  /** An accepted answer holds exactly the rows that belong on the page: all that are left, up to the limit, of a plausible total. */
  lemma MarketauxAnswerExact(a: MarketauxAnswer, limit: int, page: int)
    requires limit >= 1 && page >= 1
    ensures MarketauxCut(a, limit, page).Some? <==>
            var left := a.found - (page - 1) * limit;
            Unusable(None) !in a.rows && 0 <= a.found <= 10_000_000 && 0 <= left && |a.rows| == (if left < limit then left else limit)
  {
  }

  function PageOf(s: Progress): (n: int) {
    if s.PageNo? then s.page else 1
  }

  /** One request to a Marketaux service that answers each page number the same way every time. */
  function MarketauxAt(service: int -> MarketauxAnswer, limit: int, classify: Classifier, s: Progress): (r: Option<Page>) {
    var page := PageOf(s);
    if !(1 <= page <= MAX_PAGE) then None
    else
      var cut := MarketauxCut(service(page), limit, page);
      if cut.None? then None else Finish(cut.value, page == MAX_PAGE, classify)
  }

  function MarketauxFetcher(service: int -> MarketauxAnswer, limit: int, classify: Classifier): (f: Fetcher)
    ensures forall s :: f(s) == MarketauxAt(service, limit, classify, s)
  {
    s => MarketauxAt(service, limit, classify, s)
  }

  /** What an accepted answer says about the position of its rows. */
  lemma MarketauxStep(service: int -> MarketauxAnswer, limit: int, classify: Classifier, s: Progress)
    requires MarketauxAt(service, limit, classify, s).Some?
    ensures var n := PageOf(s);
            var page, after := MarketauxAt(service, limit, classify, s).value, (n - 1) * limit + |service(n).rows|;
            && 1 <= n <= MAX_PAGE && |service(n).rows| <= limit && after <= service(n).found
            && page.more == (after < service(n).found && n < MAX_PAGE)
            && page.incomplete == (after < service(n).found && n == MAX_PAGE)
            && (after < service(n).found ==> |service(n).rows| == limit)
            && (page.more ==> page.next == PageNo(n + 1))
  {
  }

  /** The k-th request of a Marketaux traversal asks for page k + 1. */
  lemma {:induction false} MarketauxStates(service: int -> MarketauxAnswer, limit: int, classify: Classifier,
                                           states: seq<Progress>, k: nat)
    requires IsChain(MarketauxFetcher(service, limit, classify), states) && k < |states|
    ensures PageOf(states[k]) == k + 1 && (k > 0 ==> states[k] == PageNo(k + 1))
  {
    if k > 0 {
      MarketauxStates(service, limit, classify, states, k - 1);
      MarketauxStep(service, limit, classify, states[k - 1]);
      ChainLink(MarketauxFetcher(service, limit, classify), states, k - 1);
    }
  }

  /**
   Tiling: with a stable total the row ranges of a complete traversal are consecutive, start at zero and
   end at the total, unless the total exceeds 1000 full pages. In that case, and only in it, the traversal
   stops after page 1000 with exactly 1000 full pages and the last page reports incomplete coverage.
   */
  lemma MarketauxTiles(service: int -> MarketauxAnswer, limit: int, classify: Classifier,
                       states: seq<Progress>, found: int)
    requires 1 <= limit <= 100
    requires forall n :: service(n).found == found
    requires Complete(MarketauxFetcher(service, limit, classify), states)
    ensures var f := MarketauxFetcher(service, limit, classify);
            var n := |states|;
            && n <= 1000
            && (forall p :: 1 <= p < n ==> |service(p).rows| == limit)
            && f(states[n - 1]).value.incomplete == (found > 1000 * limit)
            && (n - 1) * limit + |service(n).rows| ==
               (if found > 1000 * limit then 1000 * limit else found)
  {
    var f := MarketauxFetcher(service, limit, classify);
    var n := |states|;
    forall p | 1 <= p < n ensures |service(p).rows| == limit {
      FullPage(service, limit, classify, states, p);
    }
    MarketauxStates(service, limit, classify, states, n - 1);
    MarketauxStep(service, limit, classify, states[n - 1]);
    LastPageEnds(n, limit, |service(n).rows|, found);
  }

  lemma FullPage(service: int -> MarketauxAnswer, limit: int, classify: Classifier, states: seq<Progress>, p: nat)
    requires IsChain(MarketauxFetcher(service, limit, classify), states) && 1 <= p < |states|
    ensures |service(p).rows| == limit
  {
    MarketauxStates(service, limit, classify, states, p - 1);
    MarketauxStep(service, limit, classify, states[p - 1]);
    ChainLink(MarketauxFetcher(service, limit, classify), states, p - 1);
  }

  lemma LastPageEnds(n: int, limit: int, rows: int, found: int)
    requires 1 <= n <= MAX_PAGE && 1 <= limit && 0 <= rows <= limit
    requires (n - 1) * limit + rows <= found
    requires (n - 1) * limit + rows < found ==> rows == limit && n == MAX_PAGE
    ensures ((n - 1) * limit + rows < found) == (found > 1000 * limit)
    ensures (n - 1) * limit + rows == (if found > 1000 * limit then 1000 * limit else found)
  {
  }

  /** A next state the Marketaux adapter hands out is in the codec domain and differs from the request. */
  lemma MarketauxProgress(service: int -> MarketauxAnswer, limit: int, classify: Classifier, c: Config, s: Progress)
    requires InDomain(MarketauxNews, c, s) && MarketauxFetcher(service, limit, classify)(s).Some?
    ensures var page := MarketauxFetcher(service, limit, classify)(s).value;
            page.more ==> InDomain(MarketauxNews, c, page.next) && page.next != s
  {
  }

  /** EIA rows are classified before the total is checked. `EiaUntraceable` covers identities `_rejection_hash` refuses. */
  datatype EiaEntry = EiaKeep(payload: Payload) | EiaSkip | EiaReject(identity: string) | EiaUntraceable

  datatype EiaAnswer = EiaAnswer(rows: seq<EiaEntry>, total: int)

  function EiaKept(rows: seq<EiaEntry>): (r: seq<Payload>) {
    if rows == [] then []
    else
      var rest := EiaKept(rows[..|rows| - 1]);
      if rows[|rows| - 1].EiaKeep? then rest + [rows[|rows| - 1].payload] else rest
  }

  /** Kept rows come in the order of the answer, row by row. */
  lemma {:induction false} EiaKeptSplits(a: seq<EiaEntry>, b: seq<EiaEntry>, e: EiaEntry)
    ensures EiaKept(a + b) == EiaKept(a) + EiaKept(b)
    ensures EiaKept([e]) == if e.EiaKeep? then [e.payload] else []
    decreases |b|
  {
    assert [e][..0] == [];
    if b == [] {
      assert a + b == a;
    } else {
      EiaKeptSplits(a, b[..|b| - 1], e);
      assert (a + b)[..|a + b| - 1] == a + b[..|b| - 1];
    }
  }

  function EiaRejected(rows: seq<EiaEntry>): (r: seq<RowHash>) {
    if rows == [] then []
    else
      var rest := EiaRejected(rows[..|rows| - 1]);
      if rows[|rows| - 1].EiaReject? then rest + [Digest(rows[|rows| - 1].identity)] else rest
  }

  function EiaCut(a: EiaAnswer, limit: int, offset: int): (r: Option<Cut>) {
    var confirmed := offset + |a.rows|;
    if |a.rows| > limit || EiaUntraceable in a.rows then None
    else if !(0 <= a.total <= MAX_COUNT) then None
    else if a.total < confirmed || (a.rows == [] && a.total > offset) then None
    else Some(Cut(EiaKept(a.rows), EiaRejected(a.rows), confirmed < a.total, Offset(confirmed)))
  }

  /** An accepted answer holds no more rows than are left or asked for, and none only at the end of a plausible total. */
  lemma EiaAnswerExact(a: EiaAnswer, limit: int, offset: int)
    requires limit >= 1 && offset >= 0
    ensures EiaCut(a, limit, offset).Some? <==>
            && EiaUntraceable !in a.rows && 0 <= a.total <= 10_000_000 && |a.rows| <= limit
            && |a.rows| <= a.total - offset && (a.rows == [] ==> a.total == offset)
  {
  }

  function OffsetOf(s: Progress): (n: int) {
    if s.Offset? then s.offset else 0
  }

  function EiaAt(service: int -> EiaAnswer, limit: int, classify: Classifier, s: Progress): (r: Option<Page>) {
    var offset := OffsetOf(s);
    if !(0 <= offset <= MAX_COUNT) then None
    else
      var cut := EiaCut(service(offset), limit, offset);
      if cut.None? then None else Finish(cut.value, false, classify)
  }

  function EiaFetcher(service: int -> EiaAnswer, limit: int, classify: Classifier): (f: Fetcher)
    ensures forall s :: f(s) == EiaAt(service, limit, classify, s)
  {
    s => EiaAt(service, limit, classify, s)
  }

  lemma EiaStep(service: int -> EiaAnswer, limit: int, classify: Classifier, s: Progress)
    requires EiaAt(service, limit, classify, s).Some?
    ensures var o := OffsetOf(s);
            var page, after := EiaAt(service, limit, classify, s).value, o + |service(o).rows|;
            && after <= service(o).total
            && page.more == (after < service(o).total)
            && (page.more ==> o < after && page.next == Offset(after))
  {
  }

  /**
   Offsets tile too, with pages of any non-zero size: every request starts where the previous answer
   ended, the offsets rise strictly, and the last answer ends at the total.
   */
  lemma EiaTiles(service: int -> EiaAnswer, limit: int, classify: Classifier, states: seq<Progress>, total: int)
    requires forall n :: service(n).total == total
    requires Complete(EiaFetcher(service, limit, classify), states)
    ensures forall k, n :: 0 <= k < n < |states| && n == k + 1 ==>
              && OffsetOf(states[n]) == OffsetOf(states[k]) + |service(OffsetOf(states[k])).rows|
              && OffsetOf(states[k]) < OffsetOf(states[n]) < total
    ensures var last := OffsetOf(states[|states| - 1]);
            last + |service(last).rows| == total
    ensures |states| <= 1 || |states| <= total
  {
    var n := |states|;
    forall k, n | 0 <= k < n < |states| && n == k + 1
      ensures OffsetOf(states[n]) == OffsetOf(states[k]) + |service(OffsetOf(states[k])).rows|
      ensures OffsetOf(states[k]) < OffsetOf(states[n]) < total
    {
      EiaNext(service, limit, classify, states, k);
    }
    EiaStep(service, limit, classify, states[n - 1]);
    EiaOffsetsGrow(states, n - 1);
    if n > 1 { EiaNext(service, limit, classify, states, n - 2); }
  }

  lemma EiaNext(service: int -> EiaAnswer, limit: int, classify: Classifier, states: seq<Progress>, k: nat)
    requires IsChain(EiaFetcher(service, limit, classify), states) && k < |states| - 1
    ensures var o := OffsetOf(states[k]);
            && OffsetOf(states[k + 1]) == o + |service(o).rows|
            && o < OffsetOf(states[k + 1]) < service(o).total
  {
  }

  lemma {:induction false} EiaOffsetsGrow(states: seq<Progress>, k: nat)
    requires k < |states| && states[0] == Start
    requires forall i, j :: 0 <= i < j < |states| && j == i + 1 ==> OffsetOf(states[i]) < OffsetOf(states[j])
    ensures k <= OffsetOf(states[k])
  {
    if k > 0 {
      EiaOffsetsGrow(states, k - 1);
      assert OffsetOf(states[k - 1]) < OffsetOf(states[k]);
    }
  }

  lemma EiaProgress(api: Api, service: int -> EiaAnswer, limit: int, classify: Classifier, c: Config, s: Progress)
    requires api.EiaRetail? || api.EiaRto?
    requires InDomain(api, c, s) && EiaFetcher(service, limit, classify)(s).Some?
    ensures var page := EiaFetcher(service, limit, classify)(s).value;
            page.more ==> InDomain(api, c, page.next) && page.next != s
  {
  }

  /** Rows of page n of a stable result of `found` rows. */
  function RowsOn(found: int, limit: int, n: int): (k: int) {
    var left := found - (n - 1) * limit;
    if left < 0 then 0 else if left < limit then left else limit
  }

  /** Every page holds the rows that belong on it, each traceable. */
  ghost predicate MarketauxServable(service: int -> MarketauxAnswer, limit: int, found: int, classify: Classifier) {
    && 1 <= limit <= 100 && 0 <= found <= MAX_COUNT
    && (forall n :: service(n).found == found)
    && (forall n :: 1 <= n <= MAX_PAGE ==>
          |service(n).rows| == RowsOn(found, limit, n) && Unusable(None) !in service(n).rows && Calm(UsableOf(service(n).rows), classify))
  }

  lemma MarketauxAccepts(service: int -> MarketauxAnswer, limit: int, found: int, classify: Classifier, s: Progress)
    requires MarketauxServable(service, limit, found, classify)
    requires 1 <= PageOf(s) <= MAX_PAGE && (PageOf(s) == 1 || (PageOf(s) - 1) * limit < found)
    ensures MarketauxAt(service, limit, classify, s).Some?
  {
    var n := PageOf(s);
    assert |service(n).rows| == RowsOn(found, limit, n);
    FinishAccepts(MarketauxCut(service(n), limit, n).value, n == MAX_PAGE, classify, UsableOf(service(n).rows));
  }

  lemma MarketauxEnds(service: int -> MarketauxAnswer, limit: int, classify: Classifier)
    ensures BoundedBy(MarketauxFetcher(service, limit, classify), 1000)
  {
    var f := MarketauxFetcher(service, limit, classify);
    forall states | IsChain(f, states) ensures |states| <= 1000 {
      MarketauxStates(service, limit, classify, states, |states| - 1);
      MarketauxStep(service, limit, classify, states[|states| - 1]);
    }
  }

  lemma NextPageStarts(n: int, limit: int, rows: int, found: int)
    requires (n - 1) * limit + rows < found && rows == limit
    ensures ((n + 1) - 1) * limit < found
  {
  }

  lemma MarketauxContinues(service: int -> MarketauxAnswer, limit: int, found: int, classify: Classifier, s: Progress)
    requires MarketauxServable(service, limit, found, classify) && MarketauxAt(service, limit, classify, s).Some?
    requires MarketauxAt(service, limit, classify, s).value.more
    ensures MarketauxAt(service, limit, classify, MarketauxAt(service, limit, classify, s).value.next).Some?
  {
    var n := PageOf(s);
    MarketauxStep(service, limit, classify, s);
    NextPageStarts(n, limit, |service(n).rows|, found);
    MarketauxAccepts(service, limit, found, classify, PageNo(n + 1));
  }

  /** For every such result the traversal ends, within a thousand pages, and is cut short iff there are more rows. */
  lemma MarketauxCompletes(service: int -> MarketauxAnswer, limit: int, found: int, classify: Classifier)
    returns (whole: seq<Progress>)
    requires MarketauxServable(service, limit, found, classify)
    ensures Complete(MarketauxFetcher(service, limit, classify), whole) && |whole| <= 1000
    ensures MarketauxFetcher(service, limit, classify)(whole[|whole| - 1]).value.incomplete == (found > 1000 * limit)
    ensures (|whole| - 1) * limit + |service(|whole|).rows| == (if found > 1000 * limit then 1000 * limit else found)
  {
    var f := MarketauxFetcher(service, limit, classify);
    MarketauxEnds(service, limit, classify);
    MarketauxAccepts(service, limit, found, classify, Start);
    assert Continues(f) by {
      forall states | IsChain(f, states) && f(states[|states| - 1]).value.more ensures f(f(states[|states| - 1]).value.next).Some? {
        MarketauxContinues(service, limit, found, classify, states[|states| - 1]);
      }
    }
    whole := CompleteExists(f, MAX_PAGE);
    MarketauxTiles(service, limit, classify, whole, found);
  }

  /** Every offset before the total answers with rows, at most `limit` of them and none beyond the total. */
  ghost predicate EiaServable(service: int -> EiaAnswer, limit: int, total: int, classify: Classifier) {
    && 0 <= total <= MAX_COUNT && (forall n :: service(n).total == total)
    && (forall n :: 0 <= n <= total ==>
          && |service(n).rows| <= limit && n + |service(n).rows| <= total && (n < total ==> service(n).rows != [])
          && EiaUntraceable !in service(n).rows && Calm(EiaKept(service(n).rows), classify))
  }

  lemma EiaAccepts(service: int -> EiaAnswer, limit: int, total: int, classify: Classifier, s: Progress)
    requires EiaServable(service, limit, total, classify) && 0 <= OffsetOf(s) <= total
    ensures EiaAt(service, limit, classify, s).Some?
  {
    var n := OffsetOf(s);
    assert |service(n).rows| <= limit;
    FinishAccepts(EiaCut(service(n), limit, n).value, false, classify, EiaKept(service(n).rows));
  }

  /** With a stable total every chain ends. */
  lemma EiaEnds(service: int -> EiaAnswer, limit: int, classify: Classifier, total: nat)
    requires forall n :: service(n).total == total
    ensures BoundedBy(EiaFetcher(service, limit, classify), total + 1)
  {
    var f := EiaFetcher(service, limit, classify);
    forall states | IsChain(f, states) ensures |states| <= total + 1 {
      forall i, j | 0 <= i < j < |states| && j == i + 1 ensures OffsetOf(states[i]) < OffsetOf(states[j]) {
        EiaNext(service, limit, classify, states, i);
      }
      EiaOffsetsGrow(states, |states| - 1);
      if |states| > 1 { EiaNext(service, limit, classify, states, |states| - 2); }
    }
  }

  /** For every such series the traversal ends. */
  lemma EiaCompletes(service: int -> EiaAnswer, limit: int, total: nat, classify: Classifier) returns (whole: seq<Progress>)
    requires EiaServable(service, limit, total, classify)
    ensures Complete(EiaFetcher(service, limit, classify), whole) && |whole| <= total + 1
    ensures forall k, n :: 0 <= k < n < |whole| && n == k + 1 ==>
              OffsetOf(whole[n]) == OffsetOf(whole[k]) + |service(OffsetOf(whole[k])).rows|
    ensures var last := OffsetOf(whole[|whole| - 1]); last + |service(last).rows| == total
  {
    var f := EiaFetcher(service, limit, classify);
    EiaEnds(service, limit, classify, total);
    EiaAccepts(service, limit, total, classify, Start);
    forall states | IsChain(f, states) && f(states[|states| - 1]).value.more ensures f(f(states[|states| - 1]).value.next).Some? {
      var s := states[|states| - 1];
      EiaStep(service, limit, classify, s);
      OffsetsNatural(service, limit, classify, states, |states| - 1);
      EiaAccepts(service, limit, total, classify, f(s).value.next);
    }
    whole := CompleteExists(f, total + 1);
    EiaTiles(service, limit, classify, whole, total);
  }

  lemma OffsetsNatural(service: int -> EiaAnswer, limit: int, classify: Classifier, states: seq<Progress>, k: nat)
    requires IsChain(EiaFetcher(service, limit, classify), states) && k < |states|
    ensures 0 <= OffsetOf(states[k])
  {
  }
}
