/**
 Deterministic matching of evidence to event candidates (src/market_intelligence/event_intelligence/matching.py).

 Hashes are injective, so a signature or a cluster key is the tuple it hashes; canonical URLs and title fingerprints
 arrive computed. Times are seconds.
 */
module Matching {
  import opened Keys

  const DAY: int := 86400

  datatype Item = Item(provider: string, itemId: Option<string>, itemHash: string, official: bool, url: Option<string>,
                       fingerprint: Option<string>, eventTime: Option<int>, observedAt: int, entities: seq<string>, source: nat)

  datatype Signature =
    | Official(provider: string, id: string)
    | Url(url: string)
    | ProviderId(provider: string, id: string)
    | ItemHash(provider: string, hash: string)

  /** What a cluster key hashes. The sorted entity list of the bucket is a multiset. */
  datatype Anchor =
    | Signed(signature: Signature)
    | Bucket(entities: multiset<string>, fingerprint: string, day: int)
    | Ambiguous(evidence: nat)

  predicate HasId(v: Item) { v.itemId.Some? && v.itemId.value != "" }

  function SeenAt(v: Item): (t: int) { if v.eventTime.Some? then v.eventTime.value else v.observedAt }

  /** evidence_signatures, in list order. */
  function Signatures(v: Item): (r: seq<Signature>) {
    (if v.official && HasId(v) then [Official(v.provider, v.itemId.value)] else [])
    + (if v.url.Some? then [Url(v.url.value)] else [])
    + (if HasId(v) then [ProviderId(v.provider, v.itemId.value)] else [])
    + [ItemHash(v.provider, v.itemHash)]
  }

  /** derive_anchor: the first signature in priority order, or the daily bucket when only the hash is left. */
  function AnchorOf(v: Item): (a: Anchor) {
    if v.official && HasId(v) then Signed(Official(v.provider, v.itemId.value))
    else if v.url.Some? then Signed(Url(v.url.value))
    else if HasId(v) then Signed(ProviderId(v.provider, v.itemId.value))
    else if v.entities != [] && v.fingerprint.Some? then
      Bucket(multiset(v.entities), v.fingerprint.value, SeenAt(v) / DAY)
    else Signed(ItemHash(v.provider, v.itemHash))
  }

  datatype CandidateStatus = Candidate | Rejected

  datatype EventCandidate = EventCandidate(anchor: Anchor, strong: Option<Signature>, signatures: set<Signature>,
                                           fingerprints: set<string>, entities: set<string>, firstSeen: int, latestSeen: int,
                                           status: CandidateStatus, evidenceCount: nat, sourceCount: nat)

  /** Ranks 1, 2, 3 and 5 belong to the signature kinds, rank 4 to title and time. */
  function RankOf(x: Signature): (n: nat) {
    match x
    case Official(_, _) => 1
    case Url(_) => 2
    case ProviderId(_, _) => 3
    case ItemHash(_, _) => 5
  }

  predicate Shares(v: Item, c: EventCandidate, rank: nat) {
    exists x :: x in Signatures(v) && x in c.signatures && RankOf(x) == rank
  }

  predicate TitleAndTime(v: Item, c: EventCandidate) {
    && v.fingerprint.Some? && v.fingerprint.value in c.fingerprints
    && (exists e :: e in v.entities && e in c.entities)
    && c.firstSeen - DAY <= SeenAt(v) <= c.latestSeen + DAY
  }

  /** The rank a candidate gets, best first; `None` when nothing matches. */
  function Rank(v: Item, c: EventCandidate): (r: Option<nat>) {
    if Shares(v, c, 1) then Some(1)
    else if Shares(v, c, 2) then Some(2)
    else if Shares(v, c, 3) then Some(3)
    else if TitleAndTime(v, c) then Some(4)
    else if Shares(v, c, 5) then Some(5)
    else None
  }

  /** The ranks of all candidates, in load order. */
  function Ranks(v: Item, cs: seq<EventCandidate>): (r: seq<Option<nat>>)
    ensures |r| == |cs| && forall k :: 0 <= k < |cs| ==> r[k] == Rank(v, cs[k])
  {
    seq(|cs|, k requires 0 <= k < |cs| => Rank(v, cs[k]))
  }

  datatype Decision = Match(candidate: nat, rank: nat) | NewCandidate | AmbiguousCandidate(rank: nat)

  predicate Best(rs: seq<Option<nat>>, rank: nat) {
    && Some(rank) in rs
    && (forall k :: 0 <= k < |rs| && rs[k].Some? ==> rank <= rs[k].value)
  }

  /** What a decision means, without reference to how it is found. */
  predicate Decides(rs: seq<Option<nat>>, d: Decision) {
    match d
    case NewCandidate => forall k :: 0 <= k < |rs| ==> rs[k].None?
    case Match(k, rank) =>
      Best(rs, rank) && k < |rs| && rs[k] == Some(rank) && (forall j :: 0 <= j < |rs| && rs[j] == Some(rank) ==> j == k)
    case AmbiguousCandidate(rank) =>
      Best(rs, rank) && (exists j, k :: 0 <= j < k < |rs| && rs[j] == rs[k] == Some(rank))
  }

  lemma DecisionUnique(rs: seq<Option<nat>>, a: Decision, b: Decision)
    requires Decides(rs, a) && Decides(rs, b)
    ensures a == b
  {
  }

  /** The decision as a fold over the ranks. */
  function Choose(rs: seq<Option<nat>>): (d: Decision)
  {
    if rs == [] then NewCandidate
    else
      var init, r := Choose(rs[..|rs| - 1]), rs[|rs| - 1];
      if r.None? then init
      else if init.NewCandidate? || r.value < init.rank then Match(|rs| - 1, r.value)
      else if r.value == init.rank then AmbiguousCandidate(r.value)
      else init
  }

  lemma {:induction false} ChooseMeans(rs: seq<Option<nat>>)
    ensures Decides(rs, Choose(rs))
  {
    if rs != [] {
      var init, n := rs[..|rs| - 1], |rs| - 1;
      ChooseMeans(init);
      var d, r := Choose(init), rs[n];
      assert forall k :: 0 <= k < n ==> init[k] == rs[k];
      if r.Some? && !d.NewCandidate? && r.value == d.rank {
        var j :| 0 <= j < |init| && init[j] == Some(d.rank);
        assert rs[j] == rs[n] == Some(r.value);
      }
      if d.AmbiguousCandidate? {
        var j, k :| 0 <= j < k < |init| && init[j] == init[k] == Some(d.rank);
        assert rs[j] == rs[k] == Some(d.rank);
      }
    }
  }

  function Decide(v: Item, cs: seq<EventCandidate>): (d: Decision) { Choose(Ranks(v, cs)) }

  /** The ranked list of the source, kept in candidate order. */
  predicate Listed(rs: seq<Option<nat>>, ranked: seq<(nat, nat)>) {
    && (forall x :: x in ranked ==> x.1 < |rs| && rs[x.1] == Some(x.0))
    && (forall k :: 0 <= k < |rs| && rs[k].Some? ==> (rs[k].value, k) in ranked)
    && (forall i, j :: 0 <= i < j < |ranked| ==> ranked[i].1 < ranked[j].1)
  }

  function Top(ranked: seq<(nat, nat)>, best: nat): (r: seq<(nat, nat)>) {
    if ranked == [] then []
    else if ranked[|ranked| - 1].0 == best then Top(ranked[..|ranked| - 1], best) + [ranked[|ranked| - 1]]
    else Top(ranked[..|ranked| - 1], best)
  }

  lemma {:induction false} TopOnly(ranked: seq<(nat, nat)>, best: nat)
    requires forall i, j :: 0 <= i < j < |ranked| ==> ranked[i].1 < ranked[j].1
    ensures forall x :: x in Top(ranked, best) <==> x in ranked && x.0 == best
    ensures forall i, j :: 0 <= i < j < |Top(ranked, best)| ==> Top(ranked, best)[i].1 < Top(ranked, best)[j].1
  {
    if ranked != [] {
      var init, last := ranked[..|ranked| - 1], ranked[|ranked| - 1];
      TopOnly(init, best);
      assert ranked == init + [last];
      var t := Top(init, best);
      forall i | 0 <= i < |t| ensures t[i].1 < last.1 {
        assert t[i] in init;
        var m :| 0 <= m < |init| && init[m] == t[i];
        assert ranked[m] == t[i];
      }
    }
  }

  /** One best entry decides a match, several an ambiguity. */
  lemma TopDecides(rs: seq<Option<nat>>, ranked: seq<(nat, nat)>, best: nat)
    requires Listed(rs, ranked) && Best(rs, best)
    ensures var top := Top(ranked, best);
            && top != []
            && Decides(rs, if |top| == 1 then Match(top[0].1, best) else AmbiguousCandidate(best))
  {
    TopOnly(ranked, best);
    var top := Top(ranked, best);
    forall k | 0 <= k < |rs| && rs[k] == Some(best) ensures (best, k) in top {}
    var k :| 0 <= k < |rs| && rs[k] == Some(best);
    assert (best, k) in top;
    assert top[0] in top;
    if |top| > 1 {
      assert top[1] in top;
      assert rs[top[0].1] == rs[top[1].1] == Some(best);
    }
  }

  lemma ListedGrows(rs: seq<Option<nat>>, n: nat, ranked: seq<(nat, nat)>)
    requires n < |rs| && Listed(rs[..n], ranked)
    ensures if rs[n].Some? then Listed(rs[..n + 1], ranked + [(rs[n].value, n)]) else Listed(rs[..n + 1], ranked)
  {
    assert rs[..n + 1] == rs[..n] + [rs[n]];
  }

  /** The loop that collects the ranked candidates. */
  method Collect(rs: seq<Option<nat>>) returns (ranked: seq<(nat, nat)>)
    ensures Listed(rs, ranked)
  {
    ranked := [];
    for n := 0 to |rs|
      invariant Listed(rs[..n], ranked)
    {
      ListedGrows(rs, n, ranked);
      if rs[n].Some? {
        ranked := ranked + [(rs[n].value, n)];
      }
    }
    assert rs[..|rs|] == rs;
  }

  /** match_existing on the ranks: collect, take the minimum, keep the best. */
  method ChooseBest(rs: seq<Option<nat>>) returns (d: Decision)
    ensures d == Choose(rs) && Decides(rs, d)
  {
    ChooseMeans(rs);
    var ranked := Collect(rs);
    if ranked == [] {
      DecisionUnique(rs, NewCandidate, Choose(rs));
      return NewCandidate;
    }
    var best := MinimumRank(rs, ranked);
    var top := Top(ranked, best);
    TopDecides(rs, ranked, best);
    d := if |top| == 1 then Match(top[0].1, best) else AmbiguousCandidate(best);
    DecisionUnique(rs, d, Choose(rs));
  }

  method MatchExisting(v: Item, cs: seq<EventCandidate>) returns (d: Decision)
    ensures d == Decide(v, cs) && Decides(Ranks(v, cs), d)
  {
    d := ChooseBest(Ranks(v, cs));
  }

  /** min(item[0] for item in ranked) */
  method MinimumRank(ghost rs: seq<Option<nat>>, ranked: seq<(nat, nat)>) returns (best: nat)
    requires Listed(rs, ranked) && ranked != []
    ensures Best(rs, best)
  {
    best := ranked[0].0;
    for n := 1 to |ranked|
      invariant exists i :: 0 <= i < n && ranked[i].0 == best
      invariant forall i :: 0 <= i < n ==> best <= ranked[i].0
    {
      best := if ranked[n].0 < best then ranked[n].0 else best;
    }
    ghost var i :| 0 <= i < |ranked| && ranked[i].0 == best;
    assert ranked[i] in ranked;
    assert rs[ranked[i].1] == Some(best);
    forall k | 0 <= k < |rs| && rs[k].Some? ensures best <= rs[k].value {
      assert (rs[k].value, k) in ranked;
    }
  }

  /** Reason 1 to 5 to match a candidate, on the item's columns and what the candidate knows. */
  predicate Reason(v: Item, c: EventCandidate, rank: nat) {
    var when := if v.eventTime.Some? then v.eventTime.value else v.observedAt;
    var id := if v.itemId.Some? then v.itemId.value else "";
    match rank
    case 1 => v.official && id != "" && Official(v.provider, id) in c.signatures
    case 2 => v.url.Some? && Url(v.url.value) in c.signatures
    case 3 => id != "" && ProviderId(v.provider, id) in c.signatures
    case 4 => && v.fingerprint.Some? && v.fingerprint.value in c.fingerprints && (exists e :: e in v.entities && e in c.entities)
              && c.firstSeen - 86400 <= when <= c.latestSeen + 86400
    case 5 => ItemHash(v.provider, v.itemHash) in c.signatures
    case _ => false
  }

  lemma RankIsReason(v: Item, c: EventCandidate, rank: nat)
    ensures Rank(v, c) == Some(rank) <==> Reason(v, c, rank) && forall n :: 0 <= n < rank ==> !Reason(v, c, n)
    ensures Rank(v, c).None? ==> !Reason(v, c, rank)
  {
    SignaturesExact(v);
    if Rank(v, c).Some? { assert Reason(v, c, Rank(v, c).value); }
  }

  lemma SignaturesExact(v: Item)
    ensures forall x :: x in Signatures(v) <==>
              match x
              case Official(p, id) => v.official && v.itemId == Some(id) && id != "" && p == v.provider
              case Url(u) => v.url == Some(u)
              case ProviderId(p, id) => v.itemId == Some(id) && id != "" && p == v.provider
              case ItemHash(p, h) => p == v.provider && h == v.itemHash
  {
  }

  /** No candidate has a better reason than `rank`. */
  ghost predicate NoneBetter(v: Item, cs: seq<EventCandidate>, rank: nat) {
    forall j, n :: 0 <= j < |cs| && 0 <= n < rank ==> !Reason(v, cs[j], n)
  }

  /** `rank` is the least rank given iff some candidate has that reason and none a better one. */
  lemma BestIsReason(v: Item, cs: seq<EventCandidate>, rank: nat)
    ensures Best(Ranks(v, cs), rank) <==> NoneBetter(v, cs, rank) && exists k :: 0 <= k < |cs| && Reason(v, cs[k], rank)
    ensures NoneBetter(v, cs, rank) ==>
              forall k :: 0 <= k < |cs| ==> (Ranks(v, cs)[k] == Some(rank) <==> Reason(v, cs[k], rank))
  {
    var rs := Ranks(v, cs);
    forall k, n: nat | 0 <= k < |cs|
      ensures rs[k] == Some(n) <==> Reason(v, cs[k], n) && forall m :: 0 <= m < n ==> !Reason(v, cs[k], m)
      ensures rs[k].None? ==> !Reason(v, cs[k], n)
    {
      RankIsReason(v, cs[k], n);
    }
    if Best(rs, rank) {
      forall j, n | 0 <= j < |cs| && 0 <= n < rank ensures !Reason(v, cs[j], n) {
        if Reason(v, cs[j], n) { LeastReason(v, cs[j], n); }
      }
    }
    if NoneBetter(v, cs, rank) && exists k :: 0 <= k < |cs| && Reason(v, cs[k], rank) {
      var k :| 0 <= k < |cs| && Reason(v, cs[k], rank);
      assert rs[k] == Some(rank);
    }
  }

  lemma LeastReason(v: Item, c: EventCandidate, n: nat)
    requires Reason(v, c, n)
    ensures Rank(v, c).Some? && Rank(v, c).value <= n
  {
    SignaturesExact(v);
  }

  /**
   The priority: an official identity beats a canonical URL, that a provider identity, that title, entity and time, that
   the item hash. The item joins candidate k under reason `rank` iff k has that reason, no other candidate has it, and none
   has a better one; it is ambiguous iff several have it; it is new iff no candidate has any reason.
   */
  lemma PriorityExact(v: Item, cs: seq<EventCandidate>)
    ensures Decide(v, cs).NewCandidate? <==> forall k, n :: 0 <= k < |cs| && 1 <= n <= 5 ==> !Reason(v, cs[k], n)
    ensures forall k: nat, rank: nat :: Decide(v, cs) == Match(k, rank) <==>
              && NoneBetter(v, cs, rank) && k < |cs| && Reason(v, cs[k], rank)
              && (forall j :: 0 <= j < |cs| && Reason(v, cs[j], rank) ==> j == k)
    ensures forall rank: nat :: Decide(v, cs) == AmbiguousCandidate(rank) <==>
              NoneBetter(v, cs, rank) && exists j, k :: 0 <= j < k < |cs| && Reason(v, cs[j], rank) && Reason(v, cs[k], rank)
  {
    var rs, d := Ranks(v, cs), Decide(v, cs);
    ChooseMeans(rs);
    forall rank: nat ensures Best(rs, rank) <==> NoneBetter(v, cs, rank) && exists k :: 0 <= k < |cs| && Reason(v, cs[k], rank)
      ensures NoneBetter(v, cs, rank) ==> forall k :: 0 <= k < |cs| ==> (rs[k] == Some(rank) <==> Reason(v, cs[k], rank))
    {
      BestIsReason(v, cs, rank);
    }
    forall a: Decision ensures Decides(rs, a) <==> a == d { if Decides(rs, a) { DecisionUnique(rs, a, d); } }
    forall k, n: nat | 0 <= k < |cs| ensures rs[k].None? ==> !Reason(v, cs[k], n) { RankIsReason(v, cs[k], n); }
  }

  /** What a candidate remembers of the evidence it was created from. */
  ghost predicate Remembers(c: EventCandidate) {
    match c.anchor
    case Signed(x) => x in c.signatures
    case Bucket(es, f, day) =>
      && (exists e :: e in es) && (forall e :: e in es ==> e in c.entities) && f in c.fingerprints
      && exists t: int :: c.firstSeen <= t <= c.latestSeen && OnDay(t, day)
    case Ambiguous(_) => true
  }

  predicate OnDay(t: int, day: int) { t / DAY == day }

  /** Whatever the anchor, a candidate that has it is ranked: matching and the unique key agree. */
  lemma AnchorIsRanked(v: Item, c: EventCandidate)
    requires Remembers(c) && c.anchor == AnchorOf(v)
    ensures Rank(v, c).Some?
  {
  }

  /** NEW_CANDIDATE is decided only when the derived cluster key is free. */
  lemma NewKeyIsFree(v: Item, cs: seq<EventCandidate>, k: nat)
    requires Decide(v, cs).NewCandidate? && k < |cs| && Remembers(cs[k])
    ensures cs[k].anchor != AnchorOf(v)
  {
    ChooseMeans(Ranks(v, cs));
    if cs[k].anchor == AnchorOf(v) { AnchorIsRanked(v, cs[k]); }
  }
}
