/**
 One adapter page and the chain of pages (src/market_intelligence/providers/breadth.py).

 A payload is what an adapter cuts out of a provider answer. `validate_factual_payload` is an arbitrary
 classifier: it accepts and normalises a payload, refuses it with a traceable identity, or fails the page.
 */
module Pages {
  import opened Keys
  import opened Continuation

  /** `body` stands for every field other than the identity and the timestamp. */
  datatype Payload = Payload(id: string, at: string, body: string)

  function KeyOf(p: Payload): (k: Key) { Key(p.at, p.id) }

  /** A refused payload is audited under the hash of its identity; `Untraceable` when the identity is not a string or
      `_rejection_hash` raises on it, which fails the page. */
  datatype Verdict = Accept(fact: Payload) | Refuse | Untraceable

  type Classifier = Payload -> Verdict

  type RowHash = Digest<string>

  /** What `_payloads` returns for one response, before validation. */
  datatype Cut = Cut(payloads: seq<Payload>, rejected: seq<RowHash>, more: bool, next: Progress)

  /** A successful fetch: `facts` become raw items, `rejected` is audited. */
  datatype Page = Page(facts: seq<Payload>, rejected: seq<RowHash>, more: bool, next: Progress,
                       incomplete: bool)

  /** Two rows under one identity that differ: canonical hashes are injective, so payloads are compared. */
  predicate Conflict(ps: seq<Payload>) {
    exists i, j :: 0 <= i < j < |ps| && ps[i].id == ps[j].id && ps[i] != ps[j]
  }

  /** The first occurrence of every payload, in order. */
  function FirstOnly(ps: seq<Payload>): (r: seq<Payload>) {
    if ps == [] then []
    else
      var init, last := ps[..|ps| - 1], ps[|ps| - 1];
      if last in init then FirstOnly(init) else FirstOnly(init) + [last]
  }

  function Dedup(ps: seq<Payload>): (r: Option<seq<Payload>>) {
    if Conflict(ps) then None else Some(FirstOnly(ps))
  }

  predicate DistinctIds(ps: seq<Payload>) {
    forall i, j :: 0 <= i < j < |ps| ==> ps[i].id != ps[j].id
  }

  lemma {:induction false} FirstOnlyMembers(ps: seq<Payload>, x: Payload)
    ensures x in FirstOnly(ps) <==> x in ps
  {
    if ps != [] {
      FirstOnlyMembers(ps[..|ps| - 1], x);
      assert ps == ps[..|ps| - 1] + [ps[|ps| - 1]];
    }
  }

  /** Without a conflict the surviving rows carry pairwise different identities and lose no row. */
  lemma {:induction false} DedupExact(ps: seq<Payload>)
    requires !Conflict(ps)
    ensures DistinctIds(FirstOnly(ps))
    ensures forall x :: x in FirstOnly(ps) <==> x in ps
  {
    forall x ensures x in FirstOnly(ps) <==> x in ps { FirstOnlyMembers(ps, x); }
    if ps != [] {
      var init, last := ps[..|ps| - 1], ps[|ps| - 1];
      assert forall i :: 0 <= i < |init| ==> init[i] == ps[i];
      DedupExact(init);
      var d := FirstOnly(init);
      if last !in init {
        forall i | 0 <= i < |d| ensures d[i].id != last.id {
          assert d[i] in init;
          var k :| 0 <= k < |init| && init[k] == d[i];
          assert ps[k] != last;
        }
      }
    }
  }

  predicate AgreesWith(ps: seq<Payload>, p: Payload) {
    forall k :: 0 <= k < |ps| && ps[k].id == p.id ==> ps[k] == p
  }

  lemma ConflictGrows(ps: seq<Payload>, p: Payload)
    ensures Conflict(ps + [p]) <==> Conflict(ps) || !AgreesWith(ps, p)
  {
    var all := ps + [p];
    if Conflict(ps) {
      var i, j :| 0 <= i < j < |ps| && ps[i].id == ps[j].id && ps[i] != ps[j];
      assert all[i].id == all[j].id && all[i] != all[j];
    }
    if !AgreesWith(ps, p) {
      var k :| 0 <= k < |ps| && ps[k].id == p.id && ps[k] != p;
      assert all[k].id == all[|ps|].id && all[k] != all[|ps|];
    }
  }

  lemma {:induction false} ConflictStays(ps: seq<Payload>, n: nat)
    requires n <= |ps| && Conflict(ps[..n])
    ensures Conflict(ps)
  {
  }

  /** The dictionary of the rows seen so far. */
  predicate Indexes(byIdentity: map<string, Payload>, ps: seq<Payload>) {
    && (forall k :: 0 <= k < |ps| ==> ps[k].id in byIdentity && byIdentity[ps[k].id] == ps[k])
    && (forall id :: id in byIdentity ==> byIdentity[id] in ps && byIdentity[id].id == id)
  }

  lemma Looked(byIdentity: map<string, Payload>, ps: seq<Payload>, p: Payload)
    requires Indexes(byIdentity, ps)
    ensures p.id in byIdentity ==> (AgreesWith(ps, p) <==> byIdentity[p.id] == p) && (byIdentity[p.id] == p ==> p in ps)
    ensures p.id !in byIdentity ==> AgreesWith(ps, p) && p !in ps
  {
  }

  /** One row further: the loop's facts, in one place. */
  predicate DedupSoFar(ps: seq<Payload>, byIdentity: map<string, Payload>, kept: seq<Payload>) {
    !Conflict(ps) && kept == FirstOnly(ps) && Indexes(byIdentity, ps)
  }

  lemma DedupStep(ps: seq<Payload>, p: Payload, byIdentity: map<string, Payload>, kept: seq<Payload>)
    requires DedupSoFar(ps, byIdentity, kept)
    ensures p.id in byIdentity && byIdentity[p.id] != p ==> Conflict(ps + [p])
    ensures p.id in byIdentity && byIdentity[p.id] == p ==> DedupSoFar(ps + [p], byIdentity, kept)
    ensures p.id !in byIdentity ==> DedupSoFar(ps + [p], byIdentity[p.id := p], kept + [p])
  {
    Looked(byIdentity, ps, p);
    ConflictGrows(ps, p);
    assert (ps + [p])[..|ps|] == ps;
  }

  /** _deduplicate_payloads: one pass with a dictionary keyed by identity. */
  method Deduplicate(ps: seq<Payload>) returns (r: Option<seq<Payload>>)
    ensures r == Dedup(ps)
  {
    var byIdentity: map<string, Payload> := map[];
    var kept: seq<Payload> := [];
    for n := 0 to |ps|
      invariant DedupSoFar(ps[..n], byIdentity, kept)
    {
      var p := ps[n];
      assert ps[..n + 1] == ps[..n] + [p];
      DedupStep(ps[..n], p, byIdentity, kept);
      if p.id in byIdentity {
        if byIdentity[p.id] != p {
          ConflictStays(ps, n + 1);
          return None;
        }
      } else {
        kept := kept + [p];
        byIdentity := byIdentity[p.id := p];
      }
    }
    assert ps[..|ps|] == ps;
    r := Some(kept);
  }

  /** The validation loop of `fetch`: accepted facts in order, refused identities hashed. */
  function Accepted(ps: seq<Payload>, classify: Classifier): (r: seq<Payload>) {
    if ps == [] then []
    else
      var rest := Accepted(ps[..|ps| - 1], classify);
      match classify(ps[|ps| - 1])
      case Accept(fact) => rest + [fact]
      case _ => rest
  }

  function Refused(ps: seq<Payload>, classify: Classifier): (r: seq<RowHash>) {
    if ps == [] then []
    else
      var rest := Refused(ps[..|ps| - 1], classify);
      if classify(ps[|ps| - 1]).Refuse? then rest + [Digest(ps[|ps| - 1].id)] else rest
  }

  predicate Traceable(ps: seq<Payload>, classify: Classifier) {
    forall p :: p in ps ==> !classify(p).Untraceable?
  }

  /** From a cut to a page: validate, deduplicate the facts, and turn the page-1000 overflow into a flag. */
  function Finish(cut: Cut, lastPage: bool, classify: Classifier): (r: Option<Page>) {
    var incomplete := lastPage && cut.more;
    if !Traceable(cut.payloads, classify) then None
    else
      var facts := Dedup(Accepted(cut.payloads, classify));
      if facts.None? then None
      else Some(Page(facts.value, cut.rejected + Refused(cut.payloads, classify),
                     cut.more && !incomplete, if incomplete then Start else cut.next, incomplete))
  }

  /** The same, as the loop the adapter runs. */
  method FinishPage(cut: Cut, lastPage: bool, classify: Classifier) returns (r: Option<Page>)
    ensures r == Finish(cut, lastPage, classify)
  {
    var ps := cut.payloads;
    var valid: seq<Payload> := [];
    var rejected := cut.rejected;
    for n := 0 to |ps|
      invariant Traceable(ps[..n], classify)
      invariant valid == Accepted(ps[..n], classify)
      invariant rejected == cut.rejected + Refused(ps[..n], classify)
    {
      assert ps[..n + 1][..n] == ps[..n] && ps[..n + 1] == ps[..n] + [ps[n]];
      match classify(ps[n]) {
        case Accept(fact) => valid := valid + [fact];
        case Refuse => rejected := rejected + [Digest(ps[n].id)];
        case Untraceable => return None;
      }
    }
    assert ps[..|ps|] == ps;
    var facts := Deduplicate(valid);
    if facts.None? { return None; }
    if lastPage && cut.more {
      return Some(Page(facts.value, rejected, false, Start, true));
    }
    return Some(Page(facts.value, rejected, cut.more, cut.next, false));
  }

  /** A row is accounted for by a page when its fact is on the page or its identity is audited. */
  predicate Accounted(p: Payload, facts: seq<Payload>, rejected: seq<RowHash>, classify: Classifier) {
    || (classify(p).Accept? && classify(p).fact in facts)
    || Digest(p.id) in rejected
  }

  lemma {:induction false} JudgedCovers(ps: seq<Payload>, classify: Classifier, x: Payload)
    requires Traceable(ps, classify) && x in ps
    ensures Accounted(x, Accepted(ps, classify), Refused(ps, classify), classify)
  {
    var init := ps[..|ps| - 1];
    assert ps == init + [ps[|ps| - 1]];
    if x in init { JudgedCovers(init, classify, x); }
  }

  /** No payload of a cut is lost by validation and deduplication. */
  lemma FinishCovers(cut: Cut, lastPage: bool, classify: Classifier, x: Payload)
    requires Finish(cut, lastPage, classify).Some?
    requires x in cut.payloads
    ensures var page := Finish(cut, lastPage, classify).value;
            Accounted(x, page.facts, page.rejected, classify) && DistinctIds(page.facts)
  {
    JudgedCovers(cut.payloads, classify, x);
    DedupExact(Accepted(cut.payloads, classify));
  }

  /** A stable provider seen through one frozen window and batch limit. */
  type Fetcher = Progress -> Option<Page>

  /** The page answering `a` leads on to `b`. */
  predicate LeadsTo(f: Fetcher, a: Progress, b: Progress) {
    f(a).Some? && f(a).value.more && b == f(a).value.next
  }

  /** `states` are the requests of a traversal from the empty state, each page leading to the next. */
  ghost predicate IsChain(f: Fetcher, states: seq<Progress>) {
    && states != [] && states[0] == Start
    && (forall i :: 0 <= i < |states| ==> f(states[i]).Some?)
    && (forall i, j :: 0 <= i < j < |states| && j == i + 1 ==> LeadsTo(f, states[i], states[j]))
  }

  ghost predicate Complete(f: Fetcher, states: seq<Progress>) {
    IsChain(f, states) && !f(states[|states| - 1]).value.more
  }

  lemma ChainLink(f: Fetcher, states: seq<Progress>, i: nat)
    requires IsChain(f, states) && i + 1 < |states|
    ensures f(states[i]).Some? && f(states[i]).value.more && states[i + 1] == f(states[i]).value.next
  {
    var j := i + 1;
    assert LeadsTo(f, states[i], states[j]);
  }

  /** Two traversals of one provider agree as far as both go. */
  lemma {:induction false} ChainsAgree(f: Fetcher, a: seq<Progress>, b: seq<Progress>, n: nat)
    requires IsChain(f, a) && IsChain(f, b) && n < |a| && n < |b|
    ensures a[n] == b[n]
  {
    if n > 0 {
      ChainsAgree(f, a, b, n - 1);
      ChainLink(f, a, n - 1);
      ChainLink(f, b, n - 1);
    }
  }

  /** Every traversal is a prefix of the complete one, which is unique. */
  lemma ChainPrefix(f: Fetcher, part: seq<Progress>, whole: seq<Progress>)
    requires IsChain(f, part) && Complete(f, whole)
    ensures part <= whole
    ensures Complete(f, part) ==> part == whole
  {
    forall n | 0 <= n < |part| && n < |whole| ensures part[n] == whole[n] {
      ChainsAgree(f, part, whole, n);
    }
    if |part| > |whole| { ChainLink(f, part, |whole| - 1); }
    if |part| < |whole| { ChainLink(f, whole, |part| - 1); }
  }

  /** In a traversal that ends, no page is requested twice. */
  lemma NoPageTwice(f: Fetcher, whole: seq<Progress>)
    requires Complete(f, whole)
    ensures Distinct(whole)
  {
    forall i, j | 0 <= i < j < |whole| ensures whole[i] != whole[j] {
      Shifted(f, whole, i, j, |whole| - 1 - j);
    }
  }

  /** If two requests coincided, the pages after them would coincide too, up to the end. */
  lemma {:induction false} Shifted(f: Fetcher, whole: seq<Progress>, i: nat, j: nat, n: nat)
    requires IsChain(f, whole) && !f(whole[|whole| - 1]).value.more
    requires i < j < |whole| && n == |whole| - 1 - j
    ensures whole[i] != whole[j]
    decreases n
  {
    if n > 0 {
      Shifted(f, whole, i + 1, j + 1, n - 1);
      ChainLink(f, whole, j);
    }
    ChainLink(f, whole, i);
  }

  /** One more page extends the chain. */
  lemma ChainExtends(f: Fetcher, states: seq<Progress>, next: Progress)
    requires IsChain(f, states) && LeadsTo(f, states[|states| - 1], next) && f(next).Some?
    ensures IsChain(f, states + [next])
  {
    var all := states + [next];
    forall i, j | 0 <= i < j < |all| && j == i + 1 ensures LeadsTo(f, all[i], all[j]) {
      if j < |states| { ChainLink(f, states, i); }
    }
    assert IsChain(f, all);
  }

  /** The first request is accepted, and so is every request a chain leads to. */
  ghost predicate Continues(f: Fetcher) {
    && f(Start).Some?
    && (forall states :: IsChain(f, states) && f(states[|states| - 1]).value.more ==> f(f(states[|states| - 1]).value.next).Some?)
  }

  /** No chain is longer than `bound`. */
  ghost predicate BoundedBy(f: Fetcher, bound: nat) {
    forall states :: IsChain(f, states) ==> |states| <= bound
  }

  /** A provider that always continues and cannot continue for ever has a complete chain. */
  lemma CompleteExists(f: Fetcher, bound: nat) returns (whole: seq<Progress>)
    requires Continues(f) && BoundedBy(f, bound)
    ensures Complete(f, whole) && |whole| <= bound
  {
    whole := [Start];
    assert IsChain(f, whole);
    while f(whole[|whole| - 1]).value.more
      invariant IsChain(f, whole)
      decreases bound - |whole|
    {
      var next := f(whole[|whole| - 1]).value.next;
      ChainExtends(f, whole, next);
      whole := whole + [next];
    }
  }

  /** The classifier traces every row, and gives two rows one identity only if it gives them one fact. */
  predicate Calm(ps: seq<Payload>, classify: Classifier) {
    && Traceable(ps, classify)
    && (forall p, q :: p in ps && q in ps && classify(p).Accept? && classify(q).Accept? && classify(p).fact.id == classify(q).fact.id ==>
          classify(p).fact == classify(q).fact)
  }

  lemma {:induction false} AcceptedFrom(ps: seq<Payload>, classify: Classifier, x: Payload) returns (p: Payload)
    requires x in Accepted(ps, classify)
    ensures p in ps && classify(p) == Accept(x)
  {
    var last := ps[|ps| - 1];
    if classify(last) == Accept(x) {
      p := last;
    } else {
      p := AcceptedFrom(ps[..|ps| - 1], classify, x);
    }
  }

  /** Rows of a calm list are always turned into a page. */
  lemma FinishAccepts(cut: Cut, lastPage: bool, classify: Classifier, all: seq<Payload>)
    requires Calm(all, classify) && forall p :: p in cut.payloads ==> p in all
    ensures Finish(cut, lastPage, classify).Some?
  {
    var facts := Accepted(cut.payloads, classify);
    forall i, j | 0 <= i < j < |facts| && facts[i].id == facts[j].id ensures facts[i] == facts[j] {
      var p := AcceptedFrom(cut.payloads, classify, facts[i]);
      var q := AcceptedFrom(cut.payloads, classify, facts[j]);
    }
  }
}
