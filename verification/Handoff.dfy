/**
 The evidence handoff (src/market_intelligence/evidence/handoff.py) as a transition system over projections, links,
 evidence and content. Links are numbered like the projections they belong to; every transaction is one step and any
 worker may take it at any time.
 */
module Handoff {
  import opened Keys
  import opened EvidencePolicy

  datatype LinkStatus = Absent | Pending | Processing | Retry | Linked | Blocked

  datatype Link = Link(status: LinkStatus, attempts: nat, retryAt: Option<int>, touched: int, evidence: Option<nat>,
                       content: Option<nat>, canonicalEvidence: bool, canonicalContent: bool)

  const ABSENT := Link(Absent, 0, None, 0, None, None, false, false)

  datatype State = State(projections: seq<Projection>, raws: seq<Raw>, links: seq<Link>, evidence: seq<Evidence>,
                         contents: seq<Content>)

  datatype Limits = Limits(maxAttempts: int, staleAfter: nat, retryDelay: nat)

  predicate Sized(s: State) {
    |s.links| == |s.projections| && forall i :: 0 <= i < |s.projections| ==> s.projections[i].raw < |s.raws|
  }

  function RawOf(s: State, i: nat): (r: Raw)
    requires Sized(s) && i < |s.projections|
  {
    s.raws[s.projections[i].raw]
  }

  /** Evidence rows of a raw item and provider. */
  function EvidenceOf(rows: seq<Evidence>, raw: nat, provider: Provider): (r: seq<nat>)
    ensures forall k :: k in r ==> k < |rows| && rows[k].raw == raw && rows[k].provider == provider
    ensures forall k :: 0 <= k < |rows| && rows[k].raw == raw && rows[k].provider == provider ==> k in r
  {
    if rows == [] then []
    else
      var rest, last := EvidenceOf(rows[..|rows| - 1], raw, provider), rows[|rows| - 1];
      if last.raw == raw && last.provider == provider then rest + [|rows| - 1] else rest
  }

  /** The content row of a raw item; the index on raw items is unique. */
  function ContentOf(rows: seq<Content>, raw: nat): (r: Option<nat>)
    ensures r.Some? ==> r.value < |rows| && rows[r.value].raw == raw
    ensures r.None? ==> forall k :: 0 <= k < |rows| ==> rows[k].raw != raw
  {
    if rows == [] then None
    else if rows[|rows| - 1].raw == raw then Some(|rows| - 1)
    else ContentOf(rows[..|rows| - 1], raw)
  }

  predicate IsEvidenceOrigin(l: Link, e: nat) { l.status.Linked? && l.evidence == Some(e) && l.canonicalEvidence }
  predicate IsContentOrigin(l: Link, c: nat) { l.status.Linked? && l.content == Some(c) && l.canonicalContent }

  function EvidenceOrigin(links: seq<Link>, e: nat): (r: Option<nat>)
    ensures r.Some? ==> r.value < |links| && IsEvidenceOrigin(links[r.value], e)
    ensures r.None? ==> forall k :: 0 <= k < |links| ==> !IsEvidenceOrigin(links[k], e)
  {
    if links == [] then None
    else if IsEvidenceOrigin(links[|links| - 1], e) then Some(|links| - 1)
    else EvidenceOrigin(links[..|links| - 1], e)
  }

  function ContentOrigin(links: seq<Link>, c: nat): (r: Option<nat>)
    ensures r.Some? ==> r.value < |links| && IsContentOrigin(links[r.value], c)
    ensures r.None? ==> forall k :: 0 <= k < |links| ==> !IsContentOrigin(links[k], c)
  {
    if links == [] then None
    else if IsContentOrigin(links[|links| - 1], c) then Some(|links| - 1)
    else ContentOrigin(links[..|links| - 1], c)
  }

  predicate EvidenceTaken(links: seq<Link>, e: nat) {
    exists k :: 0 <= k < |links| && links[k].status.Linked? && links[k].evidence == Some(e)
  }

  predicate ContentTaken(links: seq<Link>, c: nat) {
    exists k :: 0 <= k < |links| && links[k].status.Linked? && links[k].content == Some(c)
  }

  /** What a step of the link transaction decides: a row to use, a row to insert, or how it fails. */
  datatype Choice<T> = Nothing | Use(row: nat) | Insert(new_: T) | Refuse | Break

  /** Unique indexes on (source, external id) and canonical URL. */
  predicate ContentClash(rows: seq<Content>, c: Content) {
    exists k :: 0 <= k < |rows| && ((rows[k].source == c.source && c.externalId.Some? && rows[k].externalId == c.externalId)
                                    || (c.canonicalUrl.Some? && rows[k].canonicalUrl == c.canonicalUrl))
  }

  /** _content */
  function ChooseContent(s: State, i: nat): (r: Choice<Content>)
    requires Sized(s) && i < |s.projections| && PolicyOf(s.projections[i].provider, s.projections[i].op).Some?
  {
    var p, raw := s.projections[i], RawOf(s, i);
    var kind := PolicyOf(p.provider, p.op).value.content;
    if kind.None? then Nothing
    else
      var existing := ContentOf(s.contents, p.raw);
      if existing.Some? then
        var o := ContentOrigin(s.links, existing.value);
        var origin := if o.Some? then s.projections[o.value] else p;
        if ContentAgrees(s.contents[existing.value], origin, raw, p.raw, kind.value) then Use(existing.value) else Refuse
      else if kind.value.Article? && !(Text(p.fact.title) && Text(p.fact.canonicalUrl) && Text(p.fact.sourceIdentity)) then
        Nothing
      else if !kind.value.Article? && (p.fact.form.None? || p.fact.officialUrl.None?) then Break
      else if ContentClash(s.contents, NewContent(p, raw, kind.value)) then Break
      else Insert(NewContent(p, raw, kind.value))
  }

  /** Another raw item's evidence already has this identity or hash. */
  predicate EvidenceClash(rows: seq<Evidence>, p: Projection) {
    exists k :: 0 <= k < |rows| && rows[k].provider == p.provider && (rows[k].itemId == p.fact.itemId || rows[k].itemHash == p.hash)
  }

  predicate ContentFits(e: Evidence, content: Option<nat>) {
    e.content.Some? ==> e.content == content
  }

  /** _evidence */
  function ChooseEvidence(s: State, i: nat, content: Option<nat>): (r: Choice<Evidence>)
    requires Sized(s) && i < |s.projections| && PolicyOf(s.projections[i].provider, s.projections[i].op).Some?
  {
    var p, raw := s.projections[i], RawOf(s, i);
    var existing := EvidenceOf(s.evidence, p.raw, p.provider);
    if |existing| > 1 then Refuse
    else if |existing| == 1 then
      var e := existing[0];
      assert e in existing;
      var o := EvidenceOrigin(s.links, e);
      var origin := if o.Some? then s.projections[o.value] else p;
      if origin.provider != p.provider || origin.op != p.op || origin.fact.itemId != p.fact.itemId then Refuse
      else if Agrees(s.evidence[e], origin, raw) && ContentFits(s.evidence[e], content) then Use(e)
      else Refuse
    else if EvidenceClash(s.evidence, p) then Refuse
    else Insert(NewEvidence(p, raw, PolicyOf(p.provider, p.op).value, content))
  }

  /** The transaction before its last write: rows inserted, ids chosen. */
  datatype Prepared = Ready(s: State, evidence: nat, content: Option<nat>) | Conflict | Failed

  function WithContent(s: State, c: Choice<Content>): (r: State) {
    if c.Insert? then s.(contents := s.contents + [c.new_]) else s
  }

  function ContentId(s: State, c: Choice<Content>): (r: Option<nat>) {
    match c
    case Use(row) => Some(row)
    case Insert(_) => Some(|s.contents|)
    case _ => None
  }

  function Prepare(s: State, i: nat): (r: Prepared)
    requires Sized(s) && i < |s.projections|
  {
    if !Eligible(s.projections[i], RawOf(s, i)) then Conflict
    else
      var content := ChooseContent(s, i);
      if content.Refuse? then Conflict
      else if content.Break? then Failed
      else
        var s1 := WithContent(s, content);
        var evidence := ChooseEvidence(s1, i, ContentId(s, content));
        match evidence
        case Use(e) => Ready(s1, e, ContentId(s, content))
        case Insert(row) => Ready(s1.(evidence := s1.evidence + [row]), |s1.evidence|, ContentId(s, content))
        case _ => Conflict
  }

  /** The link row the transaction writes. */
  function LinkedRow(links: seq<Link>, l: Link, e: nat, c: Option<nat>, now: int): (r: Link) {
    Link(Linked, l.attempts, None, now, Some(e), c, !EvidenceTaken(links, e), c.Some? && !ContentTaken(links, c.value))
  }

  /** m2b_link_transition_lock_guard on a row that becomes LINKED. */
  predicate TransitionGuard(s: State, i: nat, row: Link)
    requires Sized(s) && i < |s.projections|
  {
    var p, raw := s.projections[i], RawOf(s, i);
    && row.evidence.Some? && row.evidence.value < |s.evidence|
    && var e := s.evidence[row.evidence.value];
       && OperationGuard(p, raw, e, row.content)
       && EvidenceTaken(s.links, row.evidence.value) == !row.canonicalEvidence
       && (row.canonicalEvidence ==> IdentityGuard(p, e, p))
       && (!row.canonicalEvidence ==>
             var o := EvidenceOrigin(s.links, row.evidence.value);
             o.Some? && IdentityGuard(p, e, s.projections[o.value]))
       && (row.content.None? ==> !row.canonicalContent && !ContentRequired(p))
       && (row.content.Some? ==>
             && row.content.value < |s.contents| && ContentTaken(s.links, row.content.value) == !row.canonicalContent
             && (row.canonicalContent ==> ContentGuard(s.contents[row.content.value], p, raw.retention))
             && (!row.canonicalContent ==>
                   var o := ContentOrigin(s.links, row.content.value);
                   o.Some? && ContentGuard(s.contents[row.content.value], s.projections[o.value], raw.retention)))
  }

  /** An earlier linked row of the same evidence and content whose official URL is the content's. */
  predicate PriorUrl(s: State, row: Link)
    requires Sized(s) && row.content.Some? && row.content.value < |s.contents|
  {
    exists k :: 0 <= k < |s.links| && s.links[k].status.Linked? && s.links[k].evidence == row.evidence
                && s.links[k].content == row.content
                && s.projections[k].fact.officialUrl == s.contents[row.content.value].canonicalUrl
  }

  /** r8a_evidence_projection_link_guard on the same row. */
  predicate ProvenanceGuard(s: State, i: nat, row: Link)
    requires Sized(s) && i < |s.projections|
  {
    var p, raw := s.projections[i], RawOf(s, i);
    var policy := PolicyOf(p.provider, p.op);
    && p.ready && policy.Some? && row.evidence.Some? && row.evidence.value < |s.evidence|
    && var e, expected := s.evidence[row.evidence.value], policy.value.itemType;
       && e.raw == p.raw && e.source == raw.source && e.account == raw.account && e.provider == p.provider
       && e.facts.itemType == expected && (e.content.Some? ==> e.content == row.content)
       && (expected.QuoteItem? || expected.EiaItem? ==> row.content.None? && e.content.None?)
       && (row.content.Some? ==>
             && row.content.value < |s.contents|
             && var c := s.contents[row.content.value];
                && c.raw == p.raw && c.source == raw.source && c.account == raw.account
                && (expected.MarketauxItem? || expected.CompanyNewsItem? ==> c.kind.Article?)
                && (expected.FilingItem? ==>
                      && c.kind.OfficialRelease? && c.unavailable && c.canonicalUrl.Some? && c.originalUrl == c.canonicalUrl
                      && (c.canonicalUrl == p.fact.officialUrl || PriorUrl(s, row))))
  }

  predicate Guards(s: State, i: nat, row: Link)
    requires Sized(s) && i < |s.projections|
  {
    TransitionGuard(s, i, row) && ProvenanceGuard(s, i, row)
  }

  /** The row Python would write, in the state the triggers see. */
  function Proposed(s: State, i: nat, now: int): (row: Link)
    requires Sized(s) && i < |s.links| && Prepare(s, i).Ready?
  {
    var t := Prepare(s, i);
    LinkedRow(t.s.links, s.links[i], t.evidence, t.content, now)
  }

  lemma PrepareSized(s: State, i: nat)
    requires Sized(s) && i < |s.links| && Prepare(s, i).Ready?
    ensures Sized(Prepare(s, i).s) && Prepare(s, i).s.links == s.links && Prepare(s, i).s.projections == s.projections
    ensures Prepare(s, i).s.raws == s.raws
  {
  }

  predicate CommitsLink(s: State, i: nat, now: int)
    requires Sized(s)
  {
    i < |s.links| && s.links[i].status.Processing? && Prepare(s, i).Ready?
    && (PrepareSized(s, i); Guards(Prepare(s, i).s, i, Proposed(s, i, now)))
  }

  /** _link_one: the whole transaction commits, or nothing does. */
  function LinkOne(s: State, i: nat, now: int): (n: State)
    requires Sized(s)
  {
    if !CommitsLink(s, i, now) then s
    else PrepareSized(s, i); var t := Prepare(s, i).s; t.(links := t.links[i := Proposed(s, i, now)])
  }

  function Discover(s: State, i: nat): (n: State)
    requires Sized(s)
  {
    if i < |s.links| && s.links[i].status.Absent? && s.projections[i].ready then
      s.(links := s.links[i := ABSENT.(status := Pending)])
    else s
  }

  predicate Claimable(s: State, i: nat, now: int)
    requires Sized(s)
  {
    && i < |s.links| && s.projections[i].ready && (s.links[i].status.Pending? || s.links[i].status.Retry?)
    && (s.links[i].retryAt.Some? ==> s.links[i].retryAt.value <= now)
  }

  function ClaimedRow(l: Link, now: int): (r: Link) {
    l.(status := Processing, attempts := l.attempts + 1, retryAt := None, touched := now)
  }

  function Claim(s: State, i: nat, now: int): (n: State)
    requires Sized(s)
  {
    if Claimable(s, i, now) then s.(links := s.links[i := ClaimedRow(s.links[i], now)]) else s
  }

  /** The provenance trigger fires on every update of a link row and refuses it unless the projection is READY. */
  predicate MayUpdate(s: State, i: nat)
    requires Sized(s)
  {
    i < |s.links| && s.projections[i].ready
  }

  /** _retry and _recover_stale share the exhaustion rule. */
  function GivenBack(c: Limits, l: Link, retryAt: int, now: int): (r: Link) {
    if l.attempts >= c.maxAttempts then l.(status := Blocked, retryAt := None, touched := now)
    else l.(status := Retry, retryAt := Some(retryAt), touched := now)
  }

  predicate IsStale(c: Limits, l: Link, now: int) {
    l.status.Processing? && l.touched < now - c.staleAfter
  }

  function RecoverStale(c: Limits, s: State, i: nat, now: int): (n: State)
    requires Sized(s)
  {
    if MayUpdate(s, i) && IsStale(c, s.links[i], now) then s.(links := s.links[i := GivenBack(c, s.links[i], now, now)]) else s
  }

  function RetryLink(c: Limits, s: State, i: nat, now: int): (n: State)
    requires Sized(s)
  {
    if MayUpdate(s, i) && s.links[i].status.Processing? then
      s.(links := s.links[i := GivenBack(c, s.links[i], now + c.retryDelay, now)])
    else s
  }

  function Terminal(s: State, i: nat, now: int): (n: State)
    requires Sized(s)
  {
    if MayUpdate(s, i) && s.links[i].status.Processing? then
      s.(links := s.links[i := s.links[i].(status := Blocked, retryAt := None, touched := now)])
    else s
  }

  predicate LinkedTo(s: State, raw: nat)
    requires Sized(s)
  {
    exists k :: 0 <= k < |s.links| && s.links[k].status.Linked? && s.projections[k].raw == raw
  }

  /** Other writers: anything the immutability triggers and the unique index on content let through. */
  datatype Change =
    | AddRaw(raw: Raw)
    | PutRaw(r: nat, raw: Raw)
    | AddProjection(p: Projection)
    | PutProjection(i: nat, p: Projection)
    | AddEvidence(e: Evidence)
    | PutEvidence(k: nat, e: Evidence)
    | AddContent(c: Content)
    | PutContent(k: nat, c: Content)

  function Mutate(s: State, m: Change): (n: State)
    requires Sized(s)
  {
    match m
    case AddRaw(raw) => s.(raws := s.raws + [raw])
    case PutRaw(r, raw) => if r < |s.raws| && !LinkedTo(s, r) then s.(raws := s.raws[r := raw]) else s
    case AddProjection(p) =>
      if p.raw < |s.raws| then s.(projections := s.projections + [p], links := s.links + [ABSENT]) else s
    case PutProjection(i, p) =>
      if i < |s.links| && !s.links[i].status.Linked? && p.raw < |s.raws| then s.(projections := s.projections[i := p]) else s
    case AddEvidence(e) => s.(evidence := s.evidence + [e])
    case PutEvidence(k, e) =>
      if k < |s.evidence| && !EvidenceTaken(s.links, k) then s.(evidence := s.evidence[k := e]) else s
    case AddContent(c) => if ContentOf(s.contents, c.raw).None? then s.(contents := s.contents + [c]) else s
    case PutContent(k, c) =>
      if k < |s.contents| && !ContentTaken(s.links, k) && (ContentOf(s.contents, c.raw) == None || c.raw == s.contents[k].raw)
      then s.(contents := s.contents[k := c]) else s
  }

  datatype Action =
    | Discovers(i: nat)
    | Claims(i: nat, now: int)
    | Links(i: nat, now: int)
    | Retries(i: nat, now: int)
    | Terminates(i: nat, now: int)
    | Recovers(i: nat, now: int)
    | Changes(change: Change)

  function Step(c: Limits, s: State, a: Action): (n: State)
    requires Sized(s)
  {
    match a
    case Discovers(i) => Discover(s, i)
    case Claims(i, now) => Claim(s, i, now)
    case Links(i, now) => LinkOne(s, i, now)
    case Retries(i, now) => RetryLink(c, s, i, now)
    case Terminates(i, now) => Terminal(s, i, now)
    case Recovers(i, now) => RecoverStale(c, s, i, now)
    case Changes(m) => Mutate(s, m)
  }

  lemma StepSized(c: Limits, s: State, a: Action)
    requires Sized(s)
    ensures Sized(Step(c, s, a)) && |s.links| <= |Step(c, s, a).links|
  {
    if a.Links? && CommitsLink(s, a.i, a.now) { PrepareSized(s, a.i); }
  }

  function Exec(c: Limits, s: State, acts: seq<Action>): (n: State)
    requires Sized(s)
    ensures Sized(n) && |s.links| <= |n.links|
  {
    if acts == [] then s
    else
      var before := Exec(c, s, acts[..|acts| - 1]);
      StepSized(c, before, acts[|acts| - 1]);
      Step(c, before, acts[|acts| - 1])
  }
}
