/**
 The factual operation policy in its two forms: the checks of src/market_intelligence/evidence/handoff.py and the
 triggers of alembic/versions/0009 and 0010.

 A `Fact` is a canonical factual payload; its hash is an injective constructor. Source rows are folded into the raw
 items they own; run, account and target rows are folded into one flag of the observation.
 */
module EvidencePolicy {
  import opened Keys
  import opened Continuation

  datatype Provider = Marketaux | Finnhub | Eia | SecEdgarGov
  datatype Operation = NewsAll | Quote | CompanyNews | RetailSales | RtoRegion | Submissions
  datatype Retention = RetainLink | RetainMetadata | RetainOther
  datatype Access = LinkOnly | Licensed | PublicSummary | OtherAccess
  datatype ItemType = MarketauxItem | QuoteItem | CompanyNewsItem | EiaItem | FilingItem
  datatype Kind = NewsKind | MarketKind | EnergyKind | DisclosureKind
  datatype ContentKind = Article | OfficialRelease | OtherKind

  datatype Policy = Policy(itemType: ItemType, kind: Kind, sourceType: Kind, access: Access,
                           content: Option<ContentKind>, retention: set<Retention>)

  /** factual_operation_policy; `None` for an unsupported pair. */
  function PolicyOf(provider: Provider, op: Operation): (r: Option<Policy>) {
    match (provider, op)
    case (Marketaux, NewsAll) =>
      Some(Policy(MarketauxItem, NewsKind, NewsKind, LinkOnly, Some(Article), {RetainLink, RetainMetadata}))
    case (Finnhub, Quote) =>
      Some(Policy(QuoteItem, MarketKind, MarketKind, Licensed, None, {RetainMetadata}))
    case (Finnhub, CompanyNews) =>
      Some(Policy(CompanyNewsItem, NewsKind, NewsKind, Licensed, Some(Article), {RetainMetadata, RetainLink}))
    case (Eia, RetailSales) =>
      Some(Policy(EiaItem, EnergyKind, EnergyKind, PublicSummary, None, {RetainMetadata}))
    case (Eia, RtoRegion) =>
      Some(Policy(EiaItem, EnergyKind, EnergyKind, PublicSummary, None, {RetainMetadata}))
    case (SecEdgarGov, Submissions) =>
      Some(Policy(FilingItem, DisclosureKind, DisclosureKind, LinkOnly, Some(OfficialRelease), {RetainLink, RetainMetadata}))
    case _ => None
  }

  predicate SupportsVersion(op: Operation, version: nat) {
    match op
    case CompanyNews => version == 2
    case RtoRegion => version == 2
    case Quote => version == 1
    case _ => version == 1 || version == 2
  }

  /** Provider identities by the pattern they match: provider-item: with 64 hex digits, another Marketaux identity
      pattern, or neither. */
  datatype ItemId = Opaque(digest: string) | Regular(text: string) | Irregular(text: string)

  /** `legacy` is the opaque identity an earlier mapper would have given the item, when it has one. */
  datatype Fact = Fact(itemId: ItemId, publishedAt: int, title: Option<string>, canonicalUrl: Option<string>,
                       officialUrl: Option<string>, sourceIdentity: Option<string>, language: Option<string>,
                       form: Option<string>, legacy: Option<ItemId>)

  datatype Raw = Raw(source: nat, account: Option<nat>, retention: Retention, fetchedAt: int,
                     sourceProvider: Provider, sourceRetention: Retention)

  /** `consistent` says run, account, target and the observation's own copies agree with the raw item. */
  datatype Observation = Observation(observedAt: int, contractVersion: nat, consistent: bool)

  /** `normal` says the payload is a fixed point of the normaliser with the declared quality. */
  datatype Projection = Projection(raw: nat, provider: Provider, op: Operation, fact: Fact, hash: Digest<Fact>,
                                   ready: bool, normal: bool, observation: Observation)

  datatype Flags = Flags(official: bool, market: bool, disclosure: bool, news: bool)
  datatype Presence = Presence(title: bool, body: bool, url: bool, snippet: bool, description: bool)
  datatype Numeric = Numeric(present: bool, count: nat, nullable: bool)

  /** The columns of an evidence row that restate its origin. */
  datatype Facts = Facts(itemType: ItemType, kind: Kind, sourceType: Kind, eventTime: Option<int>, observedAt: int,
                         validated: bool, flags: Flags, presence: Presence, numeric: Numeric)

  datatype Evidence = Evidence(raw: nat, provider: Provider, source: nat, account: Option<nat>, content: Option<nat>,
                               itemId: ItemId, itemHash: Digest<Fact>, access: Access, facts: Facts)

  datatype Metadata = Metadata(provider: Provider, op: Operation, retention: Retention)

  /** `bare` says body, summary, author, hash, update time and reply references are null and nothing is deleted;
      `metadata` is `None` when the stored object has other keys. */
  datatype Content = Content(raw: nat, source: nat, account: Option<nat>, kind: ContentKind, externalId: Option<ItemId>,
                             title: Option<string>, originalUrl: Option<string>, canonicalUrl: Option<string>,
                             publishedAt: Option<int>, language: Option<string>, unavailable: bool, bare: bool,
                             metadata: Option<Metadata>)

  /** A value Python reads as true. */
  predicate Text(s: Option<string>) { s.Some? && s.value != "" }

  predicate NullOrText(s: Option<string>) { s.None? || s.value != "" }

  /** [A-Za-z0-9][A-Za-z0-9._:-]{0,254}, which the opaque form also matches. */
  predicate MarketauxId(id: ItemId) { !id.Irregular? }

  /** What the normaliser leaves of a payload: the operation's own fields, and text fields null or not empty. */
  predicate Shape(op: Operation, f: Fact) {
    && NullOrText(f.title) && NullOrText(f.canonicalUrl) && NullOrText(f.officialUrl)
    && NullOrText(f.sourceIdentity) && NullOrText(f.language)
    && (op.NewsAll? ==> MarketauxId(f.itemId))
    && (if op.Submissions? then Text(f.form) && Text(f.officialUrl) && f.canonicalUrl.None? && f.title.None?
        else f.officialUrl.None?)
    && (f.legacy.Some? ==> f.legacy.value.Opaque?)
  }

  /** The contract and provenance checks of `_link_one`. */
  predicate Eligible(p: Projection, raw: Raw) {
    && p.ready && p.normal && Shape(p.op, p.fact) && p.hash == Digest(p.fact)
    && PolicyOf(p.provider, p.op).Some? && SupportsVersion(p.op, p.observation.contractVersion)
    && p.observation.consistent && raw.sourceProvider == p.provider
    && raw.sourceRetention == raw.retention && raw.retention in PolicyOf(p.provider, p.op).value.retention
  }

  /** legacy_provider_item_identity, falling back to the plain identity. */
  function LegacyId(op: Operation, f: Fact): (id: ItemId) {
    if (op.NewsAll? || op.Quote? || op.RetailSales? || op.Submissions?) && f.legacy.Some? then f.legacy.value
    else f.itemId
  }

  predicate ByLegacyId(e: Evidence, op: Operation, f: Fact) {
    e.itemId == LegacyId(op, f) && LegacyId(op, f) != f.itemId
  }

  /** The columns `_evidence` writes, and later expects, for an origin. */
  function ExpectedFacts(p: Projection, policy: Policy): (r: Facts) {
    Facts(policy.itemType, policy.kind, policy.sourceType, Some(p.fact.publishedAt), p.observation.observedAt, true,
          Flags(p.provider.Eia? || p.provider.SecEdgarGov?, p.op.Quote?, p.provider.SecEdgarGov?, policy.kind.NewsKind?),
          Presence(Text(p.fact.title), false, Text(p.fact.canonicalUrl) || Text(p.fact.officialUrl), false, false),
          Numeric(p.op.Quote? || p.provider.Eia?, if p.op.Quote? then 7 else if p.provider.Eia? then 1 else 0,
                  p.provider.Eia?))
  }

  /** The comparison of an existing evidence row with its origin, content reference aside. */
  predicate Agrees(e: Evidence, origin: Projection, raw: Raw) {
    var policy := PolicyOf(origin.provider, origin.op);
    && policy.Some? && e.raw == origin.raw && e.provider == origin.provider
    && e.source == raw.source && e.account == raw.account
    && e.facts == ExpectedFacts(origin, policy.value)
    && (e.itemId == origin.fact.itemId || e.itemId == LegacyId(origin.op, origin.fact))
    && e.access == (if ByLegacyId(e, origin.op, origin.fact) then LinkOnly else policy.value.access)
  }

  function NewEvidence(p: Projection, raw: Raw, policy: Policy, content: Option<nat>): (e: Evidence) {
    Evidence(p.raw, p.provider, raw.source, raw.account, content, p.fact.itemId, p.hash, policy.access,
             ExpectedFacts(p, policy))
  }

  /** Python's `a or b` on optional strings. */
  function Or(a: Option<string>, b: Option<string>): (r: Option<string>) { if Text(a) then a else b }

  function TitleOf(provider: Provider, f: Fact): (t: Option<string>) {
    if !provider.SecEdgarGov? then f.title
    else Some("SEC " + (if f.form.Some? then f.form.value else "None") + " filing")
  }

  /** The row `_content` inserts. */
  function NewContent(p: Projection, raw: Raw, kind: ContentKind): (c: Content) {
    var url := if kind.Article? then p.fact.canonicalUrl else p.fact.officialUrl;
    Content(p.raw, raw.source, raw.account, kind, Some(p.fact.itemId), TitleOf(p.provider, p.fact), url, url,
            Some(p.fact.publishedAt), if p.provider.Marketaux? then p.fact.language else None, true, true,
            Some(Metadata(p.provider, p.op, raw.retention)))
  }

  /** _validate_existing_content against the originating projection. */
  predicate ContentAgrees(c: Content, origin: Projection, raw: Raw, rawId: nat, kind: ContentKind) {
    var url := Or(origin.fact.canonicalUrl, origin.fact.officialUrl);
    && c.source == raw.source && c.account == raw.account && c.raw == rawId && c.kind == kind
    && c.externalId == Some(origin.fact.itemId) && c.title == TitleOf(origin.provider, origin.fact)
    && c.originalUrl == url && c.canonicalUrl == url && c.publishedAt == Some(origin.fact.publishedAt)
    && c.language == (if origin.provider.Marketaux? then origin.fact.language else None)
    && c.unavailable && c.bare && c.metadata == Some(Metadata(origin.provider, origin.op, raw.retention))
  }

  // The same policy as the database states it.

  /** 'linked_operation_policy_invalid' */
  predicate OperationGuard(p: Projection, raw: Raw, e: Evidence, content: Option<nat>) {
    var f := e.facts;
    && raw.sourceRetention == raw.retention
    && (|| ((p.provider.Marketaux? || p.provider.SecEdgarGov?) && (raw.retention.RetainLink? || raw.retention.RetainMetadata?))
        || (p.provider.Eia? && raw.retention.RetainMetadata?)
        || (p.provider.Finnhub? && p.op.Quote? && raw.retention.RetainMetadata?)
        || (p.provider.Finnhub? && p.op.CompanyNews? && (raw.retention.RetainMetadata? || raw.retention.RetainLink?)))
    && e.raw == p.raw && e.source == raw.source && e.account == raw.account && e.provider == p.provider
    && f.validated && f.eventTime.Some?
    && f.flags.official == (p.provider.Eia? || p.provider.SecEdgarGov?)
    && f.flags.market == (p.provider.Finnhub? && p.op.Quote?)
    && f.flags.disclosure == p.provider.SecEdgarGov?
    && f.flags.news == (p.op.NewsAll? || p.op.CompanyNews?)
    && (PlainOperation(p, e, content) || LegacyOperation(p, e, content))
  }

  predicate PlainOperation(p: Projection, e: Evidence, content: Option<nat>) {
    var f := e.facts;
    || (p.provider.Marketaux? && p.op.NewsAll? && MarketauxId(p.fact.itemId) && f.itemType.MarketauxItem?
        && f.kind.NewsKind? && f.sourceType.NewsKind? && e.access.LinkOnly?)
    || (p.provider.Finnhub? && p.op.Quote? && f.itemType.QuoteItem? && f.kind.MarketKind? && f.sourceType.MarketKind?
        && e.access.Licensed? && e.content.None? && content.None?)
    || (p.provider.Finnhub? && p.op.CompanyNews? && f.itemType.CompanyNewsItem? && f.kind.NewsKind?
        && f.sourceType.NewsKind? && e.access.Licensed?)
    || (p.provider.Eia? && (p.op.RetailSales? || p.op.RtoRegion?) && f.itemType.EiaItem? && f.kind.EnergyKind?
        && f.sourceType.EnergyKind? && e.access.PublicSummary? && e.content.None? && content.None?)
    || (p.provider.SecEdgarGov? && p.op.Submissions? && f.itemType.FilingItem? && f.kind.DisclosureKind?
        && f.sourceType.DisclosureKind? && e.access.LinkOnly?)
  }

  predicate LegacyOperation(p: Projection, e: Evidence, content: Option<nat>) {
    var f := e.facts;
    && e.itemId.Opaque? && e.access.LinkOnly?
    && (|| (p.provider.Marketaux? && p.op.NewsAll? && f.itemType.MarketauxItem? && f.kind.NewsKind? && f.sourceType.NewsKind?)
        || (p.provider.Finnhub? && p.op.Quote? && f.itemType.QuoteItem? && f.kind.MarketKind? && f.sourceType.MarketKind?
            && e.content.None? && content.None?)
        || (p.provider.Eia? && p.op.RetailSales? && f.itemType.EiaItem? && f.kind.EnergyKind? && f.sourceType.EnergyKind?
            && e.content.None? && content.None?)
        || (p.provider.SecEdgarGov? && p.op.Submissions? && f.itemType.FilingItem? && f.kind.DisclosureKind?
            && f.sourceType.DisclosureKind?))
  }

  /** 'linked_evidence_identity_policy_invalid': presence, numbers and identity against the canonical origin. */
  predicate IdentityGuard(p: Projection, e: Evidence, origin: Projection) {
    var f := e.facts;
    && f.eventTime == Some(origin.fact.publishedAt) && f.observedAt == origin.observation.observedAt
    && f.presence == Presence(Coalesce(origin.fact.title) != "", false,
                              Coalesce(origin.fact.canonicalUrl) != "" || Coalesce(origin.fact.officialUrl) != "", false, false)
    && f.numeric == Numeric(p.op.Quote? || p.provider.Eia?, if p.op.Quote? then 7 else if p.provider.Eia? then 1 else 0,
                            p.provider.Eia?)
    && Identified(e, p.op, origin)
  }

  function Coalesce(s: Option<string>): (r: string) { if s.Some? then s.value else "" }

  /** Plain identity with the origin's hash, or the recomputed legacy identity under link-only access. */
  predicate Identified(e: Evidence, op: Operation, origin: Projection) {
    || (e.itemId == origin.fact.itemId && e.itemHash == origin.hash)
    || ((op.NewsAll? || op.Quote? || op.RetailSales? || op.Submissions?) && (op.NewsAll? ==> MarketauxId(origin.fact.itemId))
        && e.access.LinkOnly? && origin.fact.legacy == Some(e.itemId))
  }

  /** 'linked_content_field_policy_invalid' */
  predicate ContentGuard(c: Content, origin: Projection, retention: Retention) {
    && c.bare && c.metadata == Some(Metadata(origin.provider, origin.op, retention))
    && (origin.provider.Marketaux? ==> c.language == origin.fact.language)
    && (origin.provider.Finnhub? || origin.provider.SecEdgarGov? ==> c.language.None?)
    && c.unavailable && c.publishedAt == Some(origin.fact.publishedAt)
    && c.originalUrl == (if origin.fact.canonicalUrl.Some? then origin.fact.canonicalUrl else origin.fact.officialUrl)
    && c.canonicalUrl == c.originalUrl && c.externalId == Some(origin.fact.itemId)
    && (origin.provider.Marketaux? || origin.provider.Finnhub? ==> c.kind.Article? && c.title == origin.fact.title)
    && (origin.provider.SecEdgarGov? ==>
          c.kind.OfficialRelease? && c.title == Some("SEC " + Coalesce(origin.fact.form) + " filing"))
  }

  /** 'linked_content_required': operations that may not link without content. */
  predicate ContentRequired(p: Projection) {
    || (p.provider.Marketaux? && p.op.NewsAll? && p.fact.title.Some? && p.fact.canonicalUrl.Some? && p.fact.sourceIdentity.Some?)
    || (p.provider.Finnhub? && p.op.CompanyNews? && p.fact.title.Some? && p.fact.canonicalUrl.Some? && p.fact.sourceIdentity.Some?)
    || p.provider.SecEdgarGov?
  }

  /** Agreement in Python's form gives the operation guard. */
  lemma AgreesPassesOperation(e: Evidence, p: Projection, origin: Projection, raw: Raw, content: Option<nat>)
    requires Eligible(p, raw) && Eligible(origin, raw) && origin.raw == p.raw && origin.provider == p.provider && origin.op == p.op
    requires Agrees(e, origin, raw)
    requires PolicyOf(p.provider, p.op).value.content.None? ==> e.content.None? && content.None?
    ensures OperationGuard(p, raw, e, content)
  {
  }

  /** The stored hash is the origin's, or the stored identity is the origin's legacy one. */
  predicate HashOrLegacy(e: Evidence, origin: Projection) {
    e.itemHash == origin.hash || (e.access.LinkOnly? && origin.fact.legacy == Some(e.itemId))
  }

  /** The two identity checks differ in one point: Python does not compare the stored hash of a plain identity. */
  lemma AgreesIdentity(e: Evidence, p: Projection, origin: Projection, raw: Raw)
    requires Eligible(p, raw) && Eligible(origin, raw) && origin.provider == p.provider && origin.op == p.op
    requires Agrees(e, origin, raw)
    ensures IdentityGuard(p, e, origin) <==> HashOrLegacy(e, origin)
  {
  }

  /** The two content checks agree on every canonical payload. */
  lemma ContentAgreesPasses(c: Content, origin: Projection, raw: Raw, kind: ContentKind)
    requires Eligible(origin, raw) && PolicyOf(origin.provider, origin.op).value.content == Some(kind)
    requires c.source == raw.source && c.account == raw.account && c.raw == origin.raw
    ensures ContentAgrees(c, origin, raw, origin.raw, kind) <==> ContentGuard(c, origin, raw.retention)
  {
  }

  const SAMPLE_RAW := Raw(0, None, RetainLink, 0, Marketaux, RetainLink)
  const SAMPLE_FACT := Fact(Regular("a1"), 0, None, None, None, None, None, None, None)
  const SAMPLE := Projection(0, Marketaux, NewsAll, SAMPLE_FACT, Digest(SAMPLE_FACT), true, true, Observation(0, 2, true))

  /** The case that separates the two forms: an adopted row with the plain identity and the hash of an earlier payload. */
  lemma PlainAdoptionRefused()
    ensures var e := NewEvidence(SAMPLE, SAMPLE_RAW, PolicyOf(Marketaux, NewsAll).value, None)
                     .(itemHash := Digest(SAMPLE_FACT.(publishedAt := 1)));
            Eligible(SAMPLE, SAMPLE_RAW) && Agrees(e, SAMPLE, SAMPLE_RAW) && !IdentityGuard(SAMPLE, e, SAMPLE)
  {
  }
}
