/**
 What a link transaction writes, on the columns of the rows, and when the first projection of a raw item is linked.
 */
module HandoffLinks {
  import opened Keys
  import opened Continuation
  import opened EvidencePolicy
  import opened Handoff
  import opened HandoffSafety
  import opened HandoffTheorems

  /** Operations, contract versions and retention classes that may become evidence, with the access they give. */
  predicate Permits(provider: Provider, op: Operation, version: nat, retention: Retention, access: Access) {
    || (provider == Marketaux && op == NewsAll && 1 <= version <= 2 && retention != RetainOther && access == LinkOnly)
    || (provider == Finnhub && op == Quote && version == 1 && retention == RetainMetadata && access == Licensed)
    || (provider == Finnhub && op == CompanyNews && version == 2 && retention != RetainOther && access == Licensed)
    || (provider == Eia && op == Operation.RetailSales && 1 <= version <= 2 && retention == RetainMetadata && access == PublicSummary)
    || (provider == Eia && op == Operation.RtoRegion && version == 2 && retention == RetainMetadata && access == PublicSummary)
    || (provider == SecEdgarGov && op == Submissions && 1 <= version <= 2 && retention != RetainOther && access == LinkOnly)
  }

  /** A READY, canonical projection with its own hash, consistent provenance and a permitted operation. */
  predicate Supported(p: Projection, raw: Raw) {
    && p.ready && p.normal && Shape(p.op, p.fact) && p.hash == Digest(p.fact) && p.observation.consistent
    && raw.sourceProvider == p.provider && raw.sourceRetention == raw.retention
    && exists access :: Permits(p.provider, p.op, p.observation.contractVersion, raw.retention, access)
  }

  lemma SupportedExact(p: Projection, raw: Raw)
    ensures Eligible(p, raw) <==> Supported(p, raw)
    ensures Eligible(p, raw) ==>
              Permits(p.provider, p.op, p.observation.contractVersion, raw.retention, PolicyOf(p.provider, p.op).value.access)
  {
    if Eligible(p, raw) {
      assert Permits(p.provider, p.op, p.observation.contractVersion, raw.retention, PolicyOf(p.provider, p.op).value.access);
    }
  }

  /** No other row of the provider carries the identity or the hash. */
  predicate NoTwin(rows: seq<Evidence>, p: Projection) {
    forall k :: 0 <= k < |rows| && rows[k].provider == p.provider ==> rows[k].itemId != p.fact.itemId && rows[k].itemHash != p.hash
  }

  /** No other content row of the source carries the identity, and none the URL. */
  predicate NoContentTwin(rows: seq<Content>, source: nat, id: ItemId, url: Option<string>) {
    forall k :: 0 <= k < |rows| ==>
      !(rows[k].source == source && rows[k].externalId == Some(id)) && (url.Some? ==> rows[k].canonicalUrl != url)
  }

  /** The evidence a link points at: a new row no row stood in the way of, or the only row of its raw item and provider. */
  predicate EvidenceWritten(s: State, n: State, i: nat, e: nat)
    requires Sized(s) && i < |s.projections|
  {
    var p, raw := s.projections[i], RawOf(s, i);
    if |n.evidence| > |s.evidence| then
      && e == |s.evidence| && |n.evidence| == e + 1 && n.evidence[..e] == s.evidence && NoTwin(s.evidence, p)
      && (forall k :: 0 <= k < |s.evidence| ==> !(s.evidence[k].raw == p.raw && s.evidence[k].provider == p.provider))
      && var row := n.evidence[e];
         && row.raw == p.raw && row.provider == p.provider && row.source == raw.source && row.account == raw.account
         && row.itemId == p.fact.itemId && row.itemHash == Digest(p.fact)
         && Permits(p.provider, p.op, p.observation.contractVersion, raw.retention, row.access)
    else
      && n.evidence == s.evidence && e < |s.evidence| && s.evidence[e].raw == p.raw && s.evidence[e].provider == p.provider
      && (forall k :: 0 <= k < |s.evidence| && s.evidence[k].raw == p.raw && s.evidence[k].provider == p.provider ==> k == e)
  }

  /** The content, likewise. */
  predicate ContentWritten(s: State, n: State, i: nat, c: Option<nat>)
    requires Sized(s) && i < |s.projections|
  {
    var p, raw := s.projections[i], RawOf(s, i);
    if |n.contents| > |s.contents| then
      && c == Some(|s.contents|) && |n.contents| == |s.contents| + 1 && n.contents[..|s.contents|] == s.contents
      && (forall k :: 0 <= k < |s.contents| ==> s.contents[k].raw != p.raw)
      && var row := n.contents[|s.contents|];
         && row.raw == p.raw && row.source == raw.source && row.account == raw.account && row.externalId == Some(p.fact.itemId)
         && NoContentTwin(s.contents, raw.source, p.fact.itemId, row.canonicalUrl)
    else
      n.contents == s.contents && (c.Some? ==> c.value < |s.contents| && s.contents[c.value].raw == p.raw)
  }

  lemma EvidenceChosen(s: State, i: nat, c: Option<nat>)
    requires Sized(s) && i < |s.projections| && Eligible(s.projections[i], RawOf(s, i))
    ensures var choice, n := ChooseEvidence(s, i, c), s.evidence;
            && (choice.Use? ==> EvidenceWritten(s, s, i, choice.row))
            && (choice.Insert? ==> EvidenceWritten(s, s.(evidence := s.evidence + [choice.new_]), i, |s.evidence|))
  {
    var p := s.projections[i];
    var existing := EvidenceOf(s.evidence, p.raw, p.provider);
    SupportedExact(p, RawOf(s, i));
    if |existing| == 1 {
      assert existing[0] in existing;
      forall k | 0 <= k < |s.evidence| && s.evidence[k].raw == p.raw && s.evidence[k].provider == p.provider ensures k == existing[0] {
        assert k in existing;
      }
    }
  }

  lemma ContentChosenRow(s: State, i: nat)
    requires Sized(s) && i < |s.projections| && Eligible(s.projections[i], RawOf(s, i))
    requires !ChooseContent(s, i).Refuse? && !ChooseContent(s, i).Break?
    ensures ContentWritten(s, WithContent(s, ChooseContent(s, i)), i, ContentId(s, ChooseContent(s, i)))
  {
  }

  /**
   A committed link: only for a supported projection, to a new evidence row whose identity and hash were free or to the only
   row of its raw item and provider, and the same for content; the attempt count stays and no other link changes.
   */
  lemma LinkWrites(s: State, i: nat, now: int)
    requires Sized(s) && CommitsLink(s, i, now)
    ensures var n := LinkOne(s, i, now);
            && Supported(s.projections[i], RawOf(s, i))
            && |n.links| == |s.links| && n.links == s.links[i := n.links[i]]
            && n.projections == s.projections && n.raws == s.raws
            && var l := n.links[i];
               && l.status.Linked? && l.attempts == s.links[i].attempts && l.retryAt.None? && l.evidence.Some?
               && EvidenceWritten(s, n, i, l.evidence.value) && ContentWritten(s, n, i, l.content)
  {
    PrepareSized(s, i);
    SupportedExact(s.projections[i], RawOf(s, i));
    ContentChosenRow(s, i);
    EvidenceChosen(WithContent(s, ChooseContent(s, i)), i, ContentId(s, ChooseContent(s, i)));
  }

  /** An unsupported projection is a conflict, which blocks its link. */
  lemma UnsupportedConflicts(s: State, i: nat)
    requires Sized(s) && i < |s.projections| && !Supported(s.projections[i], RawOf(s, i))
    ensures Prepare(s, i).Conflict?
  {
    SupportedExact(s.projections[i], RawOf(s, i));
  }

  /** The URL of the content row the projection would create, when it would create one. */
  function NewUrl(p: Projection): (url: Option<string>) {
    if p.op.Submissions? then p.fact.officialUrl
    else if (p.op.NewsAll? || p.op.CompanyNews?) && Text(p.fact.title) && Text(p.fact.canonicalUrl) && Text(p.fact.sourceIdentity)
    then p.fact.canonicalUrl else None
  }

  lemma FirstContent(s: State, i: nat)
    requires Ok(s) && i < |s.links| && Supported(s.projections[i], RawOf(s, i))
    requires forall k :: 0 <= k < |s.contents| ==> s.contents[k].raw != s.projections[i].raw
    ensures var choice, url := ChooseContent(s, i), NewUrl(s.projections[i]);
            && !choice.Refuse? && !choice.Use?
            && (choice.Break? <==> url.Some? && !NoContentTwin(s.contents, RawOf(s, i).source, s.projections[i].fact.itemId, url))
  {
    SupportedExact(s.projections[i], RawOf(s, i));
  }

  lemma {:induction false} NoEvidenceOf(rows: seq<Evidence>, raw: nat, provider: Provider)
    requires forall k :: 0 <= k < |rows| ==> !(rows[k].raw == raw && rows[k].provider == provider)
    ensures EvidenceOf(rows, raw, provider) == []
  {
    if rows != [] { NoEvidenceOf(rows[..|rows| - 1], raw, provider); }
  }

  /**
   The first projection of a raw item without evidence or content: it is linked iff it is supported, no evidence row of its
   provider carries its identity or hash, and no content row stands where it would put its own. The triggers never object.
   */
  lemma FirstLinkExact(s: State, i: nat, now: int)
    requires Ok(s) && FreshLink(s, i)
    requires forall k :: 0 <= k < |s.evidence| ==> !(s.evidence[k].raw == s.projections[i].raw && s.evidence[k].provider == s.projections[i].provider)
    requires forall k :: 0 <= k < |s.contents| ==> s.contents[k].raw != s.projections[i].raw
    ensures var p, raw := s.projections[i], RawOf(s, i);
            CommitsLink(s, i, now) <==>
            && Supported(p, raw) && NoTwin(s.evidence, p)
            && (NewUrl(p).Some? ==> NoContentTwin(s.contents, raw.source, p.fact.itemId, NewUrl(p)))
  {
    var p := s.projections[i];
    SupportedExact(p, RawOf(s, i));
    if Supported(p, RawOf(s, i)) {
      FirstContent(s, i);
      NoEvidenceOf(s.evidence, p.raw, p.provider);
      assert EvidenceClash(s.evidence, p) <==> !NoTwin(s.evidence, p);
    }
    if Prepare(s, i).Ready? { TriggersAgainstPython(s, i, now); }
  }

  /**
   Adoption: Python accepts an evidence row for its origin iff every column restates the origin and the row carries the plain
   identity with the operation's access, or, for the four operations with an earlier mapper, the identity that mapper gave
   the item, with link-only access.
   */
  lemma AdoptionExact(e: Evidence, p: Projection, raw: Raw)
    requires Supported(p, raw)
    ensures Agrees(e, p, raw) <==>
            && e.raw == p.raw && e.provider == p.provider && e.source == raw.source && e.account == raw.account
            && e.facts == ExpectedFacts(p, PolicyOf(p.provider, p.op).value)
            && (|| (e.itemId == p.fact.itemId && Permits(p.provider, p.op, p.observation.contractVersion, raw.retention, e.access))
                || (&& (p.op == NewsAll || p.op == Quote || p.op == Operation.RetailSales || p.op == Submissions)
                    && p.fact.legacy == Some(e.itemId) && e.itemId != p.fact.itemId && e.access == LinkOnly))
  {
    SupportedExact(p, raw);
  }
}
