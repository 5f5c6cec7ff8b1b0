/**
 What every reachable handoff state satisfies: canonical origins are unique, stored rows agree with their own origin,
 and attempts are bounded.
 */
module HandoffSafety {
  import opened Keys
  import opened EvidencePolicy
  import opened Handoff

  function KindOf(p: Projection): (k: Option<ContentKind>) {
    if PolicyOf(p.provider, p.op).None? then None else PolicyOf(p.provider, p.op).value.content
  }

  /** References exist exactly on LINKED rows, and point at rows. */
  predicate LinkShape(s: State, l: Link) {
    && (l.status.Linked? <==> l.evidence.Some?)
    && (l.content.Some? ==> l.status.Linked?)
    && (l.canonicalEvidence ==> l.status.Linked?) && (l.canonicalContent ==> l.content.Some?)
    && (l.evidence.Some? ==> l.evidence.value < |s.evidence|)
    && (l.content.Some? ==> l.content.value < |s.contents|)
  }

  predicate SameIdentity(p: Projection, o: Projection) {
    p.raw == o.raw && p.provider == o.provider && p.op == o.op && p.fact.itemId == o.fact.itemId
  }

  predicate HasEvidenceOrigin(s: State, e: nat, p: Projection)
    requires Sized(s)
  {
    exists o :: 0 <= o < |s.links| && IsEvidenceOrigin(s.links[o], e) && SameIdentity(p, s.projections[o])
  }

  predicate HasContentOrigin(s: State, c: nat) {
    exists o :: 0 <= o < |s.links| && IsContentOrigin(s.links[o], c)
  }

  /** The evidence and content rows of a link belong to its raw item. */
  predicate Fits(p: Projection, content: Option<nat>, e: Evidence) {
    e.raw == p.raw && e.provider == p.provider && ContentFits(e, content) && (KindOf(p).None? ==> content.None?)
  }

  /** A LINKED row: its own projection is still eligible, and its evidence and content each have an origin. */
  predicate LinkedOk(s: State, i: nat)
    requires Sized(s) && i < |s.links|
  {
    var l, p := s.links[i], s.projections[i];
    && LinkShape(s, l) && l.evidence.Some?
    && Eligible(p, RawOf(s, i)) && Fits(p, l.content, s.evidence[l.evidence.value])
    && HasEvidenceOrigin(s, l.evidence.value, p)
    && (l.content.Some? ==> s.contents[l.content.value].raw == p.raw && HasContentOrigin(s, l.content.value))
  }

  /** A canonical row: the stored evidence or content says what its projection says. */
  predicate OriginOk(s: State, i: nat)
    requires Sized(s) && i < |s.links|
  {
    var l, p, raw := s.links[i], s.projections[i], RawOf(s, i);
    && (l.canonicalEvidence ==>
          && l.evidence.Some? && l.evidence.value < |s.evidence|
          && Agrees(s.evidence[l.evidence.value], p, raw) && HashOrLegacy(s.evidence[l.evidence.value], p))
    && (l.canonicalContent ==>
          && l.content.Some? && l.content.value < |s.contents|
          && KindOf(p).Some? && ContentAgrees(s.contents[l.content.value], p, raw, p.raw, KindOf(p).value))
  }

  predicate SameSource(p: Projection, q: Projection) { p.raw == q.raw && p.provider == q.provider }

  /** One origin per evidence row and per content row; one evidence row per raw item and provider. */
  predicate PairOk(s: State, i: nat, j: nat)
    requires Sized(s) && i < |s.links| && j < |s.links|
  {
    var a, b := s.links[i], s.links[j];
    && (a.canonicalEvidence && b.canonicalEvidence ==> a.evidence != b.evidence)
    && (a.canonicalContent && b.canonicalContent ==> a.content != b.content)
    && (a.status.Linked? && b.status.Linked? && SameSource(s.projections[i], s.projections[j]) ==> a.evidence == b.evidence)
  }

  predicate LinksOk(s: State)
    requires Sized(s)
  {
    && (forall i {:trigger LinkShape(s, s.links[i])} :: 0 <= i < |s.links| ==> LinkShape(s, s.links[i]))
    && (forall i {:trigger LinkedOk(s, i)} :: 0 <= i < |s.links| && s.links[i].status.Linked? ==> LinkedOk(s, i))
    && (forall i {:trigger OriginOk(s, i)} :: 0 <= i < |s.links| ==> OriginOk(s, i))
    && (forall i, j {:trigger PairOk(s, i, j)} :: 0 <= i < j < |s.links| ==> PairOk(s, i, j))
  }

  predicate ContentsOk(s: State) {
    forall a, b :: 0 <= a < b < |s.contents| ==> s.contents[a].raw != s.contents[b].raw
  }

  predicate Ok(s: State) {
    Sized(s) && LinksOk(s) && ContentsOk(s)
  }

  /** Two states whose LINKED rows, and everything they point at, are the same. */
  predicate Preserves(s: State, t: State)
    requires Sized(s) && Sized(t)
  {
    && |s.links| <= |t.links|
    && (forall i :: 0 <= i < |t.links| ==> i < |s.links| || !t.links[i].status.Linked?)
    && (forall i {:trigger SameLinked(s, t, i)} :: 0 <= i < |s.links| ==> SameLinked(s, t, i))
  }

  predicate SameLinked(s: State, t: State, i: nat)
    requires Sized(s) && Sized(t) && i < |s.links| <= |t.links|
  {
    var a, b := s.links[i], t.links[i];
    && a.status.Linked? == b.status.Linked? && a.evidence == b.evidence && a.content == b.content
    && a.canonicalEvidence == b.canonicalEvidence && a.canonicalContent == b.canonicalContent
    && (a.status.Linked? ==>
          && t.projections[i] == s.projections[i] && RawOf(t, i) == RawOf(s, i)
          && (a.evidence.Some? && a.evidence.value < |s.evidence| ==>
                a.evidence.value < |t.evidence| && t.evidence[a.evidence.value] == s.evidence[a.evidence.value])
          && (a.content.Some? && a.content.value < |s.contents| ==>
                a.content.value < |t.contents| && t.contents[a.content.value] == s.contents[a.content.value]))
  }

  /** Rows beyond the old links carry no references. */
  predicate NewBlank(s: State, t: State)
  {
    forall i :: |s.links| <= i < |t.links| ==> t.links[i] == ABSENT
  }

  lemma OriginsStay(s: State, t: State, p: Projection)
    requires Sized(s) && Sized(t) && Preserves(s, t)
    ensures forall e :: HasEvidenceOrigin(s, e, p) ==> HasEvidenceOrigin(t, e, p)
    ensures forall c :: HasContentOrigin(s, c) ==> HasContentOrigin(t, c)
  {
    forall e | HasEvidenceOrigin(s, e, p) ensures HasEvidenceOrigin(t, e, p) {
      var o :| 0 <= o < |s.links| && IsEvidenceOrigin(s.links[o], e) && SameIdentity(p, s.projections[o]);
      assert SameLinked(s, t, o) && IsEvidenceOrigin(t.links[o], e);
    }
    forall c | HasContentOrigin(s, c) ensures HasContentOrigin(t, c) {
      var o :| 0 <= o < |s.links| && IsContentOrigin(s.links[o], c);
      assert SameLinked(s, t, o) && IsContentOrigin(t.links[o], c);
    }
  }

  lemma LinkedStays(s: State, t: State, i: nat)
    requires Sized(s) && Sized(t) && Preserves(s, t) && i < |s.links| && s.links[i].status.Linked? && LinkedOk(s, i)
    ensures LinkedOk(t, i)
  {
    assert SameLinked(s, t, i);
    OriginsStay(s, t, s.projections[i]);
  }

  lemma PreservesOk(s: State, t: State)
    requires Sized(s) && Sized(t) && LinksOk(s) && Preserves(s, t) && NewBlank(s, t)
    ensures LinksOk(t)
  {
    forall i | 0 <= i < |t.links|
      ensures LinkShape(t, t.links[i]) && OriginOk(t, i)
      ensures t.links[i].status.Linked? ==> LinkedOk(t, i)
    {
      if i < |s.links| {
        assert SameLinked(s, t, i) && LinkShape(s, s.links[i]) && OriginOk(s, i);
        if s.links[i].status.Linked? { LinkedStays(s, t, i); }
      }
    }
    forall i, j | 0 <= i < j < |t.links| ensures PairOk(t, i, j) {
      if j < |s.links| { assert SameLinked(s, t, i) && SameLinked(s, t, j) && PairOk(s, i, j); }
    }
  }

  /** A taken row has its origin, and only a taken row has one. */
  lemma TakenHasOrigin(s: State, e: nat)
    requires Sized(s) && LinksOk(s)
    ensures EvidenceTaken(s.links, e) <==> EvidenceOrigin(s.links, e).Some?
    ensures ContentTaken(s.links, e) <==> ContentOrigin(s.links, e).Some?
  {
    if EvidenceTaken(s.links, e) {
      var k :| 0 <= k < |s.links| && s.links[k].status.Linked? && s.links[k].evidence == Some(e);
      assert LinkedOk(s, k);
    }
    if ContentTaken(s.links, e) {
      var k :| 0 <= k < |s.links| && s.links[k].status.Linked? && s.links[k].content == Some(e);
      assert LinkedOk(s, k);
    }
  }

  /** The projection an evidence row is compared with when link i adopts it. */
  function OriginFor(s: State, i: nat, e: nat): (p: Projection)
    requires Sized(s) && i < |s.links|
  {
    var o := EvidenceOrigin(s.links, e);
    if o.Some? then s.projections[o.value] else s.projections[i]
  }

  function ContentOriginFor(s: State, i: nat, c: nat): (p: Projection)
    requires Sized(s) && i < |s.links|
  {
    var o := ContentOrigin(s.links, c);
    if o.Some? then s.projections[o.value] else s.projections[i]
  }

  /** What the prepared transaction establishes about the evidence row. */
  predicate SoundEvidence(s: State, i: nat, e: nat, content: Option<nat>)
    requires Sized(s) && i < |s.links|
  {
    var p := s.projections[i];
    && e < |s.evidence| && Eligible(p, RawOf(s, i)) && Fits(p, content, s.evidence[e])
    && SameIdentity(p, OriginFor(s, i, e)) && Agrees(s.evidence[e], OriginFor(s, i, e), RawOf(s, i))
    && (forall j :: 0 <= j < |s.links| && s.links[j].status.Linked? && SameSource(p, s.projections[j]) ==>
          s.links[j].evidence == Some(e))
  }

  /** And about the content row. */
  predicate SoundContent(s: State, i: nat, content: Option<nat>)
    requires Sized(s) && i < |s.links|
  {
    var p := s.projections[i];
    && (content.None? ==> !ContentRequired(p))
    && (content.Some? ==>
          && content.value < |s.contents| && KindOf(p).Some? && s.contents[content.value].raw == p.raw
          && ContentAgrees(s.contents[content.value], ContentOriginFor(s, i, content.value), RawOf(s, i), p.raw, KindOf(p).value))
  }

  /** One provider per raw item, so content origins share the operation's content kind. */
  lemma ContentOriginKin(s: State, i: nat, c: nat)
    requires Sized(s) && LinksOk(s) && i < |s.links| && Eligible(s.projections[i], RawOf(s, i)) && KindOf(s.projections[i]).Some?
    requires c < |s.contents| && s.contents[c].raw == s.projections[i].raw && ContentOrigin(s.links, c).Some?
    ensures var o := ContentOrigin(s.links, c).value;
            && Eligible(s.projections[o], RawOf(s, i)) && SameSource(s.projections[i], s.projections[o])
            && KindOf(s.projections[o]) == KindOf(s.projections[i]) && s.links[o].status.Linked?
            && s.links[o].content == Some(c)
            && ContentAgrees(s.contents[c], s.projections[o], RawOf(s, i), s.projections[o].raw, KindOf(s.projections[o]).value)
  {
    var o := ContentOrigin(s.links, c).value;
    assert LinkedOk(s, o) && OriginOk(s, o);
  }

  lemma EvidenceOriginKin(s: State, e: nat)
    requires Sized(s) && LinksOk(s) && EvidenceOrigin(s.links, e).Some?
    ensures var o := EvidenceOrigin(s.links, e).value;
            && e < |s.evidence| && Eligible(s.projections[o], RawOf(s, o)) && Agrees(s.evidence[e], s.projections[o], RawOf(s, o))
            && HashOrLegacy(s.evidence[e], s.projections[o]) && s.evidence[e].raw == s.projections[o].raw
  {
    var o := EvidenceOrigin(s.links, e).value;
    assert LinkedOk(s, o) && OriginOk(s, o);
  }

  predicate FreshLink(s: State, i: nat) {
    i < |s.links| && s.links[i].status.Processing?
  }

  /** The row the transaction writes keeps every invariant, provided identity or hash agree. */
  lemma WriteKeeps(s: State, i: nat, e: nat, c: Option<nat>, now: int)
    requires Sized(s) && LinksOk(s) && FreshLink(s, i)
    requires SoundEvidence(s, i, e, c) && SoundContent(s, i, c) && HashOrLegacy(s.evidence[e], OriginFor(s, i, e))
    ensures LinksOk(s.(links := s.links[i := LinkedRow(s.links, s.links[i], e, c, now)]))
  {
    var row := LinkedRow(s.links, s.links[i], e, c, now);
    var t := s.(links := s.links[i := row]);
    TakenHasOrigin(s, e);
    if c.Some? { TakenHasOrigin(s, c.value); }
    assert OriginOk(t, i);
    WriteLinked(s, i, e, c, now);
    forall j | 0 <= j < |t.links| && j != i
      ensures LinkShape(t, t.links[j]) && OriginOk(t, j) && (t.links[j].status.Linked? ==> LinkedOk(t, j))
    {
      assert LinkShape(s, s.links[j]) && OriginOk(s, j);
      if s.links[j].status.Linked? {
        assert LinkedOk(s, j);
        OriginsSurvive(s, i, row, s.projections[j]);
      }
    }
    forall j, k | 0 <= j < k < |t.links| ensures PairOk(t, j, k) {
      assert PairOk(s, j, k);
      WritePairs(s, i, e, c, now, if j == i then k else j);
    }
  }

  lemma OriginsSurvive(s: State, i: nat, row: Link, p: Projection)
    requires Sized(s) && i < |s.links| && !s.links[i].status.Linked?
    ensures var t := s.(links := s.links[i := row]);
            && (forall e :: HasEvidenceOrigin(s, e, p) ==> HasEvidenceOrigin(t, e, p))
            && (forall c :: HasContentOrigin(s, c) ==> HasContentOrigin(t, c))
  {
    var t := s.(links := s.links[i := row]);
    forall e | HasEvidenceOrigin(s, e, p) ensures HasEvidenceOrigin(t, e, p) {
      var o :| 0 <= o < |s.links| && IsEvidenceOrigin(s.links[o], e) && SameIdentity(p, s.projections[o]);
      assert IsEvidenceOrigin(t.links[o], e);
    }
    forall c | HasContentOrigin(s, c) ensures HasContentOrigin(t, c) {
      var o :| 0 <= o < |s.links| && IsContentOrigin(s.links[o], c);
      assert IsContentOrigin(t.links[o], c);
    }
  }

  lemma WriteLinked(s: State, i: nat, e: nat, c: Option<nat>, now: int)
    requires Sized(s) && LinksOk(s) && FreshLink(s, i)
    requires SoundEvidence(s, i, e, c) && SoundContent(s, i, c)
    ensures LinkedOk(s.(links := s.links[i := LinkedRow(s.links, s.links[i], e, c, now)]), i)
  {
    var p, row := s.projections[i], LinkedRow(s.links, s.links[i], e, c, now);
    var t := s.(links := s.links[i := row]);
    TakenHasOrigin(s, e);
    OriginsSurvive(s, i, row, p);
    if row.canonicalEvidence {
      assert IsEvidenceOrigin(t.links[i], e) && SameIdentity(p, t.projections[i]);
    } else {
      assert IsEvidenceOrigin(s.links[EvidenceOrigin(s.links, e).value], e);
      assert HasEvidenceOrigin(s, e, p);
    }
    if c.Some? {
      TakenHasOrigin(s, c.value);
      if row.canonicalContent { assert IsContentOrigin(t.links[i], c.value); }
      else { assert HasContentOrigin(s, c.value); }
    }
  }

  lemma WritePairs(s: State, i: nat, e: nat, c: Option<nat>, now: int, k: nat)
    requires Sized(s) && LinksOk(s) && FreshLink(s, i) && k < |s.links| && k != i && SoundEvidence(s, i, e, c)
    ensures var t := s.(links := s.links[i := LinkedRow(s.links, s.links[i], e, c, now)]);
            PairOk(t, i, k) && PairOk(t, k, i)
  {
    assert LinkShape(s, s.links[k]);
  }
}
