/**
 The handoff over every interleaving of workers, stale recovery and other writers.
 */
module HandoffTheorems {
  import opened Keys
  import opened EvidencePolicy
  import opened Handoff
  import opened HandoffSafety

  /** An inserted row nobody points at changes nothing about the linked ones. */
  lemma AppendKeeps(s: State, t: State)
    requires Ok(s) && Sized(t) && t.links == s.links && t.projections == s.projections && t.raws == s.raws
    requires |s.evidence| <= |t.evidence| && forall k :: 0 <= k < |s.evidence| ==> t.evidence[k] == s.evidence[k]
    requires |s.contents| <= |t.contents| && forall k :: 0 <= k < |s.contents| ==> t.contents[k] == s.contents[k]
    ensures LinksOk(t)
  {
    forall i | 0 <= i < |s.links| ensures SameLinked(s, t, i) {}
    PreservesOk(s, t);
  }

  lemma Unreferenced(s: State)
    requires Ok(s)
    ensures EvidenceOrigin(s.links, |s.evidence|).None? && ContentOrigin(s.links, |s.contents|).None?
  {
    forall k | 0 <= k < |s.links|
      ensures !IsEvidenceOrigin(s.links[k], |s.evidence|) && !IsContentOrigin(s.links[k], |s.contents|)
    {
      assert LinkShape(s, s.links[k]);
    }
  }

  /** The row `_content` creates agrees with the projection it is created from. */
  lemma NewContentAgrees(p: Projection, raw: Raw, kind: ContentKind)
    requires Eligible(p, raw) && KindOf(p) == Some(kind)
    requires kind.Article? ==> Text(p.fact.canonicalUrl)
    ensures ContentAgrees(NewContent(p, raw, kind), p, raw, p.raw, kind)
  {
  }

  lemma NewEvidenceAgrees(p: Projection, raw: Raw, content: Option<nat>)
    requires Eligible(p, raw) && (KindOf(p).None? ==> content.None?)
    ensures var e := NewEvidence(p, raw, PolicyOf(p.provider, p.op).value, content);
            Agrees(e, p, raw) && HashOrLegacy(e, p) && Fits(p, content, e)
  {
  }

  lemma ContentChosen(s: State, i: nat)
    requires Ok(s) && i < |s.links| && Eligible(s.projections[i], RawOf(s, i))
    requires !ChooseContent(s, i).Refuse? && !ChooseContent(s, i).Break?
    ensures var t, c := WithContent(s, ChooseContent(s, i)), ContentId(s, ChooseContent(s, i));
            Ok(t) && SoundContent(t, i, c) && (KindOf(s.projections[i]).None? ==> c.None?)
  {
    var choice := ChooseContent(s, i);
    var t, p := WithContent(s, choice), s.projections[i];
    AppendKeeps(s, t);
    if choice.Insert? {
      Unreferenced(s);
      NewContentAgrees(p, RawOf(s, i), KindOf(p).value);
      assert t.contents[|s.contents|] == choice.new_;
    }
  }

  /** The evidence of a linked row is among the rows a later projection of the same raw item finds. */
  lemma Listed(s: State, j: nat)
    requires Ok(s) && j < |s.links| && s.links[j].status.Linked?
    ensures s.links[j].evidence.Some?
    ensures s.links[j].evidence.value in EvidenceOf(s.evidence, s.projections[j].raw, s.projections[j].provider)
  {
    assert LinkedOk(s, j);
  }

  lemma EvidenceUsed(s: State, i: nat, c: Option<nat>)
    requires Ok(s) && i < |s.links| && Eligible(s.projections[i], RawOf(s, i)) && (KindOf(s.projections[i]).None? ==> c.None?)
    requires ChooseEvidence(s, i, c).Use?
    ensures SoundEvidence(s, i, ChooseEvidence(s, i, c).row, c)
  {
    var p, e := s.projections[i], ChooseEvidence(s, i, c).row;
    var existing := EvidenceOf(s.evidence, p.raw, p.provider);
    assert e in existing;
    forall j | 0 <= j < |s.links| && s.links[j].status.Linked? && SameSource(p, s.projections[j])
      ensures s.links[j].evidence == Some(e)
    {
      Listed(s, j);
    }
    if EvidenceOrigin(s.links, e).Some? { EvidenceOriginKin(s, e); }
  }

  lemma EvidenceInserted(s: State, i: nat, c: Option<nat>)
    requires Ok(s) && i < |s.links| && Eligible(s.projections[i], RawOf(s, i)) && (KindOf(s.projections[i]).None? ==> c.None?)
    requires ChooseEvidence(s, i, c).Insert?
    ensures var t := s.(evidence := s.evidence + [ChooseEvidence(s, i, c).new_]);
            && Ok(t) && SoundEvidence(t, i, |s.evidence|, c)
            && HashOrLegacy(t.evidence[|s.evidence|], OriginFor(t, i, |s.evidence|))
  {
    var p := s.projections[i];
    var t := s.(evidence := s.evidence + [ChooseEvidence(s, i, c).new_]);
    AppendKeeps(s, t);
    Unreferenced(s);
    NewEvidenceAgrees(p, RawOf(s, i), c);
    forall j | 0 <= j < |s.links| && s.links[j].status.Linked? ensures !SameSource(p, s.projections[j]) {
      Listed(s, j);
    }
  }

  /** What the transaction has established when it comes to writing the link. */
  lemma PrepareSound(s: State, i: nat)
    requires Ok(s) && i < |s.links| && Prepare(s, i).Ready?
    ensures var r := Prepare(s, i);
            && Ok(r.s) && i < |r.s.links| && SoundEvidence(r.s, i, r.evidence, r.content) && SoundContent(r.s, i, r.content)
            && (|r.s.evidence| > |s.evidence| ==> HashOrLegacy(r.s.evidence[r.evidence], OriginFor(r.s, i, r.evidence)))
  {
    ContentChosen(s, i);
    var s1, c := WithContent(s, ChooseContent(s, i)), ContentId(s, ChooseContent(s, i));
    var choice := ChooseEvidence(s1, i, c);
    if choice.Use? { EvidenceUsed(s1, i, c); } else { EvidenceInserted(s1, i, c); }
  }

  /** The evidence half of the triggers. */
  lemma EvidenceGuardExact(s: State, i: nat, e: nat, c: Option<nat>)
    requires Ok(s) && i < |s.links| && SoundEvidence(s, i, e, c)
    ensures var p, row := s.projections[i], s.evidence[e];
            && OperationGuard(p, RawOf(s, i), row, c)
            && (IdentityGuard(p, row, OriginFor(s, i, e)) <==> HashOrLegacy(row, OriginFor(s, i, e)))
            && row.facts.itemType == PolicyOf(p.provider, p.op).value.itemType
            && row.source == RawOf(s, i).source && row.account == RawOf(s, i).account
  {
    if EvidenceOrigin(s.links, e).Some? { EvidenceOriginKin(s, e); }
    var p, origin, row := s.projections[i], OriginFor(s, i, e), s.evidence[e];
    AgreesPassesOperation(row, p, origin, RawOf(s, i), c);
    AgreesIdentity(row, p, origin, RawOf(s, i));
  }

  /** The content half of the triggers: whatever `_content` hands over passes. */
  lemma ContentGuardPasses(s: State, i: nat, e: nat, c: nat, row: Link)
    requires Ok(s) && i < |s.links| && SoundEvidence(s, i, e, Some(c)) && SoundContent(s, i, Some(c))
    requires row.evidence == Some(e) && row.content == Some(c)
    ensures var p, content := s.projections[i], s.contents[c];
            && ContentGuard(content, ContentOriginFor(s, i, c), RawOf(s, i).retention)
            && content.source == RawOf(s, i).source && content.account == RawOf(s, i).account
            && Some(content.kind) == KindOf(p)
            && (p.op.Submissions? ==> content.unavailable && content.canonicalUrl.Some? && content.originalUrl == content.canonicalUrl
                                      && (content.canonicalUrl == p.fact.officialUrl || PriorUrl(s, row)))
  {
    var p, origin := s.projections[i], ContentOriginFor(s, i, c);
    if ContentOrigin(s.links, c).Some? {
      ContentOriginKin(s, i, c);
      var o := ContentOrigin(s.links, c).value;
      assert s.links[o].evidence == Some(e);
    }
    ContentAgreesPasses(s.contents[c], origin, RawOf(s, i), KindOf(p).value);
  }

  /** The triggers accept the row Python writes exactly when the stored identity has the origin's hash or is legacy. */
  lemma TriggersExact(s: State, i: nat, e: nat, c: Option<nat>, now: int)
    requires Ok(s) && i < |s.links| && SoundEvidence(s, i, e, c) && SoundContent(s, i, c)
    ensures Guards(s, i, LinkedRow(s.links, s.links[i], e, c, now)) <==> HashOrLegacy(s.evidence[e], OriginFor(s, i, e))
  {
    var row := LinkedRow(s.links, s.links[i], e, c, now);
    EvidenceGuardExact(s, i, e, c);
    TakenHasOrigin(s, e);
    if c.Some? {
      ContentGuardPasses(s, i, e, c.value, row);
      TakenHasOrigin(s, c.value);
    }
    assert ProvenanceGuard(s, i, row);
    assert TransitionGuard(s, i, row) <==> IdentityGuard(s.projections[i], s.evidence[e], OriginFor(s, i, e));
  }

  lemma LinkKeeps(s: State, i: nat, now: int)
    requires Ok(s)
    ensures Ok(LinkOne(s, i, now))
  {
    if CommitsLink(s, i, now) {
      PrepareSized(s, i);
      PrepareSound(s, i);
      var r := Prepare(s, i);
      TriggersExact(r.s, i, r.evidence, r.content, now);
      WriteKeeps(r.s, i, r.evidence, r.content, now);
    }
  }

  lemma MutateKeeps(s: State, m: Change)
    requires Ok(s)
    ensures Ok(Mutate(s, m))
  {
    var t := Mutate(s, m);
    forall i | 0 <= i < |s.links| ensures SameLinked(s, t, i) {
      assert LinkShape(s, s.links[i]);
    }
    PreservesOk(s, t);
  }

  lemma BookkeepingKeeps(c: Limits, s: State, a: Action)
    requires Ok(s) && !a.Links? && !a.Changes?
    ensures Ok(Step(c, s, a))
  {
    var t := Step(c, s, a);
    forall i | 0 <= i < |s.links| ensures SameLinked(s, t, i) {
      assert LinkShape(s, s.links[i]);
    }
    PreservesOk(s, t);
  }

  lemma StepKeeps(c: Limits, s: State, a: Action)
    requires Ok(s)
    ensures Ok(Step(c, s, a))
  {
    match a
    case Links(i, now) => LinkKeeps(s, i, now);
    case Changes(m) => MutateKeeps(s, m);
    case _ => BookkeepingKeeps(c, s, a);
  }

  /** Before the first handoff: any projections, raw items and legacy rows, no links. */
  predicate Initial(s: State) {
    Sized(s) && ContentsOk(s) && forall i :: 0 <= i < |s.links| ==> s.links[i] == ABSENT
  }

  lemma {:induction false} HandoffSafe(c: Limits, s: State, acts: seq<Action>)
    requires Initial(s)
    ensures Ok(Exec(c, s, acts))
  {
    if acts != [] {
      HandoffSafe(c, s, acts[..|acts| - 1]);
      StepKeeps(c, Exec(c, s, acts[..|acts| - 1]), acts[|acts| - 1]);
    }
  }

  /** Exactly one link of the evidence row is canonical, and the row agrees with that link's projection. */
  ghost predicate OneEvidenceOrigin(s: State, e: nat)
    requires Sized(s)
  {
    exists o :: && 0 <= o < |s.links| && IsEvidenceOrigin(s.links[o], e)
                && (forall k :: 0 <= k < |s.links| && IsEvidenceOrigin(s.links[k], e) ==> k == o)
                && e < |s.evidence| && Agrees(s.evidence[e], s.projections[o], RawOf(s, o))
  }

  ghost predicate OneContentOrigin(s: State, c: nat)
    requires Sized(s)
  {
    exists o :: && 0 <= o < |s.links| && IsContentOrigin(s.links[o], c)
                && (forall k :: 0 <= k < |s.links| && IsContentOrigin(s.links[k], c) ==> k == o)
                && c < |s.contents| && KindOf(s.projections[o]).Some?
                && ContentAgrees(s.contents[c], s.projections[o], RawOf(s, o), s.projections[o].raw, KindOf(s.projections[o]).value)
  }

  lemma OneEvidence(s: State, e: nat)
    requires Ok(s) && EvidenceTaken(s.links, e)
    ensures OneEvidenceOrigin(s, e)
  {
    TakenHasOrigin(s, e);
    var o := EvidenceOrigin(s.links, e).value;
    EvidenceOriginKin(s, e);
    forall k | 0 <= k < |s.links| && IsEvidenceOrigin(s.links[k], e) ensures k == o {
      assert k < o ==> PairOk(s, k, o);
      assert o < k ==> PairOk(s, o, k);
    }
  }

  lemma OneContent(s: State, c: nat)
    requires Ok(s) && ContentTaken(s.links, c)
    ensures OneContentOrigin(s, c)
  {
    TakenHasOrigin(s, c);
    var o := ContentOrigin(s.links, c).value;
    assert OriginOk(s, o);
    forall k | 0 <= k < |s.links| && IsContentOrigin(s.links[k], c) ensures k == o {
      assert k < o ==> PairOk(s, k, o);
      assert o < k ==> PairOk(s, o, k);
    }
  }

  /**
   In every reachable state each evidence row with linked rows has exactly one canonical-evidence link, each linked
   content row exactly one canonical-content link, and both agree with the projection of their own link.
   */
  lemma CanonicalOrigins(c: Limits, s: State, acts: seq<Action>)
    requires Initial(s)
    ensures var t := Exec(c, s, acts);
            && (forall e :: EvidenceTaken(t.links, e) ==> OneEvidenceOrigin(t, e))
            && (forall k :: ContentTaken(t.links, k) ==> OneContentOrigin(t, k))
  {
    HandoffSafe(c, s, acts);
    var t := Exec(c, s, acts);
    forall e | EvidenceTaken(t.links, e) ensures OneEvidenceOrigin(t, e) { OneEvidence(t, e); }
    forall k | ContentTaken(t.links, k) ensures OneContentOrigin(t, k) { OneContent(t, k); }
  }

  /**
   The database against Python, for every reachable state and every row Python is about to write: the triggers
   refuse it exactly when an adopted row's plain identity carries another hash. Rows the handoff inserted, and rows
   that already have a LINKED origin, are never refused.
   */
  lemma TriggersAgainstPython(s: State, i: nat, now: int)
    requires Ok(s) && i < |s.links| && Prepare(s, i).Ready?
    ensures Sized(Prepare(s, i).s) && Prepare(s, i).s.links == s.links && Prepare(s, i).evidence < |Prepare(s, i).s.evidence|
    ensures var r := Prepare(s, i);
            && (Guards(r.s, i, Proposed(s, i, now)) <==> HashOrLegacy(r.s.evidence[r.evidence], OriginFor(r.s, i, r.evidence)))
            && (|r.s.evidence| > |s.evidence| || EvidenceTaken(s.links, r.evidence) ==> Guards(r.s, i, Proposed(s, i, now)))
  {
    PrepareSized(s, i);
    PrepareSound(s, i);
    var r := Prepare(s, i);
    TriggersExact(r.s, i, r.evidence, r.content, now);
    TakenHasOrigin(r.s, r.evidence);
    if EvidenceTaken(s.links, r.evidence) { EvidenceOriginKin(r.s, r.evidence); }
  }

  /** The evidence row of the raw item is linked, for this operation and identity, and so is its content, if any. */
  predicate Owned(s: State, i: nat, e: nat)
    requires Sized(s) && i < |s.links|
  {
    var p := s.projections[i];
    && EvidenceOf(s.evidence, p.raw, p.provider) == [e]
    && (exists j :: 0 <= j < |s.links| && s.links[j].status.Linked? && s.links[j].evidence == Some(e)
                    && SameIdentity(p, s.projections[j]))
    && (KindOf(p).Some? && ContentOf(s.contents, p.raw).Some? ==> ContentTaken(s.links, ContentOf(s.contents, p.raw).value))
  }

  lemma OwnedContentAccepted(s: State, i: nat, e: nat)
    requires Ok(s) && i < |s.links| && Eligible(s.projections[i], RawOf(s, i)) && Owned(s, i, e)
    ensures !ChooseContent(s, i).Refuse?
    ensures ChooseContent(s, i).Break? ==>
              ContentClash(s.contents, NewContent(s.projections[i], RawOf(s, i), KindOf(s.projections[i]).value))
  {
    var p := s.projections[i];
    var existing := ContentOf(s.contents, p.raw);
    if KindOf(p).Some? && existing.Some? {
      TakenHasOrigin(s, existing.value);
      ContentOriginKin(s, i, existing.value);
    }
  }

  /** A content reference of linked evidence is the content every later projection of the raw item finds. */
  lemma OwnedContentFits(s: State, j: nat)
    requires Ok(s) && j < |s.links| && s.links[j].status.Linked?
    ensures s.links[j].evidence.Some? && s.links[j].evidence.value < |s.evidence|
    ensures var e := s.evidence[s.links[j].evidence.value];
            e.content.Some? ==> KindOf(s.projections[j]).Some? && ContentOf(s.contents, e.raw) == e.content
  {
    assert LinkedOk(s, j);
  }

  lemma OwnedEvidenceUsed(s: State, i: nat, e: nat)
    requires Ok(s) && i < |s.links| && Eligible(s.projections[i], RawOf(s, i)) && Owned(s, i, e)
    requires !ChooseContent(s, i).Break? && !ChooseContent(s, i).Refuse?
    ensures var choice := ChooseContent(s, i);
            ChooseEvidence(WithContent(s, choice), i, ContentId(s, choice)) == Use(e)
  {
    var p := s.projections[i];
    var j :| 0 <= j < |s.links| && s.links[j].status.Linked? && s.links[j].evidence == Some(e) && SameIdentity(p, s.projections[j]);
    OwnedContentFits(s, j);
    TakenHasOrigin(s, e);
    EvidenceOriginKin(s, e);
    OwnedIdentity(s, i, e, j);
  }

  /** The raw item has no content yet, this projection would create it, and a unique index of another raw item's is hit. */
  predicate NewContentCollides(s: State, i: nat)
    requires Sized(s) && i < |s.links|
  {
    var p, kind := s.projections[i], KindOf(s.projections[i]);
    && kind.Some? && ContentOf(s.contents, p.raw).None?
    && (kind.value.Article? ==> Text(p.fact.title) && Text(p.fact.canonicalUrl) && Text(p.fact.sourceIdentity))
    && ContentClash(s.contents, NewContent(p, RawOf(s, i), kind.value))
  }

  /**
   Evidence and content with linked rows are never refused by a later valid READY projection of the same raw item,
   operation and provider identity: the transaction commits, to that evidence, unless new content collides with another
   raw item's.
   */
  lemma NeverRefused(s: State, i: nat, e: nat, now: int)
    requires Ok(s) && FreshLink(s, i) && Eligible(s.projections[i], RawOf(s, i)) && Owned(s, i, e)
    ensures !Prepare(s, i).Conflict?
    ensures CommitsLink(s, i, now) <==> !NewContentCollides(s, i)
    ensures CommitsLink(s, i, now) ==> LinkOne(s, i, now).links[i].evidence == Some(e)
  {
    OwnedContentAccepted(s, i, e);
    assert ChooseContent(s, i).Break? <==> NewContentCollides(s, i);
    if !ChooseContent(s, i).Break? {
      OwnedEvidenceUsed(s, i, e);
      var r := Prepare(s, i);
      assert r.Ready? && r.evidence == e;
      TriggersAgainstPython(s, i, now);
      assert EvidenceTaken(s.links, e);
    }
  }

  /** All linked rows of one evidence row share raw item, provider, operation and identity with its origin. */
  lemma OwnedIdentity(s: State, i: nat, e: nat, j: nat)
    requires Ok(s) && i < |s.links| && j < |s.links| && s.links[j].status.Linked? && s.links[j].evidence == Some(e)
    requires SameIdentity(s.projections[i], s.projections[j]) && EvidenceOrigin(s.links, e).Some?
    ensures SameIdentity(s.projections[i], s.projections[EvidenceOrigin(s.links, e).value])
  {
    assert LinkedOk(s, j);
    var o, k := EvidenceOrigin(s.links, e).value, 0;
    k :| 0 <= k < |s.links| && IsEvidenceOrigin(s.links[k], e) && SameIdentity(s.projections[j], s.projections[k]);
    assert k < o ==> PairOk(s, k, o);
    assert o < k ==> PairOk(s, o, k);
  }

  /** What holds of every link under any interleaving. */
  predicate AttemptsOk(c: Limits, l: Link) {
    && (l.status.Absent? || l.status.Pending? ==> l.attempts == 0)
    && (l.status.Retry? ==> l.attempts < c.maxAttempts) && (l.status.Retry? <==> l.retryAt.Some?)
    && l.attempts <= (if c.maxAttempts < 1 then 1 else c.maxAttempts)
  }

  lemma StepAttempts(c: Limits, s: State, a: Action)
    requires Sized(s) && forall i :: 0 <= i < |s.links| ==> AttemptsOk(c, s.links[i])
    ensures Sized(Step(c, s, a)) && forall i :: 0 <= i < |Step(c, s, a).links| ==> AttemptsOk(c, Step(c, s, a).links[i])
  {
    StepSized(c, s, a);
    if a.Links? && CommitsLink(s, a.i, a.now) { PrepareSized(s, a.i); }
  }

  /** How often link i was claimed in a run. */
  function ClaimsOf(c: Limits, s: State, acts: seq<Action>, i: nat): (n: nat)
    requires Sized(s)
  {
    if acts == [] then 0
    else
      var before, a := Exec(c, s, acts[..|acts| - 1]), acts[|acts| - 1];
      ClaimsOf(c, s, acts[..|acts| - 1], i) + (if a.Claims? && a.i == i && Claimable(before, i, a.now) then 1 else 0)
  }

  /** LINKED and BLOCKED are absorbing, and only a claim adds an attempt. */
  lemma StepAbsorbs(c: Limits, s: State, a: Action, i: nat)
    requires Sized(s) && i < |s.links|
    ensures i < |Step(c, s, a).links|
    ensures var l, m := s.links[i], Step(c, s, a).links[i];
            && (l.status.Linked? || l.status.Blocked? ==> m == l)
            && (l.status.Absent? || m.attempts == l.attempts + (if a.Claims? && a.i == i && Claimable(s, i, a.now) then 1 else 0))
            && (l.status.Absent? ==> m.attempts == 0 || m == l)
  {
    StepSized(c, s, a);
    if a.Links? && CommitsLink(s, a.i, a.now) { PrepareSized(s, a.i); }
  }

  /**
   Under any interleaving of workers, recovery and other writers every link is claimed at most max_attempts times
   (once when that is not positive), and RETRY means attempts remain and a retry is scheduled.
   */
  lemma {:induction false} ClaimsBounded(c: Limits, s: State, acts: seq<Action>, i: nat)
    requires Initial(s) && i < |s.links|
    ensures var t := Exec(c, s, acts);
            && (forall k :: 0 <= k < |t.links| ==> AttemptsOk(c, t.links[k]))
            && ClaimsOf(c, s, acts, i) == t.links[i].attempts <= (if c.maxAttempts < 1 then 1 else c.maxAttempts)
            && (t.links[i].status.Retry? ==> ClaimsOf(c, s, acts, i) < c.maxAttempts)
  {
    if acts != [] {
      var init, a := acts[..|acts| - 1], acts[|acts| - 1];
      ClaimsBounded(c, s, init, i);
      StepAttempts(c, Exec(c, s, init), a);
      StepAbsorbs(c, Exec(c, s, init), a, i);
      assert AttemptsOk(c, Exec(c, s, init).links[i]) && AttemptsOk(c, Exec(c, s, acts).links[i]);
    }
  }

  /** Once LINKED or BLOCKED, a link row is never changed again. */
  lemma {:induction false} Absorbing(c: Limits, s: State, acts: seq<Action>, i: nat)
    requires Sized(s) && i < |s.links| && (s.links[i].status.Linked? || s.links[i].status.Blocked?)
    ensures Exec(c, s, acts).links[i] == s.links[i]
  {
    if acts != [] {
      Absorbing(c, s, acts[..|acts| - 1], i);
      StepAbsorbs(c, Exec(c, s, acts[..|acts| - 1]), acts[|acts| - 1], i);
    }
  }

  /** A claimed link can leave PROCESSING, by whatever step, exactly as long as its projection is READY. */
  lemma LeavesProcessing(c: Limits, s: State, i: nat)
    requires Sized(s) && FreshLink(s, i)
    ensures (exists a :: Leaves(c, s, a, i)) <==> s.projections[i].ready
  {
    if s.projections[i].ready {
      assert Leaves(c, s, Terminates(i, 0), i);
    } else {
      forall a ensures !Leaves(c, s, a, i) {
        StepSized(c, s, a);
        if a.Links? && CommitsLink(s, a.i, a.now) { PrepareSized(s, a.i); }
      }
    }
  }

  predicate Leaves(c: Limits, s: State, a: Action, i: nat)
    requires Sized(s)
  {
    i < |Step(c, s, a).links| && !Step(c, s, a).links[i].status.Processing?
  }
}
