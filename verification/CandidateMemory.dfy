/**
 What candidates learn from evidence and keep: over every serial run, whatever was once associated with a candidate is
 recognised again.
 */
module CandidateMemory {
  import opened Keys
  import opened Matching
  import opened Candidates

  function When(v: Item): (t: int) { if v.eventTime.Some? then v.eventTime.value else v.observedAt }

  /** Signatures of an item, on its columns. */
  predicate SignatureOf(v: Item, x: Signature) {
    match x
    case Official(p, id) => v.official && v.itemId == Some(id) && id != "" && p == v.provider
    case Url(u) => v.url == Some(u)
    case ProviderId(p, id) => v.itemId == Some(id) && id != "" && p == v.provider
    case ItemHash(p, h) => p == v.provider && h == v.itemHash
  }

  /** The candidate remembers everything matching asks of this item. */
  ghost predicate Knows(c: EventCandidate, v: Item) {
    && (forall x :: SignatureOf(v, x) ==> x in c.signatures)
    && (v.fingerprint.Some? ==> v.fingerprint.value in c.fingerprints)
    && (forall e :: e in v.entities ==> e in c.entities)
    && c.firstSeen <= When(v) <= c.latestSeen
  }

  /** A row before and after it learned from an item: nothing is forgotten and nothing else is learned. */
  ghost predicate Learns(row: EventCandidate, n: EventCandidate, v: Item) {
    && n.anchor == row.anchor
    && (forall x :: x in n.signatures <==> x in row.signatures || SignatureOf(v, x))
    && (forall f :: f in n.fingerprints <==> f in row.fingerprints || v.fingerprint == Some(f))
    && (forall e :: e in n.entities <==> e in row.entities || e in v.entities)
    && n.firstSeen <= row.firstSeen && n.firstSeen <= When(v) && (n.firstSeen == row.firstSeen || n.firstSeen == When(v))
    && n.latestSeen >= row.latestSeen && n.latestSeen >= When(v) && (n.latestSeen == row.latestSeen || n.latestSeen == When(v))
    && (row.strong.Some? ==> n.strong == row.strong)
    && (row.strong.None? ==> if v.official && v.itemId.Some? && v.itemId.value != ""
                             then n.strong == Some(Official(v.provider, v.itemId.value)) else n.strong.None?)
  }

  /** Only the aggregates and the status differ. */
  predicate SameMemory(a: EventCandidate, b: EventCandidate) {
    && a.anchor == b.anchor && a.strong == b.strong && a.signatures == b.signatures && a.fingerprints == b.fingerprints
    && a.entities == b.entities && a.firstSeen == b.firstSeen && a.latestSeen == b.latestSeen
  }

  lemma SignaturesAre(v: Item)
    ensures forall x :: x in Signatures(v) <==> SignatureOf(v, x)
  {
    SignaturesExact(v);
  }

  /** A row created from an item knows it and nothing else. */
  lemma NewRowKnows(v: Item, anchor: Anchor)
    ensures var n := NewRow(v, anchor);
            && Knows(n, v) && n.anchor == anchor && n.firstSeen == n.latestSeen == When(v)
            && (forall x :: x in n.signatures <==> SignatureOf(v, x)) && (forall f :: f in n.fingerprints <==> v.fingerprint == Some(f))
            && (forall e :: e in n.entities <==> e in v.entities)
  {
    SignaturesAre(v);
  }

  lemma AttachLearns(s: State, c: nat, ev: nat, rule: Rule)
    requires c < |s.candidates| && ev < |s.evidence|
    ensures var t, v := Attach(s, c, ev, rule), s.evidence[ev];
            && t.evidence == s.evidence && t.links == s.links + [Association(c, ev, rule, v.official, true)]
            && |t.candidates| == |s.candidates| && Learns(s.candidates[c], t.candidates[c], v) && Knows(t.candidates[c], v)
            && (forall k :: 0 <= k < |s.candidates| && k != c ==> t.candidates[k] == s.candidates[k])
  {
    SignaturesAre(s.evidence[ev]);
  }

  /** The association process records, on its columns. */
  predicate Recorded(a: Association, ev: nat, v: Item, d: Decision) {
    && a.evidence == ev && a.active && a.official == v.official
    && a.rule == (match d case Match(_, rank) => ByRank(rank) case NewCandidate => NewRule case AmbiguousCandidate(_) => AmbiguousRule)
  }

  /**
   Processing an item without an active association adds exactly one, to the candidate the decision names, to a new one
   that knows only this item, or to the one this item was given before. That candidate learns the item; the others stay.
   */
  lemma ProcessLearns(s: State, ev: nat)
    requires Ok(s) && ev < |s.evidence| && ActiveFor(s.links, ev) == {}
    ensures var r, v, d := Process(s, ev), s.evidence[ev], Decide(s.evidence[ev], s.candidates);
            var t := r.state;
            && !r.status.Error? && !r.status.Existing? && t.evidence == s.evidence
            && |t.links| == |s.links| + 1 && t.links[..|s.links|] == s.links && Recorded(t.links[|s.links|], ev, v, d)
            && var c := t.links[|s.links|].candidate;
               && c < |t.candidates| && Knows(t.candidates[c], v)
               && (d.Match? ==> c == d.candidate && r.status.Matched?)
               && (r.status.Created? ==> c == |s.candidates| && |t.candidates| == c + 1 && t.candidates[..c] == s.candidates)
               && (!r.status.Created? ==> |t.candidates| == |s.candidates| && c < |s.candidates| && Learns(s.candidates[c], t.candidates[c], v)
                                          && forall k :: 0 <= k < |s.candidates| && k != c ==> t.candidates[k] == s.candidates[k])
  {
    var v, d := s.evidence[ev], Decide(s.evidence[ev], s.candidates);
    ChooseMeans(Ranks(v, s.candidates));
    if d.Match? {
      AttachLearns(s, d.candidate, ev, RuleFor(d));
    } else {
      var anchor := AnchorFor(v, ev, d);
      var holder := KeyHolder(s.candidates, anchor);
      if holder.Some? {
        AttachLearns(s, holder.value, ev, RuleFor(d));
      } else {
        var s1 := s.(candidates := s.candidates + [NewRow(v, anchor)]);
        AttachLearns(s1, |s.candidates|, ev, RuleFor(d));
      }
    }
  }

  /** The item has this reason to match a candidate made from it alone, and none better. */
  ghost predicate TopReason(v: Item, rank: nat) {
    Reason(v, NewRow(v, AnchorOf(v)), rank) && forall n :: 0 <= n < rank ==> !Reason(v, NewRow(v, AnchorOf(v)), n)
  }

  /** The derived cluster key is the best reason the item could be matched for: key order and match priority agree. */
  lemma AnchorIsTopReason(v: Item)
    ensures match AnchorOf(v)
            case Signed(Official(p, id)) => TopReason(v, 1) && p == v.provider && v.itemId == Some(id)
            case Signed(Url(u)) => TopReason(v, 2) && v.url == Some(u)
            case Signed(ProviderId(p, id)) => TopReason(v, 3) && p == v.provider && v.itemId == Some(id)
            case Bucket(es, f, day) =>
              TopReason(v, 4) && es == multiset(v.entities) && v.fingerprint == Some(f) && day * 86400 <= When(v) < (day + 1) * 86400
            case Signed(ItemHash(p, h)) => TopReason(v, 5) && p == v.provider && h == v.itemHash
            case Ambiguous(_) => false
  {
    SignaturesAre(v);
    if v.entities != [] { assert v.entities[0] in NewRow(v, AnchorOf(v)).entities; }
  }

  /** Every association, active or not, is remembered by its candidate. */
  ghost predicate Remembered(s: State) {
    forall i :: 0 <= i < |s.links| ==>
      && s.links[i].candidate < |s.candidates| && s.links[i].evidence < |s.evidence|
      && Knows(s.candidates[s.links[i].candidate], s.evidence[s.links[i].evidence])
  }

  lemma StillKnows(row: EventCandidate, n: EventCandidate, v: Item, w: Item)
    requires Knows(row, w) && (Learns(row, n, v) || SameMemory(row, n))
    ensures Knows(n, w)
  {
  }

  lemma AttachRemembers(s: State, c: nat, ev: nat, rule: Rule)
    requires Remembered(s) && c < |s.candidates| && ev < |s.evidence|
    ensures Remembered(Attach(s, c, ev, rule))
  {
    var t := Attach(s, c, ev, rule);
    AttachLearns(s, c, ev, rule);
    forall i | 0 <= i < |s.links| ensures Knows(t.candidates[s.links[i].candidate], s.evidence[s.links[i].evidence]) {
      if s.links[i].candidate == c { StillKnows(s.candidates[c], t.candidates[c], s.evidence[ev], s.evidence[s.links[i].evidence]); }
    }
  }

  lemma DetachRemembers(s: State, i: nat)
    requires Remembered(s) && i < |s.links|
    ensures Remembered(Detached(s, i))
  {
    var t, c := Detached(s, i), s.links[i].candidate;
    forall k | 0 <= k < |s.links| ensures Knows(t.candidates[t.links[k].candidate], t.evidence[t.links[k].evidence]) {
      var w := s.evidence[s.links[k].evidence];
      if s.links[k].candidate == c { StillKnows(s.candidates[c], t.candidates[c], w, w); }
    }
  }

  lemma ProcessRemembers(s: State, ev: nat)
    requires Ok(s) && Remembered(s)
    ensures Remembered(Process(s, ev).state)
  {
    OneActive(s, ev);
    if ev < |s.evidence| && ActiveFor(s.links, ev) == {} {
      var v, d := s.evidence[ev], Decide(s.evidence[ev], s.candidates);
      ChooseMeans(Ranks(v, s.candidates));
      if d.Match? {
        AttachRemembers(s, d.candidate, ev, RuleFor(d));
      } else {
        var anchor := AnchorFor(v, ev, d);
        var holder := KeyHolder(s.candidates, anchor);
        if holder.Some? {
          AttachRemembers(s, holder.value, ev, RuleFor(d));
        } else {
          AttachRemembers(s.(candidates := s.candidates + [NewRow(v, anchor)]), |s.candidates|, ev, RuleFor(d));
        }
      }
    }
  }

  lemma StepRemembers(s: State, a: Action)
    requires Ok(s) && Remembered(s)
    ensures Remembered(Step(s, a))
  {
    match a
    case Processes(ev) => ProcessRemembers(s, ev);
    case Deactivates(c, ev) => if PairAt(s.links, c, ev).Some? { DetachRemembers(s, PairAt(s.links, c, ev).value); }
    case Regroups(ev, from, to) =>
      if Regroup(s, ev, from, to).status.Regrouped? {
        var i := PairAt(s.links, from, ev).value;
        DetachRemembers(s, i);
        AttachRemembers(Detached(s, i), to, ev, ReviewedRegroup);
      }
    case Arrives(v) =>
  }

  lemma {:induction false} RunRemembers(items: seq<Item>, acts: seq<Action>)
    ensures Remembered(Exec(State(items, [], []), acts))
  {
    if acts != [] {
      RunRemembers(items, acts[..|acts| - 1]);
      AggregatesAgree(items, acts[..|acts| - 1]);
      StepRemembers(Exec(State(items, [], []), acts[..|acts| - 1]), acts[|acts| - 1]);
    }
  }

  /**
   Over every serial run: an item that shares its hash, its provider identity or its canonical URL with evidence that was
   ever associated, or a title and an entity within a day of it, is never decided to be new, whatever was deactivated or
   regrouped in between.
   */
  lemma NeverNewAgain(items: seq<Item>, acts: seq<Action>, i: nat, w: Item)
    requires var s := Exec(State(items, [], []), acts); i < |s.links| && s.links[i].evidence < |s.evidence|
    requires var v := Exec(State(items, [], []), acts).evidence[Exec(State(items, [], []), acts).links[i].evidence];
             || (w.provider == v.provider && w.itemHash == v.itemHash)
             || (w.provider == v.provider && w.itemId == v.itemId && w.itemId.Some? && w.itemId.value != "")
             || (w.url.Some? && w.url == v.url)
             || (&& w.fingerprint.Some? && w.fingerprint == v.fingerprint && (exists e :: e in w.entities && e in v.entities)
                 && When(v) - 86400 <= When(w) <= When(v) + 86400)
    ensures !Decide(w, Exec(State(items, [], []), acts).candidates).NewCandidate?
  {
    var s := Exec(State(items, [], []), acts);
    RunRemembers(items, acts);
    var c, v := s.links[i].candidate, s.evidence[s.links[i].evidence];
    assert Knows(s.candidates[c], v);
    PriorityExact(w, s.candidates);
    assert SignatureOf(v, ItemHash(v.provider, v.itemHash));
    assert w.url.Some? && w.url == v.url ==> SignatureOf(v, Url(w.url.value));
    assert w.itemId.Some? && w.itemId == v.itemId && w.itemId.value != "" ==> SignatureOf(v, ProviderId(v.provider, w.itemId.value));
    var row := s.candidates[c];
    assert Reason(w, row, 5) || Reason(w, row, 3) || Reason(w, row, 2) || Reason(w, row, 4);
  }
}
