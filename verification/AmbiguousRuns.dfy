/**
 The family of runs in which creating an ambiguous candidate falls back on an existing row: two candidates tie for an
 item, the item gets an ambiguous candidate of its own, that association is deactivated, and the item returns.
 */
module AmbiguousRuns {
  import opened Keys
  import opened Matching
  import opened Candidates

  /** Three items of one title: two known by URL with different entities, the third by its hash with both entities. */
  predicate Tying(a: Item, b: Item, c: Item) {
    && !a.official && !b.official && !c.official && !HasId(a) && !HasId(b) && !HasId(c)
    && a.url.Some? && b.url.Some? && a.url != b.url && c.url.None?
    && a.fingerprint.Some? && a.fingerprint == b.fingerprint == c.fingerprint
    && SeenAt(a) == SeenAt(b) == SeenAt(c)
    && |a.entities| == 1 && |b.entities| == 1 && a.entities[0] != b.entities[0] && c.entities == a.entities + b.entities
    && ItemHash(a.provider, a.itemHash) != ItemHash(b.provider, b.itemHash)
  }

  /** Such items exist. */
  lemma TyingExample()
    ensures Tying(Item("p", None, "h0", false, Some("u0"), Some("f"), None, 0, ["x"], 0),
                  Item("p", None, "h1", false, Some("u1"), Some("f"), None, 0, ["y"], 0),
                  Item("p", None, "h2", false, None, Some("f"), None, 0, ["x", "y"], 0))
  {
  }

  function Row(v: Item, anchor: Anchor, count: nat): (r: EventCandidate) {
    NewRow(v, anchor).(evidenceCount := count, sourceCount := count, status := if count == 0 then Rejected else Candidate)
  }

  function Link(n: nat, rule: Rule): (l: Association) { Association(n, n, rule, false, true) }

  lemma TyingRanks(a: Item, b: Item, c: Item, count: nat)
    requires Tying(a, b, c)
    ensures var ra, rb, rc := Row(a, AnchorOf(a), 1), Row(b, AnchorOf(b), 1), Row(c, Ambiguous(2), count);
            && Rank(b, ra) == None && Rank(c, ra) == Rank(c, rb) == Rank(c, rc) == Some(4)
            && ra.anchor != rb.anchor
  {
    var ra, rb, rc := Row(a, AnchorOf(a), 1), Row(b, AnchorOf(b), 1), Row(c, Ambiguous(2), count);
    assert Signatures(a) == [Url(a.url.value), ItemHash(a.provider, a.itemHash)];
    assert Signatures(b) == [Url(b.url.value), ItemHash(b.provider, b.itemHash)];
    assert Signatures(c) == [ItemHash(c.provider, c.itemHash)];
    assert c.entities[0] == a.entities[0] && c.entities[1] == b.entities[0];
    assert a.entities[0] in ra.entities && b.entities[0] in rb.entities && a.entities[0] in rc.entities;
    assert TitleAndTime(c, ra) && TitleAndTime(c, rb) && TitleAndTime(c, rc);
    assert forall e :: e in b.entities ==> e !in ra.entities;
  }

  /** Attaching an item to the row just created for it. */
  lemma AttachedRow(s: State, ev: nat, anchor: Anchor, rule: Rule)
    requires LinksOk(s) && ev == |s.candidates| == |s.links| && ev < |s.evidence| && !s.evidence[ev].official
    ensures var v := s.evidence[ev];
            Attach(s.(candidates := s.candidates + [NewRow(v, anchor)]), ev, ev, rule)
            == State(s.evidence, s.candidates + [Row(v, anchor, 1)], s.links + [Link(ev, rule)])
  {
    var v := s.evidence[ev];
    var t := Attach(s.(candidates := s.candidates + [NewRow(v, anchor)]), ev, ev, rule);
    assert Refreshed(NewRow(v, anchor), v) == NewRow(v, anchor);
    assert ActiveIn(t.links, ev) == {ev};
    var before := State(s.evidence, (s.candidates + [NewRow(v, anchor)])[ev := NewRow(v, anchor)], t.links);
    assert SourcesIn(before, ev) == {v.source};
    assert t.candidates == s.candidates + [Row(v, anchor, 1)];
  }

  /** The first processing of an item that creates a candidate leaves it with one association. */
  lemma CreatedRow(s: State, ev: nat, anchor: Anchor, d: Decision)
    requires Ok(s) && ev == |s.candidates| == |s.links| && ev < |s.evidence| && !s.evidence[ev].official && ActiveFor(s.links, ev) == {}
    requires d == Decide(s.evidence[ev], s.candidates) && !d.Match? && anchor == AnchorFor(s.evidence[ev], ev, d)
    requires KeyHolder(s.candidates, anchor).None?
    ensures Process(s, ev).state ==
              State(s.evidence, s.candidates + [Row(s.evidence[ev], anchor, 1)], s.links + [Link(ev, RuleFor(d))])
    ensures Ok(Process(s, ev).state)
  {
    AttachedRow(s, ev, anchor, RuleFor(d));
    ProcessKeeps(s, ev);
  }

  lemma TieDecided(v: Item, cs: seq<EventCandidate>)
    requires |cs| >= 2 && forall k :: 0 <= k < |cs| ==> Rank(v, cs[k]) == Some(4)
    ensures Decide(v, cs) == AmbiguousCandidate(4)
  {
    var rs := Ranks(v, cs);
    ChooseMeans(rs);
    assert rs[0] == rs[1] == Some(4);
    DecisionUnique(rs, Choose(rs), AmbiguousCandidate(4));
  }

  lemma NoneDecided(v: Item, cs: seq<EventCandidate>)
    requires forall k :: 0 <= k < |cs| ==> Rank(v, cs[k]) == None
    ensures Decide(v, cs) == NewCandidate
  {
    ChooseMeans(Ranks(v, cs));
    DecisionUnique(Ranks(v, cs), Decide(v, cs), NewCandidate);
  }

  function Fresh(a: Item, b: Item, c: Item): (s: State) { State([a, b, c], [], []) }

  function One(a: Item, b: Item, c: Item): (s: State) {
    State([a, b, c], [Row(a, AnchorOf(a), 1)], [Link(0, NewRule)])
  }

  function Two(a: Item, b: Item, c: Item): (s: State) {
    State([a, b, c], [Row(a, AnchorOf(a), 1), Row(b, AnchorOf(b), 1)], [Link(0, NewRule), Link(1, NewRule)])
  }

  /** After the tie: C's own candidate, associated (count 1) or released (count 0). */
  function Tied(a: Item, b: Item, c: Item, count: nat): (s: State) {
    State([a, b, c], [Row(a, AnchorOf(a), 1), Row(b, AnchorOf(b), 1), Row(c, Ambiguous(2), count)],
          [Link(0, NewRule), Link(1, NewRule), Link(2, AmbiguousRule).(active := count > 0)])
  }

  lemma FirstStep(a: Item, b: Item, c: Item)
    requires Tying(a, b, c)
    ensures Process(Fresh(a, b, c), 0).state == One(a, b, c) && Ok(One(a, b, c))
  {
    AggregatesAgree([a, b, c], []);
    CreatedRow(Fresh(a, b, c), 0, AnchorOf(a), NewCandidate);
  }

  lemma SecondStep(a: Item, b: Item, c: Item)
    requires Tying(a, b, c) && Ok(One(a, b, c))
    ensures Process(One(a, b, c), 1).state == Two(a, b, c) && Ok(Two(a, b, c))
  {
    TyingRanks(a, b, c, 0);
    NoneDecided(b, One(a, b, c).candidates);
    CreatedRow(One(a, b, c), 1, AnchorOf(b), NewCandidate);
  }

  lemma ThirdStep(a: Item, b: Item, c: Item)
    requires Tying(a, b, c) && Ok(Two(a, b, c))
    ensures Process(Two(a, b, c), 2).state == Tied(a, b, c, 1)
  {
    TyingRanks(a, b, c, 0);
    TieDecided(c, Two(a, b, c).candidates);
    CreatedRow(Two(a, b, c), 2, Ambiguous(2), AmbiguousCandidate(4));
  }

  lemma Release(a: Item, b: Item, c: Item)
    ensures Deactivate(Tied(a, b, c, 1), 2, 2).state == Tied(a, b, c, 0)
  {
  }

  lemma FallsBack(a: Item, b: Item, c: Item)
    requires Tying(a, b, c)
    ensures Process(Tied(a, b, c, 0), 2).status == ConcurrentExisting
  {
    TyingRanks(a, b, c, 0);
    var s := Tied(a, b, c, 0);
    TieDecided(c, s.candidates);
    assert s.candidates[2].anchor == Ambiguous(2);
    assert ActiveFor(s.links, 2) == {};
  }

  lemma ExecTwo(s: State, acts: seq<Action>, x: Action, y: Action)
    ensures Exec(s, acts + [x, y]) == Step(Step(Exec(s, acts), x), y)
  {
    var all := acts + [x, y];
    assert all[..|all| - 1] == acts + [x] && (acts + [x])[..|acts|] == acts;
  }

  /** Creation does not always create: every such triple runs into the fallback. */
  lemma AmbiguousAgain(a: Item, b: Item, c: Item)
    requires Tying(a, b, c)
    ensures var s := Exec(Fresh(a, b, c), ([] + [Processes(0), Processes(1)]) + [Processes(2), Deactivates(2, 2)]);
            Process(s, 2).status == ConcurrentExisting
  {
    var s, first := Fresh(a, b, c), [] + [Processes(0), Processes(1)];
    ExecTwo(s, [], Processes(0), Processes(1));
    ExecTwo(s, first, Processes(2), Deactivates(2, 2));
    FirstStep(a, b, c);
    SecondStep(a, b, c);
    assert Exec(s, first) == Two(a, b, c);
    ThirdStep(a, b, c);
    Release(a, b, c);
    FallsBack(a, b, c);
  }
}
