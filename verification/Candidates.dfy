/**
 Event candidates and their evidence (src/market_intelligence/event_intelligence/service.py) under serial execution.
 Candidates, associations and evidence items are numbered in insertion order. Scoring fields are not modelled.
 */
module Candidates {
  import opened Keys
  import opened Matching

  datatype Rule = ByRank(rank: nat) | NewRule | AmbiguousRule | ReviewedRegroup

  datatype Association = Association(candidate: nat, evidence: nat, rule: Rule, official: bool, active: bool)

  datatype State = State(evidence: seq<Item>, candidates: seq<EventCandidate>, links: seq<Association>)

  /** Positions of the active associations of an evidence item, and of a candidate. */
  function ActiveFor(links: seq<Association>, ev: nat): (r: set<nat>) {
    set i | 0 <= i < |links| && links[i].active && links[i].evidence == ev
  }

  function ActiveIn(links: seq<Association>, c: nat): (r: set<nat>) {
    set i | 0 <= i < |links| && links[i].active && links[i].candidate == c
  }

  function SourceOf(s: State, ev: nat): (n: nat) { if ev < |s.evidence| then s.evidence[ev].source else 0 }

  /** The distinct sources behind the active associations of a candidate. */
  function SourcesIn(s: State, c: nat): (r: set<nat>) {
    set i | i in ActiveIn(s.links, c) :: SourceOf(s, s.links[i].evidence)
  }

  /** _recalculate_aggregates */
  function Recalculated(s: State, c: nat): (r: EventCandidate)
    requires c < |s.candidates|
  {
    var row, count := s.candidates[c], |ActiveIn(s.links, c)|;
    row.(evidenceCount := count, sourceCount := |SourcesIn(s, c)|,
         status := if count == 0 then Rejected else if row.status.Rejected? then Candidate else row.status)
  }

  /** The strong identity: the official signature, if the item has one. */
  function Strong(v: Item): (r: Option<Signature>) {
    if v.official && HasId(v) then Some(Official(v.provider, v.itemId.value)) else None
  }

  /** _refresh_candidate, before the aggregates. */
  function Refreshed(row: EventCandidate, v: Item): (r: EventCandidate) {
    row.(signatures := row.signatures + (set x | x in Signatures(v)),
         fingerprints := if v.fingerprint.Some? then row.fingerprints + {v.fingerprint.value} else row.fingerprints,
         strong := if row.strong.None? then Strong(v) else row.strong,
         entities := row.entities + (set e | e in v.entities),
         firstSeen := if SeenAt(v) < row.firstSeen then SeenAt(v) else row.firstSeen,
         latestSeen := if SeenAt(v) > row.latestSeen then SeenAt(v) else row.latestSeen)
  }

  /** The row `_create_or_get` inserts. */
  function NewRow(v: Item, anchor: Anchor): (r: EventCandidate) {
    EventCandidate(anchor, Strong(v), (set x | x in Signatures(v)),
                   if v.fingerprint.Some? then {v.fingerprint.value} else {}, (set e | e in v.entities),
                   SeenAt(v), SeenAt(v), Candidate, 1, 1)
  }

  /** The holder of a cluster key. */
  function KeyHolder(cs: seq<EventCandidate>, a: Anchor): (r: Option<nat>)
    ensures r.Some? ==> r.value < |cs| && cs[r.value].anchor == a
    ensures r.None? ==> forall k :: 0 <= k < |cs| ==> cs[k].anchor != a
  {
    if cs == [] then None
    else if cs[|cs| - 1].anchor == a then Some(|cs| - 1)
    else KeyHolder(cs[..|cs| - 1], a)
  }

  /** _associate and _refresh_candidate for an item without an active association. */
  function Attach(s: State, c: nat, ev: nat, rule: Rule): (r: State)
    requires c < |s.candidates| && ev < |s.evidence|
  {
    var v := s.evidence[ev];
    var s1 := s.(links := s.links + [Association(c, ev, rule, v.official, true)],
                 candidates := s.candidates[c := Refreshed(s.candidates[c], v)]);
    s1.(candidates := s1.candidates[c := Recalculated(s1, c)])
  }

  datatype Status = Existing | Matched | Created | ConcurrentExisting | Regrouped | Error

  datatype Processed = Processed(state: State, status: Status)

  function AnchorFor(v: Item, ev: nat, d: Decision): (a: Anchor) {
    if d.AmbiguousCandidate? then Ambiguous(ev) else AnchorOf(v)
  }

  function RuleFor(d: Decision): (r: Rule) {
    match d
    case Match(_, rank) => ByRank(rank)
    case NewCandidate => NewRule
    case AmbiguousCandidate(_) => AmbiguousRule
  }

  /** process */
  function Process(s: State, ev: nat): (r: Processed) {
    if ev >= |s.evidence| || |ActiveFor(s.links, ev)| > 1 then Processed(s, Error)
    else if |ActiveFor(s.links, ev)| == 1 then Processed(s, Existing)
    else
      var v := s.evidence[ev];
      var d := Decide(v, s.candidates);
      if d.Match? then
        if d.candidate >= |s.candidates| then Processed(s, Error)
        else Processed(Attach(s, d.candidate, ev, RuleFor(d)), Matched)
      else
        var anchor := AnchorFor(v, ev, d);
        var holder := KeyHolder(s.candidates, anchor);
        if holder.Some? then Processed(Attach(s, holder.value, ev, RuleFor(d)), ConcurrentExisting)
        else
          var s1 := s.(candidates := s.candidates + [NewRow(v, anchor)]);
          Processed(Attach(s1, |s.candidates|, ev, RuleFor(d)), Created)
  }

  /** The active association of a pair. */
  function PairAt(links: seq<Association>, c: nat, ev: nat): (r: Option<nat>)
    ensures r.Some? ==> r.value < |links| && links[r.value].active && links[r.value].candidate == c && links[r.value].evidence == ev
    ensures r.None? ==> forall i :: 0 <= i < |links| && links[i].active && links[i].candidate == c ==> links[i].evidence != ev
  {
    if links == [] then None
    else
      var last := links[|links| - 1];
      if last.active && last.candidate == c && last.evidence == ev then Some(|links| - 1)
      else PairAt(links[..|links| - 1], c, ev)
  }

  function Detached(s: State, i: nat): (r: State)
    requires i < |s.links| && s.links[i].candidate < |s.candidates|
  {
    var c := s.links[i].candidate;
    var s1 := s.(links := s.links[i := s.links[i].(active := false)]);
    s1.(candidates := s1.candidates[c := Recalculated(s1, c)])
  }

  /** deactivate_association; the active pair is unique in the database. */
  function Deactivate(s: State, c: nat, ev: nat): (r: Processed) {
    var i := PairAt(s.links, c, ev);
    if i.None? || c >= |s.candidates| then Processed(s, Error) else Processed(Detached(s, i.value), Matched)
  }

  /** regroup_association */
  function Regroup(s: State, ev: nat, from: nat, to: nat): (r: Processed) {
    if from == to || ev >= |s.evidence| || to >= |s.candidates| || from >= |s.candidates| then Processed(s, Error)
    else
      var i := PairAt(s.links, from, ev);
      if |ActiveFor(s.links, ev)| != 1 || i.None? then Processed(s, Error)
      else Processed(Attach(Detached(s, i.value), to, ev, ReviewedRegroup), Regrouped)
  }

  datatype Action = Processes(ev: nat) | Deactivates(c: nat, ev: nat) | Regroups(ev: nat, from: nat, to: nat) | Arrives(item: Item)

  function Step(s: State, a: Action): (n: State) {
    match a
    case Processes(ev) => Process(s, ev).state
    case Deactivates(c, ev) => Deactivate(s, c, ev).state
    case Regroups(ev, from, to) => Regroup(s, ev, from, to).state
    case Arrives(v) => s.(evidence := s.evidence + [v])
  }

  function Exec(s: State, acts: seq<Action>): (n: State) {
    if acts == [] then s else Step(Exec(s, acts[..|acts| - 1]), acts[|acts| - 1])
  }

  /** Aggregates equal the active associations; REJECTED means there are none. */
  predicate Counted(s: State, c: nat)
    requires c < |s.candidates|
  {
    var row := s.candidates[c];
    && row.evidenceCount == |ActiveIn(s.links, c)| && row.sourceCount == |SourcesIn(s, c)|
    && (row.status.Rejected? <==> ActiveIn(s.links, c) == {})
  }

  /** A candidate has a strong identity iff it learned an official signature, and it is one of those. */
  predicate StrongKnown(row: EventCandidate) {
    && (row.strong.Some? ==> row.strong.value.Official? && row.strong.value in row.signatures)
    && (forall x :: x in row.signatures && x.Official? ==> row.strong.Some?)
  }

  ghost predicate Rooted(row: EventCandidate) {
    row.firstSeen <= row.latestSeen && Remembers(row) && StrongKnown(row)
  }

  predicate LinksOk(s: State) {
    && (forall i :: 0 <= i < |s.links| ==> s.links[i].candidate < |s.candidates| && s.links[i].evidence < |s.evidence|)
    && (forall i, j :: 0 <= i < j < |s.links| && s.links[i].active && s.links[j].active ==> s.links[i].evidence != s.links[j].evidence)
  }

  ghost predicate RowsOk(s: State) {
    && (forall c :: 0 <= c < |s.candidates| ==> Rooted(s.candidates[c]))
    && (forall c, d :: 0 <= c < d < |s.candidates| ==> s.candidates[c].anchor != s.candidates[d].anchor)
  }

  ghost predicate Ok(s: State) {
    LinksOk(s) && RowsOk(s) && (forall c :: 0 <= c < |s.candidates| ==> Counted(s, c))
  }

  /** Everything but the aggregates of one candidate. */
  ghost predicate OkBut(s: State, c: nat) {
    LinksOk(s) && RowsOk(s) && (forall k :: 0 <= k < |s.candidates| && k != c ==> Counted(s, k))
  }

  lemma NewRowRooted(v: Item, anchor: Anchor)
    requires anchor == AnchorOf(v) || anchor.Ambiguous?
    ensures Rooted(NewRow(v, anchor))
  {
    if anchor.Bucket? {
      assert v.entities[0] in anchor.entities;
      assert OnDay(SeenAt(v), anchor.day);
    }
  }

  /** Learning from more evidence forgets nothing. */
  lemma RefreshedRooted(row: EventCandidate, v: Item)
    requires Rooted(row)
    ensures Rooted(Refreshed(row, v)) && Refreshed(row, v).anchor == row.anchor
  {
  }

  lemma RecalculatedCounted(s: State, c: nat)
    requires c < |s.candidates| && OkBut(s, c)
    ensures Ok(s.(candidates := s.candidates[c := Recalculated(s, c)]))
  {
    var t := s.(candidates := s.candidates[c := Recalculated(s, c)]);
    assert Rooted(s.candidates[c]) && Remembers(t.candidates[c]);
    forall k | 0 <= k < |t.candidates| ensures Counted(t, k) {
      assert SourcesIn(t, k) == SourcesIn(s, k);
      assert k != c ==> Counted(s, k);
    }
  }

  lemma AttachKeeps(s: State, c: nat, ev: nat, rule: Rule)
    requires c < |s.candidates| && ev < |s.evidence| && OkBut(s, c) && ActiveFor(s.links, ev) == {}
    ensures Ok(Attach(s, c, ev, rule))
  {
    var v := s.evidence[ev];
    var s1 := s.(links := s.links + [Association(c, ev, rule, v.official, true)],
                 candidates := s.candidates[c := Refreshed(s.candidates[c], v)]);
    RefreshedRooted(s.candidates[c], v);
    assert forall i :: 0 <= i < |s.links| && s.links[i].active && s.links[i].evidence == ev ==> i in ActiveFor(s.links, ev);
    forall k | 0 <= k < |s1.candidates| && k != c ensures Counted(s1, k) {
      assert Counted(s, k);
      assert ActiveIn(s1.links, k) == ActiveIn(s.links, k);
      assert SourcesIn(s1, k) == SourcesIn(s, k);
    }
    RecalculatedCounted(s1, c);
  }

  lemma DetachKeeps(s: State, i: nat)
    requires Ok(s) && i < |s.links| && s.links[i].candidate < |s.candidates|
    ensures Ok(Detached(s, i))
  {
    var c := s.links[i].candidate;
    var s1 := s.(links := s.links[i := s.links[i].(active := false)]);
    forall k | 0 <= k < |s1.candidates| && k != c ensures Counted(s1, k) {
      assert Counted(s, k);
      assert ActiveIn(s1.links, k) == ActiveIn(s.links, k);
      assert SourcesIn(s1, k) == SourcesIn(s, k);
    }
    RecalculatedCounted(s1, c);
  }

  /** At most one active association per evidence item. */
  lemma OneActive(s: State, ev: nat)
    requires LinksOk(s)
    ensures |ActiveFor(s.links, ev)| <= 1
    ensures forall i :: i in ActiveFor(s.links, ev) ==> ActiveFor(s.links, ev) == {i}
  {
    forall i | i in ActiveFor(s.links, ev) ensures ActiveFor(s.links, ev) == {i} {}
    if ActiveFor(s.links, ev) != {} {
      var i :| i in ActiveFor(s.links, ev);
      assert ActiveFor(s.links, ev) == {i};
    }
  }

  lemma ProcessKeeps(s: State, ev: nat)
    requires Ok(s)
    ensures Ok(Process(s, ev).state)
  {
    OneActive(s, ev);
    if ev < |s.evidence| && ActiveFor(s.links, ev) == {} {
      var v := s.evidence[ev];
      var d := Decide(v, s.candidates);
      ChooseMeans(Ranks(v, s.candidates));
      if d.Match? {
        AttachKeeps(s, d.candidate, ev, RuleFor(d));
      } else {
        var anchor := AnchorFor(v, ev, d);
        var holder := KeyHolder(s.candidates, anchor);
        if holder.Some? {
          AttachKeeps(s, holder.value, ev, RuleFor(d));
        } else {
          CreateKeeps(s, ev, anchor, RuleFor(d));
        }
      }
    }
  }

  lemma CreateKeeps(s: State, ev: nat, anchor: Anchor, rule: Rule)
    requires Ok(s) && ev < |s.evidence| && ActiveFor(s.links, ev) == {} && KeyHolder(s.candidates, anchor).None?
    requires anchor == AnchorOf(s.evidence[ev]) || anchor.Ambiguous?
    ensures Ok(Attach(s.(candidates := s.candidates + [NewRow(s.evidence[ev], anchor)]), |s.candidates|, ev, rule))
  {
    var v := s.evidence[ev];
    var s1 := s.(candidates := s.candidates + [NewRow(v, anchor)]);
    NewRowRooted(v, anchor);
    forall k | 0 <= k < |s1.candidates| && k != |s.candidates| ensures Counted(s1, k) {
      assert Counted(s, k);
      assert SourcesIn(s1, k) == SourcesIn(s, k);
    }
    AttachKeeps(s1, |s.candidates|, ev, rule);
  }

  lemma RegroupKeeps(s: State, ev: nat, from: nat, to: nat)
    requires Ok(s)
    ensures Ok(Regroup(s, ev, from, to).state)
  {
    if Regroup(s, ev, from, to).status.Regrouped? {
      var i := PairAt(s.links, from, ev).value;
      OneActive(s, ev);
      assert i in ActiveFor(s.links, ev);
      DetachKeeps(s, i);
      var t := Detached(s, i);
      forall k | k in ActiveFor(t.links, ev) ensures k in ActiveFor(s.links, ev) && k != i {}
      assert ActiveFor(t.links, ev) == {};
      AttachKeeps(t, to, ev, ReviewedRegroup);
    }
  }

  lemma ArriveKeeps(s: State, v: Item)
    requires Ok(s)
    ensures Ok(s.(evidence := s.evidence + [v]))
  {
    var t := s.(evidence := s.evidence + [v]);
    forall c | 0 <= c < |t.candidates| ensures Counted(t, c) {
      assert Counted(s, c);
      assert SourcesIn(t, c) == SourcesIn(s, c);
    }
  }

  lemma StepKeeps(s: State, a: Action)
    requires Ok(s)
    ensures Ok(Step(s, a))
  {
    match a
    case Processes(ev) => ProcessKeeps(s, ev);
    case Deactivates(c, ev) =>
      if PairAt(s.links, c, ev).Some? { DetachKeeps(s, PairAt(s.links, c, ev).value); }
    case Regroups(ev, from, to) => RegroupKeeps(s, ev, from, to);
    case Arrives(v) => ArriveKeeps(s, v);
  }

  /** Over every serial sequence of arrivals, processing, deactivation and regrouping. */
  lemma {:induction false} AggregatesAgree(items: seq<Item>, acts: seq<Action>)
    ensures Ok(Exec(State(items, [], []), acts))
  {
    if acts != [] {
      AggregatesAgree(items, acts[..|acts| - 1]);
      StepKeeps(Exec(State(items, [], []), acts[..|acts| - 1]), acts[|acts| - 1]);
    }
  }

  predicate AmbiguityKnown(s: State, ev: nat) {
    exists k :: 0 <= k < |s.candidates| && s.candidates[k].anchor == Ambiguous(ev)
  }

  /**
   NEW_CANDIDATE always creates. A creation falls back on an existing row exactly when the decision is ambiguous and
   this evidence item was already given an ambiguous candidate of its own.
   */
  lemma CreationExact(s: State, ev: nat)
    requires Ok(s) && ev < |s.evidence| && ActiveFor(s.links, ev) == {}
    ensures var d, r := Decide(s.evidence[ev], s.candidates), Process(s, ev);
            && (d.NewCandidate? ==> r.status.Created?)
            && (r.status.Created? <==> !d.Match? && !(d.AmbiguousCandidate? && AmbiguityKnown(s, ev)))
            && (r.status.ConcurrentExisting? <==> d.AmbiguousCandidate? && AmbiguityKnown(s, ev))
  {
    var v := s.evidence[ev];
    var d := Decide(v, s.candidates);
    ChooseMeans(Ranks(v, s.candidates));
    if d.NewCandidate? {
      forall k | 0 <= k < |s.candidates| ensures s.candidates[k].anchor != AnchorOf(v) {
        assert Rooted(s.candidates[k]);
        NewKeyIsFree(v, s.candidates, k);
      }
    }
  }

  /** Processing an associated item again changes nothing. */
  lemma ProcessTwice(s: State, ev: nat)
    requires Ok(s) && !Process(s, ev).status.Error?
    ensures Process(Process(s, ev).state, ev) == Processed(Process(s, ev).state, Existing)
  {
    var t := Process(s, ev).state;
    ProcessKeeps(s, ev);
    OneActive(t, ev);
    OneActive(s, ev);
    if ActiveFor(s.links, ev) == {} {
      assert |s.links| in ActiveFor(t.links, ev);
    }
  }
}
