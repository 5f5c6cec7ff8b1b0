/**
 The candidate service as it runs: rows updated in place by process, deactivate, regroup, refresh and recalculate.
 */
module CandidateService {
  import opened Matching
  import opened Candidates

  class EventCandidateService {
    var evidence: seq<Item>
    var candidates: seq<EventCandidate>
    var links: seq<Association>

    ghost function View(): (s: State)
      reads this
    {
      State(evidence, candidates, links)
    }

    /** _recalculate_aggregates: one pass over the associations. */
    method RecalculateAggregates(c: nat)
      requires c < |candidates| && LinksOk(View())
      modifies this`candidates
      ensures candidates == old(candidates)[c := Recalculated(old(View()), c)]
    {
      var count: nat := 0;
      var sources: set<nat> := {};
      ghost var seen: set<nat> := {};
      for n := 0 to |links|
        invariant seen == (set i | 0 <= i < n && links[i].active && links[i].candidate == c)
        invariant count == |seen| && sources == set i | i in seen :: SourceOf(View(), links[i].evidence)
      {
        if links[n].active && links[n].candidate == c {
          count := count + 1;
          sources := sources + {evidence[links[n].evidence].source};
          seen := seen + {n};
        }
      }
      assert seen == ActiveIn(links, c);
      var row := candidates[c].(evidenceCount := count, sourceCount := |sources|);
      if count == 0 {
        row := row.(status := Rejected);
      } else if row.status.Rejected? {
        row := row.(status := Candidate);
      }
      candidates := candidates[c := row];
    }

    /** The field updates of _refresh_candidate. */
    method RefreshFields(c: nat, v: Item)
      requires c < |candidates|
      modifies this`candidates
      ensures candidates == old(candidates)[c := Refreshed(old(candidates)[c], v)]
    {
      var row := candidates[c];
      row := row.(signatures := row.signatures + set x | x in Signatures(v));
      if v.fingerprint.Some? {
        row := row.(fingerprints := row.fingerprints + {v.fingerprint.value});
      }
      if row.strong.None? {
        row := row.(strong := Strong(v));
      }
      row := row.(entities := row.entities + set e | e in v.entities);
      row := row.(firstSeen := if SeenAt(v) < row.firstSeen then SeenAt(v) else row.firstSeen);
      row := row.(latestSeen := if SeenAt(v) > row.latestSeen then SeenAt(v) else row.latestSeen);
      candidates := candidates[c := row];
    }

    /** _associate, then _refresh_candidate. */
    method AssociateAndRefresh(c: nat, ev: nat, rule: Rule)
      requires c < |candidates| && ev < |evidence| && LinksOk(View()) && ActiveFor(links, ev) == {}
      modifies this`candidates, this`links
      ensures View() == Attach(old(View()), c, ev, rule)
    {
      assert forall i :: 0 <= i < |links| && links[i].active && links[i].evidence == ev ==> i in ActiveFor(links, ev);
      links := links + [Association(c, ev, rule, evidence[ev].official, true)];
      RefreshFields(c, evidence[ev]);
      RecalculateAggregates(c);
    }

    /** _create_or_get: insert, or fall back on the holder of the cluster key. */
    method CreateOrGet(v: Item, anchor: Anchor) returns (c: nat, status: Status)
      modifies this`candidates
      ensures c < |candidates| && (status.Created? || status.ConcurrentExisting?)
      ensures var holder := KeyHolder(old(candidates), anchor);
              if holder.Some? then c == holder.value && candidates == old(candidates) && status.ConcurrentExisting?
              else c == |old(candidates)| && candidates == old(candidates) + [NewRow(v, anchor)] && status.Created?
    {
      var holder := KeyHolder(candidates, anchor);
      if holder.Some? {
        return holder.value, ConcurrentExisting;
      }
      c := |candidates|;
      candidates := candidates + [NewRow(v, anchor)];
      return c, Created;
    }

    method ProcessItem(ev: nat) returns (status: Status)
      requires LinksOk(View())
      modifies this`candidates, this`links
      ensures Processed(View(), status) == Process(old(View()), ev)
    {
      if ev >= |evidence| {
        return Error;
      }
      var active := ActiveFor(links, ev);
      if |active| > 1 {
        return Error;
      }
      if |active| == 1 {
        return Existing;
      }
      var v := evidence[ev];
      var d := MatchExisting(v, candidates);
      if d.Match? {
        AssociateAndRefresh(d.candidate, ev, RuleFor(d));
        return Matched;
      }
      var c;
      c, status := CreateOrGet(v, AnchorFor(v, ev, d));
      AssociateAndRefresh(c, ev, RuleFor(d));
    }

    method DeactivateAssociation(c: nat, ev: nat) returns (status: Status)
      requires LinksOk(View())
      modifies this`candidates, this`links
      ensures Processed(View(), status) == Deactivate(old(View()), c, ev)
    {
      var i := PairAt(links, c, ev);
      if i.None? || c >= |candidates| {
        return Error;
      }
      links := links[i.value := links[i.value].(active := false)];
      RecalculateAggregates(c);
      return Matched;
    }

    method RegroupAssociation(ev: nat, from: nat, to: nat) returns (status: Status)
      requires LinksOk(View())
      modifies this`candidates, this`links
      ensures Processed(View(), status) == Regroup(old(View()), ev, from, to)
    {
      if from == to || ev >= |evidence| || to >= |candidates| || from >= |candidates| {
        return Error;
      }
      var i := PairAt(links, from, ev);
      if |ActiveFor(links, ev)| != 1 || i.None? {
        return Error;
      }
      OneActive(View(), ev);
      ghost var before, at := links, i.value;
      assert at in ActiveFor(links, ev);
      var _ := DeactivateAssociation(from, ev);
      assert forall k :: k in ActiveFor(links, ev) ==> k in ActiveFor(before, ev) && k != at;
      assert ActiveFor(links, ev) == {};
      AssociateAndRefresh(to, ev, ReviewedRegroup);
      return Regrouped;
    }
  }
}
