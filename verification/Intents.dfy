/**
 Notification intents (src/market_intelligence/notifications/intent.py): one pass resolves open recoveries, then scans
 content past the cutover. Content rows are numbered in (created_at, id) order, recoveries in creation order.
 */
module Intents {
  import opened Keys

  datatype Provider = Marketaux | Finnhub | Eia | SecEdgar | OtherProvider
  datatype Kind = Article | FeedEntry | OfficialRelease | OtherKind

  /** `presentable` says a publication time is set and title and URL pass the safety checks. */
  datatype Row = Row(createdAt: int, id: nat, provider: Provider, enabled: bool, authorized: bool, kind: Kind,
                     companyNews: bool, presentable: bool)

  datatype Mark = Mark(createdAt: int, id: nat)

  datatype DedupKey = DedupKey(provider: Provider, content: nat)

  /** `own` says policy and channel are this policy's. */
  datatype Note = Note(content: nat, own: bool)

  datatype Recovery = Recovery(target: Option<nat>, resolved: bool)

  datatype State = State(rows: seq<Row>, cutover: Option<Mark>, notes: map<DedupKey, Note>, recoveries: seq<Recovery>,
                         scanned: set<nat>)

  predicate Past(m: Mark, r: Row) {
    r.createdAt > m.createdAt || (r.createdAt == m.createdAt && r.id > m.id)
  }

  /** The policy of `_candidate`: provider, source state, and the kinds the provider may announce. */
  predicate Announces(r: Row) {
    && !r.provider.OtherProvider? && r.enabled && r.authorized
    && (match r.provider
        case Finnhub => r.kind.Article?
        case Marketaux => r.kind.Article? || r.kind.FeedEntry?
        case SecEdgar => r.kind.OfficialRelease?
        case _ => false)
    && (r.provider.Finnhub? ==> r.companyNews)
  }

  /** The same policy as the WHERE clause of the scan. */
  predicate Selects(r: Row) {
    && r.enabled && r.authorized
    && (|| (r.provider.Finnhub? && r.kind.Article? && r.companyNews)
        || (r.provider.Marketaux? && (r.kind.Article? || r.kind.FeedEntry?))
        || (r.provider.SecEdgar? && r.kind.OfficialRelease?))
  }

  /** _candidate */
  predicate Eligible(s: State, i: nat) {
    i < |s.rows| && s.cutover.Some? && Past(s.cutover.value, s.rows[i]) && Announces(s.rows[i]) && s.rows[i].presentable
  }

  function KeyFor(s: State, i: nat): (k: DedupKey)
    requires i < |s.rows|
  {
    DedupKey(s.rows[i].provider, i)
  }

  /** create_pending_intent: insert unless the deduplication key exists. */
  predicate Creates(s: State, i: nat) { Eligible(s, i) && KeyFor(s, i) !in s.notes }

  function Create(s: State, i: nat): (n: State) {
    if Creates(s, i) then s.(notes := s.notes[KeyFor(s, i) := Note(i, true)]) else s
  }

  predicate Announced(s: State, i: nat) {
    exists k :: k in s.notes && s.notes[k].content == i && s.notes[k].own
  }

  /** What the two queries of a pass can return. */
  predicate IsOpen(s: State, r: nat) { r < |s.recoveries| && !s.recoveries[r].resolved }

  predicate IsUnscanned(s: State, i: nat) {
    i < |s.rows| && s.cutover.Some? && Past(s.cutover.value, s.rows[i]) && Selects(s.rows[i]) && !Announced(s, i) && i !in s.scanned
  }

  function Open(s: State): (r: set<nat>) { set r | 0 <= r < |s.recoveries| && IsOpen(s, r) }

  function Unscanned(s: State): (r: set<nat>) { set i | 0 <= i < |s.rows| && IsUnscanned(s, i) }

  function Backlog(s: State): (n: nat) { |Open(s)| + |Unscanned(s)| }

  function ResolveOne(s: State, r: nat): (n: State) {
    if !IsOpen(s, r) then s
    else
      var target := s.recoveries[r].target;
      var t := if target.Some? then Create(s, target.value) else s;
      t.(recoveries := s.recoveries[r := s.recoveries[r].(resolved := true)])
  }

  function ScanOne(s: State, i: nat): (n: State) {
    if Creates(s, i) then Create(s, i) else s.(scanned := s.scanned + {i})
  }

  function ResolveAll(s: State, rs: seq<nat>): (n: State) {
    if rs == [] then s else ResolveOne(ResolveAll(s, rs[..|rs| - 1]), rs[|rs| - 1])
  }

  function ScanAll(s: State, items: seq<nat>): (n: State) {
    if items == [] then s else ScanOne(ScanAll(s, items[..|items| - 1]), items[|items| - 1])
  }

  /** SELECT … ORDER BY … LIMIT: the first `limit` matching positions below `n`. */
  function FirstOpen(s: State, n: nat, limit: nat): (r: seq<nat>)
    ensures |r| <= limit
  {
    if n == 0 then []
    else
      var rest := FirstOpen(s, n - 1, limit);
      if |rest| < limit && IsOpen(s, n - 1) then rest + [n - 1] else rest
  }

  function FirstUnscanned(s: State, n: nat, limit: nat): (r: seq<nat>)
    ensures |r| <= limit
  {
    if n == 0 then []
    else
      var rest := FirstUnscanned(s, n - 1, limit);
      if |rest| < limit && IsUnscanned(s, n - 1) then rest + [n - 1] else rest
  }

  /** reconcile: one transaction. */
  function Pass(s: State, limit: nat): (n: State) {
    if s.cutover.None? then s
    else
      var recoveries := FirstOpen(s, |s.recoveries|, limit);
      var t := ResolveAll(s, recoveries);
      ScanAll(t, FirstUnscanned(t, |t.rows|, limit - |recoveries|))
  }

  /** The two forms of the policy agree. */
  lemma PolicyFormsAgree(r: Row)
    ensures Announces(r) <==> Selects(r)
  {
  }

  predicate SameBase(s: State, t: State) {
    t.rows == s.rows && t.cutover == s.cutover && |t.recoveries| == |s.recoveries|
  }

  lemma CreateEffect(s: State, i: nat)
    ensures var t := Create(s, i);
            && SameBase(s, t) && t.recoveries == s.recoveries && t.scanned == s.scanned
            && (forall j :: Announced(t, j) <==> Announced(s, j) || (j == i && Creates(s, i)))
            && Unscanned(t) == Unscanned(s) - (if Creates(s, i) then {i} else {})
  {
    var t := Create(s, i);
    forall j ensures Announced(t, j) <==> Announced(s, j) || (j == i && Creates(s, i)) {
      if Announced(s, j) {
        var k :| k in s.notes && s.notes[k].content == j && s.notes[k].own;
        assert k in t.notes && t.notes[k].content == j;
      }
      if Creates(s, i) { assert KeyFor(s, i) in t.notes; }
    }
  }

  lemma ScanOneEffect(s: State, i: nat)
    requires IsUnscanned(s, i)
    ensures SameBase(s, ScanOne(s, i)) && Unscanned(ScanOne(s, i)) == Unscanned(s) - {i} && Open(ScanOne(s, i)) == Open(s)
  {
    CreateEffect(s, i);
    var t := ScanOne(s, i);
    if !Creates(s, i) { assert forall j :: Announced(t, j) <==> Announced(s, j); }
  }

  lemma ResolveOneEffect(s: State, r: nat)
    requires IsOpen(s, r)
    ensures SameBase(s, ResolveOne(s, r)) && Open(ResolveOne(s, r)) == Open(s) - {r}
    ensures Unscanned(ResolveOne(s, r)) <= Unscanned(s)
  {
    var target := s.recoveries[r].target;
    if target.Some? { CreateEffect(s, target.value); }
    var u := if target.Some? then Create(s, target.value) else s;
    var t := ResolveOne(s, r);
    assert forall j :: Announced(t, j) <==> Announced(u, j);
    assert Unscanned(t) == Unscanned(u);
  }

  predicate Ascending(q: seq<nat>) { forall a, b :: 0 <= a < b < |q| ==> q[a] < q[b] }

  function Members(q: seq<nat>): (r: set<nat>) { set x | x in q }

  lemma {:induction false} MembersCount(q: seq<nat>)
    requires Ascending(q)
    ensures |Members(q)| == |q|
  {
    if q != [] {
      var init := q[..|q| - 1];
      MembersCount(init);
      assert Members(q) == Members(init) + {q[|q| - 1]};
    }
  }

  lemma {:induction false} ResolveAllEffect(s: State, rs: seq<nat>)
    requires Ascending(rs) && forall r :: r in rs ==> r in Open(s)
    ensures SameBase(s, ResolveAll(s, rs)) && Open(ResolveAll(s, rs)) == Open(s) - Members(rs)
    ensures Unscanned(ResolveAll(s, rs)) <= Unscanned(s)
  {
    if rs != [] {
      var init, last := rs[..|rs| - 1], rs[|rs| - 1];
      assert rs == init + [last];
      ResolveAllEffect(s, init);
      assert last !in Members(init) && last in rs;
      var t := ResolveAll(s, init);
      assert last in Open(t);
      ResolveOneEffect(t, last);
      assert Members(rs) == Members(init) + {last};
      assert Open(ResolveOne(t, last)) == Open(s) - Members(rs);
    }
  }

  lemma {:induction false} ScanAllEffect(s: State, items: seq<nat>)
    requires Ascending(items) && forall i :: i in items ==> i in Unscanned(s)
    ensures SameBase(s, ScanAll(s, items)) && Unscanned(ScanAll(s, items)) == Unscanned(s) - Members(items)
    ensures Open(ScanAll(s, items)) == Open(s)
  {
    if items != [] {
      var init, last := items[..|items| - 1], items[|items| - 1];
      assert items == init + [last];
      ScanAllEffect(s, init);
      assert last !in Members(init) && last in items;
      assert last in Unscanned(ScanAll(s, init));
      ScanOneEffect(ScanAll(s, init), last);
      assert Members(items) == Members(init) + {last};
    }
  }

  /** A limited selection takes everything there is, or exactly its limit. */
  lemma {:induction false} FirstOpenTakes(s: State, n: nat, limit: nat)
    requires n <= |s.recoveries|
    ensures var q := FirstOpen(s, n, limit);
            && Ascending(q) && (forall a :: 0 <= a < |q| ==> q[a] < n && q[a] in Open(s))
            && (|q| < limit ==> forall x :: 0 <= x < n && IsOpen(s, x) ==> x in q)
  {
    if n > 0 { FirstOpenTakes(s, n - 1, limit); }
  }

  lemma {:induction false} FirstUnscannedTakes(s: State, n: nat, limit: nat)
    requires n <= |s.rows|
    ensures var q := FirstUnscanned(s, n, limit);
            && Ascending(q) && (forall a :: 0 <= a < |q| ==> q[a] < n && q[a] in Unscanned(s))
            && (|q| < limit ==> forall x :: 0 <= x < n && IsUnscanned(s, x) ==> x in q)
  {
    if n > 0 { FirstUnscannedTakes(s, n - 1, limit); }
  }

  function Min(a: int, b: int): (m: int) { if a < b then a else b }

  lemma OpenTaken(s: State, limit: nat)
    ensures var q := FirstOpen(s, |s.recoveries|, limit);
            |q| == Min(limit, |Open(s)|) && Members(q) <= Open(s) && |Open(s) - Members(q)| == |Open(s)| - |q|
  {
    FirstOpenTakes(s, |s.recoveries|, limit);
    var q := FirstOpen(s, |s.recoveries|, limit);
    MembersCount(q);
    if |q| < limit { assert Open(s) == Members(q); }
    Remove(Open(s), Members(q));
  }

  lemma UnscannedTaken(s: State, limit: nat)
    ensures var q := FirstUnscanned(s, |s.rows|, limit);
            |q| == Min(limit, |Unscanned(s)|) && Members(q) <= Unscanned(s) && |Unscanned(s) - Members(q)| == |Unscanned(s)| - |q|
  {
    FirstUnscannedTakes(s, |s.rows|, limit);
    var q := FirstUnscanned(s, |s.rows|, limit);
    MembersCount(q);
    if |q| < limit { assert Unscanned(s) == Members(q); }
    Remove(Unscanned(s), Members(q));
  }

  lemma {:induction false} SubsetCount(a: set<nat>, b: set<nat>)
    requires a <= b
    ensures |a| <= |b|
  {
    if a != {} {
      var x :| x in a;
      SubsetCount(a - {x}, b - {x});
    }
  }

  lemma Remove(all: set<nat>, part: set<nat>)
    requires part <= all
    ensures |all - part| == |all| - |part| && |part| <= |all|
  {
  }

  lemma ResolvePhase(s: State, limit: nat)
    ensures var rs := FirstOpen(s, |s.recoveries|, limit);
            var t := ResolveAll(s, rs);
            && SameBase(s, t) && |rs| == Min(limit, |Open(s)|) && |Open(t)| == |Open(s)| - |rs| && |Unscanned(t)| <= |Unscanned(s)|
  {
    var rs := FirstOpen(s, |s.recoveries|, limit);
    FirstOpenTakes(s, |s.recoveries|, limit);
    OpenTaken(s, limit);
    ResolveAllEffect(s, rs);
    SubsetCount(Unscanned(ResolveAll(s, rs)), Unscanned(s));
  }

  lemma ScanPhase(s: State, limit: nat)
    ensures var items := FirstUnscanned(s, |s.rows|, limit);
            var t := ScanAll(s, items);
            && SameBase(s, t) && |Open(t)| == |Open(s)| && |Unscanned(t)| == |Unscanned(s)| - Min(limit, |Unscanned(s)|)
  {
    var items := FirstUnscanned(s, |s.rows|, limit);
    FirstUnscannedTakes(s, |s.rows|, limit);
    UnscannedTaken(s, limit);
    ScanAllEffect(s, items);
  }

  /** Every pass shrinks the backlog by at least the limit, or empties it. */
  lemma PassShrinks(s: State, limit: nat)
    requires s.cutover.Some?
    ensures SameBase(s, Pass(s, limit)) && Backlog(Pass(s, limit)) <= Backlog(s) - Min(limit, Backlog(s))
  {
    var rs := FirstOpen(s, |s.recoveries|, limit);
    ResolvePhase(s, limit);
    ScanPhase(ResolveAll(s, rs), limit - |rs|);
  }

  /** An item is marked scanned only if it is not eligible or already has its notification; own notes sit at their key. */
  predicate Ok(s: State) {
    && (forall i :: i in s.scanned && Eligible(s, i) ==> KeyFor(s, i) in s.notes)
    && (forall k :: k in s.notes && s.notes[k].own && s.notes[k].content < |s.rows| ==> k == KeyFor(s, s.notes[k].content))
  }

  /** Notifications are only added, and only for content past the cutover. */
  predicate AddsPastCutover(s: State, t: State) {
    && SameBase(s, t)
    && (forall k :: k in s.notes ==> k in t.notes && t.notes[k] == s.notes[k])
    && (forall k :: k in t.notes && k !in s.notes ==> t.notes[k].own && Eligible(s, t.notes[k].content))
  }

  lemma OnePreserves(s: State, i: nat)
    requires Ok(s)
    ensures Ok(ScanOne(s, i)) && AddsPastCutover(s, ScanOne(s, i))
    ensures Ok(ResolveOne(s, i)) && AddsPastCutover(s, ResolveOne(s, i))
  {
    var t := ScanOne(s, i);
    assert forall j :: Eligible(t, j) <==> Eligible(s, j);
    var u := ResolveOne(s, i);
    assert forall j :: Eligible(u, j) <==> Eligible(s, j);
  }

  lemma AddsChains(a: State, b: State, c: State)
    requires AddsPastCutover(a, b) && AddsPastCutover(b, c)
    ensures AddsPastCutover(a, c)
  {
  }

  lemma {:induction false} ResolveAllPreserves(s: State, rs: seq<nat>)
    requires Ok(s)
    ensures Ok(ResolveAll(s, rs)) && AddsPastCutover(s, ResolveAll(s, rs))
  {
    if rs != [] {
      var t := ResolveAll(s, rs[..|rs| - 1]);
      ResolveAllPreserves(s, rs[..|rs| - 1]);
      OnePreserves(t, rs[|rs| - 1]);
      AddsChains(s, t, ResolveAll(s, rs));
    }
  }

  lemma {:induction false} ScanAllPreserves(s: State, items: seq<nat>)
    requires Ok(s)
    ensures Ok(ScanAll(s, items)) && AddsPastCutover(s, ScanAll(s, items))
  {
    if items != [] {
      var t := ScanAll(s, items[..|items| - 1]);
      ScanAllPreserves(s, items[..|items| - 1]);
      OnePreserves(t, items[|items| - 1]);
      AddsChains(s, t, ScanAll(s, items));
    }
  }

  lemma PassPreserves(s: State, limit: nat)
    requires Ok(s)
    ensures Ok(Pass(s, limit)) && AddsPastCutover(s, Pass(s, limit))
  {
    if s.cutover.Some? {
      var rs := FirstOpen(s, |s.recoveries|, limit);
      var t := ResolveAll(s, rs);
      ResolveAllPreserves(s, rs);
      ScanAllPreserves(t, FirstUnscanned(t, |t.rows|, limit - |rs|));
      AddsChains(s, t, Pass(s, limit));
    }
  }

  function Passes(s: State, limits: seq<nat>): (n: State) {
    if limits == [] then s else Pass(Passes(s, limits[..|limits| - 1]), limits[|limits| - 1])
  }

  function Total(limits: seq<nat>): (n: nat) {
    if limits == [] then 0 else Total(limits[..|limits| - 1]) + limits[|limits| - 1]
  }

  lemma {:induction false} PassesShrink(s: State, limits: seq<nat>)
    requires Ok(s) && s.cutover.Some?
    ensures var t := Passes(s, limits);
            && Ok(t) && AddsPastCutover(s, t) && t.cutover == s.cutover
            && (Total(limits) >= Backlog(s) ==> Backlog(t) == 0)
            && (Total(limits) < Backlog(s) ==> Backlog(t) <= Backlog(s) - Total(limits))
  {
    if limits != [] {
      var init, last := limits[..|limits| - 1], limits[|limits| - 1];
      PassesShrink(s, init);
      var t := Passes(s, init);
      PassShrinks(t, last);
      PassPreserves(t, last);
      AddsChains(s, t, Passes(s, limits));
    }
  }

  /** Own notifications of an item. */
  function NotesOf(s: State, i: nat): (r: set<DedupKey>) {
    set k | k in s.notes && s.notes[k].content == i && s.notes[k].own
  }

  /**
   Enough passes empty the backlog. Then every eligible item holds its deduplication key, no item has two intents, and
   every intent that was created is for an item past the cutover.
   */
  lemma EventuallyAnnounced(s: State, limits: seq<nat>, i: nat)
    requires Ok(s) && s.cutover.Some? && Total(limits) >= Backlog(s)
    ensures var t := Passes(s, limits);
            && Backlog(t) == 0 && AddsPastCutover(s, t)
            && (Eligible(s, i) ==> KeyFor(t, i) in t.notes)
            && (i < |s.rows| ==> NotesOf(t, i) <= {KeyFor(t, i)})
            && (i < |s.rows| && !Past(s.cutover.value, s.rows[i]) ==> NotesOf(t, i) == NotesOf(s, i))
  {
    PassesShrink(s, limits);
    var t := Passes(s, limits);
    assert Unscanned(t) == {};
    if Eligible(s, i) {
      PolicyFormsAgree(s.rows[i]);
      assert i !in Unscanned(t);
      if Announced(t, i) {
        var k :| k in t.notes && t.notes[k].content == i && t.notes[k].own;
        assert k == KeyFor(t, i);
      }
    }
  }

  /** Content the policy announces, on its columns: provider, kind, source state and presentation. */
  predicate Publishable(r: Row) {
    && r.enabled && r.authorized && r.presentable
    && (|| (r.provider == Finnhub && r.kind == Article && r.companyNews)
        || (r.provider == Marketaux && (r.kind == Article || r.kind == FeedEntry))
        || (r.provider == SecEdgar && r.kind == OfficialRelease))
  }

  /** At or before the watermark in (created_at, id) order. */
  predicate Behind(r: Row, m: Mark) {
    r.createdAt < m.createdAt || (r.createdAt == m.createdAt && r.id <= m.id)
  }

  lemma EligibleExact(s: State, i: nat)
    requires i < |s.rows| && s.cutover.Some?
    ensures Eligible(s, i) <==> Publishable(s.rows[i]) && !Behind(s.rows[i], s.cutover.value)
  {
  }

  /** Content at or before the watermark, or that the policy does not announce, never gains an intent, in any number of passes. */
  lemma NeverBehind(s: State, limits: seq<nat>, i: nat)
    requires Ok(s) && s.cutover.Some? && i < |s.rows|
    requires Behind(s.rows[i], s.cutover.value) || !Publishable(s.rows[i])
    ensures NotesOf(Passes(s, limits), i) == NotesOf(s, i)
  {
    PassesShrink(s, limits);
    EligibleExact(s, i);
  }

  /** Enough passes give every announceable item created after the watermark, or with it under a greater id, its one intent. */
  lemma EveryLaterItem(s: State, limits: seq<nat>, i: nat)
    requires Ok(s) && s.cutover.Some? && Total(limits) >= Backlog(s) && i < |s.rows| && Publishable(s.rows[i])
    requires var m := s.cutover.value;
             s.rows[i].createdAt > m.createdAt || (s.rows[i].createdAt == m.createdAt && s.rows[i].id > m.id)
    ensures DedupKey(s.rows[i].provider, i) in Passes(s, limits).notes
    ensures NotesOf(Passes(s, limits), i) <= {DedupKey(s.rows[i].provider, i)}
  {
    EligibleExact(s, i);
    EventuallyAnnounced(s, limits, i);
  }

  datatype Report = Report(scanned: nat, created: nat, resolved: nat)

  class NotificationIntentReconciler {
    var rows: seq<Row>
    var cutover: Option<Mark>
    var notes: map<DedupKey, Note>
    var recoveries: seq<Recovery>
    var scanned: set<nat>

    ghost function View(): (s: State)
      reads this
    {
      State(rows, cutover, notes, recoveries, scanned)
    }

    method CreatePendingIntent(i: nat) returns (created: bool)
      modifies this`notes
      ensures View() == Create(old(View()), i) && created == Creates(old(View()), i)
      ensures created <==> && i < |rows| && cutover.Some? && Publishable(rows[i]) && !Behind(rows[i], cutover.value)
                           && DedupKey(rows[i].provider, i) !in old(notes)
      ensures notes == if created then old(notes)[DedupKey(rows[i].provider, i) := Note(i, true)] else old(notes)
    {
      if i >= |rows| || cutover.None? || !Past(cutover.value, rows[i]) || !Announces(rows[i]) || !rows[i].presentable {
        return false;
      }
      var key := DedupKey(rows[i].provider, i);
      if key in notes {
        return false;
      }
      notes := notes[key := Note(i, true)];
      return true;
    }

    /** The first loop: every selected recovery is resolved, its intent created when it still qualifies. */
    method ResolveRecoveries(selected: seq<nat>)
      requires Members(selected) <= Open(View()) && Ascending(selected)
      modifies this`notes, this`recoveries
      ensures View() == ResolveAll(old(View()), selected)
    {
      ghost var start := View();
      assert forall m :: 0 <= m < |selected| ==> selected[m] in Members(selected);
      for n := 0 to |selected|
        invariant View() == ResolveAll(start, selected[..n])
        invariant rows == start.rows && |recoveries| == |start.recoveries|
        invariant forall m :: n <= m < |selected| ==> IsOpen(View(), selected[m])
      {
        var r := selected[n];
        assert selected[..n + 1][..n] == selected[..n];
        var target := recoveries[r].target;
        if target.Some? {
          var _ := CreatePendingIntent(target.value);
        }
        recoveries := recoveries[r := recoveries[r].(resolved := true)];
      }
      assert selected[..|selected|] == selected;
    }

    /** The second loop: create an intent, or mark the item scanned. */
    method ScanCandidates(selected: seq<nat>) returns (created: nat)
      modifies this`notes, this`scanned
      ensures View() == ScanAll(old(View()), selected) && created <= |selected|
    {
      created := 0;
      ghost var start := View();
      for n := 0 to |selected|
        invariant View() == ScanAll(start, selected[..n]) && created <= n
      {
        assert selected[..n + 1][..n] == selected[..n];
        var done := CreatePendingIntent(selected[n]);
        if done {
          created := created + 1;
        } else {
          scanned := scanned + {selected[n]};
        }
      }
      assert selected[..|selected|] == selected;
    }

    method RecoveryPhase(limit: nat) returns (resolved: nat)
      modifies this`notes, this`recoveries
      ensures View() == ResolveAll(old(View()), FirstOpen(old(View()), |old(recoveries)|, limit))
      ensures resolved == |FirstOpen(old(View()), |old(recoveries)|, limit)| && |rows| == |old(rows)|
    {
      var selected := FirstOpen(State(rows, cutover, notes, recoveries, scanned), |recoveries|, limit);
      FirstOpenTakes(View(), |recoveries|, limit);
      OpenTaken(View(), limit);
      ResolveRecoveries(selected);
      resolved := |selected|;
    }

    method ScanPhaseOf(limit: nat) returns (count: nat, created: nat)
      modifies this`notes, this`scanned
      ensures View() == ScanAll(old(View()), FirstUnscanned(old(View()), |old(rows)|, limit))
      ensures created <= count <= limit
    {
      var selected := FirstUnscanned(State(rows, cutover, notes, recoveries, scanned), |rows|, limit);
      created := ScanCandidates(selected);
      count := |selected|;
    }

    /** reconcile; an out-of-range limit raises before anything is read. */
    method Reconcile(limit: int) returns (report: Option<Report>)
      modifies this`notes, this`recoveries, this`scanned
      ensures report.None? <==> !(1 <= limit <= 500)
      ensures report.None? ==> View() == old(View())
      ensures report.Some? ==> View() == Pass(old(View()), limit) && report.value.scanned <= limit
    {
      if !(1 <= limit <= 500) {
        return None;
      }
      if cutover.None? {
        return Some(Report(0, 0, 0));
      }
      var resolved := RecoveryPhase(limit);
      var count, created := ScanPhaseOf(limit - resolved);
      return Some(Report(resolved + count, created, resolved));
    }
  }
}
