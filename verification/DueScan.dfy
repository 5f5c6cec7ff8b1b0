/**
 Claiming due targets: `TargetScheduler.claim_due` (src/market_intelligence/collection/control_plane.py) over
 `due_page` (src/market_intelligence/collection/target_repository.py), and the dispatch markers in Redis.

 The table is listed in (effective due, priority, id) order. Times are whole seconds.
 */
module DueScan {
  import opened Keys

  /** `automatic` says the row is active and not a fixed-window v2 target; `loadable` that loading it does not raise. */
  datatype Target = Target(due: int, priority: int, id: nat, retry: bool, revision: nat, cadence: int, maxRuntime: nat,
                           automatic: bool, loadable: bool)

  datatype Position = Position(due: int, priority: int, id: nat)

  function At(t: Target): (p: Position) { Position(t.due, t.priority, t.id) }

  predicate Before(a: Position, b: Position) {
    a.due < b.due || (a.due == b.due && (a.priority < b.priority || (a.priority == b.priority && a.id < b.id)))
  }

  predicate InOrder(rows: seq<Target>) {
    && (forall i, j :: 0 <= i < j < |rows| ==> Before(At(rows[i]), At(rows[j])))
    && (forall i, j :: 0 <= i < j < |rows| ==> rows[i].id != rows[j].id)
  }

  predicate IsDue(t: Target, now: int) { t.automatic && t.due <= now }

  predicate Wanted(t: Target, now: int, after: Option<Position>) {
    IsDue(t, now) && (after.Some? ==> Before(after.value, At(t)))
  }

  /** Every due row after a position, in order. */
  function DueRows(rows: seq<Target>, now: int, after: Option<Position>): (r: seq<Target>) {
    if rows == [] then []
    else
      var rest, last := DueRows(rows[..|rows| - 1], now, after), rows[|rows| - 1];
      if Wanted(last, now, after) then rest + [last] else rest
  }

  function Take(s: seq<Target>, n: nat): (r: seq<Target>) { if n < |s| then s[..n] else s }

  /** due_page */
  function DuePage(rows: seq<Target>, now: int, limit: nat, after: Option<Position>): (r: seq<Target>) {
    Take(DueRows(rows, now, after), limit)
  }

  lemma {:induction false} DueRowsOrdered(rows: seq<Target>, now: int, after: Option<Position>)
    requires InOrder(rows)
    ensures InOrder(DueRows(rows, now, after))
    ensures forall t :: t in DueRows(rows, now, after) <==> t in rows && Wanted(t, now, after)
  {
    if rows != [] {
      var init, last := rows[..|rows| - 1], rows[|rows| - 1];
      assert rows == init + [last];
      DueRowsOrdered(init, now, after);
      var rest := DueRows(init, now, after);
      forall i | 0 <= i < |rest| ensures Before(At(rest[i]), At(last)) && rest[i].id != last.id {
        assert rest[i] in init;
        var m :| 0 <= m < |init| && init[m] == rest[i];
        assert rows[m] == rest[i];
      }
    }
  }

  lemma FirstIsLeast(q: seq<Target>, t: Target)
    requires InOrder(q) && t in q
    ensures t == q[0] || Before(At(q[0]), At(t))
  {
  }

  /** Two ordered lists with the same rows are the same list. */
  lemma {:induction false} OrderedUnique(a: seq<Target>, b: seq<Target>)
    requires InOrder(a) && InOrder(b) && forall t :: t in a <==> t in b
    ensures a == b
  {
    assert b != [] ==> b[0] in b;
    if a != [] {
      FirstIsLeast(b, a[0]);
      FirstIsLeast(a, b[0]);
      assert a[0] == b[0];
      assert a == [a[0]] + a[1..] && b == [b[0]] + b[1..];
      forall t ensures t in a[1..] <==> t in b[1..] {
        assert t in a[1..] <==> t in a && t != a[0];
        assert t in b[1..] <==> t in b && t != b[0];
      }
      OrderedUnique(a[1..], b[1..]);
    }
  }

  function Resume(due: seq<Target>, k: nat): (after: Option<Position>)
    requires k <= |due|
  {
    if k == 0 then None else Some(At(due[k - 1]))
  }

  /** Resuming after the k-th due row yields exactly the rest: no gap and no repeat. */
  lemma ResumeIsSuffix(rows: seq<Target>, now: int, k: nat)
    requires InOrder(rows) && k <= |DueRows(rows, now, None)|
    ensures var due := DueRows(rows, now, None);
            DueRows(rows, now, Resume(due, k)) == due[k..]
  {
    var due := DueRows(rows, now, None);
    var rest := DueRows(rows, now, Resume(due, k));
    DueRowsOrdered(rows, now, None);
    DueRowsOrdered(rows, now, Resume(due, k));
    forall t ensures t in rest <==> t in due[k..] {
      if t in due {
        var i :| 0 <= i < |due| && due[i] == t;
        assert i >= k ==> due[k..][i - k] == t;
      }
    }
    OrderedUnique(rest, due[k..]);
  }

  /** The page after the k-th due row. */
  lemma PageIsSlice(rows: seq<Target>, now: int, k: nat, size: nat, page: seq<Target>)
    requires InOrder(rows) && k <= |DueRows(rows, now, None)|
    requires page == DuePage(rows, now, size, Resume(DueRows(rows, now, None), k))
    ensures var due := DueRows(rows, now, None);
            && k + |page| <= |due| && page == due[k..k + |page|]
            && |page| == (if size < |due| - k then size else |due| - k)
            && (page != [] ==> At(page[|page| - 1]) == Resume(due, k + |page|).value)
  {
    ResumeIsSuffix(rows, now, k);
  }

  /** The key a marker is stored under. */
  datatype Identity = Identity(target: nat, revision: nat, slot: int)

  function Cadence(t: Target): (c: int) { if t.cadence < 1 then 1 else t.cadence }

  function Slot(t: Target, now: int): (s: int) { if t.retry then t.due else now / Cadence(t) }

  function IdentityOf(t: Target, now: int): (i: Identity) { Identity(t.id, t.revision, Slot(t, now)) }

  /** ttl = max(marker_ttl, cadence, max_runtime + 900) */
  function Ttl(t: Target, markerTtl: nat): (n: nat)
    ensures n >= Cadence(t)
  {
    var a := if markerTtl < Cadence(t) then Cadence(t) else markerTtl;
    if a < t.maxRuntime + 900 then t.maxRuntime + 900 else a
  }

  /** Marker expiry times. SET NX succeeds when the key is absent or expired. */
  type Markers = map<Identity, int>

  predicate Free(m: Markers, i: Identity, now: int) { i in m ==> m[i] <= now }

  datatype Event = SetMarker(identity: Identity, now: int, ttl: nat) | Release(identity: Identity)

  predicate Grants(m: Markers, e: Event) { e.SetMarker? && Free(m, e.identity, e.now) }

  function Apply(m: Markers, e: Event): (n: Markers) {
    match e
    case SetMarker(i, now, ttl) => if Free(m, i, now) then m[i := now + ttl] else m
    case Release(i) => map k | k in m && k != i :: m[k]
  }

  function Replay(m: Markers, es: seq<Event>): (n: Markers) {
    if es == [] then m else Apply(Replay(m, es[..|es| - 1]), es[|es| - 1])
  }

  predicate Granted(m: Markers, es: seq<Event>, i: nat) {
    i < |es| && Grants(Replay(m, es[..i]), es[i])
  }

  /** The marker event of one due row; rows that do not load produce none. */
  function EventOf(t: Target, now: int, markerTtl: nat): (e: Event) {
    SetMarker(IdentityOf(t, now), now, Ttl(t, markerTtl))
  }

  function Events(due: seq<Target>, now: int, markerTtl: nat): (es: seq<Event>) {
    if due == [] then []
    else
      var rest, last := Events(due[..|due| - 1], now, markerTtl), due[|due| - 1];
      if last.loadable then rest + [EventOf(last, now, markerTtl)] else rest
  }

  /** The rows of a scanned prefix whose marker was set, in scan order. */
  function Claimed(m: Markers, due: seq<Target>, now: int, markerTtl: nat): (r: seq<Target>) {
    if due == [] then []
    else
      var init, last := due[..|due| - 1], due[|due| - 1];
      var rest := Claimed(m, init, now, markerTtl);
      if last.loadable && Free(Replay(m, Events(init, now, markerTtl)), IdentityOf(last, now), now) then rest + [last] else rest
  }

  lemma {:induction false} ClaimedOrdered(m: Markers, due: seq<Target>, now: int, markerTtl: nat)
    requires InOrder(due)
    ensures var c := Claimed(m, due, now, markerTtl);
            |c| <= |due| && InOrder(c) && forall t :: t in c ==> t in due && t.loadable
  {
    if due != [] {
      var init, last := due[..|due| - 1], due[|due| - 1];
      ClaimedOrdered(m, init, now, markerTtl);
      var rest := Claimed(m, init, now, markerTtl);
      forall i | 0 <= i < |rest| ensures Before(At(rest[i]), At(last)) && rest[i].id != last.id {
        assert rest[i] in init;
        var k :| 0 <= k < |init| && init[k] == rest[i];
        assert due[k] == rest[i];
      }
    }
  }

  /** The marker of a row, on its columns: one per target, revision and slot. A retry's slot is its due time, any other
      row's the number of the current cadence interval. */
  function MarkerKey(t: Target, now: int): (i: Identity) {
    Identity(t.id, t.revision, if t.retry then t.due else if t.cadence < 1 then now else now / t.cadence)
  }

  /** A row of the table a scan may claim: automatic, due, loadable, and its marker absent or expired. */
  predicate MayClaim(rows: seq<Target>, m: Markers, t: Target, now: int) {
    && t in rows && t.automatic && t.due <= now && t.loadable
    && (MarkerKey(t, now) in m ==> m[MarkerKey(t, now)] <= now)
  }

  /** Rows are in the order of due time, priority and id. */
  predicate Sequenced(rows: seq<Target>) {
    forall i, j :: 0 <= i < j < |rows| ==>
      || rows[i].due < rows[j].due
      || (rows[i].due == rows[j].due && rows[i].priority < rows[j].priority)
      || (rows[i].due == rows[j].due && rows[i].priority == rows[j].priority && rows[i].id < rows[j].id)
  }

  /** A marker outlives the scan by the longest of the configured time, the cadence and the runtime with its margin. */
  predicate Lives(t: Target, markerTtl: nat, life: int) {
    && life >= markerTtl && life >= t.cadence && life >= t.maxRuntime + 900
    && (life == markerTtl || life == t.cadence || life == t.maxRuntime + 900)
  }

  predicate KeyOfSome(claimed: seq<Target>, i: Identity, now: int) {
    exists t :: t in claimed && MarkerKey(t, now) == i
  }

  /** Markers after a scan: one for every claimed row, the others as they were. */
  ghost predicate Marked(m0: Markers, m: Markers, claimed: seq<Target>, now: int, markerTtl: nat) {
    && (forall t :: t in claimed ==> MarkerKey(t, now) in m && Lives(t, markerTtl, m[MarkerKey(t, now)] - now))
    && (forall i :: i in m0 ==> i in m)
    && (forall i :: i in m ==> (i in m0 && m[i] == m0[i]) || KeyOfSome(claimed, i, now))
  }

  /** Every claimed row comes from the scanned ones, is loadable and was free; and there is no other. */
  ghost predicate Exactly(m: Markers, due: seq<Target>, claimed: seq<Target>, now: int) {
    forall t :: t in claimed <==> t in due && t.loadable && (MarkerKey(t, now) in m ==> m[MarkerKey(t, now)] <= now)
  }

  lemma SameKey(t: Target, now: int)
    ensures IdentityOf(t, now) == MarkerKey(t, now)
  {
  }

  lemma TtlLives(t: Target, markerTtl: nat)
    ensures Lives(t, markerTtl, Ttl(t, markerTtl))
  {
  }

  lemma SetOneMore(m0: Markers, m: Markers, claimed: seq<Target>, t: Target, now: int, markerTtl: nat)
    requires Marked(m0, m, claimed, now, markerTtl) && forall x :: x in claimed ==> x.id != t.id
    ensures Marked(m0, m[MarkerKey(t, now) := now + Ttl(t, markerTtl)], claimed + [t], now, markerTtl)
  {
    var n := m[MarkerKey(t, now) := now + Ttl(t, markerTtl)];
    TtlLives(t, markerTtl);
    forall i | i in n ensures (i in m0 && n[i] == m0[i]) || KeyOfSome(claimed + [t], i, now) {
      assert t in claimed + [t];
      if i != MarkerKey(t, now) && KeyOfSome(claimed, i, now) {
        var x :| x in claimed && MarkerKey(x, now) == i;
        assert x in claimed + [t];
      }
    }
  }

  /** Whether the marker of a row not yet scanned is free was decided before the scan. */
  lemma FreeBefore(m0: Markers, m: Markers, claimed: seq<Target>, t: Target, now: int, markerTtl: nat)
    requires Marked(m0, m, claimed, now, markerTtl) && forall x :: x in claimed ==> x.id != t.id
    ensures Free(m, MarkerKey(t, now), now) <==> (MarkerKey(t, now) in m0 ==> m0[MarkerKey(t, now)] <= now)
  {
    assert !KeyOfSome(claimed, MarkerKey(t, now), now);
  }

  lemma DistinctIds(due: seq<Target>, n: nat, t: Target)
    requires InOrder(due) && n < |due| && t in due[..n]
    ensures t.id != due[n].id
  {
    var k :| 0 <= k < n && due[..n][k] == t;
    assert due[k] == t;
  }

  lemma ExactlyNext(m: Markers, due: seq<Target>, claimed: seq<Target>, t: Target, now: int)
    requires Exactly(m, due, claimed, now)
    ensures Exactly(m, due + [t], if t.loadable && (MarkerKey(t, now) in m ==> m[MarkerKey(t, now)] <= now) then claimed + [t] else claimed, now)
  {
  }

  /** What the scanned due rows leave behind, on the rows' columns. */
  ghost predicate ScannedRight(m0: Markers, due: seq<Target>, m: Markers, claimed: seq<Target>, now: int, markerTtl: nat) {
    Exactly(m0, due, claimed, now) && Marked(m0, m, claimed, now, markerTtl)
  }

  lemma ScannedNext(m0: Markers, due: seq<Target>, m: Markers, claimed: seq<Target>, t: Target, now: int, markerTtl: nat)
    requires ScannedRight(m0, due, m, claimed, now, markerTtl) && forall x :: x in due ==> x.id != t.id
    ensures if t.loadable && Free(m, IdentityOf(t, now), now)
            then ScannedRight(m0, due + [t], Apply(m, EventOf(t, now, markerTtl)), claimed + [t], now, markerTtl)
            else ScannedRight(m0, due + [t], m, claimed, now, markerTtl)
    ensures !Free(m, IdentityOf(t, now), now) ==> Apply(m, EventOf(t, now, markerTtl)) == m
  {
    SameKey(t, now);
    FreeBefore(m0, m, claimed, t, now, markerTtl);
    SetOneMore(m0, m, claimed, t, now, markerTtl);
    ExactlyNext(m0, due, claimed, t, now);
  }

  lemma ClaimedStep(m: Markers, due: seq<Target>, now: int, markerTtl: nat, k: nat, held: Markers, claimed: seq<Target>)
    requires InOrder(due) && k < |due| && ScannedRight(m, due[..k], held, claimed, now, markerTtl)
    requires held == Replay(m, Events(due[..k], now, markerTtl)) && claimed == Claimed(m, due[..k], now, markerTtl)
    ensures ScannedRight(m, due[..k + 1], Replay(m, Events(due[..k + 1], now, markerTtl)), Claimed(m, due[..k + 1], now, markerTtl), now, markerTtl)
  {
    ScanNext(m, due, k, now, markerTtl);
    forall t | t in due[..k] ensures t.id != due[k].id { DistinctIds(due, k, t); }
    ScannedNext(m, due[..k], held, claimed, due[k], now, markerTtl);
    assert due[..k + 1] == due[..k] + [due[k]];
  }

  lemma {:induction false} ClaimedExact(m: Markers, due: seq<Target>, now: int, markerTtl: nat, n: nat)
    requires InOrder(due) && n <= |due|
    ensures ScannedRight(m, due[..n], Replay(m, Events(due[..n], now, markerTtl)), Claimed(m, due[..n], now, markerTtl), now, markerTtl)
  {
    if n > 0 {
      var k := n - 1;
      ClaimedExact(m, due, now, markerTtl, k);
      ClaimedStep(m, due, now, markerTtl, k, Replay(m, Events(due[..k], now, markerTtl)), Claimed(m, due[..k], now, markerTtl));
    }
  }

  /** Claimed rows are due, automatic, loadable and unmarked, in order, with none such before them left out; each is marked. */
  ghost predicate ClaimsDue(rows: seq<Target>, now: int, m0: Markers, markerTtl: nat, m: Markers, claimed: seq<Target>) {
    && (forall t :: t in claimed ==> MayClaim(rows, m0, t, now))
    && (forall a, b :: b in claimed && MayClaim(rows, m0, a, now) && Before(At(a), At(b)) ==> a in claimed)
    && Sequenced(claimed) && Marked(m0, m, claimed, now, markerTtl)
  }

  /** Nothing before a scanned row is left out. */
  lemma ScannedBefore(rows: seq<Target>, now: int, n: nat, a: Target, b: Target)
    requires InOrder(rows) && n <= |DueRows(rows, now, None)| && b in DueRows(rows, now, None)[..n]
    requires a in rows && a.automatic && a.due <= now && Before(At(a), At(b))
    ensures a in DueRows(rows, now, None)[..n]
  {
    var due := DueRows(rows, now, None);
    DueRowsOrdered(rows, now, None);
    var i :| 0 <= i < |due| && due[i] == a;
    var j :| 0 <= j < n && due[..n][j] == b;
    assert j < i ==> Before(At(due[j]), At(due[i]));
    assert due[..n][i] == a;
  }

  lemma ScanMembers(m0: Markers, rows: seq<Target>, now: int, n: nat, claimed: seq<Target>)
    requires InOrder(rows) && n <= |DueRows(rows, now, None)| && Exactly(m0, DueRows(rows, now, None)[..n], claimed, now)
    ensures forall t :: t in claimed <==> t in DueRows(rows, now, None)[..n] && MayClaim(rows, m0, t, now)
    ensures forall t :: MayClaim(rows, m0, t, now) ==> t in DueRows(rows, now, None)
  {
    DueRowsOrdered(rows, now, None);
    assert forall t :: t in DueRows(rows, now, None)[..n] ==> t in DueRows(rows, now, None);
  }

  lemma NoneSkipped(m0: Markers, rows: seq<Target>, now: int, n: nat, claimed: seq<Target>, a: Target, b: Target)
    requires InOrder(rows) && n <= |DueRows(rows, now, None)| && Exactly(m0, DueRows(rows, now, None)[..n], claimed, now)
    requires b in claimed && MayClaim(rows, m0, a, now) && Before(At(a), At(b))
    ensures a in claimed
  {
    ScanMembers(m0, rows, now, n, claimed);
    ScannedBefore(rows, now, n, a, b);
  }

  /** A scan of the first n due rows claims every row it may and skips none, in order. */
  lemma ScanExact(m0: Markers, rows: seq<Target>, now: int, markerTtl: nat, n: nat, m: Markers, claimed: seq<Target>)
    requires InOrder(rows) && Scanned(m0, DueRows(rows, now, None), now, markerTtl, n, m, claimed)
    ensures ClaimsDue(rows, now, m0, markerTtl, m, claimed)
    ensures n == |DueRows(rows, now, None)| ==> forall t :: MayClaim(rows, m0, t, now) ==> t in claimed
  {
    var due := DueRows(rows, now, None);
    DueRowsOrdered(rows, now, None);
    ClaimedExact(m0, due, now, markerTtl, n);
    PrefixClaims(m0, rows, now, markerTtl, n);
    ScanMembers(m0, rows, now, n, claimed);
    forall a, b | b in claimed && MayClaim(rows, m0, a, now) && Before(At(a), At(b)) ensures a in claimed {
      NoneSkipped(m0, rows, now, n, claimed, a, b);
    }
    if n == |due| { assert due[..n] == due; }
  }

  lemma PrefixClaims(m: Markers, rows: seq<Target>, now: int, markerTtl: nat, n: nat)
    requires InOrder(rows) && n <= |DueRows(rows, now, None)|
    ensures InOrder(Claimed(m, DueRows(rows, now, None)[..n], now, markerTtl))
  {
    DueRowsOrdered(rows, now, None);
    ClaimedOrdered(m, DueRows(rows, now, None)[..n], now, markerTtl);
  }

  /** One more scanned row. */
  lemma ScanNext(m: Markers, due: seq<Target>, k: nat, now: int, markerTtl: nat)
    requires k < |due|
    ensures var before, after := due[..k], due[..k + 1];
            var held := Replay(m, Events(before, now, markerTtl));
            if due[k].loadable then
              && Replay(m, Events(after, now, markerTtl)) == Apply(held, EventOf(due[k], now, markerTtl))
              && Claimed(m, after, now, markerTtl) ==
                 Claimed(m, before, now, markerTtl) + (if Free(held, IdentityOf(due[k], now), now) then [due[k]] else [])
            else
              && Replay(m, Events(after, now, markerTtl)) == held
              && Claimed(m, after, now, markerTtl) == Claimed(m, before, now, markerTtl)
  {
    var before, after := due[..k], due[..k + 1];
    assert after[..|after| - 1] == before;
    if due[k].loadable {
      var es := Events(after, now, markerTtl);
      assert es[..|es| - 1] == Events(before, now, markerTtl);
    }
  }

  /** Eight rows for every wanted target, but at least 100 and at most 500. */
  function ScanBudget(limit: int): (n: nat)
    ensures 100 <= n <= 500 && (n == 8 * limit || (n == 100 && 8 * limit < n) || (n == 500 && 8 * limit > n))
  {
    var wide := if limit * 8 < 100 then 100 else limit * 8;
    if wide < 500 then wide else 500
  }

  /** What a scan of the first n due rows leaves behind. */
  ghost predicate Scanned(m0: Markers, due: seq<Target>, now: int, markerTtl: nat, n: nat, m: Markers, claimed: seq<Target>) {
    && n <= |due|
    && m == Replay(m0, Events(due[..n], now, markerTtl))
    && claimed == Claimed(m0, due[..n], now, markerTtl)
  }

  class TargetScheduler {
    const markerTtl: nat
    var markers: Markers

    /** The attempt on one row: skip it, or set its marker and claim it. */
    method Attempt(t: Target, now: int, claimed: seq<Target>, ghost m0: Markers, ghost due: seq<Target>, ghost k: nat)
      returns (r: seq<Target>)
      requires k < |due| && due[k] == t && Scanned(m0, due, now, markerTtl, k, markers, claimed)
      modifies this`markers
      ensures Scanned(m0, due, now, markerTtl, k + 1, markers, r) && |r| <= |claimed| + 1
    {
      ScanNext(m0, due, k, now, markerTtl);
      r := claimed;
      if !t.loadable {
        return;
      }
      var identity := IdentityOf(t, now);
      if identity !in markers || markers[identity] <= now {
        markers := markers[identity := now + Ttl(t, markerTtl)];
        r := claimed + [t];
      }
    }

    /** The inner loop over one page; it stops early when the limit is reached. */
    method ScanPage(page: seq<Target>, now: int, limit: nat, claimed: seq<Target>, ghost m0: Markers, ghost due: seq<Target>,
                    ghost k: nat) returns (r: seq<Target>, used: nat)
      requires |claimed| < limit && k + |page| <= |due| && page == due[k..k + |page|]
      requires Scanned(m0, due, now, markerTtl, k, markers, claimed)
      modifies this`markers
      ensures used <= |page| && |r| <= limit && (|r| < limit ==> used == |page|)
      ensures Scanned(m0, due, now, markerTtl, k + used, markers, r)
    {
      r, used := claimed, 0;
      while used < |page| && |r| < limit
        invariant used <= |page| && |r| <= limit
        invariant Scanned(m0, due, now, markerTtl, k + used, markers, r)
      {
        assert page[used] == due[k + used];
        r := Attempt(page[used], now, r, m0, due, k + used);
        used := used + 1;
      }
    }

    /** The outer loop: page after page, resuming after the last row scanned. */
    method ScanPages(rows: seq<Target>, now: int, limit: nat, budget: nat) returns (r: seq<Target>, ghost scanned: nat)
      requires InOrder(rows)
      modifies this`markers
      ensures var due := DueRows(rows, now, None);
              && Scanned(old(markers), due, now, markerTtl, scanned, markers, r)
              && scanned <= budget && |r| <= limit
              && (|r| == limit || scanned == budget || scanned == |due|)
    {
      ghost var due := DueRows(rows, now, None);
      var read: nat := 0;
      var after: Option<Position> := None;
      r, scanned := [], 0;
      while |r| < limit && read < budget
        invariant read <= budget && |r| <= limit && scanned <= read && scanned <= |due|
        invariant |r| < limit ==> scanned == read && after == Resume(due, scanned)
        invariant Scanned(old(markers), due, now, markerTtl, scanned, markers, r)
        decreases budget - read
      {
        var size := if budget - read < 100 then budget - read else 100;
        var page := DuePage(rows, now, size, after);
        PageIsSlice(rows, now, scanned, size, page);
        if page == [] {
          break;
        }
        read := read + |page|;
        var used;
        r, used := ScanPage(page, now, limit, r, old(markers), due, scanned);
        scanned := scanned + used;
        after := Some(At(page[|page| - 1]));
        if |page| < size {
          break;
        }
      }
    }

    /**
     claim_due on an unchanged table: it scans the due rows from the front, without gap or repeat, within the budget,
     stops only at the limit, the budget or the end, and returns the distinct targets whose markers it set: all it may claim
   when it was not stopped, and otherwise all of them up to the last one.
     */
    method ClaimDue(rows: seq<Target>, now: int, limit: int) returns (claimed: Option<seq<Target>>, ghost scanned: nat)
      requires InOrder(rows)
      modifies this`markers
      ensures claimed.None? <==> !(1 <= limit <= 500)
      ensures claimed.None? ==> markers == old(markers)
      ensures claimed.Some? ==>
                var due := DueRows(rows, now, None);
                && Scanned(old(markers), due, now, markerTtl, scanned, markers, claimed.value)
                && scanned <= ScanBudget(limit) && |claimed.value| <= limit && InOrder(claimed.value)
                && (|claimed.value| == limit || scanned == ScanBudget(limit) || scanned == |due|)
      ensures claimed.Some? ==> ClaimsDue(rows, now, old(markers), markerTtl, markers, claimed.value)
      ensures claimed.Some? && |claimed.value| < limit && scanned < ScanBudget(limit) ==>
                forall t :: MayClaim(rows, old(markers), t, now) ==> t in claimed.value
    {
      scanned := 0;
      if !(1 <= limit <= 500) {
        return None, scanned;
      }
      var r;
      r, scanned := ScanPages(rows, now, limit, ScanBudget(limit));
      PrefixClaims(old(markers), rows, now, markerTtl, scanned);
      ScanExact(old(markers), rows, now, markerTtl, scanned, markers, r);
      return Some(r), scanned;
    }

    method ReleaseMarker(identity: Identity)
      modifies this`markers
      ensures markers == Apply(old(markers), Release(identity))
    {
      markers := map k | k in markers && k != identity :: markers[k];
    }
  }

  /** While its marker is not released, an identity stays taken until the marker expires. */
  lemma {:induction false} HeldUntil(m: Markers, es: seq<Event>, i: nat, j: nat)
    requires i < j <= |es| && Granted(m, es, i)
    requires forall k :: i < k < j && es[k].Release? ==> es[k].identity != es[i].identity
    ensures var held := Replay(m, es[..j]);
            es[i].identity in held && held[es[i].identity] >= es[i].now + es[i].ttl
  {
    assert es[..j][..j - 1] == es[..j - 1];
    if j > i + 1 { HeldUntil(m, es, i, j - 1); }
  }

  /** The second of two grants of one identity, without a release between them, comes no earlier than the first expires. */
  lemma NoEarlySecondGrant(m: Markers, es: seq<Event>, i: nat, j: nat)
    requires i < j < |es| && Granted(m, es, i) && Granted(m, es, j) && es[j].identity == es[i].identity
    requires forall k :: i < k < j && es[k].Release? ==> es[k].identity != es[i].identity
    ensures es[j].now >= es[i].now + es[i].ttl
  {
    HeldUntil(m, es, i, j);
  }

  /**
   One cadence slot of a target revision is never claimed twice while its marker is not released: the marker outlives
   the slot. The two rows may differ in everything but identity and cadence.
   */
  lemma CadenceSlotOnce(m: Markers, es: seq<Event>, i: nat, j: nat, a: Target, b: Target, s: int, t: int, markerTtl: nat)
    requires i < j < |es| && es[i] == EventOf(a, s, markerTtl) && es[j] == EventOf(b, t, markerTtl)
    requires !a.retry && !b.retry && IdentityOf(a, s) == IdentityOf(b, t) && Cadence(a) == Cadence(b)
    requires forall k :: i < k < j && es[k].Release? ==> es[k].identity != es[i].identity
    ensures !(Granted(m, es, i) && Granted(m, es, j))
  {
    if Granted(m, es, i) && Granted(m, es, j) { NoEarlySecondGrant(m, es, i, j); }
    SameSlot(s, t, Cadence(a));
  }

  lemma SameSlot(s: int, t: int, cadence: int)
    requires cadence >= 1 && s / cadence == t / cadence
    ensures t < s + cadence
  {
  }

  /** A retry slot is the due time itself, so it can be claimed again once its marker has expired, and not before. */
  lemma RetrySlotAgain(m: Markers, a: Target, s: int, t: int, markerTtl: nat)
    requires a.retry && Grants(m, EventOf(a, s, markerTtl))
    ensures var held := Apply(m, EventOf(a, s, markerTtl));
            Grants(held, EventOf(a, t, markerTtl)) <==> t >= s + Ttl(a, markerTtl)
  {
  }
}
