/**
 Keyset paging: sort, drop everything up to the last key, deduplicate, take the first `limit` rows.
 Finnhub uses it directly (src/market_intelligence/providers/breadth.py), SEC inside each file.
 */
module Keyset {
  import opened Keys
  import opened Continuation
  import opened Pages

  ghost predicate Ascending(ps: seq<Payload>) {
    forall i, j :: 0 <= i < j < |ps| ==> KeyLe(KeyOf(ps[i]), KeyOf(ps[j]))
  }

  ghost predicate Strict(ps: seq<Payload>) {
    forall i, j :: 0 <= i < j < |ps| ==> KeyLt(KeyOf(ps[i]), KeyOf(ps[j]))
  }

  ghost predicate SameMembers(a: seq<Payload>, b: seq<Payload>) {
    forall x :: x in a <==> x in b
  }

  /** Stable insertion: after every row with the same or a smaller key. */
  function Insert(p: Payload, s: seq<Payload>): (r: seq<Payload>) {
    if s == [] || !KeyLt(KeyOf(p), KeyOf(s[|s| - 1])) then s + [p]
    else Insert(p, s[..|s| - 1]) + [s[|s| - 1]]
  }

  /** list.sort(key=...) */
  function Sorted(ps: seq<Payload>): (r: seq<Payload>) {
    if ps == [] then [] else Insert(ps[|ps| - 1], Sorted(ps[..|ps| - 1]))
  }

  function Above(ps: seq<Payload>, k: Key): (r: seq<Payload>) {
    if ps == [] then []
    else
      var rest := Above(ps[..|ps| - 1], k);
      if KeyLt(k, KeyOf(ps[|ps| - 1])) then rest + [ps[|ps| - 1]] else rest
  }

  function Take(ps: seq<Payload>, limit: nat): (r: seq<Payload>) {
    if |ps| <= limit then ps else ps[..limit]
  }

  lemma {:induction false} InsertSorted(p: Payload, s: seq<Payload>)
    requires Ascending(s)
    ensures Ascending(Insert(p, s))
    ensures forall x :: x in Insert(p, s) <==> x == p || x in s
  {
    KeyOrder();
    if s != [] && KeyLt(KeyOf(p), KeyOf(s[|s| - 1])) {
      var init, last := s[..|s| - 1], s[|s| - 1];
      assert s == init + [last];
      InsertSorted(p, init);
      var r := Insert(p, init);
      forall i | 0 <= i < |r| ensures KeyLe(KeyOf(r[i]), KeyOf(last)) {
        assert r[i] == p || r[i] in init;
      }
    }
  }

  lemma {:induction false} SortedSorts(ps: seq<Payload>)
    ensures Ascending(Sorted(ps)) && SameMembers(Sorted(ps), ps)
  {
    if ps != [] {
      assert ps == ps[..|ps| - 1] + [ps[|ps| - 1]];
      SortedSorts(ps[..|ps| - 1]);
      InsertSorted(ps[|ps| - 1], Sorted(ps[..|ps| - 1]));
    }
  }

  lemma {:induction false} AboveFilters(ps: seq<Payload>, k: Key)
    ensures forall x :: x in Above(ps, k) <==> x in ps && KeyLt(k, KeyOf(x))
    ensures Ascending(ps) ==> Ascending(Above(ps, k))
  {
    if ps != [] {
      var init, last := ps[..|ps| - 1], ps[|ps| - 1];
      assert ps == init + [last];
      AboveFilters(init, k);
      if Ascending(ps) {
        forall x | x in init ensures KeyLe(KeyOf(x), KeyOf(last)) {
          var i :| 0 <= i < |init| && init[i] == x;
          assert ps[i] == x;
        }
      }
    }
  }

  /** Deduplicating an ascending list without conflicts leaves strictly rising keys. */
  lemma {:induction false} FirstOnlyStrict(ps: seq<Payload>)
    requires Ascending(ps) && !Conflict(ps)
    ensures Strict(FirstOnly(ps)) && SameMembers(FirstOnly(ps), ps)
  {
    DedupExact(ps);
    if ps != [] {
      var init, last := ps[..|ps| - 1], ps[|ps| - 1];
      assert forall i :: 0 <= i < |init| ==> init[i] == ps[i];
      FirstOnlyStrict(init);
      if last !in init {
        var d := FirstOnly(init);
        forall i | 0 <= i < |d| ensures KeyLt(KeyOf(d[i]), KeyOf(last)) {
          assert d[i] in init;
          var k :| 0 <= k < |init| && init[k] == d[i];
          assert KeyLe(KeyOf(ps[k]), KeyOf(last)) && ps[k] != last;
        }
      }
    }
  }

  /** A strictly ascending list is determined by its members. */
  lemma {:induction false} StrictUnique(a: seq<Payload>, b: seq<Payload>)
    requires Strict(a) && Strict(b) && SameMembers(a, b)
    ensures a == b
  {
    KeyOrder();
    assert a != [] ==> a[0] in b;
    assert b != [] ==> b[0] in a;
    if a != [] && b != [] {
      var m, n := |a| - 1, |b| - 1;
      assert a[m] == b[n] by {
        assert a[m] in b && b[n] in a;
        var i :| 0 <= i < |b| && b[i] == a[m];
        var j :| 0 <= j < |a| && a[j] == b[n];
      }
      forall x ensures x in a[..m] <==> x in b[..n] {
        assert a == a[..m] + [a[m]] && b == b[..n] + [b[n]];
        if x in a[..m] {
          var i :| 0 <= i < m && a[i] == x;
          assert KeyLt(KeyOf(x), KeyOf(a[m])) && x in b;
        }
        if x in b[..n] {
          var i :| 0 <= i < n && b[i] == x;
          assert KeyLt(KeyOf(x), KeyOf(b[n])) && x in a;
        }
      }
      StrictUnique(a[..m], b[..n]);
    }
  }

  lemma ConflictFree(a: seq<Payload>, b: seq<Payload>)
    requires !Conflict(b) && forall x :: x in a ==> x in b
    ensures !Conflict(a)
  {
    forall i, j | 0 <= i < j < |a| && a[i].id == a[j].id ensures a[i] == a[j] {
      assert a[i] in b && a[j] in b;
      var k :| 0 <= k < |b| && b[k] == a[i];
      var l :| 0 <= l < |b| && b[l] == a[j];
    }
  }

  /** The reference result: the whole list sorted and deduplicated. */
  function Listing(ps: seq<Payload>): (r: seq<Payload>) {
    FirstOnly(Sorted(ps))
  }

  lemma ListingStrict(ps: seq<Payload>)
    requires !Conflict(ps)
    ensures Strict(Listing(ps)) && SameMembers(Listing(ps), ps) && DistinctIds(Listing(ps))
  {
    SortedSorts(ps);
    ConflictFree(Sorted(ps), ps);
    FirstOnlyStrict(Sorted(ps));
    DedupExact(Sorted(ps));
  }

  /** The rows still to be emitted after key `k`: what the adapter sorts, filters and deduplicates. */
  function Remaining(ps: seq<Payload>, k: Key): (r: Option<seq<Payload>>) {
    Dedup(Above(Sorted(ps), k))
  }

  /** Resuming after row n - 1 of the listing leaves exactly the rows from n on. */
  lemma RemainingIsSuffix(ps: seq<Payload>, k: Key, n: nat)
    requires !Conflict(ps) && n <= |Listing(ps)|
    requires forall i :: 0 <= i < |Listing(ps)| ==> (KeyLt(k, KeyOf(Listing(ps)[i])) <==> n <= i)
    ensures Remaining(ps, k) == Some(Listing(ps)[n..])
  {
    var d := Listing(ps);
    var above := Above(Sorted(ps), k);
    ListingStrict(ps);
    SortedSorts(ps);
    AboveFilters(Sorted(ps), k);
    ConflictFree(above, ps);
    FirstOnlyStrict(above);
    forall x ensures x in FirstOnly(above) <==> x in d[n..] {
      if x in d[n..] {
        var i :| n <= i < |d| && d[i] == x;
      }
      if x in above {
        assert x in d;
        var i :| 0 <= i < |d| && d[i] == x;
        assert d[n..][i - n] == x;
      }
    }
    StrictUnique(FirstOnly(above), d[n..]);
  }

  /** Whatever the body, what remains after `k` is strictly ascending and lies above `k`. */
  lemma RemainingRises(ps: seq<Payload>, k: Key)
    requires Remaining(ps, k).Some?
    ensures Strict(Remaining(ps, k).value)
    ensures forall x :: x in Remaining(ps, k).value ==> x in ps && KeyLt(k, KeyOf(x))
  {
    SortedSorts(ps);
    AboveFilters(Sorted(ps), k);
    FirstOnlyStrict(Above(Sorted(ps), k));
  }

  lemma AboveBottom(p: Payload)
    requires p.at != ""
    ensures KeyLt(BOTTOM, KeyOf(p))
  {
  }

  /** In a strictly ascending list, the key of row n - 1 separates the first n rows from the rest. */
  lemma Split(d: seq<Payload>, k: Key, n: nat)
    requires Strict(d) && n <= |d| && forall x :: x in d ==> x.at != ""
    requires k == if n == 0 then BOTTOM else KeyOf(d[n - 1])
    ensures forall i :: 0 <= i < |d| ==> (KeyLt(k, KeyOf(d[i])) <==> n <= i)
  {
    KeyOrder();
    forall i | 0 <= i < |d| ensures KeyLt(k, KeyOf(d[i])) <==> n <= i {
      assert d[i] in d;
      if n == 0 { AboveBottom(d[i]); }
    }
  }

  /** Rows delivered by k full pages: k times the limit. */
  function Taken(k: nat, limit: nat): (n: nat) {
    if k == 0 then 0 else Taken(k - 1, limit) + limit
  }

  /** Rows `from` to `to` of a list, clipped at its end. */
  function Sub(d: seq<Payload>, from: int, to: int): (r: seq<Payload>) {
    if 0 <= from <= to <= |d| then d[from..to]
    else if 0 <= from <= |d| then d[from..]
    else []
  }

  /** After n delivered rows the traversal holds the key of row n - 1. */
  predicate AfterRow(d: seq<Payload>, after: Option<Key>, n: nat) {
    n <= |d| && (if n == 0 then after.None? else after == Some(KeyOf(d[n - 1])))
  }

  /** The page that starts at row n of the list: its rows, whether rows are left, and the key it hands out. */
  predicate SliceAt(d: seq<Payload>, n: nat, limit: nat, rows: seq<Payload>, left: bool, last: Option<Key>) {
    && rows == Sub(d, n, n + limit)
    && left == (n + limit < |d|)
    && (left && limit >= 1 ==> last == Some(KeyOf(d[n + limit - 1])))
  }

  function LastKeyOf(rows: seq<Payload>): (k: Option<Key>) {
    if rows == [] then None else Some(KeyOf(rows[|rows| - 1]))
  }

  function KeyOrBottom(after: Option<Key>): (k: Key) {
    if after.Some? then after.value else BOTTOM
  }

  /** The adapter's cut of a conflict-free list is the slice of its listing. */
  lemma CutIsSlice(ps: seq<Payload>, after: Option<Key>, n: nat, limit: nat)
    requires limit >= 1 && !Conflict(ps) && forall x :: x in ps ==> x.at != ""
    requires AfterRow(Listing(ps), after, n)
    ensures var rest := Remaining(ps, KeyOrBottom(after));
            && rest.Some?
            && SliceAt(Listing(ps), n, limit, Take(rest.value, limit), |rest.value| > limit,
                       LastKeyOf(Take(rest.value, limit)))
  {
    var d := Listing(ps);
    ListingStrict(ps);
    Split(d, KeyOrBottom(after), n);
    RemainingIsSuffix(ps, KeyOrBottom(after), n);
    assert Take(d[n..], limit) == Sub(d, n, n + limit);
  }

  /** Accepting the list from its beginning proves it free of identity conflicts. */
  lemma AcceptedMeansConflictFree(ps: seq<Payload>)
    requires Remaining(ps, BOTTOM).Some? && forall x :: x in ps ==> x.at != ""
    ensures !Conflict(ps)
  {
    SortedSorts(ps);
    AboveFilters(Sorted(ps), BOTTOM);
    forall p | p in ps ensures p in Above(Sorted(ps), BOTTOM) { AboveBottom(p); }
    ConflictFree(ps, Above(Sorted(ps), BOTTOM));
  }

  function Flat(pages: seq<seq<Payload>>): (r: seq<Payload>) {
    if pages == [] then [] else Flat(pages[..|pages| - 1]) + pages[|pages| - 1]
  }

  /** `rows` is the k-th slice of `limit` rows. */
  predicate IsSlice(d: seq<Payload>, limit: nat, k: nat, rows: seq<Payload>) {
    Taken(k, limit) <= |d| && rows == Sub(d, Taken(k, limit), Taken(k, limit) + limit)
  }

  /** Consecutive slices concatenate to a prefix of the list. */
  lemma {:induction false} SlicesConcat(d: seq<Payload>, limit: nat, pages: seq<seq<Payload>>)
    requires forall k :: 0 <= k < |pages| ==> IsSlice(d, limit, k, pages[k])
    ensures Flat(pages) == Sub(d, 0, Taken(|pages|, limit))
  {
    if pages != [] {
      SlicesConcat(d, limit, pages[..|pages| - 1]);
    }
  }

  /** A fetcher that serves the slice of `d` after the key its request carries. */
  ghost predicate Slices(f: Fetcher, d: seq<Payload>, limit: nat, after: Progress -> Option<Key>,
                         rows: Progress -> seq<Payload>)
  {
    && limit >= 1 && after(Start) == None
    && (forall s: Progress, n: nat {:trigger AfterRow(d, after(s), n)} ::
          f(s).Some? && AfterRow(d, after(s), n) ==>
            && SliceAt(d, n, limit, rows(s), f(s).value.more, LastKeyOf(rows(s)))
            && (f(s).value.more ==> after(f(s).value.next) == LastKeyOf(rows(s))))
  }

  lemma {:induction false} SlicedStates(f: Fetcher, d: seq<Payload>, limit: nat, after: Progress -> Option<Key>,
                                        rows: Progress -> seq<Payload>, states: seq<Progress>, k: nat)
    requires Slices(f, d, limit, after, rows) && IsChain(f, states) && k < |states|
    ensures AfterRow(d, after(states[k]), Taken(k, limit))
  {
    if k > 0 {
      SlicedStates(f, d, limit, after, rows, states, k - 1);
      ChainLink(f, states, k - 1);
    }
  }

  /** The pages are consecutive slices of `limit` rows and concatenate to exactly the list. */
  ghost predicate Tiles(pages: seq<seq<Payload>>, d: seq<Payload>, limit: nat) {
    && Flat(pages) == d
    && (forall k :: 0 <= k < |pages| ==> IsSlice(d, limit, k, pages[k]))
  }

  /** A complete traversal of such a fetcher delivers the list in consecutive slices. */
  lemma SlicedTiles(f: Fetcher, d: seq<Payload>, limit: nat, after: Progress -> Option<Key>,
                    rows: Progress -> seq<Payload>, states: seq<Progress>, pages: seq<seq<Payload>>)
    requires Slices(f, d, limit, after, rows) && Complete(f, states)
    requires |pages| == |states| && forall k :: 0 <= k < |states| ==> pages[k] == rows(states[k])
    ensures Tiles(pages, d, limit)
  {
    forall k | 0 <= k < |pages| ensures IsSlice(d, limit, k, pages[k]) {
      SlicedStates(f, d, limit, after, rows, states, k);
    }
    SlicesConcat(d, limit, pages);
    SlicedStates(f, d, limit, after, rows, states, |states| - 1);
  }

  /** A list without identity conflicts can be resumed after any key. */
  lemma RemainingAccepts(ps: seq<Payload>, k: Key)
    requires !Conflict(ps)
    ensures Remaining(ps, k).Some?
  {
    SortedSorts(ps);
    AboveFilters(Sorted(ps), k);
    var above := Above(Sorted(ps), k);
    forall i, j | 0 <= i < j < |above| && above[i].id == above[j].id ensures above[i] == above[j] {
      assert above[i] in ps && above[j] in ps;
      var a :| 0 <= a < |ps| && ps[a] == above[i];
      var b :| 0 <= b < |ps| && ps[b] == above[j];
    }
  }

  lemma {:induction false} TakenGrows(k: nat, limit: nat)
    requires limit >= 1
    ensures k <= Taken(k, limit)
  {
    if k > 0 { TakenGrows(k - 1, limit); }
  }

  /** A traversal that serves slices makes at most one request more than there are rows. */
  lemma SlicedEnds(f: Fetcher, d: seq<Payload>, limit: nat, after: Progress -> Option<Key>,
                   rows: Progress -> seq<Payload>, states: seq<Progress>)
    requires Slices(f, d, limit, after, rows) && IsChain(f, states)
    ensures |states| <= |d| + 1
  {
    SlicedStates(f, d, limit, after, rows, states, |states| - 1);
    TakenGrows(|states| - 1, limit);
  }
}
