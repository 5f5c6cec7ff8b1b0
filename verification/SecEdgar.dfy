/**
 SEC submissions (src/market_intelligence/providers/breadth.py): the main file, then every history file
 that overlaps the window, each one cut by keyset on (filing date, accession number).
 */
module SecEdgar {
  import opened Keys
  import opened Continuation
  import opened Pages
  import opened Keyset

  /** A filing row; a missing field is one the adapter cannot read. Accession numbers are digits and dashes, which
      `_rejection_hash` always accepts. */
  datatype Filing = Filing(accession: Option<string>, date: Option<string>, form: Option<string>, body: string)

  /** A history reference of the main file; `sound` says its fields and dates are well formed. */
  datatype Reference = Reference(name: string, from: string, to: string, sound: bool)

  datatype World = World(main: seq<Filing>, references: seq<Reference>, history: string -> seq<Filing>)

  datatype Query = Query(cik: string, start: string, end: string, forms: set<string>, maxHistory: nat)

  datatype Fate = Keep(payload: Payload) | Skip | Reject(row: Payload) | Fail

  predicate Within(d: string, q: Query) { !StrLt(d, q.start) && !StrLt(q.end, d) }

  /** What happens to one filing. An unreadable date or form makes the row permanently invalid. */
  function FateOf(r: Filing, q: Query): (f: Fate) {
    if r.accession.None? || r.accession.value == "" then Fail
    else
      var readable := r.date.Some? && r.date.value != "";
      if readable && !Within(r.date.value, q) then Skip
      else if r.form.Some? && r.form.value !in q.forms then Skip
      else if readable && r.form.Some? then Keep(Payload(r.accession.value, r.date.value, r.body))
      else Reject(Payload(r.accession.value, if readable then r.date.value else "", r.body))
  }

  function Kept(rows: seq<Filing>, q: Query): (r: seq<Payload>) {
    if rows == [] then []
    else
      var rest := Kept(rows[..|rows| - 1], q);
      match FateOf(rows[|rows| - 1], q)
      case Keep(p) => rest + [p]
      case _ => rest
  }

  function Invalid(rows: seq<Filing>, q: Query): (r: seq<Payload>) {
    if rows == [] then []
    else
      var rest := Invalid(rows[..|rows| - 1], q);
      match FateOf(rows[|rows| - 1], q)
      case Reject(p) => rest + [p]
      case _ => rest
  }

  predicate Readable(rows: seq<Filing>, q: Query) {
    forall r :: r in rows ==> !FateOf(r, q).Fail?
  }

  /** The row loop of the SEC branch. */
  method ReadFile(rows: seq<Filing>, q: Query) returns (kept: seq<Payload>, invalid: seq<Payload>, ok: bool)
    ensures ok <==> Readable(rows, q)
    ensures ok ==> kept == Kept(rows, q) && invalid == Invalid(rows, q)
  {
    kept, invalid, ok := [], [], true;
    for n := 0 to |rows|
      invariant Readable(rows[..n], q)
      invariant kept == Kept(rows[..n], q) && invalid == Invalid(rows[..n], q)
    {
      assert rows[..n + 1][..n] == rows[..n] && rows[..n + 1] == rows[..n] + [rows[n]];
      match FateOf(rows[n], q) {
        case Keep(p) => kept := kept + [p];
        case Skip =>
        case Reject(p) => invalid := invalid + [p];
        case Fail => ok := false; return;
      }
    }
    assert rows[..|rows|] == rows;
  }

  function Hashes(ps: seq<Payload>): (r: seq<RowHash>) {
    if ps == [] then [] else Hashes(ps[..|ps| - 1]) + [Digest(ps[|ps| - 1].id)]
  }

  /** Names of the history files that overlap the window, in reference order. */
  function Overlapping(refs: seq<Reference>, q: Query): (r: seq<string>) {
    if refs == [] then []
    else
      var last := refs[|refs| - 1];
      var rest := Overlapping(refs[..|refs| - 1], q);
      if !StrLt(last.to, q.start) && !StrLt(q.end, last.from) then rest + [last.name] else rest
  }

  predicate SoundReferences(refs: seq<Reference>, q: Query) {
    forall r :: r in refs ==> r.sound && HistoryFile(q.cik, r.name) && !StrLt(r.to, r.from)
  }

  function FileOf(s: Progress): (f: Option<string>) { if s.SecAt? then s.file else None }
  function AfterOf(s: Progress): (k: Option<Key>) { if s.SecAt? then s.after else None }

  /** Files still to be visited after the current one; the empty state reads them from the references. */
  function FilesOf(w: World, q: Query, s: Progress): (r: Option<seq<string>>) {
    if s.Start? then
      if SoundReferences(w.references, q) then Some(Overlapping(w.references, q)) else None
    else if s.SecAt? then Some(if s.files.Some? then s.files.value else [])
    else None
  }

  function RowsOf(w: World, file: Option<string>): (rows: seq<Filing>) {
    if file.Some? then w.history(file.value) else w.main
  }

  predicate AdapterKey(k: Key) { |k.at| <= 200 && |k.id| <= 200 }

  /** Cut `limit` rows of what remains in a file: stay in it, go to the next file, or stop. */
  function CutFrom(file: Option<string>, files: seq<string>, rest: seq<Payload>, limit: nat, rejected: seq<RowHash>)
    : (cut: Cut)
  {
    var emitted := Take(rest, limit);
    if |rest| > limit then Cut(emitted, rejected, true, SecAt(file, Some(files), LastKeyOf(emitted)))
    else if files != [] then Cut(emitted, rejected, true, SecAt(Some(files[0]), Some(files[1..]), None))
    else Cut(emitted, rejected, false, Start)
  }

  function SecCut(w: World, q: Query, limit: nat, s: Progress): (r: Option<Cut>)
    requires limit >= 1
  {
    var file, files, rows := FileOf(s), FilesOf(w, q, s), RowsOf(w, FileOf(s));
    if files.None? || |files.value| > q.maxHistory then None
    else if (file.Some? && !HistoryFile(q.cik, file.value)) || !Readable(rows, q) then None
    else if !AdapterKey(KeyOrBottom(AfterOf(s))) then None
    else
      var rest := Remaining(Kept(rows, q), KeyOrBottom(AfterOf(s)));
      if rest.None? then None
      else
        var rejected := Hashes(Above(Sorted(Invalid(rows, q)), KeyOrBottom(AfterOf(s))));
        Some(CutFrom(file, files.value, rest.value, limit, rejected))
  }

  /** One fetch. A next state outside the codec domain fails the fetch, because encoding it raises. */
  function SecFetch(w: World, q: Query, limit: nat, classify: Classifier, s: Progress): (r: Option<Page>)
    requires limit >= 1
  {
    var cut := SecCut(w, q, limit, s);
    if cut.None? || (cut.value.more && cut.value.next.SecAt? && !SecInDomain(q.cik, cut.value.next)) then None
    else Finish(cut.value, false, classify)
  }

  function SecFetcher(w: World, q: Query, limit: nat, classify: Classifier): (f: Fetcher)
    requires limit >= 1
    ensures forall s :: f(s) == SecFetch(w, q, limit, classify, s)
  {
    s => SecFetch(w, q, limit, classify, s)
  }

  /** The traversal plan: list 0 is the main file, list j the j-th overlapping history file. */
  function PlanFile(files: seq<string>, j: nat): (f: Option<string>)
    requires j <= |files|
  {
    if j == 0 then None else Some(files[j - 1])
  }

  function ListOf(w: World, q: Query, files: seq<string>, j: nat): (d: seq<Payload>)
    requires j <= |files|
  {
    Listing(Kept(RowsOf(w, PlanFile(files, j)), q))
  }

  datatype Position = Position(list: nat, row: nat)

  /** State `s` stands at row n of list j. */
  predicate Stands(files: seq<string>, lists: seq<seq<Payload>>, s: Progress, p: Position) {
    && |lists| == |files| + 1 && p.list <= |files| && p.row <= |lists[p.list]|
    && (p == Position(0, 0) ==> s == Start)
    && (p != Position(0, 0) ==>
          s == SecAt(PlanFile(files, p.list), Some(files[p.list..]),
                     if p.row == 0 then None else Some(KeyOf(lists[p.list][p.row - 1]))))
  }

  /** Where the traversal goes next: on in the same list, to the next list, or nowhere. */
  function After(lists: seq<seq<Payload>>, limit: nat, p: Position): (r: Option<Position>)
    requires p.list < |lists|
  {
    if p.row + limit < |lists[p.list]| then Some(Position(p.list, p.row + limit))
    else if p.list + 1 < |lists| then Some(Position(p.list + 1, 0))
    else None
  }

  /** The position of the k-th request, as long as the plan goes. */
  function PositionAt(lists: seq<seq<Payload>>, limit: nat, k: nat): (r: Option<Position>)
    requires lists != []
    ensures r.Some? ==> r.value.list < |lists|
  {
    if k == 0 then Some(Position(0, 0))
    else
      var p := PositionAt(lists, limit, k - 1);
      if p.None? then None else After(lists, limit, p.value)
  }

  /** A fetcher that serves the planned lists. `clean(j)` says list j is known free of conflicts. */
  ghost predicate Serves(f: Fetcher, files: seq<string>, lists: seq<seq<Payload>>, limit: nat,
                         rows: Progress -> seq<Payload>, clean: nat -> bool)
  {
    && limit >= 1 && |lists| == |files| + 1
    && (forall s: Progress, p: Position {:trigger Stands(files, lists, s, p)} ::
          f(s).Some? && Stands(files, lists, s, p) && (p.row > 0 ==> clean(p.list)) ==>
            && clean(p.list)
            && rows(s) == Sub(lists[p.list], p.row, p.row + limit)
            && f(s).value.more == After(lists, limit, p).Some?
            && (f(s).value.more ==> Stands(files, lists, f(s).value.next, After(lists, limit, p).value)))
  }

  /** The k-th request of a traversal stands at the k-th planned position. */
  lemma {:induction false} FollowsPlan(f: Fetcher, files: seq<string>, lists: seq<seq<Payload>>, limit: nat,
                                       rows: Progress -> seq<Payload>, clean: nat -> bool,
                                       states: seq<Progress>, k: nat)
    requires Serves(f, files, lists, limit, rows, clean) && IsChain(f, states) && k < |states|
    ensures var p := PositionAt(lists, limit, k);
            p.Some? && Stands(files, lists, states[k], p.value) && (p.value.row > 0 ==> clean(p.value.list))
  {
    if k > 0 {
      FollowsPlan(f, files, lists, limit, rows, clean, states, k - 1);
      ChainLink(f, states, k - 1);
    }
  }

  /** Everything before a position: the lists already finished and the rows already cut. */
  function Before(lists: seq<seq<Payload>>, p: Position): (r: seq<Payload>)
    requires p.list < |lists| && p.row <= |lists[p.list]|
  {
    Flat(lists[..p.list]) + lists[p.list][..p.row]
  }

  lemma BeforeGrows(lists: seq<seq<Payload>>, limit: nat, p: Position)
    requires p.list < |lists| && p.row <= |lists[p.list]|
    ensures var rows := Before(lists, p) + Sub(lists[p.list], p.row, p.row + limit);
            match After(lists, limit, p)
            case Some(n) => rows == Before(lists, n)
            case None => rows == Flat(lists)
  {
    var d := lists[p.list];
    if p.row + limit < |d| {
      assert d[..p.row] + d[p.row..p.row + limit] == d[..p.row + limit];
    } else {
      assert d[..p.row] + Sub(d, p.row, p.row + limit) == d;
      assert lists[..p.list + 1][..p.list] == lists[..p.list];
      assert Flat(lists[..p.list + 1]) == Flat(lists[..p.list]) + d;
      if p.list + 1 == |lists| { assert lists[..p.list + 1] == lists; }
    }
  }

  /** The pages of the first k requests concatenate to everything before the k-th position. */
  lemma {:induction false} PagesBefore(f: Fetcher, files: seq<string>, lists: seq<seq<Payload>>, limit: nat,
                                       rows: Progress -> seq<Payload>, clean: nat -> bool,
                                       states: seq<Progress>, pages: seq<seq<Payload>>, k: nat)
    requires Serves(f, files, lists, limit, rows, clean) && IsChain(f, states) && k < |states|
    requires |pages| == |states| && forall i :: 0 <= i < |states| ==> pages[i] == rows(states[i])
    ensures var p := PositionAt(lists, limit, k);
            p.Some? && p.value.row <= |lists[p.value.list]| && Flat(pages[..k]) == Before(lists, p.value)
  {
    FollowsPlan(f, files, lists, limit, rows, clean, states, k);
    if k > 0 {
      PagesBefore(f, files, lists, limit, rows, clean, states, pages, k - 1);
      FollowsPlan(f, files, lists, limit, rows, clean, states, k - 1);
      var p := PositionAt(lists, limit, k - 1).value;
      assert pages[..k][..k - 1] == pages[..k - 1];
      assert pages[k - 1] == Sub(lists[p.list], p.row, p.row + limit);
      BeforeGrows(lists, limit, p);
    }
  }

  /** A complete traversal delivers every planned list, in plan order, and nothing else. */
  lemma PlanDelivered(f: Fetcher, files: seq<string>, lists: seq<seq<Payload>>, limit: nat,
                      rows: Progress -> seq<Payload>, clean: nat -> bool,
                      states: seq<Progress>, pages: seq<seq<Payload>>)
    requires Serves(f, files, lists, limit, rows, clean) && Complete(f, states)
    requires |pages| == |states| && forall i :: 0 <= i < |states| ==> pages[i] == rows(states[i])
    ensures Flat(pages) == Flat(lists) && PositionAt(lists, limit, |states|) == None
  {
    var n := |states| - 1;
    PagesBefore(f, files, lists, limit, rows, clean, states, pages, n);
    FollowsPlan(f, files, lists, limit, rows, clean, states, n);
    var p := PositionAt(lists, limit, n).value;
    LastServed(f, files, lists, limit, rows, clean, states[n], p);
    assert pages == pages[..n] + [pages[n]];
    BeforeGrows(lists, limit, p);
  }

  lemma LastServed(f: Fetcher, files: seq<string>, lists: seq<seq<Payload>>, limit: nat,
                   rows: Progress -> seq<Payload>, clean: nat -> bool, s: Progress, p: Position)
    requires Serves(f, files, lists, limit, rows, clean) && Stands(files, lists, s, p) && (p.row > 0 ==> clean(p.list))
    requires f(s).Some? && !f(s).value.more
    ensures rows(s) == Sub(lists[p.list], p.row, p.row + limit) && After(lists, limit, p).None?
  {
  }

  /** The list index never falls and rises by at most one, so every list is entered exactly once. */
  lemma {:induction false} EntersOnce(lists: seq<seq<Payload>>, limit: nat, end: nat, j: nat) returns (k: nat)
    requires lists != [] && limit >= 1 && PositionAt(lists, limit, end).Some?
    requires j <= PositionAt(lists, limit, end).value.list
    ensures k <= end && PositionAt(lists, limit, k) == Some(Position(j, 0))
    ensures forall i :: 0 <= i <= end && PositionAt(lists, limit, i) == Some(Position(j, 0)) ==> i == k
    ensures j < PositionAt(lists, limit, end).value.list ==> k < end
    decreases end
  {
    var p := PositionAt(lists, limit, end).value;
    if end == 0 {
      k := 0;
    } else {
      var q := PositionAt(lists, limit, end - 1).value;
      if j <= q.list {
        k := EntersOnce(lists, limit, end - 1, j);
      } else {
        k := end;
        forall i | 0 <= i < end ensures PositionAt(lists, limit, i) != Some(Position(j, 0)) {
          Rises(lists, limit, i, end - 1);
        }
      }
    }
  }

  lemma {:induction false} Rises(lists: seq<seq<Payload>>, limit: nat, i: nat, k: nat)
    requires lists != [] && i <= k && PositionAt(lists, limit, k).Some?
    ensures PositionAt(lists, limit, i).Some?
    ensures PositionAt(lists, limit, i).value.list <= PositionAt(lists, limit, k).value.list
  {
    if i < k { Rises(lists, limit, i, k - 1); }
  }

  /** Each request either finishes a list or cuts `limit` rows, so the plan ends: this measure falls. */
  function Left(lists: seq<seq<Payload>>, p: Position): (n: int)
    requires p.list < |lists|
  {
    |Flat(lists)| + |lists| - |Flat(lists[..p.list])| - p.list - p.row
  }

  lemma LeftFalls(lists: seq<seq<Payload>>, limit: nat, p: Position)
    requires limit >= 1 && p.list < |lists| && p.row <= |lists[p.list]|
    requires After(lists, limit, p).Some?
    ensures Left(lists, After(lists, limit, p).value) < Left(lists, p)
  {
    BeforeGrows(lists, limit, p);
  }

  lemma {:induction false} PlanBound(lists: seq<seq<Payload>>, limit: nat, k: nat)
    requires lists != [] && limit >= 1 && PositionAt(lists, limit, k).Some?
    ensures var p := PositionAt(lists, limit, k).value;
            p.row <= |lists[p.list]| && Left(lists, p) <= |Flat(lists)| + |lists| - k
  {
    if k > 0 {
      PlanBound(lists, limit, k - 1);
      LeftFalls(lists, limit, PositionAt(lists, limit, k - 1).value);
    }
  }

  lemma {:induction false} FlatPrefix(lists: seq<seq<Payload>>, j: nat)
    requires j < |lists|
    ensures |Flat(lists[..j])| + |lists[j]| <= |Flat(lists)|
  {
    var n := |lists| - 1;
    if j < n {
      FlatPrefix(lists[..n], j);
      assert lists[..n][..j] == lists[..j];
    }
  }

  function Lists(w: World, q: Query): (r: seq<seq<Payload>>)
    ensures |r| == |Overlapping(w.references, q)| + 1
  {
    var files := Overlapping(w.references, q);
    seq(|files| + 1, j requires 0 <= j <= |files| => ListOf(w, q, files, j))
  }

  function Clean(w: World, q: Query): (clean: nat -> bool)
    ensures var files := Overlapping(w.references, q);
            forall j: nat :: j <= |files| ==> (clean(j) <==> !Conflict(Kept(RowsOf(w, PlanFile(files, j)), q)))
  {
    var files := Overlapping(w.references, q);
    (j: nat) => j <= |files| && !Conflict(Kept(RowsOf(w, PlanFile(files, j)), q))
  }

  function CutRows(w: World, q: Query, limit: nat): (rows: Progress -> seq<Payload>)
    requires limit >= 1
    ensures forall s :: SecCut(w, q, limit, s).Some? ==> rows(s) == SecCut(w, q, limit, s).value.payloads
  {
    s => var cut := SecCut(w, q, limit, s); if cut.Some? then cut.value.payloads else []
  }

  lemma {:induction false} KeptRows(rows: seq<Filing>, q: Query)
    ensures forall p :: p in Kept(rows, q) ==> p.at != ""
    ensures forall r :: r in rows && FateOf(r, q).Keep? ==> FateOf(r, q).payload in Kept(rows, q)
    ensures forall r :: r in rows && FateOf(r, q).Reject? ==> FateOf(r, q).row in Invalid(rows, q)
    ensures forall p :: p in Invalid(rows, q) ==> p.id != ""
  {
    if rows != [] {
      assert rows == rows[..|rows| - 1] + [rows[|rows| - 1]];
      KeptRows(rows[..|rows| - 1], q);
    }
  }

  /** One request standing at a planned position cuts the planned slice and hands out the next position. */
  lemma ServesAt(w: World, q: Query, limit: nat, s: Progress, p: Position)
    requires limit >= 1 && SecCut(w, q, limit, s).Some?
    requires Stands(Overlapping(w.references, q), Lists(w, q), s, p) && (p.row > 0 ==> Clean(w, q)(p.list))
    ensures var files, lists, cut := Overlapping(w.references, q), Lists(w, q), SecCut(w, q, limit, s).value;
            && Clean(w, q)(p.list)
            && cut.payloads == Sub(lists[p.list], p.row, p.row + limit)
            && cut.more == After(lists, limit, p).Some?
            && (cut.more ==> Stands(files, lists, cut.next, After(lists, limit, p).value))
  {
    var files := Overlapping(w.references, q);
    StandsReads(w, q, s, p);
    AcceptedSlice(w, q, limit, s, p);
    var ps := Kept(RowsOf(w, PlanFile(files, p.list)), q);
    var rest := Remaining(ps, KeyOrBottom(AfterOf(s))).value;
    CutFromSlice(files, Lists(w, q), p, limit, rest, SecCut(w, q, limit, s).value.rejected);
  }

  /** What a request standing at a position reads: its file, the files after it, its key. */
  lemma StandsReads(w: World, q: Query, s: Progress, p: Position)
    requires Stands(Overlapping(w.references, q), Lists(w, q), s, p) && (s.Start? ==> SoundReferences(w.references, q))
    ensures var files := Overlapping(w.references, q);
            && FileOf(s) == PlanFile(files, p.list) && FilesOf(w, q, s) == Some(files[p.list..])
            && AfterRow(Lists(w, q)[p.list], AfterOf(s), p.row)
  {
  }

  lemma AcceptedSlice(w: World, q: Query, limit: nat, s: Progress, p: Position)
    requires limit >= 1 && SecCut(w, q, limit, s).Some?
    requires Stands(Overlapping(w.references, q), Lists(w, q), s, p) && (p.row > 0 ==> Clean(w, q)(p.list))
    requires FileOf(s) == PlanFile(Overlapping(w.references, q), p.list)
    requires AfterRow(Lists(w, q)[p.list], AfterOf(s), p.row)
    ensures var ps := Kept(RowsOf(w, FileOf(s)), q);
            var rest := Remaining(ps, KeyOrBottom(AfterOf(s)));
            && Clean(w, q)(p.list) && rest.Some?
            && SliceAt(Lists(w, q)[p.list], p.row, limit, Take(rest.value, limit), |rest.value| > limit,
                       LastKeyOf(Take(rest.value, limit)))
  {
    var ps := Kept(RowsOf(w, FileOf(s)), q);
    KeptRows(RowsOf(w, FileOf(s)), q);
    if p.row == 0 { AcceptedMeansConflictFree(ps); }
    CutIsSlice(ps, AfterOf(s), p.row, limit);
  }

  lemma CutFromSlice(files: seq<string>, lists: seq<seq<Payload>>, p: Position, limit: nat, rest: seq<Payload>,
                     rejected: seq<RowHash>)
    requires limit >= 1 && |lists| == |files| + 1 && p.list <= |files| && p.row <= |lists[p.list]|
    requires SliceAt(lists[p.list], p.row, limit, Take(rest, limit), |rest| > limit, LastKeyOf(Take(rest, limit)))
    ensures var cut := CutFrom(PlanFile(files, p.list), files[p.list..], rest, limit, rejected);
            && cut.payloads == Sub(lists[p.list], p.row, p.row + limit)
            && cut.more == After(lists, limit, p).Some?
            && (cut.more ==> Stands(files, lists, cut.next, After(lists, limit, p).value))
  {
  }

  lemma SecServes(w: World, q: Query, limit: nat, classify: Classifier)
    requires limit >= 1
    ensures Serves(SecFetcher(w, q, limit, classify), Overlapping(w.references, q), Lists(w, q), limit,
                   CutRows(w, q, limit), Clean(w, q))
  {
    var f, files, lists := SecFetcher(w, q, limit, classify), Overlapping(w.references, q), Lists(w, q);
    forall s: Progress, p: Position
      | f(s).Some? && Stands(files, lists, s, p) && (p.row > 0 ==> Clean(w, q)(p.list))
      ensures && Clean(w, q)(p.list)
              && CutRows(w, q, limit)(s) == Sub(lists[p.list], p.row, p.row + limit)
              && f(s).value.more == After(lists, limit, p).Some?
              && (f(s).value.more ==> Stands(files, lists, f(s).value.next, After(lists, limit, p).value))
    {
      assert f(s) == SecFetch(w, q, limit, classify, s);
      ServesAt(w, q, limit, s, p);
    }
  }

  /**
   The SEC traversal: for fixed bodies, a complete traversal cuts the main listing and then the listing of
   every overlapping history file, in reference order and nothing else.
   */
  lemma {:induction false} SecTraversal(w: World, q: Query, limit: nat, classify: Classifier, states: seq<Progress>,
                                        pages: seq<seq<Payload>>)
    requires limit >= 1 && Complete(SecFetcher(w, q, limit, classify), states)
    requires |pages| == |states| && forall i :: 0 <= i < |states| ==> pages[i] == CutRows(w, q, limit)(states[i])
    ensures Flat(pages) == Flat(Lists(w, q))
    ensures |states| <= |Flat(Lists(w, q))| + |Lists(w, q)|
  {
    SecServes(w, q, limit, classify);
    FollowsPlan(SecFetcher(w, q, limit, classify), Overlapping(w.references, q), Lists(w, q), limit,
                CutRows(w, q, limit), Clean(w, q), states, |states| - 1);
    PlanBound(Lists(w, q), limit, |states| - 1);
    FlatPrefix(Lists(w, q), PositionAt(Lists(w, q), limit, |states| - 1).value.list);
    PlanDelivered(SecFetcher(w, q, limit, classify), Overlapping(w.references, q), Lists(w, q), limit,
                  CutRows(w, q, limit), Clean(w, q), states, pages);
  }

  /**
   Every file is opened exactly once: there is one request, and no other, that carries the name of the
   j-th overlapping file (the main file for j = 0) without a key.
   */
  lemma {:induction false} SecOpensOnce(w: World, q: Query, limit: nat, classify: Classifier,
                                        states: seq<Progress>, j: nat) returns (k: nat)
    requires limit >= 1 && Complete(SecFetcher(w, q, limit, classify), states)
    requires j <= |Overlapping(w.references, q)|
    ensures k < |states| && Clean(w, q)(j)
    ensures forall i :: 0 <= i < |states| ==>
              (Stands(Overlapping(w.references, q), Lists(w, q), states[i], Position(j, 0)) <==> i == k)
  {
    var f, files, lists := SecFetcher(w, q, limit, classify), Overlapping(w.references, q), Lists(w, q);
    var rows, clean, end := CutRows(w, q, limit), Clean(w, q), |states| - 1;
    SecServes(w, q, limit, classify);
    FollowsPlan(f, files, lists, limit, rows, clean, states, end);
    var last := PositionAt(lists, limit, end).value;
    assert f(states[end]).Some? && Stands(files, lists, states[end], last);
    assert After(lists, limit, last).None?;
    k := EntersOnce(lists, limit, end, j);
    FollowsPlan(f, files, lists, limit, rows, clean, states, k);
    assert f(states[k]).Some? && Stands(files, lists, states[k], Position(j, 0));
    forall i | 0 <= i < |states| && Stands(files, lists, states[i], Position(j, 0)) ensures i == k {
      NoPageTwice(f, states);
      assert states[i] == states[k];
    }
  }

  /** Rows of one file come out under strictly rising (filing date, accession) keys. */
  lemma SecKeysRise(w: World, q: Query, j: nat)
    requires j <= |Overlapping(w.references, q)| && Clean(w, q)(j)
    ensures Strict(Lists(w, q)[j]) && DistinctIds(Lists(w, q)[j])
  {
    ListingStrict(Kept(RowsOf(w, PlanFile(Overlapping(w.references, q), j)), q));
  }

  lemma {:induction false} HashesOf(ps: seq<Payload>, p: Payload)
    requires p in ps
    ensures Digest(p.id) in Hashes(ps)
  {
    assert ps == ps[..|ps| - 1] + [ps[|ps| - 1]];
    if p in ps[..|ps| - 1] { HashesOf(ps[..|ps| - 1], p); }
  }

  /** The request that opens a file reports every permanently invalid row of that file. */
  lemma OpeningRejects(w: World, q: Query, limit: nat, s: Progress, r: Filing)
    requires limit >= 1 && SecCut(w, q, limit, s).Some? && AfterOf(s).None?
    requires r in RowsOf(w, FileOf(s)) && FateOf(r, q).Reject?
    ensures Digest(FateOf(r, q).row.id) in SecCut(w, q, limit, s).value.rejected
  {
    var rows, p := RowsOf(w, FileOf(s)), FateOf(r, q).row;
    assert p in Invalid(rows, q) && p.id != "" by { KeptRows(rows, q); }
    StaysAboveBottom(Invalid(rows, q), p);
    HashesOf(Above(Sorted(Invalid(rows, q)), BOTTOM), p);
  }

  lemma StaysAboveBottom(ps: seq<Payload>, p: Payload)
    requires p in ps && p.id != ""
    ensures p in Above(Sorted(ps), BOTTOM)
  {
    SortedSorts(ps);
    AboveFilters(Sorted(ps), BOTTOM);
    assert KeyLt(BOTTOM, KeyOf(p));
  }

  lemma {:induction false} FlatMember(pages: seq<seq<Payload>>, i: nat, x: Payload)
    requires i < |pages| && x in pages[i]
    ensures x in Flat(pages)
  {
    if i < |pages| - 1 { FlatMember(pages[..|pages| - 1], i, x); }
  }

  lemma {:induction false} FlatSource(pages: seq<seq<Payload>>, x: Payload) returns (i: nat)
    requires x in Flat(pages)
    ensures i < |pages| && x in pages[i]
  {
    if x in pages[|pages| - 1] { i := |pages| - 1; }
    else { i := FlatSource(pages[..|pages| - 1], x); }
  }

  /**
   Coverage: after a complete traversal every filing of the main file and of every overlapping history file
   that lies in the window under an allowed form has been cut by some request, and every permanently
   invalid one has been reported by some request.
   */
  lemma {:induction false} SecCovers(w: World, q: Query, limit: nat, classify: Classifier,
                                     states: seq<Progress>, j: nat, r: Filing) returns (k: nat)
    requires limit >= 1 && Complete(SecFetcher(w, q, limit, classify), states)
    requires j <= |Overlapping(w.references, q)|
    requires r in RowsOf(w, PlanFile(Overlapping(w.references, q), j))
    requires FateOf(r, q).Keep? || FateOf(r, q).Reject?
    ensures k < |states| && SecCut(w, q, limit, states[k]).Some?
    ensures FateOf(r, q).Keep? ==> FateOf(r, q).payload in SecCut(w, q, limit, states[k]).value.payloads
    ensures FateOf(r, q).Reject? ==>
              Digest(FateOf(r, q).row.id) in SecCut(w, q, limit, states[k]).value.rejected
  {
    k := SecOpensOnce(w, q, limit, classify, states, j);
    FetchCuts(w, q, limit, classify, states[k]);
    if FateOf(r, q).Reject? {
      OpeningRejects(w, q, limit, states[k], r);
    } else {
      var pages := seq(|states|, i requires 0 <= i < |states| => CutRows(w, q, limit)(states[i]));
      SecTraversal(w, q, limit, classify, states, pages);
      var rows := RowsOf(w, PlanFile(Overlapping(w.references, q), j));
      KeptRows(rows, q);
      ListingStrict(Kept(rows, q));
      FlatMember(Lists(w, q), j, FateOf(r, q).payload);
      k := FlatSource(pages, FateOf(r, q).payload);
      FetchCuts(w, q, limit, classify, states[k]);
    }
  }

  lemma FetchCuts(w: World, q: Query, limit: nat, classify: Classifier, s: Progress)
    requires limit >= 1 && SecFetcher(w, q, limit, classify)(s).Some?
    ensures SecCut(w, q, limit, s).Some?
  {
  }

  lemma PlanEnds(f: Fetcher, files: seq<string>, lists: seq<seq<Payload>>, limit: nat,
                 rows: Progress -> seq<Payload>, clean: nat -> bool, states: seq<Progress>)
    requires Serves(f, files, lists, limit, rows, clean) && IsChain(f, states)
    ensures |states| <= |Flat(lists)| + |lists|
  {
    FollowsPlan(f, files, lists, limit, rows, clean, states, |states| - 1);
    PlanBound(lists, limit, |states| - 1);
    FlatPrefix(lists, PositionAt(lists, limit, |states| - 1).value.list);
  }

  /** No chain, complete or not, is longer than rows plus files: the measure (files left, rows left) falls. */
  lemma SecEnds(w: World, q: Query, limit: nat, classify: Classifier)
    requires limit >= 1
    ensures BoundedBy(SecFetcher(w, q, limit, classify), |Flat(Lists(w, q))| + |Lists(w, q)|)
  {
    var f, files, lists, rows := SecFetcher(w, q, limit, classify), Overlapping(w.references, q), Lists(w, q), CutRows(w, q, limit);
    SecServes(w, q, limit, classify);
    forall states | IsChain(f, states) ensures |states| <= |Flat(lists)| + |lists| {
      PlanEnds(f, files, lists, limit, rows, Clean(w, q), states);
    }
  }

  /** A planned file every fetch accepts. */
  predicate FileServable(rows: seq<Filing>, q: Query, classify: Classifier) {
    && Readable(rows, q) && !Conflict(Kept(rows, q)) && Calm(Kept(rows, q), classify)
    && (forall p :: p in Kept(rows, q) ==> |p.at| <= 200 && 1 <= |p.id| <= 200)
  }

  /** Bodies every fetch accepts: sound references, no more overlapping files than allowed, each servable. */
  predicate Servable(w: World, q: Query, classify: Classifier) {
    var files := Overlapping(w.references, q);
    && SoundReferences(w.references, q) && |q.cik| == 10 && Digits(q.cik)
    && |files| <= q.maxHistory <= 5 && Distinct(files)
    && (forall j :: 0 <= j <= |files| ==> FileServable(RowsOf(w, PlanFile(files, j)), q, classify))
  }

  lemma {:induction false} OverlappingNamed(refs: seq<Reference>, q: Query)
    requires SoundReferences(refs, q)
    ensures forall f :: f in Overlapping(refs, q) ==> HistoryFile(q.cik, f)
  {
    if refs != [] {
      var init, last := refs[..|refs| - 1], refs[|refs| - 1];
      assert refs == init + [last];
      assert last in refs;
      OverlappingNamed(init, q);
    }
  }

  lemma KeptKeys(rows: seq<Filing>, q: Query, classify: Classifier, p: Payload)
    requires FileServable(rows, q, classify) && p in Kept(rows, q)
    ensures CodecKey(KeyOf(p)) && AdapterKey(KeyOf(p))
  {
    KeptRows(rows, q);
  }

  /** The key a state carries belongs to a kept row. */
  lemma StandsKey(w: World, q: Query, classify: Classifier, s: Progress, p: Position)
    requires Servable(w, q, classify) && Stands(Overlapping(w.references, q), Lists(w, q), s, p)
    ensures AdapterKey(KeyOrBottom(AfterOf(s)))
  {
    var files := Overlapping(w.references, q);
    var rows := RowsOf(w, PlanFile(files, p.list));
    if p.row > 0 {
      ListingStrict(Kept(rows, q));
      var row := Lists(w, q)[p.list][p.row - 1];
      assert row in Listing(Kept(rows, q));
      KeptKeys(rows, q, classify, row);
    }
  }

  /** The adapter cuts every file of the plan at every planned position. */
  lemma CutAccepts(w: World, q: Query, limit: nat, classify: Classifier, s: Progress, p: Position)
    requires limit >= 1 && Servable(w, q, classify) && Stands(Overlapping(w.references, q), Lists(w, q), s, p)
    ensures SecCut(w, q, limit, s).Some?
    ensures var files := Overlapping(w.references, q);
            var kept := Kept(RowsOf(w, PlanFile(files, p.list)), q);
            var rest := Remaining(kept, KeyOrBottom(AfterOf(s)));
            && rest.Some? && (forall x :: x in rest.value ==> x in kept)
            && exists rejected ::
                 SecCut(w, q, limit, s).value == CutFrom(PlanFile(files, p.list), files[p.list..], rest.value, limit, rejected)
  {
    var files := Overlapping(w.references, q);
    StandsReads(w, q, s, p);
    StandsKey(w, q, classify, s, p);
    OverlappingNamed(w.references, q);
    var rows := RowsOf(w, PlanFile(files, p.list));
    assert FileServable(rows, q, classify);
    var kept, k := Kept(rows, q), KeyOrBottom(AfterOf(s));
    RemainingAccepts(kept, k);
    RemainingRises(kept, k);
    assert p.list > 0 ==> files[p.list - 1] in files;
    var rejected := Hashes(Above(Sorted(Invalid(rows, q)), k));
    assert SecCut(w, q, limit, s).value == CutFrom(PlanFile(files, p.list), files[p.list..], Remaining(kept, k).value, limit, rejected);
  }

  /** Every next state of such a cut is one the codec knows. */
  lemma CutInDomain(q: Query, files: seq<string>, j: nat, rest: seq<Payload>, limit: nat, rejected: seq<RowHash>)
    requires limit >= 1 && j <= |files| <= 5 && Distinct(files) && |q.cik| == 10 && Digits(q.cik)
    requires (forall f :: f in files ==> HistoryFile(q.cik, f)) && (forall x :: x in rest ==> CodecKey(KeyOf(x)))
    ensures var cut := CutFrom(PlanFile(files, j), files[j..], rest, limit, rejected);
            cut.more ==> cut.next.SecAt? && SecInDomain(q.cik, cut.next)
  {
    var emitted := Take(rest, limit);
    if |rest| > limit {
      assert emitted[|emitted| - 1] in rest;
    }
    assert forall i :: j <= i < |files| ==> files[j..][i - j] == files[i];
    assert j < |files| ==> files[j..][1..] == files[j + 1..];
  }

  /** Every planned request is accepted. */
  lemma SecAccepts(w: World, q: Query, limit: nat, classify: Classifier, s: Progress, p: Position)
    requires limit >= 1 && Servable(w, q, classify) && Stands(Overlapping(w.references, q), Lists(w, q), s, p)
    ensures SecFetch(w, q, limit, classify, s).Some?
  {
    var files := Overlapping(w.references, q);
    var rows := RowsOf(w, PlanFile(files, p.list));
    var kept := Kept(rows, q);
    CutAccepts(w, q, limit, classify, s, p);
    OverlappingNamed(w.references, q);
    assert FileServable(rows, q, classify);
    var rest := Remaining(kept, KeyOrBottom(AfterOf(s))).value;
    forall x | x in rest ensures CodecKey(KeyOf(x)) { KeptKeys(rows, q, classify, x); }
    var cut := SecCut(w, q, limit, s).value;
    var rejected :| cut == CutFrom(PlanFile(files, p.list), files[p.list..], rest, limit, rejected);
    CutInDomain(q, files, p.list, rest, limit, rejected);
    assert forall x :: x in cut.payloads ==> x in rest;
    FinishAccepts(cut, false, classify, kept);
  }

  /** The rows each request of a chain cuts. */
  function PagesOf(rows: Progress -> seq<Payload>, states: seq<Progress>): (pages: seq<seq<Payload>>)
    ensures |pages| == |states| && forall k :: 0 <= k < |states| ==> pages[k] == rows(states[k])
  {
    seq(|states|, k requires 0 <= k < |states| => rows(states[k]))
  }

  /** For fixed bodies that each fetch accepts the traversal ends: a complete chain exists and
      delivers the main list and every overlapping history list, in order. */
  lemma SecCompletes(w: World, q: Query, limit: nat, classify: Classifier) returns (whole: seq<Progress>)
    requires limit >= 1 && Servable(w, q, classify)
    ensures Complete(SecFetcher(w, q, limit, classify), whole) && |whole| <= |Flat(Lists(w, q))| + |Lists(w, q)|
    ensures Flat(PagesOf(CutRows(w, q, limit), whole)) == Flat(Lists(w, q))
  {
    var f, files, lists := SecFetcher(w, q, limit, classify), Overlapping(w.references, q), Lists(w, q);
    SecEnds(w, q, limit, classify);
    SecServes(w, q, limit, classify);
    SecAccepts(w, q, limit, classify, Start, Position(0, 0));
    assert Continues(f) by {
      forall states | IsChain(f, states) && f(states[|states| - 1]).value.more ensures f(f(states[|states| - 1]).value.next).Some? {
        var s := states[|states| - 1];
        FollowsPlan(f, files, lists, limit, CutRows(w, q, limit), Clean(w, q), states, |states| - 1);
        var p := PositionAt(lists, limit, |states| - 1).value;
        assert Stands(files, lists, s, p);
        SecAccepts(w, q, limit, classify, f(s).value.next, After(lists, limit, p).value);
      }
    }
    whole := CompleteExists(f, |Flat(lists)| + |lists|);
    SecTraversal(w, q, limit, classify, whole, PagesOf(CutRows(w, q, limit), whole));
  }

  /** And only for such bodies: a complete chain proves references sound and every planned file readable and clean. */
  lemma SecNeeds(w: World, q: Query, limit: nat, classify: Classifier, whole: seq<Progress>, j: nat)
    requires limit >= 1 && Complete(SecFetcher(w, q, limit, classify), whole) && j <= |Overlapping(w.references, q)|
    ensures SoundReferences(w.references, q) && |Overlapping(w.references, q)| <= q.maxHistory
    ensures var rows := RowsOf(w, PlanFile(Overlapping(w.references, q), j)); Readable(rows, q) && !Conflict(Kept(rows, q))
  {
    FetchCuts(w, q, limit, classify, whole[0]);
    var k := SecOpensOnce(w, q, limit, classify, whole, j);
    FetchCuts(w, q, limit, classify, whole[k]);
    StandsReads(w, q, whole[k], Position(j, 0));
  }
}
