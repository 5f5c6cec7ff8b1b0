/**
 The SEC plan on the dates themselves: which history files are opened, in which order, and what a request cuts.
 */
module SecPlan {
  import opened Keys
  import opened Continuation
  import opened Pages
  import opened Keyset
  import opened SecEdgar

  /** A day of the window that the reference covers. */
  predicate SharedDay(r: Reference, q: Query, d: string) {
    !StrLt(d, q.start) && !StrLt(q.end, d) && !StrLt(d, r.from) && !StrLt(r.to, d)
  }

  /** `at` numbers, in order, exactly the references that share a day with the window. */
  ghost predicate Planned(refs: seq<Reference>, q: Query, at: seq<nat>) {
    && (forall i, j :: 0 <= i < j < |at| ==> at[i] < at[j])
    && (forall j :: 0 <= j < |at| ==> at[j] < |refs|)
    && (forall i :: 0 <= i < |refs| ==> (i in at <==> exists d :: SharedDay(refs[i], q, d)))
  }

  /** Two intervals share a day iff neither ends before the other begins. */
  lemma SharesDay(r: Reference, q: Query)
    requires !StrLt(r.to, r.from) && !StrLt(q.end, q.start)
    ensures (exists d :: SharedDay(r, q, d)) <==> !StrLt(r.to, q.start) && !StrLt(q.end, r.from)
  {
    StrOrder();
    if !StrLt(r.to, q.start) && !StrLt(q.end, r.from) {
      assert SharedDay(r, q, if StrLt(r.from, q.start) then q.start else r.from);
    }
  }

  /** The bounds of the references that share a day, and the files they name. */
  predicate Chosen(refs: seq<Reference>, q: Query, at: seq<nat>, files: seq<string>) {
    && |at| == |files|
    && (forall i, j :: 0 <= i < j < |at| ==> at[i] < at[j])
    && (forall j :: 0 <= j < |at| ==> at[j] < |refs| && files[j] == refs[at[j]].name)
    && (forall i :: 0 <= i < |refs| ==> (i in at <==> !StrLt(refs[i].to, q.start) && !StrLt(q.end, refs[i].from)))
  }

  lemma ChosenGrows(refs: seq<Reference>, q: Query, at: seq<nat>, files: seq<string>, r: Reference)
    requires Chosen(refs, q, at, files)
    ensures if !StrLt(r.to, q.start) && !StrLt(q.end, r.from) then Chosen(refs + [r], q, at + [|refs|], files + [r.name])
            else Chosen(refs + [r], q, at, files)
  {
  }

  lemma {:induction false} OverlappingChosen(refs: seq<Reference>, q: Query) returns (at: seq<nat>)
    ensures Chosen(refs, q, at, Overlapping(refs, q))
  {
    at := [];
    if refs != [] {
      var n := |refs| - 1;
      at := OverlappingChosen(refs[..n], q);
      assert refs == refs[..n] + [refs[n]];
      ChosenGrows(refs[..n], q, at, Overlapping(refs[..n], q), refs[n]);
      at := if !StrLt(refs[n].to, q.start) && !StrLt(q.end, refs[n].from) then at + [n] else at;
    }
  }

  /** The history files of the plan are the files of those references, in reference order. */
  lemma PlanExact(refs: seq<Reference>, q: Query) returns (at: seq<nat>)
    requires !StrLt(q.end, q.start) && forall r :: r in refs ==> !StrLt(r.to, r.from)
    ensures Planned(refs, q, at) && |Overlapping(refs, q)| == |at|
    ensures forall j :: 0 <= j < |at| ==> Overlapping(refs, q)[j] == refs[at[j]].name
  {
    at := OverlappingChosen(refs, q);
    forall i | 0 <= i < |refs| ensures i in at <==> exists d :: SharedDay(refs[i], q, d) { SharesDay(refs[i], q); }
  }

  /** The state opens history file `name`. */
  predicate Opens(s: Progress, name: string) { s.SecAt? && s.file == Some(name) && s.after.None? }

  /** Lists are entered in plan order. */
  lemma {:induction false} EntersInOrder(lists: seq<seq<Payload>>, limit: nat, end: nat, n: nat) returns (ks: seq<nat>)
    requires lists != [] && limit >= 1 && PositionAt(lists, limit, end).Some?
    requires n <= PositionAt(lists, limit, end).value.list + 1
    ensures |ks| == n && forall j :: 0 <= j < n ==> ks[j] <= end && PositionAt(lists, limit, ks[j]) == Some(Position(j, 0))
    ensures forall i, j :: 0 <= i < j < n ==> ks[i] < ks[j]
  {
    ks := [];
    if n > 0 {
      ks := EntersInOrder(lists, limit, end, n - 1);
      var k := EntersOnce(lists, limit, end, n - 1);
      forall i | 0 <= i < n - 1 ensures ks[i] < k {
        if k <= ks[i] { Rises(lists, limit, k, ks[i]); }
      }
      ks := ks + [k];
    }
  }

  /** What the adapter is asked at planned position p. */
  function StateAt(files: seq<string>, lists: seq<seq<Payload>>, p: SecEdgar.Position): (s: Progress)
    requires |lists| == |files| + 1 && p.list <= |files| && p.row <= |lists[p.list]|
    ensures Stands(files, lists, s, p)
  {
    if p == Position(0, 0) then Start
    else SecAt(PlanFile(files, p.list), Some(files[p.list..]), if p.row == 0 then None else Some(KeyOf(lists[p.list][p.row - 1])))
  }

  /** The k-th request of a complete traversal is the one planned; the last stands in the last list. */
  lemma PlannedState(f: Fetcher, files: seq<string>, lists: seq<seq<Payload>>, limit: nat, rows: Progress -> seq<Payload>,
                     clean: nat -> bool, states: seq<Progress>, k: nat)
    requires Serves(f, files, lists, limit, rows, clean) && Complete(f, states) && k < |states|
    ensures var p := PositionAt(lists, limit, k);
            && p.Some? && p.value.list <= |files| && p.value.row <= |lists[p.value.list]|
            && states[k] == StateAt(files, lists, p.value)
            && (k == |states| - 1 ==> p.value.list == |files|)
  {
    FollowsPlan(f, files, lists, limit, rows, clean, states, k);
    var p := PositionAt(lists, limit, k).value;
    assert f(states[k]).Some? && Stands(files, lists, states[k], p);
  }

  /** What follows from the plan for the requests that name a history file. */
  predicate OpensInOrder(states: seq<Progress>, files: seq<string>, opens: seq<nat>) {
    && |opens| == |files|
    && (forall j :: 0 <= j < |opens| ==> opens[j] < |states| && Opens(states[opens[j]], files[j]))
    && (forall i, j :: 0 <= i < j < |opens| ==> opens[i] < opens[j])
    && (forall k :: 0 <= k < |states| && states[k].SecAt? && states[k].file.Some? ==>
          states[k].file.value in files && (states[k].after.None? ==> k in opens))
  }

  lemma NamesPlanned(f: Fetcher, files: seq<string>, lists: seq<seq<Payload>>, limit: nat, rows: Progress -> seq<Payload>,
                     clean: nat -> bool, states: seq<Progress>, ks: seq<nat>, k: nat)
    requires Serves(f, files, lists, limit, rows, clean) && Complete(f, states) && k < |states| && |ks| == |lists|
    requires forall j :: 0 <= j < |ks| ==> ks[j] < |states| && PositionAt(lists, limit, ks[j]) == Some(Position(j, 0))
    requires states[k].SecAt? && states[k].file.Some?
    ensures states[k].file.value in files && (states[k].after.None? ==> k in ks[1..])
  {
    PlannedState(f, files, lists, limit, rows, clean, states, k);
    var j := PositionAt(lists, limit, k).value.list;
    if states[k].after.None? {
      PlannedState(f, files, lists, limit, rows, clean, states, ks[j]);
      NoPageTwice(f, states);
      assert states[k] == states[ks[j]] && ks[j] == ks[1..][j - 1];
    }
  }

  lemma OpensPlanned(f: Fetcher, files: seq<string>, lists: seq<seq<Payload>>, limit: nat, rows: Progress -> seq<Payload>,
                     clean: nat -> bool, states: seq<Progress>) returns (opens: seq<nat>)
    requires Serves(f, files, lists, limit, rows, clean) && Complete(f, states)
    ensures OpensInOrder(states, files, opens)
  {
    PlannedState(f, files, lists, limit, rows, clean, states, |states| - 1);
    var ks := EntersInOrder(lists, limit, |states| - 1, |files| + 1);
    opens := ks[1..];
    forall j | 0 <= j < |files| ensures opens[j] < |states| && Opens(states[opens[j]], files[j]) {
      PlannedState(f, files, lists, limit, rows, clean, states, ks[j + 1]);
    }
    forall k | 0 <= k < |states| && states[k].SecAt? && states[k].file.Some?
      ensures states[k].file.value in files && (states[k].after.None? ==> k in opens)
    {
      NamesPlanned(f, files, lists, limit, rows, clean, states, ks, k);
    }
  }

  /**
   A complete traversal opens the history file of a reference iff the reference and the window share a day: one request
   per such reference, in reference order, and no other request opens or reads a history file.
   */
  lemma OpensSharedDays(w: World, q: Query, limit: nat, classify: Classifier, states: seq<Progress>)
    returns (at: seq<nat>, opens: seq<nat>)
    requires limit >= 1 && Complete(SecFetcher(w, q, limit, classify), states) && !StrLt(q.end, q.start)
    ensures Planned(w.references, q, at) && |opens| == |at|
    ensures forall j :: 0 <= j < |at| ==> opens[j] < |states| && Opens(states[opens[j]], w.references[at[j]].name)
    ensures forall i, j :: 0 <= i < j < |opens| ==> opens[i] < opens[j]
    ensures forall k :: 0 <= k < |states| && states[k].SecAt? && states[k].file.Some? ==>
              && (exists j :: 0 <= j < |at| && states[k].file.value == w.references[at[j]].name)
              && (states[k].after.None? ==> k in opens)
  {
    SecNeeds(w, q, limit, classify, states, 0);
    at := PlanExact(w.references, q);
    SecServes(w, q, limit, classify);
    opens := OpensPlanned(SecFetcher(w, q, limit, classify), Overlapping(w.references, q), Lists(w, q), limit,
                          CutRows(w, q, limit), Clean(w, q), states);
  }

  /** A filing the window asks for, under an allowed form, with everything the adapter needs. */
  predicate Asked(r: Filing, q: Query) {
    && r.accession.Some? && r.accession.value != "" && r.date.Some? && r.date.value != "" && r.form.Some?
    && !StrLt(r.date.value, q.start) && !StrLt(q.end, r.date.value) && r.form.value in q.forms
  }

  /** A filing whose date or form cannot be read and whose readable part does not exclude it. */
  predicate Unreadable(r: Filing, q: Query) {
    && r.accession.Some? && r.accession.value != ""
    && (r.date.None? || r.date.value == "" || r.form.None?)
    && (r.date.Some? && r.date.value != "" ==> !StrLt(r.date.value, q.start) && !StrLt(q.end, r.date.value))
    && (r.form.Some? ==> r.form.value in q.forms)
  }

  lemma {:induction false} KeptSource(rows: seq<Filing>, q: Query, p: Payload)
    ensures p in Kept(rows, q) <==> exists r :: r in rows && Asked(r, q) && p == Payload(r.accession.value, r.date.value, r.body)
  {
    if rows != [] {
      KeptSource(rows[..|rows| - 1], q, p);
      assert rows == rows[..|rows| - 1] + [rows[|rows| - 1]];
    }
  }

  lemma {:induction false} InvalidSource(rows: seq<Filing>, q: Query, id: string)
    ensures (exists p :: p in Invalid(rows, q) && p.id == id) <==>
            (exists r :: r in rows && Unreadable(r, q) && r.accession.value == id)
  {
    if rows != [] {
      var init, last := rows[..|rows| - 1], rows[|rows| - 1];
      InvalidSource(init, q, id);
      assert rows == init + [last];
      if Unreadable(last, q) { assert FateOf(last, q).row in Invalid(rows, q); }
    }
  }

  lemma {:induction false} HashSource(ps: seq<Payload>, h: RowHash)
    requires h in Hashes(ps)
    ensures exists p :: p in ps && h == Digest(p.id)
  {
    if h in Hashes(ps[..|ps| - 1]) { HashSource(ps[..|ps| - 1], h); }
  }

  /** What every accepted request has passed, planned or not: names of this CIK, sound references, the history budget, key bounds. */
  lemma CutGuarded(w: World, q: Query, limit: nat, s: Progress)
    requires limit >= 1 && SecCut(w, q, limit, s).Some?
    ensures s.Start? || s.SecAt?
    ensures s.SecAt? && s.file.Some? ==> HistoryFile(q.cik, s.file.value)
    ensures s.SecAt? && s.files.Some? ==> |s.files.value| <= q.maxHistory
    ensures s.SecAt? && s.after.Some? ==> |s.after.value.at| <= 200 && |s.after.value.id| <= 200
    ensures s.Start? ==> |Overlapping(w.references, q)| <= q.maxHistory
    ensures s.Start? ==> forall r :: r in w.references ==> r.sound && HistoryFile(q.cik, r.name) && !StrLt(r.to, r.from)
    ensures forall r :: r in RowsOf(w, FileOf(s)) ==> r.accession.Some? && r.accession.value != ""
  {
  }

  /** A request cuts only filings of its file that the window asks for, and reports only unreadable ones. */
  lemma CutsOnlyAsked(w: World, q: Query, limit: nat, s: Progress)
    requires limit >= 1 && SecCut(w, q, limit, s).Some?
    ensures forall p :: p in SecCut(w, q, limit, s).value.payloads ==>
              exists r :: r in RowsOf(w, FileOf(s)) && Asked(r, q) && p == Payload(r.accession.value, r.date.value, r.body)
    ensures forall h :: h in SecCut(w, q, limit, s).value.rejected ==>
              exists r :: r in RowsOf(w, FileOf(s)) && Unreadable(r, q) && h == Digest(r.accession.value)
  {
    var rows, cut, k := RowsOf(w, FileOf(s)), SecCut(w, q, limit, s).value, KeyOrBottom(AfterOf(s));
    forall p | p in cut.payloads
      ensures exists r :: r in rows && Asked(r, q) && p == Payload(r.accession.value, r.date.value, r.body)
    {
      RemainingRises(Kept(rows, q), k);
      KeptSource(rows, q, p);
    }
    forall h | h in cut.rejected ensures exists r :: r in rows && Unreadable(r, q) && h == Digest(r.accession.value) {
      HashSource(Above(Sorted(Invalid(rows, q)), k), h);
      var p :| p in Above(Sorted(Invalid(rows, q)), k) && h == Digest(p.id);
      AboveFilters(Sorted(Invalid(rows, q)), k);
      SortedSorts(Invalid(rows, q));
      InvalidSource(rows, q, p.id);
    }
  }
}
