/**
 * The results dashboard of src/pages/Admin.jsx: quiz results from
 * IndexedDB sorted newest first, then narrowed by module and by a search
 * on the quiz id.
 */
module Admin {
  import opened Js
  import opened Seqs

  // ---------------------------------------------------------------------
  // Sorting by date

  /** The comparator `new Date(b.date) - new Date(a.date)`, where `time`
      gives the milliseconds of a record's date (`None` for an invalid
      date). A NaN difference counts as 0, as `Array.prototype.sort` reads
      it. */
  function Compare<T>(time: T -> Option<int>, a: T, b: T): int {
    if time(a).Some? && time(b).Some? then time(b).value - time(a).value else 0
  }

  /** Insertion of `x` after a sorted run, moving left past every element
      the comparator puts after it and no further (so equal dates keep
      their order). */
  function Insert<T>(time: T -> Option<int>, x: T, ys: seq<T>): seq<T> {
    if ys == [] then [x]
    else if Compare(time, ys[|ys| - 1], x) > 0 then Insert(time, x, ys[..|ys| - 1]) + [ys[|ys| - 1]]
    else ys + [x]
  }

  /** `allResults.sort(...)`, as an insertion sort by the comparator (its
      stability is not proved). */
  function SortNewestFirst<T>(time: T -> Option<int>, xs: seq<T>): seq<T> {
    if xs == [] then []
    else Insert(time, xs[|xs| - 1], SortNewestFirst(time, xs[..|xs| - 1]))
  }

  predicate AllDated<T>(time: T -> Option<int>, xs: seq<T>) {
    forall i | 0 <= i < |xs| :: time(xs[i]).Some?
  }

  /** Every record is at least as recent as every later one. */
  predicate NewestFirst<T>(time: T -> Option<int>, xs: seq<T>)
    requires AllDated(time, xs)
  {
    forall i, j | 0 <= i < j < |xs| :: time(xs[i]).value >= time(xs[j]).value
  }

  lemma {:induction false} InsertPermutes<T>(time: T -> Option<int>, x: T, ys: seq<T>)
    ensures multiset(Insert(time, x, ys)) == multiset(ys) + multiset{x}
  {
    if ys != [] && Compare(time, ys[|ys| - 1], x) > 0 {
      var init := ys[..|ys| - 1];
      InsertPermutes(time, x, init);
      assert ys == init + [ys[|ys| - 1]];
    }
  }

  lemma MultisetSnoc<T>(xs: seq<T>)
    requires xs != []
    ensures multiset(xs) == multiset(xs[..|xs| - 1]) + multiset{xs[|xs| - 1]}
  {
    assert xs == xs[..|xs| - 1] + [xs[|xs| - 1]];
  }

  /** Sorting only reorders the results. */
  lemma {:induction false} SortPermutes<T>(time: T -> Option<int>, xs: seq<T>)
    ensures multiset(SortNewestFirst(time, xs)) == multiset(xs)
  {
    if xs != [] {
      var init := xs[..|xs| - 1];
      var last := xs[|xs| - 1];
      var sorted := SortNewestFirst(time, init);
      SortPermutes(time, init);
      InsertPermutes(time, last, sorted);
      MultisetSnoc(xs);
    }
  }

  /** Insertion adds only `x`. */
  lemma InsertFrom<T>(time: T -> Option<int>, x: T, ys: seq<T>)
    ensures forall e | e in Insert(time, x, ys) :: e == x || e in ys
  {
    InsertPermutes(time, x, ys);
    forall e | e in Insert(time, x, ys)
      ensures e == x || e in ys
    {
      assert e in multiset(Insert(time, x, ys));
    }
  }

  /** A record no more recent than any of a sorted run may follow it. */
  lemma AppendOldest<T>(time: T -> Option<int>, s: seq<T>, l: T)
    requires AllDated(time, s) && NewestFirst(time, s) && time(l).Some?
    requires forall e | e in s :: time(e).Some? && time(e).value >= time(l).value
    ensures AllDated(time, s + [l]) && NewestFirst(time, s + [l])
  {
    var r := s + [l];
    forall i, j | 0 <= i < j < |r|
      ensures time(r[i]).Some? && time(r[j]).Some? && time(r[i]).value >= time(r[j]).value
    {
      assert r[i] == s[i] && s[i] in s;
      if j < |s| {
        assert r[j] == s[j];
      }
    }
  }

  lemma {:induction false} InsertSorted<T>(time: T -> Option<int>, x: T, ys: seq<T>)
    requires time(x).Some? && AllDated(time, ys) && NewestFirst(time, ys)
    ensures AllDated(time, Insert(time, x, ys)) && NewestFirst(time, Insert(time, x, ys))
  {
    if ys != [] {
      var init := ys[..|ys| - 1];
      var l := ys[|ys| - 1];
      assert ys == init + [l];
      forall e | e in ys
        ensures time(e).Some? && time(e).value >= time(l).value
      {
        var i :| 0 <= i < |ys| && ys[i] == e;
      }
      if Compare(time, l, x) > 0 {
        assert forall i | 0 <= i < |init| :: init[i] == ys[i];
        InsertSorted(time, x, init);
        InsertFrom(time, x, init);
        AppendOldest(time, Insert(time, x, init), l);
      } else {
        AppendOldest(time, ys, x);
      }
    }
  }

  /** With every date valid, the sorted results run newest first. */
  lemma {:induction false} SortOrders<T>(time: T -> Option<int>, xs: seq<T>)
    requires AllDated(time, xs)
    ensures AllDated(time, SortNewestFirst(time, xs)) && NewestFirst(time, SortNewestFirst(time, xs))
  {
    if xs != [] {
      var init := xs[..|xs| - 1];
      assert forall i | 0 <= i < |init| :: init[i] == xs[i];
      SortOrders(time, init);
      InsertSorted(time, xs[|xs| - 1], SortNewestFirst(time, init));
    }
  }

  // ---------------------------------------------------------------------
  // Filtering

  /** `r.quizId.includes(filterModule)`; a missing id throws. */
  function ModuleTest(mod: string, r: Json): Result<bool> {
    var id :- Prop(r, "quizId");
    Includes(id, mod)
  }

  function ModuleTestOf(mod: string): Json -> Result<bool> {
    r => ModuleTest(mod, r)
  }

  /** `r.quizId.toLowerCase().includes(search.toLowerCase())`. */
  function SearchTest(search: string, r: Json): Result<bool> {
    var id :- Prop(r, "quizId");
    var lowered :- LowerOf(id);
    Ok(Contains(lowered, Lower(search)))
  }

  function SearchTestOf(search: string): Json -> Result<bool> {
    r => SearchTest(search, r)
  }

  /** The filter effect: the module filter unless the module is "all", then
      the search unless it is blank after trimming. */
  function FilterResults(results: seq<Json>, mod: string, search: string): Result<seq<Json>> {
    var byModule :- ByModule(results, mod);
    BySearch(byModule, search)
  }

  /** `if (filterModule !== "all") filtered = filtered.filter(...)`. */
  function ByModule(results: seq<Json>, mod: string): Result<seq<Json>> {
    if mod != "all" then FilterR(ModuleTestOf(mod), results) else Ok(results)
  }

  /** `if (search.trim() !== "") filtered = filtered.filter(...)`. */
  function BySearch(results: seq<Json>, search: string): Result<seq<Json>> {
    if Trim(search) != "" then FilterR(SearchTestOf(search), results) else Ok(results)
  }

  /** A result whose quiz id is a string. */
  predicate TextId(r: Json) {
    var id := Chain(Some(r), "quizId");
    id.Some? && id.value.Str?
  }

  function QuizId(r: Json): string {
    ToString(Chain(Some(r), "quizId"))
  }

  predicate ModuleKept(mod: string, r: Json) {
    mod == "all" || Contains(QuizId(r), mod)
  }

  /** The untrimmed, lower-cased search must occur in the lower-cased id. */
  predicate SearchKept(search: string, r: Json) {
    Trim(search) == "" || Contains(Lower(QuizId(r)), Lower(search))
  }

  predicate Kept(mod: string, search: string, r: Json) {
    ModuleKept(mod, r) && SearchKept(search, r)
  }

  function ModuleKeptOf(mod: string): Json -> bool { r => ModuleKept(mod, r) }
  function SearchKeptOf(search: string): Json -> bool { r => SearchKept(search, r) }
  function KeptOf(mod: string, search: string): Json -> bool { r => Kept(mod, search, r) }

  /** The module stage keeps the results whose id contains the module. */
  lemma ModuleStage(results: seq<Json>, mod: string)
    requires forall i | 0 <= i < |results| :: TextId(results[i])
    ensures ByModule(results, mod) == Ok(Filter(ModuleKeptOf(mod), results))
  {
    if mod != "all" {
      forall i | 0 <= i < |results|
        ensures ModuleKeptOf(mod)(results[i]) <==> ModuleTestOf(mod)(results[i]) == Ok(true)
        ensures ModuleTestOf(mod)(results[i]).Ok?
      {
      }
      FilterRSpec(ModuleTestOf(mod), results, ModuleKeptOf(mod));
    } else {
      FilterAll(ModuleKeptOf(mod), results);
    }
  }

  lemma SearchTestAgrees(search: string, r: Json)
    requires TextId(r) && Trim(search) != ""
    ensures SearchTest(search, r) == Ok(SearchKept(search, r))
  {
    var id := Chain(Some(r), "quizId").value.s;
    assert Prop(r, "quizId") == Ok(Some(Str(id)));
    assert QuizId(r) == id;
  }

  /** The search stage keeps the results whose lower-cased id contains the
      lower-cased search. */
  lemma SearchStage(results: seq<Json>, search: string)
    requires forall i | 0 <= i < |results| :: TextId(results[i])
    ensures BySearch(results, search) == Ok(Filter(SearchKeptOf(search), results))
  {
    if Trim(search) != "" {
      forall i | 0 <= i < |results|
        ensures SearchKeptOf(search)(results[i]) <==> SearchTestOf(search)(results[i]) == Ok(true)
        ensures SearchTestOf(search)(results[i]).Ok?
      {
        SearchTestAgrees(search, results[i]);
      }
      FilterRSpec(SearchTestOf(search), results, SearchKeptOf(search));
    } else {
      FilterAll(SearchKeptOf(search), results);
    }
  }

  /** Module "all" and a blank search keep every result. */
  lemma FilterResultsAll(results: seq<Json>)
    ensures FilterResults(results, "all", "") == Ok(results)
  {
    assert Trim("") == "";
  }

  /** With string quiz ids the filters never throw and keep, in order,
      exactly the results passing both. */
  lemma FilterResultsSpec(results: seq<Json>, mod: string, search: string)
    requires forall i | 0 <= i < |results| :: TextId(results[i])
    ensures FilterResults(results, mod, search) == Ok(Filter(KeptOf(mod, search), results))
    ensures IsSubsequence(Filter(KeptOf(mod, search), results), results)
  {
    StagesCompose(results, mod, search);
    FilterBoth(ModuleKeptOf(mod), SearchKeptOf(search), KeptOf(mod, search), results);
  }

  /** The search stage works on what the module stage kept. */
  lemma StagesCompose(results: seq<Json>, mod: string, search: string)
    requires forall i | 0 <= i < |results| :: TextId(results[i])
    ensures FilterResults(results, mod, search) == Ok(Filter(SearchKeptOf(search), Filter(ModuleKeptOf(mod), results)))
  {
    var a := Filter(ModuleKeptOf(mod), results);
    ModuleStage(results, mod);
    FilterPreserves(ModuleKeptOf(mod), results, TextId);
    SearchStage(a, search);
  }
}
