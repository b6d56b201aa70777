/**
 * The awareness page of src/pages/Awareness.jsx: disaster guides read from
 * localStorage first and otherwise fetched and cached there, a text search
 * over them, and a reset that wipes localStorage and fetches again.
 */
module Awareness {
  import opened Js
  import opened Seqs
  import opened Storage
  import Auth
  import Quiz

  const DisastersKey: string := "des_disasters"

  /** Stored guides are used only when they form a non-empty array. */
  predicate UsesLocal(local: Json) {
    local.Arr? && |local.items| > 0
  }

  /** A fetch that yields a parsed body; there is no status check. */
  predicate Delivers(res: Fetch) {
    res.Responded? && res.json.Some?
  }

  class AwarenessPage {
    var items: Json
    var loading: bool

    constructor ()
      ensures items == Arr([]) && loading
    {
      items, loading := Arr([]), true;
    }

    /** The mount effect. Non-empty stored guides are shown without a
        request. Otherwise the fetched guides are shown and written back, and
        a failed request or unreadable body shows nothing. */
    method Load(ls: LocalStorage, res: Fetch) returns (fetched: bool)
      modifies this, ls
      ensures !loading
      ensures var local := ReadJSON(old(ls.items), DisastersKey, Null);
        && (fetched <==> !UsesLocal(local))
        && (UsesLocal(local) ==> items == local && ls.items == old(ls.items))
        && (!UsesLocal(local) && Delivers(res) ==>
              items == res.json.value && ls.items == old(ls.items)[DisastersKey := Encoded(res.json.value)])
        && (!UsesLocal(local) && !Delivers(res) ==> items == Arr([]) && ls.items == old(ls.items))
      ensures fetched && Delivers(res) && UsesLocal(res.json.value) ==>
        UsesLocal(ReadJSON(ls.items, DisastersKey, Null))
    {
      var local := ReadJSON(ls.items, DisastersKey, Null);
      fetched := !UsesLocal(local);
      if !fetched {
        items := local;
      } else if !Delivers(res) {
        items := Arr([]);
      } else {
        items := res.json.value;
        ls.WriteJSON(DisastersKey, res.json.value);
      }
      loading := false;
    }

    /** `resetLocal()`: every localStorage key goes (the session, the users,
        the quiz overrides with the rest), then the guides are fetched again;
        a failed fetch leaves storage empty and the shown guides as they
        were. */
    method ResetLocal(ls: LocalStorage, res: Fetch)
      modifies this, ls
      ensures Delivers(res) ==> ls.items == map[DisastersKey := Encoded(res.json.value)] && items == res.json.value
      ensures !Delivers(res) ==> ls.items == map[] && items == old(items)
      ensures loading == old(loading)
      ensures forall k | k in ls.items :: k == DisastersKey
      ensures Auth.GetSession(ls.items) == Null && Auth.Users(ls.items) == Arr([])
      ensures forall file :: Quiz.OverrideFor(ls.items, file).None?
    {
      ls.Clear();
      if Delivers(res) {
        ls.WriteJSON(DisastersKey, res.json.value);
        items := res.json.value;
      }
    }
  }

  // ---------------------------------------------------------------------
  // The search

  /** `(v || []).join(' ')`: only an array has `join`. */
  function JoinOr(v: Option<Json>): Result<string> {
    var list := Or(v, Arr([]));
    if list.Arr? then Ok(Join(list.items, " ")) else Err(TypeError)
  }

  /** The text the search looks in: title, overview, tips and response
      steps, separated by spaces. Reading a field of a null guide throws. */
  function Haystack(d: Json): Result<string> {
    var title :- Prop(d, "title");
    var overview :- Prop(d, "overview");
    var tips :- Prop(d, "tips");
    var tipsText :- JoinOr(tips);
    var response :- Prop(d, "response");
    var responseText :- JoinOr(response);
    Ok(ToString(title) + (" " + ToString(overview) + " " + tipsText + " " + responseText))
  }

  /** The filter callback: a blank query keeps the guide; otherwise the
      lower-cased text must contain the lower-cased, untrimmed query. */
  function QueryTest(query: string, d: Json): Result<bool> {
    if Trim(query) == "" then Ok(true)
    else
      var hay :- Haystack(d);
      Ok(Contains(Lower(hay), Lower(query)))
  }

  function QueryTestOf(query: string): Json -> Result<bool> {
    d => QueryTest(query, d)
  }

  /** `items.filter(...)`: only an array has `filter`. */
  function FilterDisasters(items: Json, query: string): Result<seq<Json>> {
    if items.Arr? then FilterR(QueryTestOf(query), items.items) else Err(TypeError)
  }

  /** A list field that is missing, falsy or an array. */
  predicate Joinable(v: Option<Json>) {
    !Truthy(v) || v.value.Arr?
  }

  /** A guide the search can read without throwing. */
  predicate Searchable(d: Json) {
    d != Null && Joinable(Chain(Some(d), "tips")) && Joinable(Chain(Some(d), "response"))
  }

  function ListText(v: Option<Json>): string {
    if Truthy(v) && v.value.Arr? then Join(v.value.items, " ") else ""
  }

  /** The text after the title. */
  function RestText(d: Json): string {
    " " + ToString(Chain(Some(d), "overview")) + " " + ListText(Chain(Some(d), "tips"))
      + " " + ListText(Chain(Some(d), "response"))
  }

  /** Whether a guide matches: a blank query, or the query occurring in its
      text regardless of case. */
  predicate Mentions(query: string, d: Json) {
    Trim(query) == "" || Contains(Lower(ToString(Chain(Some(d), "title")) + RestText(d)), Lower(query))
  }

  function MentionsOf(query: string): Json -> bool {
    d => Mentions(query, d)
  }

  /** Reading a field of anything but null succeeds. */
  lemma PropOfNonNull(d: Json, k: string)
    requires d != Null
    ensures Prop(d, k) == Ok(Chain(Some(d), k))
  {
  }

  lemma JoinOrText(v: Option<Json>)
    requires Joinable(v)
    ensures JoinOr(v) == Ok(ListText(v))
  {
  }

  /** On a readable guide the search reads the text `Mentions` looks in. */
  lemma HaystackText(d: Json)
    requires Searchable(d)
    ensures Haystack(d) == Ok(ToString(Chain(Some(d), "title")) + RestText(d))
  {
    PropOfNonNull(d, "title");
    PropOfNonNull(d, "overview");
    PropOfNonNull(d, "tips");
    PropOfNonNull(d, "response");
    JoinOrText(Chain(Some(d), "tips"));
    JoinOrText(Chain(Some(d), "response"));
  }

  lemma QueryTestAgrees(query: string, d: Json)
    requires Searchable(d)
    ensures QueryTest(query, d) == Ok(Mentions(query, d))
  {
    if Trim(query) != "" {
      HaystackText(d);
    }
  }

  /** A blank query keeps every guide; on readable guides the search keeps,
      in order, exactly the guides that mention the query. */
  lemma FilterDisastersSpec(xs: seq<Json>, query: string)
    ensures Trim(query) == "" ==> FilterDisasters(Arr(xs), query) == Ok(xs)
    ensures (forall i | 0 <= i < |xs| :: Searchable(xs[i])) ==>
      FilterDisasters(Arr(xs), query) == Ok(Filter(MentionsOf(query), xs))
    ensures IsSubsequence(Filter(MentionsOf(query), xs), xs)
  {
    if Trim(query) == "" || forall i | 0 <= i < |xs| :: Searchable(xs[i]) {
      forall i | 0 <= i < |xs|
        ensures MentionsOf(query)(xs[i]) <==> QueryTestOf(query)(xs[i]) == Ok(true)
        ensures QueryTestOf(query)(xs[i]).Ok?
      {
        if Trim(query) != "" {
          QueryTestAgrees(query, xs[i]);
        }
      }
      FilterRSpec(QueryTestOf(query), xs, MentionsOf(query));
      if Trim(query) == "" {
        FilterAll(MentionsOf(query), xs);
      }
    }
    FilterSpec(MentionsOf(query), xs);
  }

  /** Lower-casing distributes over concatenation. */
  lemma LowerAppend(a: string, b: string)
    ensures Lower(a + b) == Lower(a) + Lower(b)
  {
  }

  /** Text found in a prefix is found in the whole. */
  lemma ContainsExtend(a: string, b: string, q: string)
    requires Contains(a, q)
    ensures Contains(a + b, q)
  {
    var i :| 0 <= i <= |a| && OccursAt(a, q, i);
    assert (a + b)[i..i + |q|] == a[i..i + |q|];
    assert OccursAt(a + b, q, i);
  }

  /** A guide whose title contains the query, ignoring case, is kept. */
  lemma TitleMatchKept(query: string, d: Json, title: string)
    requires Chain(Some(d), "title") == Some(Str(title))
    requires Contains(Lower(title), Lower(query))
    ensures Mentions(query, d)
  {
    var rest := RestText(d);
    assert ToString(Chain(Some(d), "title")) == title;
    LowerAppend(title, rest);
    ContainsExtend(Lower(title), Lower(rest), Lower(query));
  }
}
