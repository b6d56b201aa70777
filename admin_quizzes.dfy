/**
 * The quiz editor of src/pages/AdminQuizzes.jsx. Administrators keep an
 * overlay of quizzes in localStorage (`des_custom_quizzes`, file name to
 * quiz); the quiz player prefers an overlay entry to the published file.
 * The page lists the quizzes the modules publish, saves and removes overlay
 * entries, and announces saved quizzes in the notification feed.
 */
module AdminQuizzes {
  import opened Js
  import opened Seqs
  import opened Storage
  import opened Notifications
  import Quiz

  const NewQuizFile: string := "new-quiz.json"
  const JsonSuffix: string := ".json"
  const ShapeMsg: string := "Quiz must include title and questions[]"

  /** `readLS()`: the overlay, or `{}` when it is missing, unreadable or
      falsy. */
  function ReadLS(items: map<string, Stored>): (r: Json)
    ensures Truthy(Some(r))
    ensures Quiz.OverridesKey !in items ==> r == Obj(map[])
  {
    ReadOr(items, Quiz.OverridesKey, Obj(map[]))
  }

  // ---------------------------------------------------------------------
  // File names

  /** The file name `saveQuiz` stores under: an empty name becomes
      'new-quiz.json', and '.json' is appended unless already there. */
  function NormalizeFilename(file: string): (r: string)
    ensures EndsWith(r, JsonSuffix)
    ensures file == "" ==> r == NewQuizFile
    ensures EndsWith(file, JsonSuffix) ==> r == file
    ensures file != "" && !EndsWith(file, JsonSuffix) ==> r == file + JsonSuffix
  {
    var f := if file == "" then NewQuizFile else file;
    if EndsWith(f, JsonSuffix) then f
    else
      EndsWithAppend(file, JsonSuffix);
      file + JsonSuffix
  }

  /** Normalising twice is normalising once. */
  lemma NormalizeIdempotent(file: string)
    ensures NormalizeFilename(NormalizeFilename(file)) == NormalizeFilename(file)
  {
    var r := NormalizeFilename(file);
    assert EndsWith(r, JsonSuffix);
  }

  // ---------------------------------------------------------------------
  // The editor

  /** The editor text: typed by the administrator, or the two-space
      `JSON.stringify` of a value, which parses back to that value. */
  datatype Content = Text(s: string) | Pretty(j: Json)

  /** The quiz used when the editor is blank. */
  const DefaultQuiz: Json := Obj(map[
    "id" := Str("custom-quiz"),
    "title" := Str("New Quiz"),
    "questions" := Arr([Obj(map[
      "q" := Str("Example question?"),
      "options" := Arr([Str("A"), Str("B"), Str("C"), Str("D")]),
      "answer" := Num(0)])])])

  /** What `JSON.parse` makes of the text `saveQuiz` reads: blank text is
      replaced by the default quiz, a pretty-printed value parses back to
      itself, and typed text gives `parsedText` (the outcome of parsing it,
      a SyntaxError when malformed). */
  function ParsedContent(content: Content, parsedText: Result<Json>): (r: Result<Json>)
    ensures content.Text? && Trim(content.s) == "" ==> r == Ok(DefaultQuiz)
  {
    match content
    case Pretty(j) => Ok(j)
    case Text(s) => if Trim(s) == "" then Ok(DefaultQuiz) else parsedText
  }

  /** The shape `saveQuiz` demands: a truthy value with a truthy `title` and
      an array `questions`. */
  predicate QuizShaped(j: Json) {
    && Truthy(Some(j))
    && Truthy(Chain(Some(j), "title"))
    && Chain(Some(j), "questions").Some? && Chain(Some(j), "questions").value.Arr?
  }

  /** The checks of `saveQuiz`: the editor text must parse, and the value
      must have the quiz shape. */
  function Validated(content: Content, parsedText: Result<Json>): (r: Result<Json>)
    ensures r.Ok? <==> ParsedContent(content, parsedText).Ok? && QuizShaped(ParsedContent(content, parsedText).value)
    ensures r.Ok? ==> r.value == ParsedContent(content, parsedText).value && Truthy(Some(r.value))
    ensures ParsedContent(content, parsedText).Err? ==> r == ParsedContent(content, parsedText)
    ensures ParsedContent(content, parsedText).Ok? && r.Err? ==> r.error == Thrown(ShapeMsg)
  {
    var parsed :- ParsedContent(content, parsedText);
    if QuizShaped(parsed) then Ok(parsed) else Err(Thrown(ShapeMsg))
  }

  /** `{ ...prev, [filename]: parsed }`. */
  function Overlaid(prev: Json, filename: string, parsed: Json): map<string, Json> {
    Spread(map[], Some(prev))[filename := parsed]
  }

  /** Saving sets the one entry and keeps every other entry of an overlay
      object. */
  lemma OverlaidSpec(m: map<string, Json>, filename: string, parsed: Json)
    ensures var n := Overlaid(Obj(m), filename, parsed);
      && n.Keys == m.Keys + {filename}
      && n[filename] == parsed
      && (forall k | k in m && k != filename :: n[k] == m[k])
  {
    SpreadOverrides(map[], m, filename);
  }

  /** The notification announcing a saved quiz. */
  function SavedNote(existing: bool, parsed: Json, filename: string): (n: Json)
    ensures n.Obj? && "type" in n.fields && "target" in n.fields && n.fields["target"] == Str("all")
    ensures n.fields["type"] == Str("quiz:update") <==> existing
    ensures n.fields["type"] == Str("quiz:new") <==> !existing
  {
    var title := Chain(Some(parsed), "title");
    Obj(map[
      "type" := Str(if existing then "quiz:update" else "quiz:new"),
      "title" := Str(if existing then "Quiz Updated" else "New Quiz Available"),
      "body" := Str(ToString(Some(Or(title, Str(filename)))) + " is now available."),
      "target" := Str("all")])
  }

  /** `{ ...readLS() }` with `delete next[file]`. */
  function Removed(prev: Json, file: string): map<string, Json> {
    Spread(map[], Some(prev)) - {file}
  }

  /** Removal deletes only that entry of an overlay object. */
  lemma RemovedSpec(m: map<string, Json>, file: string)
    ensures var n := Removed(Obj(m), file);
      && n.Keys == m.Keys - {file}
      && (forall k | k in n :: n[k] == m[k])
  {
  }

  /** Removing a file just saved gives back the overlay without it. */
  lemma RemoveUndoesSave(m: map<string, Json>, filename: string, parsed: Json)
    ensures Removed(Obj(Overlaid(Obj(m), filename, parsed)), filename) == m - {filename}
  {
    OverlaidSpec(m, filename, parsed);
    var n := Removed(Obj(Overlaid(Obj(m), filename, parsed)), filename);
    assert n.Keys == (m - {filename}).Keys;
  }

  // ---------------------------------------------------------------------
  // The quiz list

  /** The listing entry of one quiz `q` of a module whose id is `id`:
      `{ module, title, file }`; a null or missing quiz throws. */
  function Listing(id: Option<Json>, q: Json): (r: Result<Json>)
    ensures r.Ok? <==> q != Null
  {
    var title :- Prop(q, "title");
    var file :- Prop(q, "file");
    Ok(Obj(WithField(WithField(WithField(map[], "module", id), "title", title), "file", file)))
  }

  /** `m.quizzes || []`, which must be an array; a null module throws. */
  function QuizzesOf(m: Json): Result<seq<Json>> {
    var qs :- Prop(m, "quizzes");
    var list := Or(qs, Arr([]));
    if list.Arr? then Ok(list.items) else Err(TypeError)
  }

  /** The entries of the quizzes `qs` of a module, in order. */
  function ModuleListings(id: Option<Json>, qs: seq<Json>): Result<seq<Json>> {
    if qs == [] then Ok([])
    else
      var init :- ModuleListings(id, qs[..|qs| - 1]);
      var last :- Listing(id, qs[|qs| - 1]);
      Ok(init + [last])
  }

  /** The entries of one module `m`. */
  function ModuleEntries(m: Json): Result<seq<Json>> {
    var qs :- QuizzesOf(m);
    ModuleListings(Prop(m, "id").value, qs)
  }

  /** The list built from `modules`, in order; the first throw aborts it. */
  function Listings(modules: seq<Json>): Result<seq<Json>> {
    if modules == [] then Ok([])
    else
      var init :- Listings(modules[..|modules| - 1]);
      var these :- ModuleEntries(modules[|modules| - 1]);
      Ok(init + these)
  }

  /** A module without quizzes adds nothing. */
  lemma NoQuizzesNoListings(modules: seq<Json>, m: map<string, Json>)
    requires "quizzes" !in m || !Truthy(Some(m["quizzes"]))
    ensures Listings(modules + [Obj(m)]) == Listings(modules)
  {
    var ms := modules + [Obj(m)];
    assert ms[..|ms| - 1] == modules && ms[|ms| - 1] == Obj(m);
    assert QuizzesOf(Obj(m)) == Ok([]);
    if Listings(modules).Ok? {
      assert Listings(modules).value + [] == Listings(modules).value;
    }
  }

  /** `z` is `x` followed by `y`, and throws exactly when either does. */
  predicate Concats(x: Result<seq<Json>>, y: Result<seq<Json>>, z: Result<seq<Json>>) {
    && (z.Ok? <==> x.Ok? && y.Ok?)
    && (z.Ok? ==> z.value == x.value + y.value)
  }

  lemma ConcatsAssoc(x: Result<seq<Json>>, y: Result<seq<Json>>, e: Result<seq<Json>>,
                     xy: Result<seq<Json>>, ye: Result<seq<Json>>, xye: Result<seq<Json>>)
    requires Concats(x, y, xy) && Concats(xy, e, xye) && Concats(y, e, ye)
    ensures Concats(x, ye, xye)
  {
    if xye.Ok? {
      assert x.value + y.value + e.value == x.value + (y.value + e.value);
    }
  }

  /** One more module appends its entries, or throws. */
  lemma ListingsSnoc(ms: seq<Json>, m: Json)
    ensures Concats(Listings(ms), ModuleEntries(m), Listings(ms + [m]))
  {
    var ms' := ms + [m];
    assert ms'[..|ms'| - 1] == ms && ms'[|ms'| - 1] == m;
  }

  /** The list is the flattening of the modules' lists: building it from
      two runs of modules concatenates their lists. */
  lemma {:induction false} ListingsAppend(a: seq<Json>, b: seq<Json>)
    ensures Concats(Listings(a), Listings(b), Listings(a + b))
    decreases |b|
  {
    if b == [] {
      assert a + b == a;
      assert Listings(a).Ok? ==> Listings(a).value + [] == Listings(a).value;
    } else {
      var b' := b[..|b| - 1];
      var m := b[|b| - 1];
      ListingsAppend(a, b');
      ListingsSnoc(a + b', m);
      assert a + b == (a + b') + [m];
      ListingsSnoc(b', m);
      assert b == b' + [m];
      ConcatsAssoc(Listings(a), Listings(b'), ModuleEntries(m), Listings(a + b'), Listings(b), Listings(a + b));
    }
  }

  /** The modules of the list, as `fetch('/data/modules.json')` and
      `res.json()` produce them; any throw gives the empty list. */
  function ListOf(res: Fetch): (r: seq<Json>)
    ensures res.NetworkDown? || res.json.None? ==> r == []
  {
    if res.NetworkDown? || res.json.None? || !res.json.value.Arr? then []
    else match Listings(res.json.value.items)
         case Ok(l) => l
         case Err(_) => []
  }

  /** The entries of one module, pushed one quiz at a time. */
  method PushModule(files: seq<Json>, m: Json) returns (r: Result<seq<Json>>)
    ensures r.Ok? <==> ModuleEntries(m).Ok?
    ensures r.Ok? ==> r.value == files + ModuleEntries(m).value
  {
    var qs := QuizzesOf(m);
    if qs.Err? {
      return Err(qs.error);
    }
    var id := Prop(m, "id").value;
    var out := files;
    var j := 0;
    while j < |qs.value|
      invariant 0 <= j <= |qs.value|
      invariant ModuleListings(id, qs.value[..j]).Ok?
      invariant out == files + ModuleListings(id, qs.value[..j]).value
    {
      var entry := Listing(id, qs.value[j]);
      assert qs.value[..j + 1][..j] == qs.value[..j];
      if entry.Err? {
        ModuleListingsPrefix(id, qs.value, j);
        return Err(entry.error);
      }
      out := out + [entry.value];
      j := j + 1;
    }
    assert qs.value[..j] == qs.value;
    r := Ok(out);
  }

  /** A throw at one quiz makes the whole module's list throw. */
  lemma {:induction false} ModuleListingsPrefix(id: Option<Json>, qs: seq<Json>, j: nat)
    requires j < |qs| && Listing(id, qs[j]).Err?
    ensures ModuleListings(id, qs).Err?
    decreases |qs|
  {
    if j < |qs| - 1 {
      ModuleListingsPrefix(id, qs[..|qs| - 1], j);
    }
  }

  /** A throw at one module makes the whole list throw. */
  lemma {:induction false} ListingsPrefix(modules: seq<Json>, i: nat)
    requires i < |modules|
    requires ModuleEntries(modules[i]).Err?
    ensures Listings(modules).Err?
    decreases |modules|
  {
    if i < |modules| - 1 {
      ListingsPrefix(modules[..|modules| - 1], i);
    }
  }

  /** Once the overlay object is stored, `readLS` returns it and the quiz
      player finds a saved (truthy) quiz under its file name. */
  lemma OverlayServed(items: map<string, Stored>, next: map<string, Json>, filename: string, parsed: Json)
    requires Quiz.OverridesKey in items && items[Quiz.OverridesKey] == Encoded(Obj(next))
    requires filename in next && next[filename] == parsed && Truthy(Some(parsed))
    ensures ReadLS(items) == Obj(next)
    ensures Quiz.OverrideFor(items, filename) == Some(parsed)
  {
  }

  /** The list building of the mount effect: every module's quizzes pushed
      in order, and the empty list when anything throws. */
  method BuildList(res: Fetch) returns (list: seq<Json>)
    ensures list == ListOf(res)
  {
    var files: seq<Json> := [];
    if res.NetworkDown? || res.json.None? || !res.json.value.Arr? {
      return [];
    }
    var modules := res.json.value.items;
    var i := 0;
    while i < |modules|
      invariant 0 <= i <= |modules|
      invariant Listings(modules[..i]) == Ok(files)
    {
      assert modules[..i + 1][..i] == modules[..i];
      assert modules[..i + 1][i] == modules[i];
      var pushed := PushModule(files, modules[i]);
      if pushed.Err? {
        ListingsPrefix(modules, i);
        return [];
      }
      files := pushed.value;
      i := i + 1;
    }
    assert modules[..i] == modules;
    list := files;
  }

  /** The effect of publishing `parsed` under `filename` on storage `items`,
      giving storage `items'`: the overlay becomes `next`, the old one with
      the entry set, which `readLS` and the quiz player then serve; then a
      'quiz:update' (the entry existed) or 'quiz:new' notification is added
      in front of the feed, and a failure of that last step is reported but
      the overlay write stands. */
  predicate Published(items: map<string, Stored>, filename: string, parsed: Json,
                      noteId: string, noteDate: string,
                      next: Json, r: Result<Json>, items': map<string, Stored>)
  {
    var prev := ReadLS(items);
    var written := items[Quiz.OverridesKey := Encoded(next)];
    var note := SavedNote(Truthy(Chain(Some(prev), filename)), parsed, filename);
    var all := GetNotifications(items);
    && next == Obj(Overlaid(prev, filename, parsed))
    && ReadLS(items') == next
    && Quiz.OverrideFor(items', filename) == Some(parsed)
    && (all.Arr? ==>
          && r == Ok(Obj(NewItem(Some(note), noteId, noteDate)))
          && items' == written[NotificationsKey := Encoded(Arr([r.value] + all.items))])
    && (!all.Arr? ==> r == Err(TypeError) && items' == written)
  }

  /** The storing half of `saveQuiz`, for a quiz that passed the checks. */
  method Publish(ls: LocalStorage, filename: string, parsed: Json, noteId: string, noteDate: string)
    returns (next: Json, r: Result<Json>)
    requires Truthy(Some(parsed))
    modifies ls
    ensures Published(old(ls.items), filename, parsed, noteId, noteDate, next, r, ls.items)
  {
    var prev := ReadLS(ls.items);
    var existing := Truthy(Chain(Some(prev), filename));
    next := Obj(Overlaid(prev, filename, parsed));
    ls.WriteJSON(Quiz.OverridesKey, next);
    r := AddNotification(ls, Some(SavedNote(existing, parsed, filename)), noteId, noteDate);
    OverlayServed(ls.items, next.fields, filename, parsed);
  }

  class QuizAdmin {
    var list: seq<Json>
    /** The page's copy of the overlay. */
    var overlay: Json
    var file: string
    var content: Content
    var filter: string

    constructor ()
      ensures list == [] && overlay == Obj(map[]) && file == "" && content == Text("") && filter == ""
    {
      list, overlay, file, content, filter := [], Obj(map[]), "", Text(""), "";
    }

    /** The mount effect: the list from the modules file (empty on any
        throw), then the overlay from storage. */
    method Load(items: map<string, Stored>, res: Fetch)
      modifies this
      ensures list == ListOf(res) && overlay == ReadLS(items)
      ensures file == old(file) && content == old(content) && filter == old(filter)
    {
      list := BuildList(res);
      overlay := ReadLS(items);
    }

    /** `saveQuiz()`. Text that does not parse, or a value without a truthy
        title and an array of questions, is rejected with nothing changed.
        Otherwise the quiz is published under the normalised name and the
        editor shows the saved quiz. */
    method SaveQuiz(ls: LocalStorage, parsedText: Result<Json>, noteId: string, noteDate: string)
      returns (r: Result<Json>)
      modifies this, ls
      ensures list == old(list) && filter == old(filter)
      ensures var quiz := Validated(old(content), parsedText);
        && (quiz.Err? ==> r == Err(quiz.error) && ls.items == old(ls.items) && unchanged(this))
        && (quiz.Ok? ==>
              && file == NormalizeFilename(old(file)) && content == Pretty(quiz.value)
              && Published(old(ls.items), file, quiz.value, noteId, noteDate, overlay, r, ls.items))
    {
      var quiz := Validated(content, parsedText);
      if quiz.Ok? {
        r := Commit(ls, quiz.value, noteId, noteDate);
      } else {
        r := Err(quiz.error);
      }
    }

    /** Publishing a checked quiz under the normalised name and showing it
        in the editor. */
    method Commit(ls: LocalStorage, quiz: Json, noteId: string, noteDate: string) returns (r: Result<Json>)
      requires Truthy(Some(quiz))
      modifies this, ls
      ensures list == old(list) && filter == old(filter)
      ensures file == NormalizeFilename(old(file)) && content == Pretty(quiz)
      ensures Published(old(ls.items), file, quiz, noteId, noteDate, overlay, r, ls.items)
    {
      var filename := NormalizeFilename(file);
      overlay, r := Publish(ls, filename, quiz, noteId, noteDate);
      file, content := filename, Pretty(quiz);
    }

    /** `removeCustom(f)`: the entry for `f` is deleted from the overlay, and
        the editor is cleared exactly when it was editing `f`. */
    method RemoveCustom(ls: LocalStorage, f: string)
      modifies this, ls
      ensures var next := Obj(Removed(ReadLS(old(ls.items)), f));
        && ls.items == old(ls.items)[Quiz.OverridesKey := Encoded(next)]
        && overlay == next
        && ReadLS(ls.items) == next
        && Quiz.OverrideFor(ls.items, f).None?
      ensures old(file) == f ==> file == "" && content == Text("")
      ensures old(file) != f ==> file == old(file) && content == old(content)
      ensures list == old(list) && filter == old(filter)
    {
      var next := Obj(Removed(ReadLS(ls.items), f));
      ls.WriteJSON(Quiz.OverridesKey, next);
      overlay := next;
      if file == f {
        file, content := "", Text("");
      }
    }
  }

  // ---------------------------------------------------------------------
  // The list filter

  /** The filter callback: an empty filter keeps everything; otherwise the
      module must include the filter or the lower-cased title must include
      the lower-cased filter. Reading a missing module or title throws. */
  function ListingTest(filter: string, q: Json): Result<bool> {
    if filter == "" then Ok(true)
    else
      var mod :- Prop(q, "module");
      var inModule :- Includes(mod, filter);
      if inModule then Ok(true)
      else
        var title :- Prop(q, "title");
        var lowered :- LowerOf(title);
        Ok(Contains(lowered, Lower(filter)))
  }

  function ListingTestOf(filter: string): Json -> Result<bool> {
    q => ListingTest(filter, q)
  }

  /** `list.filter(...)`. */
  function FilterListings(list: seq<Json>, filter: string): Result<seq<Json>> {
    FilterR(ListingTestOf(filter), list)
  }

  /** An entry whose module and title are strings. */
  predicate Textual(q: Json) {
    q.Obj? && "module" in q.fields && q.fields["module"].Str? && "title" in q.fields && q.fields["title"].Str?
  }

  /** Whether the filter keeps an entry: the module contains the filter as
      written, or the title contains it ignoring case. */
  predicate Shown(filter: string, q: Json) {
    || filter == ""
    || Contains(ToString(Chain(Some(q), "module")), filter)
    || Contains(Lower(ToString(Chain(Some(q), "title"))), Lower(filter))
  }

  function ShownOf(filter: string): Json -> bool {
    q => Shown(filter, q)
  }

  /** The filter's test agrees with `Shown` under an empty filter or on a
      textual entry, and never throws on a textual one. */
  lemma ListingTestAgrees(filter: string, q: Json)
    requires filter == "" || Textual(q)
    ensures ShownOf(filter)(q) <==> ListingTestOf(filter)(q) == Ok(true)
    ensures Textual(q) ==> ListingTestOf(filter)(q).Ok?
  {
  }

  /** An empty filter keeps the list; on textual entries the filter keeps,
      in order, exactly the entries it shows. */
  lemma FilterListingsSpec(list: seq<Json>, filter: string)
    ensures filter == "" ==> FilterListings(list, filter) == Ok(list)
    ensures (forall i | 0 <= i < |list| :: Textual(list[i])) ==>
      && FilterListings(list, filter) == Ok(Filter(ShownOf(filter), list))
      && IsSubsequence(FilterListings(list, filter).value, list)
  {
    if filter == "" {
      forall i | 0 <= i < |list|
        ensures ShownOf(filter)(list[i]) <==> ListingTestOf(filter)(list[i]) == Ok(true)
      {
        ListingTestAgrees(filter, list[i]);
      }
      FilterRSpec(ListingTestOf(filter), list, ShownOf(filter));
      FilterAll(ShownOf(filter), list);
    }
    if forall i | 0 <= i < |list| :: Textual(list[i]) {
      forall i | 0 <= i < |list|
        ensures ShownOf(filter)(list[i]) <==> ListingTestOf(filter)(list[i]) == Ok(true)
        ensures ListingTestOf(filter)(list[i]).Ok?
      {
        ListingTestAgrees(filter, list[i]);
      }
      FilterRSpec(ListingTestOf(filter), list, ShownOf(filter));
      FilterSpec(ShownOf(filter), list);
    }
  }
}
