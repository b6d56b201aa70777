/**
 * The offline assistant of src/components/Chatbot.jsx.
 *
 * Seeding builds a search index from the first of three FAQ sources that
 * yields anything: the IndexedDB `faqs` store, the network copy of
 * /data/faq.json (saved back into the store), or two built-in entries.
 * A question then runs a priority chain: the whole normalised question,
 * each word token in turn, an online encyclopedia lookup, and a fixed
 * apology. The fuzzy search library is an oracle: a function from the
 * index and a query to hits carrying a score, best first.
 *
 * Voice input keeps a "listening desired" flag that decides whether
 * recognition restarts after it ends or fails.
 */
module Chatbot {
  import opened Js
  import opened Seqs
  import opened Idb

  const FullQueryLimit: real := 0.7
  const TokenLimit: real := 0.65
  const MinTokenLength: nat := 3
  const Separator: string := " | "

  const PromptMsg: string := "कृपया अपना सवाल लिखिए।"
  const WaitMsg: string := "कृपया थोड़ी देर प्रतीक्षा करें..."
  const FallbackMsg: string := "माफ़ कीजिए, अभी सटीक उत्तर नहीं मिला। बेहतर कीवर्ड आज़माएँ या ऑनलाइन होने पर फिर कोशिश करें।"

  /** The two entries seeded when neither the store nor the network has any. */
  const BuiltInFaqs: Json := Arr([
    Obj(map[
      "id" := Str("fallback_earthquake"),
      "questions" := Arr([Str("earthquake safety"), Str("भूकंप के समय क्या करें")]),
      "answer" := Str("मजबूत मेज़/डेस्क के नीचे छुपें, खिड़कियों से दूर रहें, लिफ्ट का उपयोग न करें।")]),
    Obj(map[
      "id" := Str("fallback_fire"),
      "questions" := Arr([Str("fire safety"), Str("आग लगने पर क्या करें")]),
      "answer" := Str("धुएँ से बचने के लिए झुककर चलें, नाक-मुँह ढकें, सीढ़ियों से बाहर निकलें।")])
  ])

  /** One indexed FAQ: its id, the searchable text, and the answer. */
  datatype Entry = Entry(id: Option<Json>, text: string, answer: string)

  /** The index configuration: the tuned one of a normal build (threshold
      0.5, distance 300, location ignored, minimum match length 2) or the
      bare one (threshold 0.5) of the empty fallback index. The search
      oracle receives it untouched. */
  datatype FuseOptions = Tuned | Plain

  datatype SearchIndex = SearchIndex(entries: seq<Entry>, options: FuseOptions)

  datatype Hit = Hit(item: Entry, score: real)

  /** `fuse.search(query)`. */
  type Search = (SearchIndex, string) -> seq<Hit>

  const EmptyIndex: SearchIndex := SearchIndex([], Plain)

  /** Which step of the chain produced the reply. */
  datatype Stage = Prompted | Waiting | FullQuery | TokenQuery(token: string) | Online | Fallback

  // ---------------------------------------------------------------------
  // Normalisation and index entries

  /** `normalize(s)` for a string: lower-case, then trim the ends. */
  function Normalize(s: string): string {
    Trim(Lower(s))
  }

  /** Normalising twice is normalising once, and normalised text has no
      white space at either end. */
  lemma NormalizeSpec(s: string)
    ensures Normalize(Normalize(s)) == Normalize(s)
    ensures var n := Normalize(s); n == [] || (!IsSpace(n[0]) && !IsSpace(n[|n| - 1]))
    ensures exists lo, hi | 0 <= lo <= hi <= |s| ::
      && Normalize(s) == Lower(s)[lo..hi]
      && (forall i | 0 <= i < lo :: IsSpace(Lower(s)[i]))
      && (forall i | hi <= i < |s| :: IsSpace(Lower(s)[i]))
  {
    var l := Lower(s);
    var lo := |l| - |TrimStart(l)|;
    assert Normalize(s) == l[lo..lo + |Normalize(s)|];
    LowerTrimCommute(Lower(s));
    LowerIdempotent(s);
    TrimIdempotent(Lower(s));
    TrimEnds(Lower(s));
  }

  /** The record test of the index filter: `questions` is an array and
      `answer` a string. Reading a field of null throws. */
  function Eligible(f: Json): Result<bool> {
    var q :- Prop(f, "questions");
    var a :- Prop(f, "answer");
    Ok(q.Some? && q.value.Arr? && a.Some? && a.value.Str?)
  }

  predicate IsEligible(f: Json) {
    Eligible(f) == Ok(true)
  }

  /** The index entry of an eligible record: the questions and the answer
      joined by " | ", normalised. */
  function EntryOf(f: Json): (e: Entry)
    requires IsEligible(f)
    ensures e.answer == Prop(f, "answer").value.value.s
  {
    var questions := Prop(f, "questions").value.value.items;
    var answer := Prop(f, "answer").value.value.s;
    Entry(Prop(f, "id").value, Normalize(Join(questions + [Str(answer)], Separator)), answer)
  }

  function EntriesOf(fs: seq<Json>): (es: seq<Entry>)
    requires forall i | 0 <= i < |fs| :: IsEligible(fs[i])
    ensures |es| == |fs| && forall i | 0 <= i < |fs| :: es[i] == EntryOf(fs[i])
  {
    seq(|fs|, i requires 0 <= i < |fs| => EntryOf(fs[i]))
  }

  /** `faqs.filter(...).map(...)`: only an array has these methods, and a
      null record makes the filter throw. */
  function BuildEntries(faqs: Json): Result<seq<Entry>> {
    if !faqs.Arr? then Err(TypeError)
    else
      var kept :- FilterR(Eligible, faqs.items);
      FilterRSpec(Eligible, faqs.items, IsEligible);
      FilterSpec(IsEligible, faqs.items);
      Ok(EntriesOf(kept))
  }

  /** The build succeeds exactly on an array without null records; it then
      has one entry per eligible record, in order. */
  lemma BuildEntriesSpec(faqs: Json)
    ensures BuildEntries(faqs).Ok? <==> faqs.Arr? && forall i | 0 <= i < |faqs.items| :: faqs.items[i] != Null
    ensures BuildEntries(faqs).Ok? ==>
      var kept := Filter(IsEligible, faqs.items);
      && (forall i | 0 <= i < |kept| :: IsEligible(kept[i]))
      && BuildEntries(faqs).value == EntriesOf(kept)
      && IsSubsequence(kept, faqs.items)
  {
    if faqs.Arr? {
      FilterRSpec(Eligible, faqs.items, IsEligible);
      FilterSpec(IsEligible, faqs.items);
      forall i | 0 <= i < |faqs.items|
        ensures Eligible(faqs.items[i]).Ok? <==> faqs.items[i] != Null
      {
        var f := faqs.items[i];
        if f != Null {
          assert Prop(f, "questions").Ok? && Prop(f, "answer").Ok?;
        }
      }
    }
  }

  /** The index a corpus gives: its entries with the tuned options, or the
      empty fallback index when building throws. */
  function IndexOf(faqs: Json): SearchIndex {
    match BuildEntries(faqs)
    case Ok(entries) => SearchIndex(entries, Tuned)
    case Err(_) => EmptyIndex
  }

  /** `!faqs || faqs.length === 0`. */
  predicate NoFaqs(faqs: Json) {
    !Truthy(Some(faqs)) || (Prop(faqs, "length").Ok? && StrictEq(Prop(faqs, "length").value, Some(Num(0))))
  }

  /** The FAQ list the tiers settle on, given what the store returned and
      how the network answered. */
  function Corpus(stored: seq<Json>, faqFetch: Fetch): Json {
    var afterNetwork :=
      if stored == [] && faqFetch.Ok() && faqFetch.json.Some? then faqFetch.json.value else Arr(stored);
    if NoFaqs(afterNetwork) then BuiltInFaqs else afterNetwork
  }

  /** The tiers run in order: stored FAQs win when there are any; the
      network copy is used only when the store is empty and the response is
      ok and parses to a non-empty list; the built-in entries only when
      both yield nothing. */
  lemma CorpusTiers(stored: seq<Json>, faqFetch: Fetch)
    ensures stored != [] ==> Corpus(stored, faqFetch) == Arr(stored)
    ensures stored == [] && faqFetch.Ok() && faqFetch.json.Some? && !NoFaqs(faqFetch.json.value) ==>
      Corpus(stored, faqFetch) == faqFetch.json.value
    ensures stored == [] && !(faqFetch.Ok() && faqFetch.json.Some? && !NoFaqs(faqFetch.json.value)) ==>
      Corpus(stored, faqFetch) == BuiltInFaqs
  {
  }

  /** The built-in entries index to two entries. */
  lemma BuiltInIndex()
    ensures |IndexOf(BuiltInFaqs).entries| == 2 && IndexOf(BuiltInFaqs).options == Tuned
  {
    var xs := BuiltInFaqs.items;
    assert IsEligible(xs[0]) && IsEligible(xs[1]);
    assert Filter(IsEligible, xs[2..]) == [];
    assert Filter(IsEligible, xs[1..]) == [xs[1]] + Filter(IsEligible, xs[2..]);
    assert Filter(IsEligible, xs) == [xs[0]] + Filter(IsEligible, xs[1..]);
    BuildEntriesSpec(BuiltInFaqs);
  }

  // ---------------------------------------------------------------------
  // Word tokens

  /** How many leading characters of `s` are word characters. */
  function RunLength(s: string, word: char -> bool): (n: nat)
    ensures n <= |s|
    ensures forall i | 0 <= i < n :: word(s[i])
    ensures n < |s| ==> !word(s[n])
    ensures s != [] && word(s[0]) ==> n >= 1
  {
    if s == [] || !word(s[0]) then 0
    else
      var m := RunLength(s[1..], word);
      assert forall i | 1 <= i <= m :: s[i] == s[1..][i - 1];
      1 + m
  }

  /** The maximal runs of word characters, left to right: what splitting on
      runs of non-word characters leaves once the empty pieces are gone. */
  function WordRuns(s: string, word: char -> bool): seq<string>
    decreases |s|
  {
    if s == [] then []
    else if !word(s[0]) then WordRuns(s[1..], word)
    else
      var n := RunLength(s, word);
      [s[..n]] + WordRuns(s[n..], word)
  }

  /** `t` occurs at `i` in `s`, is made of word characters, and cannot be
      extended on either side. */
  predicate MaximalRunAt(s: string, t: string, i: int, word: char -> bool) {
    && t != []
    && OccursAt(s, t, i)
    && (forall k | 0 <= k < |t| :: word(t[k]))
    && (i == 0 || !word(s[i - 1]))
    && (i + |t| == |s| || !word(s[i + |t|]))
  }

  /** A maximal run of a suffix is one of the whole text, unless it starts
      the suffix right after a word character. */
  lemma RunShift(s: string, d: nat, t: string, i: int, word: char -> bool)
    requires 0 < d <= |s| && MaximalRunAt(s[d..], t, i, word)
    requires i > 0 || !word(s[d - 1])
    ensures MaximalRunAt(s, t, d + i, word)
  {
    var s' := s[d..];
    assert s[d + i..d + i + |t|] == s'[i..i + |t|];
    if i > 0 {
      assert s[d + i - 1] == s'[i - 1];
    }
  }

  /** Every run is a maximal run of word characters of the text. */
  lemma {:induction false} WordRunsMaximal(s: string, word: char -> bool)
    ensures forall t | t in WordRuns(s, word) :: exists i :: MaximalRunAt(s, t, i, word)
    decreases |s|
  {
    if s == [] {
    } else if !word(s[0]) {
      var s' := s[1..];
      WordRunsMaximal(s', word);
      assert WordRuns(s, word) == WordRuns(s', word);
      forall t | t in WordRuns(s, word)
        ensures exists i :: MaximalRunAt(s, t, i, word)
      {
        var i :| MaximalRunAt(s', t, i, word);
        RunShift(s, 1, t, i, word);
      }
    } else {
      var n := RunLength(s, word);
      var s' := s[n..];
      WordRunsMaximal(s', word);
      assert MaximalRunAt(s, s[..n], 0, word);
      forall t | t in WordRuns(s, word)
        ensures exists i :: MaximalRunAt(s, t, i, word)
      {
        if t != s[..n] {
          assert t in WordRuns(s', word);
          var i :| MaximalRunAt(s', t, i, word);
          assert s'[i] == t[0];
          RunShift(s, n, t, i, word);
        }
      }
    }
  }

  function Flatten(ts: seq<string>): string {
    if ts == [] then [] else ts[0] + Flatten(ts[1..])
  }

  lemma {:induction false} FilterAllPass(word: char -> bool, s: string)
    requires forall i | 0 <= i < |s| :: word(s[i])
    ensures Filter(word, s) == s
  {
    if s != [] {
      FilterAllPass(word, s[1..]);
      assert s == [s[0]] + s[1..];
    }
  }

  /** The runs, put together, are exactly the word characters of the text:
      no word character is lost or invented. */
  lemma {:induction false} WordRunsCover(s: string, word: char -> bool)
    ensures Flatten(WordRuns(s, word)) == Filter(word, s)
    decreases |s|
  {
    if s != [] {
      if !word(s[0]) {
        WordRunsCover(s[1..], word);
      } else {
        var n := RunLength(s, word);
        WordRunsCover(s[n..], word);
        assert s == s[..n] + s[n..];
        FilterAppend(word, s[..n], s[n..]);
        FilterAllPass(word, s[..n]);
        var rs := WordRuns(s, word);
        assert rs[0] == s[..n] && rs[1..] == WordRuns(s[n..], word);
      }
    }
  }

  predicate LongEnough(t: string) {
    |t| >= MinTokenLength
  }

  /** `query.split(re).filter(t => t.length >= 3)` for a separator class. */
  function Tokens(query: string, word: char -> bool): seq<string> {
    Filter(LongEnough, WordRuns(query, word))
  }

  /** Tokens are, in order, exactly the maximal word runs of length at
      least three. */
  lemma TokensSpec(query: string, word: char -> bool)
    ensures IsSubsequence(Tokens(query, word), WordRuns(query, word))
    ensures forall t | t in Tokens(query, word) :: |t| >= MinTokenLength && exists i :: MaximalRunAt(query, t, i, word)
    ensures forall t | t in WordRuns(query, word) && |t| >= MinTokenLength :: t in Tokens(query, word)
  {
    FilterSpec(LongEnough, WordRuns(query, word));
    WordRunsMaximal(query, word);
  }

  predicate InRange(c: char, lo: int, hi: int) {
    lo <= c as int <= hi
  }

  /** `\p{L}` and `\p{N}` over ASCII, Latin-1 and Devanagari. */
  predicate IsLetterOrDigit(c: char) {
    || InRange(c, 0x30, 0x39) || InRange(c, 0x41, 0x5A) || InRange(c, 0x61, 0x7A)
    || c as int == 0xAA || c as int == 0xB2 || c as int == 0xB3 || c as int == 0xB5
    || c as int == 0xB9 || c as int == 0xBA || InRange(c, 0xBC, 0xBE)
    || InRange(c, 0xC0, 0xD6) || InRange(c, 0xD8, 0xF6) || InRange(c, 0xF8, 0xFF)
    || InRange(c, 0x904, 0x939) || c as int == 0x93D || c as int == 0x950
    || InRange(c, 0x958, 0x961) || InRange(c, 0x966, 0x96F) || InRange(c, 0x971, 0x97F)
  }

  /** `\p{M}` over the same blocks: combining diacritics, and the Devanagari
      vowel signs, virama, nukta and nasal marks. */
  predicate IsMark(c: char) {
    || InRange(c, 0x300, 0x36F)
    || InRange(c, 0x900, 0x903) || InRange(c, 0x93A, 0x93C) || InRange(c, 0x93E, 0x94F)
    || InRange(c, 0x951, 0x957) || InRange(c, 0x962, 0x963)
  }

  /** The word class as written: letters and digits only. */
  predicate WordAsWritten(c: char) {
    IsLetterOrDigit(c)
  }

  /** The word class that keeps a Devanagari word whole: letters, marks and
      digits. */
  predicate WordChar(c: char) {
    IsLetterOrDigit(c) || IsMark(c)
  }

  const Bhukamp: string := "भूकंप"

  /** As written, the separator class splits "भूकंप" (earthquake) at its two
      combining marks into three one-letter pieces, so the word yields no
      token at all. */
  lemma TokensAsWrittenDropHindiWord()
    ensures |Bhukamp| == 5
    ensures Tokens(Bhukamp, WordAsWritten) == []
  {
    var s := Bhukamp;
    BhukampLetters();
    AlternatingRuns(s, WordAsWritten);
    FilterNone(LongEnough, [s[..1], s[2..3], s[4..5]]);
  }

  /** "भूकंप" is the letters भ, क and प, with the vowel sign ू after the
      first and the nasal sign ं after the second. */
  lemma BhukampLetters()
    ensures |Bhukamp| == 5
    ensures IsLetterOrDigit(Bhukamp[0]) && IsLetterOrDigit(Bhukamp[2]) && IsLetterOrDigit(Bhukamp[4])
    ensures !IsLetterOrDigit(Bhukamp[1]) && !IsLetterOrDigit(Bhukamp[3])
    ensures IsMark(Bhukamp[1]) && IsMark(Bhukamp[3])
  {
  }

  /** Word characters at 0, 2 and 4 with separators between them make three
      one-character runs. */
  lemma AlternatingRuns(s: string, word: char -> bool)
    requires |s| == 5 && word(s[0]) && !word(s[1]) && word(s[2]) && !word(s[3]) && word(s[4])
    ensures WordRuns(s, word) == [s[..1], s[2..3], s[4..5]]
  {
    OneCharRun(s[4..], word);
    assert s[4..][1..] == [] && s[4..][..1] == s[4..5];
    SkipSeparator(s[3..], word);
    assert s[3..][1..] == s[4..];
    OneCharRun(s[2..], word);
    assert s[2..][1..] == s[3..] && s[2..][..1] == s[2..3];
    SkipSeparator(s[1..], word);
    assert s[1..][1..] == s[2..];
    OneCharRun(s, word);
  }

  /** A leading separator is dropped. */
  lemma SkipSeparator(s: string, word: char -> bool)
    requires s != [] && !word(s[0])
    ensures WordRuns(s, word) == WordRuns(s[1..], word)
  {
  }

  /** A word character followed by a separator, or by nothing, is a run of
      its own. */
  lemma OneCharRun(s: string, word: char -> bool)
    requires s != [] && word(s[0]) && (|s| == 1 || !word(s[1]))
    ensures WordRuns(s, word) == [s[..1]] + WordRuns(s[1..], word)
  {
    assert RunLength(s, word) == 1;
  }

  /** A word of letters and marks is one token under the corrected class:
      the whole of "भूकंप" is searched. */
  lemma TokensKeepHindiWord()
    ensures Tokens(Bhukamp, WordChar) == [Bhukamp]
  {
    var s := Bhukamp;
    assert WordChar(s[0]) && WordChar(s[1]) && WordChar(s[2]) && WordChar(s[3]) && WordChar(s[4]);
    WholeWordIsOneToken(s);
  }

  /** Under the corrected class, a text made only of word characters is a
      single run, and it is a token whenever it is long enough. */
  lemma WholeWordIsOneToken(w: string)
    requires w != [] && forall i | 0 <= i < |w| :: WordChar(w[i])
    ensures WordRuns(w, WordChar) == [w]
    ensures |w| >= MinTokenLength ==> Tokens(w, WordChar) == [w]
  {
    assert RunLength(w, WordChar) == |w|;
    assert w[|w|..] == [];
    assert w[..|w|] == w;
    assert WordRuns(w, WordChar) == [w] + WordRuns([], WordChar);
    assert Filter(LongEnough, [w]) == (if LongEnough(w) then [w] else []) + Filter(LongEnough, []);
  }

  // ---------------------------------------------------------------------
  // The answer chain

  /** The oracle's best hit is accepted at or under the limit. */
  predicate Accepts(hits: seq<Hit>, limit: real) {
    |hits| > 0 && hits[0].score <= limit
  }

  /** The first token whose best hit is accepted. */
  function FirstAcceptedToken(index: SearchIndex, search: Search, tokens: seq<string>): (r: Option<nat>)
    ensures r.Some? ==> r.value < |tokens| && Accepts(search(index, tokens[r.value]), TokenLimit)
    ensures r.Some? ==> forall j | 0 <= j < r.value :: !Accepts(search(index, tokens[j]), TokenLimit)
    ensures r.None? ==> forall j | 0 <= j < |tokens| :: !Accepts(search(index, tokens[j]), TokenLimit)
  {
    if tokens == [] then None
    else if Accepts(search(index, tokens[0]), TokenLimit) then Some(0)
    else
      var rest := FirstAcceptedToken(index, search, tokens[1..]);
      assert forall j | 1 <= j < |tokens| :: tokens[j] == tokens[1..][j - 1];
      if rest.Some? then Some(rest.value + 1) else None
  }

  /** `sdata?.query?.search?.[0]?.title`. */
  function TitleOf(sdata: Json): Option<Json> {
    Chain(Chain(Chain(Chain(Some(sdata), "query"), "search"), "0"), "title")
  }

  /** The search request succeeded with a body naming a first page title. */
  predicate TitleFound(sres: Fetch) {
    sres.Ok() && sres.json.Some? && Truthy(TitleOf(sres.json.value))
  }

  /** The title the summary is requested for, as the URL spells it. */
  function FirstTitle(sres: Fetch): string
    requires TitleFound(sres)
  {
    ToString(TitleOf(sres.json.value))
  }

  /** `sum && sum.extract` holds of an ok summary response that parses. */
  predicate ExtractFound(sum: Fetch) {
    && sum.Ok() && sum.json.Some? && Truthy(sum.json)
    && Prop(sum.json.value, "extract").Ok? && Truthy(Prop(sum.json.value, "extract").value)
  }

  /** The online stage: the page summary's extract, if every step yields
      one, and the number of requests made. A failed request, a non-ok
      status, a body that does not parse, a missing title or an empty
      extract all give nothing. */
  function OnlineAnswer(online: bool, query: string, searchFetch: string -> Fetch,
                        summaryFetch: string -> Fetch): (r: (Option<Json>, nat))
    ensures !online ==> r == (None, 0)
    ensures online ==> r.1 == if TitleFound(searchFetch(query)) then 2 else 1
    ensures r.0.Some? <==>
      online && TitleFound(searchFetch(query)) && ExtractFound(summaryFetch(FirstTitle(searchFetch(query))))
    ensures r.0.Some? ==>
      && Truthy(r.0)
      && r.0 == Prop(summaryFetch(FirstTitle(searchFetch(query))).json.value, "extract").value
  {
    if !online then (None, 0)
    else
      var sres := searchFetch(query);
      if !sres.Ok() || sres.json.None? then (None, 1)
      else
        var title := TitleOf(sres.json.value);
        if !Truthy(title) then (None, 1)
        else
          var sum := summaryFetch(ToString(title));
          if !sum.Ok() || sum.json.None? then (None, 2)
          else
            var extract := Prop(sum.json.value, "extract");
            if Truthy(sum.json) && extract.Ok? && Truthy(extract.value) then (extract.value, 2)
            else (None, 2)
  }

  /** The token loop of `ask`: tokens are searched in order until one is
      accepted, and no later token is searched. */
  method SearchTokens(index: SearchIndex, search: Search, tokens: seq<string>)
    returns (k: Option<nat>, searched: seq<string>)
    ensures k == FirstAcceptedToken(index, search, tokens)
    ensures k.Some? ==> searched == tokens[..k.value + 1]
    ensures k.None? ==> searched == tokens
  {
    searched := [];
    var i := 0;
    while i < |tokens|
      invariant 0 <= i <= |tokens|
      invariant searched == tokens[..i]
      invariant forall j | 0 <= j < i :: !Accepts(search(index, tokens[j]), TokenLimit)
    {
      var results := search(index, tokens[i]);
      searched := searched + [tokens[i]];
      assert tokens[..i + 1] == tokens[..i] + [tokens[i]];
      if |results| > 0 && results[0].score <= TokenLimit {
        return Some(i), searched;
      }
      i := i + 1;
    }
    assert tokens[..i] == tokens;
    k := None;
  }

  /** The online stage of `ask`, run step by step; any failure falls
      through to nothing. */
  method LookUpOnline(online: bool, query: string, searchFetch: string -> Fetch, summaryFetch: string -> Fetch)
    returns (extract: Option<Json>, requests: nat)
    ensures (extract, requests) == OnlineAnswer(online, query, searchFetch, summaryFetch)
  {
    extract, requests := None, 0;
    if !online {
      return;
    }
    var sres := searchFetch(query);
    requests := 1;
    if !sres.Ok() || sres.json.None? {
      return;
    }
    var title := TitleOf(sres.json.value);
    if !Truthy(title) {
      return;
    }
    var sum := summaryFetch(ToString(title));
    requests := 2;
    if !sum.Ok() || sum.json.None? {
      return;
    }
    var found := Prop(sum.json.value, "extract");
    if Truthy(sum.json) && found.Ok? && Truthy(found.value) {
      extract := found.value;
    }
  }

  /** The network tier: an ok response that parses is taken and written
      with `saveFaqs`, whose failure is ignored. */
  method SaveFetched(db: Database, faqFetch: Fetch) returns (saved: bool)
    requires db.Valid() && db.version == DbVersion && FaqsStore in db.stores
    modifies db
    ensures db.Valid()
    ensures saved <==> faqFetch.Ok() && faqFetch.json.Some?
    ensures !saved ==> db.stores == old(db.stores) && db.version == old(db.version) && db.nextQuizKey == old(db.nextQuizKey)
    ensures saved ==> KeysAfterOpen(old(db.stores), old(db.version), old(db.nextQuizKey), db.version, db.nextQuizKey)
    ensures saved ==>
      var items := Iterate(faqFetch.json.value);
      && (items.Err? ==> db.stores == old(db.stores))
      && (items.Ok? ==> db.stores == old(db.stores)[FaqsStore := PutEach(old(db.stores)[FaqsStore], items.value).0])
  {
    saved := faqFetch.Ok() && faqFetch.json.Some?;
    if saved {
      UpgradeKeepsStores(db.stores, db.version);
      var _ := db.SaveFaqs(faqFetch.json.value);
    }
  }

  /** The chain of `ask` for a non-empty question `q` over a ready index:
      the whole question (accepted at score 0.7 or less), then token by token
      (0.65 or less) until one is accepted; only then the online stage, and
      the apology closes the chain. `word` is the class of characters a
      token is made of (`WordAsWritten` for the pattern as written,
      `WordChar` for the corrected one). `searches` lists the queries given
      to the fuzzy search and `requests` counts the online requests. */
  predicate Answered(idx: SearchIndex, search: Search, q: string, online: bool,
                     searchFetch: string -> Fetch, summaryFetch: string -> Fetch, word: char -> bool,
                     stage: Stage, reply: Json, searches: seq<string>, requests: nat)
  {
    var full := search(idx, q);
    var tokens := Tokens(q, word);
    var k := FirstAcceptedToken(idx, search, tokens);
    var web := OnlineAnswer(online, q, searchFetch, summaryFetch);
    && (Accepts(full, FullQueryLimit) ==>
          stage == FullQuery && reply == Str(full[0].item.answer) && searches == [q] && requests == 0)
    && (!Accepts(full, FullQueryLimit) && k.Some? ==>
          && stage == TokenQuery(tokens[k.value])
          && reply == Str(search(idx, tokens[k.value])[0].item.answer)
          && searches == [q] + tokens[..k.value + 1] && requests == 0)
    && (!Accepts(full, FullQueryLimit) && k.None? ==>
          && searches == [q] + tokens && requests == web.1
          && (web.0.Some? ==> stage == Online && reply == web.0.value)
          && (web.0.None? ==> stage == Fallback && reply == Str(FallbackMsg)))
  }

  /** The searching part of `ask`, once the question is normalised and the
      index is ready. */
  method AnswerQuery(idx: SearchIndex, search: Search, query: string, online: bool,
                     searchFetch: string -> Fetch, summaryFetch: string -> Fetch, word: char -> bool)
    returns (stage: Stage, reply: Json, searches: seq<string>, requests: nat)
    ensures Answered(idx, search, query, online, searchFetch, summaryFetch, word, stage, reply, searches, requests)
  {
    requests := 0;
    var results := search(idx, query);
    searches := [query];
    if |results| > 0 && results[0].score <= FullQueryLimit {
      return FullQuery, Str(results[0].item.answer), searches, requests;
    }
    var tokens := Tokens(query, word);
    var k, searched := SearchTokens(idx, search, tokens);
    searches := searches + searched;
    if k.Some? {
      return TokenQuery(tokens[k.value]), Str(search(idx, tokens[k.value])[0].item.answer), searches, requests;
    }
    var extract;
    extract, requests := LookUpOnline(online, query, searchFetch, summaryFetch);
    if extract.Some? {
      return Online, extract.value, searches, requests;
    }
    stage, reply := Fallback, Str(FallbackMsg);
  }

  /** With an index that finds nothing (the empty index of a failed
      seeding) and no network, every non-empty question gets the apology,
      after the whole question and each token were searched. */
  lemma EmptyIndexOfflineFallsBack(search: Search, q: string, searchFetch: string -> Fetch,
                                   summaryFetch: string -> Fetch, word: char -> bool,
                                   stage: Stage, reply: Json, searches: seq<string>, requests: nat)
    requires forall t :: search(EmptyIndex, t) == []
    requires Answered(EmptyIndex, search, q, false, searchFetch, summaryFetch, word, stage, reply, searches, requests)
    ensures stage == Fallback && reply == Str(FallbackMsg)
    ensures searches == [q] + Tokens(q, word) && requests == 0
  {
    assert !Accepts(search(EmptyIndex, q), FullQueryLimit);
  }

  /** As written, "भूकंप" yields no token: when the whole question is not
      accepted, the chain goes straight to the online stage or the apology. */
  lemma HindiQuerySkipsTokensAsWritten(idx: SearchIndex, search: Search, online: bool,
                                       searchFetch: string -> Fetch, summaryFetch: string -> Fetch,
                                       stage: Stage, reply: Json, searches: seq<string>, requests: nat)
    requires !Accepts(search(idx, Bhukamp), FullQueryLimit)
    requires Answered(idx, search, Bhukamp, online, searchFetch, summaryFetch, WordAsWritten,
                      stage, reply, searches, requests)
    ensures searches == [Bhukamp]
    ensures stage == Online || stage == Fallback
  {
    TokensAsWrittenDropHindiWord();
  }

  /** With the corrected class, the same question is searched again as its
      own token before the chain goes online. */
  lemma HindiQuerySearchedAsToken(idx: SearchIndex, search: Search, online: bool,
                                  searchFetch: string -> Fetch, summaryFetch: string -> Fetch,
                                  stage: Stage, reply: Json, searches: seq<string>, requests: nat)
    requires !Accepts(search(idx, Bhukamp), FullQueryLimit)
    requires Answered(idx, search, Bhukamp, online, searchFetch, summaryFetch, WordChar,
                      stage, reply, searches, requests)
    ensures searches == [Bhukamp, Bhukamp]
    ensures stage != FullQuery
  {
    TokensKeepHindiWord();
    assert [Bhukamp][..1] == [Bhukamp];
  }

  /** What seeding does to IndexedDB, starting from `stores0` at `version0`
      and ending with `stores`. The store is read first (`stored`, listed by
      `keys`); only an empty store sends a request (`fetched`), and only an
      ok response that parses is taken and saved (`saved`; a failed save is
      ignored). */
  ghost predicate Seeded(stores0: map<string, Store>, version0: nat, faqFetch: Fetch,
                         stored: Result<seq<Json>>, keys: seq<Key>, fetched: bool, saved: bool,
                         stores: map<string, Store>)
  {
    var start := Upgraded(stores0, version0);
    var items := if faqFetch.Ok() && faqFetch.json.Some? then Iterate(faqFetch.json.value) else Err(TypeError);
    && (version0 > DbVersion ==> stored == Err(VersionError))
    && (version0 <= DbVersion && FaqsStore !in start ==> stored == Err(NotFoundError))
    && (version0 <= DbVersion && FaqsStore in start ==> stored.Ok? && ListedInKeyOrder(start[FaqsStore], keys, stored.value))
    && (fetched <==> stored.Ok? && stored.value == [])
    && (saved <==> fetched && faqFetch.Ok() && faqFetch.json.Some?)
    && (!saved && version0 <= DbVersion ==> stores == start)
    && (!saved && version0 > DbVersion ==> stores == stores0)
    && (saved ==> FaqsStore in start)
    && (saved && items.Err? ==> stores == start)
    && (saved && items.Ok? ==> stores == start[FaqsStore := PutEach(start[FaqsStore], items.value).0])
  }

  /** The tiers of the seeding effect: the store, then the network, then the
      built-in entries. `corpus` is the list they settle on, or nothing when
      reading the store throws. */
  method ReadCorpus(db: Database, faqFetch: Fetch)
    returns (ghost stored: Result<seq<Json>>, ghost keys: seq<Key>, fetched: bool, saved: bool, corpus: Option<Json>)
    requires db.Valid()
    modifies db
    ensures db.Valid()
    ensures Seeded(old(db.stores), old(db.version), faqFetch, stored, keys, fetched, saved, db.stores)
    ensures KeysAfterOpen(old(db.stores), old(db.version), old(db.nextQuizKey), db.version, db.nextQuizKey)
    ensures stored.Ok? ==> corpus == Some(Corpus(stored.value, faqFetch))
    ensures stored.Err? ==> corpus.None?
  {
    fetched, saved := false, false;
    var got;
    got, keys := db.GetAllRecords(FaqsStore);
    stored := got;
    if got.Err? {
      return stored, keys, fetched, saved, None;
    }
    var faqs := Arr(got.value);
    if NoFaqs(faqs) {
      fetched := true;
      saved := SaveFetched(db, faqFetch);
      if saved {
        faqs := faqFetch.json.value;
      }
    }
    if NoFaqs(faqs) {
      faqs := BuiltInFaqs;
    }
    corpus := Some(faqs);
  }

  /** The component's state. */
  class Assistant {
    var input: string
    var reply: Json
    /** `null` until seeding finishes. */
    var index: Option<SearchIndex>

    constructor ()
      ensures input == "" && index.None? && reply == Str("यहाँ आपका उत्तर दिखेगा।")
    {
      input := "";
      reply := Str("यहाँ आपका उत्तर दिखेगा।");
      index := None;
    }

    /** The seeding effect: the tiers settle on a corpus, which is indexed.
        If reading the store or building the index throws, the index is the
        empty one. */
    method Seed(db: Database, faqFetch: Fetch)
      returns (ghost stored: Result<seq<Json>>, ghost keys: seq<Key>, fetched: bool, saved: bool)
      requires db.Valid()
      modifies this, db
      ensures db.Valid() && input == old(input) && reply == old(reply)
      ensures stored.Ok? ==> index == Some(IndexOf(Corpus(stored.value, faqFetch)))
      ensures stored.Err? ==> index == Some(EmptyIndex)
      ensures Seeded(old(db.stores), old(db.version), faqFetch, stored, keys, fetched, saved, db.stores)
      ensures KeysAfterOpen(old(db.stores), old(db.version), old(db.nextQuizKey), db.version, db.nextQuizKey)
    {
      var corpus;
      stored, keys, fetched, saved, corpus := ReadCorpus(db, faqFetch);
      if corpus.None? {
        index := Some(EmptyIndex);
        return;
      }
      var entries := BuildEntries(corpus.value);
      if entries.Err? {
        index := Some(EmptyIndex);
      } else {
        index := Some(SearchIndex(entries.value, Tuned));
      }
    }

    /** `ask()`. An empty input asks for a question and a missing index asks
        the user to wait; neither searches. Otherwise the normalised input
        goes through the answer chain, tokenised with the corrected class
        `WordChar`. */
    method Ask(search: Search, online: bool, searchFetch: string -> Fetch, summaryFetch: string -> Fetch)
      returns (stage: Stage, searches: seq<string>, requests: nat)
      modifies this
      ensures input == old(input) && index == old(index)
      ensures input == "" ==> stage == Prompted && reply == Str(PromptMsg) && searches == [] && requests == 0
      ensures input != "" && index.None? ==> stage == Waiting && reply == Str(WaitMsg) && searches == [] && requests == 0
      ensures input != "" && index.Some? ==>
        Answered(index.value, search, Normalize(input), online, searchFetch, summaryFetch, WordChar,
                 stage, reply, searches, requests)
    {
      searches, requests := [], 0;
      if input == "" {
        reply := Str(PromptMsg);
        return Prompted, searches, requests;
      }
      if index.None? {
        reply := Str(WaitMsg);
        return Waiting, searches, requests;
      }
      stage, reply, searches, requests :=
        AnswerQuery(index.value, search, Normalize(input), online, searchFetch, summaryFetch, WordChar);
    }
  }

  // ---------------------------------------------------------------------
  // Voice input

  /** The recognition state behind `startListening` and `stopListening`:
      the "listening desired" flag, the `listening` display state, whether
      the recogniser is running, and how many delayed restarts are pending. */
  class VoiceInput {
    var desired: bool
    var listening: bool
    var running: bool
    var pendingRestarts: nat

    constructor ()
      ensures !desired && !listening && !running && pendingRestarts == 0
    {
      desired, listening, running, pendingRestarts := false, false, false, 0;
    }

    /** `startListening`: ignored while `listening`; otherwise the flag is
        raised and the recogniser started, which throws (and clears
        `listening`) if it is already running. */
    method StartListening()
      modifies this
      ensures old(listening) ==> desired == old(desired) && running == old(running) && listening
      ensures !old(listening) ==> desired && running && !listening
      ensures pendingRestarts == old(pendingRestarts)
    {
      if listening {
        return;
      }
      desired := true;
      if running {
        listening := false;
      } else {
        running := true;
      }
    }

    /** `onstart`. */
    method OnStart()
      modifies this
      ensures listening && desired == old(desired) && running == old(running)
      ensures pendingRestarts == old(pendingRestarts)
    {
      listening := true;
    }

    /** `stopListening`: the flag is lowered before the recogniser is told
        to stop; it ends later, with `onend`. */
    method StopListening()
      modifies this
      ensures !desired && !listening && running == old(running) && pendingRestarts == old(pendingRestarts)
    {
      desired := false;
      listening := false;
    }

    /** `onend` and `onerror`: recognition is over, and a delayed restart is
        scheduled only while the flag is up. */
    method OnEnd()
      modifies this
      ensures !running && !listening && desired == old(desired)
      ensures pendingRestarts == if old(desired) then old(pendingRestarts) + 1 else old(pendingRestarts)
    {
      running := false;
      listening := false;
      if desired {
        pendingRestarts := pendingRestarts + 1;
      }
    }

    /** The delayed `rec.start()` as written: the flag is not consulted
        again, so a stop that lands during the delay is overridden. Starting
        a running recogniser throws and is ignored. */
    method RestartTimerAsWritten()
      requires pendingRestarts > 0
      modifies this
      ensures pendingRestarts == old(pendingRestarts) - 1
      ensures running && desired == old(desired) && listening == old(listening)
    {
      pendingRestarts := pendingRestarts - 1;
      if !running {
        running := true;
      }
    }

    /** The delayed restart with the flag consulted when the timer fires. */
    method RestartTimer()
      requires pendingRestarts > 0
      modifies this
      ensures pendingRestarts == old(pendingRestarts) - 1
      ensures running <==> old(running) || old(desired)
      ensures desired == old(desired) && listening == old(listening)
    {
      pendingRestarts := pendingRestarts - 1;
      if !running && desired {
        running := true;
      }
    }
  }

  /** Start, let recognition end, then stop during the restart delay: as
      written, the timer still restarts recognition the user turned off. */
  method StopDuringRestartDelayAsWritten() returns (v: VoiceInput)
    ensures !v.desired && v.running
  {
    v := new VoiceInput();
    v.StartListening();
    v.OnStart();
    v.OnEnd();
    v.StopListening();
    v.RestartTimerAsWritten();
  }

  /** The same sequence with the flag re-checked leaves recognition off. */
  method StopDuringRestartDelay() returns (v: VoiceInput)
    ensures !v.desired && !v.running
  {
    v := new VoiceInput();
    v.StartListening();
    v.OnStart();
    v.OnEnd();
    v.StopListening();
    v.RestartTimer();
  }
}
