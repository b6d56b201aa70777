# Disaster-preparedness PWA: a Dafny model of its offline core

The application is a progressive web app for disaster-preparedness
education. It has:

- a service worker that precaches the application shell and answers
  requests cache-first;
- an offline FAQ assistant with voice input;
- quizzes with a localStorage overlay that an administrator edits;
- an administrator's results dashboard;
- a page of disaster guides;
- region alerts with browser notifications;
- local sign-up and login;
- a notification feed;
- game progress records.

All persistence goes through two stores:

- localStorage, which holds JSON text under fixed keys;
- an IndexedDB database (`disaster-db`, version 3) with the stores
  `faqs`, `quizResults` and `gameResults`.

The model is one Dafny module per source file, plus two shared modules:

- `Js`: the JavaScript semantics the code relies on, over a `Json` value
  datatype. It covers truthiness, `||`, `===`, property access that throws
  on null, `String()`, `join`, `trim`, `toLowerCase`, `includes` and object
  spread.
- `Seqs`: filtering and subsequence lemmas.

The model follows the form of each source file:

- Code that mutates state is a class with `modifies` clauses:
  - localStorage (`Storage.LocalStorage`);
  - the database (`Idb.Database`);
  - the service worker's caches (`ServiceWorker.WorkerState`);
  - the component states (`Quiz.QuizState`, `Chatbot.Assistant`,
    `Chatbot.VoiceInput`, `AdminQuizzes.QuizAdmin`,
    `Awareness.AwarenessPage`, `AlertBanner.Banner`).
- Pure code is functions. This covers the filters and the sort of the
  results dashboard.
- The source's loops are methods with invariants, each proved equal to a
  specification function:
  - the `put` loop of `saveFaqs`;
  - the loop of `loadDisasterTips`;
  - the notification loop of the alert banner;
  - the token loop of the assistant;
  - the quiz-list loop of the quiz administration page.

Things outside the code are parameters:

- the network: a `Fetch` outcome, or a function from URL to outcome;
- the clock and random ids: strings passed in;
- `JSON.parse` of editor text: a `Result<Json>` passed in;
- the fuzzy search library: a function from an index and a query to
  scored hits;
- the notification permission dialog: a function giving the user's
  answers.

## Model

| member | source | states |
|---|---|---|
| ServiceWorker.FirstHolder | public/sw.js:32-37 | the first cache in creation order that holds the URL, with no earlier cache holding it, or none when no cache holds it |
| ServiceWorker.MatchIn | public/sw.js:32-37 | `caches.match` finds a response exactly when the request is a GET and some cache holds the URL, and the response comes from a cache that holds it |
| ServiceWorker.WorkerState.constructor | public/sw.js:1 | a worker starts with no caches and no stored contacts |
| ServiceWorker.WorkerState.OpenCache | public/sw.js:21 | opening an existing cache changes nothing; a new name is appended to the creation order with an empty cache |
| ServiceWorker.WorkerState.DeleteCache | public/sw.js:74-77 | deleting reports whether the cache existed and removes exactly that name from both the map and the creation order |
| ServiceWorker.WorkerState.AddAll | public/sw.js:24 | `addAll` is all-or-nothing: it succeeds iff every URL is delivered cacheable (not an error, 2xx, not 206); it then stores every response, and on failure stores none |
| ServiceWorker.WorkerState.Install | public/sw.js:19-27 | install creates `disaster-pwa-v1` if it is missing, and either stores all thirteen shell URLs or leaves the cache as it was |
| ServiceWorker.WorkerState.HandleFetch | public/sw.js:30-65 | a cache hit answers with no network use; a miss goes to the network; only a status-200 basic response is written through, under its URL, replacing any older entry; a network failure serves the cached `/index.html` to document requests and nothing to others |
| ServiceWorker.WorkerState.Activate | public/sw.js:68-81 | afterwards the only cache name left is `disaster-pwa-v1`, if it existed, with its entries unchanged |
| ServiceWorker.WorkerState.HandleSync | public/sw.js:84-116 | only the `background-sync` tag with a delivered body stores the fetched contacts under `contacts`; anything else leaves the store unchanged; the caches are never touched |
| ServiceWorker.ActivatedMatchesCurrentOnly | public/sw.js:32-37 | after activation a request matches iff the current generation holds its URL |
| ServiceWorker.StaleGenerationAnswersFirst | public/sw.js:32-37 | before activation, an older generation created first answers ahead of the current one |
| ServiceWorker.UrlsToCacheDistinct | public/sw.js:2-16 | the thirteen precached URLs are distinct |
| Idb.StrBelowIrreflexive | src/utils/idb.js:23-26 | no string key sorts below itself |
| Idb.StrBelowTransitive | src/utils/idb.js:23-26 | the code-point order on string keys is transitive |
| Idb.StrBelowTotal | src/utils/idb.js:23-26 | any two distinct string keys are ordered one way |
| Idb.BelowIrreflexive | src/utils/idb.js:23-26 | no key sorts below itself (numbers come before strings) |
| Idb.BelowTransitive | src/utils/idb.js:23-26 | the key order is transitive |
| Idb.BelowTotal | src/utils/idb.js:23-26 | any two distinct keys are ordered |
| Idb.LeastExists | src/utils/idb.js:23-26 | every non-empty key set has a least key, so `getAll` has a first record |
| Idb.KeyOrderUnique | src/utils/idb.js:23-26 | only one listing of a store is in ascending key order, so the result of `getAll` is determined by the store |
| Idb.NoKeysIffEmpty | src/utils/idb.js:23-26 | `getAll` gives no records exactly when the store is empty |
| Idb.ListAll | src/utils/idb.js:23-26 | the loop lists every record of the store by ascending key |
| Idb.KeyPathValue | src/utils/idb.js:7 | evaluating the key path `id` gives no key exactly when the record is not an object with an `id` |
| Idb.RecordKey | src/utils/idb.js:7 | a record of a store without a key generator has a key iff its `id` is a number or a string |
| Idb.PutEach | src/utils/idb.js:18 | the `put` calls in order, stopping at the first record without a key (properties in `Idb.PutEachSucceeds` to `Idb.PutEachStopsAtBadRecord`) |
| Idb.PutEachSucceeds | src/utils/idb.js:15-20 | when every FAQ has a valid key, every `put` succeeds |
| Idb.PutEachUntouched | src/utils/idb.js:15-20 | a stored FAQ whose id no new record carries is kept unchanged, and no other key appears |
| Idb.PutEachLastWins | src/utils/idb.js:15-20 | each id maps to the last record in the array carrying it |
| Idb.PutEachStopsAtBadRecord | src/utils/idb.js:15-20 | the first record without a valid key aborts with a DataError, leaving the writes made before it |
| Idb.Upgraded | src/utils/idb.js:6-10 | the upgrade callback: each of the three stores is created when missing (properties in `Idb.UpgradeKeepsStores` and `Idb.UpgradeIdempotent`) |
| Idb.UpgradeKeepsStores | src/utils/idb.js:4-12 | opening never clears or replaces an existing store; an upgrade from below version 3 adds exactly the missing stores, empty |
| Idb.UpgradeIdempotent | src/utils/idb.js:4-12 | a second upgrade after the first changes nothing |
| Idb.Database.constructor | src/utils/idb.js:4-5 | a database that does not exist yet: version 0, no stores |
| Idb.Database.Open | src/utils/idb.js:4-12 | opening fails with a VersionError when the database is newer than 3 and changes nothing; otherwise it runs the upgrade and sets version 3 |
| Idb.Database.SaveFaqs | src/utils/idb.js:15-20 | the `faqs` store becomes the result of the `put` loop over the array, and fails on a non-iterable argument |
| Idb.Database.PutFaqs | src/utils/idb.js:17-19 | each array element is `put` in turn into the `faqs` store, and no other store, the version or the key generator changes |
| Idb.Database.GetAllRecords | src/utils/idb.js:23-38 | `getAllFaqs`/`getQuizResults` return exactly the records of the store in key order, and fail on a missing store |
| Idb.Database.SaveQuizResult | src/utils/idb.js:29-32 | `add` into the auto-increment store gives the record a key not already in the store (the generator's next number, written into `id`, when it has none); the store grows by exactly that entry and every earlier record is unchanged; any failure leaves the store and the generator as they were |
| Idb.Database.AddGameResult | src/utils/idb.js:9 | `add` into `gameResults` fails with a ConstraintError, leaving the store unchanged, when the id is taken; fails with a DataError without a valid id; otherwise adds one entry |
| Storage.ReadJSON | src/utils/storage.js:7-9 | the parsed stored value, or the fallback when the item is missing, empty or unparsable (properties in `Storage.ReadFallback` and `Storage.WriteThenRead`) |
| Storage.Upserted | src/utils/storage.js:16-18 | the array with the first match replaced, or the item appended (properties in `Storage.UpsertReplacesFirstMatch` and `Storage.UpsertAppends`) |
| Storage.FindIndex | src/utils/storage.js:17 | `findIndex` returns the first matching position, or -1 when nothing matches |
| Storage.ReadOr | src/utils/storage.js:16 | `readJSON(k, d) \|\| d` is the stored value when that value is truthy, and `d` otherwise |
| Storage.LocalStorage.constructor | src/utils/storage.js:7-13 | storage starts empty |
| Storage.LocalStorage.WriteJSON | src/utils/storage.js:11-13 | the key holds the encoded value and nothing else changes |
| Storage.LocalStorage.Clear | src/pages/Awareness.jsx:37 | `localStorage.clear()` removes every key |
| Storage.LocalStorage.UpsertArrayItem | src/utils/storage.js:15-20 | the upsert succeeds iff the stored value (or `[]`) is an array, and then writes the upserted array; on a non-array it throws and writes nothing |
| Storage.ReadFallback | src/utils/storage.js:7-9 | an absent key, an empty string and unparsable text all read as the fallback |
| Storage.WriteThenRead | src/utils/storage.js:7-13 | a written value reads back unchanged, and other keys read as before |
| Storage.UpsertReplacesFirstMatch | src/utils/storage.js:15-20 | with a match, the first match is replaced in place and the length and every other element are kept |
| Storage.UpsertAppends | src/utils/storage.js:17-19 | without a match, the item is appended after the unchanged elements |
| Storage.StorageKeysDistinct | src/utils/storage.js:1-5 | the three storage keys are different |
| Auth.GetSession | src/utils/auth.js:20 | the stored session, or null when it is missing or unreadable |
| Auth.SessionOf | src/utils/auth.js:8 | the session holds exactly `email`, `role`, `state` and `district`, each copied from the user |
| Auth.Signup | src/utils/auth.js:3-10 | a taken email throws before anything is written; otherwise the user is appended to the list and the session becomes theirs; a non-array list or a null user throws |
| Auth.SignupKeepsEmailsUnique | src/utils/auth.js:5-7 | appending a user whose email is not taken keeps emails unique |
| Auth.Login | src/utils/auth.js:12-18 | the first user matching both email and password becomes the session; with no match login throws and storage is unchanged |
| Auth.Logout | src/utils/auth.js:20-21 | the session slot holds null, so `getSession` returns null |
| Games.Progressed | src/utils/games.js:7-10 | the progress after appending the result to the user's list: on an object the list is created when falsy and must be an array; on an array only an index key survives serialisation; any other value throws (properties in `Games.ProgressAppends` and `Games.ProgressArray`) |
| Games.UserKeyCases | src/utils/games.js:7-8 | progress is kept under the session email, or under `guest` without a session |
| Games.Progress | src/utils/games.js:7 | the stored progress when it parses to a truthy value; `{}` when it is missing, unreadable or falsy |
| Games.GetLocalGameResults | src/utils/games.js:37-39 | `getLocalGameResults` is the stored progress when it parses to a truthy value, and `{}` otherwise, including when nothing is stored |
| Games.SetIndex | src/utils/games.js:10 | assigning past the end of an array grows it to hold the new element, and every other element is kept |
| Games.SaveLocalGameResult | src/utils/games.js:5-12 | the progress written is the stored progress with the result added to the user's list (on an array progress, only at an index key below 2^32 - 1), or the call throws and writes nothing |
| Games.ProgressAppends | src/utils/games.js:9-11 | on a progress object the result is appended to the user's list (created when missing), and every other user's list is unchanged; a truthy non-array list throws |
| Games.ProgressArray | src/utils/games.js:9-11 | on a progress array the key `length` always throws TypeError; an index key (at most 2^32 - 2) gets the slot's list (a new one when the slot is falsy, past the end too) with the result appended, every other element kept, and a truthy non-list slot throws; any other key, a larger number included, leaves the array as it was |
| Games.ProgressArrayBeyondLastIndex | src/utils/games.js:9-11 | the email "4294967295" is no array index: an empty progress array is written back as `[]` |
| Games.SaveIndexedGameResult | src/utils/games.js:14-20 | a missing `gameResults` store means nothing is written; otherwise the record is added as `add` allows; errors are swallowed; the version and the quiz key generator are those `getDB()` leaves |
| Games.GameRecord | src/utils/games.js:24-31 | the record `{ id, user, type, score, date, ...extra }` (its fields in `Games.GameRecordFields`) |
| Games.GameRecordFields | src/utils/games.js:24-31 | the record has `id` = type + "-" + timestamp, `user`, `type`, `score` and `date`, and every field of `extra` overrides them |
| Games.SaveGameResult | src/utils/games.js:22-35 | the record is written locally and then to IndexedDB, and the record is returned; a local throw leaves storage and the database, its version and key generator included, as they were |
| Notifications.GetNotifications | src/utils/notifications.js:6-8 | the stored feed when it parses to a truthy value; `[]` when nothing is stored or the value is unreadable or falsy |
| Notifications.AddNotification | src/utils/notifications.js:10-15 | the new item goes first; the earlier items follow in order; the item is returned; a stored non-array throws |
| Notifications.NewItem | src/utils/notifications.js:12 | the new item: a generated `id` and `date`, then `n`'s own fields over them (in `Notifications.NewItemFields`) |
| Notifications.NewItemFields | src/utils/notifications.js:12 | fields of `n` override the generated `id` and `date` |
| Notifications.GetStudentNotifications | src/utils/notifications.js:17-27 | the feed filtered by target against the session (in `Notifications.GetStudentNotificationsSpec`) |
| Notifications.GetStudentNotificationsSpec | src/utils/notifications.js:17-27 | the feed fails exactly on a non-array or a null item; otherwise it is the order-preserving sublist of visible items |
| Notifications.VisibleCases | src/utils/notifications.js:21-25 | targets `'all'`, absent or empty are visible to all; a target object is visible iff its state is empty or equal to the session's, and likewise its district |
| Alerts.FindRegionAlerts | src/utils/alerts.js:11-14 | nothing without a state; otherwise the alerts of that state and, when given, that district (in `Alerts.FindRegionAlertsSpec`) |
| Alerts.FindRegionAlertsSpec | src/utils/alerts.js:11-14 | no state gives `[]`; otherwise the result keeps, in order, exactly the alerts of the state (and of the district when one is given), failing exactly on a non-array or a null alert |
| Alerts.GetSeenAlertIds | src/utils/alerts.js:17-19 | a missing or malformed seen list reads as `[]` |
| Alerts.SeenListAfter | src/utils/alerts.js:20-23 | the list `Array.from(new Set([...seen, id]))`, or a throw when the seen value is not iterable (properties in `Alerts.SeenAddRecords` to `Alerts.ReAddPresent`) |
| Alerts.AddSeenAlertId | src/utils/alerts.js:20-24 | the stored list becomes the list of `new Set([...seen, id])`, or the call throws and writes nothing |
| Alerts.SetAddKeeps | src/utils/alerts.js:21 | `Set.add` keeps the earlier elements in order, holds the element afterwards, and keeps the set free of repeats |
| Alerts.SetOfDistinct | src/utils/alerts.js:21 | a `Set` built from a list holds no element twice |
| Alerts.SetOfFrom | src/utils/alerts.js:21 | a `Set` holds only elements of its list |
| Alerts.SetOfOfDistinct | src/utils/alerts.js:21 | a list without repeats builds a set with the same elements in the same order |
| Alerts.StrictEqIsEq | src/utils/alerts.js:21 | ids that are `===` are the same value |
| Alerts.SeenAddRecords | src/utils/alerts.js:20-24 | the call succeeds iff the seen list is iterable, and then the id is in the stored list |
| Alerts.SetOfKeeps | src/utils/alerts.js:21 | a `Set` keeps every element of its list |
| Alerts.SeenAddKeepsMembers | src/utils/alerts.js:20-24 | ids already seen remain seen |
| Alerts.SeenAddNoDuplicates | src/utils/alerts.js:20-24 | the stored list holds no primitive id twice |
| Alerts.SeenAddKeepsOrder | src/utils/alerts.js:20-24 | a repeat-free seen list is kept in order as a prefix of the new one, followed by at most the new id |
| Alerts.SeenAddIdempotent | src/utils/alerts.js:20-24 | adding a primitive id a second time writes the same list again |
| Alerts.ReAddPresent | src/utils/alerts.js:20-24 | re-adding an id already in a written set changes nothing |
| Alerts.DisasterTips | src/utils/alerts.js:26-34 | the map from each disaster id to its tips, or `{}` when anything throws (properties in `Alerts.TipsLastWins` and `Alerts.TipsKeys`) |
| Alerts.LoadDisasterTips | src/utils/alerts.js:26-34 | the loop builds exactly the tips map of the fetched list, and `{}` on any failure |
| Alerts.TipsLastWins | src/utils/alerts.js:29-31 | each disaster id maps to the tips of its last occurrence (`[]` when falsy) |
| Alerts.TipsKeys | src/utils/alerts.js:29-31 | the map has a key exactly for each disaster's id |
| AlertBanner.NotificationApi.constructor | src/components/AlertBanner.jsx:21-22 | the facility starts with the given permission, no requests and nothing shown |
| AlertBanner.NotificationApi.Notify | src/components/AlertBanner.jsx:22-29 | granted shows the alert at once; denied never shows it or asks; default asks once and shows it only if the user grants |
| AlertBanner.NotifyStep | src/components/AlertBanner.jsx:22-29 | one `Notify` on the notification state (properties in `AlertBanner.NotifyAllGranted` to `AlertBanner.DismissedAsksEachTime`) |
| AlertBanner.NotifyAll | src/components/AlertBanner.jsx:19-32 | `Notify` for each attempted alert in turn (properties in the four lemmas below) |
| AlertBanner.NotifyAllGranted | src/components/AlertBanner.jsx:22-24 | with permission granted, every attempted alert is shown, in order, and nothing is asked |
| AlertBanner.NotifyAllDenied | src/components/AlertBanner.jsx:22-29 | with permission denied, nothing is shown or asked |
| AlertBanner.FirstAnswerDecides | src/components/AlertBanner.jsx:25-28 | on a first visit, the first attempted alert asks once; a grant shows it and every later alert with no further request, a denial shows none |
| AlertBanner.DismissedAsksEachTime | src/components/AlertBanner.jsx:25-28 | while the user dismisses each request, every attempted alert asks once and none is shown |
| AlertBanner.AddRecordsAndKeeps | src/components/AlertBanner.jsx:30 | one seen-id write records the new id and keeps every recorded one |
| AlertBanner.RecordOneSpec | src/utils/alerts.js:20-24 | on an iterable seen list, one recording keeps it iterable, records the id and keeps every earlier id |
| AlertBanner.RecordedSpec | src/components/AlertBanner.jsx:20-32 | recording the attempted ids in turn keeps the list iterable, records every one and loses no id seen before |
| AlertBanner.RecordedKeepsOtherKeys | src/components/AlertBanner.jsx:20-32 | the loop changes no localStorage key but the seen list (the session, the users and the overlay stay) |
| AlertBanner.Attempt | src/components/AlertBanner.jsx:21-31 | one loop body: storage becomes exactly that of `addSeenAlertId(a.id)` whatever the permission outcome; the notification state becomes exactly that of one `Notify` (granted shows, denied neither shows nor asks, default asks once and shows on a grant) |
| AlertBanner.Visit | src/components/AlertBanner.jsx:21-31 | one iteration: an alert is attempted iff the API exists and its id is not in the snapshot, and the loop's facts, storage and notification state included, are kept |
| AlertBanner.VisitAll | src/components/AlertBanner.jsx:20-32 | the loop attempts exactly the unseen alerts, in order, keeping storage equal to their ids recorded in turn and the notification state equal to `Notify` for each in turn |
| AlertBanner.NotifyUnseen | src/components/AlertBanner.jsx:18-33 | with the API present, exactly the region alerts unseen in the snapshot taken before the loop are attempted, in order; storage becomes that of recording their ids in turn, so every one is recorded and no other key changes; the permission, the request count and the shown alerts are those of `Notify` for each attempted alert in turn; without the API nothing changes |
| AlertBanner.Banner.constructor | src/components/AlertBanner.jsx:9 | no alerts and no tips at first |
| AlertBanner.Banner.Load | src/components/AlertBanner.jsx:9-38 | the shown alerts are `findRegionAlerts(all, session.state, session.district)`, and the tips are set once the region is known; after any error the alerts are `[]`, nothing is attempted and storage and the notification state are untouched; otherwise the unseen alerts are attempted, storage is exactly their ids recorded in turn, and the notification state is that of `Notify` for each in turn |
| AlertBanner.RepeatedUnseenIdAttemptedTwice | src/components/AlertBanner.jsx:19-32 | the snapshot is not refreshed in the loop, so two alerts with the same unseen id are both attempted |
| Chatbot.Normalize | src/components/Chatbot.jsx:46 | lower-casing then trimming (properties in `Chatbot.NormalizeSpec`) |
| Chatbot.NormalizeSpec | src/components/Chatbot.jsx:46 | normalising is idempotent; the result is a contiguous slice of the lower-cased text with only white space cut from its two ends, and it has no white space at either end |
| Chatbot.EntryOf | src/components/Chatbot.jsx:49 | an entry's answer is the record's answer |
| Chatbot.BuildEntries | src/components/Chatbot.jsx:47-49 | the filter and map that build the index entries (properties in `Chatbot.BuildEntriesSpec`) |
| Chatbot.BuildEntriesSpec | src/components/Chatbot.jsx:47-49 | building succeeds exactly on an array without null records; it keeps exactly the records with array `questions` and string `answer`, in order |
| Chatbot.Corpus | src/components/Chatbot.jsx:23-44 | the list the three tiers settle on (properties in `Chatbot.CorpusTiers`) |
| Chatbot.CorpusTiers | src/components/Chatbot.jsx:23-44 | stored FAQs win when there are any; the network data is used only when the store is empty and the response is ok; otherwise the built-in set |
| Chatbot.SaveFetched | src/components/Chatbot.jsx:26-36 | an ok response that parses is written into the `faqs` store by the `put` loop, with the version and key generator `getDB()` leaves; any other response leaves the database, version and generator included, as it was |
| Chatbot.ReadCorpus | src/components/Chatbot.jsx:21-44 | the store is read first; only an empty store sends a request; only an ok response that parses is taken and saved; the corpus is the first non-empty tier, and there is none when reading the store throws; the version and key generator are those `getDB()` leaves |
| Chatbot.BuiltInIndex | src/components/Chatbot.jsx:39-44 | the built-in set indexes to two entries with the tuned options |
| Chatbot.RunLength | src/components/Chatbot.jsx:211 | the length of the leading run of word characters, which is maximal |
| Chatbot.WordRunsMaximal | src/components/Chatbot.jsx:211 | each piece of the split is a maximal run of word characters of the text |
| Chatbot.FilterAllPass | src/components/Chatbot.jsx:211 | a run of word characters loses nothing to the word filter |
| Chatbot.WordRunsCover | src/components/Chatbot.jsx:211 | the pieces of the split, joined, are exactly the word characters of the text |
| Chatbot.Tokens | src/components/Chatbot.jsx:211 | split at runs of non-word characters, then keep pieces of three or more characters (properties in `Chatbot.TokensSpec`) |
| Chatbot.TokensSpec | src/components/Chatbot.jsx:211 | the tokens are, in order, the maximal word runs of at least three characters, and every such run is a token |
| Chatbot.TokensAsWrittenDropHindiWord | src/components/Chatbot.jsx:211 | with the class as written, "भूकंप" gives no token at all |
| Chatbot.TokensKeepHindiWord | src/components/Chatbot.jsx:211 | with marks in the class, "भूकंप" is one token |
| Chatbot.WholeWordIsOneToken | src/components/Chatbot.jsx:211 | under the corrected class, a word of three or more word characters is one token |
| Chatbot.FirstAcceptedToken | src/components/Chatbot.jsx:212-220 | the first token whose best hit scores 0.65 or less, with no earlier token accepted |
| Chatbot.OnlineAnswer | src/components/Chatbot.jsx:222-247 | offline, no request is made; online, the summary is requested exactly when the search is ok, parses and names a first title; an answer comes exactly when, in addition, the summary is ok, parses and `sum && sum.extract` holds, and it is that summary's `extract` for the first title |
| Chatbot.SearchTokens | src/components/Chatbot.jsx:212-220 | the loop stops at the first accepted token, after searching exactly the tokens up to it |
| Chatbot.LookUpOnline | src/components/Chatbot.jsx:222-247 | the step-by-step online stage yields what `OnlineAnswer` describes |
| Chatbot.AnswerQuery | src/components/Chatbot.jsx:199-251 | for a given word class: the whole question (score 0.7 or less), then the tokens in order (0.65 or less), then the online stage, then the apology; a stage runs only when every earlier one failed, and the searches and requests made are exactly those |
| Chatbot.EmptyIndexOfflineFallsBack | src/components/Chatbot.jsx:199-251 | with an index that finds nothing and no network, every question gets the apology after the question and its tokens were searched, with no request |
| Chatbot.HindiQuerySkipsTokensAsWritten | src/components/Chatbot.jsx:211-220 | with the class as written, "भूकंप" that the whole-question search rejects goes straight to the online stage or the apology, searched once |
| Chatbot.HindiQuerySearchedAsToken | src/components/Chatbot.jsx:211-220 | with the corrected class, the same question is searched again as its own token |
| Chatbot.Assistant.constructor | src/components/Chatbot.jsx:9 | no index until seeding; the reply placeholder is shown |
| Chatbot.Assistant.Seed | src/components/Chatbot.jsx:19-64 | the index is built from the first non-empty tier; the network is asked only when the store is empty; its data is saved only when ok; a failed read gives the empty index, never a null one; the version and key generator are those `getDB()` leaves |
| Chatbot.Assistant.Ask | src/components/Chatbot.jsx:194-252 | empty input prompts and no index asks to wait, with no search; otherwise the chain of `AnswerQuery` on the normalised input, tokenised with the corrected word class |
| Chatbot.VoiceInput.constructor | src/components/Chatbot.jsx:119-127 | nothing running and no restart pending |
| Chatbot.VoiceInput.StartListening | src/components/Chatbot.jsx:119-171 | ignored while listening; otherwise the desired flag is raised and the recogniser runs |
| Chatbot.VoiceInput.OnStart | src/components/Chatbot.jsx:128-130 | the listening state is shown |
| Chatbot.VoiceInput.StopListening | src/components/Chatbot.jsx:173-179 | the desired flag is lowered and listening ends |
| Chatbot.VoiceInput.OnEnd | src/components/Chatbot.jsx:131-148 | recognition ends, and a restart is scheduled exactly when the flag is up |
| Chatbot.VoiceInput.RestartTimerAsWritten | src/components/Chatbot.jsx:131-148 | the delayed restart as written runs the recogniser whatever the flag |
| Chatbot.VoiceInput.RestartTimer | src/components/Chatbot.jsx:131-148 | with the flag re-checked, the recogniser runs after the timer iff it ran before or the flag is up |
| Chatbot.StopDuringRestartDelayAsWritten | src/components/Chatbot.jsx:131-179 | a stop during the restart delay still ends with recognition running, as written |
| Chatbot.StopDuringRestartDelay | src/components/Chatbot.jsx:131-179 | with the re-check, the same stop leaves recognition off |
| Quiz.EffectiveQuizFile | src/components/Quiz.jsx:10 | the prop, then the route parameter, then `earthquake.json` |
| Quiz.OverrideFor | src/components/Quiz.jsx:20-25 | an override is a truthy value read from the stored overlay under the file name; a parse error yields none |
| Quiz.AnswerAt | src/components/Quiz.jsx:42 | reading the current question's answer throws a TypeError when the question is missing |
| Quiz.QuizState.constructor | src/components/Quiz.jsx:11-15 | no quiz, first question, score 0 |
| Quiz.QuizState.Load | src/components/Quiz.jsx:17-36 | an override wins with no request; otherwise an ok response that parses supplies the quiz; any other outcome leaves it unloaded |
| Quiz.QuizState.HandleAnswer | src/components/Quiz.jsx:38-70 | ignored with no quiz or while saving; the score grows by one iff the choice `===` the answer; `current` advances while questions remain; the last answer finishes and is the only path that saves `{quizId, score, total, date}`, with score ≤ total, and the database then holds it as `saveQuizResult` stores it |
| Quiz.SaveResult | src/components/Quiz.jsx:55-67 | after the save, whose failure is only logged, the database is unchanged at a newer version, or upgraded and holding the record under a fresh generated key written into its `id`, with the generator moved on; only a missing store or an exhausted generator adds nothing |
| Quiz.ResultRecord | src/components/Quiz.jsx:57-62 | the saved record is an object with at most the fields `quizId`, `score`, `total` and `date`, each reading back as its value |
| Quiz.QuizState.SaveSettled | src/components/Quiz.jsx:66-68 | the save settling only clears `saving` |
| Quiz.QuestionIndexInRange | src/components/Quiz.jsx:42 | a question read from an array lies below its length, which bounds the final score |
| AdminQuizzes.ReadLS | src/pages/AdminQuizzes.jsx:9 | the overlay is truthy, and `{}` when missing |
| AdminQuizzes.NormalizeFilename | src/pages/AdminQuizzes.jsx:49 | the name always ends in `.json`; empty gives `new-quiz.json`; a `.json` name is kept; otherwise the suffix is added |
| AdminQuizzes.NormalizeIdempotent | src/pages/AdminQuizzes.jsx:49 | normalising twice is normalising once |
| AdminQuizzes.ParsedContent | src/pages/AdminQuizzes.jsx:50-51 | blank editor text is replaced by the default quiz |
| AdminQuizzes.OverlaidSpec | src/pages/AdminQuizzes.jsx:55 | saving sets the one entry and keeps every other |
| AdminQuizzes.SavedNote | src/pages/AdminQuizzes.jsx:60 | the notice targets `all` and is `quiz:update` iff the file already had an entry, otherwise `quiz:new` |
| AdminQuizzes.RemovedSpec | src/pages/AdminQuizzes.jsx:67-68 | removal deletes exactly that entry |
| AdminQuizzes.RemoveUndoesSave | src/pages/AdminQuizzes.jsx:53-68 | removing a file just saved gives the overlay without it |
| AdminQuizzes.Listing | src/pages/AdminQuizzes.jsx:25 | a listing entry exists exactly for a non-null quiz |
| AdminQuizzes.NoQuizzesNoListings | src/pages/AdminQuizzes.jsx:25 | a module without quizzes adds nothing |
| AdminQuizzes.ListingsAppend | src/pages/AdminQuizzes.jsx:24-25 | the list is the in-order flattening of the modules' lists |
| AdminQuizzes.ListOf | src/pages/AdminQuizzes.jsx:22-27 | a failed request or body gives the empty list |
| AdminQuizzes.PushModule | src/pages/AdminQuizzes.jsx:25 | the inner loop appends exactly the module's entries |
| AdminQuizzes.ModuleListingsPrefix | src/pages/AdminQuizzes.jsx:25 | a throw at one quiz makes the module throw |
| AdminQuizzes.ListingsPrefix | src/pages/AdminQuizzes.jsx:25-27 | a throw at one module makes the whole list throw, so the list is empty |
| AdminQuizzes.OverlayServed | src/pages/AdminQuizzes.jsx:53-57 | after a save, the quiz player is served the saved quiz for that file |
| AdminQuizzes.BuildList | src/pages/AdminQuizzes.jsx:18-27 | the loop builds exactly the flattened list, or `[]` on any throw |
| AdminQuizzes.QuizAdmin.constructor | src/pages/AdminQuizzes.jsx:13-16 | an empty page state |
| AdminQuizzes.QuizAdmin.Load | src/pages/AdminQuizzes.jsx:18-30 | the list and the overlay copy are loaded; the editor is untouched |
| AdminQuizzes.QuizAdmin.SaveQuiz | src/pages/AdminQuizzes.jsx:47-64 | text that fails to parse or lacks a truthy title and array questions changes nothing; a save stores the overlay with that one entry set, the editor shows it, the quiz player then serves it, and the notice is added |
| AdminQuizzes.Validated | src/pages/AdminQuizzes.jsx:50-52 | the editor text is accepted iff it parses to a value with a truthy title and array questions; otherwise the parse error or the shape error |
| AdminQuizzes.Publish | src/pages/AdminQuizzes.jsx:53-60 | the overlay gets the one entry set, every other entry kept; the quiz player then serves it; a 'quiz:update' or 'quiz:new' notice goes in front of the feed, and a feed that is not an array fails only that step |
| AdminQuizzes.QuizAdmin.Commit | src/pages/AdminQuizzes.jsx:49-60 | the checked quiz is published under the normalised name, the editor shows it pretty-printed, and the module list and filter are untouched |
| AdminQuizzes.QuizAdmin.RemoveCustom | src/pages/AdminQuizzes.jsx:66-72 | the entry is deleted so the player no longer finds it; the editor is cleared iff it was editing that file |
| AdminQuizzes.FilterListings | src/pages/AdminQuizzes.jsx:74 | the list filter by module or title (properties in `AdminQuizzes.FilterListingsSpec`) |
| AdminQuizzes.FilterListingsSpec | src/pages/AdminQuizzes.jsx:74 | an empty filter keeps all; otherwise, in order, the entries whose module contains the filter or whose lower-cased title contains the lower-cased filter |
| Admin.SortNewestFirst | src/pages/Admin.jsx:16 | the insertion sort by the date comparator (properties in `Admin.SortPermutes` and `Admin.SortOrders`) |
| Admin.InsertPermutes | src/pages/Admin.jsx:16 | one insertion step adds only that result |
| Admin.SortPermutes | src/pages/Admin.jsx:16 | sorting only reorders the results |
| Admin.InsertFrom | src/pages/Admin.jsx:16 | insertion brings in no new element |
| Admin.AppendOldest | src/pages/Admin.jsx:16 | a result no newer than a sorted run may follow it |
| Admin.InsertSorted | src/pages/Admin.jsx:16 | inserting into a newest-first run keeps it newest first |
| Admin.SortOrders | src/pages/Admin.jsx:16 | with valid dates, results run newest first |
| Admin.ModuleStage | src/pages/Admin.jsx:33-36 | module `all` keeps everything; another keeps, in order, the results whose quiz id contains it |
| Admin.SearchTestAgrees | src/pages/Admin.jsx:40-42 | the search callback is the case-blind containment of the untrimmed search |
| Admin.SearchStage | src/pages/Admin.jsx:38-43 | a blank search keeps everything; otherwise, in order, the results whose lower-cased id contains the lower-cased search |
| Admin.FilterResults | src/pages/Admin.jsx:31-45 | the module filter, then the search filter (properties in `Admin.FilterResultsSpec`) |
| Admin.FilterResultsAll | src/pages/Admin.jsx:30-46 | module `all` with an empty search shows every result |
| Admin.FilterResultsSpec | src/pages/Admin.jsx:30-46 | the shown results are the order-preserving sublist passing both filters |
| Awareness.AwarenessPage.constructor | src/pages/Awareness.jsx:5-6 | no guides, loading |
| Awareness.AwarenessPage.Load | src/pages/Awareness.jsx:9-26 | stored guides are used iff they form a non-empty array; otherwise the fetched data is shown and written back, and a failure shows `[]` |
| Awareness.AwarenessPage.ResetLocal | src/pages/Awareness.jsx:36-44 | every key goes, including the session, the users and the quiz overlay, so no quiz file has an override; then only the refetched guides are stored |
| Awareness.QueryTestAgrees | src/pages/Awareness.jsx:30-34 | on a readable guide the callback is whether it mentions the query |
| Awareness.FilterDisasters | src/pages/Awareness.jsx:30-34 | the guide filter (properties in `Awareness.FilterDisastersSpec`) |
| Awareness.FilterDisastersSpec | src/pages/Awareness.jsx:30-34 | a blank query keeps all; otherwise, in order, the guides whose lower-cased text contains the untrimmed, lower-cased query |
| Awareness.LowerAppend | src/pages/Awareness.jsx:32 | lower-casing the joined text lower-cases each part |
| Awareness.TitleMatchKept | src/pages/Awareness.jsx:30-34 | a guide whose title contains the query, ignoring case, is kept |

## Left out

- Characters: lower-casing covers ASCII and Latin-1 only. The word class of the assistant's tokens covers ASCII, Latin-1 and the Devanagari block, not the whole of Unicode.
- Numbers are integers. Fractions and NaN are not modelled, except a NaN date difference.
- IndexedDB keys are numbers or strings. Array and date keys are not modelled.
- Concurrency: requests, transactions, timers and React state updates run one at a time, in program order. Interleavings are not modelled.
- Date parsing: `Admin.SortNewestFirst` takes the record-to-time function as a parameter.
- Admin.SortOrders: proves newest-first only when every date is valid. With an invalid date, the comparator gives 0 and the order is whatever the insertion sort then produces; stability is not proved.
- Fuzzy search: `fuse.js` is an oracle passed as a parameter, and its scoring is not modelled.
- Other libraries: the `idb` wrapper's promise plumbing is not modelled.
- Speech: speech synthesis (`speak`, the voice list) and the recognition language are left out. Only the recognition state is modelled.
- Service worker: the `push` and `notificationclick` handlers are not modelled. Neither are `Vary` headers or non-http schemes.
- Alert functions: `notifyWithSoundAndVibration` and `loadContacts` in `src/utils/alerts.js` are not modelled. They are sound, vibration and a plain fetch with no logic.
- Admin quiz page: `openQuiz`, the Format and Clear buttons, and the `alert()` dialogs of `src/pages/AdminQuizzes.jsx` are not modelled.
- Pretty-printing: `JSON.stringify(parsed, null, 2)` is the value `Pretty(parsed)`, not its text.
- Editor parse: `JSON.parse` of editor text is a parameter.
- Notification constructor: a constructor that throws is not modelled. A granted permission always shows the notification.
- Admin dashboard: `getQuizResults` failing is not modelled; the results then stay `[]`.
- Render crashes: a filter callback that throws during render is an `Err`. What React then shows is not modelled.
- Prototype keys: `__proto__` and other inherited property names are ordinary keys.
- Strings: a string is a sequence of code points, where JavaScript counts UTF-16 code units. For characters beyond U+FFFF, `length`, string indices and the order of string keys therefore differ from the source.
- Idb.ListAll: string keys are listed in code-point order. IndexedDB uses code-unit order, which differs only for keys with characters beyond U+FFFF.
- Idb.Database.GetAllRecords: string keys come back in code-point order, not IndexedDB's code-unit order; the two differ only for characters beyond U+FFFF.
- Games.SaveLocalGameResult: an array progress grown to a very large index is written in full. The engine's RangeError for a string too long for `JSON.stringify` is not modelled.
- Quiz.ResultRecord: a field whose value is undefined is dropped. The structured clone that stores the record keeps the key, holding undefined.
- Quiz.QuizState.HandleAnswer: `current + 1 < questions.length` counts as true only when the length is a number. A comparison with a non-number is taken to be false.
- Chatbot.Assistant.Ask: the token stage splits with the corrected word class `WordChar`, not with `[^\p{L}\p{N}]+`. Words with combining marks, such as Devanagari vowel signs or the accents U+0300 to U+036F, therefore split differently from the code as written. `Chatbot.AnswerQuery` with `WordAsWritten` is the code as written, and `Chatbot.HindiQuerySkipsTokensAsWritten` shows the difference.
- Chatbot.EmptyIndexOfflineFallsBack: the fuzzy-search oracle is unconstrained. The lemma assumes an index on which every search finds nothing, as fuse.js does over an empty list.
- Alerts.SeenAddIdempotent: holds for primitive ids. An object id never equals a parsed copy of itself, so objects are never deduplicated.

## Findings

| source | as written | input that shows it | evidently intended | confidence | as-written member | corrected member |
|---|---|---|---|---|---|---|
| src/components/Chatbot.jsx:211 | the token separator is `[^\p{L}\p{N}]+`, so the Devanagari vowel signs and virama (category M) split words | the query "भूकंप" (earthquake) splits into pieces shorter than three characters, and no token is searched | words are runs of letters, marks and digits, so a Hindi word is one token | not executed | Chatbot.TokensAsWrittenDropHindiWord, Chatbot.HindiQuerySkipsTokensAsWritten | Chatbot.TokensKeepHindiWord, Chatbot.HindiQuerySearchedAsToken |
| src/components/Chatbot.jsx:131-179 | the 250 ms restart timer calls `rec.start()` without re-reading the listening-desired flag | start, recognition ends (timer scheduled), stop, then the timer fires: recognition is running although the user stopped it | the timer restarts only while the flag is still up | not executed | Chatbot.StopDuringRestartDelayAsWritten | Chatbot.StopDuringRestartDelay |
