/**
 * The quiz player of src/components/Quiz.jsx: which quiz file is played,
 * where its content comes from (an administrator's override in
 * localStorage before the network), and the answer handler that scores,
 * advances and finally saves the result to IndexedDB.
 */
module Quiz {
  import opened Js
  import opened Storage
  import opened Idb

  const DefaultQuizFile: string := "earthquake.json"
  const OverridesKey: string := "des_custom_quizzes"

  /** `quizFile || params.quizFile || 'earthquake.json'`. */
  function EffectiveQuizFile(prop: Option<Json>, param: Option<Json>): (r: Json)
    ensures Truthy(prop) ==> r == prop.value
    ensures !Truthy(prop) && Truthy(param) ==> r == param.value
    ensures !Truthy(prop) && !Truthy(param) ==> r == Str(DefaultQuizFile)
  {
    Or(if Truthy(prop) then prop else param, Str(DefaultQuizFile))
  }

  /** `JSON.parse(localStorage.getItem('des_custom_quizzes') || '{}')`: a
      missing or empty item reads as `{}`, malformed text throws. */
  function Overrides(items: map<string, Stored>): Result<Json> {
    if OverridesKey !in items || items[OverridesKey].Blank? then Ok(Obj(map[]))
    else if items[OverridesKey].Garbled? then Err(SyntaxError)
    else Ok(items[OverridesKey].value)
  }

  /** The override for a file: `overrides && overrides[file]` when truthy; a
      parse error is swallowed. */
  function OverrideFor(items: map<string, Stored>, file: string): (r: Option<Json>)
    ensures r.Some? ==> Truthy(r)
    ensures r.Some? ==>
      OverridesKey in items && items[OverridesKey].Encoded? && Chain(Some(items[OverridesKey].value), file) == r
  {
    match Overrides(items)
    case Err(_) => None
    case Ok(o) =>
      if !Truthy(Some(o)) then None
      else
        var v := Prop(o, file).value;
        if Truthy(v) then v else None
  }

  /** `quiz.questions[current].answer`: throws when the questions or the
      question are missing. */
  function AnswerAt(questions: Option<Json>, current: nat): (r: Result<Option<Json>>)
    ensures r.Err? ==> r.error == TypeError
    ensures r.Ok? ==>
      questions.Some? && Prop(questions.value, NatToString(current)).Ok? && Prop(questions.value, NatToString(current)).value.Some?
  {
    var q :- Member(questions, NatToString(current));
    Member(q, "answer")
  }

  class QuizState {
    /** null until a quiz is loaded. */
    var quiz: Json
    var current: nat
    var score: nat
    var finished: bool
    var saving: bool

    /** Until a quiz is finished, every point was scored on an earlier
        question. */
    predicate Valid()
      reads this
    {
      !finished ==> score <= current
    }

    constructor ()
      ensures Valid() && quiz == Null && current == 0 && score == 0 && !finished && !saving
    {
      quiz, current, score, finished, saving := Null, 0, 0, false, false;
    }

    /** The loading effect: an override for the file wins and no request is
        made; otherwise an ok response supplies the quiz. A failed request, a
        non-ok status or a body that does not parse leaves the quiz as it
        was. */
    method Load(items: map<string, Stored>, file: string, res: Fetch) returns (requested: bool)
      requires Valid()
      modifies this
      ensures Valid()
      ensures current == old(current) && score == old(score) && finished == old(finished) && saving == old(saving)
      ensures requested <==> OverrideFor(items, file).None?
      ensures OverrideFor(items, file).Some? ==> quiz == OverrideFor(items, file).value
      ensures OverrideFor(items, file).None? && res.Ok() && res.json.Some? ==> quiz == res.json.value
      ensures OverrideFor(items, file).None? && !(res.Ok() && res.json.Some?) ==> quiz == old(quiz)
    {
      var data := OverrideFor(items, file);
      requested := data.None?;
      if data.None? {
        if !res.Ok() || res.json.None? {
          return;
        }
        data := res.json;
      }
      quiz := data.value;
    }

    /** `handleAnswer(choiceIndex)`. Ignored without a quiz or while a save
        is pending. Reading the current question throws (changing nothing)
        when it is missing. The score grows by one exactly on a correct
        choice; the next question follows while there is one, and the last
        answer finishes the quiz and saves `{ quizId, score, total, date }`,
        leaving `saving` set until the save settles. */
    method HandleAnswer(db: Database, choice: Option<Json>, date: string)
      returns (r: Result<()>, saved: Option<Json>)
      requires Valid() && db.Valid()
      modifies this, db
      ensures Valid() && db.Valid() && quiz == old(quiz)
      ensures !Truthy(Some(old(quiz))) || old(saving) ==>
        r.Ok? && saved.None? && unchanged(this) && unchanged(db)
      ensures Truthy(Some(old(quiz))) && !old(saving) ==>
        var questions := Prop(old(quiz), "questions").value;
        var answer := AnswerAt(questions, old(current));
        && (answer.Err? ==> r == Err(TypeError) && saved.None? && unchanged(this) && unchanged(db))
        && (answer.Ok? ==>
              var newScore := old(score) + if StrictEq(choice, answer.value) then 1 else 0;
              var total := Prop(questions.value, "length").value;
              var more := total.Some? && total.value.Num? && old(current) + 1 < total.value.n;
              && r.Ok?
              && score == newScore
              && (more ==> current == old(current) + 1 && finished == old(finished) && !saving && saved.None?
                           && unchanged(db))
              && (!more ==>
                    && current == old(current) && finished && saving
                    && saved.Some? && saved.value.Obj?
                    && Chain(saved, "quizId") == Prop(old(quiz), "id").value
                    && Chain(saved, "score") == Some(Num(newScore))
                    && Chain(saved, "total") == total
                    && QuizResultSaved(old(db.stores), old(db.version), old(db.nextQuizKey), saved.value,
                                       db.stores, db.version, db.nextQuizKey)
                    && (questions.value.Arr? && !old(finished) ==> newScore <= |questions.value.items|)))
    {
      saved := None;
      if !Truthy(Some(quiz)) || saving {
        return Ok(()), None;
      }
      var questions := Prop(quiz, "questions").value;
      var answer := AnswerAt(questions, current);
      if answer.Err? {
        return Err(answer.error), None;
      }
      var newScore := score + if StrictEq(choice, answer.value) then 1 else 0;
      score := newScore;
      var total := Prop(questions.value, "length").value;
      if total.Some? && total.value.Num? && current + 1 < total.value.n {
        current := current + 1;
        return Ok(()), None;
      }
      finished := true;
      saving := true;
      var record := ResultRecord(Prop(quiz, "id").value, newScore, total, date);
      if questions.value.Arr? && !old(finished) {
        QuestionIndexInRange(questions.value.items, current);
      }
      SaveResult(db, record);
      saved := Some(record);
      r := Ok(());
    }

    /** The `finally` of the save: answers are accepted again. */
    method SaveSettled()
      modifies this
      ensures !saving
      ensures quiz == old(quiz) && current == old(current) && score == old(score) && finished == old(finished)
    {
      saving := false;
    }
  }

  /** The saved result `{ quizId: quiz.id, score, total, date }`. The model
      drops a field whose value is undefined, where the structured clone
      that stores it would keep the key with an undefined value. */
  function ResultRecord(id: Option<Json>, score: nat, total: Option<Json>, date: string): (r: Json)
    ensures r.Obj?
    ensures Chain(Some(r), "quizId") == id && Chain(Some(r), "score") == Some(Num(score))
    ensures Chain(Some(r), "total") == total && Chain(Some(r), "date") == Some(Str(date))
    ensures r.fields.Keys <= {"quizId", "score", "total", "date"}
  {
    var fields := map["score" := Num(score), "date" := Str(date)];
    var withId := if id.Some? then fields["quizId" := id.value] else fields;
    Obj(if total.Some? then withId["total" := total.value] else withId)
  }

  /** `await saveQuizResult(record)` for a record without an `id`; a
      failure is caught and only logged. */
  method SaveResult(db: Database, record: Json)
    requires db.Valid() && record.Obj? && "id" !in record.fields
    modifies db
    ensures db.Valid()
    ensures QuizResultSaved(old(db.stores), old(db.version), old(db.nextQuizKey), record,
                            db.stores, db.version, db.nextQuizKey)
  {
    var _ := db.SaveQuizResult(record);
  }

  /** A question read from an array sits at an index below its length. */
  lemma QuestionIndexInRange(xs: seq<Json>, i: nat)
    ensures Prop(Arr(xs), NatToString(i)).Ok? && Prop(Arr(xs), NatToString(i)).value.Some? ==> i < |xs|
  {
    NatToStringRoundTrip(i);
    NatToStringLeading(i);
  }
}
