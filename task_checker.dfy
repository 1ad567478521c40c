/**
 * The answer-checking tools of `agents/definitions/task_checker.py`:
 * `CheckMultipleChoiceAnswerTool`, which grades a numbered choice against
 * the task's options, and the post-processing `CheckCreativeAnswerTool`
 * applies to the verdict of the OpenRouter client. That verdict is the
 * argument `verdict` (None when the call raises); `errText` is the text of
 * whatever exception was raised. `keyOrder` lists a dictionary's keys in
 * insertion order, which iterating it follows.
 */
module TaskChecker {
  import opened Wrappers
  import opened Values
  import Text
  import OpenRouter

  type Repr = Value -> string
  type KeyOrder = Dict -> seq<string>

  const Choices: seq<string> := ["1", "2", "3", "4"]
  const AnswerHead := "Ответ '"
  const BadFormatTail := "' не соответствует формату задачи с множественным выбором (1, 2, 3, 4)."
  const NoCorrectOption := "Не удалось определить правильный ответ в задаче."
  const NoMatchTail := "' не соответствует ни одному из вариантов."
  const RightHead := "Верно! "
  const WrongHead := "Неверно. "
  const CorrectIsHead := " Правильный ответ - "
  const StudyHead := "Изучите понятие '"
  const StudyTail := "' более внимательно."
  const ErrorHead := "Произошла ошибка при проверке ответа: "
  const TryAgain := "Попробуйте еще раз."

  // ---------------------------------------------------------------------
  // The `next(...)` searches over the options
  // ---------------------------------------------------------------------

  /** `opt[key]`; None when it raises. */
  function Field(opt: Value, key: string): Option<Value>
  {
    if opt.Obj? && key in opt.fields then Some(opt.fields[key]) else None
  }

  /** What a search tests: `opt[key]` is truthy, or `opt[key]` equals a value. */
  datatype Test = TruthyAt(key: string) | EqualsAt(key: string, want: Value)

  predicate Passes(t: Test, v: Value)
  {
    match t
    case TruthyAt(_) => Truthy(v)
    case EqualsAt(_, w) => v == w
  }

  /** How a search ends. */
  datatype Search = Found(option: Dict) | NotFound | Raised

  /** `next((opt for opt in xs if test(opt)), None)`: the first option passing, or the first the test raises on. */
  function FirstWhere(xs: seq<Value>, t: Test): Search
  {
    if xs == [] then NotFound
    else
      match Field(xs[0], t.key)
      case None => Raised
      case Some(v) => if Passes(t, v) then Found(xs[0].fields) else FirstWhere(xs[1..], t)
  }

  /** An option the test can read and rejects. */
  predicate Rejected(x: Value, t: Test)
  {
    Field(x, t.key).Some? && !Passes(t, Field(x, t.key).value)
  }

  /** When every option before `k` is rejected and `xs[k]` passes, the search finds `xs[k]`. */
  lemma {:induction false} FirstWhereAt(xs: seq<Value>, t: Test, k: nat)
    requires k < |xs| && Field(xs[k], t.key).Some? && Passes(t, Field(xs[k], t.key).value)
    requires forall j :: 0 <= j < k ==> Rejected(xs[j], t)
    ensures FirstWhere(xs, t) == Found(xs[k].fields)
  {
    if k > 0 {
      assert Rejected(xs[0], t);
      assert forall j :: 0 <= j < k - 1 ==> xs[1..][j] == xs[j + 1];
      FirstWhereAt(xs[1..], t, k - 1);
    }
  }

  /** The search finds nothing exactly when every option is rejected. */
  lemma {:induction false} FirstWhereNotFound(xs: seq<Value>, t: Test)
    ensures FirstWhere(xs, t) == NotFound <==> forall k :: 0 <= k < |xs| ==> Rejected(xs[k], t)
  {
    if xs != [] {
      FirstWhereNotFound(xs[1..], t);
      assert forall k :: 1 <= k < |xs| ==> xs[1..][k - 1] == xs[k];
    }
  }

  /** What the search finds is an option of the list that passes the test. */
  lemma {:induction false} FirstWhereFound(xs: seq<Value>, t: Test)
    requires FirstWhere(xs, t).Found?
    ensures Obj(FirstWhere(xs, t).option) in xs
    ensures t.key in FirstWhere(xs, t).option && Passes(t, FirstWhere(xs, t).option[t.key])
  {
    if Field(xs[0], t.key).Some? && !Passes(t, Field(xs[0], t.key).value) {
      FirstWhereFound(xs[1..], t);
    }
  }

  // ---------------------------------------------------------------------
  // CheckMultipleChoiceAnswerTool
  // ---------------------------------------------------------------------

  /**
   * The grading once the choice has the right format, comparing option
   * labels with `wanted`; None when a lookup raises.
   */
  function GradeChoice(task: Dict, choice: string, wanted: string, repr: Repr): Option<Dict>
  {
    if "options" !in task then None
    else
      match SubscriptedItems(task["options"])
      case None => None
      case Some(xs) =>
        match FirstWhere(xs, TruthyAt("is_correct"))
        case Raised => None
        case NotFound => Some(map["is_correct" := Bool(false), "explanation" := Str(NoCorrectOption)])
        case Found(c) =>
          if "label" !in c then None
          else
            var isCorrect := c["label"] == Str(wanted);
            match FirstWhere(xs, EqualsAt("label", Str(wanted)))
            case Raised => None
            case NotFound => Some(map["is_correct" := Bool(false), "explanation" := Str(AnswerHead + choice + NoMatchTail)])
            case Found(sel) =>
              if "explanation" !in sel || "explanation" !in c || (!isCorrect && "concept_name" !in task) then None
              else
                var explanation :=
                  if isCorrect then RightHead + Show(sel["explanation"], repr)
                  else WrongHead + Show(sel["explanation"], repr) + CorrectIsHead + Show(c["label"], repr) + ": " + Show(c["explanation"], repr);
                var recommendations := if isCorrect then [] else [Str(StudyHead + Show(task["concept_name"], repr) + StudyTail)];
                Some(map["is_correct" := Bool(isCorrect), "explanation" := Str(explanation), "correct_answer" := c["label"],
                         "correct_explanation" := c["explanation"], "recommendations" := List(recommendations)])
  }

  /** The result of the tool when it raises. */
  function ChoiceError(errText: string): Dict
  {
    map["is_correct" := Bool(false), "explanation" := Str(ErrorHead + errText), "recommendations" := List([Str(TryAgain)])]
  }

  /** The tool's result for a choice that has the right format, with labels compared against `wanted`. */
  function CheckChoiceAgainst(task: Dict, choice: string, wanted: string, repr: Repr, errText: string): Dict
  {
    if choice !in Choices then map["is_correct" := Bool(false), "explanation" := Str(AnswerHead + choice + BadFormatTail)]
    else match GradeChoice(task, choice, wanted, repr) case Some(r) => r case None => ChoiceError(errText)
  }

  /** `CheckMultipleChoiceAnswerTool._run` as written: the trimmed digit is compared with the labels. */
  function CheckChoice(task: Dict, studentAnswer: string, repr: Repr, errText: string): Dict
  {
    var choice := Text.Strip(studentAnswer);
    CheckChoiceAgainst(task, choice, choice, repr, errText)
  }

  /** A trimmed answer other than "1" to "4" is not correct. */
  lemma BadFormatNotCorrect(task: Dict, studentAnswer: string, repr: Repr, errText: string)
    requires Text.Strip(studentAnswer) !in Choices
    ensures CheckChoice(task, studentAnswer, repr, errText)["is_correct"] == Bool(false)
  {
  }

  /** Every outcome of the tool carries a verdict and an explanation; any failure asks to try again. */
  lemma ChoiceResultShape(task: Dict, studentAnswer: string, repr: Repr, errText: string)
    ensures var r := CheckChoice(task, studentAnswer, repr, errText);
      "is_correct" in r && r["is_correct"].Bool? && "explanation" in r
    ensures var choice := Text.Strip(studentAnswer);
      choice in Choices && GradeChoice(task, choice, choice, repr).None? ==>
        CheckChoice(task, studentAnswer, repr, errText) == ChoiceError(errText)
  {
  }

  /** With no option flagged correct, the answer is not correct. */
  lemma NoCorrectOptionNotCorrect(task: Dict, studentAnswer: string, xs: seq<Value>, repr: Repr, errText: string)
    requires "options" in task && task["options"] == List(xs)
    requires forall k :: 0 <= k < |xs| ==> Rejected(xs[k], TruthyAt("is_correct"))
    ensures CheckChoice(task, studentAnswer, repr, errText)["is_correct"] == Bool(false)
  {
    FirstWhereNotFound(xs, TruthyAt("is_correct"));
  }

  /**
   * The answer is graded correct exactly when the first option flagged
   * correct has the trimmed answer as its label (given that grading did not
   * raise on a missing key).
   */
  lemma CorrectIffFirstCorrectLabel(task: Dict, studentAnswer: string, xs: seq<Value>, repr: Repr, errText: string)
    requires "options" in task && task["options"] == List(xs)
    requires Text.Strip(studentAnswer) in Choices
    requires GradeChoice(task, Text.Strip(studentAnswer), Text.Strip(studentAnswer), repr).Some?
    ensures var choice := Text.Strip(studentAnswer);
      CheckChoice(task, studentAnswer, repr, errText)["is_correct"] == Bool(true)
      <==> (FirstWhere(xs, TruthyAt("is_correct")).Found? && Get(FirstWhere(xs, TruthyAt("is_correct")).option, "label") == Str(choice))
  {
    var choice := Text.Strip(studentAnswer);
    var c := FirstWhere(xs, TruthyAt("is_correct"));
    if c.Found? && Get(c.option, "label") == Str(choice) {
      FirstWhereFound(xs, TruthyAt("is_correct"));
      var sel := FirstWhere(xs, EqualsAt("label", Str(choice)));
      if sel == NotFound {
        FirstWhereNotFound(xs, EqualsAt("label", Str(choice)));
      }
    }
  }

  /** An answer that is no option's label is not correct. */
  lemma UnmatchedChoiceNotCorrect(task: Dict, studentAnswer: string, xs: seq<Value>, repr: Repr, errText: string)
    requires "options" in task && task["options"] == List(xs)
    requires forall k :: 0 <= k < |xs| ==> Field(xs[k], "label") != Some(Str(Text.Strip(studentAnswer)))
    ensures CheckChoice(task, studentAnswer, repr, errText)["is_correct"] == Bool(false)
  {
    var choice := Text.Strip(studentAnswer);
    var c := FirstWhere(xs, TruthyAt("is_correct"));
    var sel := FirstWhere(xs, EqualsAt("label", Str(choice)));
    if c.Found? {
      FirstWhereFound(xs, TruthyAt("is_correct"));
    }
    if sel.Found? {
      FirstWhereFound(xs, EqualsAt("label", Str(choice)));
    }
  }

  /**
   * A completed grading names the correct label and its explanation, and
   * carries a recommendation exactly when the answer is wrong.
   */
  lemma CompletedGradingFacts(task: Dict, choice: string, wanted: string, repr: Repr)
    requires GradeChoice(task, choice, wanted, repr).Some? && "correct_answer" in GradeChoice(task, choice, wanted, repr).value
    ensures var r := GradeChoice(task, choice, wanted, repr).value;
      var xs := SubscriptedItems(task["options"]).value;
      FirstWhere(xs, TruthyAt("is_correct")).Found?
      && r["correct_answer"] == FirstWhere(xs, TruthyAt("is_correct")).option["label"]
      && r["correct_explanation"] == FirstWhere(xs, TruthyAt("is_correct")).option["explanation"]
      && r["recommendations"].List?
      && (r["recommendations"].items != [] <==> r["is_correct"] == Bool(false))
      && (r["is_correct"] == Bool(true) <==> r["correct_answer"] == Str(wanted))
  {
  }

  // ---------------------------------------------------------------------
  // The digit-against-letter mismatch, and its correction
  // ---------------------------------------------------------------------

  /** None of the options carries a digit label "1" to "4", as with letter labels. */
  predicate LetterLabelled(xs: seq<Value>)
  {
    forall k, d :: 0 <= k < |xs| && d in Choices ==> Field(xs[k], "label") != Some(Str(d))
  }

  /** As written, no answer is ever correct on a task whose options are labelled by letters. */
  lemma LetterLabelsNeverCorrect(task: Dict, studentAnswer: string, xs: seq<Value>, repr: Repr, errText: string)
    requires "options" in task && task["options"] == List(xs) && LetterLabelled(xs)
    ensures CheckChoice(task, studentAnswer, repr, errText)["is_correct"] == Bool(false)
  {
    var choice := Text.Strip(studentAnswer);
    if choice in Choices {
      UnmatchedChoiceNotCorrect(task, studentAnswer, xs, repr, errText);
    }
  }

  /** The fallback options carry the letters A to D. */
  lemma FallbackOptionsLettered(definition: Value)
    ensures LetterLabelled(OpenRouter.FallbackOptions(definition))
  {
    OpenRouter.FallbackOptionsShape(definition);
    assert OpenRouter.Letter(0) == "A" && OpenRouter.Letter(1) == "B" && OpenRouter.Letter(2) == "C" && OpenRouter.Letter(3) == "D";
  }

  /** In particular the fallback task the OpenRouter client builds, lettered A to D, cannot be answered correctly. */
  lemma FallbackTaskUnanswerable(concept: Dict, difficulty: string, answer: string, repr: Repr, errText: string)
    ensures var task := OpenRouter.ApiFallbackTask(concept, "template", difficulty, repr);
      CheckChoice(task, answer, repr, errText)["is_correct"] == Bool(false)
  {
    var task := OpenRouter.ApiFallbackTask(concept, "template", difficulty, repr);
    var definition := GetOr(concept, "definition", Str(OpenRouter.RightDefault));
    OpenRouter.ApiFallbackTemplate(concept, difficulty, repr);
    FallbackOptionsLettered(definition);
    LetterLabelsNeverCorrect(task, answer, OpenRouter.FallbackOptions(definition), repr, errText);
  }

  /** The letter a digit choice stands for: "1" is "A", ..., "4" is "D". */
  function ChoiceLetter(choice: string): string
  {
    if choice == "1" then "A" else if choice == "2" then "B" else if choice == "3" then "C" else if choice == "4" then "D" else choice
  }

  /** The tool with the digit read as the position's letter, which is what lettered options need. */
  function CheckChoiceCorrected(task: Dict, studentAnswer: string, repr: Repr, errText: string): Dict
  {
    var choice := Text.Strip(studentAnswer);
    CheckChoiceAgainst(task, choice, ChoiceLetter(choice), repr, errText)
  }

  /** With the correction, "1" is correct when the first option is the correct "A" and has an explanation. */
  lemma CorrectedFirstOption(task: Dict, xs: seq<Value>, repr: Repr, errText: string)
    requires "options" in task && task["options"] == List(xs) && |xs| > 0
    requires Field(xs[0], "is_correct") == Some(Bool(true)) && Field(xs[0], "label") == Some(Str("A"))
    requires Field(xs[0], "explanation").Some?
    ensures CheckChoiceCorrected(task, "1", repr, errText)["is_correct"] == Bool(true)
  {
    assert Text.Strip("1") == "1" by { Text.StripFacts("1"); }
    FirstWhereAt(xs, TruthyAt("is_correct"), 0);
    FirstWhereAt(xs, EqualsAt("label", Str("A")), 0);
  }

  /** With the correction, choosing "1" on the fallback task is graded correct. */
  lemma CorrectedFallbackAnswerable(concept: Dict, difficulty: string, repr: Repr, errText: string)
    ensures var task := OpenRouter.ApiFallbackTask(concept, "template", difficulty, repr);
      CheckChoiceCorrected(task, "1", repr, errText)["is_correct"] == Bool(true)
  {
    var task := OpenRouter.ApiFallbackTask(concept, "template", difficulty, repr);
    var definition := GetOr(concept, "definition", Str(OpenRouter.RightDefault));
    OpenRouter.ApiFallbackTemplate(concept, difficulty, repr);
    var xs := OpenRouter.FallbackOptions(definition);
    assert Field(xs[0], "explanation").Some?;
    OpenRouter.FallbackOptionsShape(definition);
    assert OpenRouter.Letter(0) == "A";
    CorrectedFirstOption(task, xs, repr, errText);
  }

  // ---------------------------------------------------------------------
  // CheckCreativeAnswerTool
  // ---------------------------------------------------------------------

  const CourseHead := "Верно! Как сказано в курсе: '"
  const CourseExampleHead := "\n\nПример из курса: "
  const CriteriaHead := "Обратите внимание на критерии оценки: "
  const CreativeTryAgain := "Попробуйте еще раз. Убедитесь, что ваш ответ соответствует заданию."

  /** The strings of a list whose items are all strings. */
  function AllStrings(xs: seq<Value>): Option<seq<string>>
  {
    if xs == [] then Some([])
    else if !xs[0].Str? then None
    else match AllStrings(xs[1..]) case None => None case Some(rest) => Some([xs[0].s] + rest)
  }

  /** The one-character strings of a string, as iterating it gives them. */
  function Chars(s: string): seq<string>
  {
    seq(|s|, i requires 0 <= i < |s| => [s[i]])
  }

  /**
   * `", ".join(v)`: a list joins its items, a string its characters and a
   * dictionary its keys; None when a list item is not a string or `v` is
   * not iterable.
   */
  function JoinCriteria(v: Value, keyOrder: KeyOrder): Option<string>
  {
    match v
    case List(xs) => (match AllStrings(xs) case Some(ss) => Some(Text.Join(", ", ss)) case None => None)
    case Str(s) => Some(Text.Join(", ", Chars(s)))
    case Obj(m) => Some(Text.Join(", ", keyOrder(m)))
    case _ => None
  }

  lemma {:induction false} AllStringsIff(xs: seq<Value>)
    ensures AllStrings(xs).Some? <==> forall i :: 0 <= i < |xs| ==> xs[i].Str?
    ensures AllStrings(xs).Some? ==>
      |AllStrings(xs).value| == |xs| && forall i :: 0 <= i < |xs| ==> AllStrings(xs).value[i] == xs[i].s
  {
    if xs != [] {
      AllStringsIff(xs[1..]);
      if AllStrings(xs).Some? {
        forall i | 0 <= i < |xs| ensures AllStrings(xs).value[i] == xs[i].s {
          if i > 0 { assert xs[1..][i - 1] == xs[i]; }
        }
      }
      if !AllStrings(xs).Some? && xs[0].Str? {
        var i :| 0 <= i < |xs[1..]| && !xs[1..][i].Str?;
        assert xs[i + 1] == xs[1..][i];
      }
    }
  }

  /**
   * The criteria can be joined exactly when they are a string, a dictionary
   * or a list of strings; a single criterion or a one-key dictionary is its
   * text alone.
   */
  lemma CriteriaJoinFacts(v: Value, keyOrder: KeyOrder, key: string)
    ensures JoinCriteria(v, keyOrder).Some? <==>
      v.Str? || v.Obj? || (v.List? && forall i :: 0 <= i < |v.items| ==> v.items[i].Str?)
    ensures v.List? && |v.items| == 1 && v.items[0].Str? ==> JoinCriteria(v, keyOrder) == Some(v.items[0].s)
    ensures v.Obj? && v.fields.Keys == {key} && keyOrder(v.fields) == [key] ==> JoinCriteria(v, keyOrder) == Some(key)
  {
    if v.List? { AllStringsIff(v.items); }
  }

  /** `explanation += text`: strings concatenate, a list is extended by the characters; anything else raises. */
  function AppendText(v: Value, text: string): Option<Value>
  {
    match v
    case Str(s) => Some(Str(s + text))
    case List(xs) => Some(List(xs + seq(|text|, i requires 0 <= i < |text| => Str([text[i]]))))
    case _ => None
  }

  /** The tool's changes to the verdict; None when one of them raises. */
  function FinishCreative(verdict: Dict, task: Dict, concept: Dict, repr: Repr, keyOrder: KeyOrder): Option<Dict>
  {
    var r1 := if "recommendations" !in verdict then verdict["recommendations" := List([])] else verdict;
    if Truthy(GetOr(r1, "is_correct", Bool(false))) then
      var definition := GetOr(concept, "definition", Str(""));
      var r2 := if Truthy(definition) then r1["explanation" := Str(CourseHead + Show(definition, repr) + "'")] else r1;
      var example := GetOr(concept, "example", Str(""));
      if !Truthy(example) then Some(r2)
      else if "explanation" !in r2 then None
      else match AppendText(r2["explanation"], CourseExampleHead + Show(example, repr))
        case None => None
        case Some(e) => Some(r2["explanation" := e])
    else
      var recs := r1["recommendations"];
      if !recs.List? || "concept_name" !in task || "criteria" !in task then None
      else match JoinCriteria(task["criteria"], keyOrder)
        case None => None
        case Some(criteria) =>
          Some(r1["recommendations" := List(recs.items + [Str(StudyHead + Show(task["concept_name"], repr) + StudyTail),
                                                          Str(CriteriaHead + criteria)])])
  }

  /** The result of the tool when it raises. */
  function CreativeError(errText: string): Dict
  {
    map["is_correct" := Bool(false), "score" := Int(0), "explanation" := Str(ErrorHead + errText),
        "feedback" := Str(CreativeTryAgain), "recommendations" := List([Str(TryAgain)])]
  }

  /** `CheckCreativeAnswerTool._run`. */
  function CheckCreative(verdict: Option<Dict>, task: Dict, concept: Dict, repr: Repr, keyOrder: KeyOrder,
                         errText: string): Dict
  {
    match verdict
    case None => CreativeError(errText)
    case Some(v) => match FinishCreative(v, task, concept, repr, keyOrder) case Some(r) => r case None => CreativeError(errText)
  }

  /**
   * A wrong creative answer gets exactly two more recommendations after the
   * ones it had: the concept to study and the joined criteria. The tool
   * succeeds on a wrong answer exactly when the recommendations are a list,
   * the task names its concept and its criteria can be joined.
   */
  lemma CreativeWrongAddsTwo(verdict: Dict, task: Dict, concept: Dict, repr: Repr, keyOrder: KeyOrder)
    requires !Truthy(GetOr(verdict, "is_correct", Bool(false)))
    ensures FinishCreative(verdict, task, concept, repr, keyOrder).Some? <==>
      GetOr(verdict, "recommendations", List([])).List? && "concept_name" in task && "criteria" in task
      && JoinCriteria(task["criteria"], keyOrder).Some?
    ensures FinishCreative(verdict, task, concept, repr, keyOrder).Some? ==>
      var before := GetOr(verdict, "recommendations", List([]));
      var after := FinishCreative(verdict, task, concept, repr, keyOrder).value["recommendations"];
      after == List(before.items + [Str(StudyHead + Show(task["concept_name"], repr) + StudyTail),
                                    Str(CriteriaHead + JoinCriteria(task["criteria"], keyOrder).value)])
  {
  }

  /** A correct creative answer keeps its recommendations; the tool changes nothing but those two fields. */
  lemma CreativeKeepsOtherFields(verdict: Dict, task: Dict, concept: Dict, repr: Repr, keyOrder: KeyOrder)
    requires FinishCreative(verdict, task, concept, repr, keyOrder).Some?
    ensures var r := FinishCreative(verdict, task, concept, repr, keyOrder).value;
      verdict.Keys + {"recommendations"} <= r.Keys <= verdict.Keys + {"recommendations", "explanation"}
      && (forall k :: k in verdict && k != "recommendations" && k != "explanation" ==> r[k] == verdict[k])
      && (Truthy(GetOr(verdict, "is_correct", Bool(false))) ==> r["recommendations"] == GetOr(verdict, "recommendations", List([])))
  {
  }

  /** A correct answer quotes the course's definition when the concept has one and no example. */
  lemma CreativeCorrectQuotesCourse(verdict: Dict, task: Dict, concept: Dict, repr: Repr, keyOrder: KeyOrder)
    requires Truthy(GetOr(verdict, "is_correct", Bool(false)))
    requires Truthy(GetOr(concept, "definition", Str(""))) && !Truthy(GetOr(concept, "example", Str("")))
    ensures FinishCreative(verdict, task, concept, repr, keyOrder).Some?
    ensures FinishCreative(verdict, task, concept, repr, keyOrder).value["explanation"]
         == Str(CourseHead + Show(concept["definition"], repr) + "'")
  {
  }
}
