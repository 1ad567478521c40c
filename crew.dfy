/**
 * The tutor crew of `agents/crew.py`: grading of an answer with the
 * per-student streak of correct answers, the fallback task, the difficulty
 * adaptation and the JSON extraction from a model's reply.
 *
 * A task and a grading result are dictionaries. What the language model says
 * about a creative answer is the argument `api`, and `errText` stands for the
 * text of an exception that escapes to the outermost handler.
 */
module Crew {
  import opened Wrappers
  import opened Values
  import Text

  // ---------------------------------------------------------------------
  // Follow-up actions
  // ---------------------------------------------------------------------

  /** A follow-up button: an action and its caption. */
  function StepObj(action: string, text: string): Value
  {
    Obj(map["action" := Str(action), "text" := Str(text)])
  }

  /** The follow-ups offered when a template-task streak is complete. */
  const PromotionTemplate: seq<Value> :=
    [StepObj("change_chapter", "Перейти к следующей главе"),
     StepObj("increase_difficulty", "Повысить сложность задач"),
     StepObj("change_task_type", "Попробовать творческую задачу")]

  /** The follow-ups offered when a creative-task streak is complete. */
  const PromotionCreative: seq<Value> :=
    [StepObj("change_chapter", "Перейти к следующей главе"),
     StepObj("increase_difficulty", "Повысить сложность задач"),
     StepObj("change_task_type", "Попробовать шаблонную задачу")]

  /** The follow-ups offered after a wrong answer. */
  const RetrySteps: seq<Value> :=
    [StepObj("discuss", "Обсудить задачу"),
     StepObj("try_again", "Попробовать ещё раз"),
     StepObj("skip", "Пропустить задачу")]

  /** How many correct answers in a row earn the promotion. */
  const StreakGoal := 5

  // ---------------------------------------------------------------------
  // Streak counters
  // ---------------------------------------------------------------------

  /** The streaks, by student id. */
  type Counts = map<string, int>

  /** `correct_answers_count.get(student_id, 0)`. */
  function Count(counts: Counts, id: string): int
  {
    if id in counts then counts[id] else 0
  }

  /** After a correct answer: the counter goes up, and a full streak resets it and offers `promotion`. */
  function AfterCorrect(counts: Counts, id: string, promotion: seq<Value>): (Counts, seq<Value>)
  {
    var n := Count(counts, id) + 1;
    if n >= StreakGoal then (counts[id := 0], promotion) else (counts[id := n], [])
  }

  /** After a wrong answer the counter is reset. */
  function AfterWrong(counts: Counts, id: string): Counts
  {
    counts[id := 0]
  }

  /** Every counter lies below the goal. */
  predicate CountsOk(counts: Counts)
  {
    forall s :: s in counts ==> 0 <= counts[s] < StreakGoal
  }

  /** The counters the crew keeps after a sequence of graded answers of one student, oldest first. */
  function Replay(counts: Counts, id: string, outcomes: seq<bool>): Counts
  {
    if outcomes == [] then counts
    else
      var before := Replay(counts, id, outcomes[..|outcomes| - 1]);
      if outcomes[|outcomes| - 1] then AfterCorrect(before, id, PromotionTemplate).0 else AfterWrong(before, id)
  }

  /** How many answers at the end of `outcomes` are correct. */
  function TrailingCorrect(outcomes: seq<bool>): nat
  {
    if outcomes == [] || !outcomes[|outcomes| - 1] then 0 else 1 + TrailingCorrect(outcomes[..|outcomes| - 1])
  }

  /** Both updates touch the answering student only and keep every counter below the goal. */
  lemma StreakUpdatesKeepOthers(counts: Counts, id: string, other: string, promotion: seq<Value>)
    requires CountsOk(counts) && other != id
    ensures CountsOk(AfterCorrect(counts, id, promotion).0) && CountsOk(AfterWrong(counts, id))
    ensures Count(AfterCorrect(counts, id, promotion).0, other) == Count(counts, other)
    ensures Count(AfterWrong(counts, id), other) == Count(counts, other)
  {
  }

  /**
   * Starting from a student with no counter, the counter after any run of
   * answers is the number of correct answers since the last wrong one,
   * modulo the goal: a full streak starts over.
   */
  lemma {:induction false} ReplayCount(counts: Counts, id: string, outcomes: seq<bool>)
    requires Count(counts, id) == 0
    ensures Count(Replay(counts, id, outcomes), id) == TrailingCorrect(outcomes) % StreakGoal
  {
    if outcomes != [] {
      var init := outcomes[..|outcomes| - 1];
      ReplayCount(counts, id, init);
      var c := Count(Replay(counts, id, init), id);
      assert 0 <= c < StreakGoal;
      if outcomes[|outcomes| - 1] {
        assert TrailingCorrect(outcomes) == 1 + TrailingCorrect(init);
      }
    }
  }

  /** The promotion is offered exactly on every fifth correct answer in a row. */
  lemma PromotionOnFifth(counts: Counts, id: string, outcomes: seq<bool>)
    requires Count(counts, id) == 0
    ensures AfterCorrect(Replay(counts, id, outcomes), id, PromotionTemplate).1 == PromotionTemplate
        <==> (TrailingCorrect(outcomes) + 1) % StreakGoal == 0
  {
    ReplayCount(counts, id, outcomes);
  }

  /** Other students' counters are never touched by one student's answers. */
  lemma {:induction false} ReplayIndependent(counts: Counts, id: string, other: string, outcomes: seq<bool>)
    requires other != id
    ensures Count(Replay(counts, id, outcomes), other) == Count(counts, other)
  {
    if outcomes != [] {
      ReplayIndependent(counts, id, other, outcomes[..|outcomes| - 1]);
    }
  }

  // ---------------------------------------------------------------------
  // Grading a template task
  // ---------------------------------------------------------------------

  /** Where the scan over the options ends: at the chosen correct option, after all of them, or in an exception. */
  datatype Scan = Selected(option: Dict) | NoneSelected | Raised

  /** The option is flagged correct and carries the answer as its label. */
  predicate Selects(option: Value, answer: string)
  {
    option.Obj? && Truthy(GetOr(option.fields, "is_correct", Bool(false)))
    && GetOr(option.fields, "label", Str("")) == Str(answer)
  }

  /** The scan over a list of options; `.get` on anything but a dictionary raises. */
  function FirstSelected(options: seq<Value>, answer: string): Scan
  {
    if options == [] then NoneSelected
    else if !options[0].Obj? then Raised
    else if Selects(options[0], answer) then Selected(options[0].fields)
    else FirstSelected(options[1..], answer)
  }

  /** The scan over `task.get("options", [])`: iterating a string or a dictionary yields strings, which have no `.get`. */
  function ScanOptions(options: Value, answer: string): Scan
  {
    match options
    case List(xs) => FirstSelected(xs, answer)
    case Str(s) => if s == "" then NoneSelected else Raised
    case Obj(m) => if m == map[] then NoneSelected else Raised
    case _ => Raised
  }

  /** Over options that are all dictionaries, an option is selected iff one is flagged correct with the answer as label, and it is the first such. */
  lemma {:induction false} FirstSelectedSpec(options: seq<Value>, answer: string)
    requires forall i :: 0 <= i < |options| ==> options[i].Obj?
    ensures FirstSelected(options, answer) != Raised
    ensures FirstSelected(options, answer).Selected? <==> exists i :: 0 <= i < |options| && Selects(options[i], answer)
    ensures FirstSelected(options, answer).Selected? ==>
      exists i :: 0 <= i < |options| && Selects(options[i], answer) && options[i] == Obj(FirstSelected(options, answer).option)
              && forall j :: 0 <= j < i ==> !Selects(options[j], answer)
  {
    if options != [] && !Selects(options[0], answer) {
      FirstSelectedSpec(options[1..], answer);
      var r := FirstSelected(options[1..], answer);
      if r.Selected? {
        var i :| 0 <= i < |options[1..]| && Selects(options[1..][i], answer) && options[1..][i] == Obj(r.option)
                 && forall j :: 0 <= j < i ==> !Selects(options[1..][j], answer);
        assert Selects(options[i + 1], answer);
        assert forall j :: 0 < j < i + 1 ==> options[j] == options[1..][j - 1];
      }
      if exists i :: 0 <= i < |options| && Selects(options[i], answer) {
        var i :| 0 <= i < |options| && Selects(options[i], answer);
        assert options[1..][i - 1] == options[i];
      }
    } else if options != [] {
      assert Selects(options[0], answer);
    }
  }

  /** The scan the grading loop performs, written as that loop. */
  method ScanLoop(options: Value, answer: string) returns (r: Scan)
    ensures r == ScanOptions(options, answer)
  {
    if !options.List? {
      r := ScanOptions(options, answer);
      return;
    }
    var xs := options.items;
    var i := 0;
    while i < |xs|
      invariant 0 <= i <= |xs|
      invariant FirstSelected(xs, answer) == FirstSelected(xs[i..], answer)
    {
      assert xs[i..][1..] == xs[i + 1..];
      if !xs[i].Obj? {
        return Raised;
      }
      if Selects(xs[i], answer) {
        return Selected(xs[i].fields);
      }
      i := i + 1;
    }
    r := NoneSelected;
  }

  /** The answer as the template grading compares it. */
  function Normalised(answer: string): string
  {
    Text.Upper(Text.Strip(answer))
  }

  const ErrorHead := "Ошибка при проверке ответа: "
  const ErrorAdvice := "Попробуйте еще раз с другой задачей."
  const RightText := "Это правильный ответ."
  const RightAdvice := "Отлично! Продолжайте изучение."
  const WrongText := "Выбран неверный вариант ответа."
  const WrongAdvice := "Изучите материалы по данной теме."

  /** The result of the outermost exception handler. */
  function ErrorResult(errText: string): Dict
  {
    var msg := Str(ErrorHead + errText);
    map["is_correct" := Bool(false), "score" := Int(0), "explanation" := msg, "feedback" := msg,
        "recommendations" := List([Str(ErrorAdvice)]), "next_steps" := List([RetrySteps[2]])]
  }

  /** The template branch: the result and the new counters. */
  function GradeTemplate(counts: Counts, id: string, scan: Scan, errText: string): (Dict, Counts)
  {
    match scan
    case Raised => (ErrorResult(errText), counts)
    case Selected(option) =>
      var (c, steps) := AfterCorrect(counts, id, PromotionTemplate);
      (map["is_correct" := Bool(true), "explanation" := GetOr(option, "explanation", Str(RightText)),
           "recommendations" := List([Str(RightAdvice)]), "next_steps" := List(steps)],
       c)
    case NoneSelected =>
      (map["is_correct" := Bool(false), "explanation" := Str(WrongText),
           "recommendations" := List([Str(WrongAdvice)]), "next_steps" := List(RetrySteps)],
       AfterWrong(counts, id))
  }

  // ---------------------------------------------------------------------
  // Grading a creative task
  // ---------------------------------------------------------------------

  /** What came back from the language model: its verdict, a timeout, or an error (of the lookup or the call). */
  datatype ApiOutcome = Returned(result: Dict) | TimedOut | Failed

  const TimeoutText := "Не удалось проверить ответ из-за тайм-аута. Считаем ответ условно правильным."
  const TimeoutAdvice := "Продолжайте работу с материалом."
  const ApiErrorAdvice := "Продолжайте изучение материала."
  const ApiErrorText := "Произошла ошибка при проверке ответа, но ваш ответ принят."

  /** The model's verdict with the missing keys filled in: feedback from the explanation, no recommendations, and a score of 7 or 4. */
  function Completed(d: Dict): Dict
  {
    var d1 := if !Truthy(Get(d, "feedback")) && Truthy(Get(d, "explanation")) then d["feedback" := d["explanation"]] else d;
    var d2 := if "recommendations" !in d1 then d1["recommendations" := List([])] else d1;
    var correct := Truthy(GetOr(d2, "is_correct", Bool(false)));
    if "score" !in d2 then d2["score" := Int(if correct then 7 else 4)] else d2
  }

  /** The creative branch: the result and the new counters. */
  function GradeCreative(counts: Counts, id: string, api: ApiOutcome): (Dict, Counts)
  {
    match api
    case TimedOut =>
      (map["is_correct" := Bool(true), "score" := Int(6), "explanation" := Str(TimeoutText), "feedback" := Str(TimeoutText),
           "recommendations" := List([Str(TimeoutAdvice)]), "next_steps" := List([])],
       counts)
    case Failed =>
      (map["is_correct" := Bool(true), "score" := Int(5), "explanation" := Str(ApiErrorText), "feedback" := Str(ApiErrorText),
           "recommendations" := List([Str(ApiErrorAdvice)]), "next_steps" := List([])],
       counts)
    case Returned(d) =>
      var r := Completed(d);
      if Truthy(GetOr(r, "is_correct", Bool(false))) then
        var (c, steps) := AfterCorrect(counts, id, PromotionCreative);
        (r["next_steps" := List(steps)], c)
      else
        (r["next_steps" := List(RetrySteps)], AfterWrong(counts, id))
  }

  /** `async_check_answer`: a task without "task_type" raises a `KeyError` that the outermost handler turns into an error result. */
  function Checked(counts: Counts, id: string, task: Dict, answer: string, api: ApiOutcome, errText: string): (Dict, Counts)
  {
    if "task_type" !in task then (ErrorResult(errText), counts)
    else if task["task_type"] == Str("template") then
      GradeTemplate(counts, id, ScanOptions(GetOr(task, "options", List([])), Normalised(answer)), errText)
    else GradeCreative(counts, id, api)
  }

  /** The result counts as correct: its "is_correct" is truthy. */
  predicate Accepted(r: Dict)
  {
    Truthy(Get(r, "is_correct"))
  }

  /** A correct answer moves the counter up, or from the last step of a streak back to 0 with the promotion; other counters stay. */
  lemma AfterCorrectFacts(counts: Counts, id: string, promotion: seq<Value>)
    requires CountsOk(counts)
    ensures var (c, steps) := AfterCorrect(counts, id, promotion);
      CountsOk(c) && (forall s :: s != id ==> Count(c, s) == Count(counts, s))
      && (Count(counts, id) == StreakGoal - 1 ==> Count(c, id) == 0 && steps == promotion)
      && (Count(counts, id) < StreakGoal - 1 ==> Count(c, id) == Count(counts, id) + 1 && steps == [])
  {
  }

  /** The template branch reports correct exactly for a selected option, and each outcome updates the streak as described. */
  lemma GradeTemplateFacts(counts: Counts, id: string, scan: Scan, errText: string)
    ensures var (r, c) := GradeTemplate(counts, id, scan, errText);
      "is_correct" in r && r["is_correct"] == Bool(scan.Selected?) && "next_steps" in r
      && (scan.Raised? ==> c == counts)
      && (scan.NoneSelected? ==> c == AfterWrong(counts, id) && r["next_steps"] == List(RetrySteps))
      && (scan.Selected? ==> c == AfterCorrect(counts, id, PromotionTemplate).0
                             && r["next_steps"] == List(AfterCorrect(counts, id, PromotionTemplate).1))
  {
  }

  /**
   * The creative branch accepts on a timeout or an error and leaves the
   * streak alone; otherwise it follows the model's verdict and updates the
   * streak by it.
   */
  lemma GradeCreativeFacts(counts: Counts, id: string, api: ApiOutcome)
    ensures var (r, c) := GradeCreative(counts, id, api);
      "next_steps" in r
      && (!api.Returned? ==> c == counts && "is_correct" in r && r["is_correct"] == Bool(true) && r["next_steps"] == List([]))
      && (api.Returned? ==>
            (Accepted(r) <==> Truthy(GetOr(api.result, "is_correct", Bool(false))))
            && (Accepted(r) ==> c == AfterCorrect(counts, id, PromotionCreative).0
                                && r["next_steps"] == List(AfterCorrect(counts, id, PromotionCreative).1))
            && (!Accepted(r) ==> c == AfterWrong(counts, id) && r["next_steps"] == List(RetrySteps)))
  {
    if api.Returned? {
      CompletedFacts(api.result);
      var d := Completed(api.result);
      assert Get(d, "is_correct") == Get(api.result, "is_correct");
      var r := d["next_steps" := (if Truthy(GetOr(d, "is_correct", Bool(false))) then List(AfterCorrect(counts, id, PromotionCreative).1) else List(RetrySteps))];
      assert Get(r, "is_correct") == Get(d, "is_correct");
    }
  }

  /** A template answer over well-formed options is correct iff it names the label of an option flagged correct. */
  lemma TemplateCorrectIff(counts: Counts, id: string, options: seq<Value>, answer: string, api: ApiOutcome, errText: string)
    requires forall i :: 0 <= i < |options| ==> options[i].Obj?
    ensures var task := map["task_type" := Str("template"), "options" := List(options)];
      Accepted(Checked(counts, id, task, answer, api, errText).0)
      <==> exists i :: 0 <= i < |options| && Selects(options[i], Normalised(answer))
  {
    FirstSelectedSpec(options, Normalised(answer));
    GradeTemplateFacts(counts, id, FirstSelected(options, Normalised(answer)), errText);
  }

  /** A wrong template answer resets the streak and offers discuss, try again and skip. */
  lemma WrongTemplateResets(counts: Counts, id: string, task: Dict, answer: string, api: ApiOutcome, errText: string)
    requires "task_type" in task && task["task_type"] == Str("template")
    requires ScanOptions(GetOr(task, "options", List([])), Normalised(answer)) == NoneSelected
    ensures var (r, c) := Checked(counts, id, task, answer, api, errText);
      r["is_correct"] == Bool(false) && r["next_steps"] == List(RetrySteps) && Count(c, id) == 0
  {
  }

  /** A correct answer of either kind raises the streak, and a full streak offers the promotion and starts over. */
  lemma CorrectAdvancesStreak(counts: Counts, id: string, task: Dict, answer: string, api: ApiOutcome, errText: string)
    requires CountsOk(counts) && "task_type" in task
    requires Accepted(Checked(counts, id, task, answer, api, errText).0)
    requires task["task_type"] == Str("template") || api.Returned?
    ensures var (r, c) := Checked(counts, id, task, answer, api, errText);
      CountsOk(c)
      && (Count(counts, id) == StreakGoal - 1 ==> Count(c, id) == 0 && r["next_steps"] != List([]))
      && (Count(counts, id) < StreakGoal - 1 ==> Count(c, id) == Count(counts, id) + 1 && r["next_steps"] == List([]))
  {
    if task["task_type"] == Str("template") {
      GradeTemplateFacts(counts, id, ScanOptions(GetOr(task, "options", List([])), Normalised(answer)), errText);
      AfterCorrectFacts(counts, id, PromotionTemplate);
    } else {
      GradeCreativeFacts(counts, id, api);
      AfterCorrectFacts(counts, id, PromotionCreative);
    }
  }

  /** One grading changes at most the answering student's counter. */
  lemma CheckedKeepsOthers(counts: Counts, id: string, other: string, task: Dict, answer: string, api: ApiOutcome, errText: string)
    requires CountsOk(counts) && other != id
    ensures CountsOk(Checked(counts, id, task, answer, api, errText).1)
    ensures Count(Checked(counts, id, task, answer, api, errText).1, other) == Count(counts, other)
  {
    if "task_type" in task {
      if task["task_type"] == Str("template") {
        GradeTemplateFacts(counts, id, ScanOptions(GetOr(task, "options", List([])), Normalised(answer)), errText);
        AfterCorrectFacts(counts, id, PromotionTemplate);
      } else {
        GradeCreativeFacts(counts, id, api);
        AfterCorrectFacts(counts, id, PromotionCreative);
      }
    }
  }

  /** A timeout or an error of the model leaves the streak as it was and accepts the answer with score 6 or 5. */
  lemma CreativeFailuresKeepStreak(counts: Counts, id: string, task: Dict, answer: string, api: ApiOutcome, errText: string)
    requires "task_type" in task && task["task_type"] != Str("template") && !api.Returned?
    ensures var (r, c) := Checked(counts, id, task, answer, api, errText);
      c == counts && r["is_correct"] == Bool(true) && r["next_steps"] == List([])
      && r["score"] == Int(if api.TimedOut? then 6 else 5)
  {
  }

  /** The model's verdict keeps what it said and fills the gaps: a missing score is 7 when correct and 4 otherwise, a blank feedback takes a non-blank explanation. */
  lemma CompletedFacts(d: Dict)
    ensures forall k :: k in d && k != "feedback" ==> k in Completed(d) && Completed(d)[k] == d[k]
    ensures forall k :: k in Completed(d) ==> k in d || k == "feedback" || k == "recommendations" || k == "score"
    ensures "score" !in d ==> Completed(d)["score"] == Int(if Truthy(GetOr(d, "is_correct", Bool(false))) then 7 else 4)
    ensures "recommendations" in Completed(d)
    ensures !Truthy(Get(d, "feedback")) && Truthy(Get(d, "explanation")) ==> Completed(d)["feedback"] == d["explanation"]
    ensures Truthy(Get(d, "feedback")) ==> Completed(d)["feedback"] == d["feedback"]
  {
  }

  // ---------------------------------------------------------------------
  // The crew object
  // ---------------------------------------------------------------------

  class TutorCrew {
    /** `correct_answers_count`: the streak of correct answers of each student. */
    var correctAnswersCount: Counts

    constructor ()
      ensures correctAnswersCount == map[]
    {
      correctAnswersCount := map[];
    }

    /** Grades one answer and updates the answering student's streak. */
    method CheckAnswer(studentId: string, task: Dict, studentAnswer: string, api: ApiOutcome, errText: string)
      returns (result: Dict)
      modifies this
      ensures (result, correctAnswersCount) == Checked(old(correctAnswersCount), studentId, task, studentAnswer, api, errText)
      ensures forall s :: s != studentId ==> Count(correctAnswersCount, s) == Count(old(correctAnswersCount), s)
    {
      if "task_type" !in task {
        result := ErrorResult(errText);
        return;
      }
      if task["task_type"] == Str("template") {
        var scan := ScanLoop(GetOr(task, "options", List([])), Normalised(studentAnswer));
        var r := GradeTemplate(correctAnswersCount, studentId, scan, errText);
        result, correctAnswersCount := r.0, r.1;
      } else {
        var r := GradeCreative(correctAnswersCount, studentId, api);
        result, correctAnswersCount := r.0, r.1;
      }
    }
  }

  // ---------------------------------------------------------------------
  // The fallback task
  // ---------------------------------------------------------------------

  /** An answer option of a multiple-choice task. */
  function OptionObj(mark: string, text: string, correct: bool, explanation: string): Value
  {
    Obj(map["label" := Str(mark), "text" := Str(text), "is_correct" := Bool(correct), "explanation" := Str(explanation)])
  }

  const FallbackConcept := "Ключевое понятие главы"

  // The fixed sentences of the fallback task; the chapter title goes between the two parts of a split one.
  const OptionAHead := "Ключевое понятие из главы '"
  const OptionATail := "' - это система взаимосвязанных элементов, работающих для достижения общей цели"
  const OptionAWhy := "Это обобщенное определение системного подхода, который является фундаментальным для понимания материала главы."
  const OptionB := "Это изолированный элемент, который не взаимодействует с другими компонентами"
  const OptionBWhy := "Это противоречит системному подходу, который подчеркивает взаимосвязь элементов."
  const OptionC := "Это только теоретическая концепция, не имеющая практического применения"
  const OptionCWhy := "Понятия системного менеджмента имеют важное практическое применение."
  const OptionD := "Это простая совокупность элементов без определенной структуры"
  const OptionDWhy := "Системный подход подразумевает наличие структуры и организации элементов."
  const TemplateQuestionHead := "Какое из следующих определений лучше всего описывает ключевое понятие из главы '"
  const CreativeQuestionHead := "Объясните своими словами, как ключевые понятия из главы '"
  const CreativeQuestionTail :=
    "' формируют систему знаний и как они могут быть применены в реальной жизни или профессиональной деятельности."
  const ExampleAnswerHead := "В главе '"
  const ExampleAnswerTail :=
    "' представлены важные системные понятия, которые взаимосвязаны следующим образом... Эти понятия могут быть применены в таких ситуациях, как..."

  /** The four options of the fallback multiple-choice task. */
  function FallbackOptions(chapterTitle: string): seq<Value>
  {
    [OptionObj("A", OptionAHead + chapterTitle + OptionATail, true, OptionAWhy),
     OptionObj("B", OptionB, false, OptionBWhy),
     OptionObj("C", OptionC, false, OptionCWhy),
     OptionObj("D", OptionD, false, OptionDWhy)]
  }

  const FallbackCriteria: seq<Value> :=
    [Str("Точность определения понятий"), Str("Понимание взаимосвязей между понятиями"),
     Str("Глубина анализа практического применения")]

  const FallbackHints: seq<Value> :=
    [Str("Сначала определите ключевые понятия из главы"), Str("Подумайте о том, как эти понятия связаны между собой"),
     Str("Приведите конкретные примеры, где эти понятия могут быть применены")]

  /** `_generate_fallback_task`: a fixed multiple-choice task, or for any other type a fixed creative one. */
  function FallbackTask(chapterTitle: string, taskType: string, difficulty: string): Dict
  {
    var specific :=
      if taskType == "template" then
        map["question" := Str(TemplateQuestionHead + chapterTitle + "'?"), "options" := List(FallbackOptions(chapterTitle))]
      else
        map["question" := Str(CreativeQuestionHead + chapterTitle + CreativeQuestionTail), "criteria" := List(FallbackCriteria),
            "example_answer" := Str(ExampleAnswerHead + chapterTitle + ExampleAnswerTail), "hints" := List(FallbackHints)];
    specific + map["concept_name" := Str(FallbackConcept), "task_type" := Str(taskType), "difficulty" := Str(difficulty)]
  }

  /** The fallback options are labelled A to D in order and only A is correct. */
  lemma FallbackOptionsShape(chapterTitle: string)
    ensures var opts := FallbackOptions(chapterTitle);
      |opts| == 4
      && forall i :: 0 <= i < 4 ==>
           opts[i].Obj? && opts[i].fields["label"] == Str(["ABCD"[i]])
           && (opts[i].fields["is_correct"] == Bool(true) <==> i == 0)
  {
    var opts := FallbackOptions(chapterTitle);
    assert opts[0].fields["label"] == Str("A") && opts[1].fields["label"] == Str("B");
    assert opts[2].fields["label"] == Str("C") && opts[3].fields["label"] == Str("D");
  }

  /**
   * The fallback multiple-choice task carries those four options; the
   * creative one has three criteria and three hints and no options; both
   * echo the requested type and difficulty.
   */
  lemma FallbackTaskShape(chapterTitle: string, taskType: string, difficulty: string)
    ensures var t := FallbackTask(chapterTitle, taskType, difficulty);
      t["task_type"] == Str(taskType) && t["difficulty"] == Str(difficulty) && t["concept_name"] == Str(FallbackConcept)
    ensures var t := FallbackTask(chapterTitle, taskType, difficulty);
      taskType == "template" ==> t["options"] == List(FallbackOptions(chapterTitle))
    ensures var t := FallbackTask(chapterTitle, taskType, difficulty);
      taskType != "template" ==>
        "options" !in t && t["criteria"].List? && |t["criteria"].items| == 3 && t["hints"].List? && |t["hints"].items| == 3
  {
  }

  // ---------------------------------------------------------------------
  // Difficulty adaptation
  // ---------------------------------------------------------------------

  datatype Adaptation = Adaptation(
    studentId: string, chapterTitle: string, recommendedDifficulty: string, recommendedTaskType: string,
    reasoning: string, problemConcepts: seq<string>, strongConcepts: seq<string>)

  const ReasoningHead := "Рекомендован "
  const ReasoningTail := " уровень для вашего текущего прогресса."
  const AdvancedWord := "продвинутый"
  const StandardWord := "стандартный"

  /** `adapt_task_difficulty`: the recorded performance is not consulted. */
  function AdaptTaskDifficulty(studentId: string, chapterTitle: string, currentDifficulty: Option<string>): Adaptation
  {
    var current := if currentDifficulty.None? || currentDifficulty.value == "" then "standard" else currentDifficulty.value;
    var recommended := if current == "standard" then "advanced" else "standard";
    Adaptation(studentId, chapterTitle, recommended, if current == "creative" then "template" else "creative",
               ReasoningHead + (if recommended == "advanced" then AdvancedWord else StandardWord) + ReasoningTail,
               [], [])
  }

  /**
   * The adaptation recommends "advanced" iff the current difficulty,
   * "standard" when none is given, is "standard"; it recommends the template
   * type iff the current difficulty is "creative"; it names no concepts.
   */
  lemma AdaptationRule(studentId: string, chapterTitle: string, currentDifficulty: Option<string>)
    ensures var current := if currentDifficulty.None? || currentDifficulty.value == "" then "standard" else currentDifficulty.value;
      var r := AdaptTaskDifficulty(studentId, chapterTitle, currentDifficulty);
      (r.recommendedDifficulty == "advanced" <==> current == "standard")
      && (r.recommendedDifficulty != "advanced" ==> r.recommendedDifficulty == "standard")
      && (r.recommendedTaskType == "template" <==> current == "creative")
      && r.problemConcepts == [] && r.strongConcepts == []
      && r.studentId == studentId && r.chapterTitle == chapterTitle
  {
  }

  // ---------------------------------------------------------------------
  // JSON in a model's reply
  // ---------------------------------------------------------------------

  /**
   * `_extract_json_from_text`: parse from the first "{" to the last "}", else
   * from the first "[" to the last "]" wrapped as "data", else the whole
   * text; an undecodable piece gives the text itself as "raw_text". `parse`
   * is `json.loads`, None when it raises.
   */
  function ExtractJson(text: string, parse: string -> Option<Value>): Value
  {
    var raw := Obj(map["raw_text" := Str(text)]);
    var (os, oe) := (Text.Find(text, '{'), Text.RFind(text, '}'));
    var (ls, le) := (Text.Find(text, '['), Text.RFind(text, ']'));
    if os != -1 && oe != -1 then
      (match parse(Text.Slice(text, os, oe + 1)) case Some(v) => v case None => raw)
    else if ls != -1 && le != -1 then
      (match parse(Text.Slice(text, ls, le + 1)) case Some(v) => Obj(map["data" := v]) case None => raw)
    else
      (match parse(text) case Some(v) => v case None => raw)
  }

  /**
   * The piece handed to the parser for an object runs from the first "{" to
   * the last "}" inclusive when the last "}" follows the first "{", and is
   * empty when it comes before it.
   */
  lemma ObjectSliceBounds(text: string)
    requires '{' in text && '}' in text
    ensures var (os, oe) := (Text.Find(text, '{'), Text.RFind(text, '}'));
      var piece := Text.Slice(text, os, oe + 1);
      (os <= oe ==> |piece| > 0 && piece[0] == '{' && piece[|piece| - 1] == '}' && '{' !in text[..os] && '}' !in text[oe + 1..])
      && (oe < os ==> piece == [])
  {
    var os := Text.Find(text, '{');
    var oe := Text.RFind(text, '}');
    var piece := Text.Slice(text, os, oe + 1);
    if os <= oe {
      assert piece == text[os..oe + 1];
      assert |piece| == oe + 1 - os;
      assert piece[0] == text[os];
      assert piece[oe - os] == text[oe];
    }
  }

  /** Whatever the reply, extraction never fails: a parse failure gives the text back as "raw_text". */
  lemma ExtractJsonRaw(text: string, parse: string -> Option<Value>)
    requires forall s :: parse(s).None?
    ensures ExtractJson(text, parse) == Obj(map["raw_text" := Str(text)])
  {
  }

  /** A reply with only a list is wrapped in "data"; a reply with no bracket at all is parsed whole. */
  lemma ExtractJsonCases(text: string, parse: string -> Option<Value>)
    ensures ('{' !in text && '[' in text && ']' in text
             && parse(Text.Slice(text, Text.Find(text, '['), Text.RFind(text, ']') + 1)).Some?)
        ==> ExtractJson(text, parse).Obj? && "data" in ExtractJson(text, parse).fields
    ensures '{' !in text && '[' !in text && parse(text).Some? ==> ExtractJson(text, parse) == parse(text).value
  {
  }
}
