/**
 * The decision logic of the Telegram handlers (`bot/handlers.py`): which
 * chapter a chapter button selects, the counter of correct answers in a
 * row and the feedback keyboard it unlocks, the relabelling of shuffled
 * answer options and their buttons in rows of three, the task-type and
 * difficulty switches, and the student's counters after an answer.
 *
 * `context.user_data` is the class `UserData`: one field per key the
 * handlers write, None while the key is absent. A student record is the
 * class `StudentStats`. What the language model and the graph store
 * return comes in as arguments.
 */
module Handlers {
  import opened Wrappers
  import opened Values
  import Text
  import Seqs
  import OpenRouter
  import Crew

  // ---------------------------------------------------------------------
  // select_chapter
  // ---------------------------------------------------------------------

  /** `CHAPTERS` of the settings: the nine chapter titles of the course. */
  const Chapters: seq<string> := [Chapter1, Chapter2, Chapter3, Chapter4, Chapter5, Chapter6, Chapter7, Chapter8, Chapter9]
  const Chapter1 := "Глава 1: Физический мир и ментальное пространство"
  const Chapter2 := "Глава 2: Обучение и время"
  const Chapter3 := "Глава 3: Собранность и внимание"
  const Chapter4 := "Глава 4: Недостаток ресурсов для выполнения работы"
  const Chapter5 := "Глава 5: Системный подход в психологии личности"
  const Chapter6 := "Глава 6: Роль, ролевое мастерство и метод"
  const Chapter7 := "Глава 7: Инженерия, менеджмент, предпринимательство"
  const Chapter8 := "Глава 8: Личность и агент: человек и ИИ"
  const Chapter9 := "Глава 9: Личная траектория развития"

  const ChapterPrefix := "chapter:"
  const ChapterIdPrefix := "ch"

  /** Python's `s[i]`: a negative index counts from the end; None where it raises `IndexError`. */
  function PyIndex<T>(s: seq<T>, i: int): (r: Option<T>)
    ensures r.Some? <==> -|s| <= i < |s|
    ensures 0 <= i < |s| ==> r == Some(s[i])
    ensures -|s| <= i < 0 ==> r == Some(s[|s| + i])
  {
    if 0 <= i < |s| then Some(s[i])
    else if -|s| <= i < 0 then Some(s[|s| + i])
    else None
  }

  /**
   * The chapter `select_chapter` stores for the button data `data`: the
   * prefix is removed, then every "ch", and the number left picks
   * `CHAPTERS[number - 1]`; the bare identifier when that raises.
   */
  function ChapterOf(data: string): string
  {
    var id := Text.Replace(data, ChapterPrefix, "");
    match Text.PyInt(Text.Replace(id, ChapterIdPrefix, ""))
    case None => id
    case Some(n) => PyIndex(Chapters, n - 1).GetOr(id)
  }

  /** The button of chapter `n` carries `chapter:ch<n>`. */
  function ChapterData(n: nat): string
  {
    ChapterPrefix + ChapterIdPrefix + Text.NatToString(n)
  }

  /** A first character is kept when the text differs from the pattern at some position `j` or is shorter. */
  lemma ReplaceSkip(c: char, rest: string, pat: string, j: nat)
    requires pat != [] && (|rest| + 1 < |pat| || (j < |pat| && j <= |rest| && ([c] + rest)[j] != pat[j]))
    ensures Text.Replace([c] + rest, pat, "") == [c] + Text.Replace(rest, pat, "")
  {
    var s := [c] + rest;
    assert s[1..] == rest;
    if |s| >= |pat| {
      assert s[..|pat|][j] != pat[j];
    }
  }

  /** `[a, b] + d` is kept by the replacement when `pat` differs from it at its first or third position. */
  lemma PairKept(a: char, b: char, d: string, pat: string)
    requires |pat| >= 3 && d != [] && b != pat[0] && !Text.IsAsciiDigit(pat[0]) && !Text.IsAsciiDigit(pat[2])
    requires forall i :: 0 <= i < |d| ==> Text.IsAsciiDigit(d[i])
    ensures Text.Replace([a, b] + d, pat, "") == [a, b] + d
  {
    Text.ReplaceUntouched(d, pat, "");
    var bd := [b] + d;
    ReplaceSkip(b, d, pat, 0);
    assert [a] + bd == [a, b] + d;
    assert ([a] + bd)[2] == d[0];
    ReplaceSkip(a, bd, pat, 2);
  }

  /** The identifier `ch<digits>` does not start with the button prefix, so removing the prefix keeps it. */
  lemma IdentifierKept(d: string)
    requires d != [] && forall i :: 0 <= i < |d| ==> Text.IsAsciiDigit(d[i])
    ensures Text.Replace(ChapterIdPrefix + d, ChapterPrefix, "") == ChapterIdPrefix + d
  {
    var pat := ChapterPrefix;
    assert |pat| >= 3 && pat[0] == 'c' && pat[2] == 'a';
    assert ChapterIdPrefix + d == ['c', 'h'] + d;
    PairKept('c', 'h', d, pat);
  }

  /** Removing every "ch" from `ch<digits>` leaves the digits. */
  lemma IdentifierDigits(d: string)
    requires forall i :: 0 <= i < |d| ==> Text.IsAsciiDigit(d[i])
    ensures Text.Replace(ChapterIdPrefix + d, ChapterIdPrefix, "") == d
  {
    Text.ReplaceUntouched(d, ChapterIdPrefix, "");
    Text.ReplaceLeading(ChapterIdPrefix, d, "");
  }

  /** The identifier `ch<n>` survives the removal of the prefix and turns into the digits of `n`. */
  lemma ChapterDataSteps(n: nat)
    ensures Text.Replace(ChapterData(n), ChapterPrefix, "") == ChapterIdPrefix + Text.NatToString(n)
    ensures Text.Replace(ChapterIdPrefix + Text.NatToString(n), ChapterIdPrefix, "") == Text.NatToString(n)
  {
    var d := Text.NatToString(n);
    assert forall i :: 0 <= i < |d| ==> Text.IsAsciiDigit(d[i]) by {
      forall i | 0 <= i < |d| ensures Text.IsAsciiDigit(d[i]) { assert d[i] in d; }
    }
    IdentifierKept(d);
    IdentifierDigits(d);
    assert ChapterData(n) == ChapterPrefix + (ChapterIdPrefix + d);
    Text.ReplaceLeading(ChapterPrefix, ChapterIdPrefix + d, "");
  }

  /**
   * The button of chapter `n` selects `CHAPTERS[n - 1]` under Python's
   * indexing: chapters 1 to 9 their own title, "ch0" the last chapter, and
   * a number past the list the identifier itself.
   */
  lemma ChapterButtons(n: nat)
    ensures 1 <= n <= |Chapters| ==> ChapterOf(ChapterData(n)) == Chapters[n - 1]
    ensures n == 0 ==> ChapterOf(ChapterData(n)) == Chapters[|Chapters| - 1]
    ensures n > |Chapters| ==> ChapterOf(ChapterData(n)) == ChapterIdPrefix + Text.NatToString(n)
  {
    ChapterOfData(n);
  }

  lemma ChapterOfData(n: nat)
    ensures ChapterOf(ChapterData(n)) == PyIndex(Chapters, n - 1).GetOr(ChapterIdPrefix + Text.NatToString(n))
  {
    ChapterDataSteps(n);
    Text.PyIntOfString(n);
  }

  /** Whatever the data, the stored chapter is a title of the course or the data without its prefix. */
  lemma ChapterOfCases(data: string)
    ensures ChapterOf(data) in Chapters || ChapterOf(data) == Text.Replace(data, ChapterPrefix, "")
    ensures Text.PyInt(Text.Replace(Text.Replace(data, ChapterPrefix, ""), ChapterIdPrefix, "")).None?
            ==> ChapterOf(data) == Text.Replace(data, ChapterPrefix, "")
  {
  }

  // ---------------------------------------------------------------------
  // Feedback keyboards of process_answer and handle_answer_button
  // ---------------------------------------------------------------------

  datatype Button = Button(text: string, data: string)

  type Keyboard = seq<seq<Button>>

  const ChangeChapter := Button("Сменить главу", "next_step:change_chapter")
  const IncreaseDifficulty := Button("Повысить сложность", "next_step:increase_difficulty")
  const TryCreative := Button("Попробовать творческую задачу", "next_step:change_task_type")
  const TryTemplate := Button("Попробовать шаблонную задачу", "next_step:change_task_type")
  const Discuss := Button("Обсудить задачу", "next_step:discuss")
  const TryAgain := Button("Попробовать ещё раз", "next_step:try_again")
  const SkipTask := Button("Пропустить задачу", "next_step:skip")
  const NewTask := Button("Новая задача", "feedback:new_task")
  const EndSession := Button("Завершить сессию", "feedback:end")

  /** The rows every feedback keyboard ends with. */
  const StandardRows: Keyboard := [[NewTask], [EndSession]]
  /** The rows after a wrong answer. */
  const WrongRows: Keyboard := [[Discuss], [TryAgain], [SkipTask]]

  /** The rows after a third correct answer in a row; the last offers the other task type. */
  function UnlockedRows(taskType: Value): Keyboard
  {
    [[ChangeChapter], [IncreaseDifficulty], [if taskType == Str("template") then TryCreative else TryTemplate]]
  }

  /** The keyboard under the feedback message. */
  function FeedbackKeyboard(isCorrect: bool, unlocked: bool, taskType: Value): Keyboard
  {
    (if !isCorrect then WrongRows else if unlocked then UnlockedRows(taskType) else []) + StandardRows
  }

  /**
   * A wrong answer offers discussing, trying again and skipping; a correct
   * one offers the three changes only when it unlocks them; every keyboard
   * ends with the new-task and end rows.
   */
  lemma FeedbackKeyboardFacts(isCorrect: bool, unlocked: bool, taskType: Value)
    ensures var kb := FeedbackKeyboard(isCorrect, unlocked, taskType);
      |kb| >= 2 && kb[|kb| - 2..] == StandardRows
      && (!isCorrect ==> kb == WrongRows + StandardRows)
      && (isCorrect && !unlocked ==> kb == StandardRows)
      && ([ChangeChapter] in kb <==> isCorrect && unlocked)
      && ([Discuss] in kb <==> !isCorrect)
  {
    var kb := FeedbackKeyboard(isCorrect, unlocked, taskType);
    var head := if !isCorrect then WrongRows else if unlocked then UnlockedRows(taskType) else [];
    assert kb[|kb| - 2..] == StandardRows;
    if [ChangeChapter] in kb {
      var k :| 0 <= k < |kb| && kb[k] == [ChangeChapter];
      assert k < |head|;
    }
    if [Discuss] in kb {
      var k :| 0 <= k < |kb| && kb[k] == [Discuss];
      assert k < |head|;
    }
    if isCorrect && unlocked {
      assert kb[0] == [ChangeChapter];
    }
    if !isCorrect {
      assert kb[0] == [Discuss];
    }
  }

  // ---------------------------------------------------------------------
  // The counter of correct answers in a row
  // ---------------------------------------------------------------------

  const StreakGoal := 3

  /**
   * How the handler finds the counter before an answer. As written it tests
   * `hasattr(context.user_data, "correct_answers_count")`; `user_data` is a
   * dict, which has no such attribute, so the counter is always set to 0.
   * The key test `"correct_answers_count" not in context.user_data` keeps it.
   */
  datatype Guard = AttributeTest | KeyTest

  function CounterBefore(guard: Guard, stored: Option<int>): int
  {
    match guard
    case AttributeTest => 0
    case KeyTest => stored.GetOr(0)
  }

  datatype Streak = Streak(count: int, unlocked: bool)

  /** A correct answer adds one and at three unlocks the changes and resets; a wrong answer resets. */
  function StreakAfter(before: int, isCorrect: bool): Streak
  {
    if !isCorrect then Streak(0, false)
    else if before + 1 >= StreakGoal then Streak(0, true)
    else Streak(before + 1, false)
  }

  /** The counter after each answer in turn, starting from what is stored. */
  function Replay(guard: Guard, stored: Option<int>, outcomes: seq<bool>): (r: Streak)
    decreases |outcomes|
  {
    if outcomes == [] then Streak(stored.GetOr(0), false)
    else
      var before := Replay(guard, stored, outcomes[..|outcomes| - 1]).count;
      StreakAfter(CounterBefore(guard, if |outcomes| == 1 then stored else Some(before)), outcomes[|outcomes| - 1])
  }

  /**
   * As written, the counter is at most 1 after any answers and no answer
   * ever unlocks the changes of chapter, difficulty and task type.
   */
  lemma AttributeTestNeverUnlocks(stored: Option<int>, outcomes: seq<bool>)
    requires outcomes != []
    ensures var s := Replay(AttributeTest, stored, outcomes);
      s.count == (if outcomes[|outcomes| - 1] then 1 else 0) && !s.unlocked
  {
  }

  /**
   * With the key test, from an empty or zero counter, the counter is the
   * number of trailing correct answers modulo three, and an answer unlocks
   * the changes exactly when it completes a run of three.
   */
  lemma {:induction false} KeyTestCountsRuns(stored: Option<int>, outcomes: seq<bool>)
    requires stored.GetOr(0) == 0
    ensures var s := Replay(KeyTest, stored, outcomes);
      s.count == Crew.TrailingCorrect(outcomes) % StreakGoal
      && s.unlocked == (outcomes != [] && outcomes[|outcomes| - 1] && Crew.TrailingCorrect(outcomes) % StreakGoal == 0)
    decreases |outcomes|
  {
    if outcomes != [] {
      var init := outcomes[..|outcomes| - 1];
      KeyTestCountsRuns(stored, init);
      var before := Replay(KeyTest, stored, init).count;
      assert CounterBefore(KeyTest, if |outcomes| == 1 then stored else Some(before)) == before;
      if outcomes[|outcomes| - 1] {
        assert Crew.TrailingCorrect(outcomes) == 1 + Crew.TrailingCorrect(init);
      }
    }
  }

  /** In particular three correct answers in a row unlock the changes on the third. */
  lemma KeyTestThreeInARow(stored: Option<int>)
    requires stored.GetOr(0) == 0
    ensures Replay(KeyTest, stored, [true, true, true]).unlocked
    ensures !Replay(KeyTest, stored, [true, true]).unlocked
  {
    KeyTestCountsRuns(stored, [true, true, true]);
    KeyTestCountsRuns(stored, [true, true]);
    assert [true, true, true][..2] == [true, true];
    assert [true, true][..1] == [true];
    assert [true][..0] == [];
  }

  /** What the answer handlers end with. */
  datatype AnswerOutcome =
    | Failed                                        // an exception, answered with the error message
    | ConceptMissing                                // the concept of the task is not in the store
    | Feedback(isCorrect: bool, keyboard: Keyboard)

  /** What an answer does to the counter and what the student is shown. */
  function AnswerEffect(guard: Guard, stored: Option<int>, chapter: Option<string>, task: Dict,
                        lookup: (Value, string) -> Dict, check: Dict -> Option<Dict>): (Option<int>, AnswerOutcome)
  {
    var before := CounterBefore(guard, stored);
    if chapter.None? then (Some(before), Failed)
    else
      var concept := lookup(GetOr(task, "concept_name", Str("")), chapter.value);
      if concept == map[] then (Some(before), ConceptMissing)
      else match check(concept)
        case None => (Some(before), Failed)
        case Some(result) =>
          var isCorrect := Truthy(GetOr(result, "is_correct", Bool(false)));
          var s := StreakAfter(before, isCorrect);
          (Some(s.count), Feedback(isCorrect, FeedbackKeyboard(isCorrect, s.unlocked, GetOr(task, "task_type", Str("template")))))
  }

  /**
   * A checked answer leaves the counter where `StreakAfter` puts it; a
   * wrong one resets it and shows the wrong-answer rows, under either guard.
   */
  lemma AnswerEffectFacts(guard: Guard, stored: Option<int>, chapter: Option<string>, task: Dict,
                          lookup: (Value, string) -> Dict, check: Dict -> Option<Dict>)
    ensures var (count, outcome) := AnswerEffect(guard, stored, chapter, task, lookup, check);
      count.Some?
      && (outcome.Feedback? ==> count.value == StreakAfter(CounterBefore(guard, stored), outcome.isCorrect).count)
      && (outcome.Feedback? && !outcome.isCorrect ==> count == Some(0) && outcome.keyboard == WrongRows + StandardRows)
      && (guard == AttributeTest ==> count.value <= 1 && !(outcome.Feedback? && [ChangeChapter] in outcome.keyboard))
  {
    var (count, outcome) := AnswerEffect(guard, stored, chapter, task, lookup, check);
    if outcome.Feedback? {
      var s := StreakAfter(CounterBefore(guard, stored), outcome.isCorrect);
      FeedbackKeyboardFacts(outcome.isCorrect, s.unlocked, GetOr(task, "task_type", Str("template")));
    }
  }

  /** `context.user_data`: the keys the handlers write. */
  class UserData {
    var chapter: Option<string>
    var taskType: Option<string>
    var difficulty: Option<string>
    var correctCount: Option<int>

    constructor ()
      ensures chapter == None && taskType == None && difficulty == None && correctCount == None
    {
      chapter, taskType, difficulty, correctCount := None, None, None, None;
    }

    /** `select_chapter`: the chapter of the button is stored. */
    method SelectChapter(data: string)
      modifies this
      ensures chapter == Some(ChapterOf(data))
      ensures taskType == old(taskType) && difficulty == old(difficulty) && correctCount == old(correctCount)
    {
      var id := Text.Replace(data, ChapterPrefix, "");
      var number := Text.PyInt(Text.Replace(id, ChapterIdPrefix, ""));
      var title := id;
      if number.Some? {
        var pick := PyIndex(Chapters, number.value - 1);
        if pick.Some? {
          title := pick.value;
        }
      }
      chapter := Some(title);
    }

    /**
     * The counting part of `process_answer` and `handle_answer_button`,
     * with the guard as written (`AttributeTest`) or corrected (`KeyTest`).
     */
    method Answer(guard: Guard, task: Dict, lookup: (Value, string) -> Dict, check: Dict -> Option<Dict>)
      returns (outcome: AnswerOutcome)
      modifies this
      ensures (correctCount, outcome) == AnswerEffect(guard, old(correctCount), chapter, task, lookup, check)
      ensures chapter == old(chapter) && taskType == old(taskType) && difficulty == old(difficulty)
    {
      var conceptName := GetOr(task, "concept_name", Str(""));
      var kind := GetOr(task, "task_type", Str("template"));
      if guard == AttributeTest || correctCount.None? {
        correctCount := Some(0);
      }
      if chapter.None? {
        return Failed;
      }
      var concept := lookup(conceptName, chapter.value);
      if concept == map[] {
        return ConceptMissing;
      }
      var result := check(concept);
      if result.None? {
        return Failed;
      }
      var isCorrect := Truthy(GetOr(result.value, "is_correct", Bool(false)));
      var keyboard: Keyboard := [];
      if isCorrect {
        correctCount := Some(correctCount.GetOr(0) + 1);
        if correctCount.GetOr(0) >= StreakGoal {
          keyboard := keyboard + UnlockedRows(kind);
          assert keyboard == UnlockedRows(kind);
          correctCount := Some(0);
        }
      } else {
        correctCount := Some(0);
        keyboard := keyboard + WrongRows;
        assert keyboard == WrongRows;
      }
      keyboard := keyboard + StandardRows;
      outcome := Feedback(isCorrect, keyboard);
    }

    /** The `increase_difficulty` and `change_task_type` actions of `handle_next_step`. */
    method NextStep(data: string, hasLastTask: bool) returns (r: Option<NextState>)
      modifies this
      ensures r == NextStateOf(ActionOf(data), hasLastTask)
      ensures difficulty == (if ActionOf(data) == Some(IncreaseAction) then Some(Advanced) else old(difficulty))
      ensures taskType == (if ActionOf(data) == Some(ChangeTypeAction) then Some(ToggledType(old(taskType))) else old(taskType))
      ensures chapter == old(chapter) && correctCount == old(correctCount)
    {
      var parts := Text.SplitOn(data, IsColon);
      if |parts| < 2 {
        return None;
      }
      var action := parts[1];
      if action == IncreaseAction {
        difficulty := Some(Advanced);
      } else if action == ChangeTypeAction {
        var current := taskType.GetOr(Template);
        var next := if current == Template then Creative else Template;
        taskType := Some(next);
      }
      r := Some(NextStateOf(Some(action), hasLastTask).value);
    }
  }

  // ---------------------------------------------------------------------
  // handle_next_step
  // ---------------------------------------------------------------------

  const Template := "template"
  const Creative := "creative"
  const Advanced := "advanced"
  const IncreaseAction := "increase_difficulty"
  const ChangeTypeAction := "change_task_type"

  predicate IsColon(c: char) { c == ':' }

  /** `query.data.split(":")[1]`; None where the index raises. */
  function ActionOf(data: string): Option<string>
  {
    var parts := Text.SplitOn(data, IsColon);
    if |parts| >= 2 then Some(parts[1]) else None
  }

  /** The conversation states the handler returns to. */
  datatype NextState = ShowFeedback | SelectingChapter | WaitingForAnswer

  function NextStateOf(action: Option<string>, hasLastTask: bool): Option<NextState>
  {
    match action
    case None => None
    case Some(a) =>
      if a == "change_chapter" then Some(SelectingChapter)
      else if a == "try_again" && hasLastTask then Some(WaitingForAnswer)
      else Some(ShowFeedback)
  }

  /** Choosing a new chapter, and trying again when the last task is known, are the only ways out of the feedback state. */
  lemma NextStateFacts(data: string, hasLastTask: bool)
    ensures NextStateOf(ActionOf(data), hasLastTask).None? <==> ':' !in data
    ensures NextStateOf(ActionOf(data), hasLastTask) == Some(SelectingChapter) <==> ActionOf(data) == Some("change_chapter")
    ensures NextStateOf(ActionOf(data), hasLastTask) == Some(WaitingForAnswer) <==> ActionOf(data) == Some("try_again") && hasLastTask
  {
    SplitOnColon(data);
  }

  /** Splitting at colons gives one piece more than there are colons, so two pieces exactly when a colon occurs. */
  lemma {:induction false} SplitOnColon(s: string)
    ensures |Text.SplitOn(s, IsColon)| >= 2 <==> ':' in s
  {
    if s != [] {
      SplitOnColon(s[1..]);
      assert s == [s[0]] + s[1..];
    }
  }

  /** `change_task_type`: template becomes creative, anything else (or nothing) template. */
  function ToggledType(current: Option<string>): string
  {
    if current.GetOr(Template) == Template then Creative else Template
  }

  /** The switch yields one of the two types, flips between them, and reads a missing type as template. */
  lemma ToggledTypeFacts(current: Option<string>)
    ensures ToggledType(current) == Template || ToggledType(current) == Creative
    ensures ToggledType(current) == Creative <==> current == None || current == Some(Template)
    ensures current == Some(Template) || current == Some(Creative) ==> ToggledType(Some(ToggledType(current))) == current.value
  {
  }

  // ---------------------------------------------------------------------
  // Relabelling and answer buttons of generate_task_handler
  // ---------------------------------------------------------------------

  /** Option `i` after the shuffle: letter label for the API, number for the display. */
  function Labelled(option: Dict, i: nat): Dict
  {
    option["label" := Str(OpenRouter.Letter(i))]["display_label" := Str(Text.NatToString(i + 1))]
  }

  function Relabelled(options: seq<Dict>): (r: seq<Dict>)
  {
    seq(|options|, i requires 0 <= i < |options| => Labelled(options[i], i))
  }

  /**
   * After relabelling, option `i` is labelled with the `i`-th letter and
   * displayed as `i + 1`, and every other field is as it was.
   */
  lemma RelabelledFacts(options: seq<Dict>, i: nat, key: string)
    requires i < |options|
    ensures var r := Relabelled(options);
      |r| == |options|
      && r[i]["label"] == Str(OpenRouter.Letter(i)) && r[i]["display_label"] == Str(Text.NatToString(i + 1))
      && r[i].Keys == options[i].Keys + {"label", "display_label"}
      && (key != "label" && key != "display_label" ==> (key in r[i] <==> key in options[i]) && (key in options[i] ==> r[i][key] == options[i][key]))
  {
  }

  /** The second relabelling, while the buttons are built, changes nothing. */
  lemma RelabelledTwice(options: seq<Dict>)
    ensures Relabelled(Relabelled(options)) == Relabelled(options)
  {
    var r := Relabelled(options);
    assert forall i :: 0 <= i < |r| ==> Labelled(r[i], i) == r[i];
  }

  /** The button for option `i`. */
  function AnswerButton(i: nat): Button
  {
    Button(Text.NatToString(i + 1), "answer:" + OpenRouter.Letter(i))
  }

  function AnswerButtons(n: nat): (bs: seq<Button>)
  {
    seq(n, i requires 0 <= i < n => AnswerButton(i))
  }

  const SkipButton := Button("Пропустить", "skip")
  const EndButton := Button("Завершить", "end")

  /**
   * The answer buttons fill rows of three with the remainder in the last
   * row, and read row by row they are the options in order, each showing
   * the option's display label and carrying its letter.
   */
  lemma AnswerRowsFacts(options: seq<Dict>)
    ensures var rows := Seqs.Chunks(AnswerButtons(|options|), 3);
      var r := Relabelled(options);
      Seqs.Flatten(rows) == AnswerButtons(|options|)
      && (forall k :: 0 <= k < |rows| ==> 0 < |rows[k]| <= 3)
      && (forall k :: 0 <= k < |rows| - 1 ==> |rows[k]| == 3)
      && forall i :: 0 <= i < |options| ==>
           Str(AnswerButtons(|options|)[i].text) == r[i]["display_label"]
           && Str(AnswerButtons(|options|)[i].data) == Str("answer:" + r[i]["label"].s)
  {
    Seqs.ChunksFacts(AnswerButtons(|options|), 3);
  }

  /** The label loop over the shuffled options. */
  method Relabel(options: array<Dict>)
    modifies options
    ensures options[..] == Relabelled(old(options[..]))
  {
    var i := 0;
    while i < options.Length
      invariant 0 <= i <= options.Length
      invariant options[..i] == Relabelled(old(options[..]))[..i]
      invariant options[i..] == old(options[..])[i..]
    {
      RelabelStep(old(options[..]), options[..], i);
      options[i] := Labelled(options[i], i);
      i := i + 1;
    }
  }

  /** The keyboard loop: the options are labelled again and their buttons put three to a row. */
  method AnswerKeyboard(options: array<Dict>) returns (keyboard: Keyboard)
    modifies options
    ensures options[..] == Relabelled(old(options[..]))
    ensures keyboard == Seqs.Chunks(AnswerButtons(options.Length), 3) + [[SkipButton, EndButton]]
  {
    ghost var buttons := AnswerButtons(options.Length);
    var rows: Keyboard := [];
    var row: seq<Button> := [];
    var i := 0;
    while i < options.Length
      invariant 0 <= i <= options.Length
      invariant options[..i] == Relabelled(old(options[..]))[..i]
      invariant options[i..] == old(options[..])[i..]
      invariant i < options.Length ==> (forall k :: 0 <= k < |rows| ==> |rows[k]| == 3) && |row| < 3
                                       && Seqs.Flatten(rows) + row == buttons[..i]
      invariant i == options.Length ==> rows == Seqs.Chunks(buttons, 3)
    {
      RelabelStep(old(options[..]), options[..], i);
      options[i] := Labelled(options[i], i);
      GrowRow(rows, row, buttons, i);
      row := row + [AnswerButton(i)];
      if |row| == 3 || i == options.Length - 1 {
        FlushRow(rows, row, buttons, i, options.Length);
        rows := rows + [row];
        row := [];
      }
      i := i + 1;
    }
    if options.Length == 0 {
      assert rows == Seqs.Chunks(buttons, 3);
    }
    keyboard := rows + [[SkipButton, EndButton]];
  }

  /** Labelling option `i` extends the relabelled prefix by one. */
  lemma RelabelStep(before: seq<Dict>, current: seq<Dict>, i: nat)
    requires i < |current| == |before|
    requires current[..i] == Relabelled(before)[..i] && current[i..] == before[i..]
    ensures var next := current[i := Labelled(current[i], i)];
      next[..i + 1] == Relabelled(before)[..i + 1] && next[i + 1..] == before[i + 1..]
  {
    assert current[i] == current[i..][0] == before[i];
  }

  /** Button `i` joins the row being filled. */
  lemma GrowRow(rows: Keyboard, row: seq<Button>, buttons: seq<Button>, i: nat)
    requires i < |buttons| && buttons == AnswerButtons(|buttons|)
    requires Seqs.Flatten(rows) + row == buttons[..i]
    ensures Seqs.Flatten(rows) + (row + [AnswerButton(i)]) == buttons[..i + 1]
  {
    assert buttons[..i + 1] == buttons[..i] + [buttons[i]];
  }

  /** A full or final row pushed onto full rows keeps the rows the chunks of the buttons so far. */
  lemma FlushRow(rows: Keyboard, row: seq<Button>, buttons: seq<Button>, i: nat, n: nat)
    requires i < n == |buttons| && 0 < |row| <= 3
    requires forall k :: 0 <= k < |rows| ==> |rows[k]| == 3
    requires Seqs.Flatten(rows) + row == buttons[..i + 1]
    requires |row| == 3 || i == n - 1
    ensures i + 1 < n ==> (forall k :: 0 <= k < |rows + [row]| ==> |(rows + [row])[k]| == 3)
                           && Seqs.Flatten(rows + [row]) + [] == buttons[..i + 1]
    ensures i + 1 == n ==> rows + [row] == Seqs.Chunks(buttons, 3)
  {
    Seqs.FlattenAppend(rows, [row]);
    assert Seqs.Flatten([row]) == row + Seqs.Flatten([row][1..]);
    assert Seqs.Flatten(rows + [row]) + [] == buttons[..i + 1];
    if i + 1 == n {
      assert buttons[..i + 1] == buttons;
      Seqs.ChunksAfterFull(rows, row, 3);
      Seqs.ChunksShort(row, 3);
    }
  }

  // ---------------------------------------------------------------------
  // Student statistics after an answer
  // ---------------------------------------------------------------------

  /** The counters of a student record. */
  class StudentStats {
    var tasksCompleted: int
    var correctAnswers: int

    /** No more correct answers than completed tasks. */
    ghost predicate Valid()
      reads this
    {
      0 <= correctAnswers <= tasksCompleted
    }

    /** The counters as stored for the student; they are valid when the stored ones are. */
    constructor (tasks: int, correct: int)
      ensures tasksCompleted == tasks && correctAnswers == correct
      ensures Valid() <==> 0 <= correct <= tasks
    {
      tasksCompleted, correctAnswers := tasks, correct;
    }

    /** One more completed task, and one more correct answer when it was correct. */
    method Record(isCorrect: bool)
      modifies this
      ensures tasksCompleted == old(tasksCompleted) + 1
      ensures correctAnswers == old(correctAnswers) + (if isCorrect then 1 else 0)
      ensures old(Valid()) ==> Valid()
    {
      tasksCompleted := tasksCompleted + 1;
      if isCorrect {
        correctAnswers := correctAnswers + 1;
      }
    }
  }

  /** The counters after a run of answers: the tasks grow by the answers, the correct ones by the correct answers. */
  function Recorded(tasks: int, correct: int, outcomes: seq<bool>): (int, int)
    decreases |outcomes|
  {
    if outcomes == [] then (tasks, correct)
    else
      var (t, c) := Recorded(tasks, correct, outcomes[..|outcomes| - 1]);
      (t + 1, c + if outcomes[|outcomes| - 1] then 1 else 0)
  }

  function CountTrue(outcomes: seq<bool>): nat
  {
    if outcomes == [] then 0 else CountTrue(outcomes[..|outcomes| - 1]) + if outcomes[|outcomes| - 1] then 1 else 0
  }

  lemma {:induction false} RecordedCounts(tasks: int, correct: int, outcomes: seq<bool>)
    ensures Recorded(tasks, correct, outcomes) == (tasks + |outcomes|, correct + CountTrue(outcomes))
    ensures CountTrue(outcomes) <= |outcomes|
    ensures 0 <= correct <= tasks ==> 0 <= Recorded(tasks, correct, outcomes).1 <= Recorded(tasks, correct, outcomes).0
    decreases |outcomes|
  {
    if outcomes != [] {
      RecordedCounts(tasks, correct, outcomes[..|outcomes| - 1]);
    }
  }
}
