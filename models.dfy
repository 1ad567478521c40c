/**
 * The record serialisers of `database/models.py`. `to_dict` builds a
 * dictionary; `from_dict` pops its fields out of the caller's dictionary, so
 * it returns the record together with what is left of that dictionary.
 * Fields hold whatever value the dictionary held, as in Python.
 * `isoformat` and `fromisoformat` are the arguments `iso` and `fromIso`, and
 * the clock is `now`.
 */
module Models {
  import opened Wrappers
  import opened Values

  /** A point in time, as seconds. */
  type Time = real

  /** What `datetime.fromisoformat` does to a popped value: an empty value means `now`, an unparsable string too; a non-string raises. */
  function ReadTime(v: Value, now: Time, fromIso: string -> Option<Time>): Option<Time>
  {
    if !Truthy(v) then Some(now)
    else if v.Str? then Some(fromIso(v.s).GetOr(now))
    else None
  }

  // ---------------------------------------------------------------------
  // Concept
  // ---------------------------------------------------------------------

  datatype Concept = Concept(
    name: Value, definition: Value, chapter: Value, example: Value, difficulty: Value, id: Value,
    properties: Dict)

  /** The keys `Concept.from_dict` pops. */
  const ConceptKeys: set<string> := {"id", "name", "definition", "chapter", "example", "difficulty"}

  /** `Concept.to_dict`: the core fields, then the properties spread over them. */
  function ConceptToDict(c: Concept): Dict
  {
    map["name" := c.name, "definition" := c.definition, "chapter" := c.chapter, "example" := c.example,
        "difficulty" := c.difficulty] + c.properties
  }

  /**
   * `Concept.from_dict`: the concept and the caller's dictionary after the
   * pops, which is the very dictionary the concept keeps as its properties.
   */
  function ConceptFromDict(data: Dict): (r: (Concept, Dict))
    ensures r.1 == r.0.properties
    ensures forall k :: k in r.1 <==> k in data && k !in ConceptKeys
    ensures forall k :: k in r.1 ==> r.1[k] == data[k]
  {
    var rest := data - ConceptKeys;
    (Concept(GetOr(data, "name", Str("")), GetOr(data, "definition", Str("")), GetOr(data, "chapter", Str("")),
             GetOr(data, "example", Null), GetOr(data, "difficulty", Str("basic")), GetOr(data, "id", Null), rest),
     rest)
  }

  /**
   * `from_dict(to_dict(c))` is `c` without its id, provided no property
   * shadows a core field; the caller's dictionary is left holding exactly
   * the properties.
   */
  lemma ConceptRoundTrip(c: Concept)
    requires forall k :: k in c.properties ==> k !in ConceptKeys
    ensures ConceptFromDict(ConceptToDict(c)).0 == c.(id := Null)
  {
    var d := ConceptToDict(c);
    var r := ConceptFromDict(d);
    assert "name" !in c.properties && "definition" !in c.properties && "chapter" !in c.properties;
    assert "example" !in c.properties && "difficulty" !in c.properties && "id" !in c.properties;
    assert r.1 == c.properties;
  }

  /** A property with a core field's name wins over that field, because the properties are spread last. */
  lemma ConceptPropertiesWin(c: Concept, k: string)
    requires k in c.properties
    ensures k in ConceptToDict(c) && ConceptToDict(c)[k] == c.properties[k]
  {
  }

  /** A property named like a core field changes what the round trip gives back. */
  lemma ConceptShadowingCounterexample()
    ensures var c := Concept(Str("a"), Str(""), Str(""), Null, Str("basic"), Null, map["name" := Str("b")]);
      ConceptFromDict(ConceptToDict(c)).0.name == Str("b")
  {
  }

  /** Missing keys take the declared defaults; nothing is left over. */
  lemma ConceptDefaults()
    ensures ConceptFromDict(map[]) == (Concept(Str(""), Str(""), Str(""), Null, Str("basic"), Null, map[]), map[])
  {
  }

  // ---------------------------------------------------------------------
  // Task
  // ---------------------------------------------------------------------

  datatype Task = Task(
    question: Value, taskType: Value, difficulty: Value, conceptName: Value, options: Value, criteria: Value,
    hints: Value, id: Value)

  /** The keys `Task.from_dict` pops. */
  const TaskKeys: set<string> := {"id", "question", "task_type", "difficulty", "concept_name", "options", "criteria", "hints"}

  /** `Task.to_dict`; the id is not emitted. */
  function TaskToDict(t: Task): Dict
  {
    map["question" := t.question, "task_type" := t.taskType, "difficulty" := t.difficulty,
        "concept_name" := t.conceptName, "options" := t.options, "criteria" := t.criteria, "hints" := t.hints]
  }

  /** `Task.from_dict`: the task and the caller's dictionary after the pops; keys the task does not know stay there. */
  function TaskFromDict(data: Dict): (r: (Task, Dict))
    ensures forall k :: k in r.1 <==> k in data && k !in TaskKeys
  {
    (Task(GetOr(data, "question", Str("")), GetOr(data, "task_type", Str("")), GetOr(data, "difficulty", Str("")),
          GetOr(data, "concept_name", Str("")), GetOr(data, "options", List([])), GetOr(data, "criteria", List([])),
          GetOr(data, "hints", List([])), GetOr(data, "id", Null)),
     data - TaskKeys)
  }

  /** `from_dict(to_dict(t))` is `t` without its id, and consumes the whole dictionary. */
  lemma TaskRoundTrip(t: Task)
    ensures TaskFromDict(TaskToDict(t)) == (t.(id := Null), map[])
  {
    var d := TaskToDict(t);
    assert d - TaskKeys == map[];
  }

  /** Whatever the input, the task serialises to its seven fields: unknown keys are dropped and no id is emitted. */
  lemma TaskDropsUnknownKeys(data: Dict)
    ensures TaskToDict(TaskFromDict(data).0).Keys == TaskKeys - {"id"}
    ensures forall k :: k in data && k in TaskKeys - {"id"} ==> TaskToDict(TaskFromDict(data).0)[k] == data[k]
  {
  }

  /** Missing keys take the declared defaults: empty strings, empty lists, no id. */
  lemma TaskDefaults()
    ensures TaskFromDict(map[]).0
         == Task(Str(""), Str(""), Str(""), Str(""), List([]), List([]), List([]), Null)
  {
  }

  // ---------------------------------------------------------------------
  // Student
  // ---------------------------------------------------------------------

  datatype Student = Student(
    telegramId: Value, username: Value, firstName: Value, lastName: Value, currentChapter: Value,
    tasksCompleted: Value, correctAnswers: Value, lastActive: Time, masteredConcepts: Value, id: Value)

  /** The keys `Student.from_dict` pops. */
  const StudentKeys: set<string> := {"id", "telegram_id", "username", "first_name", "last_name", "current_chapter",
                                     "tasks_completed", "correct_answers", "last_active", "mastered_concepts"}

  /** `Student.to_dict`; the id is not emitted. */
  function StudentToDict(s: Student, iso: Time -> string): Dict
  {
    map["telegram_id" := s.telegramId, "username" := s.username, "first_name" := s.firstName,
        "last_name" := s.lastName, "current_chapter" := s.currentChapter, "tasks_completed" := s.tasksCompleted,
        "correct_answers" := s.correctAnswers, "last_active" := Str(iso(s.lastActive)),
        "mastered_concepts" := s.masteredConcepts]
  }

  /** `Student.from_dict`: None when `fromisoformat` is handed a non-string and raises. */
  function StudentFromDict(data: Dict, now: Time, fromIso: string -> Option<Time>): (r: Option<(Student, Dict)>)
    ensures r.Some? ==> forall k :: k in r.value.1 <==> k in data && k !in StudentKeys
  {
    match ReadTime(GetOr(data, "last_active", Null), now, fromIso)
    case None => None
    case Some(lastActive) =>
      Some((Student(GetOr(data, "telegram_id", Int(0)), GetOr(data, "username", Null), GetOr(data, "first_name", Null),
                    GetOr(data, "last_name", Null), GetOr(data, "current_chapter", Str("")),
                    GetOr(data, "tasks_completed", Int(0)), GetOr(data, "correct_answers", Int(0)), lastActive,
                    GetOr(data, "mastered_concepts", List([])), GetOr(data, "id", Null)),
            data - StudentKeys))
  }

  /** A round trip keeps everything but the id, and the time when `fromisoformat` reads back what `isoformat` wrote. */
  lemma StudentRoundTrip(s: Student, now: Time, iso: Time -> string, fromIso: string -> Option<Time>)
    requires iso(s.lastActive) != "" && fromIso(iso(s.lastActive)) == Some(s.lastActive)
    ensures StudentFromDict(StudentToDict(s, iso), now, fromIso) == Some((s.(id := Null), map[]))
  {
    var d := StudentToDict(s, iso);
    assert d - StudentKeys == map[];
  }

  /** An unparsable or missing time falls back to the current time. */
  lemma StudentTimeFallback(data: Dict, now: Time, fromIso: string -> Option<Time>)
    requires "last_active" in data ==> data["last_active"].Str? && fromIso(data["last_active"].s).None?
    ensures StudentFromDict(data, now, fromIso).Some?
    ensures StudentFromDict(data, now, fromIso).value.0.lastActive == now
  {
  }

  // ---------------------------------------------------------------------
  // StudentAnswer
  // ---------------------------------------------------------------------

  datatype StudentAnswer = StudentAnswer(
    studentId: Value, taskId: Value, answerText: Value, isCorrect: Value, feedback: Value, timestamp: Time, id: Value)

  /** The keys `StudentAnswer.from_dict` pops. */
  const AnswerKeys: set<string> := {"id", "student_id", "task_id", "answer_text", "is_correct", "feedback", "timestamp"}

  /** `StudentAnswer.to_dict`; the id is not emitted. */
  function AnswerToDict(a: StudentAnswer, iso: Time -> string): Dict
  {
    map["student_id" := a.studentId, "task_id" := a.taskId, "answer_text" := a.answerText,
        "is_correct" := a.isCorrect, "feedback" := a.feedback, "timestamp" := Str(iso(a.timestamp))]
  }

  /** `StudentAnswer.from_dict`: None when `fromisoformat` is handed a non-string and raises. */
  function AnswerFromDict(data: Dict, now: Time, fromIso: string -> Option<Time>): (r: Option<(StudentAnswer, Dict)>)
    ensures r.Some? ==> forall k :: k in r.value.1 <==> k in data && k !in AnswerKeys
  {
    match ReadTime(GetOr(data, "timestamp", Null), now, fromIso)
    case None => None
    case Some(timestamp) =>
      Some((StudentAnswer(GetOr(data, "student_id", Int(0)), GetOr(data, "task_id", Int(0)),
                          GetOr(data, "answer_text", Str("")), GetOr(data, "is_correct", Bool(false)),
                          GetOr(data, "feedback", Str("")), timestamp, GetOr(data, "id", Null)),
            data - AnswerKeys))
  }

  /** A round trip keeps everything but the id, given a time that survives `isoformat`. */
  lemma AnswerRoundTrip(a: StudentAnswer, now: Time, iso: Time -> string, fromIso: string -> Option<Time>)
    requires iso(a.timestamp) != "" && fromIso(iso(a.timestamp)) == Some(a.timestamp)
    ensures AnswerFromDict(AnswerToDict(a, iso), now, fromIso) == Some((a.(id := Null), map[]))
  {
    var d := AnswerToDict(a, iso);
    assert d - AnswerKeys == map[];
  }

  /** Missing keys take the declared defaults and the time is the current one. */
  lemma AnswerDefaults(now: Time, fromIso: string -> Option<Time>)
    ensures AnswerFromDict(map[], now, fromIso)
         == Some((StudentAnswer(Int(0), Int(0), Str(""), Bool(false), Str(""), now, Null), map[]))
  {
  }
}
