/**
 * The dialogue state of `bot/conversation.py`: one `Conversation` object per
 * student with a bounded message history, the task being answered and an
 * idle/waiting state, and the in-memory registry of active conversations.
 *
 * The clock is the argument `now`; `isoformat` and `fromisoformat` are the
 * arguments `iso` and `fromIso`; `str()` of a non-string value is `repr`.
 */
module Conversations {
  import opened Wrappers
  import opened Values
  import Seqs

  /** A point in time, as seconds. */
  type Time = real

  /** The fields of a conversation. */
  datatype ConvState = ConvState(
    studentId: int,
    history: seq<Dict>,
    currentTask: Option<Dict>,
    currentState: string,
    lastMessageTime: Time)

  /** The message dictionary `add_message` builds. It never has a "task" key. */
  function MessageOf(role: string, text: string, messageId: Option<int>, stamp: string): Dict
  {
    map["role" := Str(role), "text" := Str(text), "timestamp" := Str(stamp),
        "message_id" := if messageId.None? then Null else Int(messageId.value)]
  }

  /** The history after appending `m` and trimming to the last `maxHistory` messages with Python's `h[-max:]`. */
  function Appended(h: seq<Dict>, m: Dict, maxHistory: int): seq<Dict>
  {
    var h' := h + [m];
    if |h'| > maxHistory then Seqs.PyDrop(h', -maxHistory) else h'
  }

  /**
   * With a positive bound the history never exceeds it, keeps the most
   * recent messages in order and ends with the new one.
   */
  lemma AppendedBounded(h: seq<Dict>, m: Dict, maxHistory: int)
    requires maxHistory > 0
    ensures |Appended(h, m, maxHistory)| == if |h| + 1 > maxHistory then maxHistory else |h| + 1
    ensures Appended(h, m, maxHistory) == (h + [m])[|h| + 1 - |Appended(h, m, maxHistory)|..]
    ensures Appended(h, m, maxHistory)[|Appended(h, m, maxHistory)| - 1] == m
  {
    var h' := h + [m];
    var r := Appended(h, m, maxHistory);
    assert r == h'[|h'| - |r|..];
    assert r[|r| - 1] == h'[|h'| - 1];
  }

  /** A bound of 0 trims nothing, because `h[-0:]` is the whole list. */
  lemma AppendedZeroBound(h: seq<Dict>, m: Dict)
    ensures Appended(h, m, 0) == h + [m]
  {
  }

  /** A message `get_last_task` accepts: from the bot and carrying a task. */
  predicate IsTaskMessage(m: Dict)
  {
    Get(m, "role") == Str("bot") && "task" in m
  }

  /** The task of the newest task message, or None (as `Null`). */
  function LastBotTask(h: seq<Dict>): Value
  {
    if h == [] then Null
    else if IsTaskMessage(h[|h| - 1]) then h[|h| - 1]["task"]
    else LastBotTask(h[..|h| - 1])
  }

  /** LastBotTask is None when no message carries a task. */
  lemma {:induction false} LastBotTaskNone(h: seq<Dict>)
    requires forall i :: 0 <= i < |h| ==> !IsTaskMessage(h[i])
    ensures LastBotTask(h) == Null
  {
    if h != [] {
      var n := |h| - 1;
      assert forall i :: 0 <= i < n ==> h[..n][i] == h[i];
      LastBotTaskNone(h[..n]);
    }
  }

  /** LastBotTask is the task of the newest task message. */
  lemma {:induction false} LastBotTaskNewest(h: seq<Dict>, i: nat)
    requires i < |h| && IsTaskMessage(h[i])
    requires forall j :: i < j < |h| ==> !IsTaskMessage(h[j])
    ensures LastBotTask(h) == h[i]["task"]
  {
    var n := |h| - 1;
    if i < n {
      assert !IsTaskMessage(h[n]);
      assert forall j :: i < j < n ==> h[..n][j] == h[j];
      assert h[..n][i] == h[i];
      LastBotTaskNewest(h[..n], i);
    }
  }

  /** A truthy current task: present and non-empty. */
  predicate HasTask(t: Option<Dict>)
  {
    t.Some? && t.value != map[]
  }

  /** `get_last_task`: the current task if set, else the newest task message's task, else None. */
  function LastTask(s: ConvState): Value
  {
    if HasTask(s.currentTask) then Obj(s.currentTask.value) else LastBotTask(s.history)
  }

  /** Histories built by `add_message` carry no task message. */
  ghost predicate NoTaskMessages(h: seq<Dict>)
  {
    forall i :: 0 <= i < |h| ==> "task" !in h[i]
  }

  /** `add_message` keeps a history free of task messages. */
  lemma AppendedNoTask(h: seq<Dict>, role: string, text: string, messageId: Option<int>, stamp: string,
                       maxHistory: int)
    requires NoTaskMessages(h)
    ensures NoTaskMessages(Appended(h, MessageOf(role, text, messageId, stamp), maxHistory))
  {
    var h' := h + [MessageOf(role, text, messageId, stamp)];
    var r := Appended(h, MessageOf(role, text, messageId, stamp), maxHistory);
    assert NoTaskMessages(h') by {
      forall i | 0 <= i < |h'| ensures "task" !in h'[i] {
        if i < |h| { assert h'[i] == h[i]; }
      }
    }
    forall i | 0 <= i < |r| ensures "task" !in r[i] {
      assert r[i] == h'[|h'| - |r| + i];
    }
  }

  /** Without task messages the last task is the current task or None. */
  lemma LastTaskWithoutTaskMessages(s: ConvState)
    requires NoTaskMessages(s.history)
    ensures LastTask(s) == if HasTask(s.currentTask) then Obj(s.currentTask.value) else Null
  {
    if !HasTask(s.currentTask) {
      LastBotTaskNone(s.history);
    }
  }

  // ---------------------------------------------------------------------
  // format_task_for_display
  // ---------------------------------------------------------------------

  const NoTaskText: string := "Нет активной задачи."

  /** Hashable values can be looked up in a display table; lists and dictionaries raise. */
  predicate Hashable(v: Value)
  {
    !v.List? && !v.Obj?
  }

  /** The task-type display table, with the code itself as the default. */
  function TaskTypeDisplay(t: Value): Value
  {
    if t == Str("template") || t == Str("multiple_choice") then Str("Задача с выбором ответа")
    else if t == Str("creative") then Str("Творческая задача")
    else t
  }

  /** The difficulty display table, with the code itself as the default. */
  function DifficultyDisplay(d: Value): Value
  {
    if d == Str("standard") || d == Str("basic") then Str("Базовый уровень")
    else if d == Str("advanced") then Str("Продвинутый уровень")
    else d
  }

  /** The label shown for an option: `display_label`, else `label`, else empty. */
  function DisplayLabel(o: Dict): Value
  {
    GetOr(o, "display_label", GetOr(o, "label", Str("")))
  }

  /** One option line; None when the option is not a dictionary or has no text (the call raises). */
  function OptionLine(o: Value, repr: Value -> string): Option<string>
  {
    if o.Obj? && "text" in o.fields
    then Some("\n*" + Show(DisplayLabel(o.fields), repr) + ".* " + Show(o.fields["text"], repr))
    else None
  }

  /** The options iterated by the loop; None where iterating or reading an item raises. */
  function OptionItems(v: Value): Option<seq<Value>>
  {
    match v
    case List(xs) => Some(xs)
    case Obj(m) => if m == map[] then Some([]) else None
    case Str(s) => if s == "" then Some([]) else None
    case _ => None
  }

  /** The option lines in order; None as soon as one option raises. */
  function OptionLines(xs: seq<Value>, repr: Value -> string): Option<string>
  {
    if xs == [] then Some("")
    else
      match OptionLines(xs[..|xs| - 1], repr)
      case None => None
      case Some(p) =>
        match OptionLine(xs[|xs| - 1], repr)
        case None => None
        case Some(l) => Some(p + l)
  }

  /** The option lines are produced exactly when every option is a dictionary with a text. */
  lemma {:induction false} OptionLinesOk(xs: seq<Value>, repr: Value -> string)
    ensures OptionLines(xs, repr).Some? <==> forall i :: 0 <= i < |xs| ==> xs[i].Obj? && "text" in xs[i].fields
  {
    if xs != [] {
      var n := |xs| - 1;
      OptionLinesOk(xs[..n], repr);
      assert forall i :: 0 <= i < n ==> xs[..n][i] == xs[i];
    }
  }

  /** `format_task_for_display`; None where the call raises. */
  function FormatTask(t: Option<Dict>, repr: Value -> string): Option<string>
  {
    if !HasTask(t) then Some(NoTaskText)
    else
      var task := t.value;
      var taskType := GetOr(task, "task_type", Str(""));
      var difficulty := GetOr(task, "difficulty", Str(""));
      var concept := GetOr(task, "concept_name", Str(""));
      var question := GetOr(task, "question", Str(""));
      if !Hashable(taskType) || !Hashable(difficulty) then None
      else
        var header := TaskHead + Show(concept, repr) + "*\n\n" + Show(question, repr) + "\n\n";
        var footer := "\n\n_Тип: " + Show(TaskTypeDisplay(taskType), repr) + " | Сложность: "
                      + Show(DifficultyDisplay(difficulty), repr) + "_";
        if "options" !in task then Some(header + footer)
        else
          match OptionItems(task["options"])
          case None => None
          case Some(xs) =>
            match OptionLines(xs, repr)
            case None => None
            case Some(lines) => Some(header + "\n*Варианты ответов:*\n" + lines + footer)
  }

  const TaskHead: string := "📚 *Задача по теме: "

  /**
   * Without a task the placeholder is shown. A task with hashable codes is
   * shown under its heading, and one with a list of options is shown
   * exactly when every option is a dictionary with a text.
   */
  lemma FormatTaskFacts(t: Option<Dict>, repr: Value -> string)
    ensures !HasTask(t) ==> FormatTask(t, repr) == Some(NoTaskText)
    ensures HasTask(t) && FormatTask(t, repr).Some? ==> TaskHead <= FormatTask(t, repr).value
    ensures HasTask(t) && Hashable(GetOr(t.value, "task_type", Str(""))) && Hashable(GetOr(t.value, "difficulty", Str("")))
      ==> ("options" !in t.value ==> FormatTask(t, repr).Some?)
    ensures HasTask(t) && Hashable(GetOr(t.value, "task_type", Str(""))) && Hashable(GetOr(t.value, "difficulty", Str("")))
      && "options" in t.value && t.value["options"].List?
      ==> (FormatTask(t, repr).Some? <==>
           forall i :: 0 <= i < |t.value["options"].items| ==>
             t.value["options"].items[i].Obj? && "text" in t.value["options"].items[i].fields)
  {
    if HasTask(t) && "options" in t.value && t.value["options"].List? {
      OptionLinesOk(t.value["options"].items, repr);
    }
  }

  // ---------------------------------------------------------------------
  // to_dict / from_dict
  // ---------------------------------------------------------------------

  /** The dictionary `to_dict` builds and `from_dict` reads; None is a missing (or null) key. */
  datatype ConversationData = ConversationData(
    studentId: Option<int>,
    history: Option<seq<Dict>>,
    currentTask: Option<Dict>,
    currentState: Option<string>,
    lastMessageTime: Option<string>)

  function Encode(s: ConvState, iso: Time -> string): ConversationData
  {
    ConversationData(Some(s.studentId), Some(s.history), s.currentTask, Some(s.currentState),
                     Some(iso(s.lastMessageTime)))
  }

  /** `from_dict`: missing keys take the constructor's defaults; an empty or unparsable time keeps `now`. */
  function Decode(d: ConversationData, now: Time, fromIso: string -> Option<Time>): ConvState
  {
    var t := if d.lastMessageTime.Some? && d.lastMessageTime.value != "" then fromIso(d.lastMessageTime.value) else None;
    ConvState(d.studentId.GetOr(0), d.history.GetOr([]), d.currentTask, d.currentState.GetOr("idle"), t.GetOr(now))
  }

  /**
   * `from_dict(to_dict(c))` keeps the student, the history, the task and
   * the state; it keeps the time too when `fromisoformat` reads back what
   * `isoformat` wrote.
   */
  lemma RoundTrip(s: ConvState, now: Time, iso: Time -> string, fromIso: string -> Option<Time>)
    ensures var s' := Decode(Encode(s, iso), now, fromIso);
      s'.studentId == s.studentId && s'.history == s.history && s'.currentTask == s.currentTask
      && s'.currentState == s.currentState
    ensures iso(s.lastMessageTime) != "" && fromIso(iso(s.lastMessageTime)) == Some(s.lastMessageTime) ==>
      Decode(Encode(s, iso), now, fromIso) == s
  {
  }

  /** An empty dictionary decodes to a fresh conversation of student 0. */
  lemma DecodeDefaults(now: Time, fromIso: string -> Option<Time>)
    ensures Decode(ConversationData(None, None, None, None, None), now, fromIso) == ConvState(0, [], None, "idle", now)
  {
  }

  // ---------------------------------------------------------------------
  // The objects
  // ---------------------------------------------------------------------

  /** `Conversation`. */
  class Conversation {
    const studentId: int
    var history: seq<Dict>
    var currentTask: Option<Dict>
    var currentState: string
    var lastMessageTime: Time

    function State(): ConvState
      reads this
    {
      ConvState(studentId, history, currentTask, currentState, lastMessageTime)
    }

    /** A new conversation: empty history, no task, idle. */
    constructor(studentId: int, now: Time)
      ensures State() == ConvState(studentId, [], None, "idle", now)
    {
      this.studentId := studentId;
      history := [];
      currentTask := None;
      currentState := "idle";
      lastMessageTime := now;
    }

    /** `add_message`; `maxHistory` is `MAX_HISTORY_MESSAGES`. */
    method AddMessage(role: string, text: string, messageId: Option<int>, now: Time, iso: Time -> string,
                      maxHistory: int)
      modifies this
      ensures history == Appended(old(history), MessageOf(role, text, messageId, iso(now)), maxHistory)
      ensures lastMessageTime == now
      ensures currentTask == old(currentTask) && currentState == old(currentState)
    {
      var message := MessageOf(role, text, messageId, iso(now));
      history := history + [message];
      lastMessageTime := now;
      if |history| > maxHistory {
        history := Seqs.PyDrop(history, -maxHistory);
      }
    }

    /** `set_current_task`. */
    method SetCurrentTask(task: Dict)
      modifies this
      ensures State() == old(State()).(currentTask := Some(task), currentState := "waiting_for_answer")
    {
      currentTask := Some(task);
      currentState := "waiting_for_answer";
    }

    /** `clear_current_task`. */
    method ClearCurrentTask()
      modifies this
      ensures State() == old(State()).(currentTask := None, currentState := "idle")
    {
      currentTask := None;
      currentState := "idle";
    }

    /** `get_last_task`, scanning the history from the newest message. */
    method GetLastTask() returns (task: Value)
      ensures task == LastTask(State())
    {
      if HasTask(currentTask) {
        return Obj(currentTask.value);
      }
      var i := |history|;
      assert history[..i] == history;
      while i > 0
        invariant 0 <= i <= |history|
        invariant LastBotTask(history) == LastBotTask(history[..i])
      {
        i := i - 1;
        var message := history[i];
        assert history[..i + 1][..i] == history[..i];
        if IsTaskMessage(message) {
          return message["task"];
        }
      }
      return Null;
    }

    /** `format_task_for_display`; None where the call raises. */
    method FormatTaskForDisplay(repr: Value -> string) returns (text: Option<string>)
      ensures text == FormatTask(currentTask, repr)
    {
      if !HasTask(currentTask) {
        return Some(NoTaskText);
      }
      var task := currentTask.value;
      var taskType := GetOr(task, "task_type", Str(""));
      var difficulty := GetOr(task, "difficulty", Str(""));
      var concept := GetOr(task, "concept_name", Str(""));
      var question := GetOr(task, "question", Str(""));
      if !Hashable(taskType) || !Hashable(difficulty) {
        return None;
      }
      var formatted := TaskHead + Show(concept, repr) + "*\n\n" + Show(question, repr) + "\n\n";
      var footer := "\n\n_Тип: " + Show(TaskTypeDisplay(taskType), repr) + " | Сложность: "
                    + Show(DifficultyDisplay(difficulty), repr) + "_";
      if "options" in task {
        var items := OptionItems(task["options"]);
        if items.None? {
          return None;
        }
        var xs := items.value;
        var lines := "";
        for i := 0 to |xs|
          invariant OptionLines(xs[..i], repr) == Some(lines)
        {
          var line := OptionLine(xs[i], repr);
          if line.None? {
            OptionLinesOk(xs, repr);
            return None;
          }
          assert xs[..i + 1][..i] == xs[..i];
          lines := lines + line.value;
        }
        assert xs[..|xs|] == xs;
        formatted := formatted + "\n*Варианты ответов:*\n" + lines;
      }
      return Some(formatted + footer);
    }

    /** `to_dict`. */
    function ToDict(iso: Time -> string): ConversationData
      reads this
    {
      Encode(State(), iso)
    }
  }

  /** `Conversation.from_dict`. */
  method FromDict(data: ConversationData, now: Time, fromIso: string -> Option<Time>) returns (c: Conversation)
    ensures fresh(c) && c.State() == Decode(data, now, fromIso)
  {
    var s := Decode(data, now, fromIso);
    c := new Conversation(s.studentId, now);
    c.history := s.history;
    c.currentTask := s.currentTask;
    c.currentState := s.currentState;
    c.lastMessageTime := s.lastMessageTime;
  }

  /** `active_conversations` with `get_conversation` and `save_conversation`. */
  class Registry {
    var active: map<int, Conversation>

    /** Every conversation is stored under its own student. */
    ghost predicate Valid()
      reads this
    {
      forall k :: k in active ==> active[k].studentId == k
    }

    constructor()
      ensures active == map[] && Valid()
    {
      active := map[];
    }

    /** The student's conversation, created on first use and the same object afterwards. */
    method GetConversation(studentId: int, now: Time) returns (c: Conversation)
      requires Valid()
      modifies this
      ensures Valid()
      ensures c.studentId == studentId && studentId in active && active[studentId] == c
      ensures studentId in old(active) ==> c == old(active)[studentId] && active == old(active)
      ensures studentId !in old(active) ==>
        fresh(c) && c.State() == ConvState(studentId, [], None, "idle", now) && active == old(active)[studentId := c]
    {
      if studentId !in active {
        var created := new Conversation(studentId, now);
        active := active[studentId := created];
      }
      c := active[studentId];
    }

    /** `save_conversation`: stores the conversation under its student. */
    method SaveConversation(c: Conversation)
      requires Valid()
      modifies this
      ensures Valid()
      ensures active == old(active)[c.studentId := c]
    {
      active := active[c.studentId := c];
    }
  }
}
