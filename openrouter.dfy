/**
 * The deterministic parts of the OpenRouter client (`api/openrouter.py`):
 * what `generate_task` does with the task the language model returns, its
 * fallback task, the multiple-choice branch of `check_answer`, and the
 * helpers that build answer options and hints without the model.
 *
 * The model's reply is the argument `reply`: the task dictionary it yields,
 * or None when the request, the reply's format or its JSON fails. `repr` is
 * how `str()` writes a value that is not a string.
 */
module OpenRouter {
  import opened Wrappers
  import opened Values
  import Text
  import Seqs

  type Repr = Value -> string

  // ---------------------------------------------------------------------
  // Fixed sentences
  // ---------------------------------------------------------------------

  const DefaultName := "понятие"
  const MissingDefinitionHead := "Определение для понятия "
  const MissingDefinitionTail := " отсутствует"
  const WhatIsHead := "Что такое "
  const WrongDefinitionHead := "Неверное определение "
  const NoExplanation := "Пояснение отсутствует."
  const KeyElementsHead := "Обратите внимание на ключевые элементы определения: "
  const RelateHead := "Подумайте о том, как "
  const RelateTail := " соотносится с другими понятиями в данной главе."
  const DescribeHead := "Опишите своими словами, что такое "
  const DescribeTail := " и как это понятие применяется на практике."
  const DefaultCriteria: seq<Value> := [Str("Точность определения"), Str("Глубина понимания"), Str("Примеры применения")]
  const ApplyTail := " Это понятие можно применить в следующих ситуациях..."
  const RightDefault := "Правильное определение"
  const RightWhy := "Это правильное определение понятия."
  const WrongWhy := "Это неверное определение."
  const FallbackHints: seq<Value> :=
    [Str("Обратите внимание на ключевые элементы определения."), Str("Подумайте о главных характеристиках этого понятия.")]
  const DefinitionDefault := "Определение понятия"

  // ---------------------------------------------------------------------
  // Task type and difficulty
  // ---------------------------------------------------------------------

  /** An unknown task type becomes "template". */
  function CoerceTaskType(t: string): string
  {
    if t == "template" || t == "creative" then t else "template"
  }

  /** An unknown difficulty becomes "standard". */
  function CoerceDifficulty(d: string): string
  {
    if d == "standard" || d == "advanced" then d else "standard"
  }

  /** The coercions land in the known values and keep a known value as it is. */
  lemma CoercionFacts(t: string, d: string)
    ensures CoerceTaskType(t) in {"template", "creative"} && CoerceDifficulty(d) in {"standard", "advanced"}
    ensures t in {"template", "creative"} <==> CoerceTaskType(t) == t
    ensures d in {"standard", "advanced"} <==> CoerceDifficulty(d) == d
  {
  }

  // ---------------------------------------------------------------------
  // Option labels
  // ---------------------------------------------------------------------

  /** `chr(65 + i)`: "A", "B", ...; beyond the characters Dafny can hold it is empty. */
  function Letter(i: nat): string
  {
    if i < 0xD800 - 65 then [(65 + i) as char] else []
  }

  /** A multiple-choice option as `generate_task` builds it. */
  function OptionObj(mark: string, text: Value, correct: bool, explanation: string): Value
  {
    Obj(map["label" := Str(mark), "text" := text, "is_correct" := Bool(correct), "explanation" := Str(explanation)])
  }

  // ---------------------------------------------------------------------
  // The fallback task
  // ---------------------------------------------------------------------

  /** The four options of the fallback task: the definition as the correct "A", three fixed wrong ones. */
  function FallbackOptions(definition: Value): seq<Value>
  {
    [OptionObj("A", definition, true, RightWhy),
     OptionObj("B", Str(WrongDefinitionHead + "1"), false, WrongWhy),
     OptionObj("C", Str(WrongDefinitionHead + "2"), false, WrongWhy),
     OptionObj("D", Str(WrongDefinitionHead + "3"), false, WrongWhy)]
  }

  /** The task `generate_task` returns when anything fails: four fixed options, or a fixed creative task. */
  function ApiFallbackTask(concept: Dict, taskType: string, difficulty: string, repr: Repr): Dict
  {
    var name := GetOr(concept, "name", Str(DefaultName));
    var common := map["concept_name" := name, "task_type" := Str(taskType), "difficulty" := Str(difficulty)];
    if taskType == "template" then
      map["question" := Str(WhatIsHead + Show(name, repr) + "?"),
          "options" := List(FallbackOptions(GetOr(concept, "definition", Str(RightDefault)))),
          "hints" := List(FallbackHints)] + common
    else
      map["question" := Str(DescribeHead + Show(name, repr) + DescribeTail),
          "criteria" := List(DefaultCriteria),
          "example_answer" := Str(Show(GetOr(concept, "definition", Str(DefinitionDefault)), repr) + ApplyTail)] + common
  }

  /** The fallback options are A to D with only A correct, A carrying the definition. */
  lemma FallbackOptionsShape(definition: Value)
    ensures var os := FallbackOptions(definition);
      |os| == 4
      && (forall i :: 0 <= i < 4 ==>
            os[i].Obj? && Get(os[i].fields, "label") == Str(Letter(i))
            && (Get(os[i].fields, "is_correct") == Bool(true) <==> i == 0))
      && Get(os[0].fields, "text") == definition
  {
    assert Letter(0) == "A" && Letter(1) == "B" && Letter(2) == "C" && Letter(3) == "D";
  }

  /** A multiple-choice fallback task carries those options, two hints, and the type and difficulty it was given. */
  lemma ApiFallbackTemplate(concept: Dict, difficulty: string, repr: Repr)
    ensures var t := ApiFallbackTask(concept, "template", difficulty, repr);
      t.Keys == {"question", "options", "hints", "concept_name", "task_type", "difficulty"}
      && t["options"] == List(FallbackOptions(GetOr(concept, "definition", Str(RightDefault))))
      && t["hints"] == List(FallbackHints) && |FallbackHints| == 2
      && t["task_type"] == Str("template") && t["difficulty"] == Str(difficulty)
  {
  }

  // ---------------------------------------------------------------------
  // Normalising the model's task
  // ---------------------------------------------------------------------

  /** `len(v)`; None when `len` raises. */
  function PyLen(v: Value): Option<nat>
  {
    match v
    case Str(s) => Some(|s|)
    case List(xs) => Some(|xs|)
    case Obj(m) => Some(|m|)
    case _ => None
  }

  /** The option made from the related concept `c` at position `i`. */
  function RelatedOption(c: Dict, i: nat): Value
  {
    Obj(map["label" := Str(Letter(i)),
            "text" := GetOr(c, "definition", Str(WrongDefinitionHead + Text.NatToString(i))),
            "is_correct" := Bool(false)])
  }

  /** The options made from the related concepts, labelled from `Letter(i)` on; None when one is not a dictionary. */
  function RelatedOptions(related: seq<Value>, i: nat): (r: Option<seq<Value>>)
    ensures r.Some? ==> |r.value| == |related|
  {
    if related == [] then Some([])
    else if !related[0].Obj? then None
    else
      match RelatedOptions(related[1..], i + 1)
      case None => None
      case Some(rest) => Some([RelatedOption(related[0].fields, i)] + rest)
  }

  /** The options that replace fewer than two: the definition as the correct "A", then up to three related concepts. */
  function DefaultOptions(definition: Value, related: seq<Value>): Option<seq<Value>>
  {
    match RelatedOptions(Seqs.PyTake(related, 3), 1)
    case None => None
    case Some(rest) => Some([Obj(map["label" := Str("A"), "text" := definition, "is_correct" := Bool(true)])] + rest)
  }

  /** When every related concept is a dictionary, they become options one by one, in order, from position `i`. */
  lemma {:induction false} RelatedOptionsSpec(related: seq<Value>, i: nat)
    requires forall k :: 0 <= k < |related| ==> related[k].Obj?
    ensures RelatedOptions(related, i).Some?
    ensures forall k :: 0 <= k < |related| ==> RelatedOptions(related, i).value[k] == RelatedOption(related[k].fields, i + k)
  {
    if related != [] {
      RelatedOptionsSpec(related[1..], i + 1);
      var rest := RelatedOptions(related[1..], i + 1).value;
      var os := [RelatedOption(related[0].fields, i)] + rest;
      assert RelatedOptions(related, i) == Some(os);
      forall k | 1 <= k < |related|
        ensures os[k] == RelatedOption(related[k].fields, i + k)
      {
        assert os[k] == rest[k - 1] && related[k] == related[1..][k - 1];
      }
    }
  }

  /**
   * One option after the normalisation loop. A dictionary gains a label
   * `Letter(i)` and a default explanation where missing. For a string or a
   * list, `in` tests a substring or a member, and the assignment that
   * follows a failed test raises.
   */
  function NormaliseOption(o: Value, i: nat): Option<Value>
  {
    match o
    case Obj(m) =>
      var m1 := if "label" !in m then m["label" := Str(Letter(i))] else m;
      Some(Obj(if "explanation" !in m1 then m1["explanation" := Str(NoExplanation)] else m1))
    case Str(s) => if Text.Contains(s, "label") && Text.Contains(s, "explanation") then Some(o) else None
    case List(xs) => if Str("label") in xs && Str("explanation") in xs then Some(o) else None
    case _ => None
  }

  /** The normalisation loop over a list of options, the first at position `i`. */
  function NormalisedOptions(xs: seq<Value>, i: nat): (r: Option<seq<Value>>)
    ensures r.Some? ==> |r.value| == |xs|
  {
    if xs == [] then Some([])
    else
      match (NormaliseOption(xs[0], i), NormalisedOptions(xs[1..], i + 1))
      case (Some(o), Some(rest)) => Some([o] + rest)
      case _ => None
  }

  /** `Some(prefix + rest)` when `r` is `Some(rest)`. */
  function Prefixed(prefix: seq<Value>, r: Option<seq<Value>>): Option<seq<Value>>
  {
    match r case Some(rest) => Some(prefix + rest) case None => None
  }

  /** The loop that normalises the options in place. */
  method NormaliseOptionsLoop(xs: seq<Value>) returns (r: Option<seq<Value>>)
    ensures r == NormalisedOptions(xs, 0)
  {
    var out: seq<Value> := [];
    var i := 0;
    assert xs[0..] == xs;
    match NormalisedOptions(xs, 0) {
      case None =>
      case Some(all) => assert [] + all == all;
    }
    while i < |xs|
      invariant 0 <= i <= |xs| && |out| == i
      invariant NormalisedOptions(xs, 0) == Prefixed(out, NormalisedOptions(xs[i..], i))
    {
      assert xs[i..][0] == xs[i] && xs[i..][1..] == xs[i + 1..];
      var o := NormaliseOption(xs[i], i);
      if o.None? {
        return None;
      }
      assert NormalisedOptions(xs[i..], i) == Prefixed([o.value], NormalisedOptions(xs[i + 1..], i + 1));
      match NormalisedOptions(xs[i + 1..], i + 1) {
        case None =>
        case Some(rest) => assert out + ([o.value] + rest) == (out + [o.value]) + rest;
      }
      out := out + [o.value];
      i := i + 1;
    }
    assert xs[i..] == [] && out + [] == out;
    r := Some(out);
  }

  /** A list of dictionaries normalises element by element. */
  lemma {:induction false} NormalisedOptionsSpec(xs: seq<Value>, i: nat)
    requires forall k :: 0 <= k < |xs| ==> xs[k].Obj?
    ensures NormalisedOptions(xs, i).Some?
    ensures forall k :: 0 <= k < |xs| ==> NormaliseOption(xs[k], i + k).Some? && NormalisedOptions(xs, i).value[k] == NormaliseOption(xs[k], i + k).value
  {
    if xs != [] {
      NormalisedOptionsSpec(xs[1..], i + 1);
      var rest := NormalisedOptions(xs[1..], i + 1).value;
      var ys := [NormaliseOption(xs[0], i).value] + rest;
      assert NormalisedOptions(xs, i) == Some(ys);
      forall k | 1 <= k < |xs|
        ensures NormaliseOption(xs[k], i + k).Some? && ys[k] == NormaliseOption(xs[k], i + k).value
      {
        assert ys[k] == rest[k - 1] && xs[k] == xs[1..][k - 1];
      }
    }
  }

  /** A dictionary option keeps every field it has and gains a label and an explanation where it lacks them. */
  lemma NormaliseDictOption(m: Dict, i: nat)
    ensures NormaliseOption(Obj(m), i).Some?
    ensures var o := NormaliseOption(Obj(m), i).value;
      o.Obj? && o.fields.Keys == m.Keys + {"label", "explanation"}
      && o.fields["label"] == GetOr(m, "label", Str(Letter(i)))
      && o.fields["explanation"] == GetOr(m, "explanation", Str(NoExplanation))
      && forall f :: f in m ==> o.fields[f] == m[f]
  {
  }

  /** The loop over `task.get("options", [])` once the options are known to be truthy with a length of at least 2. */
  function NormaliseOptionsValue(v: Value): Option<Value>
  {
    match v
    case List(xs) => (match NormalisedOptions(xs, 0) case Some(ys) => Some(List(ys)) case None => None)
    case Str(s) => if s == "" then Some(v) else None
    case Obj(m) => if forall k :: k in m ==> Text.Contains(k, "label") && Text.Contains(k, "explanation") then Some(v) else None
    case _ => None
  }

  /** The words of the definition longer than five characters, at most three. */
  function KeyWords(definition: string): seq<string>
  {
    Seqs.PyTake(Seqs.Filter((w: string) => |w| > 5, Text.Split(definition)), 3)
  }

  /** The two default hints of a multiple-choice task; None when the definition is not a string. */
  function TemplateHints(name: Value, definition: Value, repr: Repr): Option<Value>
  {
    if !definition.Str? then None
    else Some(List([Str(KeyElementsHead + Text.Join(", ", KeyWords(definition.s))),
                    Str(RelateHead + Show(name, repr) + RelateTail)]))
  }

  /** The options of a multiple-choice task after replacement and normalisation; None when that raises. */
  function TemplateOptions(options: Value, definition: Value, related: seq<Value>): Option<Value>
  {
    var replace := if !Truthy(options) then Some(true) else (match PyLen(options) case Some(n) => Some(n < 2) case None => None);
    match replace
    case None => None
    case Some(true) =>
      (match DefaultOptions(definition, related)
       case None => None
       case Some(os) => NormaliseOptionsValue(List(os)))
    case Some(false) => NormaliseOptionsValue(options)
  }

  /** The checks on a multiple-choice task: a default question, the options, default hints. */
  function CompleteTemplate(task: Dict, name: Value, definition: Value, related: seq<Value>, repr: Repr): Option<Dict>
  {
    var t1 := if !Truthy(Get(task, "question")) then task["question" := Str(WhatIsHead + Show(name, repr) + "?")] else task;
    match TemplateOptions(Get(t1, "options"), definition, related)
    case None => None
    case Some(os) =>
      var t2 := t1["options" := os];
      if Truthy(Get(t2, "hints")) then Some(t2)
      else match TemplateHints(name, definition, repr) case None => None case Some(h) => Some(t2["hints" := h])
  }

  /** The checks on a creative task: a default question, criteria and example answer. */
  function CompleteCreative(task: Dict, name: Value, definition: Value, repr: Repr): Dict
  {
    var t1 := if !Truthy(Get(task, "question")) then task["question" := Str(DescribeHead + Show(name, repr) + DescribeTail)] else task;
    var t2 := if !Truthy(Get(t1, "criteria")) then t1["criteria" := List(DefaultCriteria)] else t1;
    if !Truthy(Get(t2, "example_answer")) then t2["example_answer" := Str(Show(definition, repr) + ApplyTail)] else t2
  }

  /** Whether the loop over the concept's example questions can iterate them. */
  predicate Iterable(v: Value)
  {
    v.Str? || v.List? || v.Obj?
  }

  /**
   * `generate_task`. Without an API key or a concept name it fails before
   * the coercions, so the fallback gets the type and difficulty as given;
   * later failures get the coerced ones. A missing definition is filled in
   * first and the fallback sees it.
   */
  function GenerateTask(hasKey: bool, concept: Dict, related: seq<Value>, taskType: string, difficulty: string,
                        reply: Option<Value>, repr: Repr): Dict
  {
    if !hasKey || !Truthy(Get(concept, "name")) then ApiFallbackTask(concept, taskType, difficulty, repr)
    else
      var name := concept["name"];
      var c := if !Truthy(Get(concept, "definition"))
               then concept["definition" := Str(MissingDefinitionHead + Show(name, repr) + MissingDefinitionTail)]
               else concept;
      var (tt, df) := (CoerceTaskType(taskType), CoerceDifficulty(difficulty));
      var fallback := ApiFallbackTask(c, tt, df, repr);
      var completed :=
        if Truthy(Get(c, "questions")) && !Iterable(c["questions"]) then None
        else if reply.None? || !reply.value.Obj? then None
        else if tt == "template" then CompleteTemplate(reply.value.fields, name, c["definition"], related, repr)
        else Some(CompleteCreative(reply.value.fields, name, c["definition"], repr));
      match completed
      case None => fallback
      case Some(t) => t["concept_name" := name]["task_type" := Str(tt)]["difficulty" := Str(df)]
  }

  /** With a key and a named concept the result carries the coerced type and difficulty, whatever the model did. */
  lemma GenerateTaskCoerces(concept: Dict, related: seq<Value>, taskType: string, difficulty: string,
                            reply: Option<Value>, repr: Repr)
    requires Truthy(Get(concept, "name"))
    ensures var t := GenerateTask(true, concept, related, taskType, difficulty, reply, repr);
      t["task_type"] == Str(CoerceTaskType(taskType)) && t["difficulty"] == Str(CoerceDifficulty(difficulty))
      && t["concept_name"] == concept["name"]
  {
  }

  /** Without an API key the result is the fallback task for the type and difficulty as given. */
  lemma NoKeyGivesFallback(concept: Dict, related: seq<Value>, taskType: string, difficulty: string,
                           reply: Option<Value>, repr: Repr)
    ensures GenerateTask(false, concept, related, taskType, difficulty, reply, repr) == ApiFallbackTask(concept, taskType, difficulty, repr)
  {
  }

  /** A failed reply gives the fallback task for the coerced type and difficulty. */
  lemma FailedReplyGivesFallback(concept: Dict, related: seq<Value>, taskType: string, difficulty: string, repr: Repr)
    requires Truthy(Get(concept, "name")) && Truthy(Get(concept, "definition"))
    ensures GenerateTask(true, concept, related, taskType, difficulty, None, repr)
         == ApiFallbackTask(concept, CoerceTaskType(taskType), CoerceDifficulty(difficulty), repr)
  {
  }

  /** The replacement options: the definition as the correct "A", then the first three related concepts, incorrect. */
  lemma DefaultOptionsSpec(definition: Value, related: seq<Value>)
    requires forall k :: 0 <= k < |related| ==> related[k].Obj?
    ensures DefaultOptions(definition, related).Some?
    ensures var os := DefaultOptions(definition, related).value;
      var n := if |related| < 3 then |related| else 3;
      |os| == 1 + n
      && os[0] == Obj(map["label" := Str("A"), "text" := definition, "is_correct" := Bool(true)])
      && forall k :: 1 <= k <= n ==> os[k] == RelatedOption(related[k - 1].fields, k)
  {
    var rs := Seqs.PyTake(related, 3);
    assert forall k :: 0 <= k < |rs| ==> rs[k] == related[k];
    RelatedOptionsSpec(rs, 1);
    var rest := RelatedOptions(rs, 1).value;
    var os := DefaultOptions(definition, related).value;
    assert forall k :: 1 <= k < |os| ==> os[k] == rest[k - 1];
  }

  /** The replaced options after normalisation: each related one gains the default explanation. */
  lemma NormalisedRelatedOption(c: Dict, k: nat)
    ensures NormaliseOption(RelatedOption(c, k), k)
         == Some(Obj(map["label" := Str(Letter(k)),
                         "text" := GetOr(c, "definition", Str(WrongDefinitionHead + Text.NatToString(k))),
                         "is_correct" := Bool(false), "explanation" := Str(NoExplanation)]))
  {
  }

  /**
   * A multiple-choice reply with fewer than two options gets the definition
   * as the correct "A" followed by the first three related concepts
   * labelled B to D, all incorrect, each with the default explanation.
   */
  lemma FewOptionsReplaced(options: Value, definition: Value, related: seq<Value>)
    requires !Truthy(options) || (PyLen(options).Some? && PyLen(options).value < 2)
    requires forall k :: 0 <= k < |related| ==> related[k].Obj?
    ensures TemplateOptions(options, definition, related).Some?
    ensures var os := TemplateOptions(options, definition, related).value;
      var n := if |related| < 3 then |related| else 3;
      os.List? && |os.items| == 1 + n
      && os.items[0] == Obj(map["label" := Str("A"), "text" := definition, "is_correct" := Bool(true),
                                "explanation" := Str(NoExplanation)])
      && forall k :: 1 <= k <= n ==> NormaliseOption(RelatedOption(related[k - 1].fields, k), k) == Some(os.items[k])
  {
    DefaultOptionsSpec(definition, related);
    var os := DefaultOptions(definition, related).value;
    NormalisedOptionsSpec(os, 0);
  }

  // ---------------------------------------------------------------------
  // Grading a multiple-choice answer
  // ---------------------------------------------------------------------

  const NoSuchOption := "Вы выбрали несуществующий вариант. Доступные варианты: A, B, C, D."
  const RightFeedback := "Верно!"
  const WrongFeedback := "Неверно."
  const CorrectHead := "Правильный ответ: "

  /** An option the scan can read: a dictionary whose label, if any, is a string. */
  predicate Readable(x: Value)
  {
    x.Obj? && GetOr(x.fields, "label", Str("")).Str?
  }

  /** An option whose flag is truthy. */
  predicate Flagged(x: Value)
  {
    x.Obj? && Truthy(GetOr(x.fields, "is_correct", Bool(false)))
  }

  /** A readable option whose upper-cased label is the answer. */
  predicate Matches(x: Value, answer: string)
  {
    Readable(x) && Text.Upper(GetOr(x.fields, "label", Str("")).s) == answer
  }

  /** What the scan keeps: the last flagged option and the last matching one. */
  datatype Picks = Picks(correct: Option<Dict>, selected: Option<Dict>)

  /** The scan over the options; None when an option cannot be read. */
  function ScanPicks(xs: seq<Value>, answer: string): Option<Picks>
  {
    if xs == [] then Some(Picks(None, None))
    else
      match ScanPicks(xs[..|xs| - 1], answer)
      case None => None
      case Some(p) =>
        var x := xs[|xs| - 1];
        if !Readable(x) then None
        else Some(Picks(if Flagged(x) then Some(x.fields) else p.correct,
                        if Matches(x, answer) then Some(x.fields) else p.selected))
  }

  /** What the scan looks for: a flagged option, or one whose label matches the answer. */
  datatype Hit = IsFlagged | LabelIs(answer: string)

  predicate HitBy(h: Hit, x: Value)
  {
    match h
    case IsFlagged => Flagged(x)
    case LabelIs(answer) => Matches(x, answer)
  }

  /** The last option the condition picks. */
  function LastHit(xs: seq<Value>, h: Hit): Option<Dict>
  {
    if xs == [] then None
    else if HitBy(h, xs[|xs| - 1]) then Some(xs[|xs| - 1].fields)
    else LastHit(xs[..|xs| - 1], h)
  }

  /** `LastHit` is the last option the condition picks, and None exactly when it picks none. */
  lemma {:induction false} LastHitSpec(xs: seq<Value>, h: Hit)
    ensures LastHit(xs, h).None? <==> forall k :: 0 <= k < |xs| ==> !HitBy(h, xs[k])
    ensures LastHit(xs, h).Some? ==>
      exists k :: 0 <= k < |xs| && HitBy(h, xs[k]) && xs[k] == Obj(LastHit(xs, h).value)
                  && forall j :: k < j < |xs| ==> !HitBy(h, xs[j])
  {
    if xs != [] {
      var init := xs[..|xs| - 1];
      assert forall k :: 0 <= k < |init| ==> init[k] == xs[k];
      LastHitSpec(init, h);
      if HitBy(h, xs[|xs| - 1]) {
        assert xs[|xs| - 1] == Obj(LastHit(xs, h).value);
      } else if LastHit(init, h).Some? {
        var k :| 0 <= k < |init| && HitBy(h, init[k]) && init[k] == Obj(LastHit(init, h).value)
                 && forall j :: k < j < |init| ==> !HitBy(h, init[j]);
        assert xs[k] == Obj(LastHit(xs, h).value);
      }
    }
  }

  /** The scan succeeds exactly when every option is readable. */
  lemma {:induction false} ScanPicksDefined(xs: seq<Value>, answer: string)
    ensures ScanPicks(xs, answer).Some? <==> forall k :: 0 <= k < |xs| ==> Readable(xs[k])
  {
    if xs != [] {
      var init := xs[..|xs| - 1];
      assert forall k :: 0 <= k < |init| ==> init[k] == xs[k];
      ScanPicksDefined(init, answer);
    }
  }

  /** The scan keeps the last flagged option and the last option whose label matches. */
  lemma {:induction false} ScanPicksLast(xs: seq<Value>, answer: string)
    requires ScanPicks(xs, answer).Some?
    ensures ScanPicks(xs, answer).value == Picks(LastHit(xs, IsFlagged), LastHit(xs, LabelIs(answer)))
  {
    if xs != [] {
      ScanPicksLast(xs[..|xs| - 1], answer);
    }
  }

  /** The position of the first flagged option. */
  function FirstFlagged(xs: seq<Value>): (r: Option<nat>)
    ensures r.Some? ==> r.value < |xs|
  {
    if xs == [] then None
    else if Flagged(xs[0]) then Some(0)
    else match FirstFlagged(xs[1..]) case None => None case Some(k) => Some(k + 1)
  }

  /** `FirstFlagged` finds the first flagged option, and nothing exactly when none is flagged. */
  lemma {:induction false} FirstFlaggedSpec(xs: seq<Value>)
    ensures FirstFlagged(xs).None? <==> forall k :: 0 <= k < |xs| ==> !Flagged(xs[k])
    ensures FirstFlagged(xs).Some? ==>
      Flagged(xs[FirstFlagged(xs).value]) && forall j :: 0 <= j < FirstFlagged(xs).value ==> !Flagged(xs[j])
  {
    if xs != [] && !Flagged(xs[0]) {
      FirstFlaggedSpec(xs[1..]);
      assert forall k :: 1 <= k < |xs| ==> xs[k] == xs[1..][k - 1];
    }
  }

  /** The feedback on a wrong answer: the chosen option's explanation, the number of the correct one, its explanation. */
  function WrongText(selected: Dict, shown: string, correct: Dict, repr: Repr): string
  {
    Show(GetOr(selected, "explanation", Str(WrongFeedback)), repr) + " " + CorrectHead + shown + ". "
      + Show(GetOr(correct, "explanation", Str("")), repr)
  }

  /** The verdict once the options are scanned; None when the wrong-answer text reads the missing correct option. */
  function Verdict(xs: seq<Value>, p: Picks, repr: Repr): Option<Dict>
  {
    if p.selected.None? || p.selected.value == map[] then
      Some(map["is_correct" := Bool(false), "feedback" := Str(NoSuchOption)])
    else
      var sel := p.selected.value;
      var flag := GetOr(sel, "is_correct", Bool(false));
      if Truthy(flag) then Some(map["is_correct" := flag, "feedback" := GetOr(sel, "explanation", Str(RightFeedback))])
      else if p.correct.None? then None
      else
        var shown := match FirstFlagged(xs) case Some(k) => Text.NatToString(k + 1) case None => "";
        Some(map["is_correct" := flag, "feedback" := Str(WrongText(sel, shown, p.correct.value, repr))])
  }

  /** The template branch of `check_answer`; None when it raises. */
  function CheckTemplate(task: Dict, studentAnswer: string, repr: Repr): Option<Dict>
  {
    match SubscriptedItems(GetOr(task, "options", List([])))
    case None => None
    case Some(xs) =>
      match ScanPicks(xs, Text.Upper(Text.Strip(studentAnswer)))
      case None => None
      case Some(p) => Verdict(xs, p, repr)
  }

  /** The scan loop of the template branch. */
  method ScanLoop(xs: seq<Value>, answer: string) returns (r: Option<Picks>)
    ensures r == ScanPicks(xs, answer)
  {
    var correct: Option<Dict> := None;
    var selected: Option<Dict> := None;
    var i := 0;
    while i < |xs|
      invariant 0 <= i <= |xs| && ScanPicks(xs[..i], answer) == Some(Picks(correct, selected))
    {
      assert xs[..i + 1][..i] == xs[..i] && xs[..i + 1][i] == xs[i];
      if !Readable(xs[i]) {
        ScanPicksDefined(xs, answer);
        return None;
      }
      if Flagged(xs[i]) {
        correct := Some(xs[i].fields);
      }
      if Matches(xs[i], answer) {
        selected := Some(xs[i].fields);
      }
      i := i + 1;
    }
    assert xs[..i] == xs;
    r := Some(Picks(correct, selected));
  }

  /** The loop that finds the 1-based number of the first correct option, as a string; empty when there is none. */
  method FirstCorrectLoop(xs: seq<Value>) returns (shown: string)
    ensures shown == (match FirstFlagged(xs) case Some(k) => Text.NatToString(k + 1) case None => "")
  {
    shown := "";
    var j := 0;
    var found := false;
    while j < |xs| && !found
      invariant 0 <= j <= |xs|
      invariant !found ==> shown == "" && FirstFlagged(xs) == (match FirstFlagged(xs[j..]) case Some(k) => Some(k + j) case None => None)
      invariant found ==> FirstFlagged(xs) == Some(j) && shown == Text.NatToString(j + 1)
      decreases |xs| - j, if found then 0 else 1
    {
      assert xs[j..][1..] == xs[j + 1..] && xs[j..][0] == xs[j];
      if Flagged(xs[j]) {
        shown := Text.NatToString(j + 1);
        found := true;
      } else {
        j := j + 1;
      }
    }
    assert !found ==> xs[j..] == [];
  }

  /** The template branch of `check_answer`, with its two loops. */
  method CheckTemplateAnswer(task: Dict, studentAnswer: string, repr: Repr) returns (r: Option<Dict>)
    ensures r == CheckTemplate(task, studentAnswer, repr)
  {
    var answer := Text.Upper(Text.Strip(studentAnswer));
    var items := SubscriptedItems(GetOr(task, "options", List([])));
    if items.None? {
      return None;
    }
    var xs := items.value;
    var picks := ScanLoop(xs, answer);
    if picks.None? {
      return None;
    }
    var selected := picks.value.selected;
    if selected.None? || selected.value == map[] {
      return Some(map["is_correct" := Bool(false), "feedback" := Str(NoSuchOption)]);
    }
    var sel := selected.value;
    var flag := GetOr(sel, "is_correct", Bool(false));
    if Truthy(flag) {
      return Some(map["is_correct" := flag, "feedback" := GetOr(sel, "explanation", Str(RightFeedback))]);
    }
    var shown := FirstCorrectLoop(xs);
    if picks.value.correct.None? {
      return None;
    }
    r := Some(map["is_correct" := flag, "feedback" := Str(WrongText(sel, shown, picks.value.correct.value, repr))]);
  }

  /** The option at `k` is the last one the condition picks, so the scan keeps it. */
  lemma {:induction false} LastHitAt(xs: seq<Value>, h: Hit, k: nat)
    requires k < |xs| && HitBy(h, xs[k]) && forall j :: k < j < |xs| ==> !HitBy(h, xs[j])
    ensures LastHit(xs, h) == Some(xs[k].fields)
  {
    if k < |xs| - 1 {
      var init := xs[..|xs| - 1];
      assert forall j :: k < j < |init| ==> init[j] == xs[j];
      LastHitAt(init, h, k);
    }
  }

  /** With readable options, grading is the verdict on the last flagged and the last matching option. */
  lemma CheckTemplateUnfold(task: Dict, studentAnswer: string, xs: seq<Value>, repr: Repr)
    requires Get(task, "options") == List(xs) && forall j :: 0 <= j < |xs| ==> Readable(xs[j])
    ensures var answer := Text.Upper(Text.Strip(studentAnswer));
      ScanPicks(xs, answer) == Some(Picks(LastHit(xs, IsFlagged), LastHit(xs, LabelIs(answer))))
      && CheckTemplate(task, studentAnswer, repr) == Verdict(xs, ScanPicks(xs, answer).value, repr)
  {
    var answer := Text.Upper(Text.Strip(studentAnswer));
    ScanPicksDefined(xs, answer);
    ScanPicksLast(xs, answer);
    assert SubscriptedItems(GetOr(task, "options", List([]))) == Some(xs);
  }

  /** An answer that matches no label is graded wrong with the fixed "no such option" feedback. */
  lemma UnmatchedIsWrong(task: Dict, studentAnswer: string, xs: seq<Value>, repr: Repr)
    requires Get(task, "options") == List(xs) && forall k :: 0 <= k < |xs| ==> Readable(xs[k])
    requires forall k :: 0 <= k < |xs| ==> !Matches(xs[k], Text.Upper(Text.Strip(studentAnswer)))
    ensures CheckTemplate(task, studentAnswer, repr) == Some(map["is_correct" := Bool(false), "feedback" := Str(NoSuchOption)])
  {
    CheckTemplateUnfold(task, studentAnswer, xs, repr);
    LastHitSpec(xs, LabelIs(Text.Upper(Text.Strip(studentAnswer))));
  }

  /**
   * When the last option whose label matches the answer is `xs[k]`, the
   * verdict is that option's own flag; the grading raises only for a wrong
   * answer on a task where no option is correct.
   */
  lemma SelectedFlagDecides(task: Dict, studentAnswer: string, xs: seq<Value>, k: nat, repr: Repr)
    requires Get(task, "options") == List(xs) && forall j :: 0 <= j < |xs| ==> Readable(xs[j])
    requires k < |xs| && Matches(xs[k], Text.Upper(Text.Strip(studentAnswer))) && xs[k].fields != map[]
    requires forall j :: k < j < |xs| ==> !Matches(xs[j], Text.Upper(Text.Strip(studentAnswer)))
    ensures CheckTemplate(task, studentAnswer, repr).None? <==> forall j :: 0 <= j < |xs| ==> !Flagged(xs[j])
    ensures CheckTemplate(task, studentAnswer, repr).Some? ==>
      CheckTemplate(task, studentAnswer, repr).value["is_correct"] == GetOr(xs[k].fields, "is_correct", Bool(false))
  {
    CheckTemplateUnfold(task, studentAnswer, xs, repr);
    LastHitAt(xs, LabelIs(Text.Upper(Text.Strip(studentAnswer))), k);
    LastHitSpec(xs, IsFlagged);
  }

  /** The first flagged option is the one at `c` when `c` is flagged and none before it is. */
  lemma FirstFlaggedAt(xs: seq<Value>, c: nat)
    requires c < |xs| && Flagged(xs[c]) && forall j :: 0 <= j < c ==> !Flagged(xs[j])
    ensures FirstFlagged(xs) == Some(c)
  {
    FirstFlaggedSpec(xs);
  }

  /** A wrong selection's verdict carries the number of the first correct option. */
  lemma WrongVerdictText(xs: seq<Value>, p: Picks, c: nat, repr: Repr)
    requires p.selected.Some? && p.selected.value != map[] && !Truthy(GetOr(p.selected.value, "is_correct", Bool(false)))
    requires p.correct.Some? && FirstFlagged(xs) == Some(c)
    ensures Verdict(xs, p, repr).Some?
    ensures var r := Verdict(xs, p, repr).value;
      r["feedback"].Str? && Text.Contains(r["feedback"].s, CorrectHead + Text.NatToString(c + 1) + ". ")
  {
    var before := Show(GetOr(p.selected.value, "explanation", Str(WrongFeedback)), repr) + " ";
    var after := Show(GetOr(p.correct.value, "explanation", Str("")), repr);
    var piece := CorrectHead + Text.NatToString(c + 1) + ". ";
    assert WrongText(p.selected.value, Text.NatToString(c + 1), p.correct.value, repr) == before + piece + after;
    Text.ContainsInfix(before, piece, after);
  }

  /** On a wrong answer the feedback names the 1-based number of the first correct option. */
  lemma WrongAnswerNamesFirstCorrect(task: Dict, studentAnswer: string, xs: seq<Value>, k: nat, c: nat, repr: Repr)
    requires Get(task, "options") == List(xs) && forall j :: 0 <= j < |xs| ==> Readable(xs[j])
    requires k < |xs| && Matches(xs[k], Text.Upper(Text.Strip(studentAnswer))) && xs[k].fields != map[]
    requires forall j :: k < j < |xs| ==> !Matches(xs[j], Text.Upper(Text.Strip(studentAnswer)))
    requires !Flagged(xs[k])
    requires c < |xs| && Flagged(xs[c]) && forall j :: 0 <= j < c ==> !Flagged(xs[j])
    ensures CheckTemplate(task, studentAnswer, repr).Some?
    ensures var r := CheckTemplate(task, studentAnswer, repr).value;
      r["feedback"].Str? && Text.Contains(r["feedback"].s, CorrectHead + Text.NatToString(c + 1) + ". ")
  {
    var answer := Text.Upper(Text.Strip(studentAnswer));
    CheckTemplateUnfold(task, studentAnswer, xs, repr);
    LastHitAt(xs, LabelIs(answer), k);
    LastHitSpec(xs, IsFlagged);
    FirstFlaggedAt(xs, c);
    WrongVerdictText(xs, Picks(LastHit(xs, IsFlagged), LastHit(xs, LabelIs(answer))), c, repr);
  }

  // ---------------------------------------------------------------------
  // Word-set similarity
  // ---------------------------------------------------------------------

  /** `set(text.lower().split())`. */
  function WordSet(text: string): set<string>
  {
    set w | w in Text.Split(Text.Lower(text))
  }

  lemma {:induction false} SubsetCard<T>(a: set<T>, b: set<T>)
    requires a <= b
    ensures |a| <= |b|
    decreases |a|
  {
    if a != {} {
      var x :| x in a;
      SubsetCard(a - {x}, b - {x});
    }
  }

  /** A count over a larger count lies between 0 and 1. */
  lemma RatioBounds(n: nat, d: nat)
    requires n <= d && d > 0
    ensures 0.0 <= (n as real) / (d as real) <= 1.0
  {
    assert (n as real) <= (d as real);
    assert (d as real) / (d as real) == 1.0;
  }

  /** `_similarity`: shared words over all words of the two texts, 0 when either has none. */
  function Similarity(a: string, b: string): (r: real)
    ensures 0.0 <= r <= 1.0
  {
    var w1 := WordSet(a);
    var w2 := WordSet(b);
    if w1 == {} || w2 == {} then 0.0
    else
      SubsetCard(w1 * w2, w1 + w2);
      SubsetCard(w1, w1 + w2);
      RatioBounds(|w1 * w2|, |w1 + w2|);
      (|w1 * w2| as real) / (|w1 + w2| as real)
  }

  /** Similarity does not depend on the order of the texts. */
  lemma SimilaritySymmetric(a: string, b: string)
    ensures Similarity(a, b) == Similarity(b, a)
  {
    var w1 := WordSet(a);
    var w2 := WordSet(b);
    assert w1 * w2 == w2 * w1 && w1 + w2 == w2 + w1;
  }

  /** A text with words is fully similar to itself. */
  lemma SimilaritySelf(a: string)
    requires WordSet(a) != {}
    ensures Similarity(a, a) == 1.0
  {
    var w := WordSet(a);
    assert w * w == w && w + w == w;
    assert (|w| as real) / (|w| as real) == 1.0;
  }

  /** Texts without a shared word are not similar at all. */
  lemma SimilarityDisjoint(a: string, b: string)
    requires WordSet(a) * WordSet(b) == {}
    ensures Similarity(a, b) == 0.0
  {
    assert |WordSet(a) * WordSet(b)| == 0;
  }

  // ---------------------------------------------------------------------
  // Generating options without the model
  // ---------------------------------------------------------------------

  const IncorrectTails: seq<string> := [
    " - это метод анализа собственного поведения без учета системных факторов.",
    " - это техника управления временем, не связанная с системным мышлением.",
    " - это концепция из традиционной психологии, описывающая поведенческие реакции.",
    " - это практика осознанного восприятия окружающей среды без аналитического компонента.",
    " описывает способность человека игнорировать внешние отвлекающие факторы.",
    " - это инструмент для повышения продуктивности, фокусирующийся только на внутренних факторах.",
    " представляет собой систему правил поведения в сложных социальных ситуациях."]
  const IncorrectFallbackTail := " - это индивидуальная особенность, не связанная с системным подходом к саморазвитию."

  /** The seven wrong definitions `_generate_incorrect_option` tries, in order. */
  function Templates(name: string): (ts: seq<string>)
    ensures |ts| == |IncorrectTails|
  {
    seq(|IncorrectTails|, k requires 0 <= k < |IncorrectTails| => name + IncorrectTails[k])
  }

  /** `any(similarity(template.lower(), text) > 0.7 for text in existing)`. */
  predicate TooSimilar(template: string, existing: seq<string>)
  {
    existing != [] && (Similarity(Text.Lower(template), existing[0]) > 0.7 || TooSimilar(template, existing[1..]))
  }

  /** Too similar exactly when some existing text shares more than 70% of the words. */
  lemma {:induction false} TooSimilarSpec(template: string, existing: seq<string>)
    ensures TooSimilar(template, existing) <==> exists k :: 0 <= k < |existing| && Similarity(Text.Lower(template), existing[k]) > 0.7
  {
    if existing != [] {
      TooSimilarSpec(template, existing[1..]);
      assert forall k :: 1 <= k < |existing| ==> existing[k] == existing[1..][k - 1];
    }
  }

  /** The test `_generate_incorrect_option` applies to each template. */
  function TooSimilarTo(existing: seq<string>): string -> bool
  {
    t => TooSimilar(t, existing)
  }

  /** The first template the test lets through. */
  function FirstDistinct(ts: seq<string>, tooSimilar: string -> bool): Option<string>
  {
    if ts == [] then None
    else if !tooSimilar(ts[0]) then Some(ts[0])
    else FirstDistinct(ts[1..], tooSimilar)
  }

  /** `FirstDistinct` picks the first template the test lets through, and none exactly when it lets none through. */
  lemma {:induction false} FirstDistinctSpec(ts: seq<string>, tooSimilar: string -> bool)
    ensures FirstDistinct(ts, tooSimilar).None? <==> forall k :: 0 <= k < |ts| ==> tooSimilar(ts[k])
    ensures FirstDistinct(ts, tooSimilar).Some? ==>
      exists k :: 0 <= k < |ts| && ts[k] == FirstDistinct(ts, tooSimilar).value && !tooSimilar(ts[k])
                  && forall j :: 0 <= j < k ==> tooSimilar(ts[j])
  {
    if ts != [] && tooSimilar(ts[0]) {
      FirstDistinctSpec(ts[1..], tooSimilar);
      assert forall k :: 1 <= k < |ts| ==> ts[k] == ts[1..][k - 1];
      if FirstDistinct(ts[1..], tooSimilar).Some? {
        var k :| 0 <= k < |ts[1..]| && ts[1..][k] == FirstDistinct(ts[1..], tooSimilar).value
                 && !tooSimilar(ts[1..][k]) && forall j :: 0 <= j < k ==> tooSimilar(ts[1..][j]);
        assert ts[k + 1] == ts[1..][k];
      }
    }
  }

  /** `[opt['text'].lower() for opt in existing_options]`; None when an option has no string text. */
  function LowerTexts(opts: seq<Value>): (r: Option<seq<string>>)
    ensures r.Some? ==> |r.value| == |opts|
  {
    if opts == [] then Some([])
    else if !opts[0].Obj? || "text" !in opts[0].fields || !opts[0].fields["text"].Str? then None
    else match LowerTexts(opts[1..]) case None => None case Some(rest) => Some([Text.Lower(opts[0].fields["text"].s)] + rest)
  }

  /** Options that are dictionaries with string texts give their texts. */
  lemma {:induction false} LowerTextsDefined(opts: seq<Value>)
    requires forall k :: 0 <= k < |opts| ==> opts[k].Obj? && Get(opts[k].fields, "text").Str?
    ensures LowerTexts(opts).Some?
  {
    if opts != [] {
      assert forall k :: 1 <= k < |opts| ==> opts[k] == opts[1..][k - 1];
      LowerTextsDefined(opts[1..]);
    }
  }

  /** `_generate_incorrect_option`: None when `existing_options` holds an option without a string text. */
  function IncorrectOption(concept: Dict, existing: seq<Value>, repr: Repr): Option<string>
  {
    var name := Show(GetOr(concept, "name", Str(DefaultName)), repr);
    match LowerTexts(existing)
    case None => None
    case Some(texts) => Some(match FirstDistinct(Templates(name), TooSimilarTo(texts)) case Some(t) => t case None => name + IncorrectFallbackTail)
  }

  /** The loop over the templates, with its early return. */
  method IncorrectOptionLoop(concept: Dict, existing: seq<Value>, repr: Repr) returns (r: Option<string>)
    ensures r == IncorrectOption(concept, existing, repr)
  {
    var name := Show(GetOr(concept, "name", Str(DefaultName)), repr);
    var texts := LowerTexts(existing);
    if texts.None? {
      return None;
    }
    var templates := Templates(name);
    var tooSimilar := TooSimilarTo(texts.value);
    var i := 0;
    while i < |templates|
      invariant 0 <= i <= |templates| && FirstDistinct(templates, tooSimilar) == FirstDistinct(templates[i..], tooSimilar)
    {
      assert templates[i..][0] == templates[i] && templates[i..][1..] == templates[i + 1..];
      if !tooSimilar(templates[i]) {
        return Some(templates[i]);
      }
      i := i + 1;
    }
    assert templates[i..] == [];
    r := Some(name + IncorrectFallbackTail);
  }

  /**
   * The generated wrong option is the first template no existing text is
   * too similar to, or the fixed sentence when every template is.
   */
  lemma IncorrectOptionSpec(concept: Dict, existing: seq<Value>, repr: Repr)
    requires LowerTexts(existing).Some?
    ensures IncorrectOption(concept, existing, repr).Some?
    ensures var name := Show(GetOr(concept, "name", Str(DefaultName)), repr);
      var texts := LowerTexts(existing).value;
      var t := IncorrectOption(concept, existing, repr).value;
      var ts := Templates(name);
      (t == name + IncorrectFallbackTail && forall k :: 0 <= k < |ts| ==> TooSimilar(ts[k], texts))
      || (exists k :: 0 <= k < |ts| && t == ts[k] && !TooSimilar(ts[k], texts) && forall j :: 0 <= j < k ==> TooSimilar(ts[j], texts))
  {
    var name := Show(GetOr(concept, "name", Str(DefaultName)), repr);
    FirstDistinctSpec(Templates(name), TooSimilarTo(LowerTexts(existing).value));
  }

  const ScratchDefinitionHead := "Определение понятия "
  const ExactWhyHead := "Это точное определение понятия '"
  const ExactWhyTail := "' в контексте системного саморазвития."
  const PartlyPrefix := "частично "
  const NotPrefix := "не "
  const PartialWhyHead := "Это определение не полностью отражает суть понятия '"
  const PartialWhyTail := "' и его место в системном мышлении."
  const ShortTails: seq<string> := [
    " - это инструмент для отслеживания личных целей и задач, помогающий структурировать время.",
    " представляет собой метод анализа проблем, основанный на их разбиении на составные части.",
    " - это концепция, описывающая способность человека к самоорганизации без внешнего контроля."]
  const DistortWhyHead := "Это определение искажает или упускает важные аспекты понятия '"
  const NotSystemicWhyHead := "Это определение не отражает системную природу понятия '"
  const QuoteEnd := "'."

  /** The separators of `re.split(r'[,.;]', ...)`. */
  predicate IsDefinitionSeparator(c: char)
  {
    c == ',' || c == '.' || c == ';'
  }

  /** A stripped piece, kept when it is longer than ten characters. */
  function LongPiece(p: string): Option<string>
  {
    var t := Text.Strip(p);
    if |t| > 10 then Some(t) else None
  }

  /** The stripped pieces of the definition longer than ten characters. */
  function DefinitionParts(definition: string): seq<string>
  {
    Seqs.FilterMap(LongPiece, Text.SplitOn(definition, IsDefinitionSeparator))
  }

  /** Adds the prefix "не ", or takes it away when the part starts with it. */
  function ToggleNot(p: string): string
  {
    if Text.StartsWith(p, NotPrefix) then p[|NotPrefix|..] else NotPrefix + p
  }

  /** The parts after the `i`-th modification: "частично" before the first, the second dropped, the third negated. */
  function Modified(parts: seq<string>, i: nat): seq<string>
    requires 1 <= i < |parts|
  {
    if i % 3 == 0 then parts[i - 1 := ToggleNot(parts[i - 1])]
    else if i % 3 == 1 then parts[i - 1 := PartlyPrefix + parts[i - 1]]
    else parts[..i - 1] + parts[i..]
  }

  /** The wrong options built from the modified definition, for `i` from its value to 3. */
  function PartOptions(parts: seq<string>, name: string, i: nat): seq<Value>
    requires 1 <= i
    decreases 4 - i
  {
    if i > 3 then []
    else (if i < |parts| then [OptionObj(Letter(i), Str(Text.Join(", ", Modified(parts, i))), false, PartialWhyHead + name + PartialWhyTail)] else [])
         + PartOptions(parts, name, i + 1)
  }

  /** The three fixed wrong options for a short definition. */
  function ShortOptions(name: string): seq<Value>
  {
    seq(3, j requires 0 <= j < 3 => OptionObj(Letter(1 + j), Str(name + ShortTails[j]), false, DistortWhyHead + name + QuoteEnd))
  }

  /** The options before padding. */
  function InitialOptions(definition: string, name: string): seq<Value>
  {
    var parts := DefinitionParts(definition);
    [OptionObj("A", Str(definition), true, ExactWhyHead + name + ExactWhyTail)]
      + (if |parts| >= 3 then PartOptions(parts, name, 1) else ShortOptions(name))
  }

  /** The padding loop: generated wrong options until there are four. */
  function Padded(options: seq<Value>, concept: Dict, name: string, repr: Repr): Option<seq<Value>>
    decreases 4 - |options|
  {
    if |options| >= 4 then Some(options)
    else
      match IncorrectOption(concept, options, repr)
      case None => None
      case Some(t) => Padded(options + [OptionObj(Letter(|options|), Str(t), false, NotSystemicWhyHead + name + QuoteEnd)], concept, name, repr)
  }

  /** `_generate_options_from_scratch`; None when the definition is not a string and `re.split` raises. */
  function OptionsFromScratch(concept: Dict, repr: Repr): Option<seq<Value>>
  {
    var name := Show(GetOr(concept, "name", Str(DefaultName)), repr);
    var definition := GetOr(concept, "definition", Str(ScratchDefinitionHead + name));
    if !definition.Str? then None
    else match Padded(InitialOptions(definition.s, name), concept, name, repr) case None => None case Some(os) => Some(Seqs.PyTake(os, 4))
  }

  /** The option at position `k`: labelled `Letter(k)`, correct only when first, with a string text. */
  predicate InPlace(o: Value, k: nat)
  {
    o.Obj? && Get(o.fields, "label") == Str(Letter(k)) && Get(o.fields, "is_correct") == Bool(k == 0)
    && Get(o.fields, "text").Str?
  }

  /** Every option is in place. */
  predicate Shaped(os: seq<Value>)
  {
    forall k :: 0 <= k < |os| ==> InPlace(os[k], k)
  }

  lemma OptionObjInPlace(k: nat, text: string, explanation: string)
    ensures InPlace(OptionObj(Letter(k), Str(text), k == 0, explanation), k)
  {
  }

  /** The options from the modified parts follow one another from `Letter(i)` on, all incorrect. */
  lemma {:induction false} PartOptionsFacts(parts: seq<string>, name: string, i: nat)
    requires |parts| >= 3 && 1 <= i <= 4
    ensures var m := if |parts| >= 4 then 4 else 3;
      |PartOptions(parts, name, i)| == (if i <= m then m - i else 0)
    ensures forall k :: 0 <= k < |PartOptions(parts, name, i)| ==> InPlace(PartOptions(parts, name, i)[k], i + k)
    decreases 4 - i
  {
    if i <= 3 {
      PartOptionsFacts(parts, name, i + 1);
      var rest := PartOptions(parts, name, i + 1);
      if i < |parts| {
        var text := Text.Join(", ", Modified(parts, i));
        var o := OptionObj(Letter(i), Str(text), false, PartialWhyHead + name + PartialWhyTail);
        OptionObjInPlace(i, text, PartialWhyHead + name + PartialWhyTail);
        assert PartOptions(parts, name, i) == [o] + rest;
        assert forall k :: 1 <= k < |[o] + rest| ==> ([o] + rest)[k] == rest[k - 1];
      } else {
        assert PartOptions(parts, name, i) == rest;
      }
    }
  }

  /** The three fixed options for a short definition are at positions 1 to 3. */
  lemma ShortOptionsInPlace(name: string)
    ensures forall k :: 0 <= k < 3 ==> InPlace(ShortOptions(name)[k], k + 1)
  {
    forall k | 0 <= k < 3
      ensures InPlace(ShortOptions(name)[k], k + 1)
    {
      OptionObjInPlace(k + 1, name + ShortTails[k], DistortWhyHead + name + QuoteEnd);
    }
  }

  /** Before padding there are three or four options, in place. */
  lemma InitialShaped(definition: string, name: string)
    ensures Shaped(InitialOptions(definition, name))
    ensures 3 <= |InitialOptions(definition, name)| <= 4
  {
    var parts := DefinitionParts(definition);
    var a := OptionObj("A", Str(definition), true, ExactWhyHead + name + ExactWhyTail);
    OptionObjInPlace(0, definition, ExactWhyHead + name + ExactWhyTail);
    var rest := if |parts| >= 3 then PartOptions(parts, name, 1) else ShortOptions(name);
    if |parts| >= 3 {
      PartOptionsFacts(parts, name, 1);
    } else {
      ShortOptionsInPlace(name);
    }
    assert forall k :: 0 <= k < |rest| ==> InPlace(rest[k], k + 1);
    assert InitialOptions(definition, name) == [a] + rest;
    assert forall k :: 1 <= k < |[a] + rest| ==> ([a] + rest)[k] == rest[k - 1];
  }

  /** An option in place at the end keeps the options in place. */
  lemma ShapedSnoc(options: seq<Value>, o: Value)
    requires Shaped(options) && InPlace(o, |options|)
    ensures Shaped(options + [o])
  {
    forall k | 0 <= k < |options + [o]|
      ensures InPlace((options + [o])[k], k)
    {
      if k < |options| {
        assert (options + [o])[k] == options[k];
      }
    }
  }

  /** Padding keeps the options and adds wrong ones in place until there are four. */
  lemma {:induction false} PaddedShaped(options: seq<Value>, concept: Dict, name: string, repr: Repr)
    requires Shaped(options) && |options| >= 1
    ensures Padded(options, concept, name, repr).Some?
    ensures var r := Padded(options, concept, name, repr).value;
      |r| == (if |options| < 4 then 4 else |options|) && Shaped(r) && r[0] == options[0]
    decreases 4 - |options|
  {
    if |options| < 4 {
      LowerTextsDefined(options);
      var t := IncorrectOption(concept, options, repr).value;
      var o := OptionObj(Letter(|options|), Str(t), false, NotSystemicWhyHead + name + QuoteEnd);
      var next := options + [o];
      assert Padded(options, concept, name, repr) == Padded(next, concept, name, repr);
      OptionObjInPlace(|options|, t, NotSystemicWhyHead + name + QuoteEnd);
      ShapedSnoc(options, o);
      PaddedShaped(next, concept, name, repr);
    }
  }

  /**
   * Generating options from scratch fails only when the definition is not a
   * string; otherwise it gives exactly four options A to D, the definition
   * itself being the correct "A" and the other three incorrect.
   */
  lemma ScratchShape(concept: Dict, repr: Repr)
    ensures var name := Show(GetOr(concept, "name", Str(DefaultName)), repr);
      var definition := GetOr(concept, "definition", Str(ScratchDefinitionHead + name));
      (OptionsFromScratch(concept, repr).Some? <==> definition.Str?)
      && (definition.Str? ==>
            var os := OptionsFromScratch(concept, repr).value;
            |os| == 4 && Shaped(os) && Get(os[0].fields, "text") == definition)
  {
    var name := Show(GetOr(concept, "name", Str(DefaultName)), repr);
    var definition := GetOr(concept, "definition", Str(ScratchDefinitionHead + name));
    if definition.Str? {
      InitialShaped(definition.s, name);
      PaddedShaped(InitialOptions(definition.s, name), concept, name, repr);
    }
  }

  /** The loop over the modifications of a long definition, appending to the correct option. */
  method PartOptionsLoop(first: Value, parts: seq<string>, name: string) returns (options: seq<Value>)
    requires |parts| >= 3
    ensures options == [first] + PartOptions(parts, name, 1)
  {
    options := [first];
    for i := 1 to 4
      invariant options + PartOptions(parts, name, i) == [first] + PartOptions(parts, name, 1)
      invariant |options| == if i <= |parts| then i else |parts|
    {
      if i < |parts| {
        var modified := Modified(parts, i);
        options := options + [OptionObj(Letter(|options|), Str(Text.Join(", ", modified)), false, PartialWhyHead + name + PartialWhyTail)];
      }
    }
    assert options + [] == options;
  }

  /** The loop over the three fixed wrong definitions of a short definition. */
  method ShortOptionsLoop(first: Value, name: string) returns (options: seq<Value>)
    ensures options == [first] + ShortOptions(name)
  {
    options := [first];
    var texts := [name + ShortTails[0], name + ShortTails[1], name + ShortTails[2]];
    for i := 0 to 3
      invariant options + ShortOptions(name)[i..] == [first] + ShortOptions(name) && |options| == 1 + i
    {
      assert ShortOptions(name)[i..] == [ShortOptions(name)[i]] + ShortOptions(name)[i + 1..];
      options := options + [OptionObj(Letter(|options|), Str(texts[i]), false, DistortWhyHead + name + QuoteEnd)];
    }
    assert ShortOptions(name)[3..] == [] && options + [] == options;
  }

  /** The padding loop. */
  method PadLoop(initial: seq<Value>, concept: Dict, name: string, repr: Repr) returns (r: Option<seq<Value>>)
    ensures r == Padded(initial, concept, name, repr)
  {
    var options := initial;
    while |options| < 4
      invariant Padded(options, concept, name, repr) == Padded(initial, concept, name, repr)
      decreases 4 - |options|
    {
      var t := IncorrectOptionLoop(concept, options, repr);
      if t.None? {
        return None;
      }
      options := options + [OptionObj(Letter(|options|), Str(t.value), false, NotSystemicWhyHead + name + QuoteEnd)];
    }
    r := Some(options);
  }

  /** `_generate_options_from_scratch` with its loops. */
  method GenerateOptionsFromScratch(concept: Dict, repr: Repr) returns (r: Option<seq<Value>>)
    ensures r == OptionsFromScratch(concept, repr)
  {
    var name := Show(GetOr(concept, "name", Str(DefaultName)), repr);
    var definition := GetOr(concept, "definition", Str(ScratchDefinitionHead + name));
    if !definition.Str? {
      return None;
    }
    var parts := DefinitionParts(definition.s);
    var first := OptionObj("A", definition, true, ExactWhyHead + name + ExactWhyTail);
    var options;
    if |parts| >= 3 {
      options := PartOptionsLoop(first, parts, name);
    } else {
      options := ShortOptionsLoop(first, name);
    }
    assert options == InitialOptions(definition.s, name);
    var padded := PadLoop(options, concept, name, repr);
    if padded.None? {
      return None;
    }
    options := padded.value;
    if |options| > 4 {
      options := options[..4];
    }
    r := Some(options);
  }

  // ---------------------------------------------------------------------
  // Hints without the model
  // ---------------------------------------------------------------------

  const KeyTermsDefault := "ключевые термины"
  const SystemicTail := " связано с системным подходом к саморазвитию."
  const ThirdHintHead := "Системное мышление предполагает рассмотрение "
  const ThirdHintTail := " во взаимосвязи с другими элементами."

  /** The key words are at most three words of the definition, each longer than five characters. */
  lemma KeyWordsFacts(definition: string)
    ensures |KeyWords(definition)| <= 3
    ensures forall w :: w in KeyWords(definition) ==> |w| > 5 && w in Text.Split(definition)
  {
    var all := Seqs.Filter((w: string) => |w| > 5, Text.Split(definition));
    forall w | w in KeyWords(definition)
      ensures |w| > 5 && w in Text.Split(definition)
    {
      assert w in all;
      Seqs.FilterMember((w: string) => |w| > 5, Text.Split(definition), w);
    }
  }

  /** `_generate_hints`: the first two of three hints; None when the definition is not a string. */
  function GenerateHints(concept: Dict, repr: Repr): Option<seq<string>>
  {
    var name := Show(GetOr(concept, "name", Str(DefaultName)), repr);
    var definition := GetOr(concept, "definition", Str(""));
    if !definition.Str? then None
    else
      var keyWords := KeyWords(definition.s);
      var keyWordsText := if keyWords == [] then KeyTermsDefault else Text.Join(", ", keyWords);
      Some(Seqs.PyTake([KeyElementsHead + keyWordsText + ".", RelateHead + name + SystemicTail, ThirdHintHead + name + ThirdHintTail], 2))
  }

  /** There are exactly two hints whenever the definition is a string, the first naming the key words. */
  lemma HintsFacts(concept: Dict, repr: Repr)
    ensures var definition := GetOr(concept, "definition", Str(""));
      (GenerateHints(concept, repr).Some? <==> definition.Str?)
      && (definition.Str? ==>
            |GenerateHints(concept, repr).value| == 2
            && (KeyWords(definition.s) != [] ==>
                  GenerateHints(concept, repr).value[0] == KeyElementsHead + Text.Join(", ", KeyWords(definition.s)) + "."))
  {
  }
}
