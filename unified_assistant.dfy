/**
 * `UnifiedAssistant` of `agents/unified_assistant.py`: which search backend
 * it sets up, how a question is routed, the chain of semantic searches, and
 * the retry policy of `_discuss_task` and `_general_consultation` with its
 * fallback answers. Keyword extraction, context building and the keyword
 * answer are the same code as `CourseAssistant`'s and are modelled in
 * `Assistant`. The model's replies are the argument `respond`, which maps
 * each request to what that attempt gives back; the searches are their
 * results, None when they raise.
 */
module UnifiedAssistant {
  import opened Wrappers
  import opened Values
  import Text
  import Seqs
  import Assistant

  type Repr = Value -> string

  // ---------------------------------------------------------------------
  // __init__: the search backend
  // ---------------------------------------------------------------------

  /** What constructing `EnhancedCourseSearch` gives: it raises, or it has a model or not. */
  datatype Construction = ConstructionRaised | Constructed(hasModel: bool)

  datatype Backend = EnhancedCourseSearch | FallbackSearch

  /** The two fields `__init__` sets. */
  datatype SearchSetup = SearchSetup(backend: Backend, useEnhanced: bool)

  /** `__init__`: `available` is the module-level `SENTENCE_TRANSFORMER_AVAILABLE`. */
  function ChooseBackend(available: bool, construction: Construction): SearchSetup
  {
    if !available then SearchSetup(FallbackSearch, false)
    else match construction
      case ConstructionRaised => SearchSetup(FallbackSearch, false)
      case Constructed(hasModel) => if hasModel then SearchSetup(EnhancedCourseSearch, true) else SearchSetup(FallbackSearch, false)
  }

  /**
   * The fallback search is chosen whenever the library is unavailable, the
   * construction raises or leaves no model; the enhanced search is used
   * exactly when it is the backend.
   */
  lemma BackendChoice(available: bool, construction: Construction)
    ensures var s := ChooseBackend(available, construction);
      (s.useEnhanced <==> s.backend == EnhancedCourseSearch)
      && (s.backend == FallbackSearch <==> !available || construction == ConstructionRaised || construction == Constructed(false))
  {
  }

  // ---------------------------------------------------------------------
  // answer_question: routing
  // ---------------------------------------------------------------------

  datatype Route = Discuss(conceptName: Value, taskQuestion: Value) | Consult

  /** `answer_question`'s choice between `_discuss_task` and `_general_consultation`. */
  function RouteOf(context: Option<Dict>): Route
  {
    if context.Some? && context.value != map[]
       && (Truthy(Get(context.value, "task_question")) || Truthy(Get(context.value, "concept_name")))
    then Discuss(GetOr(context.value, "concept_name", Str("")), GetOr(context.value, "task_question", Str("")))
    else Consult
  }

  /** A task is discussed exactly when the context has a task question or a concept name; the discussion gets them, empty when absent. */
  lemma RouteIff(context: Option<Dict>)
    ensures RouteOf(context).Discuss? <==>
      context.Some? && (Truthy(Get(context.value, "task_question")) || Truthy(Get(context.value, "concept_name")))
    ensures RouteOf(context).Discuss? ==>
      RouteOf(context).conceptName == GetOr(context.value, "concept_name", Str(""))
      && RouteOf(context).taskQuestion == GetOr(context.value, "task_question", Str(""))
  {
  }

  // ---------------------------------------------------------------------
  // _enhanced_semantic_search and _fallback_standard_search
  // ---------------------------------------------------------------------

  /**
   * `_fallback_standard_search`: the store's semantic search, or nothing when
   * it raises. As written the call always raises; see `AsWrittenStandard`.
   */
  function StandardSearch(standard: Option<seq<Dict>>): seq<Dict>
  {
    match standard case Some(rs) => rs case None => []
  }

  /** `_enhanced_semantic_search`: `enhanced` and `standard` are what the two searches return. */
  function SemanticSearch(useEnhanced: bool, enhanced: Option<seq<Dict>>, standard: Option<seq<Dict>>): seq<Dict>
  {
    if useEnhanced then
      match enhanced
      case Some(rs) => if rs == [] then StandardSearch(standard) else rs
      case None => StandardSearch(standard)
    else StandardSearch(standard)
  }

  /**
   * The enhanced results are used exactly when enhanced search is on and it
   * finds something; otherwise the store's search answers, and a failing
   * store search gives no results.
   */
  lemma SearchChain(useEnhanced: bool, enhanced: Option<seq<Dict>>, standard: Option<seq<Dict>>)
    ensures var r := SemanticSearch(useEnhanced, enhanced, standard);
      (useEnhanced && enhanced.Some? && enhanced.value != [] ==> r == enhanced.value)
      && (!(useEnhanced && enhanced.Some? && enhanced.value != []) ==> r == (if standard.Some? then standard.value else []))
  {
  }

  /**
   * The store's search as written: the store client defines no
   * `semantic_search`, so the attribute lookup raises `AttributeError`, which
   * `_fallback_standard_search` catches.
   */
  const AsWrittenStandard: Option<seq<Dict>> := None

  /**
   * As written, the store fallback never answers: the enhanced results, when
   * enhanced search is on and finds something, are the only results there are.
   */
  lemma StandardFallbackFindsNothing(useEnhanced: bool, enhanced: Option<seq<Dict>>)
    ensures SemanticSearch(useEnhanced, enhanced, AsWrittenStandard) ==
      (if useEnhanced && enhanced.Some? && enhanced.value != [] then enhanced.value else [])
    ensures !useEnhanced ==> SemanticSearch(useEnhanced, enhanced, AsWrittenStandard) == []
  {
  }

  // ---------------------------------------------------------------------
  // The retry loop of _discuss_task and _general_consultation
  // ---------------------------------------------------------------------

  const MaxAttempts := 3
  const ShortAnswer := 200
  const TokenStep := 500
  const LongAnswer := 4000
  const Warning := "Внимание: ответ получился очень объемным и будет отображаться по частям.\n\n"

  /** A request to the model: the attempt number, its `max_tokens`, and whether the insisting retry prompt replaced the first one. */
  datatype Request = Request(attempt: nat, maxTokens: int, insistent: bool)

  /**
   * What one attempt gives back: an exception before the content is read,
   * an exception after it (the usage fields are read next), or the
   * content and the finish reason.
   */
  datatype Reply = Raised | RaisedAfter(content: string) | Replied(content: string, finishReason: string)

  /** A reply that makes the loop retry with more tokens. */
  predicate Short(r: Reply)
  {
    r.Replied? && |r.content| < ShortAnswer
  }

  /** A reply that ends the loop. */
  predicate Good(r: Reply)
  {
    r.Replied? && |r.content| >= ShortAnswer
  }

  /** How the loop ends: the answer, the attempt count, and the requests made. */
  datatype Outcome = Outcome(answer: string, attempts: nat, requests: seq<Request>)

  /** The answer of a reply that ends the loop, with the note when it was cut at the length limit. */
  function Noted(content: string, finishReason: string, note: string): string
  {
    if finishReason == "length" && |content| > 500 then content + note else content
  }

  function Prepend(requests: seq<Request>, o: Outcome): Outcome
  {
    Outcome(o.answer, o.attempts, requests + o.requests)
  }

  /** What the loop does after one reply: retry with new tokens, prompt and answer, or stop with an answer. */
  datatype Step = Retry(tokens: int, insistent: bool, answer: string) | Done(answer: string)

  /** The body of the loop for the reply to attempt number `attempt`. */
  function StepOf(reply: Reply, attempt: nat, tokens: int, insistent: bool, answer: string, note: string, errorText: string): Step
  {
    match reply
    case Raised => Retry(tokens, insistent, if attempt == MaxAttempts then errorText else answer)
    case RaisedAfter(content) => Retry(tokens, insistent, if attempt == MaxAttempts then errorText else content)
    case Replied(content, finishReason) =>
      if |content| < ShortAnswer then Retry(tokens + TokenStep, true, content) else Done(Noted(content, finishReason, note))
  }

  /** The loop from the state after `done` attempts. */
  function Run(respond: Request -> Reply, done: nat, tokens: int, insistent: bool, answer: string,
               note: string, errorText: string): Outcome
    decreases MaxAttempts - done
  {
    if done >= MaxAttempts then Outcome(answer, done, [])
    else
      var request := Request(done + 1, tokens, insistent);
      match StepOf(respond(request), done + 1, tokens, insistent, answer, note, errorText)
      case Done(a) => Outcome(a, done + 1, [request])
      case Retry(t, ins, a) => Prepend([request], Run(respond, done + 1, t, ins, a, note, errorText))
  }

  /** The `while current_attempt < max_attempts` loop. */
  method RetryLoop(respond: Request -> Reply, initialTokens: int, note: string, errorText: string) returns (o: Outcome)
    ensures o == Run(respond, 0, initialTokens, false, "", note, errorText)
  {
    var attempt: nat := 0;
    var tokens := initialTokens;
    var insistent := false;
    var answer := "";
    var requests: seq<Request> := [];
    var stop := false;
    while attempt < MaxAttempts && !stop
      invariant attempt <= MaxAttempts
      invariant !stop ==> Prepend(requests, Run(respond, attempt, tokens, insistent, answer, note, errorText))
                          == Run(respond, 0, initialTokens, false, "", note, errorText)
      invariant stop ==> Outcome(answer, attempt, requests) == Run(respond, 0, initialTokens, false, "", note, errorText)
      decreases MaxAttempts - attempt, if stop then 0 else 1
    {
      ghost var before, t0, i0, a0 := requests, tokens, insistent, answer;
      ghost var step := StepOf(respond(Request(attempt + 1, tokens, insistent)), attempt + 1, tokens, insistent, answer, note, errorText);
      attempt := attempt + 1;
      var request := Request(attempt, tokens, insistent);
      requests := requests + [request];
      var reply := respond(request);
      if reply.Raised? {
        if attempt == MaxAttempts {
          answer := errorText;
        }
      } else if reply.RaisedAfter? {
        answer := reply.content;
        if attempt == MaxAttempts {
          answer := errorText;
        }
      } else {
        answer := reply.content;
        if |answer| < ShortAnswer {
          tokens := tokens + TokenStep;
          insistent := true;
        } else {
          if reply.finishReason == "length" && |answer| > 500 {
            answer := answer + note;
          }
          stop := true;
        }
      }
      RunUnfold(respond, attempt - 1, t0, i0, a0, note, errorText);
      if stop {
        assert step == Done(answer);
      } else {
        assert step == Retry(tokens, insistent, answer);
        PrependTwice(before, [request], Run(respond, attempt, tokens, insistent, answer, note, errorText));
      }
    }
    if !stop {
      assert requests + [] == requests;
    }
    o := Outcome(answer, attempt, requests);
  }

  /** One turn of the loop from the state after `done` attempts. */
  lemma RunUnfold(respond: Request -> Reply, done: nat, tokens: int, insistent: bool, answer: string,
                  note: string, errorText: string)
    requires done < MaxAttempts
    ensures var request := Request(done + 1, tokens, insistent);
      var o := Run(respond, done, tokens, insistent, answer, note, errorText);
      match StepOf(respond(request), done + 1, tokens, insistent, answer, note, errorText)
      case Done(a) => o == Outcome(a, done + 1, [request])
      case Retry(t, ins, a) => o == Prepend([request], Run(respond, done + 1, t, ins, a, note, errorText))
  {
  }

  lemma PrependTwice(a: seq<Request>, b: seq<Request>, o: Outcome)
    ensures Prepend(a, Prepend(b, o)) == Prepend(a + b, o)
  {
    assert a + (b + o.requests) == (a + b) + o.requests;
  }

  /** What one step keeps: a retry follows a reply that is not good, with 500 more tokens and the insisting prompt after a short one. */
  lemma StepFacts(reply: Reply, attempt: nat, tokens: int, insistent: bool, answer: string, note: string, errorText: string)
    ensures var st := StepOf(reply, attempt, tokens, insistent, answer, note, errorText);
      (st.Done? <==> Good(reply))
      && (st.Done? ==> st.answer == Noted(reply.content, reply.finishReason, note) && |st.answer| >= ShortAnswer)
      && (st.Retry? ==> st.tokens == tokens + (if Short(reply) then TokenStep else 0)
                        && st.insistent == (insistent || Short(reply))
                        && (attempt == MaxAttempts && |errorText| < ShortAnswer ==> |st.answer| < ShortAnswer))
  {
  }

  /** The attempts are numbered from one, at most three, one request each. */
  lemma {:induction false} RunCounts(respond: Request -> Reply, done: nat, tokens: int, insistent: bool, answer: string,
                                     note: string, errorText: string)
    requires done <= MaxAttempts
    ensures var o := Run(respond, done, tokens, insistent, answer, note, errorText);
      done <= o.attempts <= MaxAttempts && |o.requests| == o.attempts - done
      && (done < MaxAttempts ==> o.requests != [] && o.requests[0] == Request(done + 1, tokens, insistent))
      && forall k :: 0 <= k < |o.requests| ==> o.requests[k].attempt == done + k + 1
    decreases MaxAttempts - done
  {
    if done < MaxAttempts {
      var request := Request(done + 1, tokens, insistent);
      var st := StepOf(respond(request), done + 1, tokens, insistent, answer, note, errorText);
      if st.Retry? {
        var rest := Run(respond, done + 1, st.tokens, st.insistent, st.answer, note, errorText);
        RunCounts(respond, done + 1, st.tokens, st.insistent, st.answer, note, errorText);
        assert forall k :: 1 <= k < |[request] + rest.requests| ==> ([request] + rest.requests)[k] == rest.requests[k - 1];
      }
    }
  }

  /**
   * Each retry follows from the reply before it: a short answer raises
   * `max_tokens` by 500 and switches to the insisting prompt, an exception
   * changes neither, and only the last request may have had a good reply.
   */
  lemma {:induction false} RunRetries(respond: Request -> Reply, done: nat, tokens: int, insistent: bool, answer: string,
                                      note: string, errorText: string)
    requires done <= MaxAttempts
    ensures var rs := Run(respond, done, tokens, insistent, answer, note, errorText).requests;
      forall k :: 0 <= k < |rs| - 1 ==>
        !Good(respond(rs[k]))
        && rs[k + 1].maxTokens == rs[k].maxTokens + (if Short(respond(rs[k])) then TokenStep else 0)
        && rs[k + 1].insistent == (rs[k].insistent || Short(respond(rs[k])))
    decreases MaxAttempts - done
  {
    if done < MaxAttempts {
      var request := Request(done + 1, tokens, insistent);
      var st := StepOf(respond(request), done + 1, tokens, insistent, answer, note, errorText);
      StepFacts(respond(request), done + 1, tokens, insistent, answer, note, errorText);
      if st.Retry? {
        var rest := Run(respond, done + 1, st.tokens, st.insistent, st.answer, note, errorText);
        RunRetries(respond, done + 1, st.tokens, st.insistent, st.answer, note, errorText);
        RunCounts(respond, done + 1, st.tokens, st.insistent, st.answer, note, errorText);
        var rs := [request] + rest.requests;
        forall k | 0 <= k < |rs| - 1
          ensures !Good(respond(rs[k]))
          ensures rs[k + 1].maxTokens == rs[k].maxTokens + (if Short(respond(rs[k])) then TokenStep else 0)
          ensures rs[k + 1].insistent == (rs[k].insistent || Short(respond(rs[k])))
        {
          if k > 0 {
            assert rs[k] == rest.requests[k - 1] && rs[k + 1] == rest.requests[k];
          } else {
            assert rs[1] == rest.requests[0];
          }
        }
      }
    }
  }

  /**
   * The loop ends with all three attempts made and a short answer exactly
   * when no reply was good.
   */
  lemma {:induction false} RunExhausted(respond: Request -> Reply, done: nat, tokens: int, insistent: bool, answer: string,
                                        note: string, errorText: string)
    requires done <= MaxAttempts && |errorText| < ShortAnswer
    requires done == MaxAttempts ==> |answer| < ShortAnswer
    ensures var o := Run(respond, done, tokens, insistent, answer, note, errorText);
      (o.attempts == MaxAttempts && |o.answer| < ShortAnswer) <==> forall k :: 0 <= k < |o.requests| ==> !Good(respond(o.requests[k]))
    decreases MaxAttempts - done
  {
    if done < MaxAttempts {
      var request := Request(done + 1, tokens, insistent);
      var st := StepOf(respond(request), done + 1, tokens, insistent, answer, note, errorText);
      StepFacts(respond(request), done + 1, tokens, insistent, answer, note, errorText);
      var o := Run(respond, done, tokens, insistent, answer, note, errorText);
      if st.Retry? {
        var rest := Run(respond, done + 1, st.tokens, st.insistent, st.answer, note, errorText);
        RunExhausted(respond, done + 1, st.tokens, st.insistent, st.answer, note, errorText);
        assert o.requests == [request] + rest.requests && o.answer == rest.answer && o.attempts == rest.attempts;
        assert forall k :: 1 <= k < |o.requests| ==> o.requests[k] == rest.requests[k - 1];
        assert o.requests[0] == request && !Good(respond(request));
        if forall k :: 0 <= k < |rest.requests| ==> !Good(respond(rest.requests[k])) {
          forall k | 0 <= k < |o.requests|
            ensures !Good(respond(o.requests[k]))
          {
            if k > 0 {
              assert o.requests[k] == rest.requests[k - 1];
            }
          }
        } else {
          var j :| 0 <= j < |rest.requests| && Good(respond(rest.requests[j]));
          assert o.requests[j + 1] == rest.requests[j];
        }
      } else {
        assert o.requests == [request] && o.answer == st.answer;
        assert Good(respond(o.requests[0]));
      }
    }
  }

  /** A good last reply is the answer, with the note when it was cut at the length limit. */
  lemma {:induction false} RunGoodAnswer(respond: Request -> Reply, done: nat, tokens: int, insistent: bool, answer: string,
                                         note: string, errorText: string)
    requires done <= MaxAttempts
    ensures var o := Run(respond, done, tokens, insistent, answer, note, errorText);
      o.requests != [] && Good(respond(o.requests[|o.requests| - 1])) ==>
        var r := respond(o.requests[|o.requests| - 1]);
        o.answer == Noted(r.content, r.finishReason, note)
    decreases MaxAttempts - done
  {
    if done < MaxAttempts {
      var request := Request(done + 1, tokens, insistent);
      var st := StepOf(respond(request), done + 1, tokens, insistent, answer, note, errorText);
      StepFacts(respond(request), done + 1, tokens, insistent, answer, note, errorText);
      var o := Run(respond, done, tokens, insistent, answer, note, errorText);
      if st.Retry? {
        var rest := Run(respond, done + 1, st.tokens, st.insistent, st.answer, note, errorText);
        RunGoodAnswer(respond, done + 1, st.tokens, st.insistent, st.answer, note, errorText);
        assert o.requests == [request] + rest.requests && o.answer == rest.answer;
        if rest.requests != [] {
          assert o.requests[|o.requests| - 1] == rest.requests[|rest.requests| - 1];
        }
      } else {
        assert o.requests == [request] && o.answer == st.answer;
      }
    }
  }

  /** `answer = warning_msg + answer` for an answer over 4000 characters. */
  function Warned(answer: string): string
  {
    if |answer| > LongAnswer then Warning + answer else answer
  }

  /** After the loop, the fallback replaces an answer still short on the last attempt (None when building it raises). */
  function Finished(o: Outcome, fallback: Option<string>): string
  {
    if |o.answer| < ShortAnswer && o.attempts == MaxAttempts then
      match fallback case Some(f) => Warned(f) case None => Assistant.ErrorReply
    else Warned(o.answer)
  }

  /** The loop, the fallback and the length warning together. */
  method AnswerWithRetries(respond: Request -> Reply, initialTokens: int, note: string, errorText: string, fallback: Option<string>)
    returns (answer: string, requests: seq<Request>)
    ensures requests == Run(respond, 0, initialTokens, false, "", note, errorText).requests
    ensures answer == Finished(Run(respond, 0, initialTokens, false, "", note, errorText), fallback)
  {
    var o := RetryLoop(respond, initialTokens, note, errorText);
    requests := o.requests;
    if |o.answer| < ShortAnswer && o.attempts == MaxAttempts {
      if fallback.None? {
        return Assistant.ErrorReply, requests;
      }
      answer := fallback.value;
    } else {
      answer := o.answer;
    }
    if |answer| > LongAnswer {
      answer := Warning + answer;
    }
  }

  /**
   * The answer is the fallback exactly when no attempt got a good reply;
   * otherwise it is the good reply (with its note); either way an answer
   * over 4000 characters carries the warning in front.
   */
  lemma FinishedAnswer(respond: Request -> Reply, initialTokens: int, note: string, errorText: string, fallback: string)
    requires |errorText| < ShortAnswer
    ensures var o := Run(respond, 0, initialTokens, false, "", note, errorText);
      var noGood := forall k :: 0 <= k < |o.requests| ==> !Good(respond(o.requests[k]));
      (noGood ==> Finished(o, Some(fallback)) == Warned(fallback))
      && (!noGood ==> var r := respond(o.requests[|o.requests| - 1]);
                      Good(r) && Finished(o, Some(fallback)) == Warned(Noted(r.content, r.finishReason, note)))
  {
    var o := Run(respond, 0, initialTokens, false, "", note, errorText);
    RunExhausted(respond, 0, initialTokens, false, "", note, errorText);
    RunGoodAnswer(respond, 0, initialTokens, false, "", note, errorText);
    RunRetries(respond, 0, initialTokens, false, "", note, errorText);
    RunCounts(respond, 0, initialTokens, false, "", note, errorText);
    if !(forall k :: 0 <= k < |o.requests| ==> !Good(respond(o.requests[k]))) {
      var k :| 0 <= k < |o.requests| && Good(respond(o.requests[k]));
      assert k == |o.requests| - 1;
    }
  }

  /** The warning is added exactly to answers over 4000 characters, and keeps the answer after it. */
  lemma WarnedFacts(answer: string)
    ensures |answer| > LongAnswer ==> Warned(answer) == Warning + answer
    ensures |answer| <= LongAnswer ==> Warned(answer) == answer
    ensures Text.StartsWith(Warned(answer), Warning) || Warned(answer) == answer
  {
    if |answer| > LongAnswer {
      assert (Warning + answer)[..|Warning|] == Warning;
    }
  }

  // ---------------------------------------------------------------------
  // _discuss_task and _general_consultation around the loop
  // ---------------------------------------------------------------------

  /** The first `max_tokens`: 1500, or 1000 for a context over the limit. */
  function InitialTokens(contextSize: int, limit: int): int
  {
    if contextSize > limit then 1000 else 1500
  }

  const DiscussNote := "\n\n(Ответ был ограничен по размеру. Чтобы получить дополнительную информацию, задайте уточняющий вопрос.)"
  const DiscussError := "Извините, произошла ошибка при генерации ответа. Пожалуйста, попробуйте задать вопрос иначе."
  const ConsultNote := "\n\n(Ответ был ограничен по размеру. Если вам нужна дополнительная информация, уточните ваш вопрос.)"
  const ConsultError := "Извините, произошла ошибка при генерации ответа. Пожалуйста, попробуйте переформулировать вопрос или задать его позже."

  const HelpHead := "Хочу помочь вам разобраться с понятием '"
  const HelpDefinition := "'. \n\nОпределение: "
  const HelpQuestion := "\n\nВ контексте вашего вопроса '"
  const HelpMiddle := "' важно отметить, что это понятие является ключевым для понимания темы.\n\nПредлагаю начать с уточнения: какой именно аспект понятия '"
  const HelpTail := "' вас интересует больше всего?"

  /** The fallback answer of `_discuss_task`, built from the concept. */
  function DiscussFallback(conceptName: string, definition: Value, question: string, repr: Repr): string
  {
    HelpHead + conceptName + HelpDefinition + Show(definition, repr) + HelpQuestion + question + HelpMiddle + conceptName + HelpTail
  }

  const FoundHead := "По вашему запросу '"
  const FoundHeadTail := "' я нашел следующую информацию:\n\n"
  const FoundDefinition := "   Определение: "
  const NoDefinition := "Определение не указано"
  const FoundExample := "   Пример: "
  const FoundTail := "Пожалуйста, уточните, какой аспект данных понятий вас интересует, чтобы я мог предоставить более детальную информацию."
  const NothingComposed := "К сожалению, у меня не получилось сформировать полный ответ на ваш вопрос. Пожалуйста, попробуйте сформулировать запрос более конкретно или обратитесь к другим разделам курса."

  /** The fallback's entry for the `number`-th concept; None when `concept['name']` raises. */
  function FoundItem(concept: Dict, number: nat, repr: Repr): Option<string>
  {
    if "name" !in concept then None
    else
      var example := Get(concept, "example");
      Some(Text.NatToString(number) + ". **" + Show(concept["name"], repr) + "**\n"
           + FoundDefinition + Show(GetOr(concept, "definition", Str(NoDefinition)), repr) + "\n\n"
           + (if Truthy(example) then FoundExample + Show(example, repr) + "\n\n" else ""))
  }

  /** The entries for the concepts, numbered from one. */
  function FoundItems(concepts: seq<Dict>, repr: Repr): Option<string>
  {
    if concepts == [] then Some("")
    else
      var n := |concepts| - 1;
      Assistant.Both(FoundItems(concepts[..n], repr), FoundItem(concepts[n], n + 1, repr))
  }

  /** The fallback answer of `_general_consultation`, from at most the first three concepts found. */
  function ConsultFallback(concepts: seq<Dict>, question: string, repr: Repr): Option<string>
  {
    if concepts == [] then Some(NothingComposed)
    else match FoundItems(Seqs.PyTake(concepts, 3), repr)
      case None => None
      case Some(items) => Some(FoundHead + question + FoundHeadTail + items + FoundTail)
  }

  /** A failing entry makes every longer list fail. */
  lemma {:induction false} FoundItemsFailPrefix(concepts: seq<Dict>, i: nat, repr: Repr)
    requires i <= |concepts| && FoundItems(concepts[..i], repr).None?
    ensures FoundItems(concepts, repr).None?
    decreases |concepts| - i
  {
    if i < |concepts| {
      assert concepts[..i + 1][..i] == concepts[..i];
      FoundItemsFailPrefix(concepts, i + 1, repr);
    } else {
      assert concepts[..i] == concepts;
    }
  }

  /** The fallback's `for i, concept in enumerate(relevant_concepts[:3], 1)` loop. */
  method ConsultFallbackLoop(concepts: seq<Dict>, question: string, repr: Repr) returns (r: Option<string>)
    ensures r == ConsultFallback(concepts, question, repr)
  {
    if concepts == [] {
      return Some(NothingComposed);
    }
    var first := Seqs.PyTake(concepts, 3);
    var items := "";
    var i := 0;
    while i < |first|
      invariant 0 <= i <= |first|
      invariant FoundItems(first[..i], repr) == Some(items)
    {
      assert first[..i + 1][..i] == first[..i];
      var item := FoundItem(first[i], i + 1, repr);
      assert FoundItems(first[..i + 1], repr) == Assistant.Both(Some(items), item);
      if item.None? {
        FoundItemsFailPrefix(first, i + 1, repr);
        return None;
      }
      items := items + item.value;
      i := i + 1;
    }
    assert first[..i] == first;
    r := Some(FoundHead + question + FoundHeadTail + items + FoundTail);
  }

  /** Only the first three concepts matter; the fallback fails exactly when one of them has no name. */
  lemma {:induction false} ConsultFallbackFacts(concepts: seq<Dict>, question: string, repr: Repr)
    ensures ConsultFallback(concepts, question, repr) == ConsultFallback(Seqs.PyTake(concepts, 3), question, repr)
    ensures concepts != [] ==>
      (ConsultFallback(concepts, question, repr).Some? <==>
       forall k :: 0 <= k < |Seqs.PyTake(concepts, 3)| ==> "name" in Seqs.PyTake(concepts, 3)[k])
  {
    var first := Seqs.PyTake(concepts, 3);
    assert Seqs.PyTake(first, 3) == first;
    FoundItemsDefined(first, repr);
  }

  lemma {:induction false} FoundItemsDefined(concepts: seq<Dict>, repr: Repr)
    ensures FoundItems(concepts, repr).Some? <==> forall k :: 0 <= k < |concepts| ==> "name" in concepts[k]
  {
    if concepts != [] {
      var n := |concepts| - 1;
      var before := concepts[..n];
      FoundItemsDefined(before, repr);
      assert FoundItems(concepts, repr) == Assistant.Both(FoundItems(before, repr), FoundItem(concepts[n], n + 1, repr));
      assert FoundItem(concepts[n], n + 1, repr).Some? <==> "name" in concepts[n];
      assert forall k :: 0 <= k < n ==> before[k] == concepts[k];
    }
  }

  /** The retry part of `_discuss_task`: the first `max_tokens` follows from the size of the context. */
  method DiscussTaskRetries(respond: Request -> Reply, contextSize: int, conceptName: string, definition: Value,
                            question: string, repr: Repr) returns (answer: string)
    ensures answer == Finished(Run(respond, 0, InitialTokens(contextSize, 4000), false, "", DiscussNote, DiscussError),
                               Some(DiscussFallback(conceptName, definition, question, repr)))
  {
    var requests;
    answer, requests := AnswerWithRetries(respond, InitialTokens(contextSize, 4000), DiscussNote, DiscussError,
                                   Some(DiscussFallback(conceptName, definition, question, repr)));
  }

  /** The retry part of `_general_consultation`, falling back on the concepts the search found. */
  method ConsultationRetries(respond: Request -> Reply, contextSize: int, concepts: seq<Dict>, question: string, repr: Repr)
    returns (answer: string)
    ensures answer == Finished(Run(respond, 0, InitialTokens(contextSize, 5000), false, "", ConsultNote, ConsultError),
                               ConsultFallback(concepts, question, repr))
  {
    var requests;
    answer, requests := AnswerWithRetries(respond, InitialTokens(contextSize, 5000), ConsultNote, ConsultError,
                                   ConsultFallback(concepts, question, repr));
  }

  /** Both error texts are short, so an attempt that ends in an exception is always replaced by the fallback. */
  lemma ErrorTextsShort()
    ensures |DiscussError| < ShortAnswer && |ConsultError| < ShortAnswer
  {
  }
}
