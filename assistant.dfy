/**
 * `CourseAssistant` of `agents/assistant.py`: keyword extraction, the
 * context built from the concepts the keyword search finds, and the answer
 * that skips the language model when nothing is found.
 * `agents/unified_assistant.py` carries the same `_extract_keywords`,
 * `_build_concept_context` and keyword-answer code, which these members
 * model too. The store's calls are arguments: `search` (the keyword search),
 * `connections` (`get_concept_connections`), `chapterInfo`
 * (`get_chapter_info`) and `reply` (the model's answer for a context), each
 * None when it raises.
 */
module Assistant {
  import opened Wrappers
  import opened Values
  import Text
  import Seqs

  type Repr = Value -> string

  const StopWords: set<string> := {
    "и", "в", "на", "с", "по", "к", "у", "о", "это", "что", "как", "кто", "где", "когда",
    "почему", "зачем", "который", "такой", "этот", "тот", "для", "из", "от", "до", "за",
    "при", "через", "над", "под", "около", "между", "а", "но", "или", "либо", "ни", "не",
    "да", "же", "бы", "ли", "если", "то", "чтобы", "хотя", "потому", "так", "поэтому"}

  const NoInfoReply := "К сожалению, я не нашел информации по вашему вопросу в материалах курса. Пожалуйста, попробуйте переформулировать вопрос или уточнить, какой аспект курса вас интересует."
  const ErrorReply := "Произошла ошибка при обработке вашего вопроса. Пожалуйста, попробуйте еще раз позже."

  // ---------------------------------------------------------------------
  // _extract_keywords
  // ---------------------------------------------------------------------

  /** `re.sub(r'[^\w\s]', ' ', question.lower())`: whatever is neither a word character nor whitespace becomes a space. */
  function Cleaned(question: string): string
  {
    var s := Text.Lower(question);
    seq(|s|, i requires 0 <= i < |s| => if Text.IsWordChar(s[i]) || Text.IsSpace(s[i]) then s[i] else ' ')
  }

  /** A word that is kept first: not a stop word and longer than two characters. */
  predicate Primary(w: string)
  {
    w !in StopWords && |w| > 2
  }

  predicate Long(w: string)
  {
    |w| > 3
  }

  /** `_extract_keywords`. */
  function ExtractKeywords(question: string): seq<string>
  {
    var words := Text.Split(Cleaned(question));
    var keywords := Seqs.Filter(Primary, words);
    if |keywords| < 2 then Seqs.Filter(Long, words) else keywords
  }

  /**
   * With two or more words that are not stop words and longer than two
   * characters, the keywords are exactly those words; otherwise they are
   * exactly the words longer than three characters.
   */
  lemma KeywordsIff(question: string, w: string)
    ensures var words := Text.Split(Cleaned(question));
      (|Seqs.Filter(Primary, words)| >= 2 ==> (w in ExtractKeywords(question) <==> w in words && w !in StopWords && |w| > 2))
      && (|Seqs.Filter(Primary, words)| < 2 ==> (w in ExtractKeywords(question) <==> w in words && |w| > 3))
  {
    var words := Text.Split(Cleaned(question));
    if |Seqs.Filter(Primary, words)| >= 2 {
      if w in ExtractKeywords(question) { Seqs.FilterMember(Primary, words, w); }
      if w in words && Primary(w) { Seqs.FilterHas(Primary, words, w); }
    } else {
      if w in ExtractKeywords(question) { Seqs.FilterMember(Long, words, w); }
      if w in words && Long(w) { Seqs.FilterHas(Long, words, w); }
    }
  }

  /**
   * No keywords come out exactly when fewer than two words are kept first
   * and no word is longer than three characters.
   */
  lemma NoKeywordsIff(question: string)
    ensures var words := Text.Split(Cleaned(question));
      ExtractKeywords(question) == [] <==>
        |Seqs.Filter(Primary, words)| < 2 && forall i :: 0 <= i < |words| ==> |words[i]| <= 3
  {
    var words := Text.Split(Cleaned(question));
    if |Seqs.Filter(Primary, words)| < 2 {
      var long := Seqs.Filter(Long, words);
      if long != [] {
        Seqs.FilterMember(Long, words, long[0]);
      }
      forall i | 0 <= i < |words| && long == [] ensures |words[i]| <= 3 {
        if |words[i]| > 3 { Seqs.FilterHas(Long, words, words[i]); }
      }
    }
  }

  /** Keywords hold only word characters, lower-cased from the question. */
  lemma KeywordsAreWordChars(question: string, w: string, i: nat)
    requires w in ExtractKeywords(question) && i < |w|
    ensures Text.IsWordChar(w[i]) && w[i] in Text.Lower(question)
  {
    var words := Text.Split(Cleaned(question));
    if |Seqs.Filter(Primary, words)| < 2 {
      Seqs.FilterMember(Long, words, w);
    } else {
      Seqs.FilterMember(Primary, words, w);
    }
    var k :| 0 <= k < |words| && words[k] == w;
    Text.SplitChars(Cleaned(question), k, i);
    var s := Text.Lower(question);
    var j :| 0 <= j < |s| && Cleaned(question)[j] == w[i];
    assert !Text.IsSpace(w[i]);
  }

  // ---------------------------------------------------------------------
  // _build_concept_context
  // ---------------------------------------------------------------------

  const ConceptHead := "Понятие: "
  const DefinitionHead := "\nОпределение: "
  const ExampleHead := "\nПример: "
  const RelationsHead := "Связи с другими понятиями:\n"
  const ChapterHead := "Информация о главе '"
  const MainIdeasHead := "Основные идеи: "

  /** The line of `relation_text` for one relation, empty when its type or concept is missing; None when `relation.get` raises. */
  function RelationLine(relation: Value, repr: Repr): Option<string>
  {
    if !relation.Obj? then None
    else
      var relType := GetOr(relation.fields, "type", Str(""));
      var relConcept := GetOr(relation.fields, "concept", Str(""));
      Some(if Truthy(relType) && Truthy(relConcept) then "- " + Show(relType, repr) + " " + Show(relConcept, repr) + "\n" else "")
  }

  /** Both strings, concatenated, when both exist. */
  function Both(a: Option<string>, b: Option<string>): Option<string>
  {
    if a.Some? && b.Some? then Some(a.value + b.value) else None
  }

  /** The lines for the relations, in order; None when one of them raises. */
  function RelationLines(relations: seq<Value>, repr: Repr): Option<string>
  {
    if relations == [] then Some("")
    else
      var n := |relations| - 1;
      Both(RelationLines(relations[..n], repr), RelationLine(relations[n], repr))
  }

  /** The lines of consecutive relation lists concatenate. */
  lemma {:induction false} RelationLinesAppend(a: seq<Value>, b: seq<Value>, repr: Repr)
    ensures RelationLines(a + b, repr) == Both(RelationLines(a, repr), RelationLines(b, repr))
  {
    if b == [] {
      assert a + b == a;
      var x := RelationLines(a, repr);
      if x.Some? {
        assert x.value + "" == x.value;
      }
    } else {
      var n := |b| - 1;
      assert (a + b)[..|a + b| - 1] == a + b[..n];
      assert (a + b)[|a + b| - 1] == b[n];
      assert RelationLines(a + b, repr) == Both(RelationLines(a + b[..n], repr), RelationLine(b[n], repr));
      RelationLinesAppend(a, b[..n], repr);
      BothAssoc(RelationLines(a, repr), RelationLines(b[..n], repr), RelationLine(b[n], repr));
    }
  }

  lemma BothAssoc(x: Option<string>, y: Option<string>, z: Option<string>)
    ensures Both(Both(x, y), z) == Both(x, Both(y, z))
  {
    if x.Some? && y.Some? && z.Some? {
      assert (x.value + y.value) + z.value == x.value + (y.value + z.value);
    }
  }

  /** A relation missing its type or its concept adds nothing. */
  lemma IncompleteRelationSkipped(a: seq<Value>, r: Value, b: seq<Value>, repr: Repr)
    requires r.Obj? && !(Truthy(GetOr(r.fields, "type", Str(""))) && Truthy(GetOr(r.fields, "concept", Str(""))))
    ensures RelationLines(a + [r] + b, repr) == RelationLines(a + b, repr)
  {
    RelationLinesAppend(a + [r], b, repr);
    RelationLinesAppend(a, [r], repr);
    RelationLinesAppend(a, b, repr);
    assert RelationLine(r, repr) == Some("");
    assert [r][..0] == [] && [r][0] == r;
    assert RelationLines([r], repr) == Both(Some(""), Some(""));
    var x := RelationLines(a, repr);
    if x.Some? {
      assert x.value + "" == x.value;
    }
  }

  /** `f"Понятие: {name}\nОпределение: {definition}"`, with the example when there is one. */
  function ConceptText(concept: Dict, repr: Repr): string
  {
    var example := GetOr(concept, "example", Str(""));
    ConceptHead + Show(GetOr(concept, "name", Str("")), repr) + DefinitionHead + Show(GetOr(concept, "definition", Str("")), repr)
      + (if Truthy(example) then ExampleHead + Show(example, repr) else "")
  }

  /** The block for one concept: its text, then the lines of its first five relations when it has any and none raises. */
  function ConceptBlock(concept: Dict, connections: Value -> Option<seq<Value>>, repr: Repr): string
  {
    var text := ConceptText(concept, repr);
    match connections(GetOr(concept, "name", Str("")))
    case None => text
    case Some(relations) =>
      if relations == [] then text
      else match RelationLines(Seqs.PyTake(relations, 5), repr) case None => text case Some(lines) => text + "\n" + RelationsHead + lines
  }

  /** The chapter block, when a chapter is named and its info has main ideas. */
  function ChapterBlock(chapterTitle: Option<string>, chapterInfo: Option<Dict>, repr: Repr): Option<string>
  {
    if chapterTitle.None? || chapterTitle.value == "" || chapterInfo.None? then None
    else
      var info := chapterInfo.value;
      if info == map[] || "main_ideas" !in info then None
      else Some(ChapterHead + chapterTitle.value + "':\n" + MainIdeasHead + Show(info["main_ideas"], repr) + "\n")
  }

  /** `context_parts`: the chapter block first when there is one, then one block per concept in order. */
  function ContextParts(concepts: seq<Dict>, chapterTitle: Option<string>, chapterInfo: Option<Dict>,
                        connections: Value -> Option<seq<Value>>, repr: Repr): seq<string>
  {
    (match ChapterBlock(chapterTitle, chapterInfo, repr) case Some(b) => [b] case None => [])
      + seq(|concepts|, k requires 0 <= k < |concepts| => ConceptBlock(concepts[k], connections, repr))
  }

  /** The context handed to the model: the parts separated by a blank line. */
  function ConceptContext(concepts: seq<Dict>, chapterTitle: Option<string>, chapterInfo: Option<Dict>,
                          connections: Value -> Option<seq<Value>>, repr: Repr): string
  {
    Text.Join("\n\n", ContextParts(concepts, chapterTitle, chapterInfo, connections, repr))
  }

  lemma RelationLinesStep(relations: seq<Value>, i: nat, repr: Repr)
    requires i < |relations|
    ensures RelationLines(relations[..i + 1], repr) == Both(RelationLines(relations[..i], repr), RelationLine(relations[i], repr))
  {
    assert relations[..i + 1][..i] == relations[..i];
  }

  /** Once a prefix of the relations raises, all of them do. */
  lemma RelationLinesFailed(relations: seq<Value>, i: nat, repr: Repr)
    requires i <= |relations| && RelationLines(relations[..i], repr).None?
    ensures RelationLines(relations, repr).None?
  {
    RelationLinesAppend(relations[..i], relations[i..], repr);
    assert relations[..i] + relations[i..] == relations;
  }

  /** The relation loop of `_build_concept_context`: None as soon as a relation raises. */
  method RelationLoop(relations: seq<Value>, repr: Repr) returns (lines: Option<string>)
    ensures lines == RelationLines(relations, repr)
  {
    var text := "";
    var i := 0;
    while i < |relations|
      invariant 0 <= i <= |relations|
      invariant RelationLines(relations[..i], repr) == Some(text)
    {
      var line := RelationLine(relations[i], repr);
      RelationLinesStep(relations, i, repr);
      if line.None? {
        RelationLinesFailed(relations, i + 1, repr);
        return None;
      }
      text := text + line.value;
      i := i + 1;
    }
    assert relations[..i] == relations;
    lines := Some(text);
  }

  /** One concept's block, built as the loop body does. */
  method ConceptBlockOf(concept: Dict, connections: Value -> Option<seq<Value>>, repr: Repr) returns (block: string)
    ensures block == ConceptBlock(concept, connections, repr)
  {
    block := ConceptText(concept, repr);
    var relations := connections(GetOr(concept, "name", Str("")));
    if relations.Some? && relations.value != [] {
      var lines := RelationLoop(Seqs.PyTake(relations.value, 5), repr);
      if lines.Some? {
        block := block + "\n" + RelationsHead + lines.value;
      }
    }
  }

  /** `_build_concept_context`: appends one block per concept, then inserts the chapter block in front. */
  method BuildConceptContext(concepts: seq<Dict>, chapterTitle: Option<string>, chapterInfo: Option<Dict>,
                             connections: Value -> Option<seq<Value>>, repr: Repr) returns (context: string)
    ensures context == ConceptContext(concepts, chapterTitle, chapterInfo, connections, repr)
  {
    var parts: seq<string> := [];
    var i := 0;
    while i < |concepts|
      invariant 0 <= i <= |concepts|
      invariant |parts| == i
      invariant forall k :: 0 <= k < i ==> parts[k] == ConceptBlock(concepts[k], connections, repr)
    {
      var block := ConceptBlockOf(concepts[i], connections, repr);
      parts := parts + [block];
      i := i + 1;
    }
    var chapter := ChapterBlock(chapterTitle, chapterInfo, repr);
    if chapter.Some? {
      parts := [chapter.value] + parts;
    }
    assert parts == ContextParts(concepts, chapterTitle, chapterInfo, connections, repr);
    context := Text.Join("\n\n", parts);
  }

  /**
   * The context has the chapter block first when there is one and then one
   * block per concept, in the order of the concepts.
   */
  lemma ContextPartsOrder(concepts: seq<Dict>, chapterTitle: Option<string>, chapterInfo: Option<Dict>,
                          connections: Value -> Option<seq<Value>>, repr: Repr)
    ensures var parts := ContextParts(concepts, chapterTitle, chapterInfo, connections, repr);
      var chapter := ChapterBlock(chapterTitle, chapterInfo, repr);
      var off := if chapter.Some? then 1 else 0;
      |parts| == |concepts| + off
      && (chapter.Some? ==> parts[0] == chapter.value)
      && forall k :: 0 <= k < |concepts| ==> parts[k + off] == ConceptBlock(concepts[k], connections, repr)
  {
    var chapter := ChapterBlock(chapterTitle, chapterInfo, repr);
    var head: seq<string> := match chapter case Some(b) => [b] case None => [];
    var blocks := seq(|concepts|, k requires 0 <= k < |concepts| => ConceptBlock(concepts[k], connections, repr));
    var parts := ContextParts(concepts, chapterTitle, chapterInfo, connections, repr);
    assert parts == head + blocks;
    forall k | 0 <= k < |concepts|
      ensures parts[k + |head|] == blocks[k]
    {
    }
  }

  /** Each concept block begins with the concept's own text. */
  lemma BlockStartsWithText(concept: Dict, connections: Value -> Option<seq<Value>>, repr: Repr)
    ensures Text.StartsWith(ConceptBlock(concept, connections, repr), ConceptText(concept, repr))
  {
    var text := ConceptText(concept, repr);
    var b := ConceptBlock(concept, connections, repr);
    assert b[..|text|] == text;
  }

  /** Only the first five relations of a concept matter. */
  lemma ConceptBlockFirstFive(concept: Dict, c1: Value -> Option<seq<Value>>, c2: Value -> Option<seq<Value>>, repr: Repr)
    requires var name := GetOr(concept, "name", Str(""));
      c1(name).Some? && c2(name).Some? && (c1(name).value == [] <==> c2(name).value == [])
      && Seqs.PyTake(c1(name).value, 5) == Seqs.PyTake(c2(name).value, 5)
    ensures ConceptBlock(concept, c1, repr) == ConceptBlock(concept, c2, repr)
  {
  }

  /** An error fetching the relations, or a relation that is not a dictionary among the first five, keeps the concept's own text. */
  lemma RelationErrorKeepsBlock(concept: Dict, connections: Value -> Option<seq<Value>>, repr: Repr)
    requires var name := GetOr(concept, "name", Str(""));
      connections(name).None?
      || (exists k :: 0 <= k < |connections(name).value| && k < 5 && !connections(name).value[k].Obj?)
    ensures ConceptBlock(concept, connections, repr) == ConceptText(concept, repr)
  {
    var name := GetOr(concept, "name", Str(""));
    if connections(name).Some? {
      var rs := connections(name).value;
      var k :| 0 <= k < |rs| && k < 5 && !rs[k].Obj?;
      var first := Seqs.PyTake(rs, 5);
      assert first[k] == rs[k];
      assert first == first[..k] + [first[k]] + first[k + 1..];
      RelationLinesAppend(first[..k] + [first[k]], first[k + 1..], repr);
      RelationLinesAppend(first[..k], [first[k]], repr);
    }
  }

  // ---------------------------------------------------------------------
  // answer_question
  // ---------------------------------------------------------------------

  /** `CourseAssistant.answer_question` (and the unified assistant's `_answer_by_keywords`). */
  function AnswerQuestion(question: string, chapterTitle: Option<string>, search: seq<string> -> Option<seq<Dict>>,
                          chapterInfo: Option<Dict>, connections: Value -> Option<seq<Value>>,
                          reply: string -> Option<string>, repr: Repr): string
  {
    match search(ExtractKeywords(question))
    case None => ErrorReply
    case Some(concepts) =>
      if concepts == [] then NoInfoReply
      else match reply(ConceptContext(concepts, chapterTitle, chapterInfo, connections, repr))
        case None => ErrorReply
        case Some(answer) => answer
  }

  /**
   * A question without keywords is answered with the error text: the store
   * client's keyword query raises when there are no keywords
   * (`Neo4jClient.SearchConceptsByKeywords`), so the search fails rather
   * than finding nothing.
   */
  lemma NoKeywordsIsError(question: string, chapterTitle: Option<string>, search: seq<string> -> Option<seq<Dict>>,
                          chapterInfo: Option<Dict>, connections: Value -> Option<seq<Value>>,
                          reply: string -> Option<string>, repr: Repr)
    requires search([]) == None
    requires var words := Text.Split(Cleaned(question));
      |Seqs.Filter(Primary, words)| < 2 && forall i :: 0 <= i < |words| ==> |words[i]| <= 3
    ensures AnswerQuestion(question, chapterTitle, search, chapterInfo, connections, reply, repr) == ErrorReply
  {
    NoKeywordsIff(question);
  }

  /**
   * When the keyword search finds nothing, the fixed apology comes back
   * whatever the model would say, so the model is not consulted; otherwise
   * the answer is the model's reply to the context of what was found.
   */
  lemma NothingFoundApologises(question: string, chapterTitle: Option<string>, search: seq<string> -> Option<seq<Dict>>,
                               chapterInfo: Option<Dict>, connections: Value -> Option<seq<Value>>,
                               reply: string -> Option<string>, repr: Repr)
    ensures search(ExtractKeywords(question)) == Some([]) ==>
      AnswerQuestion(question, chapterTitle, search, chapterInfo, connections, reply, repr) == NoInfoReply
    ensures match search(ExtractKeywords(question))
      case Some(concepts) =>
        concepts != [] && reply(ConceptContext(concepts, chapterTitle, chapterInfo, connections, repr)).Some? ==>
          AnswerQuestion(question, chapterTitle, search, chapterInfo, connections, reply, repr)
          == reply(ConceptContext(concepts, chapterTitle, chapterInfo, connections, repr)).value
      case None => AnswerQuestion(question, chapterTitle, search, chapterInfo, connections, reply, repr) == ErrorReply
  {
  }
}
