/**
 * What `database/neo4j_client.py` does with the rows the graph store
 * returns: the per-chapter override of concept fields, the difficulty
 * suggestion, the defaults for an empty answer and the keyword condition of
 * the search query. Running the queries is the store's business: every
 * operation here takes the rows the store returned.
 */
module Neo4jClient {
  import opened Wrappers
  import opened Values
  import Text

  /** A record as a dictionary. */
  type Row = Dict

  const MentionsKey: string := "chapters_mentions"

  /** The fields a chapter can override on a concept. */
  const ConceptFields: seq<string> := ["definition", "example", "questions"]

  /** The only field a chapter overrides on a related concept. */
  const RelatedFields: seq<string> := ["definition"]

  /** A truthy optional chapter title. */
  predicate ChapterGiven(chapter: Option<string>)
  {
    chapter.Some? && chapter.value != ""
  }

  /**
   * The chapter-specific object of a row: its `chapters_mentions`, decoded
   * by `parse` (`json.loads`, None when it raises) when it is a string,
   * must be an object holding `chapter`, whose value is itself an object.
   * Every other shape ends in the `except` branch or tests false (`in` on a
   * number or null raises, a list or string cannot be indexed by a string,
   * and no assignment is reached before that), so it yields None.
   */
  function ChapterOverride(r: Row, chapter: string, parse: string -> Option<Value>): Option<map<string, Value>>
  {
    var raw := Get(r, MentionsKey);
    if !Truthy(raw) then None
    else
      var parsed := if raw.Str? then parse(raw.s) else Some(raw);
      if parsed.Some? && parsed.value.Obj? && chapter in parsed.value.fields && parsed.value.fields[chapter].Obj?
      then Some(parsed.value.fields[chapter].fields)
      else None
  }

  /** `if key in chapter_info: processed[key] = chapter_info[key]` for each key in turn. */
  function Apply(r: Row, info: map<string, Value>, keys: seq<string>): Row
    decreases |keys|
  {
    if keys == [] then r
    else Apply(if keys[0] in info then r[keys[0] := info[keys[0]]] else r, info, keys[1..])
  }

  /** Apply sets exactly the listed keys the chapter object has, to the chapter's values. */
  lemma {:induction false} ApplySpec(r: Row, info: map<string, Value>, keys: seq<string>, k: string)
    ensures k in keys && k in info ==> k in Apply(r, info, keys) && Apply(r, info, keys)[k] == info[k]
    ensures !(k in keys && k in info) ==> (k in Apply(r, info, keys) <==> k in r)
    ensures !(k in keys && k in info) && k in r ==> Apply(r, info, keys)[k] == r[k]
    decreases |keys|
  {
    if keys != [] {
      var r' := if keys[0] in info then r[keys[0] := info[keys[0]]] else r;
      ApplySpec(r', info, keys[1..], k);
      assert k in keys <==> k == keys[0] || k in keys[1..];
    }
  }

  /** The row after the override, a copy of the store row. */
  function Overridden(r: Row, chapter: string, keys: seq<string>, parse: string -> Option<Value>): Row
  {
    match ChapterOverride(r, chapter, parse)
    case None => r
    case Some(info) => Apply(r, info, keys)
  }

  /**
   * Field by field: a listed field the chapter object holds takes the
   * chapter's value; every other field, and every field of a row without a
   * well-formed chapter object, keeps the store's value.
   */
  lemma OverrideSpec(r: Row, chapter: string, keys: seq<string>, parse: string -> Option<Value>, k: string)
    ensures var o := ChapterOverride(r, chapter, parse);
      o.Some? && k in keys && k in o.value ==>
        k in Overridden(r, chapter, keys, parse) && Overridden(r, chapter, keys, parse)[k] == o.value[k]
    ensures var o := ChapterOverride(r, chapter, parse);
      !(o.Some? && k in keys && k in o.value) ==>
        (k in Overridden(r, chapter, keys, parse) <==> k in r) && Get(Overridden(r, chapter, keys, parse), k) == Get(r, k)
  {
    match ChapterOverride(r, chapter, parse)
    case None =>
    case Some(info) =>
      ApplySpec(r, info, keys, k);
  }

  /** A related concept only ever changes its definition. */
  lemma RelatedOnlyDefinition(r: Row, chapter: string, parse: string -> Option<Value>, k: string)
    requires k != "definition"
    ensures k in Overridden(r, chapter, RelatedFields, parse) <==> k in r
    ensures Get(Overridden(r, chapter, RelatedFields, parse), k) == Get(r, k)
  {
    OverrideSpec(r, chapter, RelatedFields, parse, k);
  }

  /** Malformed or missing mentions leave a row exactly as the store returned it. */
  lemma MalformedMentionsKeepRow(r: Row, chapter: string, keys: seq<string>, parse: string -> Option<Value>)
    requires ChapterOverride(r, chapter, parse).None?
    ensures Overridden(r, chapter, keys, parse) == r
  {
  }

  /**
   * The override loop of `get_concepts_by_chapter` and
   * `search_concepts_by_keywords`: one processed row per store row, in
   * order.
   */
  method ProcessConcepts(rows: seq<Row>, chapter: string, keys: seq<string>, parse: string -> Option<Value>)
    returns (processed: seq<Row>)
    ensures |processed| == |rows|
    ensures forall i :: 0 <= i < |rows| ==> processed[i] == Overridden(rows[i], chapter, keys, parse)
  {
    processed := [];
    for i := 0 to |rows|
      invariant |processed| == i
      invariant forall j :: 0 <= j < i ==> processed[j] == Overridden(rows[j], chapter, keys, parse)
    {
      var concept := Overridden(rows[i], chapter, keys, parse);
      processed := processed + [concept];
    }
  }

  /** `get_related_concepts`: overrides definitions only, and only when a chapter is given. */
  method GetRelatedConcepts(rows: seq<Row>, chapter: Option<string>, parse: string -> Option<Value>)
    returns (related: seq<Row>)
    ensures !ChapterGiven(chapter) ==> related == rows
    ensures |related| == |rows|
    ensures ChapterGiven(chapter) ==>
      forall i :: 0 <= i < |rows| ==> related[i] == Overridden(rows[i], chapter.value, RelatedFields, parse)
  {
    if ChapterGiven(chapter) {
      related := ProcessConcepts(rows, chapter.value, RelatedFields, parse);
    } else {
      related := rows;
    }
  }

  /** `get_concept_by_name`: the first row, overridden when a chapter is given; `{}` without rows. */
  function GetConceptByName(rows: seq<Row>, chapter: Option<string>, parse: string -> Option<Value>): (r: Row)
    ensures rows == [] ==> r == map[]
    ensures rows != [] && !ChapterGiven(chapter) ==> r == rows[0]
    ensures rows != [] && ChapterGiven(chapter) ==> r == Overridden(rows[0], chapter.value, ConceptFields, parse)
  {
    if rows == [] then map[]
    else
      var concept := rows[0];
      if ChapterGiven(chapter) then Overridden(concept, chapter.value, ConceptFields, parse) else concept
  }

  /**
   * `get_random_concept_by_chapter_and_difficulty` once the store has
   * answered: the random pick among concepts of the requested relation
   * count, else the random pick among all of the chapter's concepts, else
   * `{}`; the chosen row gets the chapter override.
   */
  function GetRandomConcept(picked: seq<Row>, anyPicked: seq<Row>, chapter: string, parse: string -> Option<Value>)
    : (r: Row)
    ensures picked != [] ==> r == Overridden(picked[0], chapter, ConceptFields, parse)
    ensures picked == [] && anyPicked != [] ==> r == Overridden(anyPicked[0], chapter, ConceptFields, parse)
    ensures picked == [] && anyPicked == [] ==> r == map[]
  {
    var result := if picked != [] then picked else anyPicked;
    if result == [] then map[] else Overridden(result[0], chapter, ConceptFields, parse)
  }

  /** One condition of the keyword query: the keyword against the name or the definition. */
  function KeywordClause(keyword: string): string
  {
    "c.name =~ '(?i).*" + keyword + ".*' OR c.definition =~ '(?i).*" + keyword + ".*'"
  }

  /** The loop building `keyword_conditions`. */
  method KeywordConditions(keywords: seq<string>) returns (conditions: seq<string>)
    ensures |conditions| == |keywords|
    ensures forall i :: 0 <= i < |keywords| ==> conditions[i] == KeywordClause(keywords[i])
  {
    conditions := [];
    for i := 0 to |keywords|
      invariant |conditions| == i
      invariant forall j :: 0 <= j < i ==> conditions[j] == KeywordClause(keywords[j])
    {
      conditions := conditions + [KeywordClause(keywords[i])];
    }
  }

  /** The clauses of the keywords joined by " OR ": empty exactly when there are no keywords. */
  lemma KeywordConditionEmptyIff(keywords: seq<string>)
    ensures Text.Join(" OR ", seq(|keywords|, i requires 0 <= i < |keywords| => KeywordClause(keywords[i]))) == ""
        <==> keywords == []
  {
    var cs := seq(|keywords|, i requires 0 <= i < |keywords| => KeywordClause(keywords[i]));
    if |keywords| >= 2 {
      assert Text.Join(" OR ", cs) == cs[0] + " OR " + Text.Join(" OR ", cs[1..]);
    }
    if keywords != [] {
      assert KeywordClause(keywords[0])[0] == 'c';
    }
  }

  /**
   * `search_concepts_by_keywords`. `rows` is the store's answer to the
   * query, None when it raises. Without keywords the query text is
   * `WHERE` followed directly by `RETURN`, which is not valid Cypher, so
   * `execute_query` re-raises and the search fails whatever the store
   * holds. Otherwise the rows come back, overridden when a chapter is given.
   */
  method SearchConceptsByKeywords(keywords: seq<string>, rows: Option<seq<Row>>, chapter: Option<string>,
                                  parse: string -> Option<Value>)
    returns (condition: string, results: Option<seq<Row>>)
    ensures condition == Text.Join(" OR ", seq(|keywords|, i requires 0 <= i < |keywords| => KeywordClause(keywords[i])))
    ensures condition == "" <==> keywords == []
    ensures keywords == [] || rows.None? ==> results.None?
    ensures keywords != [] && rows.Some? ==> results.Some? && |results.value| == |rows.value|
    ensures keywords != [] && rows.Some? ==> forall i :: 0 <= i < |rows.value| ==>
      results.value[i] == if ChapterGiven(chapter) then Overridden(rows.value[i], chapter.value, ConceptFields, parse) else rows.value[i]
  {
    var conditions := KeywordConditions(keywords);
    assert conditions == seq(|keywords|, i requires 0 <= i < |keywords| => KeywordClause(keywords[i]));
    condition := Text.Join(" OR ", conditions);
    KeywordConditionEmptyIff(keywords);
    if condition == "" || rows.None? {
      return condition, None;
    }
    if ChapterGiven(chapter) {
      var processed := ProcessConcepts(rows.value, chapter.value, ConceptFields, parse);
      results := Some(processed);
    } else {
      results := rows;
    }
  }

  // ---------------------------------------------------------------------
  // Difficulty and empty answers
  // ---------------------------------------------------------------------

  /** The single row of the aggregate query of `suggest_difficulty_level`. */
  datatype Totals = Totals(totalCorrect: int, totalAttempts: int)

  /** `suggest_difficulty_level`. */
  function SuggestDifficultyLevel(results: seq<Totals>): string
  {
    if results == [] || results[0].totalAttempts == 0 then "basic"
    else if (results[0].totalCorrect as real) / (results[0].totalAttempts as real) > 0.7 then "advanced"
    else "basic"
  }

  /**
   * No statistics means "basic"; otherwise "advanced" exactly when more
   * than 70% of the attempts were correct.
   */
  lemma DifficultyRule(results: seq<Totals>)
    ensures SuggestDifficultyLevel(results) in {"basic", "advanced"}
    ensures results == [] || results[0].totalAttempts == 0 ==> SuggestDifficultyLevel(results) == "basic"
    ensures results != [] && results[0].totalAttempts > 0 ==>
      (SuggestDifficultyLevel(results) == "advanced" <==> 10 * results[0].totalCorrect > 7 * results[0].totalAttempts)
  {
    if results != [] && results[0].totalAttempts > 0 {
      var c, a := results[0].totalCorrect as real, results[0].totalAttempts as real;
      assert c / a > 0.7 <==> c > 0.7 * a by {
        assert (c / a) * a == c;
      }
      assert "basic" != "advanced";
    }
  }

  /** `get_course_info`: the node `c` of the first row; `{}` without rows or without the column. */
  function GetCourseInfo(rows: seq<Row>): Value
  {
    if rows == [] then Obj(map[]) else if "c" in rows[0] then rows[0]["c"] else Obj(map[])
  }

  /** `get_concept_with_relations`: the first row, or `{}`. */
  function GetConceptWithRelations(rows: seq<Row>): Row
  {
    if rows == [] then map[] else rows[0]
  }

  /** `get_chapter_info`: the first row, or None. */
  function GetChapterInfo(rows: seq<Row>): Option<Row>
  {
    if rows == [] then None else Some(rows[0])
  }

  /**
   * Lookups answer `{}` and the chapter lookup None when the store has no rows;
   * otherwise the first row, and for the course lookup that row's `c` column.
   */
  lemma EmptyResultDefaults(rows: seq<Row>, chapter: Option<string>, parse: string -> Option<Value>)
    ensures rows == [] <==> GetChapterInfo(rows).None?
    ensures rows == [] ==> GetCourseInfo(rows) == Obj(map[]) && GetConceptWithRelations(rows) == map[]
    ensures rows == [] ==> GetConceptByName(rows, chapter, parse) == map[]
    ensures rows != [] ==> GetChapterInfo(rows) == Some(rows[0]) && GetConceptWithRelations(rows) == rows[0]
    ensures rows != [] && "c" in rows[0] ==> GetCourseInfo(rows) == rows[0]["c"]
    ensures rows != [] && "c" !in rows[0] ==> GetCourseInfo(rows) == Obj(map[])
  {
  }
}
