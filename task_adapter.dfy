/**
 * `SuggestDifficultyTool._run` of `agents/definitions/task_adapter.py`: the
 * store's difficulty suggestion passed through, and the student's progress
 * rows sorted into problem concepts (under half correct) and strong concepts
 * (over four fifths correct). The store's two queries are the arguments
 * `totals` and `progress`, None when the store raises; `errText` is the
 * text of the exception.
 */
module TaskAdapter {
  import opened Wrappers
  import opened Values
  import Seqs
  import Neo4jClient

  const ErrorHead := "Ошибка при определении рекомендуемого уровня сложности: "

  /** A value as Python's arithmetic reads it (a boolean is 0 or 1); None when arithmetic on it raises. */
  function Number(v: Value): Option<real>
  {
    match v
    case Int(i) => Some(i as real)
    case Bool(b) => Some(if b then 1.0 else 0.0)
    case Num(x) => Some(x)
    case _ => None
  }

  /** `item.get('correct', 0) / max(item.get('attempts', 1), 1)`; None when it raises. */
  function Ratio(item: Dict): Option<real>
  {
    match (Number(GetOr(item, "correct", Int(0))), Number(GetOr(item, "attempts", Int(1))))
    case (Some(c), Some(a)) => Some(c / (if a >= 1.0 then a else 1.0))
    case _ => None
  }

  /** Where a ratio puts a concept. */
  datatype Band = Problem | Middle | Strong

  function BandOf(ratio: real): Band
  {
    if ratio < 0.5 then Problem else if ratio > 0.8 then Strong else Middle
  }

  /** The concept name of a row whose ratio falls in `b`. */
  function Picked(b: Band): Dict -> Option<Value>
  {
    item => match Ratio(item) case Some(x) => (if BandOf(x) == b then Some(Get(item, "concept_name")) else None) case None => None
  }

  /** The names of the concepts in band `b`, in the order of the rows. */
  function Concepts(progress: seq<Dict>, b: Band): seq<Value>
  {
    Seqs.FilterMap(Picked(b), progress)
  }

  /** No row makes the division raise. */
  predicate Readable(progress: seq<Dict>)
  {
    forall k :: 0 <= k < |progress| ==> Ratio(progress[k]).Some?
  }

  function Failure(errText: string): Dict
  {
    map["error" := Str(ErrorHead + errText), "recommended_difficulty" := Str("basic"),
        "problem_concepts" := List([]), "strong_concepts" := List([])]
  }

  function Success(difficulty: string, progress: seq<Dict>): Dict
  {
    map["recommended_difficulty" := Str(difficulty), "problem_concepts" := List(Concepts(progress, Problem)),
        "strong_concepts" := List(Concepts(progress, Strong))]
  }

  /** `SuggestDifficultyTool._run`. */
  method SuggestDifficulty(totals: Option<seq<Neo4jClient.Totals>>, progress: Option<seq<Dict>>, errText: string)
    returns (r: Dict)
    ensures totals.None? || progress.None? ==> r == Failure(errText)
    ensures totals.Some? && progress.Some? ==>
      r == if Readable(progress.value) then Success(Neo4jClient.SuggestDifficultyLevel(totals.value), progress.value)
           else Failure(errText)
  {
    if totals.None? || progress.None? {
      return Failure(errText);
    }
    var difficulty := Neo4jClient.SuggestDifficultyLevel(totals.value);
    var rows := progress.value;
    var problems: seq<Value> := [];
    var strong: seq<Value> := [];
    var failed := false;
    var i := 0;
    while i < |rows| && !failed
      invariant 0 <= i <= |rows|
      invariant failed ==> !Readable(rows)
      invariant !failed ==> Readable(rows[..i]) && problems == Concepts(rows[..i], Problem) && strong == Concepts(rows[..i], Strong)
      decreases |rows| - i, if failed then 0 else 1
    {
      var ratio := Ratio(rows[i]);
      assert rows[..i + 1][..i] == rows[..i];
      if ratio.None? {
        failed := true;
      } else {
        if ratio.value < 0.5 {
          problems := problems + [Get(rows[i], "concept_name")];
        } else if ratio.value > 0.8 {
          strong := strong + [Get(rows[i], "concept_name")];
        }
        i := i + 1;
      }
    }
    if failed {
      return Failure(errText);
    }
    assert rows[..i] == rows;
    return Success(difficulty, rows);
  }

  lemma DivCompare(c: real, m: real, t: real)
    requires m > 0.0
    ensures c / m < t <==> c < t * m
    ensures c / m > t <==> c > t * m
  {
    var x := c / m;
    assert x * m == c;
    assert (x - t) * m == c - t * m;
    if x < t {
      assert (t - x) * m > 0.0;
    } else if x > t {
      assert (x - t) * m > 0.0;
    }
  }

  /** The bands' thresholds in the integers a store row holds: under half correct, or over four fifths correct. */
  lemma BandThresholds(item: Dict, correct: int, attempts: int)
    requires Get(item, "correct") == Int(correct) && Get(item, "attempts") == Int(attempts)
    ensures var m := if attempts >= 1 then attempts else 1;
      Ratio(item).Some?
      && (BandOf(Ratio(item).value) == Problem <==> 2 * correct < m)
      && (BandOf(Ratio(item).value) == Strong <==> 5 * correct > 4 * m)
  {
    var m := if attempts >= 1 then attempts else 1;
    var x := (correct as real) / (m as real);
    DivCompare(correct as real, m as real, 0.5);
    DivCompare(correct as real, m as real, 0.8);
    assert Ratio(item) == Some(x);
  }

  /** A concept is in a band's list exactly when some row with that name has a ratio in the band. */
  lemma ConceptsIff(progress: seq<Dict>, b: Band, name: Value)
    ensures name in Concepts(progress, b)
      <==> exists k :: 0 <= k < |progress| && Picked(b)(progress[k]) == Some(name)
  {
    if name in Concepts(progress, b) {
      Seqs.FilterMapFrom(Picked(b), progress, name);
      var x :| x in progress && Picked(b)(x) == Some(name);
      var k :| 0 <= k < |progress| && progress[k] == x;
    }
    if exists k :: 0 <= k < |progress| && Picked(b)(progress[k]) == Some(name) {
      var k :| 0 <= k < |progress| && Picked(b)(progress[k]) == Some(name);
      Seqs.FilterMapHas(Picked(b), progress, k);
    }
  }

  /** The lists keep the order of the rows: the rows of a longer progress add their names after the earlier ones. */
  lemma ConceptsKeepOrder(a: seq<Dict>, c: seq<Dict>, b: Band)
    ensures Concepts(a + c, b) == Concepts(a, b) + Concepts(c, b)
  {
    Seqs.FilterMapAppend(Picked(b), a, c);
  }

  /** Each readable row lands in exactly one band, so the three lists together have one entry per row. */
  lemma {:induction false} BandsPartition(progress: seq<Dict>)
    requires Readable(progress)
    ensures |Concepts(progress, Problem)| + |Concepts(progress, Middle)| + |Concepts(progress, Strong)| == |progress|
  {
    if progress != [] {
      var n := |progress| - 1;
      assert Readable(progress[..n]) by {
        forall k | 0 <= k < n ensures Ratio(progress[..n][k]).Some? {
          assert progress[..n][k] == progress[k];
        }
      }
      BandsPartition(progress[..n]);
      assert Ratio(progress[n]).Some?;
    }
  }
}
