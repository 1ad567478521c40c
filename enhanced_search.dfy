/**
 * The concept-search engine of `database/enhanced_search.py`.
 *
 * The sentence-embedding model is an `Embedder` whose `encode` may fail; the
 * floating-point value of `dot / (|a| * |b|)` is the uninterpreted `ratio`.
 * The graph store is a `Store` of query outcomes, `None` standing for a query
 * that raised. Empty `sourceTypes` stands for both `None` and `[]`.
 */
module EnhancedSearch {
  import opened Wrappers
  import Text
  import Seqs
  import Sorting

  type Vec = seq<real>

  /**
   * A concept row as the store returns it. Every column of the query is
   * present in the row, so Python's `record.get(key, default)` yields the
   * stored value, and `None` here is a null property.
   */
  datatype Record = Record(
    title: Option<string>,
    content: Option<string>,
    example: Option<string>,
    labels: seq<string>,
    sourceType: Option<string>,
    credibility: Option<real>,
    mentions: Option<string>,
    questions: Option<seq<string>>)

  /**
   * A search result. `title`/`name`, `content`/`definition`, `labels`,
   * `source_type`, `chapters_mentions`, `example` and `questions` of the
   * result dict are the fields of `rec`.
   */
  datatype Hit = Hit(rec: Record, similarity: real, credibility: real, weighted: real)

  /** The credibility used for weighting: the store's `coalesce(…, 1.0)`. */
  function Credibility(r: Record): real
  {
    r.credibility.GetOr(1.0)
  }

  function Weighted(h: Hit): real { h.weighted }

  /** A hit that passed the threshold and is weighted by its record's credibility. */
  predicate WellScored(h: Hit, threshold: real)
  {
    h.similarity >= threshold
    && h.credibility == Credibility(h.rec)
    && h.weighted == h.similarity * h.credibility
  }

  function Min(a: int, b: int): int { if a <= b then a else b }

  function Max(a: int, b: int): int { if a >= b then a else b }

  // ---------------------------------------------------------------------
  // Cosine similarity and its guards
  // ---------------------------------------------------------------------

  /** The outcome of `json.loads` on a string argument. */
  datatype Decoded = Undecodable | DecodedList(xs: Vec) | DecodedOther

  /** An argument of `cosine_similarity`: a list, a string, or anything else. */
  datatype VecArg = ListArg(xs: Vec) | StrArg(decoded: Decoded) | OtherArg

  /** The list an argument stands for after decoding, if it is one. */
  function AsVector(v: VecArg): Option<Vec>
  {
    match v
    case ListArg(xs) => Some(xs)
    case StrArg(DecodedList(xs)) => Some(xs)
    case _ => None
  }

  /** A vector whose Euclidean norm is zero. */
  predicate IsZero(x: Vec)
  {
    forall i :: 0 <= i < |x| ==> x[i] == 0.0
  }

  /** `cosine_similarity`: never fails; every malformed or degenerate input gives 0.0. */
  function Cosine(a: VecArg, b: VecArg, ratio: (Vec, Vec) -> real): (r: real)
    ensures a.StrArg? && a.decoded.Undecodable? ==> r == 0.0
    ensures b.StrArg? && b.decoded.Undecodable? ==> r == 0.0
    ensures (a.OtherArg? || b.OtherArg? || (a.StrArg? && a.decoded.DecodedOther?)
             || (b.StrArg? && b.decoded.DecodedOther?)) ==> r == 0.0
    ensures AsVector(a).Some? && AsVector(b).Some? && |AsVector(a).value| != |AsVector(b).value| ==> r == 0.0
    ensures AsVector(a).Some? && IsZero(AsVector(a).value) ==> r == 0.0
    ensures AsVector(b).Some? && IsZero(AsVector(b).value) ==> r == 0.0
    ensures r != 0.0 ==>
      AsVector(a).Some? && AsVector(b).Some? && r == ratio(AsVector(a).value, AsVector(b).value)
  {
    match (AsVector(a), AsVector(b))
    case (Some(x), Some(y)) =>
      if |x| != |y| then 0.0
      else if IsZero(x) || IsZero(y) then 0.0
      else ratio(x, y)
    case _ => 0.0
  }

  /** Similarity of two list embeddings, the only form the pipeline passes. */
  function Similarity(ratio: (Vec, Vec) -> real, x: Vec, y: Vec): real
  {
    Cosine(ListArg(x), ListArg(y), ratio)
  }

  /** Well-formed lists of equal length and non-zero norm get the model's ratio. */
  lemma SimilarityOfProperVectors(ratio: (Vec, Vec) -> real, x: Vec, y: Vec)
    requires |x| == |y| && !IsZero(x) && !IsZero(y)
    ensures Similarity(ratio, x, y) == ratio(x, y)
  {
  }

  // ---------------------------------------------------------------------
  // Embedding model
  // ---------------------------------------------------------------------

  /** The loaded sentence-embedding model; `encode` returns None when it raises. */
  datatype Embedder = Embedder(encode: string -> Option<Vec>, ratio: (Vec, Vec) -> real)

  /** `encode_batch`: one vector per text; the batch fails when any text fails. */
  function EncodeBatch(m: Embedder, texts: seq<string>): (r: Option<seq<Vec>>)
    ensures r.Some? ==> |r.value| == |texts|
    ensures r.Some? ==> forall i :: 0 <= i < |texts| ==> m.encode(texts[i]) == Some(r.value[i])
    ensures r.None? <==> exists i :: 0 <= i < |texts| && m.encode(texts[i]).None?
  {
    if texts == [] then Some([])
    else
      match (m.encode(texts[0]), EncodeBatch(m, texts[1..]))
      case (Some(v), Some(vs)) =>
        assert forall i :: 1 <= i < |texts| ==> texts[i] == texts[1..][i - 1];
        Some([v] + vs)
      case (None, _) => None
      case (_, None) =>
        var i :| 0 <= i < |texts[1..]| && m.encode(texts[1..][i]).None?;
        assert texts[i + 1] == texts[1..][i];
        None
  }

  /** `FallbackSearch.encode_query`: the stub embedding. */
  function StubEncodeQuery(query: string): (v: Vec)
    ensures v == []
  {
    []
  }

  /** `FallbackSearch.encode_batch`: one stub embedding per text. */
  function StubEncodeBatch(texts: seq<string>): (vs: seq<Vec>)
    ensures |vs| == |texts| && forall i :: 0 <= i < |vs| ==> vs[i] == []
  {
    seq(|texts|, _ => [])
  }

  /** Stub embeddings have zero norm, so any similarity with them is 0.0. */
  lemma StubSimilarityIsZero(ratio: (Vec, Vec) -> real, texts: seq<string>, i: nat)
    requires i < |texts|
    ensures Similarity(ratio, StubEncodeQuery(texts[i]), StubEncodeBatch(texts)[i]) == 0.0
  {
  }

  // ---------------------------------------------------------------------
  // Scoring records
  // ---------------------------------------------------------------------

  /** `f"{x}"` of a text field; a null formats as "None". */
  function Show(o: Option<string>): string
  {
    if o.Some? then o.value else "None"
  }

  /** `f"{title} {content} {example}".strip()`. */
  function DocText(r: Record): string
  {
    Text.Strip(Show(r.title) + " " + Show(r.content) + " " + Show(r.example))
  }

  /** A record is skipped exactly when its three text fields are present and blank. */
  lemma DocTextEmpty(r: Record)
    ensures DocText(r) == [] <==>
      (r.title.Some? && r.content.Some? && r.example.Some?
       && Text.AllSpace(r.title.value) && Text.AllSpace(r.content.value) && Text.AllSpace(r.example.value))
  {
    var a, b, c := Show(r.title), Show(r.content), Show(r.example);
    var s := a + " " + b + " " + c;
    Text.StripFacts(s);
    assert s == (a + (" " + b)) + (" " + c);
    Text.AllSpaceAppend(a + (" " + b), " " + c);
    Text.AllSpaceAppend(a, " " + b);
    Text.AllSpaceAppend(" ", b);
    Text.AllSpaceAppend(" ", c);
    assert Text.AllSpace(" ");
    ShowBlank(r.title);
    ShowBlank(r.content);
    ShowBlank(r.example);
  }

  lemma ShowBlank(o: Option<string>)
    ensures Text.AllSpace(Show(o)) <==> o.Some? && Text.AllSpace(o.value)
  {
    if o.None? {
      assert !Text.IsSpace(Show(o)[0]);
    }
  }

  /** The hit a record yields for its embedding `e`, if it reaches the threshold. */
  function Score(ratio: (Vec, Vec) -> real, qe: Vec, threshold: real, rec: Record, e: Vec): (h: Option<Hit>)
    ensures h.Some? ==> h.value.rec == rec && WellScored(h.value, threshold)
    ensures h.Some? <==> Similarity(ratio, qe, e) >= threshold
    ensures h.Some? ==> h.value.similarity == Similarity(ratio, qe, e)
  {
    var sim := Similarity(ratio, qe, e);
    if sim >= threshold then Some(Hit(rec, sim, Credibility(rec), sim * Credibility(rec))) else None
  }

  function OptSeq<T>(o: Option<T>): seq<T>
  {
    if o.Some? then [o.value] else []
  }

  /** The loop body of `_process_small_batch` over `(items[i], es[i])` pairs. */
  function PairHits(ratio: (Vec, Vec) -> real, qe: Vec, threshold: real, items: seq<Record>, es: seq<Vec>): (hs: seq<Hit>)
    requires |items| == |es|
    ensures |hs| <= |items|
  {
    if items == [] then []
    else
      var n := |items| - 1;
      PairHits(ratio, qe, threshold, items[..n], es[..n]) + OptSeq(Score(ratio, qe, threshold, items[n], es[n]))
  }

  /** What `_process_small_batch` appends: nothing when the batch encoding raises. */
  lemma PairHitsSnoc(ratio: (Vec, Vec) -> real, qe: Vec, threshold: real, items: seq<Record>, es: seq<Vec>, i: nat)
    requires |items| == |es| && i < |items|
    ensures PairHits(ratio, qe, threshold, items[..i + 1], es[..i + 1])
         == PairHits(ratio, qe, threshold, items[..i], es[..i]) + OptSeq(Score(ratio, qe, threshold, items[i], es[i]))
  {
    assert items[..i + 1][..i] == items[..i] && es[..i + 1][..i] == es[..i];
  }

  function SmallBatchHits(m: Embedder, qe: Vec, threshold: real, texts: seq<string>, items: seq<Record>): (hs: seq<Hit>)
    requires |texts| == |items|
  {
    match EncodeBatch(m, texts)
    case None => []
    case Some(es) => PairHits(m.ratio, qe, threshold, items, es)
  }

  /** `_process_small_batch`, appending to the caller's `results`. */
  method ProcessSmallBatch(m: Embedder, texts: seq<string>, items: seq<Record>, qe: Vec, threshold: real,
                           results: seq<Hit>) returns (out: seq<Hit>)
    requires |texts| == |items|
    ensures out == results + SmallBatchHits(m, qe, threshold, texts, items)
  {
    out := results;
    var embeddings := EncodeBatch(m, texts);
    if embeddings.None? {
      // the exception is logged and the results so far are kept
      return;
    }
    var es := embeddings.value;
    var i := 0;
    while i < |es|
      invariant 0 <= i <= |es|
      invariant out == results + PairHits(m.ratio, qe, threshold, items[..i], es[..i])
    {
      var h := Score(m.ratio, qe, threshold, items[i], es[i]);
      PairHitsSnoc(m.ratio, qe, threshold, items, es, i);
      if h.Some? {
        out := out + [h.value];
      }
      i := i + 1;
    }
    assert items[..i] == items && es[..i] == es;
  }

  /** The hit of one record processed on its own: non-blank text, encoded, scored. */
  function RecordHit(m: Embedder, qe: Vec, threshold: real, rec: Record): (h: Option<Hit>)
    ensures h.Some? ==> h.value.rec == rec && WellScored(h.value, threshold)
    ensures !HasText(rec) ==> h.None?
  {
    var text := DocText(rec);
    if text == [] then None
    else match m.encode(text)
      case None => None
      case Some(e) => Score(m.ratio, qe, threshold, rec, e)
  }

  function Scorer(m: Embedder, qe: Vec, threshold: real): Record -> Option<Hit>
  {
    rec => RecordHit(m, qe, threshold, rec)
  }

  /** The records processed one by one, in order (the sequential path of `_search_hybrid`). */
  function PerRecordHits(m: Embedder, qe: Vec, threshold: real, recs: seq<Record>): seq<Hit>
  {
    Seqs.FilterMap(Scorer(m, qe, threshold), recs)
  }

  /** Every hit of the per-record path comes from one of the records and passed the threshold. */
  lemma PerRecordWellScored(m: Embedder, qe: Vec, threshold: real, recs: seq<Record>)
    ensures forall h :: h in PerRecordHits(m, qe, threshold, recs) ==> WellScored(h, threshold) && h.rec in recs
  {
    forall h | h in PerRecordHits(m, qe, threshold, recs) ensures WellScored(h, threshold) && h.rec in recs {
      Seqs.FilterMapFrom(Scorer(m, qe, threshold), recs, h);
    }
  }

  lemma PerRecordSnoc(m: Embedder, qe: Vec, threshold: real, rows: seq<Record>, i: nat)
    requires i < |rows|
    ensures PerRecordHits(m, qe, threshold, rows[..i + 1])
         == PerRecordHits(m, qe, threshold, rows[..i]) + OptSeq(RecordHit(m, qe, threshold, rows[i]))
  {
    assert rows[..i + 1][..i] == rows[..i];
  }

  /** A record whose document text is not blank. */
  predicate HasText(r: Record)
  {
    DocText(r) != []
  }

  /** The records of a batch whose document text is not blank, in order. */
  function Eligible(batch: seq<Record>): seq<Record>
  {
    Seqs.Filter(HasText, batch)
  }

  /** The document texts of the buffered records, in order. */
  function Texts(rs: seq<Record>): (ts: seq<string>)
    ensures |ts| == |rs|
  {
    if rs == [] then [] else Texts(rs[..|rs| - 1]) + [DocText(rs[|rs| - 1])]
  }

  lemma {:induction false} TextsAt(rs: seq<Record>, k: nat)
    requires k < |rs|
    ensures Texts(rs)[k] == DocText(rs[k])
  {
    var n := |rs| - 1;
    if k < n {
      TextsAt(rs[..n], k);
    }
  }

  /** The hits of a sequence of groups, each group encoded as one small batch. */
  function GroupHits(m: Embedder, qe: Vec, threshold: real, groups: seq<seq<Record>>): seq<Hit>
  {
    if groups == [] then []
    else
      var n := |groups| - 1;
      GroupHits(m, qe, threshold, groups[..n]) + SmallBatchHits(m, qe, threshold, Texts(groups[n]), groups[n])
  }

  /**
   * What `_process_batch` returns: the eligible records in groups of
   * `max_batch_size = 5`, each group encoded and scored as one small batch.
   */
  function BatchHits(m: Embedder, qe: Vec, threshold: real, batch: seq<Record>): seq<Hit>
  {
    GroupHits(m, qe, threshold, Seqs.Chunks(Eligible(batch), 5))
  }

  lemma {:induction false} GroupHitsSnoc(m: Embedder, qe: Vec, threshold: real, groups: seq<seq<Record>>, g: seq<Record>)
    ensures GroupHits(m, qe, threshold, groups + [g])
         == GroupHits(m, qe, threshold, groups) + SmallBatchHits(m, qe, threshold, Texts(g), g)
  {
    assert (groups + [g])[..|groups|] == groups;
  }

  /** The state `_process_batch` carries between records: the results so far and the buffered records. */
  datatype Buffer = Buffer(results: seq<Hit>, items: seq<Record>)

  /**
   * One record through the loop of `_process_batch`: a blank record is
   * skipped; otherwise it joins the buffer, and a buffer that reaches
   * `max_batch_size = 5` is encoded, scored and emptied.
   */
  function Step(m: Embedder, qe: Vec, threshold: real, b: Buffer, rec: Record): Buffer
  {
    if !HasText(rec) then b
    else
      var items := b.items + [rec];
      if |items| >= 5 then Buffer(b.results + SmallBatchHits(m, qe, threshold, Texts(items), items), [])
      else Buffer(b.results, items)
  }

  /** The loop state after a prefix of the batch. */
  function BufferAfter(m: Embedder, qe: Vec, threshold: real, prefix: seq<Record>): Buffer
  {
    if prefix == [] then Buffer([], [])
    else
      var n := |prefix| - 1;
      Step(m, qe, threshold, BufferAfter(m, qe, threshold, prefix[..n]), prefix[n])
  }

  lemma BufferAfterSnoc(m: Embedder, qe: Vec, threshold: real, batch: seq<Record>, i: nat)
    requires i < |batch|
    ensures BufferAfter(m, qe, threshold, batch[..i + 1])
         == Step(m, qe, threshold, BufferAfter(m, qe, threshold, batch[..i]), batch[i])
  {
    assert batch[..i + 1][..i] == batch[..i];
  }

  /**
   * A loop state agrees with the grouping specification after `prefix`: the
   * flushed groups are full, the flushed groups and the buffer together are
   * the eligible records so far, the buffer holds fewer than five records,
   * and the results are the flushed groups' hits.
   */
  ghost predicate Grouped(m: Embedder, qe: Vec, threshold: real, prefix: seq<Record>, b: Buffer, full: seq<seq<Record>>)
  {
    FullGroups(full) && Seqs.Flatten(full) + b.items == Eligible(prefix) && |b.items| < 5
    && b.results == GroupHits(m, qe, threshold, full)
  }

  lemma StepGrouped(m: Embedder, qe: Vec, threshold: real, prefix: seq<Record>, b: Buffer, rec: Record,
                    full: seq<seq<Record>>) returns (full': seq<seq<Record>>)
    requires Grouped(m, qe, threshold, prefix, b, full)
    ensures Grouped(m, qe, threshold, prefix + [rec], Step(m, qe, threshold, b, rec), full')
  {
    EligibleSnoc(prefix, rec);
    full' := full;
    if HasText(rec) {
      var g := b.items + [rec];
      if |g| >= 5 {
        full' := FlushGrouped(m, qe, threshold, prefix, b, rec, full);
      }
    }
  }

  lemma FlushGrouped(m: Embedder, qe: Vec, threshold: real, prefix: seq<Record>, b: Buffer, rec: Record,
                     full: seq<seq<Record>>) returns (full': seq<seq<Record>>)
    requires Grouped(m, qe, threshold, prefix, b, full) && HasText(rec) && |b.items| + 1 >= 5
    ensures Grouped(m, qe, threshold, prefix + [rec], Step(m, qe, threshold, b, rec), full')
  {
    var g := b.items + [rec];
    EligibleSnoc(prefix, rec);
    GroupHitsSnoc(m, qe, threshold, full, g);
    FlattenSnoc(full, g);
    FullGroupsSnoc(full, g);
    full' := full + [g];
    var b' := Step(m, qe, threshold, b, rec);
    assert b' == Buffer(b.results + SmallBatchHits(m, qe, threshold, Texts(g), g), []);
    Seqs.AppendAssoc(Seqs.Flatten(full), b.items, [rec]);
    assert Seqs.Flatten(full') == Eligible(prefix + [rec]);
    assert b'.items == [];
    Seqs.AppendEmpty(Seqs.Flatten(full'));
    assert b'.results == GroupHits(m, qe, threshold, full');
  }

  /** The loop state after any prefix agrees with the grouping specification. */
  lemma {:induction false} BufferAfterGroups(m: Embedder, qe: Vec, threshold: real, prefix: seq<Record>)
    returns (full: seq<seq<Record>>)
    ensures Grouped(m, qe, threshold, prefix, BufferAfter(m, qe, threshold, prefix), full)
    decreases |prefix|
  {
    if prefix == [] {
      full := [];
    } else {
      var n := |prefix| - 1;
      full := BufferAfterGroups(m, qe, threshold, prefix[..n]);
      full := StepGrouped(m, qe, threshold, prefix[..n], BufferAfter(m, qe, threshold, prefix[..n]), prefix[n], full);
      Seqs.SnocSplit(prefix);
    }
  }

  /** `_process_batch`: buffers eligible records and flushes them five at a time. */
  method ProcessBatch(m: Embedder, batch: seq<Record>, qe: Vec, threshold: real) returns (results: seq<Hit>)
    ensures results == BatchHits(m, qe, threshold, batch)
  {
    results := [];
    var texts: seq<string> := [];
    var items: seq<Record> := [];
    var i := 0;
    while i < |batch|
      invariant 0 <= i <= |batch|
      invariant Buffer(results, items) == BufferAfter(m, qe, threshold, batch[..i])
      invariant texts == Texts(items)
    {
      var rec := batch[i];
      var text := DocText(rec);
      BufferAfterSnoc(m, qe, threshold, batch, i);
      if text != [] {
        TextsSnoc(items, rec);
        texts := texts + [text];
        items := items + [rec];
        if |texts| >= 5 {
          results := ProcessSmallBatch(m, texts, items, qe, threshold, results);
          texts := [];
          items := [];
        }
      }
      i := i + 1;
    }
    assert batch[..i] == batch;
    ghost var full := BufferAfterGroups(m, qe, threshold, batch);
    FinalFlush(m, qe, threshold, batch, Buffer(results, items), full);
    if texts != [] {
      results := ProcessSmallBatch(m, texts, items, qe, threshold, results);
    }
  }

  lemma EligibleSnoc(prefix: seq<Record>, rec: Record)
    ensures Eligible(prefix + [rec]) == Eligible(prefix) + (if HasText(rec) then [rec] else [])
  {
    assert (prefix + [rec])[..|prefix|] == prefix;
  }

  lemma TextsSnoc(items: seq<Record>, rec: Record)
    ensures Texts(items + [rec]) == Texts(items) + [DocText(rec)]
  {
    assert (items + [rec])[..|items|] == items;
  }

  /** Groups of exactly `max_batch_size = 5` records. */
  ghost predicate FullGroups(full: seq<seq<Record>>)
  {
    forall k :: 0 <= k < |full| ==> |full[k]| == 5
  }

  lemma FullGroupsSnoc(full: seq<seq<Record>>, g: seq<Record>)
    requires FullGroups(full) && |g| == 5
    ensures FullGroups(full + [g])
  {
  }

  /** The records left in the buffer after the loop form the last group. */
  lemma FinalFlush(m: Embedder, qe: Vec, threshold: real, batch: seq<Record>, b: Buffer, full: seq<seq<Record>>)
    requires Grouped(m, qe, threshold, batch, b, full)
    ensures b.items == [] ==> BatchHits(m, qe, threshold, batch) == b.results
    ensures b.items != [] ==>
      BatchHits(m, qe, threshold, batch) == b.results + SmallBatchHits(m, qe, threshold, Texts(b.items), b.items)
  {
    Seqs.ChunksAfterFull(full, b.items, 5);
    if b.items != [] {
      Seqs.ChunksShort(b.items, 5);
      GroupHitsSnoc(m, qe, threshold, full, b.items);
    } else {
      assert full + Seqs.Chunks(b.items, 5) == full;
    }
  }


  lemma FlattenSnoc<T>(ss: seq<seq<T>>, s: seq<T>)
    ensures Seqs.Flatten(ss + [s]) == Seqs.Flatten(ss) + s
  {
    Seqs.FlattenAppend(ss, [s]);
    assert Seqs.Flatten([s]) == s + Seqs.Flatten([s][1..]);
  }

  /** With every text encoded, each pair is scored exactly as the record alone would be. */
  lemma {:induction false} PairHitsPerRecord(m: Embedder, qe: Vec, threshold: real, items: seq<Record>, es: seq<Vec>)
    requires |items| == |es|
    requires forall k :: 0 <= k < |items| ==> DocText(items[k]) != [] && m.encode(DocText(items[k])) == Some(es[k])
    ensures PairHits(m.ratio, qe, threshold, items, es) == PerRecordHits(m, qe, threshold, items)
  {
    if items != [] {
      var n := |items| - 1;
      PairHitsPerRecord(m, qe, threshold, items[..n], es[..n]);
    }
  }

  /** Grouping does not matter once every text encodes: the groups give the per-record hits. */
  lemma {:induction false} GroupHitsPerRecord(m: Embedder, qe: Vec, threshold: real, groups: seq<seq<Record>>)
    requires forall k, j :: 0 <= k < |groups| && 0 <= j < |groups[k]| ==>
      DocText(groups[k][j]) != [] && m.encode(DocText(groups[k][j])).Some?
    ensures GroupHits(m, qe, threshold, groups) == PerRecordHits(m, qe, threshold, Seqs.Flatten(groups))
  {
    if groups != [] {
      var n := |groups| - 1;
      var g := groups[n];
      GroupHitsPerRecord(m, qe, threshold, groups[..n]);
      var ts := Texts(g);
      forall j | 0 <= j < |ts| ensures m.encode(ts[j]).Some? {
        TextsAt(g, j);
      }
      var es := EncodeBatch(m, ts);
      assert es.Some?;
      forall j | 0 <= j < |g| ensures m.encode(DocText(g[j])) == Some(es.value[j]) {
        TextsAt(g, j);
      }
      PairHitsPerRecord(m, qe, threshold, g, es.value);
      Seqs.SnocSplit(groups);
      FlattenSnoc(groups[..n], g);
      Seqs.FilterMapAppend(Scorer(m, qe, threshold), Seqs.Flatten(groups[..n]), g);
    }
  }

  /**
   * When the model encodes every document text, `_process_batch` yields each
   * record's hit exactly once, in input order: the five-record grouping is
   * invisible in the result.
   */
  lemma BatchHitsPerRecord(m: Embedder, qe: Vec, threshold: real, batch: seq<Record>)
    requires forall k :: 0 <= k < |batch| && DocText(batch[k]) != [] ==> m.encode(DocText(batch[k])).Some?
    ensures BatchHits(m, qe, threshold, batch) == PerRecordHits(m, qe, threshold, batch)
  {
    var e := Eligible(batch);
    var groups := Seqs.Chunks(e, 5);
    Seqs.ChunksFacts(e, 5);
    forall k, j | 0 <= k < |groups| && 0 <= j < |groups[k]|
      ensures DocText(groups[k][j]) != [] && m.encode(DocText(groups[k][j])).Some?
    {
      FlattenMember(groups, k, j);
      Seqs.FilterMember(HasText, batch, groups[k][j]);
    }
    GroupHitsPerRecord(m, qe, threshold, groups);
    Seqs.FilterMapAfterFilter(HasText, Scorer(m, qe, threshold), batch);
  }

  lemma {:induction false} FlattenMember<T>(ss: seq<seq<T>>, k: nat, j: nat)
    requires k < |ss| && j < |ss[k]|
    ensures ss[k][j] in Seqs.Flatten(ss)
  {
    if k > 0 {
      FlattenMember(ss[1..], k - 1, j);
    }
  }

  /** `_process_batch` results all passed the threshold and come from the grouped records. */
  lemma {:induction false} GroupHitsWellScored(m: Embedder, qe: Vec, threshold: real, groups: seq<seq<Record>>)
    ensures forall h :: h in GroupHits(m, qe, threshold, groups) ==>
      WellScored(h, threshold) && h.rec in Seqs.Flatten(groups)
  {
    if groups != [] {
      var n := |groups| - 1;
      GroupHitsWellScored(m, qe, threshold, groups[..n]);
      var es := EncodeBatch(m, Texts(groups[n]));
      if es.Some? {
        PairHitsWellScored(m.ratio, qe, threshold, groups[n], es.value);
      }
      Seqs.SnocSplit(groups);
      FlattenSnoc(groups[..n], groups[n]);
    }
  }

  lemma {:induction false} PairHitsWellScored(ratio: (Vec, Vec) -> real, qe: Vec, threshold: real, items: seq<Record>, es: seq<Vec>)
    requires |items| == |es|
    ensures forall h :: h in PairHits(ratio, qe, threshold, items, es) ==> WellScored(h, threshold) && h.rec in items
  {
    if items != [] {
      var n := |items| - 1;
      PairHitsWellScored(ratio, qe, threshold, items[..n], es[..n]);
      assert forall r :: r in items[..n] ==> r in items;
    }
  }

  // ---------------------------------------------------------------------
  // The store
  // ---------------------------------------------------------------------

  /** A row of `SHOW VECTOR INDEXES`. */
  datatype IndexInfo = IndexInfo(labelsOrTypes: seq<string>, properties: seq<string>, name: Option<string>)

  /** A row of the vector-index query; `score` is returned as `similarity`. */
  datatype IndexRow = IndexRow(rec: Record, score: real)

  /**
   * The graph store:
   * - `concepts(sourceTypes)`: the hybrid query's rows (store-side filter, LIMIT 100);
   * - `vectorIndexes`: the rows of `SHOW VECTOR INDEXES`;
   * - `queryNodes(index, k, embedding, threshold, sourceTypes, limit)`: the index query's rows.
   */
  datatype Store = Store(
    concepts: seq<string> -> Option<seq<Record>>,
    vectorIndexes: Option<seq<IndexInfo>>,
    queryNodes: (string, int, Vec, real, seq<string>, int) -> Option<seq<IndexRow>>)

  // ---------------------------------------------------------------------
  // The engine and its construction
  // ---------------------------------------------------------------------

  const FastModel: string := "all-MiniLM-L6-v2"

  /** `MODEL_VARIANTS`. */
  const ModelVariants: map<string, string> := map[
    "default" := "all-MiniLM-L12-v2",
    "fast" := FastModel,
    "accurate" := "all-mpnet-base-v2",
    "multilingual" := "paraphrase-multilingual-mpnet-base-v2",
    "distilbert" := "distilbert-base-nli-stsb-mean-tokens"]

  /** A variant key names its model; any other name is a model name already. */
  function ResolveModel(name: string): (r: string)
    ensures name in ModelVariants ==> r == ModelVariants[name]
    ensures name !in ModelVariants ==> r == name
    ensures name == "fast" ==> r == "all-MiniLM-L6-v2"
  {
    if name in ModelVariants then ModelVariants[name] else name
  }

  datatype Engine = Engine(
    hasDriver: bool,
    embedder: Embedder,
    maxWorkers: int,
    hasVectorIndex: bool)

  /** `_check_vector_index`: some vector index is listed; a failing listing counts as none. */
  function HasVectorIndex(store: Store): bool
  {
    store.vectorIndexes.Some? && |store.vectorIndexes.value| > 0
  }

  /**
   * The `EnhancedCourseSearch` constructor. `load(name)` is the outcome of
   * loading a model; None is the `RuntimeError` raised when neither the
   * requested model nor the fast backup loads.
   */
  function NewEngine(driverConnects: bool, store: Store, modelName: string, maxWorkers: int,
                     load: string -> Option<Embedder>): (r: Option<Engine>)
    ensures r.None? <==> load(ResolveModel(modelName)).None? && load(FastModel).None?
    ensures r.Some? ==> r.value.maxWorkers == Min(maxWorkers, 1) && r.value.maxWorkers <= 1
    ensures r.Some? ==> r.value.hasDriver == driverConnects
    ensures r.Some? ==> (r.value.hasVectorIndex <==> driverConnects && HasVectorIndex(store))
    ensures r.Some? && load(ResolveModel(modelName)).Some? ==> r.value.embedder == load(ResolveModel(modelName)).value
    ensures r.Some? && load(ResolveModel(modelName)).None? ==> r.value.embedder == load(FastModel).value
  {
    var primary := load(ResolveModel(modelName));
    var model := if primary.Some? then primary else load(FastModel);
    if model.None? then None
    else Some(Engine(driverConnects, model.value, Min(maxWorkers, 1), driverConnects && HasVectorIndex(store)))
  }

  // ---------------------------------------------------------------------
  // Hybrid search
  // ---------------------------------------------------------------------

  /** `max(5, n // max_workers)`. */
  function BatchSize(n: nat, maxWorkers: int): (bs: nat)
    requires maxWorkers != 0
    ensures bs >= 5
    ensures maxWorkers == 1 ==> bs >= n
  {
    Max(5, Seqs.FloorDiv(n, maxWorkers))
  }

  /** The slices handed to the thread pool: consecutive, of `BatchSize`, covering every row. */
  function Batches(rows: seq<Record>, maxWorkers: int): seq<seq<Record>>
    requires maxWorkers != 0
  {
    Seqs.Chunks(rows, BatchSize(|rows|, maxWorkers))
  }

  /** The batches cover the rows in order, each non-empty, all but the last of exactly `BatchSize`. */
  lemma BatchesFacts(rows: seq<Record>, maxWorkers: int)
    requires maxWorkers != 0
    ensures Seqs.Flatten(Batches(rows, maxWorkers)) == rows
    ensures forall k :: 0 <= k < |Batches(rows, maxWorkers)| ==>
      0 < |Batches(rows, maxWorkers)[k]| <= BatchSize(|rows|, maxWorkers)
    ensures forall k :: 0 <= k < |Batches(rows, maxWorkers)| - 1 ==>
      |Batches(rows, maxWorkers)[k]| == BatchSize(|rows|, maxWorkers)
    ensures rows != [] ==> |Batches(rows, maxWorkers)| >= 1
  {
    Seqs.ChunksFacts(rows, BatchSize(|rows|, maxWorkers));
  }

  /** With the clamped single worker, the whole row list is one batch. */
  lemma SingleWorkerOneBatch(rows: seq<Record>)
    requires rows != []
    ensures Batches(rows, 1) == [rows]
  {
    Seqs.ChunksShort(rows, BatchSize(|rows|, 1));
  }

  /** The batches' results, concatenated in batch order (`executor.map` keeps order). */
  function BatchesHits(m: Embedder, qe: Vec, threshold: real, batches: seq<seq<Record>>): seq<Hit>
  {
    if batches == [] then []
    else
      var n := |batches| - 1;
      BatchesHits(m, qe, threshold, batches[..n]) + BatchHits(m, qe, threshold, batches[n])
  }

  /**
   * The unsorted hits of `_search_hybrid`. A pool of `min(max_workers,
   * len(batches))` workers, when that is not positive, raises before any
   * batch runs, and the rows are then processed one at a time.
   */
  function Gathered(e: Engine, qe: Vec, threshold: real, rows: seq<Record>): seq<Hit>
    requires e.maxWorkers != 0
  {
    var batches := Batches(rows, e.maxWorkers);
    if Min(e.maxWorkers, |batches|) <= 0 then PerRecordHits(e.embedder, qe, threshold, rows)
    else BatchesHits(e.embedder, qe, threshold, batches)
  }

  /** `results.sort(key=weighted_score, reverse=True)` followed by `results[:limit]`. */
  function Rank(hits: seq<Hit>, limit: int): seq<Hit>
  {
    Seqs.PyTake(Sorting.SortDesc(hits, Weighted), limit)
  }

  /** What `_search_hybrid` returns; every failure inside it yields []. */
  function HybridSearch(e: Engine, store: Store, qe: Vec, limit: int, threshold: real, sourceTypes: seq<string>): seq<Hit>
  {
    if !e.hasDriver then []
    else match store.concepts(sourceTypes)
      case None => []
      case Some(rows) =>
        if rows == [] then []
        else if e.maxWorkers == 0 then []  // ZeroDivisionError in `n // max_workers`
        else Rank(Gathered(e, qe, threshold, rows), limit)
  }

  /** The per-batch loop over `executor.map`'s results. */
  method RunBatches(m: Embedder, batches: seq<seq<Record>>, qe: Vec, threshold: real) returns (results: seq<Hit>)
    ensures results == BatchesHits(m, qe, threshold, batches)
  {
    results := [];
    var i := 0;
    while i < |batches|
      invariant 0 <= i <= |batches|
      invariant results == BatchesHits(m, qe, threshold, batches[..i])
    {
      var batchResults := ProcessBatch(m, batches[i], qe, threshold);
      assert batches[..i + 1][..i] == batches[..i];
      results := results + batchResults;
      i := i + 1;
    }
    assert batches[..i] == batches;
  }

  /** The single-threaded fallback loop of `_search_hybrid`. */
  method RunSequential(m: Embedder, rows: seq<Record>, qe: Vec, threshold: real) returns (results: seq<Hit>)
    ensures results == PerRecordHits(m, qe, threshold, rows)
  {
    results := [];
    var i := 0;
    while i < |rows|
      invariant 0 <= i <= |rows|
      invariant results == PerRecordHits(m, qe, threshold, rows[..i])
    {
      var record := rows[i];
      var text := DocText(record);
      PerRecordSnoc(m, qe, threshold, rows, i);
      if text != [] {
        var embedding := m.encode(text);
        if embedding.Some? {
          var h := Score(m.ratio, qe, threshold, record, embedding.value);
          if h.Some? {
            results := results + [h.value];
          }
        }
      }
      i := i + 1;
    }
    assert rows[..i] == rows;
  }

  /** `_search_hybrid`. */
  method SearchHybrid(e: Engine, store: Store, qe: Vec, limit: int, threshold: real, sourceTypes: seq<string>)
    returns (results: seq<Hit>)
    ensures results == HybridSearch(e, store, qe, limit, threshold, sourceTypes)
  {
    if !e.hasDriver {
      return [];
    }
    var fetched := store.concepts(sourceTypes);
    if fetched.None? {
      return [];
    }
    var allRecords := fetched.value;
    if allRecords == [] {
      return [];
    }
    if e.maxWorkers == 0 {
      return [];
    }
    var batches := Batches(allRecords, e.maxWorkers);
    if Min(e.maxWorkers, |batches|) <= 0 {
      results := RunSequential(e.embedder, allRecords, qe, threshold);
    } else {
      results := RunBatches(e.embedder, batches, qe, threshold);
    }
    results := Sorting.SortDesc(results, Weighted);
    results := Seqs.PyTake(results, limit);
  }

  /** No rows from the store means no results. */
  lemma HybridEmptyStore(e: Engine, store: Store, qe: Vec, limit: int, threshold: real, sourceTypes: seq<string>)
    requires store.concepts(sourceTypes) == Some([])
    ensures HybridSearch(e, store, qe, limit, threshold, sourceTypes) == []
  {
  }

  /** A prefix keeps sortedness, and takes a prefix of each key class. */
  lemma {:induction false} TakeKeepsOrder(s: seq<Hit>, k: nat)
    requires k <= |s| && Sorting.SortedDesc(s, Weighted)
    ensures Sorting.SortedDesc(s[..k], Weighted)
    ensures forall v :: Sorting.WithKey(s[..k], Weighted, v) <= Sorting.WithKey(s, Weighted, v)
  {
    forall v ensures Sorting.WithKey(s[..k], Weighted, v) <= Sorting.WithKey(s, Weighted, v) {
      WithKeyPrefix(s, k, v);
    }
  }

  lemma {:induction false} WithKeyPrefix(s: seq<Hit>, k: nat, v: real)
    requires k <= |s|
    ensures Sorting.WithKey(s[..k], Weighted, v) <= Sorting.WithKey(s, Weighted, v)
  {
    if k > 0 {
      assert s[..k][1..] == s[1..][..k - 1];
      WithKeyPrefix(s[1..], k - 1, v);
    }
  }

  /**
   * The ranking step: non-increasing weighted scores, hits with equal scores
   * in their gathered order, drawn from the gathered hits, and no more than
   * `limit` of them (Python's slice drops `-limit` hits from the end when
   * `limit` is negative).
   */
  lemma RankFacts(hits: seq<Hit>, limit: int)
    ensures Sorting.SortedDesc(Rank(hits, limit), Weighted)
    ensures multiset(Rank(hits, limit)) <= multiset(hits)
    ensures forall v :: Sorting.WithKey(Rank(hits, limit), Weighted, v) <= Sorting.WithKey(hits, Weighted, v)
    ensures limit >= 0 ==> |Rank(hits, limit)| == Min(limit, |hits|)
    ensures limit < 0 ==> |Rank(hits, limit)| == Max(0, |hits| + limit)
    ensures forall h, g :: h in Rank(hits, limit) && g in multiset(hits) - multiset(Rank(hits, limit)) ==>
      g.weighted <= h.weighted
  {
    var sorted := Sorting.SortDesc(hits, Weighted);
    Sorting.SortDescFacts(hits, Weighted);
    var r := Rank(hits, limit);
    TakeKeepsOrder(sorted, |r|);
    assert r == sorted[..|r|];
    var rest := sorted[|r|..];
    assert sorted == r + rest;
    assert multiset(sorted) == multiset(r) + multiset(rest);
    forall h, g | h in r && g in multiset(hits) - multiset(r) ensures g.weighted <= h.weighted {
      assert g in multiset(rest);
      var i :| 0 <= i < |r| && r[i] == h;
      var j :| 0 <= j < |rest| && rest[j] == g;
      assert sorted[i] == h && sorted[|r| + j] == g;
      assert Weighted(sorted[i]) >= Weighted(sorted[|r| + j]);
    }
  }

  /** Every result of the hybrid path passed the threshold, is weighted by credibility and is one of the store's rows. */
  lemma HybridResultsWellScored(e: Engine, store: Store, qe: Vec, limit: int, threshold: real, sourceTypes: seq<string>)
    ensures forall h :: h in HybridSearch(e, store, qe, limit, threshold, sourceTypes) ==> WellScored(h, threshold)
    ensures forall h :: h in HybridSearch(e, store, qe, limit, threshold, sourceTypes) ==>
      store.concepts(sourceTypes).Some? && h.rec in store.concepts(sourceTypes).value
  {
    var r := HybridSearch(e, store, qe, limit, threshold, sourceTypes);
    if r != [] {
      var rows := store.concepts(sourceTypes).value;
      var g := Gathered(e, qe, threshold, rows);
      RankFacts(g, limit);
      GatheredWellScored(e, qe, threshold, rows);
      forall h | h in r ensures WellScored(h, threshold) && h.rec in rows {
        assert h in multiset(r);
        assert h in multiset(g);
      }
    }
  }

  /**
   * When the model encodes every text, the thread-pool path and the
   * single-threaded fallback gather the same hits: every batching of the
   * rows gives the per-record hits in row order.
   */
  lemma {:induction false} BatchesHitsPerRecord(m: Embedder, qe: Vec, threshold: real, batches: seq<seq<Record>>)
    requires forall k, j :: 0 <= k < |batches| && 0 <= j < |batches[k]| && DocText(batches[k][j]) != [] ==>
      m.encode(DocText(batches[k][j])).Some?
    ensures BatchesHits(m, qe, threshold, batches) == PerRecordHits(m, qe, threshold, Seqs.Flatten(batches))
  {
    if batches != [] {
      var n := |batches| - 1;
      BatchesHitsPerRecord(m, qe, threshold, batches[..n]);
      BatchHitsPerRecord(m, qe, threshold, batches[n]);
      Seqs.SnocSplit(batches);
      FlattenSnoc(batches[..n], batches[n]);
      Seqs.FilterMapAppend(Scorer(m, qe, threshold), Seqs.Flatten(batches[..n]), batches[n]);
    }
  }

  lemma {:induction false} BatchesHitsWellScored(m: Embedder, qe: Vec, threshold: real, batches: seq<seq<Record>>)
    ensures forall h :: h in BatchesHits(m, qe, threshold, batches) ==>
      WellScored(h, threshold) && h.rec in Seqs.Flatten(batches)
  {
    if batches != [] {
      var n := |batches| - 1;
      BatchesHitsWellScored(m, qe, threshold, batches[..n]);
      GroupHitsWellScored(m, qe, threshold, Seqs.Chunks(Eligible(batches[n]), 5));
      Seqs.ChunksFacts(Eligible(batches[n]), 5);
      forall r | r in Eligible(batches[n]) ensures r in batches[n] {
        Seqs.FilterMember(HasText, batches[n], r);
      }
      Seqs.SnocSplit(batches);
      FlattenSnoc(batches[..n], batches[n]);
    }
  }

  /** Whichever path gathers them, the hits all passed the threshold and come from the rows. */
  lemma GatheredWellScored(e: Engine, qe: Vec, threshold: real, rows: seq<Record>)
    requires e.maxWorkers != 0
    ensures forall h :: h in Gathered(e, qe, threshold, rows) ==> WellScored(h, threshold) && h.rec in rows
  {
    PerRecordWellScored(e.embedder, qe, threshold, rows);
    BatchesHitsWellScored(e.embedder, qe, threshold, Batches(rows, e.maxWorkers));
    BatchesFacts(rows, e.maxWorkers);
  }

  lemma GatheredPerRecord(e: Engine, qe: Vec, threshold: real, rows: seq<Record>)
    requires e.maxWorkers != 0
    requires forall k :: 0 <= k < |rows| && DocText(rows[k]) != [] ==> e.embedder.encode(DocText(rows[k])).Some?
    ensures Gathered(e, qe, threshold, rows) == PerRecordHits(e.embedder, qe, threshold, rows)
  {
    var batches := Batches(rows, e.maxWorkers);
    BatchesFacts(rows, e.maxWorkers);
    forall k, j | 0 <= k < |batches| && 0 <= j < |batches[k]| && DocText(batches[k][j]) != []
      ensures e.embedder.encode(DocText(batches[k][j])).Some?
    {
      FlattenMember(batches, k, j);
    }
    BatchesHitsPerRecord(e.embedder, qe, threshold, batches);
  }

  // ---------------------------------------------------------------------
  // Vector-index search
  // ---------------------------------------------------------------------

  predicate Truthy(o: Option<string>) { o.Some? && o.value != "" }

  predicate ForConcepts(idx: IndexInfo)
  {
    "Concept" in idx.labelsOrTypes && "combined_embedding" in idx.properties
  }

  /** The position of the first index over `Concept.combined_embedding`. */
  function FirstConceptIndex(indexes: seq<IndexInfo>): (k: Option<nat>)
    ensures k.Some? ==> k.value < |indexes| && ForConcepts(indexes[k.value])
    ensures k.Some? ==> forall j :: 0 <= j < k.value ==> !ForConcepts(indexes[j])
    ensures k.None? ==> forall j :: 0 <= j < |indexes| ==> !ForConcepts(indexes[j])
  {
    if indexes == [] then None
    else if ForConcepts(indexes[0]) then Some(0)
    else match FirstConceptIndex(indexes[1..])
      case None => None
      case Some(k) => Some(k + 1)
  }

  /** The index name used by `_search_with_vector_index`. */
  function IndexName(listing: Option<seq<IndexInfo>>): (name: string)
    ensures name != ""
    ensures listing.None? || listing == Some([]) ==> name == "concept_vectors"
    ensures (listing.Some? && FirstConceptIndex(listing.value).Some?
             && Truthy(listing.value[FirstConceptIndex(listing.value).value].name))
            ==> name == listing.value[FirstConceptIndex(listing.value).value].name.value
    ensures (listing.Some? && listing.value != [] && FirstConceptIndex(listing.value).None?
             && Truthy(listing.value[0].name)) ==> name == listing.value[0].name.value
    ensures Truthy(Some(name)) && (name == "concept_vectors"
            || (listing.Some? && exists j :: 0 <= j < |listing.value| && listing.value[j].name == Some(name)))
  {
    var found: Option<string> :=
      if listing.None? || listing.value == [] then None
      else
        var k := FirstConceptIndex(listing.value);
        var chosen := if k.Some? then listing.value[k.value].name else None;
        if Truthy(chosen) then chosen else listing.value[0].name;
    if Truthy(found) then found.value else "concept_vectors"
  }

  /** A listing that raises leaves the default name, as an empty one does. */
  lemma IndexNameOfFailedListing()
    ensures IndexName(None) == IndexName(Some([])) == "concept_vectors"
  {
  }

  /** `k = min(limit * 3, 100)`. */
  function CandidateCount(limit: int): (k: int)
    ensures k <= 100 && k <= 3 * limit
    ensures k == 100 || k == 3 * limit
  {
    Min(limit * 3, 100)
  }

  function IndexHit(row: IndexRow): (h: Hit)
    ensures h.rec == row.rec && h.similarity == row.score
    ensures h.credibility == Credibility(row.rec) && h.weighted == row.score * Credibility(row.rec)
  {
    Hit(row.rec, row.score, Credibility(row.rec), row.score * Credibility(row.rec))
  }

  function IndexHits(rows: seq<IndexRow>): (hs: seq<Hit>)
    ensures |hs| == |rows| && forall k :: 0 <= k < |rows| ==> hs[k] == IndexHit(rows[k])
  {
    seq(|rows|, k requires 0 <= k < |rows| => IndexHit(rows[k]))
  }

  /** What `_search_with_vector_index` returns; a failing index query falls back to the hybrid path. */
  function IndexSearch(e: Engine, store: Store, qe: Vec, limit: int, threshold: real, sourceTypes: seq<string>): seq<Hit>
  {
    var outcome :=
      if e.hasDriver
      then store.queryNodes(IndexName(store.vectorIndexes), CandidateCount(limit), qe, threshold, sourceTypes, limit)
      else None;
    match outcome
    case None => HybridSearch(e, store, qe, limit, threshold, sourceTypes)
    case Some(rows) => IndexHits(rows)
  }

  /** `_search_with_vector_index`. */
  method SearchWithVectorIndex(e: Engine, store: Store, qe: Vec, limit: int, threshold: real, sourceTypes: seq<string>)
    returns (results: seq<Hit>)
    ensures results == IndexSearch(e, store, qe, limit, threshold, sourceTypes)
  {
    if !e.hasDriver {
      results := SearchHybrid(e, store, qe, limit, threshold, sourceTypes);
      return;
    }
    var indexName := IndexName(store.vectorIndexes);
    var k := CandidateCount(limit);
    var outcome := store.queryNodes(indexName, k, qe, threshold, sourceTypes, limit);
    if outcome.None? {
      results := SearchHybrid(e, store, qe, limit, threshold, sourceTypes);
      return;
    }
    var rows := outcome.value;
    results := [];
    var i := 0;
    while i < |rows|
      invariant 0 <= i <= |rows|
      invariant results == IndexHits(rows[..i])
    {
      results := results + [IndexHit(rows[i])];
      i := i + 1;
    }
    assert rows[..i] == rows;
  }

  /** The index query's own WHERE, ORDER BY and LIMIT, as the store applies them. */
  ghost predicate StoreHonoursIndexQuery(rows: seq<IndexRow>, limit: int, threshold: real)
  {
    |rows| <= Max(limit, 0)
    && (forall k :: 0 <= k < |rows| ==> rows[k].score >= threshold)
    && (forall i, j :: 0 <= i < j < |rows| ==>
          rows[i].score * Credibility(rows[i].rec) >= rows[j].score * Credibility(rows[j].rec))
  }

  /** Given the store's ordering and limit, the index results meet the same guarantees as the hybrid ones. */
  lemma IndexResultsRanked(rows: seq<IndexRow>, limit: int, threshold: real)
    requires StoreHonoursIndexQuery(rows, limit, threshold)
    ensures Sorting.SortedDesc(IndexHits(rows), Weighted)
    ensures |IndexHits(rows)| <= Max(limit, 0)
    ensures forall h :: h in IndexHits(rows) ==> WellScored(h, threshold)
  {
  }

  /** An index query that raises gives exactly the hybrid search with the same arguments. */
  lemma IndexFailureFallsBack(e: Engine, store: Store, qe: Vec, limit: int, threshold: real, sourceTypes: seq<string>)
    requires store.queryNodes(IndexName(store.vectorIndexes), CandidateCount(limit), qe, threshold, sourceTypes, limit).None?
    ensures IndexSearch(e, store, qe, limit, threshold, sourceTypes) == HybridSearch(e, store, qe, limit, threshold, sourceTypes)
  {
  }

  // ---------------------------------------------------------------------
  // The public entry point
  // ---------------------------------------------------------------------

  /** An out-of-range threshold is replaced by 0.5. */
  function EffectiveThreshold(threshold: real): (t: real)
    ensures 0.0 <= t <= 1.0
    ensures 0.0 <= threshold <= 1.0 ==> t == threshold
    ensures !(0.0 <= threshold <= 1.0) ==> t == 0.5
  {
    if threshold < 0.0 || threshold > 1.0 then 0.5 else threshold
  }

  /**
   * `semantic_search_with_ranking`; `query` is None for a non-string. An
   * empty query, a non-string, or an encoding that raises gives [].
   */
  function SemanticSearch(e: Engine, store: Store, query: Option<string>, limit: int, threshold: real,
                          sourceTypes: seq<string>): seq<Hit>
  {
    if query.None? || query.value == "" then []
    else match e.embedder.encode(query.value)
      case None => []
      case Some(qe) =>
        var t := EffectiveThreshold(threshold);
        if e.hasVectorIndex then IndexSearch(e, store, qe, limit, t, sourceTypes)
        else HybridSearch(e, store, qe, limit, t, sourceTypes)
  }

  /** `semantic_search_with_ranking`, running the chosen path. */
  method SemanticSearchWithRanking(e: Engine, store: Store, query: Option<string>, limit: int, threshold: real,
                                   sourceTypes: seq<string>) returns (results: seq<Hit>)
    ensures results == SemanticSearch(e, store, query, limit, threshold, sourceTypes)
    ensures query.None? || query == Some("") ==> results == []
  {
    if query.None? || query.value == "" {
      return [];
    }
    var t := threshold;
    if t < 0.0 || t > 1.0 {
      t := 0.5;
    }
    var encoded := e.embedder.encode(query.value);
    if encoded.None? {
      return [];
    }
    if e.hasVectorIndex {
      results := SearchWithVectorIndex(e, store, encoded.value, limit, t, sourceTypes);
    } else {
      results := SearchHybrid(e, store, encoded.value, limit, t, sourceTypes);
    }
  }

  /**
   * The search takes the index path exactly when the engine found a vector
   * index, and the hybrid path otherwise, always with the corrected threshold.
   */
  lemma SemanticSearchRouting(e: Engine, store: Store, q: string, limit: int, threshold: real,
                              sourceTypes: seq<string>, qe: Vec)
    requires q != "" && e.embedder.encode(q) == Some(qe)
    ensures e.hasVectorIndex ==>
      SemanticSearch(e, store, Some(q), limit, threshold, sourceTypes)
      == IndexSearch(e, store, qe, limit, EffectiveThreshold(threshold), sourceTypes)
    ensures !e.hasVectorIndex ==>
      SemanticSearch(e, store, Some(q), limit, threshold, sourceTypes)
      == HybridSearch(e, store, qe, limit, EffectiveThreshold(threshold), sourceTypes)
  {
  }

  // ---------------------------------------------------------------------
  // The source-type filter
  // ---------------------------------------------------------------------

  /**
   * The store as the source's own query texts meet it. With a source
   * filter the hybrid query reads `MATCH (n:Concept) AND n.source_type IN
   * $source_types`, and the index query puts `WHERE c.source_type IN
   * $source_types` straight after `WHERE score >= $threshold`. Cypher
   * admits neither text, so both queries raise; without a filter the texts
   * are valid and the store answers as `store` does. Every other member of
   * this module takes a store that answers the filtered queries as
   * evidently intended (`AND` after a `WHERE`).
   */
  function AsWrittenStore(store: Store): Store
  {
    Store(sourceTypes => if sourceTypes == [] then store.concepts(sourceTypes) else None,
          store.vectorIndexes,
          (index, k, qe, threshold, sourceTypes, limit) =>
            if sourceTypes == [] then store.queryNodes(index, k, qe, threshold, sourceTypes, limit) else None)
  }

  /** As written, a search restricted to some source types finds nothing, whichever path it takes. */
  lemma SourceFilterFindsNothing(e: Engine, store: Store, query: Option<string>, limit: int, threshold: real,
                                 sourceTypes: seq<string>)
    requires sourceTypes != []
    ensures SemanticSearch(e, AsWrittenStore(store), query, limit, threshold, sourceTypes) == []
  {
    var s := AsWrittenStore(store);
    assert s.concepts(sourceTypes) == None;
    if query.Some? && query.value != "" && e.embedder.encode(query.value).Some? {
      var qe := e.embedder.encode(query.value).value;
      var t := EffectiveThreshold(threshold);
      assert s.queryNodes(IndexName(s.vectorIndexes), CandidateCount(limit), qe, t, sourceTypes, limit) == None;
    }
  }

  /** The record's source type is one of `sourceTypes` (a null type never is, as with Cypher's `IN`). */
  predicate OfTypes(r: Record, sourceTypes: seq<string>)
  {
    r.sourceType.Some? && r.sourceType.value in sourceTypes
  }

  /** A store that applies the source filter of both queries. */
  ghost predicate StoreAppliesFilter(store: Store, sourceTypes: seq<string>)
  {
    (store.concepts(sourceTypes).Some? ==>
      forall r :: r in store.concepts(sourceTypes).value ==> OfTypes(r, sourceTypes))
    && (forall index, k, qe, threshold, limit ::
          store.queryNodes(index, k, qe, threshold, sourceTypes, limit).Some? ==>
          forall row :: row in store.queryNodes(index, k, qe, threshold, sourceTypes, limit).value ==>
            OfTypes(row.rec, sourceTypes))
  }

  /**
   * With the filter written as intended, a restricted search returns only
   * concepts of the requested source types, on either path.
   */
  lemma FilteredResultsOfRequestedTypes(e: Engine, store: Store, query: Option<string>, limit: int, threshold: real,
                                        sourceTypes: seq<string>)
    requires sourceTypes != [] && StoreAppliesFilter(store, sourceTypes)
    ensures forall h :: h in SemanticSearch(e, store, query, limit, threshold, sourceTypes) ==> OfTypes(h.rec, sourceTypes)
  {
    if query.Some? && query.value != "" && e.embedder.encode(query.value).Some? {
      var qe := e.embedder.encode(query.value).value;
      var t := EffectiveThreshold(threshold);
      HybridResultsWellScored(e, store, qe, limit, t, sourceTypes);
      var outcome := store.queryNodes(IndexName(store.vectorIndexes), CandidateCount(limit), qe, t, sourceTypes, limit);
      if e.hasVectorIndex && e.hasDriver && outcome.Some? {
        forall h | h in IndexHits(outcome.value) ensures OfTypes(h.rec, sourceTypes) {
          var k :| 0 <= k < |outcome.value| && IndexHits(outcome.value)[k] == h;
          assert outcome.value[k] in outcome.value;
        }
      }
    }
  }

  // ---------------------------------------------------------------------
  // FallbackSearch: keyword matching when no embedding model is available
  // ---------------------------------------------------------------------

  /** `(i, term)` for the first five whitespace tokens that are longer than three characters. */
  function SearchTerms(query: string): (terms: seq<(nat, string)>)
    ensures forall p :: p in terms ==>
      p.0 < 5 && p.0 < |Text.Split(query)| && Text.Split(query)[p.0] == p.1 && |p.1| > 3
    ensures forall i :: 0 <= i < 5 && i < |Text.Split(query)| && |Text.Split(query)[i]| > 3
                     ==> (i, Text.Split(query)[i]) in terms
  {
    var tokens := Text.Split(query);
    TermsFrom(tokens, 0, if |tokens| < 5 then |tokens| else 5)
  }

  function TermsFrom(tokens: seq<string>, i: nat, n: nat): (terms: seq<(nat, string)>)
    requires i <= n <= |tokens|
    ensures forall p :: p in terms ==> i <= p.0 < n && tokens[p.0] == p.1 && |p.1| > 3
    ensures forall j :: i <= j < n && |tokens[j]| > 3 ==> (j, tokens[j]) in terms
    decreases n - i
  {
    if i == n then []
    else if |tokens[i]| > 3 then [(i, tokens[i])] + TermsFrom(tokens, i + 1, n)
    else TermsFrom(tokens, i + 1, n)
  }

  function DigitString(i: nat): string
    requires i < 10
  {
    [('0' as int + i) as char]
  }

  function TermClause(i: nat): string
    requires i < 10
  {
    "toLower(n.name) CONTAINS toLower($" + DigitString(i) + ") OR toLower(n.definition) CONTAINS toLower($"
    + DigitString(i) + ")"
  }

  function Clauses(terms: seq<(nat, string)>): (cs: seq<string>)
    requires forall p :: p in terms ==> p.0 < 5
    ensures |cs| == |terms| && forall k :: 0 <= k < |terms| ==> cs[k] == TermClause(terms[k].0)
  {
    seq(|terms|, k requires 0 <= k < |terms| => TermClause(terms[k].0))
  }

  /** The match condition: one clause per term joined by " OR ", or "1=1" when there are none. */
  function WhereCondition(query: string): (c: string)
    ensures SearchTerms(query) == [] ==> c == "1=1"
    ensures |SearchTerms(query)| == 1 ==> c == TermClause(SearchTerms(query)[0].0)
    ensures SearchTerms(query) != [] ==> c == Text.Join(" OR ", Clauses(SearchTerms(query)))
  {
    var terms := SearchTerms(query);
    if terms == [] then "1=1" else Text.Join(" OR ", Clauses(terms))
  }

  /** A short query matches everything. */
  lemma ShortTokensMatchAll(query: string)
    requires forall i :: 0 <= i < |Text.Split(query)| ==> |Text.Split(query)[i]| <= 3
    ensures WhereCondition(query) == "1=1"
  {
  }

  /** A fixed similarity of 0.7, weighted by credibility. */
  function KeywordHit(rec: Record): (h: Hit)
    ensures h.rec == rec && h.similarity == 0.7 && h.weighted == 0.7 * Credibility(rec)
  {
    Hit(rec, 0.7, Credibility(rec), 0.7 * Credibility(rec))
  }

  /**
   * `FallbackSearch.semantic_search_with_ranking`. `run(condition, terms,
   * sourceTypes, limit)` is the store's answer to the keyword query; the
   * threshold is ignored.
   */
  function KeywordSearch(hasDriver: bool, query: string, limit: int, sourceTypes: seq<string>,
                         run: (string, seq<(nat, string)>, seq<string>, int) -> Option<seq<Record>>): (hs: seq<Hit>)
    ensures !hasDriver ==> hs == []
    ensures forall k :: 0 <= k < |hs| ==> hs[k].similarity == 0.7 && hs[k].weighted == 0.7 * hs[k].credibility
    ensures hasDriver && run(WhereCondition(query), SearchTerms(query), sourceTypes, limit).None? ==> hs == []
    ensures hasDriver && run(WhereCondition(query), SearchTerms(query), sourceTypes, limit).Some? ==>
      var rows := run(WhereCondition(query), SearchTerms(query), sourceTypes, limit).value;
      |hs| == |rows| && forall k :: 0 <= k < |rows| ==> hs[k] == KeywordHit(rows[k])
  {
    if !hasDriver then []
    else match run(WhereCondition(query), SearchTerms(query), sourceTypes, limit)
      case None => []
      case Some(rows) => seq(|rows|, k requires 0 <= k < |rows| => KeywordHit(rows[k]))
  }
}
