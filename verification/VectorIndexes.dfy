/** The two vector indexes. The one on files refines the one in memory, and the ranking of a
    search leaves nothing to the order of a map. */
module VectorIndexes {
  import opened Text
  import opened Sorting
  import opened Types
  import opened Normalize
  import opened Disks
  import opened Vectors
  import opened VectorFiles
  import opened Queries
  import opened Graphs

  // ---------------------------------------------------------------- scores

  /** Components as numbers, and the square root; rounding is not modelled. */
  datatype Metric = Metric(value: Bits -> real, sqrt: real -> real)

  function Dot(metric: Metric, a: seq<Bits>, b: seq<Bits>): real
    requires |a| == |b|
  {
    if a == [] then 0.0
    else Dot(metric, a[..|a| - 1], b[..|b| - 1]) + metric.value(a[|a| - 1]) * metric.value(b[|b| - 1])
  }

  function Magnitude(metric: Metric, v: seq<Bits>): real {
    metric.sqrt(Dot(metric, v, v))
  }

  /** `cosineSimilarity`; a zero vector or one of another length scores zero. */
  function Cosine(metric: Metric, a: seq<Bits>, b: seq<Bits>): real {
    var m, n := Magnitude(metric, a), Magnitude(metric, b);
    if m == 0.0 || n == 0.0 || |a| != |b| then 0.0 else Dot(metric, a, b) / (m * n)
  }

  method DotProduct(metric: Metric, a: seq<Bits>, b: seq<Bits>) returns (dot: real)
    requires |a| == |b|
    ensures dot == Dot(metric, a, b)
  {
    dot := 0.0;
    for i := 0 to |a|
      invariant dot == Dot(metric, a[..i], b[..i])
    {
      assert a[..i + 1][..i] == a[..i] && b[..i + 1][..i] == b[..i];
      dot := dot + metric.value(a[i]) * metric.value(b[i]);
    }
    assert a[..|a|] == a && b[..|b|] == b;
  }

  /** The score does not depend on which of the two vectors is the query. */
  lemma {:induction false} DotSymmetric(metric: Metric, a: seq<Bits>, b: seq<Bits>)
    requires |a| == |b|
    ensures Dot(metric, a, b) == Dot(metric, b, a)
  {
    if a != [] { DotSymmetric(metric, a[..|a| - 1], b[..|b| - 1]); }
  }

  lemma CosineSymmetric(metric: Metric, a: seq<Bits>, b: seq<Bits>)
    ensures Cosine(metric, a, b) == Cosine(metric, b, a)
  {
    if |a| == |b| { DotSymmetric(metric, a, b); }
  }

  /** The square root the metric is supposed to have. */
  ghost predicate Roots(metric: Metric) {
    forall x: real :: x >= 0.0 ==> metric.sqrt(x) >= 0.0 && metric.sqrt(x) * metric.sqrt(x) == x
  }

  lemma {:induction false} DotNonNegative(metric: Metric, a: seq<Bits>)
    ensures Dot(metric, a, a) >= 0.0
  {
    if a != [] {
      DotNonNegative(metric, a[..|a| - 1]);
      var x := metric.value(a[|a| - 1]);
      SquareNonNegative(x);
    }
  }

  lemma SquareNonNegative(x: real)
    ensures x * x >= 0.0
  {
  }

  /** One step of the Cauchy-Schwarz inequality. */
  lemma CauchyStep(s: real, p: real, q: real, x: real, y: real)
    requires p >= 0.0 && q >= 0.0 && s * s <= p * q
    ensures (s + x * y) * (s + x * y) <= (p + x * x) * (q + y * y)
  {
    var u, v := p * (y * y), q * (x * x);
    SquareNonNegative(x);
    SquareNonNegative(y);
    assert u >= 0.0 && v >= 0.0;
    var t := s * (x * y);
    assert t * t <= u * v by {
      SquareNonNegative(x * y);
      ScaleLeft(s * s, p * q, (x * y) * (x * y));
      assert t * t == (s * s) * ((x * y) * (x * y));
      assert u * v == (p * q) * ((x * y) * (x * y));
    }
    TwiceBelowSum(t, u, v);
    assert (s + x * y) * (s + x * y) == s * s + (t + t) + (x * y) * (x * y);
    assert (p + x * x) * (q + y * y) == p * q + (u + v) + (x * x) * (y * y);
    assert (x * y) * (x * y) == (x * x) * (y * y);
  }

  lemma ScaleLeft(a: real, b: real, c: real)
    requires a <= b && c >= 0.0
    ensures a * c <= b * c
  {
  }

  lemma PositiveProduct(x: real, y: real)
    requires x > 0.0 && y > 0.0
    ensures x * y > 0.0
  {
  }

  lemma DifferenceOfSquares(a: real, b: real)
    ensures (a - b) * (a + b) == a * a - b * b
  {
  }

  lemma SquaresOrdered(a: real, b: real)
    requires b >= 0.0 && a * a <= b * b
    ensures a <= b
  {
    DifferenceOfSquares(a, b);
    if a > b { PositiveProduct(a - b, a + b); }
  }

  /** The geometric mean is below the arithmetic one. */
  lemma TwiceBelowSum(t: real, u: real, v: real)
    requires u >= 0.0 && v >= 0.0 && t * t <= u * v
    ensures t + t <= u + v
  {
    var sum := u + v;
    SquareNonNegative(u - v);
    assert sum * sum == (u - v) * (u - v) + 4.0 * (u * v);
    assert (t + t) * (t + t) == 4.0 * (t * t);
    SquaresOrdered(t + t, sum);
  }

  lemma {:induction false} CauchySchwarz(metric: Metric, a: seq<Bits>, b: seq<Bits>)
    requires |a| == |b|
    ensures Dot(metric, a, b) * Dot(metric, a, b) <= Dot(metric, a, a) * Dot(metric, b, b)
  {
    if a != [] {
      var c, d := a[..|a| - 1], b[..|b| - 1];
      CauchySchwarz(metric, c, d);
      DotNonNegative(metric, c);
      DotNonNegative(metric, d);
      CauchyStep(Dot(metric, c, d), Dot(metric, c, c), Dot(metric, d, d),
                 metric.value(a[|a| - 1]), metric.value(b[|b| - 1]));
    }
  }

  lemma QuotientBounded(x: real, y: real)
    requires y > 0.0 && x * x <= y * y
    ensures -1.0 <= x / y <= 1.0
  {
    SquaresOrdered(x, y);
    SquaresOrdered(-x, y);
    var q := x / y;
    assert q * y == x;
    if q > 1.0 { PositiveProduct(q - 1.0, y); }
    if q < -1.0 { PositiveProduct(-1.0 - q, y); }
  }

  lemma SquareOfProduct(m: real, n: real)
    ensures (m * n) * (m * n) == (m * m) * (n * n)
  {
  }

  lemma ProductOf(x: real, y: real) returns (r: real)
    requires x > 0.0 && y > 0.0
    ensures x * y == r && r > 0.0
  {
    r := x * y;
  }

  lemma SelfQuotient(d: real)
    requires d > 0.0
    ensures d / d == 1.0
  {
  }

  lemma MagnitudeSquared(metric: Metric, a: seq<Bits>)
    requires Roots(metric)
    ensures Magnitude(metric, a) >= 0.0
    ensures Magnitude(metric, a) * Magnitude(metric, a) == Dot(metric, a, a)
  {
    DotNonNegative(metric, a);
  }

  /** Every score lies between -1 and 1, whichever of the two vectors is the query. */
  lemma ScoresAreBounded(metric: Metric, a: seq<Bits>, b: seq<Bits>)
    requires Roots(metric)
    ensures -1.0 <= Cosine(metric, a, b) <= 1.0 && Cosine(metric, b, a) == Cosine(metric, a, b)
  {
    hide Dot, Magnitude;
    CosineSymmetric(metric, a, b);
    var m, n := Magnitude(metric, a), Magnitude(metric, b);
    MagnitudeSquared(metric, a);
    MagnitudeSquared(metric, b);
    if m != 0.0 && n != 0.0 && |a| == |b| {
      CauchySchwarz(metric, a, b);
      SquareOfProduct(m, n);
      PositiveProduct(m, n);
      QuotientBounded(Dot(metric, a, b), m * n);
      assert Cosine(metric, a, b) == Dot(metric, a, b) / (m * n);
    }
  }

  /** A vector that is not zero scores 1 against itself. */
  lemma SelfScoresOne(metric: Metric, a: seq<Bits>)
    requires Roots(metric) && Magnitude(metric, a) != 0.0
    ensures Cosine(metric, a, a) == 1.0
  {
    hide Dot, Magnitude;
    var m := Magnitude(metric, a);
    MagnitudeSquared(metric, a);
    var d := ProductOf(m, m);
    SelfQuotient(d);
    assert d == Dot(metric, a, a);
    assert Cosine(metric, a, a) == Dot(metric, a, a) / (m * m);
  }

  // ---------------------------------------------------------------- searching

  datatype SearchQuery = SearchQuery(
    vector: seq<Bits>, nodeTypes: seq<string>, hierarchyScope: map<string, string>, embeddingModel: string,
    dimensions: int, minIndexedSeq: nat, limit: int)

  datatype Hit = Hit(nodeID: string, score: real, sourceSeq: nat, entry: VectorEntry)

  datatype SearchResult = SearchResult(hits: seq<Hit>, candidateIDs: seq<string>, indexedSeq: nat, stale: bool)

  function NormalizeSearch(q: SearchQuery): Result<SearchQuery> {
    if q.vector == [] then Err(Invalid("vector search query vector is required"))
    else if q.dimensions < 0 then Err(Invalid("vector search dimensions must be non-negative"))
    else if q.dimensions != 0 && q.dimensions != |q.vector| then Err(Invalid("vector search dimensions mismatch"))
    else if q.limit < 0 then Err(Invalid("vector search limit must be non-negative"))
    else Ok(q.(dimensions := |q.vector|, embeddingModel := Trim(q.embeddingModel),
               hierarchyScope := NormalizeMap(q.hierarchyScope), nodeTypes := TrimmedValues(q.nodeTypes)))
  }

  /** `normalizeStringSlice`: trimmed, without blanks and repetitions, in the order given. */
  function TrimmedValues(values: seq<string>): (out: seq<string>)
    ensures forall v :: v in out <==> v != "" && exists x :: x in values && Trim(x) == v
  {
    if values == [] then []
    else
      hide Trim;
      var before, clean := TrimmedValues(values[..|values| - 1]), Trim(values[|values| - 1]);
      assert values == values[..|values| - 1] + [values[|values| - 1]];
      if clean == "" || clean in before then before else before + [clean]
  }

  /** `exactVectorEntryMatchesQuery`; a missing scope key reads as the empty string. */
  predicate EntryMatches(e: VectorEntry, q: SearchQuery) {
    && Wants(q.embeddingModel, e.embeddingModel)
    && (q.dimensions != 0 ==> e.dimensions == q.dimensions)
    && (q.nodeTypes != [] ==> e.nodeType in q.nodeTypes)
    && forall k :: k in q.hierarchyScope ==> AttributeOf(e.hierarchyScope, k) == q.hierarchyScope[k]
  }

  function HitOf(metric: Metric, e: VectorEntry, q: SearchQuery): Hit {
    Hit(e.nodeID, Cosine(metric, q.vector, e.vector), e.sourceSeq, e)
  }

  ghost function MatchingHits(metric: Metric, entries: Entries, q: SearchQuery): set<Hit> {
    set id | id in entries && EntryMatches(entries[id], q) :: HitOf(metric, entries[id], q)
  }

  /** Highest score first, then the latest source, then the smallest id. */
  function HitBefore(): (Hit, Hit) -> bool {
    (a: Hit, b: Hit) =>
      if a.score == b.score then
        if a.sourceSeq == b.sourceSeq then Less(a.nodeID, b.nodeID) else a.sourceSeq > b.sourceSeq
      else a.score > b.score
  }

  lemma HitsOrdered(s: set<Hit>)
    requires forall a, b :: a in s && b in s && a != b ==> a.nodeID != b.nodeID
    ensures Orders(HitBefore(), s)
  {
    hide Less;
    var less := HitBefore();
    forall a | a in s ensures !less(a, a) { LessIrreflexive(a.nodeID); }
    forall a, b | a in s && b in s && a != b ensures less(a, b) || less(b, a) { LessTotal(a.nodeID, b.nodeID); }
    forall a, b, c | a in s && b in s && c in s && less(a, b) && less(b, c) ensures less(a, c) {
      if Less(a.nodeID, b.nodeID) && Less(b.nodeID, c.nodeID) { LessTransitive(a.nodeID, b.nodeID, c.nodeID); }
    }
  }

  ghost predicate Keyed(entries: Entries) {
    forall id :: id in entries ==> entries[id].nodeID == id
  }

  /** What a search must answer, whatever order the entries are walked in. */
  ghost predicate Answers(metric: Metric, entries: Entries, indexedSeq: nat, query: SearchQuery,
                          r: Result<SearchResult>)
  {
    var n := NormalizeSearch(query);
    if n.Err? then r == Err(n.error)
    else if Magnitude(metric, n.value.vector) == 0.0 then r.Err?
    else
      && r.Ok?
      && TopOf(HitBefore(), MatchingHits(metric, entries, n.value), n.value.limit, r.value.hits)
      && Ranks(Less, (set id | id in entries && EntryMatches(entries[id], n.value)), r.value.candidateIDs)
      && r.value.indexedSeq == indexedSeq
      && (r.value.stale <==> n.value.minIndexedSeq > indexedSeq)
  }

  method Candidates(entries: Entries, q: SearchQuery) returns (ids: seq<string>)
    ensures Ranks(Less, (set id | id in entries && EntryMatches(entries[id], q)), ids)
  {
    hide EntryMatches, Less, Ranks;
    var matching: set<string> := {};
    var todo := entries.Keys;
    while todo != {}
      invariant todo <= entries.Keys
      invariant matching == set id | id in entries.Keys - todo && EntryMatches(entries[id], q)
      decreases todo
    {
      var id :| id in todo;
      assert entries.Keys - (todo - {id}) == (entries.Keys - todo) + {id};
      todo := todo - {id};
      if EntryMatches(entries[id], q) { matching := matching + {id}; }
    }
    assert matching == set id | id in entries && EntryMatches(entries[id], q);
    ids := Listed(matching);
  }

  method Search(metric: Metric, entries: Entries, indexedSeq: nat, query: SearchQuery) returns (r: Result<SearchResult>)
    requires Keyed(entries)
    ensures Answers(metric, entries, indexedSeq, query, r)
    ensures r.Ok? ==>
      && SearchAnswer(metric, entries, query, r.value.hits)
      && Members(r.value.candidateIDs) == (set id | id in entries && EntryAskedFor(entries[id], query))
      && r.value.indexedSeq == indexedSeq && (r.value.stale <==> indexedSeq < query.minIndexedSeq)
  {
    hide SearchAnswer, EntryAskedFor, NormalizeSearch, EntryMatches, Less, Ranks, Cosine, Sort, Orders, TopOf, Dot;
    var normalized := NormalizeSearch(query);
    if normalized.Err? { return Err(normalized.error); }
    var q := normalized.value;
    var square := DotProduct(metric, q.vector, q.vector);
    if metric.sqrt(square) == 0.0 { return Err(Invalid("vector search query vector must be non-zero")); }
    var ids := Candidates(entries, q);
    ghost var wanted := set id | id in entries && EntryMatches(entries[id], q);
    RankedIDs(wanted, ids);
    var hits: seq<Hit> := [];
    for i := 0 to |ids|
      invariant |hits| == i
      invariant forall j :: 0 <= j < i ==> ids[j] in entries && hits[j] == HitOf(metric, entries[ids[j]], q)
    {
      assert ids[i] in Members(ids);
      hits := hits + [HitOf(metric, entries[ids[i]], q)];
    }
    HitsOfIDs(metric, entries, q, ids, hits);
    SortIsTop(HitBefore(), hits, MatchingHits(metric, entries, q), q.limit);
    r := Ok(SearchResult(Limited(Sort(HitBefore(), hits), q.limit), ids, indexedSeq, q.minIndexedSeq > indexedSeq));
    SearchAnswerIs(metric, entries, indexedSeq, query, r);
  }

  lemma HitsOfIDs(metric: Metric, entries: Entries, q: SearchQuery, ids: seq<string>, hits: seq<Hit>)
    requires Keyed(entries) && Distinct(ids) && Members(ids) == set id | id in entries && EntryMatches(entries[id], q)
    requires |hits| == |ids|
    requires forall j :: 0 <= j < |ids| && ids[j] in entries ==> hits[j] == HitOf(metric, entries[ids[j]], q)
    ensures Members(hits) == MatchingHits(metric, entries, q) && Distinct(hits)
    ensures Orders(HitBefore(), MatchingHits(metric, entries, q))
  {
    hide EntryMatches, Cosine, Orders;
    forall j | 0 <= j < |ids|
      ensures ids[j] in entries && EntryMatches(entries[ids[j]], q) && hits[j].nodeID == ids[j]
    {
      assert ids[j] in Members(ids);
    }
    forall h | h in MatchingHits(metric, entries, q) ensures h in hits {
      var id :| id in entries && EntryMatches(entries[id], q) && HitOf(metric, entries[id], q) == h;
      assert id in Members(ids);
      var j :| 0 <= j < |ids| && ids[j] == id;
      assert hits[j] == h;
    }
    HitsOrdered(MatchingHits(metric, entries, q));
  }

  // ---------------------------------------------------------------- the answer in plain terms

  /** The entry has the model, the number of components, one of the node types and all scope
      attributes a query asks for. */
  ghost predicate EntryAskedFor(e: VectorEntry, query: SearchQuery) {
    && (Trim(query.embeddingModel) == "" || e.embeddingModel == Trim(query.embeddingModel))
    && e.dimensions == |query.vector|
    && (var wanted := set t | t in query.nodeTypes && Trim(t) != "" :: Trim(t); wanted == {} || e.nodeType in wanted)
    && (var wanted := NormalizeMap(query.hierarchyScope);
        forall k :: k in wanted ==> (if k in e.hierarchyScope then e.hierarchyScope[k] else "") == wanted[k])
  }

  /** A hit and the score it has: the dot product over the product of the lengths, 0 for a zero
      vector or one of another length. */
  ghost predicate Scores(metric: Metric, query: SearchQuery, h: Hit) {
    var m := metric.sqrt(Dot(metric, query.vector, query.vector));
    var n := metric.sqrt(Dot(metric, h.entry.vector, h.entry.vector));
    && h.nodeID == h.entry.nodeID && h.sourceSeq == h.entry.sourceSeq
    && if m == 0.0 || n == 0.0 || |query.vector| != |h.entry.vector| then h.score == 0.0
       else h.score == Dot(metric, query.vector, h.entry.vector) / (m * n)
  }

  /** The hits of an answer: the best score first, then the latest source, then the smallest id;
      one that is left out comes after all that are in, and then the limit is reached. */
  ghost predicate SearchAnswer(metric: Metric, entries: Entries, query: SearchQuery, hits: seq<Hit>) {
    && (forall i, j :: 0 <= i < j < |hits| ==>
          || hits[i].score > hits[j].score
          || (hits[i].score == hits[j].score && hits[i].sourceSeq > hits[j].sourceSeq)
          || (hits[i].score == hits[j].score && hits[i].sourceSeq == hits[j].sourceSeq
              && Less(hits[i].nodeID, hits[j].nodeID)))
    && (forall h :: h in hits ==>
          && h.nodeID in entries && h.entry == entries[h.nodeID] && EntryAskedFor(h.entry, query)
          && Scores(metric, query, h))
    && (forall id, h: Hit :: id in entries && EntryAskedFor(entries[id], query) && h.entry == entries[id]
                             && Scores(metric, query, h) && h !in hits ==>
          && 0 < query.limit == |hits|
          && forall x :: x in hits ==>
               || x.score > h.score || (x.score == h.score && x.sourceSeq > h.sourceSeq)
               || (x.score == h.score && x.sourceSeq == h.sourceSeq && Less(x.nodeID, id)))
    && (0 < query.limit ==> |hits| <= query.limit)
  }

  lemma EntryAskedForIff(e: VectorEntry, query: SearchQuery)
    requires NormalizeSearch(query).Ok?
    ensures EntryMatches(e, NormalizeSearch(query).value) <==> EntryAskedFor(e, query)
  {
    hide Trim, NormalizeMap;
    var types, wanted := TrimmedValues(query.nodeTypes), set t | t in query.nodeTypes && Trim(t) != "" :: Trim(t);
    assert forall t :: t in types <==> t in wanted;
    if types != [] { assert types[0] in wanted; }
    if wanted != {} { var t :| t in wanted; assert t in types; }
  }

  lemma CosineIs(metric: Metric, a: seq<Bits>, b: seq<Bits>)
    ensures var m, n := metric.sqrt(Dot(metric, a, a)), metric.sqrt(Dot(metric, b, b));
      Cosine(metric, a, b) == if m == 0.0 || n == 0.0 || |a| != |b| then 0.0 else Dot(metric, a, b) / (m * n)
  {
    hide Dot;
  }

  lemma ScoresIff(metric: Metric, query: SearchQuery, h: Hit)
    requires NormalizeSearch(query).Ok?
    ensures h == HitOf(metric, h.entry, NormalizeSearch(query).value) <==> Scores(metric, query, h)
  {
    hide Trim, NormalizeMap, TrimmedValues, Dot;
    var q := NormalizeSearch(query).value;
    assert q.vector == query.vector;
    CosineIs(metric, q.vector, h.entry.vector);
    hide Cosine, Dot;
    assert h == HitOf(metric, h.entry, q) <==>
      && h.nodeID == h.entry.nodeID && h.sourceSeq == h.entry.sourceSeq
      && h.score == Cosine(metric, q.vector, h.entry.vector);
  }

  lemma SearchAnswerIs(metric: Metric, entries: Entries, indexedSeq: nat, query: SearchQuery, r: Result<SearchResult>)
    requires Keyed(entries) && Answers(metric, entries, indexedSeq, query, r)
    ensures r.Ok? <==>
      && query.vector != [] && (query.dimensions == 0 || query.dimensions == |query.vector|) && query.limit >= 0
      && metric.sqrt(Dot(metric, query.vector, query.vector)) != 0.0
    ensures r.Ok? ==>
      && SearchAnswer(metric, entries, query, r.value.hits)
      && Members(r.value.candidateIDs) == (set id | id in entries && EntryAskedFor(entries[id], query))
      && (forall i, j :: 0 <= i < j < |r.value.candidateIDs| ==> Less(r.value.candidateIDs[i], r.value.candidateIDs[j]))
      && r.value.indexedSeq == indexedSeq && (r.value.stale <==> indexedSeq < query.minIndexedSeq)
  {
    hide EntryMatches, EntryAskedFor, Cosine, Orders, TopOf, Less, Trim, NormalizeMap, TrimmedValues, SearchAnswer, Dot;
    if r.Ok? {
      forall id | id in entries
        ensures EntryMatches(entries[id], NormalizeSearch(query).value) <==> EntryAskedFor(entries[id], query)
      {
        EntryAskedForIff(entries[id], query);
      }
      HitsAnswer(metric, entries, query, r.value.hits);
    }
  }

  lemma MatchingIff(metric: Metric, entries: Entries, query: SearchQuery, h: Hit)
    requires Keyed(entries) && NormalizeSearch(query).Ok?
    ensures h in MatchingHits(metric, entries, NormalizeSearch(query).value) <==>
      h.nodeID in entries && h.entry == entries[h.nodeID] && EntryAskedFor(h.entry, query) && Scores(metric, query, h)
  {
    hide EntryMatches, EntryAskedFor, Scores, Cosine, NormalizeSearch;
    EntryAskedForIff(h.entry, query);
    ScoresIff(metric, query, h);
    if && h.nodeID in entries && h.entry == entries[h.nodeID] && EntryAskedFor(h.entry, query)
       && Scores(metric, query, h)
    {
      assert h == HitOf(metric, entries[h.nodeID], NormalizeSearch(query).value);
    }
  }

  lemma HitsAnswer(metric: Metric, entries: Entries, query: SearchQuery, hits: seq<Hit>)
    requires Keyed(entries) && NormalizeSearch(query).Ok?
    requires var q := NormalizeSearch(query).value; TopOf(HitBefore(), MatchingHits(metric, entries, q), q.limit, hits)
    ensures SearchAnswer(metric, entries, query, hits)
  {
    hide MatchingHits, EntryAskedFor, Scores, Orders, TopOf, Less, NormalizeSearch;
    var q := NormalizeSearch(query).value;
    var of := MatchingHits(metric, entries, q);
    forall h
      ensures h in of <==>
        h.nodeID in entries && h.entry == entries[h.nodeID] && EntryAskedFor(h.entry, query) && Scores(metric, query, h)
    {
      MatchingIff(metric, entries, query, h);
    }
    DifferentNodes(metric, entries, q);
    HitsOrdered(of);
    TopMeans(HitBefore(), of, q.limit, hits);
    SameLimit(query);
    forall h | Scores(metric, query, h) ensures h.nodeID == h.entry.nodeID { ScoresName(metric, query, h); }
  }

  lemma DifferentNodes(metric: Metric, entries: Entries, q: SearchQuery)
    requires Keyed(entries)
    ensures forall a, b :: a in MatchingHits(metric, entries, q) && b in MatchingHits(metric, entries, q) && a != b ==>
      a.nodeID != b.nodeID
  {
    hide EntryMatches, Cosine;
  }

  lemma ScoresName(metric: Metric, query: SearchQuery, h: Hit)
    requires Scores(metric, query, h)
    ensures h.nodeID == h.entry.nodeID
  {
    hide Dot;
  }

  lemma SameLimit(query: SearchQuery)
    requires NormalizeSearch(query).Ok?
    ensures NormalizeSearch(query).value.limit == query.limit
  {
  }

  // ---------------------------------------------------------------- the index in memory

  /** What one operation does to entries and watermark. */
  function Indexed(entries: Entries, indexedSeq: nat, op: VectorOperation): Result<(Entries, nat)> {
    match NormalizeOperation(op, op.sourceSeq)
    case Err(e) => Err(e)
    case Ok(n) => Ok((Effect(entries, n), Max(indexedSeq, n.sourceSeq)))
  }

  lemma IndexedMeans(entries: Entries, indexedSeq: nat, op: VectorOperation)
    ensures Indexed(entries, indexedSeq, op).Ok? <==> AcceptableOperation(op, op.sourceSeq)
    ensures Indexed(entries, indexedSeq, op).Ok? ==>
      var now := Indexed(entries, indexedSeq, op).value;
      && op.kind != UnknownOperation && op.sourceSeq > 0
      && (op.kind == Delete ==> now.0 == entries - {Trim(op.nodeID)})
      && (op.kind == Upsert ==> now.0 == entries[Trim(op.nodeID) := VectorEntry(
            Trim(op.nodeID), Trim(op.nodeType), NormalizeMap(op.hierarchyScope), Trim(op.embeddingModel), |op.vector|,
            op.vector, op.sourceSeq, NormalizeMap(op.attributes))])
      && now.1 == if op.sourceSeq > indexedSeq then op.sourceSeq else indexedSeq
  {
    hide NormalizeOperation, Trim, NormalizeMap, AllSpace;
    NormalizeOperationAcceptsIff(op, op.sourceSeq);
    if NormalizeOperation(op, op.sourceSeq).Ok? { NormalizedOperation(op, op.sourceSeq); }
  }

  class ExactVectorIndex {
    var entries: Entries
    var indexedSeq: nat

    ghost predicate Valid()
      reads this
    {
      Keyed(entries)
    }

    constructor ()
      ensures Valid() && entries == map[] && indexedSeq == 0
    {
      entries, indexedSeq := map[], 0;
    }

    method ApplyVectorOperation(op: VectorOperation) returns (failure: Option<Error>)
      requires Valid()
      modifies this
      ensures Valid()
      ensures match Indexed(old(entries), old(indexedSeq), op)
        case Err(e) => failure == Some(e) && entries == old(entries) && indexedSeq == old(indexedSeq)
        case Ok(now) => failure.None? && entries == now.0 && indexedSeq == now.1
      ensures failure.None? <==> AcceptableOperation(op, op.sourceSeq)
      ensures failure.None? ==> op.kind != UnknownOperation && op.sourceSeq > 0
      ensures failure.None? && op.kind == Delete ==> entries == old(entries) - {Trim(op.nodeID)}
      ensures failure.None? && op.kind == Upsert ==> entries == old(entries)[Trim(op.nodeID) := VectorEntry(
        Trim(op.nodeID), Trim(op.nodeType), NormalizeMap(op.hierarchyScope), Trim(op.embeddingModel), |op.vector|,
        op.vector, op.sourceSeq, NormalizeMap(op.attributes))]
      ensures indexedSeq == if failure.None? && op.sourceSeq > old(indexedSeq) then op.sourceSeq else old(indexedSeq)
    {
      hide Trim, NormalizeMap, CleanOperation, AcceptableOperation;
      IndexedMeans(entries, indexedSeq, op);
      var normalized := NormalizeOperation(op, op.sourceSeq);
      if normalized.Err? { return Some(normalized.error); }
      var n := normalized.value;
      match n.kind {
        case Upsert => entries := entries[n.nodeID := EntryOf(n)];
        case Delete => entries := entries - {n.nodeID};
        case UnknownOperation => return Some(Unsupported);
      }
      if n.sourceSeq > indexedSeq { indexedSeq := n.sourceSeq; }
      failure := None;
    }

    method SearchVectors(metric: Metric, query: SearchQuery) returns (r: Result<SearchResult>)
      requires Valid()
      ensures Answers(metric, entries, indexedSeq, query, r)
    {
      r := Search(metric, entries, indexedSeq, query);
    }
  }

  // ---------------------------------------------------------------- the index on files

  /** The file of every entry, and nothing else; every entry is a normalized one, no newer than
      the watermark. */
  ghost predicate Backed(codec: Codec, files: map<string, Bytes>, entries: Entries, indexedSeq: nat) {
    && files.Keys == entries.Keys
    && forall id :: id in entries ==>
         && entries[id].nodeID == id && NormalEntry(entries[id]) && entries[id].sourceSeq <= indexedSeq
         && Encoded(codec, entries[id]) == Some(files[id])
  }

  lemma BackedPut(codec: Codec, files: map<string, Bytes>, entries: Entries, indexedSeq: nat, e: VectorEntry,
                  raw: Bytes)
    requires Backed(codec, files, entries, indexedSeq) && NormalEntry(e) && Encoded(codec, e) == Some(raw)
    ensures Backed(codec, files[e.nodeID := raw], entries[e.nodeID := e], Max(indexedSeq, e.sourceSeq))
  {
    hide NormalEntry, Encoded;
  }

  lemma BackedDrop(codec: Codec, files: map<string, Bytes>, entries: Entries, indexedSeq: nat, id: string, n: nat)
    requires Backed(codec, files, entries, indexedSeq)
    ensures Backed(codec, files - {id}, entries - {id}, Max(indexedSeq, n))
    ensures id in files <==> id in entries
  {
    hide NormalEntry, Encoded;
  }

  class FileVectorIndex {
    const codec: Codec
    var files: map<string, Bytes>
    var entries: Entries
    var indexedSeq: nat

    ghost predicate Valid()
      reads this
    {
      Backed(codec, files, entries, indexedSeq)
    }

    constructor (codec: Codec)
      ensures Valid() && entries == map[] && indexedSeq == 0 && this.codec == codec
    {
      this.codec := codec;
      files, entries, indexedSeq := map[], map[], 0;
    }

    /** The file first, then memory. */
    method ApplyVectorOperation(op: VectorOperation) returns (failure: Option<Error>)
      requires Valid()
      modifies this
      ensures Valid()
      ensures match Indexed(old(entries), old(indexedSeq), op)
        case Err(e) => failure == Some(e) && entries == old(entries) && indexedSeq == old(indexedSeq)
        case Ok(now) =>
          if TooLarge(codec, op) then failure.Some? && entries == old(entries) && indexedSeq == old(indexedSeq)
          else failure.None? && entries == now.0 && indexedSeq == now.1
      ensures failure.None? <==> AcceptableOperation(op, op.sourceSeq) && !TooLarge(codec, op)
      ensures failure.None? ==> op.kind != UnknownOperation && op.sourceSeq > 0
      ensures failure.None? && op.kind == Delete ==> entries == old(entries) - {Trim(op.nodeID)}
      ensures failure.None? && op.kind == Upsert ==> entries == old(entries)[Trim(op.nodeID) := VectorEntry(
        Trim(op.nodeID), Trim(op.nodeType), NormalizeMap(op.hierarchyScope), Trim(op.embeddingModel), |op.vector|,
        op.vector, op.sourceSeq, NormalizeMap(op.attributes))]
      ensures indexedSeq == if failure.None? && op.sourceSeq > old(indexedSeq) then op.sourceSeq else old(indexedSeq)
      ensures failure.Some? ==> files == old(files)
      ensures failure.None? ==> (Trim(op.nodeID) in files <==> op.kind == Upsert)
      ensures files - {Trim(op.nodeID)} == old(files) - {Trim(op.nodeID)}
    {
      hide NormalizeOperation, NormalEntry, Encoded, Trim, NormalizeMap, AcceptableOperation, Backed;
      IndexedMeans(entries, indexedSeq, op);
      if NormalizeOperation(op, op.sourceSeq).Ok? { NormalizedOperation(op, op.sourceSeq); }
      NormalKind(op, op.sourceSeq);
      var normalized := NormalizeOperation(op, op.sourceSeq);
      if normalized.Err? { return Some(normalized.error); }
      var n := normalized.value;
      match n.kind {
        case Upsert =>
          StoredEntriesAreNormal(op, op.sourceSeq);
          var payload := EncodeEntry(codec, EntryOf(n));
          OnlyLargeFails(codec, EntryOf(n));
          if payload.None? {
            return Some(Invalid("vector metadata is too large"));
          }
          BackedPut(codec, files, entries, indexedSeq, EntryOf(n), payload.value);
          files := files[n.nodeID := payload.value];
          entries := entries[n.nodeID := EntryOf(n)];
        case Delete =>
          BackedDrop(codec, files, entries, indexedSeq, n.nodeID, n.sourceSeq);
          files := files - {n.nodeID};
          entries := entries - {n.nodeID};
        case UnknownOperation => return Some(Unsupported);
      }
      if n.sourceSeq > indexedSeq { indexedSeq := n.sourceSeq; }
      failure := None;
    }

    method SearchVectors(metric: Metric, query: SearchQuery) returns (r: Result<SearchResult>)
      requires Valid()
      ensures Answers(metric, entries, indexedSeq, query, r)
    {
      hide NormalEntry, Encoded;
      r := Search(metric, entries, indexedSeq, query);
    }

    /** Read every file, in any order. One that does not decode is refused; otherwise every file
        contributes its entry, and the watermark is the latest source sequence among them. For
        the files of an index that is exactly the index, its watermark never above the live one. */
    method Load(disk: map<string, Bytes>, ghost live: Entries, ghost liveSeq: nat) returns (failure: Option<Error>)
      requires entries == map[] && indexedSeq == 0
      modifies this
      ensures failure.None? <==> AllDecode(codec, disk)
      ensures failure.Some? ==> failure == Some(Corrupt)
      ensures failure.None? ==> LoadedFrom(codec, disk, disk.Keys, entries, indexedSeq) && files == disk
      ensures Lossless(codec) && Backed(codec, disk, live, liveSeq) ==>
        failure.None? && Valid() && entries == live && indexedSeq <= liveSeq
    {
      hide NormalEntry, Encoded, Decoded, Backed, Lossless, LoadedFrom, AllDecode;
      files := disk;
      var todo := disk.Keys;
      NothingLoaded(codec, disk);
      while todo != {}
        invariant todo <= disk.Keys && files == disk
        invariant LoadedFrom(codec, disk, disk.Keys - todo, entries, indexedSeq)
        decreases todo
      {
        var id :| id in todo;
        ghost var done := disk.Keys - todo;
        todo := todo - {id};
        assert disk.Keys - todo == done + {id};
        var entry := ReadEntry(codec, disk[id]);
        if entry.Err? {
          BackedDecodes(codec, disk, live, liveSeq, id);
          OneFails(codec, disk, id);
          return Some(Corrupt);
        }
        LoadedOneMore(codec, disk, done, entries, indexedSeq, id);
        entries := entries[entry.value.nodeID := entry.value];
        if entry.value.sourceSeq > indexedSeq { indexedSeq := entry.value.sourceSeq; }
      }
      assert disk.Keys - todo == disk.Keys;
      LoadedAll(codec, disk, entries, indexedSeq);
      if Lossless(codec) && Backed(codec, disk, live, liveSeq) {
        LoadedBack(codec, disk, live, liveSeq, entries, indexedSeq);
      }
      failure := None;
    }
  }

  ghost predicate AllDecode(codec: Codec, disk: map<string, Bytes>) {
    forall id :: id in disk ==> Decoded(codec, disk[id]).Ok?
  }

  /** `id` is one of the files read and decodes to `e`. */
  ghost predicate ReadAs(codec: Codec, disk: map<string, Bytes>, done: set<string>, id: string, e: VectorEntry) {
    id in done && id in disk && Decoded(codec, disk[id]) == Ok(e)
  }

  /** The entries and the watermark after reading the files `done`. */
  ghost predicate LoadedFrom(codec: Codec, disk: map<string, Bytes>, done: set<string>, entries: Entries,
                             indexedSeq: nat)
  {
    && (forall id :: id in done && id in disk ==>
          Decoded(codec, disk[id]).Ok? && Decoded(codec, disk[id]).value.nodeID in entries
          && Decoded(codec, disk[id]).value.sourceSeq <= indexedSeq)
    && (forall n :: n in entries ==> entries[n].nodeID == n && exists id :: ReadAs(codec, disk, done, id, entries[n]))
    && (indexedSeq == 0 || exists id, e :: ReadAs(codec, disk, done, id, e) && e.sourceSeq == indexedSeq)
  }

  lemma NothingLoaded(codec: Codec, disk: map<string, Bytes>)
    ensures LoadedFrom(codec, disk, disk.Keys - disk.Keys, map[], 0)
  {
  }

  lemma OneFails(codec: Codec, disk: map<string, Bytes>, id: string)
    requires id in disk && Decoded(codec, disk[id]).Err?
    ensures !AllDecode(codec, disk)
  {
    hide Decoded;
  }

  lemma LoadedAll(codec: Codec, disk: map<string, Bytes>, entries: Entries, indexedSeq: nat)
    requires LoadedFrom(codec, disk, disk.Keys, entries, indexedSeq)
    ensures AllDecode(codec, disk)
  {
    hide Decoded;
  }

  lemma LoadedOneMore(codec: Codec, disk: map<string, Bytes>, done: set<string>, entries: Entries, indexedSeq: nat,
                      id: string)
    requires LoadedFrom(codec, disk, done, entries, indexedSeq) && id in disk && Decoded(codec, disk[id]).Ok?
    ensures var e := Decoded(codec, disk[id]).value;
      LoadedFrom(codec, disk, done + {id}, entries[e.nodeID := e], Max(indexedSeq, e.sourceSeq))
  {
    hide Decoded;
    var e := Decoded(codec, disk[id]).value;
    var after := entries[e.nodeID := e];
    assert ReadAs(codec, disk, done + {id}, id, e);
    forall n | n in after ensures after[n].nodeID == n && exists x :: ReadAs(codec, disk, done + {id}, x, after[n]) {
      if n != e.nodeID {
        var x :| ReadAs(codec, disk, done, x, entries[n]);
        assert ReadAs(codec, disk, done + {id}, x, after[n]);
      }
    }
    if indexedSeq != 0 {
      var x, f :| ReadAs(codec, disk, done, x, f) && f.sourceSeq == indexedSeq;
      assert ReadAs(codec, disk, done + {id}, x, f);
    }
  }

  lemma BackedDecodes(codec: Codec, disk: map<string, Bytes>, live: Entries, liveSeq: nat, id: string)
    requires id in disk
    ensures Lossless(codec) && Backed(codec, disk, live, liveSeq) ==>
      && id in live && Decoded(codec, disk[id]) == Ok(live[id])
      && live[id].nodeID == id && live[id].sourceSeq <= liveSeq
  {
    hide NormalEntry, Encoded, Decoded, Lossless;
    if Lossless(codec) && Backed(codec, disk, live, liveSeq) { RoundTrip(codec, live[id]); }
  }

  /** Loading the files of an index gives the index back. */
  lemma LoadedBack(codec: Codec, disk: map<string, Bytes>, live: Entries, liveSeq: nat, entries: Entries,
                   indexedSeq: nat)
    requires Lossless(codec) && Backed(codec, disk, live, liveSeq)
    requires LoadedFrom(codec, disk, disk.Keys, entries, indexedSeq)
    ensures entries == live && indexedSeq <= liveSeq && Backed(codec, disk, entries, indexedSeq)
  {
    hide NormalEntry, Encoded, Decoded, Lossless;
    forall id | id in disk
      ensures id in live && Decoded(codec, disk[id]) == Ok(live[id])
      ensures live[id].nodeID == id && live[id].sourceSeq <= liveSeq
    {
      BackedDecodes(codec, disk, live, liveSeq, id);
    }
    forall n | n in entries ensures n in live && entries[n] == live[n] {
      var id :| ReadAs(codec, disk, disk.Keys, id, entries[n]);
    }
    assert forall id :: id in live ==> id in disk;
  }

  lemma NormalKind(op: VectorOperation, fallback: nat)
    ensures NormalizeOperation(op, fallback).Ok? ==> !NormalizeOperation(op, fallback).value.kind.UnknownOperation?
  {
    hide Trim, NormalizeMap;
  }

  lemma OnlyLargeFails(codec: Codec, e: VectorEntry)
    ensures Encoded(codec, e).None? <==> |codec.encode(MetadataOf(e))| > MAX_UINT32
  {
  }

  /** The one operation the file index refuses and the other does not. */
  ghost predicate TooLarge(codec: Codec, op: VectorOperation) {
    var n := NormalizeOperation(op, op.sourceSeq);
    n.Ok? && n.value.kind == Upsert && |codec.encode(MetadataOf(EntryOf(n.value)))| > MAX_UINT32
  }

  // ---------------------------------------------------------------- refinement

  /** Entries and watermark after a run of operations; a rejected one changes nothing. */
  function Run(ops: seq<VectorOperation>): (Entries, nat) {
    if ops == [] then (map[], 0)
    else
      var before := Run(ops[..|ops| - 1]);
      match Indexed(before.0, before.1, ops[|ops| - 1])
      case Err(_) => before
      case Ok(after) => after
  }

  /** Fed the same operations, the index on files holds what the index in memory holds; by
      `SearchesAgree` the two then give the same answers to every search. */
  method FileIndexRefinesExact(codec: Codec, ops: seq<VectorOperation>)
      returns (memory: ExactVectorIndex, file: FileVectorIndex)
    requires forall op :: op in ops ==> !TooLarge(codec, op)
    ensures memory.entries == file.entries == Run(ops).0
    ensures memory.indexedSeq == file.indexedSeq == Run(ops).1
    ensures memory.Valid() && file.Valid()
  {
    hide NormalEntry, Encoded, Indexed, TooLarge, Backed;
    memory := new ExactVectorIndex();
    file := new FileVectorIndex(codec);
    for i := 0 to |ops|
      invariant memory.Valid() && file.Valid() && fresh(memory) && fresh(file) && file.codec == codec
      invariant memory.entries == file.entries == Run(ops[..i]).0
      invariant memory.indexedSeq == file.indexedSeq == Run(ops[..i]).1
    {
      assert ops[..i + 1][..i] == ops[..i];
      assert ops[i] in ops;
      var a := memory.ApplyVectorOperation(ops[i]);
      var b := file.ApplyVectorOperation(ops[i]);
    }
    assert ops[..|ops|] == ops;
  }

  /** Equal contents give equal answers: the ranking is total, so the map order cannot matter. */
  lemma SearchesAgree(metric: Metric, entries: Entries, indexedSeq: nat, query: SearchQuery,
                      a: Result<SearchResult>, b: Result<SearchResult>)
    requires Keyed(entries)
    requires Answers(metric, entries, indexedSeq, query, a) && Answers(metric, entries, indexedSeq, query, b)
    ensures a.Ok? <==> b.Ok?
    ensures a.Ok? ==> a == b
  {
    hide NormalizeSearch, EntryMatches, Cosine, Orders, TopOf, Ranks, Less, Magnitude;
    var n := NormalizeSearch(query);
    if a.Ok? {
      var matching := set id | id in entries && EntryMatches(entries[id], n.value);
      LessOrders(matching);
      RankingUnique(Less, matching, a.value.candidateIDs, b.value.candidateIDs);
      HitsOrdered(MatchingHits(metric, entries, n.value));
      AnswerUnique(HitBefore(), MatchingHits(metric, entries, n.value), n.value.limit, a.value.hits, b.value.hits);
    }
  }

  /** A reloaded index can only look older than it is: what was stale stays stale, and what a
      reload calls fresh is fresh. */
  lemma ReloadOnlyOverreportsStaleness(metric: Metric, entries: Entries, liveSeq: nat, loadedSeq: nat,
                                       query: SearchQuery, live: Result<SearchResult>, loaded: Result<SearchResult>)
    requires Keyed(entries) && loadedSeq <= liveSeq
    requires Answers(metric, entries, liveSeq, query, live) && Answers(metric, entries, loadedSeq, query, loaded)
    ensures live.Ok? <==> loaded.Ok?
    ensures live.Ok? ==> live.value.hits == loaded.value.hits && (live.value.stale ==> loaded.value.stale)
  {
    hide NormalizeSearch, EntryMatches, Cosine, Orders, TopOf, Ranks, Less, Magnitude;
    if live.Ok? {
      var same := Ok(loaded.value.(indexedSeq := liveSeq, stale := live.value.stale));
      SearchesAgree(metric, entries, liveSeq, query, live, same);
    }
  }
}
