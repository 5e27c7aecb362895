/** Reciprocal rank fusion (internal/retrieval/service.go). Scores are exact: `real` here, float64
    there. The candidate lists of PostgreSQL are arbitrary. */
module RankFusion {
  import opened Schema
  import Text

  const RRF_CONSTANT := 60.0
  const MAX_CHUNKS := 12
  const MAX_RESULTS := 20
  const MAX_QUERY := 1000

  // ----- scores -----

  /** What a list adds for the document at a rank, ranks counted from zero. */
  function Weight(rank: nat): real { 1.0 / (RRF_CONSTANT + (rank + 1) as real) }

  /** The sum over the ranks at which a list names the document. */
  function Contribution(ids: seq<Uuid>, d: Uuid): real {
    if ids == [] then 0.0
    else
      var n := |ids| - 1;
      Contribution(ids[..n], d) + if ids[n] == d then Weight(n) else 0.0
  }

  function Score(lexical: seq<Uuid>, semantic: seq<Uuid>, d: Uuid): real {
    Contribution(lexical, d) + Contribution(semantic, d)
  }

  /** The order of the answer: by score, highest first, then by identifier. */
  predicate Before(lexical: seq<Uuid>, semantic: seq<Uuid>, a: Uuid, b: Uuid) {
    var x, y := Score(lexical, semantic, a), Score(lexical, semantic, b);
    if x == y then a < b else x > y
  }

  function Union(lexical: seq<Uuid>, semantic: seq<Uuid>): set<Uuid> { Elements(lexical) + Elements(semantic) }

  function Min(a: nat, b: nat): nat { if a < b then a else b }

  /** What fuseRanks promises: the best `limit` documents of both lists, in order. */
  ghost predicate IsFusion(lexical: seq<Uuid>, semantic: seq<Uuid>, limit: nat, result: seq<Uuid>) {
    && |result| == Min(limit, |Union(lexical, semantic)|)
    && (forall d :: d in result ==> d in Union(lexical, semantic))
    && (forall i, j :: 0 <= i < j < |result| ==> Before(lexical, semantic, result[i], result[j]))
    && (forall d, i :: d in Union(lexical, semantic) && d !in result && 0 <= i < |result| ==>
          Before(lexical, semantic, result[i], d))
  }

  // ----- fuseRanks -----

  datatype FusedScore = FusedScore(id: Uuid, score: real)

  predicate Sooner(a: FusedScore, b: FusedScore) {
    if a.score == b.score then a.id < b.id else a.score > b.score
  }

  ghost predicate Sorted(s: seq<FusedScore>) {
    forall i, j :: 0 <= i < j < |s| ==> !Sooner(s[j], s[i])
  }

  ghost predicate DistinctIds(s: seq<FusedScore>) {
    forall i, j :: 0 <= i < j < |s| ==> s[i].id != s[j].id
  }

  method Insert(sorted: seq<FusedScore>, x: FusedScore) returns (result: seq<FusedScore>)
    requires Sorted(sorted)
    ensures Sorted(result) && multiset(result) == multiset(sorted) + multiset{x}
    ensures DistinctIds(sorted) && (forall y :: y in sorted ==> y.id != x.id) ==> DistinctIds(result)
  {
    var i := |sorted|;
    while i > 0 && Sooner(x, sorted[i - 1])
      invariant 0 <= i <= |sorted|
      invariant forall j :: i <= j < |sorted| ==> Sooner(x, sorted[j])
    {
      i := i - 1;
    }
    result := sorted[..i] + [x] + sorted[i..];
    assert sorted == sorted[..i] + sorted[i..];
    forall j | 0 <= j < i ensures !Sooner(x, sorted[j]) {
      if j < i - 1 {
        assert !Sooner(sorted[i - 1], sorted[j]);
      }
    }
    InsertedSorted(sorted, x, i);
    InsertedDistinct(sorted, x, i);
  }

  lemma InsertedSorted(sorted: seq<FusedScore>, x: FusedScore, i: nat)
    requires i <= |sorted| && Sorted(sorted)
    requires forall j :: 0 <= j < i ==> !Sooner(x, sorted[j])
    requires forall j :: i <= j < |sorted| ==> Sooner(x, sorted[j])
    ensures Sorted(sorted[..i] + [x] + sorted[i..])
  {
  }

  lemma InsertedDistinct(sorted: seq<FusedScore>, x: FusedScore, i: nat)
    requires i <= |sorted|
    ensures DistinctIds(sorted) && (forall y :: y in sorted ==> y.id != x.id) ==> DistinctIds(sorted[..i] + [x] + sorted[i..])
  {
  }

  /** sort.Slice with the comparison of fuseRanks: some ordering of the same elements. */
  method SortSlice(ordered: seq<FusedScore>) returns (sorted: seq<FusedScore>)
    ensures Sorted(sorted) && multiset(sorted) == multiset(ordered)
    ensures DistinctIds(ordered) ==> DistinctIds(sorted)
  {
    sorted := [];
    for i := 0 to |ordered|
      invariant Sorted(sorted) && multiset(sorted) == multiset(ordered[..i])
      invariant DistinctIds(ordered) ==> DistinctIds(sorted)
    {
      forall y | y in sorted ensures y in ordered[..i] {
        assert y in multiset(sorted);
      }
      sorted := Insert(sorted, ordered[i]);
      assert ordered[..i + 1] == ordered[..i] + [ordered[i]];
    }
    assert ordered[..|ordered|] == ordered;
  }

  method AddRanks(scores: map<Uuid, real>, ids: seq<Uuid>) returns (result: map<Uuid, real>)
    ensures result.Keys == scores.Keys + Elements(ids)
    ensures forall d :: d in result ==> result[d] == (if d in scores then scores[d] else 0.0) + Contribution(ids, d)
  {
    result := scores;
    for rank := 0 to |ids|
      invariant result.Keys == scores.Keys + Elements(ids[..rank])
      invariant forall d :: d in result ==> result[d] == (if d in scores then scores[d] else 0.0) + Contribution(ids[..rank], d)
    {
      var d := ids[rank];
      assert ids[..rank + 1][..rank] == ids[..rank];
      OutsideAddsNothing(ids[..rank], d);
      result := result[d := (if d in result then result[d] else 0.0) + Weight(rank)];
    }
    assert ids[..|ids|] == ids;
  }

  lemma {:induction false} OutsideAddsNothing(ids: seq<Uuid>, d: Uuid)
    ensures d !in ids ==> Contribution(ids, d) == 0.0
  {
    if ids != [] {
      OutsideAddsNothing(ids[..|ids| - 1], d);
    }
  }

  /** The entries of the score map. */
  ghost predicate Lists(ordered: seq<FusedScore>, scores: map<Uuid, real>) {
    && |ordered| == |scores| && DistinctIds(ordered)
    && (forall x :: x in ordered ==> x.id in scores && x.score == scores[x.id])
    && (forall d :: d in scores ==> FusedScore(d, scores[d]) in ordered)
  }

  /** The score map in whatever order it is iterated. */
  method Entries(scores: map<Uuid, real>) returns (ordered: seq<FusedScore>)
    ensures Lists(ordered, scores)
  {
    ordered := [];
    var todo := scores.Keys;
    assert |todo| == |scores|;
    while todo != {}
      invariant todo <= scores.Keys && |ordered| + |todo| == |scores| && DistinctIds(ordered)
      invariant forall d :: d in scores && d !in todo ==> FusedScore(d, scores[d]) in ordered
      invariant forall x :: x in ordered ==> x.id in scores && x.id !in todo && x.score == scores[x.id]
      decreases |todo|
    {
      var d: Uuid :| d in todo;
      ordered := ordered + [FusedScore(d, scores[d])];
      todo := todo - {d};
    }
  }

  method TakeIds(sorted: seq<FusedScore>, count: nat) returns (result: seq<Uuid>)
    requires count <= |sorted|
    ensures |result| == count && forall i :: 0 <= i < count ==> result[i] == sorted[i].id
  {
    result := [];
    for index := 0 to count
      invariant |result| == index && forall i :: 0 <= i < index ==> result[i] == sorted[i].id
    {
      result := result + [sorted[index].id];
    }
  }

  /** Any iteration order, any correct sort: the result is the fusion of the lists. */
  method FuseRanks(lexical: seq<Uuid>, semantic: seq<Uuid>, limit: nat) returns (result: seq<Uuid>)
    ensures IsFusion(lexical, semantic, limit, result)
  {
    var scores := AddRanks(map[], lexical);
    ghost var first := scores;
    scores := AddRanks(scores, semantic);
    ScoresAdded(lexical, semantic, first, scores);
    var ordered := Entries(scores);
    var sorted := SortSlice(ordered);
    PermutationLists(ordered, sorted, scores);
    result := TakeIds(sorted, Min(limit, |sorted|));
    TakenIsFusion(lexical, semantic, limit, scores, sorted, result);
  }

  lemma ScoresAdded(lexical: seq<Uuid>, semantic: seq<Uuid>, first: map<Uuid, real>, scores: map<Uuid, real>)
    requires first.Keys == Elements(lexical) && scores.Keys == first.Keys + Elements(semantic)
    requires forall d :: d in first ==> first[d] == Contribution(lexical, d)
    requires forall d :: d in scores ==> scores[d] == (if d in first then first[d] else 0.0) + Contribution(semantic, d)
    ensures scores.Keys == Union(lexical, semantic)
    ensures forall d :: d in scores ==> scores[d] == Score(lexical, semantic, d)
  {
    forall d | d in scores ensures scores[d] == Score(lexical, semantic, d) {
      OutsideAddsNothing(lexical, d);
    }
  }

  lemma PermutationLists(ordered: seq<FusedScore>, sorted: seq<FusedScore>, scores: map<Uuid, real>)
    requires Lists(ordered, scores) && multiset(sorted) == multiset(ordered) && DistinctIds(sorted)
    ensures Lists(sorted, scores)
  {
    assert |sorted| == |multiset(sorted)| == |multiset(ordered)| == |ordered|;
    forall x | x in sorted ensures x in ordered {
      assert x in multiset(sorted);
    }
    forall x | x in ordered ensures x in sorted {
      assert x in multiset(ordered);
    }
  }

  lemma TakenIsFusion(lexical: seq<Uuid>, semantic: seq<Uuid>, limit: nat, scores: map<Uuid, real>,
                      sorted: seq<FusedScore>, result: seq<Uuid>)
    requires scores.Keys == Union(lexical, semantic)
    requires forall d :: d in scores ==> scores[d] == Score(lexical, semantic, d)
    requires Lists(sorted, scores) && Sorted(sorted)
    requires |result| == Min(limit, |sorted|) && forall i :: 0 <= i < |result| ==> result[i] == sorted[i].id
    ensures IsFusion(lexical, semantic, limit, result)
  {
    assert |scores| == |scores.Keys|;
    forall i, j | 0 <= i < j < |sorted| ensures Before(lexical, semantic, sorted[i].id, sorted[j].id) {
      assert !Sooner(sorted[j], sorted[i]) && sorted[i] in sorted && sorted[j] in sorted;
    }
    forall d, i | d in Union(lexical, semantic) && d !in result && 0 <= i < |result|
      ensures Before(lexical, semantic, result[i], d)
    {
      var j :| 0 <= j < |sorted| && sorted[j] == FusedScore(d, scores[d]);
      assert j >= |result|;
    }
    forall d | d in result ensures d in Union(lexical, semantic) {
      var i :| 0 <= i < |result| && result[i] == d;
      assert sorted[i] in sorted;
    }
  }

  // ----- the answer does not depend on the iteration order -----

  /** Two fusions of the same lists are equal, place by place. */
  lemma {:induction false} SameUpTo(lexical: seq<Uuid>, semantic: seq<Uuid>, limit: nat, a: seq<Uuid>, b: seq<Uuid>, n: nat)
    requires IsFusion(lexical, semantic, limit, a) && IsFusion(lexical, semantic, limit, b) && n <= |a|
    ensures a[..n] == b[..n]
  {
    if n > 0 {
      var i := n - 1;
      SameUpTo(lexical, semantic, limit, a, b, i);
      NothingBetter(lexical, semantic, limit, a, b, i);
      NothingBetter(lexical, semantic, limit, b, a, i);
      assert a[..n] == a[..i] + [a[i]] && b[..n] == b[..i] + [b[i]];
    }
  }

  lemma FusionIsDistinct(lexical: seq<Uuid>, semantic: seq<Uuid>, limit: nat, a: seq<Uuid>)
    requires IsFusion(lexical, semantic, limit, a)
    ensures Distinct(a)
  {
  }

  /** Where two fusions first differ, each would have to come before the other. */
  lemma NothingBetter(lexical: seq<Uuid>, semantic: seq<Uuid>, limit: nat, a: seq<Uuid>, b: seq<Uuid>, i: nat)
    requires IsFusion(lexical, semantic, limit, a) && IsFusion(lexical, semantic, limit, b)
    requires i < |a| && a[..i] == b[..i]
    ensures a[i] == b[i] || Before(lexical, semantic, b[i], a[i])
  {
    FusionIsDistinct(lexical, semantic, limit, a);
    forall t | 0 <= t < i ensures a[t] == b[t] {
      assert a[..i][t] == b[..i][t];
    }
    if a[i] in b {
      var j :| 0 <= j < |b| && b[j] == a[i];
      assert j >= i;
    }
  }

  lemma FusionIsUnique(lexical: seq<Uuid>, semantic: seq<Uuid>, limit: nat, a: seq<Uuid>, b: seq<Uuid>)
    requires IsFusion(lexical, semantic, limit, a) && IsFusion(lexical, semantic, limit, b)
    ensures a == b && Distinct(a)
  {
    SameUpTo(lexical, semantic, limit, a, b, |a|);
    assert a[..|a|] == a && b[..|b|] == b;
    FusionIsDistinct(lexical, semantic, limit, a);
  }

  // ----- what the scores say -----

  lemma WeightFalls(i: nat, j: nat)
    requires i < j
    ensures 0.0 < Weight(j) < Weight(i)
  {
    var x, y := RRF_CONSTANT + (i + 1) as real, RRF_CONSTANT + (j + 1) as real;
    assert Weight(i) * x == 1.0 && Weight(j) * y == 1.0;
    assert Weight(j) > 0.0;
    assert Weight(j) * x < Weight(j) * y;
    assert (Weight(i) - Weight(j)) * x > 0.0;
  }

  /** A list without repetition adds the weight of the one rank of a document. */
  lemma {:induction false} ContributionAt(ids: seq<Uuid>, i: nat)
    requires Distinct(ids) && i < |ids|
    ensures Contribution(ids, ids[i]) == Weight(i)
  {
    var n := |ids| - 1;
    if i < n {
      ContributionAt(ids[..n], i);
    } else {
      OutsideAddsNothing(ids[..n], ids[n]);
    }
  }

  /** The longest lists for which agreement always wins: 2 / (60 + 61) > 1 / 61. */
  const AGREEMENT_LIMIT := 61

  lemma ContributionBounds(ids: seq<Uuid>, d: Uuid)
    requires Distinct(ids) && |ids| <= AGREEMENT_LIMIT
    ensures d in ids ==> 1.0 / 121.0 <= Contribution(ids, d) <= 1.0 / 61.0
    ensures d !in ids ==> Contribution(ids, d) == 0.0
  {
    OutsideAddsNothing(ids, d);
    if d in ids {
      var i :| 0 <= i < |ids| && ids[i] == d;
      ContributionAt(ids, i);
      if i > 0 { WeightFalls(0, i); }
      if i < 60 { WeightFalls(i, 60); }
    }
  }

  /** A document that both lists name comes before every document that only one names, for lists of
      up to 61 candidates; the search asks for 50. */
  lemma AgreementWins(lexical: seq<Uuid>, semantic: seq<Uuid>, both: Uuid, one: Uuid)
    requires Distinct(lexical) && Distinct(semantic) && |lexical| <= AGREEMENT_LIMIT && |semantic| <= AGREEMENT_LIMIT
    requires both in lexical && both in semantic && !(one in lexical && one in semantic)
    ensures Before(lexical, semantic, both, one)
  {
    ContributionBounds(lexical, both);
    ContributionBounds(semantic, both);
    ContributionBounds(lexical, one);
    ContributionBounds(semantic, one);
  }

  /** At 62 candidates it can be a tie, which the identifiers decide. */
  lemma AgreementCanTie(lexical: seq<Uuid>, semantic: seq<Uuid>)
    requires Distinct(lexical) && Distinct(semantic) && |lexical| == 62 && |semantic| == 62
    requires lexical[61] == semantic[61] && lexical[0] !in semantic
    ensures Score(lexical, semantic, lexical[61]) == Score(lexical, semantic, lexical[0])
  {
    ContributionAt(lexical, 61);
    ContributionAt(semantic, 61);
    ContributionAt(lexical, 0);
    OutsideAddsNothing(semantic, lexical[0]);
  }

  /** Wherever `later` appears, `sooner` appears before it. */
  ghost predicate RankedSooner(ids: seq<Uuid>, sooner: Uuid, later: Uuid) {
    forall j :: 0 <= j < |ids| && ids[j] == later ==> exists i :: 0 <= i < j && ids[i] == sooner
  }

  lemma SoonerContributesMore(ids: seq<Uuid>, sooner: Uuid, later: Uuid)
    requires Distinct(ids) && RankedSooner(ids, sooner, later)
    ensures Contribution(ids, sooner) >= Contribution(ids, later)
    ensures later in ids ==> Contribution(ids, sooner) > Contribution(ids, later)
  {
    OutsideAddsNothing(ids, later);
    OutsideAddsNothing(ids, sooner);
    if sooner in ids {
      var i :| 0 <= i < |ids| && ids[i] == sooner;
      ContributionAt(ids, i);
      if later in ids {
        var j :| 0 <= j < |ids| && ids[j] == later;
        ContributionAt(ids, j);
        WeightFalls(i, j);
      }
      WeightFalls(i, i + 1);
    }
  }

  lemma BeforeIsAsymmetric(lexical: seq<Uuid>, semantic: seq<Uuid>, a: Uuid, b: Uuid)
    requires Before(lexical, semantic, a, b)
    ensures a != b && !Before(lexical, semantic, b, a)
  {
  }

  /** What comes before a returned document is returned, before it. */
  lemma BeforeInAnswer(lexical: seq<Uuid>, semantic: seq<Uuid>, limit: nat, result: seq<Uuid>, a: Uuid, b: Uuid)
    requires IsFusion(lexical, semantic, limit, result)
    requires Before(lexical, semantic, a, b) && a in Union(lexical, semantic) && b in result
    ensures exists i, j :: 0 <= i < j < |result| && result[i] == a && result[j] == b
  {
    BeforeIsAsymmetric(lexical, semantic, a, b);
    var j :| 0 <= j < |result| && result[j] == b;
    assert a in result;
    var i :| 0 <= i < |result| && result[i] == a;
    assert i < j;
  }

  /** A document ranked sooner in every list that names another comes before it in the answer. */
  lemma Dominates(lexical: seq<Uuid>, semantic: seq<Uuid>, limit: nat, result: seq<Uuid>, sooner: Uuid, later: Uuid)
    requires Distinct(lexical) && Distinct(semantic)
    requires RankedSooner(lexical, sooner, later) && RankedSooner(semantic, sooner, later)
    requires IsFusion(lexical, semantic, limit, result) && later in result
    ensures exists i, j :: 0 <= i < j < |result| && result[i] == sooner && result[j] == later
  {
    SoonerContributesMore(lexical, sooner, later);
    SoonerContributesMore(semantic, sooner, later);
    BeforeInAnswer(lexical, semantic, limit, result, sooner, later);
  }

  /** Ranks count from one: a document at places i and j of the lists scores 1 / (60 + i + 1) + 1 / (60 + j + 1),
      and a list that does not name it adds nothing. */
  lemma ScoreByRanks(lexical: seq<Uuid>, semantic: seq<Uuid>, d: Uuid)
    requires Distinct(lexical) && Distinct(semantic)
    ensures forall i, j :: 0 <= i < |lexical| && 0 <= j < |semantic| && lexical[i] == d == semantic[j] ==>
              Score(lexical, semantic, d) == 1.0 / (61 + i) as real + 1.0 / (61 + j) as real
    ensures forall i :: 0 <= i < |lexical| && lexical[i] == d && d !in semantic ==>
              Score(lexical, semantic, d) == 1.0 / (61 + i) as real
    ensures forall j :: 0 <= j < |semantic| && semantic[j] == d && d !in lexical ==>
              Score(lexical, semantic, d) == 1.0 / (61 + j) as real
  {
    OutsideAddsNothing(lexical, d);
    OutsideAddsNothing(semantic, d);
    forall i | 0 <= i < |lexical| && lexical[i] == d ensures Contribution(lexical, d) == 1.0 / (61 + i) as real {
      ContributionAt(lexical, i);
    }
    forall j | 0 <= j < |semantic| && semantic[j] == d ensures Contribution(semantic, d) == 1.0 / (61 + j) as real {
      ContributionAt(semantic, j);
    }
  }

  /** The answer has as many documents as asked for, if there are so many; they are named by a list, and come by
      falling score, by rising identifier where scores are equal, and before every one that is left out. */
  lemma FusionIsOrdered(lexical: seq<Uuid>, semantic: seq<Uuid>, limit: nat, result: seq<Uuid>)
    requires IsFusion(lexical, semantic, limit, result)
    ensures |result| <= limit && Distinct(result) && forall d :: d in result ==> d in lexical || d in semantic
    ensures |result| < limit ==> forall d :: d in lexical || d in semantic ==> d in result
    ensures forall i, j :: 0 <= i < j < |result| ==>
              var a, b := Score(lexical, semantic, result[i]), Score(lexical, semantic, result[j]);
              a > b || (a == b && result[i] < result[j])
    ensures forall i, d :: 0 <= i < |result| && (d in lexical || d in semantic) && d !in result ==>
              var a, b := Score(lexical, semantic, result[i]), Score(lexical, semantic, d);
              a > b || (a == b && result[i] < d)
  {
    FusionIsDistinct(lexical, semantic, limit, result);
    if |result| < limit {
      AllReturned(Union(lexical, semantic), result);
    }
    forall i, d | 0 <= i < |result| && (d in lexical || d in semantic) && d !in result
      ensures Before(lexical, semantic, result[i], d)
    {
      assert d in Union(lexical, semantic);
    }
  }

  lemma AllReturned(ids: set<Uuid>, result: seq<Uuid>)
    requires Distinct(result) && |result| == |ids| && forall d :: d in result ==> d in ids
    ensures forall d :: d in ids ==> d in result
  {
    DistinctSize(result);
    assert Elements(result) <= ids;
    assert |ids - Elements(result)| == |ids| - |Elements(result)|;
    assert ids - Elements(result) == {};
  }

  // ----- Search -----

  datatype ChunkHit = ChunkHit(document: Uuid, title: string, content: string, score: real)
  datatype Answer = Answer(documents: seq<Uuid>, chunks: seq<ChunkHit>)

  /** The documents of the hits, each at its first hit. */
  function FirstHits(hits: seq<ChunkHit>): seq<Uuid> {
    if hits == [] then []
    else
      var n := |hits| - 1;
      var before := FirstHits(hits[..n]);
      if hits[n].document in before then before else before + [hits[n].document]
  }

  lemma {:induction false} FirstHitsAreDistinct(hits: seq<ChunkHit>)
    ensures var ids := FirstHits(hits);
            && Distinct(ids) && |ids| <= |hits|
            && forall d :: d in ids <==> exists i :: 0 <= i < |hits| && hits[i].document == d
  {
    if hits != [] {
      var n := |hits| - 1;
      FirstHitsAreDistinct(hits[..n]);
      assert forall i :: 0 <= i < n ==> hits[..n][i] == hits[i];
    }
  }

  /** They keep the order of the hits: what comes first was hit first. */
  lemma {:induction false} FirstHitsInOrder(hits: seq<ChunkHit>, a: nat, b: nat)
    requires a < b < |FirstHits(hits)|
    ensures exists i :: 0 <= i < |hits| && hits[i].document == FirstHits(hits)[a]
                        && forall j :: 0 <= j <= i ==> hits[j].document != FirstHits(hits)[b]
  {
    var n := |hits| - 1;
    var before := FirstHits(hits[..n]);
    FirstHitsAreDistinct(hits[..n]);
    if b < |before| {
      FirstHitsInOrder(hits[..n], a, b);
      var i :| 0 <= i < n && hits[..n][i].document == before[a] && forall j :: 0 <= j <= i ==> hits[..n][j].document != before[b];
      assert forall j :: 0 <= j <= i ==> hits[j].document == hits[..n][j].document;
    } else {
      assert before[a] in before;
      var i :| 0 <= i < n && hits[..n][i].document == before[a];
      assert forall j :: 0 <= j <= i ==> hits[j].document == hits[..n][j].document;
    }
  }

  /** With the candidates the search asks for, agreement always wins. */
  lemma AgreementWinsInSearch(lexical: seq<Uuid>, hits: seq<ChunkHit>, limit: nat, result: seq<Uuid>, both: Uuid, one: Uuid)
    requires Distinct(lexical) && |lexical| <= 50 && |hits| <= 50
    requires IsFusion(lexical, FirstHits(hits), limit, result) && one in result
    requires both in lexical && both in FirstHits(hits) && !(one in lexical && one in FirstHits(hits))
    ensures exists i, j :: 0 <= i < j < |result| && result[i] == both && result[j] == one
  {
    FirstHitsAreDistinct(hits);
    AgreementWins(lexical, FirstHits(hits), both, one);
    BeforeInAnswer(lexical, FirstHits(hits), limit, result, both, one);
  }

  function ClampLimit(limit: int): nat {
    if limit <= 0 || limit > MAX_RESULTS then MAX_RESULTS else limit
  }

  method Collect(hits: seq<ChunkHit>) returns (ids: seq<Uuid>, chunks: seq<ChunkHit>)
    ensures ids == FirstHits(hits) && chunks == hits[..if |hits| < 12 then |hits| else 12]
  {
    ids, chunks := [], [];
    var seen: set<Uuid> := {};
    for i := 0 to |hits|
      invariant ids == FirstHits(hits[..i]) && seen == Elements(ids) && chunks == hits[..Min(MAX_CHUNKS, i)]
    {
      assert hits[..i + 1][..i] == hits[..i];
      if |chunks| < MAX_CHUNKS {
        chunks := chunks + [hits[i]];
      }
      if hits[i].document !in seen {
        seen := seen + {hits[i].document};
        ids := ids + [hits[i].document];
      }
    }
    assert hits[..|hits|] == hits;
  }

  /** The answer to a query, given the candidates; no semantic candidates when the query could not be
      embedded. A query that is too long is refused. */
  method Search(rawQuery: string, limit: int, lexical: seq<Uuid>, semantic: Option<seq<ChunkHit>>) returns (answer: Option<Answer>)
    ensures var query := Text.Trim(rawQuery);
            && (answer.None? <==> |query| > 1000)
            && (query == "" ==> answer == Some(Answer([], [])))
            && (answer.Some? && query != "" ==>
                  var hits := semantic.GetOr([]);
                  && IsFusion(lexical, FirstHits(hits), if 1 <= limit <= 20 then limit else 20, answer.value.documents)
                  && answer.value.chunks == hits[..if |hits| < 12 then |hits| else 12])
  {
    var query := Text.Trim(rawQuery);
    if query == "" { return Some(Answer([], [])); }
    if |query| > MAX_QUERY { return None; }
    var ids, chunks := Collect(semantic.GetOr([]));
    var documents := FuseRanks(lexical, ids, ClampLimit(limit));
    return Some(Answer(documents, chunks));
  }
}
