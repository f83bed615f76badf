/**
 The independent hybrid oracle: ALS and trend scores blended by a weight lambda, over reals
 (scripts/experiments/module4c_streaming_demo.py).
 */
module HybridOracle {
  import opened Wrappers
  import opened Collections
  import opened Ranking

  datatype TrendScore = TrendScore(productId: int, score: real)

  datatype HybridRow = HybridRow(productId: int, alsNorm: real, trendNorm: real, score: real, rank: nat)

  datatype HybridError = BadWeight | ZeroDivision

  const EPSILON := 0.000000000001

  // ----- the specification -----

  function Lowest(values: seq<real>): real
    requires values != []
  {
    if |values| == 1 then values[0]
    else
      var low := Lowest(values[..|values| - 1]);
      if values[|values| - 1] < low then values[|values| - 1] else low
  }

  function Highest(values: seq<real>): real
    requires values != []
  {
    if |values| == 1 then values[0]
    else
      var high := Highest(values[..|values| - 1]);
      if values[|values| - 1] > high then values[|values| - 1] else high
  }

  function Scores(rows: seq<TrendScore>): seq<real> {
    seq(|rows|, i requires 0 <= i < |rows| => rows[i].score)
  }

  function MaxTrend(rows: seq<TrendScore>): real {
    if rows == [] then 0.0 else Highest(Scores(rows))
  }

  /** The last row of a product decides; a product without a row scores zero. */
  function TrendOf(rows: seq<TrendScore>, p: int): real {
    if rows == [] then 0.0
    else if rows[|rows| - 1].productId == p then rows[|rows| - 1].score
    else TrendOf(rows[..|rows| - 1], p)
  }

  function AlsNorm(als: seq<real>, a: real): real
    requires als != []
  {
    var spread := Highest(als) - Lowest(als) + EPSILON;
    if spread == 0.0 then 0.0 else (a - Lowest(als)) / spread
  }

  function TrendNorm(maxTrend: real, t: real): real {
    if maxTrend != 0.0 && maxTrend + EPSILON != 0.0 then t / (maxTrend + EPSILON) else 0.0
  }

  function Blend(weight: real, alsNorm: real, trendNorm: real): real {
    weight * alsNorm + (1.0 - weight) * trendNorm
  }

  /** The scores the oracle works from: the i-th ALS score belongs to the i-th product. */
  datatype Inputs = Inputs(products: seq<int>, als: seq<real>, trend: seq<TrendScore>) {
    predicate Shaped() {
      products != [] && |als| == |products|
    }

    function Trend(i: nat): real
      requires i < |products|
    {
      TrendOf(trend, products[i])
    }

    function Final(weight: real, i: nat): real
      requires Shaped() && i < |products|
    {
      Blend(weight, AlsNorm(als, als[i]), TrendNorm(MaxTrend(trend), Trend(i)))
    }

    function Row(weight: real, i: nat): HybridRow
      requires Shaped() && i < |products|
    {
      HybridRow(products[i], AlsNorm(als, als[i]), TrendNorm(MaxTrend(trend), Trend(i)), Final(weight, i), 0)
    }

    function Rows(weight: real): seq<HybridRow>
      requires Shaped()
    {
      seq(|products|, i requires 0 <= i < |products| => Row(weight, i))
    }

    /** Product i is placed before product j at this weight. */
    predicate Ahead(weight: real, i: nat, j: nat)
      requires Shaped() && i < |products| && j < |products|
    {
      Precedes(SortKey(Final(weight, i), products[i]), SortKey(Final(weight, j), products[j]))
    }

    predicate NonNegative() {
      forall k :: 0 <= k < |trend| ==> trend[k].score >= 0.0
    }
  }

  function KeyOf(row: HybridRow): SortKey {
    SortKey(row.score, row.productId)
  }

  function Numbered(rows: seq<HybridRow>): seq<HybridRow> {
    seq(|rows|, i requires 0 <= i < |rows| => rows[i].(rank := i + 1))
  }

  // ----- the oracle -----

  method Extent(values: seq<real>) returns (low: real, high: real)
    requires values != []
    ensures low == Lowest(values) && high == Highest(values)
  {
    low, high := values[0], values[0];
    for i := 1 to |values|
      invariant low == Lowest(values[..i]) && high == Highest(values[..i])
    {
      PrefixStep(values, i);
      if values[i] < low {
        low := values[i];
      }
      if values[i] > high {
        high := values[i];
      }
    }
    assert values[..|values|] == values;
  }

  method IndexTrends(rows: seq<TrendScore>) returns (trends: map<int, real>)
    ensures forall p :: (if p in trends then trends[p] else 0.0) == TrendOf(rows, p)
  {
    trends := map[];
    for i := 0 to |rows|
      invariant forall p :: (if p in trends then trends[p] else 0.0) == TrendOf(rows[..i], p)
    {
      PrefixStep(rows, i);
      trends := trends[rows[i].productId := rows[i].score];
    }
    assert rows[..|rows|] == rows;
  }

  method IndependentHybridOracle(inputs: Inputs, weight: real) returns (r: Result<seq<HybridRow>, HybridError>)
    requires inputs.Shaped()
    ensures r == Failure(BadWeight) <==> !(0.0 <= weight <= 1.0)
    ensures r == Failure(ZeroDivision) <==> 0.0 <= weight <= 1.0 && MaxTrend(inputs.trend) == -EPSILON
    ensures r.Success? ==> r.value == Numbered(Sort(inputs.Rows(weight), KeyOf))
  {
    hide TrendOf, MaxTrend, Blend;
    if !(0.0 <= weight <= 1.0) {
      return Failure(BadWeight);
    }
    var low, high := Extent(inputs.als);
    ExtentOrdered(inputs.als);
    var maxTrend := GreatestTrend(inputs.trend);
    var trends := IndexTrends(inputs.trend);
    var rows: seq<HybridRow> := [];
    for i := 0 to |inputs.products|
      invariant |rows| == i
      invariant i > 0 ==> maxTrend != -EPSILON
      invariant forall j :: 0 <= j < i ==> rows[j] == inputs.Row(weight, j)
    {
      var p := inputs.products[i];
      var alsNorm := (inputs.als[i] - low) / (high - low + EPSILON);
      var trend := if p in trends then trends[p] else 0.0;
      var trendNorm := 0.0;
      if maxTrend != 0.0 {
        if maxTrend + EPSILON == 0.0 {
          return Failure(ZeroDivision);
        }
        trendNorm := trend / (maxTrend + EPSILON);
      }
      rows := rows + [HybridRow(p, alsNorm, trendNorm, Blend(weight, alsNorm, trendNorm), 0)];
    }
    assert rows == inputs.Rows(weight);
    rows := Sort(rows, KeyOf);
    var ranked: seq<HybridRow> := [];
    for i := 0 to |rows|
      invariant |ranked| == i
      invariant forall j :: 0 <= j < i ==> ranked[j] == rows[j].(rank := j + 1)
    {
      ranked := ranked + [rows[i].(rank := i + 1)];
    }
    assert ranked == Numbered(rows);
    r := Success(ranked);
  }

  method GreatestTrend(rows: seq<TrendScore>) returns (m: real)
    ensures m == MaxTrend(rows)
  {
    m := 0.0;
    if rows != [] {
      var _, high := Extent(Scores(rows));
      m := high;
    }
  }

  // ----- ranges -----

  lemma {:induction false} ExtentHolds(values: seq<real>)
    requires values != []
    ensures forall i :: 0 <= i < |values| ==> Lowest(values) <= values[i] <= Highest(values)
    ensures Lowest(values) in values && Highest(values) in values
  {
    if |values| > 1 {
      ExtentHolds(values[..|values| - 1]);
      assert values == values[..|values| - 1] + [values[|values| - 1]];
    }
  }

  lemma ExtentOrdered(values: seq<real>)
    requires values != []
    ensures Lowest(values) <= Highest(values)
  {
    ExtentHolds(values);
    assert values[0] <= Highest(values);
  }

  lemma {:induction false} TrendIsARow(rows: seq<TrendScore>, p: int)
    ensures TrendOf(rows, p) == 0.0 || exists k :: 0 <= k < |rows| && rows[k].productId == p && rows[k].score == TrendOf(rows, p)
  {
    if rows != [] && rows[|rows| - 1].productId != p {
      TrendIsARow(rows[..|rows| - 1], p);
    }
  }

  /** With non-negative trend scores, each product's score lies between zero and the maximum. */
  lemma TrendBetween(inputs: Inputs, p: int)
    requires inputs.NonNegative()
    ensures 0.0 <= TrendOf(inputs.trend, p) <= MaxTrend(inputs.trend)
  {
    var rows := inputs.trend;
    TrendIsARow(rows, p);
    if rows != [] {
      ExtentHolds(Scores(rows));
      assert Scores(rows)[0] == rows[0].score;
      if k :| 0 <= k < |rows| && rows[k].score == TrendOf(rows, p) {
        assert Scores(rows)[k] == rows[k].score;
      }
    }
  }

  lemma QuotientOrder(x: real, y: real, d: real)
    requires d != 0.0
    ensures d > 0.0 ==> (x > y <==> x / d > y / d) && (x == y <==> x / d == y / d)
    ensures d < 0.0 ==> (x > y <==> x / d < y / d) && (x == y <==> x / d == y / d)
  {
    var q, s := x / d, y / d;
    assert q * d == x && s * d == y;
    assert x - y == (q - s) * d;
  }

  lemma QuotientBelowOne(x: real, d: real)
    requires 0.0 <= x < d
    ensures 0.0 <= x / d < 1.0
  {
    var q := x / d;
    assert q * d == x;
    assert (1.0 - q) * d == d - x;
  }

  lemma Product(x: real, y: real)
    requires x >= 0.0 && y >= 0.0
    ensures x * y >= 0.0
    ensures x > 0.0 && y > 0.0 ==> x * y > 0.0
  {
  }

  lemma BlendBelowOne(weight: real, a: real, t: real)
    requires 0.0 <= weight <= 1.0 && 0.0 <= a < 1.0 && 0.0 <= t < 1.0
    ensures 0.0 <= Blend(weight, a, t) < 1.0
  {
    var other := 1.0 - weight;
    Product(weight, a);
    Product(other, t);
    Product(weight, 1.0 - a);
    Product(other, 1.0 - t);
    assert weight > 0.0 || other > 0.0;
    assert weight * (1.0 - a) + other * (1.0 - t) > 0.0;
    assert weight * (1.0 - a) == weight - weight * a && other * (1.0 - t) == other - other * t;
  }

  /** Every normalised score and every final score lies in [0, 1) when trend scores are not negative. */
  lemma ScoresBelowOne(inputs: Inputs, weight: real, i: nat)
    requires inputs.Shaped() && inputs.NonNegative() && i < |inputs.products| && 0.0 <= weight <= 1.0
    ensures var row := inputs.Row(weight, i);
            0.0 <= row.alsNorm < 1.0 && 0.0 <= row.trendNorm < 1.0 && 0.0 <= row.score < 1.0
  {
    var als, maxTrend := inputs.als, MaxTrend(inputs.trend);
    ExtentHolds(als);
    TrendBetween(inputs, inputs.products[i]);
    hide Lowest, Highest, MaxTrend, TrendOf;
    QuotientBelowOne(als[i] - Lowest(als), Highest(als) - Lowest(als) + EPSILON);
    if maxTrend != 0.0 {
      QuotientBelowOne(inputs.Trend(i), maxTrend + EPSILON);
    }
    BlendBelowOne(weight, AlsNorm(als, als[i]), TrendNorm(maxTrend, inputs.Trend(i)));
  }

  // ----- the two ends of the weight -----

  /** Weight one: ALS score descending, then product ID. */
  lemma AlsOrderAtOne(inputs: Inputs, i: nat, j: nat)
    requires inputs.Shaped() && i < |inputs.products| && j < |inputs.products|
    ensures inputs.Ahead(1.0, i, j) <==>
            Precedes(SortKey(inputs.als[i], inputs.products[i]), SortKey(inputs.als[j], inputs.products[j]))
  {
    var als := inputs.als;
    ExtentOrdered(als);
    QuotientOrder(als[i] - Lowest(als), als[j] - Lowest(als), Highest(als) - Lowest(als) + EPSILON);
  }

  /**
   Weight zero keeps a strict difference of trend scores exactly when the greatest score is not
   zero and exceeds minus epsilon; below that the division turns the order round.
   */
  lemma TrendDifferenceKept(inputs: Inputs, i: nat, j: nat)
    requires inputs.Shaped() && i < |inputs.products| && j < |inputs.products|
    requires inputs.Trend(i) > inputs.Trend(j)
    ensures inputs.Final(0.0, i) > inputs.Final(0.0, j) <==>
            MaxTrend(inputs.trend) != 0.0 && MaxTrend(inputs.trend) > -EPSILON
  {
    var maxTrend := MaxTrend(inputs.trend);
    if maxTrend + EPSILON != 0.0 {
      QuotientOrder(inputs.Trend(i), inputs.Trend(j), maxTrend + EPSILON);
    }
  }

  /** Weight zero: trend score descending, then product ID, for scores that are not negative. */
  lemma TrendOrderAtZero(inputs: Inputs, i: nat, j: nat)
    requires inputs.Shaped() && inputs.NonNegative() && i < |inputs.products| && j < |inputs.products|
    ensures inputs.Ahead(0.0, i, j) <==>
            Precedes(SortKey(inputs.Trend(i), inputs.products[i]), SortKey(inputs.Trend(j), inputs.products[j]))
  {
    TrendBetween(inputs, inputs.products[i]);
    TrendBetween(inputs, inputs.products[j]);
    if inputs.Trend(i) > inputs.Trend(j) {
      TrendDifferenceKept(inputs, i, j);
    } else if inputs.Trend(j) > inputs.Trend(i) {
      TrendDifferenceKept(inputs, j, i);
    }
  }

  // ----- between the ends -----

  /** The lead of one product over another changes linearly with the weight. */
  lemma LeadIsLinear(inputs: Inputs, i: nat, j: nat, weight: real)
    requires inputs.Shaped() && i < |inputs.products| && j < |inputs.products|
    ensures inputs.Final(weight, i) - inputs.Final(weight, j)
            == weight * (inputs.Final(1.0, i) - inputs.Final(1.0, j))
               + (1.0 - weight) * (inputs.Final(0.0, i) - inputs.Final(0.0, j))
  {
    var ai, aj := AlsNorm(inputs.als, inputs.als[i]), AlsNorm(inputs.als, inputs.als[j]);
    var ti, tj := TrendNorm(MaxTrend(inputs.trend), inputs.Trend(i)), TrendNorm(MaxTrend(inputs.trend), inputs.Trend(j));
    BlendDifference(weight, ai, aj, ti, tj);
  }

  lemma BlendDifference(weight: real, ai: real, aj: real, ti: real, tj: real)
    ensures Blend(weight, ai, ti) - Blend(weight, aj, tj)
            == weight * (Blend(1.0, ai, ti) - Blend(1.0, aj, tj)) + (1.0 - weight) * (Blend(0.0, ai, ti) - Blend(0.0, aj, tj))
  {
  }

  /** A linear quantity between two weights lies between its values there. */
  lemma Between(d0: real, d1: real, a: real, b: real, c: real, atA: real, atB: real, atC: real)
    requires a <= b <= c
    requires atA == a * d1 + (1.0 - a) * d0 && atB == b * d1 + (1.0 - b) * d0 && atC == c * d1 + (1.0 - c) * d0
    ensures atA <= atB <= atC || atA >= atB >= atC
  {
    var slope := d1 - d0;
    assert atB - atA == (b - a) * slope && atC - atB == (c - b) * slope;
    if slope >= 0.0 {
      Product(b - a, slope);
      Product(c - b, slope);
    } else {
      Product(b - a, -slope);
      Product(c - b, -slope);
    }
  }

  /** The weights at which one product is ahead of another form an interval. */
  lemma AheadOnAnInterval(inputs: Inputs, i: nat, j: nat, a: real, b: real, c: real)
    requires inputs.Shaped() && i < |inputs.products| && j < |inputs.products| && a <= b <= c
    requires inputs.Ahead(a, i, j) && inputs.Ahead(c, i, j)
    ensures inputs.Ahead(b, i, j)
  {
    hide *;
    var d0 := inputs.Final(0.0, i) - inputs.Final(0.0, j);
    var d1 := inputs.Final(1.0, i) - inputs.Final(1.0, j);
    LeadIsLinear(inputs, i, j, a);
    LeadIsLinear(inputs, i, j, b);
    LeadIsLinear(inputs, i, j, c);
    Between(d0, d1, a, b, c, inputs.Final(a, i) - inputs.Final(a, j), inputs.Final(b, i) - inputs.Final(b, j),
            inputs.Final(c, i) - inputs.Final(c, j));
    AheadByLead(inputs, i, j, a);
    AheadByLead(inputs, i, j, b);
    AheadByLead(inputs, i, j, c);
  }

  lemma AheadByLead(inputs: Inputs, i: nat, j: nat, weight: real)
    requires inputs.Shaped() && i < |inputs.products| && j < |inputs.products|
    ensures inputs.Ahead(weight, i, j) <==>
            var lead := inputs.Final(weight, i) - inputs.Final(weight, j);
            lead > 0.0 || (lead == 0.0 && inputs.products[i] < inputs.products[j])
  {
  }

  /**
   At most one crossing: exactly one of two products leads at each weight, and a product that loses
   the lead as the weight grows never gets it back.
   */
  lemma AtMostOneCrossing(inputs: Inputs, i: nat, j: nat, a: real, b: real, c: real)
    requires inputs.Shaped() && i < |inputs.products| && j < |inputs.products| && a <= b <= c
    requires inputs.products[i] != inputs.products[j]
    ensures inputs.Ahead(b, i, j) <==> !inputs.Ahead(b, j, i)
    ensures inputs.Ahead(a, i, j) && !inputs.Ahead(b, i, j) ==> !inputs.Ahead(c, i, j)
  {
    AheadByLead(inputs, i, j, b);
    AheadByLead(inputs, j, i, b);
    if inputs.Ahead(a, i, j) && inputs.Ahead(c, i, j) {
      AheadOnAnInterval(inputs, i, j, a, b, c);
    }
  }

  /**
   One product is ahead of another at every weight exactly when it is ahead of it by ALS score and by
   trend score, ties going to the smaller ID: in particular when it is strictly better in both.
   */
  lemma AlwaysAheadExactly(inputs: Inputs, i: nat, j: nat)
    requires inputs.Shaped() && inputs.NonNegative() && i < |inputs.products| && j < |inputs.products|
    ensures (forall weight :: 0.0 <= weight <= 1.0 ==> inputs.Ahead(weight, i, j)) <==>
            && Precedes(SortKey(inputs.als[i], inputs.products[i]), SortKey(inputs.als[j], inputs.products[j]))
            && Precedes(SortKey(inputs.Trend(i), inputs.products[i]), SortKey(inputs.Trend(j), inputs.products[j]))
  {
    hide *;
    AlsOrderAtOne(inputs, i, j);
    TrendOrderAtZero(inputs, i, j);
    if inputs.Ahead(0.0, i, j) && inputs.Ahead(1.0, i, j) {
      forall weight | 0.0 <= weight <= 1.0 ensures inputs.Ahead(weight, i, j) {
        AheadOnAnInterval(inputs, i, j, 0.0, weight, 1.0);
      }
    }
  }

  // ----- what each row holds -----

  /** The score that counts for a product: that of its last row, or zero without one. */
  ghost predicate LastScore(rows: seq<TrendScore>, p: int, t: real) {
    || (t == 0.0 && forall k :: 0 <= k < |rows| ==> rows[k].productId != p)
    || exists k :: 0 <= k < |rows| && rows[k] == TrendScore(p, t) && forall l :: k < l < |rows| ==> rows[l].productId != p
  }

  lemma {:induction false} TrendIsLast(rows: seq<TrendScore>, p: int)
    ensures LastScore(rows, p, TrendOf(rows, p))
  {
    if rows != [] {
      var earlier, last := rows[..|rows| - 1], rows[|rows| - 1];
      TrendIsLast(earlier, p);
      if last.productId == p {
        assert rows[|rows| - 1] == TrendScore(p, last.score);
      } else if k :| 0 <= k < |earlier| && earlier[k] == TrendScore(p, TrendOf(earlier, p))
                     && forall l :: k < l < |earlier| ==> earlier[l].productId != p {
        assert rows[k] == TrendScore(p, TrendOf(rows, p));
      }
    }
  }

  /** The least and the greatest of the values. */
  ghost predicate ExtentOf(values: seq<real>, low: real, high: real) {
    low in values && high in values && forall v :: v in values ==> low <= v <= high
  }

  /** The greatest trend score; zero without any row. */
  ghost predicate TopTrend(rows: seq<TrendScore>, top: real) {
    if rows == [] then top == 0.0
    else (exists k :: 0 <= k < |rows| && rows[k].score == top) && forall k :: 0 <= k < |rows| ==> rows[k].score <= top
  }

  lemma TopIsMax(rows: seq<TrendScore>, top: real)
    ensures TopTrend(rows, top) <==> top == MaxTrend(rows)
  {
    if rows != [] {
      var scores := Scores(rows);
      ExtentHolds(scores);
      assert forall k :: 0 <= k < |rows| ==> scores[k] == rows[k].score;
    }
  }

  /**
   The values of a row: the ALS score in proportion between the extremes, the trend score of the last row as
   a part of the greatest one, both with the spread widened by a millionth of a millionth, and their blend.
   */
  lemma RowHolds(inputs: Inputs, weight: real, i: nat, low: real, high: real, top: real, t: real)
    requires inputs.Shaped() && i < |inputs.products|
    requires ExtentOf(inputs.als, low, high) && TopTrend(inputs.trend, top) && LastScore(inputs.trend, inputs.products[i], t)
    ensures var row := inputs.Row(weight, i);
            && row.productId == inputs.products[i]
            && row.alsNorm * (high - low + 0.000000000001) == inputs.als[i] - low
            && (top == 0.0 ==> row.trendNorm == 0.0)
            && (top != 0.0 && top != -0.000000000001 ==> row.trendNorm * (top + 0.000000000001) == t)
            && row.score == weight * row.alsNorm + (1.0 - weight) * row.trendNorm
  {
    ExtentHolds(inputs.als);
    TopIsMax(inputs.trend, top);
    TrendIsLast(inputs.trend, inputs.products[i]);
    hide TrendOf, MaxTrend, TopTrend;
    assert low == Lowest(inputs.als) && high == Highest(inputs.als);
    hide Lowest, Highest, ExtentOf;
    assert t == inputs.Trend(i);
    QuotientTimes(inputs.als[i] - low, high - low + EPSILON);
    if top + EPSILON != 0.0 {
      QuotientTimes(t, top + EPSILON);
    }
  }

  lemma QuotientTimes(x: real, d: real)
    requires d != 0.0
    ensures (x / d) * d == x
  {
  }

  lemma RowDataExists(inputs: Inputs, i: nat)
    requires inputs.Shaped() && i < |inputs.products|
    ensures exists low, high :: ExtentOf(inputs.als, low, high)
    ensures exists top :: TopTrend(inputs.trend, top)
    ensures exists t :: LastScore(inputs.trend, inputs.products[i], t)
  {
    ExtentHolds(inputs.als);
    assert ExtentOf(inputs.als, Lowest(inputs.als), Highest(inputs.als));
    TopIsMax(inputs.trend, MaxTrend(inputs.trend));
    TrendIsLast(inputs.trend, inputs.products[i]);
  }

  /** The result lists each product once, ranked from one, in the order `Ahead` gives. */
  lemma HybridIsTheOrder(inputs: Inputs, weight: real) returns (place: seq<nat>)
    requires inputs.Shaped() && Distinct(inputs.products)
    ensures var r := Numbered(Sort(inputs.Rows(weight), KeyOf));
            && |place| == |r| == |inputs.products| && Distinct(place)
            && (forall k :: 0 <= k < |r| ==> place[k] < |inputs.products| && r[k] == inputs.Row(weight, place[k]).(rank := k + 1))
            && (forall k, l :: 0 <= k < |r| && 0 <= l < |r| ==> (k < l <==> inputs.Ahead(weight, place[k], place[l])))
    ensures var r := Numbered(Sort(inputs.Rows(weight), KeyOf));
            forall k, l :: 0 <= k < |r| && 0 <= l < |r| ==>
              (k < l <==> r[k].score > r[l].score || (r[k].score == r[l].score && r[k].productId < r[l].productId))
  {
    var rows := inputs.Rows(weight);
    var sorted := Sort(rows, KeyOf);
    SortHolds(rows, KeyOf);
    SameElements(rows, sorted);
    UniqueIdsPermuted(rows, sorted, KeyOf);
    place := [];
    for k := 0 to |sorted|
      invariant |place| == k
      invariant forall l :: 0 <= l < k ==> place[l] < |rows| && sorted[l] == rows[place[l]]
    {
      assert sorted[k] in sorted && sorted[k] in rows;
      var i :| 0 <= i < |rows| && rows[i] == sorted[k];
      place := place + [i];
    }
    forall k, l | 0 <= k < |sorted| && 0 <= l < |sorted| ensures k < l <==> inputs.Ahead(weight, place[k], place[l]) {
      PositionIsPrecedence(sorted, KeyOf, k, l);
    }
    forall k, l | 0 <= k < l < |sorted| ensures place[k] != place[l] {
      assert KeyOf(sorted[k]).id != KeyOf(sorted[l]).id;
    }
  }
}
