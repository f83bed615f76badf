/**
 The independent trend oracle: half-open window counts, min-max normalisation over reals, and the
 deterministic order (scripts/experiments/module4c_streaming_demo.py).
 */
module TrendOracle {
  import opened Wrappers
  import opened Collections
  import opened Ranking

  datatype Event = Event(productId: int, timeMs: int)

  /** A window of whole milliseconds, start included and end excluded. */
  datatype Window = Window(start: int, end: int)

  datatype TrendRow = TrendRow(
    productId: int, shortCount: nat, longCount: nat,
    normShort: real, normLong: real, score: real, rank: nat)

  const WINDOW_SHORT_MS := 30 * 60 * 1000

  // ----- counting -----

  predicate InLong(e: Event, p: int, w: Window) {
    e.productId == p && w.start <= e.timeMs < w.end
  }

  predicate InShort(e: Event, p: int, w: Window) {
    InLong(e, p, w) && e.timeMs >= w.end - WINDOW_SHORT_MS
  }

  function LongCount(events: seq<Event>, p: int, w: Window): nat {
    |Filter(events, (e: Event) => InLong(e, p, w))|
  }

  function ShortCount(events: seq<Event>, p: int, w: Window): nat {
    |Filter(Filter(events, (e: Event) => InLong(e, p, w)), (e: Event) => e.timeMs >= w.end - WINDOW_SHORT_MS)|
  }

  // ----- normalisation -----

  function Low(values: seq<nat>): nat
    requires values != []
  {
    if |values| == 1 then values[0]
    else
      var low := Low(values[..|values| - 1]);
      if values[|values| - 1] < low then values[|values| - 1] else low
  }

  function High(values: seq<nat>): nat
    requires values != []
  {
    if |values| == 1 then values[0]
    else
      var high := High(values[..|values| - 1]);
      if values[|values| - 1] > high then values[|values| - 1] else high
  }

  function Normalised(v: nat, low: nat, high: nat): real {
    if high > low then (v - low) as real / (high - low) as real else 0.0
  }

  function Column(values: seq<nat>): seq<real> {
    if values == [] then []
    else seq(|values|, i requires 0 <= i < |values| => Normalised(values[i], Low(values), High(values)))
  }

  function Blend(short: real, long: real): real {
    0.7 * short + 0.3 * long
  }

  // ----- the specification -----

  function ShortCounts(products: seq<int>, events: seq<Event>, w: Window): seq<nat> {
    seq(|products|, i requires 0 <= i < |products| => ShortCount(events, products[i], w))
  }

  function LongCounts(products: seq<int>, events: seq<Event>, w: Window): seq<nat> {
    seq(|products|, i requires 0 <= i < |products| => LongCount(events, products[i], w))
  }

  /** The unranked rows, from the two columns of counts. */
  function RowsOf(products: seq<int>, shorts: seq<nat>, longs: seq<nat>): seq<TrendRow>
    requires |products| == |shorts| == |longs|
  {
    seq(|products|, i requires 0 <= i < |products| =>
      var s, l := Column(shorts)[i], Column(longs)[i];
      TrendRow(products[i], shorts[i], longs[i], s, l, Blend(s, l), 0))
  }

  function KeyOf(row: TrendRow): SortKey {
    SortKey(row.score, row.productId)
  }

  function Numbered(rows: seq<TrendRow>): seq<TrendRow> {
    seq(|rows|, i requires 0 <= i < |rows| => rows[i].(rank := i + 1))
  }

  function Trend(products: seq<int>, shorts: seq<nat>, longs: seq<nat>): (r: seq<TrendRow>)
    requires |products| == |shorts| == |longs|
    ensures |r| == |products|
  {
    SortHolds(RowsOf(products, shorts, longs), KeyOf);
    Numbered(Sort(RowsOf(products, shorts, longs), KeyOf))
  }

  // ----- the oracle -----

  method CountRows(products: seq<int>, events: seq<Event>, w: Window) returns (shorts: seq<nat>, longs: seq<nat>)
    ensures shorts == ShortCounts(products, events, w) && longs == LongCounts(products, events, w)
  {
    shorts, longs := [], [];
    for i := 0 to |products|
      invariant |shorts| == |longs| == i
      invariant forall j :: 0 <= j < i ==> shorts[j] == ShortCount(events, products[j], w) && longs[j] == LongCount(events, products[j], w)
    {
      var p := products[i];
      var selected := Filter(events, (e: Event) => InLong(e, p, w));
      var recent := Filter(selected, (e: Event) => e.timeMs >= w.end - WINDOW_SHORT_MS);
      shorts, longs := shorts + [|recent|], longs + [|selected|];
    }
  }

  method NormaliseColumn(values: seq<nat>) returns (norms: seq<real>)
    requires values != []
    ensures norms == Column(values)
    ensures |norms| == |values|
    ensures forall least, greatest :: least in values && greatest in values && (forall v :: v in values ==> least <= v <= greatest)
              ==> forall i :: 0 <= i < |values| ==> InProportion(norms[i], values[i], least, greatest)
  {
    hide InProportion;
    var low, high := values[0], values[0];
    for i := 1 to |values|
      invariant low == Low(values[..i]) && high == High(values[..i])
    {
      PrefixStep(values, i);
      if values[i] < low {
        low := values[i];
      }
      if values[i] > high {
        high := values[i];
      }
    }
    assert values[..|values|] == values;
    norms := [];
    for i := 0 to |values|
      invariant |norms| == i
      invariant forall j :: 0 <= j < i ==> norms[j] == Normalised(values[j], low, high)
    {
      norms := norms + [Normalised(values[i], low, high)];
    }
    forall least, greatest | least in values && greatest in values && forall v :: v in values ==> least <= v <= greatest
      ensures forall i :: 0 <= i < |values| ==> InProportion(norms[i], values[i], least, greatest)
    {
      ColumnInProportion(values, least, greatest);
    }
  }

  method IndependentTrendOracle(products: seq<int>, events: seq<Event>, w: Window, topK: int) returns (r: Option<seq<TrendRow>>)
    ensures r.Some? <==> 1 <= topK <= |products|
    ensures r.Some? ==> r.value == Trend(products, ShortCounts(products, events, w), LongCounts(products, events, w))[..topK]
  {
    hide Column;
    hide Blend;
    if !(1 <= topK <= |products|) {
      return None;
    }
    var shorts, longs := CountRows(products, events, w);
    var normShorts := NormaliseColumn(shorts);
    var normLongs := NormaliseColumn(longs);
    ColumnLength(shorts);
    ColumnLength(longs);
    var rows: seq<TrendRow> := [];
    for i := 0 to |products|
      invariant |rows| == i
      invariant forall j :: 0 <= j < i ==> rows[j] == RowsOf(products, shorts, longs)[j]
    {
      rows := rows + [TrendRow(products[i], shorts[i], longs[i], normShorts[i], normLongs[i],
                               Blend(normShorts[i], normLongs[i]), 0)];
    }
    assert rows == RowsOf(products, shorts, longs);
    rows := Sort(rows, KeyOf);
    var ranked: seq<TrendRow> := [];
    for i := 0 to |rows|
      invariant |ranked| == i
      invariant forall j :: 0 <= j < i ==> ranked[j] == rows[j].(rank := j + 1)
    {
      ranked := ranked + [rows[i].(rank := i + 1)];
    }
    assert ranked == Trend(products, shorts, longs);
    r := Some(ranked[..topK]);
  }

  lemma ColumnLength(values: seq<nat>)
    ensures |Column(values)| == |values|
  {
  }

  // ----- the counts as one pass over the events -----

  datatype Counts = Counts(short: nat, long: nat)

  function CountOf(tally: map<int, Counts>, p: int): Counts {
    if p in tally then tally[p] else Counts(0, 0)
  }

  /** A single pass that credits each event to its own product: the half-open-window counter. */
  function Tally(events: seq<Event>, w: Window): map<int, Counts> {
    if events == [] then map[]
    else
      var earlier, e := Tally(events[..|events| - 1], w), events[|events| - 1];
      var c := CountOf(earlier, e.productId);
      if !(w.start <= e.timeMs < w.end) then earlier
      else if e.timeMs >= w.end - WINDOW_SHORT_MS then earlier[e.productId := Counts(c.short + 1, c.long + 1)]
      else earlier[e.productId := Counts(c.short, c.long + 1)]
  }

  lemma LongStep(events: seq<Event>, p: int, w: Window)
    requires events != []
    ensures LongCount(events, p, w) == LongCount(events[..|events| - 1], p, w)
                                       + if InLong(events[|events| - 1], p, w) then 1 else 0
  {
  }

  /** Counting recent events among the selected ones is counting the events of the short window. */
  lemma ShortIsInShort(events: seq<Event>, p: int, w: Window)
    ensures ShortCount(events, p, w) == |Filter(events, (e: Event) => InShort(e, p, w))|
  {
    FilterAgain(events, (e: Event) => InLong(e, p, w), (e: Event) => e.timeMs >= w.end - WINDOW_SHORT_MS,
                (e: Event) => InShort(e, p, w));
  }

  lemma ShortStep(events: seq<Event>, p: int, w: Window)
    requires events != []
    ensures ShortCount(events, p, w) == ShortCount(events[..|events| - 1], p, w)
                                        + if InShort(events[|events| - 1], p, w) then 1 else 0
  {
    ShortIsInShort(events, p, w);
    ShortIsInShort(events[..|events| - 1], p, w);
  }

  /** Scanning the whole event list once per product gives exactly what one pass would. */
  lemma {:induction false} CountsAreOnePass(events: seq<Event>, p: int, w: Window)
    ensures CountOf(Tally(events, w), p) == Counts(ShortCount(events, p, w), LongCount(events, p, w))
  {
    if events != [] {
      LongStep(events, p, w);
      ShortStep(events, p, w);
      CountsAreOnePass(events[..|events| - 1], p, w);
    }
  }

  lemma CountIsCardinality(events: seq<Event>, p: int, w: Window)
    ensures LongCount(events, p, w)
            == |set i | 0 <= i < |events| && events[i].productId == p && w.start <= events[i].timeMs < w.end|
    ensures ShortCount(events, p, w)
            == |set i | 0 <= i < |events| && events[i].productId == p && w.start <= events[i].timeMs < w.end
                        && w.end - events[i].timeMs <= 1_800_000|
  {
    ShortIsInShort(events, p, w);
    FilterCounts(events, (e: Event) => InLong(e, p, w));
    FilterCounts(events, (e: Event) => InShort(e, p, w));
    assert Kept(events, (e: Event) => InLong(e, p, w))
        == set i | 0 <= i < |events| && events[i].productId == p && w.start <= events[i].timeMs < w.end;
    assert Kept(events, (e: Event) => InShort(e, p, w))
        == set i | 0 <= i < |events| && events[i].productId == p && w.start <= events[i].timeMs < w.end
                   && w.end - events[i].timeMs <= 1_800_000;
  }

  // ----- replication and order of events -----

  /** Every event of one list occurs `m` times in the other, in any order. */
  ghost predicate Replicated(events: seq<Event>, copies: seq<Event>, m: nat) {
    forall e :: multiset(copies)[e] == m * multiset(events)[e]
  }

  function Scaled(values: seq<nat>, m: nat): seq<nat> {
    seq(|values|, i requires 0 <= i < |values| => m * values[i])
  }

  lemma LongScales(events: seq<Event>, copies: seq<Event>, m: nat, p: int, w: Window)
    requires Replicated(events, copies, m)
    ensures LongCount(copies, p, w) == m * LongCount(events, p, w)
  {
    FilterScales(events, copies, (e: Event) => InLong(e, p, w), m);
  }

  lemma ShortScales(events: seq<Event>, copies: seq<Event>, m: nat, p: int, w: Window)
    requires Replicated(events, copies, m)
    ensures ShortCount(copies, p, w) == m * ShortCount(events, p, w)
  {
    ShortIsInShort(events, p, w);
    ShortIsInShort(copies, p, w);
    FilterScales(events, copies, (e: Event) => InShort(e, p, w), m);
  }

  lemma CountsScale(products: seq<int>, events: seq<Event>, copies: seq<Event>, m: nat, w: Window)
    requires Replicated(events, copies, m)
    ensures ShortCounts(products, copies, w) == Scaled(ShortCounts(products, events, w), m)
    ensures LongCounts(products, copies, w) == Scaled(LongCounts(products, events, w), m)
  {
    hide ShortCount, LongCount;
    forall i | 0 <= i < |products|
      ensures ShortCount(copies, products[i], w) == m * ShortCount(events, products[i], w)
      ensures LongCount(copies, products[i], w) == m * LongCount(events, products[i], w)
    {
      ShortScales(events, copies, m, products[i], w);
      LongScales(events, copies, m, products[i], w);
    }
  }

  lemma {:induction false} ExtremesScale(values: seq<nat>, m: nat)
    requires values != []
    ensures Low(Scaled(values, m)) == m * Low(values) && High(Scaled(values, m)) == m * High(values)
  {
    if |values| > 1 {
      var shorter, v := values[..|values| - 1], values[|values| - 1];
      ExtremesScale(shorter, m);
      assert Scaled(values, m)[..|values| - 1] == Scaled(shorter, m);
      Monotone(m, v, Low(shorter));
      Monotone(m, Low(shorter), v);
      Monotone(m, v, High(shorter));
      Monotone(m, High(shorter), v);
    }
  }

  lemma Monotone(m: nat, a: nat, b: nat)
    ensures a <= b ==> m * a <= m * b
  {
  }

  lemma QuotientScales(m: nat, a: nat, b: nat)
    requires m > 0 && b > 0
    ensures m * b > 0 && (m * a) as real / (m * b) as real == a as real / b as real
  {
    var q := a as real / b as real;
    assert q * b as real == a as real;
    assert (m * a) as real == m as real * a as real && (m * b) as real == m as real * b as real;
    assert q * (m * b) as real == (m * a) as real;
  }

  lemma NormalisedScales(v: nat, low: nat, high: nat, m: nat)
    requires m > 0 && low <= v
    ensures Normalised(m * v, m * low, m * high) == Normalised(v, low, high)
  {
    Monotone(m, high, low);
    if high > low {
      QuotientScales(m, v - low, high - low);
      assert m * v - m * low == m * (v - low) && m * high - m * low == m * (high - low);
    }
  }

  lemma {:induction false} Extremes(values: seq<nat>)
    requires values != []
    ensures forall i :: 0 <= i < |values| ==> Low(values) <= values[i] <= High(values)
  {
    if |values| > 1 {
      Extremes(values[..|values| - 1]);
    }
  }

  lemma ColumnScales(values: seq<nat>, m: nat)
    requires m > 0
    ensures Column(Scaled(values, m)) == Column(values)
  {
    if values != [] {
      ExtremesScale(values, m);
      Extremes(values);
      forall i | 0 <= i < |values| ensures Column(Scaled(values, m))[i] == Column(values)[i] {
        NormalisedScales(values[i], Low(values), High(values), m);
      }
    }
  }

  function Multiplied(row: TrendRow, m: nat): TrendRow {
    row.(shortCount := m * row.shortCount, longCount := m * row.longCount)
  }

  /**
   Replicating every event m times, in any order, multiplies the counts by m and leaves products,
   norms, scores, order and ranks as they were; m = 1 is independence from the order of events.
   */
  lemma ReplicationKeepsRanking(products: seq<int>, events: seq<Event>, copies: seq<Event>, m: nat, w: Window)
    requires m > 0 && Replicated(events, copies, m)
    ensures Trend(products, ShortCounts(products, copies, w), LongCounts(products, copies, w))
            == Mapped(Trend(products, ShortCounts(products, events, w), LongCounts(products, events, w)),
                      (row: TrendRow) => Multiplied(row, m))
  {
    var shorts, longs := ShortCounts(products, events, w), LongCounts(products, events, w);
    CountsScale(products, events, copies, m, w);
    ColumnScales(shorts, m);
    ColumnScales(longs, m);
    ColumnLength(shorts);
    ColumnLength(longs);
    var multiply := (row: TrendRow) => Multiplied(row, m);
    var rows := RowsOf(products, shorts, longs);
    assert RowsOf(products, Scaled(shorts, m), Scaled(longs, m)) == Mapped(rows, multiply) by {
      hide Column, Blend;
    }
    SortMapped(rows, KeyOf, multiply);
    assert Numbered(Mapped(Sort(rows, KeyOf), multiply)) == Mapped(Numbered(Sort(rows, KeyOf)), multiply);
  }

  lemma OrderOfEventsIsIrrelevant(products: seq<int>, events: seq<Event>, shuffled: seq<Event>, w: Window)
    requires multiset(events) == multiset(shuffled)
    ensures Trend(products, ShortCounts(products, shuffled, w), LongCounts(products, shuffled, w))
            == Trend(products, ShortCounts(products, events, w), LongCounts(products, events, w))
  {
    ReplicationKeepsRanking(products, events, shuffled, 1, w);
  }

  // ----- ranges and order -----

  lemma NormalisedRange(v: nat, low: nat, high: nat)
    requires low <= v <= high
    ensures 0.0 <= Normalised(v, low, high) <= 1.0
    ensures high > low && v == low ==> Normalised(v, low, high) == 0.0
    ensures high > low && v == high ==> Normalised(v, low, high) == 1.0
  {
  }

  lemma ColumnRange(values: seq<nat>)
    ensures |Column(values)| == |values| && forall i :: 0 <= i < |values| ==> 0.0 <= Column(values)[i] <= 1.0
  {
    if values != [] {
      Extremes(values);
      forall i | 0 <= i < |values| ensures 0.0 <= Column(values)[i] <= 1.0 {
        NormalisedRange(values[i], Low(values), High(values));
      }
    }
  }

  lemma ShortAtMostLong(events: seq<Event>, p: int, w: Window)
    ensures ShortCount(events, p, w) <= LongCount(events, p, w)
  {
    FilterHolds(Filter(events, (e: Event) => InLong(e, p, w)), (e: Event) => e.timeMs >= w.end - WINDOW_SHORT_MS);
  }

  /** The least and the greatest count, over all products. */
  ghost predicate ShortRange(products: seq<int>, events: seq<Event>, w: Window, least: nat, greatest: nat) {
    && (exists p :: p in products && ShortCount(events, p, w) == least)
    && (exists p :: p in products && ShortCount(events, p, w) == greatest)
    && forall p :: p in products ==> least <= ShortCount(events, p, w) <= greatest
  }

  ghost predicate LongRange(products: seq<int>, events: seq<Event>, w: Window, least: nat, greatest: nat) {
    && (exists p :: p in products && LongCount(events, p, w) == least)
    && (exists p :: p in products && LongCount(events, p, w) == greatest)
    && forall p :: p in products ==> least <= LongCount(events, p, w) <= greatest
  }

  /** The norm places the count in proportion between the least count, at zero, and the greatest one, at one. */
  ghost predicate InProportion(norm: real, count: nat, least: nat, greatest: nat) {
    && (greatest > least ==> norm * (greatest - least) as real == (count - least) as real)
    && (greatest == least ==> norm == 0.0)
  }

  lemma NormalisedInProportion(v: nat, low: nat, high: nat)
    ensures InProportion(Normalised(v, low, high), v, low, high)
  {
    if high > low {
      var q := (v - low) as real / (high - low) as real;
      assert q * (high - low) as real == (v - low) as real;
    }
  }

  lemma {:induction false} ExtremesTaken(values: seq<nat>)
    requires values != []
    ensures Low(values) in values && High(values) in values
  {
    if |values| > 1 {
      ExtremesTaken(values[..|values| - 1]);
      assert values == values[..|values| - 1] + [values[|values| - 1]];
    }
  }

  lemma ColumnInProportion(values: seq<nat>, least: nat, greatest: nat)
    requires least in values && greatest in values && forall v :: v in values ==> least <= v <= greatest
    ensures |Column(values)| == |values|
    ensures forall i :: 0 <= i < |values| ==> InProportion(Column(values)[i], values[i], least, greatest)
  {
    Extremes(values);
    ExtremesTaken(values);
    assert least == Low(values) && greatest == High(values);
    forall i | 0 <= i < |values| ensures InProportion(Column(values)[i], values[i], least, greatest) {
      NormalisedInProportion(values[i], least, greatest);
    }
  }

  lemma ShortsInRange(products: seq<int>, events: seq<Event>, w: Window, least: nat, greatest: nat)
    ensures ShortRange(products, events, w, least, greatest) <==>
            var values := ShortCounts(products, events, w);
            least in values && greatest in values && forall v :: v in values ==> least <= v <= greatest
  {
    hide ShortCount;
    var values := ShortCounts(products, events, w);
    assert forall i :: 0 <= i < |products| ==> products[i] in products && values[i] in values;
  }

  lemma LongsInRange(products: seq<int>, events: seq<Event>, w: Window, least: nat, greatest: nat)
    ensures LongRange(products, events, w, least, greatest) <==>
            var values := LongCounts(products, events, w);
            least in values && greatest in values && forall v :: v in values ==> least <= v <= greatest
  {
    hide LongCount;
    var values := LongCounts(products, events, w);
    assert forall i :: 0 <= i < |products| ==> products[i] in products && values[i] in values;
  }

  lemma RangesExist(products: seq<int>, events: seq<Event>, w: Window)
    requires products != []
    ensures exists least, greatest :: ShortRange(products, events, w, least, greatest)
    ensures exists least, greatest :: LongRange(products, events, w, least, greatest)
  {
    hide ShortRange, LongRange;
    var shorts, longs := ShortCounts(products, events, w), LongCounts(products, events, w);
    Extremes(shorts);
    Extremes(longs);
    ExtremesTaken(shorts);
    ExtremesTaken(longs);
    ShortsInRange(products, events, w, Low(shorts), High(shorts));
    LongsInRange(products, events, w, Low(longs), High(longs));
  }

  /** The row a product must get, whatever its place in the ranking. */
  ghost predicate RowFor(row: TrendRow, products: seq<int>, events: seq<Event>, w: Window) {
    && row.productId in products
    && row.shortCount == ShortCount(events, row.productId, w)
    && row.longCount == LongCount(events, row.productId, w)
    && row.shortCount <= row.longCount
    && 0.0 <= row.normShort <= 1.0 && 0.0 <= row.normLong <= 1.0 && 0.0 <= row.score <= 1.0
    && (forall least, greatest :: ShortRange(products, events, w, least, greatest) ==>
          InProportion(row.normShort, row.shortCount, least, greatest))
    && (forall least, greatest :: LongRange(products, events, w, least, greatest) ==>
          InProportion(row.normLong, row.longCount, least, greatest))
    && row.score == 0.7 * row.normShort + 0.3 * row.normLong
  }

  lemma RowsHold(products: seq<int>, events: seq<Event>, w: Window)
    ensures var rows := RowsOf(products, ShortCounts(products, events, w), LongCounts(products, events, w));
            forall row :: row in rows ==> RowFor(row, products, events, w)
  {
    hide Column, ShortCount, LongCount, ShortRange, LongRange, InProportion, ShortCounts, LongCounts;
    var shorts, longs := ShortCounts(products, events, w), LongCounts(products, events, w);
    ColumnRange(shorts);
    ColumnRange(longs);
    CountsByProduct(products, events, w);
    var rows := RowsOf(products, shorts, longs);
    forall i | 0 <= i < |rows| ensures RowFor(rows[i], products, events, w) {
      ShortAtMostLong(events, products[i], w);
      forall least, greatest | ShortRange(products, events, w, least, greatest)
        ensures InProportion(Column(shorts)[i], shorts[i], least, greatest)
      {
        ShortsInRange(products, events, w, least, greatest);
        ColumnInProportion(shorts, least, greatest);
      }
      forall least, greatest | LongRange(products, events, w, least, greatest)
        ensures InProportion(Column(longs)[i], longs[i], least, greatest)
      {
        LongsInRange(products, events, w, least, greatest);
        ColumnInProportion(longs, least, greatest);
      }
    }
  }

  lemma CountsByProduct(products: seq<int>, events: seq<Event>, w: Window)
    ensures |ShortCounts(products, events, w)| == |LongCounts(products, events, w)| == |products|
    ensures forall i :: 0 <= i < |products| ==>
              && ShortCounts(products, events, w)[i] == ShortCount(events, products[i], w)
              && LongCounts(products, events, w)[i] == LongCount(events, products[i], w)
  {
  }

  /**
   The rows returned before truncation: each product once, ranks 1.., by falling score and then rising
   product ID. Norms are the counts in proportion between the extremes over all products.
   */
  lemma TrendIsTheOrder(products: seq<int>, events: seq<Event>, w: Window)
    requires Distinct(products)
    ensures var r := Trend(products, ShortCounts(products, events, w), LongCounts(products, events, w));
            && (forall i :: 0 <= i < |r| ==> r[i].rank == i + 1 && RowFor(r[i], products, events, w))
            && (forall i, j :: 0 <= i < |r| && 0 <= j < |r| ==>
                  (i < j <==> r[i].score > r[j].score || (r[i].score == r[j].score && r[i].productId < r[j].productId)))
            && (forall p :: p in products ==> exists i :: 0 <= i < |r| && r[i].productId == p)
    ensures products != [] ==>
              && (exists least, greatest :: ShortRange(products, events, w, least, greatest))
              && (exists least, greatest :: LongRange(products, events, w, least, greatest))
  {
    hide RowFor, ShortRange, LongRange;
    var rows := RowsOf(products, ShortCounts(products, events, w), LongCounts(products, events, w));
    var sorted := Sort(rows, KeyOf);
    var r := Numbered(sorted);
    SortHolds(rows, KeyOf);
    SameElements(rows, sorted);
    RowsHold(products, events, w);
    if products != [] {
      RangesExist(products, events, w);
    }
    UniqueIdsPermuted(rows, sorted, KeyOf);
    forall i | 0 <= i < |r| ensures r[i].rank == i + 1 && RowFor(r[i], products, events, w) {
      hide *;
      assert sorted[i] in sorted;
      NumberedRow(sorted, i, products, events, w);
    }
    forall i, j | 0 <= i < |r| && 0 <= j < |r| ensures i < j <==> Precedes(KeyOf(r[i]), KeyOf(r[j])) {
      PositionIsPrecedence(sorted, KeyOf, i, j);
    }
    forall p | p in products ensures exists i :: 0 <= i < |r| && r[i].productId == p {
      var i :| 0 <= i < |products| && products[i] == p;
      assert rows[i] in rows && rows[i] in sorted;
      var j :| 0 <= j < |sorted| && sorted[j] == rows[i];
      assert r[j].productId == p;
    }
  }

  lemma NumberedRow(sorted: seq<TrendRow>, i: nat, products: seq<int>, events: seq<Event>, w: Window)
    requires i < |sorted| && RowFor(sorted[i], products, events, w)
    ensures |Numbered(sorted)| == |sorted| && Numbered(sorted)[i].rank == i + 1
    ensures RowFor(Numbered(sorted)[i], products, events, w)
  {
    hide ShortCount, LongCount, ShortRange, LongRange, InProportion;
  }
}
