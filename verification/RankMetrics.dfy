/** Two recommendation rankings compared at a fixed K (scripts/experiments/module4c_responsiveness.py). */
module RankMetrics {
  import opened Wrappers
  import opened Collections

  datatype Metrics = Metrics(
    comparisonK: int,
    candidateUniverse: seq<int>,
    sentinel: int,
    overlapCount: nat,
    jaccard: real,
    changedCount: nat,
    meanDisplacement: real)

  datatype Error = NonPositiveK | RepeatedProduct

  function Truncate(ids: seq<int>, k: nat): seq<int> {
    if |ids| <= k then ids else ids[..k]
  }

  predicate NoRepeats(ids: seq<int>) {
    |Elements(ids)| == |ids|
  }

  /** Rank by product, counted from one. */
  function Ranks(ids: seq<int>): (m: map<int, int>)
    ensures m.Keys == Elements(ids)
  {
    if ids == [] then map[]
    else Ranks(ids[..|ids| - 1])[ids[|ids| - 1] := |ids|]
  }

  function RankOr(ranks: map<int, int>, product: int, sentinel: int): int {
    if product in ranks then ranks[product] else sentinel
  }

  function Abs(x: int): nat {
    if x < 0 then -x else x
  }

  function SumAlong(universe: seq<int>, f: int -> int): int {
    if universe == [] then 0
    else SumAlong(universe[..|universe| - 1], f) + f(universe[|universe| - 1])
  }

  /** The before and after ranks of one candidate, as an absolute difference. */
  function Displacement(before: map<int, int>, after: map<int, int>, sentinel: int): int -> int {
    p => Abs(RankOr(before, p, sentinel) - RankOr(after, p, sentinel)) as int
  }

  function ChangedRanks(before: map<int, int>, after: map<int, int>, sentinel: int): set<int> {
    set p | p in before.Keys + after.Keys && RankOr(before, p, sentinel) != RankOr(after, p, sentinel)
  }

  function Mean(total: int, count: nat): real {
    if count == 0 then 0.0 else total as real / count as real
  }

  function Jaccard(overlap: nat, union: nat): real {
    if union == 0 then 1.0 else overlap as real / union as real
  }

  /**
   A product that one list lacks takes the sentinel rank K + 1, which makes the summed displacement the
   footrule distance between top-K lists.
   */
  function Compare(baseline: seq<int>, changed: seq<int>, k: nat): Metrics {
    var before, after := Ranks(baseline), Ranks(changed);
    var listed := Ascending(before.Keys + after.Keys);
    var overlap := |Elements(baseline) * Elements(changed)|;
    Metrics(
      k, listed, k + 1, overlap, Jaccard(overlap, |Elements(baseline) + Elements(changed)|),
      |ChangedRanks(before, after, k + 1)|,
      Mean(SumAlong(listed, Displacement(before, after, k + 1)), |listed|))
  }

  function CalculateRankMetrics(baselineIds: seq<int>, changedIds: seq<int>, k: int): Result<Metrics, Error> {
    if k <= 0 then Failure(NonPositiveK)
    else
      var baseline, changed := Truncate(baselineIds, k), Truncate(changedIds, k);
      if !NoRepeats(baseline) || !NoRepeats(changed) then Failure(RepeatedProduct)
      else Success(Compare(baseline, changed, k))
  }

  /** The summed displacement: the published mean times the number of candidates. */
  function TotalDisplacement(m: Metrics): real {
    m.meanDisplacement * |m.candidateUniverse| as real
  }

  // ----- the reference definition, by position in the list -----

  /** How far above the sentinel a list places a product: K for the first place, zero when unlisted. */
  ghost function Credit(ids: seq<int>, k: nat, p: int): int
    requires |ids| <= k
  {
    if ids == [] then 0
    else if ids[|ids| - 1] == p then k - (|ids| - 1)
    else Credit(ids[..|ids| - 1], k, p)
  }

  ghost function Gap(a: seq<int>, b: seq<int>, k: nat): int -> int
    requires |a| <= k && |b| <= k
  {
    p => Abs(Credit(a, k, p) - Credit(b, k, p)) as int
  }

  ghost function Signed(a: seq<int>, b: seq<int>, k: nat): int -> int
    requires |a| <= k && |b| <= k
  {
    p => Credit(a, k, p) - Credit(b, k, p)
  }

  ghost function Credits(a: seq<int>, k: nat): int -> int
    requires |a| <= k
  {
    p => Credit(a, k, p)
  }

  ghost function Footrule(a: seq<int>, b: seq<int>, k: nat): int
    requires |a| <= k && |b| <= k
  {
    SumOver(Elements(a) + Elements(b), Gap(a, b, k))
  }

  lemma NoRepeatsMeansDistinct(ids: seq<int>)
    ensures NoRepeats(ids) <==> Distinct(ids)
  {
    if Distinct(ids) {
      DistinctSize(ids);
    } else {
      var i, j :| 0 <= i < j < |ids| && ids[i] == ids[j];
      var shorter := ids[..i] + ids[i + 1..];
      assert shorter[j - 1] == ids[j];
      forall x | x in ids ensures x in shorter {
        var n :| 0 <= n < |ids| && ids[n] == x;
        if n < i {
          assert shorter[n] == x;
        } else if n > i {
          assert shorter[n - 1] == x;
        }
      }
      assert Elements(ids) == Elements(shorter);
      ElementsAtMostLength(shorter);
    }
  }

  lemma {:induction false} RankAndCredit(ids: seq<int>, k: nat, p: int)
    requires |ids| <= k
    ensures RankOr(Ranks(ids), p, k + 1) == k + 1 - Credit(ids, k, p)
    ensures 0 <= Credit(ids, k, p) <= k
    ensures p in ids <==> Credit(ids, k, p) > 0
  {
    if ids != [] {
      var last := |ids| - 1;
      RankAndCredit(ids[..last], k, p);
      assert ids == ids[..last] + [ids[last]];
    }
  }

  lemma {:induction false} CreditIsPosition(ids: seq<int>, k: nat, i: nat)
    requires Distinct(ids) && i < |ids| <= k
    ensures Credit(ids, k, ids[i]) == k - i
  {
    if i < |ids| - 1 {
      CreditIsPosition(ids[..|ids| - 1], k, i);
    }
  }

  lemma {:induction false} SumAlongIsSumOver(universe: seq<int>, f: int -> int)
    requires Distinct(universe)
    ensures SumAlong(universe, f) == SumOver(Elements(universe), f)
  {
    if universe != [] {
      var last := |universe| - 1;
      SumAlongIsSumOver(universe[..last], f);
      SumRemove(Elements(universe), f, universe[last]);
      assert universe == universe[..last] + [universe[last]];
      assert Elements(universe) - {universe[last]} == Elements(universe[..last]);
    }
  }

  /** What a successful comparison reports, in terms of the two truncated lists alone. */
  ghost predicate Reports(m: Metrics, a: seq<int>, b: seq<int>, k: nat)
    requires |a| <= k && |b| <= k
  {
    && m.comparisonK == k && m.sentinel == k + 1
    && Elements(m.candidateUniverse) == Elements(a) + Elements(b)
    && |m.candidateUniverse| == |Elements(a) + Elements(b)|
    && m.overlapCount == |Elements(a) * Elements(b)|
    && m.changedCount == |Moved(a, b, k)|
    && TotalDisplacement(m) == Footrule(a, b, k) as real
  }

  ghost function Moved(a: seq<int>, b: seq<int>, k: nat): set<int>
    requires |a| <= k && |b| <= k
  {
    set p | p in Elements(a) + Elements(b) && Credit(a, k, p) != Credit(b, k, p)
  }

  lemma MeanTimesCount(m: Metrics, total: int, count: nat)
    requires count == 0 ==> total == 0
    requires m.meanDisplacement == Mean(total, count) && |m.candidateUniverse| == count
    ensures TotalDisplacement(m) == total as real
  {
  }

  lemma RanksAndCredits(a: seq<int>, b: seq<int>, k: nat)
    requires |a| <= k && |b| <= k
    ensures forall p :: Displacement(Ranks(a), Ranks(b), k + 1)(p) == Gap(a, b, k)(p)
    ensures ChangedRanks(Ranks(a), Ranks(b), k + 1) == Moved(a, b, k)
  {
    forall p ensures RankOr(Ranks(a), p, k + 1) - RankOr(Ranks(b), p, k + 1) == Credit(b, k, p) - Credit(a, k, p) {
      RankAndCredit(a, k, p);
      RankAndCredit(b, k, p);
    }
  }

  lemma SummedDisplacement(a: seq<int>, b: seq<int>, k: nat)
    requires |a| <= k && |b| <= k
    ensures var universe := Elements(a) + Elements(b);
            && SumAlong(Ascending(universe), Displacement(Ranks(a), Ranks(b), k + 1)) == Footrule(a, b, k)
            && Elements(Ascending(universe)) == universe
            && |Ascending(universe)| == |universe|
            && ChangedRanks(Ranks(a), Ranks(b), k + 1) == Moved(a, b, k)
  {
    var universe := Elements(a) + Elements(b);
    var displacement := Displacement(Ranks(a), Ranks(b), k + 1);
    AscendingLists(universe);
    DistinctSize(Ascending(universe));
    SumAlongIsSumOver(Ascending(universe), displacement);
    RanksAndCredits(a, b, k);
    SumPointwise(universe, displacement, Gap(a, b, k));
  }

  lemma ComparisonReports(a: seq<int>, b: seq<int>, k: nat)
    requires |a| <= k && |b| <= k
    ensures Reports(Compare(a, b, k), a, b, k)
  {
    SummedDisplacement(a, b, k);
    hide Footrule, Moved, ChangedRanks, SumAlong, Ascending;
    MeanTimesCount(Compare(a, b, k), Footrule(a, b, k), |Elements(a) + Elements(b)|);
  }

  /** The comparison succeeds exactly on a positive K with no repetition among the first K of either list. */
  lemma SucceedsExactly(x: seq<int>, y: seq<int>, k: int)
    ensures CalculateRankMetrics(x, y, k).Success?
            <==> k > 0 && Distinct(Truncate(x, k)) && Distinct(Truncate(y, k))
    ensures CalculateRankMetrics(x, y, k).Success?
            ==> Reports(CalculateRankMetrics(x, y, k).value, Truncate(x, k), Truncate(y, k), k)
    ensures CalculateRankMetrics(x, y, k).Success? ==>
              var universe := CalculateRankMetrics(x, y, k).value.candidateUniverse;
              forall i, j :: 0 <= i < j < |universe| ==> universe[i] < universe[j]
    ensures CalculateRankMetrics(x, y, k) == Failure(NonPositiveK) <==> k <= 0
    ensures k > 0 ==> Truncate(x, k) <= x && |Truncate(x, k)| == if |x| < k then |x| else k
  {
    hide Reports, Jaccard, Mean, ChangedRanks, Displacement, SumAlong, Ascending, Ranks, Elements, NoRepeats;
    if k > 0 {
      NoRepeatsMeansDistinct(Truncate(x, k));
      NoRepeatsMeansDistinct(Truncate(y, k));
      ComparisonReports(Truncate(x, k), Truncate(y, k), k);
      AscendingLists(Ranks(Truncate(x, k)).Keys + Ranks(Truncate(y, k)).Keys);
    }
  }

  // ----- the distance laws -----

  lemma FootruleOver(a: seq<int>, b: seq<int>, k: nat, s: set<int>)
    requires |a| <= k && |b| <= k
    requires Elements(a) + Elements(b) <= s
    ensures Footrule(a, b, k) == SumOver(s, Gap(a, b, k))
  {
    forall p | p !in Elements(a) + Elements(b) ensures Gap(a, b, k)(p) == 0 {
      RankAndCredit(a, k, p);
      RankAndCredit(b, k, p);
    }
    SumWiden(Elements(a) + Elements(b), s, Gap(a, b, k));
  }

  lemma EqualCreditsSamePlaces(a: seq<int>, b: seq<int>, k: nat)
    requires Distinct(a) && Distinct(b) && |a| <= k && |b| <= k
    requires forall p :: p in Elements(a) ==> Credit(a, k, p) == Credit(b, k, p)
    ensures |a| <= |b|
    ensures forall i :: 0 <= i < |a| ==> a[i] == b[i]
  {
    if |a| > |b| {
      assert a[|a| - 1] in Elements(a);
    }
    forall i | 0 <= i < |a| ensures i < |b| && a[i] == b[i] {
      CreditIsPosition(a, k, i);
      RankAndCredit(b, k, a[i]);
      assert a[i] in Elements(a);
      var j :| 0 <= j < |b| && b[j] == a[i];
      CreditIsPosition(b, k, j);
    }
  }

  lemma MovedNothing(a: seq<int>, b: seq<int>, k: nat)
    requires Distinct(a) && Distinct(b) && |a| <= k && |b| <= k
    ensures Moved(a, b, k) == {} <==> a == b
    ensures Footrule(a, b, k) == 0 <==> a == b
    ensures Footrule(a, b, k) >= 0
  {
    var s, zero := Elements(a) + Elements(b), (p: int) => 0;
    SumPointwise(s, zero, Gap(a, b, k));
    SumWiden({}, s, zero);
    assert SumOver({}, zero) == 0;
    if Moved(a, b, k) == {} || Footrule(a, b, k) == 0 {
      forall p | p in s ensures Credit(a, k, p) == Credit(b, k, p) {
        assert Moved(a, b, k) == {} ==> p !in Moved(a, b, k);
        assert Footrule(a, b, k) == 0 ==> Gap(a, b, k)(p) == zero(p);
      }
      EqualCreditsSamePlaces(a, b, k);
      EqualCreditsSamePlaces(b, a, k);
    }
  }

  /** Zero displacement, and no changed product, exactly on equal truncated lists. */
  lemma ZeroExactlyWhenEqual(x: seq<int>, y: seq<int>, k: int)
    requires CalculateRankMetrics(x, y, k).Success?
    ensures var m := CalculateRankMetrics(x, y, k).value;
            && TotalDisplacement(m) >= 0.0
            && (TotalDisplacement(m) == 0.0 <==> Truncate(x, k) == Truncate(y, k))
            && (m.changedCount == 0 <==> Truncate(x, k) == Truncate(y, k))
  {
    SucceedsExactly(x, y, k);
    MovedNothing(Truncate(x, k), Truncate(y, k), k);
  }

  lemma FootruleSymmetric(a: seq<int>, b: seq<int>, k: nat)
    requires |a| <= k && |b| <= k
    ensures Footrule(a, b, k) == Footrule(b, a, k)
    ensures Moved(a, b, k) == Moved(b, a, k)
  {
    assert Elements(a) + Elements(b) == Elements(b) + Elements(a);
    SumPointwise(Elements(a) + Elements(b), Gap(a, b, k), Gap(b, a, k));
  }

  lemma CompareSymmetric(a: seq<int>, b: seq<int>, k: nat)
    requires |a| <= k && |b| <= k
    ensures Compare(a, b, k) == Compare(b, a, k)
  {
    hide Footrule;
    hide Moved;
    FootruleSymmetric(a, b, k);
    SummedDisplacement(a, b, k);
    SummedDisplacement(b, a, k);
    assert Elements(a) + Elements(b) == Elements(b) + Elements(a);
    assert Elements(a) * Elements(b) == Elements(b) * Elements(a);
  }

  /** The whole report is symmetric in the two rankings. */
  lemma Symmetric(x: seq<int>, y: seq<int>, k: int)
    ensures CalculateRankMetrics(x, y, k) == CalculateRankMetrics(y, x, k)
  {
    if k > 0 {
      CompareSymmetric(Truncate(x, k), Truncate(y, k), k);
    }
  }

  lemma FootruleTriangle(a: seq<int>, b: seq<int>, c: seq<int>, k: nat)
    requires |a| <= k && |b| <= k && |c| <= k
    ensures Footrule(a, c, k) <= Footrule(a, b, k) + Footrule(b, c, k)
  {
    var s := Elements(a) + Elements(b) + Elements(c);
    FootruleOver(a, b, k, s);
    FootruleOver(b, c, k, s);
    FootruleOver(a, c, k, s);
    var detour := (p: int) => Gap(a, b, k)(p) + Gap(b, c, k)(p);
    SumAdd(s, Gap(a, b, k), Gap(b, c, k), detour);
    SumPointwise(s, Gap(a, c, k), detour);
  }

  lemma TotalIsFootrule(x: seq<int>, y: seq<int>, k: int)
    requires CalculateRankMetrics(x, y, k).Success?
    ensures k > 0 && Distinct(Truncate(x, k)) && Distinct(Truncate(y, k))
    ensures TotalDisplacement(CalculateRankMetrics(x, y, k).value)
         == Footrule(Truncate(x, k), Truncate(y, k), k) as real
  {
    SucceedsExactly(x, y, k);
  }

  /** At a common K the sentinel keeps the triangle inequality, even for lists of unequal length. */
  lemma Triangle(x: seq<int>, y: seq<int>, z: seq<int>, k: int)
    requires CalculateRankMetrics(x, y, k).Success? && CalculateRankMetrics(y, z, k).Success?
    ensures CalculateRankMetrics(x, z, k).Success?
    ensures TotalDisplacement(CalculateRankMetrics(x, z, k).value)
         <= TotalDisplacement(CalculateRankMetrics(x, y, k).value) + TotalDisplacement(CalculateRankMetrics(y, z, k).value)
  {
    hide CalculateRankMetrics, Reports, Footrule, TotalDisplacement;
    TotalIsFootrule(x, y, k);
    TotalIsFootrule(y, z, k);
    SucceedsExactly(x, z, k);
    TotalIsFootrule(x, z, k);
    FootruleTriangle(Truncate(x, k), Truncate(y, k), Truncate(z, k), k);
  }

  // ----- conservation of rank credit -----

  /** K + (K - 1) + ... over n places. */
  ghost function CreditOfLength(n: nat, k: nat): int {
    if n == 0 then 0 else CreditOfLength(n - 1, k) + k - (n - 1)
  }

  lemma {:induction false} CreditDependsOnLengthOnly(a: seq<int>, k: nat)
    requires Distinct(a) && |a| <= k
    ensures SumOver(Elements(a), Credits(a, k)) == CreditOfLength(|a|, k)
  {
    if a != [] {
      var last := |a| - 1;
      var shorter := a[..last];
      assert a == shorter + [a[last]];
      SumRemove(Elements(a), Credits(a, k), a[last]);
      assert Elements(a) - {a[last]} == Elements(shorter);
      SumPointwise(Elements(shorter), Credits(a, k), Credits(shorter, k));
      CreditDependsOnLengthOnly(shorter, k);
    }
  }

  lemma CreditOver(a: seq<int>, k: nat, s: set<int>)
    requires Distinct(a) && |a| <= k && Elements(a) <= s
    ensures SumOver(s, Credits(a, k)) == CreditOfLength(|a|, k)
  {
    forall p | p !in Elements(a) ensures Credit(a, k, p) == 0 {
      RankAndCredit(a, k, p);
    }
    SumWiden(Elements(a), s, Credits(a, k));
    CreditDependsOnLengthOnly(a, k);
  }

  /** Summed over the union, the signed rank changes depend only on the two lengths. */
  lemma SignedChangesDependOnLengths(a: seq<int>, b: seq<int>, k: nat)
    requires Distinct(a) && Distinct(b) && |a| <= k && |b| <= k
    ensures SumOver(Elements(a) + Elements(b), Signed(a, b, k)) == CreditOfLength(|a|, k) - CreditOfLength(|b|, k)
  {
    var s := Elements(a) + Elements(b);
    CreditOver(a, k, s);
    CreditOver(b, k, s);
    SumAdd(s, Signed(a, b, k), Credits(b, k), Credits(a, k));
  }

  lemma SurplusEven(a: seq<int>, b: seq<int>, k: nat, p: int)
    requires |a| <= k && |b| <= k
    ensures (Gap(a, b, k)(p) - Signed(a, b, k)(p)) % 2 == 0
  {
    assert Gap(a, b, k)(p) == Signed(a, b, k)(p) || Gap(a, b, k)(p) - Signed(a, b, k)(p) == -2 * Signed(a, b, k)(p);
  }

  lemma FootruleParity(a: seq<int>, b: seq<int>, k: nat)
    requires Distinct(a) && Distinct(b) && |a| == |b| <= k
    ensures SumOver(Elements(a) + Elements(b), Signed(a, b, k)) == 0
    ensures Footrule(a, b, k) % 2 == 0
  {
    var s := Elements(a) + Elements(b);
    SignedChangesDependOnLengths(a, b, k);
    var surplus := (p: int) => Gap(a, b, k)(p) - Signed(a, b, k)(p);
    forall p | p in s ensures surplus(p) % 2 == 0 {
      SurplusEven(a, b, k, p);
    }
    SumOfEven(s, surplus);
    SumAdd(s, Signed(a, b, k), surplus, Gap(a, b, k));
  }

  lemma SingleMove(a: seq<int>, b: seq<int>, k: nat, p: int)
    requires |a| <= k && |b| <= k && Moved(a, b, k) == {p}
    ensures SumOver(Elements(a) + Elements(b), Signed(a, b, k)) == Signed(a, b, k)(p) != 0
  {
    var s := Elements(a) + Elements(b);
    assert p in Moved(a, b, k);
    assert forall q :: q in s && q != p ==> q !in Moved(a, b, k);
    SumWiden({p}, s, Signed(a, b, k));
    SumRemove({p}, Signed(a, b, k), p);
    assert {p} - {p} == {};
  }

  lemma NoProductMovesAlone(a: seq<int>, b: seq<int>, k: nat)
    requires Distinct(a) && Distinct(b) && |a| == |b| <= k
    ensures |Moved(a, b, k)| != 1
  {
    FootruleParity(a, b, k);
    if |Moved(a, b, k)| == 1 {
      var p := Inhabitant(Moved(a, b, k));
      assert |Moved(a, b, k) - {p}| == 0;
      assert Moved(a, b, k) == {p};
      SingleMove(a, b, k, p);
    }
  }

  /** Equally long lists: the changes cancel, the total is even, and one product never moves alone. */
  lemma EqualLengthsConserveRank(x: seq<int>, y: seq<int>, k: int)
    requires CalculateRankMetrics(x, y, k).Success?
    requires |Truncate(x, k)| == |Truncate(y, k)|
    ensures var m := CalculateRankMetrics(x, y, k).value;
            var a, b := Truncate(x, k), Truncate(y, k);
            && SumOver(Elements(a) + Elements(b), Signed(a, b, k)) == 0
            && (exists half: int :: TotalDisplacement(m) == (2 * half) as real)
            && m.changedCount != 1
  {
    SucceedsExactly(x, y, k);
    var a, b := Truncate(x, k), Truncate(y, k);
    FootruleParity(a, b, k);
    NoProductMovesAlone(a, b, k);
    assert Footrule(a, b, k) == 2 * (Footrule(a, b, k) / 2);
  }

  lemma {:induction false} CreditClosedForm(n: nat, k: nat)
    requires n <= k
    ensures 2 * CreditOfLength(n, k) == k * (k + 1) - (k - n) * (k - n + 1)
  {
    if n > 0 {
      CreditClosedForm(n - 1, k);
      assert (k - n + 1) * (k - n + 2) == (k - n) * (k - n + 1) + 2 * (k - n + 1);
    }
  }

  lemma ProductOfSuccessive(x: nat)
    ensures x * (x + 1) >= 0
    ensures x * (x + 1) == 0 <==> x == 0
  {
  }

  lemma CreditLimit(n: nat, k: nat)
    requires n <= k
    ensures 2 * CreditOfLength(n, k) <= k * (k + 1)
    ensures 2 * CreditOfLength(n, k) == k * (k + 1) <==> n == k
  {
    CreditClosedForm(n, k);
    ProductOfSuccessive(k - n);
  }

  lemma SummedCredits(a: seq<int>, b: seq<int>, k: nat, both: int -> int)
    requires Distinct(a) && Distinct(b) && |a| <= k && |b| <= k
    requires forall p :: both(p) == Credit(a, k, p) + Credit(b, k, p)
    ensures SumOver(Elements(a) + Elements(b), both) <= k * (k + 1)
    ensures SumOver(Elements(a) + Elements(b), both) == k * (k + 1) <==> |a| == k && |b| == k
  {
    var s := Elements(a) + Elements(b);
    CreditOver(a, k, s);
    CreditOver(b, k, s);
    SumAdd(s, Credits(a, k), Credits(b, k), both);
    CreditLimit(|a|, k);
    CreditLimit(|b|, k);
  }

  lemma GapAgainstCredits(a: seq<int>, b: seq<int>, k: nat, p: int)
    requires |a| <= k && |b| <= k
    ensures Gap(a, b, k)(p) <= Credit(a, k, p) + Credit(b, k, p)
    ensures Gap(a, b, k)(p) == Credit(a, k, p) + Credit(b, k, p) <==> !(p in a && p in b)
  {
    RankAndCredit(a, k, p);
    RankAndCredit(b, k, p);
  }

  lemma FootruleBound(a: seq<int>, b: seq<int>, k: nat)
    requires Distinct(a) && Distinct(b) && |a| <= k && |b| <= k
    ensures Footrule(a, b, k) <= k * (k + 1)
    ensures Footrule(a, b, k) == k * (k + 1) <==> |a| == k && |b| == k && Elements(a) * Elements(b) == {}
  {
    var s := Elements(a) + Elements(b);
    var both := (p: int) => Credit(a, k, p) + Credit(b, k, p);
    forall p {
      GapAgainstCredits(a, b, k, p);
    }
    SumPointwise(s, Gap(a, b, k), both);
    SummedCredits(a, b, k, both);
    if Elements(a) * Elements(b) != {} {
      var p := Inhabitant(Elements(a) * Elements(b));
      assert p in s && Gap(a, b, k)(p) != both(p);
    } else {
      forall p | p in s ensures Gap(a, b, k)(p) == both(p) {
        assert p !in Elements(a) * Elements(b);
      }
    }
  }

  /** At most K(K + 1), reached exactly by two full lists with no product in common. */
  lemma DisplacementBound(x: seq<int>, y: seq<int>, k: int)
    requires CalculateRankMetrics(x, y, k).Success?
    ensures var m := CalculateRankMetrics(x, y, k).value;
            && TotalDisplacement(m) <= (k * (k + 1)) as real
            && (TotalDisplacement(m) == (k * (k + 1)) as real
                <==> |Truncate(x, k)| == k && |Truncate(y, k)| == k && m.overlapCount == 0)
  {
    SucceedsExactly(x, y, k);
    FootruleBound(Truncate(x, k), Truncate(y, k), k);
  }

  /** A quotient by a positive number compares with a bound as the numerator compares with its multiple. */
  lemma QuotientAgainst(x: real, y: real, bound: real)
    requires y > 0.0
    ensures x / y < bound <==> x < bound * y
    ensures x / y > bound <==> x > bound * y
  {
    var q := x / y;
    assert q * y == x;
    assert (q - bound) * y == x - bound * y;
    if q < bound {
      assert (bound - q) * y > 0.0;
    } else if q > bound {
      assert (q - bound) * y > 0.0;
    }
  }

  lemma JaccardRange(s: set<int>, t: set<int>)
    ensures 0.0 <= Jaccard(|s * t|, |s + t|) <= 1.0
    ensures Jaccard(|s * t|, |s + t|) == 1.0 <==> s == t
  {
    SameSizeSubset(s * t, s + t);
    assert s == t <==> s * t == s + t;
    if |s + t| != 0 {
      QuotientAgainst(|s * t| as real, |s + t| as real, 0.0);
      QuotientAgainst(|s * t| as real, |s + t| as real, 1.0);
    }
  }

  /** The overlap, the union and the Jaccard similarity agree with the two list lengths and contents. */
  lemma JaccardFromLists(x: seq<int>, y: seq<int>, k: int)
    requires CalculateRankMetrics(x, y, k).Success?
    ensures var m := CalculateRankMetrics(x, y, k).value;
            && m.overlapCount + |m.candidateUniverse| == |Truncate(x, k)| + |Truncate(y, k)|
            && 0.0 <= m.jaccard <= 1.0
            && (m.jaccard == 1.0 <==> Elements(Truncate(x, k)) == Elements(Truncate(y, k)))
  {
    SucceedsExactly(x, y, k);
    DistinctSize(Truncate(x, k));
    DistinctSize(Truncate(y, k));
    JaccardRange(Elements(Truncate(x, k)), Elements(Truncate(y, k)));
  }
}
