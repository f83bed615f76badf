/** Facts about finite sets and sequences that several components share. */
module Collections {

  ghost predicate Distinct<T>(s: seq<T>) {
    forall i, j :: 0 <= i < j < |s| ==> s[i] != s[j]
  }

  function Elements<T(==)>(s: seq<T>): set<T> {
    set x | x in s
  }

  lemma {:induction false} DistinctSize<T>(s: seq<T>)
    requires Distinct(s)
    ensures |Elements(s)| == |s|
  {
    if s != [] {
      var last := |s| - 1;
      DistinctSize(s[..last]);
      assert s == s[..last] + [s[last]];
      assert Elements(s) == Elements(s[..last]) + {s[last]};
    }
  }

  lemma {:induction false} ElementsAtMostLength<T>(s: seq<T>)
    ensures |Elements(s)| <= |s|
  {
    if s != [] {
      var last := |s| - 1;
      ElementsAtMostLength(s[..last]);
      assert s == s[..last] + [s[last]];
      assert Elements(s) == Elements(s[..last]) + {s[last]};
    }
  }

  ghost function ImageOf<T, K>(s: set<T>, f: T -> K): set<K> {
    set x | x in s :: f(x)
  }

  lemma {:induction false} ImageSize<T, K>(s: set<T>, f: T -> K)
    requires forall x, y :: x in s && y in s && f(x) == f(y) ==> x == y
    ensures |ImageOf(s, f)| == |s|
    decreases s
  {
    if s != {} {
      var x := Inhabitant(s);
      ImageSize(s - {x}, f);
      assert ImageOf(s, f) == ImageOf(s - {x}, f) + {f(x)};
    }
  }

  lemma SameSizeSubset<T>(s: set<T>, t: set<T>)
    requires s <= t
    ensures |s| <= |t|
    ensures |s| == |t| ==> s == t
  {
    assert t == s + (t - s);
  }

  lemma Singleton<T>(s: set<T>, x: T)
    requires |s| == 1 && x in s
    ensures s == {x}
  {
    assert |s - {x}| == 0;
  }

  lemma PrefixStep<T>(s: seq<T>, i: nat)
    requires i < |s|
    ensures s[..i + 1] == s[..i] + [s[i]]
    ensures s[..i + 1][..i] == s[..i]
  {
  }

  lemma Inhabitant<T>(s: set<T>) returns (x: T)
    requires s != {}
    ensures x in s
  {
    x :| x in s;
  }

  // ----- sequences without repetition, up to order -----

  ghost predicate DistinctBy<T, K(!new)>(s: seq<T>, key: T -> K) {
    forall i, j :: 0 <= i < j < |s| ==> key(s[i]) != key(s[j])
  }

  lemma DistinctByMember<T, K(!new)>(s: seq<T>, key: T -> K, x: T, y: T)
    requires DistinctBy(s, key) && x in s && y in s && key(x) == key(y)
    ensures x == y
  {
    var i :| 0 <= i < |s| && s[i] == x;
    var j :| 0 <= j < |s| && s[j] == y;
    assert i == j;
  }

  lemma {:induction false} DistinctMultiplicity<T>(s: seq<T>, x: T)
    requires Distinct(s)
    ensures multiset(s)[x] == if x in s then 1 else 0
  {
    if s != [] {
      var shorter, last := s[..|s| - 1], s[|s| - 1];
      assert s == shorter + [last];
      DistinctMultiplicity(shorter, x);
      assert multiset(s) == multiset(shorter) + multiset{last};
    }
  }

  /** Lists without repetition are permutations of each other exactly when their elements agree. */
  lemma DistinctPermutation<T>(a: seq<T>, b: seq<T>)
    requires Distinct(a) && Distinct(b)
    ensures multiset(a) == multiset(b) <==> Elements(a) == Elements(b)
  {
    if multiset(a) == multiset(b) {
      SameElements(a, b);
    }
    if Elements(a) == Elements(b) {
      forall x ensures multiset(a)[x] == multiset(b)[x] {
        DistinctMultiplicity(a, x);
        DistinctMultiplicity(b, x);
        assert x in a <==> x in Elements(a);
        assert x in b <==> x in Elements(b);
      }
    }
  }

  lemma SameElements<T>(a: seq<T>, b: seq<T>)
    requires multiset(a) == multiset(b)
    ensures |a| == |b|
    ensures Elements(a) == Elements(b)
    ensures forall x :: x in a <==> x in b
  {
    assert |multiset(a)| == |multiset(b)|;
    forall x ensures x in a <==> x in b {
      assert x in a <==> x in multiset(a);
      assert x in b <==> x in multiset(b);
    }
  }

  lemma DistinctByPermutation<T, K(!new)>(a: seq<T>, b: seq<T>, key: T -> K)
    requires DistinctBy(a, key) && multiset(a) == multiset(b)
    ensures DistinctBy(b, key)
  {
    SameElements(a, b);
    assert Distinct(a);
    forall i, j | 0 <= i < j < |b| ensures key(b[i]) != key(b[j]) {
      assert b[i] in b && b[j] in b;
      assert b[i] in a && b[j] in a;
      var p :| 0 <= p < |a| && a[p] == b[i];
      var q :| 0 <= q < |a| && a[q] == b[j];
      if p == q {
        DistinctMultiplicity(a, b[i]);
        TwicePresent(b, i, j);
      }
    }
  }

  lemma TwicePresent<T>(s: seq<T>, i: nat, j: nat)
    requires i < j < |s| && s[i] == s[j]
    ensures multiset(s)[s[i]] >= 2
  {
    assert s == s[..j] + s[j..];
    assert multiset(s) == multiset(s[..j]) + multiset(s[j..]);
    assert s[..j][i] == s[i] && s[j..][0] == s[j];
  }

  // ----- filtering -----

  function Filter<T>(s: seq<T>, keep: T -> bool): seq<T> {
    if s == [] then []
    else Filter(s[..|s| - 1], keep) + if keep(s[|s| - 1]) then [s[|s| - 1]] else []
  }

  /** The positions of what the filter keeps. */
  function Kept<T(!new)>(s: seq<T>, keep: T -> bool): set<int> {
    set i | 0 <= i < |s| && keep(s[i])
  }

  lemma {:induction false} FilterCounts<T(!new)>(s: seq<T>, keep: T -> bool)
    ensures |Filter(s, keep)| == |Kept(s, keep)|
  {
    if s != [] {
      var n := |s| - 1;
      FilterCounts(s[..n], keep);
      assert Kept(s, keep) == Kept(s[..n], keep) + if keep(s[n]) then {n} else {};
    }
  }

  lemma {:induction false} FilterHolds<T>(s: seq<T>, keep: T -> bool)
    ensures forall x :: x in Filter(s, keep) <==> x in s && keep(x)
    ensures |Filter(s, keep)| <= |s|
  {
    if s != [] {
      FilterHolds(s[..|s| - 1], keep);
      assert s == s[..|s| - 1] + [s[|s| - 1]];
    }
  }

  lemma {:induction false} FilterAgain<T>(s: seq<T>, first: T -> bool, second: T -> bool, both: T -> bool)
    requires forall x :: x in s ==> (both(x) <==> first(x) && second(x))
    ensures Filter(Filter(s, first), second) == Filter(s, both)
  {
    if s != [] {
      var earlier, last := s[..|s| - 1], s[|s| - 1];
      FilterAgain(earlier, first, second, both);
      if first(last) {
        assert Filter(s, first)[..|Filter(earlier, first)|] == Filter(earlier, first);
      } else {
        assert Filter(s, first) == Filter(earlier, first);
      }
    }
  }

  lemma {:induction false} FilterSame<T>(s: seq<T>, p: T -> bool, q: T -> bool)
    requires forall x :: x in s ==> (p(x) <==> q(x))
    ensures Filter(s, p) == Filter(s, q)
  {
    if s != [] {
      FilterSame(s[..|s| - 1], p, q);
    }
  }

  lemma SameEnding<T>(a: seq<T>, b: seq<T>, x: T)
    ensures a + [x] == b + [x] <==> a == b
  {
    if a + [x] == b + [x] {
      assert a == (a + [x])[..|a|] == (b + [x])[..|b|] == b;
    }
  }

  lemma {:induction false} FilterKeepsAll<T>(s: seq<T>, keep: T -> bool)
    ensures Filter(s, keep) == s <==> forall x :: x in s ==> keep(x)
  {
    if s != [] {
      var earlier, last := s[..|s| - 1], s[|s| - 1];
      assert s == earlier + [last];
      FilterKeepsAll(earlier, keep);
      if keep(last) {
        SameEnding(Filter(earlier, keep), earlier, last);
      } else {
        FilterHolds(earlier, keep);
      }
    }
  }

  lemma {:induction false} FilterMultiplicity<T>(s: seq<T>, keep: T -> bool, x: T)
    ensures multiset(Filter(s, keep))[x] == if keep(x) then multiset(s)[x] else 0
  {
    if s != [] {
      var earlier, last := s[..|s| - 1], s[|s| - 1];
      FilterMultiplicity(earlier, keep, x);
      assert s == earlier + [last];
      assert multiset(s) == multiset(earlier) + multiset{last};
    }
  }

  lemma OneFewer(m: nat, k: nat)
    requires m > 0
    ensures m * k - k == (m - 1) * k && m * k >= k
  {
    assert (m - 1) * k >= 0;
  }

  lemma MultisetMinus<T>(a: multiset<T>, b: multiset<T>, x: T)
    requires b[x] >= a[x]
    ensures (b - a)[x] == b[x] - a[x] && (a + (b - a))[x] == b[x]
  {
  }

  lemma {:induction false} MultisetScales<T(!new)>(a: multiset<T>, b: multiset<T>, m: nat)
    requires forall x :: b[x] == m * a[x]
    ensures |b| == m * |a|
  {
    if m == 0 {
      assert b == multiset{};
    } else {
      var rest := b - a;
      forall x ensures rest[x] == (m - 1) * a[x] && (a + rest)[x] == b[x] {
        OneFewer(m, a[x]);
        MultisetMinus(a, b, x);
      }
      MultisetScales(a, rest, m - 1);
      assert b == a + rest;
      OneFewer(m, |a|);
    }
  }

  /** If every element of `a` occurs `m` times as often in `b`, a filter keeps `m` times as many of `b`. */
  lemma FilterScales<T(!new)>(a: seq<T>, b: seq<T>, keep: T -> bool, m: nat)
    requires forall x :: multiset(b)[x] == m * multiset(a)[x]
    ensures |Filter(b, keep)| == m * |Filter(a, keep)|
  {
    forall x ensures multiset(Filter(b, keep))[x] == m * multiset(Filter(a, keep))[x] {
      FilterMultiplicity(a, keep, x);
      FilterMultiplicity(b, keep, x);
    }
    MultisetScales(multiset(Filter(a, keep)), multiset(Filter(b, keep)), m);
  }

  // ----- sums over finite sets -----

  ghost function SumOver<T(!new)>(s: set<T>, f: T -> int): int {
    if s == {} then 0 else var x :| x in s; f(x) + SumOver(s - {x}, f)
  }

  lemma {:induction false} SumRemove<T(!new)>(s: set<T>, f: T -> int, x: T)
    requires x in s
    ensures SumOver(s, f) == f(x) + SumOver(s - {x}, f)
    decreases s
  {
    var y :| y in s && SumOver(s, f) == f(y) + SumOver(s - {y}, f);
    if x != y {
      SumRemove(s - {y}, f, x);
      SumRemove(s - {x}, f, y);
      assert s - {y} - {x} == s - {x} - {y};
    }
  }

  lemma {:induction false} SumPointwise<T(!new)>(s: set<T>, f: T -> int, g: T -> int)
    requires forall x :: x in s ==> f(x) <= g(x)
    ensures SumOver(s, f) <= SumOver(s, g)
    ensures (forall x :: x in s ==> f(x) == g(x)) <==> SumOver(s, f) == SumOver(s, g)
    decreases s
  {
    if s != {} {
      var x :| x in s;
      SumRemove(s, f, x);
      SumRemove(s, g, x);
      SumPointwise(s - {x}, f, g);
    }
  }

  lemma {:induction false} SumAdd<T(!new)>(s: set<T>, f: T -> int, g: T -> int, h: T -> int)
    requires forall x :: x in s ==> h(x) == f(x) + g(x)
    ensures SumOver(s, h) == SumOver(s, f) + SumOver(s, g)
    decreases s
  {
    if s != {} {
      var x :| x in s;
      SumRemove(s, f, x);
      SumRemove(s, g, x);
      SumRemove(s, h, x);
      SumAdd(s - {x}, f, g, h);
    }
  }

  /** Elements that contribute nothing may be added to the index set. */
  lemma {:induction false} SumWiden<T(!new)>(s: set<T>, t: set<T>, f: T -> int)
    requires s <= t
    requires forall x :: x in t && x !in s ==> f(x) == 0
    ensures SumOver(s, f) == SumOver(t, f)
    decreases t
  {
    if s != t {
      assert t == s + (t - s);
      var x := Inhabitant(t - s);
      SumRemove(t, f, x);
      SumWiden(s, t - {x}, f);
    }
  }

  lemma {:induction false} SumOfEven<T(!new)>(s: set<T>, f: T -> int)
    requires forall x :: x in s ==> f(x) % 2 == 0
    ensures SumOver(s, f) % 2 == 0
    decreases s
  {
    if s != {} {
      var x := Inhabitant(s);
      SumRemove(s, f, x);
      SumOfEven(s - {x}, f);
    }
  }

  // ----- the ascending listing of a set of integers -----

  lemma {:induction false} LeastExists(s: set<int>)
    requires s != {}
    ensures exists m :: m in s && forall x :: x in s ==> m <= x
    decreases s
  {
    var y := Inhabitant(s);
    assert forall x :: x in s ==> x == y || x in s - {y};
    if s - {y} != {} {
      LeastExists(s - {y});
      var m :| m in s - {y} && forall x :: x in s - {y} ==> m <= x;
      assert m in s;
    }
  }

  function Least(s: set<int>): (m: int)
    requires s != {}
    ensures m in s && forall x :: x in s ==> m <= x
  {
    LeastExists(s);
    var m :| m in s && forall x :: x in s ==> m <= x;
    m
  }

  /** Python's `sorted` on a set of integers. */
  function Ascending(s: set<int>): seq<int>
    decreases s
  {
    if s == {} then [] else [Least(s)] + Ascending(s - {Least(s)})
  }

  lemma {:induction false} AscendingLists(s: set<int>)
    ensures forall x :: x in Ascending(s) <==> x in s
    ensures forall i, j :: 0 <= i < j < |Ascending(s)| ==> Ascending(s)[i] < Ascending(s)[j]
    ensures Elements(Ascending(s)) == s
    decreases s
  {
    if s != {} {
      var m, rest := Least(s), Ascending(s - {Least(s)});
      AscendingLists(s - {m});
      assert Ascending(s) == [m] + rest;
      forall i, j | 0 <= i < j < |Ascending(s)| ensures Ascending(s)[i] < Ascending(s)[j] {
        if i == 0 {
          assert rest[j - 1] in s - {m};
        } else {
          assert rest[i - 1] < rest[j - 1];
        }
      }
    }
  }

  // ----- some listing of a set -----

  ghost function Listing<T(!new)>(s: set<T>): seq<T> {
    if s == {} then [] else var x :| x in s; [x] + Listing(s - {x})
  }

  lemma {:induction false} ListingHolds<T(!new)>(s: set<T>)
    ensures Distinct(Listing(s)) && |Listing(s)| == |s|
    ensures forall x :: x in Listing(s) <==> x in s
    decreases s
  {
    if s != {} {
      var x :| x in s && Listing(s) == [x] + Listing(s - {x});
      ListingHolds(s - {x});
      var rest := Listing(s - {x});
      forall i, j | 0 <= i < j < |Listing(s)| ensures Listing(s)[i] != Listing(s)[j] {
        assert rest[j - 1] in rest;
        assert i > 0 ==> rest[i - 1] != rest[j - 1];
      }
      forall y ensures y in Listing(s) <==> y in s {
        assert y in Listing(s) <==> y == x || y in rest;
      }
    }
  }

  function IndexOf<T(==)>(s: seq<T>, x: T): nat {
    if s == [] || s[0] == x then 0 else 1 + IndexOf(s[1..], x)
  }

  lemma {:induction false} IndexHolds<T>(s: seq<T>, x: T)
    requires x in s
    ensures IndexOf(s, x) < |s| && s[IndexOf(s, x)] == x
  {
    if s[0] != x {
      IndexHolds(s[1..], x);
    }
  }
}
