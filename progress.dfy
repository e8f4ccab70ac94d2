/** The lesson-completion map and the numbers derived from it: which lessons
    are completed, how a click changes the map, how many lessons are
    completed, and the rounded completion percentage. */
module Progress {
  import Catalog
  import opened Wrappers

  /** Sparse map from lesson id to completion; a missing key means "not
      completed". */
  type CompletionMap = map<int, bool>

  /** The completed flag of one lesson (`progress[id] || false`). */
  function IsCompleted(m: CompletionMap, id: int): bool {
    id in m && m[id]
  }

  /** What a click on lesson `id` does to the map: the entry becomes the
      negation of the old flag, an absent entry counting as false. */
  function Toggle(m: CompletionMap, id: int): (r: CompletionMap)
    ensures r.Keys == m.Keys + {id}
    ensures id in r && r[id] == !IsCompleted(m, id)
    ensures forall k :: k in m && k != id ==> r[k] == m[k]
  {
    m[id := !IsCompleted(m, id)]
  }

  /** The keys whose value is true. */
  function CompletedIds(m: CompletionMap): set<int> {
    set k | k in m && m[k]
  }

  /** The number of true entries of the map (`Object.values(..).filter(..).length`). */
  function CompletedCount(m: CompletionMap): nat {
    |CompletedIds(m)|
  }

  /** Math.round(count / total * 100) for a non-negative count, in exact
      integer arithmetic: the quotient of 200*count + total by 2*total. The
      result is the integer nearest to 100 * count / total, a half rounding
      up. */
  function Percent(count: nat, total: nat): (p: nat)
    requires total > 0
    ensures 2 * total * p <= 200 * count + total
    ensures 200 * count + total < 2 * total * p + 2 * total
  {
    (200 * count + total) / (2 * total)
  }

  /** The JavaScript rounding rule for a real number: floor(x + 1/2), so
      halves round up. */
  function MathRound(x: real): int {
    (x + 0.5).Floor
  }

  /** The map read back from storage at start-up: a missing record gives the
      empty map (`JSON.parse(null) || {}`), a stored one is taken as it is. */
  function LoadProgress(stored: Option<CompletionMap>): CompletionMap {
    match stored
    case None => map[]
    case Some(saved) => saved
  }

  /** The map after a sequence of clicks, applied in order. */
  function ApplyClicks(m: CompletionMap, ids: seq<int>): CompletionMap
    decreases |ids|
  {
    if ids == [] then m else ApplyClicks(Toggle(m, ids[0]), ids[1..])
  }

  // ---------------------------------------------------------------------
  // Properties of a click

  /** A click on `id` flips that lesson's completed flag and leaves every
      other lesson's flag as it was. */
  lemma ToggleFlips(m: CompletionMap, id: int)
    ensures IsCompleted(Toggle(m, id), id) == !IsCompleted(m, id)
    ensures forall k :: k != id ==> IsCompleted(Toggle(m, id), k) == IsCompleted(m, k)
  {
  }

  /** Two clicks on the same lesson restore its completed flag and touch no
      other key; the entry is then present, holding the old flag, so a
      previously absent key ends as false rather than absent. */
  lemma ToggleTwice(m: CompletionMap, id: int)
    ensures Toggle(Toggle(m, id), id) == m[id := IsCompleted(m, id)]
    ensures IsCompleted(Toggle(Toggle(m, id), id), id) == IsCompleted(m, id)
    ensures id in m ==> Toggle(Toggle(m, id), id) == m
    ensures id !in m ==> Toggle(Toggle(m, id), id) == m[id := false]
    ensures CompletedCount(Toggle(Toggle(m, id), id)) == CompletedCount(m)
  {
    var twice := Toggle(Toggle(m, id), id);
    assert twice == m[id := IsCompleted(m, id)];
    assert CompletedIds(twice) == CompletedIds(m);
  }

  /** A click changes the completed count by exactly one: down when the
      lesson was completed, up when it was not. */
  lemma ToggleCount(m: CompletionMap, id: int)
    ensures IsCompleted(m, id) ==> CompletedCount(Toggle(m, id)) == CompletedCount(m) - 1
    ensures !IsCompleted(m, id) ==> CompletedCount(Toggle(m, id)) == CompletedCount(m) + 1
  {
    var before, after := CompletedIds(m), CompletedIds(Toggle(m, id));
    if IsCompleted(m, id) {
      assert after == before - {id};
    } else {
      assert after == before + {id};
    }
  }

  /** Clicks on catalog ids keep every key of the map a catalog id. */
  lemma {:induction false} ClicksStayInCatalog(m: CompletionMap, ids: seq<int>)
    requires m.Keys <= Catalog.LessonIds()
    requires forall i :: 0 <= i < |ids| ==> ids[i] in Catalog.LessonIds()
    ensures ApplyClicks(m, ids).Keys <= Catalog.LessonIds()
    decreases |ids|
  {
    if ids != [] {
      ClicksStayInCatalog(Toggle(m, ids[0]), ids[1..]);
    }
  }

  // ---------------------------------------------------------------------
  // Properties of the count and the percentage

  /** While the map's keys are catalog ids, at most TotalLessons lessons are
      completed. */
  lemma CountBounded(m: CompletionMap)
    requires m.Keys <= Catalog.LessonIds()
    ensures CompletedCount(m) <= Catalog.TotalLessons
  {
    Catalog.LessonIdsAreOneToTotal();
    SubsetCard(CompletedIds(m), Catalog.LessonIds());
  }

  lemma SubsetCard(a: set<int>, b: set<int>)
    requires a <= b
    ensures |a| <= |b|
  {
    assert b == a + (b - a);
  }

  /** `Percent` is `MathRound` of the exact quotient 100 * count / total. */
  lemma PercentIsMathRound(count: nat, total: nat)
    requires total > 0
    ensures Percent(count, total) == MathRound(count as real / total as real * 100.0)
  {
    var a, b := 200 * count + total, 2 * total;
    var y := count as real / total as real;
    assert y * total as real == count as real;
    var z := a as real / b as real;
    assert z * b as real == a as real;
    assert (y * 100.0 + 0.5) * b as real == a as real;
    Cancel(y * 100.0 + 0.5 - z, b as real);
    QuotientFloor(a, b);
  }

  /** For a non-negative numerator, integer division is the floor of real
      division. */
  lemma QuotientFloor(a: nat, b: nat)
    requires b > 0
    ensures (a as real / b as real).Floor == a / b
  {
    var q, r := a / b, a % b;
    assert a == b * q + r;
    assert a as real / b as real == q as real + r as real / b as real;
    assert 0.0 <= r as real / b as real < 1.0;
  }

  lemma Cancel(w: real, p: real)
    requires p > 0.0 && w * p == 0.0
    ensures w == 0.0
  {
  }

  /** More completed lessons never show a smaller percentage. */
  lemma PercentMonotone(c1: nat, c2: nat, total: nat)
    requires total > 0 && c1 <= c2
    ensures Percent(c1, total) <= Percent(c2, total)
  {
    DivMonotone(200 * c1 + total, 200 * c2 + total, 2 * total);
  }

  lemma {:induction false} MulMonotone(b: nat, x: int, y: int)
    requires x <= y
    ensures b * x <= b * y
    decreases b
  {
    if b > 0 {
      MulMonotone(b - 1, x, y);
      assert b * x == (b - 1) * x + x;
      assert b * y == (b - 1) * y + y;
    }
  }

  lemma DivMonotone(a1: nat, a2: nat, b: nat)
    requires b > 0 && a1 <= a2
    ensures a1 / b <= a2 / b
  {
    var q1, q2 := a1 / b, a2 / b;
    if q1 > q2 {
      MulMonotone(b, q2 + 1, q1);
      assert false;
    }
  }

  /** Integer division undoes a multiplication plus a remainder below the
      divisor. */
  lemma DivOfMulAdd(b: nat, q: nat, r: nat)
    requires 0 <= r < b
    ensures (b * q + r) / b == q
  {
    var q' := (b * q + r) / b;
    if q' < q {
      MulMonotone(b, q' + 1, q);
      assert false;
    } else if q' > q {
      MulMonotone(b, q + 1, q');
      assert false;
    }
  }

  /** No lesson done shows 0 percent, all of them done shows 100, and any
      count in between stays within 0..100. */
  lemma PercentRange(count: nat, total: nat)
    requires total > 0 && count <= total
    ensures Percent(count, total) <= 100
    ensures count == 0 ==> Percent(count, total) == 0
    ensures count == total ==> Percent(count, total) == 100
  {
    PercentMonotone(count, total, total);
    DivOfMulAdd(2 * total, 100, total);
    assert 200 * total + total == 2 * total * 100 + total;
    DivOfMulAdd(2 * total, 0, total);
  }

  /** The five possible counts of the catalog and the percentages shown. */
  lemma PercentTable()
    ensures Percent(0, 5) == 0 && Percent(1, 5) == 20 && Percent(2, 5) == 40
    ensures Percent(3, 5) == 60 && Percent(4, 5) == 80 && Percent(5, 5) == 100
  {
  }

  /** Starting from the empty map, clicks on catalog lessons keep the count
      within 0..TotalLessons and the percentage within 0..100. */
  lemma FromEmptyBounded(ids: seq<int>)
    requires forall i :: 0 <= i < |ids| ==> ids[i] in Catalog.LessonIds()
    ensures CompletedCount(ApplyClicks(map[], ids)) <= Catalog.TotalLessons
    ensures Percent(CompletedCount(ApplyClicks(map[], ids)), Catalog.TotalLessons) <= 100
  {
    var empty: CompletionMap := map[];
    ClicksStayInCatalog(empty, ids);
    CountBounded(ApplyClicks(empty, ids));
    PercentRange(CompletedCount(ApplyClicks(empty, ids)), Catalog.TotalLessons);
  }

  /** From an empty map, clicking lessons 1 and 3 completes two lessons and
      shows 40 percent. */
  lemma TwoClicksScenario()
    ensures CompletedCount(ApplyClicks(map[], [1, 3])) == 2
    ensures Percent(CompletedCount(ApplyClicks(map[], [1, 3])), Catalog.TotalLessons) == 40
  {
    var empty: CompletionMap := map[];
    assert ApplyClicks(empty, [1, 3]) == map[1 := true, 3 := true] by {
      assert [1, 3][1..] == [3];
      assert ([1, 3][1..])[1..] == [];
    }
    assert CompletedIds(map[1 := true, 3 := true]) == {1, 3};
  }
}
