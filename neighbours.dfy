/** The neighbour-selection rule `_N_i_j` of linear_program.py: pick a
    representative for point j at level i, then keep every indicator slot of
    level i whose scaled distance from the representative is within
    alpha * 2^-i. */
module NeighbourSelection {
  import opened LpModel

  /** The radius `alpha * 2 ** -i`, as an exact real. */
  function Radius(alpha: int, i: nat): real
  {
    (alpha as real) / (Pow(2, i) as real)
  }

  /** The index bounds the inputs must meet: a square distance matrix, every
      level's point ids inside it, and no level longer than the matrix (the
      slot position of a level is used as a column index). */
  predicate WellFormed(levels: seq<seq<nat>>, dist: seq<seq<real>>)
  {
    (forall a :: 0 <= a < |dist| ==> |dist[a]| == |dist|) &&
    (forall i :: 0 <= i < |levels| ==> |levels[i]| <= |dist|) &&
    (forall i, k :: 0 <= i < |levels| && 0 <= k < |levels[i]| ==> levels[i][k] < |dist|)
  }

  /** The position reached by the left-to-right scan with strict `<`:
      the first position whose point is nearest according to `row`. */
  function Nearest(level: seq<nat>, row: seq<real>): (p: nat)
    requires |level| > 0
    requires forall q :: 0 <= q < |level| ==> level[q] < |row|
    ensures p < |level|
    ensures forall q :: 0 <= q < |level| ==> row[level[p]] <= row[level[q]]
    ensures forall q :: 0 <= q < p ==> row[level[p]] < row[level[q]]
    decreases |level|
  {
    if |level| == 1 then 0
    else
      var p := Nearest(level[..|level| - 1], row);
      if row[level[|level| - 1]] < row[level[p]] then |level| - 1 else p
  }

  /** The `center` chosen for point j at a level; `row` is `dist[j]`. */
  function Representative(level: seq<nat>, row: seq<real>, j: nat): (center: nat)
    requires |level| > 0
    requires forall q :: 0 <= q < |level| ==> level[q] < |row|
    ensures j in level ==> center == j
    ensures j !in level ==> center in level
    ensures j !in level ==> forall q :: 0 <= q < |level| ==> row[center] <= row[level[q]]
    ensures j !in level ==>
      exists p :: 0 <= p < |level| && level[p] == center &&
        forall q :: 0 <= q < p ==> row[center] < row[level[q]]
  {
    if j in level then j else level[Nearest(level, row)]
  }

  /** The slots k < count, in increasing order, with row[k] <= radius. */
  function SelectedSlots(row: seq<real>, count: nat, radius: real): (s: seq<nat>)
    requires count <= |row|
    ensures |s| <= count
    ensures forall m :: 0 <= m < |s| ==> s[m] < count
    ensures forall a, b :: 0 <= a < b < |s| ==> s[a] < s[b]
    ensures forall k: nat :: k in s <==> k < count && row[k] <= radius
  {
    if count == 0 then []
    else SelectedSlots(row, count - 1, radius) + (if row[count - 1] <= radius then [count - 1] else [])
  }

  /** The indicator variables of level i at the given slots. */
  function SlotVars(i: nat, slots: seq<nat>): seq<LpVar>
  {
    seq(|slots|, m requires 0 <= m < |slots| => IndicatorVar(i, slots[m]))
  }

  /** The representative `_N_i_j` uses for point j at level i. */
  function Center(levels: seq<seq<nat>>, dist: seq<seq<real>>, i: nat, j: nat): (center: nat)
    requires WellFormed(levels, dist) && i < |levels| && j < |dist| && |levels[i]| > 0
    ensures center < |dist|
  {
    Representative(levels[i], dist[j], j)
  }

  /** The slots `_N_i_j` keeps. */
  function NeighbourSlots(levels: seq<seq<nat>>, dist: seq<seq<real>>, alpha: int, i: nat, j: nat): seq<nat>
    requires WellFormed(levels, dist) && i < |levels| && j < |dist| && |levels[i]| > 0
  {
    SelectedSlots(dist[Center(levels, dist, i, j)], |levels[i]|, Radius(alpha, i))
  }

  /** The list `_N_i_j(alpha, i, j)` returns. */
  function Neighbours(levels: seq<seq<nat>>, dist: seq<seq<real>>, alpha: int, i: nat, j: nat): seq<LpVar>
    requires WellFormed(levels, dist) && i < |levels| && j < |dist| && |levels[i]| > 0
  {
    SlotVars(i, NeighbourSlots(levels, dist, alpha, i, j))
  }

  /** The indicators of level i, in slot order: the list `z[i]`. */
  function LevelVars(i: nat, count: nat): seq<LpVar>
  {
    seq(count, k requires 0 <= k < count => IndicatorVar(i, k))
  }

  /** One more slot of the filter: slot k is kept exactly when row[k] <= radius. */
  lemma SelectedSlotsStep(i: nat, row: seq<real>, k: nat, radius: real)
    requires k < |row|
    ensures SlotVars(i, SelectedSlots(row, k + 1, radius)) ==
      SlotVars(i, SelectedSlots(row, k, radius)) + (if row[k] <= radius then [IndicatorVar(i, k)] else [])
  {
    var before := SelectedSlots(row, k, radius);
    if row[k] <= radius {
      assert SlotVars(i, before + [k]) == SlotVars(i, before) + [IndicatorVar(i, k)];
    } else {
      assert before + [] == before;
    }
  }

  /** `xs` is `ys` restricted to the increasing positions `idx`. */
  predicate OrderedSubsequence(xs: seq<LpVar>, ys: seq<LpVar>, idx: seq<nat>)
  {
    |idx| == |xs| &&
    (forall m :: 0 <= m < |idx| ==> idx[m] < |ys| && xs[m] == ys[idx[m]]) &&
    (forall a, b :: 0 <= a < b < |idx| ==> idx[a] < idx[b])
  }

  /** `_N_i_j` returns an order-preserving subsequence of `z[i]` that holds
      slot k exactly when `dist[center][k] <= alpha * 2^-i`; so it is no
      longer than `z[i]`. */
  lemma NeighboursSpec(levels: seq<seq<nat>>, dist: seq<seq<real>>, alpha: int, i: nat, j: nat)
    requires WellFormed(levels, dist) && i < |levels| && j < |dist| && |levels[i]| > 0
    ensures OrderedSubsequence(Neighbours(levels, dist, alpha, i, j), LevelVars(i, |levels[i]|),
                               NeighbourSlots(levels, dist, alpha, i, j))
    ensures |Neighbours(levels, dist, alpha, i, j)| <= |levels[i]|
    ensures forall k: nat :: IndicatorVar(i, k) in Neighbours(levels, dist, alpha, i, j) <==>
      k < |levels[i]| && dist[Center(levels, dist, i, j)][k] <= Radius(alpha, i)
  {
    var s := NeighbourSlots(levels, dist, alpha, i, j);
    var ns := Neighbours(levels, dist, alpha, i, j);
    forall k: nat
      ensures IndicatorVar(i, k) in ns <==> k in s
    {
      if IndicatorVar(i, k) in ns {
        var m :| 0 <= m < |ns| && ns[m] == IndicatorVar(i, k);
        assert s[m] == k;
      }
      if k in s {
        var m :| 0 <= m < |s| && s[m] == k;
        assert ns[m] == IndicatorVar(i, k);
      }
    }
  }

  /** The radius grows with alpha. */
  lemma RadiusMonotone(alpha1: int, alpha2: int, i: nat)
    requires alpha1 <= alpha2
    ensures Radius(alpha1, i) <= Radius(alpha2, i)
  {
    var p := Pow(2, i) as real;
    assert p > 0.0;
    assert (alpha2 as real) / p - (alpha1 as real) / p == ((alpha2 - alpha1) as real) / p;
  }

  /** A larger alpha keeps a superset of the slots. */
  lemma NeighboursGrowWithAlpha(levels: seq<seq<nat>>, dist: seq<seq<real>>, alpha1: int, alpha2: int, i: nat, j: nat)
    requires WellFormed(levels, dist) && i < |levels| && j < |dist| && |levels[i]| > 0
    requires alpha1 <= alpha2
    ensures forall v :: v in Neighbours(levels, dist, alpha1, i, j) ==> v in Neighbours(levels, dist, alpha2, i, j)
  {
    RadiusMonotone(alpha1, alpha2, i);
    NeighboursSpec(levels, dist, alpha1, i, j);
    NeighboursSpec(levels, dist, alpha2, i, j);
    forall v | v in Neighbours(levels, dist, alpha1, i, j)
      ensures v in Neighbours(levels, dist, alpha2, i, j)
    {
      var ns := Neighbours(levels, dist, alpha1, i, j);
      var m :| 0 <= m < |ns| && ns[m] == v;
      assert v == IndicatorVar(i, NeighbourSlots(levels, dist, alpha1, i, j)[m]);
    }
  }

  /** When point j is a member of level i, the representative is j itself;
      so slot j is kept exactly when it exists and `dist[j][j]` is inside the
      radius.  The slot that holds the point j is not consulted: the matrix
      column is the slot position. */
  lemma MemberIsOwnCenter(levels: seq<seq<nat>>, dist: seq<seq<real>>, alpha: int, i: nat, j: nat)
    requires WellFormed(levels, dist) && i < |levels| && j < |dist| && |levels[i]| > 0
    requires j in levels[i]
    ensures Center(levels, dist, i, j) == j
    ensures IndicatorVar(i, j) in Neighbours(levels, dist, alpha, i, j) <==>
      j < |levels[i]| && dist[j][j] <= Radius(alpha, i)
  {
    NeighboursSpec(levels, dist, alpha, i, j);
  }

  /** When j is not a member of level i, the representative is the first
      member of level i at the least distance from j. */
  lemma NonMemberCenterIsFirstNearest(levels: seq<seq<nat>>, dist: seq<seq<real>>, i: nat, j: nat)
    requires WellFormed(levels, dist) && i < |levels| && j < |dist| && |levels[i]| > 0
    requires j !in levels[i]
    ensures Center(levels, dist, i, j) == levels[i][Nearest(levels[i], dist[j])]
    ensures forall q :: 0 <= q < |levels[i]| ==>
      dist[j][Center(levels, dist, i, j)] <= dist[j][levels[i][q]]
    ensures forall q :: 0 <= q < Nearest(levels[i], dist[j]) ==>
      dist[j][Center(levels, dist, i, j)] < dist[j][levels[i][q]]
  {
  }

  /** A concrete instance of the slot-position indexing: point 1 is the only
      member of level 0, at slot 0, and it is at distance 5 from point 0; so
      `_N_i_j(1, 0, 1)` is empty although point 1 is its own representative. */
  lemma SlotIndexingExample()
    ensures Neighbours([[1]], [[0.0, 5.0], [5.0, 0.0]], 1, 0, 1) == []
  {
    var levels, dist := [[1]], [[0.0, 5.0], [5.0, 0.0]];
    assert 1 in levels[0];
    assert Center(levels, dist, 0, 1) == 1;
    assert Radius(1, 0) == 1.0;
    assert SelectedSlots(dist[1], 1, 1.0) == [];
  }
}
