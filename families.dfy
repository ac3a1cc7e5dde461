/** The constraint families (10), (11), (12), (13), (15) and (16) that
    `LinearProgram.solve` appends, each as the list its nested loops produce,
    with the facts the loops guarantee: how many constraints each family
    emits, exactly which ones, and that no two share a name. */
module Families {
  import opened LpModel
  import opened NeighbourSelection

  /** The scale factors, in the order the family (11) loop visits them. */
  const Alphas: seq<int> := [7, 24, 75, 588, 612]

  /** `d_tag = 4 * d + 1`. */
  function DTag(d: int): int { 4 * d + 1 }

  /** `b ** e` for an integer base b > 0: an exact integer when e >= 0 and
      its reciprocal when e < 0. */
  function PowReal(b: nat, e: int): (r: real)
    requires b > 0
    ensures r > 0.0
  {
    if e >= 0 then Pow(b, e) as real else 1.0 / (Pow(b, -e) as real)
  }

  /** `2 ** -i`. */
  function TwoToMinus(i: nat): (r: real)
    ensures r > 0.0
  {
    1.0 / (Pow(2, i) as real)
  }

  /** The right-hand side `(2 * alpha) ** d_tag` of family (11). */
  function PackingBound(alpha: nat, d: int): real
    requires alpha > 0
  {
    PowReal(2 * alpha, DTag(d))
  }

  /** The coefficient `1 / (2 * 24) ** d_tag` of family (13). */
  function GrowthCoeff(d: int): real
  {
    1.0 / PowReal(48, DTag(d))
  }

  /** The inputs of one build: the levels of the hierarchy, the scaled
      distance matrix, n = |S|, the dimension parameter d and delta. */
  datatype Instance = Instance(levels: seq<seq<nat>>, dist: seq<seq<real>>, n: nat, d: int, delta: real,
                               nb: (int, nat, nat) -> seq<LpVar>)

  /** `_N_i_j` over the given levels and matrix as a total function of
      (alpha, i, j), with [] for the arguments outside its domain. */
  function NeighbourOracle(levels: seq<seq<nat>>, dist: seq<seq<real>>): (int, nat, nat) -> seq<LpVar>
  {
    (alpha: int, i: nat, j: nat) =>
      if WellFormed(levels, dist) && i < |levels| && j < |dist| && |levels[i]| > 0
      then Neighbours(levels, dist, alpha, i, j) else []
  }

  /** `nb` gives the lists `_N_i_j` computes over these levels and matrix,
      wherever `_N_i_j` is defined.  The trigger keeps the fact dormant until
      a list `_N_i_j` computes is in view. */
  ghost predicate ComputesNeighbours(nb: (int, nat, nat) -> seq<LpVar>, levels: seq<seq<nat>>, dist: seq<seq<real>>)
  {
    forall alpha: int, i: nat, j: nat {:trigger Neighbours(levels, dist, alpha, i, j)} ::
      WellFormed(levels, dist) && i < |levels| && j < |dist| && |levels[i]| > 0 ==>
        nb(alpha, i, j) == Neighbours(levels, dist, alpha, i, j)
  }

  /** The oracle above computes the neighbour lists. */
  lemma OracleComputesNeighbours(levels: seq<seq<nat>>, dist: seq<seq<real>>)
    ensures ComputesNeighbours(NeighbourOracle(levels, dist), levels, dist)
  {
  }

  /** t, the index of the last level. */
  function Top(inst: Instance): nat
    requires |inst.levels| > 0
  {
    |inst.levels| - 1
  }

  /** Level sizes do not decrease: family (10) reads z[i+1][j] for every
      slot j of z[i]. */
  predicate LevelsGrow(levels: seq<seq<nat>>)
  {
    forall i :: 0 <= i < |levels| - 1 ==> |levels[i]| <= |levels[i + 1]|
  }

  /** What the reads of z[t][j] and the calls of `_N_i_j` need: at least
      one level; n <= |z[t]| (families (15) and (16) read z[t][j] for j < n);
      a non-empty level wherever a representative is looked up through
      `hierarchy[i][0]`, i.e. at every level as soon as some call is made;
      and the index bounds of the distance matrix. */
  predicate CallsInBounds(levels: seq<seq<nat>>, dist: seq<seq<real>>, n: nat)
  {
    |levels| > 0 && WellFormed(levels, dist) && n <= |levels[|levels| - 1]| &&
    (|levels[|levels| - 1]| > 0 ==> forall i :: 0 <= i < |levels| ==> |levels[i]| > 0)
  }

  /** What the loops of `solve` need of their inputs to run without an
      index error. */
  predicate Buildable(inst: Instance)
  {
    LevelsGrow(inst.levels) && CallsInBounds(inst.levels, inst.dist, inst.n)
  }

  /** Every call `solve` makes to `_N_i_j` stays inside its domain: the
      point is a row of the matrix and the level is non-empty. */
  lemma CallBounds(levels: seq<seq<nat>>, dist: seq<seq<real>>, n: nat, i: nat, j: nat)
    requires CallsInBounds(levels, dist, n) && i < |levels| && j < |levels[|levels| - 1]|
    ensures WellFormed(levels, dist) && j < |dist| && |levels[i]| > 0
  {
  }

  /** `_N_i_j(alpha, i, j)` for one of the calls `solve` makes. */
  function N(inst: Instance, alpha: int, i: nat, j: nat): seq<LpVar>
  {
    inst.nb(alpha, i, j)
  }

  // ---------------------------------------------------------------------
  // The single constraints.

  /** (10): `z[i][j] <= z[i+1][j]`. */
  function Monotone(i: nat, j: nat): Constraint
  {
    Constraint(Name(F10, [i, j]), [Term(1.0, IndicatorVar(i, j))], Le, [Term(1.0, IndicatorVar(i + 1, j))], 0.0)
  }

  /** (11): `sum N(alpha, i, j) <= (2 * alpha) ** d_tag`. */
  function Packing(inst: Instance, alpha: nat, j: nat, i: nat): Constraint
    requires |inst.levels| > 0 && alpha > 0 && i < |inst.levels| && j < inst.n
  {
    Constraint(Name(F11, [alpha, j, i]), Sum(N(inst, alpha, i, j), 1.0), Le, [], PackingBound(alpha, inst.d))
  }

  /** (12): `sum N(7, i, j) >= z[t][j]`. */
  function LowerCover(inst: Instance, j: nat, i: nat): Constraint
    requires |inst.levels| > 0 && i < |inst.levels| && j < |inst.levels[Top(inst)]|
  {
    Constraint(Name(F12, [j, i]), Sum(N(inst, 7, i, j), 1.0), Ge, [Term(1.0, IndicatorVar(Top(inst), j))], 0.0)
  }

  /** (13): `sum N(24, i, j) >= (1 / 48 ** d_tag) * sum N(24, k, j)`. */
  function NestedGrowth(inst: Instance, j: nat, k: nat, i: nat): Constraint
    requires |inst.levels| > 0 && i < k < |inst.levels| && j < inst.n
  {
    Constraint(Name(F13, [j, k, i]), Sum(N(inst, 24, i, j), 1.0), Ge,
               Sum(N(inst, 24, k, j), GrowthCoeff(inst.d)), 0.0)
  }

  /** (15): `delta * z[t][j] + c[j] >= delta`. */
  function SlackFloor(inst: Instance, j: nat): Constraint
    requires |inst.levels| > 0
  {
    Constraint(Name(F15, [j]), [Term(inst.delta, IndicatorVar(Top(inst), j)), Term(1.0, SlackVar(j))],
               Ge, [], inst.delta)
  }

  /** (16): `2 ** -i * z[t][j] + c[j] + delta * sum N(12, i, j) >= delta`. */
  function PerLevelSlack(inst: Instance, j: nat, i: nat): Constraint
    requires |inst.levels| > 0 && i < |inst.levels| && j < inst.n
  {
    Constraint(Name(F16, [j, i]),
               [Term(TwoToMinus(i), IndicatorVar(Top(inst), j)), Term(1.0, SlackVar(j))] + Sum(N(inst, 12, i, j), inst.delta),
               Ge, [], inst.delta)
  }

  // ---------------------------------------------------------------------
  // The loop bodies, one per loop, and the families they produce.

  /** (10), `for j in range(len(z[i]))`. */
  function MonotoneCell(i: nat): nat -> seq<Constraint>
  {
    (j: nat) => [Monotone(i, j)]
  }

  /** (10), `for i in range(t)`. */
  function MonotoneLoop(inst: Instance): nat --> seq<Constraint>
  {
    (i: nat) requires i < |inst.levels| => Flatten(|inst.levels[i]|, MonotoneCell(i))
  }

  function Family10(inst: Instance): seq<Constraint>
    requires |inst.levels| > 0
  {
    Flatten(Top(inst), MonotoneLoop(inst))
  }
  /** One more level of the loop (10). */
  lemma MonotoneLoopStep(inst: Instance, prefix: seq<Constraint>, i: nat)
    requires i < |inst.levels|
    ensures prefix + Flatten(i, MonotoneLoop(inst)) + Flatten(|inst.levels[i]|, MonotoneCell(i))
         == prefix + Flatten(i + 1, MonotoneLoop(inst))
  {
    FlattenStep(prefix, i, MonotoneLoop(inst), Flatten(|inst.levels[i]|, MonotoneCell(i)));
  }


  /** (11), `for i in range(t + 1)`. */
  function PackingCell(inst: Instance, alpha: nat, j: nat): nat --> seq<Constraint>
    requires |inst.levels| > 0 && alpha > 0 && j < inst.n
  {
    (i: nat) requires i < |inst.levels| => [Packing(inst, alpha, j, i)]
  }

  /** (11), `for j in range(n)`. */
  function PackingPointLoop(inst: Instance, alpha: nat): nat --> seq<Constraint>
    requires |inst.levels| > 0 && alpha > 0
  {
    (j: nat) requires j < inst.n => Flatten(|inst.levels|, PackingCell(inst, alpha, j))
  }

  /** (11), `for alpha in ALPHAS`, over the positions of ALPHAS. */
  function PackingAlphaLoop(inst: Instance): nat --> seq<Constraint>
    requires |inst.levels| > 0
  {
    (a: nat) requires a < |Alphas| => Flatten(inst.n, PackingPointLoop(inst, Alphas[a]))
  }

  function Family11(inst: Instance): seq<Constraint>
    requires |inst.levels| > 0
  {
    Flatten(|Alphas|, PackingAlphaLoop(inst))
  }

  /** (12), `for i in range(t + 1)`. */
  function LowerCoverCell(inst: Instance, j: nat): nat --> seq<Constraint>
    requires |inst.levels| > 0 && j < |inst.levels[Top(inst)]|
  {
    (i: nat) requires i < |inst.levels| => [LowerCover(inst, j, i)]
  }

  /** (12), `for j in range(len(z[t]))`. */
  function LowerCoverLoop(inst: Instance): nat --> seq<Constraint>
    requires |inst.levels| > 0
  {
    (j: nat) requires j < |inst.levels[Top(inst)]| => Flatten(|inst.levels|, LowerCoverCell(inst, j))
  }

  function Family12(inst: Instance): seq<Constraint>
    requires |inst.levels| > 0
  {
    Flatten(|inst.levels[Top(inst)]|, LowerCoverLoop(inst))
  }

  /** (13), `for i in range(k)`. */
  function GrowthCell(inst: Instance, j: nat, k: nat): nat --> seq<Constraint>
    requires |inst.levels| > 0 && j < inst.n && k < |inst.levels|
  {
    (i: nat) requires i < k => [NestedGrowth(inst, j, k, i)]
  }

  /** (13), `for k in range(t + 1)`. */
  function GrowthLevelLoop(inst: Instance, j: nat): nat --> seq<Constraint>
    requires |inst.levels| > 0 && j < inst.n
  {
    (k: nat) requires k < |inst.levels| => Flatten(k, GrowthCell(inst, j, k))
  }

  /** (13), `for j in range(n)`. */
  function GrowthPointLoop(inst: Instance): nat --> seq<Constraint>
    requires |inst.levels| > 0
  {
    (j: nat) requires j < inst.n => Flatten(|inst.levels|, GrowthLevelLoop(inst, j))
  }

  function Family13(inst: Instance): seq<Constraint>
    requires |inst.levels| > 0
  {
    Flatten(inst.n, GrowthPointLoop(inst))
  }

  /** (15), `for j in range(n)`. */
  function SlackFloorLoop(inst: Instance): nat -> seq<Constraint>
    requires |inst.levels| > 0
  {
    (j: nat) => [SlackFloor(inst, j)]
  }

  function Family15(inst: Instance): seq<Constraint>
    requires |inst.levels| > 0
  {
    Flatten(inst.n, SlackFloorLoop(inst))
  }

  /** (16), `for i in range(t + 1)`. */
  function PerLevelCell(inst: Instance, j: nat): nat --> seq<Constraint>
    requires |inst.levels| > 0 && j < inst.n
  {
    (i: nat) requires i < |inst.levels| => [PerLevelSlack(inst, j, i)]
  }

  /** (16), `for j in range(n)`. */
  function PerLevelLoop(inst: Instance): nat --> seq<Constraint>
    requires |inst.levels| > 0
  {
    (j: nat) requires j < inst.n => Flatten(|inst.levels|, PerLevelCell(inst, j))
  }

  function Family16(inst: Instance): seq<Constraint>
    requires |inst.levels| > 0
  {
    Flatten(inst.n, PerLevelLoop(inst))
  }

  // ---------------------------------------------------------------------
  // One more iteration of each loop appends that iteration's block.

  /** (10), one more iteration of `MonotoneCell`. */
  lemma MonotoneCellStep(i: nat, prefix: seq<Constraint>, j: nat)
    ensures prefix + Flatten(j, MonotoneCell(i)) + [Monotone(i, j)] == prefix + Flatten(j + 1, MonotoneCell(i))
  {
    FlattenStep(prefix, j, MonotoneCell(i), [Monotone(i, j)]);
  }

  /** (11), one more iteration of `PackingCell`. */
  lemma PackingCellStep(inst: Instance, alpha: nat, j: nat, prefix: seq<Constraint>, i: nat)
    requires |inst.levels| > 0 && alpha > 0 && j < inst.n && i < |inst.levels|
    ensures prefix + Flatten(i, PackingCell(inst, alpha, j)) + [Packing(inst, alpha, j, i)] == prefix + Flatten(i + 1, PackingCell(inst, alpha, j))
  {
    FlattenStep(prefix, i, PackingCell(inst, alpha, j), [Packing(inst, alpha, j, i)]);
  }

  /** (11), one more iteration of `PackingPointLoop`. */
  lemma PackingPointStep(inst: Instance, alpha: nat, prefix: seq<Constraint>, j: nat)
    requires |inst.levels| > 0 && alpha > 0 && j < inst.n
    ensures prefix + Flatten(j, PackingPointLoop(inst, alpha)) + Flatten(|inst.levels|, PackingCell(inst, alpha, j)) == prefix + Flatten(j + 1, PackingPointLoop(inst, alpha))
  {
    FlattenStep(prefix, j, PackingPointLoop(inst, alpha), Flatten(|inst.levels|, PackingCell(inst, alpha, j)));
  }

  /** (11), one more iteration of `PackingAlphaLoop`. */
  lemma PackingAlphaStep(inst: Instance, prefix: seq<Constraint>, a: nat)
    requires |inst.levels| > 0 && a < |Alphas|
    ensures prefix + Flatten(a, PackingAlphaLoop(inst)) + Flatten(inst.n, PackingPointLoop(inst, Alphas[a])) == prefix + Flatten(a + 1, PackingAlphaLoop(inst))
  {
    FlattenStep(prefix, a, PackingAlphaLoop(inst), Flatten(inst.n, PackingPointLoop(inst, Alphas[a])));
  }

  /** (12), one more iteration of `LowerCoverCell`. */
  lemma LowerCoverCellStep(inst: Instance, j: nat, prefix: seq<Constraint>, i: nat)
    requires |inst.levels| > 0 && j < |inst.levels[Top(inst)]| && i < |inst.levels|
    ensures prefix + Flatten(i, LowerCoverCell(inst, j)) + [LowerCover(inst, j, i)] == prefix + Flatten(i + 1, LowerCoverCell(inst, j))
  {
    FlattenStep(prefix, i, LowerCoverCell(inst, j), [LowerCover(inst, j, i)]);
  }

  /** (12), one more iteration of `LowerCoverLoop`. */
  lemma LowerCoverLoopStep(inst: Instance, prefix: seq<Constraint>, j: nat)
    requires |inst.levels| > 0 && j < |inst.levels[Top(inst)]|
    ensures prefix + Flatten(j, LowerCoverLoop(inst)) + Flatten(|inst.levels|, LowerCoverCell(inst, j)) == prefix + Flatten(j + 1, LowerCoverLoop(inst))
  {
    FlattenStep(prefix, j, LowerCoverLoop(inst), Flatten(|inst.levels|, LowerCoverCell(inst, j)));
  }

  /** (13), one more iteration of `GrowthCell`. */
  lemma GrowthCellStep(inst: Instance, j: nat, k: nat, prefix: seq<Constraint>, i: nat)
    requires |inst.levels| > 0 && j < inst.n && i < k < |inst.levels|
    ensures prefix + Flatten(i, GrowthCell(inst, j, k)) + [NestedGrowth(inst, j, k, i)] == prefix + Flatten(i + 1, GrowthCell(inst, j, k))
  {
    FlattenStep(prefix, i, GrowthCell(inst, j, k), [NestedGrowth(inst, j, k, i)]);
  }

  /** (13), one more iteration of `GrowthLevelLoop`. */
  lemma GrowthLevelStep(inst: Instance, j: nat, prefix: seq<Constraint>, k: nat)
    requires |inst.levels| > 0 && j < inst.n && k < |inst.levels|
    ensures prefix + Flatten(k, GrowthLevelLoop(inst, j)) + Flatten(k, GrowthCell(inst, j, k)) == prefix + Flatten(k + 1, GrowthLevelLoop(inst, j))
  {
    FlattenStep(prefix, k, GrowthLevelLoop(inst, j), Flatten(k, GrowthCell(inst, j, k)));
  }

  /** (13), one more iteration of `GrowthPointLoop`. */
  lemma GrowthPointStep(inst: Instance, prefix: seq<Constraint>, j: nat)
    requires |inst.levels| > 0 && j < inst.n
    ensures prefix + Flatten(j, GrowthPointLoop(inst)) + Flatten(|inst.levels|, GrowthLevelLoop(inst, j)) == prefix + Flatten(j + 1, GrowthPointLoop(inst))
  {
    FlattenStep(prefix, j, GrowthPointLoop(inst), Flatten(|inst.levels|, GrowthLevelLoop(inst, j)));
  }

  /** (15), one more iteration of `SlackFloorLoop`. */
  lemma SlackFloorStep(inst: Instance, prefix: seq<Constraint>, j: nat)
    requires |inst.levels| > 0
    ensures prefix + Flatten(j, SlackFloorLoop(inst)) + [SlackFloor(inst, j)] == prefix + Flatten(j + 1, SlackFloorLoop(inst))
  {
    FlattenStep(prefix, j, SlackFloorLoop(inst), [SlackFloor(inst, j)]);
  }

  /** (16), one more iteration of `PerLevelCell`. */
  lemma PerLevelCellStep(inst: Instance, j: nat, prefix: seq<Constraint>, i: nat)
    requires |inst.levels| > 0 && j < inst.n && i < |inst.levels|
    ensures prefix + Flatten(i, PerLevelCell(inst, j)) + [PerLevelSlack(inst, j, i)] == prefix + Flatten(i + 1, PerLevelCell(inst, j))
  {
    FlattenStep(prefix, i, PerLevelCell(inst, j), [PerLevelSlack(inst, j, i)]);
  }

  /** (16), one more iteration of `PerLevelLoop`. */
  lemma PerLevelLoopStep(inst: Instance, prefix: seq<Constraint>, j: nat)
    requires |inst.levels| > 0 && j < inst.n
    ensures prefix + Flatten(j, PerLevelLoop(inst)) + Flatten(|inst.levels|, PerLevelCell(inst, j)) == prefix + Flatten(j + 1, PerLevelLoop(inst))
  {
    FlattenStep(prefix, j, PerLevelLoop(inst), Flatten(|inst.levels|, PerLevelCell(inst, j)));
  }

  /** Every constraint `solve` adds, in the order it adds them. */
  function AllConstraints(inst: Instance): seq<Constraint>
    requires |inst.levels| > 0
  {
    Family10(inst) + Family11(inst) + Family12(inst) + Family13(inst) + Family15(inst) + Family16(inst)
  }

  /** The sum of the sizes of the first `upto` levels. */
  function LevelSizes(levels: seq<seq<nat>>, upto: nat): nat
    requires upto <= |levels|
  {
    if upto == 0 then 0 else LevelSizes(levels, upto - 1) + |levels[upto - 1]|
  }

  predicate Tagged(cs: seq<Constraint>, family: Family)
  {
    forall c :: c in cs ==> c.name.family == family
  }

  // ---------------------------------------------------------------------
  // Family (10).

  lemma MonotoneRowLength(i: nat, count: nat)
    ensures |Flatten(count, MonotoneCell(i))| == count
  {
    SingletonFlatten(count, MonotoneCell(i));
  }

  lemma MonotoneRowFacts(i: nat, count: nat)
    ensures |Flatten(count, MonotoneCell(i))| == count
    ensures DistinctNames(Flatten(count, MonotoneCell(i)))
    ensures forall c :: c in Flatten(count, MonotoneCell(i)) <==>
      exists j :: 0 <= j < count && c == Monotone(i, j)
  {
    var f := MonotoneCell(i);
    forall j | 0 <= j < count ensures f(j) == [Monotone(i, j)] { }
    SingletonFlatten(count, f);
    var s := Flatten(count, f);
    forall a, b | 0 <= a < b < |s| ensures s[a].name != s[b].name {
      assert s[a].name.index[1] != s[b].name.index[1];
    }
    forall c ensures c in s <==> exists j :: 0 <= j < count && c == Monotone(i, j) {
      if c in s {
        var j :| 0 <= j < |s| && s[j] == c;
      }
      if exists j :: 0 <= j < count && c == Monotone(i, j) {
        var j :| 0 <= j < count && c == Monotone(i, j);
        assert s[j] == c;
      }
    }
  }

  lemma {:induction false} MonotonePrefixLength(inst: Instance, upto: nat)
    requires upto < |inst.levels|
    ensures |Flatten(upto, MonotoneLoop(inst))| == LevelSizes(inst.levels, upto)
  {
    if upto > 0 {
      MonotonePrefixLength(inst, upto - 1);
      MonotoneRowLength(upto - 1, |inst.levels[upto - 1]|);
    }
  }

  lemma Family10Length(inst: Instance)
    requires |inst.levels| > 0
    ensures |Family10(inst)| == LevelSizes(inst.levels, Top(inst))
  {
    MonotonePrefixLength(inst, Top(inst));
  }

  /** Family (10) holds exactly `z[i][j] <= z[i+1][j]` for i < t and
      j < |z[i]|, under distinct names: the sum over i < t of |z[i]|. */
  lemma Family10Facts(inst: Instance)
    requires |inst.levels| > 0
    ensures |Family10(inst)| == LevelSizes(inst.levels, Top(inst))
    ensures DistinctNames(Family10(inst))
    ensures forall c :: c in Family10(inst) <==>
      exists i, j :: 0 <= i < Top(inst) && 0 <= j < |inst.levels[i]| && c == Monotone(i, j)
    ensures Tagged(Family10(inst), F10)
  {
    var f, count := MonotoneLoop(inst), Top(inst);
    var s := Flatten(count, f);
    Family10Length(inst);
    assert DistinctNames(s) by {
      forall i | 0 <= i < count
        ensures DistinctNames(f(i))
        ensures forall c :: c in f(i) ==> 0 < |c.name.index| && c.name.index[0] == Range(count)[i]
      {
        MonotoneRowFacts(i, |inst.levels[i]|);
        forall c | c in f(i) ensures 0 < |c.name.index| && c.name.index[0] == Range(count)[i] {
          var j :| 0 <= j < |inst.levels[i]| && c == Monotone(i, j);
        }
      }
      FlattenDistinct(count, f, 0, Range(count));
    }
    forall c ensures c in s <==> exists i, j :: 0 <= i < count && 0 <= j < |inst.levels[i]| && c == Monotone(i, j) {
      FlattenMember(count, f);
      if c in s {
        var i :| 0 <= i < count && c in f(i);
        MonotoneRowFacts(i, |inst.levels[i]|);
        var j :| 0 <= j < |inst.levels[i]| && c == Monotone(i, j);
      }
      if exists i, j :: 0 <= i < count && 0 <= j < |inst.levels[i]| && c == Monotone(i, j) {
        var i, j :| 0 <= i < count && 0 <= j < |inst.levels[i]| && c == Monotone(i, j);
        MonotoneRowFacts(i, |inst.levels[i]|);
        assert c in f(i);
      }
    }
  }

  // ---------------------------------------------------------------------
  // Family (11).

  lemma PackingCellLength(inst: Instance, alpha: nat, j: nat)
    requires |inst.levels| > 0 && alpha > 0 && j < inst.n
    ensures |Flatten(|inst.levels|, PackingCell(inst, alpha, j))| == |inst.levels|
  {
    SingletonFlatten(|inst.levels|, PackingCell(inst, alpha, j));
  }

  lemma PackingCellFacts(inst: Instance, alpha: nat, j: nat)
    requires |inst.levels| > 0 && alpha > 0 && j < inst.n
    ensures |Flatten(|inst.levels|, PackingCell(inst, alpha, j))| == |inst.levels|
    ensures DistinctNames(Flatten(|inst.levels|, PackingCell(inst, alpha, j)))
    ensures forall c :: c in Flatten(|inst.levels|, PackingCell(inst, alpha, j)) <==>
      exists i :: 0 <= i < |inst.levels| && c == Packing(inst, alpha, j, i)
  {
    var f, count := PackingCell(inst, alpha, j), |inst.levels|;
    forall i | 0 <= i < count ensures f(i) == [Packing(inst, alpha, j, i)] { }
    SingletonFlatten(count, f);
    var s := Flatten(count, f);
    forall a, b | 0 <= a < b < |s| ensures s[a].name != s[b].name {
      assert s[a].name.index[2] != s[b].name.index[2];
    }
    forall c ensures c in s <==> exists i :: 0 <= i < count && c == Packing(inst, alpha, j, i) {
      if c in s {
        var i :| 0 <= i < |s| && s[i] == c;
      }
      if exists i :: 0 <= i < count && c == Packing(inst, alpha, j, i) {
        var i :| 0 <= i < count && c == Packing(inst, alpha, j, i);
        assert s[i] == c;
      }
    }
  }

  lemma PackingPointFacts(inst: Instance, alpha: nat)
    requires |inst.levels| > 0 && alpha > 0
    ensures |Flatten(inst.n, PackingPointLoop(inst, alpha))| == inst.n * |inst.levels|
    ensures DistinctNames(Flatten(inst.n, PackingPointLoop(inst, alpha)))
    ensures forall c :: c in Flatten(inst.n, PackingPointLoop(inst, alpha)) <==>
      exists j, i :: 0 <= j < inst.n && 0 <= i < |inst.levels| && c == Packing(inst, alpha, j, i)
  {
    var f, count := PackingPointLoop(inst, alpha), inst.n;
    var s := Flatten(count, f);
    assert |s| == count * (|inst.levels|) by {
      forall j | 0 <= j < count ensures |f(j)| == |inst.levels| { PackingCellLength(inst, alpha, j); }
      FlattenUniformLength(count, f, |inst.levels|);
    }
    assert DistinctNames(s) by {
      forall j | 0 <= j < count
        ensures DistinctNames(f(j))
        ensures forall c :: c in f(j) ==> 1 < |c.name.index| && c.name.index[1] == Range(count)[j]
      {
        PackingCellFacts(inst, alpha, j);
        forall c | c in f(j) ensures 1 < |c.name.index| && c.name.index[1] == Range(count)[j] {
          var i :| 0 <= i < |inst.levels| && c == Packing(inst, alpha, j, i);
        }
      }
      FlattenDistinct(count, f, 1, Range(count));
    }
    forall c ensures c in s <==> exists j, i :: 0 <= j < count && 0 <= i < |inst.levels| && c == Packing(inst, alpha, j, i) {
      FlattenMember(count, f);
      if c in s {
        var j :| 0 <= j < count && c in f(j);
        PackingCellFacts(inst, alpha, j);
        var i :| 0 <= i < |inst.levels| && c == Packing(inst, alpha, j, i);
      }
      if exists j, i :: 0 <= j < count && 0 <= i < |inst.levels| && c == Packing(inst, alpha, j, i) {
        var j, i :| 0 <= j < count && 0 <= i < |inst.levels| && c == Packing(inst, alpha, j, i);
        PackingCellFacts(inst, alpha, j);
        assert c in f(j);
      }
    }
  }

  lemma AlphasDistinctPositive()
    ensures forall a :: 0 <= a < |Alphas| ==> Alphas[a] > 0
    ensures forall a1, a2 :: 0 <= a1 < a2 < |Alphas| ==> Alphas[a1] != Alphas[a2]
  {
  }

  lemma Family11Length(inst: Instance)
    requires |inst.levels| > 0
    ensures |Family11(inst)| == 5 * (inst.n * |inst.levels|)
  {
    var f, w := PackingAlphaLoop(inst), inst.n * |inst.levels|;
    assert |Flatten(|Alphas|, f)| == |Alphas| * w by {
      forall a | 0 <= a < |Alphas| ensures |f(a)| == w { PackingPointFacts(inst, Alphas[a]); }
      FlattenUniformLength(|Alphas|, f, w);
    }
    assert |Alphas| == 5;
  }

  lemma Family11Distinct(inst: Instance)
    requires |inst.levels| > 0
    ensures DistinctNames(Family11(inst))
  {
    AlphasDistinctPositive();
    var f, count := PackingAlphaLoop(inst), |Alphas|;
    var s := Flatten(count, f);
    assert DistinctNames(s) by {
      forall a | 0 <= a < count
        ensures DistinctNames(f(a))
        ensures forall c :: c in f(a) ==> 0 < |c.name.index| && c.name.index[0] == Alphas[a]
      {
        PackingPointFacts(inst, Alphas[a]);
        forall c | c in f(a) ensures 0 < |c.name.index| && c.name.index[0] == Alphas[a] {
          var j, i :| 0 <= j < inst.n && 0 <= i < |inst.levels| && c == Packing(inst, Alphas[a], j, i);
        }
      }
      FlattenDistinct(count, f, 0, Alphas);
    }
  }

  lemma Family11Members(inst: Instance)
    requires |inst.levels| > 0
    ensures forall c :: c in Family11(inst) <==>
      exists a, j, i :: 0 <= a < |Alphas| && 0 <= j < inst.n && 0 <= i < |inst.levels| &&
        c == Packing(inst, Alphas[a], j, i)
  {
    AlphasDistinctPositive();
    var f, count := PackingAlphaLoop(inst), |Alphas|;
    var s := Flatten(count, f);
    forall c ensures c in s <==> exists a, j, i :: 0 <= a < count && 0 <= j < inst.n && 0 <= i < |inst.levels| && c == Packing(inst, Alphas[a], j, i) {
      FlattenMember(count, f);
      if c in s {
        var a :| 0 <= a < count && c in f(a);
        PackingPointFacts(inst, Alphas[a]);
        var j, i :| 0 <= j < inst.n && 0 <= i < |inst.levels| && c == Packing(inst, Alphas[a], j, i);
      }
      if exists a, j, i :: 0 <= a < count && 0 <= j < inst.n && 0 <= i < |inst.levels| && c == Packing(inst, Alphas[a], j, i) {
        var a, j, i :| 0 <= a < count && 0 <= j < inst.n && 0 <= i < |inst.levels| && c == Packing(inst, Alphas[a], j, i);
        PackingPointFacts(inst, Alphas[a]);
        assert c in f(a);
      }
    }
  }

  /** Family (11) holds exactly `sum N(alpha, i, j) <= (2 alpha) ** d_tag`
      for alpha in ALPHAS, j < n and i <= t, under distinct names:
      5 * n * (t + 1) of them. */
  lemma Family11Facts(inst: Instance)
    requires |inst.levels| > 0
    ensures |Family11(inst)| == 5 * (inst.n * |inst.levels|)
    ensures DistinctNames(Family11(inst))
    ensures forall c :: c in Family11(inst) <==>
      exists a, j, i :: 0 <= a < |Alphas| && 0 <= j < inst.n && 0 <= i < |inst.levels| &&
        c == Packing(inst, Alphas[a], j, i)
    ensures Tagged(Family11(inst), F11)
  {
    Family11Length(inst);
    Family11Distinct(inst);
    Family11Members(inst);
  }

  // ---------------------------------------------------------------------
  // Family (12).

  lemma LowerCoverCellLength(inst: Instance, j: nat)
    requires |inst.levels| > 0 && j < |inst.levels[Top(inst)]|
    ensures |Flatten(|inst.levels|, LowerCoverCell(inst, j))| == |inst.levels|
  {
    SingletonFlatten(|inst.levels|, LowerCoverCell(inst, j));
  }

  lemma LowerCoverCellFacts(inst: Instance, j: nat)
    requires |inst.levels| > 0 && j < |inst.levels[Top(inst)]|
    ensures |Flatten(|inst.levels|, LowerCoverCell(inst, j))| == |inst.levels|
    ensures DistinctNames(Flatten(|inst.levels|, LowerCoverCell(inst, j)))
    ensures forall c :: c in Flatten(|inst.levels|, LowerCoverCell(inst, j)) <==>
      exists i :: 0 <= i < |inst.levels| && c == LowerCover(inst, j, i)
  {
    var f, count := LowerCoverCell(inst, j), |inst.levels|;
    forall i | 0 <= i < count ensures f(i) == [LowerCover(inst, j, i)] { }
    SingletonFlatten(count, f);
    var s := Flatten(count, f);
    forall a, b | 0 <= a < b < |s| ensures s[a].name != s[b].name {
      assert s[a].name.index[1] != s[b].name.index[1];
    }
    forall c ensures c in s <==> exists i :: 0 <= i < count && c == LowerCover(inst, j, i) {
      if c in s {
        var i :| 0 <= i < |s| && s[i] == c;
      }
      if exists i :: 0 <= i < count && c == LowerCover(inst, j, i) {
        var i :| 0 <= i < count && c == LowerCover(inst, j, i);
        assert s[i] == c;
      }
    }
  }

  lemma Family12Length(inst: Instance)
    requires |inst.levels| > 0
    ensures |Family12(inst)| == |inst.levels[Top(inst)]| * (Top(inst) + 1)
  {
    var f, count := LowerCoverLoop(inst), |inst.levels[Top(inst)]|;
    forall j | 0 <= j < count ensures |f(j)| == |inst.levels| { LowerCoverCellLength(inst, j); }
    FlattenUniformLength(count, f, |inst.levels|);
  }

  /** Family (12) holds exactly `sum N(7, i, j) >= z[t][j]` for j < |z[t]|
      and i <= t, under distinct names: |z[t]| * (t + 1) of them. */
  lemma Family12Facts(inst: Instance)
    requires |inst.levels| > 0
    ensures |Family12(inst)| == |inst.levels[Top(inst)]| * (Top(inst) + 1)
    ensures DistinctNames(Family12(inst))
    ensures forall c :: c in Family12(inst) <==>
      exists j, i :: 0 <= j < |inst.levels[Top(inst)]| && 0 <= i < |inst.levels| && c == LowerCover(inst, j, i)
    ensures Tagged(Family12(inst), F12)
  {
    var f, count := LowerCoverLoop(inst), |inst.levels[Top(inst)]|;
    var s := Flatten(count, f);
    Family12Length(inst);
    assert DistinctNames(s) by {
      forall j | 0 <= j < count
        ensures DistinctNames(f(j))
        ensures forall c :: c in f(j) ==> 0 < |c.name.index| && c.name.index[0] == Range(count)[j]
      {
        LowerCoverCellFacts(inst, j);
        forall c | c in f(j) ensures 0 < |c.name.index| && c.name.index[0] == Range(count)[j] {
          var i :| 0 <= i < |inst.levels| && c == LowerCover(inst, j, i);
        }
      }
      FlattenDistinct(count, f, 0, Range(count));
    }
    forall c ensures c in s <==> exists j, i :: 0 <= j < count && 0 <= i < |inst.levels| && c == LowerCover(inst, j, i) {
      FlattenMember(count, f);
      if c in s {
        var j :| 0 <= j < count && c in f(j);
        LowerCoverCellFacts(inst, j);
        var i :| 0 <= i < |inst.levels| && c == LowerCover(inst, j, i);
      }
      if exists j, i :: 0 <= j < count && 0 <= i < |inst.levels| && c == LowerCover(inst, j, i) {
        var j, i :| 0 <= j < count && 0 <= i < |inst.levels| && c == LowerCover(inst, j, i);
        LowerCoverCellFacts(inst, j);
        assert c in f(j);
      }
    }
  }

  // ---------------------------------------------------------------------
  // Family (13).

  lemma GrowthCellLength(inst: Instance, j: nat, k: nat)
    requires |inst.levels| > 0 && j < inst.n && k < |inst.levels|
    ensures |Flatten(k, GrowthCell(inst, j, k))| == k
  {
    SingletonFlatten(k, GrowthCell(inst, j, k));
  }

  lemma GrowthCellFacts(inst: Instance, j: nat, k: nat)
    requires |inst.levels| > 0 && j < inst.n && k < |inst.levels|
    ensures |Flatten(k, GrowthCell(inst, j, k))| == k
    ensures DistinctNames(Flatten(k, GrowthCell(inst, j, k)))
    ensures forall c :: c in Flatten(k, GrowthCell(inst, j, k)) <==>
      exists i :: 0 <= i < k && c == NestedGrowth(inst, j, k, i)
  {
    var f := GrowthCell(inst, j, k);
    forall i | 0 <= i < k ensures f(i) == [NestedGrowth(inst, j, k, i)] { }
    SingletonFlatten(k, f);
    var s := Flatten(k, f);
    forall a, b | 0 <= a < b < |s| ensures s[a].name != s[b].name {
      assert s[a].name.index[2] != s[b].name.index[2];
    }
    forall c ensures c in s <==> exists i :: 0 <= i < k && c == NestedGrowth(inst, j, k, i) {
      if c in s {
        var i :| 0 <= i < |s| && s[i] == c;
      }
      if exists i :: 0 <= i < k && c == NestedGrowth(inst, j, k, i) {
        var i :| 0 <= i < k && c == NestedGrowth(inst, j, k, i);
        assert s[i] == c;
      }
    }
  }

  lemma {:induction false} GrowthLevelPrefixLength(inst: Instance, j: nat, upto: nat)
    requires |inst.levels| > 0 && j < inst.n && upto <= |inst.levels|
    ensures 2 * |Flatten(upto, GrowthLevelLoop(inst, j))| == upto * (upto - 1)
  {
    if upto > 0 {
      GrowthLevelPrefixLength(inst, j, upto - 1);
      GrowthCellLength(inst, j, upto - 1);
      assert (upto - 1) * (upto - 2) + 2 * (upto - 1) == upto * (upto - 1);
    }
  }

  lemma GrowthLevelFacts(inst: Instance, j: nat)
    requires |inst.levels| > 0 && j < inst.n
    ensures 2 * |Flatten(|inst.levels|, GrowthLevelLoop(inst, j))| == |inst.levels| * Top(inst)
    ensures DistinctNames(Flatten(|inst.levels|, GrowthLevelLoop(inst, j)))
    ensures forall c :: c in Flatten(|inst.levels|, GrowthLevelLoop(inst, j)) <==>
      exists k, i :: 0 <= i < k < |inst.levels| && c == NestedGrowth(inst, j, k, i)
  {
    var f, count := GrowthLevelLoop(inst, j), |inst.levels|;
    var s := Flatten(count, f);
    GrowthLevelPrefixLength(inst, j, count);
    assert DistinctNames(s) by {
      forall k | 0 <= k < count
        ensures DistinctNames(f(k))
        ensures forall c :: c in f(k) ==> 1 < |c.name.index| && c.name.index[1] == Range(count)[k]
      {
        GrowthCellFacts(inst, j, k);
        forall c | c in f(k) ensures 1 < |c.name.index| && c.name.index[1] == Range(count)[k] {
          var i :| 0 <= i < k && c == NestedGrowth(inst, j, k, i);
        }
      }
      FlattenDistinct(count, f, 1, Range(count));
    }
    forall c ensures c in s <==> exists k, i :: 0 <= k < count && 0 <= i < k && c == NestedGrowth(inst, j, k, i) {
      FlattenMember(count, f);
      if c in s {
        var k :| 0 <= k < count && c in f(k);
        GrowthCellFacts(inst, j, k);
        var i :| 0 <= i < k && c == NestedGrowth(inst, j, k, i);
      }
      if exists k, i :: 0 <= k < count && 0 <= i < k && c == NestedGrowth(inst, j, k, i) {
        var k, i :| 0 <= k < count && 0 <= i < k && c == NestedGrowth(inst, j, k, i);
        GrowthCellFacts(inst, j, k);
        assert c in f(k);
      }
    }
  }

  lemma Family13Length(inst: Instance)
    requires |inst.levels| > 0
    ensures |Family13(inst)| == inst.n * (Top(inst) * (Top(inst) + 1) / 2)
  {
    var f, top := GrowthPointLoop(inst), Top(inst);
    var p := top * (top + 1);
    forall j | 0 <= j < inst.n ensures |f(j)| == p / 2 {
      GrowthLevelPrefixLength(inst, j, |inst.levels|);
      assert |inst.levels| * (|inst.levels| - 1) == p;
    }
    FlattenUniformLength(inst.n, f, p / 2);
  }

  lemma Family13Distinct(inst: Instance)
    requires |inst.levels| > 0
    ensures DistinctNames(Family13(inst))
  {
    var f, count := GrowthPointLoop(inst), inst.n;
    var s := Flatten(count, f);
    assert DistinctNames(s) by {
      forall j | 0 <= j < count
        ensures DistinctNames(f(j))
        ensures forall c :: c in f(j) ==> 0 < |c.name.index| && c.name.index[0] == Range(count)[j]
      {
        GrowthLevelFacts(inst, j);
        forall c | c in f(j) ensures 0 < |c.name.index| && c.name.index[0] == Range(count)[j] {
          var k, i :| 0 <= i < k < |inst.levels| && c == NestedGrowth(inst, j, k, i);
        }
      }
      FlattenDistinct(count, f, 0, Range(count));
    }
  }

  lemma Family13Members(inst: Instance)
    requires |inst.levels| > 0
    ensures forall c :: c in Family13(inst) <==>
      exists j, k, i :: 0 <= j < inst.n && 0 <= i < k < |inst.levels| && c == NestedGrowth(inst, j, k, i)
  {
    var f, count := GrowthPointLoop(inst), inst.n;
    var s := Flatten(count, f);
    forall c ensures c in s <==> exists j, k, i :: 0 <= j < count && 0 <= i < k < |inst.levels| && c == NestedGrowth(inst, j, k, i) {
      FlattenMember(count, f);
      if c in s {
        var j :| 0 <= j < count && c in f(j);
        GrowthLevelFacts(inst, j);
        var k, i :| 0 <= i < k < |inst.levels| && c == NestedGrowth(inst, j, k, i);
      }
      if exists j, k, i :: 0 <= j < count && 0 <= i < k < |inst.levels| && c == NestedGrowth(inst, j, k, i) {
        var j, k, i :| 0 <= j < count && 0 <= i < k < |inst.levels| && c == NestedGrowth(inst, j, k, i);
        GrowthLevelFacts(inst, j);
        assert c in f(j);
      }
    }
  }

  /** Family (13) holds exactly the growth constraint for j < n and
      i < k <= t, under distinct names: n * t * (t + 1) / 2 of them. */
  lemma Family13Facts(inst: Instance)
    requires |inst.levels| > 0
    ensures |Family13(inst)| == inst.n * (Top(inst) * (Top(inst) + 1) / 2)
    ensures DistinctNames(Family13(inst))
    ensures forall c :: c in Family13(inst) <==>
      exists j, k, i :: 0 <= j < inst.n && 0 <= i < k < |inst.levels| && c == NestedGrowth(inst, j, k, i)
    ensures Tagged(Family13(inst), F13)
  {
    Family13Length(inst);
    Family13Distinct(inst);
    Family13Members(inst);
  }

  // ---------------------------------------------------------------------
  // Families (15) and (16).

  lemma Family15Length(inst: Instance)
    requires |inst.levels| > 0
    ensures |Family15(inst)| == inst.n
  {
    var f := SlackFloorLoop(inst);
    forall j | 0 <= j < inst.n ensures |f(j)| == 1 { }
    FlattenUniformLength(inst.n, f, 1);
  }

  /** Family (15) holds exactly `delta * z[t][j] + c[j] >= delta` for j < n,
      under distinct names: n of them. */
  lemma Family15Facts(inst: Instance)
    requires |inst.levels| > 0
    ensures |Family15(inst)| == inst.n
    ensures DistinctNames(Family15(inst))
    ensures forall c :: c in Family15(inst) <==> exists j :: 0 <= j < inst.n && c == SlackFloor(inst, j)
    ensures Tagged(Family15(inst), F15)
  {
    var f, count := SlackFloorLoop(inst), inst.n;
    forall j | 0 <= j < count ensures f(j) == [SlackFloor(inst, j)] { }
    SingletonFlatten(count, f);
    var s := Flatten(count, f);
    forall a, b | 0 <= a < b < |s| ensures s[a].name != s[b].name {
      assert s[a].name.index[0] != s[b].name.index[0];
    }
    forall c ensures c in s <==> exists j :: 0 <= j < count && c == SlackFloor(inst, j) {
      if c in s {
        var j :| 0 <= j < |s| && s[j] == c;
      }
      if exists j :: 0 <= j < count && c == SlackFloor(inst, j) {
        var j :| 0 <= j < count && c == SlackFloor(inst, j);
        assert s[j] == c;
      }
    }
  }

  lemma PerLevelCellLength(inst: Instance, j: nat)
    requires |inst.levels| > 0 && j < inst.n
    ensures |Flatten(|inst.levels|, PerLevelCell(inst, j))| == |inst.levels|
  {
    SingletonFlatten(|inst.levels|, PerLevelCell(inst, j));
  }

  lemma PerLevelCellFacts(inst: Instance, j: nat)
    requires |inst.levels| > 0 && j < inst.n
    ensures |Flatten(|inst.levels|, PerLevelCell(inst, j))| == |inst.levels|
    ensures DistinctNames(Flatten(|inst.levels|, PerLevelCell(inst, j)))
    ensures forall c :: c in Flatten(|inst.levels|, PerLevelCell(inst, j)) <==>
      exists i :: 0 <= i < |inst.levels| && c == PerLevelSlack(inst, j, i)
  {
    var f, count := PerLevelCell(inst, j), |inst.levels|;
    forall i | 0 <= i < count ensures f(i) == [PerLevelSlack(inst, j, i)] { }
    SingletonFlatten(count, f);
    var s := Flatten(count, f);
    forall a, b | 0 <= a < b < |s| ensures s[a].name != s[b].name {
      assert s[a].name.index[1] != s[b].name.index[1];
    }
    forall c ensures c in s <==> exists i :: 0 <= i < count && c == PerLevelSlack(inst, j, i) {
      if c in s {
        var i :| 0 <= i < |s| && s[i] == c;
      }
      if exists i :: 0 <= i < count && c == PerLevelSlack(inst, j, i) {
        var i :| 0 <= i < count && c == PerLevelSlack(inst, j, i);
        assert s[i] == c;
      }
    }
  }

  lemma Family16Length(inst: Instance)
    requires |inst.levels| > 0
    ensures |Family16(inst)| == inst.n * (Top(inst) + 1)
  {
    var f := PerLevelLoop(inst);
    forall j | 0 <= j < inst.n ensures |f(j)| == |inst.levels| { PerLevelCellLength(inst, j); }
    FlattenUniformLength(inst.n, f, |inst.levels|);
  }

  /** Family (16) holds exactly the per-level slack constraint for j < n and
      i <= t, under distinct names: n * (t + 1) of them. */
  lemma Family16Facts(inst: Instance)
    requires |inst.levels| > 0
    ensures |Family16(inst)| == inst.n * (Top(inst) + 1)
    ensures DistinctNames(Family16(inst))
    ensures forall c :: c in Family16(inst) <==>
      exists j, i :: 0 <= j < inst.n && 0 <= i < |inst.levels| && c == PerLevelSlack(inst, j, i)
    ensures Tagged(Family16(inst), F16)
  {
    var f, count := PerLevelLoop(inst), inst.n;
    var s := Flatten(count, f);
    Family16Length(inst);
    assert DistinctNames(s) by {
      forall j | 0 <= j < count
        ensures DistinctNames(f(j))
        ensures forall c :: c in f(j) ==> 0 < |c.name.index| && c.name.index[0] == Range(count)[j]
      {
        PerLevelCellFacts(inst, j);
        forall c | c in f(j) ensures 0 < |c.name.index| && c.name.index[0] == Range(count)[j] {
          var i :| 0 <= i < |inst.levels| && c == PerLevelSlack(inst, j, i);
        }
      }
      FlattenDistinct(count, f, 0, Range(count));
    }
    forall c ensures c in s <==> exists j, i :: 0 <= j < count && 0 <= i < |inst.levels| && c == PerLevelSlack(inst, j, i) {
      FlattenMember(count, f);
      if c in s {
        var j :| 0 <= j < count && c in f(j);
        PerLevelCellFacts(inst, j);
        var i :| 0 <= i < |inst.levels| && c == PerLevelSlack(inst, j, i);
      }
      if exists j, i :: 0 <= j < count && 0 <= i < |inst.levels| && c == PerLevelSlack(inst, j, i) {
        var j, i :| 0 <= j < count && 0 <= i < |inst.levels| && c == PerLevelSlack(inst, j, i);
        PerLevelCellFacts(inst, j);
        assert c in f(j);
      }
    }
  }

  // ---------------------------------------------------------------------
  // The whole model.

  /** The position of a family in the order `solve` adds them. */
  function Rank(family: Family): nat
  {
    match family
    case F10 => 0
    case F11 => 1
    case F12 => 2
    case F13 => 3
    case F15 => 4
    case F16 => 5
  }

  predicate RankedBelow(cs: seq<Constraint>, r: nat)
  {
    forall c :: c in cs ==> Rank(c.name.family) < r
  }

  /** Appending a distinctly named family whose tag ranks above every tag
      so far keeps the names distinct. */
  lemma {:induction false} AppendFamily(xs: seq<Constraint>, ys: seq<Constraint>, family: Family)
    requires RankedBelow(xs, Rank(family)) && Tagged(ys, family)
    requires DistinctNames(xs) && DistinctNames(ys)
    ensures DistinctNames(xs + ys)
    ensures RankedBelow(xs + ys, Rank(family) + 1)
  {
    forall x, y | x in xs && y in ys ensures x.name != y.name {
      assert Rank(x.name.family) < Rank(y.name.family);
    }
    DistinctConcat(xs, ys);
  }

  /** Six distinctly named lists tagged F10, F11, F12, F13, F15 and F16
      concatenate to a distinctly named list. */
  lemma AppendSix(s10: seq<Constraint>, s11: seq<Constraint>, s12: seq<Constraint>,
                  s13: seq<Constraint>, s15: seq<Constraint>, s16: seq<Constraint>)
    requires DistinctNames(s10) && Tagged(s10, F10)
    requires DistinctNames(s11) && Tagged(s11, F11)
    requires DistinctNames(s12) && Tagged(s12, F12)
    requires DistinctNames(s13) && Tagged(s13, F13)
    requires DistinctNames(s15) && Tagged(s15, F15)
    requires DistinctNames(s16) && Tagged(s16, F16)
    ensures DistinctNames(s10 + s11 + s12 + s13 + s15 + s16)
  {
    AppendFamily([], s10, F10);
    assert [] + s10 == s10;
    AppendFamily(s10, s11, F11);
    AppendFamily(s10 + s11, s12, F12);
    AppendFamily(s10 + s11 + s12, s13, F13);
    AppendFamily(s10 + s11 + s12 + s13, s15, F15);
    AppendFamily(s10 + s11 + s12 + s13 + s15, s16, F16);
  }

  /** No two constraints of the whole model share a name: the family tags
      differ between families and the index tuples within each. */
  lemma AllNamesDistinct(inst: Instance)
    requires |inst.levels| > 0
    ensures DistinctNames(AllConstraints(inst))
  {
    var s10, s11, s12 := Family10(inst), Family11(inst), Family12(inst);
    var s13, s15, s16 := Family13(inst), Family15(inst), Family16(inst);
    assert DistinctNames(s10) && Tagged(s10, F10) by { Family10Facts(inst); }
    assert DistinctNames(s11) by { Family11Distinct(inst); }
    assert Tagged(s11, F11) by { Family11Facts(inst); }
    assert DistinctNames(s12) && Tagged(s12, F12) by { Family12Facts(inst); }
    assert DistinctNames(s13) by { Family13Distinct(inst); }
    assert Tagged(s13, F13) by { Family13Facts(inst); }
    assert DistinctNames(s15) && Tagged(s15, F15) by { Family15Facts(inst); }
    assert DistinctNames(s16) && Tagged(s16, F16) by { Family16Facts(inst); }
    AppendSix(s10, s11, s12, s13, s15, s16);
  }

  /** The number of constraints the model holds, family by family. */
  lemma ConstraintCount(inst: Instance)
    requires |inst.levels| > 0
    ensures |AllConstraints(inst)| ==
      LevelSizes(inst.levels, Top(inst)) + 5 * (inst.n * |inst.levels|) +
      |inst.levels[Top(inst)]| * (Top(inst) + 1) + inst.n * (Top(inst) * (Top(inst) + 1) / 2) +
      inst.n + inst.n * (Top(inst) + 1)
  {
    assert |Family10(inst)| == LevelSizes(inst.levels, Top(inst)) by { Family10Length(inst); }
    assert |Family11(inst)| == 5 * (inst.n * |inst.levels|) by { Family11Length(inst); }
    assert |Family12(inst)| == |inst.levels[Top(inst)]| * (Top(inst) + 1) by { Family12Length(inst); }
    assert |Family13(inst)| == inst.n * (Top(inst) * (Top(inst) + 1) / 2) by { Family13Length(inst); }
    assert |Family15(inst)| == inst.n by { Family15Length(inst); }
    assert |Family16(inst)| == inst.n * (Top(inst) + 1) by { Family16Length(inst); }
  }

  /** With a single level (t = 0) families (10) and (13) are empty, while
      (11), (12), (15) and (16) each emit one constraint per point. */
  lemma SingleLevel(inst: Instance)
    requires |inst.levels| == 1
    ensures Family10(inst) == [] && Family13(inst) == []
    ensures |Family11(inst)| == 5 * inst.n
    ensures |Family12(inst)| == |inst.levels[0]|
    ensures |Family15(inst)| == inst.n && |Family16(inst)| == inst.n
  {
    assert |Family10(inst)| == 0 by { Family10Length(inst); }
    assert |Family11(inst)| == 5 * inst.n by { Family11Length(inst); }
    assert |Family12(inst)| == |inst.levels[0]| by { Family12Length(inst); }
    assert |Family13(inst)| == 0 by { Family13Length(inst); }
    assert |Family15(inst)| == inst.n by { Family15Length(inst); }
    assert |Family16(inst)| == inst.n by { Family16Length(inst); }
  }
}
