/** The class `LinearProgram` of linear_program.py: it declares the LP
    variables `c` and `z` from a hierarchy, and `solve` appends the
    constraint families (10) to (16) and the objective `sum c`.  The LP
    problem is modelled by its list of named constraints and its objective. */
module LinearProgramModel {
  import opened LpModel
  import opened NeighbourSelection
  import opened Families

  /** The hierarchy the program is built from: the point set S, the levels
      (lists of point ids, level 0 first) and the scaled distance matrix. */
  datatype Hierarchy = Hierarchy(S: seq<nat>, hierarchy: seq<seq<nat>>, scaledDistances: seq<seq<real>>)

  /** The directory the LP file is written to. */
  const SaveFilesPath: string := "lps/"

  /** `c`: one slack variable per point of S. */
  function Slacks(n: nat): (c: seq<LpVar>)
    ensures |c| == n && forall j :: 0 <= j < n ==> c[j] == SlackVar(j)
  {
    seq(n, j requires 0 <= j < n => SlackVar(j))
  }

  /** `z`: one row of indicators per level, one indicator per slot. */
  function Indicators(levels: seq<seq<nat>>): (z: seq<seq<LpVar>>)
    ensures |z| == |levels|
    ensures forall i :: 0 <= i < |levels| ==> z[i] == LevelVars(i, |levels[i]|)
  {
    seq(|levels|, i requires 0 <= i < |levels| => LevelVars(i, |levels[i]|))
  }

  /** The objective `lpSum(c)`: every slack once, with coefficient 1. */
  function Objective(n: nat): (e: LinExpr)
    ensures |e| == n && forall j :: 0 <= j < n ==> e[j] == Term(1.0, SlackVar(j))
  {
    Sum(Slacks(n), 1.0)
  }

  class LinearProgram {
    const h: Hierarchy
    const d: int
    const delta: real
    const saveFilePath: string
    /** The lists `_N_i_j` returns, as a function of (alpha, i, j). */
    ghost const neighbourLists: (int, nat, nat) -> seq<LpVar>

    var scaledDistances: seq<seq<real>>
    var n: nat
    var t: int
    var c: seq<LpVar>
    var z: seq<seq<LpVar>>

    /** The LP problem: its constraints in insertion order, and its objective. */
    var constraints: seq<Constraint>
    var objective: Option<LinExpr>

    /** The variables `_initialize_vars` declares. */
    ghost predicate Declared()
      reads this`scaledDistances, this`n, this`t, this`c, this`z
    {
      scaledDistances == h.scaledDistances && n == |h.S| && t == |h.hierarchy| - 1 &&
      c == Slacks(n) && z == Indicators(h.hierarchy)
    }

    /** The state `_initialize_vars` leaves, with `neighbourLists` naming
        the lists `_N_i_j` computes over it. */
    ghost predicate Valid()
      reads this`scaledDistances, this`n, this`t, this`c, this`z
    {
      Declared() && ComputesNeighbours(neighbourLists, h.hierarchy, h.scaledDistances)
    }

    /** The inputs the constraint families are computed from. */
    ghost function Inst(): Instance
    {
      Instance(h.hierarchy, h.scaledDistances, |h.S|, d, delta, neighbourLists)
    }

    constructor (h: Hierarchy, d: int, delta: real, saveFileName: string)
      ensures this.h == h && this.d == d && this.delta == delta
      ensures saveFilePath == SaveFilesPath + saveFileName + ".lp"
      ensures neighbourLists == NeighbourOracle(h.hierarchy, h.scaledDistances)
      ensures Valid() && constraints == [] && objective == None
    {
      this.h := h;
      this.d := d;
      this.delta := delta;
      saveFilePath := SaveFilesPath + saveFileName + ".lp";
      neighbourLists := NeighbourOracle(h.hierarchy, h.scaledDistances);
      new;
      OracleComputesNeighbours(h.hierarchy, h.scaledDistances);
      InitializeVars();
    }

    /** `_initialize_vars`: reads n and t off the hierarchy, creates an empty
        problem and declares `c[j]` for j < n and `z[i][j]` for every slot j
        of every level i. */
    method InitializeVars()
      requires ComputesNeighbours(neighbourLists, h.hierarchy, h.scaledDistances)
      modifies this`scaledDistances, this`n, this`t, this`c, this`z, this`constraints, this`objective
      ensures Valid() && constraints == [] && objective == None
    {
      scaledDistances := h.scaledDistances;
      n := |h.S|;
      t := |h.hierarchy| - 1;
      constraints := [];
      objective := None;

      c := [];
      var i := 0;
      while i < n
        invariant 0 <= i <= n
        invariant c == Slacks(i)
        invariant scaledDistances == h.scaledDistances && n == |h.S| && t == |h.hierarchy| - 1
        invariant constraints == [] && objective == None
      {
        c := c + [SlackVar(i)];
        i := i + 1;
      }

      z := [];
      i := 0;
      while i < t + 1
        invariant t + 1 == |h.hierarchy| && 0 <= i <= t + 1
        invariant z == Indicators(h.hierarchy[..i])
        invariant scaledDistances == h.scaledDistances && n == |h.S| && c == Slacks(n)
        invariant constraints == [] && objective == None
      {
        z := z + [[]];
        var j := 0;
        while j < |h.hierarchy[i]|
          invariant 0 <= j <= |h.hierarchy[i]| && |z| == i + 1
          invariant z[..i] == Indicators(h.hierarchy[..i])
          invariant z[i] == LevelVars(i, j)
          invariant scaledDistances == h.scaledDistances && n == |h.S| && t == |h.hierarchy| - 1 && c == Slacks(n)
          invariant constraints == [] && objective == None
        {
          z := z[i := z[i] + [IndicatorVar(i, j)]];
          j := j + 1;
        }
        assert h.hierarchy[..i + 1] == h.hierarchy[..i] + [h.hierarchy[i]];
        i := i + 1;
      }
      assert h.hierarchy[..|h.hierarchy|] == h.hierarchy;
    }

    /** The representative scan of `_N_i_j`: point j itself when it is on
        level i, otherwise the first member of level i nearest to j. */
    method RepresentativeOf(i: nat, j: nat) returns (center: nat)
      requires Declared() && WellFormed(h.hierarchy, h.scaledDistances)
      requires i < |h.hierarchy| && j < |h.scaledDistances| && |h.hierarchy[i]| > 0
      ensures center == Center(h.hierarchy, h.scaledDistances, i, j)
    {
      var level := h.hierarchy[i];
      var row := scaledDistances[j];
      if j in level {
        center := j;
      } else {
        center := level[0];
        var q := 1;
        while q < |level|
          invariant 1 <= q <= |level|
          invariant center == level[Nearest(level[..q], row)]
        {
          assert level[..q + 1][..q] == level[..q];
          if row[level[q]] < row[center] {
            center := level[q];
          }
          q := q + 1;
        }
        assert level[..|level|] == level;
      }
    }

    /** `_N_i_j(alpha, i, j)`: the representative, then the indicators of
        the slots of level i within `alpha * 2 ** -i` of it. */
    method NeighbourVars(alpha: int, i: nat, j: nat) returns (resZ: seq<LpVar>)
      requires Declared() && WellFormed(h.hierarchy, h.scaledDistances)
      requires i < |h.hierarchy| && j < |h.scaledDistances| && |h.hierarchy[i]| > 0
      ensures resZ == Neighbours(h.hierarchy, h.scaledDistances, alpha, i, j)
    {
      var center := RepresentativeOf(i, j);
      var radius := Radius(alpha, i);
      var centerRow := scaledDistances[center];
      resZ := [];
      var k := 0;
      while k < |z[i]|
        invariant |z[i]| == |h.hierarchy[i]| && 0 <= k <= |z[i]|
        invariant resZ == SlotVars(i, SelectedSlots(centerRow, k, radius))
      {
        SelectedSlotsStep(i, centerRow, k, radius);
        if centerRow[k] <= radius {
          resZ := resZ + [z[i][k]];
        }
        k := k + 1;
      }
    }

    /** (10), the loop over i < t. */
    method AddMonotonicity()
      requires Declared() && |h.hierarchy| > 0 && LevelsGrow(h.hierarchy)
      modifies this`constraints
      ensures constraints == old(constraints) + Family10(Inst())
    {
      ghost var inst := Inst();
      var i := 0;
      while i < t
        invariant 0 <= i <= t
        invariant Declared()
        invariant constraints == old(constraints) + Flatten(i, MonotoneLoop(inst))
      {
        AddMonotonicityForLevel(i);
        MonotoneLoopStep(inst, old(constraints), i);
        i := i + 1;
      }
    }

    /** (10), the loop over the slots j of level i: `z[i][j] <= z[i+1][j]`. */
    method AddMonotonicityForLevel(i: nat)
      requires Declared() && i < t && LevelsGrow(h.hierarchy)
      modifies this`constraints
      ensures constraints == old(constraints) + Flatten(|h.hierarchy[i]|, MonotoneCell(i))
    {
      assert |z[i]| == |h.hierarchy[i]| <= |h.hierarchy[i + 1]| == |z[i + 1]|;
      var j := 0;
      while j < |z[i]|
        invariant 0 <= j <= |z[i]|
        invariant Declared()
        invariant constraints == old(constraints) + Flatten(j, MonotoneCell(i))
      {
        var x := Constraint(Name(F10, [i, j]), [Term(1.0, z[i][j])], Le, [Term(1.0, z[i + 1][j])], 0.0);
        assert x == Monotone(i, j);
        MonotoneCellStep(i, old(constraints), j);
        constraints := constraints + [x];
        j := j + 1;
      }
    }

    /** (11), the loop over alpha in ALPHAS. */
    method AddPacking(dTag: int)
      requires Valid() && CallsInBounds(h.hierarchy, h.scaledDistances, |h.S|) && dTag == DTag(d)
      modifies this`constraints
      ensures constraints == old(constraints) + Family11(Inst())
    {
      ghost var inst := Inst();
      var a := 0;
      while a < |Alphas|
        invariant 0 <= a <= |Alphas|
        invariant Valid()
        invariant constraints == old(constraints) + Flatten(a, PackingAlphaLoop(inst))
      {
        var alpha := Alphas[a];
        AddPackingForAlpha(alpha, dTag);
        PackingAlphaStep(inst, old(constraints), a);
        a := a + 1;
      }
    }

    /** (11), the loop over j < n for one alpha. */
    method AddPackingForAlpha(alpha: nat, dTag: int)
      requires Valid() && CallsInBounds(h.hierarchy, h.scaledDistances, |h.S|) && dTag == DTag(d) && alpha > 0
      modifies this`constraints
      ensures constraints == old(constraints) + Flatten(n, PackingPointLoop(Inst(), alpha))
    {
      ghost var inst := Inst();
      var j := 0;
      while j < n
        invariant 0 <= j <= n
        invariant Valid()
        invariant constraints == old(constraints) + Flatten(j, PackingPointLoop(inst, alpha))
      {
        AddPackingForPoint(alpha, j, dTag);
        PackingPointStep(inst, alpha, old(constraints), j);
        j := j + 1;
      }
    }

    /** (11), the loop over i <= t for one alpha and one point j:
        `lpSum(N(alpha, i, j)) <= (2 * alpha) ** d_tag`. */
    method AddPackingForPoint(alpha: nat, j: nat, dTag: int)
      requires Valid() && CallsInBounds(h.hierarchy, h.scaledDistances, |h.S|) && dTag == DTag(d) && alpha > 0 && j < n
      modifies this`constraints
      ensures constraints == old(constraints) + Flatten(|h.hierarchy|, PackingCell(Inst(), alpha, j))
    {
      ghost var inst := Inst();
      var i := 0;
      while i < t + 1
        invariant 0 <= i <= t + 1
        invariant Valid()
        invariant constraints == old(constraints) + Flatten(i, PackingCell(inst, alpha, j))
      {
        var x := PackingConstraint(alpha, j, i, dTag);
        PackingCellStep(inst, alpha, j, old(constraints), i);
        constraints := constraints + [x];
        i := i + 1;
      }
    }

    /** One constraint (11): `lpSum(N(alpha, i, j)) <= (2 * alpha) ** d_tag`. */
    method PackingConstraint(alpha: nat, j: nat, i: nat, dTag: int) returns (x: Constraint)
      requires Valid() && CallsInBounds(h.hierarchy, h.scaledDistances, |h.S|) && dTag == DTag(d)
      requires alpha > 0 && j < n && i < |h.hierarchy|
      ensures x == Packing(Inst(), alpha, j, i)
    {
      CallBounds(h.hierarchy, h.scaledDistances, |h.S|, i, j);
      var nbs := NeighbourVars(alpha, i, j);
      x := Constraint(Name(F11, [alpha, j, i]), Sum(nbs, 1.0), Le, [], PowReal(2 * alpha, dTag));
    }

    /** (12), the loop over the slots j of level t. */
    method AddLowerCover()
      requires Valid() && CallsInBounds(h.hierarchy, h.scaledDistances, |h.S|)
      modifies this`constraints
      ensures constraints == old(constraints) + Family12(Inst())
    {
      ghost var inst := Inst();
      var j := 0;
      while j < |z[t]|
        invariant 0 <= j <= |z[t]|
        invariant Valid()
        invariant constraints == old(constraints) + Flatten(j, LowerCoverLoop(inst))
      {
        AddLowerCoverForSlot(j);
        LowerCoverLoopStep(inst, old(constraints), j);
        j := j + 1;
      }
    }

    /** (12), the loop over i <= t for one slot j: `lpSum(N(7, i, j)) >= z[t][j]`. */
    method AddLowerCoverForSlot(j: nat)
      requires Valid() && CallsInBounds(h.hierarchy, h.scaledDistances, |h.S|) && j < |h.hierarchy[|h.hierarchy| - 1]|
      modifies this`constraints
      ensures constraints == old(constraints) + Flatten(|h.hierarchy|, LowerCoverCell(Inst(), j))
    {
      ghost var inst := Inst();
      var i := 0;
      while i < t + 1
        invariant 0 <= i <= t + 1
        invariant Valid()
        invariant constraints == old(constraints) + Flatten(i, LowerCoverCell(inst, j))
      {
        var x := LowerCoverConstraint(j, i);
        LowerCoverCellStep(inst, j, old(constraints), i);
        constraints := constraints + [x];
        i := i + 1;
      }
    }

    /** One constraint (12): `lpSum(N(7, i, j)) >= z[t][j]`. */
    method LowerCoverConstraint(j: nat, i: nat) returns (x: Constraint)
      requires Valid() && CallsInBounds(h.hierarchy, h.scaledDistances, |h.S|)
      requires j < |h.hierarchy[|h.hierarchy| - 1]| && i < |h.hierarchy|
      ensures x == LowerCover(Inst(), j, i)
    {
      CallBounds(h.hierarchy, h.scaledDistances, |h.S|, i, j);
      var nbs := NeighbourVars(7, i, j);
      x := Constraint(Name(F12, [j, i]), Sum(nbs, 1.0), Ge, [Term(1.0, z[t][j])], 0.0);
    }

    /** (13), the loop over j < n. */
    method AddNestedGrowth(dTag: int)
      requires Valid() && CallsInBounds(h.hierarchy, h.scaledDistances, |h.S|) && dTag == DTag(d)
      modifies this`constraints
      ensures constraints == old(constraints) + Family13(Inst())
    {
      ghost var inst := Inst();
      var j := 0;
      while j < n
        invariant 0 <= j <= n
        invariant Valid()
        invariant constraints == old(constraints) + Flatten(j, GrowthPointLoop(inst))
      {
        AddNestedGrowthForPoint(j, dTag);
        GrowthPointStep(inst, old(constraints), j);
        j := j + 1;
      }
    }

    /** (13), the loop over k <= t for one point j. */
    method AddNestedGrowthForPoint(j: nat, dTag: int)
      requires Valid() && CallsInBounds(h.hierarchy, h.scaledDistances, |h.S|) && dTag == DTag(d) && j < n
      modifies this`constraints
      ensures constraints == old(constraints) + Flatten(|h.hierarchy|, GrowthLevelLoop(Inst(), j))
    {
      ghost var inst := Inst();
      var k := 0;
      while k < t + 1
        invariant 0 <= k <= t + 1
        invariant Valid()
        invariant constraints == old(constraints) + Flatten(k, GrowthLevelLoop(inst, j))
      {
        AddNestedGrowthForLevel(j, k, dTag);
        GrowthLevelStep(inst, j, old(constraints), k);
        k := k + 1;
      }
    }

    /** (13), the loop over i < k for one point j and level k:
        `lpSum(N(24, i, j)) >= (1 / 48 ** d_tag) * lpSum(N(24, k, j))`. */
    method AddNestedGrowthForLevel(j: nat, k: nat, dTag: int)
      requires Valid() && CallsInBounds(h.hierarchy, h.scaledDistances, |h.S|) && dTag == DTag(d) && j < n && k <= t
      modifies this`constraints
      ensures constraints == old(constraints) + Flatten(k, GrowthCell(Inst(), j, k))
    {
      ghost var inst := Inst();
      var i := 0;
      while i < k
        invariant 0 <= i <= k
        invariant Valid()
        invariant constraints == old(constraints) + Flatten(i, GrowthCell(inst, j, k))
      {
        var x := NestedGrowthConstraint(j, k, i, dTag);
        GrowthCellStep(inst, j, k, old(constraints), i);
        constraints := constraints + [x];
        i := i + 1;
      }
    }

    /** One constraint (13):
        `lpSum(N(24, i, j)) >= (1 / 48 ** d_tag) * lpSum(N(24, k, j))`. */
    method NestedGrowthConstraint(j: nat, k: nat, i: nat, dTag: int) returns (x: Constraint)
      requires Valid() && CallsInBounds(h.hierarchy, h.scaledDistances, |h.S|) && dTag == DTag(d)
      requires j < n && i < k < |h.hierarchy|
      ensures x == NestedGrowth(Inst(), j, k, i)
    {
      CallBounds(h.hierarchy, h.scaledDistances, |h.S|, i, j);
      CallBounds(h.hierarchy, h.scaledDistances, |h.S|, k, j);
      var lower := NeighbourVars(24, i, j);
      var upper := NeighbourVars(24, k, j);
      x := Constraint(Name(F13, [j, k, i]), Sum(lower, 1.0), Ge, Sum(upper, 1.0 / PowReal(2 * 24, dTag)), 0.0);
    }

    /** (15): `delta * z[t][j] + c[j] >= delta` for j < n. */
    method AddSlackFloor()
      requires Declared() && CallsInBounds(h.hierarchy, h.scaledDistances, |h.S|)
      modifies this`constraints
      ensures constraints == old(constraints) + Family15(Inst())
    {
      ghost var inst := Inst();
      var j := 0;
      while j < n
        invariant 0 <= j <= n
        invariant Declared()
        invariant constraints == old(constraints) + Flatten(j, SlackFloorLoop(inst))
      {
        var x := Constraint(Name(F15, [j]), [Term(delta, z[t][j]), Term(1.0, c[j])], Ge, [], delta);
        assert x == SlackFloor(inst, j);
        SlackFloorStep(inst, old(constraints), j);
        constraints := constraints + [x];
        j := j + 1;
      }
    }

    /** (16), the loop over j < n. */
    method AddPerLevelSlack()
      requires Valid() && CallsInBounds(h.hierarchy, h.scaledDistances, |h.S|)
      modifies this`constraints
      ensures constraints == old(constraints) + Family16(Inst())
    {
      ghost var inst := Inst();
      var j := 0;
      while j < n
        invariant 0 <= j <= n
        invariant Valid()
        invariant constraints == old(constraints) + Flatten(j, PerLevelLoop(inst))
      {
        AddPerLevelSlackForPoint(j);
        PerLevelLoopStep(inst, old(constraints), j);
        j := j + 1;
      }
    }

    /** (16), the loop over i <= t for one point j:
        `2 ** -i * z[t][j] + c[j] + delta * lpSum(N(12, i, j)) >= delta`. */
    method AddPerLevelSlackForPoint(j: nat)
      requires Valid() && CallsInBounds(h.hierarchy, h.scaledDistances, |h.S|) && j < n
      modifies this`constraints
      ensures constraints == old(constraints) + Flatten(|h.hierarchy|, PerLevelCell(Inst(), j))
    {
      ghost var inst := Inst();
      var i := 0;
      while i < t + 1
        invariant 0 <= i <= t + 1
        invariant Valid()
        invariant constraints == old(constraints) + Flatten(i, PerLevelCell(inst, j))
      {
        var x := PerLevelSlackConstraint(j, i);
        PerLevelCellStep(inst, j, old(constraints), i);
        constraints := constraints + [x];
        i := i + 1;
      }
    }

    /** One constraint (16):
        `2 ** -i * z[t][j] + c[j] + delta * lpSum(N(12, i, j)) >= delta`. */
    method PerLevelSlackConstraint(j: nat, i: nat) returns (x: Constraint)
      requires Valid() && CallsInBounds(h.hierarchy, h.scaledDistances, |h.S|)
      requires j < n && i < |h.hierarchy|
      ensures x == PerLevelSlack(Inst(), j, i)
    {
      CallBounds(h.hierarchy, h.scaledDistances, |h.S|, i, j);
      var nbs := NeighbourVars(12, i, j);
      x := Constraint(Name(F16, [j, i]), [Term(TwoToMinus(i), z[t][j]), Term(1.0, c[j])] + Sum(nbs, delta), Ge, [], delta);
    }

    /** `solve` up to the call into the solver: the six constraint families
        in order, under pairwise distinct names, then the objective
        `lpSum(c)`. */
    method Solve()
      requires Valid() && Buildable(Inst()) && constraints == [] && objective == None
      modifies this`constraints, this`objective
      ensures constraints == AllConstraints(Inst())
      ensures DistinctNames(constraints)
      ensures objective == Some(Objective(n))
    {
      ghost var inst := Inst();
      assert LevelsGrow(h.hierarchy) && CallsInBounds(h.hierarchy, h.scaledDistances, |h.S|);
      var dTag := 4 * d + 1;
      AddMonotonicity();
      ghost var upTo10 := constraints;
      AddPacking(dTag);
      ghost var upTo11 := constraints;
      AddLowerCover();
      ghost var upTo12 := constraints;
      AddNestedGrowth(dTag);
      ghost var upTo13 := constraints;
      AddSlackFloor();
      ghost var upTo15 := constraints;
      AddPerLevelSlack();
      assert constraints == AllConstraints(inst) by {
        assert upTo10 == Family10(inst);
        assert upTo11 == Family10(inst) + Family11(inst);
        assert upTo12 == Family10(inst) + Family11(inst) + Family12(inst);
        assert upTo13 == Family10(inst) + Family11(inst) + Family12(inst) + Family13(inst);
        assert upTo15 == Family10(inst) + Family11(inst) + Family12(inst) + Family13(inst) + Family15(inst);
      }
      assert c == Slacks(n);
      objective := Some(Sum(c, 1.0));
      AllNamesDistinct(inst);
    }
  }
}
