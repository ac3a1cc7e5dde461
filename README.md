# LP construction of `linear_program.py`, modelled in Dafny

`linear_program.py` builds a linear program over a precomputed hierarchy of
levels, where each level is a list of point ids, and a scaled distance
matrix. The LP is then handed to PuLP.

`LinearProgram._initialize_vars` declares the variables:
- a slack `c[j] >= 0` for each of the `n = |S|` points;
- an indicator `z[i][j]` in `[0, 1]` for each slot `j` of each level `i`.

`LinearProgram.solve` appends the constraint families (10), (11), (12),
(13), (15) and (16) in nested loops, then sets the objective `sum c`. Their
neighbourhood sums come from `_N_i_j(alpha, i, j)`. That helper:
1. picks a representative for point `j` at level `i`: `j` itself if it is a
   member, otherwise the first member nearest to `j`;
2. keeps every indicator `z[i][k]` whose matrix entry
   `scaled_distances[center][k]` is at most `alpha * 2^-i`.

The model has four modules.

- `LpModel` (`lp_model.dfy`) is a symbolic stand-in for the LP library:
  - variables `C(j)` and `Z(i, j)` with their bounds;
  - linear expressions as lists of (coefficient, variable) terms;
  - constraints with a structural name (family tag plus loop indices), a
    sense and a constant;
  - the combinator `Flatten(count, f)`. It is the list that
    `for k in range(count): <append f(k)>` produces.
- `NeighbourSelection` (`neighbours.dfy`) specifies `_N_i_j`:
  - `Nearest` is the first-minimum scan;
  - `Representative` / `Center` is the representative;
  - `SelectedSlots` is the radius filter;
  - `Neighbours` is the returned list.
- `Families` (`families.dfy`) gives each constraint family as a function
  of the inputs, in the exact order the loops append it. It also proves:
  - how many constraints each family emits;
  - exactly which constraints each family holds;
  - that no two constraints share a name.
- `LinearProgramModel` (`linear_program.dfy`) is the class
  `LinearProgram`:
  - fields for `scaled_distances`, `n`, `t`, `c` and `z`, the constraint
    list and the objective;
  - `InitializeVars` fills `c` and `z` in loops;
  - `NeighbourVars` is `_N_i_j`, with its scan loop and its filter loop;
  - one method per loop of `solve`;
  - `Solve`, which ends with the objective.

  Every method is proved against the specification functions above, so the
  facts proved for those functions hold for what the methods build.

Python's numbers are modelled as exact values:
- distances, `delta`, `2 ** -i` and `1 / 48 ** d_tag` are `real`;
- `(2 * alpha) ** d_tag` is an exact integer power when `d_tag >= 0`,
  which is what Python computes. For `d_tag < 0` Python returns a float;
  the model takes the exact reciprocal `1 / (2 * alpha) ** -d_tag`.

Two facts about the code shape the model.
- Family (10) reads `z[i+1][j]` for every slot `j < |z[i]|`
  (linear_program.py:69-70). So `solve` completes only when level sizes do
  not decrease with `i`. That is `Families.LevelsGrow`, part of the
  precondition of `LinearProgram.Solve`.
- The filter of `_N_i_j` indexes the matrix by the slot position `k`, not
  by the point stored at that slot (linear_program.py:136). So a point
  that is its own representative can still be left out of its own
  neighbourhood (`NeighbourSelection.MemberIsOwnCenter`,
  `NeighbourSelection.SlotIndexingExample`).

## Model

| member | source | states |
|---|---|---|
| LinearProgramModel.LinearProgram.constructor | linear_program.py:32-42 | stores `h`, `d` and `delta`; the save path is `"lps/" + name + ".lp"`; `neighbourLists` is exactly the `_N_i_j` oracle of `h`, so objects built from equal inputs describe the same problem; the object is left with its variables declared, no constraints and no objective |
| LinearProgramModel.LinearProgram.InitializeVars | linear_program.py:44-61 | afterwards `scaled_distances` is the hierarchy's matrix, `n = \|S\|`, `t = \|levels\| - 1`, `c` is the slack list of length `n`, `z[i]` is the indicator row of level `i`, and the problem is empty |
| LinearProgramModel.Slacks | linear_program.py:53-55 | exactly `n` slacks; `c[j]` is the variable `C(j)` with lower bound 0 and no upper bound |
| LinearProgramModel.Indicators | linear_program.py:57-61 | one row per level; row `i` holds exactly `\|levels[i]\|` indicators, and `z[i][j]` is `Z(i, j)` bounded to `[0, 1]` |
| NeighbourSelection.Nearest | linear_program.py:130-133 | the scan with strict `<` stops at a member whose distance from `j` is minimal, and every earlier member is strictly farther: the first minimum |
| NeighbourSelection.Representative | linear_program.py:127-133 | `center == j` when `j` is on the level; otherwise `center` is a member at minimal distance from `j`, at a position before which every member is strictly farther |
| LinearProgramModel.LinearProgram.RepresentativeOf | linear_program.py:127-133 | the scan loop yields `Center(levels, dist, i, j)`: the representative above |
| NeighbourSelection.NonMemberCenterIsFirstNearest | linear_program.py:129-133 | off the level, the representative is the first member nearest to `j`: no member is nearer, and every member before it is strictly farther |
| NeighbourSelection.MemberIsOwnCenter | linear_program.py:127-128 | on the level, the representative is `j`; slot `j` of `z[i]` is kept iff it exists and `dist[j][j]` is within the radius |
| NeighbourSelection.SelectedSlots | linear_program.py:135-137 | the kept slots are increasing and below `\|z[i]\|`; slot `k` is kept iff `row[k] <= radius` |
| NeighbourSelection.SelectedSlotsStep | linear_program.py:135-137 | one more slot `k` of the filter appends `z[i][k]` exactly when `row[k] <= radius` |
| LinearProgramModel.LinearProgram.NeighbourVars | linear_program.py:124-139 | `_N_i_j(alpha, i, j)` returns exactly `Neighbours(levels, dist, alpha, i, j)` |
| NeighbourSelection.NeighboursSpec | linear_program.py:124-139 | the result is an order-preserving subsequence of `z[i]`, no longer than `z[i]`, and holds `z[i][k]` iff `k < \|z[i]\|` and `dist[center][k] <= alpha * 2^-i` |
| NeighbourSelection.RadiusMonotone | linear_program.py:136 | the radius `alpha * 2^-i` does not decrease as `alpha` grows |
| NeighbourSelection.NeighboursGrowWithAlpha | linear_program.py:135-137 | a larger `alpha` keeps a superset of the indicators |
| NeighbourSelection.SlotIndexingExample | linear_program.py:136 | the filter indexes the matrix by slot position: a point that is its own representative can still be left out |
| Families.OracleComputesNeighbours | linear_program.py:124-139 | the neighbour lists the families refer to are the lists `_N_i_j` computes, wherever its arguments are in range |
| Families.CallBounds | linear_program.py:76-100 | with the index bounds `solve` needs, every `_N_i_j` call it makes has a point inside the matrix and reads a non-empty level |
| Families.PowReal | linear_program.py:76 | `(2 * alpha) ** d_tag` and `48 ** d_tag` are positive for every integer `d_tag` |
| Families.TwoToMinus | linear_program.py:100 | `2 ** -i` is positive |
| NeighbourSelection.Radius | linear_program.py:136 | the radius `alpha * 2 ** -i` as the exact real `alpha / 2^i` |
| NeighbourSelection.Neighbours | linear_program.py:124-139 | the list `_N_i_j(alpha, i, j)` returns: the indicators of level `i` at the slots `SelectedSlots` keeps around the representative `Center` |
| Families.DTag | linear_program.py:64 | `d_tag = 4 * d + 1` |
| Families.PackingBound | linear_program.py:76 | the right-hand side `(2 * alpha) ** d_tag` of (11) |
| Families.GrowthCoeff | linear_program.py:89 | the coefficient `1 / (2 * 24) ** d_tag` of (13) |
| Families.Monotone | linear_program.py:70 | the constraint (10) for `(i, j)`: `1 * z[i][j] <= 1 * z[i+1][j]`, named by tag (10) and `[i, j]` |
| Families.Packing | linear_program.py:76-77 | the constraint (11) for `(alpha, j, i)`: `sum N(alpha, i, j) <= (2 * alpha) ** d_tag`, named by tag (11) and `[alpha, j, i]` |
| Families.LowerCover | linear_program.py:82-83 | the constraint (12) for `(j, i)`: `sum N(7, i, j) >= z[t][j]`, named by tag (12) and `[j, i]` |
| Families.NestedGrowth | linear_program.py:89-90 | the constraint (13) for `(j, k, i)`: `sum N(24, i, j) >= (1 / 48 ** d_tag) * sum N(24, k, j)`, named by tag (13) and `[j, k, i]` |
| Families.SlackFloor | linear_program.py:95 | the constraint (15) for `j`: `delta * z[t][j] + c[j] >= delta`, named by tag (15) and `[j]` |
| Families.PerLevelSlack | linear_program.py:100-101 | the constraint (16) for `(j, i)`: `2 ** -i * z[t][j] + c[j] + delta * sum N(12, i, j) >= delta`, named by tag (16) and `[j, i]` |
| Families.Family10 | linear_program.py:68-70 | the constraints (10) in loop order: `i < t`, then `j < \|z[i]\|` |
| Families.Family11 | linear_program.py:73-77 | the constraints (11) in loop order: `alpha` in `ALPHAS`, then `j < n`, then `i <= t` |
| Families.Family12 | linear_program.py:80-83 | the constraints (12) in loop order: `j < \|z[t]\|`, then `i <= t` |
| Families.Family13 | linear_program.py:86-90 | the constraints (13) in loop order: `j < n`, then `k <= t`, then `i < k` |
| Families.Family15 | linear_program.py:93-95 | the constraints (15) in loop order: `j < n` |
| Families.Family16 | linear_program.py:98-101 | the constraints (16) in loop order: `j < n`, then `i <= t` |
| Families.AllConstraints | linear_program.py:66-101 | every constraint `solve` adds, family (10) first and (16) last |
| Families.AlphasDistinctPositive | linear_program.py:9 | the five scale factors of `ALPHAS` are positive and pairwise distinct |
| Families.MonotoneRowLength | linear_program.py:69-70 | the inner loop of (10) appends one constraint per slot of `z[i]` |
| Families.MonotoneRowFacts | linear_program.py:69-70 | the inner loop of (10) appends exactly `z[i][j] <= z[i+1][j]` for `j < \|z[i]\|`, under distinct names |
| Families.MonotonePrefixLength | linear_program.py:68-70 | the first `i` rounds of (10) append the sum of the sizes of levels `0..i-1` |
| Families.MonotoneCellStep | linear_program.py:69-70 | one more slot appends its constraint after the earlier ones |
| Families.MonotoneLoopStep | linear_program.py:68-70 | one more level appends its row after the earlier rows |
| Families.Family10Length | linear_program.py:67-70 | (10) holds the sum over `i < t` of `\|z[i]\|` constraints |
| Families.Family10Facts | linear_program.py:67-70 | (10) holds exactly `z[i][j] <= z[i+1][j]` for `i < t` and `j < \|z[i]\|`, with that count, under distinct names tagged (10) |
| LinearProgramModel.LinearProgram.AddMonotonicityForLevel | linear_program.py:69-70 | appends the row of level `i` of (10) and nothing else |
| LinearProgramModel.LinearProgram.AddMonotonicity | linear_program.py:67-70 | appends `Family10` and nothing else |
| Families.PackingCellLength | linear_program.py:75-77 | the loop over `i <= t` appends `t + 1` constraints |
| Families.PackingCellFacts | linear_program.py:75-77 | for fixed `alpha` and `j`, the loop appends exactly `sum N(alpha, i, j) <= (2 alpha) ** d_tag` for `i <= t`, under distinct names |
| Families.PackingPointFacts | linear_program.py:74-77 | for one `alpha`, the loops append `n * (t + 1)` constraints: exactly the packing constraints for `j < n` and `i <= t`, under distinct names |
| Families.PackingCellStep | linear_program.py:75-77 | one more level appends its packing constraint after the earlier ones |
| Families.PackingPointStep | linear_program.py:74-77 | one more point appends its block after the earlier ones |
| Families.PackingAlphaStep | linear_program.py:73-77 | one more scale factor appends its block after the earlier ones |
| Families.Family11Length | linear_program.py:73-77 | (11) holds `5 * n * (t + 1)` constraints |
| Families.Family11Distinct | linear_program.py:73-77 | no two constraints of (11) share a name |
| Families.Family11Members | linear_program.py:73-77 | (11) holds exactly the packing constraints for `alpha` in `ALPHAS`, `j < n` and `i <= t` |
| Families.Family11Facts | linear_program.py:9-77 | count, membership, distinct names and the tag (11) together |
| LinearProgramModel.LinearProgram.PackingConstraint | linear_program.py:76-77 | builds the packing constraint for `(alpha, j, i)` from `_N_i_j` and `d_tag = 4 d + 1` |
| LinearProgramModel.LinearProgram.AddPackingForPoint | linear_program.py:75-77 | appends the block of `(alpha, j)` and nothing else |
| LinearProgramModel.LinearProgram.AddPackingForAlpha | linear_program.py:74-77 | appends the block of `alpha` and nothing else |
| LinearProgramModel.LinearProgram.AddPacking | linear_program.py:64-77 | appends `Family11` and nothing else |
| Families.LowerCoverCellLength | linear_program.py:81-83 | the loop over `i <= t` appends `t + 1` constraints |
| Families.LowerCoverCellFacts | linear_program.py:81-83 | for one slot `j` of `z[t]`, the loop appends exactly `sum N(7, i, j) >= z[t][j]` for `i <= t`, under distinct names |
| Families.LowerCoverCellStep | linear_program.py:81-83 | one more level appends its constraint after the earlier ones |
| Families.LowerCoverLoopStep | linear_program.py:80-83 | one more slot of `z[t]` appends its block after the earlier ones |
| Families.Family12Length | linear_program.py:79-83 | (12) holds `\|z[t]\| * (t + 1)` constraints |
| Families.Family12Facts | linear_program.py:79-83 | (12) holds exactly the lower-cover constraints for `j < \|z[t]\|` and `i <= t`, with that count, under distinct names tagged (12) |
| LinearProgramModel.LinearProgram.LowerCoverConstraint | linear_program.py:82-83 | builds the lower-cover constraint for `(j, i)` from `_N_i_j(7, i, j)` and `z[t][j]` |
| LinearProgramModel.LinearProgram.AddLowerCoverForSlot | linear_program.py:81-83 | appends the block of slot `j` and nothing else |
| LinearProgramModel.LinearProgram.AddLowerCover | linear_program.py:79-83 | appends `Family12` and nothing else |
| Families.GrowthCellLength | linear_program.py:88-90 | the loop over `i < k` appends `k` constraints |
| Families.GrowthCellFacts | linear_program.py:88-90 | for one `j` and `k`, the loop appends exactly the growth constraints for `i < k`, under distinct names |
| Families.GrowthLevelPrefixLength | linear_program.py:87-90 | the first `k` rounds over the levels append `k (k - 1) / 2` constraints |
| Families.GrowthLevelFacts | linear_program.py:87-90 | for one `j`, the loops append `t (t + 1) / 2` constraints: exactly one per pair `i < k <= t`, under distinct names |
| Families.GrowthCellStep | linear_program.py:88-90 | one more `i` appends its constraint after the earlier ones |
| Families.GrowthLevelStep | linear_program.py:87-90 | one more level `k` appends its block after the earlier ones |
| Families.GrowthPointStep | linear_program.py:86-90 | one more point appends its block after the earlier ones |
| Families.Family13Length | linear_program.py:85-90 | (13) holds `n * t (t + 1) / 2` constraints |
| Families.Family13Distinct | linear_program.py:85-90 | no two constraints of (13) share a name |
| Families.Family13Members | linear_program.py:85-90 | (13) holds exactly the growth constraints for `j < n` and `i < k <= t` |
| Families.Family13Facts | linear_program.py:85-90 | count, membership, distinct names and the tag (13) together |
| LinearProgramModel.LinearProgram.NestedGrowthConstraint | linear_program.py:89-90 | builds the growth constraint for `(j, k, i)` from `_N_i_j(24, i, j)`, `_N_i_j(24, k, j)` and the coefficient `1 / 48 ** d_tag` |
| LinearProgramModel.LinearProgram.AddNestedGrowthForLevel | linear_program.py:88-90 | appends the block of `(j, k)` and nothing else |
| LinearProgramModel.LinearProgram.AddNestedGrowthForPoint | linear_program.py:87-90 | appends the block of point `j` and nothing else |
| LinearProgramModel.LinearProgram.AddNestedGrowth | linear_program.py:85-90 | appends `Family13` and nothing else |
| Families.SlackFloorStep | linear_program.py:93-95 | one more point appends its constraint after the earlier ones |
| Families.Family15Length | linear_program.py:92-95 | (15) holds `n` constraints |
| Families.Family15Facts | linear_program.py:92-95 | (15) holds exactly `delta * z[t][j] + c[j] >= delta` for `j < n`, under distinct names tagged (15) |
| LinearProgramModel.LinearProgram.AddSlackFloor | linear_program.py:92-95 | appends `Family15` and nothing else |
| Families.PerLevelCellLength | linear_program.py:99-101 | the loop over `i <= t` appends `t + 1` constraints |
| Families.PerLevelCellFacts | linear_program.py:99-101 | for one `j`, the loop appends exactly `2^-i z[t][j] + c[j] + delta sum N(12, i, j) >= delta` for `i <= t`, under distinct names |
| Families.PerLevelCellStep | linear_program.py:99-101 | one more level appends its constraint after the earlier ones |
| Families.PerLevelLoopStep | linear_program.py:98-101 | one more point appends its block after the earlier ones |
| Families.Family16Length | linear_program.py:97-101 | (16) holds `n * (t + 1)` constraints |
| Families.Family16Facts | linear_program.py:97-101 | (16) holds exactly the per-level slack constraints for `j < n` and `i <= t`, with that count, under distinct names tagged (16) |
| LinearProgramModel.LinearProgram.PerLevelSlackConstraint | linear_program.py:100-101 | builds the constraint for `(j, i)` from `2 ** -i`, `z[t][j]`, `c[j]`, `delta` and `_N_i_j(12, i, j)` |
| LinearProgramModel.LinearProgram.AddPerLevelSlackForPoint | linear_program.py:99-101 | appends the block of point `j` and nothing else |
| LinearProgramModel.LinearProgram.AddPerLevelSlack | linear_program.py:97-101 | appends `Family16` and nothing else |
| LinearProgramModel.Objective | linear_program.py:104 | the objective holds exactly one term `1 * c[j]` for each `j < n`, in order |
| Families.AllNamesDistinct | linear_program.py:70-101 | no two constraints of the whole problem share a name |
| Families.ConstraintCount | linear_program.py:66-101 | the problem holds `sum_{i<t} \|z[i]\| + 5 n (t + 1) + \|z[t]\| (t + 1) + n t (t + 1) / 2 + n + n (t + 1)` constraints |
| Families.SingleLevel | linear_program.py:66-101 | with one level, (10) and (13) are empty, (11) has `5 n` constraints, (12) has `\|z[0]\|`, and (15) and (16) have `n` each |
| LinearProgramModel.LinearProgram.Solve | linear_program.py:63-104 | appends families (10), (11), (12), (13), (15) and (16) in that order, with pairwise distinct names, then sets the objective to `sum c` |

## Left out

- Solving the problem and its status (linear_program.py:108). PuLP is a foreign library, so the model stops at the problem it would be given.
- `print(self.model)` and `writeLP` (linear_program.py:106, 110). These are output only.
- Writing the solution values to the save file (linear_program.py:112-122). This is file I/O over solved values. The save path itself is computed.
- The construction of the hierarchy and the distance matrix. hierarchy.py is not part of this model. Both come in as inputs. The requires clauses state the index bounds the code relies on.
- Floating point. Distances, `2 ** -i` and `1 / 48 ** d_tag` are exact reals, and `(2 * alpha) ** d_tag` is an exact power, not an IEEE approximation.
- PuLP's merging of repeated variables. A constraint keeps one term per listed variable, on the side the code writes it. `_N_i_j` never lists a variable twice, but PuLP also merges one variable across the two sides and the `+` of a constraint. In (16) at `i = t`, `z[t][j]` can appear both as the `2 ** -t` term and inside `delta * sum N(12, t, j)`; PuLP adds the two coefficients. In (12) at `i = t`, `z[t][j]` can stand on both sides; PuLP moves it to one side with the difference of its coefficients. The model keeps the separate terms. They have the same meaning as the merged form, but the representation differs.
- PuLP's name strings such as `constraint_(11)_alpha7_j0_i0`. They are modelled by a structural name: the family tag and the index tuple the string is formatted from. Distinct tuples give distinct strings, because every index is printed after its own label.
- LinearProgramModel.LinearProgram.Solve: its precondition gathers the cases where the code raises an `IndexError` instead of finishing:
  - no level;
  - a level shorter than the previous one, at the read `z[i+1][j]` of (10);
  - `n > |z[t]|`, at the reads `z[t][j]` of (15) and (16);
  - an empty level looked up through `hierarchy[i][0]`;
  - a point or slot outside the matrix.

  The model does not return these errors as values. It also requires a fresh problem (no constraints and no objective yet), because PuLP refuses a second constraint under an existing name.
- Each object names the lists `_N_i_j` returns once, in the ghost field `neighbourLists`, and the families are written over that field. `Families.OracleComputesNeighbours` and the constructor tie the field to `Neighbours`. So every constraint built from it holds exactly the list `_N_i_j` computes. The field is a specification device. It has no counterpart in the code.
