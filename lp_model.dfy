/** A symbolic stand-in for the LP library: variables with bounds, linear
    expressions as lists of (coefficient, variable) pairs, and named
    constraints.  Also the combinator `Flatten` that describes the output of
    a `for` loop that appends a block of constraints per iteration. */
module LpModel {

  datatype Option<T> = None | Some(value: T)

  /** Exact natural-number power b^e. */
  function Pow(b: nat, e: nat): (r: nat)
    ensures b > 0 ==> r > 0
  {
    if e == 0 then 1 else b * Pow(b, e - 1)
  }

  /** The identity of an LP variable: slack `c[j]` or indicator `z[i][j]`. */
  datatype Var = C(j: nat) | Z(i: nat, j: nat)

  /** A declared LP variable; `None` means unbounded on that side. */
  datatype LpVar = LpVar(name: Var, lowBound: Option<real>, upBound: Option<real>)

  /** Slack `c[j]`: lower bound 0, no upper bound. */
  function SlackVar(j: nat): LpVar { LpVar(C(j), Some(0.0), None) }

  /** Indicator `z[i][j]`: bounded to [0, 1]. */
  function IndicatorVar(i: nat, j: nat): LpVar { LpVar(Z(i, j), Some(0.0), Some(1.0)) }

  datatype Term = Term(coeff: real, v: LpVar)
  type LinExpr = seq<Term>

  /** `coeff * lpSum(vs)`, kept as one term per listed variable. */
  function Sum(vs: seq<LpVar>, coeff: real): LinExpr
  {
    seq(|vs|, m requires 0 <= m < |vs| => Term(coeff, vs[m]))
  }

  datatype Sense = Le | Ge

  /** The constraint families (10), (11), (12), (13), (15) and (16). */
  datatype Family = F10 | F11 | F12 | F13 | F15 | F16

  /** A structural constraint name: the family tag and the loop indices. */
  datatype Name = Name(family: Family, index: seq<int>)

  /** The constraint `sum(lhs) sense sum(rhs) + constant`. */
  datatype Constraint = Constraint(name: Name, lhs: LinExpr, sense: Sense, rhs: LinExpr, constant: real)

  predicate DistinctNames(cs: seq<Constraint>)
  {
    forall a, b :: 0 <= a < b < |cs| ==> cs[a].name != cs[b].name
  }

  /** What `for k in range(count): <append f(k)>` appends. */
  function Flatten(count: nat, f: nat --> seq<Constraint>): seq<Constraint>
    requires forall k :: 0 <= k < count ==> f.requires(k)
  {
    if count == 0 then [] else Flatten(count - 1, f) + f(count - 1)
  }

  /** The list 0, 1, ..., count - 1, used as the loop keys of a `range` loop. */
  function Range(count: nat): (r: seq<int>)
    ensures |r| == count && forall k :: 0 <= k < count ==> r[k] == k
  {
    seq(count, k requires 0 <= k < count => k)
  }

  /** A loop whose every iteration appends `width` constraints appends `count * width`. */
  lemma {:induction false} FlattenUniformLength(count: nat, f: nat --> seq<Constraint>, width: nat)
    requires forall k :: 0 <= k < count ==> f.requires(k)
    requires forall k :: 0 <= k < count ==> |f(k)| == width
    ensures |Flatten(count, f)| == count * width
  {
    if count > 0 {
      FlattenUniformLength(count - 1, f, width);
      assert |Flatten(count, f)| == (count - 1) * width + width;
    }
  }

  /** A loop whose every iteration appends one constraint appends them in
      iteration order. */
  lemma {:induction false} SingletonFlatten(count: nat, f: nat --> seq<Constraint>)
    requires forall k :: 0 <= k < count ==> f.requires(k) && |f(k)| == 1
    ensures |Flatten(count, f)| == count
    ensures forall k :: 0 <= k < count ==> Flatten(count, f)[k] == f(k)[0]
  {
    if count > 0 {
      SingletonFlatten(count - 1, f);
    }
  }

  /** One more iteration of the loop appends its block after the earlier ones. */
  lemma FlattenStep(prefix: seq<Constraint>, count: nat, f: nat --> seq<Constraint>, block: seq<Constraint>)
    requires forall k :: 0 <= k <= count ==> f.requires(k)
    requires f(count) == block
    ensures prefix + Flatten(count, f) + block == prefix + Flatten(count + 1, f)
  {
  }

  /** A constraint is appended by the loop iff some iteration appends it. */
  lemma {:induction false} FlattenMember(count: nat, f: nat --> seq<Constraint>)
    requires forall k :: 0 <= k < count ==> f.requires(k)
    ensures forall c :: c in Flatten(count, f) <==> exists k :: 0 <= k < count && c in f(k)
  {
    if count > 0 {
      FlattenMember(count - 1, f);
    }
  }

  /** If each iteration appends distinctly named constraints whose index tuple
      holds the iteration's own key at position `pos`, and the keys are
      distinct, then all appended names are distinct. */
  lemma {:induction false} FlattenDistinct(count: nat, f: nat --> seq<Constraint>, pos: nat, keys: seq<int>)
    requires forall k :: 0 <= k < count ==> f.requires(k)
    requires |keys| == count
    requires forall k1, k2 :: 0 <= k1 < k2 < count ==> keys[k1] != keys[k2]
    requires forall k :: 0 <= k < count ==> DistinctNames(f(k))
    requires forall k, c :: 0 <= k < count && c in f(k) ==> pos < |c.name.index| && c.name.index[pos] == keys[k]
    ensures DistinctNames(Flatten(count, f))
  {
    if count > 0 {
      FlattenDistinct(count - 1, f, pos, keys[..count - 1]);
      FlattenMember(count - 1, f);
      var all, pre, last := Flatten(count, f), Flatten(count - 1, f), f(count - 1);
      assert all == pre + last;
      forall a, b | 0 <= a < b < |all|
        ensures all[a].name != all[b].name
      {
        if a < |pre| && |pre| <= b {
          assert pre[a] in pre;
          var x :| 0 <= x < count - 1 && pre[a] in f(x);
          assert last[b - |pre|] in last;
          assert keys[x] != keys[count - 1];
        }
      }
    }
  }

  /** Concatenating two distinctly named lists with no name in common. */
  lemma DistinctConcat(xs: seq<Constraint>, ys: seq<Constraint>)
    requires DistinctNames(xs) && DistinctNames(ys)
    requires forall x, y :: x in xs && y in ys ==> x.name != y.name
    ensures DistinctNames(xs + ys)
  {
    var all := xs + ys;
    forall a, b | 0 <= a < b < |all|
      ensures all[a].name != all[b].name
    {
      if a < |xs| && |xs| <= b {
        assert xs[a] in xs && ys[b - |xs|] in ys;
      }
    }
  }
}
