/**
  The arithmetic behind the vote combiner: the row sum that counts votes,
  the `[1 - p, p]` proportion, numpy's `argmax` (first index of the maximum),
  and numpy's `mean(..., axis=0)` over the pool's per-model probability
  matrices.  Probabilities and proportions are exact reals.
 */
module VoteArithmetic {
  import opened Common

  // ---------------------------------------------------------------- sums

  /** The sum of a row of integer votes (pandas `Series.sum`). */
  function Sum(s: seq<int>): (total: int)
  {
    if s == [] then 0 else s[0] + Sum(s[1..])
  }

  /** The sum of a row of reals. */
  function RealSum(s: seq<real>): (total: real)
  {
    if s == [] then 0.0 else s[0] + RealSum(s[1..])
  }

  /** Every vote is a class index of a binary problem: 0 (negative) or 1 (positive). */
  predicate IsBinary(s: seq<int>)
  {
    forall i | 0 <= i < |s| :: s[i] == 0 || s[i] == 1
  }

  /** Over 0/1 votes the sum is the number of positive votes. */
  lemma {:induction false} SumOfBinaryVotes(s: seq<int>)
    requires IsBinary(s)
    ensures Sum(s) == multiset(s)[1]
    ensures 0 <= Sum(s) <= |s|
  {
    if s != [] {
      assert s == [s[0]] + s[1..];
      assert multiset(s) == multiset([s[0]]) + multiset(s[1..]);
      assert IsBinary(s[1..]) by {
        forall i | 0 <= i < |s[1..]| ensures s[1..][i] == 0 || s[1..][i] == 1 {
          assert s[1..][i] == s[i + 1];
        }
      }
      SumOfBinaryVotes(s[1..]);
    }
  }

  // ---------------------------------------------------------------- hard voting

  /** `prop = float(sum(votes)) / n` returned as `[1 - prop, prop]`. */
  function Proportion(votes: seq<int>, n: nat): (r: seq<real>)
    requires n != 0
    ensures |r| == 2
    ensures r[0] + r[1] == 1.0
  {
    var prop := Sum(votes) as real / n as real;
    [1.0 - prop, prop]
  }

  /** With k positive votes out of n models the proportion is `[1 - k/n, k/n]`, both in [0, 1]. */
  lemma ProportionOfPositiveVotes(votes: seq<int>, n: nat)
    requires IsBinary(votes) && |votes| == n && n != 0
    ensures var k := multiset(votes)[1] as real;
            Proportion(votes, n) == [1.0 - k / n as real, k / n as real]
    ensures 0.0 <= Proportion(votes, n)[0] <= 1.0
    ensures 0.0 <= Proportion(votes, n)[1] <= 1.0
  {
    SumOfBinaryVotes(votes);
    var k := Sum(votes) as real;
    var N := n as real;
    UnitFraction(k, N);
  }

  /** A share of a positive whole lies in [0, 1]. */
  lemma UnitFraction(k: real, n: real)
    requires 0.0 <= k <= n && n > 0.0
    ensures 0.0 <= k / n <= 1.0
  {
    assert k / n * n == k;
  }

  // ---------------------------------------------------------------- argmax

  /** `k` is the first index at which `s` takes its maximum. */
  predicate IsFirstMax(s: seq<real>, k: nat)
  {
    && k < |s|
    && (forall j | 0 <= j < |s| :: s[j] <= s[k])
    && (forall j | 0 <= j < k :: s[j] < s[k])
  }

  /** `np.argmax` of a non-empty vector: scanning left to right, a later entry wins only when strictly larger. */
  function ArgMax(s: seq<real>): (k: nat)
    requires |s| > 0
    ensures IsFirstMax(s, k)
  {
    if |s| == 1 then 0
    else
      var k := ArgMax(s[..|s| - 1]);
      if s[k] < s[|s| - 1] then |s| - 1 else k
  }

  /** The hard decision over `[1 - p, p]`: class 1 exactly when `p > 1/2`; a tie goes to class 0. */
  lemma HardDecision(p: real)
    ensures ArgMax([1.0 - p, p]) == if p > 0.5 then 1 else 0
  {
    var k := ArgMax([1.0 - p, p]);
    if p > 0.5 {
      assert [1.0 - p, p][0] < [1.0 - p, p][1];
    } else {
      assert !([1.0 - p, p][0] < [1.0 - p, p][1]);
    }
  }

  /** `np.argmax(m, axis=1)`: one first-maximum index per row; an empty row raises. */
  function ArgMaxRows(m: seq<seq<real>>): (r: Result<seq<nat>>)
    ensures r.Ok? <==> forall i | 0 <= i < |m| :: |m[i]| > 0
    ensures r.Ok? ==> |r.value| == |m| && forall i | 0 <= i < |m| :: IsFirstMax(m[i], r.value[i])
    ensures r.Err? ==> r.error.ValueError?
  {
    if exists i | 0 <= i < |m| :: |m[i]| == 0 then
      Result<seq<nat>>.Err(ValueError("attempt to get argmax of an empty sequence"))
    else
      Ok(seq(|m|, i requires 0 <= i < |m| => ArgMax(m[i])))
  }

  // ---------------------------------------------------------------- soft voting

  /** `m` has `rows` rows of `cols` entries each. */
  predicate Rectangular(m: seq<seq<real>>, rows: nat, cols: nat)
  {
    |m| == rows && forall i | 0 <= i < rows :: |m[i]| == cols
  }

  /** Every matrix of `ms` has `rows` rows of `cols` entries. */
  predicate Shaped(ms: seq<ProbaMatrix>, rows: nat, cols: nat)
  {
    forall k | 0 <= k < |ms| :: Rectangular(ms[k], rows, cols)
  }

  /** The number of columns of the first matrix (0 when it has no rows). */
  function Width(ms: seq<ProbaMatrix>): nat
  {
    if |ms| > 0 && |ms[0]| > 0 then |ms[0][0]| else 0
  }

  /** The matrices stack into one numpy array: all have the first one's shape. */
  predicate Homogeneous(ms: seq<ProbaMatrix>)
  {
    |ms| > 0 && Shaped(ms, |ms[0]|, Width(ms))
  }

  /** Each row sums to 1. */
  predicate RowStochastic(m: seq<seq<real>>)
  {
    forall i | 0 <= i < |m| :: RealSum(m[i]) == 1.0
  }

  /** The entry at `(i, j)` of every model's matrix, in model order. */
  function ModelEntries(ms: seq<ProbaMatrix>, rows: nat, cols: nat, i: nat, j: nat): (e: seq<real>)
    requires Shaped(ms, rows, cols) && i < rows && j < cols
    ensures |e| == |ms|
    ensures forall k | 0 <= k < |ms| :: e[k] == ms[k][i][j]
  {
    seq(|ms|, k requires 0 <= k < |ms| => ms[k][i][j])
  }

  function AddRows(u: seq<real>, v: seq<real>): (w: seq<real>)
    requires |u| == |v|
    ensures |w| == |u|
  {
    seq(|u|, j requires 0 <= j < |u| => u[j] + v[j])
  }

  function DivRow(u: seq<real>, d: real): (w: seq<real>)
    requires d != 0.0
    ensures |w| == |u|
  {
    seq(|u|, j requires 0 <= j < |u| => u[j] / d)
  }

  /** The element-wise sum of the matrices of `ms`. */
  function Total(ms: seq<ProbaMatrix>, rows: nat, cols: nat): (t: seq<seq<real>>)
    requires Shaped(ms, rows, cols)
    ensures Rectangular(t, rows, cols)
    decreases |ms|
  {
    if |ms| == 0 then
      seq(rows, i => seq(cols, j => 0.0))
    else
      var rest := Total(ms[1..], rows, cols);
      seq(rows, i requires 0 <= i < rows => AddRows(ms[0][i], rest[i]))
  }

  /** The element-wise mean: the total divided by the number of matrices. */
  function MeanOf(ms: seq<ProbaMatrix>, rows: nat, cols: nat): (m: seq<seq<real>>)
    requires |ms| > 0 && Shaped(ms, rows, cols)
    ensures Rectangular(m, rows, cols)
  {
    var t := Total(ms, rows, cols);
    seq(rows, i requires 0 <= i < rows => DivRow(t[i], |ms| as real))
  }

  lemma {:induction false} RealSumAdd(u: seq<real>, v: seq<real>)
    requires |u| == |v|
    ensures RealSum(AddRows(u, v)) == RealSum(u) + RealSum(v)
  {
    if u != [] {
      assert AddRows(u, v)[1..] == AddRows(u[1..], v[1..]);
      RealSumAdd(u[1..], v[1..]);
    }
  }

  lemma {:induction false} RealSumDiv(u: seq<real>, d: real)
    requires d != 0.0
    ensures RealSum(DivRow(u, d)) == RealSum(u) / d
  {
    if u != [] {
      assert DivRow(u, d)[1..] == DivRow(u[1..], d);
      RealSumDiv(u[1..], d);
      assert u[0] / d + RealSum(u[1..]) / d == (u[0] + RealSum(u[1..])) / d;
    }
  }

  lemma {:induction false} RealSumZeros(n: nat)
    ensures RealSum(seq(n, j => 0.0)) == 0.0
  {
    if n > 0 {
      assert seq(n, j => 0.0)[1..] == seq(n - 1, j => 0.0);
      RealSumZeros(n - 1);
    }
  }

  /** Each entry of the total is the sum of that entry over the models. */
  lemma {:induction false} TotalAt(ms: seq<ProbaMatrix>, rows: nat, cols: nat, i: nat, j: nat)
    requires Shaped(ms, rows, cols) && i < rows && j < cols
    ensures Total(ms, rows, cols)[i][j] == RealSum(ModelEntries(ms, rows, cols, i, j))
    decreases |ms|
  {
    if |ms| > 0 {
      TotalAt(ms[1..], rows, cols, i, j);
      assert ModelEntries(ms, rows, cols, i, j)[1..] == ModelEntries(ms[1..], rows, cols, i, j);
    }
  }

  /** Over row-stochastic matrices, each row of the total sums to the number of matrices. */
  lemma {:induction false} TotalRowSum(ms: seq<ProbaMatrix>, rows: nat, cols: nat, i: nat)
    requires Shaped(ms, rows, cols) && i < rows
    requires forall k | 0 <= k < |ms| :: RowStochastic(ms[k])
    ensures RealSum(Total(ms, rows, cols)[i]) == |ms| as real
    decreases |ms|
  {
    if |ms| == 0 {
      RealSumZeros(cols);
    } else {
      var rest := Total(ms[1..], rows, cols);
      TotalRowSum(ms[1..], rows, cols, i);
      assert RowStochastic(ms[0]);
      RealSumAdd(ms[0][i], rest[i]);
    }
  }

  /** Each entry of the mean is the average of that entry over the models. */
  lemma MeanAt(ms: seq<ProbaMatrix>, rows: nat, cols: nat, i: nat, j: nat)
    requires |ms| > 0 && Shaped(ms, rows, cols) && i < rows && j < cols
    ensures MeanOf(ms, rows, cols)[i][j] == RealSum(ModelEntries(ms, rows, cols, i, j)) / |ms| as real
  {
    TotalAt(ms, rows, cols, i, j);
  }

  lemma SelfQuotient(n: real)
    requires n != 0.0
    ensures n / n == 1.0
  {
  }

  /** The mean of row-stochastic matrices is row-stochastic. */
  lemma MeanIsRowStochastic(ms: seq<ProbaMatrix>, rows: nat, cols: nat)
    requires |ms| > 0 && Shaped(ms, rows, cols)
    requires forall k | 0 <= k < |ms| :: RowStochastic(ms[k])
    ensures RowStochastic(MeanOf(ms, rows, cols))
  {
    var t := Total(ms, rows, cols);
    var m := MeanOf(ms, rows, cols);
    forall i | 0 <= i < rows
      ensures RealSum(m[i]) == 1.0
    {
      TotalRowSum(ms, rows, cols, i);
      assert m[i] == DivRow(t[i], |ms| as real);
      RealSumDiv(t[i], |ms| as real);
      SelfQuotient(|ms| as real);
    }
  }

  /**
    `np.mean(ms, axis=0)`: the element-wise mean of the per-model matrices.
    Matrices of different shapes cannot be stacked and raise; an empty list
    has no mean.
   */
  function MeanOverModels(ms: seq<ProbaMatrix>): (r: Result<ProbaMatrix>)
    ensures |ms| == 0 ==> r == Err(EmptyMean)
    ensures r.Ok? <==> Homogeneous(ms)
    ensures |ms| > 0 && !Homogeneous(ms) ==> r.Err? && r.error.ValueError?
    ensures r.Ok? ==> Rectangular(r.value, |ms[0]|, Width(ms))
    ensures r.Ok? ==> forall i, j | 0 <= i < |ms[0]| && 0 <= j < Width(ms) ::
              r.value[i][j] == RealSum(ModelEntries(ms, |ms[0]|, Width(ms), i, j)) / |ms| as real
  {
    if |ms| == 0 then Err(EmptyMean)
    else if !Homogeneous(ms) then
      Err(ValueError("setting an array element with a sequence: inhomogeneous shape"))
    else
      var m := MeanOf(ms, |ms[0]|, Width(ms));
      assert forall i, j | 0 <= i < |ms[0]| && 0 <= j < Width(ms) ::
          m[i][j] == RealSum(ModelEntries(ms, |ms[0]|, Width(ms), i, j)) / |ms| as real by {
        forall i, j | 0 <= i < |ms[0]| && 0 <= j < Width(ms)
          ensures m[i][j] == RealSum(ModelEntries(ms, |ms[0]|, Width(ms), i, j)) / |ms| as real
        {
          MeanAt(ms, |ms[0]|, Width(ms), i, j);
        }
      }
      Ok(m)
  }

  // ---------------------------------------------------------------- worked examples

  /** Three models, two voting positive on the sample: `[1/3, 2/3]`, and the decision is class 1. */
  lemma TwoOfThreeVotes()
    ensures Proportion([1, 1, 0], 3) == [1.0 / 3.0, 2.0 / 3.0]
    ensures ArgMax(Proportion([1, 1, 0], 3)) == 1
  {
    HardDecision(2.0 / 3.0);
  }

  /** Probabilities `[0.2, 0.8]`, `[0.6, 0.4]`, `[0.3, 0.7]` average to `[11/30, 19/30]`, decision class 1. */
  lemma ThreeProbabilityVectors()
    ensures MeanOverModels([[[0.2, 0.8]], [[0.6, 0.4]], [[0.3, 0.7]]]) == Ok([[11.0 / 30.0, 19.0 / 30.0]])
    ensures ArgMax([11.0 / 30.0, 19.0 / 30.0]) == 1
  {
    var ms: seq<ProbaMatrix> := [[[0.2, 0.8]], [[0.6, 0.4]], [[0.3, 0.7]]];
    assert Homogeneous(ms);
    var r := MeanOverModels(ms);
    MeanAt(ms, 1, 2, 0, 0);
    MeanAt(ms, 1, 2, 0, 1);
    assert ModelEntries(ms, 1, 2, 0, 0) == [0.2, 0.6, 0.3];
    assert ModelEntries(ms, 1, 2, 0, 1) == [0.8, 0.4, 0.7];
    assert Width(ms) == 2 && r.Ok? && |r.value| == 1 && |r.value[0]| == 2;
    assert r.value[0] == [11.0 / 30.0, 19.0 / 30.0];
    assert r.value == [[11.0 / 30.0, 19.0 / 30.0]];
  }
}
