/** The handful of numpy indexing operations the core relies on, over exact
    reals: boolean masks (`np.where`), fancy indexing by an index vector,
    column selection, the upper clip and column-wise standardisation. */
module Arrays {

  /** A dense matrix, one sequence per row. */
  type Matrix = seq<seq<real>>

  /** Every row of `m` has exactly `cols` entries. */
  predicate HasWidth(m: Matrix, cols: nat) {
    forall i :: 0 <= i < |m| ==> |m[i]| == cols
  }

  predicate StrictlyIncreasing(s: seq<nat>) {
    forall i, j :: 0 <= i < j < |s| ==> s[i] < s[j]
  }

  predicate Distinct<T(==)>(s: seq<T>) {
    forall i, j :: 0 <= i < j < |s| ==> s[i] != s[j]
  }

  /** Every index in `idx` is a valid position of a sequence of length `n`. */
  predicate InBounds(idx: seq<nat>, n: nat) {
    forall k :: 0 <= k < |idx| ==> idx[k] < n
  }

  /** `np.where(mask)[0]`: the positions of the true entries, ascending. */
  function Where(mask: seq<bool>): (r: seq<nat>)
    ensures StrictlyIncreasing(r) && InBounds(r, |mask|)
    ensures forall i :: 0 <= i < |mask| ==> (mask[i] <==> i in r)
    ensures |r| <= |mask|
  {
    if |mask| == 0 then []
    else
      var n := |mask| - 1;
      var w := Where(mask[..n]);
      if mask[n] then w + [n] else w
  }

  /** `s[idx]` for an integer index vector. */
  function Pick<T>(s: seq<T>, idx: seq<nat>): (r: seq<T>)
    requires InBounds(idx, |s|)
    ensures |r| == |idx|
    ensures forall k :: 0 <= k < |idx| ==> r[k] == s[idx[k]]
  {
    seq(|idx|, k requires 0 <= k < |idx| => s[idx[k]])
  }

  /** `m[:, idx]`: keep and reorder columns, every row alike. */
  function PickColumns(m: Matrix, idx: seq<nat>, cols: nat): (r: Matrix)
    requires HasWidth(m, cols) && InBounds(idx, cols)
    ensures |r| == |m| && HasWidth(r, |idx|)
    ensures forall i, k :: 0 <= i < |m| && 0 <= k < |idx| ==> r[i][k] == m[i][idx[k]]
  {
    seq(|m|, i requires 0 <= i < |m| => Pick(m[i], idx))
  }

  /** The rows `lo .. hi` of `s`, with Python's clamping of slice ends. */
  function Rows<T>(s: seq<T>, lo: nat, hi: nat): (r: seq<T>)
    ensures |r| <= |s|
    ensures lo <= |s| && lo <= hi ==> r == s[lo..if hi <= |s| then hi else |s|]
  {
    var end := if hi <= |s| then hi else |s|;
    if lo <= end then s[lo..end] else []
  }

  /** Upper clip of every entry (`m[m > hi] = hi`, `np.clip(m, None, hi)`):
      nothing is raised, and there is no lower bound. */
  function ClipAbove(m: Matrix, hi: real): (r: Matrix)
    ensures |r| == |m|
    ensures forall i :: 0 <= i < |m| ==> |r[i]| == |m[i]|
    ensures forall i, j :: 0 <= i < |m| && 0 <= j < |m[i]| ==> r[i][j] <= hi
    ensures forall i, j :: 0 <= i < |m| && 0 <= j < |m[i]| && m[i][j] <= hi ==> r[i][j] == m[i][j]
    ensures forall i, j :: 0 <= i < |m| && 0 <= j < |m[i]| && m[i][j] > hi ==> r[i][j] == hi
  {
    seq(|m|, i requires 0 <= i < |m| =>
      seq(|m[i]|, j requires 0 <= j < |m[i]| => if m[i][j] > hi then hi else m[i][j]))
  }

  /** Column `j` of `m`. */
  function Column(m: Matrix, j: nat): (c: seq<real>)
    requires forall i :: 0 <= i < |m| ==> j < |m[i]|
    ensures |c| == |m| && forall i :: 0 <= i < |m| ==> c[i] == m[i][j]
  {
    seq(|m|, i requires 0 <= i < |m| => m[i][j])
  }

  /** All entries of the vector are strictly positive. */
  predicate AllPositive(v: seq<real>) {
    forall j :: 0 <= j < |v| ==> v[j] > 0.0
  }

  /** `(m - mean) / scale` with the vectors broadcast along the rows. */
  function Standardize(m: Matrix, mean: seq<real>, scale: seq<real>): (r: Matrix)
    requires |mean| == |scale| && HasWidth(m, |mean|) && AllPositive(scale)
    ensures |r| == |m| && HasWidth(r, |mean|)
  {
    seq(|m|, i requires 0 <= i < |m| =>
      seq(|mean|, j requires 0 <= j < |mean| => (m[i][j] - mean[j]) / scale[j]))
  }

  /** A row equal to the per-feature means standardises to all zeros, and
      every standardised entry inverts back to the raw value. */
  lemma StandardizeInverts(m: Matrix, mean: seq<real>, scale: seq<real>, i: nat, j: nat)
    requires |mean| == |scale| && HasWidth(m, |mean|) && AllPositive(scale)
    requires i < |m| && j < |mean|
    ensures Standardize(m, mean, scale)[i][j] * scale[j] + mean[j] == m[i][j]
    ensures m[i][j] == mean[j] ==> Standardize(m, mean, scale)[i][j] == 0.0
  {
    var z := Standardize(m, mean, scale)[i][j];
    assert z == (m[i][j] - mean[j]) / scale[j];
    assert z * scale[j] == m[i][j] - mean[j];
  }

  /** `np.arange(n)`. */
  function Range(n: nat): (r: seq<nat>)
    ensures |r| == n && forall i :: 0 <= i < n ==> r[i] == i
  {
    seq(n, i => i)
  }

  /** A mask with every entry set selects every position. */
  lemma {:induction false} WhereAllTrue(mask: seq<bool>)
    requires forall i :: 0 <= i < |mask| ==> mask[i]
    ensures Where(mask) == Range(|mask|)
  {
    if |mask| > 0 {
      var n := |mask| - 1;
      WhereAllTrue(mask[..n]);
      assert Where(mask) == Range(n) + [n];
    }
  }

  /** Picking every position in order gives the sequence back. */
  lemma PickAll<T>(s: seq<T>)
    ensures Pick(s, Range(|s|)) == s
  {
  }

  lemma PickColumnsAll(m: Matrix, cols: nat)
    requires HasWidth(m, cols)
    ensures PickColumns(m, Range(cols), cols) == m
  {
    forall i | 0 <= i < |m|
      ensures PickColumns(m, Range(cols), cols)[i] == m[i]
    {
      PickAll(m[i]);
    }
  }

  /** Picking twice is picking once through the composed index. */
  lemma PickPick<T>(s: seq<T>, p: seq<nat>, q: seq<nat>)
    requires InBounds(p, |s|) && InBounds(q, |p|)
    ensures InBounds(Pick(p, q), |s|)
    ensures Pick(Pick(s, p), q) == Pick(s, Pick(p, q))
  {
  }

  /** `p` rearranges the positions `0 .. n-1`. */
  predicate IsPermutation(p: seq<nat>, n: nat) {
    |p| == n && InBounds(p, n) && Distinct(p)
  }

  /** Rearranging a rearrangement is a rearrangement. */
  lemma ComposePermutation(p: seq<nat>, q: seq<nat>, n: nat)
    requires IsPermutation(p, n) && IsPermutation(q, n)
    ensures IsPermutation(Pick(p, q), n)
  {
    var r := Pick(p, q);
    forall a, b | 0 <= a < b < n
      ensures r[a] != r[b]
    {
      if q[a] < q[b] {
        assert p[q[a]] != p[q[b]];
      } else {
        assert p[q[b]] != p[q[a]];
      }
    }
  }

  function Elements(s: seq<nat>): set<nat> {
    set x | x in s
  }

  lemma {:induction false} DistinctCard(s: seq<nat>)
    requires Distinct(s)
    ensures |Elements(s)| == |s|
  {
    if |s| > 0 {
      var n := |s| - 1;
      DistinctCard(s[..n]);
      assert Elements(s) == Elements(s[..n]) + {s[n]};
      assert s[n] !in Elements(s[..n]);
    }
  }

  lemma SubsetCard(a: set<nat>, b: set<nat>)
    requires a <= b
    ensures |a| <= |b|
  {
    assert b == a + (b - a);
  }

  /** Repeat-free positions below `n` are at most `n` in number. */
  lemma DistinctBounded(s: seq<nat>, n: nat)
    requires Distinct(s) && InBounds(s, n)
    ensures |s| <= n
  {
    DistinctCard(s);
    DistinctCard(Range(n));
    forall x | x in Elements(s)
      ensures x in Elements(Range(n))
    {
      assert Range(n)[x] == x;
    }
    SubsetCard(Elements(s), Elements(Range(n)));
  }

  /** A permutation of `0 .. n-1` names every one of those positions. */
  lemma PermutationCovers(p: seq<nat>, n: nat, j: nat)
    requires IsPermutation(p, n) && j < n
    ensures j in p
  {
    if j !in p {
      DistinctCard(p);
      DistinctCard(Range(n));
      var all := Elements(Range(n));
      forall x | x in Elements(p)
        ensures x in all - {j}
      {
        assert Range(n)[x] == x;
      }
      assert Range(n)[j] == j;
      assert all == (all - {j}) + {j};
      SubsetCard(Elements(p), all - {j});
    }
  }

  /** A set of fewer than `n` positions below `n` leaves one out. */
  lemma RoomOutside(s: set<nat>, n: nat)
    requires forall i :: i in s ==> i < n
    requires |s| < n
    ensures exists j :: 0 <= j < n && j !in s
  {
    if forall j :: 0 <= j < n ==> j in s {
      DistinctCard(Range(n));
      forall x | x in Elements(Range(n))
        ensures x in s
      {
      }
      SubsetCard(Elements(Range(n)), s);
    }
  }

  /** Picking at ascending positions keeps a repeat-free sequence repeat-free. */
  lemma PickIncreasingDistinct<T>(s: seq<T>, idx: seq<nat>)
    requires Distinct(s) && StrictlyIncreasing(idx) && InBounds(idx, |s|)
    ensures Distinct(Pick(s, idx))
  {
    forall i, j | 0 <= i < j < |idx| ensures Pick(s, idx)[i] != Pick(s, idx)[j] {
      assert idx[i] < idx[j];
    }
  }

  lemma IncreasingIsDistinct(s: seq<nat>)
    requires StrictlyIncreasing(s)
    ensures Distinct(s)
  {
  }
}
