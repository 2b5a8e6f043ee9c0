/** Training a model (`celltypist/train.py`): the shape checks, the removal
    of genes no cell expresses, scaling and the upper clip, the mini-batch
    schedule of the optimiser, and feature selection by the largest
    absolute weights. The optimiser and the column statistics are black
    boxes; what is modelled is which data they are handed, in which order,
    and how the results are cut down. */
module Training {
  import opened Results
  import opened Arrays
  import opened Models

  /** Why training stops. */
  datatype TrainError =
    | LabelCountMismatch(labels: nat, cells: nat)
    | GeneCountMismatch(genes: nat, columns: nat)
    | TooFewCellsForBatch(cells: nat, batchSize: int)
      // `np.arange` with a zero step
    | ZeroStep
      // the name `shuffle` is looked up but never bound
    | ShuffleUndefined
      // the weights of a classifier that was never fitted are read
    | NotFitted
    | TooFewGenes(genes: nat, topGenes: int)
      // `np.argpartition` with a `kth` outside the row
    | KthOutOfBounds(kth: int, genes: nat)

  // ---------------------------------------------------------------------
  // Removing genes no cell expresses
  // ---------------------------------------------------------------------

  function Sum(v: seq<real>): real {
    if |v| == 0 then 0.0 else Sum(v[..|v| - 1]) + v[|v| - 1]
  }

  /** `indata.sum(axis = 0)[j]`. */
  function ColumnSum(x: Matrix, j: nat): real
    requires forall i :: 0 <= i < |x| ==> j < |x[i]|
  {
    Sum(Column(x, j))
  }

  /** `~flag`, with `flag = indata.sum(axis = 0) == 0`. */
  function Expressed(x: Matrix, cols: nat): (mask: seq<bool>)
    requires HasWidth(x, cols)
    ensures |mask| == cols
    ensures forall j :: 0 <= j < cols ==> (mask[j] <==> ColumnSum(x, j) != 0.0)
  {
    seq(cols, j requires 0 <= j < cols => ColumnSum(x, j) != 0.0)
  }

  /** The columns that survive the filter: ascending, and exactly those
      whose sum is not zero. */
  function ExpressedColumns(x: Matrix, cols: nat): (k: seq<nat>)
    requires HasWidth(x, cols)
    ensures StrictlyIncreasing(k) && InBounds(k, cols) && |k| <= cols
    ensures forall j :: 0 <= j < cols ==> (j in k <==> ColumnSum(x, j) != 0.0)
  {
    Where(Expressed(x, cols))
  }

  /** Column `j` of the filtered matrix is column `k[j]` of the input. */
  lemma ColumnOfPicked(x: Matrix, k: seq<nat>, cols: nat, j: nat)
    requires HasWidth(x, cols) && InBounds(k, cols) && j < |k|
    ensures Column(PickColumns(x, k, cols), j) == Column(x, k[j])
  {
  }

  /** After the filter every column has a non-zero sum, genes and columns
      still correspond one to one, and gene `j` is still the name of
      column `j`. */
  lemma {:induction false} FilterKeepsExpressedInLockstep(x: Matrix, genes: seq<string>, cols: nat)
    requires HasWidth(x, cols) && |genes| == cols
    ensures var k := ExpressedColumns(x, cols);
            var y := PickColumns(x, k, cols);
            var g := Pick(genes, k);
            && |g| == |k| && HasWidth(y, |g|)
            && (forall j :: 0 <= j < |g| ==> ColumnSum(y, j) != 0.0)
            && (forall j :: 0 <= j < |g| ==> g[j] == genes[k[j]] && Column(y, j) == Column(x, k[j]))
  {
    var k := ExpressedColumns(x, cols);
    forall j | 0 <= j < |k|
      ensures ColumnSum(PickColumns(x, k, cols), j) != 0.0
      ensures Column(PickColumns(x, k, cols), j) == Column(x, k[j])
    {
      ColumnOfPicked(x, k, cols, j);
      assert k[j] in k;
    }
  }

  /** When no column sums to zero the filter changes nothing. */
  lemma NothingFlaggedKeepsAll(x: Matrix, genes: seq<string>, cols: nat)
    requires HasWidth(x, cols) && |genes| == cols
    requires forall j :: 0 <= j < cols ==> ColumnSum(x, j) != 0.0
    ensures ExpressedColumns(x, cols) == Range(cols)
    ensures Pick(genes, ExpressedColumns(x, cols)) == genes
    ensures PickColumns(x, ExpressedColumns(x, cols), cols) == x
  {
    WhereAllTrue(Expressed(x, cols));
    PickAll(genes);
    PickColumnsAll(x, cols);
  }

  // ---------------------------------------------------------------------
  // Scaling
  // ---------------------------------------------------------------------

  /** The data the optimiser sees: every column standardised with its own
      fitted statistics, then clipped above at 10. */
  function Scaled(x: Matrix, cols: nat, fit: seq<real> -> ColumnStats): (z: Matrix)
    requires HasWidth(x, cols) && PositiveScales(fit)
    ensures |z| == |x| && HasWidth(z, cols)
    ensures forall i, j :: 0 <= i < |z| && 0 <= j < cols ==> z[i][j] <= ClipMax
  {
    ClipAbove(Standardize(x, FittedMeans(x, cols, fit), FittedScales(x, cols, fit)), ClipMax)
  }

  function FittedMeans(x: Matrix, cols: nat, fit: seq<real> -> ColumnStats): (m: seq<real>)
    requires HasWidth(x, cols)
    ensures |m| == cols && forall j :: 0 <= j < cols ==> m[j] == fit(Column(x, j)).mean
  {
    seq(cols, j requires 0 <= j < cols => fit(Column(x, j)).mean)
  }

  function FittedScales(x: Matrix, cols: nat, fit: seq<real> -> ColumnStats): (s: seq<real>)
    requires HasWidth(x, cols) && PositiveScales(fit)
    ensures |s| == cols && AllPositive(s)
    ensures forall j :: 0 <= j < cols ==> s[j] == fit(Column(x, j)).scale
  {
    var s := seq(cols, j requires 0 <= j < cols => fit(Column(x, j)).scale);
    assert AllPositive(s) by {
      forall j | 0 <= j < cols
        ensures s[j] > 0.0
      {
        assert s[j] == fit(Column(x, j)).scale;
      }
    }
    s
  }

  /** Entry by entry: the clipped standard score of the raw value against
      its own column's statistics. */
  lemma ScaledEntry(x: Matrix, cols: nat, fit: seq<real> -> ColumnStats, i: nat, j: nat)
    requires HasWidth(x, cols) && PositiveScales(fit) && i < |x| && j < cols
    ensures var st := fit(Column(x, j));
            var s := (x[i][j] - st.mean) / st.scale;
            Scaled(x, cols, fit)[i][j] == if s > ClipMax then ClipMax else s
  {
    var st := fit(Column(x, j));
    var z := Standardize(x, FittedMeans(x, cols, fit), FittedScales(x, cols, fit));
    assert z[i][j] == (x[i][j] - st.mean) / st.scale;
  }

  // ---------------------------------------------------------------------
  // Mini-batch schedule
  // ---------------------------------------------------------------------

  lemma CeilDiv(n: nat, b: nat)
    requires b > 0
    ensures (n + b - 1) / b * b >= n
    ensures (n + b - 1) / b == 0 || ((n + b - 1) / b - 1) * b < n
  {
    var q := (n + b - 1) / b;
    var r := (n + b - 1) % b;
    assert n + b - 1 == q * b + r;
    assert (q - 1) * b == q * b - b;
  }

  lemma MulMonotone(i: nat, j: nat, b: nat)
    requires i <= j
    ensures i * b <= j * b
  {
  }

  /** `np.arange(0, n, b)` for a positive step: every multiple of `b`
      below `n`, and no other value. */
  function Arange(n: nat, b: nat): (r: seq<nat>)
    requires b > 0
    ensures |r| == (n + b - 1) / b
    ensures forall i :: 0 <= i < |r| ==> r[i] == i * b && r[i] < n
    ensures forall m: nat :: m * b < n ==> m < |r|
  {
    CeilDiv(n, b);
    var q := (n + b - 1) / b;
    forall i: nat | i < q
      ensures i * b < n
    {
      MulMonotone(i, q - 1, b);
    }
    forall m: nat | m * b < n
      ensures m < q
    {
      if m >= q {
        MulMonotone(q, m, b);
      }
    }
    seq(q, i requires 0 <= i < q => i * b)
  }

  /** `s[:m]` for a Python integer `m`; a negative `m` counts from the end. */
  function PyPrefix<T>(s: seq<T>, m: int): (r: seq<T>)
    ensures 0 <= m <= |s| ==> r == s[..m]
    ensures m > |s| ==> r == s
    ensures m < 0 ==> r == s[..if |s| + m > 0 then |s| + m else 0]
  {
    if m >= 0 then s[..if m <= |s| then m else |s|]
    else s[..if |s| + m > 0 then |s| + m else 0]
  }

  function Min(a: int, b: int): int {
    if a <= b then a else b
  }

  /** `starts = np.arange(0, n, b)[:min(batch_number, len(...))]`. */
  function BatchStarts(n: nat, b: int, batchNumber: int): (r: Result<seq<nat>, TrainError>)
    ensures r.Err? <==> b == 0
    ensures r.Err? ==> r.error == ZeroStep
  {
    if b == 0 then Err(ZeroStep)
    else if b < 0 then Ok([])
    else
      var all := Arange(n, b);
      Ok(PyPrefix(all, Min(batchNumber, |all|)))
  }

  /** With a positive batch size and batch number the starts are
      `0, b, 2b, ...`, all below `n`, and there are as many as the batch
      number allows and the data has room for. */
  lemma BatchStartsShape(n: nat, b: int, batchNumber: int)
    requires b > 0 && batchNumber >= 0
    ensures var r := BatchStarts(n, b, batchNumber);
            && r.Ok?
            && |r.value| == Min(batchNumber, (n + b - 1) / b)
            && forall i :: 0 <= i < |r.value| ==> r.value[i] == i * b && r.value[i] < n
  {
  }

  /** A negative batch number drops that many batches from the end; a
      negative batch size yields no batch at all. */
  lemma BatchStartsNegative(n: nat, b: int, batchNumber: int)
    ensures b < 0 ==> BatchStarts(n, b, batchNumber) == Ok([])
    ensures b > 0 && batchNumber < 0 ==>
              var q := (n + b - 1) / b;
              BatchStarts(n, b, batchNumber) == Ok(Arange(n, b)[..if q + batchNumber > 0 then q + batchNumber else 0])
  {
  }

  /** `np.unique(labels)` as a set. */
  function Labels(y: seq<string>): set<string> {
    set i | 0 <= i < |y| :: y[i]
  }

  /** One `partial_fit` on the rows `s .. s+b-1` (cut at the end of the
      data), told every label of the (current) label vector. */
  function BatchCall(x: Matrix, y: seq<string>, s: nat, b: nat): FitCall {
    FitCall.PartialFit(Rows(x, s, s + b), Rows(y, s, s + b), Labels(y))
  }

  /** The fits of one epoch, one per start, in order. */
  function EpochCalls(x: Matrix, y: seq<string>, starts: seq<nat>, b: nat): (r: seq<FitCall>)
    ensures |r| == |starts|
    ensures forall k :: 0 <= k < |starts| ==> r[k] == BatchCall(x, y, starts[k], b)
  {
    seq(|starts|, k requires 0 <= k < |starts| => BatchCall(x, y, starts[k], b))
  }

  /** One shuffle per epoch, each a permutation of the `n` rows. */
  predicate ValidShuffles(perms: seq<seq<nat>>, n: nat) {
    forall e :: 0 <= e < |perms| ==> IsPermutation(perms[e], n)
  }

  /** The rows after `e` epochs: every epoch shuffles the previous
      epoch's order again. */
  function Shuffled<T>(s: seq<T>, perms: seq<seq<nat>>, e: nat): (r: seq<T>)
    requires ValidShuffles(perms, |s|) && e <= |perms|
    ensures |r| == |s|
  {
    if e == 0 then s else Pick(Shuffled(s, perms, e - 1), perms[e - 1])
  }

  /** Which original row sits at each position after `e` epochs. */
  function Origin(perms: seq<seq<nat>>, n: nat, e: nat): (o: seq<nat>)
    requires ValidShuffles(perms, n) && e <= |perms|
    ensures |o| == n && InBounds(o, n)
  {
    if e == 0 then Range(n) else Pick(Origin(perms, n, e - 1), perms[e - 1])
  }

  /** The composed shuffles are themselves a rearrangement of the rows. */
  lemma {:induction false} OriginIsPermutation(perms: seq<seq<nat>>, n: nat, e: nat)
    requires ValidShuffles(perms, n) && e <= |perms|
    ensures IsPermutation(Origin(perms, n, e), n)
  {
    if e == 0 {
      assert Distinct(Range(n));
    } else {
      OriginIsPermutation(perms, n, e - 1);
      ComposePermutation(Origin(perms, n, e - 1), perms[e - 1], n);
    }
  }

  /** Shuffling data and labels with the same permutations keeps every row
      with its own label: both are the original rows, picked through the
      same origin. */
  lemma {:induction false} ShuffledIsPicked<T>(s: seq<T>, perms: seq<seq<nat>>, e: nat)
    requires ValidShuffles(perms, |s|) && e <= |perms|
    ensures Shuffled(s, perms, e) == Pick(s, Origin(perms, |s|, e))
  {
    if e == 0 {
      PickAll(s);
    } else {
      ShuffledIsPicked(s, perms, e - 1);
      PickPick(s, Origin(perms, |s|, e - 1), perms[e - 1]);
    }
  }

  /** Rearranging the labels keeps the set of labels. */
  lemma PickKeepsLabels(y: seq<string>, o: seq<nat>)
    requires IsPermutation(o, |y|)
    ensures Labels(Pick(y, o)) == Labels(y)
  {
    var z := Pick(y, o);
    forall l | l in Labels(y)
      ensures l in Labels(z)
    {
      var j :| 0 <= j < |y| && y[j] == l;
      PermutationCovers(o, |y|, j);
      var i :| 0 <= i < |o| && o[i] == j;
      assert z[i] == l;
    }
    forall l | l in Labels(z)
      ensures l in Labels(y)
    {
      var i :| 0 <= i < |z| && z[i] == l;
      assert y[o[i]] == l;
    }
  }

  /** A shuffle keeps the set of labels, so every epoch passes the same
      class vocabulary. */
  lemma ShuffleKeepsLabels(y: seq<string>, perms: seq<seq<nat>>, e: nat)
    requires ValidShuffles(perms, |y|) && e <= |perms|
    ensures Labels(Shuffled(y, perms, e)) == Labels(y)
    ensures Labels(Pick(y, Origin(perms, |y|, e))) == Labels(y)
  {
    ShuffledIsPicked(y, perms, e);
    OriginIsPermutation(perms, |y|, e);
    PickKeepsLabels(y, Origin(perms, |y|, e));
  }

  /** Every fit of the first `e` epochs, in the order they are made: epoch
      `e` fits the original rows in the order its shuffles composed give. */
  function Schedule(x: Matrix, y: seq<string>, perms: seq<seq<nat>>, starts: seq<nat>, b: nat, e: nat): seq<FitCall>
    requires |x| == |y| && ValidShuffles(perms, |y|) && e <= |perms|
  {
    if e == 0 then []
    else
      var o := Origin(perms, |y|, e);
      Schedule(x, y, perms, starts, b, e - 1) + EpochCalls(Pick(x, o), Pick(y, o), starts, b)
  }

  /** Every epoch reuses the same starts, so `e` epochs make `e` times as
      many fits as there are starts. */
  lemma {:induction false} ScheduleLength(x: Matrix, y: seq<string>, perms: seq<seq<nat>>, starts: seq<nat>, b: nat, e: nat)
    requires |x| == |y| && ValidShuffles(perms, |y|) && e <= |perms|
    ensures |Schedule(x, y, perms, starts, b, e)| == e * |starts|
  {
    if e > 0 {
      ScheduleLength(x, y, perms, starts, b, e - 1);
      Offsets(e - 1, e, |starts|, 0);
    }
  }

  /** Where fit `k` of epoch `ep` sits among `e` epochs of `n` fits. */
  lemma Offsets(ep: nat, e: nat, n: nat, k: nat)
    requires ep < e
    ensures e * n == (e - 1) * n + n
    ensures k < n ==> ep * n + k < e * n
  {
    assert (ep + 1) * n == ep * n + n;
    MulMonotone(ep + 1, e, n);
  }

  /** A position among `e` epochs of `n > 0` fits names one epoch and one
      fit within it. */
  lemma Position(c: nat, e: nat, n: nat) returns (ep: nat, k: nat)
    requires n > 0 && c < e * n
    ensures ep < e && k < n && c == ep * n + k
  {
    ep, k := c / n, c % n;
    if ep >= e {
      MulMonotone(e, ep, n);
    }
  }

  /** The fits of fewer epochs are a prefix of the fits of more. */
  lemma {:induction false} SchedulePrefix(x: Matrix, y: seq<string>, perms: seq<seq<nat>>, starts: seq<nat>, b: nat,
                                          e1: nat, e2: nat)
    requires |x| == |y| && ValidShuffles(perms, |y|) && e1 <= e2 <= |perms|
    ensures Schedule(x, y, perms, starts, b, e1) <= Schedule(x, y, perms, starts, b, e2)
  {
    if e1 < e2 {
      SchedulePrefix(x, y, perms, starts, b, e1, e2 - 1);
    }
  }

  /** Fit `k` of epoch `ep` (counting from 0) comes right after the fits
      of the earlier epochs. */
  lemma ScheduleAppends(x: Matrix, y: seq<string>, perms: seq<seq<nat>>, starts: seq<nat>, b: nat,
                        ep: nat, k: nat)
    requires |x| == |y| && ValidShuffles(perms, |y|) && ep < |perms|
    requires k < |starts|
    ensures var o := Origin(perms, |y|, ep + 1);
            && |Schedule(x, y, perms, starts, b, ep)| + k < |Schedule(x, y, perms, starts, b, ep + 1)|
            && Schedule(x, y, perms, starts, b, ep + 1)[|Schedule(x, y, perms, starts, b, ep)| + k]
               == BatchCall(Pick(x, o), Pick(y, o), starts[k], b)
  {
    var prev := Schedule(x, y, perms, starts, b, ep);
    var o := Origin(perms, |y|, ep + 1);
    var cur := EpochCalls(Pick(x, o), Pick(y, o), starts, b);
    AppendedAt(prev, cur, k);
  }

  /** Element `k` of an appended sequence sits `k` past the old end. */
  lemma AppendedAt<T>(prev: seq<T>, cur: seq<T>, k: nat)
    requires k < |cur|
    ensures |prev| + k < |prev + cur| && (prev + cur)[|prev| + k] == cur[k]
  {
  }

  /** Fit `k` of epoch `ep` (counting from 0) sees the rows at start `k` of
      that epoch's order, the labels of the same rows, and every label of
      the input. */
  lemma ScheduleCall(x: Matrix, y: seq<string>, perms: seq<seq<nat>>, starts: seq<nat>, b: nat,
                     e: nat, ep: nat, k: nat, c: nat)
    requires |x| == |y| && ValidShuffles(perms, |y|) && e <= |perms|
    requires ep < e && k < |starts| && c == ep * |starts| + k
    ensures c < |Schedule(x, y, perms, starts, b, e)|
    ensures var o := Origin(perms, |y|, ep + 1);
            Schedule(x, y, perms, starts, b, e)[c]
            == FitCall.PartialFit(Rows(Pick(x, o), starts[k], starts[k] + b),
                                  Rows(Pick(y, o), starts[k], starts[k] + b), Labels(y))
  {
    ScheduleIndex(x, y, perms, starts, b, e, ep, k);
    ScheduleAt(x, y, perms, starts, b, e, ep, k, c);
    ShuffleKeepsLabels(y, perms, ep + 1);
  }

  /** Epoch `e` adds the fits of one epoch over the rows as shuffled
      once more. */
  lemma ScheduleStep(x: Matrix, y: seq<string>, perms: seq<seq<nat>>, starts: seq<nat>, b: nat, e: nat,
                     xe: Matrix, ye: seq<string>)
    requires |x| == |y| && ValidShuffles(perms, |y|) && 0 < e <= |perms|
    requires xe == Shuffled(x, perms, e - 1) && ye == Shuffled(y, perms, e - 1)
    ensures Pick(xe, perms[e - 1]) == Shuffled(x, perms, e) && Pick(ye, perms[e - 1]) == Shuffled(y, perms, e)
    ensures Schedule(x, y, perms, starts, b, e)
            == Schedule(x, y, perms, starts, b, e - 1)
               + EpochCalls(Pick(xe, perms[e - 1]), Pick(ye, perms[e - 1]), starts, b)
  {
    ShuffledIsPicked(x, perms, e);
    ShuffledIsPicked(y, perms, e);
  }

  /** Fits `0 .. ep*n - 1` belong to the first `ep` epochs. */
  lemma ScheduleIndex(x: Matrix, y: seq<string>, perms: seq<seq<nat>>, starts: seq<nat>, b: nat,
                      e: nat, ep: nat, k: nat)
    requires |x| == |y| && ValidShuffles(perms, |y|) && e <= |perms|
    requires ep < e && k < |starts|
    ensures |Schedule(x, y, perms, starts, b, e)| == e * |starts| && ep * |starts| + k < e * |starts|
    ensures ep * |starts| + k == |Schedule(x, y, perms, starts, b, ep)| + k
  {
    Offsets(ep, e, |starts|, k);
    ScheduleLength(x, y, perms, starts, b, ep);
    ScheduleLength(x, y, perms, starts, b, e);
  }

  /** Fit `k` of epoch `ep`, at position `c`, keeps its place in the fits
      of all later epochs. */
  lemma ScheduleAt(x: Matrix, y: seq<string>, perms: seq<seq<nat>>, starts: seq<nat>, b: nat,
                   e: nat, ep: nat, k: nat, c: nat)
    requires |x| == |y| && ValidShuffles(perms, |y|) && e <= |perms|
    requires ep < e && k < |starts| && c == |Schedule(x, y, perms, starts, b, ep)| + k
    ensures var o := Origin(perms, |y|, ep + 1);
            && c < |Schedule(x, y, perms, starts, b, e)|
            && Schedule(x, y, perms, starts, b, e)[c] == BatchCall(Pick(x, o), Pick(y, o), starts[k], b)
  {
    ScheduleAppends(x, y, perms, starts, b, ep, k);
    SchedulePrefix(x, y, perms, starts, b, ep + 1, e);
  }

  /** Epoch counts below one run no epoch. */
  function Epochs(epochs: int): nat {
    if epochs > 0 then epochs else 0
  }

  /** The fits `_SGDClassifier` makes, with `shuffle` taken to be a
      permutation of the rows given per epoch: one full fit, or the
      mini-batch schedule after its two error checks. */
  function FitSchedule(x: Matrix, y: seq<string>, miniBatch: bool, batchNumber: int, batchSize: int,
                       epochs: int, perms: seq<seq<nat>>): (r: Result<seq<FitCall>, TrainError>)
    requires |x| == |y| && ValidShuffles(perms, |y|) && epochs <= |perms|
    ensures !miniBatch ==> r == Ok([FullFit(x, y)])
    ensures miniBatch && |y| <= batchSize ==> r == Err(TooFewCellsForBatch(|y|, batchSize))
    ensures r.Err? <==> miniBatch && (|y| <= batchSize || batchSize == 0)
  {
    if !miniBatch then Ok([FullFit(x, y)])
    else if |y| <= batchSize then Err(TooFewCellsForBatch(|y|, batchSize))
    else match BatchStarts(|y|, batchSize, batchNumber)
      case Err(e) => Err(e)
      case Ok(starts) => Ok(Schedule(x, y, perms, starts, if batchSize > 0 then batchSize else 0, Epochs(epochs)))
  }

  /** Any one fit of the schedule is a partial fit told every input label. */
  lemma ScheduleCallIsPartial(x: Matrix, y: seq<string>, perms: seq<seq<nat>>, starts: seq<nat>, b: nat,
                              e: nat, c: nat)
    requires |x| == |y| && ValidShuffles(perms, |y|) && e <= |perms|
    requires c < |Schedule(x, y, perms, starts, b, e)|
    ensures Schedule(x, y, perms, starts, b, e)[c].PartialFit?
    ensures Schedule(x, y, perms, starts, b, e)[c].classes == Labels(y)
  {
    ScheduleLength(x, y, perms, starts, b, e);
    var ep, k := Position(c, e, |starts|);
    ScheduleCall(x, y, perms, starts, b, e, ep, k, c);
  }

  /** The mini-batch schedule makes `epochs` times `|starts|` fits, each
      told the labels of the whole input. */
  lemma FitScheduleCounts(x: Matrix, y: seq<string>, batchNumber: int, batchSize: int,
                          epochs: int, perms: seq<seq<nat>>)
    requires |x| == |y| && ValidShuffles(perms, |y|) && epochs <= |perms|
    requires |y| > batchSize > 0
    ensures var r := FitSchedule(x, y, true, batchNumber, batchSize, epochs, perms);
            var starts := BatchStarts(|y|, batchSize, batchNumber).value;
            && r.Ok? && |r.value| == Epochs(epochs) * |starts|
            && forall c :: 0 <= c < |r.value| ==> r.value[c].PartialFit? && r.value[c].classes == Labels(y)
  {
    var starts := BatchStarts(|y|, batchSize, batchNumber).value;
    var e := Epochs(epochs);
    var r := Schedule(x, y, perms, starts, batchSize, e);
    assert FitSchedule(x, y, true, batchNumber, batchSize, epochs, perms) == Ok(r);
    ScheduleLength(x, y, perms, starts, batchSize, e);
    forall c | 0 <= c < |r|
      ensures r[c].PartialFit? && r[c].classes == Labels(y)
    {
      ScheduleCallIsPartial(x, y, perms, starts, batchSize, e, c);
    }
  }

  /** `_SGDClassifier` as written: `shuffle` is not bound in the module,
      so the first epoch of a mini-batch run stops before any fit. */
  function FitScheduleAsWritten(x: Matrix, y: seq<string>, miniBatch: bool, batchNumber: int, batchSize: int,
                                epochs: int): (r: Result<seq<FitCall>, TrainError>)
    ensures !miniBatch ==> r == Ok([FullFit(x, y)])
  {
    if !miniBatch then Ok([FullFit(x, y)])
    else if |y| <= batchSize then Err(TooFewCellsForBatch(|y|, batchSize))
    else match BatchStarts(|y|, batchSize, batchNumber)
      case Err(e) => Err(e)
      case Ok(_) => if epochs >= 1 then Err(ShuffleUndefined) else Ok([])
  }

  /** As written, mini-batch training never fits anything. */
  lemma MiniBatchAsWrittenNeverFits(x: Matrix, y: seq<string>, batchNumber: int, batchSize: int, epochs: int)
    ensures var r := FitScheduleAsWritten(x, y, true, batchNumber, batchSize, epochs);
            r.Err? || r.value == []
    ensures |y| > batchSize > 0 && epochs >= 1 ==>
              FitScheduleAsWritten(x, y, true, batchNumber, batchSize, epochs) == Err(ShuffleUndefined)
  {
  }

  /** With the defaults (batch size 1000, 100 batches, 10 epochs) and 2000
      cells the written code stops at the shuffle, while the intended
      schedule makes 2 fits per epoch, 20 in all. */
  lemma MiniBatchDefaultsExample(x: Matrix, y: seq<string>, perms: seq<seq<nat>>)
    requires |x| == |y| == 2000 && ValidShuffles(perms, 2000) && |perms| >= 10
    ensures FitScheduleAsWritten(x, y, true, 100, 1000, 10) == Err(ShuffleUndefined)
    ensures var r := FitSchedule(x, y, true, 100, 1000, 10, perms);
            r.Ok? && |r.value| == 20
  {
    FitScheduleCounts(x, y, 100, 1000, 10, perms);
    BatchStartsShape(2000, 1000, 100);
  }

  // ---------------------------------------------------------------------
  // Feature selection
  // ---------------------------------------------------------------------

  function Abs(v: real): real {
    if v < 0.0 then -v else v
  }

  /** `s` is a set of positions of `v` none of whose magnitudes is below
      that of a position outside it. */
  predicate IsTopK(v: seq<real>, s: set<nat>) {
    && (forall i :: i in s ==> i < |v|)
    && (forall i, j :: i in s && 0 <= j < |v| && j !in s ==> Abs(v[i]) >= Abs(v[j]))
  }

  /** A position below `m` outside `s` of largest magnitude, the lowest
      such position on ties; none when `s` holds every position below `m`. */
  function ArgMaxOutside(v: seq<real>, s: set<nat>, m: nat): (r: Option<nat>)
    requires m <= |v|
    ensures r.None? <==> forall j :: 0 <= j < m ==> j in s
    ensures r.Some? ==> r.value < m && r.value !in s
    ensures r.Some? ==> forall j :: 0 <= j < m && j !in s ==> Abs(v[r.value]) >= Abs(v[j])
  {
    if m == 0 then None
    else
      var r := ArgMaxOutside(v, s, m - 1);
      if m - 1 in s then r
      else if r.None? || Abs(v[m - 1]) > Abs(v[r.value]) then Some(m - 1)
      else r
  }

  /** The `k` positions of largest magnitude chosen one at a time. Which of
      several equal magnitudes is taken is this model's choice, and
      `SelectFeatures` uses it. The shape and coverage of the index are also
      proved for any per-row sets satisfying `IsTopK` (`AnyTopKSelection`). */
  function TopK(v: seq<real>, k: nat): (s: set<nat>)
    requires k <= |v|
    ensures |s| == k && IsTopK(v, s)
  {
    if k == 0 then {}
    else
      var prev := TopK(v, k - 1);
      RoomOutside(prev, |v|);
      var b := ArgMaxOutside(v, prev, |v|);
      prev + {b.value}
  }

  /** How many largest entries a row of `n` keeps under
      `np.argpartition(a, -t)[:, -t:]`: the last `t` for a positive `t`,
      the whole row for `t = 0` (the slice `[-0:]`), and the last `n + t`
      for a negative `t`. */
  function KeepPerRow(t: int, n: nat): (k: nat)
    requires t + n > 0 && t <= n
    ensures k <= n
  {
    if t > 0 then t else if t == 0 then n else n + t
  }

  /** The per-row selections, one per weight row. */
  function TopKRows(coef: Matrix, k: nat, n: nat): (s: seq<set<nat>>)
    requires HasWidth(coef, n) && k <= n
    ensures |s| == |coef|
    ensures forall r :: 0 <= r < |coef| ==> |s[r]| == k && IsTopK(coef[r], s[r])
  {
    seq(|coef|, r requires 0 <= r < |coef| => TopK(coef[r], k))
  }

  /** Every position some row selected. */
  function Union(sels: seq<set<nat>>): (u: set<nat>)
    ensures forall i :: i in u <==> exists r :: 0 <= r < |sels| && i in sels[r]
  {
    if |sels| == 0 then {} else Union(sels[..|sels| - 1]) + sels[|sels| - 1]
  }

  /** `np.unique` of the selected positions: ascending, and exactly the
      positions some row selected. */
  function GeneIndex(sels: seq<set<nat>>, n: nat): (gi: seq<nat>)
    ensures StrictlyIncreasing(gi) && InBounds(gi, n)
    ensures forall i :: 0 <= i < n ==> (i in gi <==> i in Union(sels))
  {
    Where(seq(n, i requires 0 <= i < n => i in Union(sels)))
  }

  lemma UnionBound(a: set<nat>, b: set<nat>)
    ensures |a + b| <= |a| + |b|
  {
    assert a + b == a + (b - a);
    SubsetCard(b - a, b);
  }

  lemma MulStep(m: nat, k: nat)
    ensures (m + 1) * k == m * k + k
  {
  }

  lemma {:induction false} UnionCard(sels: seq<set<nat>>, k: nat)
    requires forall r :: 0 <= r < |sels| ==> |sels[r]| == k
    ensures |Union(sels)| <= |sels| * k
  {
    if |sels| > 0 {
      var m := |sels| - 1;
      var prefix := sels[..m];
      assert forall r :: 0 <= r < |prefix| ==> |prefix[r]| == k;
      UnionCard(prefix, k);
      assert Union(sels) == Union(prefix) + sels[m];
      UnionBound(Union(prefix), sels[m]);
      MulStep(m, k);
    }
  }

  /** With every selection of `k` positions below `n` and at least one
      row, the index holds between `k` and `min(rows * k, n)` positions. */
  lemma GeneIndexSize(sels: seq<set<nat>>, n: nat, k: nat)
    requires |sels| >= 1
    requires forall r :: 0 <= r < |sels| ==> |sels[r]| == k && forall i :: i in sels[r] ==> i < n
    ensures k <= |GeneIndex(sels, n)| <= |sels| * k
    ensures |GeneIndex(sels, n)| <= n
  {
    var gi := GeneIndex(sels, n);
    IncreasingIsDistinct(gi);
    DistinctCard(gi);
    assert Elements(gi) == Union(sels);
    SubsetCard(sels[0], Union(sels));
    UnionCard(sels, k);
  }

  /** `gene_index` with its checks in the order the code meets them: too
      few genes, an unfitted classifier whose weights are read, then a
      `kth` outside the row. */
  function SelectFeatures(coef: Matrix, n: nat, t: int, fitted: bool): (r: Result<seq<nat>, TrainError>)
    requires HasWidth(coef, n)
    ensures n <= t ==> r == Err(TooFewGenes(n, t))
    ensures n > t && !fitted ==> r == Err(NotFitted)
    ensures n > t && fitted && t + n <= 0 ==> r == Err(KthOutOfBounds(-t, n))
    ensures r.Ok? <==> t + n > 0 && t < n && fitted
  {
    if n <= t then Err(TooFewGenes(n, t))
    else if !fitted then Err(NotFitted)
    else if t + n <= 0 then Err(KthOutOfBounds(-t, n))
    else Ok(GeneIndex(TopKRows(coef, KeepPerRow(t, n), n), n))
  }

  /** A selection is an ascending list of distinct gene positions, each
      below `n`; it holds, for every weight row, `k` positions of largest
      absolute weight (`k = t` for a positive `top_genes`), and its length
      lies between `k` and `min(rows * k, n)`. */
  lemma SelectFeaturesProperties(coef: Matrix, n: nat, t: int)
    requires HasWidth(coef, n) && t + n > 0 && t < n && |coef| >= 1
    ensures var r := SelectFeatures(coef, n, t, true);
            var k := KeepPerRow(t, n);
            && r.Ok?
            && (t > 0 ==> k == t) && (t == 0 ==> k == n) && (t < 0 ==> k == n + t)
            && StrictlyIncreasing(r.value) && Distinct(r.value) && InBounds(r.value, n)
            && CoversTopK(coef, k, r.value)
            && k <= |r.value| <= Min(|coef| * k, n)
  {
    var k := KeepPerRow(t, n);
    var gi := GeneIndex(TopKRows(coef, k, n), n);
    assert SelectFeatures(coef, n, t, true) == Ok(gi);
    SelectionShape(coef, k, n);
    SelectionCovers(coef, k, n);
  }

  /** Whatever set of `k` positions of largest magnitude is taken in each
      row (`np.argpartition` may break ties either way), the index built
      from them is ascending, repeat-free and in bounds, has between `k` and
      `min(rows * k, n)` positions, and holds every row's selection. */
  lemma AnyTopKSelection(coef: Matrix, k: nat, n: nat, sels: seq<set<nat>>)
    requires HasWidth(coef, n) && |coef| >= 1 && |sels| == |coef|
    requires forall r :: 0 <= r < |coef| ==> |sels[r]| == k && IsTopK(coef[r], sels[r])
    ensures var gi := GeneIndex(sels, n);
            && StrictlyIncreasing(gi) && Distinct(gi) && InBounds(gi, n)
            && k <= |gi| <= Min(|coef| * k, n)
            && SelectionsInside(coef, k, sels, gi)
  {
    var gi := GeneIndex(sels, n);
    IncreasingIsDistinct(gi);
    forall r, i | 0 <= r < |sels| && i in sels[r]
      ensures i < n
    {
      assert |coef[r]| == n;
    }
    GeneIndexSize(sels, n, k);
    forall row, i | 0 <= row < |coef| && i in sels[row]
      ensures i in gi
    {
      assert i < n && i in Union(sels);
    }
  }

  /** The index is ascending, repeat-free and in bounds, with between `k`
      and `min(rows * k, n)` positions. */
  lemma SelectionShape(coef: Matrix, k: nat, n: nat)
    requires HasWidth(coef, n) && k <= n && |coef| >= 1
    ensures var gi := GeneIndex(TopKRows(coef, k, n), n);
            && StrictlyIncreasing(gi) && Distinct(gi) && InBounds(gi, n)
            && k <= |gi| <= Min(|coef| * k, n)
  {
    AnyTopKSelection(coef, k, n, TopKRows(coef, k, n));
  }

  /** For every weight row, `gi` holds a set of `k` positions of largest
      magnitude in that row. */
  ghost predicate CoversTopK(coef: Matrix, k: nat, gi: seq<nat>) {
    exists sels: seq<set<nat>> :: |sels| == |coef| && SelectionsInside(coef, k, sels, gi)
  }

  /** `sels[row]` is a set of `k` positions of largest magnitude in row
      `row`, and `gi` holds all of them. */
  predicate SelectionsInside(coef: Matrix, k: nat, sels: seq<set<nat>>, gi: seq<nat>)
    requires |sels| == |coef|
  {
    forall row :: 0 <= row < |coef| ==>
      |sels[row]| == k && IsTopK(coef[row], sels[row]) && forall i :: i in sels[row] ==> i in gi
  }

  /** Every row's own top-`k` selection lies inside the index. */
  lemma SelectionCovers(coef: Matrix, k: nat, n: nat)
    requires HasWidth(coef, n) && k <= n
    ensures CoversTopK(coef, k, GeneIndex(TopKRows(coef, k, n), n))
  {
    var sels := TopKRows(coef, k, n);
    if |coef| >= 1 {
      AnyTopKSelection(coef, k, n, sels);
    }
    assert SelectionsInside(coef, k, sels, GeneIndex(sels, n));
  }

  // ---------------------------------------------------------------------
  // The optimiser and training
  // ---------------------------------------------------------------------

  /** One epoch: a `partial_fit` per start, in order, on the batch of
      rows and labels at that start and with every current label. */
  method FitEpoch(clf: SgdClassifier, x: Matrix, y: seq<string>, starts: seq<nat>, b: nat,
                  cols: nat, solver: Solver)
    modifies clf
    ensures clf.calls == old(clf.calls) + EpochCalls(x, y, starts, b)
    ensures starts == [] ==> clf.calls == old(clf.calls) && clf.coef == old(clf.coef)
                             && clf.nFeaturesIn == old(clf.nFeaturesIn)
    ensures starts != [] ==> clf.coef == Weights(solver, clf.calls, cols) && clf.nFeaturesIn == cols
    ensures clf.features == old(clf.features)
  {
    var classes := Labels(y);
    ghost var epoch := EpochCalls(x, y, starts, b);
    for k := 0 to |starts|
      invariant clf.calls == old(clf.calls) + epoch[..k]
      invariant clf.coef == (if k == 0 then old(clf.coef) else Weights(solver, clf.calls, cols))
      invariant clf.nFeaturesIn == if k == 0 then old(clf.nFeaturesIn) else cols
      invariant clf.features == old(clf.features)
    {
      var s := starts[k];
      assert epoch[k] == FitCall.PartialFit(Rows(x, s, s + b), Rows(y, s, s + b), classes);
      clf.PartialFit(Rows(x, s, s + b), Rows(y, s, s + b), classes, cols, solver);
      PrefixGrows(old(clf.calls), epoch, k);
    }
    PrefixGrows(old(clf.calls), epoch, |starts|);
  }

  /** Appending the prefixes of `s` one element at a time: the next prefix
      is the previous one and the next element, and the full prefix is
      all of `s`. */
  lemma PrefixGrows<T>(prev: seq<T>, s: seq<T>, k: nat)
    requires k <= |s|
    ensures k < |s| ==> prev + s[..k] + [s[k]] == prev + s[..k + 1]
    ensures k == |s| ==> prev + s[..k] == prev + s && (s == [] ==> prev + s[..k] == prev)
  {
    if k < |s| {
      assert s[..k + 1] == s[..k] + [s[k]];
    }
  }

  /** `_SGDClassifier`: a new classifier, then one full fit, or the
      mini-batch loops over epochs and starts, each epoch reshuffling rows
      and labels together with its permutation from `perms`. */
  method FitClassifier(x: Matrix, y: seq<string>, cols: nat, miniBatch: bool, batchNumber: int,
                       batchSize: int, epochs: int, perms: seq<seq<nat>>, solver: Solver)
    returns (r: Result<SgdClassifier, TrainError>)
    requires |x| == |y| && HasWidth(x, cols) && ValidShuffles(perms, |y|) && epochs <= |perms|
    ensures var s := FitSchedule(x, y, miniBatch, batchNumber, batchSize, epochs, perms);
            && (r.Err? <==> s.Err?)
            && (r.Err? ==> r.error == s.error)
            && (r.Ok? ==> s.Ok? && r.value.calls == s.value)
    ensures r.Ok? ==> fresh(r.value) && r.value.features == []
    ensures r.Ok? && r.value.calls != [] ==>
              r.value.coef == Weights(solver, r.value.calls, cols) && r.value.nFeaturesIn == cols
    ensures r.Ok? && r.value.calls == [] ==> r.value.coef == [] && r.value.nFeaturesIn == 0
  {
    var clf := new SgdClassifier.Untrained();
    if !miniBatch {
      clf.Fit(x, y, cols, solver);
      return Ok(clf);
    }
    var n := |y|;
    if n <= batchSize {
      return Err(TooFewCellsForBatch(n, batchSize));
    }
    var st := BatchStarts(n, batchSize, batchNumber);
    if st.Err? {
      return Err(st.error);
    }
    var starts := st.value;
    var b: nat := if batchSize > 0 then batchSize else 0;
    FitEpochs(clf, x, y, starts, b, epochs, perms, cols, solver);
    return Ok(clf);
  }

  /** The epoch loop of `_SGDClassifier` on a classifier with no fit yet:
      every epoch reshuffles rows and labels together, then fits every
      batch. */
  method FitEpochs(clf: SgdClassifier, x: Matrix, y: seq<string>, starts: seq<nat>, b: nat, epochs: int,
                   perms: seq<seq<nat>>, cols: nat, solver: Solver)
    requires |x| == |y| && ValidShuffles(perms, |y|) && epochs <= |perms|
    requires clf.calls == [] && clf.coef == [] && clf.nFeaturesIn == 0
    modifies clf
    ensures clf.calls == Schedule(x, y, perms, starts, b, Epochs(epochs))
    ensures clf.calls != [] ==> clf.coef == Weights(solver, clf.calls, cols) && clf.nFeaturesIn == cols
    ensures clf.calls == [] ==> clf.coef == [] && clf.nFeaturesIn == 0
    ensures clf.features == old(clf.features)
  {
    var xe, ye := x, y;
    for epoch := 1 to Epochs(epochs) + 1
      invariant xe == Shuffled(x, perms, epoch - 1) && ye == Shuffled(y, perms, epoch - 1)
      invariant clf.calls == Schedule(x, y, perms, starts, b, epoch - 1)
      invariant clf.calls != [] ==> clf.coef == Weights(solver, clf.calls, cols) && clf.nFeaturesIn == cols
      invariant clf.calls == [] ==> clf.coef == [] && clf.nFeaturesIn == 0
      invariant clf.features == old(clf.features)
    {
      ScheduleStep(x, y, perms, starts, b, epoch, xe, ye);
      xe, ye := Pick(xe, perms[epoch - 1]), Pick(ye, perms[epoch - 1]);
      FitEpoch(clf, xe, ye, starts, b, cols, solver);
    }
  }

  /** The training matrix cut to the genes some cell expresses. */
  function Filtered(x: Matrix, cols: nat): (f: Matrix)
    requires HasWidth(x, cols)
    ensures |f| == |x| && HasWidth(f, |ExpressedColumns(x, cols)|)
  {
    PickColumns(x, ExpressedColumns(x, cols), cols)
  }

  /** The fits of the first round: on the filtered, scaled and clipped
      data. */
  function FirstRound(x: Matrix, cols: nat, labels: seq<string>, fit: seq<real> -> ColumnStats,
                      miniBatch: bool, batchNumber: int, batchSize: int, epochs: int, perms: seq<seq<nat>>)
    : Result<seq<FitCall>, TrainError>
    requires HasWidth(x, cols) && PositiveScales(fit) && |labels| == |x|
    requires ValidShuffles(perms, |x|) && epochs <= |perms|
  {
    FitSchedule(Scaled(Filtered(x, cols), |ExpressedColumns(x, cols)|, fit), labels,
                miniBatch, batchNumber, batchSize, epochs, perms)
  }

  function FittedVariances(x: Matrix, cols: nat, fit: seq<real> -> ColumnStats): (v: seq<real>)
    requires HasWidth(x, cols)
    ensures |v| == cols && forall j :: 0 <= j < cols ==> v[j] == fit(Column(x, j)).variance
  {
    seq(cols, j requires 0 <= j < cols => fit(Column(x, j)).variance)
  }

  /** The zero-sum filter of `train`: genes and columns are cut only when
      some column sums to zero, and then in lockstep. */
  method FilterGenes(x: Matrix, cols: nat, genes: seq<string>) returns (data: Matrix, names: seq<string>, width: nat)
    requires HasWidth(x, cols) && |genes| == cols
    ensures width == |ExpressedColumns(x, cols)| && |names| == width && HasWidth(data, width)
    ensures data == Filtered(x, cols) && names == Pick(genes, ExpressedColumns(x, cols))
  {
    var kept := ExpressedColumns(x, cols);
    data, names, width := x, genes, cols;
    if exists j :: 0 <= j < cols && ColumnSum(x, j) == 0.0 {
      data, names, width := PickColumns(x, kept, cols), Pick(genes, kept), |kept|;
    } else {
      NothingFlaggedKeepsAll(x, genes, cols);
    }
  }

  /** A new scaler fitted on the data, and the data scaled and clipped. */
  method ScaleAndClip(data: Matrix, width: nat, fit: seq<real> -> ColumnStats)
    returns (scaler: StandardScaler, z: Matrix)
    requires HasWidth(data, width) && PositiveScales(fit)
    ensures fresh(scaler) && z == Scaled(data, width, fit)
    ensures scaler.mean == FittedMeans(data, width, fit) && scaler.variance == FittedVariances(data, width, fit)
    ensures scaler.scale == FittedScales(data, width, fit) && scaler.nFeaturesIn == width
  {
    scaler := new StandardScaler.Untrained();
    z := scaler.FitTransform(data, width, fit);
    z := ClipAbove(z, ClipMax);
    assert scaler.mean == FittedMeans(data, width, fit);
    assert scaler.variance == FittedVariances(data, width, fit);
    assert scaler.scale == FittedScales(data, width, fit);
  }

  /** The classifier rounds of `train` on the scaled data `z` (of `width`
      columns named `names`): the first fit, and with feature selection
      the selection, the second fit on the selected columns and the cut of
      the scaler's vectors. The returned classifier is named by the genes
      it was fitted on. */
  method FitRounds(z: Matrix, width: nat, names: seq<string>, scaler: StandardScaler, labels: seq<string>,
                   miniBatch: bool, batchNumber: int, batchSize: int, epochs: int,
                   perms: seq<seq<nat>>, perms2: seq<seq<nat>>,
                   featureSelection: bool, topGenes: int, solver: Solver)
    returns (r: Result<SgdClassifier, TrainError>, ghost geneIndex: seq<nat>)
    requires |z| == |labels| && HasWidth(z, width) && |names| == width
    requires ValidShuffles(perms, |labels|) && epochs <= |perms|
    requires ValidShuffles(perms2, |labels|) && epochs <= |perms2|
    requires |scaler.mean| == |scaler.variance| == |scaler.scale| == scaler.nFeaturesIn == width
    modifies scaler
    ensures var first := FitSchedule(z, labels, miniBatch, batchNumber, batchSize, epochs, perms);
            && (first.Err? ==> r == Err(first.error))
            && (first.Ok? && !featureSelection ==> r.Ok?)
            && (first.Ok? && featureSelection ==>
                  var sel := SelectFeatures(Weights(solver, first.value, width), width, topGenes, first.value != []);
                  && (sel.Err? ==> r == Err(sel.error))
                  && (sel.Ok? ==> r.Ok? && geneIndex == sel.value))
    ensures r.Ok? ==>
              && fresh(r.value)
              && StrictlyIncreasing(geneIndex) && InBounds(geneIndex, width)
              && (!featureSelection ==> geneIndex == Range(width))
              && r.value.features == Pick(names, geneIndex)
              && scaler.mean == Pick(old(scaler.mean), geneIndex)
              && scaler.variance == Pick(old(scaler.variance), geneIndex)
              && scaler.scale == Pick(old(scaler.scale), geneIndex)
              && scaler.nFeaturesIn == |geneIndex|
    ensures r.Ok? ==>
              var second := FitSchedule(PickColumns(z, geneIndex, width), labels, miniBatch, batchNumber,
                                        batchSize, epochs, if featureSelection then perms2 else perms);
              && second.Ok? && r.value.calls == second.value
              && (r.value.calls != [] ==>
                    r.value.coef == Weights(solver, r.value.calls, |geneIndex|)
                    && r.value.nFeaturesIn == |geneIndex|)
    ensures r.Ok? && r.value.calls == [] ==> r.value.coef == []
  {
    geneIndex := Range(width);
    var first := FitClassifier(z, labels, width, miniBatch, batchNumber, batchSize, epochs, perms, solver);
    if first.Err? {
      r := Err(first.error);
      return;
    }
    var classifier := first.value;
    var genes := names;
    if featureSelection {
      var sel := SelectFeatures(classifier.coef, width, topGenes, classifier.calls != []);
      if sel.Err? {
        r := Err(sel.error);
        return;
      }
      var gi := sel.value;
      genes := Pick(names, gi);
      classifier := SecondRound(z, width, scaler, labels, miniBatch, batchNumber, batchSize, epochs, perms,
                                perms2, gi, solver);
      geneIndex := gi;
    } else {
      PickColumnsAll(z, width);
      PickAll(names);
      PickAll(scaler.mean);
      PickAll(scaler.variance);
      PickAll(scaler.scale);
    }
    classifier.features := genes;
    r := Ok(classifier);
  }

  /** The second round of `train` after feature selection: cut the data to
      the selected columns, fit a new classifier on them, and cut the
      scaler's vectors by the same index. The first round succeeded on the
      same labels, so the second one cannot fail. */
  method SecondRound(z: Matrix, width: nat, scaler: StandardScaler, labels: seq<string>,
                     miniBatch: bool, batchNumber: int, batchSize: int, epochs: int,
                     perms: seq<seq<nat>>, perms2: seq<seq<nat>>, gi: seq<nat>, solver: Solver)
    returns (classifier: SgdClassifier)
    requires |z| == |labels| && HasWidth(z, width) && InBounds(gi, width)
    requires ValidShuffles(perms, |labels|) && epochs <= |perms|
    requires ValidShuffles(perms2, |labels|) && epochs <= |perms2|
    requires |scaler.mean| == |scaler.variance| == |scaler.scale| == width
    requires FitSchedule(z, labels, miniBatch, batchNumber, batchSize, epochs, perms).Ok?
    modifies scaler
    ensures var second := FitSchedule(PickColumns(z, gi, width), labels, miniBatch, batchNumber,
                                      batchSize, epochs, perms2);
            second.Ok? && classifier.calls == second.value
    ensures fresh(classifier) && classifier.features == []
    ensures classifier.calls != [] ==>
              classifier.coef == Weights(solver, classifier.calls, |gi|) && classifier.nFeaturesIn == |gi|
    ensures classifier.calls == [] ==> classifier.coef == []
    ensures scaler.mean == Pick(old(scaler.mean), gi) && scaler.variance == Pick(old(scaler.variance), gi)
    ensures scaler.scale == Pick(old(scaler.scale), gi) && scaler.nFeaturesIn == |gi|
  {
    var second := FitClassifier(PickColumns(z, gi, width), labels, |gi|, miniBatch, batchNumber,
                                batchSize, epochs, perms2, solver);
    assert second.Ok?;
    classifier := second.value;
    scaler.Restrict(gi);
  }

  /** `train`: check the shapes, drop the genes no cell expresses, fit the
      scaler and clip, run the classifier rounds, and bundle classifier,
      scaler and description. `geneIndex` is the feature selection used
      (every filtered position when there is none); `now` stands for the
      clock read when no date is given. */
  method Train(x: Matrix, cols: nat, labels: seq<string>, genes: seq<string>,
               miniBatch: bool, batchNumber: int, batchSize: int, epochs: int,
               perms: seq<seq<nat>>, perms2: seq<seq<nat>>,
               featureSelection: bool, topGenes: int,
               date: string, details: string, url: string, now: string,
               fit: seq<real> -> ColumnStats, solver: Solver)
    returns (r: Result<Model, TrainError>, ghost geneIndex: seq<nat>)
    requires HasWidth(x, cols) && PositiveScales(fit)
    requires ValidShuffles(perms, |x|) && epochs <= |perms|
    requires ValidShuffles(perms2, |x|) && epochs <= |perms2|
    ensures |labels| != |x| ==> r == Err(LabelCountMismatch(|labels|, |x|))
    ensures |labels| == |x| && |genes| != cols ==> r == Err(GeneCountMismatch(|genes|, cols))
    ensures |labels| == |x| && |genes| == cols ==>
              var first := FirstRound(x, cols, labels, fit, miniBatch, batchNumber, batchSize, epochs, perms);
              var n := |ExpressedColumns(x, cols)|;
              && (first.Err? ==> r == Err(first.error))
              && (first.Ok? && !featureSelection ==> r.Ok?)
              && (first.Ok? && featureSelection ==>
                    var sel := SelectFeatures(Weights(solver, first.value, n), n, topGenes, first.value != []);
                    && (sel.Err? ==> r == Err(sel.error))
                    && (sel.Ok? ==> r.Ok? && geneIndex == sel.value))
    ensures r.Ok? ==> |labels| == |x| && |genes| == cols
    ensures r.Ok? ==>
              var m := r.value;
              var kept := ExpressedColumns(x, cols);
              var f := Filtered(x, cols);
              && fresh(m) && fresh(m.classifier) && fresh(m.scaler)
              && StrictlyIncreasing(geneIndex) && InBounds(geneIndex, |kept|)
              && (!featureSelection ==> geneIndex == Range(|kept|))
              && m.classifier.features == Pick(Pick(genes, kept), geneIndex)
              && m.scaler.mean == Pick(FittedMeans(f, |kept|, fit), geneIndex)
              && m.scaler.variance == Pick(FittedVariances(f, |kept|, fit), geneIndex)
              && m.scaler.scale == Pick(FittedScales(f, |kept|, fit), geneIndex)
              && m.scaler.nFeaturesIn == |geneIndex|
              && m.description == Description(if date == "" then now else date, details, url)
    ensures r.Ok? ==>
              var m := r.value;
              var kept := ExpressedColumns(x, cols);
              var second := FitSchedule(PickColumns(Scaled(Filtered(x, cols), |kept|, fit), geneIndex, |kept|),
                                        labels, miniBatch, batchNumber, batchSize, epochs,
                                        if featureSelection then perms2 else perms);
              && second.Ok? && m.classifier.calls == second.value
              && (m.classifier.calls != [] ==>
                    m.classifier.coef == Weights(solver, m.classifier.calls, |geneIndex|)
                    && m.classifier.nFeaturesIn == |geneIndex|)
  {
    geneIndex := [];
    if |labels| != |x| {
      r := Err(LabelCountMismatch(|labels|, |x|));
      return;
    }
    if |genes| != cols {
      r := Err(GeneCountMismatch(|genes|, cols));
      return;
    }
    var data, names, width := FilterGenes(x, cols, genes);
    var scaler, z := ScaleAndClip(data, width, fit);
    var fitted;
    fitted, geneIndex := FitRounds(z, width, names, scaler, labels, miniBatch, batchNumber, batchSize,
                                   epochs, perms, perms2, featureSelection, topGenes, solver);
    if fitted.Err? {
      r := Err(fitted.error);
      return;
    }
    var model := new Model(fitted.value, scaler, Description(if date == "" then now else date, details, url));
    r := Ok(model);
  }
}
