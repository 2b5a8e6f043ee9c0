/** The prediction side: aligning the input genes with a trained model,
    standardising and clipping, the default over-clustering resolution,
    majority voting within clusters, and the label-frequency summary. */
module Classification {
  import opened Results
  import opened Arrays
  import opened Strings
  import opened Models

  // ---------------------------------------------------------------------
  // Feature alignment

  /** `np.isin(genes, features)`. */
  function IsIn(genes: seq<string>, features: seq<string>): (mask: seq<bool>)
    ensures |mask| == |genes|
    ensures forall i :: 0 <= i < |genes| ==> (mask[i] <==> genes[i] in features)
  {
    seq(|genes|, i requires 0 <= i < |genes| => genes[i] in features)
  }

  /** The positions of the input genes the model knows (`k_x_idx`):
      ascending, so input order is kept, and exactly the known genes. */
  function KeptIndices(genes: seq<string>, features: seq<string>): (k: seq<nat>)
    ensures StrictlyIncreasing(k) && InBounds(k, |genes|)
    ensures forall i :: 0 <= i < |genes| ==> (i in k <==> genes[i] in features)
  {
    Where(IsIn(genes, features))
  }

  /** Reference definition: the subsequence of `genes` made of those the
      model knows. */
  function KnownGenes(genes: seq<string>, features: seq<string>): seq<string> {
    if |genes| == 0 then []
    else
      var n := |genes| - 1;
      KnownGenes(genes[..n], features) + (if genes[n] in features then [genes[n]] else [])
  }

  /** The kept genes are exactly the input genes the model knows, in their
      input order. */
  lemma {:induction false} KeptGenesAreKnownGenes(genes: seq<string>, features: seq<string>)
    ensures Pick(genes, KeptIndices(genes, features)) == KnownGenes(genes, features)
  {
    if |genes| > 0 {
      var n := |genes| - 1;
      KeptGenesAreKnownGenes(genes[..n], features);
      assert IsIn(genes, features)[..n] == IsIn(genes[..n], features);
      var k := KeptIndices(genes[..n], features);
      assert Pick(genes, k) == Pick(genes[..n], k);
      if genes[n] in features {
        assert Pick(genes, k + [n]) == Pick(genes, k) + [genes[n]];
      }
    }
  }

  /** The kept genes themselves, each of which the model knows. */
  function KeptGenes(genes: seq<string>, features: seq<string>): (r: seq<string>)
    ensures r == KnownGenes(genes, features)
    ensures forall j :: 0 <= j < |r| ==> r[j] in features
    ensures |r| == |KeptIndices(genes, features)|
    ensures forall j :: 0 <= j < |r| ==> r[j] == genes[KeptIndices(genes, features)[j]]
  {
    KeptGenesAreKnownGenes(genes, features);
    Pick(genes, KeptIndices(genes, features))
  }

  /** The position of gene `g` in the model's gene list. */
  function IndexOf(features: seq<string>, g: string): (p: nat)
    requires g in features
    ensures p < |features| && features[p] == g
    ensures forall q :: 0 <= q < p ==> features[q] != g
  {
    if features[0] == g then 0 else 1 + IndexOf(features[1..], g)
  }

  /** `lr_idx`: for every kept gene, its position in the model's gene list. */
  function Positions(features: seq<string>, genes: seq<string>): (lr: seq<nat>)
    requires forall j :: 0 <= j < |genes| ==> genes[j] in features
    ensures |lr| == |genes| && InBounds(lr, |features|)
    ensures forall j :: 0 <= j < |genes| ==> features[lr[j]] == genes[j]
    ensures Pick(features, lr) == genes
  {
    seq(|genes|, j requires 0 <= j < |genes| => IndexOf(features, genes[j]))
  }

  /** With the model's gene list free of repeats, the position found is the
      only one that names the gene. */
  lemma {:induction false} PositionIsUnique(features: seq<string>, g: string, p: nat)
    requires Distinct(features) && p < |features| && features[p] == g
    ensures IndexOf(features, g) == p
  {
    if features[0] == g {
    } else {
      PositionIsUnique(features[1..], g, p - 1);
    }
  }

  /** The matrix the classifier sees: the kept columns in input order,
      standardised with the model's mean and scale of the same genes, and
      clipped above at 10. */
  function AlignedInput(x: Matrix, genes: seq<string>, features: seq<string>,
                        mean: seq<real>, scale: seq<real>): (r: Matrix)
    requires HasWidth(x, |genes|) && |features| <= |mean| == |scale| && AllPositive(scale)
    ensures |r| == |x| && HasWidth(r, |KeptGenes(genes, features)|)
    ensures forall i, j :: 0 <= i < |r| && 0 <= j < |r[i]| ==> r[i][j] <= ClipMax
  {
    var k := KeptIndices(genes, features);
    var lr := Positions(features, KeptGenes(genes, features));
    ClipAbove(Standardize(PickColumns(x, k, |genes|), Pick(mean, lr), Pick(scale, lr)), ClipMax)
  }

  /** Entry by entry: column `j` of the aligned matrix is the `j`-th kept
      input gene, standardised with the statistics the model holds for that
      same gene, then clipped. */
  lemma AlignedEntry(x: Matrix, genes: seq<string>, features: seq<string>,
                     mean: seq<real>, scale: seq<real>, i: nat, j: nat)
    requires HasWidth(x, |genes|) && |features| <= |mean| == |scale| && AllPositive(scale)
    requires i < |x| && j < |KeptGenes(genes, features)|
    ensures var k := KeptIndices(genes, features);
            var p := IndexOf(features, genes[k[j]]);
            var z := (x[i][k[j]] - mean[p]) / scale[p];
            && features[p] == genes[k[j]]
            && AlignedInput(x, genes, features, mean, scale)[i][j] == (if z > ClipMax then ClipMax else z)
  {
    var k := KeptIndices(genes, features);
    var kept := KeptGenes(genes, features);
    var lr := Positions(features, kept);
    assert kept[j] == genes[k[j]];
    assert lr[j] == IndexOf(features, kept[j]);
  }

  /** One cell and one known input gene: the aligned matrix is that single
      value standardised with the statistics at the gene's position. */
  lemma AlignedSingle(v: real, g: string, features: seq<string>, mean: seq<real>, scale: seq<real>)
    requires g in features && |features| <= |mean| == |scale| && AllPositive(scale)
    ensures var p := IndexOf(features, g);
            var z := (v - mean[p]) / scale[p];
            AlignedInput([[v]], [g], features, mean, scale) == [[if z > ClipMax then ClipMax else z]]
  {
    var k := KeptIndices([g], features);
    assert 0 in k;
    assert k == [0];
    assert [g][k[0]] == g;
    var r := AlignedInput([[v]], [g], features, mean, scale);
    AlignedEntry([[v]], [g], features, mean, scale, 0, 0);
    assert |r| == 1 && |r[0]| == 1;
    assert r[0] == [r[0][0]];
    assert r == [r[0]];
  }

  /** A classifier cut down to the single gene `g` standardises it with the
      scaler's first entry, whatever gene that entry was fitted on. */
  lemma AlignedSingleCut(v: real, g: string, mean: seq<real>, scale: seq<real>)
    requires 1 <= |mean| == |scale| && AllPositive(scale)
    ensures var z := (v - mean[0]) / scale[0];
            AlignedInput([[v]], [g], [g], mean, scale) == [[if z > ClipMax then ClipMax else z]]
  {
    assert IndexOf([g], g) == 0;
    AlignedSingle(v, g, [g], mean, scale);
  }

  lemma KeptLastGene(a: string, b: string)
    requires a != b
    ensures KeptGenes([b], [a, b]) == [b]
  {
    var kept := KeptGenes([b], [a, b]);
    assert KeptIndices([b], [a, b]) == [0] by {
      assert 0 in KeptIndices([b], [a, b]);
    }
    assert kept == [kept[0]] && kept[0] == b;
  }

  lemma PositionOfLastGene(a: string, b: string)
    requires a != b
    ensures Positions([a, b], [b]) == [1]
  {
    assert IndexOf([a, b], b) == 1 by {
      assert [a, b][1..] == [b];
    }
    var lr := Positions([a, b], [b]);
    assert lr == [lr[0]];
  }

  /** Against the model file itself, `b` is standardised with its own mean. */
  lemma AlignedLastGene(a: string, b: string)
    requires a != b
    ensures AlignedInput([[5.0]], [b], [a, b], [0.0, 5.0], [1.0, 1.0]) == [[0.0]]
  {
    assert IndexOf([a, b], b) == 1 by {
      assert [a, b][1..] == [b];
    }
    AlignedSingle(5.0, b, [a, b], [0.0, 5.0], [1.0, 1.0]);
  }

  /** A model file with genes `a` and `b`, scaler means 0 and 5 and unit
      scales, and an input holding only gene `b` with value 5. The first
      `celltype` keeps `b` and reads its statistics at position 1, aligning
      the value to (5 - 5) / 1 = 0. It cuts the classifier's genes to `[b]`
      and leaves the scaler alone, so a second `celltype` on the same model
      reads position 0 and standardises `b` with `a`'s mean, giving 5. */
  lemma ReusedModelMisStandardises(a: string, b: string)
    requires a != b
    ensures KeptGenes([b], [a, b]) == [b]
    ensures Positions([a, b], [b]) == [1]
    ensures AlignedInput([[5.0]], [b], [a, b], [0.0, 5.0], [1.0, 1.0]) == [[0.0]]
    ensures AlignedInput([[5.0]], [b], [b], [0.0, 5.0], [1.0, 1.0]) == [[5.0]]
  {
    KeptLastGene(a, b);
    PositionOfLastGene(a, b);
    AlignedLastGene(a, b);
    AlignedSingleCut(5.0, b, [0.0, 5.0], [1.0, 1.0]);
  }

  // ---------------------------------------------------------------------
  // Default over-clustering resolution

  /** The resolution used when the caller gives none, by number of cells. */
  function DefaultResolution(cells: nat): (r: real)
    ensures r == 5.0 || r == 10.0 || r == 15.0 || r == 20.0
  {
    if cells < 5000 then 5.0
    else if cells < 20000 then 10.0
    else if cells < 40000 then 15.0
    else 20.0
  }

  /** The resolution handed to the clustering routine. */
  function ChosenResolution(given: Option<real>, cells: nat): (r: real)
    ensures given.Some? ==> r == given.value
    ensures given.None? ==> r == DefaultResolution(cells)
  {
    if given.Some? then given.value else DefaultResolution(cells)
  }

  /** The four bands of the default, each stated both ways. */
  lemma DefaultResolutionBands(cells: nat)
    ensures DefaultResolution(cells) == 5.0 <==> cells < 5000
    ensures DefaultResolution(cells) == 10.0 <==> 5000 <= cells < 20000
    ensures DefaultResolution(cells) == 15.0 <==> 20000 <= cells < 40000
    ensures DefaultResolution(cells) == 20.0 <==> 40000 <= cells
  {
  }

  /** More cells never give a coarser default. */
  lemma DefaultResolutionMonotone(a: nat, b: nat)
    requires a <= b
    ensures DefaultResolution(a) <= DefaultResolution(b)
  {
  }

  // ---------------------------------------------------------------------
  // Majority voting

  /** The cell of the label-by-cluster count table: how many cells of
      cluster `c` were predicted as `l`. */
  function Votes<C(==)>(labels: seq<string>, clusters: seq<C>, l: string, c: C): nat
    requires |labels| == |clusters|
  {
    if |labels| == 0 then 0
    else Votes(labels[1..], clusters[1..], l, c) + (if labels[0] == l && clusters[0] == c then 1 else 0)
  }

  /** A label gets votes in a cluster exactly when some cell of that cluster
      was predicted with it. */
  lemma {:induction false} VotesPositive<C>(labels: seq<string>, clusters: seq<C>, l: string, c: C)
    requires |labels| == |clusters|
    ensures Votes(labels, clusters, l, c) > 0
            <==> exists j :: 0 <= j < |labels| && labels[j] == l && clusters[j] == c
  {
    if |labels| > 0 {
      VotesPositive(labels[1..], clusters[1..], l, c);
      if Votes(labels[1..], clusters[1..], l, c) > 0 {
        var j :| 0 <= j < |labels| - 1 && labels[1..][j] == l && clusters[1..][j] == c;
        assert labels[j + 1] == l && clusters[j + 1] == c;
      }
      if exists j :: 0 <= j < |labels| && labels[j] == l && clusters[j] == c {
        var j :| 0 <= j < |labels| && labels[j] == l && clusters[j] == c;
        if j > 0 { assert labels[1..][j - 1] == l && clusters[1..][j - 1] == c; }
      }
    }
  }

  /** `l` is the `idxmax` of column `c` of the count table: it has the most
      votes in `c` (at least one), and every other label with as many votes
      comes after it in the table's row order, which is sorted. */
  ghost predicate IsMajority<C>(labels: seq<string>, clusters: seq<C>, c: C, l: string)
    requires |labels| == |clusters|
  {
    && Votes(labels, clusters, l, c) > 0
    && (forall m :: Votes(labels, clusters, m, c) <= Votes(labels, clusters, l, c))
    && (forall m :: Votes(labels, clusters, m, c) == Votes(labels, clusters, l, c) ==> m == l || LexLess(l, m))
  }

  /** At most one label is the majority of a cluster. */
  lemma MajorityIsUnique<C>(labels: seq<string>, clusters: seq<C>, c: C, l1: string, l2: string)
    requires |labels| == |clusters|
    requires IsMajority(labels, clusters, c, l1) && IsMajority(labels, clusters, c, l2)
    ensures l1 == l2
  {
    LexLessTotal(l1, l2);
  }

  /** The best of the candidate labels for cluster `c`: most votes, ties to
      the label that sorts first. */
  function Best<C(==)>(cands: seq<string>, labels: seq<string>, clusters: seq<C>, c: C): (b: string)
    requires |cands| > 0 && |labels| == |clusters|
    ensures b in cands
    ensures forall x :: x in cands ==> Votes(labels, clusters, x, c) <= Votes(labels, clusters, b, c)
    ensures forall x :: x in cands && Votes(labels, clusters, x, c) == Votes(labels, clusters, b, c)
                        ==> x == b || LexLess(b, x)
  {
    if |cands| == 1 then cands[0]
    else
      var rest := Best(cands[1..], labels, clusters, c);
      var x := cands[0];
      var vx, vr := Votes(labels, clusters, x, c), Votes(labels, clusters, rest, c);
      if vx > vr || (vx == vr && LexLess(x, rest)) then
        LexLessAfter(x, rest);
        x
      else
        LexLessTotal(x, rest);
        rest
  }

  lemma LexLessAfter(a: string, b: string)
    ensures LexLess(a, b) ==> forall y :: LexLess(b, y) ==> LexLess(a, y)
  {
    if LexLess(a, b) {
      forall y | LexLess(b, y) ensures LexLess(a, y) { LexLessTransitive(a, b, y); }
    }
  }

  /** The majority label of cluster `c` (`votes.idxmax()[c]`). */
  function Winner<C(==)>(labels: seq<string>, clusters: seq<C>, c: C): (w: string)
    requires |labels| == |clusters| && c in clusters
    ensures IsMajority(labels, clusters, c, w)
    ensures exists j :: 0 <= j < |labels| && clusters[j] == c && labels[j] == w
  {
    var w := Best(labels, labels, clusters, c);
    var i :| 0 <= i < |clusters| && clusters[i] == c;
    VotesPositive(labels, clusters, labels[i], c);
    VotesPositive(labels, clusters, w, c);
    forall m ensures Votes(labels, clusters, m, c) <= Votes(labels, clusters, w, c)
      && (Votes(labels, clusters, m, c) == Votes(labels, clusters, w, c) ==> m == w || LexLess(w, m))
    {
      VotesPositive(labels, clusters, m, c);
      if m !in labels {
        assert Votes(labels, clusters, m, c) == 0;
      }
    }
    w
  }

  /** The `majority_voting` column: every cell gets the majority label of its
      own cluster (which was predicted for at least one of its cells, by
      `VotesPositive`), so cells of one cluster all agree. */
  function MajorityColumn<C(==)>(labels: seq<string>, clusters: seq<C>): (r: seq<string>)
    requires |labels| == |clusters|
    ensures |r| == |labels|
    ensures forall i :: 0 <= i < |r| ==> IsMajority(labels, clusters, clusters[i], r[i])
    ensures forall i, j :: 0 <= i < |r| && 0 <= j < |r| && clusters[i] == clusters[j] ==> r[i] == r[j]
  {
    seq(|labels|, i requires 0 <= i < |labels| => Winner(labels, clusters, clusters[i]))
  }

  /** One cluster predicted `A, A, A, B`: every cell is voted `A`. */
  lemma MajorityClearWinner()
    ensures MajorityColumn(["A", "A", "A", "B"], ["0", "0", "0", "0"]) == ["A", "A", "A", "A"]
  {
    var labels, clusters := ["A", "A", "A", "B"], ["0", "0", "0", "0"];
    forall m
      ensures Votes(labels, clusters, m, "0") == (if m == "A" then 3 else if m == "B" then 1 else 0)
    {
      VotesOfFour(labels, clusters, m);
    }
    OneClusterVote(labels, clusters, "A");
  }

  /** One cluster predicted `A, A, B, B`: the tie goes to `A`, which sorts
      first. */
  lemma MajorityTieGoesToFirst()
    ensures MajorityColumn(["A", "A", "B", "B"], ["0", "0", "0", "0"]) == ["A", "A", "A", "A"]
  {
    var labels, clusters := ["A", "A", "B", "B"], ["0", "0", "0", "0"];
    forall m
      ensures Votes(labels, clusters, m, "0") == (if m == "A" || m == "B" then 2 else 0)
    {
      VotesOfFour(labels, clusters, m);
    }
    assert LexLess("A", "B");
    OneClusterVote(labels, clusters, "A");
  }

  /** The votes of four cells of cluster `"0"`, one by one. */
  lemma VotesOfFour(labels: seq<string>, clusters: seq<string>, m: string)
    requires |labels| == |clusters| == 4 && clusters == ["0", "0", "0", "0"]
    ensures Votes(labels, clusters, m, "0")
            == (if labels[0] == m then 1 else 0) + (if labels[1] == m then 1 else 0)
               + (if labels[2] == m then 1 else 0) + (if labels[3] == m then 1 else 0)
  {
    var l1, l2, l3 := labels[1..], labels[2..], labels[3..];
    var c1, c2, c3 := clusters[1..], clusters[2..], clusters[3..];
    assert l1[1..] == l2 && l2[1..] == l3 && c1[1..] == c2 && c2[1..] == c3;
    assert l3[1..] == [] && c3[1..] == [];
    assert Votes(l3, c3, m, "0") == (if labels[3] == m then 1 else 0);
    assert Votes(l2, c2, m, "0") == Votes(l3, c3, m, "0") + (if labels[2] == m then 1 else 0);
    assert Votes(l1, c1, m, "0") == Votes(l2, c2, m, "0") + (if labels[1] == m then 1 else 0);
  }

  /** When `l` is the majority of the single cluster `"0"`, it is every
      cell's vote. */
  lemma OneClusterVote(labels: seq<string>, clusters: seq<string>, l: string)
    requires |labels| == |clusters|
    requires forall i :: 0 <= i < |clusters| ==> clusters[i] == "0"
    requires IsMajority(labels, clusters, "0", l)
    ensures MajorityColumn(labels, clusters) == seq(|labels|, _ => l)
  {
    var r := MajorityColumn(labels, clusters);
    forall i | 0 <= i < |r|
      ensures r[i] == l
    {
      MajorityIsUnique(labels, clusters, "0", r[i], l);
    }
  }

  // ---------------------------------------------------------------------
  // Frequency summary

  /** How often `l` occurs in `col`. */
  function Occurrences(col: seq<string>, l: string): nat {
    if |col| == 0 then 0
    else Occurrences(col[..|col| - 1], l) + (if col[|col| - 1] == l then 1 else 0)
  }

  lemma {:induction false} OccurrencesPositive(col: seq<string>, l: string)
    ensures Occurrences(col, l) > 0 <==> l in col
  {
    if |col| > 0 {
      OccurrencesPositive(col[..|col| - 1], l);
      assert col == col[..|col| - 1] + [col[|col| - 1]];
    }
  }

  /** Labels in strictly ascending string order. */
  predicate SortedLex(u: seq<string>) {
    forall i, j :: 0 <= i < j < |u| ==> LexLess(u[i], u[j])
  }

  lemma SortedIsDistinct(u: seq<string>)
    requires SortedLex(u)
    ensures Distinct(u)
  {
    forall i, j | 0 <= i < j < |u| ensures u[i] != u[j] {
      LexLessIrreflexive(u[i]);
    }
  }

  /** `x` put into its place in an ascending list of labels. */
  function InsertLex(x: string, u: seq<string>): (r: seq<string>)
    requires SortedLex(u) && x !in u
    ensures SortedLex(r) && |r| == |u| + 1
    ensures forall l :: l in r <==> l in u || l == x
  {
    if |u| == 0 || LexLess(x, u[0]) then
      forall j | 0 < j < |u| ensures LexLess(x, u[j]) {
        LexLessTransitive(x, u[0], u[j]);
      }
      [x] + u
    else
      LexLessTotal(x, u[0]);
      var rest := InsertLex(x, u[1..]);
      assert forall l :: l in rest ==> LexLess(u[0], l) by {
        forall l | l in rest ensures LexLess(u[0], l) {
          if l != x {
            var j :| 0 <= j < |u[1..]| && u[1..][j] == l;
            assert u[j + 1] == l;
          }
        }
      }
      assert u == [u[0]] + u[1..];
      [u[0]] + rest
  }

  /** `np.unique`: the distinct labels of `col`, in ascending string order. */
  function Unique(col: seq<string>): (u: seq<string>)
    ensures SortedLex(u) && Distinct(u)
    ensures forall l :: l in u <==> l in col
  {
    if |col| == 0 then []
    else
      var u := Unique(col[..|col| - 1]);
      assert col == col[..|col| - 1] + [col[|col| - 1]];
      var r := if col[|col| - 1] in u then u else InsertLex(col[|col| - 1], u);
      SortedIsDistinct(r);
      r
  }

  /** One row per label of `u`, with its number of occurrences in `col`. */
  function Tally(u: seq<string>, col: seq<string>): (rows: seq<FrequencyRow>)
    ensures |rows| == |u|
    ensures forall k :: 0 <= k < |u| ==> rows[k] == FrequencyRow(u[k], Occurrences(col, u[k]))
  {
    seq(|u|, k requires 0 <= k < |u| => FrequencyRow(u[k], Occurrences(col, u[k])))
  }

  function SumCounts(rows: seq<FrequencyRow>): nat {
    if |rows| == 0 then 0 else rows[0].counts + SumCounts(rows[1..])
  }

  lemma {:induction false} SumCountsAppend(a: seq<FrequencyRow>, b: seq<FrequencyRow>)
    ensures SumCounts(a + b) == SumCounts(a) + SumCounts(b)
  {
    if |a| > 0 {
      SumCountsAppend(a[1..], b);
      assert (a + b)[1..] == a[1..] + b;
    } else {
      assert a + b == b;
    }
  }

  /** Adding one more cell labelled `x` adds one to the total of a tally
      over distinct labels containing `x`, and nothing otherwise. */
  lemma {:induction false} TallyGrows(u: seq<string>, col: seq<string>, x: string)
    requires Distinct(u)
    ensures SumCounts(Tally(u, col + [x])) == SumCounts(Tally(u, col)) + (if x in u then 1 else 0)
  {
    if |u| > 0 {
      var n := |u| - 1;
      TallyGrows(u[..n], col, x);
      assert Tally(u, col + [x]) == Tally(u[..n], col + [x]) + [FrequencyRow(u[n], Occurrences(col + [x], u[n]))];
      assert Tally(u, col) == Tally(u[..n], col) + [FrequencyRow(u[n], Occurrences(col, u[n]))];
      SumCountsAppend(Tally(u[..n], col + [x]), [FrequencyRow(u[n], Occurrences(col + [x], u[n]))]);
      SumCountsAppend(Tally(u[..n], col), [FrequencyRow(u[n], Occurrences(col, u[n]))]);
      assert (col + [x])[..|col|] == col;
      assert x in u <==> x in u[..n] || x == u[n];
    }
  }

  /** Inserting a label into the tallied labels adds its count to the total. */
  lemma {:induction false} TallyInsert(x: string, u: seq<string>, col: seq<string>)
    requires SortedLex(u) && x !in u
    ensures SumCounts(Tally(InsertLex(x, u), col)) == SumCounts(Tally(u, col)) + Occurrences(col, x)
  {
    var r := InsertLex(x, u);
    if |u| == 0 || LexLess(x, u[0]) {
      assert Tally(r, col)[1..] == Tally(u, col);
    } else {
      var rest := InsertLex(x, u[1..]);
      TallyInsert(x, u[1..], col);
      assert Tally(r, col)[1..] == Tally(rest, col);
      assert Tally(u, col)[1..] == Tally(u[1..], col);
    }
  }

  /** Over the distinct labels of a column, the counts add up to the number
      of cells. */
  lemma {:induction false} TallyTotal(col: seq<string>)
    ensures SumCounts(Tally(Unique(col), col)) == |col|
  {
    if |col| > 0 {
      var n := |col| - 1;
      var prev, x := col[..n], col[n];
      assert col == prev + [x];
      TallyTotal(prev);
      var u := Unique(prev);
      TallyGrows(u, prev, x);
      if x !in u {
        assert Unique(col) == InsertLex(x, u);
        TallyInsert(x, u, col);
        OccurrencesPositive(prev, x);
      }
    }
  }

  predicate DescendingCounts(rows: seq<FrequencyRow>) {
    forall i, j :: 0 <= i < j < |rows| ==> rows[i].counts >= rows[j].counts
  }

  predicate DistinctTypes(rows: seq<FrequencyRow>) {
    forall i, j :: 0 <= i < j < |rows| ==> rows[i].celltype != rows[j].celltype
  }

  /** `x` put into a list sorted by descending count. */
  function InsertByCount(x: FrequencyRow, rows: seq<FrequencyRow>): (r: seq<FrequencyRow>)
    requires DescendingCounts(rows)
    ensures multiset(r) == multiset(rows) + multiset{x}
    ensures DescendingCounts(r)
    ensures SumCounts(r) == x.counts + SumCounts(rows)
    ensures |r| == |rows| + 1 && (r[0] == x || (|rows| > 0 && r[0] == rows[0]))
  {
    if |rows| == 0 || x.counts >= rows[0].counts then
      ConsDescending(x, rows);
      [x] + rows
    else
      var rest := InsertByCount(x, rows[1..]);
      InsertBehind(x, rows, rest);
      [rows[0]] + rest
  }

  /** When `x` goes behind the head, the head stays in front of the tail
      with `x` inserted. */
  lemma InsertBehind(x: FrequencyRow, rows: seq<FrequencyRow>, rest: seq<FrequencyRow>)
    requires |rows| > 0 && DescendingCounts(rows) && x.counts < rows[0].counts
    requires DescendingCounts(rest) && multiset(rest) == multiset(rows[1..]) + multiset{x}
    requires |rest| > 0 && (rest[0] == x || (|rows| > 1 && rest[0] == rows[1]))
    ensures DescendingCounts([rows[0]] + rest)
    ensures ([rows[0]] + rest)[1..] == rest && ([rows[0]] + rest)[0] == rows[0]
    ensures multiset([rows[0]] + rest) == multiset(rows) + multiset{x}
  {
    ConsDescending(rows[0], rest);
    assert rows == [rows[0]] + rows[1..];
  }

  /** A row at least as frequent as the head of a descending list can go
      in front of it. */
  lemma ConsDescending(y: FrequencyRow, rest: seq<FrequencyRow>)
    requires DescendingCounts(rest) && (|rest| == 0 || y.counts >= rest[0].counts)
    ensures DescendingCounts([y] + rest)
    ensures ([y] + rest)[1..] == rest && ([y] + rest)[0] == y
    ensures multiset([y] + rest) == multiset{y} + multiset(rest)
  {
    var r := [y] + rest;
    assert r[1..] == rest;
    forall i, j | 0 <= i < j < |r| ensures r[i].counts >= r[j].counts {
      if i == 0 && j > 1 {
        assert rest[0].counts >= rest[j - 1].counts;
      }
    }
  }

  /** Prepending a row whose label no other row has keeps the labels distinct. */
  lemma ConsKeepsTypesDistinct(y: FrequencyRow, rows: seq<FrequencyRow>)
    requires DistinctTypes(rows)
    requires forall k :: 0 <= k < |rows| ==> rows[k].celltype != y.celltype
    ensures DistinctTypes([y] + rows)
  {
    var r := [y] + rows;
    forall i, j | 0 <= i < j < |r| ensures r[i].celltype != r[j].celltype {
      assert r[j] == rows[j - 1];
      if i > 0 {
        assert r[i] == rows[i - 1];
      }
    }
  }

  /** Every row of an insertion is the inserted row or one of the old rows. */
  lemma InsertMembers(x: FrequencyRow, rows: seq<FrequencyRow>)
    requires DescendingCounts(rows)
    ensures forall k :: 0 <= k < |InsertByCount(x, rows)| ==>
      InsertByCount(x, rows)[k] == x || InsertByCount(x, rows)[k] in rows
  {
    var r := InsertByCount(x, rows);
    forall k | 0 <= k < |r| ensures r[k] == x || r[k] in rows {
      assert r[k] in multiset(rows) + multiset{x};
    }
  }

  lemma {:induction false} InsertKeepsTypesDistinct(x: FrequencyRow, rows: seq<FrequencyRow>)
    requires DescendingCounts(rows) && DistinctTypes(rows)
    requires forall y :: y in rows ==> y.celltype != x.celltype
    ensures DistinctTypes(InsertByCount(x, rows))
  {
    if |rows| == 0 || x.counts >= rows[0].counts {
      ConsKeepsTypesDistinct(x, rows);
    } else {
      var tail := rows[1..];
      InsertKeepsTypesDistinct(x, tail);
      var rest := InsertByCount(x, tail);
      InsertMembers(x, tail);
      forall k | 0 <= k < |rest| ensures rest[k].celltype != rows[0].celltype {
        if rest[k] != x {
          var m :| 0 <= m < |tail| && tail[m] == rest[k];
          assert rows[m + 1] == rest[k];
        }
      }
      ConsKeepsTypesDistinct(rows[0], rest);
    }
  }

  /** The rows in descending order of count (`sort_values(ascending=False)`);
      the order among equal counts is not specified by the source, this one
      is an insertion sort's. */
  function SortByCount(rows: seq<FrequencyRow>): (r: seq<FrequencyRow>)
    ensures multiset(r) == multiset(rows) && DescendingCounts(r)
    ensures SumCounts(r) == SumCounts(rows)
  {
    if |rows| == 0 then []
    else
      assert rows == [rows[0]] + rows[1..];
      InsertByCount(rows[0], SortByCount(rows[1..]))
  }

  lemma {:induction false} SortKeepsTypesDistinct(rows: seq<FrequencyRow>)
    requires DistinctTypes(rows)
    ensures DistinctTypes(SortByCount(rows))
  {
    if |rows| > 0 {
      SortKeepsTypesDistinct(rows[1..]);
      var s := SortByCount(rows[1..]);
      forall y | y in s ensures y.celltype != rows[0].celltype {
        assert y in multiset(rows[1..]);
      }
      InsertKeepsTypesDistinct(rows[0], s);
    }
  }

  /** Every row of the tally names a label of the column with its count. */
  lemma TallyRows(col: seq<string>, rows: seq<FrequencyRow>)
    requires multiset(rows) == multiset(Tally(Unique(col), col))
    ensures forall k :: 0 <= k < |rows| ==> rows[k].counts == Occurrences(col, rows[k].celltype) && rows[k].counts > 0
    ensures forall l :: l in col <==> exists k :: 0 <= k < |rows| && rows[k].celltype == l
  {
    var u := Unique(col);
    var t := Tally(u, col);
    forall k | 0 <= k < |rows| ensures rows[k].counts == Occurrences(col, rows[k].celltype) && rows[k].counts > 0 {
      assert rows[k] in multiset(t);
      OccurrencesPositive(col, rows[k].celltype);
    }
    forall l ensures l in col <==> exists k :: 0 <= k < |rows| && rows[k].celltype == l {
      OccurrencesPositive(col, l);
      if l in col {
        var i :| 0 <= i < |u| && u[i] == l;
        assert t[i] in multiset(rows);
        var k :| 0 <= k < |rows| && rows[k] == t[i];
        assert rows[k].celltype == l;
      }
    }
  }

  /** `summary_frequency`: every label of the column exactly once with its
      number of cells, the counts adding up to the number of cells, most
      frequent first. */
  function Summary(col: seq<string>): (rows: seq<FrequencyRow>)
    ensures DistinctTypes(rows) && DescendingCounts(rows)
    ensures forall k :: 0 <= k < |rows| ==> rows[k].counts == Occurrences(col, rows[k].celltype) && rows[k].counts > 0
    ensures forall l :: l in col <==> exists k :: 0 <= k < |rows| && rows[k].celltype == l
    ensures SumCounts(rows) == |col|
  {
    var t := Tally(Unique(col), col);
    TallyTotal(col);
    SortKeepsTypesDistinct(t);
    TallyRows(col, SortByCount(t));
    SortByCount(t)
  }

  // ---------------------------------------------------------------------
  // Annotation results

  /** The columns `over_clustering` and `majority_voting`, once added. */
  datatype Voting = Voting(overClustering: seq<string>, majority: seq<string>)

  /** The `predicted_labels` table: the cell index, the `predicted_labels`
      column and, after majority voting, two more columns. */
  datatype LabelTable = LabelTable(index: seq<string>, predicted: seq<string>, voting: Option<Voting>)

  /** One row of the frequency summary. */
  datatype FrequencyRow = FrequencyRow(celltype: string, counts: nat)

  /** The column a summary is based on. */
  datatype LabelColumn = PredictedLabels | MajorityVoting

  datatype AnnotationError =
    /** The over-clustering does not have one entry per cell. */
    | LengthMismatch(cells: nat, clusters: nat)
    /** The table already has the two majority-voting columns, and the join
        refuses overlapping columns. */
    | ColumnsOverlap
    /** The summary asks for a column the table does not have. */
    | MissingColumn

  /** The table has one entry per cell in every column. */
  ghost predicate WellFormed(t: LabelTable) {
    && |t.predicted| == |t.index|
    && (t.voting.Some? ==> |t.voting.value.overClustering| == |t.voting.value.majority| == |t.index|)
  }

  /** The outcome of one annotation run. */
  class AnnotationResult {
    var predictedLabels: LabelTable
    const probabilityTable: Matrix
    const cellCount: nat

    /** The number of cells is the number of rows of the label table. */
    constructor (labels: LabelTable, prob: Matrix)
      ensures predictedLabels == labels && probabilityTable == prob
      ensures cellCount == |labels.index|
    {
      predictedLabels, probabilityTable, cellCount := labels, prob, |labels.index|;
    }

    /** `summary_frequency(by)`: the frequency summary of the chosen column;
        asking for `majority_voting` before voting is a missing column. */
    function SummaryFrequency(column: LabelColumn): (r: Result<seq<FrequencyRow>, AnnotationError>)
      reads this
      ensures r.Err? <==> column == MajorityVoting && predictedLabels.voting.None?
      ensures r.Err? ==> r.error == MissingColumn
      ensures column == PredictedLabels ==> r == Ok(Summary(predictedLabels.predicted))
      ensures column == MajorityVoting && predictedLabels.voting.Some? ==>
                r == Ok(Summary(predictedLabels.voting.value.majority))
    {
      match column
      case PredictedLabels => Ok(Summary(predictedLabels.predicted))
      case MajorityVoting =>
        if predictedLabels.voting.None? then Err(MissingColumn)
        else Ok(Summary(predictedLabels.voting.value.majority))
    }
  }

  /** A classification run over one in-memory data set: the expression
      matrix and its genes, the cell names, the cell metadata columns,
      whether a neighbourhood graph exists, and the (shared) model. */
  class Classifier {
    var indata: Matrix
    var indataGenes: seq<string>
    const cells: seq<string>
    var obs: map<string, seq<string>>
    var hasNeighbourGraph: bool
    const model: Model

    ghost predicate Valid()
      reads this, model, model.classifier, model.scaler
    {
      |indata| == |cells| && HasWidth(indata, |indataGenes|) && model.Usable()
    }

    /** The data as the loaders leave it (loading itself is not modelled). */
    constructor (indata: Matrix, genes: seq<string>, cells: seq<string>,
                 obs: map<string, seq<string>>, hasNeighbourGraph: bool, model: Model)
      ensures this.indata == indata && indataGenes == genes && this.cells == cells
      ensures this.obs == obs && this.hasNeighbourGraph == hasNeighbourGraph && this.model == model
    {
      this.indata, indataGenes, this.cells := indata, genes, cells;
      this.obs, this.hasNeighbourGraph, this.model := obs, hasNeighbourGraph, model;
    }

    /** The gene matching and scaling of `celltype`: keep the known genes
        in input order, look each up in the model, and standardise with the
        model's statistics of those genes, clipped above at 10. The
        positions of the kept genes in the model come back. */
    method AlignInput() returns (lrIdx: seq<nat>)
      requires Valid()
      modifies this
      ensures indataGenes == KeptGenes(old(indataGenes), model.classifier.features)
      ensures indata == AlignedInput(old(indata), old(indataGenes), model.classifier.features,
                                     model.scaler.mean, model.scaler.scale)
      ensures |indata| == |cells|
      ensures lrIdx == Positions(model.classifier.features, indataGenes)
      ensures obs == old(obs) && hasNeighbourGraph == old(hasNeighbourGraph)
    {
      var features := model.classifier.features;
      var kept := KeptGenes(indataGenes, features);
      indata := AlignedInput(indata, indataGenes, features, model.scaler.mean, model.scaler.scale);
      indataGenes := kept;
      lrIdx := Positions(features, kept);
    }

    /** `celltype`: align the input to the model, restrict the shared
        classifier to the kept genes, and predict. */
    method Celltype(predict: (Matrix, Matrix) -> Prediction) returns (result: AnnotationResult)
      requires Valid() && OneLabelPerRow(predict)
      modifies this, model.classifier
      ensures indataGenes == KeptGenes(old(indataGenes), old(model.classifier.features))
      ensures indata == AlignedInput(old(indata), old(indataGenes), old(model.classifier.features),
                                     model.scaler.mean, model.scaler.scale)
      ensures model.classifier.features == indataGenes
      ensures model.classifier.nFeaturesIn == |indataGenes|
      ensures model.classifier.coef
              == PickColumns(old(model.classifier.coef), Positions(old(model.classifier.features), indataGenes),
                             |old(model.classifier.features)|)
      ensures model.classifier.calls == old(model.classifier.calls)
      ensures fresh(result)
      ensures result.predictedLabels
              == LabelTable(cells, predict(indata, model.classifier.coef).labels, None)
      ensures result.probabilityTable == predict(indata, model.classifier.coef).prob
      ensures result.cellCount == |cells| && WellFormed(result.predictedLabels)
      ensures obs == old(obs) && hasNeighbourGraph == old(hasNeighbourGraph)
      ensures Distinct(old(indataGenes)) ==> Valid()
    {
      ghost var k := KeptIndices(indataGenes, model.classifier.features);
      ghost var distinct := Distinct(indataGenes);
      ghost var features := model.classifier.features;
      var lrIdx := AlignInput();
      model.classifier.Restrict(lrIdx);
      if distinct {
        PickIncreasingDistinct(old(indataGenes), k);
        forall i, j | 0 <= i < j < |lrIdx| ensures lrIdx[i] != lrIdx[j] {
          assert features[lrIdx[i]] == indataGenes[i] && features[lrIdx[j]] == indataGenes[j];
        }
        DistinctBounded(lrIdx, |features|);
      }
      var p := predict(indata, model.classifier.coef);
      result := new AnnotationResult(LabelTable(cells, p.labels, None), p.prob);
    }

    /** `over_cluster`: build the neighbourhood graph when there is none, run
        the external clustering at the chosen resolution, and hand back its
        column; the `over_clustering` metadata column is dropped afterwards,
        also when it was there before. */
    method OverCluster(resolution: Option<real>, leiden: real -> seq<string>) returns (oc: seq<string>)
      modifies this
      ensures hasNeighbourGraph
      ensures oc == leiden(ChosenResolution(resolution, |cells|))
      ensures obs == old(obs) - {"over_clustering"}
      ensures indata == old(indata) && indataGenes == old(indataGenes)
    {
      if !hasNeighbourGraph {
        hasNeighbourGraph := true;
      }
      var res: real;
      if resolution.None? {
        if |cells| < 5000 {
          res := 5.0;
        } else if |cells| < 20000 {
          res := 10.0;
        } else if |cells| < 40000 {
          res := 15.0;
        } else {
          res := 20.0;
        }
      } else {
        res := resolution.value;
      }
      obs := obs["over_clustering" := leiden(res)];
      oc := obs["over_clustering"];
      obs := obs - {"over_clustering"};
    }

    /** `majority_vote`: count labels per cluster, give every cell its
        cluster's majority label, and add the clusters and those labels as
        two new columns of the same object's table. */
    static method MajorityVote(predictions: AnnotationResult, overClustering: seq<string>)
      returns (r: Result<AnnotationResult, AnnotationError>)
      modifies predictions
      ensures var t := old(predictions.predictedLabels);
              r.Err? <==> |overClustering| != |t.predicted| || t.voting.Some?
      ensures var t := old(predictions.predictedLabels);
              |overClustering| != |t.predicted| ==> r == Err(LengthMismatch(|t.predicted|, |overClustering|))
      ensures var t := old(predictions.predictedLabels);
              |overClustering| == |t.predicted| && t.voting.Some? ==> r == Err(ColumnsOverlap)
      ensures var t := old(predictions.predictedLabels);
              r.Ok? ==>
                && r.value == predictions
                && |overClustering| == |t.predicted|
                && predictions.predictedLabels
                   == t.(voting := Some(Voting(overClustering, MajorityColumn(t.predicted, overClustering))))
      ensures r.Err? ==> predictions.predictedLabels == old(predictions.predictedLabels)
      ensures WellFormed(old(predictions.predictedLabels)) ==> WellFormed(predictions.predictedLabels)
    {
      var t := predictions.predictedLabels;
      if |overClustering| != |t.predicted| {
        return Err(LengthMismatch(|t.predicted|, |overClustering|));
      }
      var majority := MajorityColumn(t.predicted, overClustering);
      if t.voting.Some? {
        return Err(ColumnsOverlap);
      }
      predictions.predictedLabels := t.(voting := Some(Voting(overClustering, majority)));
      return Ok(predictions);
    }
  }
}
