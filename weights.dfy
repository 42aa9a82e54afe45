/**
  The weight table of `BSShape::transform`: one entry per bone of the skin
  instance, each holding the (vertex, weight) influences that name that bone.
*/
module Weights {
  import opened Wrappers
  import opened Geometry
  import opened Blocks

  datatype VertexWeight = VertexWeight(vertex: nat, weight: real)
  datatype BoneWeights = BoneWeights(bone: int, trans: Transform, weights: seq<VertexWeight>)

  /** A row contributes only when it has at least four weights and four indices. */
  predicate HasFourSlots(r: VertexRecord) {
    |r.boneWeights| >= 4 && |r.boneIndices| >= 4
  }

  /** Slot `j` of row `r` gives bone slot `b` the weight `w`. */
  predicate SlotGives(r: VertexRecord, j: nat, b: nat, w: real)
    requires HasFourSlots(r) && j < 4
  {
    r.boneWeights[j] > 0.0 && r.boneIndices[j] == b && r.boneWeights[j] == w
  }

  /** What slots 0 .. j-1 of row `r` (vertex `i`) append to bone slot `b`. */
  function SlotInfluences(r: VertexRecord, i: nat, b: nat, j: nat): seq<VertexWeight>
    requires HasFourSlots(r) && j <= 4
  {
    if j == 0 then []
    else SlotInfluences(r, i, b, j - 1)
         + (if r.boneWeights[j - 1] > 0.0 && r.boneIndices[j - 1] == b
            then [VertexWeight(i, r.boneWeights[j - 1])] else [])
  }

  function RowInfluences(table: Option<seq<VertexRecord>>, i: nat, b: nat): seq<VertexWeight> {
    var r := Row(table, i);
    if HasFourSlots(r) then SlotInfluences(r, i, b, 4) else []
  }

  /** The influence list of bone slot `b` after the first `n` rows. */
  function Influences(table: Option<seq<VertexRecord>>, n: nat, b: nat): seq<VertexWeight> {
    if n == 0 then [] else Influences(table, n - 1, b) + RowInfluences(table, n - 1, b)
  }

  /** The table `transform` builds: bone `b` of `bones` and its influences,
      with the default transform (the bind correction is set later). */
  function WeightTable(bones: seq<int>, table: Option<seq<VertexRecord>>, n: nat): (ws: seq<BoneWeights>)
    requires IndicesInRange(table, n, |bones|)
    ensures |ws| == |bones|
    ensures forall b :: 0 <= b < |ws| ==> ws[b].bone == bones[b] && ws[b].trans == Identity
  {
    seq(|bones|, b requires 0 <= b < |bones| => BoneWeights(bones[b], Identity, Influences(table, n, b)))
  }

  /** `weights[bns[j]]` is indexed without a check: every positive slot of a
      row with four slots must name an existing bone. */
  predicate IndicesInRange(table: Option<seq<VertexRecord>>, n: nat, boneCount: nat) {
    forall i: nat, j: nat ::
      i < n && j < 4 && HasFourSlots(Row(table, i)) && Row(table, i).boneWeights[j] > 0.0
      ==> Row(table, i).boneIndices[j] < boneCount
  }

  /** The table construction loop of `transform`. */
  method BuildWeightTable(bones: seq<int>, table: Option<seq<VertexRecord>>, n: nat)
    returns (weights: seq<BoneWeights>)
    requires IndicesInRange(table, n, |bones|)
    ensures weights == WeightTable(bones, table, n)
  {
    weights := seq(|bones|, _ => BoneWeights(0, Identity, []));
    var k := 0;
    while k < |bones|
      invariant 0 <= k <= |bones| == |weights|
      invariant forall b :: 0 <= b < k ==> weights[b] == BoneWeights(bones[b], Identity, [])
      invariant forall b :: k <= b < |bones| ==> weights[b] == BoneWeights(0, Identity, [])
    {
      weights := weights[k := weights[k].(bone := bones[k])];
      k := k + 1;
    }
    var i := 0;
    while i < n
      invariant 0 <= i <= n
      invariant |weights| == |bones|
      invariant forall b :: 0 <= b < |bones| ==>
                  weights[b] == BoneWeights(bones[b], Identity, Influences(table, i, b))
    {
      var r := Row(table, i);
      var wts := r.boneWeights;
      var bns := r.boneIndices;
      if |wts| < 4 || |bns| < 4 {
        i := i + 1;
        continue;
      }
      weights := AddRow(bones, table, i, weights);
      i := i + 1;
    }
  }

  /** The slot loop of `transform` for row `i`, a row with four slots. */
  method AddRow(bones: seq<int>, table: Option<seq<VertexRecord>>, i: nat, w0: seq<BoneWeights>)
    returns (weights: seq<BoneWeights>)
    requires HasFourSlots(Row(table, i))
    requires IndicesInRange(table, i + 1, |bones|)
    requires |w0| == |bones|
    requires forall b :: 0 <= b < |bones| ==> w0[b] == BoneWeights(bones[b], Identity, Influences(table, i, b))
    ensures |weights| == |bones|
    ensures forall b :: 0 <= b < |bones| ==> weights[b] == BoneWeights(bones[b], Identity, Influences(table, i + 1, b))
  {
    var r := Row(table, i);
    var wts := r.boneWeights;
    var bns := r.boneIndices;
    weights := w0;
    var j := 0;
    while j < 4
      invariant 0 <= j <= 4
      invariant |weights| == |bones|
      invariant forall b :: 0 <= b < |bones| ==>
                  weights[b] == BoneWeights(bones[b], Identity, Influences(table, i, b) + SlotInfluences(r, i, b, j))
    {
      if wts[j] > 0.0 {
        var b := bns[j];
        assert b < |bones|;
        weights := weights[b := weights[b].(weights := weights[b].weights + [VertexWeight(i, wts[j])])];
        forall c | 0 <= c < |bones|
          ensures weights[c] == BoneWeights(bones[c], Identity, Influences(table, i, c) + SlotInfluences(r, i, c, j + 1))
        {
          if c == b {
            assert Influences(table, i, c) + SlotInfluences(r, i, c, j + 1)
                == (Influences(table, i, c) + SlotInfluences(r, i, c, j)) + [VertexWeight(i, wts[j])];
          } else {
            assert SlotInfluences(r, i, c, j + 1) == SlotInfluences(r, i, c, j);
          }
        }
      } else {
        forall c | 0 <= c < |bones|
          ensures SlotInfluences(r, i, c, j + 1) == SlotInfluences(r, i, c, j)
        {
        }
      }
      j := j + 1;
    }
  }

  // ------------------------------------------------------------ properties

  lemma {:induction false} SlotMembership(r: VertexRecord, i: nat, b: nat, j: nat, x: VertexWeight)
    requires HasFourSlots(r) && j <= 4
    ensures x in SlotInfluences(r, i, b, j) <==>
              x.vertex == i && exists k :: 0 <= k < j && SlotGives(r, k, b, x.weight)
  {
    if j > 0 {
      SlotMembership(r, i, b, j - 1, x);
      var y := VertexWeight(i, r.boneWeights[j - 1]);
      var gives := r.boneWeights[j - 1] > 0.0 && r.boneIndices[j - 1] == b;
      if x in SlotInfluences(r, i, b, j) && x !in SlotInfluences(r, i, b, j - 1) {
        assert gives && x == y;
        assert SlotGives(r, j - 1, b, x.weight);
      }
      if x.vertex == i && exists k :: 0 <= k < j && SlotGives(r, k, b, x.weight) {
        var k :| 0 <= k < j && SlotGives(r, k, b, x.weight);
        if k == j - 1 {
          assert x == y && gives;
        }
      }
    }
  }

  lemma {:induction false} RowMembership(table: Option<seq<VertexRecord>>, i: nat, b: nat, x: VertexWeight)
    ensures x in RowInfluences(table, i, b) <==>
              x.vertex == i && HasFourSlots(Row(table, i))
              && exists k :: 0 <= k < 4 && SlotGives(Row(table, i), k, b, x.weight)
  {
    if HasFourSlots(Row(table, i)) {
      SlotMembership(Row(table, i), i, b, 4, x);
    }
  }

  /** (v, w) is an influence of bone slot `b` exactly when vertex v is one of the
      first `n`, its row has four slots, and one of them gives `b` the weight w > 0. */
  lemma {:induction false} InfluencesMembership(table: Option<seq<VertexRecord>>, n: nat, b: nat, x: VertexWeight)
    ensures x in Influences(table, n, b) <==>
              x.vertex < n && HasFourSlots(Row(table, x.vertex))
              && exists k :: 0 <= k < 4 && SlotGives(Row(table, x.vertex), k, b, x.weight)
  {
    if n > 0 {
      InfluencesMembership(table, n - 1, b, x);
      RowMembership(table, n - 1, b, x);
    }
  }

  /** Every influence has a positive weight. */
  lemma InfluencesPositive(table: Option<seq<VertexRecord>>, n: nat, b: nat, x: VertexWeight)
    requires x in Influences(table, n, b)
    ensures x.weight > 0.0 && x.vertex < n
  {
    InfluencesMembership(table, n, b, x);
  }

  /** A row with fewer than four weights or indices contributes nothing. */
  lemma MalformedRowContributesNothing(table: Option<seq<VertexRecord>>, n: nat, b: nat, x: VertexWeight)
    requires !HasFourSlots(Row(table, x.vertex))
    ensures x !in Influences(table, n, b)
  {
    InfluencesMembership(table, n, b, x);
  }

  predicate Ascending(ws: seq<VertexWeight>) {
    forall k, l :: 0 <= k < l < |ws| ==> ws[k].vertex <= ws[l].vertex
  }

  /** Each influence list is in ascending vertex order. */
  lemma {:induction false} InfluencesAscending(table: Option<seq<VertexRecord>>, n: nat, b: nat)
    ensures Ascending(Influences(table, n, b))
  {
    if n > 0 {
      var init := Influences(table, n - 1, b);
      var last := RowInfluences(table, n - 1, b);
      InfluencesAscending(table, n - 1, b);
      forall k | 0 <= k < |init| ensures init[k].vertex < n - 1 {
        InfluencesMembership(table, n - 1, b, init[k]);
      }
      forall l | 0 <= l < |last| ensures last[l].vertex == n - 1 {
        RowMembership(table, n - 1, b, last[l]);
      }
      AscendingAppend(init, last, n - 1);
    }
  }

  /** An ascending list of influences below vertex m, followed by influences
      of vertex m, is ascending. */
  lemma AscendingAppend(init: seq<VertexWeight>, last: seq<VertexWeight>, m: nat)
    requires Ascending(init)
    requires forall k :: 0 <= k < |init| ==> init[k].vertex < m
    requires forall l :: 0 <= l < |last| ==> last[l].vertex == m
    ensures Ascending(init + last)
  {
  }

  /** The table of a small example: two bones, three vertices.  Vertex 0 gives
      0.5 to bone 0; vertex 1 gives 0.3 to bone 0 and 0.7 to bone 1; vertex 2
      has only zero weights. */
  lemma SmallTable()
    ensures
      var row := (w: seq<real>, i: seq<Byte>) =>
        VertexRecord(Origin, Vec2(0.0, 0.0), 0.0, 0, 0, Origin, Origin, None, w, i);
      var table := Some([row([0.5, 0.0, 0.0, 0.0], [0, 0, 0, 0]),
                         row([0.3, 0.7, 0.0, 0.0], [0, 1, 0, 0]),
                         row([0.0, 0.0, 0.0, 0.0], [0, 0, 0, 0])]);
      WeightTable([7, 9], table, 3)
        == [BoneWeights(7, Identity, [VertexWeight(0, 0.5), VertexWeight(1, 0.3)]),
            BoneWeights(9, Identity, [VertexWeight(1, 0.7)])]
  {
    var row := (w: seq<real>, i: seq<Byte>) =>
      VertexRecord(Origin, Vec2(0.0, 0.0), 0.0, 0, 0, Origin, Origin, None, w, i);
    var table := Some([row([0.5, 0.0, 0.0, 0.0], [0, 0, 0, 0]),
                       row([0.3, 0.7, 0.0, 0.0], [0, 1, 0, 0]),
                       row([0.0, 0.0, 0.0, 0.0], [0, 0, 0, 0])]);
    assert RowInfluences(table, 0, 0) == [VertexWeight(0, 0.5)];
    assert RowInfluences(table, 0, 1) == [];
    assert RowInfluences(table, 1, 0) == [VertexWeight(1, 0.3)];
    assert RowInfluences(table, 1, 1) == [VertexWeight(1, 0.7)];
    assert RowInfluences(table, 2, 0) == [];
    assert RowInfluences(table, 2, 1) == [];
    assert Influences(table, 1, 0) == [VertexWeight(0, 0.5)];
    assert Influences(table, 2, 0) == [VertexWeight(0, 0.5), VertexWeight(1, 0.3)];
    assert Influences(table, 1, 1) == [];
    assert Influences(table, 2, 1) == [VertexWeight(1, 0.7)];
    assert Influences(table, 3, 0) == [VertexWeight(0, 0.5), VertexWeight(1, 0.3)];
    assert Influences(table, 3, 1) == [VertexWeight(1, 0.7)];
  }
}
