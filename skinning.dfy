/**
  The skinning pass of `BSShape::transformShapes`: weighted accumulation of
  each found bone's transform into zero-initialised buffers, followed by
  renormalisation of the direction buffers.
*/
module Skinning {
  import opened Wrappers
  import opened Geometry
  import opened Weights

  /** One influence: `acc[v] += op( t, src[v] ) * weight`, skipped when v is
      outside the buffer. */
  function AddInfluence(acc: seq<Vec3>, src: seq<Vec3>, t: Transform,
                        op: (Transform, Vec3) -> Vec3, w: VertexWeight): (r: seq<Vec3>)
    requires |acc| <= |src|
    ensures |r| == |acc|
  {
    if w.vertex < |acc| then acc[w.vertex := Add(acc[w.vertex], Scale(op(t, src[w.vertex]), w.weight))]
    else acc
  }

  /** All influences of one bone, in list order. */
  function Accumulate(acc: seq<Vec3>, src: seq<Vec3>, t: Transform,
                      op: (Transform, Vec3) -> Vec3, ws: seq<VertexWeight>): (r: seq<Vec3>)
    requires |acc| <= |src|
    ensures |r| == |acc|
    decreases |ws|
  {
    if ws == [] then acc
    else AddInfluence(Accumulate(acc, src, t, op, ws[..|ws| - 1]), src, t, op, ws[|ws| - 1])
  }

  /** The transform of a bone that is found: `view * localTrans * bindCorrection`;
      `pose` maps each bone found in the scene to `view * localTrans`. */
  function BoneTransform(geo: Geometry, pose: map<int, Transform>, bw: BoneWeights): Option<Transform> {
    if bw.bone in pose then Some(geo.compose(pose[bw.bone], bw.trans)) else None
  }

  /** The bone loop: bones not found contribute nothing. */
  function SkinBones(acc: seq<Vec3>, src: seq<Vec3>, op: (Transform, Vec3) -> Vec3,
                     geo: Geometry, pose: map<int, Transform>, bws: seq<BoneWeights>): (r: seq<Vec3>)
    requires |acc| <= |src|
    ensures |r| == |acc|
    decreases |bws|
  {
    if bws == [] then acc
    else
      var prev := SkinBones(acc, src, op, geo, pose, bws[..|bws| - 1]);
      var bw := bws[|bws| - 1];
      match BoneTransform(geo, pose, bw)
      case None => prev
      case Some(t) => Accumulate(prev, src, t, op, bw.weights)
  }

  /** Normalises every vector of a buffer. */
  function Normalized(s: seq<Vec3>, normalize: Vec3 -> Vec3): (r: seq<Vec3>)
    ensures |r| == |s|
    ensures forall i :: 0 <= i < |s| ==> r[i] == normalize(s[i])
  {
    seq(|s|, i requires 0 <= i < |s| => normalize(s[i]))
  }

  /** Some influence of a found bone names vertex v. */
  predicate Touches(pose: map<int, Transform>, bws: seq<BoneWeights>, v: nat) {
    exists k, l :: 0 <= k < |bws| && bws[k].bone in pose && 0 <= l < |bws[k].weights|
                   && bws[k].weights[l].vertex == v
  }

  lemma {:induction false} AccumulateUntouched(acc: seq<Vec3>, src: seq<Vec3>, t: Transform,
                                               op: (Transform, Vec3) -> Vec3, ws: seq<VertexWeight>, v: nat)
    requires |acc| <= |src| && v < |acc|
    requires forall l :: 0 <= l < |ws| ==> ws[l].vertex != v
    ensures Accumulate(acc, src, t, op, ws)[v] == acc[v]
    decreases |ws|
  {
    if ws != [] {
      AccumulateUntouched(acc, src, t, op, ws[..|ws| - 1], v);
    }
  }

  /** Influences that name a vertex outside the buffer are skipped. */
  lemma {:induction false} AccumulateOutOfRange(acc: seq<Vec3>, src: seq<Vec3>, t: Transform,
                                                op: (Transform, Vec3) -> Vec3, ws: seq<VertexWeight>)
    requires |acc| <= |src|
    requires forall l :: 0 <= l < |ws| ==> ws[l].vertex >= |acc|
    ensures Accumulate(acc, src, t, op, ws) == acc
    decreases |ws|
  {
    if ws != [] {
      AccumulateOutOfRange(acc, src, t, op, ws[..|ws| - 1]);
    }
  }

  /** The influences of `ws` that name a vertex below `n`, in list order. */
  function InRange(ws: seq<VertexWeight>, n: nat): (r: seq<VertexWeight>)
    ensures |r| <= |ws|
    ensures forall l :: 0 <= l < |r| ==> r[l].vertex < n
  {
    if ws == [] then []
    else InRange(ws[..|ws| - 1], n) + (if ws[|ws| - 1].vertex < n then [ws[|ws| - 1]] else [])
  }

  /** An influence naming a vertex at or beyond the buffer's end is skipped
      wherever it sits in the list: accumulating the whole list is
      accumulating its in-range influences only. */
  lemma {:induction false} AccumulateSkipsOutOfRange(acc: seq<Vec3>, src: seq<Vec3>, t: Transform,
                                                     op: (Transform, Vec3) -> Vec3, ws: seq<VertexWeight>)
    requires |acc| <= |src|
    ensures Accumulate(acc, src, t, op, ws) == Accumulate(acc, src, t, op, InRange(ws, |acc|))
    decreases |ws|
  {
    if ws != [] {
      var init, w := ws[..|ws| - 1], ws[|ws| - 1];
      AccumulateSkipsOutOfRange(acc, src, t, op, init);
      var f := InRange(init, |acc|);
      if w.vertex < |acc| {
        assert InRange(ws, |acc|) == f + [w];
        assert (f + [w])[..|f + [w]| - 1] == f;
      } else {
        assert InRange(ws, |acc|) == f;
      }
    }
  }

  /** The bones of `bws` found in the scene, in list order. */
  function Found(pose: map<int, Transform>, bws: seq<BoneWeights>): (r: seq<BoneWeights>)
    ensures |r| <= |bws|
    ensures forall k :: 0 <= k < |r| ==> r[k].bone in pose
  {
    if bws == [] then []
    else Found(pose, bws[..|bws| - 1]) + (if bws[|bws| - 1].bone in pose then [bws[|bws| - 1]] else [])
  }

  /** A bone not found contributes nothing wherever it sits in the table: the
      bone loop over the whole table is the loop over its found bones only. */
  lemma {:induction false} SkinBonesSkipsMissing(acc: seq<Vec3>, src: seq<Vec3>, op: (Transform, Vec3) -> Vec3,
                                                 geo: Geometry, pose: map<int, Transform>, bws: seq<BoneWeights>)
    requires |acc| <= |src|
    ensures SkinBones(acc, src, op, geo, pose, bws) == SkinBones(acc, src, op, geo, pose, Found(pose, bws))
    decreases |bws|
  {
    if bws != [] {
      var init, bw := bws[..|bws| - 1], bws[|bws| - 1];
      SkinBonesSkipsMissing(acc, src, op, geo, pose, init);
      var f := Found(pose, init);
      if bw.bone in pose {
        assert Found(pose, bws) == f + [bw];
        assert (f + [bw])[..|f + [bw]| - 1] == f;
      } else {
        assert Found(pose, bws) == f;
      }
    }
  }

  /** A vertex named by no influence of a found bone keeps its initial value. */
  lemma {:induction false} UntouchedVertexKeepsValue(acc: seq<Vec3>, src: seq<Vec3>, op: (Transform, Vec3) -> Vec3,
                                                     geo: Geometry, pose: map<int, Transform>,
                                                     bws: seq<BoneWeights>, v: nat)
    requires |acc| <= |src| && v < |acc|
    requires !Touches(pose, bws, v)
    ensures SkinBones(acc, src, op, geo, pose, bws)[v] == acc[v]
    decreases |bws|
  {
    if bws != [] {
      var init := bws[..|bws| - 1];
      assert !Touches(pose, init, v);
      UntouchedVertexKeepsValue(acc, src, op, geo, pose, init, v);
      var bw := bws[|bws| - 1];
      if bw.bone in pose {
        forall l | 0 <= l < |bw.weights| ensures bw.weights[l].vertex != v {
          if bw.weights[l].vertex == v {
            assert Touches(pose, bws, v);
          }
        }
        AccumulateUntouched(SkinBones(acc, src, op, geo, pose, init), src,
                            geo.compose(pose[bw.bone], bw.trans), op, bw.weights, v);
      }
    }
  }

  /** When no bone of the table is found, the buffers keep their initial value. */
  lemma {:induction false} NoBoneFound(acc: seq<Vec3>, src: seq<Vec3>, op: (Transform, Vec3) -> Vec3,
                                       geo: Geometry, pose: map<int, Transform>, bws: seq<BoneWeights>)
    requires |acc| <= |src|
    requires forall k :: 0 <= k < |bws| ==> bws[k].bone !in pose
    ensures SkinBones(acc, src, op, geo, pose, bws) == acc
    decreases |bws|
  {
    if bws != [] {
      NoBoneFound(acc, src, op, geo, pose, bws[..|bws| - 1]);
    }
  }

  // ----------------------------------------------------------------- methods

  /** `weights[i].setTransform( nif, boneList.child( i, 0 ) )` for every slot;
      `bind( i )` is the transform that call reads for slot i. */
  function WithBindTransforms(ws: seq<BoneWeights>, bind: nat -> Transform): (r: seq<BoneWeights>)
    ensures |r| == |ws|
    ensures forall i :: 0 <= i < |ws| ==>
              r[i].bone == ws[i].bone && r[i].weights == ws[i].weights && r[i].trans == bind(i)
  {
    seq(|ws|, i requires 0 <= i < |ws| => ws[i].(trans := bind(i)))
  }

  method BindTransforms(ws: seq<BoneWeights>, bind: nat -> Transform) returns (r: seq<BoneWeights>)
    ensures r == WithBindTransforms(ws, bind)
  {
    r := ws;
    var i := 0;
    while i < |r|
      invariant 0 <= i <= |r| == |ws|
      invariant forall k :: 0 <= k < i ==> r[k] == ws[k].(trans := bind(k))
      invariant forall k :: i <= k < |r| ==> r[k] == ws[k]
    {
      r := r[i := r[i].(trans := bind(i))];
      i := i + 1;
    }
  }

  /** The inner loop of `transformShapes` for one found bone with transform `t`. */
  method AddBone(geo: Geometry, t: Transform, ws: seq<VertexWeight>,
                 verts: seq<Vec3>, norms: seq<Vec3>, tangents: seq<Vec3>, bitangents: seq<Vec3>,
                 v0: seq<Vec3>, n0: seq<Vec3>, t0: seq<Vec3>, b0: seq<Vec3>)
    returns (tv: seq<Vec3>, tn: seq<Vec3>, tt: seq<Vec3>, tb: seq<Vec3>)
    requires |v0| == |n0| == |t0| == |b0| == |verts|
    requires |verts| <= |norms| && |verts| <= |tangents| && |verts| <= |bitangents|
    ensures tv == Accumulate(v0, verts, t, geo.apply, ws)
    ensures tn == Accumulate(n0, norms, t, geo.rotate, ws)
    ensures tt == Accumulate(t0, tangents, t, geo.rotate, ws)
    ensures tb == Accumulate(b0, bitangents, t, geo.rotate, ws)
  {
    tv, tn, tt, tb := v0, n0, t0, b0;
    var l := 0;
    while l < |ws|
      invariant 0 <= l <= |ws|
      invariant tv == Accumulate(v0, verts, t, geo.apply, ws[..l])
      invariant tn == Accumulate(n0, norms, t, geo.rotate, ws[..l])
      invariant tt == Accumulate(t0, tangents, t, geo.rotate, ws[..l])
      invariant tb == Accumulate(b0, bitangents, t, geo.rotate, ws[..l])
    {
      var w := ws[l];
      assert ws[..l + 1][..l] == ws[..l] && ws[..l + 1][l] == w;
      if w.vertex < |verts| {
        var v := w.vertex;
        tv := tv[v := Add(tv[v], Scale(geo.apply(t, verts[v]), w.weight))];
        tn := tn[v := Add(tn[v], Scale(geo.rotate(t, norms[v]), w.weight))];
        tt := tt[v := Add(tt[v], Scale(geo.rotate(t, tangents[v]), w.weight))];
        tb := tb[v := Add(tb[v], Scale(geo.rotate(t, bitangents[v]), w.weight))];
      }
      l := l + 1;
    }
    assert ws[..|ws|] == ws;
  }

  /** The normalisation loop of `transformShapes`. */
  method NormalizeBuffers(normalize: Vec3 -> Vec3, n0: seq<Vec3>, t0: seq<Vec3>, b0: seq<Vec3>)
    returns (tn: seq<Vec3>, tt: seq<Vec3>, tb: seq<Vec3>)
    requires |n0| == |t0| == |b0|
    ensures tn == Normalized(n0, normalize)
    ensures tt == Normalized(t0, normalize)
    ensures tb == Normalized(b0, normalize)
  {
    tn, tt, tb := n0, t0, b0;
    var i := 0;
    while i < |n0|
      invariant 0 <= i <= |n0|
      invariant |tn| == |tt| == |tb| == |n0|
      invariant forall j :: 0 <= j < i ==> tn[j] == normalize(n0[j])
      invariant forall j :: i <= j < |n0| ==> tn[j] == n0[j]
      invariant forall j :: 0 <= j < i ==> tt[j] == normalize(t0[j])
      invariant forall j :: i <= j < |n0| ==> tt[j] == t0[j]
      invariant forall j :: 0 <= j < i ==> tb[j] == normalize(b0[j])
      invariant forall j :: i <= j < |n0| ==> tb[j] == b0[j]
    {
      tn := tn[i := normalize(tn[i])];
      tt := tt[i := normalize(tt[i])];
      tb := tb[i := normalize(tb[i])];
      i := i + 1;
    }
  }

  /** The accumulation and normalisation loops of `transformShapes`. */
  method SkinBuffers(geo: Geometry, pose: map<int, Transform>, weights: seq<BoneWeights>,
                     verts: seq<Vec3>, norms: seq<Vec3>, tangents: seq<Vec3>, bitangents: seq<Vec3>)
    returns (transVerts: seq<Vec3>, transNorms: seq<Vec3>, transTangents: seq<Vec3>, transBitangents: seq<Vec3>)
    requires |verts| <= |norms| && |verts| <= |tangents| && |verts| <= |bitangents|
    ensures transVerts == SkinBones(Zeros(|verts|), verts, geo.apply, geo, pose, weights)
    ensures transNorms == Normalized(SkinBones(Zeros(|verts|), norms, geo.rotate, geo, pose, weights), geo.normalize)
    ensures transTangents == Normalized(SkinBones(Zeros(|verts|), tangents, geo.rotate, geo, pose, weights), geo.normalize)
    ensures transBitangents == Normalized(SkinBones(Zeros(|verts|), bitangents, geo.rotate, geo, pose, weights), geo.normalize)
  {
    var zero := Zeros(|verts|);
    var tn, tt, tb;
    transVerts, tn, tt, tb := zero, zero, zero, zero;
    var k := 0;
    while k < |weights|
      invariant 0 <= k <= |weights|
      invariant transVerts == SkinBones(zero, verts, geo.apply, geo, pose, weights[..k])
      invariant tn == SkinBones(zero, norms, geo.rotate, geo, pose, weights[..k])
      invariant tt == SkinBones(zero, tangents, geo.rotate, geo, pose, weights[..k])
      invariant tb == SkinBones(zero, bitangents, geo.rotate, geo, pose, weights[..k])
    {
      var bw := weights[k];
      assert weights[..k + 1][..k] == weights[..k] && weights[..k + 1][k] == bw;
      if bw.bone in pose {
        var t := geo.compose(pose[bw.bone], bw.trans);
        transVerts, tn, tt, tb := AddBone(geo, t, bw.weights, verts, norms, tangents, bitangents,
                                          transVerts, tn, tt, tb);
      }
      k := k + 1;
    }
    assert weights[..|weights|] == weights;
    transNorms, transTangents, transBitangents := NormalizeBuffers(geo.normalize, tn, tt, tb);
  }
}
