/**
  The state of a BSShape and what each of its operations does to it:
  `clear`, `update`, `transform`, `transformShapes` and `bounds`, each as a
  function from the old state (and the operation's inputs) to the new one.
  The class in module ShapeClass is proved to follow these functions; the
  lemmas here state what the functions guarantee.
*/
module ShapeSpec {
  import opened Wrappers
  import opened Geometry
  import opened Blocks
  import opened Extraction
  import opened Weights
  import opened Skinning

  /** Which blocks and tables the shape reads, and the counts taken from them. */
  datatype Binding = Binding(
    nifVersion: int,
    skinInstName: string,
    skinDataName: string,
    iSkin: Option<SkinInstance>,
    iSkinData: Option<SkinData>,
    iSkinPart: Option<SkinPartition>,
    iVertData: Option<seq<VertexRecord>>,
    iTriData: Option<seq<Triangle>>,
    numVerts: nat,
    numTris: nat)

  datatype Flags = Flags(
    updateData: bool,
    updateBounds: bool,
    updateSkin: bool,
    transformRigid: bool,
    doSkinning: bool,
    isVertexAlphaAnimation: bool)

  /** The raw per-vertex buffers and the triangle list. */
  datatype Buffers = Buffers(
    verts: seq<Vec3>,
    norms: seq<Vec3>,
    tangents: seq<Vec3>,
    bitangents: seq<Vec3>,
    coords: seq<seq<Vec2>>,
    colors: seq<Color4>,
    triangles: seq<Triangle>)

  /** The skin binding `transform` resolves: skeleton root, skeleton
      transform, bone list and weight table. */
  datatype SkinTable = SkinTable(
    skeletonRoot: int,
    skeletonTrans: Transform,
    bones: seq<int>,
    weights: seq<BoneWeights>)

  /** The buffers `transformShapes` produces. */
  datatype Transformed = Transformed(
    transVerts: seq<Vec3>,
    transNorms: seq<Vec3>,
    transTangents: seq<Vec3>,
    transBitangents: seq<Vec3>)

  /** The stored bounding sphere of the block and the cached bound. */
  datatype SphereCache = SphereCache(
    bsphereCenter: Vec3,
    bsphereRadius: real,
    boundSphere: Sphere)

  datatype ShapeState = ShapeState(
    iBlock: Option<nat>,
    binding: Binding,
    flags: Flags,
    buffers: Buffers,
    table: SkinTable,
    transformed: Transformed,
    sphere: SphereCache)

  /** What a frame supplies to `transformShapes`: whether the shape is hidden,
      whether the scene's DoSkinning option is on, the transform
      `view * localTrans` of every bone found under the shape's root, the bind
      correction `setTransform` reads for each bone slot, and the inverse of
      the shape's view transform applied to a sphere. */
  datatype Frame = Frame(
    hidden: bool,
    skinningEnabled: bool,
    pose: map<int, Transform>,
    bind: nat -> Transform,
    toLocal: Sphere -> Sphere)

  function Min(a: nat, b: nat): nat {
    if a < b then a else b
  }

  const NoBuffers: Buffers := Buffers([], [], [], [], [], [], [])

  /** A freshly constructed shape over block `block`. */
  function Initial(block: Option<nat>): ShapeState {
    ShapeState(block,
               Binding(0, "", "", None, None, None, None, None, 0, 0),
               Flags(false, false, false, false, false, false),
               NoBuffers,
               SkinTable(-1, Identity, [], []),
               Transformed([], [], [], []),
               SphereCache(Origin, 0.0, Sphere(Origin, 0.0)))
  }

  // ------------------------------------------------------------------ clear

  /** Drops the skin references and empties the buffers, the bone list and the
      weight table. */
  function ClearSpec(s: ShapeState): ShapeState {
    s.(binding := s.binding.(iSkin := None, iSkinData := None, iSkinPart := None),
       buffers := s.buffers.(verts := [], norms := [], tangents := [], bitangents := [],
                             coords := [], colors := [], triangles := []),
       table := s.table.(bones := [], weights := []))
  }

  // ----------------------------------------------------------------- update

  /** `update` does anything only for a valid shape block and index that is
      the shape itself, its current skin instance or skin data, or a property. */
  predicate Active(s: ShapeState, index: Option<nat>, indexIsProperty: bool) {
    s.iBlock.Some? && index.Some?
    && (s.iBlock.value == index.value
        || (s.binding.iSkin.Some? && s.binding.iSkin.value.id == index.value)
        || (s.binding.iSkinData.Some? && s.binding.iSkinData.value.id == index.value)
        || indexIsProperty)
  }

  /** Type names and skin references (the part of `update` before the layout). */
  function Bind(b: Binding, src: ShapeSource): (r: Binding)
    ensures r.nifVersion == src.userVersion2
    ensures (r.skinInstName, r.skinDataName) == SkinTypeNames(src.userVersion2)
    ensures r.iSkin == ResolveSkin(src)
    ensures IsSkinned(src) ==> r.iSkinData == ResolveData(ResolveSkin(src).value, r.skinDataName)
                               && r.iSkinPart == ResolvePartition(ResolveSkin(src).value)
    ensures !IsSkinned(src) ==> r.iSkinData == b.iSkinData && r.iSkinPart == b.iSkinPart
    ensures r.iVertData == b.iVertData && r.iTriData == b.iTriData
    ensures r.numVerts == b.numVerts && r.numTris == b.numTris
  {
    var names := SkinTypeNames(src.userVersion2);
    var inst := ResolveSkin(src);
    var skinned := IsSkinned(src);
    b.(nifVersion := src.userVersion2, skinInstName := names.0, skinDataName := names.1,
       iSkin := inst,
       iSkinData := if skinned then ResolveData(inst.value, names.1) else b.iSkinData,
       iSkinPart := if skinned then ResolvePartition(inst.value) else b.iSkinPart)
  }

  /** The flags `update` sets before any of its early returns. */
  function BindFlags(f: Flags, src: ShapeSource): Flags {
    f.(updateData := true, updateBounds := true,
       updateSkin := IsSkinned(src), transformRigid := !IsSkinned(src))
  }

  /** The binding after the layout step, and the data size when `update` goes
      on (None when it returns early). */
  datatype Layout = Layout(binding: Binding, dataSize: Option<nat>)

  function LayoutSpec(b: Binding, src: ShapeSource): Layout {
    if !DataOnSkin(src) then
      var b1 := b.(iVertData := src.vertexData, iTriData := src.triangles);
      if src.vertexData.None? || src.triangles.None? then Layout(b1, None)
      else Layout(b1.(numVerts := Min(src.numVertices, |src.vertexData.value|),
                      numTris := Min(src.numTriangles, |src.triangles.value|)),
                  Some(src.dataSize))
    else
      var part := ResolvePartition(ResolveSkin(src).value);
      var b1 := b.(iSkinPart := part);
      if part.None? then Layout(b1, None)
      else
        var p := part.value;
        var b2 := b1.(iVertData := p.vertexData, iTriData := None);
        if p.vertexData.None? || p.dataSize == 0 || p.vertexSize == 0 then Layout(b2, None)
        else Layout(b2.(numVerts := p.dataSize / p.vertexSize), Some(p.dataSize))
  }

  /** The triangles of the layout in use: the first `numTris` of the shape's
      table, or every partition's list in order. */
  function SourceTriangles(b: Binding, onSkin: bool): seq<Triangle> {
    if !onSkin then (match b.iTriData case Some(t) => Prefix(t, b.numTris) case None => [])
    else (match b.iSkinPart case Some(p) => Flatten(p.partitions) case None => [])
  }

  /** The buffers the rebuild loop reads from the bound tables. */
  function Rebuild(b: Binding, src: ShapeSource): Buffers {
    var t, n := b.iVertData, b.numVerts;
    Buffers(if src.isDynamic then DynamicPositions(src.dynamicVertices) else Column(t, n, VertexOf),
            Column(t, n, NormalOf),
            Column(t, n, TangentOf),
            Column(t, n, BitangentOf),
            [Column(t, n, UVOf)],
            ColorsOf(t, n),
            SourceTriangles(b, DataOnSkin(src)))
  }

  function StoredSphere(c: SphereCache, src: ShapeSource): SphereCache {
    match src.boundingSphere
    case Some(b) => c.(bsphereCenter := b.center, bsphereRadius := b.radius)
    case None => c
  }

  /** The shader flag: the tree-animation flag when there is a shader property,
      the previous value otherwise. */
  function AlphaAnimation(f: Flags, src: ShapeSource): bool {
    match src.treeAnim
    case Some(t) => t
    case None => f.isVertexAlphaAnimation
  }

  /** The part of `update` after the layout: the stored sphere, the rebuild
      when `rebuild` holds, and the alpha override. */
  function FinishSpec(s: ShapeState, src: ShapeSource, rebuild: bool): ShapeState {
    var buffers := if rebuild then Rebuild(s.binding, src) else s.buffers;
    var alpha := AlphaAnimation(s.flags, src);
    s.(flags := s.flags.(isVertexAlphaAnimation := alpha),
       sphere := StoredSphere(s.sphere, src),
       buffers := if alpha then buffers.(colors := ForceOpaque(buffers.colors)) else buffers)
  }

  function UpdateSpec(s: ShapeState, src: ShapeSource, index: Option<nat>, indexIsProperty: bool): ShapeState {
    if !Active(s, index, indexIsProperty) then s
    else
      var l := LayoutSpec(Bind(s.binding, src), src);
      var bound := s.(binding := l.binding, flags := BindFlags(s.flags, src));
      match l.dataSize
      case None => bound
      case Some(d) => FinishSpec(bound, src, index.value == s.iBlock.value && d > 0)
  }

  /** The state differs from `s` at most in what `update` may touch. */
  lemma UpdateFrame(s: ShapeState, src: ShapeSource, index: Option<nat>, indexIsProperty: bool)
    ensures var r := UpdateSpec(s, src, index, indexIsProperty);
      r.iBlock == s.iBlock && r.table == s.table && r.transformed == s.transformed
      && r.sphere.boundSphere == s.sphere.boundSphere
      && (!Active(s, index, indexIsProperty) ==> r == s)
  {
  }

  /** Before any early return, `update` selects the type names by version,
      resolves the skin instance, and sets `updateData` and `updateBounds`,
      `updateSkin` to the skinned state and `transformRigid` to its negation. */
  lemma UpdateBindsAndFlags(s: ShapeState, src: ShapeSource, index: Option<nat>, indexIsProperty: bool)
    requires Active(s, index, indexIsProperty)
    ensures var r := UpdateSpec(s, src, index, indexIsProperty);
      r.binding.nifVersion == src.userVersion2
      && (r.binding.skinInstName, r.binding.skinDataName) == SkinTypeNames(src.userVersion2)
      && r.binding.iSkin == ResolveSkin(src)
      && (IsSkinned(src) ==> r.binding.iSkinData == ResolveData(ResolveSkin(src).value, r.binding.skinDataName))
      && (!IsSkinned(src) ==> r.binding.iSkinData == s.binding.iSkinData && r.binding.iSkinPart == s.binding.iSkinPart)
      && r.flags.updateData && r.flags.updateBounds
      && r.flags.updateSkin == IsSkinned(src) && r.flags.transformRigid == !IsSkinned(src)
  {
  }

  /** `update` goes past every early return. */
  predicate Proceeds(s: ShapeState, src: ShapeSource, index: Option<nat>, indexIsProperty: bool) {
    Active(s, index, indexIsProperty) && LayoutSpec(Bind(s.binding, src), src).dataSize.Some?
  }

  /** `update` rebuilds the buffers: it proceeds, the index is the shape's own
      block and the data size is positive. */
  predicate Rebuilds(s: ShapeState, src: ShapeSource, index: Option<nat>, indexIsProperty: bool) {
    Proceeds(s, src, index, indexIsProperty)
    && index.value == s.iBlock.value && LayoutSpec(Bind(s.binding, src), src).dataSize.value > 0
  }

  /** Layout on the shape: the vertex and triangle tables come from the shape's
      block; an invalid table leaves counts and buffers unchanged; otherwise
      both counts are the declared count capped by the table's row count, and a
      rebuild keeps the first `numTris` triangles. */
  lemma UpdateOnShape(s: ShapeState, src: ShapeSource, index: Option<nat>, indexIsProperty: bool)
    requires Active(s, index, indexIsProperty) && !DataOnSkin(src)
    ensures var r := UpdateSpec(s, src, index, indexIsProperty);
      r.binding.iVertData == src.vertexData && r.binding.iTriData == src.triangles
      && ((src.vertexData.None? || src.triangles.None?) ==>
            r.buffers == s.buffers && r.binding.numVerts == s.binding.numVerts
            && r.binding.numTris == s.binding.numTris)
      && ((src.vertexData.Some? && src.triangles.Some?) ==>
            r.binding.numVerts == Min(src.numVertices, |src.vertexData.value|)
            && r.binding.numTris == Min(src.numTriangles, |src.triangles.value|)
            && (Rebuilds(s, src, index, indexIsProperty) ==>
                  r.buffers.triangles == src.triangles.value[..r.binding.numTris]))
  {
  }

  /** Layout on the skin partition: an invalid partition or vertex table, or a
      zero data or vertex size, leaves counts and buffers unchanged; otherwise
      `numVerts = dataSize / vertexSize`, `numTris` is not touched, and a
      rebuild concatenates the partitions' triangles in order. */
  lemma UpdateOnSkinPartition(s: ShapeState, src: ShapeSource, index: Option<nat>, indexIsProperty: bool)
    requires Active(s, index, indexIsProperty) && DataOnSkin(src)
    ensures var r := UpdateSpec(s, src, index, indexIsProperty);
      var part := ResolvePartition(ResolveSkin(src).value);
      r.binding.iSkinPart == part && r.binding.numTris == s.binding.numTris
      && ((part.None? || part.value.vertexData.None? || part.value.dataSize == 0 || part.value.vertexSize == 0) ==>
            r.buffers == s.buffers && r.binding.numVerts == s.binding.numVerts)
      && ((part.Some? && part.value.vertexData.Some? && part.value.dataSize != 0 && part.value.vertexSize != 0) ==>
            r.binding.iVertData == part.value.vertexData && r.binding.iTriData.None?
            && r.binding.numVerts == part.value.dataSize / part.value.vertexSize
            && (index.value == s.iBlock.value ==> r.buffers.triangles == Flatten(part.value.partitions)))
  {
  }

  /** After a rebuild the parallel buffers have `numVerts` entries in vertex
      order (positions: one per dynamic vertex for a dynamic shape), and the
      colours are those of the rows that have one, made opaque under tree
      animation. */
  lemma UpdateRebuildsBuffers(s: ShapeState, src: ShapeSource, index: Option<nat>, indexIsProperty: bool)
    requires Rebuilds(s, src, index, indexIsProperty)
    ensures var r := UpdateSpec(s, src, index, indexIsProperty);
      var t, n, b := r.binding.iVertData, r.binding.numVerts, r.buffers;
      |b.norms| == n && |b.tangents| == n && |b.bitangents| == n && |b.coords| == 1 && |b.coords[0]| == n
      && (forall i :: 0 <= i < n ==>
            b.norms[i] == Row(t, i).normal && b.tangents[i] == Row(t, i).tangent
            && b.bitangents[i] == BitangentOf(Row(t, i)) && b.coords[0][i] == Row(t, i).uv)
      && (!src.isDynamic ==> |b.verts| == n && forall i :: 0 <= i < n ==> b.verts[i] == Row(t, i).vertex)
      && (src.isDynamic ==> |b.verts| == |src.dynamicVertices|
                            && forall i :: 0 <= i < |b.verts| ==> b.verts[i] == Truncate(src.dynamicVertices[i]))
      && b.colors == (if r.flags.isVertexAlphaAnimation then ForceOpaque(ColorsOf(t, n)) else ColorsOf(t, n))
  {
    var r := UpdateSpec(s, src, index, indexIsProperty);
    var t, n, b := r.binding.iVertData, r.binding.numVerts, r.buffers;
    forall i | 0 <= i < n
      ensures b.norms[i] == Row(t, i).normal && b.tangents[i] == Row(t, i).tangent
              && b.bitangents[i] == BitangentOf(Row(t, i)) && b.coords[0][i] == Row(t, i).uv
    {
      ColumnAt(t, n, NormalOf, i);
      ColumnAt(t, n, TangentOf, i);
      ColumnAt(t, n, BitangentOf, i);
      ColumnAt(t, n, UVOf, i);
    }
    if !src.isDynamic {
      forall i | 0 <= i < n ensures b.verts[i] == Row(t, i).vertex {
        ColumnAt(t, n, VertexOf, i);
      }
    } else {
      forall i | 0 <= i < |b.verts| ensures b.verts[i] == Truncate(src.dynamicVertices[i]) {
        DynamicPositionsAt(src.dynamicVertices, i);
      }
    }
  }

  /** Without a rebuild the buffers stay as they were; only the colours may
      have their alpha forced to 1. */
  lemma UpdateKeepsBuffersUnlessRebuilt(s: ShapeState, src: ShapeSource, index: Option<nat>, indexIsProperty: bool)
    requires !Rebuilds(s, src, index, indexIsProperty)
    ensures var r := UpdateSpec(s, src, index, indexIsProperty);
      r.buffers == s.buffers || r.buffers == s.buffers.(colors := ForceOpaque(s.buffers.colors))
  {
  }

  /** Binding and laying out again on the same block data changes nothing. */
  lemma LayoutIdempotent(b: Binding, src: ShapeSource)
    ensures var l := LayoutSpec(Bind(b, src), src);
            LayoutSpec(Bind(l.binding, src), src) == l
  {
  }

  /** Finishing again with the same block data changes nothing. */
  lemma FinishIdempotent(s: ShapeState, src: ShapeSource, rebuild: bool)
    requires BindFlags(s.flags, src) == s.flags
    ensures var r := FinishSpec(s, src, rebuild);
            FinishSpec(r.(flags := BindFlags(r.flags, src)), src, rebuild) == r
  {
    var buffers := if rebuild then Rebuild(s.binding, src) else s.buffers;
    ForceOpaqueIdempotent(buffers.colors);
  }

  /** Running `update` twice on unchanged block data gives the state the first
      run gave. */
  lemma UpdateIdempotent(s: ShapeState, src: ShapeSource, index: Option<nat>, indexIsProperty: bool)
    ensures var r := UpdateSpec(s, src, index, indexIsProperty);
            UpdateSpec(r, src, index, indexIsProperty) == r
  {
    var r := UpdateSpec(s, src, index, indexIsProperty);
    if Active(s, index, indexIsProperty) && Active(r, index, indexIsProperty) {
      var l := LayoutSpec(Bind(s.binding, src), src);
      LayoutIdempotent(s.binding, src);
      var bound := s.(binding := l.binding, flags := BindFlags(s.flags, src));
      if l.dataSize.Some? {
        FinishIdempotent(bound, src, index.value == s.iBlock.value && l.dataSize.value > 0);
      }
    }
  }

  // -------------------------------------------------------------- transform

  /** What `transform` needs of the table it reads: every positive slot of a
      row with four slots names an existing bone. */
  predicate TransformReady(s: ShapeState, hidden: bool) {
    !hidden && s.iBlock.Some? && s.flags.updateSkin && s.binding.iSkin.Some? && s.binding.iSkinData.Some?
    ==> IndicesInRange(s.binding.iVertData, s.binding.numVerts, |s.binding.iSkin.value.bones|)
  }

  /** The skin table `transform` resolves when `updateSkin` is set. */
  function ResolveTable(t: SkinTable, b: Binding): SkinTable
    requires b.iSkin.Some? && b.iSkinData.Some? ==> IndicesInRange(b.iVertData, b.numVerts, |b.iSkin.value.bones|)
  {
    if b.iSkin.Some? && b.iSkinData.Some? then
      var bones := b.iSkin.value.bones;
      SkinTable(b.iSkin.value.skeletonRoot,
                if b.nifVersion < 130 then b.iSkinData.value.skinTransform else t.skeletonTrans,
                bones,
                WeightTable(bones, b.iVertData, b.numVerts))
    else t.(bones := [], weights := [])
  }

  function TransformSpec(s: ShapeState, hidden: bool): ShapeState
    requires TransformReady(s, hidden)
  {
    if hidden then s
    else if s.iBlock.None? then ClearSpec(s)
    else if !s.flags.updateSkin then s.(flags := s.flags.(updateData := false))
    else
      var table := ResolveTable(s.table, s.binding);
      s.(flags := s.flags.(updateData := false, updateSkin := false,
                           doSkinning := s.binding.iSkin.Some? && s.binding.iSkinData.Some? && |table.weights| > 0),
         table := table)
  }

  /** `transform` clears `updateData` and `updateSkin`; when `updateSkin` was
      set and the skin instance and data resolve, it builds the weight table of
      the instance's bones and sets `doSkinning` exactly when the bone list is
      non-empty; when either does not resolve, the table is empty and skinning
      is off.  Without `updateSkin` only `updateData` changes. */
  lemma TransformBuildsTable(s: ShapeState)
    requires s.iBlock.Some? && TransformReady(s, false)
    ensures var r := TransformSpec(s, false);
      !r.flags.updateData && !r.flags.updateSkin
      && r.iBlock == s.iBlock && r.binding == s.binding && r.buffers == s.buffers
      && (!s.flags.updateSkin ==> r == s.(flags := s.flags.(updateData := false)))
      && (s.flags.updateSkin && s.binding.iSkin.Some? && s.binding.iSkinData.Some? ==>
            r.table.bones == s.binding.iSkin.value.bones
            && r.table.weights == WeightTable(s.binding.iSkin.value.bones, s.binding.iVertData, s.binding.numVerts)
            && r.flags.doSkinning == (|s.binding.iSkin.value.bones| > 0))
      && (s.flags.updateSkin && (s.binding.iSkin.None? || s.binding.iSkinData.None?) ==>
            r.table.bones == [] && r.table.weights == [] && !r.flags.doSkinning)
  {
  }

  // -------------------------------------------------------- transformShapes

  /** The skinning branch runs. */
  predicate Skins(s: ShapeState, f: Frame) {
    !f.hidden && s.iBlock.Some? && s.flags.doSkinning && f.skinningEnabled
  }

  /** `norms[v]`, `tangents[v]` and `bitangents[v]` are read for every v below
      `verts.count()`. */
  predicate SkinReady(s: ShapeState, f: Frame) {
    var b := s.buffers;
    Skins(s, f) ==> |b.verts| <= |b.norms| && |b.verts| <= |b.tangents| && |b.verts| <= |b.bitangents|
  }

  /** The skinned buffers for a weight table whose bind corrections are set. */
  function SkinnedBuffers(b: Buffers, ws: seq<BoneWeights>, f: Frame, geo: Geometry): Transformed
    requires |b.verts| <= |b.norms| && |b.verts| <= |b.tangents| && |b.verts| <= |b.bitangents|
  {
    var zero := Zeros(|b.verts|);
    Transformed(SkinBones(zero, b.verts, geo.apply, geo, f.pose, ws),
                Normalized(SkinBones(zero, b.norms, geo.rotate, geo, f.pose, ws), geo.normalize),
                Normalized(SkinBones(zero, b.tangents, geo.rotate, geo, f.pose, ws), geo.normalize),
                Normalized(SkinBones(zero, b.bitangents, geo.rotate, geo, f.pose, ws), geo.normalize))
  }

  function TransformShapesSpec(s: ShapeState, f: Frame, geo: Geometry): ShapeState
    requires SkinReady(s, f)
  {
    if f.hidden then s
    else if s.iBlock.None? then ClearSpec(s)
    else if s.flags.doSkinning && f.skinningEnabled then
      var ws := WithBindTransforms(s.table.weights, f.bind);
      var tr := SkinnedBuffers(s.buffers, ws, f, geo);
      s.(flags := s.flags.(transformRigid := false, updateBounds := false),
         table := s.table.(weights := ws),
         transformed := tr,
         sphere := s.sphere.(boundSphere := f.toLocal(geo.sphereOf(tr.transVerts))))
    else
      var b := s.buffers;
      s.(flags := s.flags.(transformRigid := true),
         transformed := Transformed(b.verts, b.norms, b.tangents, b.bitangents))
  }

  /** In the skinning branch the four buffers have one entry per raw vertex,
      `transformRigid` and `updateBounds` are cleared and the cached bound is
      that of the skinned positions; otherwise the buffers are copies of the
      raw ones and `transformRigid` is set.  The raw buffers never change. */
  lemma TransformShapesBuffers(s: ShapeState, f: Frame, geo: Geometry)
    requires SkinReady(s, f) && !f.hidden && s.iBlock.Some?
    ensures var r := TransformShapesSpec(s, f, geo);
      var n, t := |s.buffers.verts|, r.transformed;
      r.buffers == s.buffers && r.binding == s.binding
      && (Skins(s, f) ==>
            |t.transVerts| == n && |t.transNorms| == n && |t.transTangents| == n && |t.transBitangents| == n
            && !r.flags.transformRigid && !r.flags.updateBounds
            && r.sphere.boundSphere == f.toLocal(geo.sphereOf(t.transVerts)))
      && (!Skins(s, f) ==>
            t == Transformed(s.buffers.verts, s.buffers.norms, s.buffers.tangents, s.buffers.bitangents)
            && r.flags.transformRigid)
  {
  }

  /** Some influence in the weight table of a bone found in the scene names vertex v. */
  predicate Influenced(s: ShapeState, f: Frame, v: nat) {
    Touches(f.pose, s.table.weights, v)
  }

  lemma BindKeepsTouches(ws: seq<BoneWeights>, bind: nat -> Transform, pose: map<int, Transform>, v: nat)
    ensures Touches(pose, WithBindTransforms(ws, bind), v) == Touches(pose, ws, v)
  {
  }

  /** In the skinning pass a vertex no found bone influences keeps the zero
      position it was initialised with. */
  lemma UninfluencedVertexAtOrigin(s: ShapeState, f: Frame, geo: Geometry, v: nat)
    requires SkinReady(s, f) && Skins(s, f)
    requires v < |s.buffers.verts| && !Influenced(s, f, v)
    ensures TransformShapesSpec(s, f, geo).transformed.transVerts[v] == Origin
  {
    var ws := WithBindTransforms(s.table.weights, f.bind);
    BindKeepsTouches(s.table.weights, f.bind, f.pose, v);
    UntouchedVertexKeepsValue(Zeros(|s.buffers.verts|), s.buffers.verts, geo.apply, geo, f.pose, ws, v);
  }

  /** When no bone of the table is found in the scene, every skinned position is zero. */
  lemma NoBoneFoundAllAtOrigin(s: ShapeState, f: Frame, geo: Geometry)
    requires SkinReady(s, f) && Skins(s, f)
    requires forall k :: 0 <= k < |s.table.weights| ==> s.table.weights[k].bone !in f.pose
    ensures TransformShapesSpec(s, f, geo).transformed.transVerts == Zeros(|s.buffers.verts|)
  {
    var ws := WithBindTransforms(s.table.weights, f.bind);
    NoBoneFound(Zeros(|s.buffers.verts|), s.buffers.verts, geo.apply, geo, f.pose, ws);
  }

  /** A vertex whose row has fewer than four weights or indices gets no
      influence in `transform`, so the following skinning pass leaves it at the
      origin. */
  lemma MalformedVertexAtOrigin(s: ShapeState, f: Frame, geo: Geometry, v: nat)
    requires s.iBlock.Some? && s.flags.updateSkin && s.binding.iSkin.Some? && s.binding.iSkinData.Some?
    requires TransformReady(s, false)
    requires SkinReady(TransformSpec(s, false), f) && Skins(TransformSpec(s, false), f)
    requires v < |s.buffers.verts| && !HasFourSlots(Row(s.binding.iVertData, v))
    ensures TransformShapesSpec(TransformSpec(s, false), f, geo).transformed.transVerts[v] == Origin
  {
    var t := TransformSpec(s, false);
    if Influenced(t, f, v) {
      var k, l :| 0 <= k < |t.table.weights| && t.table.weights[k].bone in f.pose
                  && 0 <= l < |t.table.weights[k].weights| && t.table.weights[k].weights[l].vertex == v;
      var x := t.table.weights[k].weights[l];
      assert x in Influences(s.binding.iVertData, s.binding.numVerts, k);
      MalformedRowContributesNothing(s.binding.iVertData, s.binding.numVerts, k, x);
    }
    UninfluencedVertexAtOrigin(t, f, geo, v);
  }

  // ----------------------------------------------------------------- bounds

  function BoundsSpec(s: ShapeState, geo: Geometry, toWorld: Sphere -> Sphere): (r: (ShapeState, Sphere))
    ensures !s.flags.updateBounds ==> r.0 == s
    ensures s.flags.updateBounds ==>
              r.0 == s.(flags := s.flags.(updateBounds := false),
                        sphere := s.sphere.(boundSphere :=
                          if |s.buffers.verts| > 0 then geo.sphereOf(s.buffers.verts)
                          else Sphere(s.sphere.bsphereCenter, s.sphere.bsphereRadius)))
    ensures !r.0.flags.updateBounds && r.1 == toWorld(r.0.sphere.boundSphere)
  {
    var s1 := if s.flags.updateBounds then
                s.(flags := s.flags.(updateBounds := false),
                   sphere := s.sphere.(boundSphere :=
                     if |s.buffers.verts| > 0 then geo.sphereOf(s.buffers.verts)
                     else Sphere(s.sphere.bsphereCenter, s.sphere.bsphereRadius)))
              else s;
    (s1, toWorld(s1.sphere.boundSphere))
  }

  /** A second call answers from the cache: same state, same sphere. */
  lemma BoundsMemoised(s: ShapeState, geo: Geometry, toWorld: Sphere -> Sphere)
    ensures BoundsSpec(BoundsSpec(s, geo, toWorld).0, geo, toWorld) == BoundsSpec(s, geo, toWorld)
  {
  }

  /** After an `update` that did anything, the next `bounds` recomputes from
      the vertices, or from the stored sphere when there are none. */
  lemma UpdateInvalidatesBounds(s: ShapeState, src: ShapeSource, index: Option<nat>, indexIsProperty: bool,
                                geo: Geometry, toWorld: Sphere -> Sphere)
    requires Active(s, index, indexIsProperty)
    ensures var r := UpdateSpec(s, src, index, indexIsProperty);
            BoundsSpec(r, geo, toWorld).1
              == toWorld(if |r.buffers.verts| > 0 then geo.sphereOf(r.buffers.verts)
                         else Sphere(r.sphere.bsphereCenter, r.sphere.bsphereRadius))
  {
  }

  /** The skinning pass leaves the cache fresh: `bounds` then returns the
      sphere of the skinned positions without recomputing. */
  lemma SkinningRefreshesBounds(s: ShapeState, f: Frame, geo: Geometry, toWorld: Sphere -> Sphere)
    requires SkinReady(s, f) && Skins(s, f)
    ensures var r := TransformShapesSpec(s, f, geo);
            BoundsSpec(r, geo, toWorld) == (r, toWorld(f.toLocal(geo.sphereOf(r.transformed.transVerts))))
  {
  }
}
