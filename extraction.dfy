/**
  Binding selection and buffer extraction of `BSShape::update`: which skin
  block types apply, whether the shape is skinned and where its vertex data
  lives, and how the parallel vertex buffers and the triangle list are read.
*/
module Extraction {
  import opened Wrappers
  import opened Geometry
  import opened Blocks

  // ---------------------------------------------------------------- binding

  /** The skin instance and skin data type names for a user version 2. */
  function SkinTypeNames(userVersion2: int): (names: (string, string))
    ensures userVersion2 == 130 ==> names == ("BSSkin::Instance", "BSSkin::BoneData")
    ensures userVersion2 != 130 ==> names == ("NiSkinInstance", "NiSkinData")
  {
    if userVersion2 == 130 then ("BSSkin::Instance", "BSSkin::BoneData")
    else ("NiSkinInstance", "NiSkinData")
  }

  /** Bit 0x400 of the vertex flags marks skinned vertex data. */
  predicate SkinFlag(vertexFlags: bv16) {
    vertexFlags & 0x400 != 0
  }

  /** The skin instance, if the "Skin" link resolves to a block of the expected type. */
  function ResolveSkin(src: ShapeSource): Option<SkinInstance> {
    if src.skin.Some? && SkinTypeNames(src.userVersion2).0 in src.skin.value.types then src.skin
    else None
  }

  function ResolveData(inst: SkinInstance, dataName: string): Option<SkinData> {
    if inst.data.Some? && dataName in inst.data.value.types then inst.data else None
  }

  function ResolvePartition(inst: SkinInstance): Option<SkinPartition> {
    if inst.partition.Some? && "NiSkinPartition" in inst.partition.value.types then inst.partition
    else None
  }

  predicate IsSkinned(src: ShapeSource) {
    SkinFlag(src.vertexFlags) && ResolveSkin(src).Some?
  }

  /** User version 2 = 100 keeps the vertex data of a skinned shape on its skin partition. */
  predicate DataOnSkin(src: ShapeSource) {
    IsSkinned(src) && src.userVersion2 == 100
  }

  lemma DataOnSkinNeedsSkin(src: ShapeSource)
    ensures DataOnSkin(src) <==> SkinFlag(src.vertexFlags) && src.userVersion2 == 100
                                 && src.skin.Some? && "NiSkinInstance" in src.skin.value.types
  {
  }

  // ------------------------------------------------------- per-vertex decode

  /** Bitangent Y and Z are unsigned bytes read as `b / 255 * 2 - 1`. */
  function BitangentChannel(b: Byte): (c: real)
    ensures -1.0 <= c <= 1.0
    ensures b == 0 ==> c == -1.0
    ensures b == 255 ==> c == 1.0
  {
    (b as real / 255.0) * 2.0 - 1.0
  }

  lemma BitangentChannelMonotone(a: Byte, b: Byte)
    ensures a <= b <==> BitangentChannel(a) <= BitangentChannel(b)
  {
  }

  function VertexOf(r: VertexRecord): Vec3 { r.vertex }
  function NormalOf(r: VertexRecord): Vec3 { r.normal }
  function TangentOf(r: VertexRecord): Vec3 { r.tangent }
  function UVOf(r: VertexRecord): Vec2 { r.uv }
  function BitangentOf(r: VertexRecord): Vec3 {
    Vec3(r.bitangentX, BitangentChannel(r.bitangentY), BitangentChannel(r.bitangentZ))
  }

  // ------------------------------------------------------------- buffers

  /** The field `field` of the first `n` rows of `table`, in row order. */
  function Column<T>(table: Option<seq<VertexRecord>>, n: nat, field: VertexRecord -> T): (c: seq<T>)
    ensures |c| == n
  {
    if n == 0 then [] else Column(table, n - 1, field) + [field(Row(table, n - 1))]
  }

  lemma {:induction false} ColumnAt<T>(table: Option<seq<VertexRecord>>, n: nat, field: VertexRecord -> T, i: nat)
    requires i < n
    ensures Column(table, n, field)[i] == field(Row(table, i))
  {
    if i < n - 1 {
      ColumnAt(table, n - 1, field, i);
    }
  }

  /** The colours of the rows among the first `n` that have one, in row order. */
  function ColorsOf(table: Option<seq<VertexRecord>>, n: nat): (c: seq<Color4>)
    ensures |c| <= n
  {
    if n == 0 then []
    else ColorsOf(table, n - 1) + (match Row(table, n - 1).color
                                    case Some(col) => [col]
                                    case None => [])
  }

  lemma {:induction false} ColorsOfMembership(table: Option<seq<VertexRecord>>, n: nat, col: Color4)
    ensures col in ColorsOf(table, n) <==> exists i :: 0 <= i < n && Row(table, i).color == Some(col)
  {
    if n > 0 {
      ColorsOfMembership(table, n - 1, col);
      if Row(table, n - 1).color == Some(col) {
        assert col in ColorsOf(table, n);
      }
    }
  }

  /** The rows among the first `n` that carry a colour. */
  function ColoredRows(table: Option<seq<VertexRecord>>, n: nat): set<nat> {
    set i: nat | i < n && Row(table, i).color.Some?
  }

  /** One colour per row among the first `n` that carries one. */
  lemma {:induction false} ColorsOfCount(table: Option<seq<VertexRecord>>, n: nat)
    ensures |ColorsOf(table, n)| == |ColoredRows(table, n)|
  {
    if n > 0 {
      ColorsOfCount(table, n - 1);
      if Row(table, n - 1).color.Some? {
        assert ColoredRows(table, n) == ColoredRows(table, n - 1) + {n - 1};
      } else {
        assert ColoredRows(table, n) == ColoredRows(table, n - 1);
      }
    }
  }

  lemma {:induction false} ColorsOfAllPresent(table: Option<seq<VertexRecord>>, n: nat)
    requires forall i :: 0 <= i < n ==> Row(table, i).color.Some?
    ensures |ColorsOf(table, n)| == n
    ensures forall i :: 0 <= i < n ==> ColorsOf(table, n)[i] == Row(table, i).color.value
  {
    if n > 0 {
      ColorsOfAllPresent(table, n - 1);
    }
  }

  /** The positions of a dynamic shape: the first three components of each entry. */
  function DynamicPositions(dyn: seq<Vec4>): (p: seq<Vec3>)
    ensures |p| == |dyn|
  {
    if dyn == [] then [] else DynamicPositions(dyn[..|dyn| - 1]) + [Truncate(dyn[|dyn| - 1])]
  }

  lemma {:induction false} DynamicPositionsAt(dyn: seq<Vec4>, i: nat)
    requires i < |dyn|
    ensures DynamicPositions(dyn)[i] == Truncate(dyn[i])
  {
    if i < |dyn| - 1 {
      DynamicPositionsAt(dyn[..|dyn| - 1], i);
    }
  }

  /** The rebuild loop of `update`: one pass over the first `n` rows, then the
      dynamic positions when the shape is dynamic. */
  method ExtractBuffers(table: Option<seq<VertexRecord>>, n: nat, isDynamic: bool, dyn: seq<Vec4>)
    returns (verts: seq<Vec3>, norms: seq<Vec3>, tangents: seq<Vec3>, bitangents: seq<Vec3>,
             coordset: seq<Vec2>, colors: seq<Color4>)
    ensures verts == if isDynamic then DynamicPositions(dyn) else Column(table, n, VertexOf)
    ensures norms == Column(table, n, NormalOf)
    ensures tangents == Column(table, n, TangentOf)
    ensures bitangents == Column(table, n, BitangentOf)
    ensures coordset == Column(table, n, UVOf)
    ensures colors == ColorsOf(table, n)
  {
    verts, norms, tangents, bitangents, coordset, colors := [], [], [], [], [], [];
    var i := 0;
    while i < n
      invariant 0 <= i <= n
      invariant verts == if isDynamic then [] else Column(table, i, VertexOf)
      invariant norms == Column(table, i, NormalOf)
      invariant tangents == Column(table, i, TangentOf)
      invariant bitangents == Column(table, i, BitangentOf)
      invariant coordset == Column(table, i, UVOf)
      invariant colors == ColorsOf(table, i)
    {
      var r := Row(table, i);
      if !isDynamic {
        verts := verts + [r.vertex];
      }
      coordset := coordset + [r.uv];
      var bitY := BitangentChannel(r.bitangentY);
      var bitZ := BitangentChannel(r.bitangentZ);
      norms := norms + [r.normal];
      tangents := tangents + [r.tangent];
      bitangents := bitangents + [Vec3(r.bitangentX, bitY, bitZ)];
      if r.color.Some? {
        colors := colors + [r.color.value];
      }
      i := i + 1;
    }
    if isDynamic {
      verts := DynamicVertexPositions(dyn);
    }
  }

  /** The loop over the "Vertices" of a dynamic shape. */
  method DynamicVertexPositions(dyn: seq<Vec4>) returns (verts: seq<Vec3>)
    ensures verts == DynamicPositions(dyn)
  {
    verts := [];
    var k := 0;
    while k < |dyn|
      invariant 0 <= k <= |dyn|
      invariant verts == DynamicPositions(dyn[..k])
    {
      assert dyn[..k + 1][..k] == dyn[..k];
      verts := verts + [Truncate(dyn[k])];
      k := k + 1;
    }
    assert dyn[..|dyn|] == dyn;
  }

  // ------------------------------------------------------------ triangles

  /** `mid( 0, n )` of the shape's triangle list: its first `n` entries, or all
      of them when there are fewer. */
  function Prefix<T>(s: seq<T>, n: nat): (p: seq<T>)
    ensures |p| == if n < |s| then n else |s|
    ensures forall i :: 0 <= i < |p| ==> p[i] == s[i]
  {
    if n < |s| then s[..n] else s
  }

  /** The triangle lists of the partitions, concatenated in partition order. */
  function Flatten(parts: seq<seq<Triangle>>): seq<Triangle> {
    if parts == [] then [] else Flatten(parts[..|parts| - 1]) + parts[|parts| - 1]
  }

  function TotalLength(parts: seq<seq<Triangle>>): nat {
    if parts == [] then 0 else TotalLength(parts[..|parts| - 1]) + |parts[|parts| - 1]|
  }

  lemma {:induction false} FlattenLength(parts: seq<seq<Triangle>>)
    ensures |Flatten(parts)| == TotalLength(parts)
  {
    if parts != [] {
      FlattenLength(parts[..|parts| - 1]);
    }
  }

  lemma {:induction false} FlattenMembership(parts: seq<seq<Triangle>>, t: Triangle)
    ensures t in Flatten(parts) <==> exists k :: 0 <= k < |parts| && t in parts[k]
  {
    if parts != [] {
      var init := parts[..|parts| - 1];
      FlattenMembership(init, t);
      if t in Flatten(parts) {
        if t !in parts[|parts| - 1] {
          var k :| 0 <= k < |init| && t in init[k];
          assert parts[k] == init[k];
        }
      } else {
        forall k | 0 <= k < |parts| ensures t !in parts[k] {
          if k < |init| {
            assert parts[k] == init[k];
          }
        }
      }
    }
  }

  /** The partition loop of `update` (one append per partition). */
  method ConcatPartitions(parts: seq<seq<Triangle>>) returns (tris: seq<Triangle>)
    ensures tris == Flatten(parts)
  {
    tris := [];
    var i := 0;
    while i < |parts|
      invariant 0 <= i <= |parts|
      invariant tris == Flatten(parts[..i])
    {
      assert parts[..i + 1][..i] == parts[..i];
      tris := tris + parts[i];
      i := i + 1;
    }
    assert parts[..|parts|] == parts;
  }

  // ------------------------------------------------------- alpha override

  function Opaque(c: Color4): Color4 {
    Color4(c.r, c.g, c.b, 1.0)
  }

  /** Every colour with its alpha set to 1 (the tree-animation override). */
  function ForceOpaque(colors: seq<Color4>): (r: seq<Color4>)
    ensures |r| == |colors|
    ensures forall i :: 0 <= i < |r| ==>
              r[i].r == colors[i].r && r[i].g == colors[i].g && r[i].b == colors[i].b && r[i].a == 1.0
  {
    seq(|colors|, i requires 0 <= i < |colors| => Opaque(colors[i]))
  }

  lemma ForceOpaqueIdempotent(colors: seq<Color4>)
    ensures ForceOpaque(ForceOpaque(colors)) == ForceOpaque(colors)
  {
  }

  /** The override loop of `update`, rewriting one colour at a time. */
  method OpaqueColors(colors: seq<Color4>) returns (r: seq<Color4>)
    ensures r == ForceOpaque(colors)
  {
    r := colors;
    var i := 0;
    while i < |r|
      invariant 0 <= i <= |r| == |colors|
      invariant forall k :: 0 <= k < i ==> r[k] == Opaque(colors[k])
      invariant forall k :: i <= k < |r| ==> r[k] == colors[k]
    {
      r := r[i := Color4(r[i].r, r[i].g, r[i].b, 1.0)];
      i := i + 1;
    }
  }
}
