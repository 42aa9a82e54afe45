/**
  The part of the block graph a BSShape reads, as plain values.

  A link or index into the graph that may fail to resolve is an `Option`; a
  block that is found carries its number (`id`, used where the source compares
  model indices) and the set of type names it inherits (`types`, used where the
  source asks `getBlock( link, name )` for a block of a given type).
*/
module Blocks {
  import opened Wrappers
  import opened Geometry

  type Byte = x: int | 0 <= x < 256

  datatype Triangle = Triangle(v1: nat, v2: nat, v3: nat)

  /** One row of a "Vertex Data" table.  Normals, tangents, UVs and colours are
      given already decoded from their compressed on-disk types. */
  datatype VertexRecord = VertexRecord(
    vertex: Vec3,
    uv: Vec2,
    bitangentX: real,
    bitangentY: Byte,
    bitangentZ: Byte,
    normal: Vec3,
    tangent: Vec3,
    color: Option<Color4>,       // present only when the row has "Vertex Colors"
    boneWeights: seq<real>,
    boneIndices: seq<Byte>)

  /** What every field read gives for a row index the table does not have:
      default values, no colour, no weights and no indices. */
  const MissingRow: VertexRecord :=
    VertexRecord(Origin, Vec2(0.0, 0.0), 0.0, 0, 0, Origin, Origin, None, [], [])

  /** `nif->index( i, 0, table )` followed by the field reads of that row. */
  function Row(table: Option<seq<VertexRecord>>, i: nat): (r: VertexRecord)
    ensures table.Some? && i < |table.value| ==> r == table.value[i]
    ensures table.None? || i >= |table.value| ==> r == MissingRow
  {
    if table.Some? && i < |table.value| then table.value[i] else MissingRow
  }

  /** A skin data block (`NiSkinData` or `BSSkin::BoneData`). */
  datatype SkinData = SkinData(id: nat, types: set<string>, skinTransform: Transform)

  /** A `NiSkinPartition` block: its own vertex table, its sizes and the
      "Triangles" list of each entry of its "Partition" table. */
  datatype SkinPartition = SkinPartition(
    id: nat,
    types: set<string>,
    vertexData: Option<seq<VertexRecord>>,
    dataSize: nat,
    vertexSize: nat,
    partitions: seq<seq<Triangle>>)

  /** The block the shape's "Skin" link points at, with what its own links lead to. */
  datatype SkinInstance = SkinInstance(
    id: nat,
    types: set<string>,
    skeletonRoot: int,
    bones: seq<int>,
    data: Option<SkinData>,
    partition: Option<SkinPartition>)

  /** Everything `BSShape::update` reads from the shape's own block. */
  datatype ShapeSource = ShapeSource(
    userVersion2: int,
    vertexFlags: bv16,                     // "VF"
    isDynamic: bool,                       // inherits BSDynamicTriShape
    skin: Option<SkinInstance>,            // the block "Skin" links to
    vertexData: Option<seq<VertexRecord>>, // "Vertex Data"
    triangles: Option<seq<Triangle>>,      // "Triangles"
    numVertices: nat,
    numTriangles: nat,
    dataSize: nat,
    boundingSphere: Option<Sphere>,
    dynamicVertices: seq<Vec4>,            // "Vertices" of a dynamic shape
    treeAnim: Option<bool>)                // SLSF2_Tree_Anim of the shader property, if there is one
}
