# BSShape data logic, modelled in Dafny

This project models the CPU-side data logic of nifskope's `BSShape`, the scene
node for Bethesda shapes (`BSTriShape` and its dynamic and sub-index
variants). The model covers five operations:

- `update` reads a shape block. It selects the skin block type names for the
  file's user version 2, decides whether the shape is skinned and whether its
  vertex data lives on the `NiSkinPartition`, and computes vertex and
  triangle counts. It sets the dirty flags and, for the shape's own block,
  rebuilds the parallel vertex buffers and the triangle list. It also forces
  colour alpha to 1 under tree animation.
- `transform` builds the per-bone weight table from the bone weights and
  indices of each vertex record.
- `transformShapes` blends each found bone's transform into zero-initialised
  output buffers and renormalises the direction buffers. When skinning is off,
  it copies the raw buffers instead.
- `bounds` caches the bounding sphere under a dirty flag.
- `clear` drops the skin references and empties the buffers.

Layout:

- `geometry.dfy`: the `Option` type, vectors, colours and transforms. The
  `Geometry` record holds the uninterpreted floating-point operations: a
  transform applied to a point, its rotation, composition, `normalize` and
  `BoundSphere`.
- `blocks.dfy`: the blocks a shape reads, as values. Vertex records, skin
  instance, skin data, skin partition and the shape block (`ShapeSource`).
- `extraction.dfy`: binding selection, the bitangent decode, the per-column
  buffer extraction, triangle truncation and concatenation, and the alpha
  override.
- `weights.dfy`: the weight table of `transform`.
- `skinning.dfy`: the accumulation and normalisation passes of
  `transformShapes`.
- `shape_spec.dfy`: the shape's state as a value (`ShapeState`). It holds one
  specification function per operation and the lemmas that relate them.
- `shape_class.dfy`: the class `BSShape`, with `modifies this` methods. Each
  method is proved to produce the state its specification function gives.

The member variables are grouped by role into records: the binding, the
flags, the raw buffers, the skin table, the transformed buffers and the
sphere cache. The class holds one field per group.

Each loop of the source is a method on sequences, proved equal to a
specification function. That function is recursive, or a sequence
comprehension where the loop rewrites each entry independently
(`ForceOpaque`, `Normalized`, `WithBindTransforms`, `WeightTable`):

- `ExtractBuffers`, `DynamicVertexPositions`, `ConcatPartitions` and
  `OpaqueColors` for `update`;
- `BuildWeightTable` and `AddRow` for `transform`;
- `BindTransforms`, `AddBone`, `NormalizeBuffers` and `SkinBuffers` for
  `transformShapes`.

Calls into code outside this file become parameters:

- whether an updated index is a property block (`indexIsProperty`);
- `isHidden()` (`hidden`);
- the DoSkinning scene option;
- the bone lookup through `findParent`/`findChild` (a partial map from bone
  block number to `view * localTrans`);
- `setTransform` (a function from bone-list slot to transform);
- `applyInv( viewTrans() )` and `worldTrans() *` (functions on spheres);
- the tree-animation flag of the shader property, when there is one.

## Model

| member | source | states |
|---|---|---|
| Blocks.Row | src/gl/bsshape.cpp:127 | a row read through a valid index is the table's row; an invalid index reads as default values with no colour, weights or indices |
| Extraction.SkinTypeNames | src/gl/bsshape.cpp:50-56 | user version 2 = 130 selects `BSSkin::Instance`/`BSSkin::BoneData`; every other version selects `NiSkinInstance`/`NiSkinData` |
| Extraction.ResolveSkin | src/gl/bsshape.cpp:58-60 | the block the "Skin" link leads to, if it has the skin instance type of the version, else none |
| Extraction.ResolveData | src/gl/bsshape.cpp:63 | the block the instance's "Data" link leads to, if it has the skin data type of the version, else none |
| Extraction.ResolvePartition | src/gl/bsshape.cpp:64 | the block the instance's "Skin Partition" link leads to, if it is an `NiSkinPartition`, else none |
| Extraction.IsSkinned | src/gl/bsshape.cpp:49-61 | `VF & 0x400` is set and the skin instance resolves |
| Extraction.DataOnSkin | src/gl/bsshape.cpp:62-68 | the shape is skinned and the user version 2 is 100 |
| Extraction.DataOnSkinNeedsSkin | src/gl/bsshape.cpp:49-68 | vertex data is on the skin partition exactly when `VF & 0x400` is set, the version is 100 and the skin link resolves to an `NiSkinInstance` |
| Extraction.BitangentChannel | src/gl/bsshape.cpp:137-140 | the decode `b / 255 * 2 - 1` lies in [-1, 1], maps 0 to -1 and maps 255 to 1 |
| Extraction.BitangentChannelMonotone | src/gl/bsshape.cpp:139-140 | the decode preserves and reflects the order of the byte |
| Extraction.BitangentOf | src/gl/bsshape.cpp:134-143 | the bitangent of a row: X as stored, Y and Z decoded from their bytes |
| Extraction.Column | src/gl/bsshape.cpp:126-144 | a column of the first `n` rows has `n` entries |
| Extraction.ColumnAt | src/gl/bsshape.cpp:126-144 | entry i of a column is that field of row i (vertex order) |
| Extraction.ColorsOf | src/gl/bsshape.cpp:146-149 | there are at most `n` colours |
| Extraction.ColorsOfMembership | src/gl/bsshape.cpp:146-149 | a colour is collected iff some row among the first `n` carries it |
| Extraction.ColorsOfCount | src/gl/bsshape.cpp:146-149 | there is exactly one colour per row among the first `n` that has the "Vertex Colors" field |
| Extraction.ColorsOfAllPresent | src/gl/bsshape.cpp:146-149 | when every row has a colour, there are `n` colours, those of rows 0..n-1 in order |
| Extraction.DynamicPositions | src/gl/bsshape.cpp:152-156 | one position per dynamic vertex |
| Extraction.DynamicPositionsAt | src/gl/bsshape.cpp:152-156 | position i is the first three components of dynamic vertex i |
| Extraction.ExtractBuffers | src/gl/bsshape.cpp:126-156 | the rebuild loop yields exactly the column functions, the colour list and, for a dynamic shape, the dynamic positions |
| Extraction.DynamicVertexPositions | src/gl/bsshape.cpp:152-156 | the dynamic-vertex loop yields the dynamic positions |
| Extraction.Prefix | src/gl/bsshape.cpp:162-163 | `mid( 0, n )` keeps min(n, size) entries, the leading ones |
| Extraction.Flatten | src/gl/bsshape.cpp:165-167 | the partitions' triangle lists appended in partition order |
| Extraction.FlattenLength | src/gl/bsshape.cpp:165-167 | the concatenated triangle list is as long as all partitions' lists together |
| Extraction.FlattenMembership | src/gl/bsshape.cpp:165-167 | a triangle is in the concatenation iff it is in some partition's list |
| Extraction.ConcatPartitions | src/gl/bsshape.cpp:165-167 | the partition loop yields the in-order concatenation |
| Extraction.ForceOpaque | src/gl/bsshape.cpp:177-180 | same colour count, same RGB, alpha 1 |
| Extraction.ForceOpaqueIdempotent | src/gl/bsshape.cpp:177-180 | forcing alpha twice is forcing it once |
| Extraction.OpaqueColors | src/gl/bsshape.cpp:178-179 | the override loop yields `ForceOpaque` of the colours |
| Weights.WeightTable | src/gl/bsshape.cpp:231-233 | one entry per bone, with `weights[i].bone == bones[i]` and the default transform |
| Weights.SlotInfluences | src/gl/bsshape.cpp:242-245 | slots 0..j-1 of row i, in slot order, append (i, weight) to bone b for each positive weight whose index is b |
| Weights.RowInfluences | src/gl/bsshape.cpp:236-245 | what row i appends to bone b: nothing for a row with fewer than four weights or indices, otherwise its four slots' contributions |
| Weights.Influences | src/gl/bsshape.cpp:235-246 | bone b's list after rows 0..n-1, each row's contributions appended in row order |
| Weights.BuildWeightTable | src/gl/bsshape.cpp:231-246 | the fill, bone and vertex loops yield the weight table, given that every positive slot names an existing bone |
| Weights.AddRow | src/gl/bsshape.cpp:242-245 | the slot loop of a row with four slots appends that row's influences to each bone's list |
| Weights.SlotMembership | src/gl/bsshape.cpp:242-245 | slots 0..j-1 of row i give bone b the influence (i, w) iff one of them has weight w > 0 and index b |
| Weights.RowMembership | src/gl/bsshape.cpp:237-245 | a row gives bone b the influence (i, w) iff it has four slots and one of its first four slots has weight w > 0 and index b |
| Weights.InfluencesMembership | src/gl/bsshape.cpp:235-246 | (v, w) is in bone b's list iff v < n, row v has four slots, and one of them has weight w > 0 and index b |
| Weights.InfluencesPositive | src/gl/bsshape.cpp:243 | every recorded weight is positive and names one of the first `n` vertices |
| Weights.MalformedRowContributesNothing | src/gl/bsshape.cpp:239-240 | a vertex with fewer than four weights or indices appears in no list |
| Weights.InfluencesAscending | src/gl/bsshape.cpp:235-246 | each bone's list is in ascending vertex order |
| Weights.SmallTable | src/gl/bsshape.cpp:231-246 | the table for two bones [7, 9] and three rows, one of them with only zero weights |
| Skinning.AddInfluence | src/gl/bsshape.cpp:292-298 | one influence keeps the buffer length |
| Skinning.Accumulate | src/gl/bsshape.cpp:291-299 | one bone's influences keep the buffer length |
| Skinning.SkinBones | src/gl/bsshape.cpp:287-301 | the bone loop keeps the buffer length |
| Skinning.Normalized | src/gl/bsshape.cpp:303-307 | entry i of the renormalised buffer is the normalised entry i |
| Skinning.AccumulateOutOfRange | src/gl/bsshape.cpp:292-293 | a list whose influences all name vertices at or beyond `verts.count()` changes nothing |
| Skinning.InRange | src/gl/bsshape.cpp:292-293 | the influences that name a vertex inside the buffer, in list order: no more than the whole list, each below the bound |
| Skinning.AccumulateSkipsOutOfRange | src/gl/bsshape.cpp:291-299 | wherever out-of-range influences sit in the list, accumulating the list equals accumulating its in-range influences only |
| Skinning.Found | src/gl/bsshape.cpp:288-289 | the bones of the table found in the scene, in table order: no more than the table, each in the pose map |
| Skinning.SkinBonesSkipsMissing | src/gl/bsshape.cpp:287-301 | wherever missing bones sit in the table, the bone loop equals the loop over the found bones only |
| Skinning.AccumulateUntouched | src/gl/bsshape.cpp:291-299 | a vertex no influence names keeps its value |
| Skinning.UntouchedVertexKeepsValue | src/gl/bsshape.cpp:286-301 | a vertex no influence of a found bone names keeps its initial value |
| Skinning.NoBoneFound | src/gl/bsshape.cpp:288-289 | when no bone is found, the buffers stay as initialised |
| Skinning.BoneTransform | src/gl/bsshape.cpp:288-290 | for a bone found in the scene, `view * localTrans` composed with its bind transform; nothing for a bone not found |
| Skinning.WithBindTransforms | src/gl/bsshape.cpp:282-284 | slot i keeps its bone and influences and takes the bind transform of bone-list entry i |
| Skinning.BindTransforms | src/gl/bsshape.cpp:283-284 | the `setTransform` loop yields `WithBindTransforms` |
| Skinning.AddBone | src/gl/bsshape.cpp:291-299 | the influence loop of one found bone yields the accumulation on all four buffers |
| Skinning.NormalizeBuffers | src/gl/bsshape.cpp:303-307 | the normalisation loop yields the renormalised buffers |
| Skinning.SkinBuffers | src/gl/bsshape.cpp:273-307 | zero-filled buffers of `verts.count()` entries, then the bone loop and renormalisation |
| ShapeSpec.Bind | src/gl/bsshape.cpp:43-68 | the version, type names and skin instance are set; skin data and partition are resolved only for a skinned shape; tables and counts are untouched |
| ShapeSpec.ClearSpec | src/gl/bsshape.cpp:13-31 | the three skin references dropped; the seven buffers, bones and weights emptied; everything else kept |
| ShapeSpec.Active | src/gl/bsshape.cpp:37-41 | `update` acts only for a valid block and index, where the index is the shape, its skin instance, its skin data or a property |
| ShapeSpec.BindFlags | src/gl/bsshape.cpp:70-73 | `updateData` and `updateBounds` set, `updateSkin` is the skinned state and `transformRigid` its negation |
| ShapeSpec.LayoutSpec | src/gl/bsshape.cpp:75-105 | table references, counts and data size on the shape or on the skin partition, with none for each early return |
| ShapeSpec.StoredSphere | src/gl/bsshape.cpp:108-112 | the stored centre and radius come from "Bounding Sphere" when present, else stay |
| ShapeSpec.SourceTriangles | src/gl/bsshape.cpp:161-168 | the first `numTris` of the shape's triangles, or the partitions' lists in order |
| ShapeSpec.Rebuild | src/gl/bsshape.cpp:114-168 | the rebuilt buffers: the columns of the first `numVerts` rows, dynamic positions for a dynamic shape, one UV set, the present colours and the source triangles |
| ShapeSpec.AlphaAnimation | src/gl/bsshape.cpp:174-175 | the tree-animation flag of the shader property when there is one, else the previous value |
| ShapeSpec.FinishSpec | src/gl/bsshape.cpp:108-180 | stored sphere, rebuild when asked, then colours made opaque when the alpha-animation flag is set |
| ShapeSpec.UpdateSpec | src/gl/bsshape.cpp:33-181 | no change unless the filter passes; binding and flags; the layout's early returns; then the finishing steps, rebuilding only for the shape's own block with a positive data size |
| ShapeSpec.ResolveTable | src/gl/bsshape.cpp:225-249 | with instance and data resolved: skeleton root, skeleton transform below version 130, bones and the weight table; otherwise empty bones and weights |
| ShapeSpec.TransformSpec | src/gl/bsshape.cpp:202-253 | hidden: no change; no block: clear; otherwise `updateData` cleared and, under `updateSkin`, the table resolved and `doSkinning` set; requires every positive slot to name an existing bone |
| ShapeSpec.SkinnedBuffers | src/gl/bsshape.cpp:273-307 | the four skinned buffers from zero-initialised buffers of `verts.count()` entries, with the three direction buffers renormalised |
| ShapeSpec.TransformShapesSpec | src/gl/bsshape.cpp:255-319 | hidden: no change; no block: clear; skinning: bind transforms, skinned buffers, the cache and both flags; otherwise copies of the raw buffers |
| ShapeSpec.UpdateFrame | src/gl/bsshape.cpp:33-181 | `update` never touches the block, skin table, transformed buffers or cached sphere, and it changes nothing unless the relevance filter passes |
| ShapeSpec.UpdateBindsAndFlags | src/gl/bsshape.cpp:40-73 | after the filter, names, skin instance and data, `updateData`, `updateBounds`, `updateSkin = isSkinned` and `transformRigid = !isSkinned` are set before any later return |
| ShapeSpec.UpdateOnShape | src/gl/bsshape.cpp:76-86 | the tables come from the shape; an invalid table leaves counts and buffers as they were; otherwise both counts are the declared count capped by the row count, and a rebuild keeps the first `numTris` triangles |
| ShapeSpec.UpdateOnSkinPartition | src/gl/bsshape.cpp:87-105 | an invalid partition or vertex table, or a zero data or vertex size, leaves `numVerts` and buffers as they were; otherwise `numVerts = dataSize / vertexSize`, `numTris` is untouched and the triangles are the partitions' lists in order |
| ShapeSpec.UpdateRebuildsBuffers | src/gl/bsshape.cpp:114-159 | after a rebuild the normal, tangent, bitangent and single UV buffers hold `numVerts` entries in vertex order; positions are per row, or per dynamic vertex; colours are those of rows that have one, forced opaque under tree animation |
| ShapeSpec.UpdateKeepsBuffersUnlessRebuilt | src/gl/bsshape.cpp:114 | without a rebuild the buffers stay; only the colours may have their alpha forced |
| ShapeSpec.LayoutIdempotent | src/gl/bsshape.cpp:43-105 | binding and laying out a second time on the same block data gives the same tables, counts and data size |
| ShapeSpec.FinishIdempotent | src/gl/bsshape.cpp:108-180 | storing the sphere, rebuilding and forcing alpha a second time on the same block data changes nothing |
| ShapeSpec.UpdateIdempotent | src/gl/bsshape.cpp:33-181 | a second `update` on unchanged block data leaves the state as the first left it |
| ShapeSpec.TransformBuildsTable | src/gl/bsshape.cpp:211-250 | `updateData` and `updateSkin` end false; with `updateSkin` and a resolved instance and data, the table is the weight table of the instance's bones and `doSkinning` holds iff the bone list is non-empty; otherwise the table is empty and `doSkinning` is false |
| ShapeSpec.TransformShapesBuffers | src/gl/bsshape.cpp:268-317 | skinning: four buffers of `verts.count()` entries, both flags cleared, the cache set to the skinned positions' sphere; otherwise copies of the raw buffers and `transformRigid` set; raw buffers never change |
| ShapeSpec.BindKeepsTouches | src/gl/bsshape.cpp:282-284 | setting bind transforms does not change which vertices a found bone influences |
| ShapeSpec.UninfluencedVertexAtOrigin | src/gl/bsshape.cpp:273-301 | a vertex no found bone influences stays at the origin |
| ShapeSpec.NoBoneFoundAllAtOrigin | src/gl/bsshape.cpp:286-301 | when no bone is found, every skinned position is the origin |
| ShapeSpec.MalformedVertexAtOrigin | src/gl/bsshape.cpp:239-240 | after `transform`, a vertex with fewer than four weights or indices ends at the origin in the skinning pass |
| ShapeSpec.BoundsSpec | src/gl/bsshape.cpp:814-826 | with the flag set: recompute from `verts` when non-empty, else from the stored centre and radius, and clear the flag; with it clear: the state is unchanged; the result is the world image of the cached sphere |
| ShapeSpec.BoundsMemoised | src/gl/bsshape.cpp:816-823 | a second `bounds` returns the same sphere and leaves the same state |
| ShapeSpec.UpdateInvalidatesBounds | src/gl/bsshape.cpp:71 | after an `update` that passed the filter, `bounds` recomputes from the new vertices or the stored sphere |
| ShapeSpec.SkinningRefreshesBounds | src/gl/bsshape.cpp:309-311 | after the skinning pass, `bounds` returns the skinned positions' sphere from the cache |
| ShapeClass.BSShape.constructor | src/gl/bsshape.cpp:8-11 | a new shape over block `block` with no bindings, cleared flags and empty buffers |
| ShapeClass.BSShape.Clear | src/gl/bsshape.cpp:13-31 | skin, skin data and partition references dropped; all buffers, bones and weights emptied |
| ShapeClass.BSShape.Update | src/gl/bsshape.cpp:33-181 | the new state is `UpdateSpec` of the old |
| ShapeClass.BSShape.BindSkin | src/gl/bsshape.cpp:43-73 | binding and flags as `Bind` and `BindFlags` give; returns whether data is on the skin |
| ShapeClass.BSShape.BindLayout | src/gl/bsshape.cpp:75-105 | tables and counts as `LayoutSpec` gives; returns None on each early return |
| ShapeClass.BSShape.Finish | src/gl/bsshape.cpp:108-180 | stored sphere, rebuild and alpha override as `FinishSpec` gives |
| ShapeClass.BSShape.RebuildBuffers | src/gl/bsshape.cpp:114-168 | the raw buffers become `Rebuild` of the binding |
| ShapeClass.BSShape.Transform | src/gl/bsshape.cpp:202-253 | the new state is `TransformSpec` of the old |
| ShapeClass.BSShape.TransformShapes | src/gl/bsshape.cpp:255-319 | the new state is `TransformShapesSpec` of the old |
| ShapeClass.BSShape.Bounds | src/gl/bsshape.cpp:814-826 | state and result as `BoundsSpec` gives |

## Left out

- Drawing (`drawShapes`, `drawVerts`, `drawSelection`): OpenGL rendering with no state the core keeps.
- NifModel index, `get`, `getLink`, `getBlock` and `inherits`: replaced by `ShapeSource` and the block records. A block's type ancestry is a set of type names.
- `vertexAt`: model-index plumbing with no state.
- `Node::update`, `Node::transform`, `Node::transformShapes`, `Node::clear` and `updateShaderProperties`: outside this file. Their effect enters only as the tree-animation flag and the bone pose map.
- The shader property pointers `bssp`, `bslsp` and `bsesp`: `clear` resets them, and only the tree-animation flag they provide is modelled.
- `iData`, which always equals `iVertData`, and `partitions.clear()`, whose list is not otherwise used here.
- The bodies of `setTransform`, `Transform * Vector3`, `rotation`, `normalize`, `BoundSphere`, `applyInv` and `worldTrans`: floating-point geometry, kept uninterpreted.
- The `ByteVector3`, `HalfVector2` and `ByteColor4` decoders: vertex records hold decoded values, and only the bitangent Y/Z byte decode is modelled.
- Floating point: weights, vector components, colour channels, bitangent X and the Y/Z decode are real numbers. Rounding is not represented, and neither is NaN, which would fail the `wts[j] > 0.0` test.
- Integer widths: counts, `Data Size` and `Vertex Size` are natural numbers. A negative size or count from the file is not modelled, so Qt `mid` with a negative length cannot arise.
- The buffers are replaced as values. Clear-then-append in place is not modelled, and no two shapes share a buffer.
- ShapeClass.BSShape.TransformShapes: the skinning pass requires (`SkinReady`) `norms`, `tangents` and `bitangents` to have at least `verts.count()` entries. This is weaker than equal lengths, and it is exactly what the accumulation reads.
- Weights.BuildWeightTable: requires every positive slot to name an existing bone, since the source indexes `weights[bns[j]]` without a check. `Weights.WeightTable`, `ShapeSpec.ResolveTable` and `ShapeSpec.TransformSpec` carry the same requirement, so an out-of-range index has no modelled outcome.
- The header `bsshape.h` is not part of this model. The constructor's initial values (zero counts, cleared flags, an identity skeleton transform, a skeleton root of -1 and a zero sphere) stand in for its member initialisers.
- Concurrency: none in the source.
