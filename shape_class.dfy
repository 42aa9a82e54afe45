/**
  `BSShape` as an object: the member variables the core reads and writes,
  grouped by role into the records of `ShapeSpec`, and the methods `clear`,
  `update`, `transform`, `transformShapes` and `bounds`, each proved to leave
  the object in the state its specification function gives.
*/
module ShapeClass {
  import opened Wrappers
  import opened Geometry
  import opened Blocks
  import opened Extraction
  import opened Weights
  import opened Skinning
  import opened ShapeSpec

  class BSShape {
    var iBlock: Option<nat>
    var binding: Binding          // nifVersion, type names, skin and table references, counts
    var flags: Flags              // updateData, updateBounds, updateSkin, transformRigid, ...
    var buffers: Buffers          // verts, norms, tangents, bitangents, coords, colors, triangles
    var table: SkinTable          // skeletonRoot, skeletonTrans, bones, weights
    var transformed: Transformed  // transVerts, transNorms, transTangents, transBitangents
    var sphere: SphereCache       // bsphereCenter, bsphereRadius, boundSphere

    /** The object's fields as a value. */
    function State(): ShapeState
      reads this
    {
      ShapeState(iBlock, binding, flags, buffers, table, transformed, sphere)
    }

    constructor (block: Option<nat>)
      ensures State() == Initial(block)
    {
      iBlock := block;
      binding := Binding(0, "", "", None, None, None, None, None, 0, 0);
      flags := Flags(false, false, false, false, false, false);
      buffers := NoBuffers;
      table := SkinTable(-1, Identity, [], []);
      transformed := Transformed([], [], [], []);
      sphere := SphereCache(Origin, 0.0, Sphere(Origin, 0.0));
    }

    method Clear()
      modifies this
      ensures State() == ClearSpec(old(State()))
    {
      binding := binding.(iSkin := None, iSkinData := None, iSkinPart := None);
      buffers := buffers.(verts := [], norms := [], tangents := [], bitangents := [],
                          triangles := [], coords := [], colors := []);
      table := table.(bones := [], weights := []);
    }

    /** `update( nif, index )`: `indexIsProperty` says whether `index` is a
        property block; `src` is what the shape's block holds. */
    method Update(src: ShapeSource, index: Option<nat>, indexIsProperty: bool)
      modifies this
      ensures State() == UpdateSpec(old(State()), src, index, indexIsProperty)
    {
      if iBlock.None? || index.None? {
        return;
      }
      if iBlock.value != index.value
         && !(binding.iSkin.Some? && binding.iSkin.value.id == index.value)
         && !(binding.iSkinData.Some? && binding.iSkinData.value.id == index.value)
         && !indexIsProperty {
        return;
      }
      var isDataOnSkin := BindSkin(src);
      var dataSize := BindLayout(src, isDataOnSkin);
      if dataSize.None? {
        return;
      }
      Finish(src, isDataOnSkin, iBlock.value == index.value && dataSize.value > 0);
    }

    /** The first part of `update`: type names, skin references and flags. */
    method BindSkin(src: ShapeSource) returns (isDataOnSkin: bool)
      modifies this
      ensures State() == old(State()).(binding := Bind(old(binding), src), flags := BindFlags(old(flags), src))
      ensures isDataOnSkin == DataOnSkin(src)
    {
      binding := binding.(nifVersion := src.userVersion2);
      isDataOnSkin := false;
      var isSkinned := SkinFlag(src.vertexFlags);
      if binding.nifVersion == 130 {
        binding := binding.(skinInstName := "BSSkin::Instance", skinDataName := "BSSkin::BoneData");
      } else {
        binding := binding.(skinInstName := "NiSkinInstance", skinDataName := "NiSkinData");
      }
      assert (binding.skinInstName, binding.skinDataName) == SkinTypeNames(src.userVersion2);

      var inst := if src.skin.Some? && binding.skinInstName in src.skin.value.types then src.skin else None;
      binding := binding.(iSkin := inst);
      if inst.None? {
        isSkinned := false;
      }
      if isSkinned {
        binding := binding.(iSkinData := ResolveData(inst.value, binding.skinDataName),
                            iSkinPart := ResolvePartition(inst.value));
        if binding.nifVersion == 100 {
          isDataOnSkin := true;
        }
      }

      flags := flags.(updateData := true);
      flags := flags.(updateBounds := flags.updateBounds || flags.updateData,
                      updateSkin := isSkinned, transformRigid := !isSkinned);
    }

    /** The second part of `update`: where the vertex and triangle tables are
        and how many rows count, and the data size, or None where `update`
        returns early. */
    method BindLayout(src: ShapeSource, isDataOnSkin: bool) returns (dataSize: Option<nat>)
      requires isDataOnSkin == DataOnSkin(src)
      requires isDataOnSkin ==> binding.iSkin == ResolveSkin(src)
      modifies this
      ensures State() == old(State()).(binding := LayoutSpec(old(binding), src).binding)
      ensures dataSize == LayoutSpec(old(binding), src).dataSize
    {
      if !isDataOnSkin {
        binding := binding.(iVertData := src.vertexData, iTriData := src.triangles);
        if binding.iVertData.None? || binding.iTriData.None? {
          return None;
        }
        binding := binding.(numVerts := Min(src.numVertices, |binding.iVertData.value|),
                            numTris := Min(src.numTriangles, |binding.iTriData.value|));
        dataSize := Some(src.dataSize);
      } else {
        binding := binding.(iSkinPart := ResolvePartition(binding.iSkin.value));
        if binding.iSkinPart.None? {
          return None;
        }
        var part := binding.iSkinPart.value;
        binding := binding.(iVertData := part.vertexData, iTriData := None);
        var size := part.dataSize;
        var vertexSize := part.vertexSize;
        if binding.iVertData.None? || size == 0 || vertexSize == 0 {
          return None;
        }
        binding := binding.(numVerts := size / vertexSize);
        dataSize := Some(size);
      }
    }

    /** The last part of `update`: the stored sphere, the rebuild and the
        alpha override. */
    method Finish(src: ShapeSource, isDataOnSkin: bool, rebuild: bool)
      requires isDataOnSkin == DataOnSkin(src)
      requires rebuild && !isDataOnSkin ==> binding.iTriData.Some?
      requires rebuild && isDataOnSkin ==> binding.iSkinPart.Some?
      modifies this
      ensures State() == FinishSpec(old(State()), src, rebuild)
    {
      if src.boundingSphere.Some? {
        sphere := sphere.(bsphereCenter := src.boundingSphere.value.center,
                          bsphereRadius := src.boundingSphere.value.radius);
      }
      if rebuild {
        RebuildBuffers(src, isDataOnSkin);
      }
      if src.treeAnim.Some? {
        flags := flags.(isVertexAlphaAnimation := src.treeAnim.value);
      }
      if flags.isVertexAlphaAnimation {
        var colors := OpaqueColors(buffers.colors);
        buffers := buffers.(colors := colors);
      }
    }

    /** The rebuild of the raw buffers from the bound tables. */
    method RebuildBuffers(src: ShapeSource, isDataOnSkin: bool)
      requires isDataOnSkin == DataOnSkin(src)
      requires !isDataOnSkin ==> binding.iTriData.Some?
      requires isDataOnSkin ==> binding.iSkinPart.Some?
      modifies this
      ensures State() == old(State()).(buffers := Rebuild(old(binding), src))
    {
      var verts, norms, tangents, bitangents, coordset, colors :=
        ExtractBuffers(binding.iVertData, binding.numVerts, src.isDynamic, src.dynamicVertices);
      var triangles;
      if !isDataOnSkin {
        triangles := Prefix(binding.iTriData.value, binding.numTris);
      } else {
        triangles := ConcatPartitions(binding.iSkinPart.value.partitions);
      }
      buffers := Buffers(verts, norms, tangents, bitangents, [coordset], colors, triangles);
    }

    /** `transform()`; `hidden` is `isHidden()`. */
    method Transform(hidden: bool)
      requires TransformReady(State(), hidden)
      modifies this
      ensures State() == TransformSpec(old(State()), hidden)
    {
      if hidden {
        return;
      }
      if iBlock.None? {
        Clear();
        return;
      }
      flags := flags.(updateData := false);
      if flags.updateSkin {
        flags := flags.(updateSkin := false, doSkinning := false);
        table := table.(bones := [], weights := []);
        if binding.iSkin.Some? && binding.iSkinData.Some? {
          table := table.(skeletonRoot := binding.iSkin.value.skeletonRoot);
          if binding.nifVersion < 130 {
            table := table.(skeletonTrans := binding.iSkinData.value.skinTransform);
          }
          table := table.(bones := binding.iSkin.value.bones);
          var weights := BuildWeightTable(table.bones, binding.iVertData, binding.numVerts);
          table := table.(weights := weights);
          flags := flags.(doSkinning := |table.weights| > 0);
        }
      }
    }

    /** `transformShapes()` in the frame `f`. */
    method TransformShapes(f: Frame, geo: Geometry)
      requires SkinReady(State(), f)
      modifies this
      ensures State() == TransformShapesSpec(old(State()), f, geo)
    {
      if f.hidden {
        return;
      }
      if iBlock.None? {
        Clear();
        return;
      }
      flags := flags.(transformRigid := true);
      if flags.doSkinning && f.skinningEnabled {
        flags := flags.(transformRigid := false);
        var weights := BindTransforms(table.weights, f.bind);
        table := table.(weights := weights);
        var b := buffers;
        var tv, tn, tt, tb := SkinBuffers(geo, f.pose, weights, b.verts, b.norms, b.tangents, b.bitangents);
        transformed := Transformed(tv, tn, tt, tb);
        sphere := sphere.(boundSphere := f.toLocal(geo.sphereOf(tv)));
        flags := flags.(updateBounds := false);
      } else {
        transformed := Transformed(buffers.verts, buffers.norms, buffers.tangents, buffers.bitangents);
      }
    }

    /** `bounds()`: the cached sphere, recomputed when stale, in world space. */
    method Bounds(geo: Geometry, toWorld: Sphere -> Sphere) returns (b: Sphere)
      modifies this
      ensures (State(), b) == BoundsSpec(old(State()), geo, toWorld)
    {
      if flags.updateBounds {
        flags := flags.(updateBounds := false);
        if |buffers.verts| > 0 {
          sphere := sphere.(boundSphere := geo.sphereOf(buffers.verts));
        } else {
          sphere := sphere.(boundSphere := Sphere(sphere.bsphereCenter, sphere.bsphereRadius));
        }
      }
      b := toWorld(sphere.boundSphere);
    }
  }
}
