/**
  The material pass of the load callback (javascript/three.js:105-114): every
  mesh of the loaded model that has a material is made double-sided and
  flagged for a renderer update.

  `root.traverse` is modelled by the sequence of nodes it visits. Materials are
  objects and may be shared between meshes, or appear twice in one array.

  As written, line 107 sets `needsUpdate` on whatever `n.material` holds: for an
  array that is the JavaScript array, not its materials, so those are never
  flagged. `ForceDoubleSidedAsWritten` models the lines as they are and is the
  one the load callback uses; `ForceDoubleSided` flags every material.
 */
module Materials {
  import opened Three

  /** The materials a slot holds. */
  ghost function SlotMaterials(slot: MaterialSlot): set<Material>
  {
    match slot
    case NoMaterial => {}
    case Single(m) => {m}
    case Multi(a) => set m | m in a.items
  }

  /** Some mesh among the first `n` nodes holds m. */
  ghost predicate OnMesh(nodes: seq<Object3D>, n: nat, m: Material)
    requires n <= |nodes|
  {
    exists k :: 0 <= k < n && nodes[k].isMesh && m in SlotMaterials(nodes[k].material)
  }

  /** Some mesh among the first `n` nodes holds m as its single material. */
  ghost predicate SingleOnMesh(nodes: seq<Object3D>, n: nat, m: Material)
    requires n <= |nodes|
  {
    exists k :: 0 <= k < n && nodes[k].isMesh && nodes[k].material == Single(m)
  }

  /** Some mesh among the first `n` nodes holds the array a. */
  ghost predicate ArrayOnMesh(nodes: seq<Object3D>, n: nat, a: MaterialArray)
    requires n <= |nodes|
  {
    exists k :: 0 <= k < n && nodes[k].isMesh && nodes[k].material == Multi(a)
  }

  /** Every material held by a mesh. */
  ghost function MeshMaterials(nodes: seq<Object3D>): set<Material>
  {
    set k, m | 0 <= k < |nodes| && nodes[k].isMesh && m in SlotMaterials(nodes[k].material) :: m
  }

  /** Every material array held by a mesh. */
  ghost function MeshArrays(nodes: seq<Object3D>): set<MaterialArray>
  {
    set k | 0 <= k < |nodes| && nodes[k].isMesh && nodes[k].material.Multi? :: nodes[k].material.list
  }

  /** What the mesh at index i holds is within the traversal's frame. */
  lemma SlotWithinFrame(nodes: seq<Object3D>, i: nat)
    requires i < |nodes| && nodes[i].isMesh
    ensures SlotMaterials(nodes[i].material) <= MeshMaterials(nodes)
    ensures nodes[i].material.Multi? ==> nodes[i].material.list in MeshArrays(nodes)
  {
  }

  /** `n.material.forEach(m => { m.side = THREE.DoubleSide; })` (line 109). */
  method SetSidesDouble(items: seq<Material>)
    modifies set m | m in items
    ensures forall m | m in items :: m.side == DoubleSide && m.needsUpdate == old(m.needsUpdate)
  {
    for j := 0 to |items|
      invariant forall k :: 0 <= k < j ==> items[k].side == DoubleSide
      invariant forall m | m in items :: m.needsUpdate == old(m.needsUpdate)
    {
      items[j].side := DoubleSide;
    }
  }

  /**
    The traversal as written (lines 105-114). Every material of a mesh ends
    double-sided; a material's own `needsUpdate` is raised only when some mesh
    holds it as its single material, and an array held by a mesh gets the flag
    instead of its materials. Materials held by no mesh are left alone.
   */
  method ForceDoubleSidedAsWritten(nodes: seq<Object3D>)
    modifies MeshMaterials(nodes), MeshArrays(nodes)
    ensures forall m: Material | OnMesh(nodes, |nodes|, m) :: m.side == DoubleSide
    ensures forall m: Material | OnMesh(nodes, |nodes|, m) ::
      m.needsUpdate == (old(m.needsUpdate) || SingleOnMesh(nodes, |nodes|, m))
    ensures forall a: MaterialArray | ArrayOnMesh(nodes, |nodes|, a) :: a.needsUpdate
    ensures forall k, m :: 0 <= k < |nodes| && m in SlotMaterials(nodes[k].material) && !OnMesh(nodes, |nodes|, m) ==>
      m.side == old(m.side) && m.needsUpdate == old(m.needsUpdate)
  {
    for i := 0 to |nodes|
      invariant forall m: Material | OnMesh(nodes, i, m) :: m.side == DoubleSide
      invariant forall m: Material | OnMesh(nodes, |nodes|, m) ::
        m.needsUpdate == (old(m.needsUpdate) || SingleOnMesh(nodes, i, m))
      invariant forall a: MaterialArray | ArrayOnMesh(nodes, i, a) :: a.needsUpdate
    {
      var n := nodes[i];
      if n.isMesh && !n.material.NoMaterial? {
        SlotWithinFrame(nodes, i);
        match n.material
        case Single(m) =>
          m.needsUpdate := true;
          m.side := DoubleSide;
        case Multi(a) =>
          a.needsUpdate := true;
          SetSidesDouble(a.items);
      }
    }
  }

  /** The forEach with the update flag moved onto each material. */
  method MarkAllDoubleSided(items: seq<Material>)
    modifies set m | m in items
    ensures forall m | m in items :: m.side == DoubleSide && m.needsUpdate
  {
    for j := 0 to |items|
      invariant forall k :: 0 <= k < j ==> items[k].side == DoubleSide && items[k].needsUpdate
    {
      items[j].needsUpdate := true;
      items[j].side := DoubleSide;
    }
  }

  /**
    The traversal as intended: every material of every mesh ends double-sided
    and flagged, whether the mesh holds one material or an array. Materials
    held by no mesh are left alone.
   */
  method ForceDoubleSided(nodes: seq<Object3D>)
    modifies MeshMaterials(nodes)
    ensures forall m: Material | OnMesh(nodes, |nodes|, m) :: m.side == DoubleSide && m.needsUpdate
    ensures forall k, m :: 0 <= k < |nodes| && m in SlotMaterials(nodes[k].material) && !OnMesh(nodes, |nodes|, m) ==>
      m.side == old(m.side) && m.needsUpdate == old(m.needsUpdate)
  {
    for i := 0 to |nodes|
      invariant forall m: Material | OnMesh(nodes, i, m) :: m.side == DoubleSide && m.needsUpdate
    {
      var n := nodes[i];
      if n.isMesh && !n.material.NoMaterial? {
        SlotWithinFrame(nodes, i);
        match n.material
        case Single(m) =>
          m.needsUpdate := true;
          m.side := DoubleSide;
        case Multi(a) =>
          MarkAllDoubleSided(a.items);
      }
    }
  }

  /**
    A mesh whose material is a one-element array: as written, its material
    becomes double-sided but is never flagged for update.
   */
  method ArrayMaterialMissesUpdate() returns (m: Material)
    ensures m.side == DoubleSide && !m.needsUpdate
  {
    m := new Material(FrontSide);
    var a := new MaterialArray([m]);
    var mesh := new Object3D(true, Multi(a));
    assert [mesh][0] == mesh && m in SlotMaterials(mesh.material);
    assert OnMesh([mesh], 1, m);
    ForceDoubleSidedAsWritten([mesh]);
  }

  /** The same mesh after the intended traversal: its material is flagged. */
  method ArrayMaterialGetsUpdate() returns (m: Material)
    ensures m.side == DoubleSide && m.needsUpdate
  {
    m := new Material(FrontSide);
    var a := new MaterialArray([m]);
    var mesh := new Object3D(true, Multi(a));
    assert [mesh][0] == mesh && m in SlotMaterials(mesh.material);
    assert OnMesh([mesh], 1, m);
    ForceDoubleSided([mesh]);
  }
}
