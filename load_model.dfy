/**
  The success callback of the model load (javascript/three.js:82-119), in the
  order it runs: fit the root to the view, make the meshes' materials
  double-sided and flag them, then aim the controls at the origin. The callback's `nodes`
  are the nodes `root.traverse` visits; inserting the root into the model
  group and `controls.update()` belong to three.js.
 */
module LoadModel {
  import opened Three
  import opened ModelFit
  import opened Materials

  /**
    The callback as written: a material in a mesh's array becomes double-sided
    but only the array itself is flagged.
   */
  method OnModelLoaded(root: Object3D, nodes: seq<Object3D>, size: Vec3, center: Vec3, controls: OrbitControls)
    modifies root, controls`target, MeshMaterials(nodes), MeshArrays(nodes)
    ensures root.position == Recentre(old(root.position), center)
    ensures MaxDim(size) > 0.0 ==> root.scale == Uniform(FitScale(MaxDim(size)))
    ensures MaxDim(size) <= 0.0 ==> root.scale == old(root.scale)
    ensures forall m: Material | OnMesh(nodes, |nodes|, m) :: m.side == DoubleSide
    ensures forall m: Material | OnMesh(nodes, |nodes|, m) ::
      m.needsUpdate == (old(m.needsUpdate) || SingleOnMesh(nodes, |nodes|, m))
    ensures forall a: MaterialArray | ArrayOnMesh(nodes, |nodes|, a) :: a.needsUpdate
    ensures controls.target == Origin && controls.autoRotate == old(controls.autoRotate)
  {
    FitToView(root, size, center);
    ForceDoubleSidedAsWritten(nodes);
    controls.target := Origin;
  }

  /** The callback with the corrected material pass: every mesh material is flagged. */
  method OnModelLoadedCorrected(root: Object3D, nodes: seq<Object3D>, size: Vec3, center: Vec3, controls: OrbitControls)
    modifies root, controls`target, MeshMaterials(nodes)
    ensures root.position == Recentre(old(root.position), center)
    ensures MaxDim(size) > 0.0 ==> root.scale == Uniform(FitScale(MaxDim(size)))
    ensures MaxDim(size) <= 0.0 ==> root.scale == old(root.scale)
    ensures forall m: Material | OnMesh(nodes, |nodes|, m) :: m.side == DoubleSide && m.needsUpdate
    ensures controls.target == Origin && controls.autoRotate == old(controls.autoRotate)
  {
    FitToView(root, size, center);
    ForceDoubleSided(nodes);
    controls.target := Origin;
  }
}
