/**
  The few three.js entities the viewer script reads or updates, reduced to the
  fields it touches. three.js itself is not part of this model.
 */
module Three {

  /** A `THREE.Vector3`, used here as a value. */
  datatype Vec3 = Vec3(x: real, y: real, z: real)

  const Origin: Vec3 := Vec3(0.0, 0.0, 0.0)

  /** Which faces of a polygon a material renders. */
  datatype Side = FrontSide | BackSide | DoubleSide

  /**
    A `THREE.Material`. three.js implements `needsUpdate` as a write-only setter
    that bumps an internal version; the model records that the flag was raised.
   */
  class Material {
    var side: Side
    var needsUpdate: bool

    constructor (side: Side)
      ensures this.side == side && !needsUpdate
    {
      this.side := side;
      needsUpdate := false;
    }
  }

  /**
    A plain JavaScript array of materials. Like any JavaScript object it accepts
    a `needsUpdate` property, which three.js never reads.
   */
  class MaterialArray {
    const items: seq<Material>
    var needsUpdate: bool

    constructor (items: seq<Material>)
      ensures this.items == items && !needsUpdate
    {
      this.items := items;
      needsUpdate := false;
    }
  }

  /** What a node's `material` property holds: nothing, one material, or an array. */
  datatype MaterialSlot = NoMaterial | Single(material: Material) | Multi(list: MaterialArray)

  /** A node of the loaded scene graph (`THREE.Object3D`, a `THREE.Mesh` when `isMesh`). */
  class Object3D {
    const isMesh: bool
    const material: MaterialSlot
    var position: Vec3
    var scale: Vec3

    constructor (isMesh: bool, material: MaterialSlot)
      ensures this.isMesh == isMesh && this.material == material
      ensures position == Origin && scale == Vec3(1.0, 1.0, 1.0)
    {
      this.isMesh := isMesh;
      this.material := material;
      position := Origin;
      scale := Vec3(1.0, 1.0, 1.0);
    }
  }

  /** The part of `OrbitControls` the script writes: the idle flag and the orbit target. */
  class OrbitControls {
    var autoRotate: bool
    var target: Vec3

    /** The script enables idle rotation right after creating the controls. */
    constructor ()
      ensures autoRotate && target == Origin
    {
      autoRotate := true;
      target := Origin;
    }
  }

  /** The result of a JavaScript floating-point division of two non-negative sizes. */
  datatype Ratio = Finite(value: real) | PositiveInfinity | NaN

  class PerspectiveCamera {
    var aspect: Ratio

    constructor (aspect: Ratio)
      ensures this.aspect == aspect
    {
      this.aspect := aspect;
    }
  }

  /** The drawing surface's size in CSS pixels, as last passed to `setSize`. */
  class WebGLRenderer {
    var width: nat
    var height: nat

    constructor (width: nat, height: nat)
      ensures this.width == width && this.height == height
    {
      this.width := width;
      this.height := height;
    }
  }
}
