/**
  Fitting the loaded model to the view (javascript/three.js:86-100): the root is
  moved relative to its bounding box's centre and scaled uniformly so that the
  box's largest side becomes `TargetSize`. The box's size and centre are inputs;
  computing them (`Box3.setFromObject`) belongs to three.js.
 */
module ModelFit {
  import opened Three

  /** The size the largest side of the model is scaled to (line 98). */
  const TargetSize: real := 1.6

  /** `Math.max(a, b, c)` on reals. */
  function Max3(a: real, b: real, c: real): (m: real)
    ensures m >= a && m >= b && m >= c
    ensures m == a || m == b || m == c
  {
    var ab := if a >= b then a else b;
    if ab >= c then ab else c
  }

  /** The largest side of a box of the given size (line 96). */
  function MaxDim(size: Vec3): (m: real)
    ensures m >= size.x && m >= size.y && m >= size.z
    ensures m == size.x || m == size.y || m == size.z
  {
    Max3(size.x, size.y, size.z)
  }

  /** The uniform scale for a box whose largest side is `maxDim` (line 98). */
  function FitScale(maxDim: real): (s: real)
    requires maxDim > 0.0
    ensures s > 0.0 && s * maxDim == TargetSize
  {
    TargetSize / maxDim
  }

  /** `v.setScalar(s)`. */
  function Uniform(s: real): Vec3
  {
    Vec3(s, s, s)
  }

  /**
    The position after `p += (p - center)` on each axis (lines 91-93). The root
    moves by `p - center`, so a box centre that moves with it ends at the OLD
    root position: the box is centred on the origin exactly when the root
    started at the origin.
   */
  function Recentre(p: Vec3, center: Vec3): (r: Vec3)
    ensures r.x - p.x == p.x - center.x
    ensures r.y - p.y == p.y - center.y
    ensures r.z - p.z == p.z - center.z
    ensures center.x + (r.x - p.x) == p.x
    ensures center.y + (r.y - p.y) == p.y
    ensures center.z + (r.z - p.z) == p.z
    ensures r == center <==> p == center
  {
    Vec3(p.x + (p.x - center.x), p.y + (p.y - center.y), p.z + (p.z - center.z))
  }

  /** The moved box centre lands at the origin exactly when the root started there. */
  lemma CentredIffRootAtOrigin(p: Vec3, center: Vec3)
    ensures var r := Recentre(p, center);
      Vec3(center.x + (r.x - p.x), center.y + (r.y - p.y), center.z + (r.z - p.z)) == Origin
      <==> p == Origin
  {
  }

  /**
    Where the box centre ends after the whole fit, on one axis. The root starts
    at `p` with the uniform scale `s0`, so the geometry's centre sits at
    `(center - p) / s0` in the root's own frame. The shift moves the root to
    `Recentre(p, center)`, and `setScalar(s1)` scales that offset about the
    root's origin.
   */
  function FittedCentreAxis(p: real, center: real, s0: real, s1: real): (c: real)
    requires s0 > 0.0
    ensures c == p + (s1 / s0 - 1.0) * (center - p)
  {
    (p + (p - center)) + s1 * ((center - p) / s0)
  }

  /** `FittedCentreAxis` on every axis. */
  function FittedBoxCentre(p: Vec3, center: Vec3, s0: real, s1: real): Vec3
    requires s0 > 0.0
  {
    Vec3(FittedCentreAxis(p.x, center.x, s0, s1),
         FittedCentreAxis(p.y, center.y, s0, s1),
         FittedCentreAxis(p.z, center.z, s0, s1))
  }

  /**
    For a root that starts at the origin with scale 1 (a freshly loaded glTF
    scene), the fitted box is centred on the origin exactly when the box was
    already centred there or the fit left the scale at 1.
   */
  lemma FittedCentredIff(center: Vec3, s1: real)
    ensures FittedBoxCentre(Origin, center, 1.0, s1) == Origin <==> center == Origin || s1 == 1.0
  {
    var c := FittedBoxCentre(Origin, center, 1.0, s1);
    assert c == Vec3((s1 - 1.0) * center.x, (s1 - 1.0) * center.y, (s1 - 1.0) * center.z);
    if c == Origin && s1 != 1.0 {
      assert center.x == 0.0 && center.y == 0.0 && center.z == 0.0;
    }
  }

  /**
    A box of size (2, 1, 4) centred at (0, 0.5, 0) on a glTF root at the
    origin: after the fit its centre is at (0, -0.3, 0), not at the origin.
   */
  lemma FittedCentreExample()
    ensures FitScale(MaxDim(Vec3(2.0, 1.0, 4.0))) == 0.4
    ensures FittedBoxCentre(Origin, Vec3(0.0, 0.5, 0.0), 1.0, 0.4) == Vec3(0.0, -0.3, 0.0)
  {
  }

  /**
    Each axis of the new position depends only on that axis of the old
    position and of the centre.
   */
  lemma RecentreAxesIndependent(p: Vec3, q: Vec3, center: Vec3, center': Vec3)
    ensures p.x == q.x && center.x == center'.x ==> Recentre(p, center).x == Recentre(q, center').x
    ensures p.y == q.y && center.y == center'.y ==> Recentre(p, center).y == Recentre(q, center').y
    ensures p.z == q.z && center.z == center'.z ==> Recentre(p, center).z == Recentre(q, center').z
  {
  }

  /**
    The centring and scaling steps of the load callback (lines 91-100), in the
    order the script runs them.
   */
  method FitToView(root: Object3D, size: Vec3, center: Vec3)
    modifies root
    ensures root.position == Recentre(old(root.position), center)
    ensures MaxDim(size) > 0.0 ==> root.scale == Uniform(FitScale(MaxDim(size)))
    ensures MaxDim(size) <= 0.0 ==> root.scale == old(root.scale)
  {
    root.position := root.position.(x := root.position.x + (root.position.x - center.x));
    root.position := root.position.(y := root.position.y + (root.position.y - center.y));
    root.position := root.position.(z := root.position.z + (root.position.z - center.z));

    var maxDim := Max3(size.x, size.y, size.z);
    if maxDim > 0.0 {
      var scale := TargetSize / maxDim;
      root.scale := Vec3(scale, scale, scale);
    }
  }

  /** A box of size (2, 1, 4) is scaled by 0.4 on every axis. */
  lemma FitExample()
    ensures MaxDim(Vec3(2.0, 1.0, 4.0)) == 4.0
    ensures Uniform(FitScale(4.0)) == Vec3(0.4, 0.4, 0.4)
  {
  }
}
