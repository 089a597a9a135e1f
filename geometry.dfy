/** Vectors, quaternions and the rigid-body `Transform` record with its
  * hierarchical composition (scale, then rotate, then translate). */
module Geometry {
  datatype Vec3 = Vec3(x: real, y: real, z: real)
  {
    function Add(o: Vec3): Vec3 { Vec3(x + o.x, y + o.y, z + o.z) }
    function Sub(o: Vec3): Vec3 { Vec3(x - o.x, y - o.y, z - o.z) }
    /** Component-wise product (JOML `Vector3d.mul(Vector3d)`). */
    function Mul(o: Vec3): Vec3 { Vec3(x * o.x, y * o.y, z * o.z) }
    function Scale(k: real): Vec3 { Vec3(x * k, y * k, z * k) }
    function LengthSquared(): real { x * x + y * y + z * z }
  }

  const Zero: Vec3 := Vec3(0.0, 0.0, 0.0)
  const One: Vec3 := Vec3(1.0, 1.0, 1.0)

  datatype Axis = X | Y | Z

  function Component(v: Vec3, a: Axis): real
  {
    match a
    case X => v.x
    case Y => v.y
    case Z => v.z
  }

  /** `v` with the component on axis `a` replaced. */
  function WithComponent(v: Vec3, a: Axis, value: real): (r: Vec3)
    ensures Component(r, a) == value
    ensures forall b: Axis :: b != a ==> Component(r, b) == Component(v, b)
  {
    match a
    case X => v.(x := value)
    case Y => v.(y := value)
    case Z => v.(z := value)
  }

  /** A quaternion (x, y, z, w) with w the scalar part, as in JOML. */
  datatype Quat = Quat(x: real, y: real, z: real, w: real)
  {
    function NormSquared(): real { x * x + y * y + z * z + w * w }
  }

  const IdentityQuat: Quat := Quat(0.0, 0.0, 0.0, 1.0)

  /** The Hamilton product `p * q` (JOML `p.mul(q)`): rotation q applied first,
    * in the frame of p. */
  function QMul(p: Quat, q: Quat): Quat
  {
    Quat(p.w * q.x + p.x * q.w + p.y * q.z - p.z * q.y,
         p.w * q.y - p.x * q.z + p.y * q.w + p.z * q.x,
         p.w * q.z + p.x * q.y - p.y * q.x + p.z * q.w,
         p.w * q.w - p.x * q.x - p.y * q.y - p.z * q.z)
  }

  /** JOML `Quaterniond.transform(Vector3d)`: the rotation matrix of q applied to
    * v, divided by the squared norm of q so that q need not be a unit
    * quaternion. The zero quaternion, which yields NaN components in the
    * source, is given the zero vector here. */
  function Rotate(q: Quat, v: Vec3): Vec3
  {
    var n := q.NormSquared();
    if n == 0.0 then Zero
    else
      var xx, yy, zz, ww := q.x * q.x, q.y * q.y, q.z * q.z, q.w * q.w;
      var xy, xz, yz := q.x * q.y, q.x * q.z, q.y * q.z;
      var xw, yw, zw := q.x * q.w, q.y * q.w, q.z * q.w;
      Vec3(((xx - yy - zz + ww) * v.x + 2.0 * (xy - zw) * v.y + 2.0 * (xz + yw) * v.z) / n,
           (2.0 * (xy + zw) * v.x + (yy - xx - zz + ww) * v.y + 2.0 * (yz - xw) * v.z) / n,
           (2.0 * (xz - yw) * v.x + 2.0 * (yz + xw) * v.y + (zz - xx - yy + ww) * v.z) / n)
  }

  /** The trigonometric and square-root operations of JOML that the engine
    * calls, supplied from outside the model: the quaternion of a rotation by
    * an angle about a coordinate axis, about an arbitrary (unit) axis, the
    * normalisation of a vector, and spherical interpolation. */
  datatype Trig = Trig(
    axisRotation: (Axis, real) -> Quat,
    axisAngle: (real, Vec3) -> Quat,
    normalize: Vec3 -> Vec3,
    slerp: (Quat, Quat, real) -> Quat)

  /** Linear interpolation `a + (b - a) * t` (JOML `Vector3d.lerp`). */
  function Lerp(a: Vec3, b: Vec3, t: real): Vec3
  {
    a.Add(b.Sub(a).Scale(t))
  }

  /** A position, a rotation and a per-axis scale. */
  datatype Transform = Transform(position: Vec3, rotation: Quat, scale: Vec3)

  /** `Transform.identity()`: origin, no rotation, unit scale. */
  const Identity: Transform := Transform(Zero, IdentityQuat, One)

  /** A point in the local space of `t`, expressed in the space `t` lives in. */
  function TransformPoint(t: Transform, p: Vec3): Vec3
  {
    Rotate(t.rotation, p.Mul(t.scale)).Add(t.position)
  }

  /** A direction is only rotated: translation and scale do not apply. */
  function TransformDirection(t: Transform, d: Vec3): Vec3
  {
    Rotate(t.rotation, d)
  }

  /** The world transform of `child`, which lives in the local space of `parent`. */
  function Compose(parent: Transform, child: Transform): Transform
  {
    Transform(Rotate(parent.rotation, child.position.Mul(parent.scale)).Add(parent.position),
              QMul(parent.rotation, child.rotation),
              parent.scale.Mul(child.scale))
  }

  lemma QMulIdentity(q: Quat)
    ensures QMul(IdentityQuat, q) == q && QMul(q, IdentityQuat) == q
  {
  }

  lemma RotateByIdentity(v: Vec3)
    ensures Rotate(IdentityQuat, v) == v
  {
  }

  lemma RotateZero(q: Quat)
    ensures Rotate(q, Zero) == Zero
  {
  }

  /** The composed position is the child's origin seen through the parent. */
  lemma ComposePositionIsTransformPoint(parent: Transform, child: Transform)
    ensures Compose(parent, child).position == TransformPoint(parent, child.position)
    ensures Compose(parent, child).rotation == QMul(parent.rotation, child.rotation)
    ensures Compose(parent, child).scale == parent.scale.Mul(child.scale)
  {
  }

  /** An identity parent leaves the child as it is. */
  lemma ComposeIdentityParent(child: Transform)
    ensures Compose(Identity, child) == child
  {
    RotateByIdentity(child.position);
    QMulIdentity(child.rotation);
  }

  /** An identity child yields the parent. */
  lemma ComposeIdentityChild(parent: Transform)
    ensures Compose(parent, Identity) == parent
  {
    RotateZero(parent.rotation);
    QMulIdentity(parent.rotation);
  }

  /** A direction ignores the position and scale of the transform. */
  lemma DirectionIgnoresTranslationAndScale(t: Transform, d: Vec3)
    ensures TransformDirection(t, d) == TransformPoint(Transform(Zero, t.rotation, One), d)
  {
    assert d.Mul(One) == d;
  }

  /** Parent at (10, 5, 0) rotated a quarter turn about Y (the quaternion
    * (0, 1, 0, 1), whose normalised form is the quarter turn) with scale
    * (2, 1, 2), child at (3, 2, 0) with scale (0.5, 2, 1): the child lands on
    * (10, 7, -6) with scale (1, 2, 2). */
  lemma ComposeHierarchyExample(childRotation: Quat)
    ensures var w := Compose(Transform(Vec3(10.0, 5.0, 0.0), Quat(0.0, 1.0, 0.0, 1.0), Vec3(2.0, 1.0, 2.0)),
                             Transform(Vec3(3.0, 2.0, 0.0), childRotation, Vec3(0.5, 2.0, 1.0)));
            w.position == Vec3(10.0, 7.0, -6.0) && w.scale == Vec3(1.0, 2.0, 2.0)
  {
  }
}
