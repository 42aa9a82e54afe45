/** Optional values: a reference that may not resolve, a field that may be absent. */
module Wrappers {
  datatype Option<T> = None | Some(value: T)
}

/**
  Vector, colour, sphere and transform values used by the shape.

  The floating-point geometry of the renderer (applying a transform to a point,
  the rotation part of a transform, composing transforms, normalising a vector,
  fitting a bounding sphere) is not interpreted: it is supplied as the function
  fields of a `Geometry` value, so every property proved below holds whatever
  those operations compute.  Only the addition and scaling the skinning pass
  performs itself are defined here.
*/
module Geometry {
  datatype Vec2 = Vec2(u: real, v: real)
  datatype Vec3 = Vec3(x: real, y: real, z: real)
  datatype Vec4 = Vec4(x: real, y: real, z: real, w: real)
  datatype Color4 = Color4(r: real, g: real, b: real, a: real)
  datatype Sphere = Sphere(center: Vec3, radius: real)
  datatype Matrix3 = Matrix3(row0: Vec3, row1: Vec3, row2: Vec3)
  datatype Transform = Transform(rotation: Matrix3, translation: Vec3, scale: real)

  /** The default-constructed vector (all components zero). */
  const Origin: Vec3 := Vec3(0.0, 0.0, 0.0)

  /** The default-constructed transform. */
  const Identity: Transform :=
    Transform(Matrix3(Vec3(1.0, 0.0, 0.0), Vec3(0.0, 1.0, 0.0), Vec3(0.0, 0.0, 1.0)), Origin, 1.0)

  function Add(a: Vec3, b: Vec3): Vec3 {
    Vec3(a.x + b.x, a.y + b.y, a.z + b.z)
  }

  function Scale(a: Vec3, k: real): Vec3 {
    Vec3(a.x * k, a.y * k, a.z * k)
  }

  /** `Vector3( Vector4 )`: the first three components. */
  function Truncate(v: Vec4): Vec3 {
    Vec3(v.x, v.y, v.z)
  }

  /** A buffer of `n` zero vectors, as `resize( n )` followed by `fill( Vector3() )`. */
  function Zeros(n: nat): (z: seq<Vec3>)
    ensures |z| == n
    ensures forall i :: 0 <= i < n ==> z[i] == Origin
  {
    seq(n, _ => Origin)
  }

  /** The renderer's geometry, left uninterpreted. */
  datatype Geometry = Geometry(
    apply: (Transform, Vec3) -> Vec3,        // t * v
    rotate: (Transform, Vec3) -> Vec3,       // t.rotation * v
    compose: (Transform, Transform) -> Transform,  // a * b
    normalize: Vec3 -> Vec3,                 // Vector3::normalize
    sphereOf: seq<Vec3> -> Sphere)           // BoundSphere( points )
}
