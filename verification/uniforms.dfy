/**
 * The shader-parameter sink both managers write into.
 *
 * The shader program is reached through a possibly-null shader manager; a
 * present one is modelled as a map from uniform name to the last value written
 * under that name. Matrices are not computed: a view matrix is recorded as the
 * camera pose it is derived from, and a projection matrix as its parameter
 * record.
 */
module Uniforms {

  datatype Vec2 = Vec2(u: real, v: real)
  datatype Vec3 = Vec3(x: real, y: real, z: real)
  datatype Vec4 = Vec4(r: real, g: real, b: real, a: real)

  /** The parameters a projection matrix is built from. */
  datatype Projection =
    | PerspectiveParams(fovDegrees: real, aspect: real, near: real, far: real)
    | OrthoParams(left: real, right: real, bottom: real, top: real, near: real, far: real)

  datatype Uniform =
    | IntValue(i: int)
    | FloatValue(f: real)
    | Vec2Value(v2: Vec2)
    | Vec3Value(v3: Vec3)
    | Vec4Value(v4: Vec4)
    | SamplerValue(unit: int)
    | ViewMatrix(eye: Vec3, front: Vec3, up: Vec3)
    | ProjectionMatrix(p: Projection)

  /** A null shader manager, or the uniforms written into a present one. */
  datatype Sink = NoShader | Shader(uniforms: map<string, Uniform>)

  /** The two uniform maps hold the same entries outside `names`. */
  ghost predicate AgreeOutside(a: map<string, Uniform>, b: map<string, Uniform>, names: set<string>)
  {
    forall k :: k !in names ==> (k in a <==> k in b) && (k in a ==> a[k] == b[k])
  }

  /** One setter call on the shader manager. */
  function Write(uniforms: map<string, Uniform>, name: string, value: Uniform): (r: map<string, Uniform>)
    ensures name in r && r[name] == value
    ensures AgreeOutside(uniforms, r, {name})
  {
    uniforms[name := value]
  }
}
