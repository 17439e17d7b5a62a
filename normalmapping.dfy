/**
 * The normal-mapping modifier: a texel of the normal map, an RGB colour in
 * [0, 1]³, is turned into a tangent-space vector in [-1, 1]³ (red to x, blue to
 * y, green to z), carried to world space by the shading basis built from the
 * surface normal and dp/du, and normalised.
 *
 * The texture lookup, the shading basis and normalisation are given to the
 * model as functions.
 */
module NormalMapping {
  import opened Geometry

  datatype Color3 = Color3(r: real, g: real, b: real)

  /** foundation's is_saturated: every channel in [0, 1]. */
  predicate IsSaturated(c: Color3) {
    0.0 <= c.r <= 1.0 && 0.0 <= c.g <= 1.0 && 0.0 <= c.b <= 1.0
  }

  /**
   * The tangent-space vector a texel encodes: each channel c becomes 2c − 1, and
   * the channels are swizzled so that x comes from red, y from blue and z from
   * green.
   */
  function Reconstruct(texel: Color3): Vec3 {
    Vec3(texel.r * 2.0 - 1.0, texel.b * 2.0 - 1.0, texel.g * 2.0 - 1.0)
  }

  /**
   * The texel that encodes a tangent-space vector: the inverse mapping, each
   * component v stored as (v + 1) / 2 in the channel it is read from.
   */
  function Encode(v: Vec3): Color3 {
    Color3((v.x + 1.0) / 2.0, (v.z + 1.0) / 2.0, (v.y + 1.0) / 2.0)
  }

  /**
   * evaluate: look the texel up at uv, reconstruct the vector, transform it to
   * world space with the basis of (n, dpdu), and normalise it. The texel must be
   * saturated; dpdv is not used.
   */
  function Evaluate(lookup: Vec2 -> Color3, n: Vec3, uv: Vec2, dpdu: Vec3, dpdv: Vec3,
                    basisToParent: (Vec3, Vec3, Vec3) -> Vec3, normalize: Vec3 -> Vec3): Vec3
    requires IsSaturated(lookup(uv))
  {
    var normal := Reconstruct(lookup(uv));
    normalize(basisToParent(n, dpdu, normal))
  }
}

/** Properties of the texel-to-normal reconstruction. */
module NormalMappingProperties {
  import opened Geometry
  import opened NormalMapping

  /** Reconstruction undoes encoding, and encoding undoes reconstruction. */
  lemma ReconstructEncodeRoundTrip(v: Vec3, texel: Color3)
    ensures Reconstruct(Encode(v)) == v
    ensures Encode(Reconstruct(texel)) == texel
  {
  }

  /** Each component is its channel remapped by c ↦ 2c − 1: x from red, y from blue, z from green. */
  lemma ReconstructSwizzle(texel: Color3)
    ensures (Reconstruct(texel).x + 1.0) / 2.0 == texel.r
    ensures (Reconstruct(texel).y + 1.0) / 2.0 == texel.b
    ensures (Reconstruct(texel).z + 1.0) / 2.0 == texel.g
  {
  }

  /** A saturated texel gives a vector in [-1, 1]³, and a vector in [-1, 1]³ encodes to a saturated texel. */
  lemma SaturatedMeansUnitCube(texel: Color3)
    ensures IsSaturated(texel) <==>
      (-1.0 <= Reconstruct(texel).x <= 1.0 && -1.0 <= Reconstruct(texel).y <= 1.0 && -1.0 <= Reconstruct(texel).z <= 1.0)
  {
  }

  /** The "flat" texel (0.5, 0.5, 1.0) encodes the tangent-space normal (0, 1, 0). */
  lemma FlatTexel()
    ensures Reconstruct(Color3(0.5, 0.5, 1.0)) == Vec3(0.0, 1.0, 0.0)
  {
  }

  /**
   * With a basis whose second axis is the surface normal, the flat texel leaves
   * the (normalised) surface normal unchanged.
   */
  lemma FlatTexelKeepsNormal(lookup: Vec2 -> Color3, n: Vec3, uv: Vec2, dpdu: Vec3, dpdv: Vec3,
                             basisToParent: (Vec3, Vec3, Vec3) -> Vec3, normalize: Vec3 -> Vec3)
    requires lookup(uv) == Color3(0.5, 0.5, 1.0)
    requires basisToParent(n, dpdu, Vec3(0.0, 1.0, 0.0)) == n
    ensures Evaluate(lookup, n, uv, dpdu, dpdv, basisToParent, normalize) == normalize(n)
  {
    FlatTexel();
  }

  /** The result does not depend on dpdv. */
  lemma EvaluateIgnoresDpdv(lookup: Vec2 -> Color3, n: Vec3, uv: Vec2, dpdu: Vec3, dpdv1: Vec3, dpdv2: Vec3,
                            basisToParent: (Vec3, Vec3, Vec3) -> Vec3, normalize: Vec3 -> Vec3)
    requires IsSaturated(lookup(uv))
    ensures Evaluate(lookup, n, uv, dpdu, dpdv1, basisToParent, normalize)
         == Evaluate(lookup, n, uv, dpdu, dpdv2, basisToParent, normalize)
  {
  }

  /**
   * A texel that encodes a tangent-space vector in [-1, 1]³ is saturated, and
   * the modifier returns that vector carried to world space and normalised.
   */
  lemma EvaluateDecodesEncodedNormal(lookup: Vec2 -> Color3, n: Vec3, uv: Vec2, dpdu: Vec3, dpdv: Vec3,
                                     basisToParent: (Vec3, Vec3, Vec3) -> Vec3, normalize: Vec3 -> Vec3, v: Vec3)
    requires -1.0 <= v.x <= 1.0 && -1.0 <= v.y <= 1.0 && -1.0 <= v.z <= 1.0
    requires lookup(uv) == Encode(v)
    ensures IsSaturated(lookup(uv))
    ensures Evaluate(lookup, n, uv, dpdu, dpdv, basisToParent, normalize) == normalize(basisToParent(n, dpdu, v))
  {
    ReconstructEncodeRoundTrip(v, lookup(uv));
  }
}
