/**
 * A material's frame lifecycle. During a frame the material caches the entities
 * bound to its inputs (surface shader, BSDF, EDF, alpha map) and, when a
 * texture is bound as displacement map, a normal modifier built according to
 * the displacement method. At the end of the frame every cache is cleared.
 */
module Materials {
  import opened Optional
  import opened Params

  /** A reference to an entity of the scene (surface shader, BSDF, EDF), by name. */
  datatype EntityRef = EntityRef(name: string)

  /** What is bound to a scalar or spectrum input: a texture instance or some other source. */
  datatype Source = TextureSource(textureInstance: string) | OtherSource(description: string)

  /** What the material's inputs are bound to. */
  datatype Inputs = Inputs(
    surfaceShader: Option<EntityRef>,
    bsdf: Option<EntityRef>,
    edf: Option<EntityRef>,
    alphaMap: Option<Source>,
    displacementMap: Option<Source>)

  /**
   * The normal modifiers: bump mapping (with the source's fixed offset 2.0 and
   * an amplitude) or normal mapping, both reading the displacement texture.
   */
  datatype NormalModifier =
    | BumpMapping(texture: string, offset: real, amplitude: real)
    | NormalMapping(texture: string)

  const DefaultDisplacementMethod: string := "bump"
  const DefaultBumpAmplitude: real := 1.0
  const BumpOffset: real := 2.0

  /** The displacement method parameter, "bump" when absent. */
  function DisplacementMethod(params: ParamArray): string {
    GetString(params, "displacement_method", DefaultDisplacementMethod)
  }

  /**
   * The normal modifier after on_frame_begin: a bump or normal-mapping modifier
   * for a texture bound as displacement map with method "bump" or "normal";
   * otherwise (no displacement source, a source that is not a texture, or an
   * invalid method) the modifier the material already had.
   */
  function ModifierAfterFrameBegin(previous: Option<NormalModifier>, displacement: Option<Source>,
                                   params: ParamArray, parseReal: string -> real): Option<NormalModifier>
  {
    match displacement
    case None => previous
    case Some(OtherSource(_)) => previous
    case Some(TextureSource(texture)) =>
      var displacementMethod := DisplacementMethod(params);
      if displacementMethod == "bump" then
        Some(BumpMapping(texture, BumpOffset, GetReal(params, "bump_amplitude", DefaultBumpAmplitude, parseReal)))
      else if displacementMethod == "normal" then Some(NormalMapping(texture))
      else previous
  }

  class Material {
    const params: ParamArray
    const inputs: Inputs
    var surfaceShader: Option<EntityRef>
    var bsdf: Option<EntityRef>
    var edf: Option<EntityRef>
    var alphaMap: Option<Source>
    var normalModifier: Option<NormalModifier>

    /** A new material has nothing cached. */
    constructor (params: ParamArray, inputs: Inputs)
      ensures this.params == params && this.inputs == inputs
      ensures surfaceShader == None && bsdf == None && edf == None
      ensures alphaMap == None && normalModifier == None
    {
      this.params := params;
      this.inputs := inputs;
      surfaceShader := None;
      bsdf := None;
      edf := None;
      alphaMap := None;
      normalModifier := None;
    }

    /** has_alpha_map: whether the alpha_map parameter is present and not empty. */
    function HasAlphaMap(): (b: bool)
    {
      if "alpha_map" !in params then false
      else params["alpha_map"] != ""
    }

    /**
     * on_frame_begin: cache the bound entities and the alpha map, then build the
     * normal modifier from the displacement map. It always succeeds.
     */
    method OnFrameBegin(parseReal: string -> real) returns (ok: bool)
      modifies this
      ensures ok
      ensures surfaceShader == inputs.surfaceShader && bsdf == inputs.bsdf && edf == inputs.edf
      ensures alphaMap == inputs.alphaMap
      ensures normalModifier == ModifierAfterFrameBegin(old(normalModifier), inputs.displacementMap, params, parseReal)
    {
      surfaceShader := inputs.surfaceShader;
      bsdf := inputs.bsdf;
      edf := inputs.edf;
      alphaMap := inputs.alphaMap;
      var displacementSource := inputs.displacementMap;
      if displacementSource.Some? {
        match displacementSource.value {
          case OtherSource(_) =>
          case TextureSource(texture) =>
            var displacementMethod := GetString(params, "displacement_method", DefaultDisplacementMethod);
            if displacementMethod == "bump" {
              var amplitude := GetReal(params, "bump_amplitude", DefaultBumpAmplitude, parseReal);
              normalModifier := Some(BumpMapping(texture, BumpOffset, amplitude));
            } else if displacementMethod == "normal" {
              normalModifier := Some(NormalMapping(texture));
            }
        }
      }
      return true;
    }

    /** on_frame_end: every cached binding and the normal modifier are cleared. */
    method OnFrameEnd()
      modifies this
      ensures surfaceShader == None && bsdf == None && edf == None
      ensures alphaMap == None && normalModifier == None
    {
      surfaceShader := None;
      bsdf := None;
      edf := None;
      alphaMap := None;
      normalModifier := None;
    }
  }
}

/** Properties of the material lifecycle's specification functions. */
module MaterialProperties {
  import opened Optional
  import opened Params
  import opened Materials

  /**
   * has_alpha_map is the alpha_map string parameter read with the empty string
   * as default, compared with the empty string: a missing parameter and an empty
   * one both mean there is no alpha map.
   */
  lemma HasAlphaMapReadsParameter(m: Material)
    ensures m.HasAlphaMap() <==> GetString(m.params, "alpha_map", "") != ""
    ensures "alpha_map" !in m.params ==> !m.HasAlphaMap()
  {
  }

  /** has_alpha_map depends on the alpha_map parameter only. */
  lemma HasAlphaMapDependsOnItsParameter(m1: Material, m2: Material)
    requires ("alpha_map" in m1.params) == ("alpha_map" in m2.params)
    requires "alpha_map" in m1.params ==> m1.params["alpha_map"] == m2.params["alpha_map"]
    ensures m1.HasAlphaMap() == m2.HasAlphaMap()
  {
  }

  /** Without a displacement_method parameter the method is "bump". */
  lemma DisplacementMethodDefault(params: ParamArray)
    requires "displacement_method" !in params
    ensures DisplacementMethod(params) == "bump"
  {
  }

  /**
   * A texture with method "bump" gives a bump modifier on that texture with
   * offset 2 and the bump_amplitude parameter (default 1); with "normal", a
   * normal-mapping modifier on that texture.
   */
  lemma TextureDisplacementBuildsModifier(previous: Option<NormalModifier>, texture: string,
                                          params: ParamArray, parseReal: string -> real)
    ensures DisplacementMethod(params) == "bump" ==>
      ModifierAfterFrameBegin(previous, Some(TextureSource(texture)), params, parseReal)
        == Some(BumpMapping(texture, 2.0, GetReal(params, "bump_amplitude", 1.0, parseReal)))
    ensures DisplacementMethod(params) == "bump" && "bump_amplitude" !in params ==>
      ModifierAfterFrameBegin(previous, Some(TextureSource(texture)), params, parseReal)
        == Some(BumpMapping(texture, 2.0, 1.0))
    ensures DisplacementMethod(params) == "normal" ==>
      ModifierAfterFrameBegin(previous, Some(TextureSource(texture)), params, parseReal)
        == Some(NormalMapping(texture))
  {
  }

  /**
   * The modifier the material had is kept unless a texture is bound as
   * displacement texture and the method is "bump" or "normal": no source, a source
   * that is not a texture, or an invalid method leaves it as it was.
   */
  lemma ModifierKeptOtherwise(previous: Option<NormalModifier>, displacement: Option<Source>,
                              params: ParamArray, parseReal: string -> real)
    ensures (displacement.None? || displacement.value.OtherSource?
             || DisplacementMethod(params) !in {"bump", "normal"})
      ==> ModifierAfterFrameBegin(previous, displacement, params, parseReal) == previous
  {
  }

  /**
   * Whatever the material had before, a texture with a valid method replaces
   * it by a modifier reading that texture.
   */
  lemma BuiltModifierReadsTheTexture(previous: Option<NormalModifier>, texture: string,
                                     params: ParamArray, parseReal: string -> real)
    requires DisplacementMethod(params) in {"bump", "normal"}
    ensures ModifierAfterFrameBegin(previous, Some(TextureSource(texture)), params, parseReal).Some?
    ensures ModifierAfterFrameBegin(previous, Some(TextureSource(texture)), params, parseReal).value.texture == texture
  {
  }
}
