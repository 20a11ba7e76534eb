/**
 * Per-draw shader state written by the scene manager.
 *
 * Before each draw the scene manager writes a flat colour or a texture unit,
 * a UV scale and a material into the shader. The colour and texture setters
 * share one flag, bUseTexture, written through the integer setter, so the
 * shading a draw sees is decided by whichever of the two ran last.
 */
module Shading {
  import opened Uniforms
  import opened Textures
  import opened Materials

  const UseTextureName: string := "bUseTexture"
  const ObjectColorName: string := "objectColor"
  const ObjectTextureName: string := "objectTexture"
  const UVScaleName: string := "UVscale"
  const AmbientColorName: string := "material.ambientColor"
  const AmbientStrengthName: string := "material.ambientStrength"
  const DiffuseColorName: string := "material.diffuseColor"
  const SpecularColorName: string := "material.specularColor"
  const ShininessName: string := "material.shininess"

  const MaterialNames: set<string> :=
    {AmbientColorName, AmbientStrengthName, DiffuseColorName, SpecularColorName, ShininessName}

  /** The flag values the integer setter receives for false and true. */
  const FlagOff: Uniform := IntValue(0)
  const FlagOn: Uniform := IntValue(1)

  /** Flat-colour shading: clears the texture flag and sets the colour. */
  function SetShaderColor(sink: Sink, color: Vec4): (r: Sink)
    ensures sink.NoShader? ==> r == sink
    ensures sink.Shader? ==> && r.Shader?
                             && UseTextureName in r.uniforms && r.uniforms[UseTextureName] == FlagOff
                             && ObjectColorName in r.uniforms && r.uniforms[ObjectColorName] == Vec4Value(color)
                             && AgreeOutside(sink.uniforms, r.uniforms, {UseTextureName, ObjectColorName})
  {
    if sink.Shader? then
      Shader(Write(Write(sink.uniforms, UseTextureName, FlagOff), ObjectColorName, Vec4Value(color)))
    else
      sink
  }

  /** Texture shading: sets the flag and the sampler to the slot the tag
      resolves to, which is -1 for a tag that was never loaded. */
  function SetShaderTexture(sink: Sink, t: TextureTable, tag: string): (r: Sink)
    requires Valid(t)
    ensures sink.NoShader? ==> r == sink
    ensures sink.Shader? ==> && r.Shader?
                             && UseTextureName in r.uniforms && r.uniforms[UseTextureName] == FlagOn
                             && ObjectTextureName in r.uniforms
                             && r.uniforms[ObjectTextureName] == SamplerValue(FindTextureSlot(t, tag))
                             && AgreeOutside(sink.uniforms, r.uniforms, {UseTextureName, ObjectTextureName})
    ensures sink.Shader? && tag !in LoadedTags(t) ==> r.uniforms[ObjectTextureName] == SamplerValue(-1)
  {
    if sink.Shader? then
      var withFlag := Write(sink.uniforms, UseTextureName, FlagOn);
      var slot := FindTextureSlot(t, tag);
      Shader(Write(withFlag, ObjectTextureName, SamplerValue(slot)))
    else
      sink
  }

  /** Texture-coordinate repeat factors. */
  function SetTextureUVScale(sink: Sink, u: real, v: real): (r: Sink)
    ensures sink.NoShader? ==> r == sink
    ensures sink.Shader? ==> && r.Shader?
                             && UVScaleName in r.uniforms && r.uniforms[UVScaleName] == Vec2Value(Vec2(u, v))
                             && AgreeOutside(sink.uniforms, r.uniforms, {UVScaleName})
  {
    if sink.Shader? then Shader(Write(sink.uniforms, UVScaleName, Vec2Value(Vec2(u, v)))) else sink
  }

  /** The five material uniforms hold the shading fields of `m`. */
  ghost predicate HoldsMaterial(uniforms: map<string, Uniform>, m: Material)
  {
    && AmbientColorName in uniforms && uniforms[AmbientColorName] == Vec3Value(m.ambientColor)
    && AmbientStrengthName in uniforms && uniforms[AmbientStrengthName] == FloatValue(m.ambientStrength)
    && DiffuseColorName in uniforms && uniforms[DiffuseColorName] == Vec3Value(m.diffuseColor)
    && SpecularColorName in uniforms && uniforms[SpecularColorName] == Vec3Value(m.specularColor)
    && ShininessName in uniforms && uniforms[ShininessName] == FloatValue(m.shininess)
  }

  function WriteMaterial(uniforms: map<string, Uniform>, m: Material): (r: map<string, Uniform>)
    ensures HoldsMaterial(r, m)
    ensures AgreeOutside(uniforms, r, MaterialNames)
  {
    var u1 := Write(uniforms, AmbientColorName, Vec3Value(m.ambientColor));
    var u2 := Write(u1, AmbientStrengthName, FloatValue(m.ambientStrength));
    var u3 := Write(u2, DiffuseColorName, Vec3Value(m.diffuseColor));
    var u4 := Write(u3, SpecularColorName, Vec3Value(m.specularColor));
    Write(u4, ShininessName, FloatValue(m.shininess))
  }

  /**
   * Write the material tagged `tag` into the shader. `scratch` is whatever the
   * uninitialised local record holds before the lookup: on a non-empty list a
   * tag that matches nothing still counts as found, and those values are
   * written. The shader manager is dereferenced without a null check, so a
   * non-empty list needs a present shader.
   */
  function SetShaderMaterial(sink: Sink, ms: seq<Material>, tag: string, scratch: Material): (r: Sink)
    requires |ms| > 0 ==> sink.Shader?
    ensures |ms| == 0 ==> r == sink
    ensures |ms| > 0 ==> r.Shader? && AgreeOutside(sink.uniforms, r.uniforms, MaterialNames)
    ensures forall k :: 0 <= k < |ms| && ms[k].tag == tag && tag !in Tags(ms)[..k] ==>
      HoldsMaterial(r.uniforms, ms[k])
    ensures |ms| > 0 && tag !in Tags(ms) ==> HoldsMaterial(r.uniforms, scratch)
  {
    if |ms| > 0 then
      var lookup := FindMaterial(ms, tag, scratch);
      if lookup.found then Shader(WriteMaterial(sink.uniforms, lookup.material)) else sink
    else
      sink
  }

  /** One setter call made before a draw. */
  datatype ShaderCall =
    | SetColor(color: Vec4)
    | SetTexture(tag: string)
    | SetUVScale(u: real, v: real)
    | SetMaterial(tag: string)

  /** No material call would dereference a null shader manager. */
  predicate Callable(sink: Sink, ms: seq<Material>, calls: seq<ShaderCall>)
  {
    sink.Shader? || |ms| == 0 || forall i :: 0 <= i < |calls| ==> !calls[i].SetMaterial?
  }

  function Apply(sink: Sink, t: TextureTable, ms: seq<Material>, scratch: Material, call: ShaderCall): (r: Sink)
    requires Valid(t)
    requires Callable(sink, ms, [call])
    ensures r.Shader? <==> sink.Shader?
  {
    match call
    case SetColor(c) => SetShaderColor(sink, c)
    case SetTexture(tag) => SetShaderTexture(sink, t, tag)
    case SetUVScale(u, v) => SetTextureUVScale(sink, u, v)
    case SetMaterial(tag) =>
      assert [call][0] == call;
      SetShaderMaterial(sink, ms, tag, scratch)
  }

  /** The sink after the calls, in order. */
  function ApplyAll(sink: Sink, t: TextureTable, ms: seq<Material>, scratch: Material, calls: seq<ShaderCall>): (r: Sink)
    requires Valid(t)
    requires Callable(sink, ms, calls)
    ensures r.Shader? <==> sink.Shader?
    decreases |calls|
  {
    if |calls| == 0 then sink
    else
      var last := calls[|calls| - 1];
      assert Callable(sink, ms, calls[..|calls| - 1]);
      var before := ApplyAll(sink, t, ms, scratch, calls[..|calls| - 1]);
      assert calls[|calls| - 1] == [last][0];
      Apply(before, t, ms, scratch, last)
  }

  /** The calls that write the texture flag. */
  predicate SetsFlag(call: ShaderCall)
  {
    call.SetColor? || call.SetTexture?
  }

  /** Position of the last colour or texture call, or -1 if there is none. */
  function LastFlagCall(calls: seq<ShaderCall>): (k: int)
    ensures -1 <= k < |calls|
    ensures k >= 0 ==> SetsFlag(calls[k])
    ensures forall j :: k < j < |calls| ==> !SetsFlag(calls[j])
    decreases |calls|
  {
    if |calls| == 0 then -1
    else if SetsFlag(calls[|calls| - 1]) then |calls| - 1
    else LastFlagCall(calls[..|calls| - 1])
  }

  /**
   * The texture flag a draw sees is decided by the last colour or texture
   * call before it: on after a texture call, off after a colour call, and
   * left as it was when neither kind of call was made.
   */
  lemma {:induction false} LastSetterWins(sink: Sink, t: TextureTable, ms: seq<Material>, scratch: Material, calls: seq<ShaderCall>)
    requires Valid(t) && sink.Shader?
    ensures var r := ApplyAll(sink, t, ms, scratch, calls);
      var k := LastFlagCall(calls);
      && r.Shader?
      && (k >= 0 ==> UseTextureName in r.uniforms &&
                     r.uniforms[UseTextureName] == (if calls[k].SetTexture? then FlagOn else FlagOff))
      && (k < 0 ==> (UseTextureName in r.uniforms <==> UseTextureName in sink.uniforms))
      && (k < 0 && UseTextureName in sink.uniforms ==> r.uniforms[UseTextureName] == sink.uniforms[UseTextureName])
    decreases |calls|
  {
    if |calls| > 0 {
      var front := calls[..|calls| - 1];
      var last := calls[|calls| - 1];
      LastSetterWins(sink, t, ms, scratch, front);
      var before := ApplyAll(sink, t, ms, scratch, front);
      var r := ApplyAll(sink, t, ms, scratch, calls);
      assert r == Apply(before, t, ms, scratch, last);
      if !SetsFlag(last) {
        assert LastFlagCall(calls) == LastFlagCall(front);
        assert UseTextureName !in MaterialNames;
        assert AgreeOutside(before.uniforms, r.uniforms, MaterialNames + {UVScaleName});
      }
    }
  }
}
