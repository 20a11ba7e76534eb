/**
 * The scene manager's material list.
 *
 * Materials are appended once during scene preparation and resolved by a
 * front-to-back scan, first match wins. The lookup fills a caller-owned record
 * (passed by reference in the source, here passed in and returned) and answers
 * a boolean that reports whether the list is non-empty, not whether the tag
 * was found.
 */
module Materials {
  import opened Lookup
  import opened Uniforms

  datatype Material = Material(
    tag: string,
    ambientColor: Vec3,
    ambientStrength: real,
    diffuseColor: Vec3,
    specularColor: Vec3,
    shininess: real)

  /** The tags of the list, in definition order. */
  function Tags(ms: seq<Material>): (tags: seq<string>)
    ensures |tags| == |ms|
    ensures forall i :: 0 <= i < |ms| ==> tags[i] == ms[i].tag
  {
    seq(|ms|, i requires 0 <= i < |ms| => ms[i].tag)
  }

  /** The five shading fields of `a` and `b` agree; tags may differ. */
  predicate SameShading(a: Material, b: Material)
  {
    && a.ambientColor == b.ambientColor
    && a.ambientStrength == b.ambientStrength
    && a.diffuseColor == b.diffuseColor
    && a.specularColor == b.specularColor
    && a.shininess == b.shininess
  }

  /** The record `into` after the lookup copied the fields of `from` into it:
      every shading field is taken over, the tag is left alone. */
  function CopyShading(into: Material, from: Material): (r: Material)
    ensures r.tag == into.tag
    ensures SameShading(r, from)
  {
    into.(ambientColor := from.ambientColor,
          ambientStrength := from.ambientStrength,
          diffuseColor := from.diffuseColor,
          specularColor := from.specularColor,
          shininess := from.shininess)
  }

  /** The boolean FindMaterial answers and the caller's record afterwards. */
  datatype MaterialLookup = MaterialLookup(found: bool, material: Material)

  /**
   * Look `tag` up in `ms`, filling the caller's record `out`. The answer is
   * false only for an empty list; on a non-empty list it is true even when no
   * entry carries the tag, and then `out` is handed back untouched.
   */
  function FindMaterial(ms: seq<Material>, tag: string, out: Material): (r: MaterialLookup)
    ensures r.found <==> |ms| > 0
    ensures forall k :: 0 <= k < |ms| && ms[k].tag == tag && tag !in Tags(ms)[..k] ==>
      r.material == CopyShading(out, ms[k])
    ensures (forall i :: 0 <= i < |ms| ==> ms[i].tag != tag) ==> r.material == out
  {
    if |ms| == 0 then
      MaterialLookup(false, out)
    else
      var k := FirstIndex(Tags(ms), tag);
      if k == NotFound then MaterialLookup(true, out)
      else MaterialLookup(true, CopyShading(out, ms[k]))
  }

  /** Defining a material whose tag is already in the list adds an entry the
      lookup can never reach: every answer stays what it was. */
  lemma RedefinitionUnreachable(ms: seq<Material>, m: Material, tag: string, out: Material)
    requires tag in Tags(ms)
    ensures FindMaterial(ms + [m], tag, out) == FindMaterial(ms, tag, out)
  {
    assert Tags(ms + [m]) == Tags(ms) + [m.tag];
    FirstIndexAppend(Tags(ms), m.tag, tag);
  }

  /** Appending a material with a tag not yet defined makes the lookup of
      that tag copy the new material's fields. */
  lemma DefinitionReachable(ms: seq<Material>, m: Material, out: Material)
    requires m.tag !in Tags(ms)
    ensures FindMaterial(ms + [m], m.tag, out) == MaterialLookup(true, CopyShading(out, m))
  {
    assert Tags(ms + [m]) == Tags(ms) + [m.tag];
    FirstIndexAppend(Tags(ms), m.tag, m.tag);
  }
}
