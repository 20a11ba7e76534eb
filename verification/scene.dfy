/**
 * The fixed resource lists of the desk scene: the sixteen textures loaded
 * during preparation, the nine materials defined after them, and the tags the
 * per-frame draw list refers to.
 */
module Scene {
  import opened Lookup
  import opened Uniforms
  import opened Textures
  import opened Materials

  /** No tag occurs twice. */
  predicate Distinct(tags: seq<string>)
  {
    forall i, j :: 0 <= i < j < |tags| ==> tags[i] != tags[j]
  }

  /** The image files, in load order. */
  const SceneTextureFiles: seq<string> := [
    "textures/floor.png", "textures/metal.jpg", "textures/wood.jpg", "textures/wall.jpg",
    "textures/notepad.png", "textures/cover.jpg", "textures/cover2.jpg", "textures/notebookspine.png",
    "textures/pages.png", "textures/plastic.png", "textures/pencil.png", "textures/pencil2.png",
    "textures/penciltop.png", "textures/penciltop2.png", "textures/clay.jpg", "textures/claytop.png"]

  /** The tag each file is registered under, in the same order. */
  const SceneTextureTags: seq<string> := [
    "floor", "metal", "wood", "wall",
    "notepad", "cover", "cover2", "notebookspine",
    "pages", "plastic", "pencil", "pencil2",
    "penciltop", "penciltop2", "clay", "claytop"]

  /** The sixteen load calls, given the decoder's answer for each file and
      the id the GPU hands out for it. */
  function SceneRequests(images: seq<Image>, handles: seq<nat>): (reqs: seq<LoadRequest>)
    requires |images| == |SceneTextureTags| && |handles| == |SceneTextureTags|
    ensures |reqs| == |SceneTextureTags| == |SceneTextureFiles|
    ensures forall i :: 0 <= i < |reqs| ==>
      && reqs[i].file == SceneTextureFiles[i] && reqs[i].tag == SceneTextureTags[i]
      && reqs[i].image == images[i] && reqs[i].handle == handles[i]
  {
    seq(|SceneTextureTags|, i requires 0 <= i < |SceneTextureTags| =>
      LoadRequest(SceneTextureFiles[i], SceneTextureTags[i], images[i], handles[i]))
  }

  /**
   * Load the sixteen scene textures in order, ignoring each call's answer,
   * then bind every loaded slot to its texture unit. Each load writes the next
   * slot unchecked, so the table must have room for every load that succeeds.
   */
  method LoadSceneTextures(t: TextureTable, images: seq<Image>, handles: seq<nat>)
    returns (r: TextureTable, binds: seq<Binding>)
    requires Valid(t)
    requires |images| == |SceneTextureTags| && |handles| == |SceneTextureTags|
    requires t.count + |AcceptedTags(SceneRequests(images, handles))| <= Capacity
    ensures r == LoadAll(t, SceneRequests(images, handles))
    ensures r.count == t.count + |AcceptedTags(SceneRequests(images, handles))|
    ensures |binds| == r.count
    ensures forall i :: 0 <= i < |binds| ==> binds[i] == Binding(i, r.slots[i].id)
    ensures forall i :: 0 <= i < t.count ==> binds[i] == Binding(i, t.slots[i].id)
    ensures var accepted := AcceptedSlots(SceneRequests(images, handles));
      forall i :: 0 <= i < |accepted| ==> binds[t.count + i] == Binding(t.count + i, accepted[i].id)
  {
    var reqs := SceneRequests(images, handles);
    r := t;
    var i := 0;
    while i < |reqs|
      invariant 0 <= i <= |reqs|
      invariant Valid(r)
      invariant t.count + |AcceptedTags(reqs[..i])| <= Capacity
      invariant r == LoadAll(t, reqs[..i])
    {
      AcceptedTagsConcat(reqs[..i + 1], reqs[i + 1..]);
      assert reqs[..i + 1] + reqs[i + 1..] == reqs;
      LoadAllStep(t, reqs, i);
      var loaded := CreateGLTexture(r, reqs[i].tag, reqs[i].image, reqs[i].handle);
      r := loaded.table;
      i := i + 1;
    }
    assert reqs[..|reqs|] == reqs;
    LoadAllSlots(t, reqs);
    binds := BindGLTextures(r);
  }

  /** On a freshly constructed manager the sixteen loads always fit. */
  lemma SceneTexturesFitFreshTable(images: seq<Image>, handles: seq<nat>)
    requires |images| == |SceneTextureTags| && |handles| == |SceneTextureTags|
    ensures NewTable().count + |AcceptedTags(SceneRequests(images, handles))| <= Capacity
  {
    AcceptedTagsBound(SceneRequests(images, handles));
  }

  lemma SceneTextureTagsDistinct()
    ensures Distinct(SceneTextureTags)
  {
  }

  /**
   * After loading into a fresh manager, a scene tag whose image loaded
   * resolves to the slot counting the successful loads before it, and one
   * whose image failed is not found (no other file carries its tag).
   */
  lemma SceneTagResolves(images: seq<Image>, handles: seq<nat>, k: nat)
    requires |images| == |SceneTextureTags| && |handles| == |SceneTextureTags|
    requires k < |SceneTextureTags|
    ensures |AcceptedTags(SceneRequests(images, handles))| <= Capacity
    ensures var reqs := SceneRequests(images, handles);
      var slot := FindTextureSlot(LoadAll(NewTable(), reqs), SceneTextureTags[k]);
      && (Supported(images[k]) ==> slot == |AcceptedTags(reqs[..k])|)
      && (!Supported(images[k]) ==> slot == NotFound)
  {
    var reqs := SceneRequests(images, handles);
    SceneTexturesFitFreshTable(images, handles);
    SceneTextureTagsDistinct();
    if Supported(images[k]) {
      FirstSuccessfulLoadWins(reqs, k);
    } else {
      NeverLoadedIsMissing(reqs, SceneTextureTags[k]);
    }
  }

  /** The nine materials, in definition order. */
  function DefineObjectMaterials(): (ms: seq<Material>)
    ensures |ms| == 9
    ensures Distinct(Tags(ms))
  {
    [ Material("metal", Vec3(0.2, 0.2, 0.2), 0.3, Vec3(0.2, 0.2, 0.2), Vec3(0.5, 0.5, 0.5), 35.0),
      Material("wood", Vec3(0.1, 0.1, 0.1), 0.2, Vec3(0.3, 0.3, 0.3), Vec3(0.1, 0.1, 0.1), 100.0),
      Material("glass", Vec3(0.4, 0.4, 0.4), 0.3, Vec3(0.3, 0.3, 0.3), Vec3(0.6, 0.6, 0.6), 85.0),
      Material("cover", Vec3(0.1, 0.1, 0.1), 0.2, Vec3(0.5, 0.5, 0.5), Vec3(0.1, 0.1, 0.1), 0.3),
      Material("bread", Vec3(0.2, 0.2, 0.2), 0.3, Vec3(0.5, 0.5, 0.5), Vec3(0.3, 0.3, 0.3), 0.5),
      Material("darkbread", Vec3(0.2, 0.2, 0.2), 0.2, Vec3(0.1, 0.1, 0.1), Vec3(0.0, 0.0, 0.0), 0.0),
      Material("backdrop", Vec3(0.1, 0.1, 0.1), 0.6, Vec3(0.2, 0.2, 0.2), Vec3(0.95, 0.85, 0.8), 2.0),
      Material("grape", Vec3(0.1, 0.1, 0.1), 0.1, Vec3(0.2, 0.2, 0.2), Vec3(0.95, 0.85, 0.8), 0.5),
      Material("plastic", Vec3(0.1, 0.1, 0.1), 0.2, Vec3(0.95, 0.85, 0.8), Vec3(0.95, 0.85, 0.8), 0.3) ]
  }

  /** Texture tags the draw list passes to SetShaderTexture. */
  const RenderTextureTags: set<string> := {
    "wood", "wall", "floor", "notepad", "claytop", "clay", "plastic", "metal",
    "cover2", "pages", "cover", "notebookspine", "pencil", "penciltop", "pencil2", "penciltop2"}

  /** Material tags the draw list passes to SetShaderMaterial. */
  const RenderMaterialTags: set<string> := {"wood", "grape", "backdrop", "metal", "cover"}

  /**
   * Every tag the draw list uses is registered: each texture tag is one of
   * the sixteen loaded (so it resolves whenever its image decoded), and each
   * material tag is found by the lookup rather than falling back to the
   * uninitialised record.
   */
  lemma RenderTagsRegistered()
    ensures forall tag :: tag in RenderTextureTags ==> tag in SceneTextureTags
    ensures forall tag :: tag in RenderMaterialTags ==> tag in Tags(DefineObjectMaterials())
  {
    var tags := Tags(DefineObjectMaterials());
    assert tags == ["metal", "wood", "glass", "cover", "bread", "darkbread", "backdrop", "grape", "plastic"];
  }
}
