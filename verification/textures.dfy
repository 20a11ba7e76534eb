/**
 * The scene manager's texture table.
 *
 * Sixteen slots, each a (tag, GPU texture id) pair, and a loaded-count.
 * Textures are registered append-only at index `count`; a tag is resolved by a
 * front-to-back scan of the loaded slots, so the first registration of a tag
 * shadows every later one. The image decoder and the GPU are not modelled:
 * the decoder's answer and the handle the GPU hands out are inputs.
 */
module Textures {
  import opened Lookup

  /** Number of slots, which is also the number of texture units bound. */
  const Capacity: nat := 16
  /** Tag and id every slot holds until a texture is registered there. */
  const UnsetTag: string := "/0"
  const UnsetId: int := -1
  const UnsetSlot: Slot := Slot(UnsetTag, UnsetId)

  datatype Slot = Slot(tag: string, id: int)

  datatype TextureTable = TextureTable(slots: seq<Slot>, count: nat)

  /** Sixteen slots with the loaded-count inside them. */
  predicate Valid(t: TextureTable)
  {
    |t.slots| == Capacity && t.count <= Capacity
  }

  /** Beyond shape: loaded slots hold GPU handles, the rest are still unset. */
  predicate WellFormed(t: TextureTable)
  {
    && Valid(t)
    && (forall i :: 0 <= i < t.count ==> t.slots[i].id >= 0)
    && (forall i :: t.count <= i < Capacity ==> t.slots[i] == UnsetSlot)
  }

  /** The tags of the loaded slots, in registration order. */
  function LoadedTags(t: TextureTable): (tags: seq<string>)
    requires Valid(t)
    ensures |tags| == t.count
    ensures forall i :: 0 <= i < t.count ==> tags[i] == t.slots[i].tag
  {
    seq(t.count, i requires 0 <= i < t.count => t.slots[i].tag)
  }

  /** The state the constructor leaves: nothing loaded, every slot unset. */
  function NewTable(): (t: TextureTable)
    ensures WellFormed(t)
    ensures t.count == 0 && LoadedTags(t) == []
    ensures forall i :: 0 <= i < Capacity ==> t.slots[i] == Slot("/0", -1)
  {
    TextureTable(seq(Capacity, _ => UnsetSlot), 0)
  }

  /** What the image decoder reports for a file. The width and height only
      size the upload; the channel count alone decides acceptance. */
  datatype Image = DecodeFailed | Decoded(width: int, height: int, channels: int)

  /** Only three-channel (RGB) and four-channel (RGBA) images are uploaded. */
  predicate Supported(img: Image)
  {
    img.Decoded? && (img.channels == 3 || img.channels == 4)
  }

  /** The table after a load attempt and the attempt's boolean answer. */
  datatype Loaded = Loaded(table: TextureTable, ok: bool)

  /**
   * Register the texture decoded as `img` under `tag`, with the GPU id
   * `handle`. The slot written is `count` and nothing checks it against the
   * capacity, so a successful load needs a free slot: that is the caller's
   * obligation, stated here as the precondition.
   */
  function CreateGLTexture(t: TextureTable, tag: string, img: Image, handle: nat): (r: Loaded)
    requires Valid(t)
    requires Supported(img) ==> t.count < Capacity
    ensures Valid(r.table)
    ensures r.ok <==> Supported(img)
    ensures r.ok ==> r.table.count == t.count + 1 && r.table.slots[t.count] == Slot(tag, handle)
    ensures r.ok ==> forall i :: 0 <= i < Capacity && i != t.count ==> r.table.slots[i] == t.slots[i]
    ensures !r.ok ==> r.table == t
    ensures LoadedTags(r.table) == LoadedTags(t) + (if r.ok then [tag] else [])
    ensures WellFormed(t) ==> WellFormed(r.table)
  {
    if img.Decoded? then
      if img.channels == 3 || img.channels == 4 then
        var t' := TextureTable(t.slots[t.count := Slot(tag, handle)], t.count + 1);
        assert LoadedTags(t') == LoadedTags(t) + [tag];
        Loaded(t', true)
      else
        Loaded(t, false)
    else
      Loaded(t, false)
  }

  /** Slot index of the first loaded texture tagged `tag`, or -1. */
  function FindTextureSlot(t: TextureTable, tag: string): (r: int)
    requires Valid(t)
    ensures r == NotFound <==> forall i :: 0 <= i < t.count ==> t.slots[i].tag != tag
    ensures r != NotFound ==> 0 <= r < t.count && t.slots[r].tag == tag
    ensures r != NotFound ==> forall i :: 0 <= i < r ==> t.slots[i].tag != tag
  {
    var tags := LoadedTags(t);
    var r := FirstIndex(tags, tag);
    assert r != NotFound ==> forall i :: 0 <= i < r ==> tags[..r][i] == t.slots[i].tag;
    assert r == NotFound ==> forall i :: 0 <= i < t.count ==> tags[i] == t.slots[i].tag;
    r
  }

  /** GPU id of the first loaded texture tagged `tag`, or -1: the scan of
      the source, which it runs independently of the slot lookup. */
  method FindTextureID(t: TextureTable, tag: string) returns (id: int)
    requires Valid(t)
    ensures var slot := FindTextureSlot(t, tag);
      id == if slot == NotFound then NotFound else t.slots[slot].id
    ensures WellFormed(t) ==> (id == NotFound <==> tag !in LoadedTags(t))
  {
    id := NotFound;
    var index := 0;
    var found := false;
    while index < t.count && !found
      invariant 0 <= index <= t.count
      invariant forall j :: 0 <= j < index ==> t.slots[j].tag != tag
      invariant found ==> index < t.count && t.slots[index].tag == tag && id == t.slots[index].id
      invariant !found ==> id == NotFound
      decreases t.count - index, if found then 0 else 1
    {
      if t.slots[index].tag == tag {
        id := t.slots[index].id;
        found := true;
      } else {
        index := index + 1;
      }
    }
  }

  /** A texture-unit binding: unit `unit` gets GPU texture `id`. */
  datatype Binding = Binding(unit: nat, id: int)

  /** The bindings issued, in order, for the loaded slots. */
  method BindGLTextures(t: TextureTable) returns (binds: seq<Binding>)
    requires Valid(t)
    ensures |binds| == t.count
    ensures forall i :: 0 <= i < |binds| ==> binds[i] == Binding(i, t.slots[i].id)
  {
    binds := [];
    var i := 0;
    while i < t.count
      invariant 0 <= i <= t.count
      invariant |binds| == i
      invariant forall j :: 0 <= j < i ==> binds[j] == Binding(j, t.slots[j].id)
    {
      binds := binds + [Binding(i, t.slots[i].id)];
      i := i + 1;
    }
  }

  /** One CreateGLTexture call: the image file, the tag it is registered
      under, the decoder's answer for the file and the GPU id handed out. */
  datatype LoadRequest = LoadRequest(file: string, tag: string, image: Image, handle: nat)

  /** Tags of the requests that succeed, in call order. */
  function AcceptedTags(reqs: seq<LoadRequest>): seq<string>
  {
    if |reqs| == 0 then []
    else
      var last := reqs[|reqs| - 1];
      AcceptedTags(reqs[..|reqs| - 1]) + (if Supported(last.image) then [last.tag] else [])
  }

  /** The slots the requests that succeed would fill, in call order: each
      one's tag with the GPU id handed out for it. */
  function AcceptedSlots(reqs: seq<LoadRequest>): (slots: seq<Slot>)
    ensures |slots| == |AcceptedTags(reqs)|
    ensures forall i :: 0 <= i < |slots| ==> slots[i].tag == AcceptedTags(reqs)[i]
    decreases |reqs|
  {
    if |reqs| == 0 then []
    else
      var last := reqs[|reqs| - 1];
      AcceptedSlots(reqs[..|reqs| - 1]) + (if Supported(last.image) then [Slot(last.tag, last.handle)] else [])
  }

  /** The table after issuing `reqs` in order. */
  function LoadAll(t: TextureTable, reqs: seq<LoadRequest>): (r: TextureTable)
    requires Valid(t) && t.count + |AcceptedTags(reqs)| <= Capacity
    ensures Valid(r) && r.count == t.count + |AcceptedTags(reqs)|
    ensures LoadedTags(r) == LoadedTags(t) + AcceptedTags(reqs)
    ensures WellFormed(t) ==> WellFormed(r)
    decreases |reqs|
  {
    if |reqs| == 0 then t
    else
      var last := reqs[|reqs| - 1];
      var before := LoadAll(t, reqs[..|reqs| - 1]);
      CreateGLTexture(before, last.tag, last.image, last.handle).table
  }

  /** Issuing one more request is one more CreateGLTexture call. */
  lemma LoadAllStep(t: TextureTable, reqs: seq<LoadRequest>, i: nat)
    requires Valid(t) && i < |reqs| && t.count + |AcceptedTags(reqs[..i + 1])| <= Capacity
    ensures t.count + |AcceptedTags(reqs[..i])| <= Capacity
    ensures Supported(reqs[i].image) ==> LoadAll(t, reqs[..i]).count < Capacity
    ensures LoadAll(t, reqs[..i + 1]) ==
      CreateGLTexture(LoadAll(t, reqs[..i]), reqs[i].tag, reqs[i].image, reqs[i].handle).table
  {
    assert reqs[..i + 1][..i] == reqs[..i];
  }

  /** The slots after a run of loads: the slots already loaded keep their
      contents, the accepted requests fill the next slots in call order with
      their tag and GPU id, and the slots past the new count are untouched. */
  lemma {:induction false} LoadAllSlots(t: TextureTable, reqs: seq<LoadRequest>)
    requires Valid(t) && t.count + |AcceptedTags(reqs)| <= Capacity
    ensures var r := LoadAll(t, reqs);
      && (forall i :: 0 <= i < t.count ==> r.slots[i] == t.slots[i])
      && (forall i :: 0 <= i < |AcceptedSlots(reqs)| ==> r.slots[t.count + i] == AcceptedSlots(reqs)[i])
      && (forall i :: r.count <= i < Capacity ==> r.slots[i] == t.slots[i])
    decreases |reqs|
  {
    if |reqs| > 0 {
      var front := reqs[..|reqs| - 1];
      var last := reqs[|reqs| - 1];
      assert AcceptedTags(reqs) == AcceptedTags(front) + (if Supported(last.image) then [last.tag] else []);
      assert AcceptedSlots(reqs) == AcceptedSlots(front) + (if Supported(last.image) then [Slot(last.tag, last.handle)] else []);
      LoadAllSlots(t, front);
    }
  }

  lemma {:induction false} AcceptedTagsConcat(a: seq<LoadRequest>, b: seq<LoadRequest>)
    ensures AcceptedTags(a + b) == AcceptedTags(a) + AcceptedTags(b)
    decreases |b|
  {
    if |b| == 0 {
      assert a + b == a;
    } else {
      var b' := b[..|b| - 1];
      assert (a + b)[..|a + b| - 1] == a + b';
      AcceptedTagsConcat(a, b');
    }
  }

  lemma {:induction false} AcceptedTagsMembership(reqs: seq<LoadRequest>, tag: string)
    ensures tag in AcceptedTags(reqs) <==>
      exists j :: 0 <= j < |reqs| && Supported(reqs[j].image) && reqs[j].tag == tag
    decreases |reqs|
  {
    if |reqs| > 0 {
      var front := reqs[..|reqs| - 1];
      AcceptedTagsMembership(front, tag);
      if exists j :: 0 <= j < |front| && Supported(front[j].image) && front[j].tag == tag {
        var j :| 0 <= j < |front| && Supported(front[j].image) && front[j].tag == tag;
        assert reqs[j] == front[j];
      }
      if exists j :: 0 <= j < |reqs| && Supported(reqs[j].image) && reqs[j].tag == tag {
        var j :| 0 <= j < |reqs| && Supported(reqs[j].image) && reqs[j].tag == tag;
        if j < |front| {
          assert front[j] == reqs[j];
        }
      }
    }
  }

  /** At most one slot is taken per request. */
  lemma {:induction false} AcceptedTagsBound(reqs: seq<LoadRequest>)
    ensures |AcceptedTags(reqs)| <= |reqs|
    decreases |reqs|
  {
    if |reqs| > 0 {
      AcceptedTagsBound(reqs[..|reqs| - 1]);
    }
  }

  /** A single load keeps every earlier match where it was; a tag seen for
      the first time, if the load succeeds, is found in the slot just written. */
  lemma LoadKeepsEarlierMatches(t: TextureTable, tag: string, img: Image, handle: nat, query: string)
    requires Valid(t)
    requires Supported(img) ==> t.count < Capacity
    ensures var r := CreateGLTexture(t, tag, img, handle);
      FindTextureSlot(r.table, query) ==
        if FindTextureSlot(t, query) != NotFound then FindTextureSlot(t, query)
        else if r.ok && query == tag then t.count
        else NotFound
  {
    if Supported(img) {
      FirstIndexAppend(LoadedTags(t), tag, query);
    }
  }

  /** Splitting the requests at a successful one splits the accepted tags. */
  lemma AcceptedTagsSplit(reqs: seq<LoadRequest>, k: nat)
    requires k < |reqs| && Supported(reqs[k].image)
    ensures AcceptedTags(reqs) == AcceptedTags(reqs[..k]) + ([reqs[k].tag] + AcceptedTags(reqs[k + 1..]))
  {
    var front := reqs[..k];
    var one := [reqs[k]];
    var rest := reqs[k + 1..];
    assert reqs == front + (one + rest);
    AcceptedTagsSingle(reqs[k]);
    AcceptedTagsConcat(one, rest);
    AcceptedTagsConcat(front, one + rest);
  }

  lemma AcceptedTagsSingle(req: LoadRequest)
    requires Supported(req.image)
    ensures AcceptedTags([req]) == [req.tag]
  {
    assert [req][..0] == [];
  }

  /** After any sequence of loads from a fresh table, a tag resolves to the
      slot of its first successful load: the number of successes before it. */
  lemma FirstSuccessfulLoadWins(reqs: seq<LoadRequest>, k: nat)
    requires |AcceptedTags(reqs)| <= Capacity
    requires k < |reqs| && Supported(reqs[k].image)
    requires forall j :: 0 <= j < k && Supported(reqs[j].image) ==> reqs[j].tag != reqs[k].tag
    ensures FindTextureSlot(LoadAll(NewTable(), reqs), reqs[k].tag) == |AcceptedTags(reqs[..k])|
  {
    var tag := reqs[k].tag;
    var front := AcceptedTags(reqs[..k]);
    var back := [tag] + AcceptedTags(reqs[k + 1..]);
    AcceptedTagsSplit(reqs, k);
    AcceptedTagsMembership(reqs[..k], tag);
    FirstIndexConcat(front, back, tag);
    assert FirstIndex(back, tag) == 0;
    assert LoadedTags(LoadAll(NewTable(), reqs)) == front + back;
  }

  /** A tag no request loaded successfully is not found. */
  lemma NeverLoadedIsMissing(reqs: seq<LoadRequest>, tag: string)
    requires |AcceptedTags(reqs)| <= Capacity
    requires forall j :: 0 <= j < |reqs| && Supported(reqs[j].image) ==> reqs[j].tag != tag
    ensures FindTextureSlot(LoadAll(NewTable(), reqs), tag) == NotFound
  {
    AcceptedTagsMembership(reqs, tag);
  }
}
