/**
 * First-match lookup over an insertion-ordered list of tags.
 *
 * Both the texture table and the material list of the scene manager resolve a
 * tag by scanning from the front and stopping at the first entry whose tag is
 * equal; a miss is reported with the sentinel -1. This module defines that scan
 * once, together with the facts about appending that both tables rely on.
 */
module Lookup {

  /** The sentinel a scan returns when no entry carries the tag. */
  const NotFound: int := -1

  /** True if `tag` occurs nowhere in `tags[from..]`. */
  predicate AbsentFrom(tags: seq<string>, tag: string, from: nat)
    requires from <= |tags|
  {
    forall j :: from <= j < |tags| ==> tags[j] != tag
  }

  /** The scan of the source's while loops, started at index `from`. */
  function FirstIndexFrom(tags: seq<string>, tag: string, from: nat): (r: int)
    requires from <= |tags|
    ensures r == NotFound <==> AbsentFrom(tags, tag, from)
    ensures r != NotFound ==> from <= r < |tags| && tags[r] == tag
    ensures r != NotFound ==> forall j :: from <= j < r ==> tags[j] != tag
    decreases |tags| - from
  {
    if from == |tags| then NotFound
    else if tags[from] == tag then from
    else FirstIndexFrom(tags, tag, from + 1)
  }

  /** Index of the first entry equal to `tag`, or NotFound. */
  function FirstIndex(tags: seq<string>, tag: string): (r: int)
    ensures r == NotFound <==> tag !in tags
    ensures r != NotFound ==> 0 <= r < |tags| && tags[r] == tag
    ensures r != NotFound ==> tag !in tags[..r]
  {
    FirstIndexFrom(tags, tag, 0)
  }

  /** Appending an entry never changes where an existing tag is found, and a
      tag seen for the first time is found at the appended position. */
  lemma FirstIndexAppend(tags: seq<string>, extra: string, tag: string)
    ensures FirstIndex(tags + [extra], tag) ==
      if tag in tags then FirstIndex(tags, tag)
      else if tag == extra then |tags|
      else NotFound
  {
    var both := tags + [extra];
    if tag in tags {
      var k := FirstIndex(tags, tag);
      assert both[k] == tag;
      assert both[..k] == tags[..k];
    } else if tag == extra {
      assert both[|tags|] == tag;
      assert both[..|tags|] == tags;
    }
  }

  /** Several appends: the first position over the whole list, for a tag
      absent from a prefix, is the prefix length plus its position in the rest. */
  lemma FirstIndexConcat(front: seq<string>, back: seq<string>, tag: string)
    requires tag !in front
    ensures FirstIndex(front + back, tag) ==
      if tag in back then |front| + FirstIndex(back, tag) else NotFound
  {
    var both := front + back;
    if tag in back {
      var k := FirstIndex(back, tag);
      assert both[|front| + k] == tag;
      assert both[..|front| + k] == front + back[..k];
    }
  }
}
