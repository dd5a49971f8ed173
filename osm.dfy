/**
 * The OSM entities the create-routerdb event filter rewrites: a tag is a
 * key/value pair, and an entity (`OsmGeo`) owns a tag collection that the
 * filter edits in place.
 */
module Osm {
  import opened Wrappers

  datatype Tag = Tag(key: string, value: string)

  datatype OsmGeoType = Node | Way | Relation

  /** An OSM node, way or relation; `tags` is its `TagsCollection`, kept as a list. */
  class OsmGeo {
    const kind: OsmGeoType
    var id: Option<int>
    var tags: seq<Tag>

    constructor (kind: OsmGeoType, id: Option<int>, tags: seq<Tag>)
      ensures this.kind == kind && this.id == id && this.tags == tags
    {
      this.kind := kind;
      this.id := id;
      this.tags := tags;
    }
  }

  /** `TagsCollection.RemoveKeyValue`: removes the first tag equal to `tag`, if any. */
  function RemoveKeyValue(tags: seq<Tag>, tag: Tag): (r: seq<Tag>)
    ensures tag !in tags ==> r == tags
    ensures tag in tags ==> |r| == |tags| - 1
  {
    if tags == [] then []
    else if tags[0] == tag then tags[1..]
    else [tags[0]] + RemoveKeyValue(tags[1..], tag)
  }

  /** Removing `tag` from a list where it first occurs after `front` cuts exactly that occurrence. */
  lemma {:induction false} RemoveFirstOccurrence(front: seq<Tag>, tag: Tag, back: seq<Tag>)
    requires tag !in front
    ensures RemoveKeyValue(front + [tag] + back, tag) == front + back
  {
    if front != [] {
      assert (front + [tag] + back)[1..] == front[1..] + [tag] + back;
      RemoveFirstOccurrence(front[1..], tag, back);
    }
  }
}
