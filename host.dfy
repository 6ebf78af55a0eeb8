/**
 * The part of the host application's data the tracker reads and writes:
 * its global collections of images, text blocks and cache files.
 */
module Host {
  import opened Wrappers

  /** The class of a data-block as Python's `type()` reports it; only the first three can be tracked. */
  datatype IDType = ImageType | TextType | CacheFileType | OtherType(typeName: string)

  /**
   * A data-block owned by the host. The tracker only ever rewrites its path;
   * its name, class and packing flags are read, never written.
   */
  datatype ID = ID(
    idType: IDType,
    name: string,
    filepath: string,
    /** Images: `packed_file is not None`, the pixels are embedded in the project file. */
    hasPackedFile: bool,
    /** Text blocks: `is_in_memory`, the text only lives in the project file. */
    isInMemory: bool)

  /** No two data-blocks of a collection share a name. */
  ghost predicate UniqueNames(coll: seq<ID>) {
    forall i, j :: 0 <= i < j < |coll| ==> coll[i].name != coll[j].name
  }

  /** `bpy.data`: the three global collections, in the host's order. */
  datatype BlendData = BlendData(images: seq<ID>, texts: seq<ID>, cacheFiles: seq<ID>) {

    /** Each collection holds data-blocks of its own class only. */
    ghost predicate WellTyped() {
      && (forall k :: 0 <= k < |images| ==> images[k].idType == ImageType)
      && (forall k :: 0 <= k < |texts| ==> texts[k].idType == TextType)
      && (forall k :: 0 <= k < |cacheFiles| ==> cacheFiles[k].idType == CacheFileType)
    }

    /** What the host guarantees of its collections. */
    ghost predicate Valid() {
      WellTyped() && UniqueNames(images) && UniqueNames(texts) && UniqueNames(cacheFiles)
    }
  }

  /** The running host: `bpy.data` is state that the tracker's writes replace. */
  class Blender {
    var data: BlendData

    constructor (data: BlendData)
      ensures this.data == data
    {
      this.data := data;
    }
  }

  /**
   * The position `bpy.data.<collection>[name]` finds: the first data-block
   * called `name`, or none (a KeyError in the host).
   */
  function IndexOf(coll: seq<ID>, name: string): (r: Option<nat>)
    ensures r.Some? ==> r.value < |coll| && coll[r.value].name == name
    ensures r.Some? ==> forall j :: 0 <= j < r.value ==> coll[j].name != name
    ensures r.None? <==> forall j :: 0 <= j < |coll| ==> coll[j].name != name
    decreases |coll|
  {
    if |coll| == 0 then None
    else if coll[0].name == name then Some(0)
    else match IndexOf(coll[1..], name)
      case None => None
      case Some(k) => Some(k + 1)
  }

  /** With unique names, looking a data-block up by its own name finds that data-block. */
  lemma IndexOfOwnName(coll: seq<ID>, k: nat)
    requires UniqueNames(coll)
    requires k < |coll|
    ensures IndexOf(coll, coll[k].name) == Some(k)
  {
  }

  /** Two collections whose data-blocks have the same names, in the same order, answer every lookup alike. */
  lemma IndexOfSameNames(c: seq<ID>, d: seq<ID>, name: string)
    requires |c| == |d|
    requires forall k :: 0 <= k < |c| ==> c[k].name == d[k].name
    ensures IndexOf(c, name) == IndexOf(d, name)
  {
  }
}
