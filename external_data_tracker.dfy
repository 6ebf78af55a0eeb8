/**
 * The tracker's bookkeeping: records that point at host data-blocks by
 * kind and name, the list of them rebuilt from the host's collections,
 * bulk selection, bulk redirection of paths, the icons a list row shows
 * and the dialog operator that drives it all.
 */
module ExternalDataTracker {
  import opened Wrappers
  import opened Paths
  import opened Host

  /** The tag a record keeps in `data_block_type` ("IMAGE", "TEXT" or "CACHE"). */
  datatype BlockType = Image | Text | Cache

  /** The exceptions the tracker's code can raise. */
  datatype Error =
    | WrongDataBlockType(idType: IDType)  // `link` given a data-block it cannot track
    | KeyNotFound(name: string)           // `bpy.data.<collection>[name]` found no such name

  /** What a record points at: its tag and the name held in the field for that tag. */
  datatype DataBlockRef = DataBlockRef(blockType: BlockType, name: string)

  /** The tag `link` stores for a data-block of class `t`, or the exception it raises. */
  function BlockTypeOf(t: IDType): (r: Result<BlockType, Error>)
    ensures r == Success(Image) <==> t == ImageType
    ensures r == Success(Text) <==> t == TextType
    ensures r == Success(Cache) <==> t == CacheFileType
    ensures r.Failure? <==> r == Failure(WrongDataBlockType(t))
  {
    match t
    case ImageType => Success(Image)
    case CacheFileType => Success(Cache)
    case TextType => Success(Text)
    case OtherType(_) => Failure(WrongDataBlockType(t))
  }

  /** The host collection a tag refers to. */
  function Collection(b: BlockType, data: BlendData): (r: seq<ID>)
    ensures data.WellTyped() ==> forall k :: 0 <= k < |r| ==> BlockTypeOf(r[k].idType) == Success(b)
  {
    match b
    case Image => data.images
    case Text => data.texts
    case Cache => data.cacheFiles
  }

  /**
   * `bpy.data.<collection>[name]` for what a record points at: the position
   * of the data-block in the collection of its kind, or a KeyError when no
   * data-block there has that name.
   */
  function Resolve(t: DataBlockRef, data: BlendData): (r: Result<nat, Error>)
    ensures r.Success? ==> r.value < |Collection(t.blockType, data)| && Collection(t.blockType, data)[r.value].name == t.name
    ensures r.Failure? <==> forall k :: 0 <= k < |Collection(t.blockType, data)| ==> Collection(t.blockType, data)[k].name != t.name
    ensures r.Failure? ==> r.error == KeyNotFound(t.name)
  {
    match IndexOf(Collection(t.blockType, data), t.name)
    case Some(k) => Success(k)
    case None => Failure(KeyNotFound(t.name))
  }

  /** Every data-block of a valid host is trackable, and looking it up by its tag and name finds it again. */
  lemma LinkThenResolve(data: BlendData, b: BlockType, k: nat)
    requires data.Valid()
    requires k < |Collection(b, data)|
    ensures BlockTypeOf(Collection(b, data)[k].idType) == Success(b)
    ensures Resolve(DataBlockRef(b, Collection(b, data)[k].name), data) == Success(k)
  {
    IndexOfOwnName(Collection(b, data), k);
  }

  /** The two collections hold data-blocks of the same names, in the same order. */
  predicate SameNamesIn(c: seq<ID>, d: seq<ID>) {
    |c| == |d| && forall k :: 0 <= k < |c| ==> c[k].name == d[k].name
  }

  /** The two hosts hold the same data-blocks by name, whatever their paths. */
  predicate SameNames(d: BlendData, e: BlendData) {
    SameNamesIn(d.images, e.images) && SameNamesIn(d.texts, e.texts) && SameNamesIn(d.cacheFiles, e.cacheFiles)
  }

  /** Rewriting paths never changes what a record resolves to. */
  lemma ResolveSameNames(t: DataBlockRef, d: BlendData, e: BlendData)
    requires SameNames(d, e)
    ensures Resolve(t, d) == Resolve(t, e)
  {
    assert SameNamesIn(Collection(t.blockType, d), Collection(t.blockType, e));
    IndexOfSameNames(Collection(t.blockType, d), Collection(t.blockType, e), t.name);
  }

  /** The path `set_directory_path` gives a data-block: its file name moved into `dir`. */
  function Relocate(filepath: string, dir: string): (r: string)
    ensures dir <= r
  {
    var name := Basename(filepath);
    assert !(|name| > 0 && name[0] == '/');
    Join(dir, name)
  }

  /** Redirecting keeps the file name and puts the file under `dir`. */
  lemma RelocateKeepsBasename(filepath: string, dir: string)
    ensures Basename(Relocate(filepath, dir)) == Basename(filepath)
  {
    BasenameOfJoin(dir, Basename(filepath));
  }

  /** Redirecting into the same directory twice is the same as doing it once. */
  lemma RelocateIdempotent(filepath: string, dir: string)
    ensures Relocate(Relocate(filepath, dir), dir) == Relocate(filepath, dir)
  {
    RelocateKeepsBasename(filepath, dir);
  }

  /**
   * Where `os.path.join(dir, os.path.basename(p))` puts a file for each shape
   * of `dir`: the bare file name for an empty directory (the default of the
   * operator's directory property), no extra separator after a trailing '/'.
   */
  lemma RelocateCases(p: string, dir: string)
    ensures Relocate(p, dir) ==
      if dir == "" then Basename(p)
      else if dir[|dir| - 1] == '/' then dir + Basename(p)
      else dir + "/" + Basename(p)
  {
  }

  /** A file `name` under any directory lands directly under `dir`, separated by one '/'. */
  lemma RelocateInto(prefix: string, name: string, dir: string)
    requires '/' !in name
    requires dir != [] && dir[|dir| - 1] != '/'
    ensures Relocate(prefix + "/" + name, dir) == dir + "/" + name
  {
    var p := prefix + "/" + name;
    assert name == p[|p| - |name|..];
    BasenameOfSuffix(p, name);
  }

  /** The host after the data-block at position `k` of collection `b` is given the path `p`. */
  function WithPath(data: BlendData, b: BlockType, k: nat, p: string): (r: BlendData)
    requires k < |Collection(b, data)|
    ensures |r.images| == |data.images| && |r.texts| == |data.texts| && |r.cacheFiles| == |data.cacheFiles|
  {
    match b
    case Image => data.(images := data.images[k := data.images[k].(filepath := p)])
    case Text => data.(texts := data.texts[k := data.texts[k].(filepath := p)])
    case Cache => data.(cacheFiles := data.cacheFiles[k := data.cacheFiles[k].(filepath := p)])
  }

  /**
   * The host `set_directory_path(dir)` leaves behind for a record pointing
   * at `t`: the data-block found moved into `dir`, or the host untouched when
   * the lookup raises.
   */
  function Redirect(data: BlendData, t: DataBlockRef, dir: string): (r: BlendData)
    ensures Resolve(t, data).Failure? ==> r == data
    ensures |r.images| == |data.images| && |r.texts| == |data.texts| && |r.cacheFiles| == |data.cacheFiles|
  {
    match Resolve(t, data)
    case Success(k) => WithPath(data, t.blockType, k, Relocate(Collection(t.blockType, data)[k].filepath, dir))
    case Failure(_) => data
  }

  /**
   * `set_directory_path` writes one path: the data-block `t` resolves to gets
   * its file name moved into `dir`, and every other data-block, every name
   * and every flag stays as it was.
   */
  lemma RedirectAt(data: BlendData, t: DataBlockRef, dir: string, b: BlockType, k: nat)
    requires k < |Collection(b, data)|
    ensures |Collection(b, Redirect(data, t, dir))| == |Collection(b, data)|
    ensures Collection(b, Redirect(data, t, dir))[k] ==
      Collection(b, data)[k].(filepath :=
        if b == t.blockType && Resolve(t, data) == Success(k) then Relocate(Collection(b, data)[k].filepath, dir)
        else Collection(b, data)[k].filepath)
  {
    match Resolve(t, data)
    case Failure(_) =>
    case Success(j) =>
      WithPathAt(data, t.blockType, j, Relocate(Collection(t.blockType, data)[j].filepath, dir), b, k);
  }

  /** Writing one path changes that one data-block's path and nothing else. */
  lemma WithPathAt(data: BlendData, c: BlockType, j: nat, p: string, b: BlockType, k: nat)
    requires j < |Collection(c, data)|
    requires k < |Collection(b, data)|
    ensures |Collection(b, WithPath(data, c, j, p))| == |Collection(b, data)|
    ensures Collection(b, WithPath(data, c, j, p))[k] ==
      Collection(b, data)[k].(filepath := if b == c && j == k then p else Collection(b, data)[k].filepath)
  {
    match c
    case Image =>
    case Text =>
    case Cache =>
  }

  /** `set_directory_path` never renames or reorders data-blocks. */
  lemma RedirectSameNames(data: BlendData, t: DataBlockRef, dir: string)
    ensures SameNames(data, Redirect(data, t, dir))
  {
    match Resolve(t, data)
    case Failure(_) =>
    case Success(k) =>
      var p := Relocate(Collection(t.blockType, data)[k].filepath, dir);
      assert Redirect(data, t, dir) == WithPath(data, t.blockType, k, p);
      WithPathSameNames(data, t.blockType, k, p);
  }

  /** Giving a data-block a new path keeps every name in place. */
  lemma WithPathSameNames(data: BlendData, b: BlockType, k: nat, p: string)
    requires k < |Collection(b, data)|
    ensures SameNames(data, WithPath(data, b, k, p))
  {
    match b
    case Image => assert SameNamesIn(data.images, data.images[k := data.images[k].(filepath := p)]);
    case Text => assert SameNamesIn(data.texts, data.texts[k := data.texts[k].(filepath := p)]);
    case Cache => assert SameNamesIn(data.cacheFiles, data.cacheFiles[k := data.cacheFiles[k].(filepath := p)]);
  }

  /** Giving a data-block the path it already has leaves the host as it was. */
  lemma WithOwnPath(data: BlendData, b: BlockType, k: nat)
    requires k < |Collection(b, data)|
    ensures WithPath(data, b, k, Collection(b, data)[k].filepath) == data
  {
    match b
    case Image => assert data.images[k := data.images[k]] == data.images;
    case Text => assert data.texts[k := data.texts[k]] == data.texts;
    case Cache => assert data.cacheFiles[k := data.cacheFiles[k]] == data.cacheFiles;
  }

  /** `set_directory_path` is idempotent: calling it twice with the same directory leaves the host as calling it once. */
  lemma RedirectIdempotent(data: BlendData, t: DataBlockRef, dir: string)
    ensures Redirect(Redirect(data, t, dir), t, dir) == Redirect(data, t, dir)
  {
    var once := Redirect(data, t, dir);
    RedirectSameNames(data, t, dir);
    ResolveSameNames(t, data, once);
    match Resolve(t, data)
    case Failure(_) =>
    case Success(k) =>
      var b := t.blockType;
      var p := Relocate(Collection(b, data)[k].filepath, dir);
      RedirectAt(data, t, dir, b, k);
      assert Collection(b, once)[k].filepath == p;
      RelocateIdempotent(Collection(b, data)[k].filepath, dir);
      assert Redirect(once, t, dir) == WithPath(once, b, k, p);
      WithOwnPath(once, b, k);
  }

  /** Whether the host keeps a data-block's contents inside the project file, by its class. */
  predicate PackedFlag(x: ID) {
    match x.idType
    case ImageType => x.hasPackedFile
    case TextType => x.isInMemory
    case _ => false
  }

  /**
   * `ExternalData`: one record of the list, pointing at a host data-block
   * by a tag and the name field that tag selects.
   */
  datatype ExternalData = ExternalData(
    selected: bool,
    dataBlockImage: string,
    dataBlockCache: string,
    dataBlockText: string,
    dataBlockType: BlockType)
  {
    /** The name field that belongs to tag `b`. */
    function NameFor(b: BlockType): string {
      match b
      case Image => dataBlockImage
      case Cache => dataBlockCache
      case Text => dataBlockText
    }

    /** `get_type()`. */
    function GetType(): (r: BlockType)
      ensures forall data: BlendData {:trigger DataBlock(data)} ::
        DataBlock(data).Success? ==> DataBlock(data).value in Collection(r, data)
    {
      dataBlockType
    }

    /** The tag and the name field it selects. */
    function Ref(): DataBlockRef {
      DataBlockRef(dataBlockType, NameFor(dataBlockType))
    }

    /** `data_block()`: the data-block pointed at, or the KeyError of its lookup. */
    function DataBlock(data: BlendData): (r: Result<ID, Error>)
      ensures r.Success? <==> Resolve(Ref(), data).Success?
      ensures r.Success? ==> r.value == Collection(dataBlockType, data)[Resolve(Ref(), data).value]
      ensures r.Failure? ==> r.error == KeyNotFound(Ref().name)
    {
      match Resolve(Ref(), data)
      case Success(k) => Success(Collection(dataBlockType, data)[k])
      case Failure(e) => Failure(e)
    }

    /** The state a record has right after the list's `add()` and a successful `link` to `t`. */
    predicate IsFreshLink(t: DataBlockRef) {
      && !selected
      && dataBlockType == t.blockType
      && dataBlockImage == (if t.blockType == Image then t.name else "")
      && dataBlockText == (if t.blockType == Text then t.name else "")
      && dataBlockCache == (if t.blockType == Cache then t.name else "")
    }

    /**
     * `link(data_block)`: the record with the tag for the data-block's class
     * and its name in the field for that tag; any other class raises before
     * anything is written.
     */
    function Link(block: ID): (r: Result<ExternalData, Error>)
      ensures r.Failure? <==> block.idType.OtherType?
      ensures r.Failure? ==> r.error == WrongDataBlockType(block.idType)
      ensures r.Success? ==> r.value.Ref() == DataBlockRef(BlockTypeOf(block.idType).value, block.name)
      ensures r.Success? ==> r.value.selected == selected
      ensures r.Success? ==> forall b: BlockType :: b != r.value.dataBlockType ==> r.value.NameFor(b) == NameFor(b)
    {
      match BlockTypeOf(block.idType)
      case Success(Image) => Success(this.(dataBlockType := Image, dataBlockImage := block.name))
      case Success(Cache) => Success(this.(dataBlockType := Cache, dataBlockCache := block.name))
      case Success(Text) => Success(this.(dataBlockType := Text, dataBlockText := block.name))
      case Failure(e) => Failure(e)
    }

    /** `get_name()`: the name of the data-block pointed at, which is the name the record stores. */
    function GetName(data: BlendData): (r: Result<string, Error>)
      ensures r.Success? <==> DataBlock(data).Success?
      ensures r.Success? ==> r.value == NameFor(dataBlockType)
      ensures r.Failure? ==> r.error == KeyNotFound(NameFor(dataBlockType))
    {
      match DataBlock(data)
      case Success(x) => Success(x.name)
      case Failure(e) => Failure(e)
    }

    /** `get_filepath()`. */
    function GetFilepath(data: BlendData): (r: Result<string, Error>)
      ensures r.Success? <==> DataBlock(data).Success?
      ensures r.Success? ==> r.value == DataBlock(data).value.filepath
      ensures r.Failure? ==> r.error == KeyNotFound(Ref().name)
    {
      match DataBlock(data)
      case Success(x) => Success(x.filepath)
      case Failure(e) => Failure(e)
    }

    /**
     * `set_directory_path(dir_path)`: move the file name of the data-block
     * pointed at into `dir`; the host's other data-blocks are left alone.
     */
    method SetDirectoryPath(host: Blender, dir: string) returns (r: Outcome<Error>)
      modifies host
      ensures r.Pass? <==> old(DataBlock(host.data)).Success?
      ensures r.Fail? ==> r.error == KeyNotFound(Ref().name)
      ensures host.data == Redirect(old(host.data), Ref(), dir)
    {
      match Resolve(Ref(), host.data)
      case Failure(e) =>
        return Fail(e);
      case Success(k) =>
        var path := GetFilepath(host.data).value;
        host.data := WithPath(host.data, dataBlockType, k, Join(dir, Basename(path)));
        return Pass;
    }

    /**
     * `is_packed()`: images and text blocks ask the data-block pointed at
     * (which may not be found); cache files are never packed.
     */
    function IsPacked(data: BlendData): (r: Result<bool, Error>)
      ensures dataBlockType == Cache ==> r == Success(false)
      ensures dataBlockType != Cache ==> (r.Success? <==> DataBlock(data).Success?)
      ensures r.Success? && dataBlockType == Image ==> r.value == DataBlock(data).value.hasPackedFile
      ensures r.Success? && dataBlockType == Text ==> r.value == DataBlock(data).value.isInMemory
      ensures r.Failure? ==> r.error == KeyNotFound(Ref().name)
    {
      if GetType() == Image then
        match DataBlock(data)
        case Success(x) => Success(x.hasPackedFile)
        case Failure(e) => Failure(e)
      else if GetType() == Text then
        match DataBlock(data)
        case Success(x) => Success(x.isInMemory)
        case Failure(e) => Failure(e)
      else
        Success(false)
    }

    /** `exist_on_disk()`, with the file system's answer given as `onDisk`. */
    function ExistOnDisk(data: BlendData, onDisk: string -> bool): (r: Result<bool, Error>)
      ensures r.Success? <==> DataBlock(data).Success?
      ensures r.Success? ==> r.value == onDisk(DataBlock(data).value.filepath)
      ensures r.Failure? ==> r.error == KeyNotFound(Ref().name)
    {
      match GetFilepath(data)
      case Success(p) => Success(onDisk(p))
      case Failure(e) => Failure(e)
    }
  }

  /** A record as the list's `add()` creates it: every property at its default. */
  function NewRecord(): (r: ExternalData)
    ensures !r.selected && r.GetType() == Image
    ensures forall b: BlockType :: r.NameFor(b) == ""
  {
    ExternalData(false, "", "", "", Image)
  }

  /** Linking a fresh record to a data-block of a trackable class gives a record pointing at it and nothing else. */
  lemma LinkNewRecord(block: ID)
    requires !block.idType.OtherType?
    ensures NewRecord().Link(block).Success?
    ensures NewRecord().Link(block).value.IsFreshLink(DataBlockRef(BlockTypeOf(block.idType).value, block.name))
  {
  }

  /**
   * A record linked to a data-block of a valid host points back at it, and
   * its `is_packed()` is that data-block's packing flag.
   */
  lemma IsPackedOfLinked(e: ExternalData, data: BlendData, b: BlockType, k: nat)
    requires data.Valid()
    requires k < |Collection(b, data)|
    requires e.Ref() == DataBlockRef(b, Collection(b, data)[k].name)
    ensures e.DataBlock(data) == Success(Collection(b, data)[k])
    ensures e.IsPacked(data) == Success(PackedFlag(Collection(b, data)[k]))
  {
    LinkThenResolve(data, b, k);
  }

  /** Icons a row of the list can show. */
  datatype Icon =
    | ImageDataIcon | TextIcon | MeshDeformIcon  // the kind of the record
    | PreviewIcon(image: ID)                      // an image's own preview
    | PackageIcon | UglyPackageIcon               // packed, not packed
    | ErrorIcon | BlankIcon

  /** What `draw_item` shows for one record, left to right (the check box aside). */
  datatype Row = Row(kindIcon: Icon, previewIcon: Icon, name: string, filepath: string, packedIcon: Icon, statusIcon: Icon)

  /**
   * `ExternalDataList.draw_item` for the default and compact layouts: every
   * icon decision of a row, or the KeyError raised when the record's
   * data-block cannot be found.
   */
  function DrawItem(item: ExternalData, data: BlendData, onDisk: string -> bool): (r: Result<Row, Error>)
    ensures r.Success? <==> item.DataBlock(data).Success?
    ensures r.Failure? ==> r.error == KeyNotFound(item.Ref().name)
    ensures r.Success? ==> r.value.name == item.Ref().name && r.value.filepath == item.DataBlock(data).value.filepath
    ensures r.Success? ==> (r.value.kindIcon == ImageDataIcon <==> item.GetType() == Image)
    ensures r.Success? ==> (r.value.kindIcon == TextIcon <==> item.GetType() == Text)
    ensures r.Success? ==> (r.value.kindIcon == MeshDeformIcon <==> item.GetType() == Cache)
    ensures r.Success? ==> r.value.previewIcon == (if item.GetType() == Image then PreviewIcon(item.DataBlock(data).value) else BlankIcon)
    ensures r.Success? ==> (r.value.packedIcon == PackageIcon <==> item.IsPacked(data) == Success(true))
    ensures r.Success? ==> (r.value.statusIcon == ErrorIcon <==>
                             item.ExistOnDisk(data, onDisk) == Success(false) && item.IsPacked(data) == Success(false))
  {
    var kindIcon := match item.GetType()
      case Image => ImageDataIcon
      case Text => TextIcon
      case Cache => MeshDeformIcon;
    match item.DataBlock(data)
    case Failure(e) => Failure(e)
    case Success(x) =>
      var previewIcon := if item.GetType() == Image then PreviewIcon(x) else BlankIcon;
      var packed := item.IsPacked(data).value;
      var onDiskNow := item.ExistOnDisk(data, onDisk).value;
      var packedIcon := if packed then PackageIcon else UglyPackageIcon;
      var statusIcon := if !onDiskNow && !packed then ErrorIcon else BlankIcon;
      Success(Row(kindIcon, previewIcon, item.GetName(data).value, item.GetFilepath(data).value, packedIcon, statusIcon))
  }

  /**
   * For a record linked to a data-block of a valid host, the row is drawn and
   * shows the error icon exactly when that data-block is neither on disk nor packed.
   */
  lemma ErrorIconIffMissing(item: ExternalData, data: BlendData, onDisk: string -> bool, b: BlockType, k: nat)
    requires data.Valid()
    requires k < |Collection(b, data)|
    requires item.Ref() == DataBlockRef(b, Collection(b, data)[k].name)
    ensures DrawItem(item, data, onDisk).Success?
    ensures DrawItem(item, data, onDisk).value.statusIcon == ErrorIcon <==>
      !onDisk(Collection(b, data)[k].filepath) && !PackedFlag(Collection(b, data)[k])
  {
    IsPackedOfLinked(item, data, b, k);
  }

  /** `ExternalDataUtilsAddonProperties`: the addon's slot holding the list of records. */
  class AddonProperties {
    var externalDataList: seq<ExternalData>

    constructor ()
      ensures externalDataList == []
    {
      externalDataList := [];
    }
  }

  /** Where a data-block sits in the host: its collection and its position there. */
  datatype Slot = Slot(blockType: BlockType, index: nat)

  /** How many data-blocks come before collection `b` when images, texts and cache files are counted in turn. */
  function Offset(b: BlockType, data: BlendData): nat {
    match b
    case Image => 0
    case Text => |data.images|
    case Cache => |data.images| + |data.texts|
  }

  /** The number of data-blocks the tracker can list. */
  function Total(data: BlendData): nat {
    |data.images| + |data.texts| + |data.cacheFiles|
  }

  /** The slot of the `j`-th data-block, counting images, then texts, then cache files. */
  function SlotAt(data: BlendData, j: nat): (s: Slot)
    requires j < Total(data)
    ensures s.index < |Collection(s.blockType, data)|
    ensures Offset(s.blockType, data) + s.index == j
  {
    if j < |data.images| then Slot(Image, j)
    else if j < |data.images| + |data.texts| then Slot(Text, j - |data.images|)
    else Slot(Cache, j - |data.images| - |data.texts|)
  }

  /** Counting is one-to-one: the data-block at a slot is counted at its offset. */
  lemma SlotAtOffset(data: BlendData, s: Slot)
    requires s.index < |Collection(s.blockType, data)|
    ensures Offset(s.blockType, data) + s.index < Total(data)
    ensures SlotAt(data, Offset(s.blockType, data) + s.index) == s
  {
  }

  /** References to every data-block of `coll`, tagged `b`, in the collection's order. */
  function RefsOf(b: BlockType, coll: seq<ID>): seq<DataBlockRef> {
    seq(|coll|, k requires 0 <= k < |coll| => DataBlockRef(b, coll[k].name))
  }

  /** What the rebuilt list points at: every image, then every text, then every cache file. */
  function ExpectedRefs(data: BlendData): seq<DataBlockRef> {
    RefsOf(Image, data.images) + RefsOf(Text, data.texts) + RefsOf(Cache, data.cacheFiles)
  }

  /** Entry `j` of the expected references names the `j`-th data-block by its tag and name. */
  lemma ExpectedRefsAt(data: BlendData, j: nat)
    requires j < Total(data)
    ensures |ExpectedRefs(data)| == Total(data)
    ensures ExpectedRefs(data)[j] == DataBlockRef(SlotAt(data, j).blockType,
                                                  Collection(SlotAt(data, j).blockType, data)[SlotAt(data, j).index].name)
  {
    var refs := RefsOf(Image, data.images) + RefsOf(Text, data.texts);
    assert ExpectedRefs(data) == refs + RefsOf(Cache, data.cacheFiles);
    if j < |data.images| {
      assert ExpectedRefs(data)[j] == refs[j] == RefsOf(Image, data.images)[j];
    } else if j < |data.images| + |data.texts| {
      assert ExpectedRefs(data)[j] == refs[j] == RefsOf(Text, data.texts)[j - |data.images|];
    }
  }

  /**
   * Entry `j` of the rebuilt list is what `link` stores for the `j`-th
   * data-block of the host, and in a valid host it resolves to that data-block.
   */
  lemma ExpectedRefsResolve(data: BlendData, j: nat)
    requires data.Valid()
    requires j < Total(data)
    ensures |ExpectedRefs(data)| == Total(data)
    ensures ExpectedRefs(data)[j].blockType == SlotAt(data, j).blockType
    ensures Resolve(ExpectedRefs(data)[j], data) == Success(SlotAt(data, j).index)
  {
    ExpectedRefsAt(data, j);
    LinkThenResolve(data, SlotAt(data, j).blockType, SlotAt(data, j).index);
  }

  /**
   * One loop of `update_external_data_list`: for each data-block of `coll`,
   * add a record to the list and link it to that data-block.
   */
  method AddLinkedRecords(props: AddonProperties, coll: seq<ID>, b: BlockType)
    requires forall k :: 0 <= k < |coll| ==> BlockTypeOf(coll[k].idType) == Success(b)
    modifies props
    ensures |props.externalDataList| == |old(props.externalDataList)| + |coll|
    ensures props.externalDataList[..|old(props.externalDataList)|] == old(props.externalDataList)
    ensures forall i :: |old(props.externalDataList)| <= i < |props.externalDataList| ==>
      props.externalDataList[i].IsFreshLink(DataBlockRef(b, coll[i - |old(props.externalDataList)|].name))
  {
    ghost var n := |props.externalDataList|;
    for k := 0 to |coll|
      invariant |props.externalDataList| == n + k
      invariant props.externalDataList[..n] == old(props.externalDataList)
      invariant forall i :: n <= i < n + k ==>
        props.externalDataList[i].IsFreshLink(DataBlockRef(b, coll[i - n].name))
    {
      LinkNewRecord(coll[k]);
      var linked := NewRecord().Link(coll[k]);
      props.externalDataList := props.externalDataList + [linked.value];
    }
  }

  /**
   * `update_external_data_list`: clear the list, then add and link one
   * record per image, per text and per cache file, in that order.
   */
  method UpdateExternalDataList(props: AddonProperties, data: BlendData)
    requires data.WellTyped()
    modifies props
    ensures |props.externalDataList| == Total(data) == |ExpectedRefs(data)|
    ensures forall i :: 0 <= i < |props.externalDataList| ==>
      props.externalDataList[i].IsFreshLink(ExpectedRefs(data)[i])
  {
    props.externalDataList := [];
    AddLinkedRecords(props, data.images, Image);
    ghost var images := props.externalDataList;
    AddLinkedRecords(props, data.texts, Text);
    ghost var texts := props.externalDataList;
    AddLinkedRecords(props, data.cacheFiles, Cache);
    ghost var n0, n1 := |data.images|, |data.images| + |data.texts|;
    forall i | 0 <= i < |props.externalDataList|
      ensures props.externalDataList[i].IsFreshLink(ExpectedRefs(data)[i])
    {
      ExpectedRefsAt(data, i);
      if i < n0 {
        assert props.externalDataList[i] == props.externalDataList[..n1][i] == texts[i] == texts[..n0][i] == images[i];
      } else if i < n1 {
        assert props.externalDataList[i] == props.externalDataList[..n1][i] == texts[i];
      }
    }
  }

  /**
   * `toggle_selection_external_data_list(select)`: every record ends up with
   * `selected == select`; nothing else in the list changes.
   */
  method ToggleSelectionExternalDataList(props: AddonProperties, select: bool)
    modifies props
    ensures |props.externalDataList| == |old(props.externalDataList)|
    ensures forall i :: 0 <= i < |props.externalDataList| ==>
      props.externalDataList[i] == old(props.externalDataList[i]).(selected := select)
  {
    for i := 0 to |props.externalDataList|
      invariant |props.externalDataList| == |old(props.externalDataList)|
      invariant forall j :: 0 <= j < i ==> props.externalDataList[j] == old(props.externalDataList[j]).(selected := select)
      invariant forall j :: i <= j < |props.externalDataList| ==> props.externalDataList[j] == old(props.externalDataList[j])
    {
      props.externalDataList := props.externalDataList[i := props.externalDataList[i].(selected := select)];
    }
  }

  /**
   * The position of the first selected record, from `from` on, whose
   * data-block cannot be found, or `|list|` when there is none: where a
   * redirection of the selected records stops with a KeyError.
   */
  function FirstUnresolved(list: seq<ExternalData>, data: BlendData, from: nat): (n: nat)
    requires from <= |list|
    ensures from <= n <= |list|
    ensures forall j :: from <= j < n && list[j].selected ==> list[j].DataBlock(data).Success?
    ensures n < |list| ==> list[n].selected && list[n].DataBlock(data).Failure?
    decreases |list| - from
  {
    if from == |list| then from
    else if list[from].selected && list[from].DataBlock(data).Failure? then from
    else FirstUnresolved(list, data, from + 1)
  }

  /**
   * The host after `set_directory_path(dir)` was called, in list order, on
   * every selected record among the first `n` of `list`.
   */
  function RedirectPrefix(data: BlendData, list: seq<ExternalData>, n: nat, dir: string): (r: BlendData)
    requires n <= |list|
    ensures |r.images| == |data.images| && |r.texts| == |data.texts| && |r.cacheFiles| == |data.cacheFiles|
  {
    if n == 0 then data
    else
      var before := RedirectPrefix(data, list, n - 1, dir);
      if list[n - 1].selected then Redirect(before, list[n - 1].Ref(), dir) else before
  }

  /** With no record selected among the first `n`, the host is left untouched. */
  lemma {:induction false} RedirectPrefixNoneSelected(data: BlendData, list: seq<ExternalData>, n: nat, dir: string)
    requires n <= |list|
    requires forall j :: 0 <= j < n ==> !list[j].selected
    ensures RedirectPrefix(data, list, n, dir) == data
  {
    if n > 0 {
      RedirectPrefixNoneSelected(data, list, n - 1, dir);
    }
  }

  /** Redirecting any number of records never renames or reorders data-blocks. */
  lemma {:induction false} RedirectPrefixNames(data: BlendData, list: seq<ExternalData>, n: nat, dir: string)
    requires n <= |list|
    ensures SameNames(data, RedirectPrefix(data, list, n, dir))
  {
    if n > 0 {
      RedirectPrefixNames(data, list, n - 1, dir);
      var before := RedirectPrefix(data, list, n - 1, dir);
      var after := RedirectPrefix(data, list, n, dir);
      if list[n - 1].selected {
        assert after == Redirect(before, list[n - 1].Ref(), dir);
        RedirectSameNames(before, list[n - 1].Ref(), dir);
        SameNamesTrans(data, before, after);
      } else {
        assert after == before;
      }
    }
  }

  /** Keeping the same names is transitive. */
  lemma SameNamesTrans(d: BlendData, e: BlendData, f: BlendData)
    requires SameNames(d, e) && SameNames(e, f)
    ensures SameNames(d, f)
  {
  }

  /** Record `e` is selected and points at the data-block in slot `s`. */
  predicate Hits(e: ExternalData, data: BlendData, s: Slot) {
    e.selected && e.dataBlockType == s.blockType && Resolve(e.Ref(), data) == Success(s.index)
  }

  /** Some selected record among the first `n` of `list` points at the data-block in slot `s`. */
  ghost predicate Targeted(list: seq<ExternalData>, n: nat, data: BlendData, s: Slot)
    requires n <= |list|
  {
    exists j :: 0 <= j < n && Hits(list[j], data, s)
  }

  /** One more record targets a slot exactly when it or an earlier one points at it. */
  lemma TargetedStep(list: seq<ExternalData>, n: nat, data: BlendData, s: Slot)
    requires 0 < n <= |list|
    ensures Targeted(list, n, data, s) <==> Targeted(list, n - 1, data, s) || Hits(list[n - 1], data, s)
  {
    if Targeted(list, n, data, s) && !Hits(list[n - 1], data, s) {
      var j :| 0 <= j < n && Hits(list[j], data, s);
      assert j < n - 1;
    }
  }

  /**
   * `change_dir_path_external_data_list` on the first `n` records: a
   * data-block gets its file name moved into `dir` exactly when some selected
   * record among them points at it (once, however many do); every other
   * data-block, every name and every flag is left as it was.
   */
  lemma {:induction false} RedirectPrefixAt(data: BlendData, list: seq<ExternalData>, n: nat, dir: string, s: Slot)
    requires n <= |list|
    requires s.index < |Collection(s.blockType, data)|
    ensures |Collection(s.blockType, RedirectPrefix(data, list, n, dir))| == |Collection(s.blockType, data)|
    ensures Collection(s.blockType, RedirectPrefix(data, list, n, dir))[s.index] ==
      Collection(s.blockType, data)[s.index].(filepath :=
        if Targeted(list, n, data, s) then Relocate(Collection(s.blockType, data)[s.index].filepath, dir)
        else Collection(s.blockType, data)[s.index].filepath)
  {
    var b, k := s.blockType, s.index;
    var original := Collection(b, data)[k].filepath;
    if n > 0 {
      RedirectPrefixAt(data, list, n - 1, dir, s);
      TargetedStep(list, n, data, s);
      var before := RedirectPrefix(data, list, n - 1, dir);
      var e := list[n - 1];
      if e.selected {
        RedirectPrefixNames(data, list, n - 1, dir);
        ResolveSameNames(e.Ref(), data, before);
        RedirectAt(before, e.Ref(), dir, b, k);
        RelocateIdempotent(original, dir);
      }
    }
  }
  /** Whether a data-block is targeted depends only on the names, not on the paths. */
  lemma TargetedSameNames(list: seq<ExternalData>, n: nat, d: BlendData, e: BlendData, s: Slot)
    requires n <= |list|
    requires SameNames(d, e)
    ensures Targeted(list, n, d, s) <==> Targeted(list, n, e, s)
  {
    forall j | 0 <= j < n
      ensures Hits(list[j], d, s) <==> Hits(list[j], e, s)
    {
      ResolveSameNames(list[j].Ref(), d, e);
    }
  }

  /** Running the same redirects a second time leaves each data-block as after the first. */
  lemma RedirectPrefixIdempotentAt(data: BlendData, list: seq<ExternalData>, n: nat, dir: string, s: Slot)
    requires n <= |list|
    requires s.index < |Collection(s.blockType, data)|
    ensures Collection(s.blockType, RedirectPrefix(RedirectPrefix(data, list, n, dir), list, n, dir))[s.index] ==
      Collection(s.blockType, RedirectPrefix(data, list, n, dir))[s.index]
  {
    var once := RedirectPrefix(data, list, n, dir);
    RedirectPrefixAt(data, list, n, dir, s);
    RedirectPrefixAt(once, list, n, dir, s);
    RedirectPrefixNames(data, list, n, dir);
    TargetedSameNames(list, n, data, once, s);
    RelocateIdempotent(Collection(s.blockType, data)[s.index].filepath, dir);
  }

  /** Changing to the same directory twice with the same selection leaves the host as doing it once. */
  lemma RedirectPrefixIdempotent(data: BlendData, list: seq<ExternalData>, n: nat, dir: string)
    requires n <= |list|
    ensures RedirectPrefix(RedirectPrefix(data, list, n, dir), list, n, dir) == RedirectPrefix(data, list, n, dir)
  {
    var once := RedirectPrefix(data, list, n, dir);
    var twice := RedirectPrefix(once, list, n, dir);
    forall b: BlockType
      ensures Collection(b, twice) == Collection(b, once)
    {
      forall k | 0 <= k < |Collection(b, once)|
        ensures Collection(b, twice)[k] == Collection(b, once)[k]
      {
        RedirectPrefixIdempotentAt(data, list, n, dir, Slot(b, k));
      }
    }
    assert twice.images == Collection(Image, twice) == Collection(Image, once) == once.images;
    assert twice.texts == Collection(Text, twice) == Collection(Text, once) == once.texts;
    assert twice.cacheFiles == Collection(Cache, twice) == Collection(Cache, once) == once.cacheFiles;
  }


  /**
   * `change_dir_path_external_data_list(path)`: in list order, call
   * `set_directory_path(path)` on every selected record. The first selected
   * record whose data-block is missing raises, and the rewrites made before
   * it stay.
   */
  method ChangeDirPathExternalDataList(props: AddonProperties, host: Blender, path: string) returns (r: Outcome<Error>)
    modifies host
    ensures r.Pass? <==> FirstUnresolved(props.externalDataList, old(host.data), 0) == |props.externalDataList|
    ensures r.Fail? ==>
      r.error == KeyNotFound(props.externalDataList[FirstUnresolved(props.externalDataList, old(host.data), 0)].Ref().name)
    ensures host.data ==
      RedirectPrefix(old(host.data), props.externalDataList, FirstUnresolved(props.externalDataList, old(host.data), 0), path)
  {
    var collection := props.externalDataList;
    ghost var n := FirstUnresolved(collection, host.data, 0);
    var i := 0;
    while i < |collection|
      invariant 0 <= i <= n
      invariant host.data == RedirectPrefix(old(host.data), collection, i, path)
    {
      var e := collection[i];
      if e.selected {
        RedirectPrefixNames(old(host.data), collection, i, path);
        ResolveSameNames(e.Ref(), old(host.data), host.data);
        r := e.SetDirectoryPath(host, path);
        if r.Fail? {
          return;
        }
      }
      i := i + 1;
    }
    r := Pass;
  }

  /** Record `j` of a list rebuilt from a valid host points at the `j`-th data-block. */
  lemma RebuiltRecordAt(list: seq<ExternalData>, data: BlendData, j: nat)
    requires data.Valid()
    requires |list| == Total(data)
    requires forall i :: 0 <= i < |list| ==> list[i].Ref() == ExpectedRefs(data)[i]
    requires j < |list|
    ensures list[j].dataBlockType == SlotAt(data, j).blockType
    ensures Resolve(list[j].Ref(), data) == Success(SlotAt(data, j).index)
  {
    ExpectedRefsResolve(data, j);
  }

  /**
   * On a list rebuilt from a valid host, the data-block in slot `s` is
   * targeted by a selected record exactly when its own record is selected.
   */
  lemma RebuiltListTargetAt(list: seq<ExternalData>, data: BlendData, s: Slot)
    requires data.Valid()
    requires |list| == Total(data)
    requires forall i :: 0 <= i < |list| ==> list[i].Ref() == ExpectedRefs(data)[i]
    requires s.index < |Collection(s.blockType, data)|
    ensures Offset(s.blockType, data) + s.index < |list|
    ensures Targeted(list, |list|, data, s) <==> list[Offset(s.blockType, data) + s.index].selected
  {
    var own := Offset(s.blockType, data) + s.index;
    SlotAtOffset(data, s);
    RebuiltRecordAt(list, data, own);
    if Targeted(list, |list|, data, s) {
      var j :| 0 <= j < |list| && Hits(list[j], data, s);
      RebuiltRecordAt(list, data, j);
      assert SlotAt(data, j) == s;
      assert j == own;
    }
    if list[own].selected {
      assert Hits(list[own], data, s);
    }
  }

  /**
   * On a list rebuilt from a valid host, redirecting the selected records
   * raises nothing, and it moves exactly the data-blocks whose own record is
   * selected.
   */
  lemma RebuiltListTargets(list: seq<ExternalData>, data: BlendData)
    requires data.Valid()
    requires |list| == Total(data)
    requires forall i :: 0 <= i < |list| ==> list[i].Ref() == ExpectedRefs(data)[i]
    ensures FirstUnresolved(list, data, 0) == |list|
    ensures forall s: Slot :: s.index < |Collection(s.blockType, data)| ==>
      Offset(s.blockType, data) + s.index < |list| &&
      (Targeted(list, |list|, data, s) <==> list[Offset(s.blockType, data) + s.index].selected)
  {
    var n := FirstUnresolved(list, data, 0);
    if n < |list| {
      RebuiltRecordAt(list, data, n);
    }
    forall s: Slot | s.index < |Collection(s.blockType, data)|
      ensures Offset(s.blockType, data) + s.index < |list|
      ensures Targeted(list, |list|, data, s) <==> list[Offset(s.blockType, data) + s.index].selected
    {
      RebuiltListTargetAt(list, data, s);
    }
  }

  /**
   * Change directory on a list rebuilt from a valid host: nothing raises,
   * every data-block whose record is selected is moved into `dir`, and every
   * other data-block keeps its path.
   */
  lemma ChangeDirOnRebuiltList(list: seq<ExternalData>, data: BlendData, dir: string)
    requires data.Valid()
    requires |list| == Total(data)
    requires forall i :: 0 <= i < |list| ==> list[i].Ref() == ExpectedRefs(data)[i]
    ensures FirstUnresolved(list, data, 0) == |list|
    ensures forall s: Slot :: s.index < |Collection(s.blockType, data)| ==>
      && Offset(s.blockType, data) + s.index < |list|
      && |Collection(s.blockType, RedirectPrefix(data, list, |list|, dir))| == |Collection(s.blockType, data)|
      && Collection(s.blockType, RedirectPrefix(data, list, |list|, dir))[s.index] ==
           Collection(s.blockType, data)[s.index].(filepath :=
             if list[Offset(s.blockType, data) + s.index].selected
             then Relocate(Collection(s.blockType, data)[s.index].filepath, dir)
             else Collection(s.blockType, data)[s.index].filepath)
  {
    RebuiltListTargets(list, data);
    forall s: Slot | s.index < |Collection(s.blockType, data)|
      ensures Offset(s.blockType, data) + s.index < |list|
      ensures |Collection(s.blockType, RedirectPrefix(data, list, |list|, dir))| == |Collection(s.blockType, data)|
      ensures Collection(s.blockType, RedirectPrefix(data, list, |list|, dir))[s.index] ==
           Collection(s.blockType, data)[s.index].(filepath :=
             if list[Offset(s.blockType, data) + s.index].selected
             then Relocate(Collection(s.blockType, data)[s.index].filepath, dir)
             else Collection(s.blockType, data)[s.index].filepath)
    {
      RedirectPrefixAt(data, list, |list|, dir, s);
    }
  }

  /** What an operator method returns to the host. */
  datatype OperatorResult = Finished | RunningModal

  /**
   * `DisplayExternalDataListOperator`: the dialog that rebuilds the list
   * when opened and applies the header's select-all toggle and one-shot
   * change-directory button each time the host calls `check`.
   */
  class DisplayExternalDataListOperator {
    var toggleSelectAll: bool
    var newDirectory: string
    var changeDirectory: bool
    /** The value of `toggleSelectAll` the list's selection last followed. */
    var toggleSelectAllPrec: bool
    /** `toggleSelectAllPrec` is only created by `invoke`. */
    ghost var invoked: bool

    /** The operator's properties at their declared defaults. */
    constructor ()
      ensures !toggleSelectAll && newDirectory == "" && !changeDirectory && !invoked
    {
      toggleSelectAll, newDirectory, changeDirectory := false, "", false;
      toggleSelectAllPrec := false;
      invoked := false;
    }

    /** `execute`: confirming the dialog does nothing more. */
    method Execute() returns (r: OperatorResult)
      ensures r == Finished
    {
      r := Finished;
    }

    /**
     * `invoke`: remember the select-all toggle, rebuild the list from the
     * host, and open the dialog.
     */
    method Invoke(props: AddonProperties, host: Blender) returns (r: OperatorResult)
      requires host.data.WellTyped()
      modifies this, props
      ensures invoked && toggleSelectAllPrec == toggleSelectAll
      ensures toggleSelectAll == old(toggleSelectAll) && newDirectory == old(newDirectory)
      ensures changeDirectory == old(changeDirectory)
      ensures |props.externalDataList| == |ExpectedRefs(host.data)|
      ensures forall i :: 0 <= i < |props.externalDataList| ==>
        props.externalDataList[i].IsFreshLink(ExpectedRefs(host.data)[i])
      ensures r == RunningModal
    {
      toggleSelectAllPrec := toggleSelectAll;
      invoked := true;
      UpdateExternalDataList(props, host.data);
      r := RunningModal;
    }

    /**
     * `check`: when the select-all toggle moved since it was last applied,
     * set every record's selection to it; then, when the change-directory
     * button was pressed, clear it and redirect the selected records into
     * the new directory. Returns true unless that redirection raises.
     */
    method Check(props: AddonProperties, host: Blender) returns (r: Result<bool, Error>)
      requires invoked
      modifies this, props, host
      ensures invoked && toggleSelectAll == old(toggleSelectAll) && newDirectory == old(newDirectory)
      ensures toggleSelectAllPrec == toggleSelectAll && !changeDirectory
      ensures |props.externalDataList| == |old(props.externalDataList)|
      ensures forall i :: 0 <= i < |props.externalDataList| ==>
        props.externalDataList[i] ==
          if old(toggleSelectAll != toggleSelectAllPrec) then old(props.externalDataList[i]).(selected := toggleSelectAll)
          else old(props.externalDataList[i])
      ensures !old(changeDirectory) ==> r == Success(true) && host.data == old(host.data)
      ensures old(changeDirectory) ==>
        (r.Success? <==> FirstUnresolved(props.externalDataList, old(host.data), 0) == |props.externalDataList|)
      ensures old(changeDirectory) ==>
        host.data == RedirectPrefix(old(host.data), props.externalDataList,
                                    FirstUnresolved(props.externalDataList, old(host.data), 0), newDirectory)
      ensures r.Success? ==> r.value
      ensures r.Failure? ==>
        r.error == KeyNotFound(props.externalDataList[FirstUnresolved(props.externalDataList, old(host.data), 0)].Ref().name)
    {
      if toggleSelectAll != toggleSelectAllPrec {
        ToggleSelectionExternalDataList(props, toggleSelectAll);
        toggleSelectAllPrec := toggleSelectAll;
      }
      r := Success(true);
      if changeDirectory {
        changeDirectory := false;
        var moved := ChangeDirPathExternalDataList(props, host, newDirectory);
        if moved.Fail? {
          r := Failure(moved.error);
        }
      }
    }
  }
}
