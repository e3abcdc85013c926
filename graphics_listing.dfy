/**
 * `list_graphics_file_infos` (butano/tools/butano-graphics-tool.py): the walk over the
 * graphics folders that reads each bitmap's JSON file, rejects a name used twice within
 * one graphics type and collects the files that changed since the last build. The
 * folder listing, the JSON parsing and the change detection are inputs: each file comes
 * with its name split at the extension, whether its name passes the file-info name
 * check, what its JSON file yields and whether it changed.
 */
module GraphicsListing {
  import opened Wrappers

  datatype GraphicsType = Sprite | SpritePalette | RegularBg | AffineBg | BgPalette

  /** The `type` value that selects each graphics type. */
  function TypeName(t: GraphicsType): string
  {
    match t
    case Sprite => "sprite"
    case SpritePalette => "sprite_palette"
    case RegularBg => "regular_bg"
    case AffineBg => "affine_bg"
    case BgPalette => "bg_palette"
  }

  /** The `type` dispatch: one of the five names, or unknown. */
  function ParseGraphicsType(name: string): (r: Option<GraphicsType>)
    ensures r.Some? ==> TypeName(r.value) == name
  {
    if name == "sprite" then Some(Sprite)
    else if name == "sprite_palette" then Some(SpritePalette)
    else if name == "regular_bg" then Some(RegularBg)
    else if name == "affine_bg" then Some(AffineBg)
    else if name == "bg_palette" then Some(BgPalette)
    else None
  }

  /** Every type is recognised by its own name, so parsing and naming are inverse. */
  lemma ParseTypeName(t: GraphicsType)
    ensures ParseGraphicsType(TypeName(t)) == Some(t)
  {
  }

  /** What reading a bitmap's JSON file yields. */
  datatype JsonInfo =
    | JsonMissing
    | JsonUnparsable
    | JsonParsed(typeField: Option<string>)

  datatype ListedFile = ListedFile(
    nameNoExt: string,
    ext: string,
    validName: bool,
    json: JsonInfo,
    changed: bool)

  datatype ListingError =
    | JsonNotFound(nameNoExt: string)
    | JsonParseFailed(nameNoExt: string)
    | TypeFieldNotFound(nameNoExt: string)
    | UnknownType(nameNoExt: string, typeName: string)
    | DuplicateName(graphicsType: GraphicsType, nameNoExt: string)

  /** A file to be processed: its type and its name without extension. */
  datatype GraphicsFileInfo = GraphicsFileInfo(graphicsType: GraphicsType, nameNoExt: string)

  /** A file the walk looks at: a name the file-info check accepts, with the `.bmp` extension. */
  predicate IsGraphicsFile(f: ListedFile)
  {
    f.validName && f.ext == ".bmp"
  }

  /** The graphics type a bitmap's JSON file declares, or why it declares none. */
  function FileType(f: ListedFile): Result<GraphicsType, ListingError>
  {
    match f.json
    case JsonMissing => Failure(JsonNotFound(f.nameNoExt))
    case JsonUnparsable => Failure(JsonParseFailed(f.nameNoExt))
    case JsonParsed(None) => Failure(TypeFieldNotFound(f.nameNoExt))
    case JsonParsed(Some(name)) =>
      match ParseGraphicsType(name)
      case None => Failure(UnknownType(f.nameNoExt, name))
      case Some(t) => Success(t)
  }

  /** The names of the graphics files of type `t` in `files`. */
  function TypedNames(files: seq<ListedFile>, t: GraphicsType): set<string>
  {
    if |files| == 0 then {}
    else
      var last := files[|files| - 1];
      TypedNames(files[..|files| - 1], t) +
        (if IsGraphicsFile(last) && FileType(last) == Success(t) then {last.nameNoExt} else {})
  }

  /** A name is among `TypedNames` exactly when some graphics file of that type carries it. */
  lemma {:induction false} TypedNamesMembers(files: seq<ListedFile>, t: GraphicsType, name: string)
    ensures name in TypedNames(files, t) <==>
      exists i :: 0 <= i < |files| && IsGraphicsFile(files[i]) && FileType(files[i]) == Success(t) && files[i].nameNoExt == name
  {
    if |files| > 0 {
      var prefix := files[..|files| - 1];
      TypedNamesMembers(prefix, t, name);
      if name in TypedNames(prefix, t) {
        var i :| 0 <= i < |prefix| && IsGraphicsFile(prefix[i]) && FileType(prefix[i]) == Success(t) && prefix[i].nameNoExt == name;
        assert files[i] == prefix[i];
      }
      if exists i :: 0 <= i < |files| && IsGraphicsFile(files[i]) && FileType(files[i]) == Success(t) && files[i].nameNoExt == name {
        var i :| 0 <= i < |files| && IsGraphicsFile(files[i]) && FileType(files[i]) == Success(t) && files[i].nameNoExt == name;
        if i < |files| - 1 {
          assert prefix[i] == files[i];
        }
      }
    }
  }

  /** The walk stops at file `k`: its JSON declares no known type, or its name is taken in its type. */
  predicate FailsAt(files: seq<ListedFile>, k: int): (fails: bool)
    requires 0 <= k < |files|
    ensures fails ==> IsGraphicsFile(files[k])
    ensures IsGraphicsFile(files[k]) && FileType(files[k]).Failure? ==> fails
  {
    IsGraphicsFile(files[k]) &&
    (FileType(files[k]).Failure? || files[k].nameNoExt in TypedNames(files[..k], FileType(files[k]).value))
  }

  /** The error raised at a failing file. */
  function ErrorAt(files: seq<ListedFile>, k: int): ListingError
    requires 0 <= k < |files| && FailsAt(files, k)
  {
    if FileType(files[k]).Failure? then FileType(files[k]).error
    else DuplicateName(FileType(files[k]).value, files[k].nameNoExt)
  }

  /**
   * The changed graphics files, in walk order: at most one info per file, each naming a
   * file that the walk collects under the info's type.
   */
  function ChangedInfos(files: seq<ListedFile>): (infos: seq<GraphicsFileInfo>)
    ensures |infos| <= |files|
    ensures forall info :: info in infos ==> info.nameNoExt in TypedNames(files, info.graphicsType)
  {
    if |files| == 0 then []
    else
      var last := files[|files| - 1];
      ChangedInfos(files[..|files| - 1]) +
        (if IsGraphicsFile(last) && last.changed && FileType(last).Success?
         then [GraphicsFileInfo(FileType(last).value, last.nameNoExt)] else [])
  }

  /**
   * `list_graphics_file_infos` over the files of every folder, in order. It fails at the
   * first file whose JSON is missing, unreadable, typeless or of unknown type, or whose
   * name was already used in its type; otherwise it returns the changed files.
   */
  method ListGraphicsFileInfos(files: seq<ListedFile>) returns (r: Result<seq<GraphicsFileInfo>, ListingError>)
    ensures r.Success? <==> forall k :: 0 <= k < |files| ==> !FailsAt(files, k)
    ensures r.Success? ==> r.value == ChangedInfos(files)
    ensures r.Failure? ==>
      exists k :: 0 <= k < |files| && FailsAt(files, k) && r.error == ErrorAt(files, k) &&
        forall j :: 0 <= j < k ==> !FailsAt(files, j)
  {
    var names: map<GraphicsType, set<string>> :=
      map[Sprite := {}, SpritePalette := {}, RegularBg := {}, AffineBg := {}, BgPalette := {}];
    var infos: seq<GraphicsFileInfo> := [];
    var i := 0;
    assert files[..0] == [];
    forall t: GraphicsType
      ensures t in names && names[t] == TypedNames(files[..0], t)
    {
      match t
      case Sprite =>
      case SpritePalette =>
      case RegularBg =>
      case AffineBg =>
      case BgPalette =>
    }
    while i < |files|
      invariant 0 <= i <= |files|
      invariant forall t :: t in names && names[t] == TypedNames(files[..i], t)
      invariant forall k :: 0 <= k < i ==> !FailsAt(files, k)
      invariant infos == ChangedInfos(files[..i])
    {
      var f := files[i];
      assert files[..i + 1][..i] == files[..i];
      if f.validName && f.ext == ".bmp" {
        var t: GraphicsType;
        match f.json {
          case JsonMissing =>
            assert FailsAt(files, i);
            return Failure(JsonNotFound(f.nameNoExt));
          case JsonUnparsable =>
            assert FailsAt(files, i);
            return Failure(JsonParseFailed(f.nameNoExt));
          case JsonParsed(typeField) =>
            if typeField.None? {
              assert FailsAt(files, i);
              return Failure(TypeFieldNotFound(f.nameNoExt));
            }
            var parsed := ParseGraphicsType(typeField.value);
            if parsed.None? {
              assert FailsAt(files, i);
              return Failure(UnknownType(f.nameNoExt, typeField.value));
            }
            t := parsed.value;
        }
        if f.nameNoExt in names[t] {
          assert FailsAt(files, i);
          return Failure(DuplicateName(t, f.nameNoExt));
        }
        names := names[t := names[t] + {f.nameNoExt}];
        if f.changed {
          infos := infos + [GraphicsFileInfo(t, f.nameNoExt)];
        }
      }
      i := i + 1;
    }
    assert files[..i] == files;
    return Success(infos);
  }

  /** Every graphics file declares a known type. */
  predicate AllTyped(files: seq<ListedFile>)
  {
    forall k :: 0 <= k < |files| && IsGraphicsFile(files[k]) ==> FileType(files[k]).Success?
  }

  /** No two graphics files share both their type and their name. */
  predicate NamesDistinctPerType(files: seq<ListedFile>)
  {
    forall i, j ::
      (0 <= i < j < |files| && IsGraphicsFile(files[i]) && IsGraphicsFile(files[j]) &&
       FileType(files[i]).Success? && FileType(files[i]) == FileType(files[j])) ==>
      files[i].nameNoExt != files[j].nameNoExt
  }

  /** A later graphics file whose type and name an earlier one already has is where the walk stops. */
  lemma LaterNamesakeFails(files: seq<ListedFile>, i: int, j: int)
    requires 0 <= i < j < |files| && IsGraphicsFile(files[i]) && IsGraphicsFile(files[j])
    requires FileType(files[i]).Success? && FileType(files[i]) == FileType(files[j])
    ensures files[i].nameNoExt == files[j].nameNoExt ==> FailsAt(files, j)
  {
    TypedNamesMembers(files[..j], FileType(files[j]).value, files[j].nameNoExt);
    assert files[..j][i] == files[i];
  }

  /**
   * The walk succeeds exactly when every graphics file declares a known type and no two
   * graphics files share both type and name: a name may recur across types.
   */
  lemma ListingSucceedsIff(files: seq<ListedFile>)
    ensures (forall k :: 0 <= k < |files| ==> !FailsAt(files, k)) <==> AllTyped(files) && NamesDistinctPerType(files)
  {
    if forall k :: 0 <= k < |files| ==> !FailsAt(files, k) {
      forall i, j | 0 <= i < j < |files| && IsGraphicsFile(files[i]) && IsGraphicsFile(files[j]) &&
          FileType(files[i]).Success? && FileType(files[i]) == FileType(files[j])
        ensures files[i].nameNoExt != files[j].nameNoExt
      {
        assert !FailsAt(files, j);
        LaterNamesakeFails(files, i, j);
      }
      forall k | 0 <= k < |files| && IsGraphicsFile(files[k])
        ensures FileType(files[k]).Success?
      {
        assert !FailsAt(files, k);
      }
      assert AllTyped(files) && NamesDistinctPerType(files);
    }
    if AllTyped(files) && NamesDistinctPerType(files) {
      forall k | 0 <= k < |files|
        ensures !FailsAt(files, k)
      {
        if IsGraphicsFile(files[k]) {
          var t := FileType(files[k]).value;
          TypedNamesMembers(files[..k], t, files[k].nameNoExt);
          forall i | 0 <= i < k && IsGraphicsFile(files[..k][i]) && FileType(files[..k][i]) == Success(t)
            ensures files[..k][i].nameNoExt != files[k].nameNoExt
          {
            assert files[..k][i] == files[i];
            assert FileType(files[i]) == FileType(files[k]);
          }
        }
      }
    }
  }

  /** A sprite and a background palette may share a name. */
  method SameNameInTwoTypes() returns (r: Result<seq<GraphicsFileInfo>, ListingError>)
    ensures r == Success([GraphicsFileInfo(Sprite, "hero"), GraphicsFileInfo(BgPalette, "hero")])
  {
    var files := [ListedFile("hero", ".bmp", true, JsonParsed(Some("sprite")), true),
                  ListedFile("hero", ".bmp", true, JsonParsed(Some("bg_palette")), true)];
    assert files[..1][..0] == [];
    assert files[..1] == [files[0]];
    assert FileType(files[0]) == Success(Sprite);
    assert FileType(files[1]) == Success(BgPalette);
    assert !FailsAt(files, 0);
    assert !FailsAt(files, 1);
    assert forall k :: 0 <= k < |files| ==> !FailsAt(files, k);
    r := ListGraphicsFileInfos(files);
    assert r.Success?;
    assert ChangedInfos(files[..1][..0]) == [];
    assert ChangedInfos(files[..1]) == [GraphicsFileInfo(Sprite, "hero")];
    assert files[..|files| - 1] == files[..1];
    assert ChangedInfos(files) == ChangedInfos(files[..1]) + [GraphicsFileInfo(BgPalette, "hero")];
    assert r.value == [GraphicsFileInfo(Sprite, "hero")] + [GraphicsFileInfo(BgPalette, "hero")];
    assert r.value == [GraphicsFileInfo(Sprite, "hero"), GraphicsFileInfo(BgPalette, "hero")];
  }

  /** Two sprites named alike: the walk stops at the second one. */
  method SameNameTwiceInOneType() returns (r: Result<seq<GraphicsFileInfo>, ListingError>)
    ensures r == Failure(DuplicateName(Sprite, "hero"))
  {
    var files := [ListedFile("hero", ".bmp", true, JsonParsed(Some("sprite")), false),
                  ListedFile("hero", ".bmp", true, JsonParsed(Some("sprite")), true)];
    assert files[..1][..0] == [];
    assert files[..1] == [files[0]];
    assert !FailsAt(files, 0);
    assert FailsAt(files, 1);
    r := ListGraphicsFileInfos(files);
  }
}
