/**
 * Uploads to the media host and the file table that records them: the
 * resource type chosen from the MIME type, the folder and public id the
 * upload is named with, and the guarded delete. The host's answers (the
 * stored public id and URL, the outcome of an upload, the result word of a
 * destroy) and the clock are parameters.
 */
module Files {

  import opened Outcomes
  import opened Tables
  import Text

  // ---------------------------------------------------------------------------
  // Resource and file types

  datatype ResourceType = Image | Video | Raw

  /** The column's enum. */
  datatype FileType = IMAGE | VIDEO | DOCS

  /** resolveResourceType: by the MIME type's prefix. */
  function ResolveResourceType(mimeType: string): (rt: ResourceType)
    ensures rt == Image <==> Text.StartsWith(mimeType, "image/")
    ensures rt == Video <==> !Text.StartsWith(mimeType, "image/") && Text.StartsWith(mimeType, "video/")
    ensures rt == Raw <==> !Text.StartsWith(mimeType, "image/") && !Text.StartsWith(mimeType, "video/")
  {
    if Text.StartsWith(mimeType, "image/") then Image
    else if Text.StartsWith(mimeType, "video/") then Video
    else Raw
  }

  /** The stored file type of an upload of type `rt`. */
  function FileTypeOf(rt: ResourceType): FileType
  {
    match rt
    case Image => IMAGE
    case Video => VIDEO
    case Raw => DOCS
  }

  /** mapFileTypeToResourceType. */
  function MapFileTypeToResourceType(ft: FileType): ResourceType
  {
    match ft
    case IMAGE => Image
    case VIDEO => Video
    case DOCS => Raw
  }

  /** The two mappings are inverse to each other, so a delete uses the upload's resource type. */
  lemma FileTypeRoundTrip(rt: ResourceType, ft: FileType)
    ensures MapFileTypeToResourceType(FileTypeOf(rt)) == rt
    ensures FileTypeOf(MapFileTypeToResourceType(ft)) == ft
  {
  }

  /** The storage folder of each resource type. */
  function FolderOf(rt: ResourceType): string
  {
    match rt
    case Image => "images"
    case Video => "videos"
    case Raw => "docs"
  }

  // ---------------------------------------------------------------------------
  // Naming an upload

  /** `originalName.split('.').pop()`: the text after the last dot, or the whole name. */
  function Ext(name: string): (e: string)
    ensures '.' !in name ==> e == name
    ensures '.' in name ==> '.' !in e && |e| < |name| && name == name[..|name| - |e| - 1] + "." + e
  {
    Text.LastSegment(name, '.')
  }

  /** `${Date.now()}-${originalName.replace(/\.[^/.]+$/, '')}`. */
  function BaseName(now: nat, name: string): string
  {
    Text.Decimal(now) + "-" + Text.StripExtension(name)
  }

  /**
   * The base name is the timestamp, a dash, and the original name, cut
   * before its final `.extension` exactly when it has one (a dot followed by
   * one or more characters that are neither `.` nor `/`).
   */
  lemma BaseNameStrips(now: nat, name: string)
    ensures var b, d := BaseName(now, name), Text.Decimal(now); |b| > |d| && b[..|d| + 1] == d + "-"
    ensures var t := BaseName(now, name)[|Text.Decimal(now)| + 1..]; |t| <= |name| && t == name[..|t|]
    ensures var t := BaseName(now, name)[|Text.Decimal(now)| + 1..];
      t != name <==> exists k :: 0 <= k < |name| - 1 && name[k] == '.' && Text.NoDotOrSlash(name[k + 1..])
    ensures var t := BaseName(now, name)[|Text.Decimal(now)| + 1..];
      t != name ==> name[|t|] == '.' && Text.NoDotOrSlash(name[|t| + 1..])
  {
    var d := Text.Decimal(now);
    Text.StripExtensionMatches(name);
    assert BaseName(now, name)[|d| + 1..] == Text.StripExtension(name);
  }

  /** Raw files keep their extension in the public id; images and videos do not. */
  function PublicId(rt: ResourceType, now: nat, name: string): (id: string)
    ensures rt == Raw ==> id == BaseName(now, name) + "." + Ext(name)
    ensures rt != Raw ==> id == BaseName(now, name)
  {
    if rt == Raw then BaseName(now, name) + "." + Ext(name) else BaseName(now, name)
  }

  /** A name with an extension is its stripped base, a dot, and its extension. */
  lemma SplitExtension(name: string, k: nat)
    requires k < |name| - 1 && name[k] == '.' && Text.NoDotOrSlash(name[k + 1..])
    ensures Text.StripExtension(name) + "." + Ext(name) == name
  {
    Text.LastDotSegment(name, k);
    assert |name| - |name[k + 1..]| - 1 == k;
    assert Text.StripExtension(name) == name[..k];
    assert name == name[..k] + "." + name[k + 1..];
  }

  /** A raw upload of a name with an extension keeps the whole original name after the timestamp. */
  lemma RawKeepsName(now: nat, name: string, k: nat)
    requires k < |name| - 1 && name[k] == '.' && Text.NoDotOrSlash(name[k + 1..])
    ensures PublicId(Raw, now, name) == Text.Decimal(now) + "-" + name
  {
    SplitExtension(name, k);
    var d := Text.Decimal(now);
    var b := Text.StripExtension(name);
    var e := Ext(name);
    assert PublicId(Raw, now, name) == d + "-" + b + "." + e;
    assert d + "-" + b + "." + e == d + "-" + (b + "." + e);
  }

  /** `public_id.split('/').pop()`. */
  function FilenameOf(publicId: string): (f: string)
    ensures '/' !in f
    ensures '/' !in publicId ==> f == publicId
  {
    Text.LastSegment(publicId, '/')
  }

  /** When the host files the upload under its folder, the stored filename is the public id asked for. */
  lemma {:induction false} FilenameUnderFolder(folder: string, id: string)
    requires '/' !in id
    ensures FilenameOf(folder + "/" + id) == id
    decreases |id|
  {
    var s := folder + "/" + id;
    if id == [] {
      assert s[|s| - 1] == '/';
    } else {
      assert s[..|s| - 1] == folder + "/" + id[..|id| - 1];
      FilenameUnderFolder(folder, id[..|id| - 1]);
      assert id == id[..|id| - 1] + [id[|id| - 1]];
    }
  }

  // ---------------------------------------------------------------------------
  // The file table

  datatype FileInstance = FileInstance(
    filename: string,
    originalFilename: string,
    path: string,
    url: string,
    fileType: FileType,
    mimeType: string,
    size: nat)

  /** What the host answers to an upload. */
  datatype Uploaded = Uploaded(publicId: string, secureUrl: string)

  /** The request for the host: resource type, folder and public id. */
  datatype UploadRequest = UploadRequest(resourceType: ResourceType, folder: string, publicId: string)

  function RequestFor(name: string, mimeType: string, now: nat): (q: UploadRequest)
    ensures q.resourceType == ResolveResourceType(mimeType)
    ensures q.folder == FolderOf(q.resourceType) && q.publicId == PublicId(q.resourceType, now, name)
  {
    var rt := ResolveResourceType(mimeType);
    UploadRequest(rt, FolderOf(rt), PublicId(rt, now, name))
  }

  /**
   * For a name without `/`, the filename recorded from the host's public id
   * (the folder, `/`, the id asked for) is the id asked for.
   */
  lemma StoredFilename(name: string, mimeType: string, now: nat)
    requires '/' !in name
    ensures var q := RequestFor(name, mimeType, now); FilenameOf(q.folder + "/" + q.publicId) == q.publicId
  {
    var q := RequestFor(name, mimeType, now);
    var d := Text.Decimal(now);
    var s := Text.StripExtension(name);
    var e := Ext(name);
    assert '/' !in d by {
      forall i | 0 <= i < |d| ensures d[i] != '/' {
        assert Text.IsDigit(d[i]);
      }
    }
    assert '/' !in s by {
      forall i | 0 <= i < |s| ensures s[i] != '/' {
        assert s[i] == name[i];
      }
    }
    assert '/' !in e by {
      forall i | 0 <= i < |e| ensures e[i] != '/' {
        assert e[i] == name[|name| - |e| + i];
      }
    }
    assert BaseName(now, name) == d + "-" + s;
    FilenameUnderFolder(q.folder, q.publicId);
  }

  /**
   * uploadFileBuffer's guard: a missing buffer or an empty name. An empty
   * buffer object is truthy and passes.
   */
  function UploadCheck(buffer: Option<seq<bv8>>, name: string): (err: Option<Outcome<FileInstance>>)
    ensures err.None? <==> buffer.Some? && name != ""
    ensures err.Some? ==> err == Some(BadRequest("File buffer and original name are required"))
  {
    if buffer.None? || name == "" then Some(BadRequest("File buffer and original name are required")) else None
  }

  /** The recorded row: the host's id and URL, the type matching the resource type, the buffer's size. */
  function Recorded(name: string, mimeType: string, buffer: seq<bv8>, up: Uploaded): (f: FileInstance)
    ensures f.filename == FilenameOf(up.publicId) && f.path == up.publicId && f.url == up.secureUrl
    ensures MapFileTypeToResourceType(f.fileType) == ResolveResourceType(mimeType)
    ensures f.size == |buffer| && f.originalFilename == name && f.mimeType == mimeType
  {
    FileInstance(FilenameOf(up.publicId), name, up.publicId, up.secureUrl,
                 FileTypeOf(ResolveResourceType(mimeType)), mimeType, |buffer|)
  }

  datatype Deleted = Deleted(success: bool, id: Id, resourceType: ResourceType, message: string)

  /** deleteResource's guards: the row must exist, and the host must answer `ok` or `not found`. */
  function DeleteCheck(files: map<Id, FileInstance>, k: Id, destroyResult: string): (err: Option<Outcome<Deleted>>)
    ensures err.None? <==> k in files && (destroyResult == "ok" || destroyResult == "not found")
    ensures k !in files ==> err == Some(BadRequest("File not available on the server"))
    ensures k in files && err.Some? ==> err == Some(BadRequest("Failed to delete file from Cloudinary"))
  {
    if k !in files then Some(BadRequest("File not available on the server"))
    else if destroyResult != "ok" && destroyResult != "not found" then Some(BadRequest("Failed to delete file from Cloudinary"))
    else None
  }

  class FileStore {
    var files: map<Id, FileInstance>
    var nextId: Id

    ghost predicate Valid()
      reads this
    {
      Bounded(files, nextId)
    }

    constructor ()
      ensures Valid() && files == map[] && nextId == 0
    {
      files, nextId := map[], 0;
    }

    /**
     * uploadFileBuffer: `cloud` is the host's answer to `RequestFor(...)`;
     * a failed upload is passed on and nothing is recorded.
     */
    method UploadFileBuffer(buffer: Option<seq<bv8>>, name: string, mimeType: string, now: nat, cloud: Outcome<Uploaded>)
      returns (r: Outcome<FileInstance>)
      requires Valid()
      modifies this
      ensures Valid()
      ensures var e := UploadCheck(buffer, name);
        if e.Some? then r == e.value && files == old(files) && nextId == old(nextId)
        else if !cloud.Ok? then r == cloud.PropagateFailure() && files == old(files) && nextId == old(nextId)
        else
          var f := Recorded(name, mimeType, buffer.value, cloud.value);
          r == Ok(f) && files == old(files)[old(nextId) := f] && nextId == old(nextId) + 1
    {
      var e := UploadCheck(buffer, name);
      if e.Some? {
        return e.value;
      }
      if !cloud.Ok? {
        return cloud.PropagateFailure();
      }
      var f := Recorded(name, mimeType, buffer.value, cloud.value);
      files := files[nextId := f];
      nextId := nextId + 1;
      r := Ok(f);
    }

    /** The resource type deleteResource asks the host to destroy `k` with. */
    function DestroyType(k: Id): ResourceType
      reads this
      requires k in files
    {
      MapFileTypeToResourceType(files[k].fileType)
    }

    /** deleteResource: the row is removed only after the host confirms. */
    method DeleteResource(k: Id, destroyResult: string) returns (r: Outcome<Deleted>)
      requires Valid()
      modifies this
      ensures Valid() && nextId == old(nextId)
      ensures var e := DeleteCheck(old(files), k, destroyResult);
        if e.Some? then r == e.value && files == old(files)
        else
          r == Ok(Deleted(true, k, MapFileTypeToResourceType(old(files)[k].fileType), "File deleted successfully"))
          && files == old(files) - {k}
    {
      var e := DeleteCheck(files, k, destroyResult);
      if e.Some? {
        return e.value;
      }
      r := Ok(Deleted(true, k, DestroyType(k), "File deleted successfully"));
      files := files - {k};
    }
  }

  /** A recorded upload is destroyed with the resource type it was uploaded as. */
  lemma UploadThenDestroyType(name: string, mimeType: string, now: nat, buffer: seq<bv8>, up: Uploaded)
    ensures MapFileTypeToResourceType(Recorded(name, mimeType, buffer, up).fileType) == RequestFor(name, mimeType, now).resourceType
  {
  }
}
