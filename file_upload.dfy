/** backend/utils/fileUpload.js: the storage `params` function, the MIME allowlist and the
    per-type size limits `fileFilter` records, the ordered size check `checkFileSize`, and
    the Multer error mapping. Cloudinary and Multer themselves are not part of this model. */
module FileUpload {
  import opened Js
  import opened ErrorHandler

  const MiB: nat := 1024 * 1024
  const Folder := "blogytech"

  // ---------------------------------------------------------------------------
  // Storage parameters
  // ---------------------------------------------------------------------------

  /** What the storage `params` function returns for a file. */
  datatype Params = Params(folder: string, resourceType: string)

  /** The storage `params` function: the resource type from the MIME type's prefix
      (Cloudinary stores audio as video). */
  function ResourceParams(mimetype: string): (p: Params)
    ensures p.folder == Folder
    ensures p.resourceType in {"image", "video", "raw"}
    ensures p.resourceType == "image" <==> StartsWith(mimetype, "image")
    ensures p.resourceType == "video" <==> !StartsWith(mimetype, "image")
                                           && (StartsWith(mimetype, "video") || StartsWith(mimetype, "audio"))
  {
    var resourceType :=
      if StartsWith(mimetype, "image") then "image"
      else if StartsWith(mimetype, "video") then "video"
      else if StartsWith(mimetype, "audio") then "video"
      else "raw";
    Params(Folder, resourceType)
  }

  // ---------------------------------------------------------------------------
  // Allowed types and limits
  // ---------------------------------------------------------------------------

  const Images: seq<string> := ["image/jpg", "image/jpeg", "image/png", "image/gif"]
  const Videos: seq<string> := ["video/mp4", "video/mpeg"]
  const Audios: seq<string> := ["audio/mpeg", "audio/mp3"]
  const Docs: seq<string> := ["application/pdf", "application/zip"]

  /** The spread of the four lists that `fileFilter` tests with `includes`. */
  const AllowedTypes: seq<string> := Images + Videos + Audios + Docs

  /** The limit `fileFilter` records for an accepted MIME type: the first list that holds it
      decides, and everything past the first three lists gets the document limit. */
  function MaxSize(mimetype: string): (n: nat)
    ensures mimetype in Images ==> n == 10 * MiB
    ensures mimetype in Videos ==> n == 50 * MiB
    ensures mimetype in Audios && mimetype !in Videos ==> n == 20 * MiB
    ensures mimetype in Docs ==> n == 5 * MiB
  {
    if mimetype in Images then 10 * MiB
    else if mimetype in Videos then 50 * MiB
    else if mimetype in Audios then 20 * MiB
    else 5 * MiB
  }

  /** Every allowlisted type is stored under the resource type of its own family: images as
      "image", videos and audios as "video", documents as "raw". */
  lemma AllowedTypesClassified(mimetype: string)
    requires mimetype in AllowedTypes
    ensures mimetype in Images <==> ResourceParams(mimetype).resourceType == "image"
    ensures mimetype in Videos + Audios <==> ResourceParams(mimetype).resourceType == "video"
    ensures mimetype in Docs <==> ResourceParams(mimetype).resourceType == "raw"
  {
    assert mimetype in Videos + Audios <==> mimetype in Videos || mimetype in Audios;
    if mimetype in Images {
      assert mimetype[..5] == "image";
    } else if mimetype in Videos {
      assert mimetype[0] == 'v' && mimetype[..5] == "video";
    } else if mimetype in Audios {
      assert mimetype[0] == 'a' && mimetype[..5] == "audio";
    } else {
      assert mimetype[0] == 'a' && mimetype[1] == 'p';
    }
  }

  /** The limit of every allowlisted type is a whole number of MiB, so the rounded figure the
      oversize message prints is exact: 10, 50, 20 or 5. */
  lemma MaxSizeInWholeMiB(mimetype: string)
    requires mimetype in AllowedTypes
    ensures RoundDiv(MaxSize(mimetype), MiB) in {10, 50, 20, 5}
    ensures RoundDiv(MaxSize(mimetype), MiB) * MiB == MaxSize(mimetype)
  {
  }

  // ---------------------------------------------------------------------------
  // Files and fileFilter
  // ---------------------------------------------------------------------------

  /** The part of a Multer file object these helpers read. */
  datatype File = File(originalname: string, mimetype: string, size: nat)

  /** The limits dictionary after `fileFilter` has run on `file`, with the error it passes to
      its callback: accepted files record their limit under their name, rejected ones leave
      the dictionary as it was. */
  datatype Filtered = Filtered(limits: Option<map<string, nat>>, err: Option<AppError>)

  const UnsupportedType := StatusError(400, "fail", "Unsupported file type.")

  /** `req.fileSizeLimits` is a plain object, so the map holds its own keys only. Assigning a
      number to the key "__proto__" goes to the inherited `__proto__` setter, which ignores
      anything that is not an object: nothing is recorded. */
  const ProtoKey := "__proto__"

  /** The property names a plain object inherits from `Object.prototype`. Reading one that is not
      an own key yields a function (or `Object.prototype` itself for "__proto__"). */
  const ObjectPrototypeNames: set<string> :=
    {"__proto__", "constructor", "hasOwnProperty", "isPrototypeOf", "propertyIsEnumerable", "toString",
     "toLocaleString", "valueOf", "__defineGetter__", "__defineSetter__", "__lookupGetter__", "__lookupSetter__"}

  /** `fileFilter(req, file, cb)` over `req.fileSizeLimits`. */
  function FilterFile(limits: Option<map<string, nat>>, file: File): (r: Filtered)
    ensures r.err.None? <==> file.mimetype in AllowedTypes
    ensures r.err.Some? ==> r.err == Some(UnsupportedType) && r.limits == limits
    ensures r.err.None? ==> r.limits.Some?
    ensures r.err.None? && file.originalname != ProtoKey
            ==> file.originalname in r.limits.value && r.limits.value[file.originalname] == MaxSize(file.mimetype)
    ensures r.err.None? && file.originalname == ProtoKey ==>
              r.limits == Some(if limits.Some? then limits.value else map[])
    ensures r.err.None? ==> forall name :: name != file.originalname ==>
              (name in r.limits.value <==> limits.Some? && name in limits.value)
    ensures r.err.None? ==> forall name :: name != file.originalname && limits.Some? && name in limits.value ==>
              r.limits.value[name] == limits.value[name]
  {
    if file.mimetype in AllowedTypes then
      var existing := if limits.Some? then limits.value else map[];
      if file.originalname == ProtoKey then Filtered(Some(existing), None)
      else Filtered(Some(existing[file.originalname := MaxSize(file.mimetype)]), None)
    else
      Filtered(limits, Some(UnsupportedType))
  }

  /** Two accepted files with the same name: the later one's limit is the one kept, except for
      the name "__proto__", under which neither is recorded. */
  lemma SameNameOverwrites(limits: Option<map<string, nat>>, first: File, second: File)
    requires first.originalname == second.originalname
    requires first.mimetype in AllowedTypes && second.mimetype in AllowedTypes
    ensures var after := FilterFile(FilterFile(limits, first).limits, second).limits;
            && after.Some?
            && (second.originalname != ProtoKey ==> after.value[second.originalname] == MaxSize(second.mimetype))
            && (second.originalname == ProtoKey ==> after == Some(if limits.Some? then limits.value else map[]))
  {
  }

  // ---------------------------------------------------------------------------
  // checkFileSize
  // ---------------------------------------------------------------------------

  /** One value of the `req.files` object: a file or an array of files. */
  datatype FieldValue = One(file: File) | Many(files: seq<File>)

  /** `req.files`: absent, an array (`upload.array`), or an object whose values are listed in
      their enumeration order (`upload.fields`). */
  datatype FilesField = NoFiles | FileArray(files: seq<File>) | FileFields(values: seq<FieldValue>)

  function ValueFiles(v: FieldValue): seq<File>
  {
    match v
    case One(f) => [f]
    case Many(fs) => fs
  }

  /** The files of `Object.values(req.files)`, each array spread in place. */
  function Flatten(values: seq<FieldValue>): seq<File>
  {
    if values == [] then [] else Flatten(values[..|values| - 1]) + ValueFiles(values[|values| - 1])
  }

  /** A file is among the flattened ones exactly when some field value holds it. */
  lemma {:induction false} FlattenMembers(values: seq<FieldValue>, f: File)
    ensures f in Flatten(values) <==> exists i :: 0 <= i < |values| && f in ValueFiles(values[i])
  {
    if values != [] {
      var init := values[..|values| - 1];
      FlattenMembers(init, f);
      assert forall i :: 0 <= i < |init| ==> init[i] == values[i];
      if f in Flatten(values) && f !in Flatten(init) {
        assert f in ValueFiles(values[|values| - 1]);
      }
    }
  }

  /** `allFiles`: `req.file` first, then the files of `req.files` in order. */
  function Collected(file: Option<File>, files: FilesField): seq<File>
  {
    (if file.Some? then [file.value] else [])
    + match files
      case NoFiles => []
      case FileArray(fs) => fs
      case FileFields(values) => Flatten(values)
  }

  /** A value `req.fileSizeLimits?.[name] || 0` can take: a number of bytes, or an inherited
      function or object, which `file.size > limit` converts to NaN. */
  datatype Limit = Bytes(n: nat) | NotANumber

  /** `req.fileSizeLimits?.[name] || 0`: a recorded name gives its limit; with a dictionary, an
      inherited name gives a truthy non-number; anything else (or no dictionary) counts as 0. */
  function LimitOf(limits: Option<map<string, nat>>, name: string): Limit
  {
    if limits.Some? && name in limits.value then Bytes(limits.value[name])
    else if limits.Some? && name in ObjectPrototypeNames then NotANumber
    else Bytes(0)
  }

  /** `file.size > limit`: a comparison with NaN is false. */
  predicate Oversize(limits: Option<map<string, nat>>, f: File)
  {
    LimitOf(limits, f.originalname).Bytes? && f.size > LimitOf(limits, f.originalname).n
  }

  /** The first file the loop of `checkFileSize` stops at, if any. */
  function FirstOversize(files: seq<File>, limits: Option<map<string, nat>>): Option<File>
  {
    if files == [] then None
    else if Oversize(limits, files[0]) then Some(files[0])
    else FirstOversize(files[1..], limits)
  }

  /** `FirstOversize` finds a file exactly when some file is oversize, and the one it finds is
      oversize and preceded only by files within their limits. */
  lemma {:induction false} FirstOversizeMeaning(files: seq<File>, limits: Option<map<string, nat>>)
    ensures var r := FirstOversize(files, limits);
            r.None? <==> forall i :: 0 <= i < |files| ==> !Oversize(limits, files[i])
    ensures var r := FirstOversize(files, limits);
            r.Some? ==> exists i :: 0 <= i < |files| && files[i] == r.value && Oversize(limits, r.value)
                                   && forall j :: 0 <= j < i ==> !Oversize(limits, files[j])
  {
    if files != [] && !Oversize(limits, files[0]) {
      var rest := files[1..];
      FirstOversizeMeaning(rest, limits);
      assert forall j :: 1 <= j < |files| ==> files[j] == rest[j - 1];
      if FirstOversize(rest, limits).Some? {
        var i :| 0 <= i < |rest| && rest[i] == FirstOversize(rest, limits).value
                 && Oversize(limits, rest[i]) && forall j :: 0 <= j < i ==> !Oversize(limits, rest[j]);
        assert files[i + 1] == rest[i];
      }
    } else if files != [] {
      assert files[0] == FirstOversize(files, limits).value;
    }
  }

  /** The error `checkFileSize` passes to `next` for an oversize file. */
  function OversizeError(f: File, limit: nat): AppError
  {
    StatusError(400, "fail",
      "File \"" + f.originalname + "\" is too large. Max allowed size is " + NatToString(RoundDiv(limit, MiB)) + " MB.")
  }

  /** The argument `checkFileSize` calls `next` with: none when every file fits. */
  function SizeCheck(file: Option<File>, files: FilesField, limits: Option<map<string, nat>>): (r: Option<AppError>)
    ensures r.None? <==> forall f :: f in Collected(file, files) ==> !Oversize(limits, f)
    ensures r.Some? ==> r.value.statusCode == Some(400) && r.value.status == Some("fail")
    ensures r.Some? ==> var all := Collected(file, files);
              exists i :: 0 <= i < |all| && Oversize(limits, all[i])
                          && r.value == OversizeError(all[i], LimitOf(limits, all[i].originalname).n)
                          && forall j :: 0 <= j < i ==> !Oversize(limits, all[j])
  {
    FirstOversizeMeaning(Collected(file, files), limits);
    var first := FirstOversize(Collected(file, files), limits);
    if first.Some? then Some(OversizeError(first.value, LimitOf(limits, first.value.originalname).n)) else None
  }

  /** A file whose name `fileFilter` never recorded is rejected as soon as it is not empty,
      unless a dictionary exists and the name is inherited from `Object.prototype`: then the
      file is never too large and the check goes on with the other files. */
  lemma UnrecordedFileRejected(file: File, files: FilesField, limits: Option<map<string, nat>>)
    requires file.size > 0
    requires limits.None? || file.originalname !in limits.value
    ensures !(limits.Some? && file.originalname in ObjectPrototypeNames)
            ==> SizeCheck(Some(file), files, limits) == Some(OversizeError(file, 0))
    ensures limits.Some? && file.originalname in ObjectPrototypeNames
            ==> SizeCheck(Some(file), files, limits) == SizeCheck(None, files, limits)
  {
    assert Collected(Some(file), files) == [file] + Collected(None, files);
    assert ([file] + Collected(None, files))[1..] == Collected(None, files);
  }

  /** The single file, accepted by the filter, passes exactly when it is within its type's limit;
      a file named "__proto__" passes whatever its size. */
  lemma FilteredSingleFile(file: File)
    requires file.mimetype in AllowedTypes
    ensures SizeCheck(Some(file), NoFiles, FilterFile(None, file).limits).None?
            <==> file.originalname == ProtoKey || file.size <= MaxSize(file.mimetype)
  {
  }

  // ---------------------------------------------------------------------------
  // The request
  // ---------------------------------------------------------------------------

  /** The request fields these helpers read and write. */
  class UploadRequest {
    var fileSizeLimits: Option<map<string, nat>>
    var file: Option<File>
    var files: FilesField

    constructor (file: Option<File>, files: FilesField)
      ensures fileSizeLimits.None? && this.file == file && this.files == files
    {
      fileSizeLimits := None;
      this.file := file;
      this.files := files;
    }

    /** `fileFilter(req, file, cb)`: returns the error passed to `cb` and whether the file is kept. */
    method FileFilter(f: File) returns (err: Option<AppError>, accepted: bool)
      modifies this`fileSizeLimits
      ensures accepted <==> err.None?
      ensures Filtered(fileSizeLimits, err) == FilterFile(old(fileSizeLimits), f)
    {
      if f.mimetype in AllowedTypes {
        var maxSize := 0;
        if f.mimetype in Images {
          maxSize := 10 * MiB;
        } else if f.mimetype in Videos {
          maxSize := 50 * MiB;
        } else if f.mimetype in Audios {
          maxSize := 20 * MiB;
        } else {
          maxSize := 5 * MiB;
        }
        if fileSizeLimits.None? {
          fileSizeLimits := Some(map[]);
        }
        if f.originalname != ProtoKey {
          fileSizeLimits := Some(fileSizeLimits.value[f.originalname := maxSize]);
        }
        return None, true;
      }
      return Some(UnsupportedType), false;
    }

    /** The `allFiles` array `checkFileSize` builds by pushing. */
    method AllFiles() returns (allFiles: seq<File>)
      ensures allFiles == Collected(file, files)
    {
      allFiles := [];
      if file.Some? {
        allFiles := allFiles + [file.value];
      }
      match files {
        case NoFiles =>
        case FileArray(fs) =>
          allFiles := allFiles + fs;
        case FileFields(values) =>
          var start := allFiles;
          var i := 0;
          while i < |values|
            invariant 0 <= i <= |values|
            invariant allFiles == start + Flatten(values[..i])
          {
            assert values[..i + 1][..i] == values[..i];
            allFiles := allFiles + ValueFiles(values[i]);
            i := i + 1;
          }
          assert values[..|values|] == values;
      }
    }

    /** `checkFileSize(req, res, next)`: the argument it calls `next` with. */
    method CheckFileSize() returns (r: Option<AppError>)
      ensures r == SizeCheck(file, files, fileSizeLimits)
    {
      var allFiles := AllFiles();
      var i := 0;
      while i < |allFiles|
        invariant 0 <= i <= |allFiles|
        invariant FirstOversize(allFiles, fileSizeLimits) == FirstOversize(allFiles[i..], fileSizeLimits)
      {
        var f := allFiles[i];
        var limit := LimitOf(fileSizeLimits, f.originalname);
        if limit.Bytes? && f.size > limit.n {
          return Some(OversizeError(f, limit.n));
        }
        assert allFiles[i..][1..] == allFiles[i + 1..];
        i := i + 1;
      }
      return None;
    }
  }

  // ---------------------------------------------------------------------------
  // multerErrorHandler
  // ---------------------------------------------------------------------------

  /** An error reaching `multerErrorHandler`: a `multer.MulterError` with its code, or any other. */
  datatype UploadFailure = MulterError(code: string) | OtherError(err: AppError)

  /** The error `multerErrorHandler` forwards with `next`. */
  function MulterErrorHandler(e: UploadFailure): (r: AppError)
    ensures e.OtherError? ==> r == e.err
    ensures e.MulterError? ==> r.statusCode == Some(400) && r.status == Some("fail")
    ensures e == MulterError("LIMIT_FILE_SIZE") ==> r.message == "File too large."
    ensures e == MulterError("LIMIT_UNEXPECTED_FILE") ==> r.message == "Unexpected file."
    ensures e.MulterError? && e.code !in {"LIMIT_FILE_SIZE", "LIMIT_UNEXPECTED_FILE"} ==> r.message == "File upload error."
  {
    match e
    case MulterError(code) =>
      var message :=
        if code == "LIMIT_FILE_SIZE" then "File too large."
        else if code == "LIMIT_UNEXPECTED_FILE" then "Unexpected file."
        else "File upload error.";
      StatusError(400, "fail", message)
    case OtherError(err) => err
  }

  /** Every Multer error ends as an HTTP 400 "fail" response; other errors keep their own envelope. */
  lemma MulterErrorsAre400(e: UploadFailure, nodeEnv: Option<string>)
    ensures e.MulterError? ==> GlobalErrorHandler(MulterErrorHandler(e), nodeEnv).code == 400
                               && GlobalErrorHandler(MulterErrorHandler(e), nodeEnv).body.status == "fail"
    ensures e.OtherError? ==> GlobalErrorHandler(MulterErrorHandler(e), nodeEnv) == GlobalErrorHandler(e.err, nodeEnv)
  {
  }
}
