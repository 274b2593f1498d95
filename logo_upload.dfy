/**
 * Logo upload validation (project/api/logo.ts): the serverless handler's
 * guards, its choice of file and name, the extension derived from the name,
 * the extension allow-list and the shape of the storage key. The extension
 * rule and the allow-list are shared with the express route and the
 * settings screen, which import them from here.
 */
module LogoUpload {
  import opened Wrappers
  import opened Js
  import opened Http

  const AllowedExtensions: seq<string> := ["png", "jpg", "jpeg", "svg", "webp"]

  predicate Allowed(ext: string) {
    ext in AllowedExtensions
  }

  /** `(name.split('.').pop() || 'png').toLowerCase()`. */
  function Extension(name: string): (ext: string)
    ensures ext != "" && '.' !in ext
  {
    var ext := Lower(OrText(Some(LastSegment(name, '.')), "png"));
    LowerKeepsChar(OrText(Some(LastSegment(name, '.')), "png"), '.');
    ext
  }

  /**
   * The extension is the lower-cased text after the last '.'; a name without
   * any '.' is taken whole; 'png' is used only when that text is empty.
   */
  lemma ExtensionOfName(stem: string, tail: string)
    requires '.' !in tail
    ensures tail != "" ==> Extension(stem + "." + tail) == Lower(tail)
    ensures tail == "" ==> Extension(stem + "." + tail) == "png"
    ensures tail != "" ==> Extension(tail) == Lower(tail)
    ensures Extension("") == "png"
  {
    assert stem + "." + tail == stem + ['.'] + tail;
    LastSegmentAfter(stem, '.', tail);
    ExtensionOfSegment(stem + "." + tail);
    LastSegmentUnique(tail, '.', tail);
    ExtensionOfSegment(tail);
    ExtensionOfSegment("");
  }

  /** The extension in terms of the last segment of the name. */
  lemma ExtensionOfSegment(name: string)
    ensures Extension(name) == if LastSegment(name, '.') == "" then "png" else Lower(LastSegment(name, '.'))
  {
    assert Lower("png") == "png";
  }

  /** `'logos/' + Date.now() + '_' + random + '.' + ext`: the clock and the random text are parameters. */
  function StorageKey(now: nat, nonce: string, ext: string): string {
    "logos/" + Decimal(now) + "_" + nonce + "." + ext
  }

  /** Every key lies under 'logos/' and ends in the extension. */
  lemma StorageKeyShape(now: nat, nonce: string, ext: string)
    ensures StartsWith(StorageKey(now, nonce, ext), "logos/")
    ensures EndsWith(StorageKey(now, nonce, ext), "." + ext)
  {
    var key := StorageKey(now, nonce, ext);
    assert key == "logos/" + (Decimal(now) + "_" + nonce + "." + ext);
    assert key == ("logos/" + Decimal(now) + "_" + nonce) + ("." + ext);
  }

  /** The extension read back from a key is the allowed extension it was built with. */
  lemma StorageKeyRoundTrip(now: nat, nonce: string, ext: string)
    requires Allowed(ext)
    ensures Extension(StorageKey(now, nonce, ext)) == ext
  {
    var stem := "logos/" + Decimal(now) + "_" + nonce;
    assert StorageKey(now, nonce, ext) == stem + "." + ext;
    assert '.' !in ext && Lower(ext) == ext by {
      assert ext == "png" || ext == "jpg" || ext == "jpeg" || ext == "svg" || ext == "webp";
    }
    ExtensionOfName(stem, ext);
  }

  // ---------------------------------------------------------------------
  // The serverless handler
  // ---------------------------------------------------------------------

  /** A file as the multipart parser hands it over. */
  datatype UploadedFile = UploadedFile(
    originalFilename: Option<string>,
    newFilename: Option<string>,
    mimetype: Option<string>)

  /** `files.file`: absent, one file, or an array of them. */
  datatype FileField = Absent | Single(file: UploadedFile) | Several(files: seq<UploadedFile>)

  /** `Array.isArray(files.file) ? files.file[0] : files.file`. */
  function SelectFile(field: FileField): (f: Option<UploadedFile>)
    ensures field.Several? && |field.files| > 0 ==> f == Some(field.files[0])
    ensures field.Absent? || (field.Several? && |field.files| == 0) ==> f.None?
    ensures field.Single? ==> f == Some(field.file)
  {
    match field
    case Absent => None
    case Single(file) => Some(file)
    case Several(files) => if |files| > 0 then Some(files[0]) else None
  }

  /** `originalFilename || newFilename || 'logo'`. */
  function FileName(file: UploadedFile): (name: string)
    ensures name != ""
    ensures file.originalFilename.Some? && file.originalFilename.value != "" ==> name == file.originalFilename.value
    ensures ((file.originalFilename.None? || file.originalFilename.value == "") &&
             (file.newFilename.None? || file.newFilename.value == "")) ==> name == "logo"
    ensures ((file.originalFilename.None? || file.originalFilename.value == "") &&
             file.newFilename.Some? && file.newFilename.value != "") ==> name == file.newFilename.value
  {
    OrText(file.originalFilename, OrText(file.newFilename, "logo"))
  }

  /** What the storage upload reports: the public URL, an error object, or a thrown error. */
  datatype StorageResult = StorageOk(publicUrl: string) | StorageError(message: string) | StorageThrew

  /** A call to the 'logos' bucket. */
  datatype StorageCall = Upload(key: string, contentType: string)

  predicate Configured(env: Env) {
    EnvSet(env, "SUPABASE_URL") && EnvSet(env, "SUPABASE_SERVICE_KEY")
  }

  /**
   * The `/api/logo` serverless handler. The guards run in order (method,
   * configuration, file, extension) and each failing guard answers before any
   * upload. `reply == None` is a handler that rejected (the storage call threw),
   * which the platform reports on its own.
   */
  method Handler(httpMethod: string, env: Env, files: FileField, now: nat, nonce: string, storage: StorageResult)
    returns (reply: Option<Reply>, calls: seq<StorageCall>)
    ensures httpMethod != "POST" ==> reply == Some(ErrorJson(405, "Method not allowed")) && calls == []
    ensures httpMethod == "POST" && !Configured(env) ==>
      reply == Some(ErrorJson(500, "Server not configured for uploads")) && calls == []
    ensures httpMethod == "POST" && Configured(env) && SelectFile(files).None? ==>
      reply == Some(ErrorJson(400, "No file provided")) && calls == []
    ensures httpMethod == "POST" && Configured(env) && SelectFile(files).Some? &&
            !Allowed(Extension(FileName(SelectFile(files).value))) ==>
      reply == Some(ErrorJson(400, "Unsupported file type")) && calls == []
    ensures calls != [] <==>
      httpMethod == "POST" && Configured(env) && SelectFile(files).Some? &&
      Allowed(Extension(FileName(SelectFile(files).value)))
    ensures calls != [] ==>
      var file := SelectFile(files).value;
      calls == [Upload(StorageKey(now, nonce, Extension(FileName(file))), OrText(file.mimetype, "application/octet-stream"))]
    ensures calls != [] ==> match storage {
      case StorageOk(url) => reply == Some(Reply(200, map[], Json([("url", url)])))
      case StorageError(m) => reply == Some(ErrorJson(400, m))
      case StorageThrew => reply.None?
    }
  {
    calls := [];
    if httpMethod != "POST" {
      return Some(ErrorJson(405, "Method not allowed")), calls;
    }
    if !EnvSet(env, "SUPABASE_URL") || !EnvSet(env, "SUPABASE_SERVICE_KEY") {
      return Some(ErrorJson(500, "Server not configured for uploads")), calls;
    }
    var file := SelectFile(files);
    if file.None? {
      return Some(ErrorJson(400, "No file provided")), calls;
    }
    var filename := FileName(file.value);
    var ext := Extension(filename);
    if ext !in AllowedExtensions {
      return Some(ErrorJson(400, "Unsupported file type")), calls;
    }
    var pathKey := StorageKey(now, nonce, ext);
    calls := [Upload(pathKey, OrText(file.value.mimetype, "application/octet-stream"))];
    match storage {
      case StorageThrew =>
        reply := None;
      case StorageError(message) =>
        reply := Some(ErrorJson(400, message));
      case StorageOk(url) =>
        reply := Some(Reply(200, map[], Json([("url", url)])));
    }
  }
}
