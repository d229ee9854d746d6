/** backend/middleware/file-upload.js: the multer configuration that accepts
    image uploads and names the stored files. */
module FileUpload {
  import opened Wrappers

  /** `MIME_TYPE_MAP`: accepted mimetypes and the extension each is saved with. */
  const MIME_TYPE_MAP: map<string, string> :=
    map["image/png" := "png", "image/jpg" := "jpg", "image/jpeg" := "jpeg"]

  /** The directory every upload is written to, `uploads/images`, as its
      path segments; app.js serves the same directory under the same URL. */
  const DESTINATION: seq<string> := ["uploads", "images"]

  const INVALID_MIME := "Invalid mime type!"

  /** `MIME_TYPE_MAP[mimetype]`; `None` is `undefined`. */
  function Extension(mime: string): (ext: Option<string>)
    ensures ext == Some("png") <==> mime == "image/png"
    ensures ext == Some("jpg") <==> mime == "image/jpg"
    ensures ext == Some("jpeg") <==> mime == "image/jpeg"
    ensures ext == None <==> mime !in {"image/png", "image/jpg", "image/jpeg"}
  {
    if mime in MIME_TYPE_MAP then Some(MIME_TYPE_MAP[mime]) else None
  }

  /** The arguments `fileFilter` passes to its callback: `cb(error, isValid)`. */
  datatype Verdict = Verdict(error: Option<string>, accept: bool)

  function Filter(mime: string): (v: Verdict)
    // exactly the three image types are accepted
    ensures v.accept <==> mime in {"image/png", "image/jpg", "image/jpeg"}
    // a null error with an accepted file, the fixed message with a refused one
    ensures v.accept ==> v.error == None
    ensures !v.accept ==> v.error == Some(INVALID_MIME)
  {
    var isValid := Extension(mime).Some?;
    Verdict(if isValid then None else Some(INVALID_MIME), isValid)
  }

  /** `uuid() + '.' + ext`, with the identifier passed in. An unmapped
      mimetype would give JavaScript's `"undefined"` as extension. */
  function FileName(uuid: string, mime: string): (name: string)
    ensures |name| > |uuid| && name[..|uuid|] == uuid && name[|uuid|] == '.'
    ensures Filter(mime).accept ==> name[|uuid| + 1..] in {"png", "jpg", "jpeg"}
    ensures name[|uuid| + 1..] == Extension(mime).GetOr("undefined")
  {
    uuid + "." + Extension(mime).GetOr("undefined")
  }
}
