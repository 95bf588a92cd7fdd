/** Classifying an uploaded file (`app/api/upload/route.js`): the size limit, whether the file is
    a PDF, and the storage options derived from its name. The upload itself is done by the media
    host; its outcome is an input. */
module Upload {
  import opened Common

  /** The file part of the form: its name and media type when given, and its size in bytes. */
  datatype UploadFile = UploadFile(name: Option<string>, mediaType: Option<string>, size: int)

  /** The options the upload is made with. */
  datatype UploadOptions = UploadOptions(resourceType: string, folder: string, publicId: string)

  /** An error raised by the upload: its message and its HTTP code, when present. */
  datatype UploadError = UploadError(message: Option<string>, httpCode: Option<int>)

  /** What the media host reports: the stored file's address and public id, or an error. */
  datatype Outcome = Uploaded(secureUrl: string, publicId: string) | UploadFailed(error: UploadError)

  const MaxSize := 4 * 1024 * 1024
  const DefaultName := "upload"
  const PdfFolder := "legacy-capsule/templates"
  const AssetFolder := "legacy-capsule"

  /** The message for an oversized file: the limit in whole megabytes. */
  function TooLargeMessage(): (m: string)
    ensures m == "File too large. Maximum size is 4MB"
  {
    "File too large. Maximum size is " + Decimal(MaxSize / (1024 * 1024)) + "MB"
  }

  /** The name the options are derived from: the file's, or "upload" when it has none. */
  function NameOf(file: UploadFile): (r: string)
    ensures Truthy(file.name) ==> r == file.name.value
    ensures !Truthy(file.name) ==> r == DefaultName
  {
    if Truthy(file.name) then file.name.value else DefaultName
  }

  /** A PDF: the media type mentions "pdf", or the name ends in ".pdf", ignoring case either way. */
  predicate IsPdf(file: UploadFile)
  {
    (Truthy(file.mediaType) && Contains(ToLower(file.mediaType.value), "pdf"))
    || EndsWith(ToLower(NameOf(file)), ".pdf")
  }

  // ---------------------------------------------------------------------------
  // The final extension of a name
  // ---------------------------------------------------------------------------

  /** `s` has an extension starting at `i`: a dot followed by at least one character and then
      only characters other than `.` and `/` up to the end. */
  predicate ExtensionAt(s: string, i: int)
  {
    0 <= i < |s| - 1 && s[i] == '.' && forall j :: i < j < |s| ==> s[j] != '.' && s[j] != '/'
  }

  /** Where the final extension starts, scanning back from the end. */
  function ExtensionStart(s: string): (r: Option<nat>)
    ensures r.Some? ==> ExtensionAt(s, r.value)
    ensures r.None? ==> forall i :: !ExtensionAt(s, i)
  {
    if |s| < 2 || s[|s| - 1] == '.' || s[|s| - 1] == '/' then None
    else if s[|s| - 2] == '.' then Some(|s| - 2)
    else
      var p := s[..|s| - 1];
      var r := ExtensionStart(p);
      assert forall i :: ExtensionAt(s, i) ==> ExtensionAt(p, i);
      if r.Some? then
        assert ExtensionAt(s, r.value);
        r
      else r
  }

  /** A name has at most one extension. */
  lemma ExtensionUnique(s: string, i: int, k: int)
    requires ExtensionAt(s, i) && ExtensionAt(s, k)
    ensures i == k
  {
  }

  /** `name.replace(/\.[^./]+$/, "")`: the name without its final extension, if it has one. */
  function StripExtension(s: string): (r: string)
    ensures (exists i :: ExtensionAt(s, i)) ==> forall i :: ExtensionAt(s, i) ==> r == s[..i]
    ensures (forall i :: !ExtensionAt(s, i)) ==> r == s
  {
    match ExtensionStart(s)
    case None => s
    case Some(i) =>
      forall k | ExtensionAt(s, k) ensures s[..i] == s[..k] { ExtensionUnique(s, i, k); }
      s[..i]
  }

  /** Stripping `base.ext` gives back `base` for any extension without a dot or slash. */
  lemma StripExtensionRoundTrip(base: string, ext: string)
    requires ext != [] && forall j :: 0 <= j < |ext| ==> ext[j] != '.' && ext[j] != '/'
    ensures StripExtension(base + "." + ext) == base
  {
    var s := base + "." + ext;
    assert forall j :: |base| < j < |s| ==> s[j] == ext[j - |base| - 1];
    assert ExtensionAt(s, |base|);
    assert s[..|base|] == base;
  }

  /** Stripping never adds anything: the result is a prefix of the name, and what is taken off is
      a dot and a non-empty tail without dots or slashes. */
  lemma StripExtensionRemovesOnlyExtension(s: string)
    ensures StartsWith(s, StripExtension(s))
    ensures StripExtension(s) != s ==> ExtensionAt(s, |StripExtension(s)|)
  {
  }

  // ---------------------------------------------------------------------------
  // Options and replies
  // ---------------------------------------------------------------------------

  /** The public id: the name without its extension, with ".pdf" put back for a PDF. */
  function PublicId(name: string, pdf: bool): string
  {
    if pdf then StripExtension(name) + ".pdf" else StripExtension(name)
  }

  /** The options for an accepted file: raw storage in the templates folder for a PDF, automatic
      detection in the main folder otherwise. */
  function OptionsFor(file: UploadFile): (o: UploadOptions)
    ensures IsPdf(file) ==> o.resourceType == "raw" && o.folder == PdfFolder && EndsWith(o.publicId, ".pdf")
    ensures !IsPdf(file) ==> o.resourceType == "auto" && o.folder == AssetFolder
    ensures o.publicId == StripExtension(NameOf(file)) + (if IsPdf(file) then ".pdf" else "")
    ensures StartsWith(o.publicId, StripExtension(NameOf(file)))
  {
    var pdf := IsPdf(file);
    var stem := StripExtension(NameOf(file));
    assert (stem + ".pdf")[..|stem|] == stem;
    assert (stem + ".pdf")[|stem + ".pdf"| - 4..] == ".pdf";
    UploadOptions(if pdf then "raw" else "auto", if pdf then PdfFolder else AssetFolder, PublicId(NameOf(file), pdf))
  }

  /** A PDF's public id keeps its stem: stripping the id again gives the same stem as the name. */
  lemma PdfPublicIdKeepsStem(file: UploadFile)
    requires IsPdf(file)
    ensures StripExtension(OptionsFor(file).publicId) == StripExtension(NameOf(file))
  {
    var stem := StripExtension(NameOf(file));
    assert OptionsFor(file).publicId == stem + "." + "pdf";
    StripExtensionRoundTrip(stem, "pdf");
  }

  /** The checks before uploading: a file must be given and be at most 4 MB. */
  function Prepare(file: Option<UploadFile>): (r: Reply<UploadOptions>)
    ensures r.Ok? <==> file.Some? && file.value.size <= MaxSize
    ensures file.None? ==> r == Err(400, "No file provided")
    ensures file.Some? && file.value.size > MaxSize ==> r == Err(400, TooLargeMessage())
    ensures r.Ok? ==> r.body == OptionsFor(file.value)
  {
    if file.None? then Err(400, "No file provided")
    else if file.value.size > MaxSize then Err(400, TooLargeMessage())
    else Ok(200, OptionsFor(file.value))
  }

  /** The message reported for a failed upload: the error's own message, else its HTTP code, else
      a generic text. */
  function ErrorMessage(e: UploadError): (m: string)
    ensures Truthy(e.message) ==> m == e.message.value
    ensures !Truthy(e.message) && e.httpCode.Some? && e.httpCode.value != 0 ==>
              StartsWith(m, "Cloudinary error: ") && m[|"Cloudinary error: "|..] == IntText(e.httpCode.value)
    ensures !Truthy(e.message) && (e.httpCode.None? || e.httpCode.value == 0) ==> m == "Upload failed"
  {
    if Truthy(e.message) then e.message.value
    else if e.httpCode.Some? && e.httpCode.value != 0 then
      var m := "Cloudinary error: " + IntText(e.httpCode.value);
      assert m[..|"Cloudinary error: "|] == "Cloudinary error: ";
      m
    else "Upload failed"
  }

  /** The error text names an HTTP code that can be read back from it. */
  lemma ErrorCodeReadable(code: nat)
    requires code != 0
    ensures var m := ErrorMessage(UploadError(None, Some(code)));
            DecimalValue(m[|"Cloudinary error: "|..]) == code
  {
    DecimalRoundTrip(code);
  }

  /** `POST /api/upload`: the checks, then the media host's outcome. */
  function Post(file: Option<UploadFile>, outcome: Outcome): (r: Reply<Outcome>)
    ensures Prepare(file).Err? ==> r == Err(Prepare(file).status, Prepare(file).error)
    ensures Prepare(file).Ok? && outcome.Uploaded? ==> r == Ok(200, outcome)
    ensures Prepare(file).Ok? && outcome.UploadFailed? ==> r == Err(500, ErrorMessage(outcome.error))
  {
    match Prepare(file)
    case Err(status, error) => Err(status, error)
    case Ok(_, _) =>
      match outcome
      case Uploaded(_, _) => Ok(200, outcome)
      case UploadFailed(e) => Err(500, ErrorMessage(e))
  }

  /** A file of exactly 4 MB is accepted; one byte more is refused. */
  lemma SizeLimitBoundary(name: Option<string>, mediaType: Option<string>)
    ensures Prepare(Some(UploadFile(name, mediaType, MaxSize))).Ok?
    ensures Prepare(Some(UploadFile(name, mediaType, MaxSize + 1))) == Err(400, "File too large. Maximum size is 4MB")
  {
  }

  /** A lower-case letter is the lower case of itself and of its capital and of nothing else. */
  lemma LowerCharIs(c: char, lower: char, upper: char)
    requires 'A' <= upper <= 'Z' && lower as int == upper as int + 32
    ensures LowerChar(c) == lower <==> c == lower || c == upper
  {
  }

  /** A name ends in ".pdf" ignoring case exactly when it ends in a dot followed by `p`, `d` and
      `f`, each in either case. */
  lemma PdfSuffixInAnyCase(n: string)
    ensures EndsWith(ToLower(n), ".pdf") <==>
              && |n| >= 4 && n[|n| - 4] == '.'
              && (n[|n| - 3] == 'p' || n[|n| - 3] == 'P')
              && (n[|n| - 2] == 'd' || n[|n| - 2] == 'D')
              && (n[|n| - 1] == 'f' || n[|n| - 1] == 'F')
  {
    if |n| >= 4 {
      var k := |n| - 4;
      LowerSuffix(n, k);
      LowerCharIs(n[k + 1], 'p', 'P');
      LowerCharIs(n[k + 2], 'd', 'D');
      LowerCharIs(n[k + 3], 'f', 'F');
    }
  }

  /** The last four characters of the lower-cased name spell ".pdf" exactly when the last four
      characters of the name lower-case to `.`, `p`, `d` and `f`. */
  lemma LowerSuffix(n: string, k: int)
    requires k == |n| - 4 >= 0
    ensures EndsWith(ToLower(n), ".pdf") <==>
              LowerChar(n[k]) == '.' && LowerChar(n[k + 1]) == 'p' && LowerChar(n[k + 2]) == 'd' && LowerChar(n[k + 3]) == 'f'
  {
    var l := ToLower(n);
    assert l[k..] == [l[k], l[k + 1], l[k + 2], l[k + 3]];
    assert ".pdf" == ['.', 'p', 'd', 'f'];
  }
}
