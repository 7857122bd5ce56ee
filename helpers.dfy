/** The pure parts of src/helpers.js: the export and upload type tables, the
    choice and validation of a file's extension before any Drive request is
    made, the row count read off an append's `updatedRange`, and the Drive
    and Sheets URL builders. The requests themselves go to collaborators and
    are represented by the values a request would carry. */
module Helpers {
  import opened Common

  /** One entry of `fileTypes`: the Google resource kind a file of this
      extension becomes, and the MIME type of its bytes. */
  datatype FileType = FileType(resource: string, mime: string)

  /** `resourceTypes`. */
  const ResourceTypes: map<string, string> :=
    map["doc" := "application/vnd.google-apps.document",
        "sheet" := "application/vnd.google-apps.spreadsheet"]

  /** The keys of `fileTypes`, in the order the object literal lists them
      (the order of `Object.keys`, used by the error message). */
  const FileTypeKeys: seq<string> := ["txt", "rtf", "odt", "html", "docx", "pdf", "xlsx"]

  /** `fileTypes`; the `NOT_WORKING` notes on two entries are not read by
      the program. */
  const FileTypes: map<string, FileType> :=
    map["txt" := FileType("doc", "text/plain"),
        "rtf" := FileType("doc", "application/rtf"),
        "odt" := FileType("doc", "application/vnd.oasis.opendocument.text"),
        "html" := FileType("doc", "text/html"),
        "docx" := FileType("doc", "application/vnd.openxmlformats-officedocument.wordprocessingml.document"),
        "pdf" := FileType("doc", "application/pdf"),
        "xlsx" := FileType("doc", "application/vnd.openxmlformats-officedocument.spreadsheetml.sheet")]

  /** The two tables agree: the key list is exactly the key set, without
      repeats, and every file type's resource kind has a MIME type. */
  lemma TablesConsistent()
    ensures forall e :: e in FileTypes ==> FileTypes[e].resource in ResourceTypes
    ensures forall e :: e in FileTypes <==> e in FileTypeKeys
    ensures forall i, j :: 0 <= i < j < |FileTypeKeys| ==> FileTypeKeys[i] != FileTypeKeys[j]
  {
  }

  // ---------------------------------------------------------------------
  // Extensions

  /** `s.split('.').slice(-1)[0]`: the longest suffix of `s` without a '.'. */
  function AfterLastDot(s: string): (e: string)
    ensures '.' !in e
    ensures |e| <= |s| && e == s[|s| - |e|..]
    decreases |s|
  {
    if s == [] then []
    else if s[|s| - 1] == '.' then []
    else
      var init, c := s[..|s| - 1], s[|s| - 1];
      var e' := AfterLastDot(init);
      assert s == init + [c];
      SuffixAppend(init, e', c);
      e' + [c]
  }

  /** A suffix of `init` followed by `c` is a suffix of `init + [c]`. */
  lemma SuffixAppend(init: string, e: string, c: char)
    requires |e| <= |init| && e == init[|init| - |e|..]
    ensures e + [c] == (init + [c])[|init| - |e|..]
  {
    var s := init + [c];
    assert forall i :: 0 <= i < |e| ==> s[|init| - |e| + i] == e[i];
  }

  /** The suffix is the longest one: either it is all of `s` (which then has
      no '.'), or a '.' stands just before it. */
  lemma {:induction false} AfterLastDotLongest(s: string)
    ensures var e := AfterLastDot(s);
            ('.' !in s ==> e == s) && ('.' in s ==> |e| < |s| && s[|s| - |e| - 1] == '.')
    decreases |s|, 1
  {
    if s == [] {
    } else if s[|s| - 1] == '.' {
      assert AfterLastDot(s) == [];
      assert '.' in s;
    } else {
      var init, c := s[..|s| - 1], s[|s| - 1];
      assert s == init + [c];
      AfterLastDotLongestSnoc(init, c);
    }
  }

  /** `AfterLastDotLongest` for a string ending in a character other than '.'. */
  lemma {:induction false} AfterLastDotLongestSnoc(init: string, c: char)
    requires c != '.'
    ensures var s, e := init + [c], AfterLastDot(init + [c]);
            ('.' !in s ==> e == s) && ('.' in s ==> |e| < |s| && s[|s| - |e| - 1] == '.')
    decreases |init| + 1, 0
  {
    var e' := AfterLastDot(init);
    AfterLastDotSnoc(init, c);
    AfterLastDotLongest(init);
    LongestStep(init, c, e');
  }

  /** The step of `AfterLastDotLongest`: a character other than '.'
      extends both the string and its dot-free suffix. */
  lemma LongestStep(init: string, c: char, e: string)
    requires c != '.'
    requires ('.' !in init ==> e == init) && ('.' in init ==> |e| < |init| && init[|init| - |e| - 1] == '.')
    ensures var s := init + [c];
            ('.' !in s ==> e + [c] == s) && ('.' in s ==> |e| + 1 < |s| && s[|s| - |e| - 2] == '.')
  {
    var s := init + [c];
    if '.' in init {
      assert s[|init| - |e| - 1] == init[|init| - |e| - 1];
    } else {
      assert '.' !in s;
    }
  }

  /** The extension is recovered from a path built as `stem.ext`, whatever
      dots the stem holds. */
  lemma {:induction false} AfterLastDotOfJoin(stem: string, ext: string)
    requires '.' !in ext
    ensures AfterLastDot(stem + "." + ext) == ext
    decreases |ext|
  {
    if ext == [] {
      assert stem + "." + ext == stem + ['.'];
      AfterLastDotDot(stem);
    } else {
      var e0, c := ext[..|ext| - 1], ext[|ext| - 1];
      assert stem + "." + ext == (stem + "." + e0) + [c];
      AfterLastDotSnoc(stem + "." + e0, c);
      AfterLastDotOfJoin(stem, e0);
      assert e0 + [c] == ext;
    }
  }

  /** A '.' at the end leaves an empty extension. */
  lemma AfterLastDotDot(init: string)
    ensures AfterLastDot(init + ['.']) == []
  {
    assert (init + ['.'])[|init|] == '.';
  }

  /** Any other last character extends the extension. */
  lemma AfterLastDotSnoc(init: string, c: char)
    requires c != '.'
    ensures AfterLastDot(init + [c]) == AfterLastDot(init) + [c]
  {
    var s := init + [c];
    assert s[..|s| - 1] == init;
  }

  /** `extension || filePath.split('.').slice(-1)[0]`: an empty (falsy)
      extension argument falls back to the path's. */
  function ExtensionOf(filePath: string, extension: string): (e: string)
    ensures extension != "" ==> e == extension
    ensures extension == "" ==> '.' !in e && |e| <= |filePath| && e == filePath[|filePath| - |e|..]
  {
    if extension != "" then extension else AfterLastDot(filePath)
  }

  /** The items of `keys`, each in backquotes, separated by ", ". */
  function QuotedList(keys: seq<string>): string
    decreases |keys|
  {
    if keys == [] then ""
    else if |keys| == 1 then "`" + keys[0] + "`"
    else "`" + keys[0] + "`, " + QuotedList(keys[1..])
  }

  /** The message thrown for an unrecognised extension. */
  function UnrecognizedExtension(ext: string): string {
    "Unrecognized file extension: `" + ext + "`. Available choices: " + QuotedList(FileTypeKeys) + "."
  }

  /** The validated file type of a request, or the error thrown before any
      Drive call is made. */
  function LookupFileType(filePath: string, extension: string): (r: Result<FileType>)
    ensures var e := ExtensionOf(filePath, extension);
            && (r.Ok? <==> e in FileTypes)
            && (r.Ok? ==> r.value == FileTypes[e] && r.value.resource in ResourceTypes)
            && (r.Err? ==> r.message == UnrecognizedExtension(e))
  {
    TablesConsistent();
    var e := ExtensionOf(filePath, extension);
    if e in FileTypes then Ok(FileTypes[e]) else Err(UnrecognizedExtension(e))
  }

  /** What `drive.files.export` is asked for by `downloadFile`. */
  datatype Export = Export(fileId: string, mimeType: string, savePath: string)

  /** `downloadFile(fileId, filePath, extension)` up to the export call. */
  function DownloadRequest(fileId: string, filePath: string, extension: string): (r: Result<Export>)
    ensures var e := ExtensionOf(filePath, extension);
            && (r.Ok? <==> e in FileTypes)
            && (r.Ok? ==> r.value == Export(fileId, FileTypes[e].mime, filePath))
  {
    match LookupFileType(filePath, extension)
    case Ok(t) => Ok(Export(fileId, t.mime, filePath))
    case Err(m) => Err(m)
  }

  /** What `drive.files.create` is asked for by `uploadFile`: the metadata
      (name and Google resource type) and the media (MIME type and path). */
  datatype Upload = Upload(name: string, resourceMime: string, mediaMime: string, sourcePath: string)

  /** `uploadFile(filePath, title, extension)` up to the create call. */
  function UploadRequest(filePath: string, title: string, extension: string): (r: Result<Upload>)
    ensures var e := ExtensionOf(filePath, extension);
            && (r.Ok? <==> e in FileTypes)
            && (r.Ok? ==> r.value == Upload(title, ResourceTypes[FileTypes[e].resource],
                                            FileTypes[e].mime, filePath))
  {
    match LookupFileType(filePath, extension)
    case Ok(t) => Ok(Upload(title, ResourceTypes[t.resource], t.mime, filePath))
    case Err(m) => Err(m)
  }

  /** Download and upload accept and refuse the same paths, and agree on the
      MIME type of the bytes. */
  lemma DownloadUploadAgree(fileId: string, filePath: string, title: string, extension: string)
    ensures DownloadRequest(fileId, filePath, extension).Ok? <==> UploadRequest(filePath, title, extension).Ok?
    ensures DownloadRequest(fileId, filePath, extension).Ok? ==>
              DownloadRequest(fileId, filePath, extension).value.mimeType
              == UploadRequest(filePath, title, extension).value.mediaMime
  {
  }

  /** The README template is fetched to a path ending in `.rtf` with no
      explicit extension: it exports as RTF and uploads as a Google
      document. */
  lemma ReadmeRoundTrip(fileId: string, stem: string, title: string)
    ensures DownloadRequest(fileId, stem + ".rtf", "") == Ok(Export(fileId, "application/rtf", stem + ".rtf"))
    ensures UploadRequest(stem + ".rtf", title, "")
         == Ok(Upload(title, "application/vnd.google-apps.document", "application/rtf", stem + ".rtf"))
  {
    RtfExtension(stem);
    assert "rtf" in FileTypes && FileTypes["rtf"] == FileType("doc", "application/rtf");
    assert ResourceTypes["doc"] == "application/vnd.google-apps.document";
  }

  /** The extension of `stem.rtf` is "rtf", whatever the stem. */
  lemma RtfExtension(stem: string)
    ensures ExtensionOf(stem + ".rtf", "") == "rtf"
  {
    assert stem + ".rtf" == stem + "." + "rtf";
    AfterLastDotOfJoin(stem, "rtf");
  }

  // ---------------------------------------------------------------------
  // The extension guard as written

  /** The members every JavaScript object inherits from `Object.prototype`,
      all of which `key in object` reports as present. */
  const PrototypeMembers: set<string> :=
    {"constructor", "hasOwnProperty", "isPrototypeOf", "propertyIsEnumerable",
     "toLocaleString", "toString", "valueOf", "__proto__", "__defineGetter__",
     "__defineSetter__", "__lookupGetter__", "__lookupSetter__"}

  /** `extension in fileTypes` as written: own keys and inherited members
      alike pass. The MIME type is then `fileTypes[extension].mime`, which
      for an inherited member is `undefined` (`None`). */
  function ExportMimeAsWritten(filePath: string, extension: string): Result<Option<string>> {
    var e := ExtensionOf(filePath, extension);
    if e in FileTypes then Ok(Some(FileTypes[e].mime))
    else if e in PrototypeMembers then Ok(None)
    else Err(UnrecognizedExtension(e))
  }

  /** The same guard in `uploadFile`, with the two MIME types it reads:
      `resourceTypes[fileTypes[extension].resource]` for the metadata and
      `fileTypes[extension].mime` for the media. An inherited member is a
      function or the prototype object, with no `resource` or `mime`, and
      `resourceTypes[undefined]` is `undefined`: both are `None`. */
  function UploadMimesAsWritten(filePath: string, extension: string): Result<(Option<string>, Option<string>)> {
    var e := ExtensionOf(filePath, extension);
    if e in FileTypes then
      var ft := FileTypes[e];
      Ok((if ft.resource in ResourceTypes then Some(ResourceTypes[ft.resource]) else None, Some(ft.mime)))
    else if e in PrototypeMembers then Ok((None, None))
    else Err(UnrecognizedExtension(e))
  }

  /** A path ending in `.constructor` passes both guards as written: the
      export is requested with an undefined MIME type, and the upload with
      an undefined resource type and an undefined media type. The own-key
      checks of `DownloadRequest` and `UploadRequest` refuse it. */
  lemma InheritedExtensionPasses()
    ensures ExportMimeAsWritten("notes.constructor", "") == Ok(None)
    ensures UploadMimesAsWritten("notes.constructor", "") == Ok((None, None))
    ensures DownloadRequest("id", "notes.constructor", "").Err?
    ensures UploadRequest("notes.constructor", "notes", "").Err?
  {
    assert "notes.constructor" == "notes" + "." + "constructor";
    AfterLastDotOfJoin("notes", "constructor");
  }

  // ---------------------------------------------------------------------
  // Row count and URLs

  /** `+updatedRange.substring(8) - 1`: the number after an eight-character
      prefix such as `Sheet1!A`, minus one; `None` is `NaN`. Past the end
      `substring` gives "" and `+""` is 0. */
  function NumberOfRows(updatedRange: string): (r: Option<int>)
    ensures var tail := if |updatedRange| >= 8 then updatedRange[8..] else "";
            && (r.Some? <==> AllDigits(tail))
            && (r.Some? ==> r.value == DigitsValue(tail) - 1)
  {
    var tail := if |updatedRange| >= 8 then updatedRange[8..] else "";
    match ParseDecimal(tail)
    case Some(n) => Some(n - 1)
    case None => None
  }

  /** The probe row lands on row `n` of the first sheet, so `n - 1` rows
      were there before it. */
  lemma NumberOfRowsOfProbe(n: nat)
    ensures NumberOfRows("Sheet1!A" + NatToString(n)) == Some(n - 1)
  {
    assert ("Sheet1!A" + NatToString(n))[8..] == NatToString(n);
    DigitsValueOfNatToString(n);
  }

  /** A range that names a column span is not a number: `NaN`. */
  lemma NumberOfRowsOfSpan(n: nat)
    ensures NumberOfRows("Sheet1!A" + NatToString(n) + ":A" + NatToString(n)).None?
  {
    var s := "Sheet1!A" + NatToString(n) + ":A" + NatToString(n);
    var tail := s[8..];
    assert tail[|NatToString(n)|] == ':';
  }

  const SheetPrefix := "https://docs.google.com/spreadsheets/d/"
  const DrivePrefix := "https://drive.google.com/drive/folders/"

  function SheetURL(spreadsheetId: string): (u: string)
    ensures |u| == |SheetPrefix| + |spreadsheetId|
    ensures u[..|SheetPrefix|] == SheetPrefix && u[|SheetPrefix|..] == spreadsheetId
  {
    SheetPrefix + spreadsheetId
  }

  function DriveURL(driveId: string): (u: string)
    ensures |u| == |DrivePrefix| + |driveId|
    ensures u[..|DrivePrefix|] == DrivePrefix && u[|DrivePrefix|..] == driveId
  {
    DrivePrefix + driveId
  }

  /** Each URL names one id, and no sheet URL is a folder URL. */
  lemma URLsInjective(a: string, b: string)
    ensures SheetURL(a) == SheetURL(b) ==> a == b
    ensures DriveURL(a) == DriveURL(b) ==> a == b
    ensures SheetURL(a) != DriveURL(b)
  {
    assert SheetURL(a)[9] == 'o' && DriveURL(b)[9] == 'r';
  }
}
