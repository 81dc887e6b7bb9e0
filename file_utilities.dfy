/**
 * The MIME classifier and the badge colours of components/file-utilities.tsx.
 * `getFileType` is a chain of early returns, so the first rule that matches
 * decides the label; `getFileColor` is a switch with a default.
 */
module FileUtilities {
  import opened Strings

  /** The eleven labels `getFileType` can return. */
  const Labels: set<string> :=
    {"image", "video", "audio", "pdf", "document", "spreadsheet", "presentation",
     "text", "code", "archive", "file"}

  /** `getFileType(mimeType)` */
  function GetFileType(mimeType: string): (fileType: string)
    ensures fileType in Labels
  {
    if StartsWith(mimeType, "image/") then "image"
    else if StartsWith(mimeType, "video/") then "video"
    else if StartsWith(mimeType, "audio/") then "audio"
    else if Contains(mimeType, "pdf") then "pdf"
    else if Contains(mimeType, "document") || Contains(mimeType, "officedocument.wordprocessingml") then "document"
    else if Contains(mimeType, "sheet") || Contains(mimeType, "excel") || Contains(mimeType, "spreadsheetml") then "spreadsheet"
    else if Contains(mimeType, "presentation") || Contains(mimeType, "presentationml") then "presentation"
    else if StartsWith(mimeType, "text/") || Contains(mimeType, "csv") then "text"
    else if Contains(mimeType, "json") || Contains(mimeType, "javascript") || Contains(mimeType, "html") || Contains(mimeType, "css") then "code"
    else if Contains(mimeType, "zip") || Contains(mimeType, "rar") || Contains(mimeType, "tar") then "archive"
    else "file"
  }

  /**
   * The same classifier without the three alternatives that can never decide
   * anything: `officedocument.wordprocessingml` contains `document`,
   * `spreadsheetml` contains `sheet` and `presentationml` contains `presentation`.
   */
  function ShortFileType(mimeType: string): string {
    if StartsWith(mimeType, "image/") then "image"
    else if StartsWith(mimeType, "video/") then "video"
    else if StartsWith(mimeType, "audio/") then "audio"
    else if Contains(mimeType, "pdf") then "pdf"
    else if Contains(mimeType, "document") then "document"
    else if Contains(mimeType, "sheet") || Contains(mimeType, "excel") then "spreadsheet"
    else if Contains(mimeType, "presentation") then "presentation"
    else if StartsWith(mimeType, "text/") || Contains(mimeType, "csv") then "text"
    else if Contains(mimeType, "json") || Contains(mimeType, "javascript") || Contains(mimeType, "html") || Contains(mimeType, "css") then "code"
    else if Contains(mimeType, "zip") || Contains(mimeType, "rar") || Contains(mimeType, "tar") then "archive"
    else "file"
  }

  /** The three long keywords each contain a shorter keyword tested before them. */
  lemma LongKeywordsContainShort()
    ensures Contains("officedocument.wordprocessingml", "document")
    ensures Contains("spreadsheetml", "sheet")
    ensures Contains("presentationml", "presentation")
  {
    var w := "officedocument.wordprocessingml";
    assert w == "office" + "document" + ".wordprocessingml";
    assert w[6..14] == "document";
    ContainsAt(w, "document", 6);
    ContainsAt("spreadsheetml", "sheet", 6);
    ContainsAt("presentationml", "presentation", 0);
  }

  /** The longer OOXML keywords never change the label: every MIME type gets the label of the short chain. */
  lemma LongKeywordsAreRedundant(mimeType: string)
    ensures GetFileType(mimeType) == ShortFileType(mimeType)
  {
    LongKeywordsContainShort();
    if Contains(mimeType, "officedocument.wordprocessingml") {
      ContainsTransitive(mimeType, "officedocument.wordprocessingml", "document");
    }
    if Contains(mimeType, "spreadsheetml") {
      ContainsTransitive(mimeType, "spreadsheetml", "sheet");
    }
    if Contains(mimeType, "presentationml") {
      ContainsTransitive(mimeType, "presentationml", "presentation");
    }
  }

  /** Only a type that mentions none of the keywords is labelled `file`. */
  lemma FileIffNoKeyword(mimeType: string)
    ensures GetFileType(mimeType) == "file" <==>
      && !StartsWith(mimeType, "image/") && !StartsWith(mimeType, "video/")
      && !StartsWith(mimeType, "audio/") && !StartsWith(mimeType, "text/")
      && !Contains(mimeType, "pdf") && !Contains(mimeType, "document")
      && !Contains(mimeType, "sheet") && !Contains(mimeType, "excel")
      && !Contains(mimeType, "presentation") && !Contains(mimeType, "csv")
      && !Contains(mimeType, "json") && !Contains(mimeType, "javascript")
      && !Contains(mimeType, "html") && !Contains(mimeType, "css")
      && !Contains(mimeType, "zip") && !Contains(mimeType, "rar") && !Contains(mimeType, "tar")
  {
    LongKeywordsAreRedundant(mimeType);
  }

  /** The `image/`, `video/` and `audio/` prefixes decide the label whatever else the type mentions. */
  lemma MediaPrefixesWin(mimeType: string)
    ensures StartsWith(mimeType, "image/") ==> GetFileType(mimeType) == "image"
    ensures StartsWith(mimeType, "video/") ==> GetFileType(mimeType) == "video"
    ensures StartsWith(mimeType, "audio/") ==> GetFileType(mimeType) == "audio"
    ensures (!StartsWith(mimeType, "image/") && !StartsWith(mimeType, "video/") && !StartsWith(mimeType, "audio/")
             && Contains(mimeType, "pdf")) ==> GetFileType(mimeType) == "pdf"
  {
  }

  /**
   * Every Office Open XML type (spreadsheets and presentations included)
   * mentions `officedocument`, and therefore `document`: it is labelled
   * `document`, never `spreadsheet` or `presentation`.
   */
  lemma OfficeTypesAreDocuments(mimeType: string)
    requires Contains(mimeType, "officedocument")
    requires !StartsWith(mimeType, "image/") && !StartsWith(mimeType, "video/") && !StartsWith(mimeType, "audio/")
    requires !Contains(mimeType, "pdf")
    ensures GetFileType(mimeType) == "document"
  {
    ContainsAt("officedocument", "document", 6);
    ContainsTransitive(mimeType, "officedocument", "document");
  }

  /**
   * A `text/` type that mentions none of the earlier keywords is `text`, even
   * when it also names a code language such as `html`, `css` or `javascript`.
   */
  lemma TextPrefixBeforeCode(mimeType: string)
    requires StartsWith(mimeType, "text/")
    requires !Contains(mimeType, "pdf") && !Contains(mimeType, "document")
    requires !Contains(mimeType, "sheet") && !Contains(mimeType, "excel") && !Contains(mimeType, "presentation")
    ensures GetFileType(mimeType) == "text"
  {
    LongKeywordsAreRedundant(mimeType);
  }

  /** `text/html` in particular is labelled `text`, not `code`. */
  lemma TextHtmlIsText(mimeType: string)
    requires mimeType == "text/html"
    ensures GetFileType(mimeType) == "text"
  {
    assert forall k :: 0 <= k < |mimeType| ==> mimeType[k] in {'t', 'e', 'x', '/', 'h', 'm', 'l'};
    NoChar(mimeType, "pdf", 0);
    NoChar(mimeType, "document", 0);
    NoChar(mimeType, "sheet", 0);
    NoChar(mimeType, "excel", 2);
    NoChar(mimeType, "presentation", 0);
    TextPrefixBeforeCode(mimeType);
  }

  const DefaultColor: string := "border-gray-500 bg-gray-500/10 text-gray-400"

  /** `getFileColor(fileType)`: the badge classes of a label; anything else gets the default. */
  function GetFileColor(fileType: string): string {
    if fileType == "image" then "border-green-500 bg-green-500/10 text-green-400"
    else if fileType == "video" then "border-purple-500 bg-purple-500/10 text-purple-400"
    else if fileType == "audio" then "border-pink-500 bg-pink-500/10 text-pink-400"
    else if fileType == "pdf" then "border-red-500 bg-red-500/10 text-red-400"
    else if fileType == "document" then "border-blue-500 bg-blue-500/10 text-blue-400"
    else if fileType == "spreadsheet" then "border-emerald-500 bg-emerald-500/10 text-emerald-400"
    else if fileType == "presentation" then "border-orange-500 bg-orange-500/10 text-orange-400"
    else if fileType == "text" then "border-gray-500 bg-gray-500/10 text-gray-400"
    else if fileType == "code" then "border-yellow-500 bg-yellow-500/10 text-yellow-400"
    else if fileType == "archive" then "border-indigo-500 bg-indigo-500/10 text-indigo-400"
    else DefaultColor
  }

  /** `text`, `file` and anything that is not a label wear the default classes. */
  lemma GreyLabels(fileType: string)
    requires fileType !in Labels || fileType == "text" || fileType == "file"
    ensures GetFileColor(fileType) == DefaultColor
  {
  }

  /** The labels other than `text` and `file`. */
  lemma OtherLabels(fileType: string)
    requires fileType in Labels && fileType != "text" && fileType != "file"
    ensures || fileType == "image" || fileType == "video" || fileType == "audio" || fileType == "pdf"
            || fileType == "document" || fileType == "spreadsheet" || fileType == "presentation"
            || fileType == "code" || fileType == "archive"
  {
  }

  /** Every other label has classes of its own colour. */
  lemma ColouredLabels(fileType: string)
    requires || fileType == "image" || fileType == "video" || fileType == "audio" || fileType == "pdf"
             || fileType == "document" || fileType == "spreadsheet" || fileType == "presentation"
             || fileType == "code" || fileType == "archive"
    ensures GetFileColor(fileType) != DefaultColor
  {
  }

  /**
   * The default classes are the `text` classes: a label gets them exactly when
   * it is `text`, `file` or not a label at all.
   */
  lemma DefaultColorIsText(fileType: string)
    ensures GetFileColor("text") == DefaultColor
    ensures GetFileColor(fileType) == DefaultColor <==> fileType !in Labels || fileType == "text" || fileType == "file"
  {
    GreyLabels("text");
    if fileType !in Labels || fileType == "text" || fileType == "file" {
      GreyLabels(fileType);
    } else {
      OtherLabels(fileType);
      ColouredLabels(fileType);
    }
  }
}
