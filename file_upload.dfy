/** The upload panel: the file-type check, the read of the header row, the
    guess of which header holds each of the four fields, and the guard in
    front of the hand-over of the file and its column mapping. */
module FileUpload {
  import opened Common
  import opened Text
  import opened ParseData

  /** The parts of a browser `File` the panel looks at. */
  datatype FileInfo = FileInfo(name: string, mimeType: string)

  const NotCsv := "Please upload a CSV file"
  const MissingRows := "File must contain headers and at least one data row"
  const MapAll := "Please map all required columns before proceeding"

  /** Four unmapped fields. */
  const NoMapping := ColumnMapping("", "", "", "")

  /** The type check: a file with a MIME type passes, and so does one whose
      lower-cased name ends in ".csv". */
  predicate LooksLikeCsv(file: FileInfo) {
    file.mimeType != "" || EndsWith(ToLower(file.name), ".csv")
  }

  /** A header mentions a keyword when its lower-case text includes it. */
  predicate Mentions(header: string, keyword: string) {
    Includes(ToLower(header), keyword)
  }

  /** `headers.find(...)`, as a position: the first header mentioning the
      keyword. */
  function FindIndex(headers: seq<string>, keyword: string): (r: Option<nat>)
    ensures r.Some? ==> r.value < |headers| && Mentions(headers[r.value], keyword)
                        && forall j :: 0 <= j < r.value ==> !Mentions(headers[j], keyword)
    ensures r.None? ==> forall j :: 0 <= j < |headers| ==> !Mentions(headers[j], keyword)
  {
    if |headers| == 0 then None
    else if Mentions(headers[0], keyword) then Some(0)
    else
      match FindIndex(headers[1..], keyword)
      case Some(i) =>
        assert forall j :: 1 <= j <= i ==> headers[j] == headers[1..][j - 1];
        Some(i + 1)
      case None =>
        assert forall j :: 1 <= j < |headers| ==> headers[j] == headers[1..][j - 1];
        None
  }

  /** `headers.find(h => h.toLowerCase().includes(keyword)) || ''`. */
  function FindHeader(headers: seq<string>, keyword: string): string {
    match FindIndex(headers, keyword)
    case Some(i) => if headers[i] == "" then "" else headers[i]
    case None => ""
  }

  /** The guessed mapping of the four fields. */
  function AutoMapping(headers: seq<string>): ColumnMapping {
    ColumnMapping(FindHeader(headers, "order"), FindHeader(headers, "sku"),
                  FindHeader(headers, "quantity"), FindHeader(headers, "date"))
  }

  /** `Object.values(mapping).every(Boolean)`. */
  predicate Mapped(m: ColumnMapping) {
    m.orderNumber != "" && m.sku != "" && m.quantity != "" && m.date != ""
  }

  /** A keyword with letters is found iff some header mentions it, and then
      the guess is the first such header; otherwise the field stays
      unmapped. */
  lemma FindHeaderSpec(headers: seq<string>, keyword: string)
    requires |keyword| > 0
    ensures FindHeader(headers, keyword) != "" <==> exists j :: 0 <= j < |headers| && Mentions(headers[j], keyword)
    ensures FindHeader(headers, keyword) != "" ==>
              exists i :: 0 <= i < |headers| && headers[i] == FindHeader(headers, keyword)
                          && Mentions(headers[i], keyword)
                          && forall j :: 0 <= j < i ==> !Mentions(headers[j], keyword)
  {
    match FindIndex(headers, keyword)
    case Some(i) =>
      assert |ToLower(headers[i])| >= |keyword|;
    case None =>
  }

  /** A complete guess names only headers of the file, so the reader finds
      every mapped column: reading the text with it never fails on a
      missing column. */
  lemma AutoMappingFindsColumns(headers: seq<string>)
    requires Mapped(AutoMapping(headers))
    ensures FindColumns(headers, AutoMapping(headers)).Ok?
  {
    var m := AutoMapping(headers);
    InHeaders(headers, "order");
    InHeaders(headers, "sku");
    InHeaders(headers, "quantity");
    InHeaders(headers, "date");
  }

  /** A guessed header is one of the headers. */
  lemma InHeaders(headers: seq<string>, keyword: string)
    requires FindHeader(headers, keyword) != ""
    ensures FindHeader(headers, keyword) in headers
  {
  }

  /** After the panel accepts a file and guesses every field, reading the
      same text with that guess fails only when no row is usable. */
  lemma AcceptedTextReads(text: string)
    requires |SplitLines(Trim(text))| >= 2
    requires Mapped(AutoMapping(SplitFields(SplitLines(Trim(text))[0])))
    ensures var headers := SplitFields(SplitLines(Trim(text))[0]);
            var r := ParseCSVData(text, AutoMapping(headers));
            r.Ok? || r == Err(NoValidRows)
  {
    AutoMappingFindsColumns(SplitFields(SplitLines(Trim(text))[0]));
  }

  /** The panel's state. */
  class Uploader {
    var selectedFile: Option<FileInfo>
    var headers: seq<string>
    var mapping: ColumnMapping

    constructor()
      ensures selectedFile == None && headers == [] && mapping == NoMapping
    {
      selectedFile := None;
      headers := [];
      mapping := NoMapping;
    }

    /** `processFile` together with the reader's `onload`, given the text
        read: a file failing the type check is refused and nothing changes;
        a text of fewer than two lines clears the file and the headers and
        keeps the mapping; any other text sets the headers from its first
        line, selects the file and guesses the mapping. The returned alert
        is the message shown, if any. */
    method ProcessFile(file: FileInfo, text: string) returns (alert: Option<string>)
      modifies this
      ensures !LooksLikeCsv(file) ==>
                alert == Some(NotCsv) && selectedFile == old(selectedFile)
                && headers == old(headers) && mapping == old(mapping)
      ensures LooksLikeCsv(file) && |SplitLines(Trim(text))| < 2 ==>
                alert == Some(MissingRows) && selectedFile == None && headers == [] && mapping == old(mapping)
      ensures LooksLikeCsv(file) && |SplitLines(Trim(text))| >= 2 ==>
                alert == None && selectedFile == Some(file)
                && headers == SplitFields(SplitLines(Trim(text))[0]) && mapping == AutoMapping(headers)
    {
      if file.mimeType == "" && !EndsWith(ToLower(file.name), ".csv") {
        return Some(NotCsv);
      }
      var lines := SplitLines(Trim(text));
      if |lines| < 2 {
        selectedFile := None;
        headers := [];
        return Some(MissingRows);
      }
      var csvHeaders := SplitFields(lines[0]);
      headers := csvHeaders;
      selectedFile := Some(file);
      mapping := AutoMapping(csvHeaders);
      alert := None;
    }

    /** `handleConfirmMapping`: the file and mapping go on only when a file
        is selected and all four fields are mapped; otherwise the alert is
        shown. Nothing changes either way. */
    method ConfirmMapping() returns (upload: Option<(FileInfo, ColumnMapping)>, alert: Option<string>)
      ensures upload.Some? <==> selectedFile.Some? && Mapped(mapping)
      ensures upload.Some? ==> upload.value == (selectedFile.value, mapping) && alert == None
      ensures upload.None? ==> alert == Some(MapAll)
    {
      if selectedFile.Some? && Mapped(mapping) {
        upload, alert := Some((selectedFile.value, mapping)), None;
      } else {
        upload, alert := None, Some(MapAll);
      }
    }
  }
}
