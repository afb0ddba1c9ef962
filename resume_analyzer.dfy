/** The resume screen's input handling: checking an uploaded file, extracting the
    base64 payload of its data URL, choosing what is sent for analysis, and the
    content reported back to the profile. The analysis itself is remote. */
module ResumeAnalyzer {
  import opened Types

  /** 5 MB, the largest accepted upload. */
  const MaxFileSize: nat := 5 * 1024 * 1024

  /** The shortest pasted resume text that is analysed. */
  const MinTextLength: nat := 50

  const PdfType: string := "application/pdf"
  const PlainTextType: string := "text/plain"

  const SizeError: string := "File size too large. Please upload a file smaller than 5MB."
  const TypeError: string := "Invalid file type. Please upload a PDF or TXT file."
  const ShortTextError: string := "Please enter a valid resume text (at least 50 characters)."
  const NoFileError: string := "Please select a file to upload."

  /** The name, byte size and MIME type of a chosen file. */
  datatype FileInfo = FileInfo(name: string, size: nat, mimeType: string)

  /** The two input tabs. */
  datatype Mode = TextMode | FileMode

  /** What is handed to the analysis service. */
  datatype ResumeInput =
    | TextInput(content: string)
    | FileInput(content: string, mimeType: string)

  /** What the screen reports once an analysis has come back. */
  datatype Report = Report(result: AtsResult, userContent: string)

  /** The upload check: the size limit first, then the type whitelist. */
  function CheckFile(f: FileInfo): (err: Option<string>)
    ensures f.size > MaxFileSize ==> err == Some(SizeError)
    ensures f.size <= MaxFileSize && f.mimeType != PdfType && f.mimeType != PlainTextType ==>
      err == Some(TypeError)
    ensures err == None <==>
      f.size <= MaxFileSize && (f.mimeType == PdfType || f.mimeType == PlainTextType)
  {
    if f.size > MaxFileSize then Some(SizeError)
    else if f.mimeType != PdfType && f.mimeType != PlainTextType then Some(TypeError)
    else None
  }

  /** The position of the first comma, or the length when there is none. */
  function IndexOfComma(s: string): (i: nat)
    ensures i <= |s|
    ensures i < |s| ==> s[i] == ','
    ensures forall j :: 0 <= j < i ==> s[j] != ','
    decreases |s|
  {
    if s == [] then 0
    else if s[0] == ',' then 0
    else 1 + IndexOfComma(s[1..])
  }

  /** `s.split(',')[1]`: the text between the first and second comma (or the
      end), absent when `s` has no comma. */
  function SecondField(s: string): Option<string> {
    var i := IndexOfComma(s);
    if i == |s| then None
    else
      var rest := s[i + 1..];
      Some(rest[..IndexOfComma(rest)])
  }

  /** The stored payload of a read file; an absent field is stored as nothing. */
  function Base64Payload(dataUrl: string): string {
    SecondField(dataUrl).GetOr("")
  }

  /** A data URL `prefix,payload` with a single comma yields exactly `payload`. */
  lemma Base64PayloadOfDataUrl(prefix: string, payload: string)
    requires forall j :: 0 <= j < |prefix| ==> prefix[j] != ','
    requires forall j :: 0 <= j < |payload| ==> payload[j] != ','
    ensures SecondField(prefix + "," + payload) == Some(payload)
    ensures Base64Payload(prefix + "," + payload) == payload
  {
    var s := prefix + "," + payload;
    var i := IndexOfComma(s);
    assert s[|prefix|] == ',';
    assert i == |prefix|;
    assert s[i + 1..] == payload;
    var k := IndexOfComma(payload);
    assert k == |payload|;
    assert payload[..k] == payload;
  }

  /** A string without a comma has no second field. */
  lemma NoCommaNoPayload(s: string)
    requires forall j :: 0 <= j < |s| ==> s[j] != ','
    ensures SecondField(s) == None && Base64Payload(s) == ""
  {
    var i := IndexOfComma(s);
    assert i == |s|;
  }

  /** A character outside the Basic Multilingual Plane, stored as a surrogate
      pair (two code units) in UTF-16. */
  predicate IsAstral(c: char) {
    c as int >= 0x1_0000
  }

  /** `s.length` of a JavaScript string: its length in UTF-16 code units. */
  function Utf16Length(s: string): (n: nat)
    ensures |s| <= n <= 2 * |s|
    ensures n == |s| <==> forall i :: 0 <= i < |s| ==> !IsAstral(s[i])
    ensures n == 2 * |s| <==> forall i :: 0 <= i < |s| ==> IsAstral(s[i])
    decreases |s|
  {
    if s == [] then 0
    else
      var rest := Utf16Length(s[1..]);
      assert forall i :: 1 <= i < |s| ==> s[i] == s[1..][i - 1];
      (if IsAstral(s[0]) then 2 else 1) + rest
  }

  /** The input chosen for analysis. Text mode needs at least 50 code units and
      sends the text unchanged; file mode needs a chosen file and a non-empty
      payload and sends the payload with the file's MIME type. */
  function SelectInput(mode: Mode, text: string, file: Option<FileInfo>, fileBase64: string): (r: Result<ResumeInput>)
    ensures r.Success? <==>
      if mode == TextMode then Utf16Length(text) >= MinTextLength else file.Some? && fileBase64 != ""
    ensures r.Failure? ==> r.error == if mode == TextMode then ShortTextError else NoFileError
    ensures r.Success? && mode == TextMode ==> r.value == TextInput(text)
    ensures r.Success? && mode == FileMode ==>
      r.value.FileInput? && r.value.content == fileBase64 && r.value.mimeType == file.value.mimeType
  {
    match mode
    case TextMode =>
      if Utf16Length(text) < MinTextLength then Failure(ShortTextError) else Success(TextInput(text))
    case FileMode =>
      if file.None? || fileBase64 == "" then Failure(NoFileError)
      else Success(FileInput(fileBase64, file.value.mimeType))
  }

  const UploadMarker: string := "[File Uploaded] "

  /** The resume content recorded in the profile: the pasted text, or the
      upload marker followed by the file's name (an absent file's name reads
      as "undefined", as a template string renders it). */
  function UserContent(mode: Mode, text: string, file: Option<FileInfo>): (c: string)
    ensures mode == TextMode ==> c == text
    ensures mode == FileMode ==> |c| >= |UploadMarker| && c[..|UploadMarker|] == UploadMarker
    ensures mode == FileMode && file.Some? ==> c[|UploadMarker|..] == file.value.name
  {
    match mode
    case TextMode => text
    case FileMode => UploadMarker + (if file.Some? then file.value.name else "undefined")
  }

  /** The resume screen's state. */
  class Form {
    var mode: Mode
    var text: string
    var file: Option<FileInfo>
    var fileBase64: string
    var loading: bool
    var error: string

    /** Only a file that passed the upload check is ever selected. */
    ghost predicate Valid()
      reads this
    {
      file.Some? ==> CheckFile(file.value) == None
    }

    constructor ()
      ensures Valid()
      ensures mode == TextMode && text == "" && file == None && fileBase64 == ""
      ensures !loading && error == ""
    {
      mode := TextMode;
      text := "";
      file := None;
      fileBase64 := "";
      loading := false;
      error := "";
    }

    method SetMode(m: Mode)
      requires Valid()
      modifies this
      ensures Valid() && mode == m
      ensures text == old(text) && file == old(file) && fileBase64 == old(fileBase64)
      ensures loading == old(loading) && error == old(error)
    {
      mode := m;
    }

    method SetText(t: string)
      requires Valid()
      modifies this
      ensures Valid() && text == t
      ensures mode == old(mode) && file == old(file) && fileBase64 == old(fileBase64)
      ensures loading == old(loading) && error == old(error)
    {
      text := t;
    }

    /** Handles a file chosen in the picker (the first of `files`, if any);
        `dataUrl` is what reading the accepted file yields. A rejected file
        leaves the selection alone and shows the check's message; an accepted
        one replaces the selection, clears the message, and stores the payload. */
    method HandleFileChange(files: seq<FileInfo>, dataUrl: string)
      requires Valid()
      modifies this
      ensures Valid()
      ensures mode == old(mode) && text == old(text) && loading == old(loading)
      ensures files == [] ==>
        file == old(file) && fileBase64 == old(fileBase64) && error == old(error)
      ensures files != [] && CheckFile(files[0]).Some? ==>
        && error == CheckFile(files[0]).value
        && file == old(file) && fileBase64 == old(fileBase64)
      ensures files != [] && CheckFile(files[0]).None? ==>
        file == Some(files[0]) && error == "" && fileBase64 == Base64Payload(dataUrl)
    {
      if files != [] {
        var selected := files[0];
        if selected.size > MaxFileSize {
          error := SizeError;
          return;
        }
        var fileType := selected.mimeType;
        if fileType != PdfType && fileType != PlainTextType {
          error := TypeError;
          return;
        }
        file := Some(selected);
        error := "";
        fileBase64 := Base64Payload(dataUrl);
      }
    }

    /** Removing the file clears both the file and its payload. */
    method HandleRemoveFile()
      requires Valid()
      modifies this
      ensures Valid() && file == None && fileBase64 == ""
      ensures mode == old(mode) && text == old(text)
      ensures loading == old(loading) && error == old(error)
    {
      file := None;
      fileBase64 := "";
    }

    /** The analyse button is disabled while loading or with nothing to send.
        It never blocks an input that would be accepted; once enabled, the
        analysis is still refused exactly for a non-empty text shorter than 50
        code units or a chosen file whose payload is empty. */
    predicate AnalyzeEnabled(): (b: bool)
      reads this
      ensures b ==> !loading
      ensures !loading && SelectInput(mode, text, file, fileBase64).Success? ==> b
      ensures b && SelectInput(mode, text, file, fileBase64).Failure? <==>
        && !loading
        && if mode == TextMode then text != "" && Utf16Length(text) < MinTextLength
           else file.Some? && fileBase64 == ""
    {
      !loading && (if mode == TextMode then text != "" else file.Some?)
    }

    /** Validates the input and, when it is usable, sends it for analysis; the
        service's answer is `analysis`. `sent` is the request made and `reported`
        what is handed back to the application. Loading ends whatever happens. */
    method HandleAnalyze(analysis: AtsResult) returns (sent: Option<ResumeInput>, reported: Option<Report>)
      requires Valid()
      modifies this
      ensures Valid() && !loading
      ensures mode == old(mode) && text == old(text) && file == old(file)
      ensures fileBase64 == old(fileBase64)
      ensures SelectInput(mode, text, file, fileBase64).Failure? ==>
        && sent == None && reported == None
        && error == SelectInput(mode, text, file, fileBase64).error
      ensures SelectInput(mode, text, file, fileBase64).Success? ==>
        && sent == Some(SelectInput(mode, text, file, fileBase64).value)
        && error == ""
        && reported.Some? && reported.value.result == analysis
        && reported.value.userContent == UserContent(mode, text, file)
    {
      loading := true;
      error := "";
      var input := SelectInput(mode, text, file, fileBase64);
      if input.Failure? {
        sent, reported := None, None;
        error := input.error;
      } else {
        sent := Some(input.value);
        reported := Some(Report(analysis, UserContent(mode, text, file)));
      }
      loading := false;
    }
  }
}
