/** The upload screen: a MIME-type allow-list decides whether a chosen or
    dropped file is handed to the analysis or rejected with a fixed
    message. */
module Upload {
  import opened Wrappers
  import opened JsText

  /** The parts of a browser `File` the screen looks at. */
  datatype FileInfo = FileInfo(name: string, mimeType: string)

  const AcceptedMimeTypes: seq<string> := ["text/csv", "application/json", "text/plain"]

  const UnsupportedTypeMessage: string :=
    "Unsupported file type. Please upload a CSV, JSON, or TXT file."

  /** `prefixes.some(p => s.startsWith(p))`. */
  function StartsWithAny(s: string, prefixes: seq<string>): (r: bool)
    ensures r <==> exists i :: 0 <= i < |prefixes| && StartsWith(s, prefixes[i])
  {
    if prefixes == [] then false
    else StartsWith(s, prefixes[0]) || StartsWithAny(s, prefixes[1..])
  }

  /** A file is accepted exactly when there is one and its type begins with
      one of the three accepted types; anything may follow, so a type with
      parameters appended is accepted too. */
  function ValidateFile(file: Option<FileInfo>): (ok: bool)
    ensures ok <==>
      && file.Some?
      && (|| StartsWith(file.value.mimeType, "text/csv")
          || StartsWith(file.value.mimeType, "application/json")
          || StartsWith(file.value.mimeType, "text/plain"))
  {
    match file
    case None => false
    case Some(f) =>
      assert AcceptedMimeTypes[0] == "text/csv" && AcceptedMimeTypes[1] == "application/json"
        && AcceptedMimeTypes[2] == "text/plain" && |AcceptedMimeTypes| == 3;
      StartsWithAny(f.mimeType, AcceptedMimeTypes)
  }

  /** A missing file and a file the browser gives no type are rejected. */
  lemma MissingOrUntypedRejected(name: string)
    ensures !ValidateFile(None)
    ensures !ValidateFile(Some(FileInfo(name, "")))
  {
  }

  /** The test is by prefix: a CSV type with a charset parameter passes,
      an image type does not. */
  lemma PrefixTestExamples(name: string)
    ensures ValidateFile(Some(FileInfo(name, "text/csv; charset=utf-8")))
    ensures !ValidateFile(Some(FileInfo(name, "image/png")))
  {
    assert StartsWith("text/csv; charset=utf-8", "text/csv");
    var png := "image/png";
    assert png[0] != "text/csv"[0] && png[0] != "application/json"[0];
    assert !StartsWith(png, "text/plain") && !StartsWith(png, "text/csv") by {
      assert png[..1] != "text/plain"[..1];
    }
  }

  /** A drop and a picker change both look only at the first file of a
      non-empty list. */
  function FirstFile(files: seq<FileInfo>): (f: Option<FileInfo>)
    ensures f.Some? <==> |files| > 0
    ensures f.Some? ==> f.value == files[0]
  {
    if |files| > 0 then Some(files[0]) else None
  }

  /** The controls on the upload screen. The drop handler sits on the
      outermost element; the picker exists only while nothing is loading. */
  datatype Control = DropZone | LogoutButton | FilePicker

  function RenderedControls(isLoading: bool): set<Control> {
    {DropZone, LogoutButton} + (if isLoading then {} else {FilePicker})
  }

  /** The rendered controls through which a file can be submitted. */
  function SubmissionControls(isLoading: bool): set<Control> {
    RenderedControls(isLoading) * {DropZone, FilePicker}
  }

  /** As written, the drop zone stays in place during an analysis, so a
      second file can be submitted while the first is still loading. */
  lemma DropSubmitsWhileLoading()
    ensures DropZone in SubmissionControls(true)
    ensures FilePicker !in SubmissionControls(true)
  {
  }

  /** The evidently intended screen: while loading, neither the picker nor
      the drop zone accepts a file. */
  function IdleSubmissionControls(isLoading: bool): set<Control> {
    if isLoading then {} else SubmissionControls(false)
  }

  lemma NoSubmissionWhileLoading(isLoading: bool)
    ensures IdleSubmissionControls(isLoading) == {} <==> isLoading
    ensures !isLoading ==> IdleSubmissionControls(isLoading) == {DropZone, FilePicker}
  {
    assert DropZone in SubmissionControls(false);
  }

  /** The upload screen's state. `forwarded` records each hand-over to the
      analysis (`onFileUpload`), in order. */
  class FileUploadPanel {
    var fileError: string
    var isLoading: bool
    var forwarded: seq<FileInfo>

    constructor(isLoading: bool)
      ensures this.isLoading == isLoading
      ensures fileError == "" && forwarded == []
    {
      this.isLoading := isLoading;
      fileError := "";
      forwarded := [];
    }

    /** The parent re-renders the screen with a new loading flag. */
    method SetLoading(isLoading: bool)
      modifies this`isLoading
      ensures this.isLoading == isLoading
    {
      this.isLoading := isLoading;
    }

    /** An accepted file is handed over exactly once and the error is
        cleared; a rejected file is never handed over and the error names
        the accepted types. */
    method HandleFileProcessing(file: FileInfo)
      modifies this`fileError, this`forwarded
      ensures ValidateFile(Some(file)) ==>
        forwarded == old(forwarded) + [file] && fileError == ""
      ensures !ValidateFile(Some(file)) ==>
        forwarded == old(forwarded) && fileError == UnsupportedTypeMessage
    {
      fileError := "";
      if ValidateFile(Some(file)) {
        forwarded := forwarded + [file];
      } else {
        fileError := UnsupportedTypeMessage;
      }
    }

    /** A drop processes the first dropped file, if any, whatever the
        loading flag says. */
    method HandleDrop(files: seq<FileInfo>)
      modifies this`fileError, this`forwarded
      ensures files == [] ==> fileError == old(fileError) && forwarded == old(forwarded)
      ensures files != [] && ValidateFile(Some(files[0])) ==>
        forwarded == old(forwarded) + [files[0]] && fileError == ""
      ensures files != [] && !ValidateFile(Some(files[0])) ==>
        forwarded == old(forwarded) && fileError == UnsupportedTypeMessage
    {
      var first := FirstFile(files);
      if first.Some? {
        HandleFileProcessing(first.value);
      }
    }

    /** A picker change processes the first chosen file, if any. The picker
        exists only while nothing is loading. */
    method HandleChange(files: seq<FileInfo>)
      requires FilePicker in RenderedControls(isLoading)
      modifies this`fileError, this`forwarded
      ensures !isLoading
      ensures files == [] ==> fileError == old(fileError) && forwarded == old(forwarded)
      ensures files != [] && ValidateFile(Some(files[0])) ==>
        forwarded == old(forwarded) + [files[0]] && fileError == ""
      ensures files != [] && !ValidateFile(Some(files[0])) ==>
        forwarded == old(forwarded) && fileError == UnsupportedTypeMessage
    {
      var first := FirstFile(files);
      if first.Some? {
        HandleFileProcessing(first.value);
      }
    }

    /** The drop handler as evidently intended: ignored while loading, so
        at most one analysis is ever in flight. */
    method HandleDropWhenIdle(files: seq<FileInfo>)
      modifies this`fileError, this`forwarded
      ensures isLoading ==> fileError == old(fileError) && forwarded == old(forwarded)
      ensures !isLoading && files != [] && ValidateFile(Some(files[0])) ==>
        forwarded == old(forwarded) + [files[0]] && fileError == ""
      ensures !isLoading && files != [] && !ValidateFile(Some(files[0])) ==>
        forwarded == old(forwarded) && fileError == UnsupportedTypeMessage
      ensures files == [] ==> fileError == old(fileError) && forwarded == old(forwarded)
    {
      if DropZone in IdleSubmissionControls(isLoading) {
        HandleDrop(files);
      }
    }
  }

  /** A drop during an analysis hands a second file over, as written. */
  method DropDuringLoadingScenario() {
    var panel := new FileUploadPanel(true);
    var csv := FileInfo("sales.csv", "text/csv");
    panel.HandleDrop([csv]);
    assert panel.forwarded == [csv];
    panel.HandleDropWhenIdle([csv]);
    assert panel.forwarded == [csv];
  }
}
