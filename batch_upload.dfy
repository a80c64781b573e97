/** The batch-upload dialog: a spreadsheet and a schedule name become a
    campaign. The handlers update the dialog's flags step by step.

    `handleUpload` awaits a simulated request. It is split at that await:
    `HandleUpload` runs up to it and `CompleteUpload` runs from it, so that
    the handlers that look at `isUploading` in between can be stated. */
module BatchUpload {
  import opened Wrappers
  import opened Text
  import opened Files

  const ValidExtensions: seq<string> := [".xlsx", ".xls", ".csv"]

  datatype FileError = BadExtension | TooLarge

  /** `file.name.substring(file.name.lastIndexOf('.')).toLowerCase()`: from
      the last '.' on, or the whole name when there is no '.'. */
  function Extension(name: string): (r: string)
    ensures |r| <= |name|
  {
    Lower(SubstringFrom(name, LastIndexOf(name, '.')))
  }

  /** `validateFile`: the extension rule first, then the 10 MiB rule. */
  function ValidateFile(f: FileInfo): (r: Outcome<FileError>)
    ensures r.Pass? <==> Extension(f.name) in ValidExtensions && f.size <= TenMiB
    ensures r == Fail(BadExtension) <==> Extension(f.name) !in ValidExtensions
  {
    if Extension(f.name) !in ValidExtensions then Fail(BadExtension)
    else if f.size > TenMiB then Fail(TooLarge)
    else Pass
  }

  lemma ValidateFileOrdered(f: FileInfo)
    ensures ValidateFile(f) == FirstFailure([(Extension(f.name) in ValidExtensions, BadExtension),
                                             (f.size <= TenMiB, TooLarge)])
  {
    FirstFailureOfTwo(Extension(f.name) in ValidExtensions, BadExtension, f.size <= TenMiB, TooLarge);
  }

  lemma {:induction false} LowerSuffix(s: string, k: nat)
    requires k <= |s|
    ensures Lower(s[k..]) == Lower(s)[k..]
  {
    if k > 0 {
      assert s[k..] == s[1..][k - 1..];
      LowerSuffix(s[1..], k - 1);
    }
  }

  /** Lower-casing leaves '.' in place and never makes one. */
  lemma LowerDot(c: char)
    ensures LowerChar(c) == '.' <==> c == '.'
  {
  }

  /** The extension rule, restated without `lastIndexOf`: the extension is
      one of the accepted ones exactly when the lower-cased name ends in it. */
  lemma ExtensionRule(name: string, e: string)
    requires e in ValidExtensions
    ensures Extension(name) == e <==> EndsWith(Lower(name), e)
  {
    assert e[0] == '.' && forall j :: 1 <= j < |e| ==> e[j] != '.';
    if LastIndexOf(name, '.') >= 0 {
      ExtensionAfterDot(name, e);
    } else {
      var low := Lower(name);
      assert Extension(name) == low;
      forall j | 0 <= j < |name|
        ensures low[j] != '.'
      {
        LowerDot(name[j]);
      }
      NoDotSuffix(low, e);
    }
  }

  /** For an extension e that starts with its only '.', the text from the
      last '.' on is e exactly when the lower-cased name ends in e. */
  lemma ExtensionAfterDot(name: string, e: string)
    requires LastIndexOf(name, '.') >= 0
    requires |e| >= 1 && e[0] == '.' && forall j :: 1 <= j < |e| ==> e[j] != '.'
    ensures Extension(name) == e <==> EndsWith(Lower(name), e)
  {
    var k := LastIndexOf(name, '.');
    var low := Lower(name);
    LowerSuffix(name, k);
    forall j | k < j < |name|
      ensures low[j] != '.'
    {
      LowerDot(name[j]);
    }
    ExtensionSuffix(low, k, e);
  }

  /** With the last '.' of `low` at k, the tail from k is e exactly when
      `low` ends in e, for an e that starts with its only '.'. */
  lemma ExtensionSuffix(low: string, k: nat, e: string)
    requires k < |low| && low[k] == '.'
    requires forall j :: k < j < |low| ==> low[j] != '.'
    requires |e| >= 1 && e[0] == '.' && forall j :: 1 <= j < |e| ==> e[j] != '.'
    ensures low[k..] == e <==> EndsWith(low, e)
  {
    var start := |low| - |e|;
    if 0 <= start < k {
      assert low[start..][k - start] == '.' != e[k - start];
    }
    if k < start {
      assert low[start..][0] != '.';
    }
  }

  /** A text with no '.' ends in no extension. */
  lemma NoDotSuffix(low: string, e: string)
    requires forall j :: 0 <= j < |low| ==> low[j] != '.'
    requires |e| >= 1 && e[0] == '.'
    ensures low != e && !EndsWith(low, e)
  {
    if |e| <= |low| {
      assert low[|low| - |e|..][0] != '.';
    }
  }

  datatype DropOutcome =
    | IgnoredWhileUploading
    | NoFileThrows             // `files[0]` is undefined and `validateFile` throws
    | FileRejected(error: FileError)
    | FileSelected

  datatype UploadStart = NoFileSelected | NoScheduleName | Started(scheduleName: string)

  class BatchUploadDialog {
    var isOpen: bool
    var isUploading: bool
    var isDragging: bool
    var selectedFile: Option<FileInfo>
    var uploadResult: string
    var scheduleName: string
    /** The text of the schedule-name field, which `handleUpload` reads. */
    var scheduleNameInput: string
    var processDisabled: bool
    var resultVisible: bool

    constructor ()
      ensures !isOpen && !isUploading && !isDragging && selectedFile == None
      ensures uploadResult == "" && scheduleName == "" && scheduleNameInput == ""
      ensures !processDisabled && !resultVisible
    {
      isOpen, isUploading, isDragging, selectedFile := false, false, false, None;
      uploadResult, scheduleName, scheduleNameInput := "", "", "";
      processDisabled, resultVisible := false, false;
    }

    /** The dialog at rest: nothing selected, nothing in flight, nothing shown. */
    predicate AtRest()
      reads this
    {
      && !isUploading && !isDragging && selectedFile == None && uploadResult == ""
      && scheduleName == "" && scheduleNameInput == "" && !processDisabled && !resultVisible
    }

    /** `resetUploadState` */
    method ResetUploadState()
      modifies this
      ensures AtRest()
      ensures isOpen == old(isOpen)
    {
      isUploading := false;
      isDragging := false;
      selectedFile := None;
      uploadResult := "";
      scheduleName := "";
      scheduleNameInput := "";
      resultVisible := false;
      processDisabled := false;
    }

    /** `openModal`, which is also what the upload button does. */
    method OpenModal()
      modifies this
      ensures isOpen && AtRest()
    {
      isOpen := true;
      ResetUploadState();
    }

    /** `closeModal`: while an upload is in flight the dialog stays as it is
        unless the user confirms; otherwise it closes and resets. */
    method CloseModal(confirmed: bool)
      modifies this
      ensures old(isUploading) && !confirmed ==>
        isOpen == old(isOpen) && isUploading && selectedFile == old(selectedFile)
        && uploadResult == old(uploadResult) && scheduleNameInput == old(scheduleNameInput)
        && isDragging == old(isDragging) && scheduleName == old(scheduleName)
        && processDisabled == old(processDisabled) && resultVisible == old(resultVisible)
      ensures !old(isUploading) || confirmed ==> !isOpen && AtRest()
    {
      if isUploading && !confirmed {
        return;
      }
      isOpen := false;
      ResetUploadState();
    }

    /** `handleDragOver`: highlights only when no upload is in flight. */
    method HandleDragOver()
      modifies this`isDragging
      ensures isDragging == (old(isDragging) || !isUploading)
    {
      if !isUploading {
        isDragging := true;
      }
    }

    method HandleDragLeave()
      modifies this`isDragging
      ensures !isDragging
    {
      isDragging := false;
    }

    /** `handleDrop`: always ends the highlight; while uploading the drop is
        ignored; otherwise the first file replaces the selection when it
        validates. */
    method HandleDrop(file: Option<FileInfo>) returns (o: DropOutcome)
      modifies this`isDragging, this`selectedFile
      ensures !isDragging
      ensures old(isUploading) ==> o == IgnoredWhileUploading
      ensures !old(isUploading) && file.None? ==> o == NoFileThrows
      ensures !old(isUploading) && file.Some? ==>
        o == (if ValidateFile(file.value).Pass? then FileSelected else FileRejected(ValidateFile(file.value).error))
      ensures selectedFile == (if o == FileSelected then file else old(selectedFile))
    {
      isDragging := false;
      if isUploading {
        return IgnoredWhileUploading;
      }
      o := TakeFile(file);
    }

    /** `handleFileInputChange`: the same selection rule, with no check of
        `isUploading`. */
    method HandleFileInputChange(file: Option<FileInfo>) returns (o: DropOutcome)
      modifies this`selectedFile
      ensures file.None? ==> o == NoFileThrows
      ensures file.Some? ==>
        o == (if ValidateFile(file.value).Pass? then FileSelected else FileRejected(ValidateFile(file.value).error))
      ensures selectedFile == (if o == FileSelected then file else old(selectedFile))
    {
      o := TakeFile(file);
    }

    method TakeFile(file: Option<FileInfo>) returns (o: DropOutcome)
      modifies this`selectedFile
      ensures file.None? ==> o == NoFileThrows
      ensures file.Some? ==>
        o == (if ValidateFile(file.value).Pass? then FileSelected else FileRejected(ValidateFile(file.value).error))
      ensures selectedFile == (if o == FileSelected then file else old(selectedFile))
    {
      if file.None? {
        return NoFileThrows;
      }
      var v := ValidateFile(file.value);
      if v.Pass? {
        selectedFile := file;
        o := FileSelected;
      } else {
        o := FileRejected(v.error);
      }
    }

    /** The "Remove" button of a selected file. */
    method RemoveSelectedFile()
      modifies this`selectedFile
      ensures selectedFile == None
    {
      selectedFile := None;
    }

    /** The user types into the schedule-name field. */
    method EditScheduleName(text: string)
      modifies this`scheduleNameInput
      ensures scheduleNameInput == text
    {
      scheduleNameInput := text;
    }

    /** `handleUpload` up to its await: a missing file, then a blank trimmed
        schedule name, stop it with nothing changed; otherwise the upload is
        in flight and the button disabled. */
    method HandleUpload() returns (o: UploadStart)
      modifies this`isUploading, this`processDisabled, this`resultVisible
      ensures o == (if old(selectedFile).None? then NoFileSelected
                    else if Trim(old(scheduleNameInput)) == "" then NoScheduleName
                    else Started(Trim(old(scheduleNameInput))))
      ensures !o.Started? ==> (isUploading == old(isUploading) && processDisabled == old(processDisabled)
        && resultVisible == old(resultVisible))
      ensures o.Started? ==> isUploading && processDisabled && resultVisible
    {
      if selectedFile.None? {
        return NoFileSelected;
      }
      var name := Trim(scheduleNameInput);
      if name == "" {
        return NoScheduleName;
      }
      isUploading := true;
      processDisabled := true;
      resultVisible := true;
      o := Started(name);
    }

    /** `handleUpload` from its await on: success records "success" and
        leaves the button disabled until the dialog closes; failure records
        "error" and enables the button; either way nothing is in flight
        afterwards. */
    method CompleteUpload(failed: bool)
      modifies this
      ensures !isUploading
      ensures uploadResult == (if failed then "error" else "success")
      ensures processDisabled == (!failed && old(processDisabled))
      ensures selectedFile == old(selectedFile) && isOpen == old(isOpen)
      ensures scheduleNameInput == old(scheduleNameInput) && resultVisible == old(resultVisible)
      ensures isDragging == old(isDragging) && scheduleName == old(scheduleName)
    {
      if failed {
        uploadResult := "error";
        processDisabled := false;
      } else {
        uploadResult := "success";
      }
      isUploading := false;
    }
  }
}
