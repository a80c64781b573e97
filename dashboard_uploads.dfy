/** The two spreadsheet inputs of the dashboard page: the batch-upload
    section and its "upload file" button, and the upload dialog that creates
    topics from an Excel sheet. */
module DashboardUploads {
  import opened Wrappers
  import opened Text
  import opened Seqs
  import opened Files
  import opened Actions
  import opened Auth

  const SpreadsheetTypes: seq<string> := [
    "application/vnd.ms-excel",
    "application/vnd.openxmlformats-officedocument.spreadsheetml.sheet",
    "text/csv"
  ]

  /** The filter of `processFiles`: a spreadsheet MIME type, or a name that
      ends, case-sensitively, in ".xlsx", ".xls" or ".csv". */
  predicate IsSpreadsheet(f: FileInfo) {
    || f.mimeType in SpreadsheetTypes
    || EndsWith(f.name, ".xlsx") || EndsWith(f.name, ".xls") || EndsWith(f.name, ".csv")
  }

  datatype ProcessOutcome = NoValidFiles | Uploading(files: seq<FileInfo>)

  /** `processFiles(files)`: the spreadsheets among the files, in order, go to
      the upload; when there are none an error is shown instead. */
  function ProcessFiles(files: seq<FileInfo>): (r: ProcessOutcome)
    ensures r == NoValidFiles <==> forall i :: 0 <= i < |files| ==> !IsSpreadsheet(files[i])
    ensures r.Uploading? ==> |r.files| > 0
    ensures r.Uploading? ==> forall i :: 0 <= i < |r.files| ==> r.files[i] in files && IsSpreadsheet(r.files[i])
    ensures r.Uploading? ==> forall i :: 0 <= i < |files| && IsSpreadsheet(files[i]) ==> files[i] in r.files
  {
    var valid := Filter(files, IsSpreadsheet);
    assert |valid| > 0 ==> valid[0] in files && IsSpreadsheet(valid[0]);
    if |valid| == 0 then NoValidFiles else Uploading(valid)
  }

  /** A batch of spreadsheets is uploaded as it is. */
  lemma AllSpreadsheetsUploaded(files: seq<FileInfo>)
    requires |files| > 0 && forall i :: 0 <= i < |files| ==> IsSpreadsheet(files[i])
    ensures ProcessFiles(files) == Uploading(files)
  {
    FilterAll(files, IsSpreadsheet);
  }

  /** `handleUploadClick`: signed in, the file picker opens; signed out, the
      click on the file input is deferred. */
  method HandleUploadClick(auth: AuthManager) returns (effect: Option<Effect>)
    modifies auth
    ensures auth.user.Some? ==> (effect == Some(OpenFilePicker) && auth.pendingAction == old(auth.pendingAction)
      && auth.modalVisible == old(auth.modalVisible))
    ensures auth.user.None? ==> effect == None && auth.pendingAction == Some(ClickFileInput) && auth.modalVisible
    ensures auth.user == old(auth.user) && auth.events == old(auth.events)
  {
    if auth.user.None? {
      auth.ShowAuthModal(Some(ClickFileInput));
      return None;
    }
    effect := Some(OpenFilePicker);
  }

  /** The upload dialog accepts only names ending in ".xlsx" or ".xls". */
  predicate IsExcelName(name: string) {
    EndsWith(name, ".xlsx") || EndsWith(name, ".xls")
  }

  datatype SelectOutcome = NothingOffered | Selected | NotExcel

  datatype UploadOutcome = SelectFileFirst | UploadStarted

  /** The smallest and largest topic counts the simulated upload reports. */
  const MinTopics: nat := 5
  const MaxTopics: nat := 24

  class UploadModalManager {
    var isOpen: bool
    var isDragging: bool
    var selectedFile: Option<FileInfo>
    var isUploading: bool
    var processDisabled: bool
    var resultVisible: bool
    var scheduleName: string

    constructor ()
      ensures !isOpen && !isDragging && selectedFile == None && !isUploading
      ensures !processDisabled && !resultVisible && scheduleName == ""
    {
      isOpen, isDragging, selectedFile, isUploading := false, false, None, false;
      processDisabled, resultVisible, scheduleName := false, false, "";
    }

    method HandleDragOver()
      modifies this`isDragging
      ensures isDragging
    {
      isDragging := true;
    }

    method HandleDragLeave()
      modifies this`isDragging
      ensures !isDragging
    {
      isDragging := false;
    }

    /** The selection rule of the drop and file-input handlers: only the first
        file counts, and it is kept when its name is an Excel name. */
    method SelectFirst(files: seq<FileInfo>) returns (o: SelectOutcome)
      modifies this`selectedFile
      ensures |files| == 0 ==> o == NothingOffered
      ensures |files| > 0 ==> (o == Selected <==> IsExcelName(files[0].name))
      ensures o != NothingOffered ==> |files| > 0
      ensures selectedFile == (if |files| > 0 && IsExcelName(files[0].name) then Some(files[0]) else old(selectedFile))
    {
      if |files| == 0 {
        return NothingOffered;
      }
      var file := files[0];
      if EndsWith(file.name, ".xlsx") || EndsWith(file.name, ".xls") {
        selectedFile := Some(file);
        o := Selected;
      } else {
        o := NotExcel;
      }
    }

    /** `handleDrop`: the highlight goes away, then the first file is offered. */
    method HandleDrop(files: seq<FileInfo>) returns (o: SelectOutcome)
      modifies this`isDragging, this`selectedFile
      ensures !isDragging
      ensures |files| > 0 ==> (o == Selected <==> IsExcelName(files[0].name))
      ensures selectedFile == (if |files| > 0 && IsExcelName(files[0].name) then Some(files[0]) else old(selectedFile))
    {
      isDragging := false;
      o := SelectFirst(files);
    }

    /** `handleFileSelect` */
    method HandleFileSelect(files: seq<FileInfo>) returns (o: SelectOutcome)
      modifies this`selectedFile
      ensures |files| > 0 ==> (o == Selected <==> IsExcelName(files[0].name))
      ensures selectedFile == (if |files| > 0 && IsExcelName(files[0].name) then Some(files[0]) else old(selectedFile))
    {
      o := SelectFirst(files);
    }

    /** `handleUpload` up to its timer: without a file nothing changes;
        otherwise the upload is in flight and the button disabled. */
    method HandleUpload() returns (o: UploadOutcome)
      modifies this`isUploading, this`processDisabled
      ensures o == (if old(selectedFile).None? then SelectFileFirst else UploadStarted)
      ensures o == SelectFileFirst ==>
        isUploading == old(isUploading) && processDisabled == old(processDisabled)
      ensures o == UploadStarted ==> isUploading && processDisabled
    {
      if selectedFile.None? {
        return SelectFileFirst;
      }
      isUploading := true;
      processDisabled := true;
      o := UploadStarted;
    }

    /** The timer of `handleUpload`: the result shows the number of topics
        created, and the upload ends with the button enabled again. The
        dialog closes on a later timer (`CloseModal`). The topic count is
        the random draw, passed in. */
    method CompleteUpload(topics: nat) returns (count: nat)
      requires MinTopics <= topics <= MaxTopics
      modifies this`isUploading, this`processDisabled, this`resultVisible
      ensures count == topics && MinTopics <= count <= MaxTopics
      ensures resultVisible && !isUploading && !processDisabled
    {
      resultVisible := true;
      isUploading := false;
      processDisabled := false;
      count := topics;
    }

    /** `closeModal`: hides the dialog and clears the selection, the result
        and the schedule name. */
    method CloseModal()
      modifies this`isOpen, this`selectedFile, this`resultVisible, this`processDisabled, this`scheduleName
      ensures !isOpen && selectedFile == None && !resultVisible && !processDisabled && scheduleName == ""
    {
      isOpen := false;
      selectedFile := None;
      resultVisible := false;
      processDisabled := false;
      scheduleName := "";
    }

    method OpenModal()
      modifies this`isOpen
      ensures isOpen
    {
      isOpen := true;
    }
  }
}
