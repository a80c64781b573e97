/** The direct-post dialog: an image (a file or a URL), a caption and an
    optional schedule, posted to the selected platform.

    `handleSubmit` awaits a simulated request; it is split at that await into
    `HandleSubmit` and `CompletePost`. The browser calls that this dialog
    makes (`URL.createObjectURL`, `fetch`, `Date`) are parameters. */
module DirectPost {
  import opened Wrappers
  import opened Text
  import opened Files

  const ImageTypes: seq<string> := ["image/jpeg", "image/png", "image/gif", "image/webp"]

  datatype ImageError = NotAnImage | ImageTooLarge

  /** `validateImageFile`: the type rule first, then the 10 MiB rule. */
  function ValidateImageFile(f: FileInfo): (r: Outcome<ImageError>)
    ensures r.Pass? <==> f.mimeType in ImageTypes && f.size <= TenMiB
    ensures r == Fail(NotAnImage) <==> f.mimeType !in ImageTypes
  {
    if f.mimeType !in ImageTypes then Fail(NotAnImage)
    else if f.size > TenMiB then Fail(ImageTooLarge)
    else Pass
  }

  lemma ValidateImageFileOrdered(f: FileInfo)
    ensures ValidateImageFile(f) == FirstFailure([(f.mimeType in ImageTypes, NotAnImage),
                                                  (f.size <= TenMiB, ImageTooLarge)])
  {
    FirstFailureOfTwo(f.mimeType in ImageTypes, NotAnImage, f.size <= TenMiB, ImageTooLarge);
  }

  /** The part of `validateImageUrl` before its request. */
  datatype UrlCheck = BlankUrl | BadUrlExtension | FetchHead(url: string)

  /** `validExtensions.some(ext => url.toLowerCase().endsWith(ext))` */
  predicate HasImageExtension(url: string) {
    var low := Lower(url);
    EndsWith(low, ".jpg") || EndsWith(low, ".jpeg") || EndsWith(low, ".png")
    || EndsWith(low, ".gif") || EndsWith(low, ".webp")
  }

  /** A blank trimmed URL is ignored silently; a URL whose lower-cased text
      does not end in an image extension is refused; any other URL is checked
      with a HEAD request, trimmed. */
  function PrecheckImageUrl(input: string): (c: UrlCheck)
    ensures c == BlankUrl <==> forall i :: 0 <= i < |input| ==> IsWhitespace(input[i])
    ensures c == BadUrlExtension <==> Trim(input) != "" && !HasImageExtension(Trim(input))
    ensures c.FetchHead? ==> c.url == Trim(input) && HasImageExtension(Trim(input))
  {
    var url := Trim(input);
    if url == "" then BlankUrl
    else if !HasImageExtension(url) then BadUrlExtension
    else FetchHead(url)
  }

  /** Colour of the character counter. */
  datatype CounterColor = Secondary | WarningLight | Warning

  function CounterRank(c: CounterColor): nat {
    match c
    case Secondary => 0
    case WarningLight => 1
    case Warning => 2
  }

  /** `updateCharacterCount`'s bands: above 480, above 450, otherwise. */
  function CounterBand(count: nat): (c: CounterColor)
    ensures c == Warning <==> count > 480
    ensures c == WarningLight <==> 450 < count <= 480
    ensures c == Secondary <==> count <= 450
  {
    if count > 480 then Warning else if count > 450 then WarningLight else Secondary
  }

  /** A longer caption is never shown in a milder colour, and the bands
      change exactly at 451 and 481. */
  lemma CounterBandMonotone(a: nat, b: nat)
    requires a <= b
    ensures CounterRank(CounterBand(a)) <= CounterRank(CounterBand(b))
    ensures CounterBand(a) != CounterBand(b) ==> (a <= 450 < b) || (a <= 480 < b)
  {
  }

  /** `updateSubmitButton`'s label. */
  function SubmitLabel(isScheduled: bool, platform: string): (r: string)
    ensures isScheduled ==> r == "Schedule Post"
    ensures !isScheduled ==> StartsWith(r, "Post to ") && r[8..] == CapitalizeFirst(platform)
  {
    if isScheduled then "Schedule Post" else "Post to " + CapitalizeFirst(platform)
  }

  /** `validateScheduleTime`: with scheduling off any time passes; otherwise
      the time must not be at or before now. A date the browser cannot parse
      is NaN, and NaN is not at or before anything, so it passes too. */
  predicate ScheduleTimeOk(isScheduled: bool, at: Option<int>, now: int)
    ensures ScheduleTimeOk(isScheduled, at, now) <==> !isScheduled || at.None? || at.value > now
  {
    !isScheduled || !(at.Some? && at.value <= now)
  }

  lemma UnparseableSchedulePasses(now: int)
    ensures ScheduleTimeOk(true, None, now)
  {
  }

  datatype PostError = NoImage | NoCaption | ScheduleInPast

  /** `handleSubmit`'s three checks in order: an image, a caption that is not
      blank, a schedule time in the future. */
  function SubmitCheck(hasImage: bool, caption: string, isScheduled: bool, at: Option<int>, now: int)
    : (r: Outcome<PostError>)
    ensures r.Pass? <==> hasImage && Trim(caption) != "" && ScheduleTimeOk(isScheduled, at, now)
    ensures r == Fail(NoImage) <==> !hasImage
    ensures r == Fail(NoCaption) <==> hasImage && forall i :: 0 <= i < |caption| ==> IsWhitespace(caption[i])
  {
    if !hasImage then Fail(NoImage)
    else if Trim(caption) == "" then Fail(NoCaption)
    else if !ScheduleTimeOk(isScheduled, at, now) then Fail(ScheduleInPast)
    else Pass
  }

  lemma SubmitCheckOrdered(hasImage: bool, caption: string, isScheduled: bool, at: Option<int>, now: int)
    ensures SubmitCheck(hasImage, caption, isScheduled, at, now)
         == FirstFailure([(hasImage, NoImage), (Trim(caption) != "", NoCaption),
                          (ScheduleTimeOk(isScheduled, at, now), ScheduleInPast)])
  {
    FirstFailureOfThree(hasImage, NoImage, Trim(caption) != "", NoCaption,
                        ScheduleTimeOk(isScheduled, at, now), ScheduleInPast);
  }

  datatype DropOutcome = IgnoredWhilePosting | NoFileThrows | ImageRejected(error: ImageError) | ImageAccepted

  class DirectPostDialog {
    var isOpen: bool
    var imageFile: Option<FileInfo>
    var imageUrl: string
    var objectUrl: Option<string>
    /** The texts of the URL field and of the caption field. */
    var urlInput: string
    var caption: string
    var isDragging: bool
    var isPosting: bool
    var isScheduled: bool
    var currentPlatform: string
    var submitDisabled: bool

    constructor ()
      ensures imageFile == None && imageUrl == "" && objectUrl == None
      ensures !isDragging && !isPosting && !isScheduled && currentPlatform == "twitter"
      ensures urlInput == "" && caption == "" && !isOpen && !submitDisabled
    {
      isOpen, imageFile, imageUrl, objectUrl := false, None, "", None;
      urlInput, caption := "", "";
      isDragging, isPosting, isScheduled := false, false, false;
      currentPlatform, submitDisabled := "twitter", false;
    }

    /** An image is chosen (`!this.imageUrl && !this.imageFile` is false). */
    predicate HasImage()
      reads this
    {
      imageUrl != "" || imageFile.Some?
    }

    method HandleDragOver()
      modifies this`isDragging
      ensures isDragging == (old(isDragging) || !isPosting)
    {
      if !isPosting {
        isDragging := true;
      }
    }

    method HandleDragLeave()
      modifies this`isDragging
      ensures !isDragging
    {
      isDragging := false;
    }

    /** `handleImage(file)`: the file becomes the image, shown through a new
        object URL (the browser's answer, passed in). */
    method HandleImage(file: FileInfo, newObjectUrl: string)
      modifies this`imageFile, this`imageUrl, this`objectUrl
      ensures imageFile == Some(file) && imageUrl == newObjectUrl && objectUrl == Some(newObjectUrl)
    {
      imageFile := Some(file);
      objectUrl := Some(newObjectUrl);
      imageUrl := newObjectUrl;
    }

    method TakeFile(file: Option<FileInfo>, newObjectUrl: string) returns (o: DropOutcome)
      modifies this`imageFile, this`imageUrl, this`objectUrl
      ensures file.None? ==> o == NoFileThrows
      ensures file.Some? ==>
        o == (if ValidateImageFile(file.value).Pass? then ImageAccepted else ImageRejected(ValidateImageFile(file.value).error))
      ensures o == ImageAccepted ==> imageFile == file && imageUrl == newObjectUrl && objectUrl == Some(newObjectUrl)
      ensures o != ImageAccepted ==>
        imageFile == old(imageFile) && imageUrl == old(imageUrl) && objectUrl == old(objectUrl)
    {
      if file.None? {
        return NoFileThrows;
      }
      var v := ValidateImageFile(file.value);
      if v.Fail? {
        return ImageRejected(v.error);
      }
      HandleImage(file.value, newObjectUrl);
      o := ImageAccepted;
    }

    /** `handleDrop`: ends the highlight; ignored while posting; otherwise a
        valid first file becomes the image. */
    method HandleDrop(file: Option<FileInfo>, newObjectUrl: string) returns (o: DropOutcome)
      modifies this`isDragging, this`imageFile, this`imageUrl, this`objectUrl
      ensures !isDragging
      ensures old(isPosting) ==> o == IgnoredWhilePosting
      ensures !old(isPosting) && file.None? ==> o == NoFileThrows
      ensures !old(isPosting) && file.Some? ==>
        o == (if ValidateImageFile(file.value).Pass? then ImageAccepted else ImageRejected(ValidateImageFile(file.value).error))
      ensures o == ImageAccepted ==> imageFile == file && imageUrl == newObjectUrl && objectUrl == Some(newObjectUrl)
      ensures o != ImageAccepted ==>
        imageFile == old(imageFile) && imageUrl == old(imageUrl) && objectUrl == old(objectUrl)
    {
      isDragging := false;
      if isPosting {
        return IgnoredWhilePosting;
      }
      o := TakeFile(file, newObjectUrl);
    }

    /** `handleFileInputChange`: the same rule, with no check of `isPosting`. */
    method HandleFileInputChange(file: Option<FileInfo>, newObjectUrl: string) returns (o: DropOutcome)
      modifies this`imageFile, this`imageUrl, this`objectUrl
      ensures file.None? ==> o == NoFileThrows
      ensures file.Some? ==>
        o == (if ValidateImageFile(file.value).Pass? then ImageAccepted else ImageRejected(ValidateImageFile(file.value).error))
      ensures o == ImageAccepted ==> imageFile == file && imageUrl == newObjectUrl && objectUrl == Some(newObjectUrl)
      ensures o != ImageAccepted ==>
        imageFile == old(imageFile) && imageUrl == old(imageUrl) && objectUrl == old(objectUrl)
    {
      o := TakeFile(file, newObjectUrl);
    }

    /** `removeImage`: no file, no URL, an empty URL field. */
    method RemoveImage()
      modifies this`imageFile, this`imageUrl, this`urlInput
      ensures imageFile == None && imageUrl == "" && urlInput == ""
      ensures !HasImage()
    {
      imageFile := None;
      imageUrl := "";
      urlInput := "";
    }

    method EditUrl(text: string)
      modifies this`urlInput
      ensures urlInput == text
    {
      urlInput := text;
    }

    method EditCaption(text: string)
      modifies this`caption
      ensures caption == text
    {
      caption := text;
    }

    /** `validateImageUrl`. `headAccepts` is the answer of the HEAD request
        (an ok response whose content type starts with "image/"); it is only
        asked for when the URL passes the pre-check. */
    method ValidateImageUrl(headAccepts: bool) returns (c: UrlCheck)
      modifies this`imageFile, this`imageUrl
      ensures c == PrecheckImageUrl(urlInput)
      ensures imageFile == (if c.FetchHead? && headAccepts then None else old(imageFile))
      ensures imageUrl == (if c.FetchHead? && headAccepts then c.url else old(imageUrl))
    {
      c := PrecheckImageUrl(urlInput);
      ApplyUrlCheck(c, headAccepts);
    }

    /** The URL that passed the pre-check and the HEAD request replaces any
        chosen file. */
    method ApplyUrlCheck(c: UrlCheck, headAccepts: bool)
      modifies this`imageFile, this`imageUrl
      ensures imageFile == (if c.FetchHead? && headAccepts then None else old(imageFile))
      ensures imageUrl == (if c.FetchHead? && headAccepts then c.url else old(imageUrl))
    {
      if c.FetchHead? && headAccepts {
        imageFile := None;
        imageUrl := c.url;
      }
    }

    /** A platform button selects the platform. */
    method SelectPlatform(platform: string) returns (buttonText: string)
      modifies this`currentPlatform
      ensures currentPlatform == platform
      ensures buttonText == SubmitLabel(isScheduled, platform)
    {
      currentPlatform := platform;
      buttonText := SubmitLabel(isScheduled, currentPlatform);
    }

    /** `toggleScheduleOptions`: scheduling follows the checkbox. */
    method ToggleScheduleOptions(checked: bool) returns (buttonText: string)
      modifies this`isScheduled
      ensures isScheduled == checked
      ensures buttonText == SubmitLabel(checked, currentPlatform)
    {
      isScheduled := checked;
      buttonText := SubmitLabel(isScheduled, currentPlatform);
    }

    /** `handleSubmit` up to its await: the first failing check stops it with
        nothing changed; otherwise posting starts. `at` is the parsed schedule
        time (None when it does not parse) and `now` the clock. */
    method HandleSubmit(at: Option<int>, now: int) returns (r: Outcome<PostError>)
      modifies this`isPosting, this`submitDisabled
      ensures r == SubmitCheck(HasImage(), caption, isScheduled, at, now)
      ensures r.Fail? ==> isPosting == old(isPosting) && submitDisabled == old(submitDisabled)
      ensures r.Pass? ==> isPosting && submitDisabled
    {
      r := SubmitCheck(imageUrl != "" || imageFile.Some?, caption, isScheduled, at, now);
      if r.Pass? {
        isPosting := true;
        submitDisabled := true;
      }
    }

    /** `resetForm` */
    method ResetForm()
      modifies this`imageFile, this`imageUrl, this`urlInput, this`caption, this`isScheduled,
               this`isPosting, this`submitDisabled
      ensures imageFile == None && imageUrl == "" && urlInput == "" && caption == ""
      ensures !isScheduled && !isPosting && !submitDisabled
    {
      RemoveImage();
      caption := "";
      isScheduled := false;
      isPosting := false;
      submitDisabled := false;
    }

    /** `closeModal`: hides the dialog and resets the form. */
    method CloseModal()
      modifies this`isOpen, this`imageFile, this`imageUrl, this`urlInput, this`caption,
               this`isScheduled, this`isPosting, this`submitDisabled
      ensures !isOpen && imageFile == None && imageUrl == "" && urlInput == "" && caption == ""
      ensures !isScheduled && !isPosting && !submitDisabled
    {
      isOpen := false;
      ResetForm();
    }

    /** `handleSubmit` from its await on: success closes the dialog (which
        resets the form); either way posting has ended and the button is
        enabled again. */
    method CompletePost(failed: bool)
      modifies this`isOpen, this`imageFile, this`imageUrl, this`urlInput, this`caption,
               this`isScheduled, this`isPosting, this`submitDisabled
      ensures !isPosting && !submitDisabled
      ensures !failed ==> (!isOpen && !HasImage() && imageFile == None && imageUrl == ""
        && urlInput == "" && caption == "" && !isScheduled)
      ensures failed ==> (isOpen == old(isOpen) && imageFile == old(imageFile) && imageUrl == old(imageUrl)
        && urlInput == old(urlInput) && caption == old(caption) && isScheduled == old(isScheduled))
    {
      if !failed {
        CloseModal();
      }
      isPosting := false;
      submitDisabled := false;
    }
  }
}
