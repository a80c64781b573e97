/** The per-platform post dialogs opened from the social cards. One manager
    serves the three dialogs and keeps a single selected file and a single
    schedule flag for all of them; each dialog has its own caption, date and
    time fields.

    The 300 ms delay before a closed dialog is reset, and the simulated
    request of `submitPost`, are not modelled: each is part of one atomic
    step. */
module DirectPostModal {
  import opened Wrappers
  import opened Text
  import opened Files

  /** The platforms whose dialog the page attaches an Escape listener to. */
  const PlatformNames: set<string> := {"instagram", "twitter", "linkedin"}

  /** The caption limit that the counter, the reset and the submit check share. */
  function CaptionLimit(platform: string): (n: nat)
    ensures n == 280 <==> platform == "twitter"
    ensures n != 280 ==> n == 2200
  {
    if platform == "twitter" then 280 else 2200
  }

  /** The counter is shown as an error when the caption as typed, untrimmed,
      is longer than the limit. */
  predicate CounterIsError(platform: string, caption: string)
    ensures platform == "twitter" ==> (CounterIsError(platform, caption) <==> |caption| > 280)
    ensures platform != "twitter" ==> (CounterIsError(platform, caption) <==> |caption| > 2200)
  {
    |caption| > CaptionLimit(platform)
  }

  /** The submit check on the caption, which trims first. */
  predicate CaptionFits(platform: string, caption: string) {
    |Trim(caption)| <= CaptionLimit(platform)
  }

  /** A caption that the counter does not flag always passes the submit check. */
  lemma CounterOkImpliesFits(platform: string, caption: string)
    requires !CounterIsError(platform, caption)
    ensures CaptionFits(platform, caption)
  {
  }

  /** The converse does not hold: 281 spaces are flagged by the Twitter
      counter but trim to an empty caption, which passes the check. */
  lemma FlaggedCaptionMayFit()
    ensures CounterIsError("twitter", seq(281, _ => ' '))
    ensures CaptionFits("twitter", seq(281, _ => ' '))
  {
    var c := seq(281, _ => ' ');
    assert forall i :: 0 <= i < |c| ==> IsWhitespace(c[i]);
    assert Trim(c) == [];
  }

  /** The caption, date and time fields of one dialog. */
  datatype Form = Form(caption: string, date: string, time: string)

  const EmptyForm: Form := Form("", "", "")

  datatype ModalError = NoImage | CaptionTooLong(limit: nat) | NoScheduleTime

  /** `handleSubmit`'s checks in order: a selected file, a trimmed caption
      within the limit, and, when scheduling, a date and a time. An empty
      caption is accepted. */
  function ModalSubmitCheck(hasFile: bool, platform: string, f: Form, isScheduled: bool)
    : (r: Outcome<ModalError>)
    ensures r.Pass? <==> hasFile && CaptionFits(platform, f.caption)
                         && (isScheduled ==> f.date != "" && f.time != "")
    ensures r == Fail(NoImage) <==> !hasFile
    ensures r.Fail? && r.error.CaptionTooLong? ==> r.error.limit == CaptionLimit(platform)
  {
    if !hasFile then Fail(NoImage)
    else if |Trim(f.caption)| > CaptionLimit(platform) then Fail(CaptionTooLong(CaptionLimit(platform)))
    else if isScheduled && (f.date == "" || f.time == "") then Fail(NoScheduleTime)
    else Pass
  }

  lemma ModalSubmitCheckOrdered(hasFile: bool, platform: string, f: Form, isScheduled: bool)
    ensures ModalSubmitCheck(hasFile, platform, f, isScheduled)
         == FirstFailure([(hasFile, NoImage),
                          (CaptionFits(platform, f.caption), CaptionTooLong(CaptionLimit(platform))),
                          (!isScheduled || (f.date != "" && f.time != ""), NoScheduleTime)])
  {
    FirstFailureOfThree(hasFile, NoImage,
                        CaptionFits(platform, f.caption), CaptionTooLong(CaptionLimit(platform)),
                        !isScheduled || (f.date != "" && f.time != ""), NoScheduleTime);
  }

  /** The image-type guard of the file input and of the drop zone. */
  predicate IsImageFile(file: Option<FileInfo>)
    ensures IsImageFile(file) <==> file.Some? && exists rest :: file.value.mimeType == "image/" + rest
  {
    file.Some? && (StartsWithConcat(file.value.mimeType, "image/"); StartsWith(file.value.mimeType, "image/"))
  }

  datatype SubmitResult = NoDialog | Refused(error: ModalError) | Posted(scheduled: bool)

  class DirectPostModalManager {
    /** The platforms whose dialog exists in the page. */
    const modals: set<string>
    var active: set<string>
    var forms: map<string, Form>
    var currentPlatform: Option<string>
    var selectedFile: Option<FileInfo>
    var isScheduled: bool

    ghost predicate Valid()
      reads this
    {
      forms.Keys == modals && active <= modals
    }

    constructor (modals: set<string>)
      ensures this.modals == modals && Valid()
      ensures active == {} && currentPlatform == None && selectedFile == None && !isScheduled
      ensures forall p :: p in modals ==> forms[p] == EmptyForm
    {
      this.modals := modals;
      active := {};
      forms := map p | p in modals :: EmptyForm;
      currentPlatform := None;
      selectedFile := None;
      isScheduled := false;
    }

    /** `resetModal(platform)`: for an existing dialog, clears the shared
        file and schedule flag and that dialog's fields. */
    method ResetModal(platform: string)
      requires Valid()
      modifies this`selectedFile, this`isScheduled, this`forms
      ensures Valid()
      ensures platform in modals ==>
        selectedFile == None && !isScheduled && forms == old(forms)[platform := EmptyForm]
      ensures platform !in modals ==>
        selectedFile == old(selectedFile) && isScheduled == old(isScheduled) && forms == old(forms)
    {
      if platform !in modals {
        return;
      }
      selectedFile := None;
      forms := forms[platform := EmptyForm];
      isScheduled := false;
    }

    /** `openModal(platform)`: the platform is recorded first, even when its
        dialog is missing; an existing dialog is reset and shown. */
    method OpenModal(platform: string) returns (found: bool)
      requires Valid()
      modifies this`selectedFile, this`isScheduled, this`forms, this`active, this`currentPlatform
      ensures Valid()
      ensures currentPlatform == Some(platform)
      ensures found <==> platform in modals
      ensures found ==> (active == old(active) + {platform} && selectedFile == None && !isScheduled
                         && forms == old(forms)[platform := EmptyForm])
      ensures !found ==> (active == old(active) && selectedFile == old(selectedFile)
                          && isScheduled == old(isScheduled) && forms == old(forms))
    {
      currentPlatform := Some(platform);
      if platform !in modals {
        return false;
      }
      ResetModal(platform);
      active := active + {platform};
      found := true;
    }

    /** `closeModal(platform)`: hides and resets an existing dialog; the
        current platform is cleared whether or not the dialog exists. */
    method CloseModal(platform: string)
      requires Valid()
      modifies this`selectedFile, this`isScheduled, this`forms, this`active, this`currentPlatform
      ensures Valid()
      ensures currentPlatform == None
      ensures active == old(active) - {platform}
      ensures platform in modals ==>
        selectedFile == None && !isScheduled && forms == old(forms)[platform := EmptyForm]
      ensures platform !in modals ==>
        selectedFile == old(selectedFile) && isScheduled == old(isScheduled) && forms == old(forms)
    {
      if platform in modals {
        active := active - {platform};
        ResetModal(platform);
      }
      currentPlatform := None;
    }

    /** The schedule switch of any dialog flips the shared flag. */
    method ToggleSchedule()
      modifies this`isScheduled
      ensures isScheduled == !old(isScheduled)
    {
      isScheduled := !isScheduled;
    }

    /** The user types into the fields of a dialog. */
    method EditForm(platform: string, f: Form)
      requires Valid() && platform in modals
      modifies this`forms
      ensures Valid() && forms == old(forms)[platform := f]
    {
      forms := forms[platform := f];
    }

    /** `handleFileSelect` and `handleDrop`: an image file becomes the
        selected file; anything else, or no file, changes nothing. */
    method HandleImageFile(file: Option<FileInfo>) returns (accepted: bool)
      modifies this`selectedFile
      ensures accepted <==> IsImageFile(file)
      ensures selectedFile == (if accepted then file else old(selectedFile))
    {
      accepted := file.Some? && StartsWith(file.value.mimeType, "image/");
      if accepted {
        selectedFile := file;
      }
    }

    /** `removeImage(platform)` */
    method RemoveImage(platform: string)
      modifies this`selectedFile
      ensures selectedFile == (if platform in modals then None else old(selectedFile))
    {
      if platform in modals {
        selectedFile := None;
      }
    }

    /** `handleSubmit(platform)`: the first failing check stops it with
        nothing changed; otherwise the post is made and the dialog closes. */
    method HandleSubmit(platform: string) returns (r: SubmitResult)
      requires Valid()
      modifies this`selectedFile, this`isScheduled, this`forms, this`active, this`currentPlatform
      ensures Valid()
      ensures platform !in modals ==> r == NoDialog
      ensures platform in modals ==>
        var check := ModalSubmitCheck(old(selectedFile).Some?, platform, old(forms)[platform], old(isScheduled));
        (check.Fail? ==> r == Refused(check.error)) && (check.Pass? ==> r == Posted(old(isScheduled)))
      ensures !r.Posted? ==> (selectedFile == old(selectedFile) && isScheduled == old(isScheduled)
                              && forms == old(forms) && active == old(active)
                              && currentPlatform == old(currentPlatform))
      ensures r.Posted? ==> (currentPlatform == None && active == old(active) - {platform}
                             && selectedFile == None && !isScheduled
                             && forms == old(forms)[platform := EmptyForm])
    {
      if platform !in modals {
        return NoDialog;
      }
      var check := ModalSubmitCheck(selectedFile.Some?, platform, forms[platform], isScheduled);
      if check.Fail? {
        return Refused(check.error);
      }
      r := Posted(isScheduled);
      CloseModal(platform);
    }

    /** The Escape listener of one dialog: it closes the dialog when shown. */
    method CloseIfShown(platform: string)
      requires Valid()
      modifies this`selectedFile, this`isScheduled, this`forms, this`active, this`currentPlatform
      ensures Valid()
      ensures active == old(active) - {platform}
      ensures platform in old(active) ==>
        currentPlatform == None && selectedFile == None && !isScheduled
        && forms == old(forms)[platform := EmptyForm]
      ensures platform !in old(active) ==>
        currentPlatform == old(currentPlatform) && selectedFile == old(selectedFile)
        && isScheduled == old(isScheduled) && forms == old(forms)
    {
      if platform in active {
        CloseModal(platform);
      }
    }

    /** The Escape key: the listeners of the three platform dialogs, in the
        order they were attached, each close their dialog when it is shown. */
    method HandleEscape()
      requires Valid()
      modifies this`selectedFile, this`isScheduled, this`forms, this`active, this`currentPlatform
      ensures Valid()
      ensures active == old(active) - PlatformNames
      ensures forall p :: p in modals ==>
        forms[p] == (if p in PlatformNames && p in old(active) then EmptyForm else old(forms)[p])
      ensures old(active) * PlatformNames != {} ==>
        currentPlatform == None && selectedFile == None && !isScheduled
      ensures old(active) * PlatformNames == {} ==>
        currentPlatform == old(currentPlatform) && selectedFile == old(selectedFile)
        && isScheduled == old(isScheduled) && forms == old(forms)
    {
      var shown := old(active) * PlatformNames;
      assert shown == {} <==>
        "instagram" !in old(active) && "twitter" !in old(active) && "linkedin" !in old(active) by {
        if "instagram" in old(active) { assert "instagram" in shown; }
        if "twitter" in old(active) { assert "twitter" in shown; }
        if "linkedin" in old(active) { assert "linkedin" in shown; }
      }
      CloseIfShown("instagram");
      CloseIfShown("twitter");
      CloseIfShown("linkedin");
    }
  }
}
