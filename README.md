# Social-media automation dashboard — a verified model of its core logic

This project models the logic underneath the browser dashboard of the
Social-media-automation repository, and proves properties of that model. It
covers:

- **AuthManager**: a mocked sign-in with a signed-in user and a one-slot
  deferred action. Protected controls leave their work in that slot while no one
  is signed in.
- **User storage**: the stored copy of the user in `localStorage`.
- **Quick actions**: the quick-action, social-platform and upgrade controls
  that defer their work through the auth manager.
- **Dashboard header and theme**: the search-suggestion filter, the initials in
  the user menu, and the theme manager.
- **Spreadsheet inputs**: the dashboard's batch-upload section and its upload
  dialog (`processFiles`, `UploadModalManager`).
- **Posts lists**: the scheduled-posts list (delete by id, add under the next
  id) and the auto-post list of unposted images.
- **Upload and post dialogs**: the batch-upload dialog, the direct-post
  dialog and the per-platform post dialogs. The model covers their
  validators, which check rules in a fixed order and report the first
  failure, and their re-entrancy and reset flags.
- **Single-ad generator**: its prompt builder, style tables, character
  counter and download name.
- **Page-wide helpers**: number grouping, quick search, closing every open
  dialog with Escape, and the keyboard shortcuts.

How the source is turned into Dafny:

- **State changed in place** becomes a Dafny `class` with `modifies` clauses,
  proved against pure specification functions.
- **Filters, lookups and validators** become functions with named results,
  plus lemmas about them.
- **Clock readings, random draws and the image service's reply** become
  parameters. So do the browser's answers to `fetch` and `URL.createObjectURL`.
- **Handlers that `await`** (batch upload, direct post, ad generation) are split
  at the `await` into a start method and a completion method. The dashboard's
  upload dialog is split the same way at its `setTimeout`. This lets the
  in-flight flag they set be stated. Login and registration are single atomic
  steps.

Three behaviours of the code that a reader might not expect are kept as
written:

- `logout` keeps the deferred action (script.js:73-80).
- Registration dispatches no `login-success` event and does not check the
  email (script.js:48-71, 177-200).
- A schedule date that does not parse passes the direct-post time check,
  because `NaN <= now` is false (direct-post.js:238-250).

Files:

- `wrappers.dfy`: Option/Result/Outcome, the ordered-validator reference
  `FirstFailure`, and `Filter` with its lemmas.
- `text.dfy`: the JavaScript string operations used (trim, case mapping,
  `includes`, `lastIndexOf`, `split("@")[0]`, `toString`/`parseInt` of naturals).
- `storage.dfy`, `user_record.dfy`, `actions.dfy`, `auth.dfy`, `quick_actions.dfy`,
  `scenarios.dfy`: sign-in, storage and the protected controls.
- `dashboard.dfy`, `dashboard_uploads.dfy`, `scheduled_posts.dfy`,
  `auto_post.dfy`: the other managers of script.js.
- `files.dfy`, `batch_upload.dfy`, `direct_post.dfy`, `direct_post_modal.dfy`,
  `simple_ad.dfy`, `enhanced_features.dfy`: one file per dialog or page script.

## Model

| member | source | states |
|---|---|---|
| Text.Trim | direct-post.js:265 | the result is a slice of s with nothing but white space before and after it; it is empty exactly when every character is white space, and otherwise begins and ends with a character that is not white space |
| Text.LastIndexOf | batch-upload.js:149 | -1 when the character does not occur; otherwise the index of its last occurrence |
| Text.BeforeFirst | script.js:36 | the longest prefix without '@'; the character after it, if any, is '@' |
| Text.CapitalizeFirst | direct-post.js:348-350 | length kept, first character upper-cased, every other character unchanged |
| Text.CapitalizeFirstFixpoint | direct-post-modal.js:376-378 | capitalising twice is capitalising once; a text is unchanged exactly when it is empty or starts upper-case |
| Text.ParseNatToString | enhanced-features.js:337 | `parseInt` of the decimal text of a natural number gives the number back |
| Storage.LocalStorage.GetItem | script.js:14 | a value is found exactly when the key is present, and it is the stored value |
| Storage.LocalStorage.SetItem | script.js:23 | the key takes the value and every other key keeps its own |
| Storage.LocalStorage.RemoveItem | script.js:75 | the key is gone and every other key keeps its value |
| UserRecord.Initials | script.js:36 | at most two characters, the upper-cased leading characters before the first '@'; fewer only when that part is shorter |
| UserRecord.NewUser | script.js:32-37 | the email and creation time are the given ones, the id is "user_" followed by the clock reading, and the initials come from the email |
| UserRecord.ParseBodyEscape | script.js:23 | reading an escaped string body followed by its closing quote gives back the string and the rest of the text |
| UserRecord.SerializeUser | script.js:23 | the stored text opens with the id member, which is what `ParseUser` requires |
| UserRecord.ParseUser | script.js:16 | a user is read only from text that opens with the id member; None for any text this codec cannot read |
| UserRecord.UserRoundTrip | script.js:13-25 | reading back the stored text of a user gives the same user |
| UserRecord.SerializeInjective | script.js:23 | two users with the same stored text are equal |
| Auth.RegisterCheck | script.js:50-57 | registration passes exactly when the passwords match and are at least 6 long; a mismatch is reported whenever the passwords differ, before the length |
| Auth.RegisterCheckOrdered | script.js:50-57 | registration is the ordered validator "passwords match, then length ≥ 6" |
| Auth.LoadFrom | script.js:13-19 | nothing is restored exactly when the key is absent or its text is empty; a restored user is the parse of the stored text |
| Auth.SaveThenLoad | script.js:13-25 | a load after a save of a user restores that user |
| Auth.RemoveThenLoad | script.js:73-75 | a load after the key is removed finds nothing |
| Auth.RunSlot | script.js:116-121 | something runs exactly when the slot holds an action |
| Auth.AuthManager.constructor | script.js:6-8 | no user, an empty slot, the dialog hidden |
| Auth.AuthManager.Create | script.js:6-19 | the new manager's user is the one the store restores, if any; the slot is empty |
| Auth.AuthManager.LoadUserFromStorage | script.js:13-19 | a parseable stored user becomes the signed-in user; otherwise the user is unchanged; the slot is untouched |
| Auth.AuthManager.SaveUserToStorage | script.js:21-25 | with a user, its text is written under the key; with none, the store is unchanged |
| Auth.AuthManager.Login | script.js:27-46 | accepted exactly when email and password are non-empty: then the new user is signed in and stored; otherwise an error, with user and store unchanged; the slot and the dialog are untouched |
| Auth.AuthManager.Register | script.js:48-71 | the password checks decide the error, with user and store unchanged; otherwise the user is created as by login, whatever the email |
| Auth.AuthManager.Logout | script.js:73-80 | no user, the key removed from the store, a logout event, the dialog hidden, and the slot kept as it was |
| Auth.AuthManager.ShowAuthModal | script.js:107-110 | the slot takes the argument (None clears it), replacing what it held; the dialog shows |
| Auth.AuthManager.HideAuthModal | script.js:112-114 | only the dialog's visibility changes |
| Auth.AuthManager.ExecutePendingAction | script.js:116-121 | hands back what the slot held, to run once, and leaves it empty |
| Auth.AuthManager.SubmitLoginForm | script.js:150-174 | success exactly when login accepts: the dialog closes, `login-success` is dispatched, the deferred action runs and the slot empties; failure changes nothing but reports the error |
| Auth.AuthManager.SubmitRegisterForm | script.js:177-200 | success exactly when the password checks pass: the dialog closes and the deferred action runs; no event is dispatched; failure changes nothing |
| Auth.AuthManager.ClickLoginButton | script.js:216-220 | the dialog opens with an empty slot |
| Actions.ExecuteAction | script.js:557-569 | only "generate-ad", "my-topics" and "auto-post" do something: navigation to the ad page, a toast and the auto-post dialog respectively |
| Actions.ExecuteSocialAction | script.js:571-583 | a toast exactly for "twitter", "linkedin" and "instagram"; nothing for any other platform |
| QuickActions.HandleActionClick | script.js:528-545 | "generate-ad" and "auto-post", or any action while signed in, run at once; otherwise the action is deferred, the dialog opens and nothing runs |
| QuickActions.ClickActionCard | script.js:500-512 | "generate-ad" navigates at once; any other action runs at once when it needs no sign-in or someone is signed in, and is otherwise left in the slot with the dialog shown; whenever something runs, the slot and the dialog are untouched |
| QuickActions.HandleSocialClick | script.js:547-555 | signed in, the platform action runs; signed out, it is deferred and the dialog opens |
| QuickActions.ClickUpgradeButton | script.js:770-778 | signed out, the dialog opens with an empty slot; signed in, the redirect toast shows |
| QuickActions.ClickSidebarUpgrade | script.js:1059-1073 | signed out, the upgrade toast is deferred; signed in, the redirect toast shows |
| Scenarios.DeferredActionRunsOnce | script.js:116-121 | a protected click while signed out runs at the next successful login, and the slot is empty afterwards |
| Scenarios.FailedLoginKeepsAction | script.js:163-175 | a refused login keeps the deferred action, and the next good login runs it |
| Scenarios.LaterClickWins | script.js:107-110 | the slot holds one action: the later protected click is the one that runs |
| Scenarios.LoginButtonForgetsAction | script.js:216-220 | opening the dialog from the "Login" entry discards a deferred action |
| Scenarios.ActionSurvivesLogout | script.js:73-80 | an action deferred before a logout still runs at the next login |
| Scenarios.SessionAcrossReloads | script.js:13-25 | after a login a reload restores the user; after a logout a reload finds no one |
| Scenarios.RegisterTakesEmptyEmail | script.js:48-57 | login refuses an empty email and registration accepts it |
| Dashboard.MatchingSuggestions | script.js:349-358 | a suggestion is listed exactly when its lower-cased label or some lower-cased keyword contains the lower-cased query; the list is a selection of the suggestions |
| Dashboard.RenderSuggestions | script.js:349-358 | at most the six suggestions, and a suggestion is listed exactly when it is one of them and matches the query |
| Dashboard.EmptyQueryKeepsAll | script.js:349-358 | the empty query lists all six suggestions in their order |
| Dashboard.LongerQueryNarrows | script.js:349-358 | a suggestion listed for a query is listed for every prefix of that query |
| Dashboard.GetInitials | script.js:469-472 | "--" for an empty email, otherwise the auth manager's initials |
| Dashboard.ThemeName | script.js:801-807 | the stored text is "dark" exactly for the dark theme |
| Dashboard.ThemeManager.constructor | script.js:786-789 | dark exactly when "dark" is stored |
| Dashboard.ThemeManager.ToggleTheme | script.js:801-808 | the theme flips and the new choice is stored; no other key changes |
| Dashboard.ToggleTwiceRestores | script.js:786-808 | toggling twice restores the theme, and a new manager over the same store shows the theme last chosen |
| DashboardUploads.ProcessFiles | script.js:711-739 | the error shows exactly when no file is a spreadsheet; otherwise the spreadsheets, and only they, are uploaded |
| DashboardUploads.AllSpreadsheetsUploaded | script.js:711-739 | a batch made only of spreadsheets is uploaded as it is |
| DashboardUploads.HandleUploadClick | script.js:646-654 | signed in, the file picker opens; signed out, the click is deferred and the dialog opens |
| DashboardUploads.UploadModalManager.constructor | script.js:1098-1115 | nothing selected, nothing uploading |
| DashboardUploads.UploadModalManager.HandleDragOver | script.js:1140-1143 | the zone is highlighted and nothing else changes |
| DashboardUploads.UploadModalManager.HandleDragLeave | script.js:1145-1148 | the highlight goes and nothing else changes |
| DashboardUploads.UploadModalManager.SelectFirst | script.js:1154-1167 | only the first file counts; it becomes the selection exactly when its name ends in ".xlsx" or ".xls" |
| DashboardUploads.UploadModalManager.HandleDrop | script.js:1150-1168 | the highlight goes, then the first-file rule decides the selection |
| DashboardUploads.UploadModalManager.HandleFileSelect | script.js:1170-1185 | the first-file rule decides the selection |
| DashboardUploads.UploadModalManager.HandleUpload | script.js:1187-1195 | without a file nothing changes; otherwise the upload is in flight and the button disabled, and nothing else changes |
| DashboardUploads.UploadModalManager.CompleteUpload | script.js:1198-1211 | the result shows the drawn topic count, between 5 and 24, and the upload ends with the button enabled again; nothing else changes |
| DashboardUploads.UploadModalManager.CloseModal | script.js:1223-1231 | hidden, with no selection, no result, the button enabled and an empty schedule name; the highlight and the upload flag are kept |
| DashboardUploads.UploadModalManager.OpenModal | script.js:1233-1235 | shown, and nothing else changes |
| ScheduledPosts.ParseInt | script.js:978 | NaN (None) exactly when no digit follows the leading white space and sign |
| ScheduledPosts.ParseIntNatToString | script.js:913 | reading the id text a card carries gives the post's id |
| ScheduledPosts.RemovePost | script.js:977-981 | exactly the posts whose id differs from the parsed id remain; an unreadable id deletes nothing |
| ScheduledPosts.RemovePostAppend | script.js:978 | deleting from a joined list deletes from each part, so the remaining posts keep their order |
| ScheduledPosts.RemovePostIdempotent | script.js:978 | deleting again deletes nothing more |
| ScheduledPosts.NextId | script.js:986 | at least 1 and greater than every id: one more than the largest id, or 1 when no id is positive |
| ScheduledPosts.AddPost | script.js:983-989 | the list grows by one post at the end, carrying the next id; distinct ids stay distinct |
| ScheduledPosts.AddThenRemove | script.js:977-989 | deleting the post just added restores the list |
| ScheduledPosts.RemovePostDistinct | script.js:977-981 | deleting keeps the ids distinct |
| ScheduledPosts.ScheduledPostsManager.constructor | script.js:874-886 | the list is the one sample post |
| ScheduledPosts.ScheduledPostsManager.DeletePost | script.js:977-981 | the list becomes `RemovePost` of the old list and the parsed id; ids stay distinct |
| ScheduledPosts.ScheduledPostsManager.AddPostItem | script.js:983-989 | the list becomes `AddPost` of the old list; the new id is `NextId` of the old list |
| ScheduledPosts.Closest | script.js:957 | the found element is a post card, and an element that is a card finds itself |
| ScheduledPosts.CallClosest | script.js:957 | calling `closest` throws exactly when the receiver is the event |
| ScheduledPosts.DeleteClick | script.js:955-960 | with the call made on the clicked element, a deletion happens exactly when a card encloses the element, and it deletes by that card's id |
| ScheduledPosts.DeleteClickAsWritten | script.js:955-960 | the handler as written: calling `closest` on the event throws, on every click |
| ScheduledPosts.DeleteClickAsWrittenNeverDeletes | script.js:955-960 | every click inside a card, which the intended handler turns into a deletion, throws as written before `deletePost` runs |
| ScheduledPosts.DeleteClickRemovesCardPost | script.js:955-960 | a click inside a post's card removes exactly the posts with that id |
| AutoPost.WithoutImage | script.js:1704-1707 | exactly the images whose id differs remain |
| AutoPost.WithoutAbsentImage | script.js:1704-1707 | posting an id that is not listed changes nothing |
| AutoPost.WithoutImageIdempotent | script.js:1704-1707 | posting twice is posting once |
| AutoPost.WithoutUniqueImage | script.js:1704-1707 | posting an image whose id is unique removes just it and keeps the rest in order |
| AutoPost.PostOneMockImage | script.js:1580-1604 | posting one of the three sample images leaves the other two |
| AutoPost.AutoPostModalManager.constructor | script.js:1577-1578 | no images, auto-posting off |
| AutoPost.AutoPostModalManager.LoadUnpostedImages | script.js:1648-1671 | the list becomes the sample images; the empty note shows exactly when the list is empty, the count otherwise |
| AutoPost.AutoPostModalManager.PostSingleImage | script.js:1704-1718 | the list becomes `WithoutImage` of the old list; once empty, the empty note replaces the count |
| AutoPost.AutoPostModalManager.ToggleAutoPosting | script.js:1720-1732 | the switch flips, and the badge and the button text follow it |
| BatchUpload.ValidateFile | batch-upload.js:147-163 | accepted exactly when the lower-cased text from the last '.' is ".xlsx", ".xls" or ".csv" and the size is at most 10 MiB; a bad extension is reported before the size |
| BatchUpload.ValidateFileOrdered | batch-upload.js:147-163 | the validator is "extension, then size", first failure wins |
| BatchUpload.ExtensionRule | batch-upload.js:148-151 | the extension is one of the accepted ones exactly when the lower-cased name ends in it |
| BatchUpload.BatchUploadDialog.constructor | batch-upload.js:3-9 | nothing selected, nothing uploading or dragging, empty result and schedule name |
| BatchUpload.BatchUploadDialog.ResetUploadState | batch-upload.js:95-106 | nothing uploading, dragging or selected; empty result, schedule name and field; the button enabled |
| BatchUpload.BatchUploadDialog.OpenModal | batch-upload.js:75-83 | the dialog shows in its reset state |
| BatchUpload.BatchUploadDialog.CloseModal | batch-upload.js:85-93 | while uploading and not confirmed nothing changes; otherwise the dialog closes and resets |
| BatchUpload.BatchUploadDialog.HandleDragOver | batch-upload.js:108-115 | highlights only when no upload is in flight; nothing else changes |
| BatchUpload.BatchUploadDialog.HandleDragLeave | batch-upload.js:117-122 | the highlight goes and nothing else changes |
| BatchUpload.BatchUploadDialog.HandleDrop | batch-upload.js:124-137 | the highlight always goes; ignored while uploading; otherwise a missing file throws and a file that validates replaces the selection; only the highlight and the selection change |
| BatchUpload.BatchUploadDialog.HandleFileInputChange | batch-upload.js:139-145 | the same selection rule, with no uploading check; only the selection changes |
| BatchUpload.BatchUploadDialog.TakeFile | batch-upload.js:132-136 | a missing file throws; the selection changes exactly when the file validates |
| BatchUpload.BatchUploadDialog.RemoveSelectedFile | batch-upload.js:174-179 | no selection, and nothing else changes |
| BatchUpload.BatchUploadDialog.EditScheduleName | batch-upload.js:190 | the field holds the typed text, and nothing else changes |
| BatchUpload.BatchUploadDialog.HandleUpload | batch-upload.js:184-205 | no file, then a blank trimmed name, stop it with nothing changed; otherwise the upload is in flight with the trimmed name |
| BatchUpload.BatchUploadDialog.CompleteUpload | batch-upload.js:207-240 | nothing in flight afterwards; the result is "success" or "error"; only a failure enables the button again; the drag highlight and the schedule name are kept |
| DirectPost.ValidateImageFile | direct-post.js:128-143 | accepted exactly when the type is jpeg, png, gif or webp and the size is at most 10 MiB; the type is reported first |
| DirectPost.ValidateImageFileOrdered | direct-post.js:128-143 | the validator is "type, then size", first failure wins |
| DirectPost.PrecheckImageUrl | direct-post.js:187-199 | a URL that trims to nothing is ignored; a trimmed URL without an image extension is refused; any other goes to the HEAD request, trimmed |
| DirectPost.CounterBand | direct-post.js:215-226 | the strong warning exactly above 480, the light warning exactly for 451 to 480, the neutral colour up to 450 |
| DirectPost.CounterBandMonotone | direct-post.js:215-226 | a longer caption never shows a milder colour, and the colour changes only across 450/451 and 480/481 |
| DirectPost.SubmitLabel | direct-post.js:234-236 | "Schedule Post" when scheduling, otherwise "Post to " followed by the capitalised platform |
| DirectPost.ScheduleTimeOk | direct-post.js:238-250 | the time check fails only when scheduling is on and a parsed time is at or before now |
| DirectPost.UnparseableSchedulePasses | direct-post.js:238-250 | a schedule date that does not parse passes the time check |
| DirectPost.SubmitCheck | direct-post.js:259-272 | passes exactly with an image, a caption that is not blank and a time check that holds; no image is reported first, then a blank caption |
| DirectPost.SubmitCheckOrdered | direct-post.js:259-272 | the validator is "image, caption, schedule time", first failure wins |
| DirectPost.DirectPostDialog.constructor | direct-post.js:2-11 | no image, empty URL and caption fields, the dialog hidden, no flags set and the button enabled, platform "twitter" |
| DirectPost.DirectPostDialog.HandleDragOver | direct-post.js:91-98 | highlights only when not posting |
| DirectPost.DirectPostDialog.HandleDragLeave | direct-post.js:100-105 | the highlight goes |
| DirectPost.DirectPostDialog.HandleImage | direct-post.js:145-156 | the file becomes the image, shown through the new object URL |
| DirectPost.DirectPostDialog.TakeFile | direct-post.js:115-118 | a missing file throws; the image changes exactly when the file validates |
| DirectPost.DirectPostDialog.HandleDrop | direct-post.js:107-119 | the highlight always goes; ignored while posting; otherwise a valid file becomes the image, shown through its new object URL |
| DirectPost.DirectPostDialog.HandleFileInputChange | direct-post.js:121-126 | the same rule, with no posting check: a valid file becomes the image with its new object URL |
| DirectPost.DirectPostDialog.RemoveImage | direct-post.js:174-185 | no file, no URL, an empty URL field: no image is chosen |
| DirectPost.DirectPostDialog.EditUrl | direct-post.js:188 | the URL field holds the typed text |
| DirectPost.DirectPostDialog.EditCaption | direct-post.js:265 | the caption field holds the typed text |
| DirectPost.DirectPostDialog.ValidateImageUrl | direct-post.js:187-213 | the outcome is the pre-check of the field; only a URL that passes it and the HEAD request replaces the file and becomes the image |
| DirectPost.DirectPostDialog.ApplyUrlCheck | direct-post.js:201-209 | an accepted URL clears the file and becomes the image; anything else changes nothing |
| DirectPost.DirectPostDialog.SelectPlatform | direct-post.js:80-89 | the platform is selected and the label follows it |
| DirectPost.DirectPostDialog.ToggleScheduleOptions | direct-post.js:228-232 | scheduling follows the checkbox and the label follows it |
| DirectPost.DirectPostDialog.HandleSubmit | direct-post.js:252-277 | the outcome is `SubmitCheck` of the dialog; a failure leaves the posting flag and the button as they were; a pass starts posting |
| DirectPost.DirectPostDialog.ResetForm | direct-post.js:319-329 | no image, empty fields, not scheduling, not posting, the button enabled |
| DirectPost.DirectPostDialog.CloseModal | direct-post.js:314-317 | hidden and reset |
| DirectPost.DirectPostDialog.CompletePost | direct-post.js:279-295 | posting ends and the button is enabled; a success also closes the dialog and empties the image, the URL field, the caption and the schedule switch; a failure keeps all of them and the dialog as they were |
| DirectPostModal.CaptionLimit | direct-post-modal.js:310 | 280 exactly for "twitter", 2200 for every other platform |
| DirectPostModal.CounterIsError | direct-post-modal.js:102-111 | the counter is flagged exactly when the untrimmed caption is longer than 280 on Twitter, or longer than 2200 on any other platform |
| DirectPostModal.CounterOkImpliesFits | direct-post-modal.js:102-111 | a caption the counter does not flag passes the submit length check |
| DirectPostModal.FlaggedCaptionMayFit | direct-post-modal.js:104-111 | the converse fails: 281 spaces are flagged on Twitter yet pass the check after trimming |
| DirectPostModal.IsImageFile | direct-post-modal.js:229 | accepted exactly when there is a file whose type is "image/" followed by anything |
| DirectPostModal.ModalSubmitCheck | direct-post-modal.js:303-332 | passes exactly with a file, a trimmed caption within the limit and, when scheduling, a date and a time; no file is reported first; the reported limit is the platform's |
| DirectPostModal.ModalSubmitCheckOrdered | direct-post-modal.js:303-332 | the validator is "file, caption length, schedule fields", first failure wins |
| DirectPostModal.DirectPostModalManager.constructor | direct-post-modal.js:6-12 | no platform, no file, not scheduling, every dialog hidden and empty |
| DirectPostModal.DirectPostModalManager.ResetModal | direct-post-modal.js:181-225 | for an existing dialog: no file, not scheduling, its fields empty; for a missing one nothing changes |
| DirectPostModal.DirectPostModalManager.OpenModal | direct-post-modal.js:142-163 | the platform is recorded even when its dialog is missing; an existing dialog is reset and shown |
| DirectPostModal.DirectPostModalManager.CloseModal | direct-post-modal.js:165-179 | the platform is cleared; an existing dialog is hidden and reset |
| DirectPostModal.DirectPostModalManager.ToggleSchedule | direct-post-modal.js:121-125 | the shared schedule flag flips |
| DirectPostModal.DirectPostModalManager.EditForm | direct-post-modal.js:299-309 | the dialog's fields hold the typed values |
| DirectPostModal.DirectPostModalManager.HandleImageFile | direct-post-modal.js:227-233 | the file is selected exactly when there is one and its type starts with "image/"; otherwise nothing changes |
| DirectPostModal.DirectPostModalManager.RemoveImage | direct-post-modal.js:278-293 | for an existing dialog, no file |
| DirectPostModal.DirectPostModalManager.HandleSubmit | direct-post-modal.js:295-350 | the first failing check is reported with nothing changed; otherwise the post is made and the dialog closes and resets |
| DirectPostModal.DirectPostModalManager.CloseIfShown | direct-post-modal.js:134-139 | one dialog's Escape listener: a shown dialog is closed as by `CloseModal`; a hidden one changes nothing |
| DirectPostModal.DirectPostModalManager.HandleEscape | direct-post-modal.js:41-45 | the three platform dialogs' listeners run in turn: those dialogs are hidden and every other shown dialog stays shown; the form of each one that was shown is emptied and the other forms are kept; if any was shown, no platform, no file and no scheduling remain; if none was, nothing changes |
| SimpleAd.TrimForm | simple-ad.js:85-91 | the four text fields are trimmed; the style value is taken as it is |
| SimpleAd.StyleDescription | simple-ad.js:137-146 | the five styles have their own text; every other value gets "Modern and professional", which no known style uses |
| SimpleAd.StyleLabel | simple-ad.js:233-242 | the five styles have their label; any other value is shown as it is, and no label equals its key |
| SimpleAd.StyleTablesAgree | simple-ad.js:233-242 | both tables know the same five styles, and different styles get different labels |
| SimpleAd.CharCountColor | simple-ad.js:62-73 | red exactly above 450, amber exactly for 401 to 450, grey exactly up to 400 |
| SimpleAd.CharCountColorMonotone | simple-ad.js:62-73 | a longer description never shows a calmer colour |
| SimpleAd.PromptLinesShape | simple-ad.js:118-135 | the header, product, description, style and requirements pieces in this order; the audience and colours pieces exactly when those fields are non-empty |
| SimpleAd.BuildPrompt | simple-ad.js:118-135 | the accumulated prompt is the concatenation of the pieces of `PromptLines` |
| SimpleAd.SquashWhitespace | simple-ad.js:274 | no white space is left |
| SimpleAd.SquashKeepsChar | simple-ad.js:274 | a character that is not white space is copied through |
| SimpleAd.SquashRun | simple-ad.js:274 | a whole run of white space, up to the next other character or the end, becomes one '_' |
| SimpleAd.SquashWithoutWhitespace | simple-ad.js:274 | a name without white space is kept |
| SimpleAd.SquashIdempotent | simple-ad.js:274 | replacing twice is replacing once |
| SimpleAd.SquashLength | simple-ad.js:274 | replacing never lengthens the name |
| SimpleAd.DownloadName | simple-ad.js:274 | the product name with each white-space run replaced by '_', followed by "_ad.png"; it ends in "_ad.png" and contains no white space |
| SimpleAd.SimpleAdGenerator.constructor | simple-ad.js:33-34 | not generating, no ad |
| SimpleAd.SimpleAdGenerator.StartGeneration | simple-ad.js:188-202 | generating, the button disabled with its busy text, the error hidden |
| SimpleAd.SimpleAdGenerator.StopGeneration | simple-ad.js:204-212 | not generating, the button enabled with its normal text |
| SimpleAd.SimpleAdGenerator.HandleGenerate | simple-ad.js:75-98 | ignored while generating; stopped by an invalid form; otherwise generating with the trimmed form and its prompt |
| SimpleAd.SimpleAdGenerator.CompleteGeneration | simple-ad.js:99-115 | the flag is always cleared; an image becomes the current ad, a failure shows the error |
| SimpleAd.SimpleAdGenerator.DownloadImage | simple-ad.js:265-280 | refused exactly when there is no ad or no image URL; otherwise the name is `DownloadName` of the product |
| EnhancedFeatures.GroupDigits | enhanced-features.js:372 | no digits give no text; otherwise the text is longer than the digits by exactly the number of whole groups of three before the last group, one comma each |
| EnhancedFeatures.GroupDigitsShape | enhanced-features.js:371-373 | the grouped text has one comma per whole group of three digits before the last, placed exactly where the distance to the end is a multiple of four |
| EnhancedFeatures.GroupDigitsUngroup | enhanced-features.js:337 | removing the commas gives back the digits |
| EnhancedFeatures.FormatNumber | enhanced-features.js:371-373 | the decimal text grouped, with a minus sign kept ahead of the digits |
| EnhancedFeatures.FormatNumberReadBack | enhanced-features.js:336-338 | `parseInt` of the formatted number without its commas is the number |
| EnhancedFeatures.FormatNumberSmall | enhanced-features.js:371-373 | numbers below 1000 are printed without a comma |
| EnhancedFeatures.Search | enhanced-features.js:276-295 | a query shorter than two shows the prompt; otherwise the items whose lower-cased title contains the lower-cased query, in order, or "No results found" exactly when there are none |
| EnhancedFeatures.PerformSearch | enhanced-features.js:276-295 | the prompt exactly for a query shorter than two; "No results found" for any query longer than every sample title (over 27 characters) |
| EnhancedFeatures.SearchIgnoresCase | enhanced-features.js:290 | lower-casing or upper-casing the query gives the same view |
| EnhancedFeatures.LongQueryFindsNothing | enhanced-features.js:286-295 | a query longer than every title finds nothing |
| EnhancedFeatures.MockTitlesShort | enhanced-features.js:286-289 | no sample title is longer than 27 characters |
| EnhancedFeatures.AllClosed | enhanced-features.js:152-158 | ids kept; a dialog stays open exactly when it was open and its id contains "auth" |
| EnhancedFeatures.AllClosedIdempotent | enhanced-features.js:152-158 | a second Escape changes nothing |
| EnhancedFeatures.CloseAllModals | enhanced-features.js:152-158 | the dialogs are updated in place to `AllClosed` of their old states |
| EnhancedFeatures.KeyActions | enhanced-features.js:38-70 | Ctrl/Cmd with "k", "n", "/" opens search, a new ad, the help; with Shift and "D" toggles the theme; "Escape", with or without modifiers, closes the dialogs |
| EnhancedFeatures.KeyActionsAtMostOne | enhanced-features.js:38-70 | a key press fires at most one shortcut |

## Left out

- Timers and promise plumbing are not modelled. This covers the simulated network delays, the 300 ms reset after a post dialog closes, the 2-second close after an upload, toast timeouts and the auto-post dialog's opacity animation. Each handler is one step, or two steps split at its `await` or at the timer that stands for its request.
- DOM rendering, `innerHTML` templates, CSS classes and toasts are presentation only. The model keeps only the visibility flags the handlers set.
- The `fetch` HEAD request of `validateImageUrl` is not modelled. Its answer is the parameter `headAccepts`, and a request that throws is treated like a refusal.
- `URL.createObjectURL`/`revokeObjectURL`, `FileReader`, `navigator.share`/clipboard and `Notification` are browser calls. Object URLs are a parameter; the rest is left out.
- `Date.now()`, `new Date().toISOString()`, `toLocaleString` and schedule-date parsing are not modelled. The model takes them as parameters (an integer clock, a creation text, an optional parsed time).
- `Math.random` in the upload dialog's topic count is a parameter bounded to 5–24. The random topic counts elsewhere in script.js are not part of this model.
- `JSON.stringify`/`JSON.parse` of the stored user are replaced by a JSON-like codec for a four-string record, whose round trip is proved. It escapes only '"' and '\\', so the exact JSON text (control-character escapes) is not reproduced.
- `formatFileSize` is left out, because it relies on floating-point `Math.log` and `toFixed`.
- The float-step counter animations are left out. Only their read-back through `parseInt(text.replace(/,/g, ''))` is modelled.
- analytics.js, auth-handler.js and social-integration.js are not part of this model. They are charts, random data, and DOM wiring to the auth manager modelled here.
- UserRecord.ParseUser: only the layout `SerializeUser` writes is read back. Valid JSON in another layout (reordered keys, added white space, `null`) is treated like text on which `JSON.parse` throws, although the browser would accept it.
- EnhancedFeatures.FormatNumber: modelled on integers. A JavaScript number with a fraction or an exponent form is not covered.
- ScheduledPosts.ParseInt: decimal only. The "0x" hexadecimal prefix that `parseInt` also accepts is not modelled; card ids are always decimal.
- The JavaScript strings are modelled as sequences of characters. Lengths (caption limits, counters) therefore count code points, not UTF-16 units.
- Text.Lower and Text.Upper map the ASCII letters only; full Unicode case mapping is not modelled.
- SimpleAd.StyleDescription and SimpleAd.StyleLabel do not model inherited object keys. A style value such as "constructor" would find an inherited property in the source's object literal.
- Post thumbnails, image URLs of unposted images and their time stamps are drawn only, and are not kept.
- The open-post button of a card carries the same `e.closest` call as the delete button. It only shows a toast, so it is not modelled separately.
- direct-post.js keeps a `pendingAction` that is never set, since its auth check is commented out. Its reset to null is not modelled.
- The header's theme switch (`initializeThemeToggle`, script.js:387-408) is not modelled. Only `ThemeManager` is: the switch toggles a CSS class through the DOM and shows toasts.
- The old direct-post dialog in script.js (`OldDirectPostModalManager`) is not part of this model, because the page does not use it.
- Auth.AuthManager.Login: the 500 ms delay before the state changes is not modelled.
- Auth.AuthManager.Register: the 500 ms delay before the state changes is not modelled.

## Findings

| source | as written | input that shows it | evidently intended | confidence | as-written member | corrected member |
|---|---|---|---|---|---|---|
| script.js:957 | the delete button's listener calls `e.closest(".post-item")` on the click event, which has no `closest` method, so the handler throws a TypeError before `deletePost` runs (the open button at script.js:950 does the same) | any click on a card's delete button | `e.target.closest(".post-item")`, which finds the enclosing card and deletes its post | high, from reading the code; not executed | ScheduledPosts.DeleteClickAsWrittenNeverDeletes | ScheduledPosts.DeleteClickRemovesCardPost |
