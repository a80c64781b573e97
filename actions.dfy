/** The work that a protected control hands to the auth manager, and what
    that work does when it runs.

    In the dashboard the one-slot `pendingAction` holds a closure. Every
    closure that the controls modelled here store is one of the cases of
    `PendingAction`, and `Perform` says what calling it does. */
module Actions {

  datatype PendingAction =
    | RunQuickAction(action: string, title: string)     // a quick-action card
    | RunSocialAction(platform: string, name: string)   // a social-platform card
    | ClickFileInput                                     // the batch "upload file" button
    | ShowUpgradeToast                                   // the sidebar upgrade button

  /** What running a piece of work shows the user. */
  datatype Effect =
    | NoEffect
    | Navigate(page: string)
    | Toast(message: string)
    | OpenAutoPostModal
    | OpenFilePicker

  const GenerateAdPage: string := "simple-ad.html"

  /** `executeAction`: the three known actions; any other does nothing. */
  function ExecuteAction(action: string): (e: Effect)
    ensures e != NoEffect <==> action == "generate-ad" || action == "my-topics" || action == "auto-post"
    ensures e == Navigate(GenerateAdPage) <==> action == "generate-ad"
    ensures e == OpenAutoPostModal <==> action == "auto-post"
    ensures e.Toast? <==> action == "my-topics"
  {
    match action
    case "generate-ad" => Navigate(GenerateAdPage)
    case "my-topics" => Toast("Opening My Topics...")
    case "auto-post" => OpenAutoPostModal
    case _ => NoEffect
  }

  /** `executeSocialAction`: a toast for each of the three platforms; any
      other platform does nothing. The shown name is fixed per platform and
      does not come from the card's title. */
  function ExecuteSocialAction(platform: string): (e: Effect)
    ensures e != NoEffect <==> platform == "twitter" || platform == "linkedin" || platform == "instagram"
    ensures e == NoEffect || e.Toast?
  {
    match platform
    case "twitter" => Toast("Opening Twitter Direct Post...")
    case "linkedin" => Toast("Opening LinkedIn Direct Post...")
    case "instagram" => Toast("Opening Instagram Direct Post...")
    case _ => NoEffect
  }

  /** Calling the stored closure. */
  function Perform(a: PendingAction): Effect {
    match a
    case RunQuickAction(action, _) => ExecuteAction(action)
    case RunSocialAction(platform, _) => ExecuteSocialAction(platform)
    case ClickFileInput => OpenFilePicker
    case ShowUpgradeToast => Toast("Upgrade available for Pro members!")
  }
}
