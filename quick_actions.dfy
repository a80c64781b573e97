/** The protected controls of the dashboard: the quick-action cards, the
    social-platform cards and the two upgrade buttons. Each either does its
    work at once or, when no one is signed in, leaves it in the auth manager's
    slot. A result of None means the work was deferred, not done. */
module QuickActions {
  import opened Wrappers
  import opened Actions
  import opened Auth

  /** The two actions that need no sign-in. */
  predicate Unprotected(action: string) {
    action == "generate-ad" || action == "auto-post"
  }

  /** `handleActionClick(action, title)` */
  method HandleActionClick(auth: AuthManager, action: string, title: string) returns (effect: Option<Effect>)
    modifies auth
    ensures Unprotected(action) || auth.user.Some? ==>
      effect == Some(ExecuteAction(action)) && auth.pendingAction == old(auth.pendingAction)
      && auth.modalVisible == old(auth.modalVisible)
    ensures !Unprotected(action) && auth.user.None? ==>
      effect == None && auth.pendingAction == Some(RunQuickAction(action, title)) && auth.modalVisible
    ensures auth.user == old(auth.user) && auth.events == old(auth.events)
  {
    if action == "generate-ad" || action == "auto-post" {
      return Some(ExecuteAction(action));
    }
    if auth.user.None? {
      auth.ShowAuthModal(Some(RunQuickAction(action, title)));
      return None;
    }
    effect := Some(ExecuteAction(action));
  }

  /** The click listener on an action card: "generate-ad" navigates at once,
      every other action goes through `HandleActionClick`. */
  method ClickActionCard(auth: AuthManager, action: string, title: string) returns (effect: Option<Effect>)
    modifies auth
    ensures action == "generate-ad" ==> effect == Some(Navigate(GenerateAdPage))
    ensures effect.Some? ==> effect == Some(ExecuteAction(action))
    ensures effect.None? <==> !Unprotected(action) && auth.user.None?
    ensures !Unprotected(action) && auth.user.None? ==>
      auth.pendingAction == Some(RunQuickAction(action, title)) && auth.modalVisible
    ensures effect.Some? ==>
      auth.pendingAction == old(auth.pendingAction) && auth.modalVisible == old(auth.modalVisible)
    ensures auth.user == old(auth.user) && auth.events == old(auth.events)
  {
    if action == "generate-ad" {
      return Some(Navigate(GenerateAdPage));
    }
    effect := HandleActionClick(auth, action, title);
  }

  /** `handleSocialClick(platform, name)`: every platform needs a sign-in. */
  method HandleSocialClick(auth: AuthManager, platform: string, name: string) returns (effect: Option<Effect>)
    modifies auth
    ensures auth.user.Some? ==>
      effect == Some(ExecuteSocialAction(platform)) && auth.pendingAction == old(auth.pendingAction)
      && auth.modalVisible == old(auth.modalVisible)
    ensures auth.user.None? ==>
      effect == None && auth.pendingAction == Some(RunSocialAction(platform, name)) && auth.modalVisible
    ensures auth.user == old(auth.user) && auth.events == old(auth.events)
  {
    if auth.user.None? {
      auth.ShowAuthModal(Some(RunSocialAction(platform, name)));
      return None;
    }
    effect := Some(ExecuteSocialAction(platform));
  }

  /** The upgrade button of the plan card: signed out, it opens the dialog
      with no deferred work, emptying the slot. */
  method ClickUpgradeButton(auth: AuthManager) returns (effect: Option<Effect>)
    modifies auth
    ensures auth.user.Some? ==>
      effect == Some(Toast("Redirecting to upgrade page...")) && auth.pendingAction == old(auth.pendingAction)
      && auth.modalVisible == old(auth.modalVisible)
    ensures auth.user.None? ==> effect == None && auth.pendingAction == None && auth.modalVisible
    ensures auth.user == old(auth.user) && auth.events == old(auth.events)
  {
    if auth.user.None? {
      auth.ShowAuthModal(None);
      return None;
    }
    effect := Some(Toast("Redirecting to upgrade page..."));
  }

  /** The sidebar's upgrade button: signed out, it defers the upgrade toast. */
  method ClickSidebarUpgrade(auth: AuthManager) returns (effect: Option<Effect>)
    modifies auth
    ensures auth.user.Some? ==>
      effect == Some(Toast("Redirecting to upgrade page...")) && auth.pendingAction == old(auth.pendingAction)
      && auth.modalVisible == old(auth.modalVisible)
    ensures auth.user.None? ==> effect == None && auth.pendingAction == Some(ShowUpgradeToast) && auth.modalVisible
    ensures auth.user == old(auth.user) && auth.events == old(auth.events)
  {
    if auth.user.None? {
      auth.ShowAuthModal(Some(ShowUpgradeToast));
      return None;
    }
    effect := Some(Toast("Redirecting to upgrade page..."));
  }
}
