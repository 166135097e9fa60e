/**
 * The bottom navigation bar (components/BottomNav.tsx): a fixed table of five
 * items, the click decision that turns an item and the session into exactly
 * one action, and the pure flags that mark an item current, locked or disabled.
 * Applying the action to the dashboard's state is `App.Session.NavClick`.
 */
module BottomNav {
  import opened Common

  datatype NavItem = NavItem(
    id: string,
    icon: string,
    labelText: string,   // `label`
    external: Option<string>,
    isAdminOnly: bool,
    isAuthTrigger: bool)

  /** What a click does: exactly one of these (besides the touch-feedback animation). */
  datatype NavAction =
    | SetTab(tab: string)         // setActiveTab(tab), then scroll to the top
    | RequestLogin                // onRequestLogin()
    | DenyAdmin(alert: string)    // alert(...)
    | OpenExternal(url: string)   // window.open(url, '_blank', ...)

  const AdminAlert := "Akses Administrator diperlukan."
  const ProfileTab := "profile"

  /** The `navItems` table; only the profile item's icon and label depend on the session. */
  function NavItems(isAuthenticated: bool): seq<NavItem> {
    [ NavItem("home", "fa-house", "Home", None, false, false),
      NavItem("peta", "fa-map-location-dot", "Maps",
              Some("https://ebastari.github.io/Realisasi-pekerjaan/Realisasi2025.html"), true, false),
      NavItem("montana", "fa-camera", "Capture", Some("https://kameracerdas2.vercel.app/"), true, false),
      NavItem("notif", "fa-bell", "Alerts", Some("https://ebastari.github.io/notifikasi/notif.html"), true, false),
      NavItem(ProfileTab,
              if isAuthenticated then "fa-user-gear" else "fa-door-open",
              if isAuthenticated then "Settings" else "Login",
              None, false, true) ]
  }

  /**
   * The table's shape: five items with distinct ids; the last is the only
   * authentication trigger, has id "profile" and reads "Settings" when signed
   * in and "Login" otherwise; the admin-only items are exactly the ones that
   * open an external page.
   */
  lemma NavItemsShape(isAuthenticated: bool)
    ensures var items := NavItems(isAuthenticated);
      && |items| == 5
      && (forall i, j :: 0 <= i < j < |items| ==> items[i].id != items[j].id)
      && (forall i :: 0 <= i < |items| ==> (items[i].isAuthTrigger <==> i == 4))
      && items[4].id == ProfileTab
      && items[4].labelText == (if isAuthenticated then "Settings" else "Login")
      && (forall i :: 0 <= i < |items| ==> (items[i].isAdminOnly <==> items[i].external.Some?))
  {
    var items := NavItems(isAuthenticated);
    assert items[0].id[0] == 'h' && items[1].id[0] == 'p' && items[2].id[0] == 'm';
    assert items[3].id[0] == 'n' && items[4].id[1] == 'r' && items[1].id[1] == 'e';
  }

  /**
   * `handleNavClick`: the authentication trigger opens the profile tab or asks
   * for a login; any other item asks for a login when signed out, is refused
   * with an alert when admin-only and the user is not an administrator, and
   * otherwise opens its external page or selects its tab.
   */
  function HandleNavClick(item: NavItem, isAuthenticated: bool, userRole: Option<Role>): (a: NavAction)
    ensures item.isAuthTrigger && isAuthenticated ==> a == SetTab(ProfileTab)
    ensures item.isAuthTrigger && !isAuthenticated ==> a == RequestLogin
    ensures !item.isAuthTrigger && !isAuthenticated ==> a == RequestLogin
    ensures !item.isAuthTrigger && isAuthenticated && item.isAdminOnly && userRole != Some(Admin) ==>
      a == DenyAdmin(AdminAlert)
    ensures !item.isAuthTrigger && isAuthenticated && !(item.isAdminOnly && userRole != Some(Admin)) ==>
      a == (if item.external.Some? then OpenExternal(item.external.value) else SetTab(item.id))
  {
    if item.isAuthTrigger then
      (if isAuthenticated then SetTab(ProfileTab) else RequestLogin)
    else if !isAuthenticated then
      RequestLogin
    else if item.isAdminOnly && userRole != Some(Admin) then
      DenyAdmin(AdminAlert)
    else if item.external.Some? then
      OpenExternal(item.external.value)
    else
      SetTab(item.id)
  }

  /** The item is highlighted: its id is the active tab, or it is the trigger and the profile tab is open. */
  predicate IsCurrent(item: NavItem, activeTab: string): (current: bool)
    ensures activeTab == item.id ==> current
    ensures current && !item.isAuthTrigger ==> activeTab == item.id
  {
    activeTab == item.id || (item.isAuthTrigger && activeTab == ProfileTab)
  }

  predicate IsLocked(item: NavItem, isAuthenticated: bool) {
    !isAuthenticated && !item.isAuthTrigger
  }

  predicate IsRoleLocked(item: NavItem, userRole: Option<Role>) {
    item.isAdminOnly && userRole == Some(Guest)
  }

  /** The button's `disabled`: for an administrator every button is enabled, and so is a trigger that is not admin-only. */
  predicate Disabled(item: NavItem, isAuthenticated: bool, userRole: Option<Role>): (disabled: bool)
    ensures isAuthenticated && userRole == Some(Admin) ==> !disabled
    ensures item.isAuthTrigger && !item.isAdminOnly ==> !disabled
    ensures !isAuthenticated && !item.isAuthTrigger ==> disabled
  {
    IsLocked(item, isAuthenticated) || IsRoleLocked(item, userRole)
  }

  /** Whether an action is one the item was meant for (a tab or a page), rather than a refusal. */
  predicate Permitted(a: NavAction) {
    a.SetTab? || a.OpenExternal?
  }

  /** The session the dashboard keeps: signed in exactly when a role is held. */
  predicate Consistent(isAuthenticated: bool, userRole: Option<Role>) {
    isAuthenticated <==> userRole.Some?
  }

  /**
   * In a consistent session a button is disabled exactly when a click on it
   * would be refused: a disabled item's click asks for a login or raises the
   * admin alert, an enabled item's click selects a tab or opens a page.
   * The trigger (never admin-only in the table) is never disabled.
   */
  lemma DisabledIffRefused(item: NavItem, isAuthenticated: bool, userRole: Option<Role>)
    requires Consistent(isAuthenticated, userRole)
    ensures !item.isAuthTrigger ==>
      (Disabled(item, isAuthenticated, userRole) <==> !Permitted(HandleNavClick(item, isAuthenticated, userRole)))
    ensures item.isAuthTrigger && !item.isAdminOnly ==> !Disabled(item, isAuthenticated, userRole)
  {
    if !item.isAuthTrigger && isAuthenticated && item.isAdminOnly && userRole != Some(Admin) {
      assert userRole.value != Admin;
      assert userRole == Some(Guest);
    }
  }

  /** Without the session invariant the flags and the click disagree: a signed-in user without a role sees an enabled admin item that the click refuses. */
  lemma InconsistentSessionDisagrees()
    ensures var item := NavItems(true)[1];
      !Disabled(item, true, None) && HandleNavClick(item, true, None) == DenyAdmin(AdminAlert)
  {
  }

  /** At most one item of the table is current for any active tab. */
  lemma AtMostOneCurrent(isAuthenticated: bool, activeTab: string, i: nat, j: nat)
    requires i < j < |NavItems(isAuthenticated)|
    ensures !(IsCurrent(NavItems(isAuthenticated)[i], activeTab) && IsCurrent(NavItems(isAuthenticated)[j], activeTab))
  {
    NavItemsShape(isAuthenticated);
  }
}
