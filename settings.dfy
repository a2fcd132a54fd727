/**
 * The settings page (src/pages/Settings.js): switches for dark mode and notifications,
 * an e-mail field, export, reset to defaults and logout, all persisted in `localStorage`.
 * Dark mode itself lives in the theme context, which starts it as `false` without
 * consulting storage; the page only writes it.
 */
module Settings {
  import opened Wrappers
  import opened BrowserStorage

  const DefaultEmail := "user@example.com"
  const LoginPath := "/login"

  /** `localStorage.getItem("notifications") === "true"`. */
  function ReadNotifications(items: map<string, string>): bool
  {
    StoredTrue(items, Notifications)
  }

  /** `localStorage.getItem("userEmail") || "user@example.com"`. */
  function ReadEmail(items: map<string, string>): string
  {
    if UserEmail in items && items[UserEmail] != "" then items[UserEmail] else DefaultEmail
  }

  /** The three writes of `handleResetSettings`. */
  function ResetItems(items: map<string, string>): map<string, string>
  {
    items[DarkMode := "false"][Notifications := "true"][UserEmail := DefaultEmail]
  }

  /** The contents of the exported "settings.json". */
  datatype SettingsExport = SettingsExport(darkMode: bool, notifications: bool, email: string)

  /** The notifications flag reads as true exactly when the stored text is exactly "true". */
  lemma ReadNotificationsExact(items: map<string, string>)
    ensures ReadNotifications(items) <==> Notifications in items && items[Notifications] == "true"
    ensures !ReadNotifications(items[Notifications := "True"])
    ensures !ReadNotifications(items - {Notifications})
  {
  }

  /** A stored e-mail is read back verbatim unless it is missing or empty. */
  lemma ReadEmailDefault(items: map<string, string>, e: string)
    ensures ReadEmail(items - {UserEmail}) == DefaultEmail
    ensures ReadEmail(items[UserEmail := ""]) == DefaultEmail
    ensures e != "" ==> ReadEmail(items[UserEmail := e]) == e
  {
  }

  /**
   * Reset writes the three defaults and keeps every other key, such as the token and the
   * mute flag; doing it twice is the same as once; a remount then reads the defaults.
   */
  lemma ResetEffect(items: map<string, string>)
    ensures var r := ResetItems(items);
      && r[DarkMode] == "false" && r[Notifications] == "true" && r[UserEmail] == DefaultEmail
      && (forall k :: k !in {DarkMode, Notifications, UserEmail} ==> (k in r <==> k in items))
      && (forall k :: k in items && k !in {DarkMode, Notifications, UserEmail} ==> r[k] == items[k])
      && ReadNotifications(r) && ReadEmail(r) == DefaultEmail && !StoredTrue(r, DarkMode)
    ensures ResetItems(ResetItems(items)) == ResetItems(items)
  {
  }

  /**
   * Re-entering exported values: after the notifications flag is set to the exported one
   * and the exported e-mail is typed in, re-reading storage gives the same values back,
   * except that an empty e-mail reads back as the default.
   */
  lemma ExportedValuesPersist(items: map<string, string>, exported: SettingsExport)
    ensures var after := items[Notifications := BoolString(exported.notifications)][UserEmail := exported.email];
      && ReadNotifications(after) == exported.notifications
      && ReadEmail(after) == (if exported.email == "" then DefaultEmail else exported.email)
  {
  }

  /** The page object: its state, and the shared `localStorage`. */
  class SettingsPage {
    var darkMode: bool
    var notifications: bool
    var email: string
    const store: LocalStorage

    /** Mounting, given the theme context's current dark-mode flag. */
    constructor (store: LocalStorage, themeDarkMode: bool)
      ensures this.store == store
      ensures darkMode == themeDarkMode
      ensures notifications == ReadNotifications(store.items)
      ensures email == ReadEmail(store.items)
    {
      this.store := store;
      darkMode := themeDarkMode;
      notifications := store.GetItem(Notifications) == Some("true");
      var stored := store.GetItem(UserEmail);
      email := if stored.Some? && stored.value != "" then stored.value else DefaultEmail;
    }

    /** `handleDarkModeToggle`: only "darkMode" is written, and it reads back as the new flag. */
    method ToggleDarkMode()
      modifies this, store
      ensures darkMode == !old(darkMode)
      ensures notifications == old(notifications) && email == old(email)
      ensures store.items == old(store.items)[DarkMode := BoolString(darkMode)]
      ensures StoredTrue(store.items, DarkMode) == darkMode
    {
      var newMode := !darkMode;
      darkMode := newMode;
      store.SetItem(DarkMode, BoolString(newMode));
    }

    /** `handleNotificationToggle`: only "notifications" is written; a remount reads it back. */
    method ToggleNotifications()
      modifies this, store
      ensures notifications == !old(notifications)
      ensures darkMode == old(darkMode) && email == old(email)
      ensures store.items == old(store.items)[Notifications := BoolString(notifications)]
      ensures ReadNotifications(store.items) == notifications
    {
      var newStatus := !notifications;
      notifications := newStatus;
      store.SetItem(Notifications, BoolString(newStatus));
    }

    /** `handleEmailChange`: the typed value is kept and stored verbatim under "userEmail". */
    method ChangeEmail(value: string)
      modifies this, store
      ensures email == value
      ensures darkMode == old(darkMode) && notifications == old(notifications)
      ensures store.items == old(store.items)[UserEmail := value]
    {
      email := value;
      store.SetItem(UserEmail, value);
    }

    /** `handleExportData`: the record written to "settings.json" (the mute flag is not in it). */
    method ExportData() returns (exported: SettingsExport)
      ensures exported.darkMode == darkMode
      ensures exported.notifications == notifications
      ensures exported.email == email
    {
      exported := SettingsExport(darkMode, notifications, email);
    }

    /** `handleResetSettings`: the defaults in the page and in storage. */
    method ResetSettings()
      modifies this, store
      ensures !darkMode && notifications && email == DefaultEmail
      ensures store.items == ResetItems(old(store.items))
    {
      darkMode := false;
      notifications := true;
      email := DefaultEmail;
      store.SetItem(DarkMode, "false");
      store.SetItem(Notifications, "true");
      store.SetItem(UserEmail, DefaultEmail);
    }

    /** `handleLogout`: only the token goes (the refresh token and user stay); then login. */
    method Logout() returns (navigate: string)
      modifies store
      ensures store.items == old(store.items) - {AuthToken}
      ensures navigate == LoginPath
    {
      store.RemoveItem(AuthToken);
      navigate := LoginPath;
    }
  }

  /** Toggling either switch twice restores both the flag and what a remount reads. */
  method ToggleTwice(page: SettingsPage)
    modifies page, page.store
    ensures page.darkMode == old(page.darkMode) && page.notifications == old(page.notifications)
    ensures page.email == old(page.email)
    ensures StoredTrue(page.store.items, DarkMode) == page.darkMode
    ensures ReadNotifications(page.store.items) == page.notifications
    ensures page.store.items ==
      old(page.store.items)[DarkMode := BoolString(old(page.darkMode))][Notifications := BoolString(old(page.notifications))]
  {
    page.ToggleDarkMode();
    page.ToggleDarkMode();
    page.ToggleNotifications();
    page.ToggleNotifications();
  }

  /** Reset twice leaves the same page state and storage as reset once. */
  method ResetTwice(page: SettingsPage)
    modifies page, page.store
    ensures !page.darkMode && page.notifications && page.email == DefaultEmail
    ensures page.store.items == ResetItems(old(page.store.items))
  {
    page.ResetSettings();
    page.ResetSettings();
    ResetEffect(old(page.store.items));
  }

  /** Logout keeps the refresh token and the stored user. */
  method LogoutKeepsSession(page: SettingsPage)
    modifies page.store
    ensures AuthToken !in page.store.items
    ensures RefreshToken in old(page.store.items) ==> RefreshToken in page.store.items && page.store.items[RefreshToken] == old(page.store.items)[RefreshToken]
    ensures User in old(page.store.items) ==> User in page.store.items && page.store.items[User] == old(page.store.items)[User]
  {
    var _ := page.Logout();
  }
}
