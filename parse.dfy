/** Reading an application identifier out of a workspace notification
    (src/parse.rs). The Objective-C objects are replaced by the values the
    parser reads from them. */
module Parse {
  import opened Wrappers
  import opened Lib

  /** What the parser reads from an `NSRunningApplication`. */
  datatype RunningApplication = RunningApplication(
    bundleIdentifier: Option<string>,
    localizedName: Option<string>)

  /** A value stored in a notification's user-info dictionary: a running
      application, or an object of any other class. */
  datatype Obj = App(app: RunningApplication) | OtherObject

  /** An `NSNotification`, reduced to its optional user-info dictionary. */
  datatype Notification = Notification(userInfo: Option<map<string, Obj>>)

  /** `NSWorkspaceApplicationKey`. */
  const ApplicationKey: string := "NSWorkspaceApplicationKey"

  /** The running application a notification carries under the application
      key, if it carries one. */
  function ApplicationIn(n: Notification): Option<RunningApplication>
  {
    if n.userInfo.Some? && ApplicationKey in n.userInfo.value && n.userInfo.value[ApplicationKey].App?
    then Some(n.userInfo.value[ApplicationKey].app)
    else None
  }

  /** `running_application_identifier`: the bundle identifier, and nothing
      else — there is no fallback to the localized name here. */
  function RunningApplicationIdentifier(app: RunningApplication): (r: Option<string>)
    ensures r.Some? <==> app.bundleIdentifier.Some?
    ensures r.Some? ==> r.value == app.bundleIdentifier.value
  {
    match app.bundleIdentifier
    case Some(id) => Some(id)
    case None => None
  }

  /** `app_identifier_from_notification`: the user-info dictionary, then the
      entry under the application key, then its class, then the bundle
      identifier falling back to the localized name; each stage that fails
      returns its own error. */
  function AppIdentifierFromNotification(n: Notification): (r: Result<string, NSWorkspaceError>)
    ensures r.Ok? ==> ApplicationIn(n).Some?
    ensures r.Ok? ==> var app := ApplicationIn(n).value;
      Some(r.value) == app.bundleIdentifier ||
      (app.bundleIdentifier.None? && Some(r.value) == app.localizedName)
  {
    match n.userInfo
    case None => Err(GetUserInfo)
    case Some(userInfo) =>
      if ApplicationKey !in userInfo then Err(GetApplicationKey)
      else
        match userInfo[ApplicationKey]
        case OtherObject => Err(GetApplicationKey)
        case App(app) =>
          match app.bundleIdentifier
          case Some(id) => Ok(id)
          case None =>
            match app.localizedName
            case Some(name) => Ok(name)
            case None => Err(GetBundleIdentifier)
  }

  /** A notification whose user info holds `app` under the application key,
      next to any other entries. */
  function NotificationFor(app: RunningApplication, others: map<string, Obj>): (n: Notification)
    ensures ApplicationIn(n) == Some(app)
  {
    Notification(Some(others[ApplicationKey := App(app)]))
  }

  /** A missing user-info dictionary is reported before anything else. */
  lemma MissingUserInfo(n: Notification)
    requires n.userInfo.None?
    ensures AppIdentifierFromNotification(n) == Err(GetUserInfo)
  {
  }

  /** A user-info dictionary without the application key, or whose entry
      there is not a running application, is a `GetApplicationKey` error. */
  lemma MissingOrForeignApplication(n: Notification)
    requires n.userInfo.Some?
    requires ApplicationKey !in n.userInfo.value || n.userInfo.value[ApplicationKey] == OtherObject
    ensures AppIdentifierFromNotification(n) == Err(GetApplicationKey)
  {
  }

  /** The bundle identifier wins whatever the localized name is. */
  lemma BundleIdentifierFirst(app: RunningApplication, others: map<string, Obj>)
    requires app.bundleIdentifier.Some?
    ensures AppIdentifierFromNotification(NotificationFor(app, others)) == Ok(app.bundleIdentifier.value)
  {
  }

  /** Without a bundle identifier the localized name is used. */
  lemma LocalizedNameFallback(app: RunningApplication, others: map<string, Obj>)
    requires app.bundleIdentifier.None? && app.localizedName.Some?
    ensures AppIdentifierFromNotification(NotificationFor(app, others)) == Ok(app.localizedName.value)
  {
  }

  /** With neither, the parse fails at the identifier stage. */
  lemma NoIdentifier(app: RunningApplication, others: map<string, Obj>)
    requires app.bundleIdentifier.None? && app.localizedName.None?
    ensures AppIdentifierFromNotification(NotificationFor(app, others)) == Err(GetBundleIdentifier)
  {
  }

  /** Which error comes back is decided by the first stage that fails, and
      the parse succeeds exactly when the application is present and names
      itself somehow. */
  lemma ErrorStages(n: Notification)
    ensures AppIdentifierFromNotification(n) == Err(GetUserInfo) <==> n.userInfo.None?
    ensures AppIdentifierFromNotification(n) == Err(GetApplicationKey) <==>
              n.userInfo.Some? && ApplicationIn(n).None?
    ensures AppIdentifierFromNotification(n) == Err(GetBundleIdentifier) <==>
              ApplicationIn(n).Some? && ApplicationIn(n).value.bundleIdentifier.None? &&
              ApplicationIn(n).value.localizedName.None?
    ensures AppIdentifierFromNotification(n).Ok? <==>
              ApplicationIn(n).Some? &&
              (ApplicationIn(n).value.bundleIdentifier.Some? || ApplicationIn(n).value.localizedName.Some?)
  {
  }

  /** The two identifier readers agree whenever the application has a
      bundle identifier, and differ only by the localized-name fallback. */
  lemma IdentifierReadersAgree(app: RunningApplication, others: map<string, Obj>)
    ensures RunningApplicationIdentifier(app).Some? ==>
              AppIdentifierFromNotification(NotificationFor(app, others)) == Ok(RunningApplicationIdentifier(app).value)
    ensures RunningApplicationIdentifier(app).None? ==>
              (AppIdentifierFromNotification(NotificationFor(app, others)).Ok? <==> app.localizedName.Some?)
  {
  }
}
