/** The crate's error type (src/lib.rs). */
module Lib {

  /** Why an application identifier could not be read from a notification.
      Each variant names the stage of `app_identifier_from_notification`
      that failed. */
  datatype NSWorkspaceError =
    | GetApplicationKey
    | GetBundleIdentifier
    | GetUserInfo
}
