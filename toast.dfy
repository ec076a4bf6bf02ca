/** The notifications the dialogs raise through the toast hook. */
module Notifications {
  /** A notification: title, description and whether it is shown as an error. */
  datatype Toast = Toast(title: string, description: string, destructive: bool)
}
