/** The presentation values the modelled logic chooses between. */
module Ui {
  /** The `type` prop of `Badge`. */
  datatype BadgeType = Primary | Success | Warning | Error | Info | Default

  /** What a status classifier returns: the badge type and its text. */
  datatype StatusInfo = StatusInfo(badge: BadgeType, text: string)

  /** A call `showAlert(kind, message)`. */
  datatype Alert = Alert(kind: string, message: string)

  /** The theme colours a status is drawn in. */
  datatype ThemeColor = SuccessColor | ErrorColor | WarningColor | GrayColor
}
