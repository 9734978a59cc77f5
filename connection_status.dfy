/**
  * The `ConnectionStatus` alert: hidden while connected; otherwise a warning
  * while reconnect attempts remain, and a destructive alert once they run out.
  */
module ConnectionStatus {
  import opened Text

  datatype Variant = Warning | Destructive

  datatype Icon = WifiOff | AlertCircle

  /** What the component renders: nothing, or an alert with its variant, icon and two lines of text. */
  datatype Alert = Hidden | Shown(variant: Variant, icon: Icon, title: string, detail: string)

  const LostTitle := "Connection lost"
  const LostDetail := "Please refresh the page to reconnect"
  const ReconnectingTitle := "Reconnecting..."

  /** "Attempt n of max". */
  function AttemptText(attempts: int, maxAttempts: int): string
  {
    "Attempt " + IntToString(attempts) + " of " + IntToString(maxAttempts)
  }

  /**
    * The render decision. Variant, icon and text all follow the one
    * `isMaxAttempts` test, so they always agree with each other.
    */
  function Render(isConnected: bool, attempts: int, maxAttempts: int): (a: Alert)
    ensures a.Hidden? <==> isConnected
    ensures a.Shown? ==> (a.variant == Destructive <==> attempts >= maxAttempts)
    ensures a.Shown? ==> (a.variant == Destructive <==> a.icon == AlertCircle)
    ensures a.Shown? ==> (a.variant == Destructive <==> a.title == LostTitle)
    ensures a.Shown? && a.variant == Warning ==> a.title == ReconnectingTitle && a.detail == AttemptText(attempts, maxAttempts)
  {
    if isConnected then Hidden
    else if attempts >= maxAttempts then Shown(Destructive, AlertCircle, LostTitle, LostDetail)
    else Shown(Warning, WifiOff, ReconnectingTitle, AttemptText(attempts, maxAttempts))
  }
}
