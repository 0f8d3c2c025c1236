/** What the library makes happen, in order: user callbacks, listener
    notifications, launches of platform screens, dialogs and exceptions. */
module Effects {
  import opened Base
  import opened Requests

  datatype Exception =
    | IllegalState(message: string)
    | NullPointer

  /** The continuation a dialog button runs when it is clicked. */
  datatype Action =
    | CallOpenAppSettings               // helper fragment: openAppSettings()
    | CallClean                         // helper fragment: clean()
    | CallRequestPermissionsFromUser    // helper fragment: requestPermissionsFromUser()
    | CallStartApplicationDetails       // handler: startApplicationDetailsActivity()
    | CallLaunchSingle(permission: Permission)
    | CallLaunchMultiple(permissions: seq<Permission>)
    | CallLaunchLocationSettings
    | DismissOnly                       // a button with no click handler

  datatype Button = Button(title: string, action: Action)

  /** A modal, non-cancelable dialog: "" stands for no title. */
  datatype Dialog = Dialog(title: string, message: string, positive: Button, negative: Option<Button>)

  /** The listener that runWithPermissions installs; it wraps the user callback. */
  datatype Listener = ManagerListener(callback: Callback)

  datatype Notification = Granted | Denied | Rationale | PermanentlyDenied

  datatype Effect =
    | Invoke(callback: Callback)
    | InvokeHook(hook: Hook, argument: Request)
    | Notify(listener: Listener, what: Notification, request: Option<Request>)
    | RequestPermissions(permissions: seq<Permission>, requestCode: int)
    | StartAppSettingsForResult(requestCode: int)
    | LaunchSingleRequest(permission: Permission)
    | LaunchMultipleRequest(permissions: seq<Permission>)
    | LaunchAppDetailsSettings
    | LaunchLocationSettings
    | ShowDialog(dialog: Dialog)
    | Throw(exception: Exception)

  /** `callback?.invoke()`. */
  function InvokeIfSet(callback: Option<Callback>): (r: seq<Effect>)
    ensures |r| <= 1
    ensures r != [] <==> callback.Some?
    ensures callback.Some? ==> r[0] == Invoke(callback.value)
  {
    if callback.Some? then [Invoke(callback.value)] else []
  }

  /** The handlers' negative button: "Don't Allow" unless the flow forces a grant. */
  function NegativeButton(forceGranted: bool): (b: Option<Button>)
    ensures b.None? <==> forceGranted
    ensures b.Some? ==> b.value.title == "Don't Allow" && b.value.action == DismissOnly
  {
    if !forceGranted then Some(Button("Don't Allow", DismissOnly)) else None
  }

  /** The total length of some strings. */
  function TotalLength(parts: seq<string>): nat {
    if |parts| == 0 then 0 else |parts[0]| + TotalLength(parts[1..])
  }

  /** Kotlin's joinToString(separator): the parts in order, with one separator
      between each two of them. */
  function Join(parts: seq<string>, separator: string): (r: string)
    ensures |parts| == 0 ==> r == ""
    ensures |parts| == 1 ==> r == parts[0]
    ensures |parts| > 0 ==> |r| == TotalLength(parts) + (|parts| - 1) * |separator|
    ensures |parts| > 0 ==> r[..|parts[0]|] == parts[0]
  {
    if |parts| == 0 then ""
    else if |parts| == 1 then parts[0]
    else parts[0] + separator + Join(parts[1..], separator)
  }

  /** Joining two non-empty lists puts one separator between their joins. */
  lemma {:induction false} JoinAppend(a: seq<string>, b: seq<string>, separator: string)
    requires |a| > 0 && |b| > 0
    ensures Join(a + b, separator) == Join(a, separator) + separator + Join(b, separator)
    decreases |a|
  {
    if |a| > 1 {
      JoinAppend(a[1..], b, separator);
      assert (a + b)[1..] == a[1..] + b;
    } else {
      assert (a + b)[1..] == b;
    }
  }
}
