# Easy-Permission, modelled in Dafny

Easy-Permission is a Kotlin library for Android that wraps runtime permissions.
This project models the library's decision logic, with the operating system
abstracted away. What the platform would answer is passed in as a `Device` value:

- which permissions are held;
- for which permissions a rationale would be shown;
- whether the GPS and network location providers are on;
- whether the fragment has an activity and a context;
- the label of each permission.

Every entry point returns what it makes happen, in order, as a sequence of
`Effect`s: a user callback runs, a listener is notified, a system screen is
launched, a dialog is shown, or an exception is thrown. Dialogs are data: a
title, a message, a positive button and an optional negative button. Each
button carries the `Action` it runs when clicked.

The model follows the library's files:

- `names.dfy` (`ShortNames`) covers `getShortNameOfPermission` and
  `getListOfShortNamePermission`. The list builder is a loop proved equal to
  a "first occurrences" function, whose properties are lemmas.
- `requests.dfy` (`Requests`) and `manager.dfy` (`Manager`) cover
  `runWithPermissionsHandler`:
  - the unsupported-target error;
  - the fast path when everything is already held;
  - copying the options into the request record, with default messages;
  - the listener installed on the helper fragment.
- `request_flow.dfy` (`RequestFlow`) covers the legacy headless fragment
  `helper/PermissionCheckerFragment`. Pure step functions over the pair
  (pending request, listener) state each entry point's behaviour. The lemmas
  about the flow are stated on these step functions. The class
  `PermissionCheckerFragment` keeps the pair in two fields and is proved to
  follow the step functions exactly.
- `single_handler.dfy`, `multi_handler.dfy` and `gps_handler.dfy` cover the
  three handlers of the activity-result API. Each is a class whose fields
  are the stored callback and the stored permission(s).
- `dispatcher.dfy` (`Dispatcher`) covers the newer `PermissionCheckerFragment`.
  It owns one handler of each kind and picks the handler by the number of
  permissions.

Three helpers have no source here: `PermissionsUtil`, `EasyPermissionsRequest`, and the `Context.hasSelfPermission` extension used by the handlers.
The model assumes the following behaviour for them:

- `hasSelfPermission(context, list)` holds when every listed permission is held (`Base.AllHeld`). This makes it true of an empty list. The assumed helper ignores its nullable context argument, so without a context a fully held list still takes the granted path, although the activity-result path counts every permission as denied then.
- The `Context.hasSelfPermission` extension has a single-permission form (PermissionSingleHandler.kt:21,65), assumed to hold when that permission is held. It also has a list form (PermissionMultiHandler.kt:20,36,67,92), assumed to be `Base.AllHeld`, and therefore true of an empty list, for instance an empty result map at line 36.
- `getDeniedPermissions` keeps the permissions whose result is not `PERMISSION_GRANTED` (0). A missing result counts as not granted.
- `getPermanentlyDeniedPermissions` keeps the denied permissions that would get no rationale.
- A new `EasyPermissionsRequest` has empty denied lists, and the option defaults in every other field.

Things the model keeps as written:

- The multi handler re-prompts after the settings screen with a filter whose
  predicate ignores its element (PermissionMultiHandler.kt:92). So while
  anything is still missing, every stored permission is named in the dialog,
  including permissions already held. `MultiHandler.SettingsReturnLabelsHeldToo`
  shows a concrete case.
- The dialog texts are kept exactly, including "This let you" in the
  multi handler's denied dialog.

## Model

| member | source | states |
|---|---|---|
| ShortNames.AfterLast | easypermission/src/main/java/com/pisey/easypermission/PermissionsManager.kt:70 | the last element of `split(sep)`: a suffix of the input with no separator in it, preceded by a separator unless it is the whole input |
| ShortNames.Segment | easypermission/src/main/java/com/pisey/easypermission/PermissionsManager.kt:70-71 | the text after the last '.' and then after the last '_': a suffix with neither character, preceded by one of them unless it is the whole name |
| ShortNames.ShortNameOf | easypermission/src/main/java/com/pisey/easypermission/PermissionsManager.kt:69-72 | getShortNameOfPermission: the result is as long as the last segment; its characters are given by ShortNameShape, and ShortNameOfDotted, ShortNameOfFineLocation and ShortNameIdempotent follow from it |
| ShortNames.ShortNameShape | easypermission/src/main/java/com/pisey/easypermission/PermissionsManager.kt:69-72 | the short name has the segment's length, no '.' or '_', an upper-cased first letter and lower-cased other letters |
| ShortNames.ShortNameOfPlainName | easypermission/src/main/java/com/pisey/easypermission/PermissionsManager.kt:70-71 | a name with no '.' and no '_' is used whole, lower-cased and then capitalised |
| ShortNames.ShortNameOfDotted | easypermission/src/main/java/com/pisey/easypermission/PermissionsManager.kt:69-72 | a name prefix.middle_last, with no '.' in middle and neither '.' nor '_' in last, is shown as last, lower-cased and then capitalised |
| ShortNames.ShortNameOfFineLocation | easypermission/src/main/java/com/pisey/easypermission/PermissionsManager.kt:69-72 | "android.permission.ACCESS_FINE_LOCATION" gives "Location" |
| ShortNames.ShortNameIdempotent | easypermission/src/main/java/com/pisey/easypermission/PermissionsManager.kt:69-72 | applying the short-name transform to a short name changes nothing |
| ShortNames.ShortNamesOf | easypermission/src/main/java/com/pisey/easypermission/PermissionsManager.kt:80-81 | one short name per permission, in order, each that permission's short name |
| ShortNames.FirstOccurrences | easypermission/src/main/java/com/pisey/easypermission/PermissionsManager.kt:79-86 | the reference definition of the list the loop builds: each element at its first occurrence; the three lemmas below state its members, distinctness and order |
| ShortNames.FirstOccurrencesMembers | easypermission/src/main/java/com/pisey/easypermission/PermissionsManager.kt:78-87 | the deduplicated list holds exactly the input's elements and is no longer than the input |
| ShortNames.FirstOccurrencesDistinct | easypermission/src/main/java/com/pisey/easypermission/PermissionsManager.kt:82-84 | the deduplicated list has no duplicates |
| ShortNames.FirstOccurrencesOrdered | easypermission/src/main/java/com/pisey/easypermission/PermissionsManager.kt:78-87 | elements keep the order of their first occurrence in the input |
| ShortNames.ListOfShortNames | easypermission/src/main/java/com/pisey/easypermission/PermissionsManager.kt:78-87 | the loop returns the first occurrences of the short names: no duplicates, every input's short name present, nothing else, in first-occurrence order, no longer than the input |
| Requests.NewRequest | easypermission/src/main/java/com/pisey/easypermission/PermissionsManager.kt:178 | a new request holds the given permissions and empty denied and permanently-denied lists |
| Requests.DefaultMessagesNotBlank | easypermission/src/main/java/com/pisey/easypermission/PermissionsManager.kt:181-188 | neither default message is blank |
| Requests.IsBlank | easypermission/src/main/java/com/pisey/easypermission/PermissionsManager.kt:181-188 | `isBlank`: blank exactly when every character of the string is whitespace, the empty string included |
| Manager.UnsupportedTargetError | easypermission/src/main/java/com/pisey/easypermission/PermissionsManager.kt:199-204 | a null target fails with a null-pointer error; any other unsupported target fails with IllegalStateException whose message is "Found ", the target's canonical name and the fixed " : No support from any classes other than AppCompatActivity/Fragment" |
| Manager.ConfiguredMessages | easypermission/src/main/java/com/pisey/easypermission/PermissionsManager.kt:181-188 | a blank message option becomes the default text and a non-blank one is copied unchanged, so a configured request never carries a blank message |
| Manager.BuildRequest | easypermission/src/main/java/com/pisey/easypermission/PermissionsManager.kt:178-191 | the request holds the permissions, empty denied lists, both flags, the three hooks and the defaulted messages |
| Manager.RunWithPermissionsHandler | easypermission/src/main/java/com/pisey/easypermission/PermissionsManager.kt:96-197 | an unsupported target throws and leaves the fragment alone; if everything is held the callback runs and nothing is set or requested; otherwise the listener and the configured request are set and the permissions are requested with code 199 |
| Manager.ListenerReaction | easypermission/src/main/java/com/pisey/easypermission/PermissionsManager.kt:154-175 | "granted" runs the user callback; "denied", "rationale" and "permanently denied" each run exactly the request's permissionsDeniedMethod, rationaleMethod or permanentDeniedMethod on the request, and nothing when the request or that hook is missing |
| Manager.RunHook | easypermission/src/main/java/com/pisey/easypermission/PermissionsManager.kt:164-174 | `request?.hook?.invoke(request)`: one call of the hook on the request exactly when both are present, otherwise nothing |
| Manager.Resolve | easypermission/src/main/java/com/pisey/easypermission/PermissionsManager.kt:154-175 | a single notification becomes the installed listener's reaction and any other single effect stays; no notification is left, the effects never grow, and effects without notifications are kept as they are |
| Manager.ResolveAppend | easypermission/src/main/java/com/pisey/easypermission/PermissionsManager.kt:154-175 | resolving a concatenation resolves each part, so with the one-effect clause every notification is replaced in place by its listener reaction |
| Manager.GrantedFlowRunsCallbackOnce | easypermission/src/main/java/com/pisey/easypermission/helper/PermissionCheckerFragment.kt:113-124 | after runWithPermissions starts a flow, a result granting everything runs the user callback exactly once, runs no hook and clears the fragment |
| Manager.DeniedFlowRunsDeniedHook | easypermission/src/main/java/com/pisey/easypermission/helper/PermissionCheckerFragment.kt:185-187 | with both dialogs switched off, a failing result runs the caller's "denied" hook exactly when something was denied and the hook is set, and the flow ends |
| Manager.RationaleFlowRunsRationaleHook | easypermission/src/main/java/com/pisey/easypermission/helper/PermissionCheckerFragment.kt:166-171 | a flow stopping at the rationale branch with a custom hook runs that hook once, on the request recording the denied permissions, and keeps the request pending |
| Manager.PermanentFlowRunsPermanentHook | easypermission/src/main/java/com/pisey/easypermission/helper/PermissionCheckerFragment.kt:143-151 | a flow stopping at the permanently-denied branch with a custom hook runs that hook once, on the request recording both denied lists |
| Effects.InvokeIfSet | easypermission/src/main/java/com/pisey/easypermission/PermissionSingleHandler.kt:24 | a stored callback runs once; without one nothing happens |
| Effects.NegativeButton | easypermission/src/main/java/com/pisey/easypermission/PermissionSingleHandler.kt:81 | no negative button when the grant is forced, otherwise "Don't Allow" with no action |
| RequestFlow.NotifyListener | easypermission/src/main/java/com/pisey/easypermission/helper/PermissionCheckerFragment.kt:64 | with a listener, exactly one notification of that listener with the given kind and request; without one, nothing |
| RequestFlow.WithDenied | easypermission/src/main/java/com/pisey/easypermission/helper/PermissionCheckerFragment.kt:128 | the denied list of a pending request is replaced; no request stays no request |
| RequestFlow.CleanStep | easypermission/src/main/java/com/pisey/easypermission/helper/PermissionCheckerFragment.kt:59-73 | clean(): without a request nothing changes and nothing happens; with one, both fields are cleared and the only possible effect is one "denied" notification, whose listener and request CleanEndsFlow gives |
| RequestFlow.RequestStep | easypermission/src/main/java/com/pisey/easypermission/helper/PermissionCheckerFragment.kt:75-85 | requestPermissionsFromUser(): the request's permissions are requested with code 199 exactly when a request is pending |
| RequestFlow.OpenSettingsStep | easypermission/src/main/java/com/pisey/easypermission/helper/PermissionCheckerFragment.kt:191-199 | openAppSettings(): the settings screen is started for result 199 exactly when a request is pending |
| RequestFlow.DeniedPermissions | easypermission/src/main/java/com/pisey/easypermission/helper/PermissionCheckerFragment.kt:127 | the assumed getDeniedPermissions: a list of the given permissions no longer than them; DeniedPermissionsExact gives its members |
| RequestFlow.DeniedPermissionsExact | easypermission/src/main/java/com/pisey/easypermission/helper/PermissionCheckerFragment.kt:127 | with one result per permission, a permission is denied exactly when some occurrence of it was not granted |
| RequestFlow.WithoutRationale | easypermission/src/main/java/com/pisey/easypermission/helper/PermissionCheckerFragment.kt:147-148 | a sub-list of the denied permissions, no longer than it, holding exactly the denied permissions that would get no rationale |
| RequestFlow.PermanentlyDeniedPermissions | easypermission/src/main/java/com/pisey/easypermission/helper/PermissionCheckerFragment.kt:147-148 | the assumed getPermanentlyDeniedPermissions: exactly the denied permissions that would get no rationale, all of them among the given permissions |
| RequestFlow.PermanentlyDeniedAlert | easypermission/src/main/java/com/pisey/easypermission/helper/PermissionCheckerFragment.kt:153-161 | the dialog shows the request's permanently-denied message, "SETTINGS" opens the app settings and "CANCEL" cleans |
| RequestFlow.RationaleAlert | easypermission/src/main/java/com/pisey/easypermission/helper/PermissionCheckerFragment.kt:173-181 | the dialog shows the request's rationale message, "TRY AGAIN" asks again and "CANCEL" cleans |
| RequestFlow.GrantResults | easypermission/src/main/java/com/pisey/easypermission/helper/PermissionCheckerFragment.kt:204-208 | one result per stored permission, granted exactly when there is a context and the permission is held, otherwise denied |
| RequestFlow.DeniedStep | easypermission/src/main/java/com/pisey/easypermission/helper/PermissionCheckerFragment.kt:126-188 | the still-missing branch: without a request nothing happens; the listener is kept unless the flow ends; at most one effect, never a "granted" notification; its three outcomes are stated by PermanentBranchFirst, RationaleBranch and FallbackCleans |
| RequestFlow.ResultStep | easypermission/src/main/java/com/pisey/easypermission/helper/PermissionCheckerFragment.kt:102-189 | handlePermissionResult: an empty result does nothing; without a request the state stays as it is; the listener is kept unless the flow ends; "granted" is notified only when every permission is held |
| RequestFlow.ActivityResultStep | easypermission/src/main/java/com/pisey/easypermission/helper/PermissionCheckerFragment.kt:201-212 | onActivityResult: another request code, or no pending request, does nothing |
| RequestFlow.CleanEndsFlow | easypermission/src/main/java/com/pisey/easypermission/helper/PermissionCheckerFragment.kt:59-67 | with a pending request, clean() clears request and listener; its effects are exactly one "denied" notification of the stored listener carrying the stored request when the denied list is non-empty and a listener is set, and nothing otherwise |
| RequestFlow.CleanIdempotent | easypermission/src/main/java/com/pisey/easypermission/helper/PermissionCheckerFragment.kt:59-73 | a second clean() changes nothing and notifies nothing |
| RequestFlow.FinishedRequestIsInert | easypermission/src/main/java/com/pisey/easypermission/helper/PermissionCheckerFragment.kt:59-85 | without a request, clean(), requestPermissionsFromUser(), openAppSettings() and onActivityResult() change nothing and make nothing happen |
| RequestFlow.FinishedFlowIgnoresResults | easypermission/src/main/java/com/pisey/easypermission/helper/PermissionCheckerFragment.kt:102-189 | after the flow has ended, a late permission result changes nothing and makes nothing happen |
| RequestFlow.EmptyResultIgnored | easypermission/src/main/java/com/pisey/easypermission/helper/PermissionCheckerFragment.kt:108-111 | a result with no permissions is discarded without a state change |
| RequestFlow.GrantedPath | easypermission/src/main/java/com/pisey/easypermission/helper/PermissionCheckerFragment.kt:113-124 | when everything is held the denied list is emptied, "granted" is the only notification, "denied" never fires, and the flow is cleaned |
| RequestFlow.ScanRationale | easypermission/src/main/java/com/pisey/easypermission/helper/PermissionCheckerFragment.kt:131-141 | the loop reports a permanent denial exactly when some denied permission would get no rationale, and shows the rationale exactly otherwise |
| RequestFlow.PermanentBranchFirst | easypermission/src/main/java/com/pisey/easypermission/helper/PermissionCheckerFragment.kt:143-163 | a handled permanent denial wins over the rationale; the listener is kept and the pending request is the old one with the new denied list, plus the permanently denied list when a custom hook is set; that hook only notifies the listener, otherwise the settings dialog is shown; no rationale or "denied" notification |
| RequestFlow.RationaleBranch | easypermission/src/main/java/com/pisey/easypermission/helper/PermissionCheckerFragment.kt:166-183 | a handled rationale with no permanent denial notifies the rationale hook when it is set, otherwise shows the rationale dialog, and keeps the flow pending |
| RequestFlow.FallbackCleans | easypermission/src/main/java/com/pisey/easypermission/helper/PermissionCheckerFragment.kt:185-187 | when neither branch applies, the flow ends through clean() and notifies "denied" exactly when something was denied |
| RequestFlow.ActivityResultRechecks | easypermission/src/main/java/com/pisey/easypermission/helper/PermissionCheckerFragment.kt:201-212 | only request code 199 acts; it re-runs the result handling on the stored permissions, all denied when there is no context |
| RequestFlow.PermissionCheckerFragment.constructor | easypermission/src/main/java/com/pisey/easypermission/helper/PermissionCheckerFragment.kt:17-34 | a new fragment has no request and no listener |
| RequestFlow.PermissionCheckerFragment.SetListener | easypermission/src/main/java/com/pisey/easypermission/helper/PermissionCheckerFragment.kt:36-39 | only the listener changes |
| RequestFlow.PermissionCheckerFragment.SetRequestPermissionsRequest | easypermission/src/main/java/com/pisey/easypermission/helper/PermissionCheckerFragment.kt:51-53 | only the request changes |
| RequestFlow.PermissionCheckerFragment.Clean | easypermission/src/main/java/com/pisey/easypermission/helper/PermissionCheckerFragment.kt:59-73 | the new fields and the effects are those of clean()'s step function |
| RequestFlow.PermissionCheckerFragment.RequestPermissionsFromUser | easypermission/src/main/java/com/pisey/easypermission/helper/PermissionCheckerFragment.kt:75-85 | the stored permissions are requested with code 199 exactly when a request is pending |
| RequestFlow.PermissionCheckerFragment.OpenAppSettings | easypermission/src/main/java/com/pisey/easypermission/helper/PermissionCheckerFragment.kt:191-199 | the settings screen is opened for a result with code 199 exactly when a request is pending |
| RequestFlow.PermissionCheckerFragment.HandlePermissionResult | easypermission/src/main/java/com/pisey/easypermission/helper/PermissionCheckerFragment.kt:102-189 | the new fields and the effects are those of the result step function, whose branches the lemmas above describe |
| RequestFlow.PermissionCheckerFragment.OnActivityResult | easypermission/src/main/java/com/pisey/easypermission/helper/PermissionCheckerFragment.kt:201-212 | the grant array is filled per stored permission, then the result is handled; the new fields and effects are those of the activity-result step function |
| SingleHandler.AllowInSettingsDialog | easypermission/src/main/java/com/pisey/easypermission/PermissionSingleHandler.kt:99-108 | the settings dialog names the permission's label; "App Setting" opens the application details; the negative button follows forceGranted |
| SingleHandler.PermissionDeniedDialog | easypermission/src/main/java/com/pisey/easypermission/PermissionSingleHandler.kt:75-84 | "Permission Required"; "Allow" asks again for the permission; the negative button follows forceGranted |
| SingleHandler.RequestPermissionDialog | easypermission/src/main/java/com/pisey/easypermission/PermissionSingleHandler.kt:87-97 | no dialog for a null permission, otherwise the settings dialog with the permission's label |
| SingleHandler.PermissionSingleHandler.constructor | easypermission/src/main/java/com/pisey/easypermission/PermissionSingleHandler.kt:11-17 | keeps forceGranted; no permission and no callback stored |
| SingleHandler.PermissionSingleHandler.RunSinglePermission | easypermission/src/main/java/com/pisey/easypermission/PermissionSingleHandler.kt:61-73 | stores the permission and the callback, overwriting earlier ones; runs the callback if the permission is held, otherwise launches a single request for it |
| SingleHandler.PermissionSingleHandler.OnPermissionResult | easypermission/src/main/java/com/pisey/easypermission/PermissionSingleHandler.kt:30-59 | a null permission fails; granted runs the stored callback; refused without a rationale shows the settings dialog; refused otherwise shows the denied dialog; only the granted case runs code |
| SingleHandler.PermissionSingleHandler.OnSettingsResult | easypermission/src/main/java/com/pisey/easypermission/PermissionSingleHandler.kt:19-27 | a null permission does nothing; a held one runs the stored callback; otherwise the settings dialog is shown again |
| MultiHandler.Keys | easypermission/src/main/java/com/pisey/easypermission/PermissionMultiHandler.kt:36 | the permissions of the result map, one per entry, in order |
| MultiHandler.DeniedLabels | easypermission/src/main/java/com/pisey/easypermission/PermissionMultiHandler.kt:29-33 | the labels of the refused entries, no more of them than entries; DeniedLabelsAreRefused and AllGrantedNoLabels say which |
| MultiHandler.DeniedLabelsAreRefused | easypermission/src/main/java/com/pisey/easypermission/PermissionMultiHandler.kt:29-34 | the labels are those of the refused entries, one each, in order, and the refused entries are exactly those of the result whose value is false |
| MultiHandler.RefusedAppend | easypermission/src/main/java/com/pisey/easypermission/PermissionMultiHandler.kt:29 | the refused entries are taken one at a time in order: an extra entry at the end adds itself at the end exactly when its value is false |
| MultiHandler.AllGrantedNoLabels | easypermission/src/main/java/com/pisey/easypermission/PermissionMultiHandler.kt:29-34 | a result granting everything yields no labels |
| MultiHandler.SettingsReturnLabelsHeldToo | easypermission/src/main/java/com/pisey/easypermission/PermissionMultiHandler.kt:92-97 | a held permission is named next to a missing one |
| MultiHandler.SettingsReturnLabels | easypermission/src/main/java/com/pisey/easypermission/PermissionMultiHandler.kt:92-96 | as written: no label when every stored permission is held, otherwise the label of every stored permission, in order |
| Effects.Join | easypermission/src/main/java/com/pisey/easypermission/PermissionMultiHandler.kt:34 | `joinToString(", ")`: the empty string for no parts, the part itself for one; otherwise the first part comes first and the length is that of all parts plus one separator between each two |
| Effects.JoinAppend | easypermission/src/main/java/com/pisey/easypermission/PermissionMultiHandler.kt:34 | joining two non-empty lists is joining each and putting one separator between them, so every separator sits between two parts |
| MultiHandler.AllowInSettingsDialog | easypermission/src/main/java/com/pisey/easypermission/PermissionMultiHandler.kt:106-115 | "Permission Required" with the labels; "App Settings" opens the application details; the negative button follows forceGranted |
| MultiHandler.MultiplePermissionDeniedDialog | easypermission/src/main/java/com/pisey/easypermission/PermissionMultiHandler.kt:78-87 | the denied dialog with the labels; "Allow" asks again for the stored permissions; the negative button follows forceGranted |
| MultiHandler.PermissionMultiHandler.constructor | easypermission/src/main/java/com/pisey/easypermission/PermissionMultiHandler.kt:11-16 | keeps forceGranted; an empty list and no callback |
| MultiHandler.PermissionMultiHandler.RunMultiplePermission | easypermission/src/main/java/com/pisey/easypermission/PermissionMultiHandler.kt:62-75 | the stored list becomes exactly the given permissions and the callback is stored; runs it if all are held, otherwise launches a request for exactly those permissions |
| MultiHandler.PermissionMultiHandler.OnPermissionsResult | easypermission/src/main/java/com/pisey/easypermission/PermissionMultiHandler.kt:28-60 | in priority order: all result permissions held runs the callback; a stored permission without rationale shows the settings dialog; otherwise the denied dialog; both name the refused entries joined by ", " |
| MultiHandler.PermissionMultiHandler.OnSettingsResult | easypermission/src/main/java/com/pisey/easypermission/PermissionMultiHandler.kt:18-26 | an empty list does nothing; all held runs the callback; otherwise the settings dialog is shown again |
| GpsHandler.TurnOnGpsDialog | easypermission/src/main/java/com/pisey/easypermission/PermissionGPSHandler.kt:35-44 | "Please turn on GPS"; "Turn On" opens the location settings again; the negative button follows forceGranted |
| GpsHandler.PermissionGPSHandler.constructor | easypermission/src/main/java/com/pisey/easypermission/PermissionGPSHandler.kt:9-14 | keeps forceGranted; no executor stored |
| GpsHandler.IsLocationEnabled | easypermission/src/main/java/com/pisey/easypermission/PermissionGPSHandler.kt:26-33 | location is on exactly when the GPS or the network provider is on |
| GpsHandler.PermissionGPSHandler.RunGPSPermission | easypermission/src/main/java/com/pisey/easypermission/PermissionGPSHandler.kt:46-53 | stores the executor first; runs it when location is on, otherwise launches the location settings |
| GpsHandler.PermissionGPSHandler.OnSettingsResult | easypermission/src/main/java/com/pisey/easypermission/PermissionGPSHandler.kt:16-24 | runs the stored executor when location is on, otherwise shows the "turn on GPS" dialog |
| Dispatcher.PermissionCheckerFragment.constructor | easypermission/src/main/java/com/pisey/easypermission/PermissionCheckerFragment.kt:10-14 | three fresh handlers, all with the fragment's forceGranted flag |
| Dispatcher.PermissionCheckerFragment.Default | easypermission/src/main/java/com/pisey/easypermission/PermissionCheckerFragment.kt:11 | the no-argument constructor forces nothing |
| Dispatcher.PermissionCheckerFragment.RequestPermissionsFromUser | easypermission/src/main/java/com/pisey/easypermission/PermissionCheckerFragment.kt:16-19 | exactly one permission goes to the single handler; any other count, zero included, to the multi handler; the other handler is untouched |
| Dispatcher.PermissionCheckerFragment.RequestPermissionGPSFromUser | easypermission/src/main/java/com/pisey/easypermission/PermissionCheckerFragment.kt:21-23 | a location request is passed unchanged to the GPS handler |

## Left out

- Platform calls are parameters (`Device`) or effects, not behaviour. These are permission checks, rationale queries, `requestPermissions`, activity-result launchers, intents, `LocationManager` and permission label lookup.
- Fragment lookup and attachment (PermissionsManager.kt:118-151) are not modelled. These are fragment-manager transactions. `RunWithPermissionsHandler` receives the helper fragment as a parameter.
- Exceptions thrown by the user callback are not caught in the model. The source catches them in the installed listener (PermissionsManager.kt:157-161).
- Logging (`Log.d`, `Log.w`) has no effect on behaviour and is not modelled.
- Dialog rendering is not modelled: AppAlertDialogUtil.kt, the anko `alert` builder and helper/EasyPermissionDialog.kt. This includes AppAlertDialogUtil's silent refusal to show a dialog over a finishing activity, and its dismissal of the previous dialog. The model states only which dialog, with which buttons and which continuations.
- `PermissionsUtil`, `EasyPermissionsRequest` and the `Context.hasSelfPermission` extension are not part of this model. Their assumed behaviour is stated above.
- `EasyPermissionsRequest` is modelled as a value. The listener and the hooks receive a copy of the request. Aliasing of the one Kotlin object between caller and fragment is not modelled.
- RequestFlow.ResultStep and RequestFlow.CleanStep: user callbacks and hooks are assumed not to call back into the helper fragment. In the source they run synchronously before `clean()` clears the request and listener (helper/PermissionCheckerFragment.kt:63-67 and 121-124). A callback that starts a new `runWithPermissions` flow from inside these calls has its new request and listener wiped by the outer `clean()`. Because effects are returned as data, the model cannot express this re-entrance.
- A dialog button's continuation is fixed when the dialog is built. For example, "Allow" carries the stored permissions. The source reads the handler's fields when the button is clicked.
- `getPermissionInfo` throws for an unknown permission name; this is not modelled. The one exception kept is the null permission of the single handler's result callback.
- `requireContext()` throws on a detached fragment; this is not modelled.
- Case mapping covers ASCII letters only. `toLowerCase()` and `capitalize(Locale.ENGLISH)` map other characters too.
- RequestFlow.DeniedPermissionsExact: stated only for one grant result per permission; with missing results, the model counts a missing result as not granted.
- The runWithPermissions overloads (PermissionsManager.kt:23-63) are not modelled. They only choose the options and forward to the handler. They call `EasyPermissionDialog.quickPermissionsOption`, which is not part of this model.
- app/.../MainActivity.kt is not modelled; it is a usage sample.
