/** The headless fragment that carries one permission request from the system
    dialog, through the rationale / permanently-denied decision, to its end
    (helper/PermissionCheckerFragment.kt).

    The step functions below say what each entry point does to the pair
    (request, listener) and what it makes happen; the class at the end keeps
    that pair in fields and is proved to follow the step functions. */
module RequestFlow {
  import opened Base
  import opened Requests
  import opened Effects

  const PermissionsRequestCode := 199
  const PermissionGranted := 0
  const PermissionDenied := -1

  datatype State = State(request: Option<Request>, listener: Option<Listener>)

  /** The state after a call and what the call made happen, in order. */
  datatype Step = Step(state: State, effects: seq<Effect>)

  /** `mListener?.onX(request)`. */
  function NotifyListener(listener: Option<Listener>, what: Notification, request: Option<Request>): (r: seq<Effect>)
    ensures r == [] <==> listener.None?
    ensures listener.Some? ==> r == [Notify(listener.value, what, request)]
  {
    if listener.Some? then [Notify(listener.value, what, request)] else []
  }

  /** `easyPermissionsRequest?.deniedPermissions = denied`. */
  function WithDenied(request: Option<Request>, denied: seq<Permission>): (r: Option<Request>)
    ensures r.Some? <==> request.Some?
    ensures r.Some? ==> r.value == request.value.(deniedPermissions := denied)
  {
    if request.Some? then Some(request.value.(deniedPermissions := denied)) else None
  }

  /** The number of denied permissions a request holds (`?.size ?: 0`). */
  function DeniedCount(request: Option<Request>): nat {
    if request.Some? then |request.value.deniedPermissions| else 0
  }

  /** clean(): a pending flow ends, notifying "denied" when permissions remain denied. */
  function CleanStep(s: State): (r: Step)
    ensures s.request.None? ==> r == Step(s, [])
    ensures s.request.Some? ==> r.state == State(None, None)
    ensures |r.effects| <= 1
    ensures forall e :: e in r.effects ==> e.Notify? && e.what == Denied
  {
    if s.request.None? then Step(s, [])
    else Step(State(None, None),
              if DeniedCount(s.request) > 0 then NotifyListener(s.listener, Denied, s.request) else [])
  }

  /** requestPermissionsFromUser(): ask the system for the request's permissions. */
  function RequestStep(s: State): (r: seq<Effect>)
    ensures r != [] <==> s.request.Some?
    ensures s.request.Some? ==> r == [RequestPermissions(s.request.value.permissions, PermissionsRequestCode)]
  {
    if s.request.Some? then [RequestPermissions(s.request.value.permissions, PermissionsRequestCode)] else []
  }

  /** openAppSettings(): open the application's settings screen for a result. */
  function OpenSettingsStep(s: State): (r: seq<Effect>)
    ensures r != [] <==> s.request.Some?
    ensures s.request.Some? ==> r == [StartAppSettingsForResult(PermissionsRequestCode)]
  {
    if s.request.Some? then [StartAppSettingsForResult(PermissionsRequestCode)] else []
  }

  // ---------------------------------------------------------------------
  // What the unseen PermissionsUtil helpers are assumed to compute.

  /** getDeniedPermissions: the permissions whose grant result is not
      PERMISSION_GRANTED (a missing result counts as not granted). */
  function DeniedPermissions(permissions: seq<Permission>, grants: seq<int>): (d: seq<Permission>)
    ensures |d| <= |permissions|
    ensures forall x :: x in d ==> x in permissions
    decreases |permissions|
  {
    if |permissions| == 0 then []
    else
      var first := if |grants| == 0 || grants[0] != PermissionGranted then [permissions[0]] else [];
      first + DeniedPermissions(permissions[1..], if |grants| == 0 then [] else grants[1..])
  }

  /** With one result per permission, a permission is in the denied list
      exactly when some occurrence of it was not granted. */
  lemma {:induction false} DeniedPermissionsExact(permissions: seq<Permission>, grants: seq<int>)
    requires |grants| == |permissions|
    ensures forall x :: x in DeniedPermissions(permissions, grants) <==>
      exists i :: 0 <= i < |permissions| && permissions[i] == x && grants[i] != PermissionGranted
    decreases |permissions|
  {
    if |permissions| > 0 {
      DeniedPermissionsExact(permissions[1..], grants[1..]);
      forall x | x in DeniedPermissions(permissions, grants)
        ensures exists i :: 0 <= i < |permissions| && permissions[i] == x && grants[i] != PermissionGranted
      {
        if x != permissions[0] || grants[0] == PermissionGranted {
          var j :| 0 <= j < |permissions| - 1 && permissions[1..][j] == x && grants[1..][j] != PermissionGranted;
          assert permissions[j + 1] == x && grants[j + 1] != PermissionGranted;
        }
      }
      forall x | exists i :: 0 <= i < |permissions| && permissions[i] == x && grants[i] != PermissionGranted
        ensures x in DeniedPermissions(permissions, grants)
      {
        var i :| 0 <= i < |permissions| && permissions[i] == x && grants[i] != PermissionGranted;
        if i > 0 {
          assert permissions[1..][i - 1] == x && grants[1..][i - 1] != PermissionGranted;
        }
      }
    }
  }

  /** The denied permissions for which no rationale would be shown. */
  function WithoutRationale(denied: seq<Permission>, device: Device): (r: seq<Permission>)
    ensures |r| <= |denied|
    ensures forall i :: 0 <= i < |r| ==> r[i] !in device.rationale
    ensures forall x :: x in r <==> x in denied && x !in device.rationale
  {
    if |denied| == 0 then []
    else (if denied[0] in device.rationale then [] else [denied[0]]) + WithoutRationale(denied[1..], device)
  }

  /** getPermanentlyDeniedPermissions, as it is assumed to behave. */
  function PermanentlyDeniedPermissions(permissions: seq<Permission>, grants: seq<int>, device: Device): (r: seq<Permission>)
    ensures forall x :: x in r <==> x in DeniedPermissions(permissions, grants) && x !in device.rationale
    ensures forall x :: x in r ==> x in permissions
  {
    WithoutRationale(DeniedPermissions(permissions, grants), device)
  }

  // ---------------------------------------------------------------------
  // handlePermissionResult

  /** The dialog shown for a permanent denial when no custom hook is set. */
  function PermanentlyDeniedAlert(r: Request): (d: Dialog)
    ensures d.message == r.permanentlyDeniedMessage
    ensures d.positive == Button("SETTINGS", CallOpenAppSettings)
    ensures d.negative == Some(Button("CANCEL", CallClean))
  {
    Dialog("", r.permanentlyDeniedMessage, Button("SETTINGS", CallOpenAppSettings), Some(Button("CANCEL", CallClean)))
  }

  /** The dialog shown for a rationale when no custom hook is set. */
  function RationaleAlert(r: Request): (d: Dialog)
    ensures d.message == r.rationaleMessage
    ensures d.positive == Button("TRY AGAIN", CallRequestPermissionsFromUser)
    ensures d.negative == Some(Button("CANCEL", CallClean))
  {
    Dialog("", r.rationaleMessage, Button("TRY AGAIN", CallRequestPermissionsFromUser), Some(Button("CANCEL", CallClean)))
  }

  /** `activity?.alert { ... }?.show()`: nothing is shown without an activity. */
  function AlertIfActivity(device: Device, d: Dialog): seq<Effect> {
    if device.hasActivity then [ShowDialog(d)] else []
  }

  /** Whether the permanently-denied branch is taken. */
  predicate TakesPermanentBranch(request: Option<Request>, denied: seq<Permission>, device: Device) {
    request.Some? && request.value.handlePermanentlyDenied && SomeLacksRationale(denied, device)
  }

  /** Whether the rationale branch is taken (when the permanent one is not). */
  predicate TakesRationaleBranch(request: Option<Request>, denied: seq<Permission>, device: Device) {
    request.Some? && request.value.handleRationale && !SomeLacksRationale(denied, device)
  }

  /** The branch taken once some permission is still missing. */
  function DeniedStep(s: State, permissions: seq<Permission>, grants: seq<int>, device: Device): (r: Step)
    ensures s.request.None? ==> r == Step(s, [])
    ensures r.state == State(None, None) || r.state.listener == s.listener
    ensures |r.effects| <= 1
    ensures forall e :: e in r.effects ==> !(e.Notify? && e.what == Granted)
  {
    var denied := DeniedPermissions(permissions, grants);
    var s1 := s.(request := WithDenied(s.request, denied));
    if TakesPermanentBranch(s1.request, denied, device) then
      var r := s1.request.value;
      if r.permanentDeniedMethod.Some? then
        var s2 := s1.(request := Some(r.(permanentlyDeniedPermissions := PermanentlyDeniedPermissions(permissions, grants, device))));
        Step(s2, NotifyListener(s2.listener, PermanentlyDenied, s2.request))
      else
        Step(s1, AlertIfActivity(device, PermanentlyDeniedAlert(r)))
    else if TakesRationaleBranch(s1.request, denied, device) then
      var r := s1.request.value;
      if r.rationaleMethod.Some? then
        Step(s1, NotifyListener(s1.listener, Rationale, s1.request))
      else
        Step(s1, AlertIfActivity(device, RationaleAlert(r)))
    else
      CleanStep(s1)
  }

  /** handlePermissionResult(permissions, grantResults). */
  function ResultStep(s: State, permissions: seq<Permission>, grants: seq<int>, device: Device): (r: Step)
    ensures |permissions| == 0 ==> r == Step(s, [])
    ensures s.request.None? ==> r.state == s
    ensures r.state == State(None, None) || r.state.listener == s.listener
    ensures (exists e :: e in r.effects && e.Notify? && e.what == Granted) ==> AllHeld(device, permissions)
  {
    if |permissions| == 0 then Step(s, [])
    else if AllHeld(device, permissions) then
      var s1 := s.(request := WithDenied(s.request, []));
      var cleaned := CleanStep(s1);
      Step(cleaned.state, NotifyListener(s1.listener, Granted, s1.request) + cleaned.effects)
    else
      DeniedStep(s, permissions, grants, device)
  }

  /** The grant results rebuilt on return from the settings screen. */
  function GrantResults(permissions: seq<Permission>, device: Device): (g: seq<int>)
    ensures |g| == |permissions|
    ensures forall i :: 0 <= i < |g| ==>
      (g[i] == PermissionGranted <==> device.hasContext && permissions[i] in device.held)
    ensures forall i :: 0 <= i < |g| ==> g[i] in {PermissionGranted, PermissionDenied}
  {
    seq(|permissions|, i requires 0 <= i < |permissions| =>
      if device.hasContext && permissions[i] in device.held then PermissionGranted else PermissionDenied)
  }

  /** onActivityResult(requestCode, ...). */
  function ActivityResultStep(s: State, requestCode: int, device: Device): (r: Step)
    ensures requestCode != PermissionsRequestCode || s.request.None? ==> r == Step(s, [])
  {
    if requestCode != PermissionsRequestCode then Step(s, [])
    else
      var permissions := if s.request.Some? then s.request.value.permissions else [];
      ResultStep(s, permissions, GrantResults(permissions, device), device)
  }

  // ---------------------------------------------------------------------
  // Properties of the flow

  /** clean() on a pending request notifies "denied" exactly when the denied
      list is non-empty (and a listener is set), then drops both. */
  lemma CleanEndsFlow(s: State)
    requires s.request.Some?
    ensures CleanStep(s).state == State(None, None)
    ensures (exists e :: e in CleanStep(s).effects && e.Notify? && e.what == Denied)
        <==> |s.request.value.deniedPermissions| > 0 && s.listener.Some?
    ensures |CleanStep(s).effects| <= 1
    ensures CleanStep(s).effects ==
      if |s.request.value.deniedPermissions| > 0 then NotifyListener(s.listener, Denied, s.request) else []
  {
    if |s.request.value.deniedPermissions| > 0 && s.listener.Some? {
      assert CleanStep(s).effects[0] == Notify(s.listener.value, Denied, s.request);
    }
  }

  /** A second clean() does nothing. */
  lemma CleanIdempotent(s: State)
    ensures var t := CleanStep(s).state; CleanStep(t) == Step(t, [])
  {
  }

  /** Once the request is gone, clean(), requestPermissionsFromUser(),
      openAppSettings() and onActivityResult() neither notify nor launch
      anything, and leave the state as it is. */
  lemma FinishedRequestIsInert(s: State, requestCode: int, device: Device)
    requires s.request.None?
    ensures CleanStep(s) == Step(s, [])
    ensures RequestStep(s) == [] && OpenSettingsStep(s) == []
    ensures ActivityResultStep(s, requestCode, device) == Step(s, [])
  {
  }

  /** After the flow has ended (request and listener both cleared) a late
      permission result changes nothing either. */
  lemma FinishedFlowIgnoresResults(s: State, permissions: seq<Permission>, grants: seq<int>, device: Device)
    requires s == State(None, None)
    ensures ResultStep(s, permissions, grants, device) == Step(s, [])
  {
  }

  /** A result with no permissions is discarded. */
  lemma EmptyResultIgnored(s: State, grants: seq<int>, device: Device)
    ensures ResultStep(s, [], grants, device) == Step(s, [])
  {
  }

  /** When every permission is held: the denied list is emptied, "granted" is
      notified, the flow is cleaned, and "denied" is never notified. */
  lemma GrantedPath(s: State, permissions: seq<Permission>, grants: seq<int>, device: Device)
    requires |permissions| > 0 && AllHeld(device, permissions)
    ensures var step := ResultStep(s, permissions, grants, device);
      && step.effects == NotifyListener(s.listener, Granted, WithDenied(s.request, []))
      && (s.request.Some? ==> step.state == State(None, None))
      && (s.request.None? ==> step.state == s)
      && forall e :: e in step.effects ==> e.Notify? && e.what == Granted
  {
  }

  /** The permanently-denied branch wins over the rationale branch; with a
      custom hook only the listener is told, and no dialog is shown. */
  lemma PermanentBranchFirst(s: State, permissions: seq<Permission>, grants: seq<int>, device: Device)
    requires |permissions| > 0 && !AllHeld(device, permissions)
    requires s.request.Some? && s.request.value.handlePermanentlyDenied
    requires SomeLacksRationale(DeniedPermissions(permissions, grants), device)
    ensures var step := ResultStep(s, permissions, grants, device);
      var denied := DeniedPermissions(permissions, grants);
      && step.state.listener == s.listener
      && step.state.request.Some?
      && step.state.request.value.deniedPermissions == denied
      && (forall e :: e in step.effects ==> !(e.Notify? && e.what in {Rationale, Denied}))
      && (s.request.value.permanentDeniedMethod.Some? ==>
            && step.state.request == Some(s.request.value.(deniedPermissions := denied,
                 permanentlyDeniedPermissions := PermanentlyDeniedPermissions(permissions, grants, device)))
            && step.effects == NotifyListener(s.listener, PermanentlyDenied, step.state.request))
      && (s.request.value.permanentDeniedMethod.None? ==>
            && step.state.request == Some(s.request.value.(deniedPermissions := denied))
            && step.effects == AlertIfActivity(device, PermanentlyDeniedAlert(step.state.request.value)))
  {
  }

  /** The rationale branch: taken when rationale handling is on, no denied
      permission lacks a rationale, and the permanent branch does not apply. */
  lemma RationaleBranch(s: State, permissions: seq<Permission>, grants: seq<int>, device: Device)
    requires |permissions| > 0 && !AllHeld(device, permissions)
    requires s.request.Some? && s.request.value.handleRationale
    requires !SomeLacksRationale(DeniedPermissions(permissions, grants), device)
    ensures var step := ResultStep(s, permissions, grants, device);
      && step.state == s.(request := WithDenied(s.request, DeniedPermissions(permissions, grants)))
      && (s.request.value.rationaleMethod.Some? ==>
            step.effects == NotifyListener(s.listener, Rationale, step.state.request))
      && (s.request.value.rationaleMethod.None? ==>
            step.effects == AlertIfActivity(device, RationaleAlert(step.state.request.value)))
  {
  }

  /** When neither branch applies the flow ends through clean(), which
      notifies "denied" exactly when something was denied. */
  lemma FallbackCleans(s: State, permissions: seq<Permission>, grants: seq<int>, device: Device)
    requires |permissions| > 0 && !AllHeld(device, permissions)
    requires !TakesPermanentBranch(s.request, DeniedPermissions(permissions, grants), device)
    requires !TakesRationaleBranch(s.request, DeniedPermissions(permissions, grants), device)
    ensures var step := ResultStep(s, permissions, grants, device);
      var denied := DeniedPermissions(permissions, grants);
      && (s.request.Some? ==> step.state == State(None, None))
      && step.effects ==
           (if s.request.Some? && |denied| > 0
            then NotifyListener(s.listener, Denied, WithDenied(s.request, denied))
            else [])
  {
  }

  /** onActivityResult reacts to request code 199 only, and then re-reads the
      grants of the stored permissions (all denied without a context). */
  lemma ActivityResultRechecks(s: State, requestCode: int, device: Device)
    ensures requestCode != PermissionsRequestCode ==> ActivityResultStep(s, requestCode, device) == Step(s, [])
    ensures requestCode == PermissionsRequestCode && s.request.Some? ==>
      ActivityResultStep(s, requestCode, device)
        == ResultStep(s, s.request.value.permissions, GrantResults(s.request.value.permissions, device), device)
    ensures forall ps: seq<Permission> :: !device.hasContext ==>
      GrantResults(ps, device) == seq(|ps|, i => PermissionDenied)
  {
  }

  // ---------------------------------------------------------------------
  // The loop that decides between rationale and permanent denial.

  /** The `for` loop with `break` over the denied permissions. */
  method ScanRationale(denied: seq<Permission>, device: Device) returns (shouldShowRationale: bool, isPermanentlyDenied: bool)
    ensures isPermanentlyDenied == SomeLacksRationale(denied, device)
    ensures shouldShowRationale == !isPermanentlyDenied
  {
    shouldShowRationale := true;
    isPermanentlyDenied := false;
    var i := 0;
    while i < |denied|
      invariant 0 <= i <= |denied|
      invariant shouldShowRationale && !isPermanentlyDenied
      invariant forall k :: 0 <= k < i ==> denied[k] in device.rationale
    {
      var rationale := denied[i] in device.rationale;
      if !rationale {
        shouldShowRationale := false;
        isPermanentlyDenied := true;
        break;
      }
      i := i + 1;
    }
  }

  // ---------------------------------------------------------------------
  // The fragment itself

  class PermissionCheckerFragment {
    var easyPermissionsRequest: Option<Request>
    var mListener: Option<Listener>

    function Snapshot(): State
      reads this
    {
      State(easyPermissionsRequest, mListener)
    }

    constructor ()
      ensures Snapshot() == State(None, None)
    {
      easyPermissionsRequest := None;
      mListener := None;
    }

    method SetListener(listener: Listener)
      modifies this
      ensures Snapshot() == old(Snapshot()).(listener := Some(listener))
    {
      mListener := Some(listener);
    }

    method SetRequestPermissionsRequest(request: Option<Request>)
      modifies this
      ensures Snapshot() == old(Snapshot()).(request := request)
    {
      easyPermissionsRequest := request;
    }

    method Clean() returns (effects: seq<Effect>)
      modifies this
      ensures Step(Snapshot(), effects) == CleanStep(old(Snapshot()))
    {
      effects := [];
      if easyPermissionsRequest.Some? {
        if |easyPermissionsRequest.value.deniedPermissions| > 0 {
          effects := NotifyListener(mListener, Denied, easyPermissionsRequest);
        }
        easyPermissionsRequest := None;
        mListener := None;
      }
    }

    method RequestPermissionsFromUser() returns (effects: seq<Effect>)
      ensures effects == RequestStep(Snapshot())
      ensures effects != [] <==> easyPermissionsRequest.Some?
    {
      effects := [];
      if easyPermissionsRequest.Some? {
        effects := [RequestPermissions(easyPermissionsRequest.value.permissions, PermissionsRequestCode)];
      }
    }

    method OpenAppSettings() returns (effects: seq<Effect>)
      ensures effects == OpenSettingsStep(Snapshot())
      ensures effects != [] <==> easyPermissionsRequest.Some?
    {
      effects := [];
      if easyPermissionsRequest.Some? {
        effects := [StartAppSettingsForResult(PermissionsRequestCode)];
      }
    }

    /** onRequestPermissionsResult forwards here whatever its request code. */
    method HandlePermissionResult(permissions: seq<Permission>, grantResults: seq<int>, device: Device)
      returns (effects: seq<Effect>)
      modifies this
      ensures Step(Snapshot(), effects) == ResultStep(old(Snapshot()), permissions, grantResults, device)
    {
      if |permissions| == 0 {
        effects := [];
        return;
      }
      if AllHeld(device, permissions) {
        easyPermissionsRequest := WithDenied(easyPermissionsRequest, []);
        effects := NotifyListener(mListener, Granted, easyPermissionsRequest);
        var cleaned := Clean();
        effects := effects + cleaned;
      } else {
        var deniedPermissions := DeniedPermissions(permissions, grantResults);
        easyPermissionsRequest := WithDenied(easyPermissionsRequest, deniedPermissions);
        var shouldShowRationale, isPermanentlyDenied := ScanRationale(deniedPermissions, device);
        if easyPermissionsRequest.Some? && easyPermissionsRequest.value.handlePermanentlyDenied && isPermanentlyDenied {
          if easyPermissionsRequest.value.permanentDeniedMethod.Some? {
            easyPermissionsRequest := Some(easyPermissionsRequest.value.(permanentlyDeniedPermissions :=
              PermanentlyDeniedPermissions(permissions, grantResults, device)));
            effects := NotifyListener(mListener, PermanentlyDenied, easyPermissionsRequest);
            return;
          }
          effects := AlertIfActivity(device, PermanentlyDeniedAlert(easyPermissionsRequest.value));
          return;
        }
        if easyPermissionsRequest.Some? && easyPermissionsRequest.value.handleRationale && shouldShowRationale {
          if easyPermissionsRequest.value.rationaleMethod.Some? {
            effects := NotifyListener(mListener, Rationale, easyPermissionsRequest);
            return;
          }
          effects := AlertIfActivity(device, RationaleAlert(easyPermissionsRequest.value));
          return;
        }
        effects := Clean();
      }
    }

    method OnActivityResult(requestCode: int, device: Device) returns (effects: seq<Effect>)
      modifies this
      ensures Step(Snapshot(), effects) == ActivityResultStep(old(Snapshot()), requestCode, device)
    {
      if requestCode != PermissionsRequestCode {
        effects := [];
        return;
      }
      var permissions := if easyPermissionsRequest.Some? then easyPermissionsRequest.value.permissions else [];
      var grantResults := new int[|permissions|];
      for index := 0 to |permissions|
        modifies grantResults
        invariant forall k :: 0 <= k < index ==> grantResults[k] == GrantResults(permissions, device)[k]
      {
        grantResults[index] :=
          if device.hasContext && permissions[index] in device.held then PermissionGranted else PermissionDenied;
      }
      assert grantResults[..] == GrantResults(permissions, device);
      effects := HandlePermissionResult(permissions, grantResults[..], device);
    }
  }
}
