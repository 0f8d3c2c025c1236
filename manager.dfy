/** The entry point runWithPermissions (PermissionsManager.kt): decide whether
    the callback can run at once, otherwise configure a request and start the
    flow of the helper fragment; plus the listener it installs there. */
module Manager {
  import opened Base
  import opened Requests
  import opened Effects
  import opened RequestFlow

  /** What `runWithPermissions` was called on. */
  datatype Target =
    | AppCompatActivity
    | SupportFragment
    | OtherObject(canonicalName: string)
    | NullTarget

  predicate Supported(target: Target) {
    target.AppCompatActivity? || target.SupportFragment?
  }

  const UnsupportedSuffix := " : No support from any classes other than AppCompatActivity/Fragment"

  /** The exception an unsupported target raises: `target!!` fails first on null;
      otherwise the message names the target's class. */
  function UnsupportedTargetError(target: Target): (e: Exception)
    requires !Supported(target)
    ensures e.NullPointer? <==> target.NullTarget?
    ensures !target.NullTarget? ==> e == IllegalState("Found " + target.canonicalName + UnsupportedSuffix)
  {
    if target.NullTarget? then NullPointer
    else IllegalState("Found " + target.canonicalName + UnsupportedSuffix)
  }

  /** A message option: a blank one is replaced by the default text. */
  function MessageOrDefault(message: string, default: string): string {
    if IsBlank(message) then default else message
  }

  /** `r` is the request runWithPermissions builds for `permissions` and `options`. */
  predicate ConfiguredFrom(r: Request, permissions: seq<Permission>, options: Options) {
    && r.permissions == permissions
    && r.deniedPermissions == [] && r.permanentlyDeniedPermissions == []
    && r.handleRationale == options.handleRationale
    && r.handlePermanentlyDenied == options.handlePermanentlyDenied
    && r.rationaleMessage == MessageOrDefault(options.rationaleMessage, DefaultRationaleMessage)
    && r.permanentlyDeniedMessage == MessageOrDefault(options.permanentlyDeniedMessage, DefaultPermanentlyDeniedMessage)
    && r.rationaleMethod == options.rationaleMethod
    && r.permanentDeniedMethod == options.permanentDeniedMethod
    && r.permissionsDeniedMethod == options.permissionsDeniedMethod
  }

  /** A configured request never carries a blank message, and a message that
      was not blank is kept as the caller wrote it. */
  lemma ConfiguredMessages(r: Request, permissions: seq<Permission>, options: Options)
    requires ConfiguredFrom(r, permissions, options)
    ensures !IsBlank(r.rationaleMessage) && !IsBlank(r.permanentlyDeniedMessage)
    ensures !IsBlank(options.rationaleMessage) ==> r.rationaleMessage == options.rationaleMessage
    ensures !IsBlank(options.permanentlyDeniedMessage) ==> r.permanentlyDeniedMessage == options.permanentlyDeniedMessage
    ensures IsBlank(options.rationaleMessage) ==> r.rationaleMessage == DefaultRationaleMessage
    ensures IsBlank(options.permanentlyDeniedMessage) ==> r.permanentlyDeniedMessage == DefaultPermanentlyDeniedMessage
  {
    DefaultMessagesNotBlank();
  }

  /** Create the request and copy the options into it, field by field. */
  method BuildRequest(permissions: seq<Permission>, options: Options) returns (permissionRequest: Request)
    ensures ConfiguredFrom(permissionRequest, permissions, options)
  {
    permissionRequest := NewRequest(permissions);
    permissionRequest := permissionRequest.(handleRationale := options.handleRationale);
    permissionRequest := permissionRequest.(handlePermanentlyDenied := options.handlePermanentlyDenied);
    permissionRequest := permissionRequest.(rationaleMessage :=
      if IsBlank(options.rationaleMessage) then DefaultRationaleMessage else options.rationaleMessage);
    permissionRequest := permissionRequest.(permanentlyDeniedMessage :=
      if IsBlank(options.permanentlyDeniedMessage) then DefaultPermanentlyDeniedMessage else options.permanentlyDeniedMessage);
    permissionRequest := permissionRequest.(rationaleMethod := options.rationaleMethod);
    permissionRequest := permissionRequest.(permanentDeniedMethod := options.permanentDeniedMethod);
    permissionRequest := permissionRequest.(permissionsDeniedMethod := options.permissionsDeniedMethod);
  }

  /** runWithPermissionsHandler. `checker` is the helper fragment found under
      its tag, or the new one added when there was none. */
  method RunWithPermissionsHandler(target: Target, permissions: seq<Permission>, callback: Callback,
                                   options: Options, checker: PermissionCheckerFragment, device: Device)
    returns (effects: seq<Effect>)
    modifies checker
    ensures !Supported(target) ==>
      effects == [Throw(UnsupportedTargetError(target))] && unchanged(checker)
    ensures Supported(target) && AllHeld(device, permissions) ==>
      effects == [Invoke(callback)] && unchanged(checker)
    ensures Supported(target) && !AllHeld(device, permissions) ==>
      && checker.mListener == Some(ManagerListener(callback))
      && checker.easyPermissionsRequest.Some?
      && ConfiguredFrom(checker.easyPermissionsRequest.value, permissions, options)
      && effects == [RequestPermissions(permissions, PermissionsRequestCode)]
  {
    if !Supported(target) {
      effects := [Throw(UnsupportedTargetError(target))];
      return;
    }
    if AllHeld(device, permissions) {
      effects := [Invoke(callback)];
      return;
    }
    checker.SetListener(ManagerListener(callback));
    var permissionRequest := BuildRequest(permissions, options);
    checker.SetRequestPermissionsRequest(Some(permissionRequest));
    effects := checker.RequestPermissionsFromUser();
  }

  // ---------------------------------------------------------------------
  // The listener runWithPermissions installs.

  /** `request?.hook?.invoke(request)`. */
  function RunHook(request: Option<Request>, hook: Option<Hook>): (r: seq<Effect>)
    ensures r != [] <==> request.Some? && hook.Some?
    ensures r != [] ==> r == [InvokeHook(hook.value, request.value)]
  {
    if request.Some? && hook.Some? then [InvokeHook(hook.value, request.value)] else []
  }

  /** What the installed listener does when the fragment notifies it. */
  function ListenerReaction(listener: Listener, what: Notification, request: Option<Request>): (r: seq<Effect>)
    ensures what == Granted ==> r == [Invoke(listener.callback)]
    ensures what != Granted ==> forall e :: e in r ==> e.InvokeHook?
    ensures |r| <= 1
    ensures what == Denied ==> (r ==
      if request.Some? && request.value.permissionsDeniedMethod.Some?
      then [InvokeHook(request.value.permissionsDeniedMethod.value, request.value)] else [])
    ensures what == Rationale ==> (r ==
      if request.Some? && request.value.rationaleMethod.Some?
      then [InvokeHook(request.value.rationaleMethod.value, request.value)] else [])
    ensures what == PermanentlyDenied ==> (r ==
      if request.Some? && request.value.permanentDeniedMethod.Some?
      then [InvokeHook(request.value.permanentDeniedMethod.value, request.value)] else [])
  {
    match what
    case Granted => [Invoke(listener.callback)]
    case Denied => RunHook(request, if request.Some? then request.value.permissionsDeniedMethod else None)
    case Rationale => RunHook(request, if request.Some? then request.value.rationaleMethod else None)
    case PermanentlyDenied => RunHook(request, if request.Some? then request.value.permanentDeniedMethod else None)
  }

  /** One effect, with a notification replaced by the listener's reaction. */
  function Reaction(e: Effect): seq<Effect> {
    if e.Notify? then ListenerReaction(e.listener, e.what, e.request) else [e]
  }

  /** The effects once every notification is replaced by the listener's reaction. */
  function Resolve(effects: seq<Effect>): (r: seq<Effect>)
    ensures forall e :: e in r ==> !e.Notify?
    ensures |r| <= |effects|
    ensures (forall e :: e in effects ==> !e.Notify?) ==> r == effects
    ensures |effects| == 1 ==> (r ==
      if effects[0].Notify? then ListenerReaction(effects[0].listener, effects[0].what, effects[0].request)
      else effects)
  {
    if |effects| == 0 then []
    else Reaction(effects[0]) + Resolve(effects[1..])
  }

  /** Resolving works effect by effect: resolving a concatenation resolves each part. */
  lemma {:induction false} ResolveAppend(a: seq<Effect>, b: seq<Effect>)
    ensures Resolve(a + b) == Resolve(a) + Resolve(b)
    decreases |a|
  {
    if |a| == 0 {
      assert a + b == b;
    } else {
      var ab := a + b;
      assert ab[0] == a[0] && ab[1..] == a[1..] + b;
      ResolveAppend(a[1..], b);
      calc {
        Resolve(ab);
        Reaction(a[0]) + Resolve(a[1..] + b);
        Reaction(a[0]) + (Resolve(a[1..]) + Resolve(b));
        (Reaction(a[0]) + Resolve(a[1..])) + Resolve(b);
        Resolve(a) + Resolve(b);
      }
    }
  }

  /** State of the helper fragment right after runWithPermissions started a flow. */
  predicate Started(s: State, callback: Callback, permissions: seq<Permission>, options: Options) {
    && s.listener == Some(ManagerListener(callback))
    && s.request.Some?
    && ConfiguredFrom(s.request.value, permissions, options)
  }

  /** A flow whose result grants everything runs the user callback exactly
      once, runs no hook, and ends. */
  lemma GrantedFlowRunsCallbackOnce(s: State, callback: Callback, permissions: seq<Permission>, options: Options,
                                    grants: seq<int>, device: Device)
    requires Started(s, callback, permissions, options)
    requires |permissions| > 0 && AllHeld(device, permissions)
    ensures Resolve(ResultStep(s, permissions, grants, device).effects) == [Invoke(callback)]
    ensures ResultStep(s, permissions, grants, device).state == State(None, None)
  {
    var step := ResultStep(s, permissions, grants, device);
    GrantedPath(s, permissions, grants, device);
    assert step.effects == [Notify(ManagerListener(callback), Granted, WithDenied(s.request, []))];
    assert Resolve(step.effects) == ListenerReaction(ManagerListener(callback), Granted, WithDenied(s.request, [])) + Resolve([]);
  }

  /** A flow that falls through both dialogs runs the caller's "denied" hook,
      and only when something was denied and the hook is set. */
  lemma DeniedFlowRunsDeniedHook(s: State, callback: Callback, permissions: seq<Permission>, options: Options,
                                 grants: seq<int>, device: Device)
    requires Started(s, callback, permissions, options)
    requires |permissions| > 0 && !AllHeld(device, permissions)
    requires !options.handlePermanentlyDenied && !options.handleRationale
    ensures var denied := DeniedPermissions(permissions, grants);
      Resolve(ResultStep(s, permissions, grants, device).effects)
        == if |denied| > 0 && options.permissionsDeniedMethod.Some?
           then [InvokeHook(options.permissionsDeniedMethod.value, s.request.value.(deniedPermissions := denied))]
           else []
    ensures ResultStep(s, permissions, grants, device).state == State(None, None)
  {
    var denied := DeniedPermissions(permissions, grants);
    var step := ResultStep(s, permissions, grants, device);
    FallbackCleans(s, permissions, grants, device);
    if |denied| > 0 {
      var e := Notify(ManagerListener(callback), Denied, WithDenied(s.request, denied));
      assert step.effects == [e];
      assert Resolve(step.effects) == ListenerReaction(e.listener, e.what, e.request) + Resolve([]);
    }
  }

  /** A flow that stops at the rationale branch with a custom hook runs that
      hook once, on the request that now records the denied permissions. */
  lemma RationaleFlowRunsRationaleHook(s: State, callback: Callback, permissions: seq<Permission>, options: Options,
                                       grants: seq<int>, device: Device)
    requires Started(s, callback, permissions, options)
    requires |permissions| > 0 && !AllHeld(device, permissions)
    requires options.handleRationale && options.rationaleMethod.Some?
    requires !SomeLacksRationale(DeniedPermissions(permissions, grants), device)
    ensures Resolve(ResultStep(s, permissions, grants, device).effects)
      == [InvokeHook(options.rationaleMethod.value,
                     s.request.value.(deniedPermissions := DeniedPermissions(permissions, grants)))]
    ensures ResultStep(s, permissions, grants, device).state.request.Some?
  {
    RationaleBranch(s, permissions, grants, device);
    var step := ResultStep(s, permissions, grants, device);
    var e := Notify(ManagerListener(callback), Rationale, step.state.request);
    assert step.effects == [e];
    assert Resolve(step.effects) == ListenerReaction(e.listener, e.what, e.request) + Resolve([]);
  }

  /** A flow that stops at the permanently-denied branch with a custom hook
      runs that hook once, on the request that records both denied lists. */
  lemma PermanentFlowRunsPermanentHook(s: State, callback: Callback, permissions: seq<Permission>, options: Options,
                                       grants: seq<int>, device: Device)
    requires Started(s, callback, permissions, options)
    requires |permissions| > 0 && !AllHeld(device, permissions)
    requires options.handlePermanentlyDenied && options.permanentDeniedMethod.Some?
    requires SomeLacksRationale(DeniedPermissions(permissions, grants), device)
    ensures Resolve(ResultStep(s, permissions, grants, device).effects)
      == [InvokeHook(options.permanentDeniedMethod.value,
                     s.request.value.(deniedPermissions := DeniedPermissions(permissions, grants),
                                      permanentlyDeniedPermissions := PermanentlyDeniedPermissions(permissions, grants, device)))]
  {
    PermanentBranchFirst(s, permissions, grants, device);
    var step := ResultStep(s, permissions, grants, device);
    var e := Notify(ManagerListener(callback), PermanentlyDenied, step.state.request);
    assert step.effects == [e];
    assert Resolve(step.effects) == ListenerReaction(e.listener, e.what, e.request) + Resolve([]);
  }
}
