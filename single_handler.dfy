/** One runtime permission asked through the activity-result API
    (PermissionSingleHandler.kt). */
module SingleHandler {
  import opened Base
  import opened Effects

  // The dialog texts.
  const LetsYou := "This lets you "
  const SettingsHint := "To enable this by click App Settings below and allow this permission"
  const AllowHint := "Please allow this permission to use this feature."

  /** The "allow in settings" dialog for one permission. */
  function AllowInSettingsDialog(permLabel: string, forceGranted: bool): (d: Dialog)
    ensures d.positive == Button("App Setting", CallStartApplicationDetails)
    ensures d.negative == NegativeButton(forceGranted)
    ensures d.message == LetsYou + permLabel + "." + SettingsHint
  {
    Dialog("", LetsYou + permLabel + "." + SettingsHint,
           Button("App Setting", CallStartApplicationDetails), NegativeButton(forceGranted))
  }

  /** The "denied, ask again" dialog for one permission. */
  function PermissionDeniedDialog(permission: Permission, permLabel: string, forceGranted: bool): (d: Dialog)
    ensures d.positive == Button("Allow", CallLaunchSingle(permission))
    ensures d.negative == NegativeButton(forceGranted)
    ensures d.title == "Permission Required"
  {
    Dialog("Permission Required", LetsYou + permLabel + "." + AllowHint,
           Button("Allow", CallLaunchSingle(permission)), NegativeButton(forceGranted))
  }

  /** showDialogRequestPermission(permission): nothing for a null permission. */
  function RequestPermissionDialog(permission: Option<Permission>, device: Device, forceGranted: bool): (d: Option<Dialog>)
    ensures d.None? <==> permission.None?
    ensures permission.Some? ==> d.value == AllowInSettingsDialog(device.labelOf(permission.value), forceGranted)
  {
    if permission.None? then None
    else Some(AllowInSettingsDialog(device.labelOf(permission.value), forceGranted))
  }

  class PermissionSingleHandler {
    const forceGranted: bool
    var singlePermissionGranted: Option<Callback>
    var permission: Option<Permission>

    constructor (forceGranted: bool)
      ensures this.forceGranted == forceGranted
      ensures singlePermissionGranted == None && permission == None
    {
      this.forceGranted := forceGranted;
      singlePermissionGranted := None;
      permission := None;
    }

    /** runSinglePermission: remember the permission and callback, then run
        the callback at once or ask the system. */
    method RunSinglePermission(permission: Permission, onGranted: Callback, device: Device)
      returns (effects: seq<Effect>)
      modifies this
      ensures this.permission == Some(permission) && singlePermissionGranted == Some(onGranted)
      ensures permission in device.held ==> effects == [Invoke(onGranted)]
      ensures permission !in device.held ==> effects == [LaunchSingleRequest(permission)]
    {
      singlePermissionGranted := Some(onGranted);
      this.permission := Some(permission);
      if permission in device.held {
        effects := [Invoke(onGranted)];
      } else {
        effects := [LaunchSingleRequest(permission)];
      }
    }

    /** The result callback of the permission launcher. */
    method OnPermissionResult(isGranted: bool, device: Device) returns (effects: seq<Effect>)
      ensures permission.None? ==> effects == [Throw(NullPointer)]
      ensures permission.Some? && isGranted ==> effects == InvokeIfSet(singlePermissionGranted)
      ensures permission.Some? && !isGranted && permission.value !in device.rationale ==>
        effects == [ShowDialog(AllowInSettingsDialog(device.labelOf(permission.value), forceGranted))]
      ensures permission.Some? && !isGranted && permission.value in device.rationale ==>
        effects == [ShowDialog(PermissionDeniedDialog(permission.value, device.labelOf(permission.value), forceGranted))]
      ensures permission.Some? ==> (isGranted <==> forall e :: e in effects ==> e.Invoke?)
    {
      if permission.None? {
        effects := [Throw(NullPointer)];
        return;
      }
      var permLabel := device.labelOf(permission.value);
      if isGranted {
        effects := InvokeIfSet(singlePermissionGranted);
      } else if permission.value !in device.rationale {
        effects := [ShowDialog(AllowInSettingsDialog(permLabel, forceGranted))];
      } else {
        effects := [ShowDialog(PermissionDeniedDialog(permission.value, permLabel, forceGranted))];
      }
      if !isGranted {
        assert effects[0] in effects;
      }
    }

    /** The result callback of the application-settings launcher. */
    method OnSettingsResult(device: Device) returns (effects: seq<Effect>)
      ensures permission.None? ==> effects == []
      ensures permission.Some? && permission.value in device.held ==> effects == InvokeIfSet(singlePermissionGranted)
      ensures permission.Some? && permission.value !in device.held ==>
        effects == [ShowDialog(AllowInSettingsDialog(device.labelOf(permission.value), forceGranted))]
    {
      if permission.None? {
        effects := [];
        return;
      }
      if permission.value !in device.held {
        var dialog := RequestPermissionDialog(permission, device, forceGranted);
        effects := [ShowDialog(dialog.value)];
      } else {
        effects := InvokeIfSet(singlePermissionGranted);
      }
    }
  }
}
