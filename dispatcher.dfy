/** The fragment behind the newer API (PermissionCheckerFragment.kt): it owns
    one handler of each kind and sends every request to one of them. */
module Dispatcher {
  import opened Base
  import opened Effects
  import opened SingleHandler
  import opened MultiHandler
  import opened GpsHandler

  class PermissionCheckerFragment {
    const forceGranted: bool
    const permissionSingleHandler: PermissionSingleHandler
    const permissionMultiHandler: PermissionMultiHandler
    const permissionGPSHandler: PermissionGPSHandler

    /** All three handlers share the fragment's forceGranted flag. */
    constructor (forceGranted: bool)
      ensures this.forceGranted == forceGranted
      ensures fresh(permissionSingleHandler) && fresh(permissionMultiHandler) && fresh(permissionGPSHandler)
      ensures permissionSingleHandler.forceGranted == forceGranted
      ensures permissionMultiHandler.forceGranted == forceGranted
      ensures permissionGPSHandler.forceGranted == forceGranted
      ensures permissionSingleHandler.permission == None && permissionSingleHandler.singlePermissionGranted == None
      ensures permissionMultiHandler.permissions == [] && permissionMultiHandler.multiplePermissionGranted == None
      ensures permissionGPSHandler.permissionGPSExecutor == None
    {
      this.forceGranted := forceGranted;
      permissionSingleHandler := new PermissionSingleHandler(forceGranted);
      permissionMultiHandler := new PermissionMultiHandler(forceGranted);
      permissionGPSHandler := new PermissionGPSHandler(forceGranted);
    }

    /** The no-argument constructor: nothing is forced. */
    constructor Default()
      ensures forceGranted == false
      ensures fresh(permissionSingleHandler) && fresh(permissionMultiHandler) && fresh(permissionGPSHandler)
      ensures !permissionSingleHandler.forceGranted && !permissionMultiHandler.forceGranted
      ensures !permissionGPSHandler.forceGranted
    {
      this.forceGranted := false;
      permissionSingleHandler := new PermissionSingleHandler(false);
      permissionMultiHandler := new PermissionMultiHandler(false);
      permissionGPSHandler := new PermissionGPSHandler(false);
    }

    /** Exactly one permission goes to the single handler; any other count,
        zero included, to the multi handler. */
    method RequestPermissionsFromUser(permissions: seq<Permission>, onGranted: Callback, device: Device)
      returns (effects: seq<Effect>)
      modifies permissionSingleHandler, permissionMultiHandler
      ensures |permissions| == 1 ==>
        && permissionSingleHandler.permission == Some(permissions[0])
        && permissionSingleHandler.singlePermissionGranted == Some(onGranted)
        && unchanged(permissionMultiHandler)
        && effects == (if permissions[0] in device.held then [Invoke(onGranted)]
                       else [LaunchSingleRequest(permissions[0])])
      ensures |permissions| != 1 ==>
        && permissionMultiHandler.permissions == permissions
        && permissionMultiHandler.multiplePermissionGranted == Some(onGranted)
        && unchanged(permissionSingleHandler)
        && effects == (if AllHeld(device, permissions) then [Invoke(onGranted)]
                       else [LaunchMultipleRequest(permissions)])
    {
      if |permissions| == 1 {
        effects := permissionSingleHandler.RunSinglePermission(permissions[0], onGranted, device);
      } else {
        effects := permissionMultiHandler.RunMultiplePermission(permissions, onGranted, device);
      }
    }

    /** A location request goes unchanged to the GPS handler. */
    method RequestPermissionGPSFromUser(onGranted: Callback, device: Device) returns (effects: seq<Effect>)
      modifies permissionGPSHandler
      ensures permissionGPSHandler.permissionGPSExecutor == Some(onGranted)
      ensures effects == (if IsLocationEnabled(device) then [Invoke(onGranted)]
                          else [LaunchLocationSettings])
    {
      effects := permissionGPSHandler.RunGPSPermission(onGranted, device);
    }
  }
}
