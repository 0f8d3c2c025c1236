/** Location services: run the code when GPS or network location is on,
    otherwise send the user to the location settings (PermissionGPSHandler.kt). */
module GpsHandler {
  import opened Base
  import opened Effects

  const TurnOnGpsMessage := "Please turn on GPS to use this feature."

  /** The "turn on GPS" dialog; "Turn On" opens the location settings again. */
  function TurnOnGpsDialog(forceGranted: bool): (d: Dialog)
    ensures d.positive == Button("Turn On", CallLaunchLocationSettings)
    ensures d.negative == NegativeButton(forceGranted)
    ensures d.title == "Permission Required" && d.message == TurnOnGpsMessage
  {
    Dialog("Permission Required", TurnOnGpsMessage,
           Button("Turn On", CallLaunchLocationSettings), NegativeButton(forceGranted))
  }

  /** isLocationEnabled: the GPS provider or the network provider is on. */
  predicate IsLocationEnabled(device: Device) {
    device.gpsProvider || device.networkProvider
  }

  class PermissionGPSHandler {
    const forceGranted: bool
    var permissionGPSExecutor: Option<Callback>

    constructor (forceGranted: bool)
      ensures this.forceGranted == forceGranted && permissionGPSExecutor == None
    {
      this.forceGranted := forceGranted;
      permissionGPSExecutor := None;
    }

    /** runGPSPermission: remember the code, then run it or open the settings. */
    method RunGPSPermission(execute: Callback, device: Device) returns (effects: seq<Effect>)
      modifies this
      ensures permissionGPSExecutor == Some(execute)
      ensures IsLocationEnabled(device) ==> effects == [Invoke(execute)]
      ensures !IsLocationEnabled(device) ==> effects == [LaunchLocationSettings]
    {
      permissionGPSExecutor := Some(execute);
      if IsLocationEnabled(device) {
        effects := [Invoke(execute)];
      } else {
        effects := [LaunchLocationSettings];
      }
    }

    /** The result callback of the location-settings launcher. */
    method OnSettingsResult(device: Device) returns (effects: seq<Effect>)
      ensures IsLocationEnabled(device) ==> effects == InvokeIfSet(permissionGPSExecutor)
      ensures !IsLocationEnabled(device) ==> effects == [ShowDialog(TurnOnGpsDialog(forceGranted))]
    {
      if IsLocationEnabled(device) {
        effects := InvokeIfSet(permissionGPSExecutor);
      } else {
        effects := [ShowDialog(TurnOnGpsDialog(forceGranted))];
      }
    }
  }
}
