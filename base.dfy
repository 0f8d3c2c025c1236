/** Values shared by the whole model: permission names, the user lambdas the
    library stores, and what the platform answers when the library asks it. */
module Base {

  datatype Option<+T> = None | Some(value: T)

  /** A runtime permission, named by its manifest string
      (for instance "android.permission.CAMERA"). */
  type Permission = string

  /** A user lambda of type () -> Unit; only its identity matters. */
  datatype Callback = Callback(id: nat)

  /** A user lambda of type (EasyPermissionsRequest) -> Unit. */
  datatype Hook = Hook(id: nat)

  /** The platform as the library sees it at the moment it asks. */
  datatype Device = Device(
    held: set<Permission>,        // checkSelfPermission answers PERMISSION_GRANTED
    rationale: set<Permission>,   // shouldShowRequestPermissionRationale answers true
    gpsProvider: bool,            // LocationManager.GPS_PROVIDER is enabled
    networkProvider: bool,        // LocationManager.NETWORK_PROVIDER is enabled
    hasActivity: bool,            // the fragment's activity is not null
    hasContext: bool,             // the fragment's context is not null
    labelOf: Permission -> string)  // the permission's label resource, as text

  /** hasSelfPermission over a list: every listed permission is held.
      (The helper that answers this is not part of the model; this is the
      behaviour the model assumes of it.) */
  predicate AllHeld(device: Device, ps: seq<Permission>) {
    forall i :: 0 <= i < |ps| ==> ps[i] in device.held
  }

  /** Some listed permission would get no rationale: the user ticked "don't ask again". */
  predicate SomeLacksRationale(ps: seq<Permission>, device: Device) {
    exists i :: 0 <= i < |ps| && ps[i] !in device.rationale
  }
}
