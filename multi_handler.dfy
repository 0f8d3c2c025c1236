/** Several runtime permissions asked at once through the activity-result API
    (PermissionMultiHandler.kt). */
module MultiHandler {
  import opened Base
  import opened Effects

  /** The permissions of a result map, in order. */
  function Keys(results: seq<(Permission, bool)>): (ks: seq<Permission>)
    ensures |ks| == |results|
    ensures forall i :: 0 <= i < |ks| ==> ks[i] == results[i].0
  {
    seq(|results|, i requires 0 <= i < |results| => results[i].0)
  }

  /** `maps.filter { !it.value }.map { label(it.key) }`. */
  function DeniedLabels(results: seq<(Permission, bool)>, device: Device): (r: seq<string>)
    ensures |r| <= |results|
  {
    if |results| == 0 then []
    else (if results[0].1 then [] else [device.labelOf(results[0].0)]) + DeniedLabels(results[1..], device)
  }

  /** The labels are those of the refused entries, one each, in order: a
      label list is the labels of a sub-list of the results that holds
      exactly the refused ones. */
  lemma {:induction false} DeniedLabelsAreRefused(results: seq<(Permission, bool)>, device: Device)
    ensures |DeniedLabels(results, device)| == |Refused(results)|
    ensures forall k :: 0 <= k < |Refused(results)| ==>
      DeniedLabels(results, device)[k] == device.labelOf(Refused(results)[k].0)
    ensures forall e :: e in Refused(results) <==> e in results && !e.1
  {
    if |results| > 0 {
      DeniedLabelsAreRefused(results[1..], device);
      assert results == [results[0]] + results[1..];
    }
  }

  /** The refused entries of a result, in order. */
  function Refused(results: seq<(Permission, bool)>): seq<(Permission, bool)> {
    if |results| == 0 then []
    else (if results[0].1 then [] else [results[0]]) + Refused(results[1..])
  }

  /** Refused works entry by entry and keeps the order: one more entry at the
      end adds that entry at the end exactly when it was refused. */
  lemma {:induction false} RefusedAppend(results: seq<(Permission, bool)>, e: (Permission, bool))
    ensures Refused(results + [e]) == Refused(results) + (if e.1 then [] else [e])
    decreases |results|
  {
    if |results| == 0 {
      assert results + [e] == [e];
    } else {
      var re := results + [e];
      assert re[0] == results[0] && re[1..] == results[1..] + [e];
      RefusedAppend(results[1..], e);
    }
  }

  /** A result granting everything is labelled with nothing. */
  lemma {:induction false} AllGrantedNoLabels(results: seq<(Permission, bool)>, device: Device)
    requires forall i :: 0 <= i < |results| ==> results[i].1
    ensures DeniedLabels(results, device) == []
  {
    if |results| > 0 {
      AllGrantedNoLabels(results[1..], device);
    }
  }

  /** Labels of the stored permissions after a return from settings: the
      filter's predicate does not look at its element, so either every stored
      permission is labelled or none is. */
  function SettingsReturnLabels(permissions: seq<Permission>, device: Device): (r: seq<string>)
    ensures AllHeld(device, permissions) ==> r == []
    ensures !AllHeld(device, permissions) ==> |r| == |permissions|
    ensures forall i :: 0 <= i < |r| ==> r[i] == device.labelOf(permissions[i])
  {
    var keep := !AllHeld(device, permissions);
    seq(|if keep then permissions else []|, i requires 0 <= i < |if keep then permissions else []| =>
      device.labelOf(permissions[i]))
  }

  /** Concretely: of two permissions, one held, both are named in the dialog. */
  lemma SettingsReturnLabelsHeldToo(device: Device)
    requires "camera" in device.held && "mic" !in device.held
    ensures SettingsReturnLabels(["camera", "mic"], device) == [device.labelOf("camera"), device.labelOf("mic")]
  {
    assert !AllHeld(device, ["camera", "mic"]) by {
      assert ["camera", "mic"][1] == "mic";
    }
  }

  // The dialog texts; "let you" (sic) opens the denied dialog.
  const LetsYou := "This lets you "
  const LetYou := "This let you "
  const SettingsHint := "To enable this by click App Settings below and allow these permissions"
  const AllowHint := "Please allow these permissions to use this feature."

  /** The "allow in settings" dialog for several permissions. */
  function AllowInSettingsDialog(labels: string, forceGranted: bool): (d: Dialog)
    ensures d.title == "Permission Required"
    ensures d.positive == Button("App Settings", CallStartApplicationDetails)
    ensures d.negative == NegativeButton(forceGranted)
    ensures d.message == LetsYou + labels + "." + SettingsHint
  {
    Dialog("Permission Required",
           LetsYou + labels + "." + SettingsHint,
           Button("App Settings", CallStartApplicationDetails), NegativeButton(forceGranted))
  }

  /** The "denied, ask again" dialog; "Allow" asks again for the stored permissions. */
  function MultiplePermissionDeniedDialog(labels: string, permissions: seq<Permission>, forceGranted: bool): (d: Dialog)
    ensures d.positive == Button("Allow", CallLaunchMultiple(permissions))
    ensures d.negative == NegativeButton(forceGranted)
    ensures d.message == LetYou + labels + "." + AllowHint
  {
    Dialog("", LetYou + labels + "." + AllowHint,
           Button("Allow", CallLaunchMultiple(permissions)), NegativeButton(forceGranted))
  }

  class PermissionMultiHandler {
    const forceGranted: bool
    var multiplePermissionGranted: Option<Callback>
    var permissions: seq<Permission>

    constructor (forceGranted: bool)
      ensures this.forceGranted == forceGranted
      ensures multiplePermissionGranted == None && permissions == []
    {
      this.forceGranted := forceGranted;
      multiplePermissionGranted := None;
      permissions := [];
    }

    /** runMultiplePermission: replace the stored list and callback, then run
        the callback at once or ask the system for exactly these permissions. */
    method RunMultiplePermission(permissions: seq<Permission>, onGranted: Callback, device: Device)
      returns (effects: seq<Effect>)
      modifies this
      ensures this.permissions == permissions && multiplePermissionGranted == Some(onGranted)
      ensures AllHeld(device, permissions) ==> effects == [Invoke(onGranted)]
      ensures !AllHeld(device, permissions) ==> effects == [LaunchMultipleRequest(permissions)]
    {
      multiplePermissionGranted := Some(onGranted);
      this.permissions := [];
      this.permissions := this.permissions + permissions;
      if AllHeld(device, permissions) {
        effects := [Invoke(onGranted)];
      } else {
        effects := [LaunchMultipleRequest(permissions)];
      }
    }

    /** The result callback of the multiple-permissions launcher. */
    method OnPermissionsResult(results: seq<(Permission, bool)>, device: Device) returns (effects: seq<Effect>)
      ensures AllHeld(device, Keys(results)) ==> effects == InvokeIfSet(multiplePermissionGranted)
      ensures !AllHeld(device, Keys(results)) && SomeLacksRationale(permissions, device) ==>
        effects == [ShowDialog(AllowInSettingsDialog(Join(DeniedLabels(results, device), ", "), forceGranted))]
      ensures !AllHeld(device, Keys(results)) && !SomeLacksRationale(permissions, device) ==>
        effects == [ShowDialog(MultiplePermissionDeniedDialog(Join(DeniedLabels(results, device), ", "), permissions, forceGranted))]
    {
      var labels := Join(DeniedLabels(results, device), ", ");
      if AllHeld(device, Keys(results)) {
        effects := InvokeIfSet(multiplePermissionGranted);
      } else if SomeLacksRationale(permissions, device) {
        effects := [ShowDialog(AllowInSettingsDialog(labels, forceGranted))];
      } else {
        effects := [ShowDialog(MultiplePermissionDeniedDialog(labels, permissions, forceGranted))];
      }
    }

    /** The result callback of the application-settings launcher. */
    method OnSettingsResult(device: Device) returns (effects: seq<Effect>)
      ensures |permissions| == 0 ==> effects == []
      ensures |permissions| > 0 && AllHeld(device, permissions) ==> effects == InvokeIfSet(multiplePermissionGranted)
      ensures |permissions| > 0 && !AllHeld(device, permissions) ==>
        effects == [ShowDialog(AllowInSettingsDialog(Join(SettingsReturnLabels(permissions, device), ", "), forceGranted))]
    {
      if |permissions| == 0 {
        effects := [];
        return;
      }
      if !AllHeld(device, permissions) {
        effects := [ShowDialog(AllowInSettingsDialog(Join(SettingsReturnLabels(permissions, device), ", "), forceGranted))];
      } else {
        effects := InvokeIfSet(multiplePermissionGranted);
      }
    }
  }
}
