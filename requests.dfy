/** The options a caller passes in and the request record that tracks one
    permission flow (EasyPermissionsOptions and EasyPermissionsRequest). */
module Requests {
  import opened Base

  // The default messages, written in pieces so that the verifier sees their characters.
  const DefaultRationaleMessage: string :=
    "These permissions are required "
    + "to perform this feature. Please allow us to use this feature. "
  const DefaultPermanentlyDeniedMessage: string :=
    "Some permissions are "
    + "permanently denied which are required to perform this operation. "
    + "Please open app settings to grant these permissions."

  /** EasyPermissionsOptions; the hooks are the three optional lambdas. */
  datatype Options = Options(
    handleRationale: bool,
    rationaleMessage: string,
    handlePermanentlyDenied: bool,
    permanentlyDeniedMessage: string,
    rationaleMethod: Option<Hook>,
    permanentDeniedMethod: Option<Hook>,
    permissionsDeniedMethod: Option<Hook>)

  /** EasyPermissionsRequest, as a value. The class itself is not part of the
      model; the fields are the ones the flow reads and writes. */
  datatype Request = Request(
    permissions: seq<Permission>,
    deniedPermissions: seq<Permission>,
    permanentlyDeniedPermissions: seq<Permission>,
    handleRationale: bool,
    handlePermanentlyDenied: bool,
    rationaleMessage: string,
    permanentlyDeniedMessage: string,
    rationaleMethod: Option<Hook>,
    permanentDeniedMethod: Option<Hook>,
    permissionsDeniedMethod: Option<Hook>)

  /** A freshly constructed request for the given permissions: empty denied
      lists, the option defaults everywhere else (assumed). */
  function NewRequest(permissions: seq<Permission>): (r: Request)
    ensures r.permissions == permissions
    ensures r.deniedPermissions == [] && r.permanentlyDeniedPermissions == []
  {
    Request(permissions, [], [], true, true, "", "", None, None, None)
  }

  /** Kotlin's Char.isWhitespace: Java whitespace or a Unicode space separator. */
  predicate IsWhitespace(c: char) {
    || c == ' ' || c == '\t' || c == '\n' || c == '\r'
    || c == '\U{000B}' || c == '\U{000C}'
    || ('\U{001C}' <= c <= '\U{001F}')
    || c == '\U{00A0}' || c == '\U{1680}'
    || ('\U{2000}' <= c <= '\U{200A}')
    || c == '\U{2028}' || c == '\U{2029}'
    || c == '\U{202F}' || c == '\U{205F}' || c == '\U{3000}'
  }

  /** String.isBlank: empty, or whitespace only. */
  predicate IsBlank(s: string)
    ensures IsBlank(s) <==> forall c :: c in s ==> IsWhitespace(c)
  {
    forall i :: 0 <= i < |s| ==> IsWhitespace(s[i])
  }

  /** Neither default message is blank, so a defaulted message never is. */
  lemma DefaultMessagesNotBlank()
    ensures !IsBlank(DefaultRationaleMessage)
    ensures !IsBlank(DefaultPermanentlyDeniedMessage)
  {
    assert DefaultRationaleMessage[0] == 'T';
    assert DefaultPermanentlyDeniedMessage[0] == 'S';
  }
}
