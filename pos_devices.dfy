/**
  The POS devices page: registering a device (with a freshly generated API
  token), deleting one, and showing a token only by its first characters.

  The random token generator, the clock behind device ids and creation
  times, the confirmation dialog and the clipboard are not part of this
  model: the token, the id, the creation time and the user's answer are
  parameters.
*/
module PosDevices {
  import opened Wrappers
  import opened Text
  import Seqs

  datatype PosDevice = PosDevice(
    id: int,
    deviceName: string,
    apiToken: string,
    isActive: bool,
    lastUsedAt: Option<string>,
    createdAt: string)

  /** The test `d.id !== id`, as a function value. */
  function OtherThan(id: int): PosDevice -> bool
  {
    (d: PosDevice) => d.id != id
  }

  /** `devices.filter(d => d.id !== id)`. */
  function WithoutDevice(devices: seq<PosDevice>, id: int): (kept: seq<PosDevice>)
    ensures Seqs.IsSubsequence(kept, devices)
    ensures forall d :: multiset(kept)[d] == if d.id != id then multiset(devices)[d] else 0
  {
    Seqs.FilterIsSubsequence(devices, OtherThan(id));
    Seqs.FilterMultiset(devices, OtherThan(id));
    Seqs.Filter(devices, OtherThan(id))
  }

  /** Deleting removes every device with that id and keeps every other one. */
  lemma WithoutDeviceExact(devices: seq<PosDevice>, id: int)
    ensures forall d :: d in WithoutDevice(devices, id) <==> d in devices && d.id != id
  {
    Seqs.FilterMembers(devices, OtherThan(id));
  }

  /** How many characters of a token the page shows. */
  const PreviewLength: nat := 8

  /** `token.substring(0, 8)`. */
  function TokenPreview(token: string): (shown: string)
    ensures |shown| <= PreviewLength
    ensures StartsWith(token, shown)
    ensures |token| <= PreviewLength ==> shown == token
    ensures |token| > PreviewLength ==> |shown| == PreviewLength
  {
    if |token| <= PreviewLength then token else token[..PreviewLength]
  }

  class DevicesPage {
    var devices: seq<PosDevice>
    /** The name field of the new-device form. */
    var newDeviceName: string
    /** The token of the device created last, shown once; None before any. */
    var newToken: Option<string>
    var loading: bool

    constructor ()
      ensures devices == [] && newDeviceName == "" && newToken == None && !loading
    {
      devices := [];
      newDeviceName := "";
      newToken := None;
      loading := false;
    }

    /**
      `handleCreateDevice`: a name that is empty or all white space is
      refused and nothing changes; otherwise one active, never used device
      with the typed name and `token` is appended, its token is shown, the
      name field is cleared and loading ends.
    */
    method CreateDevice(token: string, id: int, createdAt: string) returns (created: bool)
      modifies this
      ensures created <==> Trim(old(newDeviceName)) != ""
      ensures !created ==>
        devices == old(devices) && newDeviceName == old(newDeviceName)
        && newToken == old(newToken) && loading == old(loading)
      ensures created ==>
        devices == old(devices) + [PosDevice(id, old(newDeviceName), token, true, None, createdAt)]
        && newToken == Some(token) && newDeviceName == "" && !loading
    {
      if Trim(newDeviceName) == "" {
        return false;
      }
      loading := true;
      var device := PosDevice(id, newDeviceName, token, true, None, createdAt);
      devices := devices + [device];
      newToken := Some(token);
      newDeviceName := "";
      loading := false;
      created := true;
    }

    /** `handleDeleteDevice`: when the user confirms, drop every device with that id. */
    method DeleteDevice(id: int, confirmed: bool)
      modifies this
      ensures confirmed ==> devices == WithoutDevice(old(devices), id)
      ensures !confirmed ==> devices == old(devices)
      ensures newDeviceName == old(newDeviceName) && newToken == old(newToken) && loading == old(loading)
    {
      if !confirmed {
        return;
      }
      devices := WithoutDevice(devices, id);
    }
  }
}
