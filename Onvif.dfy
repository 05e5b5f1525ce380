/**
 * The ONVIF device library as the PTZ wrappers see it.  Everything that goes
 * over SOAP is reduced to a few observable facts: whether an establishment
 * attempt yields a device, what identity string a device reports, which
 * profiles and which PTZ service it has, and whether the PTZ service accepts
 * commands.  A DeviceNetwork object stands for the cameras on the wire: it
 * answers establishment attempts and identity queries from scripts and
 * records the connect, identity, move and go-to-preset requests the
 * wrappers send.  It also carries the verdict of java.net.URL on a URL
 * string, whose parser is outside this model.
 */
module Onvif {

  datatype Option<+T> = None | Some(value: T) {
    function GetOr(default: T): T {
      match this
      case Some(v) => v
      case None => default
    }
  }

  /** The Java exceptions that reach the callers of the wrappers. */
  datatype Fault =
    | NullPointer          // a missing map entry or a null PTZ handle dereferenced
    | IndexOutOfBounds     // profiles.get(0) on a device without profiles
    | ConnectFailed        // SOAPException / IOException while establishing
    | MalformedUrl         // MalformedURLException (an IOException) from new URL(...)
    | DeviceFault          // the PTZ service answered a command with a fault

  /** A call that either returns a value or throws. */
  datatype Outcome<+T> = Returned(value: T) | Threw(fault: Fault)

  /** A media profile: its token and the stream URI getStreamUri reports for it. */
  datatype Profile = Profile(token: string, stream: string)

  /** A PTZ service handle: the presets getPresets lists and whether commands fault. */
  datatype PtzHandle = PtzHandle(id: nat, presets: seq<string>, rejectsCommands: bool)

  /** An established OnvifDevice: its profiles in list order and its PTZ service, if any. */
  datatype Device = Device(id: nat, profiles: seq<Profile>, ptz: Option<PtzHandle>)

  /** Vector2D of the ONVIF schema; a component is None until its setter is called. */
  datatype Vector2D = Vector2D(space: string, x: Option<real>, y: Option<real>)

  /** Vector1D of the ONVIF schema. */
  datatype Vector1D = Vector1D(space: string, x: Option<real>)

  /** PTZSpeed: a pan/tilt vector and a zoom vector. */
  datatype PtzSpeed = PtzSpeed(panTilt: Vector2D, zoom: Vector1D)

  /** The value put on the wire for a component: an unset float attribute is 0. */
  function Wire(c: Option<real>): real {
    c.GetOr(0.0)
  }

  /** A request sent to a camera. */
  datatype Request =
    | Connect(url: string, user: string, password: string)
    | GetDeviceInformation(device: Device)
    | ContinuousMove(ptz: PtzHandle, profileToken: string, speed: PtzSpeed, durationMs: int)
    | GotoPreset(ptz: PtzHandle, profileToken: string, preset: string, speed: PtzSpeed)

  /** The establishment request for an URL and credentials. */
  function Login(url: string, user: string, password: string): Request {
    Connect(url, user, password)
  }

  /** The credentials GetTestDevice.getOnvifCredentials derives from its input. */
  datatype Credentials = Credentials(host: string, user: string, password: string)

  /** The i-th reply of a connect script; past its end a camera is unreachable. */
  function Reply(connects: seq<Option<Device>>, i: nat): Option<Device> {
    if i < |connects| then connects[i] else None
  }

  /** The cameras reachable from the process, as scripted replies plus a request log. */
  class DeviceNetwork {
    const connects: seq<Option<Device>>   // replies to establishment attempts, in order
    const identities: seq<string>         // replies to device-information queries, in order
    const urlParses: string -> bool       // true when new URL(spec) returns instead of throwing
    var connectsUsed: nat                 // establishment attempts made so far
    var identitiesUsed: nat               // device-information queries made so far
    var sent: seq<Request>                // the requests sent so far, oldest first

    constructor (connects: seq<Option<Device>>, identities: seq<string>, urlParses: string -> bool)
      ensures this.connects == connects && this.identities == identities && this.urlParses == urlParses
      ensures connectsUsed == 0 && identitiesUsed == 0 && sent == []
    {
      this.connects := connects;
      this.identities := identities;
      this.urlParses := urlParses;
      connectsUsed, identitiesUsed := 0, 0;
      sent := [];
    }

    /** The reply to the k-th coming establishment attempt. */
    function Script(k: nat): Option<Device>
      reads this
    {
      Reply(connects, connectsUsed + k)
    }

    /** The next two replies, read off the script; callers deep in a proof use it to unfold Script. */
    lemma ScriptAhead()
      ensures Script(0) == Reply(connects, connectsUsed) && Script(1) == Reply(connects, connectsUsed + 1)
    {
    }

    /** The reply to the next device-information query; past the script a camera answers nothing. */
    function NextIdentity(): string
      reads this
    {
      if identitiesUsed < |identities| then identities[identitiesUsed] else ""
    }

    /** new OnvifDevice(url, user, password): None when the SOAP handshake fails. */
    method Connect(url: string, user: string, password: string) returns (d: Option<Device>)
      modifies this
      ensures d == old(Script(0))
      ensures connectsUsed == old(connectsUsed) + 1 && identitiesUsed == old(identitiesUsed)
      ensures sent == old(sent) + [Request.Connect(url, user, password)]
    {
      d := Script(0);
      connectsUsed := connectsUsed + 1;
      sent := sent + [Request.Connect(url, user, password)];
    }

    /** device.getDeviceInfo().toString() */
    method GetDeviceInformation(device: Device) returns (identity: string)
      modifies this
      ensures identity == old(NextIdentity())
      ensures identitiesUsed == old(identitiesUsed) + 1 && connectsUsed == old(connectsUsed)
      ensures sent == old(sent) + [Request.GetDeviceInformation(device)]
    {
      identity := NextIdentity();
      identitiesUsed := identitiesUsed + 1;
      sent := sent + [Request.GetDeviceInformation(device)];
    }

    /** ptz.continuousMove(profileToken, speed, timeout): false when the service faults. */
    method ContinuousMove(ptz: PtzHandle, profileToken: string, speed: PtzSpeed, durationMs: int)
      returns (ok: bool)
      modifies this
      ensures ok == !ptz.rejectsCommands
      ensures connectsUsed == old(connectsUsed) && identitiesUsed == old(identitiesUsed)
      ensures sent == old(sent) + [Request.ContinuousMove(ptz, profileToken, speed, durationMs)]
    {
      ok := !ptz.rejectsCommands;
      sent := sent + [Request.ContinuousMove(ptz, profileToken, speed, durationMs)];
    }

    /** ptz.gotoPreset(profileToken, preset, speed): false when the service faults. */
    method GotoPreset(ptz: PtzHandle, profileToken: string, preset: string, speed: PtzSpeed)
      returns (ok: bool)
      modifies this
      ensures ok == !ptz.rejectsCommands
      ensures connectsUsed == old(connectsUsed) && identitiesUsed == old(identitiesUsed)
      ensures sent == old(sent) + [Request.GotoPreset(ptz, profileToken, preset, speed)]
    {
      ok := !ptz.rejectsCommands;
      sent := sent + [Request.GotoPreset(ptz, profileToken, preset, speed)];
    }
  }
}
