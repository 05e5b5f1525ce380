/**
 * org.onvif.client.OperatingCamera, the test-tree copy of the wrapper: one
 * global session map instead of a per-host cache, the last credentials
 * remembered in static fields, and a move that re-establishes the session
 * when the stored PTZ handle is null or the stored token blank, but then
 * moves with the handle and token it read before re-establishing.
 * Exceptions reach the caller instead of being reported in a map.
 */
module Client {
  import opened Onvif
  import opened Text
  import opened Ptz
  import opened SessionMaps
  import opened Parameters
  import External

  /** How the three-argument move ends, given the handle it moves with. */
  function MoveOutcome(ptz: Option<PtzHandle>, direction: string, speedValue: Option<real>): (o: Outcome<()>)
    ensures o.Returned? <==> (speedValue.Some? || !NeedsSpeed(direction)) && ptz.Some? && !ptz.value.rejectsCommands
    ensures o.Threw? ==> o.fault == NullPointer || (o.fault == DeviceFault && ptz.Some? && ptz.value.rejectsCommands)
  {
    if speedValue.None? && NeedsSpeed(direction) then Threw(NullPointer)
    else if ptz.None? then Threw(NullPointer)
    else if ptz.value.rejectsCommands then Threw(DeviceFault)
    else Returned(())
  }

  /** The continuousMove request the three-argument move sends: none when the switch or the null handle throws first. */
  function MoveSent(ptz: Option<PtzHandle>, profileToken: string, direction: string, speedValue: Option<real>,
                    durationMs: int): (r: seq<Request>)
    ensures |r| <= 1
    ensures |r| == 1 <==> ptz.Some? && (speedValue.Some? || !NeedsSpeed(direction))
  {
    if (speedValue.None? && NeedsSpeed(direction)) || ptz.None? then []
    else [Request.ContinuousMove(ptz.value, profileToken, Translate(direction, speedValue.GetOr(0.0)), durationMs)]
  }

  /** Re-establishment is tried exactly when the stored handle is null or the stored token blank. */
  function NeedsRefresh(e: map<string, Value>): (b: bool)
    requires TokenKey(0) in e
    ensures PtzOf(e).None? ==> b
    ensures FirstToken(e) == "" ==> b
    ensures !b <==> PtzOf(e).Some? && exists i :: 0 <= i < |FirstToken(e)| && !IsWhitespace(FirstToken(e)[i])
  {
    PtzOf(e).None? || IsBlank(FirstToken(e))
  }

  /** The session map after the try block of lines 130-136: replaced on success, kept when the connection failed. */
  ghost predicate Refreshed(after: Option<map<string, Value>>, before: Option<map<string, Value>>, d: Option<Device>) {
    if Establishes(d) then after.Some? && IsClientSessionOf(after.value, d.value) else after == before
  }

  /**
   * The exception testCamera(creds) lets escape when it does not return: a
   * malformed URL, a refused connect, or a PTZ camera without profiles.
   */
  function ConnectFault(parses: bool, d: Option<Device>): (f: Fault)
    ensures f == MalformedUrl <==> !parses
    ensures parses ==> (f == ConnectFailed <==> d.None?)
    ensures parses && d.Some? ==> f == IndexOutOfBounds
  {
    if !parses then MalformedUrl else if d.None? then ConnectFailed else IndexOutOfBounds
  }

  /** testCamera(URL, user, password) of the test copy: connect, then inspect. */
  method Establish(url: string, user: string, password: string, net: DeviceNetwork)
    returns (o: Outcome<map<string, Value>>)
    modifies net
    ensures net.sent == old(net.sent) + [Login(url, user, password)]
    ensures net.connectsUsed == old(net.connectsUsed) + 1 && net.identitiesUsed == old(net.identitiesUsed)
    ensures o.Returned? <==> Establishes(old(net.Script(0)))
    ensures o.Returned? ==> IsClientSessionOf(o.value, old(net.Script(0)).value)
    ensures o.Threw? ==> o.fault == if old(net.Script(0)).None? then ConnectFailed else IndexOutOfBounds
  {
    var d := net.Connect(url, user, password);
    if d.None? {
      return Threw(ConnectFailed);
    }
    o := InspectClient(d.value);
  }

  /** The three-argument move after the refresh check: the switch, then ptz.continuousMove on the given handle. */
  method Move(ptz: Option<PtzHandle>, profileToken: string, direction: string, durationMs: int,
              speedValue: Option<real>, net: DeviceNetwork)
    returns (o: Outcome<()>)
    modifies net
    ensures o == MoveOutcome(ptz, direction, speedValue)
    ensures net.sent == old(net.sent) + MoveSent(ptz, profileToken, direction, speedValue, durationMs)
    ensures net.connectsUsed == old(net.connectsUsed) && net.identitiesUsed == old(net.identitiesUsed)
  {
    if speedValue.None? && NeedsSpeed(direction) {
      return Threw(NullPointer);
    }
    var speed := Translate(direction, speedValue.GetOr(0.0));
    if ptz.None? {
      return Threw(NullPointer);
    }
    var ok := net.ContinuousMove(ptz.value, profileToken, speed, durationMs);
    o := if ok then Returned(()) else Threw(DeviceFault);
  }

  /** The static state of the test copy. */
  class OperatingCamera {
    var session: Option<map<string, Value>>   // getDeviceMap
    var url: Option<string>
    var ipAddress: Option<string>
    var userName: Option<string>
    var password: Option<string>

    /** A session exists only after testCamera(creds) has remembered where it came from. */
    ghost predicate Valid()
      reads this
    {
      session.Some? ==> url.Some? && userName.Some? && password.Some? && WellFormed(session.value)
    }

    /** The static fields testCamera(creds) fills from `creds` once its URL parses. */
    predicate Remembers(creds: Credentials)
      reads this
    {
      ipAddress == Some(creds.host) && RemembersLogin(creds)
    }

    /** The URL and credentials the refresh of the move uses again. */
    predicate RemembersLogin(creds: Credentials)
      reads this
    {
      url == Some(DeviceUrl(creds.host)) && userName == Some(creds.user) && password == Some(creds.password)
    }

    constructor ()
      ensures Valid()
      ensures session == None && url == None && ipAddress == None && userName == None && password == None
    {
      session, url, ipAddress, userName, password := None, None, None, None, None;
    }

    /** The static fields testCamera(creds) assigns after new URL(...) has returned. */
    method Remember(creds: Credentials)
      modifies this
      ensures RemembersLogin(creds)
      ensures unchanged(this`session, this`ipAddress)
    {
      url := Some(DeviceUrl(creds.host));
      userName, password := Some(creds.user), Some(creds.password);
    }

    /**
     * testCamera(creds): remember the host, parse the URL, remember URL and
     * credentials, then establish; the session map is not touched.
     */
    method TestCamera(creds: Credentials, net: DeviceNetwork) returns (o: Outcome<map<string, Value>>)
      modifies this, net
      ensures ipAddress == Some(creds.host) && session == old(session)
      ensures net.identitiesUsed == old(net.identitiesUsed)
      ensures !net.urlParses(DeviceUrl(creds.host)) ==>
        && o == Threw(MalformedUrl) && net.sent == old(net.sent) && net.connectsUsed == old(net.connectsUsed)
        && url == old(url) && userName == old(userName) && password == old(password)
      ensures net.urlParses(DeviceUrl(creds.host)) ==>
        && Remembers(creds)
        && net.sent == old(net.sent) + [Login(DeviceUrl(creds.host), creds.user, creds.password)]
        && net.connectsUsed == old(net.connectsUsed) + 1
      ensures o.Returned? <==> net.urlParses(DeviceUrl(creds.host)) && Establishes(old(net.Script(0)))
      ensures o.Returned? ==> IsClientSessionOf(o.value, old(net.Script(0)).value)
      ensures o.Threw? ==> o.fault == ConnectFault(net.urlParses(DeviceUrl(creds.host)), old(net.Script(0)))
    {
      ipAddress := Some(creds.host);
      if !net.urlParses(DeviceUrl(creds.host)) {
        return Threw(MalformedUrl);
      }
      Remember(creds);
      o := Establish(url.value, creds.user, creds.password, net);
    }

    /** getDevice(args): the fresh inspection becomes the one session map; exceptions reach the caller. */
    method GetDevice(creds: Credentials, net: DeviceNetwork) returns (o: Outcome<map<string, Value>>)
      requires Valid()
      modifies this, net
      ensures Valid()
      ensures ipAddress == Some(creds.host) && net.identitiesUsed == old(net.identitiesUsed)
      ensures !net.urlParses(DeviceUrl(creds.host)) ==>
        && o == Threw(MalformedUrl) && session == old(session)
        && net.sent == old(net.sent) && net.connectsUsed == old(net.connectsUsed)
        && url == old(url) && userName == old(userName) && password == old(password)
      ensures net.urlParses(DeviceUrl(creds.host)) ==>
        && Remembers(creds)
        && net.sent == old(net.sent) + [Login(DeviceUrl(creds.host), creds.user, creds.password)]
        && net.connectsUsed == old(net.connectsUsed) + 1
        && Refreshed(session, old(session), old(net.Script(0)))
      ensures o.Returned? <==> net.urlParses(DeviceUrl(creds.host)) && Establishes(old(net.Script(0)))
      ensures o.Returned? ==> session == Some(o.value)
      ensures o.Threw? ==> o.fault == ConnectFault(net.urlParses(DeviceUrl(creds.host)), old(net.Script(0)))
    {
      o := TestCamera(creds, net);
      if o.Returned? {
        ClientSessionFacts(o.value, old(net.Script(0)).value);
        session := Some(o.value);
      }
    }

    /**
     * Lines 129-137: re-establish with the remembered URL and credentials.
     * A connection failure is swallowed; an inspect failure is not.
     */
    method Refresh(net: DeviceNetwork) returns (fault: Option<Fault>)
      requires Valid() && session.Some?
      modifies this, net
      ensures Valid() && session.Some?
      ensures url == old(url) && ipAddress == old(ipAddress) && userName == old(userName) && password == old(password)
      ensures net.sent == old(net.sent) + [Login(url.value, userName.value, password.value)]
      ensures net.connectsUsed == old(net.connectsUsed) + 1 && net.identitiesUsed == old(net.identitiesUsed)
      ensures Refreshed(session, old(session), old(net.Script(0)))
      ensures fault == if old(net.Script(0)).Some? && !Establishes(old(net.Script(0))) then Some(IndexOutOfBounds) else None
    {
      var o := Establish(url.value, userName.value, password.value, net);
      fault := None;
      if o.Returned? {
        ClientSessionFacts(o.value, old(net.Script(0)).value);
        session := Some(o.value);
      } else if o.fault != ConnectFailed {
        fault := Some(o.fault);
      }
    }

    /**
     * executeContinuousMove(direction, Duration timeout, Float speedValue)
     * as written: read "ptz" and "profileToken_0", refresh when needed, then
     * move with the handle and token read before the refresh.
     */
    method ExecuteContinuousMove(direction: string, durationMs: int, speedValue: Option<real>, net: DeviceNetwork)
      returns (o: Outcome<()>)
      requires Valid()
      modifies this, net
      ensures Valid()
      ensures url == old(url) && ipAddress == old(ipAddress) && userName == old(userName) && password == old(password)
      ensures net.identitiesUsed == old(net.identitiesUsed)
      ensures old(session).None? || TokenKey(0) !in old(session).value ==>
        o == Threw(NullPointer) && session == old(session) && net.sent == old(net.sent)
      ensures old(session).Some? && TokenKey(0) in old(session).value && !NeedsRefresh(old(session).value) ==>
        var e := old(session).value;
        && session == old(session)
        && o == MoveOutcome(PtzOf(e), direction, speedValue)
        && net.sent == old(net.sent) + MoveSent(PtzOf(e), FirstToken(e), direction, speedValue, durationMs)
      ensures old(session).Some? && TokenKey(0) in old(session).value && NeedsRefresh(old(session).value) ==>
        var e, d := old(session).value, old(net.Script(0));
        var login := Login(url.value, userName.value, password.value);
        && Refreshed(session, old(session), d)
        && if d.Some? && !Establishes(d) then o == Threw(IndexOutOfBounds) && net.sent == old(net.sent) + [login]
           else
             && o == MoveOutcome(PtzOf(e), direction, speedValue)
             && net.sent == old(net.sent) + [login] + MoveSent(PtzOf(e), FirstToken(e), direction, speedValue, durationMs)
    {
      if session.None? || TokenKey(0) !in session.value {
        return Threw(NullPointer);
      }
      var ptz := PtzOf(session.value);
      var profileToken := FirstToken(session.value);
      if ptz.None? || IsBlank(profileToken) {
        var fault := Refresh(net);
        if fault.Some? {
          return Threw(fault.value);
        }
      }
      o := Move(ptz, profileToken, direction, durationMs, speedValue, net);
    }

    /** The move with the handle and token re-read from the session map after a refresh. */
    method ExecuteContinuousMoveRefreshed(direction: string, durationMs: int, speedValue: Option<real>,
                                          net: DeviceNetwork)
      returns (o: Outcome<()>)
      requires Valid()
      modifies this, net
      ensures Valid()
      ensures url == old(url) && ipAddress == old(ipAddress) && userName == old(userName) && password == old(password)
      ensures net.identitiesUsed == old(net.identitiesUsed)
      ensures old(session).None? || TokenKey(0) !in old(session).value ==>
        o == Threw(NullPointer) && session == old(session) && net.sent == old(net.sent)
      ensures old(session).Some? && TokenKey(0) in old(session).value && !NeedsRefresh(old(session).value) ==>
        var e := old(session).value;
        && session == old(session)
        && o == MoveOutcome(PtzOf(e), direction, speedValue)
        && net.sent == old(net.sent) + MoveSent(PtzOf(e), FirstToken(e), direction, speedValue, durationMs)
      ensures old(session).Some? && TokenKey(0) in old(session).value && NeedsRefresh(old(session).value) ==>
        var d := old(net.Script(0));
        var login := Login(url.value, userName.value, password.value);
        && Refreshed(session, old(session), d)
        && (d.Some? && !Establishes(d) ==> o == Threw(IndexOutOfBounds) && net.sent == old(net.sent) + [login])
        && (d.None? ==>
              var e := old(session).value;
              && o == MoveOutcome(PtzOf(e), direction, speedValue)
              && net.sent == old(net.sent) + [login] + MoveSent(PtzOf(e), FirstToken(e), direction, speedValue, durationMs))
        && (Establishes(d) && |d.value.profiles| == 0 ==> o == Threw(NullPointer) && net.sent == old(net.sent) + [login])
        && (Establishes(d) && |d.value.profiles| > 0 ==>
              && o == MoveOutcome(d.value.ptz, direction, speedValue)
              && net.sent == old(net.sent) + [login]
                   + MoveSent(d.value.ptz, d.value.profiles[0].token, direction, speedValue, durationMs))
    {
      if session.None? || TokenKey(0) !in session.value {
        return Threw(NullPointer);
      }
      var ptz := PtzOf(session.value);
      var profileToken := FirstToken(session.value);
      if ptz.None? || IsBlank(profileToken) {
        var fault := Refresh(net);
        if fault.Some? {
          return Threw(fault.value);
        }
        if old(net.Script(0)).Some? {
          ClientSessionFacts(session.value, old(net.Script(0)).value);
        }
        if TokenKey(0) !in session.value {
          return Threw(NullPointer);
        }
        ptz := PtzOf(session.value);
        profileToken := FirstToken(session.value);
      }
      o := Move(ptz, profileToken, direction, durationMs, speedValue, net);
    }

    /** executeContinuousMove(direction): speed 0.1 for 1000 ms. */
    method ExecuteContinuousMoveDefault(direction: string, net: DeviceNetwork) returns (o: Outcome<()>)
      requires Valid()
      modifies this, net
      ensures Valid()
      ensures old(session).Some? && TokenKey(0) in old(session).value && !NeedsRefresh(old(session).value) ==>
        var e := old(session).value;
        && session == old(session)
        && o == MoveOutcome(PtzOf(e), direction, Some(0.1))
        && net.sent == old(net.sent) + MoveSent(PtzOf(e), FirstToken(e), direction, Some(0.1), 1000)
    {
      o := ExecuteContinuousMove(direction, 1000, Some(0.1), net);
    }

    /** executeContinuousMove(direction, Long timeout, Float speedValue, Boolean boolen): a null timeout throws first. */
    method ExecuteContinuousMoveTimed(direction: string, timeout: Option<int64>, speedValue: Option<real>,
                                      boolen: Option<bool>, net: DeviceNetwork)
      returns (o: Outcome<()>)
      requires Valid()
      modifies this, net
      ensures Valid()
      ensures timeout.None? ==> o == Threw(NullPointer) && session == old(session) && net.sent == old(net.sent)
      ensures timeout.Some? && old(session).Some? && TokenKey(0) in old(session).value
                && !NeedsRefresh(old(session).value) ==>
        var e := old(session).value;
        && session == old(session)
        && o == MoveOutcome(PtzOf(e), direction, speedValue)
        && net.sent == old(net.sent) + MoveSent(PtzOf(e), FirstToken(e), direction, speedValue, timeout.value as int)
    {
      if timeout.None? {
        return Threw(NullPointer);
      }
      o := ExecuteContinuousMove(direction, timeout.value as int, speedValue, net);
    }
  }

  /**
   * The stale handle: a session whose "ptz" entry is null, refreshed from a
   * camera that does have a PTZ service, still moves with the null handle
   * and throws; the refreshed variant reaches the camera.
   */
  lemma StaleHandle(e: map<string, Value>, device: Device, direction: string, speedValue: Option<real>)
    requires TokenKey(0) in e && PtzOf(e).None?
    requires Establishes(Some(device)) && device.ptz.Some? && !device.ptz.value.rejectsCommands
    requires speedValue.Some? || !NeedsSpeed(direction)
    ensures NeedsRefresh(e)
    ensures MoveOutcome(PtzOf(e), direction, speedValue) == Threw(NullPointer)
    ensures MoveOutcome(device.ptz, direction, speedValue) == Returned(())
    ensures |MoveSent(device.ptz, device.profiles[0].token, direction, speedValue, 0)| == 1
  {
  }

  /**
   * Both copies agree on when a move succeeds: where the test copy returns
   * normally the main copy reports "support", and where the test copy throws
   * from the PTZ call the main copy reports "noSupport". For any profile
   * token and duration, both send the same ContinuousMove request, or none.
   */
  lemma CopiesAgreeOnSupport(ptz: Option<PtzHandle>, profileToken: string, direction: string, s: real, durationMs: int)
    ensures MoveOutcome(ptz, direction, Some(s)).Returned? <==>
              External.MoveReport(ptz)[PtzSupportKey] == Text("support")
    ensures MoveSent(ptz, profileToken, direction, Some(s), durationMs) ==
              External.MoveRequests(ptz, profileToken, Translate(direction, s), durationMs)
  {
  }
}
