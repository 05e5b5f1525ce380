/**
 * de.onvif.external.OperatingCamera: the per-host session cache
 * (`getDeviceMaps`), get-or-establish lookup, the liveness flag "on-off"
 * overwritten in the cached map, the four executeContinuousMove overloads
 * and the reset to the first preset.  The static cache becomes the field of
 * an OperatingCamera object; the session maps are objects, so that a map
 * taken from the cache and updated is updated in the cache too.
 */
module External {
  import opened Onvif
  import opened Text
  import opened Ptz
  import opened SessionMaps
  import opened Parameters

  /** A HashMap<String, Object> holding a camera's session. */
  class SessionMap {
    var entries: map<string, Value>

    constructor (entries: map<string, Value>)
      ensures this.entries == entries
    {
      this.entries := entries;
    }
  }

  const DefaultSpeed: real := 0.1
  const DefaultDurationMs: int := 1000

  /** The speed of getReset's go-to-preset: pan = tilt = zoom = 1. */
  const ResetSpeed: PtzSpeed := PtzSpeed(Vector2D(PanTiltSpace, Some(1.0), Some(1.0)), Vector1D(ZoomSpace, Some(1.0)))

  /** The establishment request testCamera(creds) sends: a login to the prefixed host. */
  function HostLogin(creds: Credentials): Request {
    Login(DeviceUrl(creds.host), creds.user, creds.password)
  }

  /** The map executeContinuousMove returns: "support" iff the PTZ call returned normally. */
  function MoveReport(ptz: Option<PtzHandle>): (r: map<string, Value>)
    ensures r.Keys == {PtzSupportKey}
    ensures r[PtzSupportKey] == Text("support") <==> ptz.Some? && !ptz.value.rejectsCommands
    ensures r[PtzSupportKey] == Text("support") || r[PtzSupportKey] == Text("noSupport")
  {
    map[PtzSupportKey := Text(if ptz.Some? && !ptz.value.rejectsCommands then "support" else "noSupport")]
  }

  /** What reaches the wire for one continuousMove: nothing when the handle is null. */
  function MoveRequests(ptz: Option<PtzHandle>, profileToken: string, speed: PtzSpeed, durationMs: int): (r: seq<Request>)
    ensures |r| <= 1
    ensures |r| == 1 <==> ptz.Some?
    ensures ptz.Some? ==> r[0].ContinuousMove? && r[0].ptz == ptz.value && r[0].speed == speed && r[0].durationMs == durationMs
  {
    if ptz.Some? then [Request.ContinuousMove(ptz.value, profileToken, speed, durationMs)] else []
  }

  /** The liveness flag written into a session map: "1" iff it holds a device whose identity is not blank. */
  function Liveness(e: map<string, Value>, identity: string): (r: string)
    ensures r == "1" || r == "0"
    ensures !HasDevice(e) ==> r == "0"
    ensures HasDevice(e) ==> (r == "1" <==> exists i :: 0 <= i < |identity| && !IsWhitespace(identity[i]))
  {
    if HasDevice(e) && !IsBlank(identity) then "1" else "0"
  }

  /** The identity query the liveness probe sends: one for a map holding a device, none otherwise. */
  function IdentityQueries(e: map<string, Value>): (r: seq<Request>)
    requires WellFormed(e)
    ensures |r| == if HasDevice(e) then 1 else 0
    ensures forall q :: q in r ==> q.GetDeviceInformation? && q.device == DeviceOf(e)
  {
    if HasDevice(e) then [Request.GetDeviceInformation(DeviceOf(e))] else []
  }

  /** What getReset sends: at most one go-to-preset, to the first preset. */
  function ResetRequests(ptz: PtzHandle, profileToken: string): (r: seq<Request>)
    ensures |r| <= 1
    ensures |r| == 1 <==> |ptz.presets| > 0
  {
    if |ptz.presets| > 0 then [Request.GotoPreset(ptz, profileToken, ptz.presets[0], ResetSpeed)] else []
  }

  /**
   * executeContinuousMove(ptz, profileToken, direction, Duration timeout, Float speedValue):
   * a null speed read by the switch throws before anything is sent; any
   * exception of the PTZ call itself (a null handle included) is reported
   * as "noSupport".
   */
  method ContinuousMove(ptz: Option<PtzHandle>, profileToken: string, direction: string, durationMs: int,
                        speedValue: Option<real>, net: DeviceNetwork)
    returns (o: Outcome<map<string, Value>>)
    modifies net
    ensures speedValue.None? && NeedsSpeed(direction) ==> o == Threw(NullPointer) && net.sent == old(net.sent)
    ensures speedValue.Some? || !NeedsSpeed(direction) ==>
      && o == Returned(MoveReport(ptz))
      && net.sent == old(net.sent) + MoveRequests(ptz, profileToken, Translate(direction, speedValue.GetOr(0.0)), durationMs)
    ensures net.connectsUsed == old(net.connectsUsed) && net.identitiesUsed == old(net.identitiesUsed)
  {
    if speedValue.None? && NeedsSpeed(direction) {
      return Threw(NullPointer);
    }
    var speed := Translate(direction, speedValue.GetOr(0.0));
    var r := map[];
    if ptz.None? {
      // the NullPointerException of ptz.continuousMove is caught like any other exception
      return Returned(r[PtzSupportKey := Text("noSupport")]);
    }
    var ok := net.ContinuousMove(ptz.value, profileToken, speed, durationMs);
    if ok {
      r := r[PtzSupportKey := Text("support")];
    } else {
      r := r[PtzSupportKey := Text("noSupport")];
    }
    o := Returned(r);
  }

  /** executeContinuousMove(ptz, profileToken, direction, Long timeout, Float speedValue, Boolean boolen): a null timeout throws. */
  method ContinuousMoveTimed(ptz: Option<PtzHandle>, profileToken: string, direction: string, timeout: Option<int64>,
                             speedValue: Option<real>, boolen: Option<bool>, net: DeviceNetwork)
    returns (o: Outcome<map<string, Value>>)
    modifies net
    ensures timeout.None? ==> o == Threw(NullPointer) && net.sent == old(net.sent)
    ensures timeout.Some? && speedValue.None? && NeedsSpeed(direction) ==> o == Threw(NullPointer) && net.sent == old(net.sent)
    ensures timeout.Some? && (speedValue.Some? || !NeedsSpeed(direction)) ==>
      && o == Returned(MoveReport(ptz))
      && net.sent == old(net.sent)
           + MoveRequests(ptz, profileToken, Translate(direction, speedValue.GetOr(0.0)), timeout.value as int)
    ensures net.connectsUsed == old(net.connectsUsed) && net.identitiesUsed == old(net.identitiesUsed)
  {
    if timeout.None? {
      return Threw(NullPointer);
    }
    o := ContinuousMove(ptz, profileToken, direction, timeout.value as int, speedValue, net);
  }

  /** executeContinuousMove(ptz, profileToken, direction): speed 0.1 for 1000 ms, which never throws. */
  method ContinuousMoveDefault(ptz: Option<PtzHandle>, profileToken: string, direction: string, net: DeviceNetwork)
    returns (r: map<string, Value>)
    modifies net
    ensures r == MoveReport(ptz)
    ensures net.sent == old(net.sent) + MoveRequests(ptz, profileToken, Translate(direction, 0.1), 1000)
    ensures net.connectsUsed == old(net.connectsUsed) && net.identitiesUsed == old(net.identitiesUsed)
  {
    var o := ContinuousMove(ptz, profileToken, direction, DefaultDurationMs, Some(DefaultSpeed), net);
    r := o.value;
  }

  /** testCamera(URL, user, password): connect, then inspect. */
  method Establish(url: string, user: string, password: string, net: DeviceNetwork)
    returns (o: Outcome<map<string, Value>>)
    modifies net
    ensures net.sent == old(net.sent) + [Login(url, user, password)]
    ensures net.connectsUsed == old(net.connectsUsed) + 1 && net.identitiesUsed == old(net.identitiesUsed)
    ensures o.Returned? <==> Establishes(old(net.Script(0)))
    ensures o.Returned? ==> IsSessionOf(o.value, old(net.Script(0)).value)
  {
    var d := net.Connect(url, user, password);
    if d.None? {
      return Threw(ConnectFailed);
    }
    o := InspectSession(d.value);
  }

  /** Two runs of login requests make one. */
  lemma LoginsAppend(creds: Credentials, a: seq<Request>, b: seq<Request>)
    requires forall q :: q in a ==> q == HostLogin(creds)
    requires forall q :: q in b ==> q == HostLogin(creds)
    ensures forall q :: q in a + b ==> q == HostLogin(creds)
  {
  }

  /** Requests sent in two runs extend the log as the two runs together do. */
  lemma RequestsAppend(log: seq<Request>, a: seq<Request>, b: seq<Request>)
    ensures (log + a) + b == log + (a + b)
  {
  }

  /** The cache after a step that caches the session of `cached` under `host`, or leaves it alone. */
  ghost predicate CacheStep(host: string, before: map<string, SessionMap>, after: map<string, SessionMap>,
                            cached: Option<Device>) {
    if cached.Some? then host in after && after == before[host := after[host]] else after == before
  }

  /** Two cache steps make one, which keeps the later of the two cached maps. */
  lemma CacheStepTwice(host: string, a: map<string, SessionMap>, b: map<string, SessionMap>, c: map<string, SessionMap>,
                       first: Option<Device>, second: Option<Device>)
    requires CacheStep(host, a, b, first) && CacheStep(host, b, c, second)
    ensures CacheStep(host, a, c, if second.Some? then second else first)
  {
  }

  /** The entries testCamera(creds) yields from one establishment attempt answered by `d`. */
  ghost predicate AttemptResult(e: map<string, Value>, d: Option<Device>) {
    if Establishes(d) then IsSessionOf(e, d.value) else e == Offline()
  }

  lemma OfflineHasNoDevice()
    ensures !HasDevice(Offline()) && WellFormed(Offline())
  {
    KeysDistinct(0, 0);
  }

  /**
   * One testCamera(creds) inside getDevice's try block: a fresh session map
   * with "on-off" = "1", or the fresh {"on-off": "0"} of the catch block.
   */
  method Attempt(creds: Credentials, net: DeviceNetwork) returns (r: SessionMap)
    modifies net
    ensures fresh(r) && AttemptResult(r.entries, old(net.Script(0)))
    ensures WellFormed(r.entries) && (HasDevice(r.entries) <==> Establishes(old(net.Script(0))))
    ensures net.sent == old(net.sent) + [HostLogin(creds)]
    ensures net.connectsUsed == old(net.connectsUsed) + 1 && net.identitiesUsed == old(net.identitiesUsed)
  {
    var o := Establish(DeviceUrl(creds.host), creds.user, creds.password, net);
    if o.Threw? {
      OfflineHasNoDevice();
      r := new SessionMap(Offline());
    } else {
      SessionFacts(o.value, old(net.Script(0)).value);
      r := new SessionMap(o.value[OnOffKey := Text("1")]);
    }
  }

  /**
   * The miss path of the lookup, by case: the number of logins it sends, the
   * connect reply whose session ends up cached under the host, and the reply
   * whose attempt yields the map it settles on (None: the offline map).
   * `parses` is the URL's verdict; `s0`..`s3` are the coming connect replies.
   */
  datatype MissOutcome = MissOutcome(logins: nat, cached: Option<Device>, returned: Option<Device>)

  function MissPath(parses: bool, s0: Option<Device>, s1: Option<Device>, s2: Option<Device>, s3: Option<Device>)
    : (r: MissOutcome)
    ensures r.logins == 0 <==> !parses
    ensures parses ==> 2 <= r.logins <= 4
    ensures r.cached.Some? ==> Establishes(r.cached)
    ensures r.logins == 0 ==> r.cached.None? && r.returned.None?
  {
    if !parses then MissOutcome(0, None, None)                  // new URL throws in both getDevice calls
    else if !Establishes(s0) then
      if !Establishes(s1) then MissOutcome(2, None, None)       // both calls fail at their first attempt
      else MissOutcome(3, s1, s2)                               // the second call caches s1, returns the attempt on s2
    else if Establishes(s1) then MissOutcome(2, s0, s1)         // the first call caches s0 and returns s1's session
    else if !Establishes(s2) then MissOutcome(3, s0, None)      // s0 stays cached, the second call fails at once
    else MissOutcome(4, s2, s3)                                 // the second call caches s2 over s0, returns s3's attempt
  }

  /** One getDevice call in the terms of MissPath; `s0` and `s1` are the coming connect replies. */
  function GetDevicePath(parses: bool, s0: Option<Device>, s1: Option<Device>): (r: MissOutcome)
    ensures r.logins <= 2 && (r.logins == 0 <==> !parses)
    ensures r.cached.Some? ==> Establishes(r.cached)
    ensures r.returned.Some? ==> r.cached.Some?
  {
    if !parses then MissOutcome(0, None, None)              // new URL throws
    else if !Establishes(s0) then MissOutcome(1, None, None)  // the first attempt fails
    else MissOutcome(2, s0, s1)                               // s0 is cached; the attempt on s1 is returned
  }

  /**
   * The miss path is one getDevice call, followed, when its map holds no
   * device, by a second call that meets the replies the first one left.
   */
  lemma MissPathComposes(parses: bool, c: seq<Option<Device>>, u: nat)
    ensures var first := GetDevicePath(parses, Reply(c, u), Reply(c, u + 1));
      var second := GetDevicePath(parses, Reply(c, u + first.logins), Reply(c, u + first.logins + 1));
      MissPath(parses, Reply(c, u), Reply(c, u + 1), Reply(c, u + 2), Reply(c, u + 3)) ==
        if Establishes(first.returned) then first
        else MissOutcome(first.logins + second.logins,
                         if second.cached.Some? then second.cached else first.cached, second.returned)
  {
  }

  /** The static state of the class: the session cache, keyed by host. */
  class OperatingCamera {
    var deviceMaps: map<string, SessionMap>

    /** Every cached map holds the device it was established from, and its entries cast as the wrappers expect. */
    ghost predicate Valid()
      reads this, deviceMaps.Values
    {
      forall k :: k in deviceMaps ==> HasDevice(deviceMaps[k].entries) && WellFormed(deviceMaps[k].entries)
    }

    constructor ()
      ensures Valid() && deviceMaps == map[]
    {
      deviceMaps := map[];
    }

    /**
     * The facts a get-or-establish lookup (the first eight lines of getReset,
     * getOnLineOrOffLine and executeContinuousMove(BaseInfo, ...)) leaves
     * behind: the map `m` it settled on, that map's entries `before` at that
     * point, and the establishment requests `setup` it sent.
     */
    twostate predicate Resolved(ip: string, creds: Credentials, net: DeviceNetwork, new m: SessionMap,
                                before: map<string, Value>, setup: seq<Request>)
      reads this
    {
      && (ip in old(deviceMaps) ==>
            && m == old(deviceMaps[ip]) && before == old(deviceMaps[ip].entries)
            && setup == [] && deviceMaps == old(deviceMaps))
      && (ip !in old(deviceMaps) ==> Reestablished(creds, net, m, before, setup))
    }

    /**
     * What a getDevice call or the miss path leaves behind when it took
     * `path`: a fresh map `m` with entries `before`, `path.logins` login
     * requests `setup`, and a cache that gained the fresh map of
     * `path.cached` under the host, or is unchanged.
     */
    twostate predicate Took(creds: Credentials, new m: SessionMap, before: map<string, Value>, setup: seq<Request>,
                            path: MissOutcome)
      reads this
    {
      && fresh(m) && WellFormed(before) && AttemptResult(before, path.returned)
      && |setup| == path.logins && (forall q :: q in setup ==> q == HostLogin(creds))
      && CacheStep(creds.host, old(deviceMaps), deviceMaps, path.cached)
      && (path.cached.Some? ==> fresh(deviceMaps[creds.host]) && deviceMaps[creds.host] != m)
    }

    /** A getDevice call that took `first` and found no device, then one that took `second`, took the two combined. */
    twostate lemma TookTwice(new creds: Credentials, new m: SessionMap, new before: map<string, Value>,
                             new setup: seq<Request>, new again: seq<Request>, new first: MissOutcome, new second: MissOutcome,
                             new mid: map<string, SessionMap>)
      requires CacheStep(creds.host, old(deviceMaps), mid, first.cached)
      requires first.cached.Some? ==> fresh(mid[creds.host]) && mid[creds.host] != m
      requires |setup| == first.logins && (forall q :: q in setup ==> q == HostLogin(creds))
      requires CacheStep(creds.host, mid, deviceMaps, second.cached)
      requires second.cached.Some? ==> fresh(deviceMaps[creds.host]) && deviceMaps[creds.host] != m
      requires fresh(m) && WellFormed(before) && AttemptResult(before, second.returned)
      requires |again| == second.logins && (forall q :: q in again ==> q == HostLogin(creds))
      ensures Took(creds, m, before, setup + again,
                   MissOutcome(first.logins + second.logins,
                               if second.cached.Some? then second.cached else first.cached, second.returned))
    {
      CacheStepTwice(creds.host, old(deviceMaps), mid, deviceMaps, first.cached, second.cached);
      LoginsAppend(creds, setup, again);
    }

    /** What the miss path leaves behind: it took MissPath for the URL's verdict and the coming connect replies. */
    twostate predicate Reestablished(creds: Credentials, net: DeviceNetwork, new m: SessionMap,
                                     before: map<string, Value>, setup: seq<Request>)
      reads this
    {
      Took(creds, m, before, setup, MissPath(net.urlParses(DeviceUrl(creds.host)),
                                             old(net.Script(0)), old(net.Script(1)), old(net.Script(2)), old(net.Script(3))))
    }

    /** After the miss path, the map cached under the host is the session of the establishment MissPath names. */
    twostate predicate CachesMissSession(creds: Credentials, net: DeviceNetwork)
      reads this, deviceMaps.Values
    {
      var miss := MissPath(net.urlParses(DeviceUrl(creds.host)),
                           old(net.Script(0)), old(net.Script(1)), old(net.Script(2)), old(net.Script(3)));
      miss.cached.Some? ==>
        creds.host in deviceMaps && IsSessionOf(deviceMaps[creds.host].entries, miss.cached.value)
    }

    /**
     * getDevice(baseInfo) with testCamera(creds) inlined: parse the URL,
     * establish and cache under the host with "on-off" = "1", then establish
     * again and return that second map; any exception, a malformed URL
     * included, yields a fresh {"on-off": "0"}.
     */
    method GetDevice(creds: Credentials, net: DeviceNetwork)
      returns (r: SessionMap, ghost attempts: seq<Request>, ghost path: MissOutcome)
      requires Valid()
      modifies this, net
      ensures Valid()
      ensures path == GetDevicePath(net.urlParses(DeviceUrl(creds.host)), old(net.Script(0)), old(net.Script(1)))
      ensures Took(creds, r, r.entries, attempts, path)
      ensures HasDevice(r.entries) <==> Establishes(path.returned)
      ensures path.cached.Some? ==> IsSessionOf(deviceMaps[creds.host].entries, path.cached.value)
      ensures net.sent == old(net.sent) + attempts && net.connectsUsed == old(net.connectsUsed) + |attempts|
      ensures net.identitiesUsed == old(net.identitiesUsed)
    {
      path := GetDevicePath(net.urlParses(DeviceUrl(creds.host)), net.Script(0), net.Script(1));
      if !net.urlParses(DeviceUrl(creds.host)) {
        OfflineHasNoDevice();
        r := new SessionMap(Offline());
        attempts := [];
        return;
      }
      ghost var s1 := net.Script(1);
      var first := Attempt(creds, net);
      if !HasDevice(first.entries) {
        OfflineHasNoDevice();
        r, attempts := first, [HostLogin(creds)];
        return;
      }
      r := CacheAndRetry(creds, first, net);
      attempts := [HostLogin(creds), HostLogin(creds)];
      assert s1 == old(net.Script(1));
    }

    /** The second half of getDevice: cache the map that holds a device, then establish once more. */
    method CacheAndRetry(creds: Credentials, first: SessionMap, net: DeviceNetwork) returns (r: SessionMap)
      requires Valid() && HasDevice(first.entries) && WellFormed(first.entries)
      modifies this, net
      ensures Valid() && deviceMaps == old(deviceMaps)[creds.host := first]
      ensures fresh(r) && AttemptResult(r.entries, old(net.Script(0)))
      ensures WellFormed(r.entries) && (HasDevice(r.entries) <==> Establishes(old(net.Script(0))))
      ensures net.sent == old(net.sent) + [HostLogin(creds)]
      ensures net.connectsUsed == old(net.connectsUsed) + 1 && net.identitiesUsed == old(net.identitiesUsed)
    {
      CacheSession(creds.host, first);
      r := Attempt(creds, net);
    }

    /** `deviceMaps.put(host, map)` for a map holding a device. */
    method CacheSession(host: string, m: SessionMap)
      requires Valid() && HasDevice(m.entries) && WellFormed(m.entries)
      modifies this
      ensures Valid() && deviceMaps == old(deviceMaps)[host := m]
    {
      deviceMaps := deviceMaps[host := m];
    }

    /**
     * The miss path of the lookup: getDevice, and getDevice again when its
     * map holds no device. `path` is the MissPath it took.
     */
    method Reestablish(creds: Credentials, net: DeviceNetwork)
      returns (m: SessionMap, ghost setup: seq<Request>, ghost path: MissOutcome)
      requires Valid()
      modifies this, net
      ensures Valid()
      ensures path == MissPath(net.urlParses(DeviceUrl(creds.host)),
                               old(net.Script(0)), old(net.Script(1)), old(net.Script(2)), old(net.Script(3)))
      ensures Took(creds, m, m.entries, setup, path)
      ensures path.cached.Some? ==> creds.host in deviceMaps && IsSessionOf(deviceMaps[creds.host].entries, path.cached.value)
      ensures net.sent == old(net.sent) + setup
      ensures net.connectsUsed == old(net.connectsUsed) + |setup| && net.identitiesUsed == old(net.identitiesUsed)
    {
      ghost var parses, c, u := net.urlParses(DeviceUrl(creds.host)), net.connects, net.connectsUsed;
      assert net.Script(0) == Reply(c, u) && net.Script(1) == Reply(c, u + 1);
      assert net.Script(2) == Reply(c, u + 2) && net.Script(3) == Reply(c, u + 3);
      MissPathComposes(parses, c, u);
      ghost var sent0 := net.sent;
      ghost var first;
      m, first, path := GetDevice(creds, net);
      if HasDevice(m.entries) {
        setup := first;
        return;
      }
      ghost var mid, v := deviceMaps, u + path.logins;
      assert net.connectsUsed == v;
      net.ScriptAhead();
      ghost var again, next;
      m, again, next := GetDevice(creds, net);
      TookTwice(creds, m, m.entries, first, again, path, next, mid);
      setup := first + again;
      path := MissOutcome(path.logins + next.logins, if next.cached.Some? then next.cached else path.cached, next.returned);
      RequestsAppend(sent0, first, again);
    }

    /** Get-or-establish: the cached map for `ip`, else the miss path. */
    method Resolve(ip: string, creds: Credentials, net: DeviceNetwork) returns (m: SessionMap, ghost setup: seq<Request>)
      requires Valid()
      modifies this, net
      ensures Valid()
      ensures Resolved(ip, creds, net, m, m.entries, setup) && (ip !in old(deviceMaps) ==> CachesMissSession(creds, net))
      ensures net.sent == old(net.sent) + setup
      ensures net.connectsUsed == old(net.connectsUsed) + |setup| && net.identitiesUsed == old(net.identitiesUsed)
    {
      if ip in deviceMaps {
        m, setup := deviceMaps[ip], [];
      } else {
        ghost var path;
        m, setup, path := Reestablish(creds, net);
      }
    }

    /** The liveness probe of getOnLineOrOffLine and executeContinuousMove: overwrite "on-off" in place. */
    static method Probe(m: SessionMap, net: DeviceNetwork)
      requires WellFormed(m.entries)
      modifies m, net
      ensures m.entries == old(m.entries)[OnOffKey := Text(Liveness(old(m.entries), old(net.NextIdentity())))]
      ensures net.sent == old(net.sent) + IdentityQueries(old(m.entries))
      ensures net.identitiesUsed == old(net.identitiesUsed) + |IdentityQueries(old(m.entries))|
      ensures net.connectsUsed == old(net.connectsUsed)
    {
      if HasDevice(m.entries) {
        var identity := net.GetDeviceInformation(DeviceOf(m.entries));
        if !IsBlank(identity) {
          m.entries := m.entries[OnOffKey := Text("1")];
        } else {
          m.entries := m.entries[OnOffKey := Text("0")];
        }
      } else {
        m.entries := m.entries[OnOffKey := Text("0")];
      }
    }

    /** getOnLineOrOffLine(baseInfo): the resolved map with its "on-off" refreshed. */
    method GetOnLineOrOffLine(info: BaseInfo, creds: Credentials, net: DeviceNetwork)
      returns (r: SessionMap, ghost before: map<string, Value>, ghost setup: seq<Request>)
      requires Valid() && info.ipAddress.Some?
      modifies this, deviceMaps.Values, net
      ensures Valid()
      ensures Resolved(info.ipAddress.value, creds, net, r, before, setup)
      ensures info.ipAddress.value !in old(deviceMaps) ==> CachesMissSession(creds, net)
      ensures net.connectsUsed == old(net.connectsUsed) + |setup|
      ensures r.entries == before[OnOffKey := Text(Liveness(before, old(net.NextIdentity())))]
      ensures net.sent == old(net.sent) + setup + IdentityQueries(before)
      ensures net.identitiesUsed == old(net.identitiesUsed) + |IdentityQueries(before)|
      ensures forall s :: s in old(deviceMaps.Values) && s != r ==> s.entries == old(s.entries)
    {
      r, setup := Resolve(info.ipAddress.value, creds, net);
      before := r.entries;
      Probe(r, net);
      OnOffPreservesWellFormed(before, Text(Liveness(before, old(net.NextIdentity()))));
    }

    /**
     * executeContinuousMove(baseInfo, direction): the lookup and liveness
     * probe of getOnLineOrOffLine, then a move with the map's "ptz" and
     * "profileToken_0" and the bean's timeout and speed.
     */
    method ExecuteContinuousMove(info: BaseInfo, creds: Credentials, direction: string, net: DeviceNetwork)
      returns (o: Outcome<map<string, Value>>, ghost session: SessionMap, ghost before: map<string, Value>,
               ghost setup: seq<Request>)
      requires Valid() && info.ipAddress.Some?
      modifies this, deviceMaps.Values, net
      ensures Valid()
      ensures Resolved(info.ipAddress.value, creds, net, session, before, setup)
      ensures info.ipAddress.value !in old(deviceMaps) ==> CachesMissSession(creds, net)
      ensures net.connectsUsed == old(net.connectsUsed) + |setup|
      ensures session.entries == before[OnOffKey := Text(Liveness(before, old(net.NextIdentity())))]
      ensures forall s :: s in old(deviceMaps.Values) && s != session ==> s.entries == old(s.entries)
      ensures TokenKey(0) !in before || info.timeOut.None? || (info.speed.None? && NeedsSpeed(direction)) ==>
        o == Threw(NullPointer) && net.sent == old(net.sent) + setup + IdentityQueries(before)
      ensures TokenKey(0) in before && info.timeOut.Some? && (info.speed.Some? || !NeedsSpeed(direction)) ==>
        && o == Returned(MoveReport(PtzOf(before)))
        && net.sent == old(net.sent) + setup + IdentityQueries(before)
             + MoveRequests(PtzOf(before), FirstToken(before), Translate(direction, info.speed.GetOr(0.0)),
                            info.timeOut.value as int)
    {
      var m;
      m, before, setup := GetOnLineOrOffLine(info, creds, net);
      session := m;
      OnOffPreservesWellFormed(before, Text(Liveness(before, old(net.NextIdentity()))));
      if TokenKey(0) !in m.entries {
        return Threw(NullPointer), session, before, setup;
      }
      o := ContinuousMoveTimed(PtzOf(m.entries), FirstToken(m.entries), direction, info.timeOut, info.speed, None, net);
    }

    /** getReset(baseInfo) as written: the lookup, then the reset of lines 250-279 on the resolved map. */
    method GetReset(info: BaseInfo, creds: Credentials, net: DeviceNetwork)
      returns (o: Outcome<SessionMap>, ghost session: SessionMap, ghost before: map<string, Value>,
               ghost setup: seq<Request>)
      requires Valid() && info.ipAddress.Some?
      modifies this, deviceMaps.Values, net
      ensures Valid()
      ensures Resolved(info.ipAddress.value, creds, net, session, before, setup)
      ensures info.ipAddress.value !in old(deviceMaps) ==> CachesMissSession(creds, net)
      ensures net.connectsUsed == old(net.connectsUsed) + |setup|
      ensures forall s :: s in old(deviceMaps.Values) && s != session ==> s.entries == old(s.entries)
      ensures var eff := ResetAsWritten(before);
        && session.entries == eff.entries && net.sent == old(net.sent) + setup + eff.requests
        && o == if eff.fault.Some? then Threw(eff.fault.value) else Returned(session)
    {
      var m;
      m, setup := Resolve(info.ipAddress.value, creds, net);
      session, before := m, m.entries;
      label resolved:
      var fault := ResetSession(m, net);
      forall k | k in deviceMaps
        ensures HasDevice(deviceMaps[k].entries) && WellFormed(deviceMaps[k].entries)
      {
        assert old@resolved(HasDevice(deviceMaps[k].entries));
      }
      o := if fault.Some? then Threw(fault.value) else Returned(m);
    }

    /** getReset with the null check of the PTZ handle before its first use. */
    method GetResetGuarded(info: BaseInfo, creds: Credentials, net: DeviceNetwork)
      returns (o: Outcome<SessionMap>, ghost session: SessionMap, ghost before: map<string, Value>,
               ghost setup: seq<Request>)
      requires Valid() && info.ipAddress.Some?
      modifies this, deviceMaps.Values, net
      ensures Valid()
      ensures Resolved(info.ipAddress.value, creds, net, session, before, setup)
      ensures info.ipAddress.value !in old(deviceMaps) ==> CachesMissSession(creds, net)
      ensures net.connectsUsed == old(net.connectsUsed) + |setup|
      ensures forall s :: s in old(deviceMaps.Values) && s != session ==> s.entries == old(s.entries)
      ensures var eff := ResetWithNullCheck(before);
        && session.entries == eff.entries && net.sent == old(net.sent) + setup + eff.requests
        && o == if eff.fault.Some? then Threw(eff.fault.value) else Returned(session)
    {
      var m;
      m, setup := Resolve(info.ipAddress.value, creds, net);
      session, before := m, m.entries;
      label resolved:
      var fault := ResetSessionGuarded(m, net);
      forall k | k in deviceMaps
        ensures HasDevice(deviceMaps[k].entries) && WellFormed(deviceMaps[k].entries)
      {
        assert old@resolved(HasDevice(deviceMaps[k].entries));
      }
      o := if fault.Some? then Threw(fault.value) else Returned(m);
    }
  }

  /** Lines 250-279 of getReset on a resolved map `m`; `fault` is the exception that escapes, if any. */
  method ResetSession(m: SessionMap, net: DeviceNetwork) returns (fault: Option<Fault>)
    requires WellFormed(m.entries)
    modifies m, net
    ensures var eff := ResetAsWritten(old(m.entries));
      m.entries == eff.entries && net.sent == old(net.sent) + eff.requests && fault == eff.fault
    ensures WellFormed(m.entries) && HasDevice(m.entries) == HasDevice(old(m.entries))
    ensures net.connectsUsed == old(net.connectsUsed) && net.identitiesUsed == old(net.identitiesUsed)
  {
    ResetKeepsSession(m.entries);
    fault := None;
    if HasDevice(m.entries) {
      var device := DeviceOf(m.entries);
      if TokenKey(0) !in m.entries {
        return Some(NullPointer);
      }
      var profileToken := FirstToken(m.entries);
      if device.ptz.None? {
        // ptz.getPresets(profileToken) on a null handle
        return Some(NullPointer);
      }
      var ptz := device.ptz.value;
      var presets := ptz.presets;
      m.entries := m.entries[OnOffKey := Text("1")];
      if |presets| > 0 {
        var ok := net.GotoPreset(ptz, profileToken, presets[0], ResetSpeed);
        if !ok {
          fault := Some(DeviceFault);
        }
      }
    }
  }

  /** ResetSession with the null check first: a map without a PTZ handle gets "on-off" = "0". */
  method ResetSessionGuarded(m: SessionMap, net: DeviceNetwork) returns (fault: Option<Fault>)
    requires WellFormed(m.entries)
    modifies m, net
    ensures var eff := ResetWithNullCheck(old(m.entries));
      m.entries == eff.entries && net.sent == old(net.sent) + eff.requests && fault == eff.fault
    ensures WellFormed(m.entries) && HasDevice(m.entries) == HasDevice(old(m.entries))
    ensures net.connectsUsed == old(net.connectsUsed) && net.identitiesUsed == old(net.identitiesUsed)
  {
    ResetKeepsSession(m.entries);
    fault := None;
    if HasDevice(m.entries) {
      var device := DeviceOf(m.entries);
      if TokenKey(0) !in m.entries {
        return Some(NullPointer);
      }
      var profileToken := FirstToken(m.entries);
      if device.ptz.None? {
        m.entries := m.entries[OnOffKey := Text("0")];
        return;
      }
      var ptz := device.ptz.value;
      m.entries := m.entries[OnOffKey := Text("1")];
      if |ptz.presets| > 0 {
        var ok := net.GotoPreset(ptz, profileToken, ptz.presets[0], ResetSpeed);
        if !ok {
          fault := Some(DeviceFault);
        }
      }
    }
  }

  /** What a reset does to a session map: its entries afterwards, the requests sent, the escaping fault. */
  datatype ResetEffect = ResetEffect(entries: map<string, Value>, requests: seq<Request>, fault: Option<Fault>)

  /**
   * getReset as written: a map without a device is returned untouched; a
   * missing "profileToken_0" or a null PTZ handle throws before anything is
   * written; otherwise "on-off" becomes "1" and the camera is sent to its
   * first preset, if it has one.
   */
  function ResetAsWritten(e: map<string, Value>): (r: ResetEffect)
    requires WellFormed(e)
    ensures |r.requests| <= 1
    ensures r.fault == Some(NullPointer) <==> HasDevice(e) && (TokenKey(0) !in e || DeviceOf(e).ptz.None?)
    ensures r.fault.Some? ==> r.fault == Some(NullPointer) || r.fault == Some(DeviceFault)
    ensures r.entries == e || r.entries == e[OnOffKey := Text("1")]
    ensures forall q :: q in r.requests ==> q.GotoPreset? && |q.ptz.presets| > 0 && q.preset == q.ptz.presets[0] && q.speed == ResetSpeed
  {
    if !HasDevice(e) then ResetEffect(e, [], None)
    else if TokenKey(0) !in e || DeviceOf(e).ptz.None? then ResetEffect(e, [], Some(NullPointer))
    else
      var ptz := DeviceOf(e).ptz.value;
      var requests := ResetRequests(ptz, FirstToken(e));
      ResetEffect(e[OnOffKey := Text("1")], requests,
                  if |requests| == 1 && ptz.rejectsCommands then Some(DeviceFault) else None)
  }

  /** getReset with the PTZ handle checked for null before it is used. */
  function ResetWithNullCheck(e: map<string, Value>): (r: ResetEffect)
    requires WellFormed(e)
    ensures |r.requests| <= 1
    ensures r.fault == Some(NullPointer) <==> HasDevice(e) && TokenKey(0) !in e
    ensures r.fault.Some? ==> r.fault == Some(NullPointer) || r.fault == Some(DeviceFault)
    ensures HasDevice(e) && TokenKey(0) in e ==> OnOffKey in r.entries && r.entries[OnOffKey] == Text(if DeviceOf(e).ptz.Some? then "1" else "0")
    ensures HasDevice(e) && TokenKey(0) in e && DeviceOf(e).ptz.None? ==> r.requests == [] && r.fault == None
  {
    if HasDevice(e) && TokenKey(0) in e && DeviceOf(e).ptz.None? then ResetEffect(e[OnOffKey := Text("0")], [], None)
    else ResetAsWritten(e)
  }

  /** The two resets differ exactly on a device that has a first profile but no PTZ service. */
  lemma ResetVariantsDiffer(e: map<string, Value>)
    requires WellFormed(e)
    ensures ResetWithNullCheck(e) != ResetAsWritten(e) <==> HasDevice(e) && TokenKey(0) in e && DeviceOf(e).ptz.None?
  {
  }

  /** A reset changes no entry but "on-off", and keeps the map well formed and its device. */
  lemma ResetKeepsSession(e: map<string, Value>)
    requires WellFormed(e)
    ensures var r := ResetWithNullCheck(e);
      && WellFormed(r.entries) && HasDevice(r.entries) == HasDevice(e)
      && (forall k :: k != OnOffKey ==> (k in r.entries <==> k in e) && (k in e ==> r.entries[k] == e[k]))
    ensures var r := ResetAsWritten(e);
      && WellFormed(r.entries) && HasDevice(r.entries) == HasDevice(e)
      && (forall k :: k != OnOffKey ==> (k in r.entries <==> k in e) && (k in e ==> r.entries[k] == e[k]))
  {
    OnOffPreservesWellFormed(e, Text("0"));
    OnOffPreservesWellFormed(e, Text("1"));
  }

  /** Overwriting "on-off" keeps a map's device, its first token and its PTZ entry. */
  lemma OnOffPreservesWellFormed(e: map<string, Value>, v: Value)
    requires WellFormed(e)
    ensures WellFormed(e[OnOffKey := v]) && HasDevice(e[OnOffKey := v]) == HasDevice(e)
    ensures TokenKey(0) in e[OnOffKey := v] <==> TokenKey(0) in e
    ensures PtzOf(e[OnOffKey := v]) == PtzOf(e)
    ensures TokenKey(0) in e ==> FirstToken(e[OnOffKey := v]) == FirstToken(e)
    ensures HasDevice(e) ==> DeviceOf(e[OnOffKey := v]) == DeviceOf(e)
  {
    KeysDistinct(0, 0);
  }

  /**
   * A camera with a media profile but no PTZ service: getReset as written
   * throws a NullPointerException from the session inspect built for it;
   * with the null check first it reports "on-off" = "0" and sends nothing.
   */
  lemma ResetWithoutPtz(e: map<string, Value>, device: Device)
    requires IsSessionOf(e, device) && device.ptz.None? && |device.profiles| > 0
    ensures ResetAsWritten(e).fault == Some(NullPointer)
    ensures ResetWithNullCheck(e) == ResetEffect(e[OnOffKey := Text("0")], [], None)
  {
    SessionFacts(e, device);
  }

  /** On a session inspect built for a PTZ camera, both resets write "on-off" = "1" and go to the first preset. */
  lemma ResetWithPtz(e: map<string, Value>, device: Device)
    requires IsSessionOf(e, device) && device.ptz.Some? && |device.profiles| > 0
    ensures ResetAsWritten(e) == ResetWithNullCheck(e)
    ensures ResetAsWritten(e).entries == e[OnOffKey := Text("1")]
    ensures ResetAsWritten(e).requests ==
      if |device.ptz.value.presets| > 0
      then [Request.GotoPreset(device.ptz.value, device.profiles[0].token, device.ptz.value.presets[0], ResetSpeed)]
      else []
  {
    SessionFacts(e, device);
  }
}
