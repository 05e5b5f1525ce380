/**
 * The session maps (`Map<String, Object>`) both OperatingCamera copies keep
 * per camera, and `inspect`, which fills one from an established device:
 * "profileToken_<i>" and "stream_<i>" for every profile, "ptz" when the
 * device has a PTZ service, and in the main copy also "on-off" and
 * "onvifDevice".
 */
module SessionMaps {
  import opened Onvif
  import opened Text

  /** The objects stored in a session map. */
  datatype Value = Text(text: string) | DeviceRef(device: Device) | PtzRef(ptz: PtzHandle)

  const OnOffKey: string := "on-off"
  const DeviceKey: string := "onvifDevice"
  const PtzKey: string := "ptz"
  const PtzSupportKey: string := "ptzSupport"

  function TokenKey(i: nat): string {
    "profileToken_" + Decimal(i)
  }

  function StreamKey(i: nat): string {
    "stream_" + Decimal(i)
  }

  /** The keys the profile loop writes for profiles 0 .. n-1. */
  function ProfileKeys(n: nat): set<string> {
    (set i | 0 <= i < n :: TokenKey(i)) + (set i | 0 <= i < n :: StreamKey(i))
  }

  lemma {:induction false} TokenKeyInjective(i: nat, j: nat)
    requires TokenKey(i) == TokenKey(j)
    ensures i == j
  {
    assert Decimal(i) == TokenKey(i)[13..] == TokenKey(j)[13..] == Decimal(j);
    DecimalInjective(i, j);
  }

  lemma {:induction false} StreamKeyInjective(i: nat, j: nat)
    requires StreamKey(i) == StreamKey(j)
    ensures i == j
  {
    assert Decimal(i) == StreamKey(i)[7..] == StreamKey(j)[7..] == Decimal(j);
    DecimalInjective(i, j);
  }

  /** Token and stream keys never coincide, with each other or with the fixed keys. */
  lemma KeysDistinct(i: nat, j: nat)
    ensures TokenKey(i) != StreamKey(j)
    ensures TokenKey(i) !in {OnOffKey, DeviceKey, PtzKey, PtzSupportKey}
    ensures StreamKey(j) !in {OnOffKey, DeviceKey, PtzKey, PtzSupportKey}
  {
    assert TokenKey(i)[0] == 'p' && TokenKey(i)[1] == 'r';
    assert StreamKey(j)[0] == 's';
  }

  /** A key written by the profile loop identifies its profile index. */
  lemma {:induction false} ProfileKeyIndex(k: string, n: nat) returns (i: nat)
    requires k in ProfileKeys(n)
    ensures i < n && (k == TokenKey(i) || k == StreamKey(i))
    ensures k !in {OnOffKey, DeviceKey, PtzKey, PtzSupportKey}
  {
    if k in (set i | 0 <= i < n :: TokenKey(i)) {
      i :| 0 <= i < n && k == TokenKey(i);
    } else {
      i :| 0 <= i < n && k == StreamKey(i);
    }
    KeysDistinct(i, i);
  }

  /** The fixed keys are never written by the profile loop. */
  lemma FixedKeysNotProfileKeys(n: nat)
    ensures OnOffKey !in ProfileKeys(n) && DeviceKey !in ProfileKeys(n)
    ensures PtzKey !in ProfileKeys(n) && PtzSupportKey !in ProfileKeys(n)
  {
    forall i | 0 <= i < n
      ensures TokenKey(i) !in {OnOffKey, DeviceKey, PtzKey, PtzSupportKey}
      ensures StreamKey(i) !in {OnOffKey, DeviceKey, PtzKey, PtzSupportKey}
    {
      KeysDistinct(i, i);
    }
  }

  lemma ProfileKeysStep(n: nat)
    ensures ProfileKeys(n + 1) == ProfileKeys(n) + {TokenKey(n), StreamKey(n)}
  {
  }

  /** The keys of profile n are not among those of profiles 0 .. n-1. */
  lemma {:induction false} FreshProfileKeys(n: nat)
    ensures TokenKey(n) !in ProfileKeys(n) && StreamKey(n) !in ProfileKeys(n)
  {
    if TokenKey(n) in ProfileKeys(n) {
      var i := ProfileKeyIndex(TokenKey(n), n);
      KeysDistinct(n, i);
      TokenKeyInjective(n, i);
    }
    if StreamKey(n) in ProfileKeys(n) {
      var i := ProfileKeyIndex(StreamKey(n), n);
      KeysDistinct(i, n);
      StreamKeyInjective(n, i);
    }
  }

  /** Entry i of the map holds profile i's token and stream URI. */
  ghost predicate ListsProfiles(e: map<string, Value>, profiles: seq<Profile>) {
    forall i :: 0 <= i < |profiles| ==>
      && TokenKey(i) in e && e[TokenKey(i)] == Text(profiles[i].token)
      && StreamKey(i) in e && e[StreamKey(i)] == Text(profiles[i].stream)
  }

  function PtzKeys(device: Device): set<string> {
    if device.ptz.Some? then {PtzKey} else {}
  }

  /** The map `inspect` of the test-tree OperatingCamera returns for `device`. */
  ghost predicate IsClientSessionOf(e: map<string, Value>, device: Device) {
    && e.Keys == ProfileKeys(|device.profiles|) + PtzKeys(device)
    && ListsProfiles(e, device.profiles)
    && (device.ptz.Some? ==> e[PtzKey] == PtzRef(device.ptz.value))
  }

  /** The map `inspect` of the main OperatingCamera returns for `device`. */
  ghost predicate IsSessionOf(e: map<string, Value>, device: Device) {
    && e.Keys == {OnOffKey, DeviceKey} + ProfileKeys(|device.profiles|) + PtzKeys(device)
    && e[OnOffKey] == Text("1")
    && e[DeviceKey] == DeviceRef(device)
    && ListsProfiles(e, device.profiles)
    && (device.ptz.Some? ==> e[PtzKey] == PtzRef(device.ptz.value))
  }

  /** Whether an establishment attempt yields a session: the device answered, and
      a device with a PTZ service has a first profile for `profiles.get(0)`. */
  predicate Establishes(d: Option<Device>) {
    d.Some? && (d.value.ptz.Some? ==> |d.value.profiles| > 0)
  }

  /** The map getDevice returns when establishment fails. */
  function Offline(): map<string, Value> {
    map[OnOffKey := Text("0")]
  }

  predicate HasDevice(e: map<string, Value>) {
    DeviceKey in e && e[DeviceKey].DeviceRef?
  }

  /** The casts the wrappers apply to session-map entries succeed. */
  predicate WellFormed(e: map<string, Value>) {
    && (DeviceKey in e ==> e[DeviceKey].DeviceRef?)
    && (TokenKey(0) in e ==> e[TokenKey(0)].Text?)
    && (PtzKey in e ==> e[PtzKey].PtzRef?)
  }

  /** `(PTZ) map.get("ptz")`: None for a null entry. */
  function PtzOf(e: map<string, Value>): Option<PtzHandle> {
    if PtzKey in e && e[PtzKey].PtzRef? then Some(e[PtzKey].ptz) else None
  }

  /** `map.get("profileToken_0").toString()`, for a map holding that entry. */
  function FirstToken(e: map<string, Value>): string
    requires TokenKey(0) in e
  {
    match e[TokenKey(0)]
    case Text(t) => t
    case _ => ""
  }

  function DeviceOf(e: map<string, Value>): Device
    requires HasDevice(e)
  {
    e[DeviceKey].device
  }

  /** What a map built by the main `inspect` offers to the wrappers. */
  lemma {:induction false} SessionFacts(e: map<string, Value>, device: Device)
    requires IsSessionOf(e, device)
    ensures WellFormed(e) && HasDevice(e) && DeviceOf(e) == device
    ensures PtzOf(e) == device.ptz
    ensures TokenKey(0) in e <==> |device.profiles| > 0
    ensures TokenKey(0) in e ==> FirstToken(e) == device.profiles[0].token
    ensures e[OnOffKey := Text("1")] == e
  {
    KeysDistinct(0, 0);
    FixedKeysNotProfileKeys(|device.profiles|);
    if TokenKey(0) in ProfileKeys(|device.profiles|) {
      var i := ProfileKeyIndex(TokenKey(0), |device.profiles|);
      KeysDistinct(0, i);
      TokenKeyInjective(0, i);
    }
    assert OnOffKey in e;
  }

  /** What a map built by the test-tree `inspect` offers to its wrapper. */
  lemma {:induction false} ClientSessionFacts(e: map<string, Value>, device: Device)
    requires IsClientSessionOf(e, device)
    ensures WellFormed(e) && !HasDevice(e) && OnOffKey !in e
    ensures PtzOf(e) == device.ptz
    ensures TokenKey(0) in e <==> |device.profiles| > 0
    ensures TokenKey(0) in e ==> FirstToken(e) == device.profiles[0].token
  {
    KeysDistinct(0, 0);
    FixedKeysNotProfileKeys(|device.profiles|);
    if TokenKey(0) in ProfileKeys(|device.profiles|) {
      var i := ProfileKeyIndex(TokenKey(0), |device.profiles|);
      KeysDistinct(0, i);
      TokenKeyInjective(0, i);
    }
  }

  /** The value stored under a profile key is fixed by the device. */
  lemma {:induction false} ProfileEntriesAgree(e1: map<string, Value>, e2: map<string, Value>, profiles: seq<Profile>, k: string)
    requires ListsProfiles(e1, profiles) && ListsProfiles(e2, profiles)
    requires k in ProfileKeys(|profiles|)
    ensures k in e1 && k in e2 && e1[k] == e2[k]
  {
    var i := ProfileKeyIndex(k, |profiles|);
  }

  /** `inspect` is a function of the device: two maps built for one device are equal. */
  lemma {:induction false} SessionDeterminedByDevice(e1: map<string, Value>, e2: map<string, Value>, device: Device)
    requires IsSessionOf(e1, device) && IsSessionOf(e2, device)
    ensures e1 == e2
  {
    forall k | k in e1.Keys ensures e1[k] == e2[k] {
      if k in ProfileKeys(|device.profiles|) {
        ProfileEntriesAgree(e1, e2, device.profiles, k);
      }
    }
  }

  /** The map after the profile loop has run for profiles 0 .. i-1 over `start`. */
  ghost predicate ProfilesPut(start: map<string, Value>, m: map<string, Value>, profiles: seq<Profile>, i: nat)
    requires i <= |profiles|
  {
    && m.Keys == start.Keys + ProfileKeys(i)
    && ListsProfiles(m, profiles[..i])
    && (forall k :: k in start && k !in ProfileKeys(i) ==> m[k] == start[k])
  }

  /** One iteration of the profile loop adds profile i's two entries and disturbs nothing written before. */
  lemma PutProfileStep(start: map<string, Value>, m: map<string, Value>, profiles: seq<Profile>, i: nat)
    requires i < |profiles| && ProfilesPut(start, m, profiles, i)
    ensures ProfilesPut(start, m[TokenKey(i) := Text(profiles[i].token)][StreamKey(i) := Text(profiles[i].stream)], profiles, i + 1)
  {
    var m' := m[TokenKey(i) := Text(profiles[i].token)][StreamKey(i) := Text(profiles[i].stream)];
    ProfileKeysStep(i);
    assert m'.Keys == start.Keys + ProfileKeys(i + 1);
    PutKeepsEarlierProfiles(m, profiles, i);
    PutKeepsStart(start, m, i, Text(profiles[i].token), Text(profiles[i].stream));
  }

  /** The entries of profiles 0 .. i-1 survive profile i's two writes, which add profile i's own. */
  lemma PutKeepsEarlierProfiles(m: map<string, Value>, profiles: seq<Profile>, i: nat)
    requires i < |profiles| && ListsProfiles(m, profiles[..i])
    ensures ListsProfiles(m[TokenKey(i) := Text(profiles[i].token)][StreamKey(i) := Text(profiles[i].stream)], profiles[..i + 1])
  {
    var m' := m[TokenKey(i) := Text(profiles[i].token)][StreamKey(i) := Text(profiles[i].stream)];
    KeysDistinct(i, i);
    forall j | 0 <= j < i + 1
      ensures TokenKey(j) in m' && m'[TokenKey(j)] == Text(profiles[..i + 1][j].token)
      ensures StreamKey(j) in m' && m'[StreamKey(j)] == Text(profiles[..i + 1][j].stream)
    {
      if j < i {
        KeysDistinct(i, j);
        KeysDistinct(j, i);
        if TokenKey(i) == TokenKey(j) { TokenKeyInjective(i, j); }
        if StreamKey(i) == StreamKey(j) { StreamKeyInjective(i, j); }
        assert profiles[..i][j] == profiles[..i + 1][j];
      }
    }
  }

  /** Entries of `start` outside the keys of profiles 0 .. i are still those of `start`. */
  lemma PutKeepsStart(start: map<string, Value>, m: map<string, Value>, i: nat, token: Value, stream: Value)
    requires m.Keys == start.Keys + ProfileKeys(i)
    requires forall k :: k in start && k !in ProfileKeys(i) ==> m[k] == start[k]
    ensures forall k :: k in start && k !in ProfileKeys(i + 1) ==> m[TokenKey(i) := token][StreamKey(i) := stream][k] == start[k]
  {
    ProfileKeysStep(i);
  }

  /** The profile loop of `inspect`: for i in 0 .. |profiles|-1 put "profileToken_i" and "stream_i". */
  method PutProfiles(start: map<string, Value>, profiles: seq<Profile>) returns (m: map<string, Value>)
    ensures m.Keys == start.Keys + ProfileKeys(|profiles|)
    ensures ListsProfiles(m, profiles)
    ensures forall k :: k in start && k !in ProfileKeys(|profiles|) ==> m[k] == start[k]
  {
    m := start;
    var i := 0;
    assert ProfileKeys(0) == {};
    while i < |profiles|
      invariant 0 <= i <= |profiles|
      invariant ProfilesPut(start, m, profiles, i)
    {
      PutProfileStep(start, m, profiles, i);
      m := m[TokenKey(i) := Text(profiles[i].token)][StreamKey(i) := Text(profiles[i].stream)];
      i := i + 1;
    }
    assert profiles[..i] == profiles;
  }

  /** `inspect` of the main OperatingCamera. */
  method InspectSession(device: Device) returns (o: Outcome<map<string, Value>>)
    ensures o.Threw? <==> device.ptz.Some? && |device.profiles| == 0
    ensures o.Threw? ==> o.fault == IndexOutOfBounds
    ensures o.Returned? ==> IsSessionOf(o.value, device)
  {
    KeysDistinct(0, 0);
    FixedKeysNotProfileKeys(|device.profiles|);
    var m := map[OnOffKey := Text("1"), DeviceKey := DeviceRef(device)];
    if |device.profiles| > 0 {
      m := PutProfiles(m, device.profiles);
    }
    if device.ptz.Some? {
      if |device.profiles| == 0 {
        return Threw(IndexOutOfBounds);
      }
      m := m[PtzKey := PtzRef(device.ptz.value)];
    }
    return Returned(m);
  }

  /** `inspect` of the test-tree OperatingCamera: no "on-off" and no "onvifDevice" entry. */
  method InspectClient(device: Device) returns (o: Outcome<map<string, Value>>)
    ensures o.Threw? <==> device.ptz.Some? && |device.profiles| == 0
    ensures o.Threw? ==> o.fault == IndexOutOfBounds
    ensures o.Returned? ==> IsClientSessionOf(o.value, device)
    ensures o.Returned? ==> OnOffKey !in o.value && DeviceKey !in o.value
  {
    FixedKeysNotProfileKeys(|device.profiles|);
    var m: map<string, Value> := map[];
    if |device.profiles| > 0 {
      m := PutProfiles(m, device.profiles);
    }
    if device.ptz.Some? {
      if |device.profiles| == 0 {
        return Threw(IndexOutOfBounds);
      }
      m := m[PtzKey := PtzRef(device.ptz.value)];
    }
    o := Returned(m);
    ClientSessionFacts(m, device);
  }
}
