# ONVIF PTZ wrapper, modelled in Dafny

This project models the PTZ (pan/tilt/zoom) control wrapper of the `onvif-java` repository and proves properties of the model. It covers four classes:

- `de.onvif.external.OperatingCamera`, the main wrapper. It keeps a static per-host cache of session maps (`getDeviceMaps`), and each map holds `on-off`, `onvifDevice`, `profileToken_<i>`, `stream_<i>` and `ptz`. Its operations are:
  - a get-or-establish lookup shared by `getOnLineOrOffLine`, `getReset` and `executeContinuousMove(BaseInfo, …)`;
  - a liveness flag overwritten in place in the cached map;
  - the four `executeContinuousMove` overloads, which translate a direction command and a speed into pan/tilt and zoom vectors and report `ptzSupport`;
  - a reset to the first preset.
- `org.onvif.client.OperatingCamera`, the test-tree copy. It keeps one global session map and the last credentials in static fields, and re-establishes the session before a move when the stored handle is null or the stored token is blank.
- `org.onvif.client.TestDevice`. The model covers:
  - its fixed-magnitude move table;
  - the PTZ part of `inspect`, which makes one LEFTUP move per preset;
  - `printTree`, which flattens an event-topic tree into one line per leaf.
- `de.onvif.external.BaseInfo`, the seven-field parameter bean.

How the model maps the Java:
- **Cameras.** `Onvif.DeviceNetwork` stands for the cameras. It answers establishment attempts from a script (`connects`: a device or a refusal) and identity queries from a second script. It records the connect, identity, move and go-to-preset requests the wrappers send, in `sent`. It also carries `urlParses`, the verdict of `java.net.URL` on a URL string: true when `new URL(spec)` returns instead of throwing `MalformedURLException`. A PTZ handle carries its preset list and whether it faults on commands.
- **Exceptions.** A Java exception that reaches the caller becomes `Outcome.Threw(fault)`. A null boxed value is `None`; unboxing it throws `NullPointer`.
- **Main session maps.** These are `External.SessionMap` objects, so a map taken from the cache and updated is updated in the cache too, as the Java `HashMap` is.
- **Test copy and bean.** The test copy's state and `BaseInfo` are classes whose fields the methods reassign.
- **Value-like parts.** The direction tables, URL prefixing, session-map keys and `printTree`'s text are functions.

## Behaviour worth noting

- **Two establishments per success.** A successful `getDevice` connects twice: `testCamera(creds)` inspects once for the cache and once more for its result. A lookup whose map holds no device calls `getDevice` a second time, so a miss sends two to four logins. A malformed URL makes `new URL` throw before any connect, so then a miss sends none.
- **The caller's map is not the cached one.** `testCamera(creds)` caches the first map under `creds.getHost()` and returns the second, a different object. So on a miss, the liveness flag written into the returned map does not reach the cache.
- **What triggers re-establishment.** Only a map without a device does. The liveness probe only rewrites `on-off`.
- **Cache key.** The cache is read under `getIpAddress()` and written under `creds.getHost()`. The model keeps the two keys apart.
- **Exceptions.** Several paths raise instead of reporting in a map:
  - `executeContinuousMove(BaseInfo, …)` throws `NullPointerException` when the session has no `profileToken_0`, which is always the case for the offline map;
  - it also throws on a null timeout, and on a null speed when the direction is one of the ten recognised commands;
  - `getReset` throws on a device without a PTZ service (see Findings).

## Model

| member | source | states |
|---|---|---|
| Text.DeviceUrl | onvif-java/src/main/java/de/onvif/external/OperatingCamera.java:60-63 | The URL starts with "http" and ends with the host. It equals the host exactly when the host already starts with "http"; otherwise it is "http://" + host. |
| Text.DeviceUrlIdempotent | onvif-java/src/test/java/org/onvif/client/TestDevice.java:40-43 | Prefixing an already prefixed URL changes nothing. |
| Text.DeviceUrlPrefixed | onvif-java/src/test/java/org/onvif/client/OperatingCamera.java:55-58 | A host without "http" gets exactly the seven characters "http://" in front, and the rest is the host unchanged. |
| Text.Decimal | onvif-java/src/main/java/de/onvif/external/OperatingCamera.java:95-96 | The index rendered into "profileToken_" + i is a non-empty run of decimal digits, with a leading zero only for 0 itself. |
| Text.DecimalValue | onvif-java/src/main/java/de/onvif/external/OperatingCamera.java:95-96 | Read back as a decimal numeral, the rendering of i is i: the key names the profile's own index. |
| Text.DecimalInjective | onvif-java/src/main/java/de/onvif/external/OperatingCamera.java:95-96 | Distinct profile indices give distinct renderings. |
| Ptz.ParseCommand | onvif-java/src/main/java/de/onvif/external/OperatingCamera.java:174-224 | The switch recognises exactly the ten command names, each as its own direction. |
| Ptz.ParseCommandName | onvif-java/src/main/java/de/onvif/external/OperatingCamera.java:174-221 | Every direction's command name parses back to that direction. |
| Ptz.Translate | onvif-java/src/main/java/de/onvif/external/OperatingCamera.java:165-226 | The pan/tilt space is always PanTiltSpaces/PositionGenericSpace and the zoom space always ZoomSpaces/PositionGenericSpace, whatever the direction. |
| Ptz.TranslateFollowsSignTable | onvif-java/src/main/java/de/onvif/external/OperatingCamera.java:174-221 | Each of the ten commands sets pan = sign·s and tilt = sign·s from the LEFT/RIGHT/UP/DOWN table. Zoom is set (to ±s) only by ZOOM_IN and ZOOM_OUT; the eight pan/tilt commands leave it unset. |
| Ptz.TranslateUnknown | onvif-java/src/main/java/de/onvif/external/OperatingCamera.java:222-226 | An unrecognised direction sets no component, so every component goes on the wire as 0. |
| Ptz.TranslateNegatedSpeed | onvif-java/src/main/java/de/onvif/external/OperatingCamera.java:174-221 | A negated speed gives the same vectors as the opposite command. |
| Ptz.TranslateBounded | onvif-java/src/main/java/de/onvif/external/OperatingCamera.java:174-226 | For a speed in [0, 1], every wire component has magnitude at most s, and so lies in [-1, 1]. |
| Ptz.FixedTranslate | onvif-java/src/test/java/org/onvif/client/TestDevice.java:232-289 | The fixed table uses the same two generic spaces for every direction. |
| Ptz.FixedIsScaledTable | onvif-java/src/test/java/org/onvif/client/TestDevice.java:240-272 | Apart from ZOOM_OUT, including unknown directions, the fixed table equals the scaled table at speed 0.2. |
| Ptz.FixedZoomAsymmetric | onvif-java/src/test/java/org/onvif/client/TestDevice.java:267-277 | ZOOM_OUT uses -0.21, so it is not the scaled table, and fixed zoom-in and zoom-out do not cancel. |
| SessionMaps.TokenKeyInjective | onvif-java/src/main/java/de/onvif/external/OperatingCamera.java:95 | Two profile indices with the same "profileToken_" key are equal. |
| SessionMaps.StreamKeyInjective | onvif-java/src/main/java/de/onvif/external/OperatingCamera.java:96 | Two profile indices with the same "stream_" key are equal. |
| SessionMaps.KeysDistinct | onvif-java/src/main/java/de/onvif/external/OperatingCamera.java:79-113 | Token keys, stream keys and the four fixed keys never collide. |
| SessionMaps.ProfileKeyIndex | onvif-java/src/main/java/de/onvif/external/OperatingCamera.java:86-97 | Every key the profile loop writes names one profile index below the count and is not a fixed key. |
| SessionMaps.FixedKeysNotProfileKeys | onvif-java/src/main/java/de/onvif/external/OperatingCamera.java:79-113 | The profile loop never overwrites "on-off", "onvifDevice", "ptz" or "ptzSupport". |
| SessionMaps.ProfileKeysStep | onvif-java/src/main/java/de/onvif/external/OperatingCamera.java:86-97 | One more loop iteration adds exactly that profile's token and stream keys. |
| SessionMaps.FreshProfileKeys | onvif-java/src/main/java/de/onvif/external/OperatingCamera.java:95-96 | Iteration i writes keys that no earlier iteration wrote. |
| SessionMaps.PutProfiles | onvif-java/src/main/java/de/onvif/external/OperatingCamera.java:85-98 | The loop adds exactly the keys of profiles 0..n-1. Entry i holds profile i's token and stream, and every other entry is kept. |
| SessionMaps.InspectSession | onvif-java/src/main/java/de/onvif/external/OperatingCamera.java:77-117 | `inspect` throws IndexOutOfBounds exactly when the device has PTZ but no profile. Otherwise the map has exactly "on-off" = "1", the device, the profile entries and "ptz" iff PTZ is present. |
| SessionMaps.InspectClient | onvif-java/src/test/java/org/onvif/client/OperatingCamera.java:72-110 | The same for the test copy: the same failure case and the same profile and "ptz" entries, but no "on-off" or device entry. |
| SessionMaps.SessionFacts | onvif-java/src/main/java/de/onvif/external/OperatingCamera.java:77-117 | An inspected map casts as the wrappers expect. Its device, "ptz" and first token are the device's own. "profileToken_0" exists iff there is a profile, and "on-off" is already "1". |
| SessionMaps.ClientSessionFacts | onvif-java/src/test/java/org/onvif/client/OperatingCamera.java:72-110 | The test copy's map holds no device and no "on-off". Its "ptz" and first token are the device's own. |
| SessionMaps.ProfileEntriesAgree | onvif-java/src/main/java/de/onvif/external/OperatingCamera.java:86-97 | Two maps listing the same profiles agree on every profile key. |
| SessionMaps.SessionDeterminedByDevice | onvif-java/src/main/java/de/onvif/external/OperatingCamera.java:77-117 | Two inspections of one device give equal maps. So when both connects of one getDevice call answer with the same device, the returned second map has the same contents as the cached first one; when they answer with different devices, the contents may differ. |
| External.MoveReport | onvif-java/src/main/java/de/onvif/external/OperatingCamera.java:227-235 | The move result has the single key "ptzSupport". It is "support" iff a handle is present and the call returns normally, else "noSupport". |
| External.ContinuousMove | onvif-java/src/main/java/de/onvif/external/OperatingCamera.java:165-237 | If the switch unboxes a null speed, the call throws and sends nothing. Otherwise it reports MoveReport(ptz) and sends one continuousMove with the translated vectors; a null handle sends none. |
| External.ContinuousMoveTimed | onvif-java/src/main/java/de/onvif/external/OperatingCamera.java:161-163 | A null timeout throws before anything is sent. Otherwise the call behaves as the Duration overload with that many milliseconds. |
| External.ContinuousMoveDefault | onvif-java/src/main/java/de/onvif/external/OperatingCamera.java:156-159 | Moves at speed 0.1 for 1000 ms and never throws. |
| External.MoveRequests | onvif-java/src/main/java/de/onvif/external/OperatingCamera.java:227-229 | A move puts at most one request on the wire: a continuousMove exactly when there is a handle, carrying that handle, the speed and the duration. |
| External.Liveness | onvif-java/src/main/java/de/onvif/external/OperatingCamera.java:290-303 | The flag is "1" or "0". It is "0" without a device; with one, it is "1" exactly when the identity has a character that is not whitespace. |
| External.IdentityQueries | onvif-java/src/main/java/de/onvif/external/OperatingCamera.java:293-295 | The probe sends one device-information query, to the map's own device, when the map holds a device, and none otherwise. |
| External.OperatingCamera.Probe | onvif-java/src/main/java/de/onvif/external/OperatingCamera.java:130-140 | The map object itself gets "on-off" set to Liveness of its old entries and the next identity; the other entries are kept, and only IdentityQueries is sent. |
| External.ResetRequests | onvif-java/src/main/java/de/onvif/external/OperatingCamera.java:257-272 | A reset sends at most one go-to-preset, and exactly one iff the preset list is non-empty. |
| External.Establish | onvif-java/src/main/java/de/onvif/external/OperatingCamera.java:70-75 | Sends one connect. It returns iff the camera answers and can be inspected, and then returns the inspected session of that camera. |
| External.Attempt | onvif-java/src/main/java/de/onvif/external/OperatingCamera.java:49-56 | One guarded establishment on the already parsed URL sends one login and gives a fresh map: the camera's session with "on-off" = "1", or exactly {"on-off": "0"}. It holds a device iff establishment succeeded. |
| External.OfflineHasNoDevice | onvif-java/src/main/java/de/onvif/external/OperatingCamera.java:54-56 | The map of the catch path holds no device. |
| External.OperatingCamera.GetDevice | onvif-java/src/main/java/de/onvif/external/OperatingCamera.java:47-68 | Takes GetDevicePath for the URL's verdict and the next two connect replies. If `new URL` throws, nothing is sent or cached and {"on-off": "0"} is returned. If the first connect fails, nothing is cached and {"on-off": "0"} is returned after one login. Otherwise the host gets a fresh cached session of the first camera, and the result is a second fresh map, not the cached one, after two logins. The cache keeps its invariant. |
| External.GetDevicePath | onvif-java/src/main/java/de/onvif/external/OperatingCamera.java:47-68 | One getDevice call sends at most two logins, and none exactly when the URL is malformed. Only an establishing reply is cached, and a map with a device is returned only after one was cached. |
| External.MissPath | onvif-java/src/main/java/de/onvif/external/OperatingCamera.java:122-129 | The miss path case by case, over the URL's verdict and the next four connect replies: no login iff the URL is malformed, otherwise two to four. The cached reply is always one that establishes, and a malformed URL caches and returns nothing. |
| External.MissPathComposes | onvif-java/src/main/java/de/onvif/external/OperatingCamera.java:122-129 | MissPath is one GetDevicePath, then, when that map holds no device, a second GetDevicePath on the replies the first one left. The logins add up, the later cached reply wins, and the second call's result is returned. |
| External.OperatingCamera.CacheAndRetry | onvif-java/src/main/java/de/onvif/external/OperatingCamera.java:65-67 | The cache gains exactly the host's entry, then one more establishment runs. |
| External.OperatingCamera.CacheSession | onvif-java/src/main/java/de/onvif/external/OperatingCamera.java:66 | The cache changes only under the host, and it still holds only maps with a device. |
| External.OperatingCamera.Reestablish | onvif-java/src/main/java/de/onvif/external/OperatingCamera.java:122-129 | On a miss getDevice runs, and runs again when its map has no device. It takes MissPath of the URL's verdict and Script(0)..Script(3). It sends exactly that many logins and nothing else. The cache changes only under the host, to a fresh map holding the session of MissPath's cached reply, or not at all. The returned fresh map is the attempt on MissPath's returned reply. For example, replies [ok, refused, ok, ok] give four logins, the third reply's session cached and the fourth's returned. |
| External.OperatingCamera.Resolve | onvif-java/src/main/java/de/onvif/external/OperatingCamera.java:122-129 | On a hit: the stored map itself, with no request and the cache unchanged. On a miss: Reestablish's outcome by MissPath, and the host's cached map is the session of MissPath's cached reply. |
| External.OperatingCamera.GetOnLineOrOffLine | onvif-java/src/main/java/de/onvif/external/OperatingCamera.java:284-306 | The resolved map's "on-off" is overwritten in place with "1" iff it holds a device whose identity is not blank. Other entries and other cached maps are unchanged, and one identity query is sent iff there is a device. |
| External.OperatingCamera.ExecuteContinuousMove | onvif-java/src/main/java/de/onvif/external/OperatingCamera.java:120-150 | The lookup and probe as above. Then it throws NullPointer if the session lacks "profileToken_0", the timeout is null, or a recognised direction meets a null speed. Otherwise it reports MoveReport of the session's handle and sends the translated move. |
| External.ResetAsWritten | onvif-java/src/main/java/de/onvif/external/OperatingCamera.java:250-280 | A map without a device is untouched. It throws NullPointer iff the map has a device but lacks "profileToken_0" or a PTZ handle. Otherwise "on-off" becomes "1", and any request is one go-to-preset to the first preset at pan = tilt = zoom = 1. |
| External.ResetWithNullCheck | onvif-java/src/main/java/de/onvif/external/OperatingCamera.java:250-280 | With the null check first, it throws NullPointer only on a missing "profileToken_0". A device without a handle gets "on-off" = "0" and nothing is sent; one with a handle gets "1", and a go-to-preset the camera refuses surfaces as DeviceFault. |
| External.ResetVariantsDiffer | onvif-java/src/main/java/de/onvif/external/OperatingCamera.java:252-255 | The two resets differ exactly on a device that has a first profile but no PTZ handle. |
| External.ResetKeepsSession | onvif-java/src/main/java/de/onvif/external/OperatingCamera.java:256 | Either reset changes only "on-off" and keeps the map's device and well-formedness. |
| External.OnOffPreservesWellFormed | onvif-java/src/main/java/de/onvif/external/OperatingCamera.java:134-139 | Overwriting "on-off" keeps the device, the handle and the first token. |
| External.ResetWithoutPtz | onvif-java/src/main/java/de/onvif/external/OperatingCamera.java:252-255 | A camera with a profile but no PTZ makes the written reset throw, while the guarded reset reports "0" and sends nothing. |
| External.ResetWithPtz | onvif-java/src/main/java/de/onvif/external/OperatingCamera.java:255-272 | On a PTZ camera both resets agree. They set "on-off" to "1" and send at most one go-to-preset, to the first preset. |
| External.ResetSession | onvif-java/src/main/java/de/onvif/external/OperatingCamera.java:250-279 | Performs ResetAsWritten in place on the map and on the wire. |
| External.ResetSessionGuarded | onvif-java/src/main/java/de/onvif/external/OperatingCamera.java:250-279 | Performs ResetWithNullCheck in place on the map and on the wire. |
| External.OperatingCamera.GetReset | onvif-java/src/main/java/de/onvif/external/OperatingCamera.java:240-281 | The lookup, then ResetAsWritten on the resolved map. It returns that map, or throws its fault, and other cached maps are unchanged. |
| External.OperatingCamera.GetResetGuarded | onvif-java/src/main/java/de/onvif/external/OperatingCamera.java:240-281 | The same lookup with ResetWithNullCheck. |
| Client.NeedsRefresh | onvif-java/src/test/java/org/onvif/client/OperatingCamera.java:129 | A null handle or an empty token needs re-establishment. No refresh is needed exactly when there is a handle and the token has a character that is not whitespace. |
| Client.MoveOutcome | onvif-java/src/test/java/org/onvif/client/OperatingCamera.java:145-194 | The test copy's move returns normally iff the speed is readable, the handle is present and the camera accepts the command. Otherwise it throws NullPointer, or DeviceFault when the camera refuses. |
| Client.MoveSent | onvif-java/src/test/java/org/onvif/client/OperatingCamera.java:138-194 | At most one continuousMove is sent, exactly when a handle is present and the switch did not throw. |
| Client.Establish | onvif-java/src/test/java/org/onvif/client/OperatingCamera.java:65-70 | One connect. Its result is the inspected client map, or ConnectFailed, or IndexOutOfBounds for a PTZ camera without profiles. |
| Client.Move | onvif-java/src/test/java/org/onvif/client/OperatingCamera.java:138-194 | The result and requests are MoveOutcome and MoveSent. |
| Client.OperatingCamera.Remember | onvif-java/src/test/java/org/onvif/client/OperatingCamera.java:59-61 | The static fields url, userName and password take the prefixed URL, the user and the password; the session map and ipAddress are kept. |
| Client.OperatingCamera.TestCamera | onvif-java/src/test/java/org/onvif/client/OperatingCamera.java:53-63 | ipAddress takes the host first. If `new URL` throws, MalformedUrl escapes, nothing is sent, and url, userName and password keep their old values. Otherwise it remembers the prefixed URL, user and password and establishes once. It returns the camera's client session iff the URL parses and the camera establishes, and otherwise throws ConnectFault. The session map is left alone. |
| Client.ConnectFault | onvif-java/src/test/java/org/onvif/client/OperatingCamera.java:53-70 | The fault testCamera lets escape: MalformedUrl iff the URL is malformed; otherwise ConnectFailed iff the camera does not answer, and IndexOutOfBounds when it answers but cannot be inspected. |
| Client.OperatingCamera.GetDevice | onvif-java/src/test/java/org/onvif/client/OperatingCamera.java:47-51 | On success the session becomes exactly the fresh inspection. On failure the exception ConnectFault names reaches the caller and the session is kept; a malformed URL sends nothing. |
| Client.OperatingCamera.Refresh | onvif-java/src/test/java/org/onvif/client/OperatingCamera.java:129-137 | Re-establishes with the remembered URL and credentials. A connection failure is swallowed; an inspect failure escapes as IndexOutOfBounds. |
| Client.OperatingCamera.ExecuteContinuousMove | onvif-java/src/test/java/org/onvif/client/OperatingCamera.java:126-195 | It throws NullPointer if there is no session or no "profileToken_0". It re-establishes exactly when the stored handle is null or the stored token blank, and then still moves with the handle and token read before. |
| Client.OperatingCamera.ExecuteContinuousMoveRefreshed | onvif-java/src/test/java/org/onvif/client/OperatingCamera.java:126-195 | The corrected move: after a successful refresh it moves with the new session's handle and first token. |
| Client.OperatingCamera.ExecuteContinuousMoveDefault | onvif-java/src/test/java/org/onvif/client/OperatingCamera.java:117-120 | Moves at speed 0.1 for 1000 ms. |
| Client.OperatingCamera.ExecuteContinuousMoveTimed | onvif-java/src/test/java/org/onvif/client/OperatingCamera.java:122-124 | A null timeout throws before anything is read or sent. Otherwise the call behaves as the Duration overload. |
| Client.StaleHandle | onvif-java/src/test/java/org/onvif/client/OperatingCamera.java:127-131 | A session with a null handle always needs a refresh. The stale handle makes the move throw, while the refreshed camera's handle would succeed and send one move. |
| Client.CopiesAgreeOnSupport | onvif-java/src/test/java/org/onvif/client/OperatingCamera.java:145-194 | The test copy's move succeeds exactly where the main copy reports "support", and both send the same request. |
| TestDevice.FixedMove | onvif-java/src/test/java/org/onvif/client/TestDevice.java:232-290 | Sends one continuousMove with the fixed table's vectors. It throws NullPointer on a null handle and DeviceFault when the camera refuses. |
| TestDevice.FixedMoveSent | onvif-java/src/test/java/org/onvif/client/TestDevice.java:284-289 | Every direction, known or not, sends one move carrying the fixed table's vectors; a null handle sends none. |
| TestDevice.InspectPtz | onvif-java/src/test/java/org/onvif/client/TestDevice.java:146-188 | No PTZ: nothing is sent. PTZ without profiles: IndexOutOfBounds. Otherwise exactly one LEFTUP move of 2000 ms per preset. A refusing camera stops after the first move and reports "Unavailable". |
| TestDevice.PresetMove | onvif-java/src/test/java/org/onvif/client/TestDevice.java:180 | The preset exercise's move is a continuousMove on the given handle and token for 2000 ms, going left (pan below 0) and up (tilt above 0) without zoom. |
| TestDevice.TestCamera | onvif-java/src/test/java/org/onvif/client/TestDevice.java:39-45 | A malformed URL throws MalformedUrl before anything is sent. Otherwise one login to the prefixed URL, then exactly the PTZ part of `inspect`. A refused connect throws ConnectFailed. A reachable camera gets InspectPtz's outcome, and its requests follow the login: none without PTZ, IndexOutOfBounds for PTZ without profiles, one LEFTUP move per preset, or a single move and "Unavailable" when the camera refuses. |
| TestDevice.LeafLine | onvif-java/src/test/java/org/onvif/client/TestDevice.java:202 | A leaf's line is two tabs, the path, " - ", the leaf's name and a newline, and nothing else. |
| TestDevice.Leaves | onvif-java/src/test/java/org/onvif/client/TestDevice.java:193-204 | Every node yields at least one leaf: a node without children is itself one. |
| TestDevice.ForestLeaves | onvif-java/src/test/java/org/onvif/client/TestDevice.java:196-200 | Each child yields at least one leaf, so the loop writes at least one line per child. |
| TestDevice.PathExtendsStart | onvif-java/src/test/java/org/onvif/client/TestDevice.java:193-204 | Every leaf path printTree builds extends the path it was started with. |
| TestDevice.ForestPathExtendsStart | onvif-java/src/test/java/org/onvif/client/TestDevice.java:196-200 | Every path built under the children extends the parent's path, since each step appends " - " and a name. |
| TestDevice.TopicLeaves | onvif-java/src/test/java/org/onvif/client/TestDevice.java:135-141 | Every topic contributes at least one line. |
| TestDevice.LinesAppend | onvif-java/src/test/java/org/onvif/client/TestDevice.java:197-202 | The lines of two leaf runs are the lines of each, in order. |
| TestDevice.FlattenAppend | onvif-java/src/test/java/org/onvif/client/TestDevice.java:202 | The text of appended lines is the text of each, in order. |
| TestDevice.OneLinePerLeaf | onvif-java/src/test/java/org/onvif/client/TestDevice.java:193-204 | printTree writes exactly one line per leaf, as counted independently of the paths; internal nodes write nothing. |
| TestDevice.ForestOneLinePerLeaf | onvif-java/src/test/java/org/onvif/client/TestDevice.java:196-200 | The child loop writes one line per leaf under the children. |
| TestDevice.PathEndsWithLeaf | onvif-java/src/test/java/org/onvif/client/TestDevice.java:199 | Starting from a path that ends with the root's name, every leaf's path ends with the leaf's own name. |
| TestDevice.ForestPathEndsWithLeaf | onvif-java/src/test/java/org/onvif/client/TestDevice.java:197-200 | Each child's path is the parent path + " - " + child name, so it ends with that name. |
| TestDevice.LeafNamedTwice | onvif-java/src/test/java/org/onvif/client/TestDevice.java:202 | Such a leaf's line ends with "<leaf> - <leaf>\n". |
| TestDevice.TopicLinesNameLeafTwice | onvif-java/src/test/java/org/onvif/client/TestDevice.java:136-138 | Every line printed for a topic started from its own name shows its leaf's name twice at the end. |
| TestDevice.ForestTextStep | onvif-java/src/test/java/org/onvif/client/TestDevice.java:197-200 | One more loop iteration appends exactly that child's text. |
| TestDevice.PrintTree | onvif-java/src/test/java/org/onvif/client/TestDevice.java:193-204 | printTree only appends: the buffer becomes its old contents followed by the lines of all leaves under the node, depth first and left to right. |
| TestDevice.PrintChildren | onvif-java/src/test/java/org/onvif/client/TestDevice.java:196-200 | The child loop appends the lines of every child's subtree, in child order. |
| TestDevice.StringBuffer.Append | onvif-java/src/test/java/org/onvif/client/TestDevice.java:202 | Appending keeps the old contents as a prefix. |
| TestDevice.PrintTopics | onvif-java/src/test/java/org/onvif/client/TestDevice.java:135-141 | The topic buffer holds the lines of every topic's leaves, each topic started from its own name, in topic order. |
| Parameters.BaseInfo.constructor | onvif-java/src/main/java/de/onvif/external/BaseInfo.java:15-24 | A fresh bean has all seven fields null. |
| Parameters.BaseInfo.SetIpAddress | onvif-java/src/main/java/de/onvif/external/BaseInfo.java:30-32 | Stores the value unchanged and keeps the other six fields. |
| Parameters.BaseInfo.SetIpPort | onvif-java/src/main/java/de/onvif/external/BaseInfo.java:38-40 | Stores the value unchanged and keeps the other six fields. |
| Parameters.BaseInfo.SetUserName | onvif-java/src/main/java/de/onvif/external/BaseInfo.java:46-48 | Stores the value unchanged and keeps the other six fields. |
| Parameters.BaseInfo.SetPassword | onvif-java/src/main/java/de/onvif/external/BaseInfo.java:54-56 | Stores the value unchanged and keeps the other six fields. |
| Parameters.BaseInfo.SetUrl | onvif-java/src/main/java/de/onvif/external/BaseInfo.java:62-64 | Stores the value unchanged and keeps the other six fields. |
| Parameters.BaseInfo.SetTimeOut | onvif-java/src/main/java/de/onvif/external/BaseInfo.java:70-72 | Stores any timeout unchanged and keeps the other six fields. |
| Parameters.BaseInfo.SetSpeed | onvif-java/src/main/java/de/onvif/external/BaseInfo.java:78-80 | Stores any speed unchanged, without validation, and keeps the other six fields. |
| Parameters.ConfigureExample | onvif-java/src/main/java/de/onvif/external/OperatingCamera.java:308-313 | An example, the bean main() fills: reading it back gives the address, user, password, speed 0.2 and timeout 5000 that main() set, and the port and URL it never set are null. |

## Left out

- The SOAP transport and the device library. This covers `OnvifDevice`, `Media`, `PTZ`, stream and snapshot URIs, capabilities, `getStatus`, and imaging, audio and events. It is replaced by `Onvif.DeviceNetwork`: scripted establishment and identity replies, a per-handle preset list, a flag for whether PTZ commands fault, and a log of requests.
- `GetTestDevice.getOnvifCredentials` is not part of this model. Its result is a `Credentials` parameter, and the model does not assume that its host equals the bean's `ipAddress`.
- Logging, `printStackTrace` and every `main` method, including the endless move loop. These are output only. Of `main`, only the bean it fills is modelled, by `Parameters.ConfigureExample`.
- The `synchronized` modifiers and the atomicity of `ConcurrentHashMap`. Every operation is modelled sequentially.
- `Float` arithmetic and `Duration` construction. Speeds are `real` and durations are milliseconds. `DatatypeConfigurationException` and `InterruptedException` are never raised by the model.
- The report strings that `TestDevice.inspect` builds with `OnvifUtils.format`. Its PTZ part is summarised by `PtzReport`. The events part is modelled only through `printTree` over the topic elements; the other sections of `inspect` are not modelled.
- The parser of `java.net.URL`. Whether `new URL(spec)` throws is the parameter `DeviceNetwork.urlParses`, a function of the URL string.
- A `getPresets` call on a handle that faults. The model lets only moves and go-to-preset fault; `getServiceCapabilities` and `getStatus` never fail.
- External.OperatingCamera.GetOnLineOrOffLine: requires a non-null `ipAddress`. With a null address, `ConcurrentHashMap.get(null)` throws before anything else happens; the model states this as a precondition instead of an outcome.
- External.OperatingCamera.ExecuteContinuousMove: requires a non-null `ipAddress`, for the same reason.
- External.OperatingCamera.GetReset: requires a non-null `ipAddress`, for the same reason; the same holds for `GetResetGuarded`.
- `Character.isWhitespace` follows the Unicode tables of the Java runtime. `Text.IsWhitespace` uses the modern set. It leaves out U+180E, which older runtimes (Unicode 6.2 and before) also count as a space separator.
- A null `direction` string. It would make the `switch` throw, but directions are plain strings in the model.
- The unused `ipPort` static field of the test copy.
- Client.OperatingCamera.ExecuteContinuousMoveDefault: states the result only for a stored session that needs no refresh. The other cases are those of `ExecuteContinuousMove`, which it calls.
- Client.OperatingCamera.ExecuteContinuousMoveTimed: states the result only for a null timeout and for a stored session that needs no refresh, for the same reason.
- Whole-scenario runs, such as a hit after a miss, or two liveness probes in a row. These are not stated as separate members; each operation's contract covers one call from any cache state.

## Findings

| source | as written | input that shows it | evidently intended | confidence | as-written member | corrected member |
|---|---|---|---|---|---|---|
| onvif-java/src/main/java/de/onvif/external/OperatingCamera.java:252-255 | `getReset` calls `ptz.getPresets(...)` before checking `ptz != null`, so the `else` branch that writes "on-off" = "0" can never run | a cached session of a camera with one media profile and no PTZ service | report "on-off" = "0" and send nothing | not executed | External.ResetAsWritten | External.ResetWithNullCheck |
| onvif-java/src/test/java/org/onvif/client/OperatingCamera.java:127-131 | after re-establishing because the stored handle is null, the move still uses the handle and token read before, so it dereferences the null handle | a stored session whose "ptz" entry is null, refreshed from a camera that has a PTZ service | move with the refreshed session's handle and first token | not executed | Client.OperatingCamera.ExecuteContinuousMove | Client.OperatingCamera.ExecuteContinuousMoveRefreshed |

The lemma `External.ResetWithoutPtz` exhibits the first row on any such session, and `External.ResetVariantsDiffer` shows that the two resets differ on exactly those maps. The lemma `Client.StaleHandle` exhibits the second row.
