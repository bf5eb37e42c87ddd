# voice-bridge relay core in Dafny

This project models the relay bookkeeping of the voice-bridge server plugin.
The plugin connects two proximity voice-chat mods, Simple Voice Chat (SVC) and
Plasmo Voice (PV), so that the players of one hear the players of the other.
The mod libraries themselves are not modelled; what remains is the following.

- **Session registry** (`SessionSpec`, `Session`). One `BridgeSession` object
  per player, held in a map. Each session has a set of mod memberships, an
  `active` flag and two timestamps. The map sits next to the global
  active-session counter.
  - `SessionSpec` states the registry as a value, `Registry = map<Uuid,
    SessionState>`, with one function per operation. Every lemma about the
    registry is proved against these functions.
  - `Session.SessionManager` updates the objects in place. Each method is
    proved to move its ghost `View()` exactly as the matching `SessionSpec`
    function does. It also states the counter change and keeps `Valid()`:
    every stored session is keyed by its own player, holds a membership and
    is active.
  - `SessionSpec.ReplayInSync` states the counter invariant. From an empty
    registry, any sequence of register, unregister, per-mod unregister,
    touch, sweep and clear calls keeps the counter equal to the number of
    sessions.
- **Distance mapper** (`Spatial`). These are pure functions over the
  configuration. They cover:
  - the effective distance, which is capped and falls back to the world's
    override or the default;
  - SVC to PV, which truncates toward zero and then clamps into [1, 32767];
  - PV to SVC, which has no lower clamp;
  - whisper attenuation.

  The lemmas cover the round trips, truncation, whisper monotonicity and the
  concrete default scenarios.
- **Relay router** (`Bridge.AudioRelay`). One frame in each direction. Whisper
  is applied only on SVC to PV. The distance is converted, one send goes
  through the opposite adapter, and the direction counter moves exactly when
  that send reports true. The registry is never read or written.
- **Adapters** (`Bridge.PvAdapter`, `Bridge.SvcAdapter`, `BridgeSpec`).
  `BridgeSpec` states the adapters' caches and sends as functions:
  - PV's per-sender entity sources and sequence numbers, where a number of
    0 or less means "previous + 1";
  - SVC's per-sender channels;
  - the two recipient filters.

  The adapter classes hold the bridged-connection set and the caches as
  fields. Each handler and send is proved against those functions (for
  instance, `Outbound() == PvSend(old(Outbound()), …).outbound`) and against
  the registry operations above.
- **Metrics** (`Metrics.BridgeMetrics`). Five counters. Each update names
  only its own field in `modifies`, so no update can change another counter.

External answers are parameters ("oracles"):
- the PV encryption and decryption, each returning `None` on failure;
- the PV source's answer to a frame (`accepted`);
- whether SVC could create a channel (`channelCreated`);
- whether the proximity line and activation were found;
- whether the player is online (`online: Option<Player>` for
  `Bukkit.getPlayer`);
- the clock (`now`).

Distances are reals and 16-bit values are the `Short` newtype.

The model follows what the code does, also where a comment beside it
suggests otherwise:
- **Relay failures.** A relay send that reports false does not touch the
  dropped-frame counter (`AudioRelay.kt:67-69`). Only PV encryption and
  decryption failures count as dropped (`PvAdapter.kt:175`,
  `PvAdapter.kt:243`).
- **Stale sweep.** The sweep's comparison is strict: a session goes when
  `lastActivityAt < now - 30000` (`SessionManager.kt:110-111`).
- **Per-mod unregister.** When the last membership goes, the `compute` block
  yields null (the comment at `SessionManager.kt:83` says so), so per-mod
  unregister returns null, not the removed session (`SessionManager.kt:75-89`).
- **SVC disconnect.** The PV handler removes only the PV membership, as its
  comment at `PvAdapter.kt:141` explains. The SVC handler, commented "Remove
  session" at `SvcAdapter.kt:81`, calls the whole-session unregister
  (`SvcAdapter.kt:82`), so it deletes the PV membership too.
- **Failed channel creation.** The comment at `SvcAdapter.kt:146` speaks of
  returning a placeholder, but the `ch!!` at `SvcAdapter.kt:148` throws
  instead. The model has the outcome `ChannelCreationFailed` for this, and
  the relay counts nothing for it.
- **SVC filter.** The comment at `SvcAdapter.kt:155` says the channel sends
  only to SVC players. The test at `SvcAdapter.kt:158` compares the
  player's first membership, so a dual member passes when SVC comes first in
  hash order. The PV filter excludes dual members, as its comment at
  `PvAdapter.kt:227` says (see Findings).

## Model

| member | source | states |
|---|---|---|
| Common.UuidString | src/main/kotlin/io/pfaumc/voicebridge/adapter/SvcAdapter.kt:71 | The uuid's text form is 36 characters: lower-case hex digits with dashes at positions 8, 13, 18 and 23 (the fallback player name). Its value is pinned by `UuidStringDecodes` and `UuidStringInjective`. |
| Common.HexDigitsRoundTrip | src/main/kotlin/io/pfaumc/voicebridge/adapter/SvcAdapter.kt:142 | Reading the zero-padded digits of x back as a hexadecimal number gives x modulo 16^n. |
| Common.UuidStringDecodes | src/main/kotlin/io/pfaumc/voicebridge/adapter/SvcAdapter.kt:142 | The two 64-bit halves can be read back from the text: the 8-4-4 groups spell the most significant half and the 4-12 groups the least significant one. |
| Common.UuidStringInjective | src/main/kotlin/io/pfaumc/voicebridge/adapter/SvcAdapter.kt:71 | Distinct UUIDs have distinct text forms, so the fallback name identifies its player. |
| Metrics.BridgeMetrics.constructor | src/main/kotlin/io/pfaumc/voicebridge/BridgeMetrics.kt:8-12 | All five counters start at 0. |
| Metrics.BridgeMetrics.Reset | src/main/kotlin/io/pfaumc/voicebridge/BridgeMetrics.kt:14-20 | Afterwards all five counters are 0. |
| Metrics.BridgeMetrics.Log | src/main/kotlin/io/pfaumc/voicebridge/BridgeMetrics.kt:22-30 | The log line reports each of the five counters exactly. The method modifies nothing. |
| Metrics.BridgeMetrics.IncrementActiveSessions | src/main/kotlin/io/pfaumc/voicebridge/session/SessionManager.kt:55 | The session counter goes up by one. No other counter is in its frame. |
| Metrics.BridgeMetrics.DecrementActiveSessions | src/main/kotlin/io/pfaumc/voicebridge/session/SessionManager.kt:69 | The session counter goes down by one. No other counter is in its frame. |
| Metrics.BridgeMetrics.SetActiveSessions | src/main/kotlin/io/pfaumc/voicebridge/session/SessionManager.kt:106 | The session counter takes the given value. No other counter is in its frame. |
| Metrics.BridgeMetrics.IncrementSvcToPlasmoFrames | src/main/kotlin/io/pfaumc/voicebridge/relay/AudioRelay.kt:68 | The SVC-to-PV counter goes up by one. No other counter is in its frame. |
| Metrics.BridgeMetrics.IncrementPlasmoToSvcFrames | src/main/kotlin/io/pfaumc/voicebridge/relay/AudioRelay.kt:106 | The PV-to-SVC counter goes up by one. No other counter is in its frame. |
| Metrics.BridgeMetrics.IncrementDroppedFrames | src/main/kotlin/io/pfaumc/voicebridge/adapter/PvAdapter.kt:175 | The dropped-frame counter goes up by one. No other counter is in its frame. |
| SessionSpec.TwoTypesAreBoth | src/main/kotlin/io/pfaumc/voicebridge/session/SessionManager.kt:8-11 | A membership set has at least two elements if and only if it holds both mods. |
| SessionSpec.Primary | src/main/kotlin/io/pfaumc/voicebridge/session/SessionManager.kt:28 | The first membership is a member of the set. A single-mod set yields its mod. A dual set yields the mod that is first in hash order. |
| SessionSpec.Register | src/main/kotlin/io/pfaumc/voicebridge/session/SessionManager.kt:53-63 | The player is now a key. An existing session gains the membership and keeps everything else. A new player gets a fresh active session with that one membership. Other players are unchanged. |
| SessionSpec.UnregisterAll | src/main/kotlin/io/pfaumc/voicebridge/session/SessionManager.kt:65-73 | The player's key is gone whatever its memberships. Every other entry is unchanged. |
| SessionSpec.UnregisterType | src/main/kotlin/io/pfaumc/voicebridge/session/SessionManager.kt:75-89 | An absent player changes nothing. Removing the last membership deletes the key. Otherwise the session loses just that membership. Other players are never touched. |
| SessionSpec.Touch | src/main/kotlin/io/pfaumc/voicebridge/session/SessionManager.kt:43-45 | Only the player's `lastActivityAt` changes, to `now`. A missing player changes nothing. |
| SessionSpec.StaleKeys | src/main/kotlin/io/pfaumc/voicebridge/session/SessionManager.kt:110-111 | A player is stale if and only if its session is inactive and its last activity is strictly before `now - 30000`. |
| SessionSpec.Cleanup | src/main/kotlin/io/pfaumc/voicebridge/session/SessionManager.kt:109-117 | The sweep keeps exactly the non-stale entries, unchanged, and never removes an active session. |
| SessionSpec.SessionsByMod | src/main/kotlin/io/pfaumc/voicebridge/session/SessionManager.kt:99-100 | Returns exactly the players whose session is active and holds the given membership. |
| SessionSpec.RegisterKeepsWellFormed | src/main/kotlin/io/pfaumc/voicebridge/session/SessionManager.kt:53-63 | Register keeps every session non-empty and active. |
| SessionSpec.ReRegisterChangesNothing | src/main/kotlin/io/pfaumc/voicebridge/session/SessionManager.kt:59 | Registering a membership the session already has leaves the registry equal to what it was. |
| SessionSpec.RegisterIdempotent | src/main/kotlin/io/pfaumc/voicebridge/session/SessionManager.kt:53-63 | Registering twice equals registering once. |
| SessionSpec.SecondTypeMakesDual | src/main/kotlin/io/pfaumc/voicebridge/session/SessionManager.kt:53-63 | Joining through the second mod makes the session dual. It keeps the original name and both timestamps. |
| SessionSpec.UnregisterTypeKeepsWellFormed | src/main/kotlin/io/pfaumc/voicebridge/session/SessionManager.kt:75-89 | Per-mod unregister keeps every session non-empty and active. |
| SessionSpec.DualLosesOneType | src/main/kotlin/io/pfaumc/voicebridge/session/SessionManager.kt:78-86 | A dual session that loses one mod survives holding exactly the other, and is no longer dual. |
| SessionSpec.ConnectThenDisconnectRestores | src/main/kotlin/io/pfaumc/voicebridge/session/SessionManager.kt:53-89 | A player with no session who registers and then unregisters the same mod leaves the registry exactly as it was. |
| SessionSpec.LaterDisconnectIsNoOp | src/main/kotlin/io/pfaumc/voicebridge/session/SessionManager.kt:65-89 | After the whole session is removed, a per-mod unregister of that player changes nothing. |
| SessionSpec.CleanupOfWellFormedIsNoOp | src/main/kotlin/io/pfaumc/voicebridge/session/SessionManager.kt:109-117 | When every session is active, nothing is stale and the sweep is the identity. |
| SessionSpec.CleanupSize | src/main/kotlin/io/pfaumc/voicebridge/session/SessionManager.kt:112-116 | The sweep removes exactly as many sessions as there are stale keys. |
| SessionSpec.SessionsByModPartition | src/main/kotlin/io/pfaumc/voicebridge/session/SessionManager.kt:95-100 | Every live player appears in the union of the two by-mod lists. A player is in both lists if and only if it is dual. |
| SessionSpec.RegisterCount | src/main/kotlin/io/pfaumc/voicebridge/session/SessionManager.kt:54-55 | The map grows by one exactly when the player had no session. |
| SessionSpec.UnregisterAllCount | src/main/kotlin/io/pfaumc/voicebridge/session/SessionManager.kt:66-69 | The map shrinks by one exactly when the player had a session. |
| SessionSpec.UnregisterTypeCount | src/main/kotlin/io/pfaumc/voicebridge/session/SessionManager.kt:79-83 | The map shrinks by one exactly when the last membership goes. |
| SessionSpec.StepKeepsInSync | src/main/kotlin/io/pfaumc/voicebridge/session/SessionManager.kt:53-117 | Every registry call keeps every session live and keeps the counter equal to the map size. |
| SessionSpec.ReplayInSync | src/main/kotlin/io/pfaumc/voicebridge/session/SessionManager.kt:53-117 | From an empty map and a zero counter, any call sequence leaves the counter equal to the number of sessions, with every session live. |
| Session.BridgeSession.constructor | src/main/kotlin/io/pfaumc/voicebridge/session/SessionManager.kt:13-25 | A new session holds exactly its first membership and is active. Both timestamps are the creation time. |
| Session.BridgeSession.PrimaryModType | src/main/kotlin/io/pfaumc/voicebridge/session/SessionManager.kt:28 | Returns a member of the non-empty membership set, and the only one for a single-mod session. |
| Session.BridgeSession.AddModType | src/main/kotlin/io/pfaumc/voicebridge/session/SessionManager.kt:30-31 | The set gains the mod. The method reports whether the mod was new. |
| Session.BridgeSession.RemoveModType | src/main/kotlin/io/pfaumc/voicebridge/session/SessionManager.kt:33-35 | The set loses the mod. |
| Session.BridgeSession.HasModType | src/main/kotlin/io/pfaumc/voicebridge/session/SessionManager.kt:37 | True if and only if the mod is among the memberships. A session that lacks it holds at most the other mod. |
| Session.BridgeSession.IsDualMod | src/main/kotlin/io/pfaumc/voicebridge/session/SessionManager.kt:39 | True if and only if the session holds both mods. |
| Session.BridgeSession.HasNoMods | src/main/kotlin/io/pfaumc/voicebridge/session/SessionManager.kt:41 | A session has no mods if and only if it has neither of the two. |
| Session.BridgeSession.Touch | src/main/kotlin/io/pfaumc/voicebridge/session/SessionManager.kt:43-45 | `lastActivityAt` becomes `now`. |
| Session.SessionManager.constructor | src/main/kotlin/io/pfaumc/voicebridge/session/SessionManager.kt:48-51 | The registry starts empty and valid. |
| Session.SessionManager.Register | src/main/kotlin/io/pfaumc/voicebridge/session/SessionManager.kt:53-63 | The new view is `SessionSpec.Register` of the old one. It returns the stored session: the old object, or a fresh one. The counter goes up by one exactly when a session was created. Validity is kept. A counter equal to the map size stays equal. |
| Session.SessionManager.CreateSession | src/main/kotlin/io/pfaumc/voicebridge/session/SessionManager.kt:54-58 | For an absent player, a fresh session holding the single membership is stored and the counter goes up by one. A counter equal to the map size stays equal. |
| Session.SessionManager.AddMembership | src/main/kotlin/io/pfaumc/voicebridge/session/SessionManager.kt:59-61 | The stored session gains the membership. Nothing else in the view changes. |
| Session.SessionManager.Unregister | src/main/kotlin/io/pfaumc/voicebridge/session/SessionManager.kt:65-73 | The new view is `UnregisterAll` of the old one. It returns the removed object marked inactive, or null. The counter goes down by one if and only if the player was present. A counter equal to the map size stays equal. |
| Session.SessionManager.UnregisterType | src/main/kotlin/io/pfaumc/voicebridge/session/SessionManager.kt:75-89 | The new view is `SessionSpec.UnregisterType` of the old one. A deleted session was emptied and marked inactive, and the result is then null. Otherwise the result is the remaining session. The counter goes down once exactly on deletion. A counter equal to the map size stays equal. |
| Session.SessionManager.DeleteEmptied | src/main/kotlin/io/pfaumc/voicebridge/session/SessionManager.kt:78-83 | When the membership removed was the last, the emptied session is marked inactive and its key is deleted from the view. The counter goes down by one and stays equal to the map size if it was. |
| Session.SessionManager.RemoveMembership | src/main/kotlin/io/pfaumc/voicebridge/session/SessionManager.kt:78-79 | When another membership remains, the stored session loses just the given one and the view changes in that entry only. |
| Session.SessionManager.CountOut | src/main/kotlin/io/pfaumc/voicebridge/session/SessionManager.kt:81-83 | The key goes and the counter goes down by one, so a counter equal to the map size stays equal. |
| Session.SessionManager.TouchSession | src/main/kotlin/io/pfaumc/voicebridge/adapter/PvAdapter.kt:180 | The new view is `SessionSpec.Touch` of the old one (`getSession(id)?.touch()`). |
| Session.SessionManager.GetSession | src/main/kotlin/io/pfaumc/voicebridge/session/SessionManager.kt:91 | Returns the stored session if and only if the player is a key, and null otherwise. |
| Session.SessionManager.GetAllSessions | src/main/kotlin/io/pfaumc/voicebridge/session/SessionManager.kt:97 | Every stored session is in the result. Under validity, each one in it is the session stored under its own player. |
| Session.SessionManager.GetModType | src/main/kotlin/io/pfaumc/voicebridge/session/SessionManager.kt:93 | Returns none exactly without a session. Otherwise it returns a membership of the session, and the only one for a single-mod session. |
| Session.SessionManager.IsDualMod | src/main/kotlin/io/pfaumc/voicebridge/session/SessionManager.kt:95 | True if and only if a session exists with at least two memberships. |
| Session.SessionManager.IsRegistered | src/main/kotlin/io/pfaumc/voicebridge/session/SessionManager.kt:102 | True if and only if the player is in the view. |
| Session.SessionManager.GetSessionsByMod | src/main/kotlin/io/pfaumc/voicebridge/session/SessionManager.kt:99-100 | A stored session is in the result if and only if its player is in `SessionsByMod`. |
| Session.SessionManager.Clear | src/main/kotlin/io/pfaumc/voicebridge/session/SessionManager.kt:104-107 | The map is empty and the counter is 0 (in step). |
| Session.SessionManager.StaleIds | src/main/kotlin/io/pfaumc/voicebridge/session/SessionManager.kt:110-111 | The filtered entries are exactly `StaleKeys` of the view. |
| Session.SessionManager.RemoveEach | src/main/kotlin/io/pfaumc/voicebridge/session/SessionManager.kt:112-116 | The loop removes exactly the given keys and leaves other entries unchanged. The counter goes down once per removed key. |
| Session.SessionManager.Cleanup | src/main/kotlin/io/pfaumc/voicebridge/session/SessionManager.kt:109-117 | The new view is `SessionSpec.Cleanup` of the old one. The counter goes down by the number of stale keys. Validity is kept. A counter equal to the map size stays equal. |
| Session.CleanupFindsNothing | src/main/kotlin/io/pfaumc/voicebridge/session/SessionManager.kt:109-117 | On a valid registry the sweep finds nothing and changes nothing. |
| Spatial.Trunc | src/main/kotlin/io/pfaumc/voicebridge/spatial/SpatialMapper.kt:13 | Truncation toward zero: the result is within one step of the input, on the side nearer zero. |
| Spatial.Clamp | src/main/kotlin/io/pfaumc/voicebridge/spatial/SpatialMapper.kt:13 | The result lies in [lo, hi]. A value already in range is kept. |
| Spatial.SpatialMapper.EffectiveDistance | src/main/kotlin/io/pfaumc/voicebridge/spatial/SpatialMapper.kt:26-39 | The result never exceeds the maximum. A positive distance is kept up to the maximum and capped above it. A non-positive one becomes `min(override or default, max)`. |
| Spatial.SpatialMapper.SvcToPvDistance | src/main/kotlin/io/pfaumc/voicebridge/spatial/SpatialMapper.kt:11-14 | The result is always in [1, 32767]. It is the truncated effective distance whenever that is in range. |
| Spatial.SpatialMapper.PvToSvcDistance | src/main/kotlin/io/pfaumc/voicebridge/spatial/SpatialMapper.kt:19-21 | The result never exceeds the maximum. |
| Spatial.SpatialMapper.DefaultFor | src/main/kotlin/io/pfaumc/voicebridge/spatial/SpatialMapper.kt:27-30 | A given world with an override yields that override. Without a world, or for a world with no override, the result is the configured default. It is positive when the default and every override are. |
| Spatial.SpatialMapper.WhisperDistance | src/main/kotlin/io/pfaumc/voicebridge/spatial/SpatialMapper.kt:44-46 | For a positive distance and a multiplier in (0, 1], the whisper distance is positive and at most the normal one. A distance of 0 or less stays at 0 or less under a non-negative multiplier. |
| Spatial.RelayedPvDistance | src/main/kotlin/io/pfaumc/voicebridge/relay/AudioRelay.kt:51-56 | The distance handed to PV, with whisper applied before the conversion, is always in [1, 32767]. |
| Spatial.RelayedSvcDistance | src/main/kotlin/io/pfaumc/voicebridge/relay/AudioRelay.kt:94 | The distance handed to SVC, with no whisper, never exceeds the maximum. |
| Spatial.EffectiveDistancePositive | src/main/kotlin/io/pfaumc/voicebridge/config/BridgeConfig.kt:31-37 | With positive overrides (the loader's filter) and a positive default and maximum, every effective distance is positive. |
| Spatial.EffectiveDistanceIdempotent | src/main/kotlin/io/pfaumc/voicebridge/spatial/SpatialMapper.kt:34-38 | Applying the rule to its own positive result changes nothing. |
| Spatial.OverridesOfOtherWorldsIrrelevant | src/main/kotlin/io/pfaumc/voicebridge/spatial/SpatialMapper.kt:27-30 | An override is consulted only for the world given. |
| Spatial.PositiveDistanceIgnoresDefault | src/main/kotlin/io/pfaumc/voicebridge/spatial/SpatialMapper.kt:34-35 | For a positive distance, the world (and so the default and any override) makes no difference. |
| Spatial.SvcToPvTruncates | src/main/kotlin/io/pfaumc/voicebridge/spatial/SpatialMapper.kt:11-14 | For 1 <= d <= max (and d below 32768), SVC to PV is exactly `trunc(d)`. |
| Spatial.PvToSvcKeeps | src/main/kotlin/io/pfaumc/voicebridge/spatial/SpatialMapper.kt:19-21 | PV to SVC returns `p` unchanged for 0 < p <= max. |
| Spatial.PvRoundTrip | src/main/kotlin/io/pfaumc/voicebridge/spatial/SpatialMapper.kt:11-21 | A PV distance in [1, max] comes back unchanged from PV to SVC to PV. |
| Spatial.SvcRoundTrip | src/main/kotlin/io/pfaumc/voicebridge/spatial/SpatialMapper.kt:11-21 | An SVC distance in [1, max] comes back truncated from SVC to PV to SVC. |
| Spatial.PvToSvcHasNoLowerClamp | src/main/kotlin/io/pfaumc/voicebridge/spatial/SpatialMapper.kt:19-21 | PV to SVC has no lower bound: a zero default passes through as 0. |
| Spatial.DefaultWhisperScenario | src/main/kotlin/io/pfaumc/voicebridge/spatial/SpatialMapper.kt:44-46 | With the default configuration: a whispered 48 reaches PV as 15 (48 x 0.33 = 15.84); a plain 48 as 48; a whispered 0 as the default 48; and 500 as the cap 128. |
| Spatial.WhisperNeverCarriesFarther | src/main/kotlin/io/pfaumc/voicebridge/relay/AudioRelay.kt:51-56 | For any distance and a multiplier in (0, 1], the whispered PV distance is at most the normal one. |
| Spatial.ZeroMultiplierWhisperUsesFallback | src/main/kotlin/io/pfaumc/voicebridge/relay/AudioRelay.kt:51-56 | With multiplier 0, a whisper is heard at the fallback distance, farther than a short normal frame. |
| BridgeSpec.NextSequence | src/main/kotlin/io/pfaumc/voicebridge/adapter/PvAdapter.kt:232-234 | A positive given number is used as it is. Zero or less gives previous + 1, or 1 for a new sender. From no entry or a non-negative one, the result is at least 1. |
| BridgeSpec.SentinelSendsCount | src/main/kotlin/io/pfaumc/voicebridge/adapter/PvAdapter.kt:232-234 | After n sentinel sends, the sender's sequence has risen by exactly n. |
| BridgeSpec.PvSend | src/main/kotlin/io/pfaumc/voicebridge/adapter/PvAdapter.kt:222-247 | Without a source line, nothing is cached, nothing is dropped and the outcome is `NoSourceLine`. With a line, the sender has a source and a sequence entry. A frame is counted as dropped exactly on an encryption failure. The send returns true only with a line and an accepting source. It keeps both caches keyed alike, each source owned by its key and every sequence at least 1. |
| BridgeSpec.PvSendCaches | src/main/kotlin/io/pfaumc/voicebridge/adapter/PvAdapter.kt:224-234 | With a line, the sender has exactly one source: the cached one, or a new one for it. Its sequence follows the rule. Every other sender's entries are unchanged. |
| BridgeSpec.PvSourceReused | src/main/kotlin/io/pfaumc/voicebridge/adapter/PvAdapter.kt:224-230 | A second send from the same sender reuses the source the first one made. |
| BridgeSpec.PvSendOutcome | src/main/kotlin/io/pfaumc/voicebridge/adapter/PvAdapter.kt:222-247 | The send returns true if and only if there is a line, encryption succeeds and the source accepts. A frame is dropped if and only if there is a line and encryption fails. On a drop the sequence has already advanced. |
| BridgeSpec.PvFrameContents | src/main/kotlin/io/pfaumc/voicebridge/adapter/PvAdapter.kt:239-247 | A submitted frame carries the encrypted payload, the stored sequence, the given distance and the sender's cached source. |
| BridgeSpec.SvcSend | src/main/kotlin/io/pfaumc/voicebridge/adapter/SvcAdapter.kt:137-162 | The outcome is `NoServerApi` exactly when there is no API. A sent frame goes through the sender's cached channel, which is owned by the sender and set to the given distance, and carries the payload unchanged. Any other outcome leaves the cache alone. |
| BridgeSpec.SvcSendKeepsValid | src/main/kotlin/io/pfaumc/voicebridge/adapter/SvcAdapter.kt:140-153 | Every cached channel stays owned by its key, with the identifier seeded by `voice-bridge-<uuid>`. |
| BridgeSpec.ChannelSeed | src/main/kotlin/io/pfaumc/voicebridge/adapter/SvcAdapter.kt:142 | The seed is 49 characters: `voice-bridge-` followed by the canonical text of the uuid. |
| BridgeSpec.ChannelSeedInjective | src/main/kotlin/io/pfaumc/voicebridge/adapter/SvcAdapter.kt:142 | Distinct speakers get distinct channel seeds. |
| BridgeSpec.SvcSendOutcome | src/main/kotlin/io/pfaumc/voicebridge/adapter/SvcAdapter.kt:137-162 | The result is false (no API) if and only if the API is missing. Otherwise the send succeeds, unless the sender's first channel cannot be created. A send that does not succeed changes no cache. |
| BridgeSpec.SvcSendCaches | src/main/kotlin/io/pfaumc/voicebridge/adapter/SvcAdapter.kt:140-161 | A successful send keeps one channel for the sender (the cached one if any) and sets its distance to the latest value. It sends the payload unchanged through that channel and leaves every other channel alone. |
| BridgeSpec.PvAdmits | src/main/kotlin/io/pfaumc/voicebridge/adapter/PvAdapter.kt:228 | A recipient passes the PV source filter if and only if it is unregistered or lacks one of the two mods. |
| BridgeSpec.SvcAdmits | src/main/kotlin/io/pfaumc/voicebridge/adapter/SvcAdapter.kt:156-159 | Whoever passes the as-written SVC channel filter is registered with an SVC membership, and every SVC-only player passes. |
| BridgeSpec.SvcAdmitsSingle | src/main/kotlin/io/pfaumc/voicebridge/adapter/SvcAdapter.kt:156-159 | Whoever passes the intended SVC channel filter is not a dual member, passes the PV filter too, and passes the as-written filter whatever the hash order. |
| BridgeSpec.PvAdmitsExactly | src/main/kotlin/io/pfaumc/voicebridge/adapter/PvAdapter.kt:228 | The PV source filter admits exactly the unregistered and single-mod players. |
| BridgeSpec.SvcAdmitsAsWritten | src/main/kotlin/io/pfaumc/voicebridge/adapter/SvcAdapter.kt:156-159 | The SVC filter as written rejects unregistered and PV-only players and admits SVC-only ones. It admits a dual member if and only if SVC is first in hash order. |
| BridgeSpec.SvcAdmitsDualMember | src/main/kotlin/io/pfaumc/voicebridge/adapter/SvcAdapter.kt:156-159 | A concrete registry in which the as-written SVC filter admits a dual member. |
| BridgeSpec.SvcAdmitsSingleExactly | src/main/kotlin/io/pfaumc/voicebridge/adapter/SvcAdapter.kt:156-159 | The intended SVC filter, together with the PV filter, admits no dual member on either side. On every other player it agrees with the as-written filter. |
| Bridge.AudioRelay.constructor | src/main/kotlin/io/pfaumc/voicebridge/relay/AudioRelay.kt:21-29 | The relay starts with neither adapter attached. |
| Bridge.AudioRelay.RelaySvcToPv | src/main/kotlin/io/pfaumc/voicebridge/relay/AudioRelay.kt:41-74 | With no PV adapter, nothing is sent and no counter moves. Otherwise there is exactly one PV send, `PvSend` with the whispered-then-converted distance and the uuid, payload and sequence unchanged. The SVC-to-PV counter goes up if and only if the send returned true. The registry is unchanged. |
| Bridge.AudioRelay.RelayPvToSvc | src/main/kotlin/io/pfaumc/voicebridge/relay/AudioRelay.kt:85-112 | With no SVC adapter, nothing happens. Otherwise there is exactly one SVC send with the converted distance and no whisper. The PV-to-SVC counter goes up if and only if the send returned true. The registry is unchanged. |
| Bridge.PvAdapter.constructor | src/main/kotlin/io/pfaumc/voicebridge/adapter/PvAdapter.kt:45-69 | The adapter starts uninjected, with no line or activation and with all three collections empty. |
| Bridge.PvAdapter.OnAddonInitialize | src/main/kotlin/io/pfaumc/voicebridge/adapter/PvAdapter.kt:83-104 | The server is injected. The line and the proximity activation are recorded as found or missing. |
| Bridge.PvAdapter.OnPlayerConnected | src/main/kotlin/io/pfaumc/voicebridge/adapter/PvAdapter.kt:112-128 | For a bridged uuid, the registry and counter are untouched. Otherwise the PV membership is registered (`SessionSpec.Register`), with the counter change. |
| Bridge.PvAdapter.OnPlayerDisconnected | src/main/kotlin/io/pfaumc/voicebridge/adapter/PvAdapter.kt:130-150 | The uuid leaves the bridged set. A bridged uuid changes nothing else. Otherwise: only the PV membership is removed (`UnregisterType`), with the counter change; the uuid's source and sequence entries are dropped; and the SVC side's channel for it is removed. |
| Bridge.PvAdapter.DisconnectSpeaker | src/main/kotlin/io/pfaumc/voicebridge/adapter/PvAdapter.kt:138-149 | For a player that is not bridged: only the PV membership is removed (`SessionSpec.UnregisterType`), with the counter change. The source and sequence entries and the SVC side's channel for the player are dropped, and the removed source is returned. |
| Bridge.PvAdapter.LeavePvSession | src/main/kotlin/io/pfaumc/voicebridge/adapter/PvAdapter.kt:141-142 | Only the PV membership is removed (`SessionSpec.UnregisterType`), with the counter change, and validity is kept. |
| Bridge.PvAdapter.ForgetSpeaker | src/main/kotlin/io/pfaumc/voicebridge/adapter/PvAdapter.kt:144-149 | The player's source, sequence entry and SVC channel are removed, and nothing else in those maps changes. |
| Bridge.PvAdapter.OnPlayerActivation | src/main/kotlin/io/pfaumc/voicebridge/adapter/PvAdapter.kt:158-193 | A non-proximity activation is ignored. A decrypt failure adds one dropped frame, with no touch and no relay. Otherwise the session is touched and, with the sender online, the frame is relayed to SVC with its own sequence and distance. |
| Bridge.PvAdapter.OnPlayerActivationEnd | src/main/kotlin/io/pfaumc/voicebridge/adapter/PvAdapter.kt:195-203 | A channel is flushed if and only if the activation is proximity and the SVC side caches a channel for the player. Nothing changes. |
| Bridge.PvAdapter.SendAudioFromExternalPlayer | src/main/kotlin/io/pfaumc/voicebridge/adapter/PvAdapter.kt:215-248 | The new caches and the outcome are `PvSend` of the old caches. The dropped counter goes up exactly on an encryption failure. Validity is kept. |
| Bridge.PvAdapter.SendAudioEnd | src/main/kotlin/io/pfaumc/voicebridge/adapter/PvAdapter.kt:253-256 | An end signal is sent if and only if both a sequence and a source are recorded, with the last sequence. Nothing changes. |
| Bridge.PvAdapter.CleanupSource | src/main/kotlin/io/pfaumc/voicebridge/adapter/PvAdapter.kt:262-269 | With no sequence recorded, this is a no-op. Otherwise both entries go, and the end signal at distance 0 is sent exactly when a source existed. |
| Bridge.PvAdapter.RegisterBridgedConnection | src/main/kotlin/io/pfaumc/voicebridge/adapter/PvAdapter.kt:274-289 | The uuid is added, and the connection announced, if and only if the server is injected and the player is online. |
| Bridge.PvAdapter.RemoveBridgedConnection | src/main/kotlin/io/pfaumc/voicebridge/adapter/PvAdapter.kt:294-302 | Removal is requested if and only if the server is injected and the uuid is bridged. The set is unchanged. |
| Bridge.PvAdapter.CloseBridgedConnections | src/main/kotlin/io/pfaumc/voicebridge/adapter/PvAdapter.kt:306-312 | Every bridged connection is closed when the server is injected, and none otherwise. |
| Bridge.PvAdapter.Shutdown | src/main/kotlin/io/pfaumc/voicebridge/adapter/PvAdapter.kt:304-319 | The bridged connections are closed (best effort) and every source is removed. All three collections end empty. |
| Bridge.SvcAdapter.constructor | src/main/kotlin/io/pfaumc/voicebridge/adapter/SvcAdapter.kt:24-32 | The adapter starts with no API and no channels. |
| Bridge.SvcAdapter.Initialize | src/main/kotlin/io/pfaumc/voicebridge/adapter/SvcAdapter.kt:52-57 | The API is kept only when it is a server API. |
| Bridge.SvcAdapter.OnPlayerConnected | src/main/kotlin/io/pfaumc/voicebridge/adapter/SvcAdapter.kt:67-76 | Registers the SVC membership under the server name, or the uuid's text when there is none, with the counter change. |
| Bridge.SvcAdapter.OnPlayerDisconnected | src/main/kotlin/io/pfaumc/voicebridge/adapter/SvcAdapter.kt:78-89 | The whole session goes (`UnregisterAll`, PV membership included), with the counter change. The player's own channel is flushed and removed, and other channels are left alone. |
| Bridge.SvcAdapter.OnMicrophonePacket | src/main/kotlin/io/pfaumc/voicebridge/adapter/SvcAdapter.kt:95-121 | Without a connection, the packet is ignored. Otherwise the session is touched, and a player who is online while the API is known is relayed with sequence 0, the API's distance and the whisper flag. |
| Bridge.SvcAdapter.SendAudioFromExternalPlayer | src/main/kotlin/io/pfaumc/voicebridge/adapter/SvcAdapter.kt:130-163 | The new cache and the outcome are `SvcSend` of the old cache. Validity is kept. |
| Bridge.SvcAdapter.FlushChannel | src/main/kotlin/io/pfaumc/voicebridge/adapter/SvcAdapter.kt:168-170 | The sender's channel is flushed if and only if it is cached. The cache is unchanged. |
| Bridge.SvcAdapter.RemoveChannel | src/main/kotlin/io/pfaumc/voicebridge/adapter/SvcAdapter.kt:175-177 | Exactly the sender's entry is deleted, and flushed if it existed. |
| Bridge.SvcAdapter.Shutdown | src/main/kotlin/io/pfaumc/voicebridge/adapter/SvcAdapter.kt:179-183 | Every channel is flushed and the cache ends empty. |

## Left out

- Plugin wiring (VoiceBridgePlugin.kt) is not part of this model: lifecycle, reflective probing of the two mods, and the 5-second coroutine that calls the sweep. `Cleanup(now)` is a plain method that takes the time as a parameter.
- The command UI (VoiceBridgeCommand.kt) and configuration loading (`BridgeConfig.load`, file and YAML I/O) are left out. The configuration is a record with the loader's defaults, and `OverridesPositive` states the loader's filter on overrides.
- Library calls are oracle parameters, not modelled code: PV encryption and decryption, `createEntitySource`, `sendAudioFrame`, the UDP and TCP connection managers, SVC channel creation, `send` and `flush`, `Bukkit.getPlayer`, and `System.currentTimeMillis`.
- A flush, an end signal, a source removal or a closed connection is returned as a value (`flushed`, `end`, `removedSources`, `closed`); it is not a call into the library.
- The adapters' registration with their mod (event bus, addon loader, service registration) and their log messages are left out.
- `setExternalPlayerConnected` is called by the PV adapter but not defined in the SVC adapter. It is treated as a call with no effect.
- The recipient filters are predicates over the registry at delivery time (`BridgeSpec.PvAdmits`, `BridgeSpec.SvcAdmits`). The model does not store them as closures on the source and channel objects.
- The channel identifier's name-based UUID (an MD5 hash) is represented by the string it is computed from, `ChannelSeed`.
- Bridge.SvcAdapter.SendAudioFromExternalPlayer: the null-assertion exception on a failed channel creation is the outcome `ChannelCreationFailed`. After it the relay counts nothing, and the exception's propagation out of the event handler is not modelled.
- BridgeSpec.PvSourceReused, BridgeSpec.SvcSendCaches: the library's entity sources and audio channels are values here (`EntitySource(speaker)`, `Channel(speaker, idSeed, distance)`). Their object identity is not modelled, so "the same source" or "the same channel" means an equal value, and a send that made a fresh equal object would satisfy these lemmas too.
- The concurrent maps, atomics and volatile fields are modelled sequentially. Interleavings of events from the two mods are not modelled.
- Float and Double rounding, NaN and infinities are not modelled. Distances are reals, and the conversion truncates toward zero.
- Spatial.Trunc: does not model `Double.toInt`'s saturation at the 32-bit bounds, because the clamp into [1, 32767] that always follows makes it irrelevant.
- The JVM `Long` sequence numbers and `int` counters do not wrap around in the model.
- `modTypes.first()` depends on hash-set order. That order is the per-registry constant `hashFirst`, the enum constant that comes first; insertion-order effects under a bucket collision are not modelled.
- Bridge.PvAdapter.OnPlayerConnected, Bridge.PvAdapter.OnPlayerDisconnected, Bridge.SvcAdapter.OnPlayerConnected, Bridge.SvcAdapter.OnPlayerDisconnected: each states the exact counter change, not that counter and map size stay equal. The `SessionManager` methods they call do state that this equality is kept, and `SessionSpec.ReplayInSync` proves it for any sequence of registry calls.
- The transcoding counter is carried and reset but never incremented, as in the source's core.

## Findings

| source | as written | input that shows it | evidently intended | confidence | as-written member | corrected member |
|---|---|---|---|---|---|---|
| src/main/kotlin/io/pfaumc/voicebridge/adapter/SvcAdapter.kt:156-159 | The SVC channel filter admits a recipient when `getModType(uuid) == SIMPLE_VOICE_CHAT`, which is the first membership in hash order. | A dual member (SVC and PV) when SVC comes first in hash order: the filter admits them, so they hear a PV speaker natively and again through the bridged channel. | Admit only SVC-only recipients, so that no dual member receives bridged audio, as the PV side already ensures. | not executed | BridgeSpec.SvcAdmits, BridgeSpec.SvcAdmitsAsWritten, BridgeSpec.SvcAdmitsDualMember | BridgeSpec.SvcAdmitsSingle, BridgeSpec.SvcAdmitsSingleExactly |
