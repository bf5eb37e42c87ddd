/** The relay router and the two mod adapters. They refer to each other (the
    relay holds both adapters, each adapter reaches the opposite one through
    the relay), so they share one module. Every call into a mod library is
    an oracle: a parameter carrying the library's answer. */
module Bridge {
  import opened Common
  import opened Config
  import opened Metrics
  import opened SessionSpec
  import opened Session
  import opened Spatial
  import opened BridgeSpec

  /** The server's default encryption for PV payloads; None is an
      encryption exception. */
  datatype Encryption = Encryption(encrypt: Bytes -> Option<Bytes>, decrypt: Bytes -> Option<Bytes>)

  /** A PV server activation, identified by its name. */
  datatype Activation = Activation(name: string)

  /** How the PV adapter handled an activation (one inbound PV frame). */
  datatype ActivationOutcome =
    | NotProximity
    | DecryptFailed
    | PvSenderOffline
    | RelayedToSvc(relay: Option<SvcOutcome>)

  /** How the SVC adapter handled a microphone packet. */
  datatype MicrophoneOutcome =
    | NoConnection
    | SvcSenderOffline
    | NoServerApiYet
    | RelayedToPv(relay: Option<PvOutcome>)

  /** Routes one frame in each direction between the adapters. */
  class AudioRelay {
    /** Held but never consulted: no relay method reads or writes it. */
    const sessionManager: SessionManager
    const spatialMapper: SpatialMapper
    const config: BridgeConfig
    const metrics: BridgeMetrics
    var svcAdapter: SvcAdapter?
    var pvAdapter: PvAdapter?

    constructor (sessionManager: SessionManager, spatialMapper: SpatialMapper,
                 config: BridgeConfig, metrics: BridgeMetrics)
      ensures this.sessionManager == sessionManager && this.spatialMapper == spatialMapper
      ensures this.config == config && this.metrics == metrics
      ensures svcAdapter == null && pvAdapter == null
    {
      this.sessionManager := sessionManager;
      this.spatialMapper := spatialMapper;
      this.config := config;
      this.metrics := metrics;
      svcAdapter := null;
      pvAdapter := null;
    }

    function PvTarget(): set<PvAdapter>
      reads this
    {
      if pvAdapter == null then {} else {pvAdapter}
    }

    function PvMetrics(): set<BridgeMetrics>
      reads this
    {
      if pvAdapter == null then {} else {pvAdapter.metrics}
    }

    function SvcTarget(): set<SvcAdapter>
      reads this
    {
      if svcAdapter == null then {} else {svcAdapter}
    }

    /** What the PV adapter's send does with a frame relayed from SVC. */
    function ToPv(outbound: PvOutbound, senderUuid: Uuid, sender: Player, opusData: Bytes,
                  sequenceNumber: int, distance: real, whispering: bool, accepted: bool): PvSendResult
      reads this, pvAdapter
      requires pvAdapter != null
    {
      PvSend(outbound, pvAdapter.hasSourceLine, pvAdapter.encryption.encrypt, senderUuid, opusData,
             sequenceNumber, RelayedPvDistance(spatialMapper, distance, whispering, sender.world), accepted)
    }

    /** What the SVC adapter's send does with a frame relayed from PV. */
    function ToSvc(channels: map<Uuid, Channel>, senderUuid: Uuid, sender: Player, opusData: Bytes,
                   distance: Short, channelCreated: bool): SvcSendResult
      reads this, svcAdapter
      requires svcAdapter != null
    {
      SvcSend(channels, svcAdapter.serverApi, senderUuid, opusData,
              RelayedSvcDistance(spatialMapper, distance, sender.world), channelCreated)
    }

    /** SVC to PV: whisper first, then the distance conversion for the
        sender's world, then one send through the PV adapter with the uuid,
        payload and sequence number unchanged; the direction counter moves
        only when that send reports true. */
    method RelaySvcToPv(senderUuid: Uuid, sender: Player, opusData: Bytes, sequenceNumber: int,
                        distance: real, whispering: bool, accepted: bool) returns (outcome: Option<PvOutcome>)
      modifies PvTarget()`outboundSources, PvTarget()`sequenceNumbers
      modifies metrics`svcToPlasmoFrames, PvMetrics()`droppedFrames
      ensures outcome.None? <==> pvAdapter == null
      ensures pvAdapter != null ==>
        var r := ToPv(old(pvAdapter.Outbound()), senderUuid, sender, opusData, sequenceNumber, distance, whispering, accepted);
        outcome == Some(r.outcome) && pvAdapter.Outbound() == r.outbound
        && pvAdapter.metrics.droppedFrames == old(pvAdapter.metrics.droppedFrames) + (if r.dropped then 1 else 0)
      ensures metrics.svcToPlasmoFrames ==
                old(metrics.svcToPlasmoFrames) + (if outcome.Some? && outcome.value.Returned() then 1 else 0)
      ensures unchanged(sessionManager, sessionManager.sessions.Values)
    {
      var pv := pvAdapter;
      if pv == null {
        return None;
      }
      var effective := if whispering then spatialMapper.WhisperDistance(distance) else distance;
      var pvDistance := spatialMapper.SvcToPvDistance(effective, Some(sender.world));
      var sent := pv.SendAudioFromExternalPlayer(senderUuid, sender, opusData, sequenceNumber, pvDistance, accepted);
      if sent.Returned() {
        metrics.IncrementSvcToPlasmoFrames();
      }
      outcome := Some(sent);
    }

    /** PV to SVC: the distance conversion for the sender's world, no
        whisper, then one send through the SVC adapter; the direction
        counter moves only when that send reports true. */
    method RelayPvToSvc(senderUuid: Uuid, sender: Player, opusData: Bytes, sequenceNumber: int,
                        distance: Short, channelCreated: bool) returns (outcome: Option<SvcOutcome>)
      modifies SvcTarget()`outboundChannels, metrics`plasmoToSvcFrames
      ensures outcome.None? <==> svcAdapter == null
      ensures svcAdapter != null ==>
        var r := ToSvc(old(svcAdapter.outboundChannels), senderUuid, sender, opusData, distance, channelCreated);
        outcome == Some(r.outcome) && svcAdapter.outboundChannels == r.channels
      ensures metrics.plasmoToSvcFrames ==
                old(metrics.plasmoToSvcFrames) + (if outcome.Some? && outcome.value.Returned() then 1 else 0)
      ensures unchanged(sessionManager, sessionManager.sessions.Values)
    {
      var svc := svcAdapter;
      if svc == null {
        return None;
      }
      var svcDistance := spatialMapper.PvToSvcDistance(distance, Some(sender.world));
      var sent := svc.SendAudioFromExternalPlayer(senderUuid, sender, opusData, sequenceNumber, svcDistance, channelCreated);
      if sent.Returned() {
        metrics.IncrementPlasmoToSvcFrames();
      }
      outcome := Some(sent);
    }
  }

  /** The Plasmo Voice side: registry effects of PV connections, inbound PV
      frames, and the outbound per-sender sources for speakers from SVC. */
  class PvAdapter {
    const sessions: SessionManager
    const relay: AudioRelay
    const metrics: BridgeMetrics
    const encryption: Encryption
    /** Whether the PV server object has been injected. */
    var voiceServerInjected: bool
    /** Whether the proximity source line was found. */
    var hasSourceLine: bool
    var proximityActivation: Option<Activation>
    var outboundSources: map<Uuid, EntitySource>
    var sequenceNumbers: map<Uuid, int>
    /** Players holding a bridged (synthetic) PV connection made for them. */
    var bridgedConnectionUuids: set<Uuid>

    function Outbound(): PvOutbound
      reads this
    {
      PvOutbound(outboundSources, sequenceNumbers)
    }

    predicate Valid()
      reads this
    {
      PvOutboundValid(Outbound())
    }

    constructor (sessions: SessionManager, relay: AudioRelay, metrics: BridgeMetrics, encryption: Encryption)
      ensures this.sessions == sessions && this.relay == relay
      ensures this.metrics == metrics && this.encryption == encryption
      ensures !voiceServerInjected && !hasSourceLine && proximityActivation == None
      ensures outboundSources == map[] && sequenceNumbers == map[] && bridgedConnectionUuids == {}
      ensures Valid()
    {
      this.sessions := sessions;
      this.relay := relay;
      this.metrics := metrics;
      this.encryption := encryption;
      voiceServerInjected := false;
      hasSourceLine := false;
      proximityActivation := None;
      outboundSources := map[];
      sequenceNumbers := map[];
      bridgedConnectionUuids := {};
    }

    /** The addon loader injects the server, then the adapter looks up the
        proximity source line and activation (either may be missing). */
    method OnAddonInitialize(lineFound: bool, proximity: Option<Activation>)
      modifies this`voiceServerInjected, this`hasSourceLine, this`proximityActivation
      ensures voiceServerInjected && hasSourceLine == lineFound && proximityActivation == proximity
    {
      voiceServerInjected := true;
      hasSourceLine := lineFound;
      proximityActivation := proximity;
    }

    /** A PV connection: ignored for a bridged connection of the bridge's
        own making, otherwise the PV membership is registered. */
    method OnPlayerConnected(playerUuid: Uuid, playerName: string, now: int)
      requires sessions.Valid()
      modifies sessions, sessions.metrics`activeSessions, sessions.SessionObjects(playerUuid)
      ensures sessions.Valid()
      ensures playerUuid in bridgedConnectionUuids ==>
                sessions.View() == old(sessions.View())
                && sessions.metrics.activeSessions == old(sessions.metrics.activeSessions)
      ensures playerUuid !in bridgedConnectionUuids ==>
                sessions.View() == SessionSpec.Register(old(sessions.View()), playerUuid, playerName, PlasmoVoice, now)
                && sessions.metrics.activeSessions ==
                     old(sessions.metrics.activeSessions) + (if playerUuid in old(sessions.View()) then 0 else 1)
    {
      if playerUuid in bridgedConnectionUuids {
        return;
      }
      var _ := sessions.Register(playerUuid, playerName, PlasmoVoice, now);
    }

    /** A PV disconnection: for a bridged connection only the bridged set
        forgets the player; otherwise the PV membership is removed, the
        player's source and sequence entries are dropped and the SVC side's
        channel for the player is removed. */
    method OnPlayerDisconnected(playerUuid: Uuid) returns (removedSource: Option<EntitySource>)
      requires sessions.Valid()
      modifies this`bridgedConnectionUuids, this`outboundSources, this`sequenceNumbers
      modifies sessions, sessions.metrics`activeSessions, sessions.SessionObjects(playerUuid)
      modifies relay.SvcTarget()`outboundChannels
      ensures sessions.Valid()
      ensures bridgedConnectionUuids == old(bridgedConnectionUuids) - {playerUuid}
      ensures playerUuid in old(bridgedConnectionUuids) ==>
                removedSource == None && Outbound() == old(Outbound())
                && sessions.View() == old(sessions.View())
                && sessions.metrics.activeSessions == old(sessions.metrics.activeSessions)
                && (relay.svcAdapter != null ==>
                      relay.svcAdapter.outboundChannels == old(relay.svcAdapter.outboundChannels))
      ensures playerUuid !in old(bridgedConnectionUuids) ==>
                removedSource == Lookup(old(outboundSources), playerUuid)
                && outboundSources == old(outboundSources) - {playerUuid}
                && sequenceNumbers == old(sequenceNumbers) - {playerUuid}
                && sessions.View() == SessionSpec.UnregisterType(old(sessions.View()), playerUuid, PlasmoVoice)
                && sessions.metrics.activeSessions == old(sessions.metrics.activeSessions)
                     - (if playerUuid in old(sessions.View()) && playerUuid !in sessions.View() then 1 else 0)
                && (relay.svcAdapter != null ==>
                      relay.svcAdapter.outboundChannels == old(relay.svcAdapter.outboundChannels) - {playerUuid})
      ensures old(Valid()) ==> Valid()
    {
      if playerUuid in bridgedConnectionUuids {
        bridgedConnectionUuids := bridgedConnectionUuids - {playerUuid};
        return None;
      }
      removedSource := DisconnectSpeaker(playerUuid);
    }

    /** A PV disconnection of a real (not bridged) player: the PV membership
        goes, and so do the player's outbound entries on both sides. */
    method DisconnectSpeaker(playerUuid: Uuid) returns (removedSource: Option<EntitySource>)
      requires sessions.Valid()
      modifies this`outboundSources, this`sequenceNumbers
      modifies sessions, sessions.metrics`activeSessions, sessions.SessionObjects(playerUuid)
      modifies relay.SvcTarget()`outboundChannels
      ensures sessions.Valid()
      ensures removedSource == Lookup(old(outboundSources), playerUuid)
      ensures outboundSources == old(outboundSources) - {playerUuid}
      ensures sequenceNumbers == old(sequenceNumbers) - {playerUuid}
      ensures sessions.View() == SessionSpec.UnregisterType(old(sessions.View()), playerUuid, PlasmoVoice)
      ensures sessions.metrics.activeSessions == old(sessions.metrics.activeSessions)
                - (if playerUuid in old(sessions.View()) && playerUuid !in sessions.View() then 1 else 0)
      ensures relay.svcAdapter != null ==>
                relay.svcAdapter.outboundChannels == old(relay.svcAdapter.outboundChannels) - {playerUuid}
      ensures old(Valid()) ==> Valid()
    {
      LeavePvSession(playerUuid);
      removedSource := ForgetSpeaker(playerUuid);
    }

    /** The session half of a PV disconnection: the player's PV membership
        goes, and with it the session when it was the last. */
    method LeavePvSession(playerUuid: Uuid)
      requires sessions.Valid()
      modifies sessions, sessions.metrics`activeSessions, sessions.SessionObjects(playerUuid)
      ensures sessions.Valid()
      ensures sessions.View() == SessionSpec.UnregisterType(old(sessions.View()), playerUuid, PlasmoVoice)
      ensures sessions.metrics.activeSessions == old(sessions.metrics.activeSessions)
                - (if playerUuid in old(sessions.View()) && playerUuid !in sessions.View() then 1 else 0)
    {
      var _ := sessions.UnregisterType(playerUuid, PlasmoVoice);
    }

    /** The outbound half of a PV disconnection: the player's source and
        sequence entries, and the SVC side's channel for the player. */
    method ForgetSpeaker(playerUuid: Uuid) returns (removedSource: Option<EntitySource>)
      modifies this`outboundSources, this`sequenceNumbers, relay.SvcTarget()`outboundChannels
      ensures removedSource == Lookup(old(outboundSources), playerUuid)
      ensures outboundSources == old(outboundSources) - {playerUuid}
      ensures sequenceNumbers == old(sequenceNumbers) - {playerUuid}
      ensures relay.svcAdapter != null ==>
                relay.svcAdapter.outboundChannels == old(relay.svcAdapter.outboundChannels) - {playerUuid}
      ensures old(Valid()) ==> Valid()
      ensures unchanged(sessions, sessions.sessions.Values)
    {
      removedSource := Lookup(outboundSources, playerUuid);
      outboundSources := outboundSources - {playerUuid};
      sequenceNumbers := sequenceNumbers - {playerUuid};
      var svc := relay.svcAdapter;
      if svc != null {
        var _ := svc.RemoveChannel(playerUuid);
      }
    }

    /** One inbound PV frame. Only proximity activations are handled; a
        payload that does not decrypt is counted as dropped and goes no
        further; otherwise the sender's session is touched and, if the
        sender is online, the frame is relayed with its own sequence number
        and distance. */
    method OnPlayerActivation(activation: Activation, playerUuid: Uuid, data: Bytes, sequenceNumber: int,
                              distance: Short, online: Option<Player>, now: int, channelCreated: bool)
      returns (outcome: ActivationOutcome)
      requires sessions.Valid() && relay.sessionManager == sessions
      modifies metrics`droppedFrames, sessions.SessionObjects(playerUuid)`lastActivityAt
      modifies relay.SvcTarget()`outboundChannels, relay.metrics`plasmoToSvcFrames
      ensures sessions.Valid()
      ensures Some(activation) != proximityActivation ==>
                outcome == NotProximity && sessions.View() == old(sessions.View())
                && metrics.droppedFrames == old(metrics.droppedFrames)
      ensures Some(activation) == proximityActivation && encryption.decrypt(data).None? ==>
                outcome == DecryptFailed && sessions.View() == old(sessions.View())
                && metrics.droppedFrames == old(metrics.droppedFrames) + 1
      ensures Some(activation) == proximityActivation && encryption.decrypt(data).Some? ==>
                sessions.View() == SessionSpec.Touch(old(sessions.View()), playerUuid, now)
                && metrics.droppedFrames == old(metrics.droppedFrames)
                && (online.None? ==> outcome == PvSenderOffline)
                && (online.Some? ==>
                      outcome.RelayedToSvc?
                      && (outcome.relay.None? <==> relay.svcAdapter == null)
                      && (relay.svcAdapter != null ==>
                            var r := relay.ToSvc(old(relay.svcAdapter.outboundChannels), playerUuid, online.value,
                                                 encryption.decrypt(data).value, distance, channelCreated);
                            outcome.relay == Some(r.outcome) && relay.svcAdapter.outboundChannels == r.channels))
      ensures relay.svcAdapter != null && !outcome.RelayedToSvc? ==>
                relay.svcAdapter.outboundChannels == old(relay.svcAdapter.outboundChannels)
      ensures relay.metrics.plasmoToSvcFrames == old(relay.metrics.plasmoToSvcFrames)
                + (if outcome.RelayedToSvc? && outcome.relay.Some? && outcome.relay.value.Returned() then 1 else 0)
    {
      if Some(activation) != proximityActivation {
        return NotProximity;
      }
      var opusData := encryption.decrypt(data);
      if opusData.None? {
        metrics.IncrementDroppedFrames();
        return DecryptFailed;
      }
      sessions.TouchSession(playerUuid, now);
      if online.None? {
        return PvSenderOffline;
      }
      var relayed := relay.RelayPvToSvc(playerUuid, online.value, opusData.value, sequenceNumber, distance, channelCreated);
      outcome := RelayedToSvc(relayed);
    }

    /** The end of a proximity activation flushes the SVC side's channel for
        the player, if there is one; nothing is cached or removed. */
    method OnPlayerActivationEnd(activation: Activation, playerUuid: Uuid) returns (flushed: Option<Channel>)
      ensures flushed.Some? <==>
                Some(activation) == proximityActivation && relay.svcAdapter != null
                && playerUuid in relay.svcAdapter.outboundChannels
      ensures flushed.Some? ==> flushed.value == relay.svcAdapter.outboundChannels[playerUuid]
    {
      if Some(activation) != proximityActivation {
        return None;
      }
      var svc := relay.svcAdapter;
      if svc == null {
        return None;
      }
      flushed := svc.FlushChannel(playerUuid);
    }

    /** One frame from an SVC speaker towards PV clients. */
    method SendAudioFromExternalPlayer(senderUuid: Uuid, senderPlayer: Player, opusData: Bytes,
                                       sequenceNumber: int, distance: Short, accepted: bool)
      returns (outcome: PvOutcome)
      modifies this`outboundSources, this`sequenceNumbers, metrics`droppedFrames
      ensures var r := PvSend(old(Outbound()), hasSourceLine, encryption.encrypt, senderUuid, opusData,
                              sequenceNumber, distance, accepted);
        outcome == r.outcome && Outbound() == r.outbound
        && metrics.droppedFrames == old(metrics.droppedFrames) + (if r.dropped then 1 else 0)
      ensures old(Valid()) ==> Valid()
    {
      if !hasSourceLine {
        return NoSourceLine;
      }
      var source := Lookup(outboundSources, senderUuid).GetOr(EntitySource(senderUuid));
      outboundSources := outboundSources[senderUuid := source];
      var sequence := NextSequence(Lookup(sequenceNumbers, senderUuid), sequenceNumber);
      sequenceNumbers := sequenceNumbers[senderUuid := sequence];
      var encrypted := encryption.encrypt(opusData);
      if encrypted.None? {
        metrics.IncrementDroppedFrames();
        return EncryptFailed;
      }
      outcome := Submitted(PvFrame(source, encrypted.value, sequence, distance), accepted);
    }

    /** The end-of-stream signal for a sender: sent through the sender's
        source with the last sequence number, only when both are recorded. */
    method SendAudioEnd(senderUuid: Uuid, distance: Short) returns (end: Option<PvEnd>)
      ensures end.Some? <==> senderUuid in sequenceNumbers && senderUuid in outboundSources
      ensures end.Some? ==>
                end.value.source == outboundSources[senderUuid]
                && end.value.sequence == sequenceNumbers[senderUuid] && end.value.distance == distance
    {
      if senderUuid !in sequenceNumbers {
        return None;
      }
      var sequence := sequenceNumbers[senderUuid];
      if senderUuid in outboundSources {
        end := Some(PvEnd(outboundSources[senderUuid], sequence, distance));
      } else {
        end := None;
      }
    }

    /** Drops a sender's sequence and source entries, ending the stream at
        distance 0; does nothing when no sequence is recorded. */
    method CleanupSource(senderUuid: Uuid) returns (end: Option<PvEnd>)
      modifies this`outboundSources, this`sequenceNumbers
      ensures senderUuid !in old(sequenceNumbers) ==> end == None && Outbound() == old(Outbound())
      ensures senderUuid in old(sequenceNumbers) ==>
                sequenceNumbers == old(sequenceNumbers) - {senderUuid}
                && outboundSources == old(outboundSources) - {senderUuid}
                && (end.Some? <==> senderUuid in old(outboundSources))
                && (end.Some? ==> end.value == PvEnd(old(outboundSources)[senderUuid], old(sequenceNumbers)[senderUuid], 0))
      ensures old(Valid()) ==> Valid()
    {
      if senderUuid !in sequenceNumbers {
        return None;
      }
      var sequence := sequenceNumbers[senderUuid];
      sequenceNumbers := sequenceNumbers - {senderUuid};
      end := None;
      if senderUuid in outboundSources {
        end := Some(PvEnd(outboundSources[senderUuid], sequence, 0));
        outboundSources := outboundSources - {senderUuid};
      }
    }

    /** Gives an SVC-only player a bridged PV connection: needs the injected
        server and the player online; `announced` says whether the
        connection was added and broadcast. */
    method RegisterBridgedConnection(playerUuid: Uuid, playerOnline: bool) returns (announced: bool)
      modifies this`bridgedConnectionUuids
      ensures announced <==> voiceServerInjected && playerOnline
      ensures bridgedConnectionUuids == old(bridgedConnectionUuids) + (if announced then {playerUuid} else {})
    {
      if !voiceServerInjected || !playerOnline {
        return false;
      }
      bridgedConnectionUuids := bridgedConnectionUuids + {playerUuid};
      announced := true;
    }

    /** Asks the server to drop a bridged connection; the set is left alone
        (the disconnect event that follows updates it). */
    method RemoveBridgedConnection(playerUuid: Uuid) returns (requested: bool)
      ensures requested <==> voiceServerInjected && playerUuid in bridgedConnectionUuids
    {
      requested := voiceServerInjected && playerUuid in bridgedConnectionUuids;
    }

    /** The closing pass of Shutdown: every bridged connection is closed,
        and only when the voice server was injected. */
    method CloseBridgedConnections() returns (closed: set<Uuid>)
      ensures voiceServerInjected ==> closed == bridgedConnectionUuids
      ensures !voiceServerInjected ==> closed == {}
    {
      closed := {};
      var rest := bridgedConnectionUuids;
      while rest != {}
        invariant rest <= bridgedConnectionUuids
        invariant voiceServerInjected ==> closed == bridgedConnectionUuids - rest
        invariant !voiceServerInjected ==> closed == {}
        decreases |rest|
      {
        var u :| u in rest;
        if voiceServerInjected {
          closed := closed + {u};
        }
        rest := rest - {u};
      }
    }

    /** Drops every bridged connection (best effort: without the injected
        server each attempt fails and is ignored), removes every source and
        empties all three collections. */
    method Shutdown() returns (closed: set<Uuid>, removedSources: set<EntitySource>)
      modifies this`bridgedConnectionUuids, this`outboundSources, this`sequenceNumbers
      ensures closed == (if voiceServerInjected then old(bridgedConnectionUuids) else {})
      ensures removedSources == old(outboundSources).Values
      ensures bridgedConnectionUuids == {} && outboundSources == map[] && sequenceNumbers == map[]
      ensures Valid()
    {
      closed := CloseBridgedConnections();
      bridgedConnectionUuids := {};
      removedSources := outboundSources.Values;
      outboundSources := map[];
      sequenceNumbers := map[];
    }
  }

  /** The Simple Voice Chat side: registry effects of SVC connections,
      microphone packets, and the outbound per-sender channels for speakers
      from PV. */
  class SvcAdapter {
    const sessions: SessionManager
    const relay: AudioRelay
    var serverApi: Option<ServerApi>
    var outboundChannels: map<Uuid, Channel>

    predicate Valid()
      reads this
    {
      ChannelsValid(outboundChannels)
    }

    constructor (sessions: SessionManager, relay: AudioRelay)
      ensures this.sessions == sessions && this.relay == relay
      ensures serverApi == None && outboundChannels == map[] && Valid()
    {
      this.sessions := sessions;
      this.relay := relay;
      serverApi := None;
      outboundChannels := map[];
    }

    function SenderSession(senderConnection: Option<Uuid>): set<BridgeSession>
      reads sessions
    {
      if senderConnection.Some? then sessions.SessionObjects(senderConnection.value) else {}
    }

    /** Keeps the API only when it is the server API (None stands for any
        other kind). */
    method Initialize(api: Option<ServerApi>)
      modifies this`serverApi
      ensures serverApi == if api.Some? then api else old(serverApi)
    {
      if api.Some? {
        serverApi := api;
      }
    }

    /** An SVC connection registers the SVC membership, under the player's
        server name or else the uuid's text. */
    method OnPlayerConnected(playerUuid: Uuid, bukkitName: Option<string>, now: int)
      requires sessions.Valid()
      modifies sessions, sessions.metrics`activeSessions, sessions.SessionObjects(playerUuid)
      ensures sessions.Valid()
      ensures sessions.View() ==
                SessionSpec.Register(old(sessions.View()), playerUuid, bukkitName.GetOr(UuidString(playerUuid)),
                                     SimpleVoiceChat, now)
      ensures sessions.metrics.activeSessions ==
                old(sessions.metrics.activeSessions) + (if playerUuid in old(sessions.View()) then 0 else 1)
    {
      var playerName := bukkitName.GetOr(UuidString(playerUuid));
      var _ := sessions.Register(playerUuid, playerName, SimpleVoiceChat, now);
    }

    /** An SVC disconnection removes the whole session, PV membership
        included, and flushes and drops the player's own channel. */
    method OnPlayerDisconnected(playerUuid: Uuid) returns (flushed: Option<Channel>)
      requires sessions.Valid()
      modifies sessions, sessions.metrics`activeSessions, sessions.SessionObjects(playerUuid)`active
      modifies this`outboundChannels
      ensures sessions.Valid()
      ensures sessions.View() == UnregisterAll(old(sessions.View()), playerUuid)
      ensures sessions.metrics.activeSessions ==
                old(sessions.metrics.activeSessions) - (if playerUuid in old(sessions.View()) then 1 else 0)
      ensures outboundChannels == old(outboundChannels) - {playerUuid}
      ensures flushed == Lookup(old(outboundChannels), playerUuid)
    {
      var _ := sessions.Unregister(playerUuid);
      flushed := RemoveChannel(playerUuid);
    }

    /** One microphone packet from SVC: without a sender connection it is
        ignored; otherwise the sender's session is touched, and with the
        sender online and the server API known the frame is relayed with
        sequence 0, the API's voice distance and the whisper flag. */
    method OnMicrophonePacket(senderConnection: Option<Uuid>, opusData: Bytes, whispering: bool,
                              online: Option<Player>, now: int, accepted: bool)
      returns (outcome: MicrophoneOutcome)
      requires sessions.Valid() && relay.sessionManager == sessions
      modifies SenderSession(senderConnection)`lastActivityAt
      modifies relay.PvTarget()`outboundSources, relay.PvTarget()`sequenceNumbers
      modifies relay.metrics`svcToPlasmoFrames, relay.PvMetrics()`droppedFrames
      ensures sessions.Valid()
      ensures senderConnection.None? ==> outcome == NoConnection && sessions.View() == old(sessions.View())
      ensures senderConnection.Some? ==>
                sessions.View() == SessionSpec.Touch(old(sessions.View()), senderConnection.value, now)
                && (online.None? ==> outcome == SvcSenderOffline)
                && (online.Some? && serverApi.None? ==> outcome == NoServerApiYet)
                && (online.Some? && serverApi.Some? ==>
                      outcome.RelayedToPv?
                      && (outcome.relay.None? <==> relay.pvAdapter == null)
                      && (relay.pvAdapter != null ==>
                            var r := relay.ToPv(old(relay.pvAdapter.Outbound()), senderConnection.value, online.value,
                                                opusData, 0, serverApi.value.voiceChatDistance, whispering, accepted);
                            outcome.relay == Some(r.outcome) && relay.pvAdapter.Outbound() == r.outbound
                            && relay.pvAdapter.metrics.droppedFrames ==
                                 old(relay.pvAdapter.metrics.droppedFrames) + (if r.dropped then 1 else 0)))
      ensures relay.pvAdapter != null && !outcome.RelayedToPv? ==>
                relay.pvAdapter.Outbound() == old(relay.pvAdapter.Outbound())
                && relay.pvAdapter.metrics.droppedFrames == old(relay.pvAdapter.metrics.droppedFrames)
      ensures relay.metrics.svcToPlasmoFrames == old(relay.metrics.svcToPlasmoFrames)
                + (if outcome.RelayedToPv? && outcome.relay.Some? && outcome.relay.value.Returned() then 1 else 0)
    {
      if senderConnection.None? {
        return NoConnection;
      }
      var senderUuid := senderConnection.value;
      sessions.TouchSession(senderUuid, now);
      if online.None? {
        return SvcSenderOffline;
      }
      if serverApi.None? {
        return NoServerApiYet;
      }
      var distance := serverApi.value.voiceChatDistance;
      var relayed := relay.RelaySvcToPv(senderUuid, online.value, opusData, 0, distance, whispering, accepted);
      outcome := RelayedToPv(relayed);
    }

    /** One frame from a PV speaker towards SVC clients. The sequence number
        is not used on this side. */
    method SendAudioFromExternalPlayer(senderUuid: Uuid, senderPlayer: Player, opusData: Bytes,
                                       sequenceNumber: int, distance: real, channelCreated: bool)
      returns (outcome: SvcOutcome)
      modifies this`outboundChannels
      ensures var r := SvcSend(old(outboundChannels), serverApi, senderUuid, opusData, distance, channelCreated);
        outcome == r.outcome && outboundChannels == r.channels
      ensures old(Valid()) ==> Valid()
    {
      if serverApi.None? {
        return NoServerApi;
      }
      if senderUuid !in outboundChannels {
        if !channelCreated {
          return ChannelCreationFailed;
        }
        outboundChannels := outboundChannels[senderUuid := Channel(senderUuid, ChannelSeed(senderUuid), distance)];
      }
      var channel := outboundChannels[senderUuid].(distance := distance);
      outboundChannels := outboundChannels[senderUuid := channel];
      outcome := Sent(SvcFrame(channel, opusData));
      if old(Valid()) {
        SvcSendKeepsValid(old(outboundChannels), serverApi, senderUuid, opusData, distance, channelCreated);
      }
    }

    /** Flushes the sender's channel, if cached; the cache is unchanged. */
    method FlushChannel(senderUuid: Uuid) returns (flushed: Option<Channel>)
      ensures flushed.Some? <==> senderUuid in outboundChannels
      ensures flushed.Some? ==> flushed.value == outboundChannels[senderUuid]
    {
      flushed := Lookup(outboundChannels, senderUuid);
    }

    /** Drops the sender's channel, flushing it if there was one. */
    method RemoveChannel(senderUuid: Uuid) returns (flushed: Option<Channel>)
      modifies this`outboundChannels
      ensures outboundChannels == old(outboundChannels) - {senderUuid}
      ensures flushed == Lookup(old(outboundChannels), senderUuid)
      ensures old(Valid()) ==> Valid()
      ensures unchanged(sessions, sessions.sessions.Values)
    {
      flushed := Lookup(outboundChannels, senderUuid);
      outboundChannels := outboundChannels - {senderUuid};
    }

    /** Flushes every channel and empties the cache. */
    method Shutdown() returns (flushed: set<Channel>)
      modifies this`outboundChannels
      ensures flushed == old(outboundChannels).Values
      ensures outboundChannels == map[] && Valid()
    {
      flushed := outboundChannels.Values;
      outboundChannels := map[];
    }
  }
}
