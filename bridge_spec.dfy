/** The adapters' bookkeeping as values: the Plasmo Voice adapter's per-sender
    source and sequence caches, the Simple Voice Chat adapter's per-sender
    channel cache, one outbound send on each side as a function of the cache
    and of the library's answers, and the two recipient filters. The adapter
    classes (module Bridge) are proved to follow these functions. */
module BridgeSpec {
  import opened Common
  import opened SessionSpec

  /* ---- Plasmo Voice side ---- */

  /** An entity source on the proximity line through which PV clients hear
      one speaker from SVC (the library object, reduced to its speaker). */
  datatype EntitySource = EntitySource(speaker: Uuid)

  /** One frame handed to a source: encrypted payload, sequence number and
      distance. */
  datatype PvFrame = PvFrame(source: EntitySource, payload: Bytes, sequence: int, distance: Short)

  /** How a send towards PV ended. `accepted` is the library's answer to the
      frame. */
  datatype PvOutcome =
    | NoSourceLine
    | EncryptFailed
    | Submitted(frame: PvFrame, accepted: bool)
  {
    /** The boolean `sendAudioFromExternalPlayer` returns. */
    predicate Returned() {
      Submitted? && accepted
    }
  }

  /** An end-of-stream signal sent through a source. */
  datatype PvEnd = PvEnd(source: EntitySource, sequence: int, distance: Short)

  /** The PV adapter's two per-sender caches. */
  datatype PvOutbound = PvOutbound(sources: map<Uuid, EntitySource>, sequences: map<Uuid, int>)

  /** Both caches hold the same senders, each source belongs to its key and
      every recorded sequence number is positive. */
  predicate PvOutboundValid(o: PvOutbound) {
    o.sources.Keys == o.sequences.Keys
    && (forall u :: u in o.sources ==> o.sources[u].speaker == u)
    && (forall u :: u in o.sequences ==> o.sequences[u] >= 1)
  }

  function Lookup<V>(m: map<Uuid, V>, u: Uuid): Option<V> {
    if u in m then Some(m[u]) else None
  }

  /** The sequence rule: a positive given number is taken as it is; zero or
      less means one past the previous number, or 1 for a new sender. */
  function NextSequence(current: Option<int>, given: int): (n: int)
    ensures given > 0 ==> n == given
    ensures given <= 0 && current.Some? ==> n == current.value + 1
    ensures given <= 0 && current.None? ==> n == 1
    ensures (current.None? || current.value >= 0) ==> n >= 1
  {
    if given > 0 then given else current.GetOr(0) + 1
  }

  /** The result of one send towards PV: the new caches, the outcome and
      whether the frame is counted as dropped. */
  datatype PvSendResult = PvSendResult(outbound: PvOutbound, outcome: PvOutcome, dropped: bool)

  /** One `sendAudioFromExternalPlayer` on the PV side. `hasLine` says whether
      the proximity source line was found; `encrypt` is the server's default
      encryption (None for an encryption failure); `accepted` is the source's
      answer to the frame. */
  function PvSend(o: PvOutbound, hasLine: bool, encrypt: Bytes -> Option<Bytes>,
                  sender: Uuid, payload: Bytes, given: int, distance: Short, accepted: bool): (r: PvSendResult)
    ensures !hasLine ==> r == PvSendResult(o, NoSourceLine, false)
    ensures hasLine ==> sender in r.outbound.sources && sender in r.outbound.sequences
    ensures r.dropped <==> r.outcome == EncryptFailed
    ensures r.outcome.Returned() ==> hasLine && accepted
    ensures PvOutboundValid(o) ==> PvOutboundValid(r.outbound)
  {
    if !hasLine then PvSendResult(o, NoSourceLine, false)
    else
      var source := Lookup(o.sources, sender).GetOr(EntitySource(sender));
      var sequence := NextSequence(Lookup(o.sequences, sender), given);
      var o' := PvOutbound(o.sources[sender := source], o.sequences[sender := sequence]);
      match encrypt(payload)
      case None => PvSendResult(o', EncryptFailed, true)
      case Some(data) => PvSendResult(o', Submitted(PvFrame(source, data, sequence, distance), accepted), false)
  }

  /** `n` consecutive sends from one sender with the sentinel sequence 0, as
      every frame relayed from SVC is. */
  function SentinelSends(o: PvOutbound, encrypt: Bytes -> Option<Bytes>, sender: Uuid,
                         payload: Bytes, distance: Short, accepted: bool, n: nat): PvOutbound
  {
    if n == 0 then o
    else PvSend(SentinelSends(o, encrypt, sender, payload, distance, accepted, n - 1),
                true, encrypt, sender, payload, 0, distance, accepted).outbound
  }

  /* ---- Properties of the PV send ---- */

  /** With a source line: the sender has exactly one source, the one already
      cached or else a new one for it, the sequence follows the rule, and no
      other sender's entries change. */
  lemma PvSendCaches(o: PvOutbound, encrypt: Bytes -> Option<Bytes>,
                     sender: Uuid, payload: Bytes, given: int, distance: Short, accepted: bool)
    ensures var o' := PvSend(o, true, encrypt, sender, payload, given, distance, accepted).outbound;
      o'.sources.Keys == o.sources.Keys + {sender}
      && o'.sequences.Keys == o.sequences.Keys + {sender}
      && (sender in o.sources ==> o'.sources[sender] == o.sources[sender])
      && (sender !in o.sources ==> o'.sources[sender] == EntitySource(sender))
      && (given > 0 ==> o'.sequences[sender] == given)
      && (given <= 0 && sender in o.sequences ==> o'.sequences[sender] == o.sequences[sender] + 1)
      && (given <= 0 && sender !in o.sequences ==> o'.sequences[sender] == 1)
      && (forall u :: u in o.sources && u != sender ==> o'.sources[u] == o.sources[u])
      && (forall u :: u in o.sequences && u != sender ==> o'.sequences[u] == o.sequences[u])
  {
  }

  /** The source made by the first send is the one every later send uses. */
  lemma PvSourceReused(o: PvOutbound, encrypt: Bytes -> Option<Bytes>, sender: Uuid,
                       p1: Bytes, g1: int, d1: Short, a1: bool,
                       p2: Bytes, g2: int, d2: Short, a2: bool)
    ensures
      var o1 := PvSend(o, true, encrypt, sender, p1, g1, d1, a1).outbound;
      var o2 := PvSend(o1, true, encrypt, sender, p2, g2, d2, a2).outbound;
      o2.sources == o1.sources
  {
    var o1 := PvSend(o, true, encrypt, sender, p1, g1, d1, a1).outbound;
    assert o1.sources[sender := o1.sources[sender]] == o1.sources;
  }

  /** The send reports true exactly when there is a line, encryption
      succeeds and the source accepts; the frame is counted as dropped
      exactly when there is a line and encryption fails, and then the
      sequence has advanced all the same. */
  lemma PvSendOutcome(o: PvOutbound, hasLine: bool, encrypt: Bytes -> Option<Bytes>,
                      sender: Uuid, payload: Bytes, given: int, distance: Short, accepted: bool)
    ensures var r := PvSend(o, hasLine, encrypt, sender, payload, given, distance, accepted);
      (r.outcome.Returned() <==> hasLine && encrypt(payload).Some? && accepted)
      && (r.dropped <==> hasLine && encrypt(payload).None?)
      && (r.dropped ==> r.outcome == EncryptFailed
                        && r.outbound.sequences[sender] == NextSequence(Lookup(o.sequences, sender), given))
  {
  }

  /** A submitted frame carries the encrypted payload, the stored sequence
      number, the given distance and the sender's cached source. */
  lemma PvFrameContents(o: PvOutbound, hasLine: bool, encrypt: Bytes -> Option<Bytes>,
                        sender: Uuid, payload: Bytes, given: int, distance: Short, accepted: bool)
    ensures var r := PvSend(o, hasLine, encrypt, sender, payload, given, distance, accepted);
      r.outcome.Submitted? ==>
        encrypt(payload).Some? && r.outcome.frame.payload == encrypt(payload).value
        && r.outcome.frame.source == r.outbound.sources[sender]
        && r.outcome.frame.sequence == r.outbound.sequences[sender]
        && r.outcome.frame.distance == distance
  {
  }

  /** After `n` sentinel sends the sender's sequence number has moved up by
      exactly `n` from where it was (from 0 for a new sender). */
  lemma {:induction false} SentinelSendsCount(o: PvOutbound, encrypt: Bytes -> Option<Bytes>, sender: Uuid,
                                              payload: Bytes, distance: Short, accepted: bool, n: nat)
    requires n > 0
    ensures var o' := SentinelSends(o, encrypt, sender, payload, distance, accepted, n);
      sender in o'.sequences && o'.sequences[sender] == Lookup(o.sequences, sender).GetOr(0) + n
  {
    var prev := SentinelSends(o, encrypt, sender, payload, distance, accepted, n - 1);
    if n > 1 {
      SentinelSendsCount(o, encrypt, sender, payload, distance, accepted, n - 1);
    }
    assert Lookup(prev.sequences, sender).GetOr(0) == Lookup(o.sequences, sender).GetOr(0) + (n - 1);
  }

  /* ---- Simple Voice Chat side ---- */

  /** The text the channel identifier is derived from (the identifier is a
      name-based UUID of it). */
  function ChannelSeed(u: Uuid): (s: string)
    ensures |s| == 49 && s[..13] == "voice-bridge-" && s[13..] == UuidString(u)
  {
    "voice-bridge-" + UuidString(u)
  }

  /** Distinct speakers get distinct channel seeds, hence distinct
      channels. */
  lemma ChannelSeedInjective(u: Uuid, v: Uuid)
    ensures ChannelSeed(u) == ChannelSeed(v) ==> u == v
  {
    UuidStringInjective(u, v);
  }

  /** An entity audio channel through which SVC clients hear one speaker from
      PV, with its current distance. */
  datatype Channel = Channel(speaker: Uuid, idSeed: string, distance: real)

  datatype SvcFrame = SvcFrame(channel: Channel, payload: Bytes)

  /** How a send towards SVC ended. A failed channel creation is the
      null-assertion exception, which leaves the call without a result. */
  datatype SvcOutcome =
    | NoServerApi
    | ChannelCreationFailed
    | Sent(frame: SvcFrame)
  {
    /** The boolean `sendAudioFromExternalPlayer` returns, when it returns. */
    predicate Returned() {
      Sent?
    }
  }

  /** The part of the voice chat server API the bridge reads. */
  datatype ServerApi = ServerApi(voiceChatDistance: real)

  /** Each cached channel belongs to its key, with the identifier derived
      from that key. */
  predicate ChannelsValid(cs: map<Uuid, Channel>) {
    forall u :: u in cs ==> cs[u].speaker == u && cs[u].idSeed == ChannelSeed(u)
  }

  datatype SvcSendResult = SvcSendResult(channels: map<Uuid, Channel>, outcome: SvcOutcome)

  /** One `sendAudioFromExternalPlayer` on the SVC side. `channelCreated` is
      the library's answer to the channel creation the first send from a
      sender asks for. */
  function SvcSend(cs: map<Uuid, Channel>, api: Option<ServerApi>, sender: Uuid, payload: Bytes,
                   distance: real, channelCreated: bool): (r: SvcSendResult)
    ensures r.outcome == NoServerApi <==> api.None?
    ensures r.outcome.Sent? ==>
              sender in r.channels && r.outcome.frame.channel == r.channels[sender]
              && r.channels[sender].speaker == (if sender in cs then cs[sender].speaker else sender)
              && r.channels[sender].distance == distance && r.outcome.frame.payload == payload
    ensures !r.outcome.Sent? ==> r.channels == cs
  {
    if api.None? then SvcSendResult(cs, NoServerApi)
    else if sender !in cs && !channelCreated then SvcSendResult(cs, ChannelCreationFailed)
    else
      var channel := Lookup(cs, sender).GetOr(Channel(sender, ChannelSeed(sender), distance)).(distance := distance);
      SvcSendResult(cs[sender := channel], Sent(SvcFrame(channel, payload)))
  }

  /* ---- Properties of the SVC send ---- */

  lemma SvcSendKeepsValid(cs: map<Uuid, Channel>, api: Option<ServerApi>, sender: Uuid, payload: Bytes,
                          distance: real, channelCreated: bool)
    requires ChannelsValid(cs)
    ensures ChannelsValid(SvcSend(cs, api, sender, payload, distance, channelCreated).channels)
  {
    var r := SvcSend(cs, api, sender, payload, distance, channelCreated);
    if r.outcome.Sent? {
      var channel := Lookup(cs, sender).GetOr(Channel(sender, ChannelSeed(sender), distance)).(distance := distance);
      assert r.channels == cs[sender := channel];
      assert channel.speaker == sender && channel.idSeed == ChannelSeed(sender);
    }
  }

  /** The send reports false exactly when there is no server API; with one
      it sends, unless the first channel for the sender cannot be made. */
  lemma SvcSendOutcome(cs: map<Uuid, Channel>, api: Option<ServerApi>, sender: Uuid, payload: Bytes,
                       distance: real, channelCreated: bool)
    ensures var r := SvcSend(cs, api, sender, payload, distance, channelCreated);
      (r.outcome == NoServerApi <==> api.None?)
      && (r.outcome.Returned() <==> api.Some? && (sender in cs || channelCreated))
      && (!r.outcome.Returned() ==> r.channels == cs)
  {
  }

  /** A successful send keeps one channel for the sender, the cached one if
      there was one, sets its distance to the latest value, sends the
      payload unchanged through it and leaves every other channel alone. */
  lemma SvcSendCaches(cs: map<Uuid, Channel>, api: Option<ServerApi>, sender: Uuid, payload: Bytes,
                      distance: real, channelCreated: bool)
    ensures var r := SvcSend(cs, api, sender, payload, distance, channelCreated);
      r.outcome.Sent? ==>
        r.channels.Keys == cs.Keys + {sender}
        && r.channels[sender].distance == distance
        && (sender in cs ==> r.channels[sender] == cs[sender].(distance := distance))
        && r.outcome.frame == SvcFrame(r.channels[sender], payload)
        && (forall u :: u in cs && u != sender ==> r.channels[u] == cs[u])
  {
  }

  /* ---- Recipient filters, evaluated on the registry at delivery time ---- */

  /** PV source filter: every recipient except a dual member. */
  predicate PvAdmits(r: Registry, recipient: Uuid)
    ensures PvAdmits(r, recipient) <==>
              recipient !in r || SimpleVoiceChat !in r[recipient].modTypes || PlasmoVoice !in r[recipient].modTypes
  {
    if recipient in r then
      TwoTypesAreBoth(r[recipient].modTypes);
      !IsDualMod(r, recipient)
    else
      !IsDualMod(r, recipient)
  }

  /** SVC channel filter as written: the recipient's first membership in
      hash order is SVC. */
  predicate SvcAdmits(r: Registry, hashFirst: ModType, recipient: Uuid)
    ensures SvcAdmits(r, hashFirst, recipient) ==>
              recipient in r && SimpleVoiceChat in r[recipient].modTypes
    ensures recipient in r && r[recipient].modTypes == {SimpleVoiceChat} ==> SvcAdmits(r, hashFirst, recipient)
  {
    recipient in r && r[recipient].modTypes != {}
    && Primary(r[recipient].modTypes, hashFirst) == SimpleVoiceChat
  }

  /** SVC channel filter as intended: SVC-only recipients. */
  predicate SvcAdmitsSingle(r: Registry, recipient: Uuid)
    ensures SvcAdmitsSingle(r, recipient) ==>
              !IsDualMod(r, recipient) && PvAdmits(r, recipient) && forall h :: SvcAdmits(r, h, recipient)
  {
    recipient in r && r[recipient].modTypes == {SimpleVoiceChat}
  }

  /** The PV filter admits exactly the players outside the registry and the
      single-mod ones. */
  lemma PvAdmitsExactly(r: Registry, recipient: Uuid)
    requires WellFormed(r)
    ensures PvAdmits(r, recipient) <==>
              recipient !in r || r[recipient].modTypes == {SimpleVoiceChat} || r[recipient].modTypes == {PlasmoVoice}
  {
    if recipient in r {
      var types := r[recipient].modTypes;
      TwoTypesAreBoth(types);
      if SimpleVoiceChat !in types {
        OnlyTheOther(types, SimpleVoiceChat);
      } else if PlasmoVoice !in types {
        OnlyTheOther(types, PlasmoVoice);
      }
    }
  }

  /** The SVC filter as written always turns away unregistered and PV-only
      players and admits SVC-only ones, but it admits a dual member exactly
      when SVC comes first in hash order. */
  lemma SvcAdmitsAsWritten(r: Registry, hashFirst: ModType, recipient: Uuid)
    requires WellFormed(r)
    ensures recipient !in r ==> !SvcAdmits(r, hashFirst, recipient)
    ensures recipient in r && r[recipient].modTypes == {PlasmoVoice} ==> !SvcAdmits(r, hashFirst, recipient)
    ensures recipient in r && r[recipient].modTypes == {SimpleVoiceChat} ==> SvcAdmits(r, hashFirst, recipient)
    ensures IsDualMod(r, recipient) ==> (SvcAdmits(r, hashFirst, recipient) <==> hashFirst == SimpleVoiceChat)
  {
  }

  /** A registry in which the as-written SVC filter admits a dual member:
      with SVC first in hash order, that player hears a PV speaker natively
      and a second time through the bridged channel. */
  lemma SvcAdmitsDualMember(u: Uuid)
    ensures
      var r := map[u := SessionState("Alex", {SimpleVoiceChat, PlasmoVoice}, true, 0, 0)];
      WellFormed(r) && IsDualMod(r, u) && SvcAdmits(r, SimpleVoiceChat, u)
  {
    var r := map[u := SessionState("Alex", {SimpleVoiceChat, PlasmoVoice}, true, 0, 0)];
    assert |r[u].modTypes| == 2;
  }

  /** The intended SVC filter admits no dual member whatever the hash order,
      and agrees with the as-written filter on every other player; together
      with the PV filter, no dual member is a recipient on either side. */
  lemma SvcAdmitsSingleExactly(r: Registry, hashFirst: ModType, recipient: Uuid)
    requires WellFormed(r)
    ensures IsDualMod(r, recipient) ==> !SvcAdmitsSingle(r, recipient) && !PvAdmits(r, recipient)
    ensures !IsDualMod(r, recipient) ==> (SvcAdmitsSingle(r, recipient) <==> SvcAdmits(r, hashFirst, recipient))
  {
    if recipient in r {
      var types := r[recipient].modTypes;
      TwoTypesAreBoth(types);
      if |types| >= 2 {
        assert types != {SimpleVoiceChat} by {
          assert PlasmoVoice in types;
        }
      } else if SimpleVoiceChat !in types {
        OnlyTheOther(types, SimpleVoiceChat);
      } else {
        OnlyTheOther(types, PlasmoVoice);
      }
    }
  }
}
