/** The session registry as a value: a map from player to session state, and
    the operations of the registry as functions on it. The imperative
    registry (module Session) is proved to follow these functions; the lemmas
    here are what the registry therefore promises. */
module SessionSpec {
  import opened Common

  datatype ModType = SimpleVoiceChat | PlasmoVoice

  function Other(t: ModType): (o: ModType)
    ensures o != t
  {
    if t == SimpleVoiceChat then PlasmoVoice else SimpleVoiceChat
  }

  /** The two tags are all there are: a set with two or more is the full set. */
  lemma TwoTypesAreBoth(types: set<ModType>)
    ensures types <= {SimpleVoiceChat, PlasmoVoice}
    ensures |types| >= 2 <==> types == {SimpleVoiceChat, PlasmoVoice}
  {
    var both := {SimpleVoiceChat, PlasmoVoice};
    forall t | t in types ensures t in both {
      match t
      case SimpleVoiceChat =>
      case PlasmoVoice =>
    }
    if types != both {
      if SimpleVoiceChat in types {
        assert types == {SimpleVoiceChat};
      } else if PlasmoVoice in types {
        assert types == {PlasmoVoice};
      } else {
        assert types == {};
      }
    }
  }

  /** A non-empty set of tags without `t` holds exactly the other tag. */
  lemma OnlyTheOther(types: set<ModType>, t: ModType)
    requires types != {} && t !in types
    ensures types == {Other(t)}
  {
    forall x | x in types ensures x == Other(t) {
      match x
      case SimpleVoiceChat =>
      case PlasmoVoice =>
    }
    var m :| m in types;
    assert types == {m};
  }

  /** The session of one player: the mods it is connected through and its
      bookkeeping. The uuid is the registry key. */
  datatype SessionState = SessionState(
    name: string,
    modTypes: set<ModType>,
    active: bool,
    createdAt: int,
    lastActivityAt: int)

  type Registry = map<Uuid, SessionState>

  /** Sessions inactive and untouched for longer than this are swept. */
  const StaleTimeoutMs: int := 30_000

  /** The registry's invariant for each stored session. */
  predicate Live(s: SessionState) {
    s.modTypes != {} && s.active
  }

  predicate WellFormed(r: Registry) {
    forall u :: u in r ==> Live(r[u])
  }

  /** The first tag in the set's iteration order. The order of the two enum
      constants in a hash set is fixed for a run but not by the program: it
      is the parameter `hashFirst`. */
  function Primary(types: set<ModType>, hashFirst: ModType): (t: ModType)
    requires types != {}
    ensures t in types
    ensures forall m :: types == {m} ==> t == m
    ensures |types| >= 2 ==> t == hashFirst
  {
    TwoTypesAreBoth(types);
    if hashFirst in types then hashFirst
    else OnlyTheOther(types, hashFirst); Other(hashFirst)
  }

  function Register(r: Registry, id: Uuid, name: string, t: ModType, now: int): (r': Registry)
    ensures r'.Keys == r.Keys + {id}
    ensures forall u :: u in r && u != id ==> r'[u] == r[u]
    ensures id in r ==> r'[id] == r[id].(modTypes := r[id].modTypes + {t})
    ensures id !in r ==> r'[id] == SessionState(name, {t}, true, now, now)
  {
    if id in r then r[id := r[id].(modTypes := r[id].modTypes + {t})]
    else r[id := SessionState(name, {t}, true, now, now)]
  }

  /** Removes the whole session, whatever its memberships. */
  function UnregisterAll(r: Registry, id: Uuid): (r': Registry)
    ensures r'.Keys == r.Keys - {id}
    ensures forall u :: u in r' ==> r'[u] == r[u]
  {
    r - {id}
  }

  /** Removes one membership; the session goes when its last one does. */
  function UnregisterType(r: Registry, id: Uuid, t: ModType): (r': Registry)
    ensures id !in r ==> r' == r
    ensures id in r && r[id].modTypes <= {t} ==> r'.Keys == r.Keys - {id}
    ensures id in r && !(r[id].modTypes <= {t}) ==>
              r'.Keys == r.Keys && r'[id] == r[id].(modTypes := r[id].modTypes - {t})
    ensures forall u :: u in r && u != id ==> u in r' && r'[u] == r[u]
  {
    if id !in r then r
    else if r[id].modTypes - {t} == {} then r - {id}
    else r[id := r[id].(modTypes := r[id].modTypes - {t})]
  }

  function Touch(r: Registry, id: Uuid, now: int): (r': Registry)
    ensures r'.Keys == r.Keys
    ensures forall u :: u in r && u != id ==> r'[u] == r[u]
    ensures id in r ==> r'[id] == r[id].(lastActivityAt := now)
  {
    if id in r then r[id := r[id].(lastActivityAt := now)] else r
  }

  /** A session the sweep at time `now` removes: inactive, and last active
      strictly before `now` minus the timeout. */
  predicate IsStale(s: SessionState, now: int) {
    !s.active && s.lastActivityAt < now - StaleTimeoutMs
  }

  function StaleKeys(r: Registry, now: int): (ks: set<Uuid>)
    ensures ks <= r.Keys
    ensures forall u :: u in ks <==> u in r && IsStale(r[u], now)
  {
    set u | u in r && IsStale(r[u], now)
  }

  function Cleanup(r: Registry, now: int): (r': Registry)
    ensures forall u :: u in r' <==> u in r && !IsStale(r[u], now)
    ensures forall u :: u in r' ==> r'[u] == r[u]
    ensures forall u :: u in r && r[u].active ==> u in r'
  {
    map u | u in r && !IsStale(r[u], now) :: r[u]
  }

  predicate IsDualMod(r: Registry, id: Uuid) {
    id in r && |r[id].modTypes| >= 2
  }

  /** The players whose active session holds membership `t`. */
  function SessionsByMod(r: Registry, t: ModType): (ids: set<Uuid>)
    ensures forall u :: u in ids <==> u in r && t in r[u].modTypes && r[u].active
  {
    set u | u in r && t in r[u].modTypes && r[u].active
  }

  /* ---- Properties of single operations ---- */

  lemma RegisterKeepsWellFormed(r: Registry, id: Uuid, name: string, t: ModType, now: int)
    requires WellFormed(r)
    ensures WellFormed(Register(r, id, name, t, now))
    ensures id in Register(r, id, name, t, now)
  {
  }

  /** Registering a membership the session already has changes nothing. */
  lemma ReRegisterChangesNothing(r: Registry, id: Uuid, name: string, t: ModType, now: int)
    requires id in r && t in r[id].modTypes
    ensures Register(r, id, name, t, now) == r
  {
    assert r[id].(modTypes := r[id].modTypes + {t}) == r[id];
  }

  lemma RegisterIdempotent(r: Registry, id: Uuid, name: string, t: ModType, now: int)
    ensures Register(Register(r, id, name, t, now), id, name, t, now) == Register(r, id, name, t, now)
  {
    ReRegisterChangesNothing(Register(r, id, name, t, now), id, name, t, now);
  }

  /** Joining through the second mod makes the session dual and keeps the
      name and times it was created with. */
  lemma SecondTypeMakesDual(r: Registry, id: Uuid, name: string, t: ModType, now: int)
    requires id in r && r[id].modTypes == {Other(t)}
    ensures var r' := Register(r, id, name, t, now);
      IsDualMod(r', id) && r'[id].name == r[id].name
      && r'[id].createdAt == r[id].createdAt && r'[id].lastActivityAt == r[id].lastActivityAt
  {
    assert Register(r, id, name, t, now)[id].modTypes == {Other(t), t};
  }

  lemma UnregisterTypeKeepsWellFormed(r: Registry, id: Uuid, t: ModType)
    requires WellFormed(r)
    ensures WellFormed(UnregisterType(r, id, t))
  {
  }

  /** A dual session survives losing one membership, as a single-mod session
      of the other mod. */
  lemma DualLosesOneType(r: Registry, id: Uuid, t: ModType)
    requires WellFormed(r) && IsDualMod(r, id)
    ensures var r' := UnregisterType(r, id, t);
      id in r' && r'[id].modTypes == {Other(t)} && !IsDualMod(r', id)
  {
    TwoTypesAreBoth(r[id].modTypes);
    var left := r[id].modTypes - {t};
    assert left == {Other(t)} by {
      if t == SimpleVoiceChat { assert left == {PlasmoVoice}; } else { assert left == {SimpleVoiceChat}; }
    }
  }

  /** Under the invariant no session is stale, so the sweep changes nothing. */
  lemma CleanupOfWellFormedIsNoOp(r: Registry, now: int)
    requires WellFormed(r)
    ensures StaleKeys(r, now) == {}
    ensures Cleanup(r, now) == r
  {
  }

  lemma CleanupSize(r: Registry, now: int)
    ensures |Cleanup(r, now)| == |r| - |StaleKeys(r, now)|
  {
    var c := Cleanup(r, now);
    var ks := StaleKeys(r, now);
    assert c.Keys == r.Keys - ks;
    assert |r.Keys - ks| == |r.Keys| - |ks| by {
      assert (r.Keys - ks) + ks == r.Keys;
      assert (r.Keys - ks) !! ks;
    }
  }

  /** The two by-mod lists together hold every live session, and a player
      is in both exactly when the session is dual. */
  lemma SessionsByModPartition(r: Registry, id: Uuid)
    requires WellFormed(r)
    ensures id in r <==> id in SessionsByMod(r, SimpleVoiceChat) + SessionsByMod(r, PlasmoVoice)
    ensures IsDualMod(r, id) <==>
              id in SessionsByMod(r, SimpleVoiceChat) && id in SessionsByMod(r, PlasmoVoice)
  {
    if id in r {
      var types := r[id].modTypes;
      TwoTypesAreBoth(types);
      if SimpleVoiceChat !in types {
        OnlyTheOther(types, SimpleVoiceChat);
      } else if PlasmoVoice !in types {
        OnlyTheOther(types, PlasmoVoice);
      } else {
        assert types == {SimpleVoiceChat, PlasmoVoice};
      }
    }
  }

  /** A player with no session who connects through one mod and leaves
      through the same mod leaves the registry as it was. */
  lemma ConnectThenDisconnectRestores(r: Registry, id: Uuid, name: string, t: ModType, now: int)
    requires id !in r
    ensures UnregisterType(Register(r, id, name, t, now), id, t) == r
  {
    var r' := Register(r, id, name, t, now);
    assert r'[id].modTypes - {t} == {};
    assert r' - {id} == r;
  }

  /** Once the whole session is gone (an SVC disconnection), the PV
      disconnection that may follow changes nothing. */
  lemma LaterDisconnectIsNoOp(r: Registry, id: Uuid, t: ModType)
    ensures UnregisterType(UnregisterAll(r, id), id, t) == UnregisterAll(r, id)
  {
  }

  /* ---- The registry together with its counter ---- */

  /** The registry and the global active-session counter. */
  datatype Bookkeeping = Bookkeeping(sessions: Registry, activeSessions: int)

  datatype Op =
    | OpRegister(id: Uuid, name: string, t: ModType, now: int)
    | OpUnregister(id: Uuid)
    | OpUnregisterType(id: Uuid, t: ModType)
    | OpTouch(id: Uuid, now: int)
    | OpCleanup(now: int)
    | OpClear

  /** One registry call: the new map, and the counter moved by one for each
      session created or deleted. */
  function Step(b: Bookkeeping, op: Op): Bookkeeping {
    var r := b.sessions;
    match op
    case OpRegister(id, name, t, now) =>
      Bookkeeping(Register(r, id, name, t, now), b.activeSessions + (if id in r then 0 else 1))
    case OpUnregister(id) =>
      Bookkeeping(UnregisterAll(r, id), b.activeSessions - (if id in r then 1 else 0))
    case OpUnregisterType(id, t) =>
      var last := id in r && r[id].modTypes - {t} == {};
      Bookkeeping(UnregisterType(r, id, t), b.activeSessions - (if last then 1 else 0))
    case OpTouch(id, now) =>
      Bookkeeping(Touch(r, id, now), b.activeSessions)
    case OpCleanup(now) =>
      Bookkeeping(Cleanup(r, now), b.activeSessions - |StaleKeys(r, now)|)
    case OpClear =>
      Bookkeeping(map[], 0)
  }

  /** The state after a sequence of calls, starting from an empty registry
      and a zero counter. */
  function Replay(ops: seq<Op>): Bookkeeping {
    if ops == [] then Bookkeeping(map[], 0)
    else Step(Replay(ops[..|ops| - 1]), ops[|ops| - 1])
  }

  predicate InSync(b: Bookkeeping) {
    WellFormed(b.sessions) && b.activeSessions == |b.sessions|
  }

  lemma RegisterCount(r: Registry, id: Uuid, name: string, t: ModType, now: int)
    ensures |Register(r, id, name, t, now)| == |r| + (if id in r then 0 else 1)
  {
    var r' := Register(r, id, name, t, now);
    if id in r {
      assert r'.Keys == r.Keys;
    } else {
      assert r'.Keys == r.Keys + {id};
    }
  }

  lemma UnregisterAllCount(r: Registry, id: Uuid)
    ensures |UnregisterAll(r, id)| == |r| - (if id in r then 1 else 0)
  {
    var r' := UnregisterAll(r, id);
    if id in r {
      assert r'.Keys + {id} == r.Keys;
    } else {
      assert r'.Keys == r.Keys;
    }
  }

  lemma UnregisterTypeCount(r: Registry, id: Uuid, t: ModType)
    ensures |UnregisterType(r, id, t)| ==
              |r| - (if id in r && r[id].modTypes - {t} == {} then 1 else 0)
  {
    if id in r && r[id].modTypes - {t} == {} {
      UnregisterAllCount(r, id);
    } else if id in r {
      assert UnregisterType(r, id, t).Keys == r.Keys;
    }
  }

  lemma StepKeepsInSync(b: Bookkeeping, op: Op)
    requires InSync(b)
    ensures InSync(Step(b, op))
  {
    var r := b.sessions;
    match op
    case OpRegister(id, name, t, now) =>
      RegisterCount(r, id, name, t, now);
      RegisterKeepsWellFormed(r, id, name, t, now);
    case OpUnregister(id) =>
      UnregisterAllCount(r, id);
    case OpUnregisterType(id, t) =>
      UnregisterTypeCount(r, id, t);
      UnregisterTypeKeepsWellFormed(r, id, t);
    case OpTouch(id, now) =>
      assert Touch(r, id, now).Keys == r.Keys;
    case OpCleanup(now) =>
      CleanupSize(r, now);
    case OpClear =>
  }

  /** From an empty registry, every sequence of register, unregister, touch,
      sweep and clear calls keeps every session live and the counter equal
      to the number of sessions. */
  lemma {:induction false} ReplayInSync(ops: seq<Op>)
    ensures InSync(Replay(ops))
  {
    if ops != [] {
      ReplayInSync(ops[..|ops| - 1]);
      StepKeepsInSync(Replay(ops[..|ops| - 1]), ops[|ops| - 1]);
    }
  }
}
