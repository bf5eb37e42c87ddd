/** The live session registry: one BridgeSession object per player, held in
    a map that SessionManager updates in place, next to the global
    active-session counter. Each method is proved to move the abstract view
    of the registry exactly as the matching function of SessionSpec does. */
module Session {
  import opened Common
  import opened SessionSpec
  import opened Metrics

  class BridgeSession {
    const playerUuid: Uuid
    const playerName: string
    var modTypes: set<ModType>
    var active: bool
    const createdAt: int
    var lastActivityAt: int

    /** A new session holds its first membership and is active; both of its
        times are the creation time. */
    constructor (playerUuid: Uuid, playerName: string, initialModType: ModType, now: int)
      ensures this.playerUuid == playerUuid
      ensures State() == SessionState(playerName, {initialModType}, true, now, now)
    {
      this.playerUuid := playerUuid;
      this.playerName := playerName;
      this.modTypes := {initialModType};
      this.active := true;
      this.createdAt := now;
      this.lastActivityAt := now;
    }

    function State(): SessionState
      reads this
    {
      SessionState(playerName, modTypes, active, createdAt, lastActivityAt)
    }

    /** The primary mod: the first membership in the set's iteration order
        (taking it from an empty set throws). */
    function PrimaryModType(hashFirst: ModType): (t: ModType)
      reads this
      requires modTypes != {}
      ensures t in modTypes
      ensures forall m :: modTypes == {m} ==> t == m
    {
      Primary(modTypes, hashFirst)
    }

    method AddModType(t: ModType) returns (added: bool)
      modifies this`modTypes
      ensures modTypes == old(modTypes) + {t}
      ensures added <==> t !in old(modTypes)
    {
      added := t !in modTypes;
      modTypes := modTypes + {t};
    }

    method RemoveModType(t: ModType)
      modifies this`modTypes
      ensures modTypes == old(modTypes) - {t}
    {
      modTypes := modTypes - {t};
    }

    function HasModType(t: ModType): (b: bool)
      reads this
      ensures b ==> t in modTypes && modTypes != {}
      ensures !b ==> t !in modTypes && modTypes <= {Other(t)}
    {
      TwoTypesAreBoth(modTypes);
      t in modTypes
    }

    /** Dual exactly when connected through both mods. */
    function IsDualMod(): (dual: bool)
      reads this
      ensures dual <==> SimpleVoiceChat in modTypes && PlasmoVoice in modTypes
    {
      TwoTypesAreBoth(modTypes);
      |modTypes| >= 2
    }

    function HasNoMods(): (b: bool)
      reads this
      ensures b <==> !HasModType(SimpleVoiceChat) && !HasModType(PlasmoVoice)
    {
      TwoTypesAreBoth(modTypes);
      modTypes == {}
    }

    method Touch(now: int)
      modifies this`lastActivityAt
      ensures lastActivityAt == now
    {
      lastActivityAt := now;
    }
  }

  class SessionManager {
    var sessions: map<Uuid, BridgeSession>
    const metrics: BridgeMetrics
    /** Which of the two tags a membership set yields first (see Primary). */
    const hashFirst: ModType

    /** Every stored session is keyed by its own player (so distinct keys hold
        distinct objects), has a membership and is active. */
    ghost predicate Valid()
      reads this, sessions.Values
      ensures Valid() ==> WellFormed(View())
    {
      forall u :: u in sessions ==>
        sessions[u].playerUuid == u && sessions[u].modTypes != {} && sessions[u].active
    }

    ghost function View(): Registry
      reads this, sessions.Values
    {
      map u | u in sessions :: sessions[u].State()
    }

    /** The global counter equals the number of stored sessions. */
    ghost predicate InSync()
      reads this, metrics
    {
      metrics.activeSessions == |sessions|
    }

    /** The abstract registry is determined by the stored sessions' states. */
    lemma ViewMatches(r: Registry)
      requires r.Keys == sessions.Keys
      requires forall u :: u in sessions ==> sessions[u].State() == r[u]
      ensures View() == r
    {
      RegistryExt(View(), r);
    }

    function SessionObjects(id: Uuid): set<BridgeSession>
      reads this
    {
      if id in sessions then {sessions[id]} else {}
    }

    constructor (metrics: BridgeMetrics, hashFirst: ModType)
      ensures this.metrics == metrics && this.hashFirst == hashFirst
      ensures Valid() && sessions == map[] && View() == map[]
    {
      this.metrics := metrics;
      this.hashFirst := hashFirst;
      sessions := map[];
    }

    /** Creates the session if the player has none (counting it), then adds
        the membership. */
    method Register(id: Uuid, name: string, t: ModType, now: int) returns (s: BridgeSession)
      requires Valid()
      modifies this, metrics`activeSessions, SessionObjects(id)
      ensures Valid()
      ensures View() == SessionSpec.Register(old(View()), id, name, t, now)
      ensures id in sessions && s == sessions[id]
      ensures id in old(sessions) ==> s == old(sessions[id]) && sessions == old(sessions)
      ensures id !in old(sessions) ==> fresh(s) && sessions == old(sessions)[id := s]
      ensures metrics.activeSessions ==
                old(metrics.activeSessions) + (if id in old(sessions) then 0 else 1)
      ensures old(InSync()) ==> InSync()
    {
      if id in sessions {
        s := sessions[id];
        AddMembership(id, t);
      } else {
        ghost var v0 := View();
        s := CreateSession(id, name, t, now);
        AddMembership(id, t);
        assert {t} + {t} == {t};
        assert View() == v0[id := SessionState(name, {t}, true, now, now)];
      }
    }

    /** The `getOrPut` half of Register for a new player: a fresh session
        holding `t`, counted in. */
    method CreateSession(id: Uuid, name: string, t: ModType, now: int) returns (s: BridgeSession)
      requires Valid() && id !in sessions
      modifies this`sessions, metrics`activeSessions
      ensures Valid()
      ensures fresh(s) && sessions == old(sessions)[id := s]
      ensures View() == old(View())[id := SessionState(name, {t}, true, now, now)]
      ensures metrics.activeSessions == old(metrics.activeSessions) + 1
      ensures old(InSync()) ==> InSync()
    {
      ghost var spec := old(View())[id := SessionState(name, {t}, true, now, now)];
      metrics.IncrementActiveSessions();
      s := new BridgeSession(id, name, t, now);
      SizeAfterInsert(sessions, id, s);
      sessions := sessions[id := s];
      forall u | u in sessions
        ensures sessions[u].State() == spec[u]
        ensures sessions[u].playerUuid == u && sessions[u].modTypes != {} && sessions[u].active
      {
        if u != id {
          assert sessions[u] == old(sessions[u]);
        }
      }
      ViewMatches(spec);
    }

    /** The `addModType` half of Register: the stored session gains `t`. */
    method AddMembership(id: Uuid, t: ModType)
      requires Valid() && id in sessions
      modifies SessionObjects(id)`modTypes
      ensures Valid()
      ensures View() == old(View())[id := old(View())[id].(modTypes := old(View())[id].modTypes + {t})]
    {
      ghost var spec := old(View())[id := old(View())[id].(modTypes := old(View())[id].modTypes + {t})];
      var s := sessions[id];
      var _ := s.AddModType(t);
      forall u | u in sessions
        ensures sessions[u].State() == spec[u]
        ensures sessions[u].playerUuid == u && sessions[u].modTypes != {} && sessions[u].active
      {
        if u != id {
          assert sessions[u] != s;
        }
      }
      ViewMatches(spec);
    }

    /** Removes the whole session and returns it, marked inactive. */
    method Unregister(id: Uuid) returns (s: BridgeSession?)
      requires Valid()
      modifies this, metrics`activeSessions, SessionObjects(id)`active
      ensures Valid()
      ensures View() == UnregisterAll(old(View()), id)
      ensures sessions == old(sessions) - {id}
      ensures s == (if id in old(sessions) then old(sessions[id]) else null)
      ensures s != null ==> s.State() == old(s.State()).(active := false)
      ensures metrics.activeSessions ==
                old(metrics.activeSessions) - (if id in old(sessions) then 1 else 0)
      ensures old(InSync()) ==> InSync()
    {
      if id in sessions {
        s := sessions[id];
        CountOut(id);
        s.active := false;
      } else {
        s := null;
      }
      ghost var spec := UnregisterAll(old(View()), id);
      forall u | u in sessions
        ensures sessions[u].State() == spec[u]
      {
        assert sessions[u] != s;
        assert sessions[u].State() == old(sessions[u].State());
      }
      ViewMatches(spec);
    }

    /** Removes one membership. When it was the last, the session is marked
        inactive, deleted and counted out, and the result is null; otherwise
        the result is the session that remains. */
    method UnregisterType(id: Uuid, t: ModType) returns (s: BridgeSession?)
      requires Valid()
      modifies this, metrics`activeSessions, SessionObjects(id)
      ensures Valid()
      ensures View() == SessionSpec.UnregisterType(old(View()), id, t)
      ensures s == (if id in sessions then sessions[id] else null)
      ensures id in sessions ==> id in old(sessions) && sessions == old(sessions)
      ensures id in old(sessions) && id !in sessions ==>
                sessions == old(sessions) - {id}
                && !old(sessions)[id].active && old(sessions)[id].modTypes == {}
      ensures metrics.activeSessions == old(metrics.activeSessions)
                - (if id in old(sessions) && id !in sessions then 1 else 0)
      ensures old(InSync()) ==> InSync()
    {
      if id !in sessions {
        s := null;
        return;
      }
      var session := sessions[id];
      if session.modTypes - {t} == {} {
        DeleteEmptied(id, t);
        s := null;
      } else {
        RemoveMembership(id, t);
        s := session;
      }
    }

    /** UnregisterType when `t` was the last membership: the emptied session
        is marked inactive, counted out and deleted. */
    method DeleteEmptied(id: Uuid, t: ModType)
      requires Valid() && id in sessions && sessions[id].modTypes <= {t}
      modifies this`sessions, metrics`activeSessions, SessionObjects(id)`modTypes, SessionObjects(id)`active
      ensures Valid()
      ensures sessions == old(sessions) - {id}
      ensures View() == old(View()) - {id}
      ensures old(sessions)[id].modTypes == {} && !old(sessions)[id].active
      ensures metrics.activeSessions == old(metrics.activeSessions) - 1
      ensures old(InSync()) ==> InSync()
    {
      ghost var spec := View() - {id};
      var session := sessions[id];
      session.RemoveModType(t);
      session.active := false;
      CountOut(id);
      forall u | u in sessions
        ensures sessions[u].State() == spec[u]
      {
        assert sessions[u] != session;
        assert sessions[u].State() == old(sessions[u].State());
      }
      ViewMatches(spec);
    }

    /** UnregisterType when another membership remains: the stored session
        loses `t` and nothing else changes. */
    method RemoveMembership(id: Uuid, t: ModType)
      requires Valid() && id in sessions && sessions[id].modTypes - {t} != {}
      modifies SessionObjects(id)`modTypes
      ensures Valid()
      ensures View() == old(View())[id := old(View())[id].(modTypes := old(View())[id].modTypes - {t})]
    {
      ghost var spec := old(View())[id := old(View())[id].(modTypes := old(View())[id].modTypes - {t})];
      var session := sessions[id];
      session.RemoveModType(t);
      forall u | u in sessions
        ensures sessions[u].State() == spec[u]
        ensures sessions[u].playerUuid == u && sessions[u].modTypes != {} && sessions[u].active
      {
        if u != id {
          assert sessions[u] != session;
        }
      }
      ViewMatches(spec);
    }

    /** Deletes the player's entry and decrements the counter with it. */
    method CountOut(id: Uuid)
      requires id in sessions
      modifies this`sessions, metrics`activeSessions
      ensures sessions == old(sessions) - {id}
      ensures metrics.activeSessions == old(metrics.activeSessions) - 1
      ensures old(InSync()) ==> InSync()
    {
      metrics.DecrementActiveSessions();
      SizeAfterRemove(sessions, id);
      sessions := sessions - {id};
    }

    /** `getSession(id)?.touch()`: stamps the player's session, if any. */
    method TouchSession(id: Uuid, now: int)
      requires Valid()
      modifies SessionObjects(id)`lastActivityAt
      ensures Valid()
      ensures View() == SessionSpec.Touch(old(View()), id, now)
    {
      var s := GetSession(id);
      if s != null {
        s.Touch(now);
        ghost var spec := SessionSpec.Touch(old(View()), id, now);
        forall u | u in sessions
          ensures sessions[u].State() == spec[u]
        {
          if u != id {
            assert sessions[u] != s;
            assert sessions[u].State() == old(sessions[u].State());
          }
        }
        ViewMatches(spec);
      }
    }

    function GetSession(id: Uuid): (s: BridgeSession?)
      reads this
      ensures s != null <==> id in sessions
      ensures s != null ==> s == sessions[id]
    {
      if id in sessions then sessions[id] else null
    }

    /** Some membership of the player's session, or none without a session. */
    function GetModType(id: Uuid): (t: Option<ModType>)
      reads this, sessions.Values
      requires Valid()
      ensures t.Some? <==> id in View()
      ensures t.Some? ==> t.value in View()[id].modTypes
      ensures forall m :: id in View() && View()[id].modTypes == {m} ==> t == Some(m)
    {
      if id in sessions then Some(sessions[id].PrimaryModType(hashFirst)) else None
    }

    function IsDualMod(id: Uuid): (dual: bool)
      reads this, sessions.Values
      ensures dual <==> SessionSpec.IsDualMod(View(), id)
    {
      id in sessions && sessions[id].IsDualMod()
    }

    function IsRegistered(id: Uuid): (present: bool)
      reads this
      ensures present <==> id in View()
    {
      id in sessions
    }

    function GetAllSessions(): (all: set<BridgeSession>)
      reads this, sessions.Values
      ensures forall u :: u in sessions ==> sessions[u] in all
      ensures Valid() ==> forall x :: x in all ==> x.playerUuid in sessions && sessions[x.playerUuid] == x
    {
      sessions.Values
    }

    /** The stored sessions that are active and hold membership `t`. */
    function GetSessionsByMod(t: ModType): (r: set<BridgeSession>)
      reads this, sessions.Values
      ensures r <= sessions.Values
      ensures forall u :: u in sessions ==> (sessions[u] in r <==> u in SessionsByMod(View(), t))
    {
      set s | s in sessions.Values && s.HasModType(t) && s.active
    }

    method Clear()
      modifies this, metrics`activeSessions
      ensures Valid() && InSync()
      ensures sessions == map[] && View() == map[] && metrics.activeSessions == 0
    {
      sessions := map[];
      metrics.SetActiveSessions(0);
    }

    /** The players whose session is inactive and untouched for longer than
        the stale timeout. */
    function StaleIds(now: int): (ks: set<Uuid>)
      reads this, sessions.Values
      ensures ks == StaleKeys(View(), now)
    {
      var threshold := now - StaleTimeoutMs;
      var ks := set u | u in sessions && sessions[u].lastActivityAt < threshold && !sessions[u].active;
      assert ks == StaleKeys(View(), now) by {
        forall u ensures u in ks <==> u in StaleKeys(View(), now) {
          if u in sessions {
            assert View()[u] == sessions[u].State();
          }
        }
      }
      ks
    }

    /** Removes each of `ks` from the map, decrementing the counter once per
        removal (the `forEach` over the stale entries). */
    method RemoveEach(ks: set<Uuid>)
      requires ks <= sessions.Keys
      modifies this`sessions, metrics`activeSessions
      ensures sessions.Keys == old(sessions).Keys - ks
      ensures forall u :: u in sessions ==> sessions[u] == old(sessions)[u]
      ensures metrics.activeSessions == old(metrics.activeSessions) - |ks|
    {
      var rest := ks;
      while rest != {}
        invariant rest <= ks && rest <= sessions.Keys
        invariant sessions.Keys == old(sessions).Keys - (ks - rest)
        invariant forall u :: u in sessions ==> sessions[u] == old(sessions)[u]
        invariant metrics.activeSessions == old(metrics.activeSessions) - (|ks| - |rest|)
        decreases rest
      {
        var u :| u in rest;
        sessions := sessions - {u};
        metrics.DecrementActiveSessions();
        rest := rest - {u};
      }
    }

    /** The stale-session sweep at time `now`: removes every session that is
        inactive and was last active strictly before `now - StaleTimeoutMs`,
        counting each one out. */
    method Cleanup(now: int)
      modifies this, metrics`activeSessions
      ensures View() == SessionSpec.Cleanup(old(View()), now)
      ensures sessions.Keys == old(sessions).Keys - StaleKeys(old(View()), now)
      ensures forall u :: u in sessions ==> sessions[u] == old(sessions)[u]
      ensures metrics.activeSessions ==
                old(metrics.activeSessions) - |StaleKeys(old(View()), now)|
      ensures old(Valid()) ==> Valid()
      ensures old(InSync()) ==> InSync()
    {
      ghost var before := View();
      var stale := StaleIds(now);
      RemoveEach(stale);
      forall u | u in sessions
        ensures u in before && View()[u] == before[u]
        ensures old(Valid()) ==>
          sessions[u].playerUuid == u && sessions[u].modTypes != {} && sessions[u].active
      {
        assert sessions[u] == old(sessions)[u];
      }
      SweepIsCleanup(before, View(), now);
      CleanupSize(before, now);
    }
  }

  /** A registry that keeps exactly the non-stale entries, unchanged, is the
      result of the sweep. */
  lemma SweepIsCleanup(before: Registry, after: Registry, now: int)
    requires after.Keys == before.Keys - StaleKeys(before, now)
    requires forall u :: u in after ==> after[u] == before[u]
    ensures after == SessionSpec.Cleanup(before, now)
  {
    RegistryExt(after, SessionSpec.Cleanup(before, now));
  }

  lemma SizeAfterInsert<V>(m: map<Uuid, V>, k: Uuid, v: V)
    requires k !in m
    ensures |m[k := v]| == |m| + 1
  {
    assert m[k := v].Keys == m.Keys + {k};
  }

  lemma SizeAfterRemove<V>(m: map<Uuid, V>, k: Uuid)
    requires k in m
    ensures |m - {k}| == |m| - 1
  {
    assert (m - {k}).Keys + {k} == m.Keys;
  }

  lemma RegistryExt(a: Registry, b: Registry)
    requires a.Keys == b.Keys
    requires forall u :: u in a ==> a[u] == b[u]
    ensures a == b
  {
  }

  /** With the invariant in force, the sweep finds nothing to remove. */
  lemma CleanupFindsNothing(sm: SessionManager, now: int)
    requires sm.Valid()
    ensures StaleKeys(sm.View(), now) == {}
    ensures SessionSpec.Cleanup(sm.View(), now) == sm.View()
  {
    CleanupOfWellFormedIsNoOp(sm.View(), now);
  }
}
