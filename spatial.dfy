/** Distance conversion between the two mods: Simple Voice Chat speaks in
    fractional blocks, Plasmo Voice in a signed 16-bit block count. The
    mapper reads only its configuration. Floating-point values are reals
    here; the conversion to an integer truncates toward zero, as the JVM's
    `Double.toInt` does. */
module Spatial {
  import opened Common
  import opened Config

  function Min(a: real, b: real): real {
    if a <= b then a else b
  }

  /** Truncation toward zero (the JVM's `Double.toInt`, without its
      saturation at the 32-bit bounds, which the later clamp makes
      irrelevant). */
  function Trunc(x: real): (n: int)
    ensures n as real <= x < n as real + 1.0 || n as real - 1.0 < x <= n as real
    ensures 0.0 <= x ==> 0 <= n && n as real <= x
    ensures x <= 0.0 ==> n <= 0 && x <= n as real
  {
    if x >= 0.0 then x.Floor else -((-x).Floor)
  }

  function Clamp(n: int, lo: int, hi: int): (r: int)
    requires lo <= hi
    ensures lo <= r <= hi
    ensures lo <= n <= hi ==> r == n
  {
    if n < lo then lo else if n > hi then hi else n
  }

  datatype SpatialMapper = SpatialMapper(config: BridgeConfig) {

    /** The fallback distance: the world's override when a world is given
        and has one, the configured default otherwise. */
    function DefaultFor(world: Option<string>): (d: real)
      ensures world.Some? && world.value in config.worldOverrides ==> d == config.worldOverrides[world.value]
      ensures (world.None? || world.value !in config.worldOverrides) ==> d == config.defaultDistance
      ensures d == config.defaultDistance || d in config.worldOverrides.Values
      ensures OverridesPositive(config) && config.defaultDistance > 0.0 ==> d > 0.0
    {
      if world.Some? && world.value in config.worldOverrides
      then config.worldOverrides[world.value]
      else config.defaultDistance
    }

    /** A positive incoming distance is kept, capped at the maximum; any
        other value is replaced by the (capped) fallback. */
    function EffectiveDistance(distance: real, world: Option<string>): (r: real)
      ensures r <= config.maxDistance
      ensures 0.0 < distance <= config.maxDistance ==> r == distance
      ensures 0.0 < distance && config.maxDistance < distance ==> r == config.maxDistance
      ensures distance <= 0.0 ==> r == Min(DefaultFor(world), config.maxDistance)
    {
      if distance > 0.0 then Min(distance, config.maxDistance)
      else Min(DefaultFor(world), config.maxDistance)
    }

    /** SVC distance to PV distance: effective distance, truncated toward
        zero, clamped into [1, 32767]. */
    function SvcToPvDistance(svcDistance: real, world: Option<string>): (p: Short)
      ensures 1 <= p as int <= ShortMax
      ensures 1 <= Trunc(EffectiveDistance(svcDistance, world)) <= ShortMax ==>
                p as int == Trunc(EffectiveDistance(svcDistance, world))
    {
      Clamp(Trunc(EffectiveDistance(svcDistance, world)), 1, ShortMax) as Short
    }

    /** PV distance to SVC distance: the effective distance with no lower
        bound and no rounding. */
    function PvToSvcDistance(pvDistance: Short, world: Option<string>): (d: real)
      ensures d <= config.maxDistance
    {
      EffectiveDistance(pvDistance as real, world)
    }

    function WhisperDistance(normalDistance: real): (w: real)
      ensures 0.0 < normalDistance && 0.0 < config.whisperMultiplier <= 1.0 ==> 0.0 < w <= normalDistance
      ensures normalDistance <= 0.0 && 0.0 <= config.whisperMultiplier ==> w <= 0.0
    {
      ScaleBounds(normalDistance, config.whisperMultiplier);
      normalDistance * config.whisperMultiplier
    }
  }

  /** The distance the relay hands to PV for a frame from SVC: whisper is
      applied first, then the conversion for the sender's world. */
  function RelayedPvDistance(m: SpatialMapper, distance: real, whispering: bool, world: string): (p: Short)
    ensures 1 <= p as int <= ShortMax
  {
    m.SvcToPvDistance(if whispering then m.WhisperDistance(distance) else distance, Some(world))
  }

  /** The distance the relay hands to SVC for a frame from PV: no whisper. */
  function RelayedSvcDistance(m: SpatialMapper, distance: Short, world: string): (d: real)
    ensures d <= m.config.maxDistance
  {
    m.PvToSvcDistance(distance, Some(world))
  }

  /* ---- Properties ---- */

  /** With the loader's guarantee (positive overrides) and a positive
      default and maximum, every effective distance is positive. */
  lemma EffectiveDistancePositive(m: SpatialMapper, d: real, world: Option<string>)
    requires OverridesPositive(m.config) && m.config.defaultDistance > 0.0 && m.config.maxDistance > 0.0
    ensures m.EffectiveDistance(d, world) > 0.0
  {
  }

  /** Applying the effective-distance rule twice changes nothing once the
      first result is a usable (positive) distance. */
  lemma EffectiveDistanceIdempotent(m: SpatialMapper, d: real, world: Option<string>)
    requires m.EffectiveDistance(d, world) > 0.0
    ensures m.EffectiveDistance(m.EffectiveDistance(d, world), world) == m.EffectiveDistance(d, world)
  {
  }

  /** Which overrides exist for other worlds, or with no world given, makes
      no difference. */
  lemma OverridesOfOtherWorldsIrrelevant(m: SpatialMapper, d: real, world: Option<string>, other: string, v: real)
    requires world != Some(other)
    ensures
      var m' := SpatialMapper(m.config.(worldOverrides := m.config.worldOverrides[other := v]));
      m'.EffectiveDistance(d, world) == m.EffectiveDistance(d, world)
  {
  }

  /** A positive incoming distance never consults the default or the
      overrides. */
  lemma PositiveDistanceIgnoresDefault(m: SpatialMapper, d: real, w1: Option<string>, w2: Option<string>)
    requires d > 0.0
    ensures m.EffectiveDistance(d, w1) == m.EffectiveDistance(d, w2)
  {
  }

  /** Within [1, max] and the 16-bit range, SVC to PV is plain truncation. */
  lemma SvcToPvTruncates(m: SpatialMapper, d: real, world: Option<string>)
    requires 1.0 <= d <= m.config.maxDistance && d < 32768.0
    ensures m.SvcToPvDistance(d, world) as int == Trunc(d)
  {
  }

  /** PV to SVC keeps any distance in (0, max]. */
  lemma PvToSvcKeeps(m: SpatialMapper, p: Short, world: Option<string>)
    requires 0 < p as int && p as real <= m.config.maxDistance
    ensures m.PvToSvcDistance(p, world) == p as real
  {
  }

  /** A PV distance in [1, max] survives the trip to SVC and back. */
  lemma PvRoundTrip(m: SpatialMapper, p: Short, world: Option<string>)
    requires 1 <= p as int && p as real <= m.config.maxDistance
    ensures m.SvcToPvDistance(m.PvToSvcDistance(p, world), world) == p
  {
    PvToSvcKeeps(m, p, world);
    assert Trunc(p as real) == p as int;
  }

  /** An SVC distance in [1, max] comes back from PV truncated. */
  lemma SvcRoundTrip(m: SpatialMapper, d: real, world: Option<string>)
    requires 1.0 <= d <= m.config.maxDistance && d < 32768.0
    ensures m.PvToSvcDistance(m.SvcToPvDistance(d, world), world) == Trunc(d) as real
  {
    SvcToPvTruncates(m, d, world);
    PvToSvcKeeps(m, m.SvcToPvDistance(d, world), world);
  }

  /** Unlike the other direction, PV to SVC has no lower bound: a
      non-positive default passes through. */
  lemma PvToSvcHasNoLowerClamp()
    ensures
      var m := SpatialMapper(Default.(defaultDistance := 0.0));
      m.PvToSvcDistance(0, None) == 0.0
  {
  }

  /** With the shipped defaults, a whispered 48-block frame reaches PV at 15
      blocks (48 x 0.33 = 15.84, truncated); an unwhispered one at 48. */
  lemma DefaultWhisperScenario(world: string)
    requires world !in Default.worldOverrides
    ensures RelayedPvDistance(SpatialMapper(Default), 48.0, true, world) == 15
    ensures RelayedPvDistance(SpatialMapper(Default), 48.0, false, world) == 48
    ensures RelayedPvDistance(SpatialMapper(Default), 0.0, true, world) == 48
    ensures RelayedPvDistance(SpatialMapper(Default), 500.0, false, world) == 128
  {
    var m := SpatialMapper(Default);
    assert m.WhisperDistance(48.0) == 15.84;
    assert Trunc(15.84) == 15;
    assert Trunc(48.0) == 48;
    assert Trunc(128.0) == 128;
  }

  /** Scaling by a factor in (0, 1] keeps a positive value positive and no
      larger; a non-negative factor keeps a non-positive value non-positive. */
  lemma ScaleBounds(d: real, k: real)
    ensures d > 0.0 && 0.0 < k <= 1.0 ==> 0.0 < d * k <= d
    ensures d <= 0.0 && 0.0 <= k ==> d * k <= 0.0
  {
    if d > 0.0 && 0.0 < k <= 1.0 {
      ScaleDown(d, k);
    } else if d <= 0.0 && 0.0 <= k {
      assert -(d * k) == (-d) * k;
    }
  }

  lemma ScaleDown(d: real, k: real)
    requires d > 0.0 && 0.0 < k <= 1.0
    ensures 0.0 < d * k <= d
  {
    assert d - d * k == d * (1.0 - k);
    assert d * (1.0 - k) >= 0.0;
  }

  lemma TruncMonotone(a: real, b: real)
    requires a <= b
    ensures Trunc(a) <= Trunc(b)
  {
  }

  /** For every incoming distance, whispering never makes a frame carry
      farther, provided the multiplier is in (0, 1]. (A multiplier of 0 turns
      every whisper into the fallback distance.) */
  lemma WhisperNeverCarriesFarther(m: SpatialMapper, d: real, world: string)
    requires 0.0 < m.config.whisperMultiplier <= 1.0
    ensures RelayedPvDistance(m, d, true, world) <= RelayedPvDistance(m, d, false, world)
  {
    var w := m.WhisperDistance(d);
    if d > 0.0 {
      ScaleDown(d, m.config.whisperMultiplier);
      TruncMonotone(m.EffectiveDistance(w, Some(world)), m.EffectiveDistance(d, Some(world)));
    } else {
      assert w <= 0.0 by {
        assert -w == (-d) * m.config.whisperMultiplier;
      }
    }
  }

  /** The zero-multiplier case: a whisper is heard at the fallback distance,
      farther than a short normal frame. */
  lemma ZeroMultiplierWhisperUsesFallback(world: string)
    requires world !in Default.worldOverrides
    ensures
      var m := SpatialMapper(Default.(whisperMultiplier := 0.0));
      RelayedPvDistance(m, 10.0, true, world) == 48 && RelayedPvDistance(m, 10.0, false, world) == 10
  {
    assert Trunc(10.0) == 10;
    assert Trunc(48.0) == 48;
  }
}
