/** Types shared by every component of the bridge: optional values, player
    identifiers (with their canonical text form), 16-bit distances, opaque
    payloads and the host server's player entity. */
module Common {

  datatype Option<+T> = None | Some(value: T) {
    /** The wrapped value, or `default` when there is none (Kotlin's `?:`). */
    function GetOr(default: T): T {
      match this
      case Some(v) => v
      case None => default
    }
  }

  /** A signed 16-bit integer, the distance type of Plasmo Voice packets. */
  newtype Short = x: int | -0x8000 <= x < 0x8000

  const ShortMax: int := 0x7FFF

  /** Opaque audio payloads (Opus frames, encrypted or not). */
  type Bytes = seq<bv8>

  /** A 128-bit player identifier, as its two unsigned 64-bit halves. */
  newtype u64 = x: int | 0 <= x < 0x1_0000_0000_0000_0000

  datatype Uuid = Uuid(mostSigBits: u64, leastSigBits: u64)

  /** The host server's player entity, reduced to what the bridge reads of it. */
  datatype Player = Player(uuid: Uuid, name: string, world: string)

  predicate IsLowerHex(c: char) {
    '0' <= c <= '9' || 'a' <= c <= 'f'
  }

  /** The value of one lower-case hexadecimal digit. */
  function DigitValue(c: char): (d: nat)
    requires IsLowerHex(c)
    ensures d < 16
  {
    if '0' <= c <= '9' then c as int - '0' as int else c as int - 'a' as int + 10
  }

  function HexChar(d: nat): (c: char)
    requires d < 16
    ensures IsLowerHex(c)
    ensures DigitValue(c) == d
  {
    if d < 10 then '0' + d as char else 'a' + (d - 10) as char
  }

  /** The low `n` hexadecimal digits of `x`, most significant first, zero-padded. */
  function HexDigits(x: nat, n: nat): (s: string)
    ensures |s| == n
    ensures forall i :: 0 <= i < |s| ==> IsLowerHex(s[i])
  {
    if n == 0 then "" else HexDigits(x / 16, n - 1) + [HexChar(x % 16)]
  }

  /** The canonical 8-4-4-4-12 text form of a UUID, lower-case hexadecimal
      (java.util.UUID.toString). */
  function UuidString(u: Uuid): (s: string)
    ensures |s| == 36
    ensures s[8] == '-' && s[13] == '-' && s[18] == '-' && s[23] == '-'
    ensures forall i :: 0 <= i < 36 && i != 8 && i != 13 && i != 18 && i != 23 ==> IsLowerHex(s[i])
  {
    var hi := u.mostSigBits as int;
    var lo := u.leastSigBits as int;
    HexDigits(hi / 0x1_0000_0000, 8) + "-" + HexDigits(hi / 0x1_0000, 4) + "-" + HexDigits(hi, 4) + "-"
      + HexDigits(lo / 0x1_0000_0000_0000, 4) + "-" + HexDigits(lo, 12)
  }

  function Pow16(n: nat): (p: nat)
    ensures p > 0
  {
    if n == 0 then 1 else 16 * Pow16(n - 1)
  }

  /** The number a string of hexadecimal digits denotes, most significant
      digit first. */
  function HexValue(s: string): nat
    requires forall i :: 0 <= i < |s| ==> IsLowerHex(s[i])
  {
    if s == [] then 0 else HexValue(s[..|s| - 1]) * 16 + DigitValue(s[|s| - 1])
  }

  /* ---- Decoding the text form ---- */

  /** The zero-padded digits of `x` denote `x` modulo 16^n: reading them
      back loses exactly the digits above the n-th. */
  lemma {:induction false} HexDigitsRoundTrip(x: nat, n: nat)
    ensures HexValue(HexDigits(x, n)) == x % Pow16(n)
  {
    if n > 0 {
      var s := HexDigits(x, n);
      assert s[..|s| - 1] == HexDigits(x / 16, n - 1);
      HexDigitsRoundTrip(x / 16, n - 1);
      ModSplit(x, 16, Pow16(n - 1));
    }
  }

  /** Both 64-bit halves can be read back from the text form: the first
      three groups spell the most significant half, the last two the least
      significant one. */
  lemma UuidStringDecodes(u: Uuid)
    ensures var s := UuidString(u);
      u.mostSigBits as int ==
        HexValue(s[0..8]) * 0x1_0000_0000 + HexValue(s[9..13]) * 0x1_0000 + HexValue(s[14..18])
      && u.leastSigBits as int == HexValue(s[19..23]) * 0x1_0000_0000_0000 + HexValue(s[24..36])
  {
    var hi := u.mostSigBits as int;
    var lo := u.leastSigBits as int;
    var a, b, c := HexDigits(hi / 0x1_0000_0000, 8), HexDigits(hi / 0x1_0000, 4), HexDigits(hi, 4);
    var d, e := HexDigits(lo / 0x1_0000_0000_0000, 4), HexDigits(lo, 12);
    GroupsOf(a, b, c, d, e);
    HighHalfDecodes(hi);
    LowHalfDecodes(lo);
  }

  /** Where the five groups sit in the dashed text. */
  lemma GroupsOf(a: string, b: string, c: string, d: string, e: string)
    requires |a| == 8 && |b| == 4 && |c| == 4 && |d| == 4 && |e| == 12
    ensures var s := a + "-" + b + "-" + c + "-" + d + "-" + e;
      s[0..8] == a && s[9..13] == b && s[14..18] == c && s[19..23] == d && s[24..36] == e
  {
  }

  /** The 8-4-4 groups of a 64-bit value spell it. */
  lemma HighHalfDecodes(hi: nat)
    requires hi < 0x1_0000_0000_0000_0000
    ensures hi == HexValue(HexDigits(hi / 0x1_0000_0000, 8)) * 0x1_0000_0000
                  + HexValue(HexDigits(hi / 0x1_0000, 4)) * 0x1_0000 + HexValue(HexDigits(hi, 4))
  {
    assert Pow16(4) == 0x1_0000 && Pow16(8) == 0x1_0000_0000;
    HexDigitsRoundTrip(hi / 0x1_0000_0000, 8);
    HexDigitsRoundTrip(hi / 0x1_0000, 4);
    HexDigitsRoundTrip(hi, 4);
    DivBound(hi, 0x1_0000_0000, 0x1_0000_0000);
    ModOfSum(hi / 0x1_0000_0000, 0x1_0000_0000, 0, hi / 0x1_0000_0000);
    ModSplit(hi, 0x1_0000, 0x1_0000);
  }

  /** The 4-12 groups of a 64-bit value spell it. */
  lemma LowHalfDecodes(lo: nat)
    requires lo < 0x1_0000_0000_0000_0000
    ensures lo == HexValue(HexDigits(lo / 0x1_0000_0000_0000, 4)) * 0x1_0000_0000_0000
                  + HexValue(HexDigits(lo, 12))
  {
    assert Pow16(4) == 0x1_0000 && Pow16(12) == 0x1_0000_0000_0000;
    HexDigitsRoundTrip(lo / 0x1_0000_0000_0000, 4);
    HexDigitsRoundTrip(lo, 12);
    DivBound(lo, 0x1_0000_0000_0000, 0x1_0000);
    ModOfSum(lo / 0x1_0000_0000_0000, 0x1_0000, 0, lo / 0x1_0000_0000_0000);
  }

  /** Distinct players have distinct text forms. */
  lemma UuidStringInjective(u: Uuid, v: Uuid)
    ensures UuidString(u) == UuidString(v) ==> u == v
  {
    UuidStringDecodes(u);
    UuidStringDecodes(v);
  }

  /* ---- Division facts ---- */

  /** Euclidean division is unique. */
  lemma ModOfSum(x: int, m: int, k: int, r: int)
    requires m > 0 && 0 <= r < m && x == k * m + r
    ensures x % m == r && x / m == k
  {
    var q := x / m;
    assert (q - k) * m == r - x % m;
    assert (k - q) * m == x % m - r;
    MulLtCancel(q - k, 1, m);
    MulLtCancel(k - q, 1, m);
  }

  lemma MulLtCancel(a: int, b: int, m: int)
    requires m > 0 && a * m < b * m
    ensures a < b
  {
  }

  /** Splitting a modulus into two factors. */
  lemma ModSplit(x: nat, p: nat, q: nat)
    requires p > 0 && q > 0
    ensures x % (p * q) == (x / p % q) * p + x % p
  {
    var a, b := x / p, x % p;
    var c, d := a / q, a % q;
    SplitSum(a, b, c, d, p, q);
    MulLe(d, q - 1, p);
    Distrib(q, p);
    ModOfSum(x, p * q, c, d * p + b);
  }

  lemma SplitSum(a: int, b: int, c: int, d: int, p: int, q: int)
    requires a == c * q + d
    ensures a * p + b == c * (p * q) + (d * p + b)
  {
    assert a * p == c * q * p + d * p;
  }

  lemma MulLe(a: int, b: int, m: int)
    requires a <= b && m >= 0
    ensures a * m <= b * m
  {
  }

  lemma Distrib(q: int, p: int)
    ensures (q - 1) * p == p * q - p
  {
  }

  lemma DivBound(x: nat, m: nat, k: nat)
    requires m > 0 && x < k * m
    ensures x / m < k
  {
    MulLtCancel(x / m, k, m);
  }
}
