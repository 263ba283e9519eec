/**
 * GameUtils: the pure helpers of the game — clamping, colour conversion
 * between `#rrggbb` strings and RGB triples, the legacy damage formula with the
 * critical roll supplied by the caller, time formatting, and the fill fraction
 * of a progress bar.
 */
module GameUtils {
  import opened Common

  // ---------------------------------------------------------------------------
  // Math
  // ---------------------------------------------------------------------------

  /** `Math.min(Math.max(value, min), max)` */
  function Clamp(v: real, lo: real, hi: real): (r: real)
    ensures r <= hi
    ensures lo <= hi ==> lo <= r
    ensures lo <= v <= hi ==> r == v
    ensures v < lo && lo <= hi ==> r == lo
    ensures hi < v ==> r == hi
  {
    Min(Max(v, lo), hi)
  }

  // ---------------------------------------------------------------------------
  // Decimal rendering of integers (template-literal interpolation)
  // ---------------------------------------------------------------------------

  const Digits: string := "0123456789"

  function NatToString(n: nat): (s: string)
    ensures |s| >= 1
    ensures forall i :: 0 <= i < |s| ==> s[i] in Digits
    decreases n
  {
    if n < 10 then [Digits[n]] else NatToString(n / 10) + [Digits[n % 10]]
  }

  function IntToString(i: int): string
  {
    if i < 0 then "-" + NatToString(-i) else NatToString(i)
  }

  // ---------------------------------------------------------------------------
  // Colour
  // ---------------------------------------------------------------------------

  datatype Rgb = Rgb(r: nat, g: nat, b: nat)

  const HexDigits: string := "0123456789abcdef"

  /** The value of one hexadecimal digit in either case, as `[a-f\d]` with the `i` flag accepts. */
  function HexValue(c: char): Option<nat>
  {
    if '0' <= c <= '9' then Some(c as nat - '0' as nat)
    else if 'a' <= c <= 'f' then Some(c as nat - 'a' as nat + 10)
    else if 'A' <= c <= 'F' then Some(c as nat - 'A' as nat + 10)
    else None
  }

  /** `parseInt(pair, 16)` for a pair of hexadecimal digits. */
  function PairValue(hi: char, lo: char): nat
    requires HexValue(hi).Some? && HexValue(lo).Some?
  {
    HexValue(hi).value * 16 + HexValue(lo).value
  }

  predicate IsHexString(t: string)
  {
    forall i :: 0 <= i < |t| ==> HexValue(t[i]).Some?
  }

  /**
   * `/^#?([a-f\d]{2})([a-f\d]{2})([a-f\d]{2})$/i`: an optional '#', then exactly
   * six hexadecimal digits and nothing else; anything else gives black.
   */
  function HexToRgb(s: string): (c: Rgb)
    ensures c.r < 256 && c.g < 256 && c.b < 256
  {
    var t := if |s| > 0 && s[0] == '#' then s[1..] else s;
    if |t| == 6 && IsHexString(t) then
      Rgb(PairValue(t[0], t[1]), PairValue(t[2], t[3]), PairValue(t[4], t[5]))
    else
      Rgb(0, 0, 0)
  }

  /** `x.toString(16)` for a non-negative integer: lower-case digits, no padding. */
  function ToHex(x: nat): (s: string)
    ensures |s| >= 1
    decreases x
  {
    if x < 16 then [HexDigits[x]] else ToHex(x / 16) + [HexDigits[x % 16]]
  }

  /** One channel, left-padded with '0' when `toString(16)` gave a single digit. */
  function ChannelHex(x: nat): string
  {
    var h := ToHex(x);
    if |h| == 1 then "0" + h else h
  }

  function RgbToHex(r: nat, g: nat, b: nat): string
  {
    "#" + ChannelHex(r) + ChannelHex(g) + ChannelHex(b)
  }

  /** A channel below 256 renders as exactly two lower-case digits, high nibble first. */
  lemma {:induction false} ChannelHexDigits(x: nat)
    requires x < 256
    ensures ChannelHex(x) == [HexDigits[x / 16], HexDigits[x % 16]]
  {
    if x < 16 {
      assert ToHex(x) == [HexDigits[x]];
    } else {
      assert ToHex(x / 16) == [HexDigits[x / 16]];
    }
  }

  /** Reading back a lower-case digit gives its position in the digit string. */
  lemma HexDigitValue(i: nat)
    requires i < 16
    ensures HexValue(HexDigits[i]) == Some(i)
  {
  }

  /** `rgbToHex` yields '#' followed by exactly six lower-case hexadecimal digits. */
  lemma RgbToHexShape(r: nat, g: nat, b: nat)
    requires r < 256 && g < 256 && b < 256
    ensures var s := RgbToHex(r, g, b);
      |s| == 7 && s[0] == '#' && forall i :: 1 <= i < 7 ==> s[i] in HexDigits
  {
    ChannelHexDigits(r);
    ChannelHexDigits(g);
    ChannelHexDigits(b);
  }

  /** The colour round trip: a triple of bytes survives `rgbToHex` then `hexToRgb`. */
  lemma HexRoundTrip(r: nat, g: nat, b: nat)
    requires r < 256 && g < 256 && b < 256
    ensures HexToRgb(RgbToHex(r, g, b)) == Rgb(r, g, b)
  {
    ChannelHexDigits(r);
    ChannelHexDigits(g);
    ChannelHexDigits(b);
    var s := RgbToHex(r, g, b);
    var t := s[1..];
    assert t == [HexDigits[r / 16], HexDigits[r % 16], HexDigits[g / 16], HexDigits[g % 16],
                 HexDigits[b / 16], HexDigits[b % 16]];
    HexDigitValue(r / 16); HexDigitValue(r % 16);
    HexDigitValue(g / 16); HexDigitValue(g % 16);
    HexDigitValue(b / 16); HexDigitValue(b % 16);
    assert IsHexString(t);
  }

  /** Anything but an optional '#' followed by six hexadecimal digits reads as black. */
  lemma MalformedIsBlack(s: string)
    requires var t := if |s| > 0 && s[0] == '#' then s[1..] else s;
      |t| != 6 || exists i :: 0 <= i < |t| && HexValue(t[i]).None?
    ensures HexToRgb(s) == Rgb(0, 0, 0)
  {
  }

  /** The leading '#' is optional: a six-digit string reads the same with or without it. */
  lemma HashOptional(t: string)
    requires |t| == 6
    ensures HexToRgb("#" + t) == HexToRgb(t)
  {
    assert ("#" + t)[1..] == t;
    if |t| > 0 && t[0] == '#' {
      assert !IsHexString(t) by { assert HexValue(t[0]).None?; }
    }
  }

  function LowerChar(c: char): char
  {
    if 'A' <= c <= 'Z' then (c as int + 32) as char else c
  }

  /**
   * `toLowerCase` on ASCII: every upper-case letter becomes a lower-case one,
   * every other character is kept, and each character reads as the same hex
   * digit (or as none) before and after.
   */
  function Lower(s: string): (r: string)
    ensures |r| == |s|
    ensures forall i :: 0 <= i < |s| && 'A' <= s[i] <= 'Z' ==> 'a' <= r[i] <= 'z'
    ensures forall i :: 0 <= i < |s| && !('A' <= s[i] <= 'Z') ==> r[i] == s[i]
    ensures forall i :: 0 <= i < |s| ==> HexValue(r[i]) == HexValue(s[i])
  {
    seq(|s|, i requires 0 <= i < |s| => LowerChar(s[i]))
  }

  /** Case does not matter (the `i` flag): upper- and lower-case spellings give the same colour. */
  lemma HexToRgbIgnoresCase(s: string)
    ensures HexToRgb(Lower(s)) == HexToRgb(s)
  {
    var l := Lower(s);
    var t := if |s| > 0 && s[0] == '#' then s[1..] else s;
    var u := if |l| > 0 && l[0] == '#' then l[1..] else l;
    assert |s| > 0 ==> (s[0] == '#' <==> l[0] == '#');
    assert |u| == |t|;
    assert forall i :: 0 <= i < |t| ==> HexValue(u[i]) == HexValue(t[i]);
  }

  // ---------------------------------------------------------------------------
  // Legacy damage formula
  // ---------------------------------------------------------------------------

  /** `combat.ko.critMultiplier` of the game configuration. */
  const CritMultiplier: real := 2.0

  datatype DamageRoll = DamageRoll(damage: real, isCritical: bool)

  /** `skill?.power || 1`: a missing skill, a missing power and a power of 0 all give 1. */
  function PowerOrOne(power: Option<real>): real
  {
    if power.Some? && power.value != 0.0 then power.value else 1.0
  }

  /** The damage before the critical roll: `max(1, str * (power || 1) - 0.5 * vit)`. */
  function PreCritDamage(attacker: Stats, target: Stats, power: Option<real>): (d: real)
    ensures d >= 1.0
    ensures d >= attacker.str * PowerOrOne(power) - 0.5 * target.vit
  {
    Max(1.0, attacker.str * PowerOrOne(power) - target.vit * 0.5)
  }

  /**
   * `GameUtils.calculateDamage` with `Math.random()` passed in as `roll`
   * (0 <= roll < 1): a critical hit when `roll < dex * 0.01`, which multiplies
   * the damage by the configured critical multiplier.
   */
  function LegacyDamage(attacker: Stats, target: Stats, power: Option<real>, roll: real): (r: DamageRoll)
    ensures r.isCritical <==> roll < attacker.dex * 0.01
    ensures r.damage >= 1.0
    ensures r.damage == (if r.isCritical then CritMultiplier else 1.0) * PreCritDamage(attacker, target, power)
  {
    var damage := PreCritDamage(attacker, target, power);
    if roll < attacker.dex * 0.01 then DamageRoll(damage * CritMultiplier, true)
    else DamageRoll(damage, false)
  }

  /** With no dexterity a hit is never critical; at 100 dexterity or more it always is. */
  lemma LegacyCritBounds(attacker: Stats, target: Stats, power: Option<real>, roll: real)
    requires 0.0 <= roll < 1.0
    ensures attacker.dex <= 0.0 ==> !LegacyDamage(attacker, target, power, roll).isCritical
    ensures attacker.dex >= 100.0 ==> LegacyDamage(attacker, target, power, roll).isCritical
  {
  }

  // ---------------------------------------------------------------------------
  // Time formatting
  // ---------------------------------------------------------------------------

  /** Truncation toward zero, the integer part JavaScript's `%` uses. */
  function Trunc(x: real): int
  {
    if x >= 0.0 then x.Floor else -((-x).Floor)
  }

  /** JavaScript's `x % y` on numbers: the remainder takes the sign of `x`. */
  function JsRem(x: real, y: real): real
    requires y != 0.0
  {
    x - y * (Trunc(x / y) as real)
  }

  function Minutes(seconds: real): int { (seconds / 60.0).Floor }
  function Secs(seconds: real): int { JsRem(seconds, 60.0).Floor }

  /** `${mins}:${secs < 10 ? '0' : ''}${secs}` */
  function FormatTime(seconds: real): string
  {
    var mins := Minutes(seconds);
    var secs := Secs(seconds);
    IntToString(mins) + ":" + (if secs < 10 then "0" else "") + IntToString(secs)
  }

  /**
   * For a non-negative time the minutes and seconds split the whole seconds
   * exactly, the seconds lie in 0..59, and the text is the minutes, a colon and
   * exactly two digits of seconds.
   */
  lemma FormatTimeShape(seconds: real)
    requires seconds >= 0.0
    ensures var m := Minutes(seconds); var s := Secs(seconds);
      && m >= 0 && 0 <= s < 60
      && 60 * m + s == seconds.Floor
      && FormatTime(seconds) == NatToString(m) + ":" + [Digits[s / 10], Digits[s % 10]]
  {
    var m := Minutes(seconds);
    var q := seconds / 60.0;
    assert Trunc(q) == m;
    var f := seconds - 60.0 * (m as real);
    assert JsRem(seconds, 60.0) == f;
    assert m as real <= q < m as real + 1.0;
    assert 0.0 <= f < 60.0 by {
      assert seconds == 60.0 * q;
    }
    var s := f.Floor;
    assert 60 * m + s == seconds.Floor by {
      var w := 60 * m + s;
      assert w as real == 60.0 * (m as real) + s as real;
      assert w as real <= seconds < w as real + 1.0;
    }
    if s < 10 {
      assert NatToString(s) == [Digits[s]];
    } else {
      assert NatToString(s / 10) == [Digits[s / 10]];
    }
  }

  // ---------------------------------------------------------------------------
  // Progress bar
  // ---------------------------------------------------------------------------

  /** The fill fraction of `createProgressBar`: `clamp(current / max, 0, 1)`. */
  function ProgressPercent(current: real, max: real): (p: real)
    requires max != 0.0
    ensures 0.0 <= p <= 1.0
    ensures 0.0 <= current / max <= 1.0 ==> p == current / max
  {
    Clamp(current / max, 0.0, 1.0)
  }
}
