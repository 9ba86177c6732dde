/**
 * The player's time display (`formatTime`): a millisecond count rendered as
 * minutes, a colon and the seconds padded to two digits. JavaScript's `%`
 * keeps the sign of the dividend and `Math.floor` rounds down, so negative
 * inputs are rendered as the UI would render them.
 */
module PlayerControls {
  import opened Text

  /** JavaScript's `a % b` for a positive divisor: the remainder takes the sign of `a`. */
  function JsRemainder(a: int, b: int): (r: int)
    requires b > 0
    ensures a >= 0 ==> 0 <= r < b
    ensures a < 0 ==> -b < r <= 0
    ensures (if a >= 0 then r else -r) == (if a >= 0 then a else -a) % b
  {
    if a >= 0 then a % b else -((-a) % b)
  }

  /** `Math.floor(ms / 60000)`. */
  function Minutes(ms: int): (m: int)
    ensures m * 60000 <= ms < m * 60000 + 60000
  {
    ms / 60000
  }

  /** `Math.floor((ms % 60000) / 1000)`. */
  function Seconds(ms: int): (s: int)
    ensures -60 <= s <= 59
    ensures ms >= 0 ==> 0 <= s <= 59
  {
    JsRemainder(ms, 60000) / 1000
  }

  /** `formatTime`: minutes, ':' and the seconds left-padded with '0' to two characters. */
  function FormatTime(ms: int): string {
    IntToString(Minutes(ms)) + ":" + PadTwo(IntToString(Seconds(ms)))
  }

  /** For a non-negative count, the displayed minutes and seconds bracket it to within a second. */
  lemma DisplayBracketsTime(ms: int)
    requires ms >= 0
    ensures Minutes(ms) * 60000 + Seconds(ms) * 1000 <= ms < Minutes(ms) * 60000 + Seconds(ms) * 1000 + 1000
  {
  }

  /** A leading zero does not change the value of a numeral. */
  lemma {:induction false} ParseNatLeadingZero(s: string)
    requires IsDigits(s)
    ensures IsDigits("0" + s) && ParseNat("0" + s) == ParseNat(s)
    decreases |s|
  {
    var z := "0" + s;
    if s != [] {
      ParseNatLeadingZero(s[..|s| - 1]);
      assert z[..|z| - 1] == "0" + s[..|s| - 1];
    }
  }

  /** The seconds field of a non-negative count is exactly two digits that read back as the seconds. */
  lemma SecondsField(s: nat)
    requires s <= 59
    ensures var p := PadTwo(NatToString(s));
            |p| == 2 && IsDigits(p) && ParseNat(p) == s
  {
    var st := NatToString(s);
    ParseNatToString(s);
    if s >= 10 {
      assert s / 10 < 10;
      assert |NatToString(s / 10)| == 1;
      assert |st| == 2;
    } else {
      assert |st| == 1;
      assert seq(1, _ => '0') == "0";
      assert PadTwo(st) == "0" + st;
      ParseNatLeadingZero(st);
    }
  }

  /** A numeral, a colon and a digit field split back apart at the first colon. */
  lemma SplitAtColon(m: string, p: string)
    requires |m| >= 1 && IsDigits(m) && IsDigits(p)
    ensures var r := m + ":" + p;
            IndexOf(r, ':') == |m| && r[..|m|] == m && r[|m| + 1..] == p
  {
    var r := m + ":" + p;
    assert r[|m|] == ':';
    assert r[..|m|] == m;
    assert ':' !in m;
  }

  /**
   * For a non-negative count, the text splits at its only colon into a
   * numeral for the minutes and exactly two digits for the seconds, and
   * reading them back gives `Minutes(ms)` and `Seconds(ms)`.
   */
  lemma FormatTimeReadsBack(ms: int)
    requires ms >= 0
    ensures var r := FormatTime(ms);
            var k := IndexOf(r, ':');
            && 0 < k && |r| == k + 3
            && IsDigits(r[..k]) && IsDigits(r[k + 1..])
            && ParseNat(r[..k]) == Minutes(ms)
            && ParseNat(r[k + 1..]) == Seconds(ms)
  {
    var m, s := Minutes(ms), Seconds(ms);
    var mt := NatToString(m);
    var padded := PadTwo(NatToString(s));
    ParseNatToString(m);
    SecondsField(s);
    assert FormatTime(ms) == mt + ":" + padded;
    SplitAtColon(mt, padded);
  }
}
