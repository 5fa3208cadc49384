/**
 * The turn timer badge: milliseconds shown as `m:ss`, partial seconds rounded up.
 * `ms` is the hook's remaining time, which is never negative.
 */
module TimerBadge {
  import opened Text

  /** `Math.ceil(ms / 1000)`: the least whole number of seconds covering `ms`. */
  function Seconds(ms: nat): (s: nat)
    ensures ms <= s * 1000 < ms + 1000
  {
    (ms + 999) / 1000
  }

  /** `Math.floor(seconds / 60)`. */
  function Minutes(ms: nat): nat {
    Seconds(ms) / 60
  }

  /** `seconds % 60`. */
  function RemainingSeconds(ms: nat): nat {
    Seconds(ms) % 60
  }

  /** The two fields split the rounded-up seconds: a seconds field below 60 and the rest in minutes. */
  lemma FieldsSplitSeconds(ms: nat)
    ensures 0 <= RemainingSeconds(ms) <= 59
    ensures Minutes(ms) * 60 + RemainingSeconds(ms) == Seconds(ms)
  {
  }

  /** A longer time never shows fewer seconds. */
  lemma SecondsMonotone(a: nat, b: nat)
    requires a <= b
    ensures Seconds(a) <= Seconds(b)
  {
  }

  /** The text of the badge: minutes, a colon, the seconds left-padded with '0' to two digits. */
  function Display(ms: nat): string {
    NatToString(Minutes(ms)) + ":" + PadStart(NatToString(RemainingSeconds(ms)), 2, '0')
  }

  /** A seconds field below 60, padded, is exactly two digits and reads back as itself. */
  lemma {:induction false} PaddedSecondsReadBack(r: nat)
    requires r < 60
    ensures var ss := PadStart(NatToString(r), 2, '0');
      |ss| == 2 && AllDigits(ss) && ParseDecimal(ss) == r
  {
    ParseNatToString(r);
    if r < 10 {
      assert PadStart(NatToString(r), 2, '0') == "0" + NatToString(r);
      ParseLeadingZero(NatToString(r));
    } else {
      var s := NatToString(r);
      assert s[..|s| - 1] == NatToString(r / 10);
      assert |s| == 2;
    }
  }

  /** Digit strings joined by a colon split back into the two numbers they spell. */
  lemma SplitAtColon(mm: string, ss: string, m: nat, r: nat)
    requires AllDigits(mm) && ParseDecimal(mm) == m
    requires |ss| == 2 && AllDigits(ss) && ParseDecimal(ss) == r
    ensures var d := mm + ":" + ss;
      && |d| == |mm| + 3 && d[|d| - 3] == ':'
      && AllDigits(d[..|d| - 3]) && ParseDecimal(d[..|d| - 3]) == m
      && AllDigits(d[|d| - 2..]) && ParseDecimal(d[|d| - 2..]) == r
  {
    var d := mm + ":" + ss;
    assert d[..|d| - 3] == mm;
    assert d[|d| - 2..] == ss;
  }

  /**
   * Reading the badge back: the text ends in a colon and two digits, the two digits are the
   * seconds field and what precedes the colon is the minutes field.
   */
  lemma DisplayReadsBack(ms: nat)
    ensures var d := Display(ms);
      && |d| >= 4 && d[|d| - 3] == ':'
      && AllDigits(d[..|d| - 3]) && ParseDecimal(d[..|d| - 3]) == Minutes(ms)
      && AllDigits(d[|d| - 2..]) && ParseDecimal(d[|d| - 2..]) == RemainingSeconds(ms)
  {
    var m, r := Minutes(ms), RemainingSeconds(ms);
    var mm, ss := NatToString(m), PadStart(NatToString(r), 2, '0');
    PaddedSecondsReadBack(r);
    ParseNatToString(m);
    SplitAtColon(mm, ss, m, r);
    assert Display(ms) == mm + ":" + ss;
  }

  /** 1 ms shows as 0:01, 0 ms as 0:00 and a minute as 1:00. */
  lemma DisplayExamples()
    ensures Display(1) == "0:01"
    ensures Display(0) == "0:00"
    ensures Display(60000) == "1:00"
    ensures Display(61001) == "1:02"
  {
    assert Seconds(1) == 1 && Seconds(0) == 0 && Seconds(60000) == 60 && Seconds(61001) == 62;
    assert NatToString(0) == "0" && NatToString(1) == "1" && NatToString(2) == "2";
  }
}
