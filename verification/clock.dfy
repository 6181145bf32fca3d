/** The `minutes:ss` clock text both audio players show, and a reader for it
    that states what the text means. */
module Clock {
  import opened Js
  import opened Text

  /** `${minutes}:${seconds < 10 ? "0" : ""}${seconds}` */
  function Render(minutes: int, seconds: int): string {
    IntToString(minutes) + ":" + (if seconds < 10 then "0" else "") + IntToString(seconds)
  }

  /** Reads `digits:digits` back into its two numbers; anything else is `None`. */
  function Parse(s: string): Option<(nat, nat)> {
    var k := IndexOf(s, ':');
    if k == 0 || k >= |s| - 1 then None
    else if !AllDigits(s[..k]) || !AllDigits(s[k + 1..]) then None
    else Some((DigitsValue(s[..k]), DigitsValue(s[k + 1..])))
  }

  /** The seconds field of a rendered clock, for 0 <= seconds < 60: always two digits. */
  lemma TwoDigitSeconds(seconds: nat)
    requires seconds < 60
    ensures var f := (if seconds < 10 then "0" else "") + NatToString(seconds);
            |f| == 2 && AllDigits(f) && DigitsValue(f) == seconds
  {
    DigitsRoundTrip(seconds);
    if seconds < 10 {
      LeadingZero(NatToString(seconds));
    } else {
      assert NatToString(seconds) == NatToString(seconds / 10) + [DigitChar(seconds % 10)];
    }
  }

  /** For a non-negative minute count and 0 <= seconds < 60, the clock text
      reads back as the same two numbers, and its seconds field is exactly the
      last two characters. */
  lemma RenderParse(minutes: nat, seconds: nat)
    requires seconds < 60
    ensures Parse(Render(minutes, seconds)) == Some((minutes, seconds))
    ensures var s := Render(minutes, seconds); |s| >= 4 && s[|s| - 3] == ':'
  {
    var a := NatToString(minutes);
    var f := (if seconds < 10 then "0" else "") + NatToString(seconds);
    TwoDigitSeconds(seconds);
    DigitsRoundTrip(minutes);
    var s := Render(minutes, seconds);
    assert s == a + ":" + f;
    assert s[|a|] == ':';
    var k := IndexOf(s, ':');
    assert k == |a|;
    assert s[..k] == a;
    assert s[k + 1..] == f;
  }
}
