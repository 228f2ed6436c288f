/** The heads-up display (src/components/game/HUD.tsx): it prints the speed, lap and
    position of the game state as they are, and the elapsed time as minutes, a colon and
    two-digit seconds. */
module Hud {
  import opened Game

  function DigitChar(d: int): char
    requires 0 <= d < 10
  {
    ('0' as int + d) as char
  }

  function DigitValue(c: char): int {
    c as int - '0' as int
  }

  /** Number.prototype.toString for a non-negative whole number: its decimal digits, most
      significant first, with no leading zero. */
  function Decimal(n: nat): (s: string)
    ensures 1 <= |s|
    ensures n < 10 <==> |s| == 1
    ensures forall i :: 0 <= i < |s| ==> '0' <= s[i] <= '9'
    ensures n > 0 ==> s[0] != '0'
    ensures |s| > 1 ==> s[0] != '0'
  {
    if n < 10 then [DigitChar(n)] else Decimal(n / 10) + [DigitChar(n % 10)]
  }

  /** toString for any whole number: a minus sign before the digits of a negative one. */
  function ToString(i: int): (s: string)
    ensures 1 <= |s|
    ensures s[0] == '-' <==> i < 0
  {
    if i < 0 then "-" + Decimal(-i) else Decimal(i)
  }

  /** Reads decimal digits back, most significant first. */
  function ParseDecimal(s: string): int {
    if s == [] then 0 else ParseDecimal(s[..|s| - 1]) * 10 + DigitValue(s[|s| - 1])
  }

  function ParseInt(s: string): int {
    if |s| > 0 && s[0] == '-' then -ParseDecimal(s[1..]) else ParseDecimal(s)
  }

  lemma {:induction false} DecimalRoundTrip(n: nat)
    ensures ParseDecimal(Decimal(n)) == n
  {
    if n >= 10 {
      DecimalRoundTrip(n / 10);
      var s := Decimal(n);
      assert s[..|s| - 1] == Decimal(n / 10);
    }
  }

  /** The printed number reads back as the number: toString loses nothing. */
  lemma ToStringRoundTrip(i: int)
    ensures ParseInt(ToString(i)) == i
  {
    if i < 0 {
      DecimalRoundTrip(-i);
      assert ToString(i)[1..] == Decimal(-i);
    } else {
      DecimalRoundTrip(i);
    }
  }

  /** String.prototype.padStart with a one-character filler: the filler repeated in front
      until the string is `width` long; a string already that long is left alone. */
  function PadStart(s: string, width: nat, fill: char): (r: string)
    ensures |r| == if |s| >= width then |s| else width
    ensures r[|r| - |s|..] == s
    ensures forall i :: 0 <= i < |r| - |s| ==> r[i] == fill
  {
    if |s| >= width then s else seq(width - |s|, _ => fill) + s
  }

  /** JavaScript's % on whole numbers: the remainder keeps the dividend's sign, so the
      quotient it pairs with is truncated toward zero. */
  function JsRem(a: int, b: int): (r: int)
    requires b > 0
    ensures -b < r < b
    ensures a >= 0 ==> r >= 0
    ensures a <= 0 ==> r <= 0
    ensures a == (if a >= 0 then a / b else -((-a) / b)) * b + r
  {
    if a >= 0 then a % b else -((-a) % b)
  }

  /** Math.floor(time / 60). */
  function Minutes(time: int): (m: int)
    ensures m * 60 <= time < m * 60 + 60
  {
    time / 60
  }

  /** The time field of the HUD. */
  function Clock(time: int): (c: string)
    ensures var m := ToString(Minutes(time));
      && |c| >= |m| + 3 && c[..|m|] == m && c[|m|] == ':'
  {
    ToString(Minutes(time)) + ":" + PadStart(ToString(JsRem(time, 60)), 2, '0')
  }

  /** For a non-negative time: minutes times 60 plus seconds is the time, the seconds lie in
      [0, 59], and the clock is the minutes in decimal, a colon and exactly two digits of
      seconds, zero-padded. */
  lemma ClockFields(time: int)
    requires time >= 0
    ensures var m, s := Minutes(time), JsRem(time, 60);
      && m * 60 + s == time && 0 <= s <= 59 && m >= 0
      && Clock(time) == Decimal(m) + ":" + [DigitChar(s / 10), DigitChar(s % 10)]
  {
    var s := JsRem(time, 60);
    assert s == time % 60;
    PaddedSeconds(s);
  }

  /** Seconds below 60 print as exactly two digits once padded. */
  lemma PaddedSeconds(s: int)
    requires 0 <= s < 60
    ensures PadStart(ToString(s), 2, '0') == [DigitChar(s / 10), DigitChar(s % 10)]
  {
    if s < 10 {
      assert ToString(s) == [DigitChar(s)];
    } else {
      assert ToString(s) == Decimal(s / 10) + [DigitChar(s % 10)];
      assert Decimal(s / 10) == [DigitChar(s / 10)];
    }
  }

  /** Reads a clock string back: the digits before the last three characters are the
      minutes, the last two the seconds. */
  function ParseClock(c: string): int
    requires |c| >= 3
  {
    ParseDecimal(c[..|c| - 3]) * 60 + ParseDecimal(c[|c| - 2..])
  }

  /** A non-negative time can be read back from its clock. */
  lemma ClockRoundTrip(time: int)
    requires time >= 0
    ensures |Clock(time)| >= 4
    ensures ParseClock(Clock(time)) == time
  {
    ClockFields(time);
    var m, s := Minutes(time), JsRem(time, 60);
    var secs := [DigitChar(s / 10), DigitChar(s % 10)];
    ParseClockParts(Decimal(m), secs);
    DecimalRoundTrip(m);
    TwoDigits(s);
  }

  /** A clock string splits back into its minutes and its two seconds digits. */
  lemma ParseClockParts(digits: string, secs: string)
    requires |digits| >= 1 && |secs| == 2
    ensures |digits + ":" + secs| >= 4
    ensures ParseClock(digits + ":" + secs) == ParseDecimal(digits) * 60 + ParseDecimal(secs)
  {
    var c := digits + ":" + secs;
    assert c[..|c| - 3] == digits;
    assert c[|c| - 2..] == secs;
  }

  lemma TwoDigits(s: int)
    requires 0 <= s < 100
    ensures ParseDecimal([DigitChar(s / 10), DigitChar(s % 10)]) == s
  {
    var hi, lo := DigitChar(s / 10), DigitChar(s % 10);
    var secs := [hi, lo];
    assert secs[..1] == [hi];
    assert [hi][..0] == [];
    assert ParseDecimal([hi]) == DigitValue(hi) == s / 10;
    assert DigitValue(lo) == s % 10;
    assert ParseDecimal(secs) == ParseDecimal([hi]) * 10 + DigitValue(lo);
  }

  /** The texts the HUD shows. */
  datatype HudText = HudText(speed: string, lap: string, clock: string, position: string)

  function Render(g: GameState): (h: HudText)
    ensures |h.lap| > 4 && h.lap[..4] == "LAP "
    ensures |h.position| > 9 && h.position[..9] == "POSITION "
    ensures h.speed == ToString(g.speed) && h.clock == Clock(g.time)
  {
    HudText(ToString(g.speed), "LAP " + ToString(g.lap), Clock(g.time), "POSITION " + ToString(g.position))
  }

  /** Speed, lap and position are shown verbatim: each one reads back from its text after
      the fixed label, so the HUD never shows a value other than the state's. */
  lemma RenderShowsState(g: GameState)
    ensures Render(g).lap[..4] == "LAP " && ParseInt(Render(g).lap[4..]) == g.lap
    ensures Render(g).position[..9] == "POSITION " && ParseInt(Render(g).position[9..]) == g.position
    ensures ParseInt(Render(g).speed) == g.speed
    ensures g.time >= 0 ==> ParseClock(Render(g).clock) == g.time
  {
    var h := Render(g);
    ToStringRoundTrip(g.speed);
    ToStringRoundTrip(g.lap);
    ToStringRoundTrip(g.position);
    assert h.lap[4..] == ToString(g.lap);
    assert h.position[9..] == ToString(g.position);
    if g.time >= 0 {
      ClockRoundTrip(g.time);
    }
  }
}
