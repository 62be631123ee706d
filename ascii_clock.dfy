/** The large clock (AsciiClock.tsx): the local time "HH:MM:SS" drawn with
    3x5 block glyphs, one glyph plus a space per character, in five text
    rows; the colons blank out on odd seconds. */
module AsciiClock {
  import opened JsText
  import opened Calendar
  import TimeMath

  /** The DIGITS table: five rows of three cells for each digit, the colon
      and the blank used for blinking; any other character has no glyph. */
  function Glyph(c: char): (g: Option<seq<string>>)
    ensures g.Some? <==> IsDigit(c) || c == ':' || c == ' '
    ensures g.Some? ==> |g.value| == 5 && forall i :: 0 <= i < 5 ==> |g.value[i]| == 3
  {
    match c
    case '0' => Some(["███", "█ █", "█ █", "█ █", "███"])
    case '1' => Some([" █ ", "██ ", " █ ", " █ ", "███"])
    case '2' => Some(["███", "  █", "███", "█  ", "███"])
    case '3' => Some(["███", "  █", " ██", "  █", "███"])
    case '4' => Some(["█ █", "█ █", "███", "  █", "  █"])
    case '5' => Some(["███", "█  ", "███", "  █", "███"])
    case '6' => Some(["███", "█  ", "███", "█ █", "███"])
    case '7' => Some(["███", "  █", "  █", "  █", "  █"])
    case '8' => Some(["███", "█ █", "███", "█ █", "███"])
    case '9' => Some(["███", "█ █", "███", "  █", "███"])
    case ':' => Some(["   ", " █ ", "   ", " █ ", "   "])
    case ' ' => Some(["   ", "   ", "   ", "   ", "   "])
    case _ => None
  }

  /** `now.toTimeString().slice(0, 8)`: the local time as "HH:MM:SS". */
  function TimeText(now: Instant): string {
    TimeMath.Pad(now.hours, 2) + ":" + TimeMath.Pad(now.minutes, 2) + ":" + TimeMath.Pad(now.seconds, 2)
  }

  /** The glyph drawn for one character: a colon on an odd second is drawn
      as the blank glyph. */
  function GlyphAt(c: char, seconds: int): Option<seq<string>> {
    if c == ':' && seconds % 2 != 0 then Glyph(' ') else Glyph(c)
  }

  /** Row i of the picture of `text`: each character with a glyph adds row i
      of that glyph and a space; characters without one add nothing. */
  function ClockRow(text: string, seconds: int, i: int): string
    requires 0 <= i < 5
    decreases |text|
  {
    if text == [] then ""
    else
      var g := GlyphAt(text[|text| - 1], seconds);
      ClockRow(text[..|text| - 1], seconds, i) + (if g.Some? then g.value[i] + " " else "")
  }

  /** `getAsciiClockStringArray`: the rows of the picture of the time text. */
  method GetAsciiClockStringArray(now: Instant) returns (output: seq<string>)
    ensures |output| == 5
    ensures forall i :: 0 <= i < 5 ==> output[i] == ClockRow(TimeText(now), now.seconds, i)
  {
    output := DrawText(TimeText(now), now.seconds);
  }

  /** The loop of `getAsciiClockStringArray`: five rows filled character by
      character. */
  method DrawText(timeStr: string, seconds: int) returns (output: seq<string>)
    ensures |output| == 5
    ensures forall i :: 0 <= i < 5 ==> output[i] == ClockRow(timeStr, seconds, i)
  {
    var rows := new string[5](_ => "");
    var j := 0;
    while j < |timeStr|
      invariant 0 <= j <= |timeStr|
      invariant forall i :: 0 <= i < 5 ==> rows[i] == ClockRow(timeStr[..j], seconds, i)
    {
      var c := timeStr[j];
      assert timeStr[..j + 1][..j] == timeStr[..j];
      var digit;
      if c == ':' && seconds % 2 != 0 {
        digit := Glyph(' ');
      } else {
        digit := Glyph(c);
      }
      assert digit == GlyphAt(timeStr[..j + 1][j], seconds);
      if digit.Some? {
        var i := 0;
        while i < 5
          invariant 0 <= i <= 5
          invariant forall r :: 0 <= r < i ==> rows[r] == ClockRow(timeStr[..j + 1], seconds, r)
          invariant forall r :: i <= r < 5 ==> rows[r] == ClockRow(timeStr[..j], seconds, r)
        {
          rows[i] := rows[i] + digit.value[i] + " ";
          i := i + 1;
        }
      }
      j := j + 1;
    }
    assert timeStr[..j] == timeStr;
    output := rows[..];
  }

  /** Every character of `text` has a glyph. */
  predicate Drawable(text: string, seconds: int) {
    forall j :: 0 <= j < |text| ==> GlyphAt(text[j], seconds).Some?
  }

  /** In a row of drawable text, the j-th character's glyph row occupies
      columns 4j..4j+2 and column 4j+3 is the separating space. */
  lemma {:induction false} GlyphColumns(text: string, seconds: int, i: int)
    requires 0 <= i < 5
    requires Drawable(text, seconds)
    ensures |ClockRow(text, seconds, i)| == 4 * |text|
    ensures forall j :: 0 <= j < |text| ==>
      ClockRow(text, seconds, i)[4 * j .. 4 * j + 3] == GlyphAt(text[j], seconds).value[i]
      && ClockRow(text, seconds, i)[4 * j + 3] == ' '
    decreases |text|
  {
    if text != [] {
      var init := text[..|text| - 1];
      assert Drawable(init, seconds) by {
        forall j | 0 <= j < |init| ensures GlyphAt(init[j], seconds).Some? {
          assert init[j] == text[j];
        }
      }
      GlyphColumns(init, seconds, i);
      var prev := ClockRow(init, seconds, i);
      var g := GlyphAt(text[|text| - 1], seconds).value[i];
      var r := ClockRow(text, seconds, i);
      assert r == prev + (g + " ");
      forall j | 0 <= j < |text|
        ensures r[4 * j .. 4 * j + 3] == GlyphAt(text[j], seconds).value[i] && r[4 * j + 3] == ' '
      {
        if j < |init| {
          assert text[j] == init[j];
          PrefixSlice(prev, g + " ", 4 * j, 4 * j + 3);
        } else {
          assert r[4 * j .. 4 * j + 3] == g;
        }
      }
    }
  }

  lemma PrefixSlice(a: string, b: string, lo: int, hi: int)
    requires 0 <= lo <= hi <= |a|
    ensures (a + b)[lo .. hi] == a[lo .. hi]
  {
  }

  /** The time text of a valid instant is eight characters: two digits
      reading as the hour, a colon, two for the minute, a colon and two for
      the second. */
  lemma TimeTextShape(now: Instant)
    requires ValidInstant(now)
    ensures var t := TimeText(now);
      && |t| == 8 && t[2] == ':' && t[5] == ':'
      && ReadsAs(t[0..2], now.hours) && ReadsAs(t[3..5], now.minutes) && ReadsAs(t[6..8], now.seconds)
  {
    assert Pow10(2) == 100;
    ZeroPadField(now.hours, 2);
    ZeroPadField(now.minutes, 2);
    ZeroPadField(now.seconds, 2);
    TimeLayout(TimeMath.Pad(now.hours, 2), TimeMath.Pad(now.minutes, 2), TimeMath.Pad(now.seconds, 2));
  }

  /** Positions of the three fields in "HH:MM:SS". */
  lemma TimeLayout(ph: string, pm: string, ps: string)
    requires |ph| == 2 && |pm| == 2 && |ps| == 2
    ensures var t := ph + ":" + pm + ":" + ps;
      && |t| == 8 && t[2] == ':' && t[5] == ':'
      && t[0..2] == ph && t[3..5] == pm && t[6..8] == ps
  {
    var a := ph + ":";
    var b := a + pm + ":";
    var t := b + ps;
    assert t[6..8] == ps && t[..6] == b;
    assert b[3..5] == pm && b[..3] == a;
  }

  /** For a valid instant each of the five rows is 32 characters, and the
      colon glyphs (characters 2 and 5) show on even seconds and are blank
      on odd ones. */
  lemma ClockRowsShape(now: Instant, i: int)
    requires ValidInstant(now) && 0 <= i < 5
    ensures var r := ClockRow(TimeText(now), now.seconds, i);
      && |r| == 32
      && r[8..11] == r[20..23]
      && (now.seconds % 2 == 0 ==> r[8..11] == Glyph(':').value[i])
      && (now.seconds % 2 != 0 ==> r[8..11] == "   ")
  {
    TimeTextShape(now);
    ClockPicture(TimeText(now), now.seconds, i, now.hours, now.minutes);
  }

  /** The picture of any "DD:DD:DD" text. */
  lemma ClockPicture(t: string, seconds: int, i: int, h: int, m: int)
    requires 0 <= i < 5
    requires |t| == 8 && t[2] == ':' && t[5] == ':'
    requires ReadsAs(t[0..2], h) && ReadsAs(t[3..5], m) && ReadsAs(t[6..8], seconds)
    ensures var r := ClockRow(t, seconds, i);
      && |r| == 32
      && r[8..11] == r[20..23]
      && (seconds % 2 == 0 ==> r[8..11] == Glyph(':').value[i])
      && (seconds % 2 != 0 ==> r[8..11] == "   ")
  {
    forall j | 0 <= j < 8 ensures GlyphAt(t[j], seconds).Some? {
      if j < 2 { assert t[j] == t[0..2][j]; }
      else if 2 < j < 5 { assert t[j] == t[3..5][j - 3]; }
      else if 5 < j { assert t[j] == t[6..8][j - 6]; }
    }
    GlyphColumns(t, seconds, i);
    assert 4 * 2 == 8 && 4 * 5 == 20;
  }

  /** Different characters have different glyphs, so the picture determines
      the text it shows. */
  lemma GlyphsDistinct(c: char, d: char)
    requires Glyph(c).Some? && Glyph(c) == Glyph(d)
    ensures c == d
  {
  }
}
