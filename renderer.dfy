/** The dashboard (renderer.ts, `render`): a 27-row, 89-column text grid.
    A box frame is laid down first; the header, the date line and the big
    clock, the six progress bars and the footer are then stamped into it
    with `writeToBuffer`, and an optional overlay panel is composited on top
    after its shadow. */
module Renderer {
  import opened JsText
  import opened Calendar
  import opened LifeMonitor
  import opened TimeTicker
  import TimeMath
  import AsciiClock
  import ProgressBar
  import Overlay

  const Width := 89
  const Height := 27
  const BarWidth := 60

  /** Row 1 of the header text and row 25 of the footer start here. */
  const TextX := 2
  const FooterY := 25

  /** `line.substring(0, x) + content + line.substring(x + content.length)`. */
  function Splice(line: string, x: int, content: string): string {
    Substring(line, 0, x) + content + SubstringFrom(line, x + |content|)
  }

  /** `writeToBuffer` on the rows as a value: row y is spliced when it
      exists, and no other row changes. */
  function Write(buffer: seq<string>, y: int, x: int, content: string): (r: seq<string>)
    ensures |r| == |buffer|
    ensures forall k :: 0 <= k < |buffer| && k != y ==> r[k] == buffer[k]
    ensures !(0 <= y < |buffer|) ==> r == buffer
    ensures 0 <= y < |buffer| ==> r[y] == Splice(buffer[y], x, content)
  {
    if 0 <= y < |buffer| then buffer[y := Splice(buffer[y], x, content)] else buffer
  }

  /** `writeToBuffer`, which replaces one row of the buffer in place. */
  method WriteToBuffer(buffer: array<string>, y: int, x: int, content: string)
    modifies buffer
    ensures buffer[..] == Write(old(buffer[..]), y, x, content)
  {
    if 0 <= y < buffer.Length {
      var line := buffer[y];
      buffer[y] := Substring(line, 0, x) + content + SubstringFrom(line, x + |content|);
    }
  }

  /** A write that fits its row keeps the row's length, puts the content at
      columns x .. x+|content|-1 and leaves every other column alone. */
  lemma SpliceInBounds(line: string, x: int, content: string)
    requires 0 <= x && x + |content| <= |line|
    ensures var r := Splice(line, x, content);
      && |r| == |line|
      && r[..x] == line[..x]
      && r[x .. x + |content|] == content
      && r[x + |content|..] == line[x + |content|..]
  {
    var r := Splice(line, x, content);
    assert r == line[..x] + content + line[x + |content|..];
    assert (line[..x] + content)[x..] == content;
  }

  /** A write that runs past the end of its row is not clipped: the row
      grows to hold the whole content. */
  lemma SpliceOverrun(line: string, x: int, content: string)
    requires 0 <= x <= |line| < x + |content|
    ensures Splice(line, x, content) == line[..x] + content
    ensures |Splice(line, x, content)| == x + |content| > |line|
  {
  }

  /** The rows of `lines` written one after another at rows y0, y0+1, ...,
      all starting at column x (a `forEach` of `writeToBuffer`). */
  function WriteLines(buffer: seq<string>, y0: int, x: int, lines: seq<string>): (r: seq<string>)
    ensures |r| == |buffer|
    decreases |lines|
  {
    if lines == [] then buffer
    else Write(WriteLines(buffer, y0, x, lines[..|lines| - 1]), y0 + |lines| - 1, x, lines[|lines| - 1])
  }

  /** Writing several lines leaves the rows outside their band alone. */
  lemma {:induction false} WriteLinesOtherRows(buffer: seq<string>, y0: int, x: int, lines: seq<string>, k: int)
    requires 0 <= k < |buffer| && !(y0 <= k < y0 + |lines|)
    ensures WriteLines(buffer, y0, x, lines)[k] == buffer[k]
    decreases |lines|
  {
    if lines != [] {
      WriteLinesOtherRows(buffer, y0, x, lines[..|lines| - 1], k);
    }
  }

  /** Each line of the band lands in its own row, spliced into that row as
      it was before the band was written. */
  lemma {:induction false} WriteLinesRow(buffer: seq<string>, y0: int, x: int, lines: seq<string>, i: int)
    requires 0 <= i < |lines| && 0 <= y0 + i < |buffer|
    ensures WriteLines(buffer, y0, x, lines)[y0 + i] == Splice(buffer[y0 + i], x, lines[i])
    decreases |lines|
  {
    var init := lines[..|lines| - 1];
    if i < |lines| - 1 {
      WriteLinesRow(buffer, y0, x, init, i);
      assert init[i] == lines[i];
    } else {
      WriteLinesOtherRows(buffer, y0, x, init, y0 + i);
    }
  }

  /** `forEach((line, i) => writeToBuffer(buffer, y0 + i, x, line))`. */
  method DrawLines(buffer: array<string>, y0: int, x: int, lines: seq<string>)
    modifies buffer
    ensures buffer[..] == WriteLines(old(buffer[..]), y0, x, lines)
  {
    var i := 0;
    while i < |lines|
      invariant 0 <= i <= |lines|
      invariant buffer[..] == WriteLines(old(buffer[..]), y0, x, lines[..i])
    {
      WriteToBuffer(buffer, y0 + i, x, lines[i]);
      assert lines[..i + 1][..i] == lines[..i];
      i := i + 1;
    }
    assert lines[..i] == lines;
  }

  // ---------------------------------------------------------------------
  // The frame

  /** A full-width row: a corner or junction, a run of `fill`, another. */
  function Rule(left: char, fill: char, right: char): (r: string)
    ensures |r| == Width
  {
    [left] + Repeat(fill, Width - 2) + [right]
  }

  /** An empty interior row between the side borders. */
  function BlankRow(): (r: string)
    ensures |r| == Width
  {
    Rule('│', ' ', '│')
  }

  /** A divider with a title centred in its rule, the odd '─' on the right. */
  function Divider(title: string): (r: string)
    requires |title| <= Width - 2
    ensures |r| == Width
  {
    var left := (Width - 2 - |title|) / 2;
    var right := Width - 2 - |title| - left;
    "├" + Repeat('─', left) + title + Repeat('─', right) + "┤"
  }

  const TodayTitle := "[ TODAY ]"
  const LifeTitle := "[ LIFE ]"

  /** Row i of the frame before anything is stamped into it. */
  function FrameRow(i: int): (r: string)
    ensures |r| == Width
  {
    if i == 0 then Rule('┌', '─', '┐')
    else if i == Height - 1 then Rule('└', '─', '┘')
    else if i == 2 then Rule('├', '═', '┤')
    else if i == 12 then Divider(TodayTitle)
    else if i == 18 then Divider(LifeTitle)
    else if i == 24 then Rule('├', '─', '┤')
    else BlankRow()
  }

  function BaseFrame(): (rows: seq<string>)
    ensures |rows| == Height
  {
    seq(Height, FrameRow)
  }

  /** The divider's title sits after floor((87 - |title|) / 2) rule
      characters, between the two junctions. */
  lemma DividerShape(title: string)
    requires |title| <= Width - 2
    ensures var r := Divider(title);
      var left := (Width - 2 - |title|) / 2;
      && r[0] == '├' && r[Width - 1] == '┤'
      && r[1 + left .. 1 + left + |title|] == title
      && (forall i :: 1 <= i < 1 + left ==> r[i] == '─')
      && (forall i :: 1 + left + |title| <= i < Width - 1 ==> r[i] == '─')
  {
    var left := (Width - 2 - |title|) / 2;
    var a := "├" + Repeat('─', left);
    var b := a + title;
    var r := b + Repeat('─', Width - 2 - |title| - left) + "┤";
    assert r == Divider(title);
    assert r[..|b|] == b;
    assert b[|a|..] == title;
  }

  /** The frame is 27 rows of 89 characters: box corners on rows 0 and 26,
      side borders on every row between, a double rule on row 2, the
      "[ TODAY ]" and "[ LIFE ]" dividers on rows 12 and 18 (titles at
      column 40) and a plain rule on row 24. */
  lemma BaseFrameShape()
    ensures var f := BaseFrame();
      && |f| == Height
      && (forall i :: 0 <= i < Height ==> |f[i]| == Width)
      && f[0][0] == '┌' && f[0][Width - 1] == '┐' && f[Height - 1][0] == '└' && f[Height - 1][Width - 1] == '┘'
      && (forall i :: 1 <= i < Height - 1 ==> f[i][0] in "│├" && f[i][Width - 1] in "│┤")
      && (forall j :: 1 <= j < Width - 1 ==> f[0][j] == '─' && f[Height - 1][j] == '─' && f[2][j] == '═' && f[24][j] == '─')
      && f[12][40 .. 49] == TodayTitle
      && f[18][40 .. 48] == LifeTitle
      && (forall i :: 1 <= i < Height - 1 && i != 2 && i != 12 && i != 18 && i != 24 ==> f[i] == BlankRow())
  {
    DividerShape(TodayTitle);
    DividerShape(LifeTitle);
  }

  /** The frame as `render` lays it down: every row blank, then the borders
      and rules. */
  method FillFrame(buffer: array<string>)
    requires buffer.Length == Height
    modifies buffer
    ensures buffer[..] == BaseFrame()
  {
    buffer[0] := "┌" + Repeat('─', Width - 2) + "┐";
    var i := 1;
    while i < Height - 1
      invariant 1 <= i <= Height - 1
      invariant buffer[0] == FrameRow(0)
      invariant forall k :: 1 <= k < i ==> buffer[k] == BlankRow()
    {
      buffer[i] := "│" + Repeat(' ', Width - 2) + "│";
      i := i + 1;
    }
    buffer[Height - 1] := "└" + Repeat('─', Width - 2) + "┘";
    buffer[2] := "├" + Repeat('═', Width - 2) + "┤";
    buffer[12] := Divider(TodayTitle);
    buffer[18] := Divider(LifeTitle);
    buffer[24] := "├" + Repeat('─', Width - 2) + "┤";
    forall k | 0 <= k < Height
      ensures buffer[k] == FrameRow(k)
    {
    }
  }

  // ---------------------------------------------------------------------
  // Header

  /** `toISOString().slice(0, 10)` with every '-' turned into '/': the
      four-digit form for years 0..9999, otherwise the six-digit extended
      year (whose sign '-' is turned too) followed by the month. */
  function IsoDate(d: Date): (r: string)
    ensures |r| >= 10
    ensures d.year < 0 ==> r[0] == '/'
    ensures d.year > 9999 ==> r[0] == '+'
  {
    if 0 <= d.year <= 9999 then
      TimeMath.Pad(d.year, 4) + "/" + TimeMath.Pad(d.month, 2) + "/" + TimeMath.Pad(d.day, 2)
    else if d.year < 0 then "/" + TimeMath.Pad(-d.year, 6) + "/" + TimeMath.Pad(d.month, 2)
    else "+" + TimeMath.Pad(d.year, 6) + "/" + TimeMath.Pad(d.month, 2)
  }

  /** `left`, then `right` pushed against the end of a field of `width`
      characters; when both do not fit they are simply joined. */
  function RightAligned(left: string, right: string, width: int): string {
    var padding := width - |left| - |right|;
    left + Repeat(' ', if padding > 0 then padding else 0) + right
  }

  /** For years 0..9999 and a calendar month and day, the ten characters
      YYYY/MM/DD, each field reading back as its number. */
  lemma IsoDateShape(d: Date)
    requires 0 <= d.year <= 9999 && 1 <= d.month <= 12 && 1 <= d.day <= 31
    ensures var r := IsoDate(d);
      && |r| == 10 && r[4] == '/' && r[7] == '/'
      && ReadsAs(r[..4], d.year) && ReadsAs(r[5..7], d.month) && ReadsAs(r[8..], d.day)
  {
    ZeroPadField(d.year, 4);
    ZeroPadField(d.month, 2);
    ZeroPadField(d.day, 2);
    var y, m, dd := TimeMath.Pad(d.year, 4), TimeMath.Pad(d.month, 2), TimeMath.Pad(d.day, 2);
    var r := IsoDate(d);
    assert r == y + "/" + m + "/" + dd;
    assert r[..4] == y && r[5..7] == m && r[8..] == dd;
  }

  lemma RightAlignedShape(left: string, right: string, width: int)
    ensures var r := RightAligned(left, right, width);
      && r[..|left|] == left
      && |r| == (if |left| + |right| <= width then width else |left| + |right|)
      && r[|r| - |right|..] == right
      && (forall i :: |left| <= i < |r| - |right| ==> r[i] == ' ')
  {
  }

  /** The left part of the header: ELAPSED anchors on the birth date,
      REMAINING on the end-of-life date. */
  function HeaderAnchor(state: LifeMonitorState, now: Instant, facts: TimeMath.DateFacts): string
    requires Configured(state)
  {
    var derived := TimeMath.CalculateDerivedData(state, now, facts);
    "LIFE CLOCK :: " + (if state.perspective == Elapsed then "BORN " + IsoDate(state.birthDate.value)
                        else "EOL " + IsoDate(derived.eolDate.value)) + "  "
  }

  /** The right part of the header: ELAPSED counts up with the current
      milliseconds, REMAINING counts the milliseconds down. */
  function HeaderMetric(state: LifeMonitorState, now: Instant, facts: TimeMath.DateFacts): string
    requires Configured(state)
  {
    var derived := TimeMath.CalculateDerivedData(state, now, facts);
    if state.perspective == Elapsed then "ELAPSED: " + TimeMath.FormatDuration(derived.elapsed, true, now.milliseconds)
    else "REMAINING: " + TimeMath.FormatDuration(derived.remaining, true, 999 - now.milliseconds)
  }

  /** The header line: the anchor flush left, the metric flush right in an
      85-column field, blanks between; when both do not fit they are joined
      and the line grows. */
  function HeaderText(state: LifeMonitorState, now: Instant, facts: TimeMath.DateFacts): (r: string)
    requires Configured(state)
    ensures |r| >= Width - 4
    ensures var left, metric := HeaderAnchor(state, now, facts), HeaderMetric(state, now, facts);
      && |left| + |metric| <= |r|
      && r[..|left|] == left && r[|r| - |metric|..] == metric
      && (forall i :: |left| <= i < |r| - |metric| ==> r[i] == ' ')
      && (|left| + |metric| <= Width - 4 ==> |r| == Width - 4)
      && (|left| + |metric| > Width - 4 ==> r == left + metric)
  {
    RightAlignedShape(HeaderAnchor(state, now, facts), HeaderMetric(state, now, facts), Width - 4);
    RightAligned(HeaderAnchor(state, now, facts), HeaderMetric(state, now, facts), Width - 4)
  }

  /** `drawHeader`: nothing without a stored configuration. */
  function Header(buffer: seq<string>, state: LifeMonitorState, now: Instant, facts: TimeMath.DateFacts): (r: seq<string>)
    ensures |r| == |buffer|
    ensures forall k :: 0 <= k < |buffer| && k != 1 ==> r[k] == buffer[k]
    ensures !Configured(state) ==> r == buffer
  {
    if Configured(state) then Write(buffer, 1, TextX, HeaderText(state, now, facts)) else buffer
  }

  method DrawHeader(buffer: array<string>, state: LifeMonitorState, timeState: TimeState, facts: TimeMath.DateFacts)
    modifies buffer
    ensures buffer[..] == Header(old(buffer[..]), state, timeState.now, facts)
  {
    if !Configured(state) {
      return;
    }
    WriteToBuffer(buffer, 1, TextX, HeaderText(state, timeState.now, facts));
  }

  // ---------------------------------------------------------------------
  // Date line and clock

  function WeekdayName(w: Weekday): string {
    ["SUNDAY", "MONDAY", "TUESDAY", "WEDNESDAY", "THURSDAY", "FRIDAY", "SATURDAY"][w]
  }

  /** "YYYY / MM / DD | WEEKDAY". */
  function DateText(now: Instant): string {
    IntToString(now.year) + " / " + TimeMath.Pad(now.month, 2) + " / " + TimeMath.Pad(now.date, 2) + " | " + WeekdayName(now.weekday)
  }

  /** The column that centres a text of n characters (the odd column goes
      to the right). */
  function CenterX(n: int): int {
    (Width - n) / 2
  }

  function ClockLines(now: Instant): (lines: seq<string>)
    ensures |lines| == 5
  {
    seq(5, i requires 0 <= i < 5 => AsciiClock.ClockRow(AsciiClock.TimeText(now), now.seconds, i))
  }

  /** `drawDateAndClock`: the date centred on row 4, the five clock rows
      from row 6, centred by the width of the first. */
  function DateAndClock(buffer: seq<string>, now: Instant): seq<string> {
    var dateStr := DateText(now);
    var lines := ClockLines(now);
    WriteLines(Write(buffer, 4, CenterX(|dateStr|), dateStr), 6, CenterX(|lines[0]|), lines)
  }

  method DrawDateAndClock(buffer: array<string>, timeState: TimeState)
    modifies buffer
    ensures buffer[..] == DateAndClock(old(buffer[..]), timeState.now)
  {
    var now := timeState.now;
    var dateStr := DateText(now);
    WriteToBuffer(buffer, 4, CenterX(|dateStr|), dateStr);
    var asciiClockLines := AsciiClock.GetAsciiClockStringArray(now);
    assert asciiClockLines == ClockLines(now);
    DrawLines(buffer, 6, CenterX(|asciiClockLines[0]|), asciiClockLines);
  }

  // ---------------------------------------------------------------------
  // Progress bars

  /** `animationState[key]`: a missing key reads as no animation. */
  function AnimationOf(timeState: TimeState, key: string): Option<AnimationInfo> {
    if key in timeState.animationState then timeState.animationState[key] else None
  }

  /** `flashState['MINUTE']`: a missing key reads as false. */
  predicate MinuteFlash(timeState: TimeState) {
    "MINUTE" in timeState.flashState && timeState.flashState["MINUTE"]
  }

  /** The time bars: second of the minute, minute of the hour, hour of the
      day. */
  function TimeBarLines(state: LifeMonitorState, timeState: TimeState): (lines: seq<string>)
    ensures |lines| == 3
  {
    var now := timeState.now;
    var p := state.perspective;
    [ ProgressBar.ProgressLine("MINUTE", "SEC", now.seconds, 60, BarWidth, true, p, MinuteFlash(timeState), None),
      ProgressBar.ProgressLine("HOUR", "MIN", now.minutes, 60, BarWidth, false, p, false, AnimationOf(timeState, "HOUR")),
      ProgressBar.ProgressLine("DAY", "HRS", now.hours, 24, BarWidth, false, p, false, AnimationOf(timeState, "DAY")) ]
  }

  /** The date bars: day of the month, month of the year, year of life. */
  function DateBarLines(state: LifeMonitorState, timeState: TimeState, facts: TimeMath.DateFacts): (lines: seq<string>)
    requires Configured(state)
    ensures |lines| == 3
  {
    var now := timeState.now;
    var p := state.perspective;
    var derived := TimeMath.CalculateDerivedData(state, now, facts);
    [ ProgressBar.ProgressLine("MONTH", "DAY", now.date, DaysInMonth(now.year, now.month), BarWidth, false, p, false, AnimationOf(timeState, "MONTH")),
      ProgressBar.ProgressLine("YEAR", "MTH", now.month, 12, BarWidth, false, p, false, AnimationOf(timeState, "YEAR")),
      ProgressBar.ProgressLine("LIFE", "YRS", TimeMath.OrZero(derived.elapsed.years), state.lifeExpectancy.value, BarWidth, false, p, false, AnimationOf(timeState, "LIFE")) ]
  }

  /** `drawProgressBars`: nothing without a stored configuration; otherwise
      the time bars on rows 14..16 and the date bars on rows 20..22, from
      column 1. */
  function Bars(buffer: seq<string>, state: LifeMonitorState, timeState: TimeState, facts: TimeMath.DateFacts): (r: seq<string>)
    ensures |r| == |buffer|
    ensures !Configured(state) ==> r == buffer
  {
    if Configured(state) then
      WriteLines(WriteLines(buffer, 14, 1, TimeBarLines(state, timeState)), 20, 1, DateBarLines(state, timeState, facts))
    else buffer
  }

  method DrawProgressBars(buffer: array<string>, state: LifeMonitorState, timeState: TimeState, facts: TimeMath.DateFacts)
    modifies buffer
    ensures buffer[..] == Bars(old(buffer[..]), state, timeState, facts)
  {
    if !Configured(state) {
      return;
    }
    var now := timeState.now;
    var p := state.perspective;
    var derived := TimeMath.CalculateDerivedData(state, now, facts);
    var minute := ProgressBar.RenderProgressBar("MINUTE", "SEC", now.seconds, 60, BarWidth, true, p, MinuteFlash(timeState), None);
    var hour := ProgressBar.RenderProgressBar("HOUR", "MIN", now.minutes, 60, BarWidth, false, p, false, AnimationOf(timeState, "HOUR"));
    var day := ProgressBar.RenderProgressBar("DAY", "HRS", now.hours, 24, BarWidth, false, p, false, AnimationOf(timeState, "DAY"));
    var month := ProgressBar.RenderProgressBar("MONTH", "DAY", now.date, DaysInMonth(now.year, now.month), BarWidth, false, p, false, AnimationOf(timeState, "MONTH"));
    var year := ProgressBar.RenderProgressBar("YEAR", "MTH", now.month, 12, BarWidth, false, p, false, AnimationOf(timeState, "YEAR"));
    var life := ProgressBar.RenderProgressBar("LIFE", "YRS", TimeMath.OrZero(derived.elapsed.years), state.lifeExpectancy.value, BarWidth, false, p, false, AnimationOf(timeState, "LIFE"));
    DrawLines(buffer, 14, 1, [minute, hour, day]);
    DrawLines(buffer, 20, 1, [month, year, life]);
  }

  // ---------------------------------------------------------------------
  // Footer

  const Controls := "[E]dit | [S]witch"

  function PerspectiveText(p: Perspective): (r: string)
    ensures |r| <= 29
  {
    "> PERSPECTIVE : [ " + (if p == Elapsed then "ELAPSED" else "REMAINING") + " ]"
  }

  /** The controls on the left, the perspective on the right, in the 85
      columns between the borders' margins. */
  function FooterText(p: Perspective): string {
    Controls + Repeat(' ', Width - 2 - 2 - |Controls| - |PerspectiveText(p)|) + PerspectiveText(p)
  }

  function Footer(buffer: seq<string>, state: LifeMonitorState): seq<string> {
    Write(buffer, FooterY, TextX, FooterText(state.perspective))
  }

  method DrawFooter(buffer: array<string>, state: LifeMonitorState)
    modifies buffer
    ensures buffer[..] == Footer(old(buffer[..]), state)
  {
    var controls := Controls;
    var perspectiveStr := PerspectiveText(state.perspective);
    var padding := Width - 2 - 2 - |controls| - |perspectiveStr|;
    WriteToBuffer(buffer, FooterY, TextX, controls + Repeat(' ', padding) + perspectiveStr);
  }

  /** The hit areas `render` returns for the two footer controls. */
  const EditButtonRect := Overlay.ButtonRect(Overlay.Edit, 2, 25, 6, 1)
  const SwitchButtonRect := Overlay.ButtonRect(Overlay.Switch, 11, 25, 8, 1)

  /** The footer is 85 characters: "[E]dit" in its first six, "[S]witch"
      in the eight from its tenth, the perspective at its end. */
  lemma FooterTextShape(p: Perspective)
    ensures var t := FooterText(p);
      && |t| == Width - 4
      && t[..6] == "[E]dit" && t[9..17] == "[S]witch"
      && t[|t| - |PerspectiveText(p)|..] == PerspectiveText(p)
  {
    var t := FooterText(p);
    assert t[..|Controls|] == Controls;
    assert Controls[..6] == "[E]dit" && Controls[9..17] == "[S]witch";
  }

  // ---------------------------------------------------------------------
  // Overlay

  /** `line.replace(/[^\s]/g, '░')`. */
  function ShadowLine(line: string): (r: string)
    ensures |r| == |line|
    ensures forall i :: 0 <= i < |line| ==> r[i] == if IsJsWhitespace(line[i]) then line[i] else '░'
  {
    seq(|line|, i requires 0 <= i < |line| => if IsJsWhitespace(line[i]) then line[i] else '░')
  }

  function ShadowLines(lines: seq<string>): (r: seq<string>)
    ensures |r| == |lines|
    ensures forall i :: 0 <= i < |lines| ==> r[i] == ShadowLine(lines[i])
  {
    seq(|lines|, i requires 0 <= i < |lines| => ShadowLine(lines[i]))
  }

  /** Where a panel of the given size is placed: centred, the odd row and
      column going below and to the right. */
  function PanelTop(lines: seq<string>): int {
    (Height - |lines|) / 2
  }

  function PanelLeft(lines: seq<string>): int {
    (Width - (if |lines| > 0 then |lines[0]| else 0)) / 2
  }

  /** The shadow one row down and one column right, then the panel. */
  function Composite(buffer: seq<string>, lines: seq<string>): seq<string> {
    Layer(buffer, lines, PanelTop(lines), PanelLeft(lines))
  }

  /** The panel drawn with its top-left corner at (left, top), over its
      shadow. */
  function Layer(buffer: seq<string>, lines: seq<string>, top: int, left: int): seq<string> {
    WriteLines(WriteLines(buffer, top + 1, left + 1, ShadowLines(lines)), top, left, lines)
  }

  method DrawOverlay(buffer: array<string>, overlay: seq<string>)
    modifies buffer
    ensures buffer[..] == Composite(old(buffer[..]), overlay)
  {
    var startY := PanelTop(overlay);
    var startX := PanelLeft(overlay);
    DrawLines(buffer, startY + 1, startX + 1, ShadowLines(overlay));
    DrawLines(buffer, startY, startX, overlay);
  }

  // ---------------------------------------------------------------------
  // The whole screen

  /** The rows `render` returns. */
  function Screen(state: LifeMonitorState, timeState: TimeState, facts: TimeMath.DateFacts, overlay: Option<seq<string>>): (rows: seq<string>)
    ensures |rows| == Height
  {
    var drawn := Drawn(state, timeState, facts);
    if overlay.Some? then Composite(drawn, overlay.value) else drawn
  }

  /** The rows before the overlay: the frame with everything stamped in. */
  function Drawn(state: LifeMonitorState, timeState: TimeState, facts: TimeMath.DateFacts): (rows: seq<string>)
    ensures |rows| == Height
  {
    Footer(Bars(DateAndClock(Header(BaseFrame(), state, timeState.now, facts), timeState.now), state, timeState, facts), state)
  }

  /** `render`. */
  method Render(state: LifeMonitorState, timeState: TimeState, facts: TimeMath.DateFacts, overlay: Option<seq<string>>)
    returns (buffer: seq<string>, editButtonRect: Overlay.ButtonRect, switchButtonRect: Overlay.ButtonRect)
    ensures buffer == Screen(state, timeState, facts, overlay)
    ensures editButtonRect == EditButtonRect && switchButtonRect == SwitchButtonRect
  {
    var rows := new string[Height](_ => "");
    FillFrame(rows);
    DrawHeader(rows, state, timeState, facts);
    DrawDateAndClock(rows, timeState);
    DrawProgressBars(rows, state, timeState, facts);
    DrawFooter(rows, state);
    if overlay.Some? {
      DrawOverlay(rows, overlay.value);
    }
    buffer := rows[..];
    editButtonRect := Overlay.ButtonRect(Overlay.Edit, 2, 25, 6, 1);
    switchButtonRect := Overlay.ButtonRect(Overlay.Switch, 11, 25, 8, 1);
  }

  // ---------------------------------------------------------------------
  // Properties of the screen

  /** A line of the interior width written at column 1 of a blank row fills
      the row between its borders. */
  lemma SpliceInterior(line: string)
    requires |line| == Width - 2
    ensures Splice(BlankRow(), 1, line) == "│" + line + "│"
  {
    SpliceInBounds(BlankRow(), 1, line);
    var r := Splice(BlankRow(), 1, line);
    assert r == r[..1] + r[1..Width - 1] + r[Width - 1..];
  }

  /** The date-and-clock step touches row 4 and rows 6..10 only. */
  lemma DateAndClockRows(buffer: seq<string>, now: Instant, r: int)
    requires 0 <= r < |buffer| && r != 4 && !(6 <= r < 11)
    ensures DateAndClock(buffer, now)[r] == buffer[r]
  {
    var dateStr := DateText(now);
    var lines := ClockLines(now);
    WriteLinesOtherRows(Write(buffer, 4, CenterX(|dateStr|), dateStr), 6, CenterX(|lines[0]|), lines, r);
  }

  /** The bar step touches rows 14..16 and 20..22 only, and nothing without
      a configuration. */
  lemma BarsRows(buffer: seq<string>, state: LifeMonitorState, timeState: TimeState, facts: TimeMath.DateFacts, r: int)
    requires 0 <= r < |buffer|
    requires !Configured(state) || (!(14 <= r < 17) && !(20 <= r < 23))
    ensures Bars(buffer, state, timeState, facts)[r] == buffer[r]
  {
    if Configured(state) {
      var times := TimeBarLines(state, timeState);
      WriteLinesOtherRows(buffer, 14, 1, times, r);
      WriteLinesOtherRows(WriteLines(buffer, 14, 1, times), 20, 1, DateBarLines(state, timeState, facts), r);
    }
  }

  /** A panel of at most ten rows, with its shadow, lies within rows
      8..18. */
  lemma PanelBand(lines: seq<string>)
    requires |lines| <= 10
    ensures 8 <= PanelTop(lines) && PanelTop(lines) + |lines| <= 18
  {
  }

  /** Compositing a panel of at most ten rows leaves every row outside
      rows 8..18 as drawn. */
  lemma CompositeRows(buffer: seq<string>, lines: seq<string>, r: int)
    requires |lines| <= 10 && 0 <= r < |buffer| && !(8 <= r <= 18)
    ensures Composite(buffer, lines)[r] == buffer[r]
  {
    var top, left := PanelTop(lines), PanelLeft(lines);
    PanelBand(lines);
    var shadow := ShadowLines(lines);
    WriteLinesOtherRows(buffer, top + 1, left + 1, shadow, r);
    WriteLinesOtherRows(WriteLines(buffer, top + 1, left + 1, shadow), top, left, lines, r);
  }

  /** The frame's interior rows other than the rules are blank. */
  lemma FrameBlank(r: int)
    requires 0 < r < Height - 1 && r != 2 && r != 12 && r != 18 && r != 24
    ensures BaseFrame()[r] == BlankRow()
  {
  }

  /** A row none of the stamping steps touch keeps the frame's row. */
  lemma StagesKeep(frame: seq<string>, state: LifeMonitorState, timeState: TimeState, facts: TimeMath.DateFacts, r: int)
    requires 0 <= r < |frame| && r != 4 && !(6 <= r < 11)
    requires r != 1 || !Configured(state)
    requires !Configured(state) || (!(14 <= r < 17) && !(20 <= r < 23))
    ensures Bars(DateAndClock(Header(frame, state, timeState.now, facts), timeState.now), state, timeState, facts)[r] == frame[r]
  {
    var h := Header(frame, state, timeState.now, facts);
    var d := DateAndClock(h, timeState.now);
    DateAndClockRows(h, timeState.now, r);
    BarsRows(d, state, timeState, facts, r);
  }

  /** The footer row: the footer text stamped at column 2 of a blank row. */
  lemma FooterRow(state: LifeMonitorState, timeState: TimeState, facts: TimeMath.DateFacts)
    ensures Drawn(state, timeState, facts)[FooterY] == Splice(BlankRow(), TextX, FooterText(state.perspective))
  {
    var f := BaseFrame();
    var b := Bars(DateAndClock(Header(f, state, timeState.now, facts), timeState.now), state, timeState, facts);
    StagesKeep(f, state, timeState, facts, FooterY);
    FrameBlank(FooterY);
    assert b[FooterY] == BlankRow();
    assert Drawn(state, timeState, facts) == Footer(b, state);
  }

  /** Under an overlay of at most ten rows the footer row is as drawn. */
  lemma FooterOnScreen(state: LifeMonitorState, timeState: TimeState, facts: TimeMath.DateFacts, overlay: Option<seq<string>>)
    requires overlay.None? || |overlay.value| <= 10
    ensures Screen(state, timeState, facts, overlay)[FooterY] == Splice(BlankRow(), TextX, FooterText(state.perspective))
  {
    FooterRow(state, timeState, facts);
    if overlay.Some? {
      CompositeRows(Drawn(state, timeState, facts), overlay.value, FooterY);
    }
  }

  /** The edit and switch hit areas `render` returns lie on the footer row
      and cover exactly "[E]dit" and "[S]witch" on the screen, also under
      an overlay of at most ten rows (which stays clear of the footer). */
  lemma ControlsVisible(state: LifeMonitorState, timeState: TimeState, facts: TimeMath.DateFacts, overlay: Option<seq<string>>)
    requires overlay.None? || |overlay.value| <= 10
    ensures EditButtonRect.y == SwitchButtonRect.y == FooterY
    ensures EditButtonRect.height == 1 && SwitchButtonRect.height == 1
    ensures var row := Screen(state, timeState, facts, overlay)[FooterY];
      && |row| == Width
      && row[EditButtonRect.x .. EditButtonRect.x + EditButtonRect.width] == "[E]dit"
      && row[SwitchButtonRect.x .. SwitchButtonRect.x + SwitchButtonRect.width] == "[S]witch"
  {
    FooterOnScreen(state, timeState, facts, overlay);
    FooterRowControls(state.perspective);
  }

  /** The drawn footer row shows "[E]dit" at columns 2..7 and "[S]witch"
      at columns 11..18. */
  lemma FooterRowControls(p: Perspective)
    ensures var row := Splice(BlankRow(), TextX, FooterText(p));
      && |row| == Width && row[2 .. 8] == "[E]dit" && row[11 .. 19] == "[S]witch"
  {
    var t := FooterText(p);
    FooterTextShape(p);
    SpliceInBounds(BlankRow(), TextX, t);
    var row := Splice(BlankRow(), TextX, t);
    assert row[TextX .. TextX + |t|] == t;
    assert row[2 .. 8] == t[..6];
    assert row[11 .. 19] == t[9 .. 17];
  }

  /** A row outside the footer is the row the bar step left. */
  lemma DrawnNotFooter(state: LifeMonitorState, timeState: TimeState, facts: TimeMath.DateFacts, r: int)
    requires 0 <= r < Height && r != FooterY
    ensures Screen(state, timeState, facts, None)[r]
      == Bars(DateAndClock(Header(BaseFrame(), state, timeState.now, facts), timeState.now), state, timeState, facts)[r]
  {
    var b := Bars(DateAndClock(Header(BaseFrame(), state, timeState.now, facts), timeState.now), state, timeState, facts);
    assert Screen(state, timeState, facts, None) == Footer(b, state);
  }

  /** Without a stored configuration the header row and the six bar rows
      stay blank. */
  lemma UnconfiguredRowsBlank(state: LifeMonitorState, timeState: TimeState, facts: TimeMath.DateFacts, r: int)
    requires !Configured(state)
    requires r == 1 || 14 <= r < 17 || 20 <= r < 23
    ensures Screen(state, timeState, facts, None)[r] == BlankRow()
  {
    DrawnNotFooter(state, timeState, facts, r);
    StagesKeep(BaseFrame(), state, timeState, facts, r);
    FrameBlank(r);
  }

  /** With a configuration, the header fills row 1 between the margins,
      the borders kept: it is never narrower than the 85 columns, and is
      exactly that wide when anchor and duration fit. */
  lemma HeaderShown(state: LifeMonitorState, timeState: TimeState, facts: TimeMath.DateFacts)
    requires Configured(state) && |HeaderText(state, timeState.now, facts)| <= Width - 4
    ensures var row := Screen(state, timeState, facts, None)[1];
      var t := HeaderText(state, timeState.now, facts);
      && |t| == Width - 4
      && |row| == Width && row[0] == '│' && row[Width - 1] == '│'
      && row[TextX .. TextX + |t|] == t
  {
    var now := timeState.now;
    var h := Header(BaseFrame(), state, now, facts);
    DrawnNotFooter(state, timeState, facts, 1);
    AfterHeader(h, state, timeState, facts, 1);
    HeaderRowOf(state, now, facts);
  }

  /** The header step writes the header text at column 2 of the frame's
      blank row 1. */
  lemma HeaderRowOf(state: LifeMonitorState, now: Instant, facts: TimeMath.DateFacts)
    requires Configured(state) && |HeaderText(state, now, facts)| <= Width - 4
    ensures var row := Header(BaseFrame(), state, now, facts)[1];
      var t := HeaderText(state, now, facts);
      && |t| == Width - 4
      && |row| == Width && row[0] == '│' && row[Width - 1] == '│'
      && row[TextX .. TextX + |t|] == t
  {
    var t := HeaderText(state, now, facts);
    FrameBlank(1);
    SpliceInBounds(BlankRow(), TextX, t);
  }

  /** The date, clock and bar steps leave the header row and the other
      rows they do not own as they were. */
  lemma AfterHeader(h: seq<string>, state: LifeMonitorState, timeState: TimeState, facts: TimeMath.DateFacts, r: int)
    requires 0 <= r < |h| && r != 4 && !(6 <= r < 11)
    requires !Configured(state) || (!(14 <= r < 17) && !(20 <= r < 23))
    ensures Bars(DateAndClock(h, timeState.now), state, timeState, facts)[r] == h[r]
  {
    DateAndClockRows(h, timeState.now, r);
    BarsRows(DateAndClock(h, timeState.now), state, timeState, facts, r);
  }

  /** Row i of the clock picture of `now` fills columns 28..59 of `row`. */
  predicate ClockRowAt(row: string, now: Instant, i: int)
    requires 0 <= i < 5
  {
    |row| == Width && row[28 .. 60] == AsciiClock.ClockRow(AsciiClock.TimeText(now), now.seconds, i)
  }

  /** For a valid instant the five clock rows are centred at column 28 of
      rows 6..10. */
  lemma ClockShown(state: LifeMonitorState, timeState: TimeState, facts: TimeMath.DateFacts, i: int)
    requires ValidInstant(timeState.now) && 0 <= i < 5
    ensures ClockRowAt(Screen(state, timeState, facts, None)[6 + i], timeState.now, i)
  {
    var h := Header(BaseFrame(), state, timeState.now, facts);
    ClockBandDrawn(state, timeState, facts, 6 + i);
    HeaderLeavesBlank(state, timeState.now, facts, 6 + i);
    ClockRowOf(h, timeState.now, i);
  }

  /** Rows 4..10 of the screen are as the date-and-clock step left them. */
  lemma ClockBandDrawn(state: LifeMonitorState, timeState: TimeState, facts: TimeMath.DateFacts, r: int)
    requires 4 <= r < 11
    ensures Screen(state, timeState, facts, None)[r]
      == DateAndClock(Header(BaseFrame(), state, timeState.now, facts), timeState.now)[r]
  {
    DrawnNotFooter(state, timeState, facts, r);
    BarsRows(DateAndClock(Header(BaseFrame(), state, timeState.now, facts), timeState.now), state, timeState, facts, r);
  }

  /** The header step leaves the frame's blank rows other than row 1 blank. */
  lemma HeaderLeavesBlank(state: LifeMonitorState, now: Instant, facts: TimeMath.DateFacts, r: int)
    requires 2 < r < 12
    ensures Header(BaseFrame(), state, now, facts)[r] == BlankRow()
  {
    FrameBlank(r);
  }

  /** The date-and-clock step writes clock row i centred by the first row's
      width onto row 6 + i of a blank row. */
  lemma ClockRowOf(buffer: seq<string>, now: Instant, i: int)
    requires ValidInstant(now) && 0 <= i < 5 && |buffer| == Height && buffer[6 + i] == BlankRow()
    ensures ClockRowAt(DateAndClock(buffer, now)[6 + i], now, i)
  {
    var dateStr := DateText(now);
    var w := Write(buffer, 4, CenterX(|dateStr|), dateStr);
    var lines := ClockLines(now);
    AsciiClock.ClockRowsShape(now, 0);
    AsciiClock.ClockRowsShape(now, i);
    WriteLinesRow(w, 6, CenterX(|lines[0]|), lines, i);
    SpliceInBounds(BlankRow(), 28, lines[i]);
  }

  /** `t` sits in `row` between the borders, centred with the odd column
      on the right. */
  predicate CentredIn(row: string, t: string) {
    var x := CenterX(|t|);
    && 1 <= x && x + |t| <= Width - 1
    && Width - 1 <= 2 * x + |t| <= Width
    && |row| == Width
    && row[x .. x + |t|] == t
  }

  /** For a valid instant of a four-digit year the date line is centred on
      row 4. */
  lemma DateShown(state: LifeMonitorState, timeState: TimeState, facts: TimeMath.DateFacts)
    requires ValidInstant(timeState.now) && 0 <= timeState.now.year <= 9999
    ensures CentredIn(Screen(state, timeState, facts, None)[4], DateText(timeState.now))
  {
    var h := Header(BaseFrame(), state, timeState.now, facts);
    ClockBandDrawn(state, timeState, facts, 4);
    HeaderLeavesBlank(state, timeState.now, facts, 4);
    DateRowOf(h, timeState.now);
  }

  /** The date-and-clock step writes the date text centred on a blank row 4. */
  lemma DateRowOf(buffer: seq<string>, now: Instant)
    requires ValidInstant(now) && 0 <= now.year <= 9999 && |buffer| == Height && buffer[4] == BlankRow()
    ensures CentredIn(DateAndClock(buffer, now)[4], DateText(now))
  {
    var t := DateText(now);
    var lines := ClockLines(now);
    DateTextWidth(now);
    WriteLinesOtherRows(Write(buffer, 4, CenterX(|t|), t), 6, CenterX(|lines[0]|), lines, 4);
    SpliceInBounds(BlankRow(), CenterX(|t|), t);
  }

  lemma DateTextWidth(now: Instant)
    requires ValidInstant(now) && 0 <= now.year <= 9999
    ensures |DateText(now)| <= 30
  {
    assert Pow10(4) == 10000 && Pow10(2) == 100;
    NatToStringLength(now.year, 4);
    assert IntToString(now.year) == NatToString(now.year);
    ZeroPadField(now.month, 2);
    ZeroPadField(now.date, 2);
  }

  /** The ranges under which every bar fits its row: a valid instant, and
      when configured an expectancy of 2..999 years with the elapsed years
      inside it. */
  predicate Displayable(state: LifeMonitorState, timeState: TimeState, facts: TimeMath.DateFacts) {
    && ValidInstant(timeState.now)
    && (Configured(state) ==>
          && 2 <= state.lifeExpectancy.value <= 999
          && 0 <= TimeMath.OrZero(TimeMath.CalculateDerivedData(state, timeState.now, facts).elapsed.years) <= state.lifeExpectancy.value)
  }

  /** Each time bar line is exactly the 87 interior columns. */
  lemma TimeBarFits(state: LifeMonitorState, timeState: TimeState, i: int)
    requires ValidInstant(timeState.now) && 0 <= i < 3
    ensures |TimeBarLines(state, timeState)[i]| == Width - 2
  {
    if i == 0 {
      MinuteBarFits(state, timeState);
    } else if i == 1 {
      HourBarFits(state, timeState);
    } else {
      DayBarFits(state, timeState);
    }
  }

  lemma MinuteBarFits(state: LifeMonitorState, timeState: TimeState)
    requires ValidInstant(timeState.now)
    ensures |TimeBarLines(state, timeState)[0]| == Width - 2
  {
    var now := timeState.now;
    TwoDigitBarFits("MINUTE", "SEC", now.seconds, 60, true, state.perspective, MinuteFlash(timeState), None);
  }

  lemma HourBarFits(state: LifeMonitorState, timeState: TimeState)
    requires ValidInstant(timeState.now)
    ensures |TimeBarLines(state, timeState)[1]| == Width - 2
  {
    var now := timeState.now;
    TwoDigitBarFits("HOUR", "MIN", now.minutes, 60, false, state.perspective, false, AnimationOf(timeState, "HOUR"));
  }

  lemma DayBarFits(state: LifeMonitorState, timeState: TimeState)
    requires ValidInstant(timeState.now)
    ensures |TimeBarLines(state, timeState)[2]| == Width - 2
  {
    ProgressBar.DayLineWidth(timeState.now.hours, state.perspective, AnimationOf(timeState, "DAY"));
  }

  /** A bar whose total has at most two digits, with a label and unit of at
      most ten characters, is 87 columns wide. */
  lemma TwoDigitBarFits(barLabel: string, unit: string, value: int, total: int, isSecondBar: bool,
                        p: Perspective, flash: bool, animation: Option<AnimationInfo>)
    requires |barLabel| + |unit| <= 10 && 2 <= total < 100
    requires ProgressBar.InScale(ProgressBar.IsOneBasedAsWritten(barLabel), value, total, isSecondBar)
    ensures |ProgressBar.ProgressLine(barLabel, unit, value, total, BarWidth, isSecondBar, p, flash, animation)| == Width - 2
  {
    assert Pow10(2) == 100;
    ProgressBar.ProgressLineFits(barLabel, unit, value, total, BarWidth, isSecondBar, p, flash, animation, 2);
  }

  /** A bar whose total has three digits, with a label and unit of at most
      eight characters, is 87 columns wide. */
  lemma ThreeDigitBarFits(barLabel: string, unit: string, value: int, total: int, isSecondBar: bool,
                          p: Perspective, flash: bool, animation: Option<AnimationInfo>)
    requires |barLabel| + |unit| <= 8 && 2 <= total < 1000
    requires ProgressBar.InScale(ProgressBar.IsOneBasedAsWritten(barLabel), value, total, isSecondBar)
    ensures |ProgressBar.ProgressLine(barLabel, unit, value, total, BarWidth, isSecondBar, p, flash, animation)| == Width - 2
  {
    assert Pow10(3) == 1000;
    ProgressBar.ProgressLineFits(barLabel, unit, value, total, BarWidth, isSecondBar, p, flash, animation, 3);
  }

  /** Each date bar line is exactly the 87 interior columns. */
  lemma DateBarFits(state: LifeMonitorState, timeState: TimeState, facts: TimeMath.DateFacts, i: int)
    requires Configured(state) && Displayable(state, timeState, facts) && 0 <= i < 3
    ensures |DateBarLines(state, timeState, facts)[i]| == Width - 2
  {
    if i == 0 {
      MonthBarFits(state, timeState, facts);
    } else if i == 1 {
      YearBarFits(state, timeState, facts);
    } else {
      LifeBarFits(state, timeState, facts);
    }
  }

  lemma MonthBarFits(state: LifeMonitorState, timeState: TimeState, facts: TimeMath.DateFacts)
    requires Configured(state) && ValidInstant(timeState.now)
    ensures |DateBarLines(state, timeState, facts)[0]| == Width - 2
  {
    var now := timeState.now;
    TwoDigitBarFits("MONTH", "DAY", now.date, DaysInMonth(now.year, now.month), false, state.perspective, false, AnimationOf(timeState, "MONTH"));
  }

  lemma YearBarFits(state: LifeMonitorState, timeState: TimeState, facts: TimeMath.DateFacts)
    requires Configured(state) && ValidInstant(timeState.now)
    ensures |DateBarLines(state, timeState, facts)[1]| == Width - 2
  {
    var now := timeState.now;
    TwoDigitBarFits("YEAR", "MTH", now.month, 12, false, state.perspective, false, AnimationOf(timeState, "YEAR"));
  }

  lemma LifeBarFits(state: LifeMonitorState, timeState: TimeState, facts: TimeMath.DateFacts)
    requires Configured(state) && Displayable(state, timeState, facts)
    ensures |DateBarLines(state, timeState, facts)[2]| == Width - 2
  {
    var years := TimeMath.OrZero(TimeMath.CalculateDerivedData(state, timeState.now, facts).elapsed.years);
    ThreeDigitBarFits("LIFE", "YRS", years, state.lifeExpectancy.value, false, state.perspective, false, AnimationOf(timeState, "LIFE"));
  }

  /** With a configuration and values in range, each bar line fills its
      row between the borders: the time bars on rows 14..16 and the date
      bars on rows 20..22. */
  lemma BarsShown(state: LifeMonitorState, timeState: TimeState, facts: TimeMath.DateFacts, i: int)
    requires Configured(state) && Displayable(state, timeState, facts) && 0 <= i < 3
    ensures Screen(state, timeState, facts, None)[14 + i] == "│" + TimeBarLines(state, timeState)[i] + "│"
    ensures Screen(state, timeState, facts, None)[20 + i] == "│" + DateBarLines(state, timeState, facts)[i] + "│"
  {
    TimeBarShown(state, timeState, facts, i);
    DateBarShown(state, timeState, facts, i);
  }

  lemma TimeBarShown(state: LifeMonitorState, timeState: TimeState, facts: TimeMath.DateFacts, i: int)
    requires Configured(state) && ValidInstant(timeState.now) && 0 <= i < 3
    ensures Screen(state, timeState, facts, None)[14 + i] == "│" + TimeBarLines(state, timeState)[i] + "│"
    ensures |Screen(state, timeState, facts, None)[14 + i]| == Width
  {
    var now := timeState.now;
    var f := BaseFrame();
    var d := DateAndClock(Header(f, state, now, facts), now);
    DrawnNotFooter(state, timeState, facts, 14 + i);
    BarRowsBlank(f, state, now, facts, i);
    TimeBarFits(state, timeState, i);
    TimeBarRowOf(d, TimeBarLines(state, timeState), DateBarLines(state, timeState, facts), i);
  }

  lemma DateBarShown(state: LifeMonitorState, timeState: TimeState, facts: TimeMath.DateFacts, i: int)
    requires Configured(state) && Displayable(state, timeState, facts) && 0 <= i < 3
    ensures Screen(state, timeState, facts, None)[20 + i] == "│" + DateBarLines(state, timeState, facts)[i] + "│"
    ensures |Screen(state, timeState, facts, None)[20 + i]| == Width
  {
    var now := timeState.now;
    var f := BaseFrame();
    var d := DateAndClock(Header(f, state, now, facts), now);
    DrawnNotFooter(state, timeState, facts, 20 + i);
    BarRowsBlank(f, state, now, facts, i);
    DateBarFits(state, timeState, facts, i);
    DateBarRowOf(d, TimeBarLines(state, timeState), DateBarLines(state, timeState, facts), i);
  }

  /** The header and date-and-clock steps leave the bar rows of the frame
      blank. */
  lemma BarRowsBlank(f: seq<string>, state: LifeMonitorState, now: Instant, facts: TimeMath.DateFacts, i: int)
    requires f == BaseFrame() && 0 <= i < 3
    ensures var d := DateAndClock(Header(f, state, now, facts), now);
      d[14 + i] == BlankRow() && d[20 + i] == BlankRow()
  {
    var h := Header(f, state, now, facts);
    DateAndClockRows(h, now, 14 + i);
    DateAndClockRows(h, now, 20 + i);
    FrameBlank(14 + i);
    FrameBlank(20 + i);
  }

  /** A time bar written onto blank row 14 + i, the date bars below it. */
  lemma TimeBarRowOf(buffer: seq<string>, times: seq<string>, dates: seq<string>, i: int)
    requires |buffer| == Height && |times| == 3 && |dates| == 3 && 0 <= i < 3
    requires buffer[14 + i] == BlankRow() && |times[i]| == Width - 2
    ensures WriteLines(WriteLines(buffer, 14, 1, times), 20, 1, dates)[14 + i] == "│" + times[i] + "│"
  {
    WriteLinesRow(buffer, 14, 1, times, i);
    WriteLinesOtherRows(WriteLines(buffer, 14, 1, times), 20, 1, dates, 14 + i);
    SpliceInterior(times[i]);
  }

  /** A date bar written onto blank row 20 + i, after the time bars. */
  lemma DateBarRowOf(buffer: seq<string>, times: seq<string>, dates: seq<string>, i: int)
    requires |buffer| == Height && |times| == 3 && |dates| == 3 && 0 <= i < 3
    requires buffer[20 + i] == BlankRow() && |dates[i]| == Width - 2
    ensures WriteLines(WriteLines(buffer, 14, 1, times), 20, 1, dates)[20 + i] == "│" + dates[i] + "│"
  {
    WriteLinesOtherRows(buffer, 14, 1, times, 20 + i);
    WriteLinesRow(WriteLines(buffer, 14, 1, times), 20, 1, dates, i);
    SpliceInterior(dates[i]);
  }

  // ---------------------------------------------------------------------
  // The overlay on the screen

  /** A panel the compositor can place whole: one to 25 rows of one width
      of at most 87 columns, over rows (its band and the shadow row below)
      that are 89 columns wide. */
  predicate PanelFits(buffer: seq<string>, lines: seq<string>) {
    && |buffer| == Height
    && 1 <= |lines| <= Height - 2
    && |lines[0]| <= Width - 2
    && (forall i :: 0 <= i < |lines| ==> |lines[i]| == |lines[0]|)
    && (forall r :: PanelTop(lines) <= r <= PanelTop(lines) + |lines| && 0 <= r < |buffer| ==> |buffer[r]| == Width)
  }

  /** The panel's rows and its shadow row lie inside the screen, and the
      shadow's right edge inside the row. */
  lemma PanelPlacement(lines: seq<string>)
    requires 1 <= |lines| <= Height - 2 && |lines[0]| <= Width - 2
    ensures 1 <= PanelTop(lines) && PanelTop(lines) + |lines| < Height
    ensures 1 <= PanelLeft(lines) && PanelLeft(lines) + 1 + |lines[0]| <= Width
  {
  }

  /** A band of equal-width lines, with its shadow one row down and one
      column right, that fits inside 89-column rows of the buffer. */
  predicate BandFits(buffer: seq<string>, lines: seq<string>, top: int, left: int) {
    && 1 <= |lines|
    && (forall i :: 0 <= i < |lines| ==> |lines[i]| == |lines[0]|)
    && 0 <= top && top + |lines| < |buffer|
    && 0 <= left && left + 1 + |lines[0]| <= Width
    && (forall r :: top <= r <= top + |lines| ==> |buffer[r]| == Width)
  }

  /** After the shadow step every row of the band is still 89 columns. */
  lemma ShadowedRowWidth(buffer: seq<string>, lines: seq<string>, top: int, left: int, r: int)
    requires BandFits(buffer, lines, top, left) && top <= r <= top + |lines|
    ensures |WriteLines(buffer, top + 1, left + 1, ShadowLines(lines))[r]| == Width
  {
    var shadow := ShadowLines(lines);
    assert |buffer[r]| == Width;
    assert forall i :: 0 <= i < |shadow| ==> |shadow[i]| == |lines[0]|;
    WriteLinesKeepWidth(buffer, top + 1, left + 1, shadow, |lines[0]|, r);
  }

  /** Lines of one width that fit from column x keep an 89-column row 89
      columns wide. */
  lemma WriteLinesKeepWidth(buffer: seq<string>, y0: int, x: int, band: seq<string>, w: int, r: int)
    requires 0 <= r < |buffer| && |buffer[r]| == Width
    requires 0 <= x && x + w <= Width && forall i :: 0 <= i < |band| ==> |band[i]| == w
    ensures |WriteLines(buffer, y0, x, band)[r]| == Width
  {
    if y0 <= r < y0 + |band| {
      WriteLinesRow(buffer, y0, x, band, r - y0);
      SpliceInBounds(buffer[r], x, band[r - y0]);
    } else {
      WriteLinesOtherRows(buffer, y0, x, band, r);
    }
  }

  /** Each line of the band is seen whole on its row once the band is laid
      over its shadow. */
  lemma LineOnTop(buffer: seq<string>, lines: seq<string>, top: int, left: int, i: int)
    requires BandFits(buffer, lines, top, left) && 0 <= i < |lines|
    ensures var row := Layer(buffer, lines, top, left)[top + i];
      && |row| == Width
      && row[left .. left + |lines[0]|] == lines[i]
  {
    var shadowed := WriteLines(buffer, top + 1, left + 1, ShadowLines(lines));
    ShadowedRowWidth(buffer, lines, top, left, top + i);
    WriteLinesRow(shadowed, top, left, lines, i);
    SpliceInBounds(shadowed[top + i], left, lines[i]);
  }

  /** The row under the band shows the shadow of its last line. */
  lemma ShadowUnder(buffer: seq<string>, lines: seq<string>, top: int, left: int)
    requires BandFits(buffer, lines, top, left)
    ensures var h := |lines|;
      var row := Layer(buffer, lines, top, left)[top + h];
      && |row| == Width
      && row[left + 1 .. left + 1 + |lines[0]|] == ShadowLine(lines[h - 1])
  {
    var h := |lines|;
    var shadow := ShadowLines(lines);
    var shadowed := WriteLines(buffer, top + 1, left + 1, shadow);
    assert |buffer[top + h]| == Width;
    assert |shadow[h - 1]| == |lines[0]|;
    WriteLinesOtherRows(shadowed, top, left, lines, top + h);
    WriteLinesRow(buffer, top + 1, left + 1, shadow, h - 1);
    SpliceInBounds(buffer[top + h], left + 1, shadow[h - 1]);
  }

  /** The compositor's placement of a panel that fits is a band that fits. */
  lemma PanelBandFits(buffer: seq<string>, lines: seq<string>)
    requires PanelFits(buffer, lines)
    ensures BandFits(buffer, lines, PanelTop(lines), PanelLeft(lines))
  {
    PanelPlacement(lines);
  }

  /** Each panel line is seen whole, at the panel's columns, on its row of
      the composited screen: the shadow beneath it is covered. */
  lemma PanelOnTop(buffer: seq<string>, lines: seq<string>, i: int)
    requires PanelFits(buffer, lines) && 0 <= i < |lines|
    ensures var row := Composite(buffer, lines)[PanelTop(lines) + i];
      var left := PanelLeft(lines);
      && |row| == Width
      && row[left .. left + |lines[0]|] == lines[i]
  {
    PanelBandFits(buffer, lines);
    LineOnTop(buffer, lines, PanelTop(lines), PanelLeft(lines), i);
  }

  /** Below the panel, one column to the right, the shadow of its last line
      shows: every visible character of that line as '░', its whitespace
      kept. */
  lemma ShadowBelow(buffer: seq<string>, lines: seq<string>)
    requires PanelFits(buffer, lines)
    ensures var h := |lines|;
      var row := Composite(buffer, lines)[PanelTop(lines) + h];
      var x := PanelLeft(lines) + 1;
      && |row| == Width
      && row[x .. x + |lines[0]|] == ShadowLine(lines[h - 1])
  {
    PanelBandFits(buffer, lines);
    ShadowUnder(buffer, lines, PanelTop(lines), PanelLeft(lines));
  }

  /** Row y of `screen` shows `t` from column x, inside the row. */
  predicate ShowsAt(screen: seq<string>, x: int, y: int, t: string) {
    && 0 <= y < |screen| && |screen[y]| == Width
    && 0 <= x && x + |t| <= Width
    && screen[y][x .. x + |t|] == t
  }

  /** Whatever a one-row rectangle covers in the panel, placed where the
      compositor puts it, is what the screen shows under that rectangle. */
  lemma SeenOnScreen(buffer: seq<string>, lines: seq<string>, x: int, y: int, width: int, t: string)
    requires PanelFits(buffer, lines)
    requires Overlay.TextUnder(lines, PanelLeft(lines), PanelTop(lines), x, y, width) == Some(t)
    ensures |t| == width && ShowsAt(Composite(buffer, lines), x, y, t)
  {
    PanelBandFits(buffer, lines);
    SeenInBand(buffer, lines, PanelTop(lines), PanelLeft(lines), x, y, width, t);
  }

  /** SeenOnScreen for a band at any position. */
  lemma SeenInBand(buffer: seq<string>, lines: seq<string>, top: int, left: int, x: int, y: int, width: int, t: string)
    requires BandFits(buffer, lines, top, left)
    requires Overlay.TextUnder(lines, left, top, x, y, width) == Some(t)
    ensures |t| == width && ShowsAt(Layer(buffer, lines, top, left), x, y, t)
  {
    var i := y - top;
    LineOnTop(buffer, lines, top, left, i);
    var row := Layer(buffer, lines, top, left)[y];
    SliceOfSlice(row, left, left + |lines[0]|, x - left, x - left + width);
  }

  lemma SliceOfSlice(s: string, lo: int, hi: int, a: int, b: int)
    requires 0 <= lo <= hi <= |s| && 0 <= a <= b <= hi - lo
    ensures s[lo .. hi][a .. b] == s[lo + a .. lo + b]
  {
    forall k | 0 <= k < b - a
      ensures s[lo .. hi][a .. b][k] == s[lo + a .. lo + b][k]
    {
      assert s[lo .. hi][a + k] == s[lo + a + k];
    }
  }

  /** With the values in range every row of the screen from 5 to 23 is
      89 columns wide. */
  lemma BandWidth(state: LifeMonitorState, timeState: TimeState, facts: TimeMath.DateFacts, r: int)
    requires Displayable(state, timeState, facts) && 5 <= r < 24
    ensures |Screen(state, timeState, facts, None)[r]| == Width
  {
    if 6 <= r < 11 {
      ClockShown(state, timeState, facts, r - 6);
    } else if 14 <= r < 17 || 20 <= r < 23 {
      BarRowWidth(state, timeState, facts, r);
    } else {
      DrawnNotFooter(state, timeState, facts, r);
      StagesKeep(BaseFrame(), state, timeState, facts, r);
    }
  }

  lemma BarRowWidth(state: LifeMonitorState, timeState: TimeState, facts: TimeMath.DateFacts, r: int)
    requires Displayable(state, timeState, facts) && (14 <= r < 17 || 20 <= r < 23)
    ensures |Screen(state, timeState, facts, None)[r]| == Width
  {
    if !Configured(state) {
      UnconfiguredRowsBlank(state, timeState, facts, r);
    } else if r < 17 {
      TimeBarShown(state, timeState, facts, r - 14);
    } else {
      DateBarShown(state, timeState, facts, r - 20);
    }
  }

  /** The editing panel, placed where the clock places it (centred: column
      14, row 8), covers rows 8..17 with its shadow on row 18, so it can be
      composited whole. */
  lemma EditPanelFits(state: LifeMonitorState, timeState: TimeState, facts: TimeMath.DateFacts, p: Overlay.OverlayParams)
    requires Displayable(state, timeState, facts)
    requires Overlay.FitsPanel(p)
    ensures PanelTop(Overlay.Rows(p)) == 8 && PanelLeft(Overlay.Rows(p)) == 14
    ensures PanelFits(Screen(state, timeState, facts, None), Overlay.Rows(p))
  {
    Overlay.OverlayIsTenBySixty(p);
    forall r | 8 <= r <= 18
      ensures |Screen(state, timeState, facts, None)[r]| == Width
    {
      BandWidth(state, timeState, facts, r);
    }
  }

  /** Whatever a rectangle covers in the editing panel, placed at column 14,
      row 8, the final screen shows under it. */
  lemma PanelTextOnScreen(state: LifeMonitorState, timeState: TimeState, facts: TimeMath.DateFacts, p: Overlay.OverlayParams,
                          x: int, y: int, width: int, t: string)
    requires Displayable(state, timeState, facts)
    requires Overlay.FitsPanel(p)
    requires Overlay.TextUnder(Overlay.Rows(p), 14, 8, x, y, width) == Some(t)
    ensures |t| == width && ShowsAt(Screen(state, timeState, facts, Some(Overlay.Rows(p))), x, y, t)
  {
    EditPanelFits(state, timeState, facts, p);
    SeenOnScreen(Screen(state, timeState, facts, None), Overlay.Rows(p), x, y, width, t);
  }

  /** The four field rectangles of the editing panel cover, on the final
      screen, exactly the year, month, day and expectancy they stand for. */
  lemma FieldsOnScreen(state: LifeMonitorState, timeState: TimeState, facts: TimeMath.DateFacts, p: Overlay.OverlayParams)
    requires Displayable(state, timeState, facts)
    requires Overlay.FitsPanel(p)
    requires p.overlayX == 14 && p.overlayY == 8
    ensures var f := Overlay.FieldRects(p);
      var screen := Screen(state, timeState, facts, Some(Overlay.Rows(p)));
      && |f| == 4
      && f[0].width == |Overlay.YearDisplay(p)| && ShowsAt(screen, f[0].x, f[0].y, Overlay.YearDisplay(p))
      && f[1].width == |Overlay.MonthDisplay(p)| && ShowsAt(screen, f[1].x, f[1].y, Overlay.MonthDisplay(p))
      && f[2].width == |Overlay.DayDisplay(p)| && ShowsAt(screen, f[2].x, f[2].y, Overlay.DayDisplay(p))
      && f[3].width == |Overlay.LifeExpectancyDisplay(p)| && ShowsAt(screen, f[3].x, f[3].y, Overlay.LifeExpectancyDisplay(p))
  {
    var f := Overlay.FieldRects(p);
    Overlay.FieldRectsCoverText(p);
    PanelTextOnScreen(state, timeState, facts, p, f[0].x, f[0].y, f[0].width, Overlay.YearDisplay(p));
    PanelTextOnScreen(state, timeState, facts, p, f[1].x, f[1].y, f[1].width, Overlay.MonthDisplay(p));
    PanelTextOnScreen(state, timeState, facts, p, f[2].x, f[2].y, f[2].width, Overlay.DayDisplay(p));
    PanelTextOnScreen(state, timeState, facts, p, f[3].x, f[3].y, f[3].width, Overlay.LifeExpectancyDisplay(p));
  }

  /** The adjust buttons of the editing panel exist when it is placed at
      column 14, and on the final screen they cover "[ ▲ ]" and "[ ▼ ]". */
  lemma AdjustButtonsOnScreen(state: LifeMonitorState, timeState: TimeState, facts: TimeMath.DateFacts, p: Overlay.OverlayParams)
    requires Displayable(state, timeState, facts)
    requires Overlay.FitsPanel(p)
    requires p.overlayX == 14 && p.overlayY == 8
    ensures var up := Overlay.AdjustRect(p, Overlay.AdjustUp, 3);
      var down := Overlay.AdjustRect(p, Overlay.AdjustDown, 9);
      var screen := Screen(state, timeState, facts, Some(Overlay.Rows(p)));
      && up.Some? && down.Some?
      && ShowsAt(screen, up.value.x, up.value.y, Overlay.UpButtonText)
      && ShowsAt(screen, down.value.x, down.value.y, Overlay.DownButtonText)
  {
    var up := Overlay.AdjustRect(p, Overlay.AdjustUp, 3);
    var down := Overlay.AdjustRect(p, Overlay.AdjustDown, 9);
    Overlay.AdjustButtonsCoverText(p);
    PanelTextOnScreen(state, timeState, facts, p, up.value.x, up.value.y, up.value.width, Overlay.UpButtonText);
    PanelTextOnScreen(state, timeState, facts, p, down.value.x, down.value.y, down.value.width, Overlay.DownButtonText);
  }
}
