/** The setup panel (overlay.ts): a 10-row, 60-column bordered box showing
    the draft birth date and life expectancy, together with the hit
    rectangles of its fields and buttons in screen coordinates. */
module Overlay {
  import opened JsText
  import opened LifeMonitor

  const OverlayWidth := 60

  /** A clickable field of the panel, in screen cells. */
  datatype FieldRect = FieldRect(name: EditableField, x: int, y: int, width: int, height: int)

  datatype ButtonName = Confirm | Cancel | Edit | Switch | AdjustUp | AdjustDown

  /** A clickable button, in screen cells. */
  datatype ButtonRect = ButtonRect(name: ButtonName, x: int, y: int, width: int, height: int)

  datatype OverlayParams = OverlayParams(
    year: int, month: int, day: int, lifeExpectancy: int,
    activeField: EditableField, overlayX: int, overlayY: int)

  datatype OverlayContent = OverlayContent(
    buffer: seq<string>,
    fields: seq<FieldRect>,
    confirmButtonRect: ButtonRect,
    cancelButtonRect: ButtonRect,
    adjustUpButtonRect: Option<ButtonRect>,
    adjustDownButtonRect: Option<ButtonRect>)

  const BirthDateLabel := " Birth Date (YYYY/MM/DD): "
  const LifeExpectancyLabel := " Life Expectancy (Years): "
  const UpButtonText := "[ ▲ ]"
  const DownButtonText := "[ ▼ ]"
  /** The suffix of the focused row. */
  const AdjustButtonsText := "  [ ▲ ] [ ▼ ]"
  const InstructionsText := "[Arrows] Move/Adjust"
  const ConfirmText := "[Enter] Confirm"
  const CancelText := "[E]sc Cancel"
  const InstructionsLine := InstructionsText + "  " + ConfirmText + "  " + CancelText

  /** Panel rows of the birth date and of the life expectancy. */
  const YPos := 4
  const LifeExpectancyY := YPos + 2

  /** `centeredLine`: text centred between the side borders, the odd space
      going to the right. The source's `repeat` throws on a negative count,
      so the text must fit. */
  function CenteredLine(text: string): (r: string)
    requires |text| <= OverlayWidth - 2
    ensures |r| == OverlayWidth
  {
    var padding := OverlayWidth - 2 - |text|;
    var leftPad := padding / 2;
    var rightPad := padding - leftPad;
    "│" + Repeat(' ', leftPad) + text + Repeat(' ', rightPad) + "│"
  }

  /** `contentLine`: text left-aligned between the side borders, padded to
      the inner width; longer text widens the row. */
  function ContentLine(text: string): (r: string)
    ensures |r| == if |text| <= OverlayWidth - 2 then OverlayWidth else |text| + 2
  {
    "│" + PadEnd(text, OverlayWidth - 2, ' ') + "│"
  }

  /** A full-width horizontal border row. */
  function Border(left: char, fill: char, right: char): (r: string)
    ensures |r| == OverlayWidth
  {
    [left] + Repeat(fill, OverlayWidth - 2) + [right]
  }

  /** The centred text sits after floor(padding / 2) spaces, with spaces up
      to the right border. */
  lemma CenteredLineShape(text: string)
    requires |text| <= OverlayWidth - 2
    ensures var r := CenteredLine(text);
      var left := (OverlayWidth - 2 - |text|) / 2;
      && r[0] == '│' && r[OverlayWidth - 1] == '│'
      && r[1 + left .. 1 + left + |text|] == text
      && (forall i :: 1 <= i < 1 + left ==> r[i] == ' ')
      && (forall i :: 1 + left + |text| <= i < OverlayWidth - 1 ==> r[i] == ' ')
  {
    var padding := OverlayWidth - 2 - |text|;
    var a := "│" + Repeat(' ', padding / 2);
    var b := a + text;
    var r := b + Repeat(' ', padding - padding / 2) + "│";
    assert r == CenteredLine(text);
    assert r[..|b|] == b;
    assert b[|a|..] == text;
  }

  /** The text follows the left border, then spaces up to the right one. */
  lemma ContentLineShape(text: string)
    ensures var r := ContentLine(text);
      && r[0] == '│' && r[|r| - 1] == '│'
      && r[1 .. 1 + |text|] == text
      && (forall i :: 1 + |text| <= i < |r| - 1 ==> r[i] == ' ')
  {
    var padded := PadEnd(text, OverlayWidth - 2, ' ');
    PadEndShape(text, OverlayWidth - 2, ' ');
    var r := "│" + padded + "│";
    assert r[1 .. 1 + |text|] == padded[..|text|];
  }

  lemma BorderShape(left: char, fill: char, right: char)
    ensures var r := Border(left, fill, right);
      && r[0] == left && r[OverlayWidth - 1] == right
      && (forall i :: 1 <= i < OverlayWidth - 1 ==> r[i] == fill)
  {
  }

  function Bracket(s: string): string {
    "[" + s + "]"
  }

  /** The year, zero-padded to four digits, bracketed when focused. */
  function YearDisplay(p: OverlayParams): string {
    var s := PadStart(IntToString(p.year), 4, '0');
    if p.activeField == Year then Bracket(s) else s
  }

  function MonthDisplay(p: OverlayParams): string {
    var s := PadStart(IntToString(p.month), 2, '0');
    if p.activeField == Month then Bracket(s) else s
  }

  function DayDisplay(p: OverlayParams): string {
    var s := PadStart(IntToString(p.day), 2, '0');
    if p.activeField == Day then Bracket(s) else s
  }

  /** The expectancy, bracketed when focused and wrapped in spaces
      otherwise, so its width does not change with focus. */
  function LifeExpectancyDisplay(p: OverlayParams): string {
    var s := IntToString(p.lifeExpectancy);
    if p.activeField == LifeExpectancy then Bracket(s) else " " + s + " "
  }

  predicate IsDateField(f: EditableField) {
    f == Year || f == Month || f == Day
  }

  function BirthDateValues(p: OverlayParams): string {
    YearDisplay(p) + "/" + MonthDisplay(p) + "/" + DayDisplay(p)
  }

  /** The text of the focused row before the adjust buttons are added. */
  function ActiveRowText(p: OverlayParams): string {
    if IsDateField(p.activeField) then BirthDateLabel + BirthDateValues(p)
    else LifeExpectancyLabel + LifeExpectancyDisplay(p)
  }

  function BirthDateText(p: OverlayParams): string {
    BirthDateLabel + BirthDateValues(p) + (if IsDateField(p.activeField) then AdjustButtonsText else "")
  }

  function LifeExpectancyText(p: OverlayParams): string {
    LifeExpectancyLabel + LifeExpectancyDisplay(p) + (if IsDateField(p.activeField) then "" else AdjustButtonsText)
  }

  function FieldRects(p: OverlayParams): seq<FieldRect> {
    FieldRectsAt(p.overlayX, p.overlayY, |BirthDateLabel| + 1, YearDisplay(p), MonthDisplay(p), DayDisplay(p),
                 |LifeExpectancyLabel| + 1, LifeExpectancyDisplay(p))
  }

  /** The four field rectangles for the given displays, the date fields
      starting at column yearX of the panel, one separator apart, and the
      expectancy at column lifeExpectancyX. */
  function FieldRectsAt(overlayX: int, overlayY: int, yearX: int, y: string, m: string, d: string,
                        lifeExpectancyX: int, e: string): seq<FieldRect> {
    var monthX := yearX + |y| + 1;
    var dayX := monthX + |m| + 1;
    [ FieldRect(Year, overlayX + yearX, overlayY + YPos, |y|, 1),
      FieldRect(Month, overlayX + monthX, overlayY + YPos, |m|, 1),
      FieldRect(Day, overlayX + dayX, overlayY + YPos, |d|, 1),
      FieldRect(LifeExpectancy, overlayX + lifeExpectancyX, overlayY + LifeExpectancyY, |e|, 1) ]
  }

  /** Screen column where the adjust-button suffix is appended, and row. */
  function ButtonX(p: OverlayParams): int {
    p.overlayX + |ActiveRowText(p)|
  }

  function ButtonY(p: OverlayParams): int {
    p.overlayY + FocusedRow(p)
  }

  /** The panel row of the focused field. */
  function FocusedRow(p: OverlayParams): int {
    if IsDateField(p.activeField) then YPos else LifeExpectancyY
  }

  function AdjustRect(p: OverlayParams, name: ButtonName, offset: int): Option<ButtonRect> {
    if ButtonX(p) > 0 then Some(ButtonRect(name, ButtonX(p) + offset, ButtonY(p), 5, 1)) else None
  }

  /** Left padding of the centred instructions row. */
  function InstructionsLeft(): int {
    (OverlayWidth - 2 - |InstructionsLine|) / 2
  }

  /** The ten rows of the panel. */
  function Rows(p: OverlayParams): seq<string> {
    Frame(BirthDateText(p), LifeExpectancyText(p))
  }

  /** The panel around its two content rows. */
  function Frame(birthDateText: string, lifeExpectancyText: string): seq<string> {
    [ Border('┌', '─', '┐'),
      CenteredLine("S  E  T  U  P"),
      Border('├', '═', '┤'),
      ContentLine(""),
      ContentLine(birthDateText),
      ContentLine(""),
      ContentLine(lifeExpectancyText),
      ContentLine(""),
      CenteredLine(InstructionsLine),
      Border('└', '─', '┘') ]
  }

  /** The confirm and cancel buttons, at the columns of their texts in the
      centred instructions row, on panel row 9. */
  function ConfirmRect(p: OverlayParams): ButtonRect {
    var startX := p.overlayX + 1 + InstructionsLeft();
    ButtonRect(Confirm, startX + |InstructionsText| + 2, p.overlayY + 9, |ConfirmText|, 1)
  }

  function CancelRect(p: OverlayParams): ButtonRect {
    var startX := p.overlayX + 1 + InstructionsLeft();
    ButtonRect(Cancel, startX + |InstructionsText| + 2 + |ConfirmText| + 2, p.overlayY + 9, |CancelText|, 1)
  }

  /** Everything `getOverlayContent` returns. */
  function OverlayContentOf(p: OverlayParams): (r: OverlayContent)
    ensures |r.fields| == 4
    ensures r.adjustUpButtonRect.Some? <==> r.adjustDownButtonRect.Some?
    ensures r.adjustUpButtonRect.Some? ==>
      r.adjustUpButtonRect.value.name == AdjustUp && r.adjustDownButtonRect.value.name == AdjustDown
      && r.adjustDownButtonRect.value.x == r.adjustUpButtonRect.value.x + 6
      && r.adjustDownButtonRect.value.y == r.adjustUpButtonRect.value.y
  {
    OverlayContent(Rows(p), FieldRects(p), ConfirmRect(p), CancelRect(p),
                   AdjustRect(p, AdjustUp, 3), AdjustRect(p, AdjustDown, 9))
  }

  /** `getOverlayContent`: the field rectangles, the focused row's adjust
      buttons and the ten rows, pushed one after another. */
  method GetOverlayContent(p: OverlayParams) returns (c: OverlayContent)
    ensures c == OverlayContentOf(p)
  {
    var yearStrDisplay := YearDisplay(p);
    var monthStrDisplay := MonthDisplay(p);
    var dayStrDisplay := DayDisplay(p);
    var lifeExpectancyValue := LifeExpectancyDisplay(p);
    var fields := PushFields(p.overlayX, p.overlayY, |BirthDateLabel| + 1, yearStrDisplay, monthStrDisplay,
                             dayStrDisplay, |LifeExpectancyLabel| + 1, lifeExpectancyValue);
    var birthDateText, lifeExpectancyText, adjustUpButtonRect, adjustDownButtonRect := AddAdjustButtons(p);
    var buffer := PushRows(birthDateText, lifeExpectancyText);
    var confirmButtonRect, cancelButtonRect := InstructionButtons(p);
    c := OverlayContent(buffer, fields, confirmButtonRect, cancelButtonRect, adjustUpButtonRect, adjustDownButtonRect);
  }

  /** The start of `getOverlayContent`: one rectangle per field, pushed in
      the order year, month, day, expectancy. */
  method PushFields(overlayX: int, overlayY: int, yearX: int, yearStrDisplay: string, monthStrDisplay: string,
                    dayStrDisplay: string, lifeExpectancyX: int, lifeExpectancyValue: string)
    returns (fields: seq<FieldRect>)
    ensures fields == FieldRectsAt(overlayX, overlayY, yearX, yearStrDisplay, monthStrDisplay, dayStrDisplay,
                                   lifeExpectancyX, lifeExpectancyValue)
  {
    fields := [];
    var monthX := yearX + |yearStrDisplay| + 1;
    var dayX := monthX + |monthStrDisplay| + 1;
    fields := fields + [FieldRect(Year, overlayX + yearX, overlayY + YPos, |yearStrDisplay|, 1)];
    fields := fields + [FieldRect(Month, overlayX + monthX, overlayY + YPos, |monthStrDisplay|, 1)];
    fields := fields + [FieldRect(Day, overlayX + dayX, overlayY + YPos, |dayStrDisplay|, 1)];
    fields := fields + [FieldRect(LifeExpectancy, overlayX + lifeExpectancyX, overlayY + LifeExpectancyY,
                                  |lifeExpectancyValue|, 1)];
  }

  /** The end of `getOverlayContent`: the confirm and cancel rectangles,
      from the padding of the centred instructions row. */
  method InstructionButtons(p: OverlayParams) returns (confirmButtonRect: ButtonRect, cancelButtonRect: ButtonRect)
    ensures confirmButtonRect == ConfirmRect(p) && cancelButtonRect == CancelRect(p)
  {
    var instructionsY := p.overlayY + 9;
    var totalPadding := OverlayWidth - 2 - |InstructionsLine|;
    var leftPad := totalPadding / 2;
    var startX := p.overlayX + 1 + leftPad;

    confirmButtonRect := ButtonRect(Confirm, startX + |InstructionsText| + 2, instructionsY, |ConfirmText|, 1);
    cancelButtonRect := ButtonRect(Cancel, startX + |InstructionsText| + 2 + |ConfirmText| + 2, instructionsY,
                                   |CancelText|, 1);
  }

  /** The middle of `getOverlayContent`: the two row texts, the focused one
      extended by the adjust buttons, and the buttons' rectangles. */
  method AddAdjustButtons(p: OverlayParams)
    returns (birthDateText: string, lifeExpectancyText: string,
             adjustUpButtonRect: Option<ButtonRect>, adjustDownButtonRect: Option<ButtonRect>)
    ensures birthDateText == BirthDateText(p) && lifeExpectancyText == LifeExpectancyText(p)
    ensures adjustUpButtonRect == AdjustRect(p, AdjustUp, 3)
    ensures adjustDownButtonRect == AdjustRect(p, AdjustDown, 9)
  {
    birthDateText := BirthDateLabel + (YearDisplay(p) + "/" + MonthDisplay(p) + "/" + DayDisplay(p));
    lifeExpectancyText := LifeExpectancyLabel + LifeExpectancyDisplay(p);
    adjustUpButtonRect := None;
    adjustDownButtonRect := None;

    // The focused field is always one of the four rectangles.
    var buttonX: int;
    var buttonY: int;
    if p.activeField == Year || p.activeField == Month || p.activeField == Day {
      assert IsDateField(p.activeField) && birthDateText == ActiveRowText(p);
      buttonX := p.overlayX + |birthDateText|;
      buttonY := p.overlayY + YPos;
      birthDateText := birthDateText + AdjustButtonsText;
      assert buttonY == ButtonY(p) && birthDateText == BirthDateText(p);
    } else {
      assert !IsDateField(p.activeField) && lifeExpectancyText == ActiveRowText(p);
      buttonX := p.overlayX + |lifeExpectancyText|;
      buttonY := p.overlayY + LifeExpectancyY;
      lifeExpectancyText := lifeExpectancyText + AdjustButtonsText;
      assert buttonY == ButtonY(p) && lifeExpectancyText == LifeExpectancyText(p);
    }
    if buttonX > 0 {
      adjustUpButtonRect := Some(ButtonRect(AdjustUp, buttonX + 3, buttonY, 5, 1));
      adjustDownButtonRect := Some(ButtonRect(AdjustDown, buttonX + 9, buttonY, 5, 1));
    }
  }

  /** The end of `getOverlayContent`: the ten rows pushed top to bottom. */
  method PushRows(birthDateText: string, lifeExpectancyText: string) returns (buffer: seq<string>)
    ensures buffer == Frame(birthDateText, lifeExpectancyText)
  {
    buffer := [];
    buffer := buffer + [Border('┌', '─', '┐')];
    buffer := buffer + [CenteredLine("S  E  T  U  P")];
    buffer := buffer + [Border('├', '═', '┤')];
    buffer := buffer + [ContentLine("")];
    buffer := buffer + [ContentLine(birthDateText)];
    buffer := buffer + [ContentLine("")];
    buffer := buffer + [ContentLine(lifeExpectancyText)];
    buffer := buffer + [ContentLine("")];
    buffer := buffer + [CenteredLine(InstructionsLine)];
    buffer := buffer + [Border('└', '─', '┘')];
  }

  // ---------------------------------------------------------------------
  // Where the rectangles land

  /** The text a one-row rectangle covers in the panel placed at
      (overlayX, overlayY), if the rectangle lies inside one of its rows. */
  function TextUnder(buffer: seq<string>, overlayX: int, overlayY: int, x: int, y: int, width: int): Option<string> {
    var row := y - overlayY;
    var col := x - overlayX;
    if 0 <= row < |buffer| && 0 <= col && 0 <= width && col + width <= |buffer[row]| then
      Some(buffer[row][col .. col + width])
    else None
  }

  /** A piece of a content row's text, seen in the row one column further
      right, after the border. */
  lemma ContentSpan(a: string, b: string, c: string)
    ensures var r := ContentLine(a + b + c);
      1 + |a| + |b| <= |r| && r[1 + |a| .. 1 + |a| + |b|] == b
  {
    ContentLineShape(a + b + c);
    var r := ContentLine(a + b + c);
    assert (a + b + c)[|a| .. |a| + |b|] == b;
    assert r[1 + |a| .. 1 + |a| + |b|] == r[1 .. 1 + |a + b + c|][|a| .. |a| + |b|];
  }

  /** The four field rectangles come in the order year, month, day,
      expectancy, are one row high, and each covers exactly its field's
      display text in the panel: row 4 for the date, row 6 for the
      expectancy. */
  lemma FieldRectsCoverText(p: OverlayParams)
    ensures var f := FieldRects(p);
      && |f| == 4
      && f[0].name == Year && f[1].name == Month && f[2].name == Day && f[3].name == LifeExpectancy
      && f[0].height == 1 && f[1].height == 1 && f[2].height == 1 && f[3].height == 1
      && f[0].y - p.overlayY == YPos && f[1].y - p.overlayY == YPos
      && f[2].y - p.overlayY == YPos && f[3].y - p.overlayY == LifeExpectancyY
    ensures var f := FieldRects(p);
      && TextUnder(Rows(p), p.overlayX, p.overlayY, f[0].x, f[0].y, f[0].width) == Some(YearDisplay(p))
      && TextUnder(Rows(p), p.overlayX, p.overlayY, f[1].x, f[1].y, f[1].width) == Some(MonthDisplay(p))
      && TextUnder(Rows(p), p.overlayX, p.overlayY, f[2].x, f[2].y, f[2].width) == Some(DayDisplay(p))
      && TextUnder(Rows(p), p.overlayX, p.overlayY, f[3].x, f[3].y, f[3].width) == Some(LifeExpectancyDisplay(p))
  {
    FieldSpans(Rows(p), FieldRects(p), p.overlayX, p.overlayY, BirthDateLabel, LifeExpectancyLabel,
               YearDisplay(p), MonthDisplay(p), DayDisplay(p), LifeExpectancyDisplay(p),
               if IsDateField(p.activeField) then AdjustButtonsText else "",
               if IsDateField(p.activeField) then "" else AdjustButtonsText);
  }

  /** FieldRectsCoverText for any labels and display strings. */
  lemma FieldSpans(buffer: seq<string>, fields: seq<FieldRect>, ox: int, oy: int, dateLabel: string, expectancyLabel: string,
                   y: string, m: string, d: string, e: string, suffix: string, suffix2: string)
    requires |buffer| == 10
    requires buffer[YPos] == ContentLine(dateLabel + (y + "/" + m + "/" + d) + suffix)
    requires buffer[LifeExpectancyY] == ContentLine(expectancyLabel + e + suffix2)
    requires fields == FieldRectsAt(ox, oy, |dateLabel| + 1, y, m, d, |expectancyLabel| + 1, e)
    ensures TextUnder(buffer, ox, oy, fields[0].x, fields[0].y, fields[0].width) == Some(y)
    ensures TextUnder(buffer, ox, oy, fields[1].x, fields[1].y, fields[1].width) == Some(m)
    ensures TextUnder(buffer, ox, oy, fields[2].x, fields[2].y, fields[2].width) == Some(d)
    ensures TextUnder(buffer, ox, oy, fields[3].x, fields[3].y, fields[3].width) == Some(e)
  {
    DateSpans(buffer, fields, ox, oy, dateLabel, expectancyLabel, y, m, d, e, suffix);
    SpanAt(buffer, ox, oy, LifeExpectancyY, expectancyLabel, e, suffix2, fields[3].x, fields[3].y, fields[3].width);
  }

  /** The three date parts of FieldSpans. */
  lemma DateSpans(buffer: seq<string>, fields: seq<FieldRect>, ox: int, oy: int, dateLabel: string, expectancyLabel: string,
                  y: string, m: string, d: string, e: string, suffix: string)
    requires |buffer| == 10
    requires buffer[YPos] == ContentLine(dateLabel + (y + "/" + m + "/" + d) + suffix)
    requires fields == FieldRectsAt(ox, oy, |dateLabel| + 1, y, m, d, |expectancyLabel| + 1, e)
    ensures TextUnder(buffer, ox, oy, fields[0].x, fields[0].y, fields[0].width) == Some(y)
    ensures TextUnder(buffer, ox, oy, fields[1].x, fields[1].y, fields[1].width) == Some(m)
    ensures TextUnder(buffer, ox, oy, fields[2].x, fields[2].y, fields[2].width) == Some(d)
  {
    var t := dateLabel + (y + "/" + m + "/" + d) + suffix;
    DateRegroup(dateLabel, y, m, d, suffix);
    SpanAt(buffer, ox, oy, YPos, dateLabel, y, "/" + m + "/" + d + suffix, fields[0].x, fields[0].y, fields[0].width);
    SpanAt(buffer, ox, oy, YPos, dateLabel + y + "/", m, "/" + d + suffix, fields[1].x, fields[1].y, fields[1].width);
    SpanAt(buffer, ox, oy, YPos, dateLabel + y + "/" + m + "/", d, suffix, fields[2].x, fields[2].y, fields[2].width);
  }

  /** The date row's text, split around each of its three parts. */
  lemma DateRegroup(dateLabel: string, y: string, m: string, d: string, suffix: string)
    ensures var t := dateLabel + (y + "/" + m + "/" + d) + suffix;
      && t == dateLabel + y + ("/" + m + "/" + d + suffix)
      && t == (dateLabel + y + "/") + m + ("/" + d + suffix)
      && t == (dateLabel + y + "/" + m + "/") + d + suffix
  {
    var t := dateLabel + (y + "/" + m + "/" + d) + suffix;
    assert t == dateLabel + y + ("/" + m + "/" + d + suffix);
    assert t == (dateLabel + y + "/") + m + ("/" + d + suffix);
  }

  /** The text b of a content row a + b + c, seen through a rectangle at its
      screen position. */
  lemma SpanAt(buffer: seq<string>, ox: int, oy: int, row: int, a: string, b: string, c: string, x: int, y: int, w: int)
    requires 0 <= row < |buffer| && buffer[row] == ContentLine(a + b + c)
    requires x == ox + 1 + |a| && y == oy + row && w == |b|
    ensures TextUnder(buffer, ox, oy, x, y, w) == Some(b)
  {
    ContentSpan(a, b, c);
  }

  /** The adjust buttons exist exactly when the focused row's text ends
      right of column 0 of the screen; they are one row high and five wide,
      on the focused field's row, and cover "[ ▲ ]" and "[ ▼ ]". */
  lemma AdjustButtonsCoverText(p: OverlayParams)
    ensures var up := AdjustRect(p, AdjustUp, 3);
      && (up.Some? <==> p.overlayX + |ActiveRowText(p)| > 0)
      && (up.Some? ==>
            && up.value.name == AdjustUp && up.value.width == 5 && up.value.height == 1
            && up.value.y - p.overlayY == (if IsDateField(p.activeField) then YPos else LifeExpectancyY)
            && TextUnder(Rows(p), p.overlayX, p.overlayY, up.value.x, up.value.y, up.value.width) == Some(UpButtonText))
    ensures var down := AdjustRect(p, AdjustDown, 9);
      && (down.Some? <==> p.overlayX + |ActiveRowText(p)| > 0)
      && (down.Some? ==>
            && down.value.name == AdjustDown && down.value.width == 5 && down.value.height == 1
            && down.value.y - p.overlayY == (if IsDateField(p.activeField) then YPos else LifeExpectancyY)
            && TextUnder(Rows(p), p.overlayX, p.overlayY, down.value.x, down.value.y, down.value.width) == Some(DownButtonText))
  {
    var up := AdjustRect(p, AdjustUp, 3);
    var down := AdjustRect(p, AdjustDown, 9);
    if up.Some? {
      FocusedRowText(p);
      AdjustButtonsParts();
      ButtonSpans(Rows(p), p.overlayX, p.overlayY, FocusedRow(p), ActiveRowText(p), UpButtonText, DownButtonText,
                  up.value.x, down.value.x, up.value.y);
    }
  }

  lemma AdjustButtonsParts()
    ensures AdjustButtonsText == "  " + UpButtonText + " " + DownButtonText
    ensures |UpButtonText| == 5 && |DownButtonText| == 5
  {
  }

  /** The focused row of the panel holds the active row's text followed by
      the adjust-button suffix. */
  lemma FocusedRowText(p: OverlayParams)
    ensures ButtonY(p) - p.overlayY == FocusedRow(p)
    ensures Rows(p)[FocusedRow(p)] == ContentLine(ActiveRowText(p) + AdjustButtonsText)
  {
    FrameFieldRows(BirthDateText(p), LifeExpectancyText(p));
  }

  /** Rows 4 and 6 of the panel are the two field rows. */
  lemma FrameFieldRows(birthDateText: string, lifeExpectancyText: string)
    ensures |Frame(birthDateText, lifeExpectancyText)| == 10
    ensures Frame(birthDateText, lifeExpectancyText)[YPos] == ContentLine(birthDateText)
    ensures Frame(birthDateText, lifeExpectancyText)[LifeExpectancyY] == ContentLine(lifeExpectancyText)
  {
  }

  /** The two buttons in a row whose text ends with "  " + up + " " + down,
      at the screen columns 3 and 9 past the end of its text. */
  lemma ButtonSpans(buffer: seq<string>, ox: int, oy: int, row: int, t: string, up: string, down: string,
                    upX: int, downX: int, y: int)
    requires 0 <= row < |buffer|
    requires buffer[row] == ContentLine(t + ("  " + up + " " + down))
    requires |up| == 5 && |down| == 5
    requires upX == ox + |t| + 3 && downX == ox + |t| + 9 && y == oy + row
    ensures TextUnder(buffer, ox, oy, upX, y, 5) == Some(up)
    ensures TextUnder(buffer, ox, oy, downX, y, 5) == Some(down)
  {
    assert t + ("  " + up + " " + down) == (t + "  ") + up + (" " + down);
    ContentSpan(t + "  ", up, " " + down);
    assert t + ("  " + up + " " + down) == (t + "  " + up + " ") + down + "";
    ContentSpan(t + "  " + up + " ", down, "");
  }

  /** Only the focused row carries the adjust buttons: the other row's
      text (rows 4 and 6 of the panel hold these two texts) is its label
      and value alone. */
  lemma OnlyFocusedRowHasButtons(p: OverlayParams)
    ensures IsDateField(p.activeField) ==>
      && BirthDateText(p) == BirthDateLabel + BirthDateValues(p) + AdjustButtonsText
      && LifeExpectancyText(p) == LifeExpectancyLabel + LifeExpectancyDisplay(p)
    ensures !IsDateField(p.activeField) ==>
      && BirthDateText(p) == BirthDateLabel + BirthDateValues(p)
      && LifeExpectancyText(p) == LifeExpectancyLabel + LifeExpectancyDisplay(p) + AdjustButtonsText
  {
    EmptySuffix(BirthDateLabel + BirthDateValues(p));
    EmptySuffix(LifeExpectancyLabel + LifeExpectancyDisplay(p));
  }

  lemma EmptySuffix(s: string)
    ensures s + "" == s
  {
  }

  /** The confirm and cancel rectangles have the columns and widths of
      "[Enter] Confirm" and "[E]sc Cancel" in the instructions row (row 8),
      but their row is 9, the bottom border, where those columns hold only
      border characters. */
  lemma ConfirmCancelRects(p: OverlayParams)
    ensures var confirm := ConfirmRect(p);
      && confirm.name == Confirm && confirm.height == 1 && confirm.y - p.overlayY == 9
      && TextUnder(Rows(p), p.overlayX, p.overlayY, confirm.x, confirm.y - 1, confirm.width) == Some(ConfirmText)
      && TextUnder(Rows(p), p.overlayX, p.overlayY, confirm.x, confirm.y, confirm.width) == Some(Repeat('─', confirm.width))
    ensures var cancel := CancelRect(p);
      && cancel.name == Cancel && cancel.height == 1 && cancel.y - p.overlayY == 9
      && TextUnder(Rows(p), p.overlayX, p.overlayY, cancel.x, cancel.y - 1, cancel.width) == Some(CancelText)
      && TextUnder(Rows(p), p.overlayX, p.overlayY, cancel.x, cancel.y, cancel.width) == Some(Repeat('─', cancel.width))
  {
    var confirm, cancel := ConfirmRect(p), CancelRect(p);
    PanelBottom(BirthDateText(p), LifeExpectancyText(p));
    InstructionCovers(Rows(p), p.overlayX, p.overlayY, InstructionsText, ConfirmText, CancelText,
                      confirm.x, cancel.x, confirm.y, confirm.width, cancel.width);
  }

  /** The last two rows of the panel: the instructions and the bottom
      border. */
  lemma PanelBottom(birthDateText: string, lifeExpectancyText: string)
    ensures var rows := Frame(birthDateText, lifeExpectancyText);
      && |rows| == 10
      && rows[8] == CenteredLine(InstructionsText + "  " + ConfirmText + "  " + CancelText)
      && rows[9] == Border('└', '─', '┘')
    ensures |InstructionsText| == 20 && |ConfirmText| == 15 && |CancelText| == 12
  {
  }

  /** Where the two button texts of a centred instructions row (row 8) sit,
      and what the bottom border (row 9) holds in the same columns. */
  lemma InstructionCovers(buffer: seq<string>, ox: int, oy: int, it: string, ct: string, xt: string,
                          confirmX: int, cancelX: int, y: int, confirmW: int, cancelW: int)
    requires |buffer| == 10
    requires |it| + 2 + |ct| + 2 + |xt| <= OverlayWidth - 2
    requires buffer[8] == CenteredLine(it + "  " + ct + "  " + xt)
    requires buffer[9] == Border('└', '─', '┘')
    requires confirmX == ox + 1 + (OverlayWidth - 2 - |it + "  " + ct + "  " + xt|) / 2 + |it| + 2
    requires cancelX == confirmX + |ct| + 2
    requires y == oy + 9 && confirmW == |ct| && cancelW == |xt|
    ensures TextUnder(buffer, ox, oy, confirmX, y - 1, confirmW) == Some(ct)
    ensures TextUnder(buffer, ox, oy, cancelX, y - 1, cancelW) == Some(xt)
    ensures TextUnder(buffer, ox, oy, confirmX, y, confirmW) == Some(Repeat('─', confirmW))
    ensures TextUnder(buffer, ox, oy, cancelX, y, cancelW) == Some(Repeat('─', cancelW))
  {
    InstructionSpans(it, ct, xt);
    BorderSpan('└', '─', '┘', confirmX - ox, confirmW);
    BorderSpan('└', '─', '┘', cancelX - ox, cancelW);
  }

  /** Where the two button texts sit in a centred instructions row. */
  lemma InstructionSpans(it: string, ct: string, xt: string)
    requires |it| + 2 + |ct| + 2 + |xt| <= OverlayWidth - 2
    ensures var line := it + "  " + ct + "  " + xt;
      var r := CenteredLine(line);
      var start := 1 + (OverlayWidth - 2 - |line|) / 2;
      && r[start + |it| + 2 .. start + |it| + 2 + |ct|] == ct
      && r[start + |it| + 2 + |ct| + 2 .. start + |it| + 2 + |ct| + 2 + |xt|] == xt
  {
    var line := it + "  " + ct + "  " + xt;
    CenteredLineShape(line);
    var start := 1 + (OverlayWidth - 2 - |line|) / 2;
    InstructionPieces(it, ct, xt);
    SliceWithin(CenteredLine(line), line, start, |it| + 2, |ct|);
    SliceWithin(CenteredLine(line), line, start, |it| + 2 + |ct| + 2, |xt|);
  }

  lemma InstructionPieces(it: string, ct: string, xt: string)
    ensures var line := it + "  " + ct + "  " + xt;
      && line[|it| + 2 .. |it| + 2 + |ct|] == ct
      && line[|it| + 2 + |ct| + 2 .. |it| + 2 + |ct| + 2 + |xt|] == xt
  {
    var a := it + "  ";
    var b := a + ct;
    var c := b + "  ";
    assert (c + xt)[|c| ..] == xt;
    assert (c + xt)[|a| .. |b|] == b[|a| ..];
  }

  /** A piece of a piece of a string, seen in the whole string. */
  lemma SliceWithin(r: string, s: string, a: int, b: int, k: int)
    requires 0 <= a && a + |s| <= |r| && r[a .. a + |s|] == s
    requires 0 <= b && 0 <= k && b + k <= |s|
    ensures r[a + b .. a + b + k] == s[b .. b + k]
  {
    var x, y := r[a + b .. a + b + k], s[b .. b + k];
    forall i | 0 <= i < k ensures x[i] == y[i] {
      assert r[a .. a + |s|][b + i] == r[a + b + i];
    }
  }

  lemma BorderSpan(left: char, fill: char, right: char, a: int, w: nat)
    requires 1 <= a && a + w <= OverlayWidth - 1
    ensures Border(left, fill, right)[a .. a + w] == Repeat(fill, w)
  {
    BorderShape(left, fill, right);
  }

  /** Lengths of the displayed values for a year of at most four digits,
      month and day of at most two and an expectancy of at most three. */
  lemma DisplayLengths(p: OverlayParams)
    requires 0 <= p.year <= 9999 && 0 <= p.month <= 99 && 0 <= p.day <= 99
    requires 0 <= p.lifeExpectancy <= 999
    ensures |YearDisplay(p)| == if p.activeField == Year then 6 else 4
    ensures |MonthDisplay(p)| == if p.activeField == Month then 4 else 2
    ensures |DayDisplay(p)| == if p.activeField == Day then 4 else 2
    ensures |LifeExpectancyDisplay(p)| <= 5
  {
    ZeroPadField(p.year, 4);
    ZeroPadField(p.month, 2);
    ZeroPadField(p.day, 2);
    DigitCount(p.lifeExpectancy);
  }

  /** Drafts whose rows fit the panel: month and day of at most two digits
      and an expectancy of at most three (the editor keeps 0..12, 0..31 and
      0..999), and a year whose text is at most 11 characters. The arrows
      leave the year unbounded, so it may be negative or above 9999; with
      a focused month the birth-date row is 26 + 11 + 1 + 4 + 1 + 2 + 13 =
      58 characters, exactly the room between the borders. */
  predicate FitsPanel(p: OverlayParams) {
    |IntToString(p.year)| <= 11 && 0 <= p.month <= 99 && 0 <= p.day <= 99
    && 0 <= p.lifeExpectancy <= 999
  }

  /** Every year from -9999999999 to 99999999999 has a text of at most 11
      characters, so the years one arrow press takes out of 0..9999 (-1 and
      10000) still fit the panel. */
  lemma YearTextFits(year: int)
    requires -9_999_999_999 <= year <= 99_999_999_999
    ensures |IntToString(year)| <= 11
  {
    var n := if year < 0 then -year else year;
    var k := if year < 0 then 10 else 11;
    assert Pow10(10) == 10_000_000_000 by {
      assert Pow10(5) == 100_000;
    }
    assert Pow10(11) == 10 * Pow10(10);
    NatToStringLength(n, k);
  }

  /** Such drafts give a panel of exactly 10 rows of 60 characters. */
  lemma OverlayIsTenBySixty(p: OverlayParams)
    requires FitsPanel(p)
    ensures |Rows(p)| == 10 && forall i :: 0 <= i < 10 ==> |Rows(p)[i]| == OverlayWidth
  {
    ZeroPadField(p.month, 2);
    ZeroPadField(p.day, 2);
    DigitCount(p.lifeExpectancy);
    assert |AdjustButtonsText| == 13 && |BirthDateLabel| == 26 && |LifeExpectancyLabel| == 26;
    FrameWidth(BirthDateText(p), LifeExpectancyText(p));
  }

  /** Content rows that fit make a panel of 10 rows of 60 characters. */
  lemma FrameWidth(birthDateText: string, lifeExpectancyText: string)
    requires |birthDateText| <= OverlayWidth - 2 && |lifeExpectancyText| <= OverlayWidth - 2
    ensures var rows := Frame(birthDateText, lifeExpectancyText);
      |rows| == 10 && forall i :: 0 <= i < 10 ==> |rows[i]| == OverlayWidth
  {
  }

  /** Field display: a four-digit zero-padded year, two-digit month and day,
      each reading back as its value and bracketed exactly when focused; the
      expectancy is two characters wider than its digits, focused or not. */
  lemma FieldDisplays(p: OverlayParams)
    requires 0 <= p.year <= 9999 && 0 <= p.month <= 99 && 0 <= p.day <= 99 && p.lifeExpectancy >= 0
    ensures var y := PadStart(IntToString(p.year), 4, '0');
      && |y| == 4 && ReadsAs(y, p.year)
      && YearDisplay(p) == (if p.activeField == Year then "[" + y + "]" else y)
    ensures var m := PadStart(IntToString(p.month), 2, '0');
      && |m| == 2 && ReadsAs(m, p.month)
      && MonthDisplay(p) == (if p.activeField == Month then "[" + m + "]" else m)
    ensures var d := PadStart(IntToString(p.day), 2, '0');
      && |d| == 2 && ReadsAs(d, p.day)
      && DayDisplay(p) == (if p.activeField == Day then "[" + d + "]" else d)
    ensures |LifeExpectancyDisplay(p)| == |IntToString(p.lifeExpectancy)| + 2
    ensures ReadsAs(LifeExpectancyDisplay(p)[1 .. |LifeExpectancyDisplay(p)| - 1], p.lifeExpectancy)
  {
    ZeroPadField(p.year, 4);
    ZeroPadField(p.month, 2);
    ZeroPadField(p.day, 2);
    Unwrapped(IntToString(p.lifeExpectancy), LifeExpectancyDisplay(p), p.activeField == LifeExpectancy);
    NatToStringRoundTrip(p.lifeExpectancy);
  }

  /** The text between the brackets or the spaces that wrap a value. */
  lemma Unwrapped(s: string, e: string, bracketed: bool)
    requires e == if bracketed then "[" + s + "]" else " " + s + " "
    ensures |e| == |s| + 2 && e[1 .. |e| - 1] == s
  {
  }
}
