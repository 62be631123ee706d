# Life clock text-grid engine, in Dafny

This project models the engine behind the life clock: a terminal-style dashboard drawn as an 89 × 27 grid of characters. Integer and string logic stands in for the source's floating point and dates. The engine has three parts.

- **The renderer** (`renderer.ts`, with the glyph table of `AsciiClock.tsx`) draws the grid.
  - It lays down a box frame, then stamps into it:
    - a header with the life duration;
    - the date line and a five-row block clock;
    - six progress bars (second, minute and hour of the time; day, month and year of life);
    - a footer with the edit and switch controls.
  - It then composites an optional setup panel over a shadow.
  - `renderProgressBar` builds one fixed-layout bar line: a right-aligned label, a 60-cell bar and a percentage. The bar head's position, the mirror image under the REMAINING perspective, the second-bar markers and the grow and shrink slide-in animations are modelled exactly on integers. The one-based rule follows the code as written, DAY included (see "## Findings"). The corrected rule is a separate definition with its own proofs.
- **The draft editor** (`useLifeMonitorState.ts`) and **the setup panel** (`overlay.ts`).
  - The editor is a record of the configuration and of draft fields. Each action and key press (digits, Backspace, arrows, Tab, Enter, Esc) is a pure transition of that record.
  - `getOverlayContent` lays the panel out as ten rows of 60 characters. It also returns the hit rectangles of the fields and buttons, in screen cells.
- **The tick** (`useTimeState.ts`) and **the derived arithmetic** (`time.ts`).
  - Every 100 ms the previous time state and the new instant give the next state:
    - running animations advance one frame and finished ones disappear;
    - a change of minute, hour, day, month or year starts a fresh animation for its bar;
    - the second bar flashes for one tick.
  - `calculateDerivedData` turns calendar fields into the bars' numerators and denominators, and `formatDuration` prints a duration.

## Modelling choices

- **One Dafny module per source file.**
  - `Renderer` and `ProgressBar` model `renderer.ts`.
  - `LifeMonitor`, `Overlay`, `TimeMath`, `TimeTicker` and `AsciiClock` model the file of the same name.
  - `Calendar` stands in for `Date`: `DaysInMonth(y, m)` is `new Date(y, m, 0).getDate()` under the Gregorian rule.
  - `JsText` holds the JavaScript string operations used (`padStart`, `padEnd`, `repeat`, `substring`, `slice`, `String(n)`, `toUpperCase`).
- **Where the source changes things step by step, the model is imperative.**
  - The rows of the screen are an `array<string>`. `WriteToBuffer`, `FillFrame`, `DrawLines`, the `Draw*` steps and `Render` change it in place.
  - Each of these methods is proved against a function on the rows (`Write`, `BaseFrame`, `WriteLines`, `Header`, `DateAndClock`, `Bars`, `Footer`, `Composite`, `Screen`). The lemmas about the screen are stated over those functions.
  - `FillBar` fills an array of bar cells with the source's loops.
  - `DrawText` builds the clock rows with the source's nested loops.
  - `Tick` fills the next animation map with the source's two loops.
  - `GetOverlayContent` pushes the fields and rows one after another.
- **The editor is pure.** Its transitions are functions from the old record to the new one, as the source's `setState(s => ({...s, ...}))` updates are.
- **Dates come in as fields and facts.**
  - `now` is an `Instant` record of local calendar fields, including the weekday and the milliseconds.
  - What the date library computes (the end-of-life date, the elapsed and remaining durations, the second counts) arrives as a `DateFacts` parameter.
- **Bar arithmetic is exact.**
  - The head position `floor(p/d · (W − 1e-9))` is computed exactly: `(p·W − 1) div d` for `p > 0`, `p·W div d` otherwise, and 0 when `d ≤ 0`.
  - `Math.round` and `toFixed(0)` are exact rounding, with halves rounding up.

## Model

| member | source | states |
|---|---|---|
| Renderer.Write | src/lib/renderer.ts:10-15 | writeToBuffer: an existing row y becomes the splice of the content at column x; no other row changes; a y outside the buffer changes nothing; the row count never changes |
| Renderer.WriteToBuffer | src/lib/renderer.ts:10-15 | the in-place write leaves exactly the rows `Write` describes |
| Renderer.SpliceInBounds | src/lib/renderer.ts:13 | a write inside the row keeps its length, holds the content at [x, x+\|c\|) and keeps every other column |
| Renderer.SpliceOverrun | src/lib/renderer.ts:13 | a write running past the end of the row is not clipped: the row grows to x+\|c\| |
| Renderer.WriteLines | src/lib/renderer.ts:54-56 | writing a band of lines (a forEach of writeToBuffer) keeps the row count; its rows are described by `WriteLinesOtherRows` and `WriteLinesRow` |
| Renderer.WriteLinesOtherRows | src/lib/renderer.ts:225-231 | rows outside the band [y0, y0+\|lines\|) are untouched |
| Renderer.WriteLinesRow | src/lib/renderer.ts:225-231 | line i of a band lands spliced into row y0+i as it was before |
| Renderer.DrawLines | src/lib/renderer.ts:54-56 | the forEach loop over the array leaves the rows `WriteLines` describes |
| Renderer.Rule | src/lib/renderer.ts:254 | a rule row is 89 characters |
| Renderer.BlankRow | src/lib/renderer.ts:255-257 | an empty interior row is 89 characters |
| Renderer.Divider | src/lib/renderer.ts:261-269 | a titled divider is 89 characters |
| Renderer.DividerShape | src/lib/renderer.ts:261-269 | the title sits after floor((87−\|title\|)/2) rule characters, between the junctions, with '─' on both sides |
| Renderer.FrameRow | src/lib/renderer.ts:253-270 | every frame row is 89 characters |
| Renderer.BaseFrame | src/lib/renderer.ts:253-270 | the frame has 27 rows |
| Renderer.BaseFrameShape | src/lib/renderer.ts:253-270 | 27 rows of 89: corners on rows 0 and 26, side borders between, '═' rule on row 2, "[ TODAY ]" and "[ LIFE ]" at column 40 of rows 12 and 18, a rule on row 24, every other row blank |
| Renderer.FillFrame | src/lib/renderer.ts:253-270 | the frame loop leaves exactly `BaseFrame` in the array |
| Renderer.RightAlignedShape | src/lib/renderer.ts:36-40 | the header's left part, then spaces, then the metric ending the line; the width is 85 when both fit, else their joined length |
| Renderer.IsoDate | src/lib/renderer.ts:29-32 | at least 10 characters; a year below 0 starts with '/' (the turned '-' sign) and a year above 9999 with '+' |
| Renderer.IsoDateShape | src/lib/renderer.ts:29-32 | for years 0..9999 and a calendar month and day: "YYYY/MM/DD", ten characters, '/' at 4 and 7, each field reading back as its number |
| Renderer.HeaderText | src/lib/renderer.ts:24-40 | the anchor ("LIFE CLOCK :: BORN/EOL date") flush left, the metric flush right, blanks between; 85 columns when both fit, else the two joined |
| Renderer.Header | src/lib/renderer.ts:17-42 | drawHeader on the rows: the row count is kept, only row 1 can change, and nothing changes without a configuration |
| Renderer.DrawHeader | src/lib/renderer.ts:17-42 | the step leaves `Header`: the header text at (2, 1), nothing without a configuration (see `HeaderShown`) |
| Renderer.ClockLines | src/lib/renderer.ts:52 | the clock gives five rows |
| Renderer.DrawDateAndClock | src/lib/renderer.ts:44-57 | the step leaves `DateAndClock`: the date centred on row 4, the clock rows from row 6 (see `DateShown`, `ClockShown`) |
| Renderer.TimeBarLines | src/lib/renderer.ts:213-217 | the three time bars: MINUTE, HOUR and DAY, drawn with the program's one-based rule (DAY and MONTH) |
| Renderer.DateBarLines | src/lib/renderer.ts:219-223 | the three date bars: MONTH, YEAR and LIFE, drawn only with a configuration |
| Renderer.Bars | src/lib/renderer.ts:202-232 | drawProgressBars on the rows: the row count is kept, and nothing changes without a configuration (the rows it may change: `BarsRows`) |
| Renderer.DrawProgressBars | src/lib/renderer.ts:202-232 | the loops leave `Bars` (the program's DAY rule): nothing without a configuration, else the time bars on rows 14..16 and the date bars on rows 20..22 from column 1 (see `BarsRows`, `BarsShown`) |
| Renderer.PerspectiveText | src/lib/renderer.ts:236 | the perspective label is at most 29 characters |
| Renderer.DrawFooter | src/lib/renderer.ts:234-240 | the footer text is written at (2, 25) |
| Renderer.FooterTextShape | src/lib/renderer.ts:235-238 | the footer is 85 characters: "[E]dit" first, "[S]witch" at offset 9, the perspective label at its end |
| Renderer.ShadowLine | src/lib/renderer.ts:288 | same length; each non-whitespace character becomes '░' and whitespace stays |
| Renderer.ShadowLines | src/lib/renderer.ts:285-290 | the shadow of each panel line |
| Renderer.DrawOverlay | src/lib/renderer.ts:277-297 | the shadow at (+1, +1), then the panel at the centred position |
| Renderer.Drawn | src/lib/renderer.ts:253-275 | the frame with the four stamping steps keeps 27 rows |
| Renderer.Screen | src/lib/renderer.ts:244-297 | the rows render returns: 27, with the overlay composited when given; the bars are drawn by the program's DAY rule |
| Renderer.Render | src/lib/renderer.ts:244-307 | render returns `Screen` (the program's DAY rule), and the edit rect (2, 25, 6×1) and switch rect (11, 25, 8×1) |
| Renderer.SpliceInterior | src/lib/renderer.ts:226 | an 87-column line written at column 1 of a blank row fills it between the borders |
| Renderer.DateAndClockRows | src/lib/renderer.ts:44-57 | the date and clock step touches only rows 4 and 6..10 |
| Renderer.BarsRows | src/lib/renderer.ts:202-232 | the bar step touches only rows 14..16 and 20..22, and nothing when unconfigured |
| Renderer.PanelBand | src/lib/renderer.ts:280 | a panel of at most ten rows, with its shadow row, lies within rows 8..18 |
| Renderer.CompositeRows | src/lib/renderer.ts:277-297 | compositing such a panel leaves every row outside 8..18 as drawn |
| Renderer.FrameBlank | src/lib/renderer.ts:255-257 | interior rows other than the rules are blank |
| Renderer.StagesKeep | src/lib/renderer.ts:272-274 | a row no stamping step owns keeps the frame's row |
| Renderer.FooterRow | src/lib/renderer.ts:234-240 | the drawn footer row is the footer text at column 2 of a blank row |
| Renderer.FooterOnScreen | src/lib/renderer.ts:275-297 | under no panel or a panel of at most ten rows, the screen's footer row is as drawn |
| Renderer.ControlsVisible | src/lib/renderer.ts:299-300 | the edit and switch rects are on row 25, one row high, and the screen shows exactly "[E]dit" and "[S]witch" under them |
| Renderer.FooterRowControls | src/lib/renderer.ts:234-240 | the footer row shows "[E]dit" at columns 2..7 and "[S]witch" at 11..18 |
| Renderer.DrawnNotFooter | src/lib/renderer.ts:272-275 | every row but the footer is the row the bar step left |
| Renderer.UnconfiguredRowsBlank | src/lib/renderer.ts:19 | without a configuration the header row and the six bar rows stay blank |
| Renderer.HeaderShown | src/lib/renderer.ts:36-41 | with a configuration the header fills columns 2..86 of row 1 and the borders stay |
| Renderer.HeaderRowOf | src/lib/renderer.ts:41 | the header text is written at column 2 of blank row 1 |
| Renderer.AfterHeader | src/lib/renderer.ts:273-274 | the date, clock and bar steps leave the rows they do not own alone |
| Renderer.ClockShown | src/lib/renderer.ts:52-56 | for a valid instant, clock row i fills columns 28..59 of screen row 6+i |
| Renderer.ClockBandDrawn | src/lib/renderer.ts:273-275 | rows 4..10 of the screen are as the date and clock step left them |
| Renderer.HeaderLeavesBlank | src/lib/renderer.ts:41 | the header step keeps rows 3..11 blank |
| Renderer.ClockRowOf | src/lib/renderer.ts:53-55 | clock row i is centred on blank row 6+i |
| Renderer.DateShown | src/lib/renderer.ts:46-50 | for a valid instant with a four-digit year the date line is centred on row 4 |
| Renderer.DateRowOf | src/lib/renderer.ts:49-50 | the date text is centred on blank row 4 |
| Renderer.DateTextWidth | src/lib/renderer.ts:47 | the date text of a four-digit year is at most 30 characters |
| Renderer.TimeBarFits | src/lib/renderer.ts:213-217 | for a valid instant each time bar line is exactly 87 columns |
| Renderer.MinuteBarFits | src/lib/renderer.ts:214 | the MINUTE bar (seconds of 60, the second-bar style) is 87 columns |
| Renderer.HourBarFits | src/lib/renderer.ts:215 | the HOUR bar (minutes of 60) is 87 columns |
| Renderer.DayBarFits | src/lib/renderer.ts:216 | the DAY bar as drawn (hours of 24) is 87 columns at every hour, midnight included |
| Renderer.TwoDigitBarFits | src/lib/renderer.ts:111-119 | a bar with a total below 100 and a label plus unit of at most 10 characters is 87 columns |
| Renderer.ThreeDigitBarFits | src/lib/renderer.ts:111-119 | a bar with a total below 1000 and a label plus unit of at most 8 characters is 87 columns |
| Renderer.DateBarFits | src/lib/renderer.ts:219-223 | each date bar line is exactly 87 columns, when the expectancy is 2..999 and the elapsed years lie within it |
| Renderer.MonthBarFits | src/lib/renderer.ts:220 | the MONTH bar (day of the month) is 87 columns |
| Renderer.YearBarFits | src/lib/renderer.ts:221 | the YEAR bar (month of 12) is 87 columns |
| Renderer.LifeBarFits | src/lib/renderer.ts:222 | the LIFE bar (elapsed years of the expectancy) is 87 columns when the expectancy is 2..999 and the years lie within it |
| Renderer.BarsShown | src/lib/renderer.ts:225-231 | with a configuration, screen rows 14+i and 20+i are the bar lines between the borders |
| Renderer.TimeBarShown | src/lib/renderer.ts:225-227 | row 14+i is the time bar between the borders, 89 wide |
| Renderer.DateBarShown | src/lib/renderer.ts:229-231 | row 20+i is the date bar between the borders, 89 wide |
| Renderer.BarRowsBlank | src/lib/renderer.ts:272-273 | header and clock leave the bar rows blank |
| Renderer.TimeBarRowOf | src/lib/renderer.ts:225-227 | an 87-column time bar fills blank row 14+i |
| Renderer.DateBarRowOf | src/lib/renderer.ts:229-231 | an 87-column date bar fills blank row 20+i |
| Renderer.PanelPlacement | src/lib/renderer.ts:278-281 | a panel of 1..25 rows of at most 87 columns, with its shadow, lies inside the screen |
| Renderer.ShadowedRowWidth | src/lib/renderer.ts:285-290 | after the shadow step every band row is still 89 columns |
| Renderer.WriteLinesKeepWidth | src/lib/renderer.ts:285-296 | equal-width lines that fit keep an 89-column row 89 columns |
| Renderer.LineOnTop | src/lib/renderer.ts:293-296 | each panel line is seen whole on its row over the shadow |
| Renderer.ShadowUnder | src/lib/renderer.ts:285-290 | the row under the band shows the shadow of the last line, one column right |
| Renderer.PanelBandFits | src/lib/renderer.ts:278-281 | the compositor's placement of a fitting panel is a fitting band |
| Renderer.PanelOnTop | src/lib/renderer.ts:277-297 | each panel line is seen whole at the panel's columns on the composited screen; the panel wins over the shadow |
| Renderer.ShadowBelow | src/lib/renderer.ts:283-290 | below the panel, one column right, the last line's shadow shows |
| Renderer.SeenOnScreen | src/lib/renderer.ts:277-297 | whatever a one-row rect covers in the placed panel is what the screen shows under it |
| Renderer.SeenInBand | src/lib/renderer.ts:293-296 | the same for a band at any position |
| Renderer.BandWidth | src/lib/renderer.ts:253-275 | with values in range, screen rows 5..23 are 89 columns |
| Renderer.BarRowWidth | src/lib/renderer.ts:225-231 | bar rows are 89 columns |
| Renderer.EditPanelFits | src/components/LifeClock.tsx:29-30 | for every draft whose panel is 10 by 60 (`FitsPanel`, any year of at most 11 characters), the setup panel sits at column 14, row 8, where the clock places it, and fits the screen whole |
| Renderer.PanelTextOnScreen | src/components/LifeClock.tsx:29-50 | for drafts with `FitsPanel`, text under a rect of the placed setup panel is shown on the final screen |
| Renderer.FieldsOnScreen | src/lib/overlay.ts:71-84 | for drafts with `FitsPanel`, on the final screen the four field rects cover exactly the year, month, day and expectancy displays |
| Renderer.AdjustButtonsOnScreen | src/lib/overlay.ts:115-130 | for drafts with `FitsPanel` and the panel at column 14, both adjust buttons exist and the screen shows "[ ▲ ]" and "[ ▼ ]" under them |
| ProgressBar.OneBasedLabels | src/lib/renderer.ts:74 | the program's one-based rule (`IsOneBasedAsWritten`: DAY and MONTH) and the corrected one (`IsOneBased`: MONTH) agree on every label but DAY |
| ProgressBar.Numbers | src/lib/renderer.ts:70-107 | the denominator is total−1 for the second bar, else total |
| ProgressBar.NumbersInRange | src/lib/renderer.ts:76-107 | a value in its scale gives 0 ≤ progress ≤ denominator > 0 and 0 ≤ shown ≤ total; the second bar and a one-based bar never show 0 |
| ProgressBar.PerspectivesComplement | src/lib/renderer.ts:82-106 | ELAPSED and REMAINING progress add up to total (total−1 one-based), shown values to total (total+1 one-based) |
| ProgressBar.FloorScaled | src/lib/renderer.ts:123 | h·d < p·W ≤ (h+1)·d for p > 0, h·d ≤ p·W < (h+1)·d otherwise |
| ProgressBar.HeadInBar | src/lib/renderer.ts:109-123 | for 0 ≤ p ≤ d the head is in [0, W−1], 0 at p = 0 and W−1 exactly at p = d |
| ProgressBar.HeadMonotone | src/lib/renderer.ts:123 | more progress never moves the head back |
| ProgressBar.RemainingMirrorsElapsed | src/lib/renderer.ts:141-157 | the REMAINING static bar is the ELAPSED one reversed |
| ProgressBar.StaticCellsCount | src/lib/renderer.ts:141-157 | ELAPSED: '▓' exactly before h, '█' exactly at h; REMAINING: '▓' exactly from W−h, '█' at W−h−1 |
| ProgressBar.StaticBar | src/lib/renderer.ts:137-157 | W cells, cell i as `StaticCell` |
| ProgressBar.RoundDiv | src/lib/renderer.ts:162 | Math.round(x/f) with halves up: 2rf − f ≤ 2x < 2rf + f |
| ProgressBar.RoundDivBetween | src/lib/renderer.ts:161-162 | rounding x/f for 0 ≤ x ≤ m·f stays in [0, m], exact at both ends |
| ProgressBar.Put | src/lib/renderer.ts:165-182 | an array write as seen in the visible cells; an index outside them changes nothing |
| ProgressBar.BarCells | src/lib/renderer.ts:137-186 | a non-second bar has W cells |
| ProgressBar.FillBar | src/lib/renderer.ts:137-186 | the static loops and the animation writes on the array give `BarCells` |
| ProgressBar.GrowFrame | src/lib/renderer.ts:159-168 | the grow head h + round((W−1−h)(1−f/5)) lies in [h, W−1] and is h at frame 5; the drawn cells are '█' at the moving head, '▓' up to h elsewhere, '░' after |
| ProgressBar.ShrinkFrame | src/lib/renderer.ts:169-183 | the old REMAINING head is a bar cell; the moving head lies in [0, old head] and is 0 at frame 5; the drawn cells are '█' at the moving head, '░' at the old head, the static REMAINING cell elsewhere |
| ProgressBar.ShrinkCells | src/lib/renderer.ts:169-183 | the shrink writes keep the bar's width; at a zero denominator the static cells are kept |
| ProgressBar.SecondBarShape | src/lib/renderer.ts:125-135 | W cells of '=', one head ('▓' when flashing, else '█') at h (ELAPSED) or W−1−h (REMAINING), '>' forced at 0 or '<' at W−1 |
| ProgressBar.PercentDigitsRound | src/lib/renderer.ts:191-194 | a fraction in [0, 1] prints as the nearest whole percent k in 0..100, at most three digits, reading back as k |
| ProgressBar.Line | src/lib/renderer.ts:197-198 | the assembled line is label + bar + percent + 6 characters |
| ProgressBar.LineLayout | src/lib/renderer.ts:188-198 | where the label, the bar between '\|' and the percent sit in the line |
| ProgressBar.ProgressLineWith | src/lib/renderer.ts:59-199 | the bar line for a given one-based decision: never narrower than the 18-column label block, the bars and the percent |
| ProgressBar.CorrectedProgressLine | src/lib/renderer.ts:59-199 | the line under the corrected rule (MONTH only), never narrower than label block and separators |
| ProgressBar.ProgressLine | src/lib/renderer.ts:59-199 | the line the program draws (DAY and MONTH one-based); identical to the corrected line for every label but DAY |
| ProgressBar.RenderProgressBar | src/lib/renderer.ts:59-199 | renderProgressBar returns `ProgressLine`, the program's one-based rule (DAY and MONTH) included |
| ProgressBar.ProgressLineWithShape | src/lib/renderer.ts:111-198 | for either one-based decision, an in-scale value and a label that fits: W+27 characters, '\|' at 19 and W+20, ending "% " |
| ProgressBar.ProgressLineShape | src/lib/renderer.ts:111-198 | for the drawn line (program's rule), with a value in scale and a label that fits, the line is W+27 characters (87 for W = 60), '\|' at 19 and W+20, ending "% " |
| ProgressBar.LineFixed | src/lib/renderer.ts:188-198 | an 18-column label, W cells and a 3-column percent give a W+27 line |
| ProgressBar.TextPartWidth | src/lib/renderer.ts:113-118 | the label text's width is bounded by the digits of value and total |
| ProgressBar.ProgressLineWithFits | src/lib/renderer.ts:111-198 | for either one-based decision, any in-scale bar whose label, unit and digits fit the 18-column block is W+27 characters |
| ProgressBar.ProgressLineFits | src/lib/renderer.ts:111-198 | for the drawn line (program's rule), any in-scale bar whose label, unit and digits fit the 18-column block is W+27 characters |
| ProgressBar.DayBarAtMidnightAsWritten | src/lib/renderer.ts:74-84 | as written, the DAY bar at hour 0 (ELAPSED) has progress −1 of 24, head −3, a bar of sixty '░' with no head, and prints "-4"; REMAINING shows 25 of 24 |
| ProgressBar.DayLineWidth | src/lib/renderer.ts:74-198 | the DAY line as drawn is 87 characters at every hour 0..23, hour 0 (percent "-4") included |
| ProgressBar.DayBarInRange | src/lib/renderer.ts:216 | with DAY zero-based every hour gives progress in [0, 24], a head on the bar (cell 0 at midnight), a shown value in 0..24, and an 87-character corrected line |
| LifeMonitor.SeedDrafts | src/hooks/useLifeMonitorState.ts:96-104 | drafts become the stored date's fields and expectancy; nothing else changes |
| LifeMonitor.TogglePerspective | src/hooks/useLifeMonitorState.ts:76-81 | the perspective flips and no other field changes |
| LifeMonitor.SetUserData | src/hooks/useLifeMonitorState.ts:83-91 | stores the date and max(10, min(le, 999)) (each clamp case), leaves editing, configured afterwards, nothing else changes |
| LifeMonitor.SetIsEditing | src/hooks/useLifeMonitorState.ts:93-108 | entering with a configuration reseeds the drafts; otherwise only the flag changes |
| LifeMonitor.SetActiveField | src/hooks/useLifeMonitorState.ts:110-112 | only the focus changes |
| LifeMonitor.HandleConfirm | src/hooks/useLifeMonitorState.ts:114-119 | stores the draft date and the clamped expectancy, leaves editing, drafts, focus and perspective untouched |
| LifeMonitor.HandleCancel | src/hooks/useLifeMonitorState.ts:121-133 | leaves editing; drafts reseeded from the configuration exactly when one exists; configuration kept |
| LifeMonitor.WithFocused | src/hooks/useLifeMonitorState.ts:144-157 | the switch on the focused field writes that field |
| LifeMonitor.Backspace | src/hooks/useLifeMonitorState.ts:140-161 | the focused field becomes floor(v/10); every other field, focus included, unchanged |
| LifeMonitor.TypeDigit | src/hooks/useLifeMonitorState.ts:163-199 | the focused field becomes field·10 + digit whenever that stays ≤ its maximum (9999, 12, days in month, 999), zero and negative values included, except that a 0 result in month, day or expectancy is bumped to 1; above the maximum it restarts at the digit (1 for 0 except the year); others unchanged |
| LifeMonitor.Adjust | src/hooks/useLifeMonitorState.ts:213-242 | year ±1 unbounded; month, day and expectancy move by the amount when the result stays in [1, 12], [1, days in month], [10, 999], and otherwise wrap (past the top to 1, 1 or 10; below the bottom to 12, the days in the month or 999); others unchanged |
| LifeMonitor.FieldIndex | src/hooks/useLifeMonitorState.ts:210-211 | the field order index is in 0..3 |
| LifeMonitor.FieldAt | src/hooks/useLifeMonitorState.ts:210 | the inverse of the field order |
| LifeMonitor.FocusNext | src/hooks/useLifeMonitorState.ts:245-249 | focus moves to index+1 mod 4; nothing else changes |
| LifeMonitor.FocusPrev | src/hooks/useLifeMonitorState.ts:250-253 | focus moves to index−1+4 mod 4; nothing else changes |
| LifeMonitor.HandleKeyDown | src/hooks/useLifeMonitorState.ts:136-263 | no effect when not editing; each key dispatches to its transition; while editing, any other key ("x", "Shift") leaves the state unchanged; perspective never changes |
| LifeMonitor.InitialStateShape | src/hooks/useLifeMonitorState.ts:23-34 | ELAPSED, unconfigured, drafts 1990/1/1 and 80, focus on the year |
| LifeMonitor.ToggleInvolution | src/hooks/useLifeMonitorState.ts:76-81 | toggling twice restores the record |
| LifeMonitor.BackspaceUndoesDigit | src/hooks/useLifeMonitorState.ts:140-199 | Backspace undoes a digit that was appended without overflow |
| LifeMonitor.AdjustRoundTrip | src/hooks/useLifeMonitorState.ts:213-260 | Up then Down, and Down then Up, restore an in-range field |
| LifeMonitor.SmallExpectancyWrapsUp | src/hooks/useLifeMonitorState.ts:234-236 | an expectancy below 9 jumps to 999 on ArrowUp (5+1 gives 999) |
| LifeMonitor.FocusCycle | src/hooks/useLifeMonitorState.ts:244-253 | Right then Left and Left then Right restore focus; four Rights are the identity |
| LifeMonitor.ConfirmThenEditRoundTrip | src/hooks/useLifeMonitorState.ts:93-119 | for a valid draft date outside years 0..99 (`StoredAsDrafted`), confirming and reopening gives back the same drafts |
| LifeMonitor.CancelAfterConfirm | src/hooks/useLifeMonitorState.ts:114-133 | for such a draft, cancel right after confirm changes nothing |
| LifeMonitor.KeyPreservesRanges | src/hooks/useLifeMonitorState.ts:139-263 | every key keeps month 0..12, day 0..31 and expectancy 0..999 |
| LifeMonitor.DigitPreservesRanges | src/hooks/useLifeMonitorState.ts:163-199 | digit entry keeps those ranges |
| LifeMonitor.EditsPreserveRanges | src/hooks/useLifeMonitorState.ts:140-262 | Backspace, confirm, cancel, focus moves and adjusts keep those ranges |
| LifeMonitor.OtherActionsPreserveRanges | src/hooks/useLifeMonitorState.ts:23-108 | the initial state, the edit flag and the perspective toggle keep those ranges |
| Overlay.CenteredLine | src/lib/overlay.ts:45-50 | a centred line is 60 characters |
| Overlay.ContentLine | src/lib/overlay.ts:53-55 | a content line is 60 characters, or \|text\|+2 when the text is longer than 58 |
| Overlay.Border | src/lib/overlay.ts:139-148 | a border row is 60 characters |
| Overlay.CenteredLineShape | src/lib/overlay.ts:45-50 | the text follows floor(padding/2) spaces, spaces on both sides, borders at the ends |
| Overlay.ContentLineShape | src/lib/overlay.ts:53-55 | the text follows the left border, then spaces to the right border |
| Overlay.BorderShape | src/lib/overlay.ts:139 | corner, fill, corner |
| Overlay.OverlayContentOf | src/lib/overlay.ts:38-172 | four field rects; the up and down buttons exist together, named as such, on one row, down six columns right of up |
| Overlay.GetOverlayContent | src/lib/overlay.ts:38-172 | getOverlayContent returns the rows, fields and rects of `OverlayContentOf` |
| Overlay.PushFields | src/lib/overlay.ts:71-82 | four field rects pushed in the order year, month, day, expectancy |
| Overlay.InstructionButtons | src/lib/overlay.ts:150-169 | the confirm and cancel rects from the instructions row's padding |
| Overlay.AddAdjustButtons | src/lib/overlay.ts:84-131 | the focused row gets the button suffix; the up/down rects exist iff buttonX > 0 |
| Overlay.PushRows | src/lib/overlay.ts:138-148 | the ten panel rows pushed top to bottom |
| Overlay.ContentSpan | src/lib/overlay.ts:53-55 | a piece of a content row's text sits one column right of its offset |
| Overlay.FieldRectsCoverText | src/lib/overlay.ts:71-84 | four rects in order, one row high, on rows 4 and 6; each covers exactly its field's display text |
| Overlay.FieldSpans | src/lib/overlay.ts:71-88 | the same for any labels and displays |
| Overlay.DateSpans | src/lib/overlay.ts:71-77 | the three date rects cover the year, month and day in row 4 |
| Overlay.SpanAt | src/lib/overlay.ts:53-55 | a rect at the offset of b in a content row a+b+c covers b |
| Overlay.AdjustButtonsCoverText | src/lib/overlay.ts:86-131 | the buttons exist iff overlayX + L > 0; they are 5×1 on the focused row (4 or 6), at L+3 and L+9, and cover "[ ▲ ]" and "[ ▼ ]" |
| Overlay.FocusedRowText | src/lib/overlay.ts:99-109 | the focused row holds the active text followed by the suffix |
| Overlay.ButtonSpans | src/lib/overlay.ts:115-129 | in a row ending "  up down", the rects at +3 and +9 cover up and down |
| Overlay.OnlyFocusedRowHasButtons | src/lib/overlay.ts:87-109 | only the focused row carries the suffix |
| Overlay.ConfirmCancelRects | src/lib/overlay.ts:133-169 | the confirm and cancel rects have the columns and widths of their texts in row 8, but their row is 9, the bottom border, which holds only '─' there |
| Overlay.PanelBottom | src/lib/overlay.ts:147-148 | rows 8 and 9 are the instructions and the bottom border |
| Overlay.InstructionCovers | src/lib/overlay.ts:150-169 | where the two button texts sit in row 8, and what row 9 holds under them |
| Overlay.InstructionSpans | src/lib/overlay.ts:136-153 | the positions of the two button texts in the centred instructions line |
| Overlay.DisplayLengths | src/lib/overlay.ts:58-69 | display widths for years 0..9999: year 4 (6 focused), month and day 2 (4), expectancy ≤ 5 |
| Overlay.OverlayIsTenBySixty | src/lib/overlay.ts:139-148 | for drafts with month and day of at most two digits, an expectancy ≤ 999 and a year text of at most 11 characters (`FitsPanel`, which holds for years the arrows push below 0 or above 9999) the panel is 10 rows of 60 |
| Overlay.YearTextFits | src/hooks/useLifeMonitorState.ts:217-219 | every year from −9999999999 to 99999999999, −1 and 10000 included, has a text of at most 11 characters |
| Overlay.FrameFieldRows | src/lib/overlay.ts:138-148 | the frame has 10 rows, row 4 the birth-date content and row 6 the expectancy content |
| Overlay.FrameWidth | src/lib/overlay.ts:139-148 | content rows that fit give 10 rows of 60 |
| Overlay.FieldDisplays | src/lib/overlay.ts:58-69 | for years 0..9999: 4-digit and 2-digit zero-padded fields reading back as their values, bracketed exactly when focused; the expectancy is 2 wider than its digits either way |
| Overlay.Unwrapped | src/lib/overlay.ts:69 | the value between the brackets or spaces |
| TimeMath.CalculateDerivedData | src/lib/time.ts:36-105 | unconfigured: no end date, every counter 0, totals 3600 and 1440; configured: months = years·12+months, expectancy in months = le·12; for a valid instant each counter lies in its scale and decodes back to its fields; totalDaysInYear = DaysInYear(year) and dayOfYear = DayOfYear(year, month, date) |
| TimeMath.FormatDuration | src/lib/time.ts:107-114 | "{y}y {m}m {d}d", followed by the clock part exactly when withTime |
| TimeMath.DatePartReadsBack | src/lib/time.ts:109 | the date part is the years' text, "y ", the months' text, "m ", the days' text and 'd', each text reading back as its count (missing read as 0) |
| TimeMath.DatePartLayout | src/lib/time.ts:109 | where each of the three numbers and unit markers sits in the date part |
| TimeMath.DatePartStartsWith | src/lib/time.ts:109 | the date part starts with the years' text and "y " |
| TimeMath.TimePartShape | src/lib/time.ts:111 | the clock part is 13 characters, " HH:MM:SS.mmm", each field reading back as its component |
| TimeMath.ClockLayout | src/lib/time.ts:111 | positions of the four fields in the clock part |
| TimeTicker.NextTimeState | src/hooks/useTimeState.ts:28-63 | the new instant; only running or freshly changed entries, none null; the flash map is MINUTE only, true iff the second changed |
| TimeTicker.Tick | src/hooks/useTimeState.ts:28-63 | the two loops build `NextTimeState`: now replaced, animations advanced and started, flash rebuilt |
| TimeTicker.StartedAt | src/hooks/useTimeState.ts:51-55 | a key is present after the change loop iff it was, or it changed; changed keys get a fresh frame-1 entry |
| TimeTicker.NextAt | src/hooks/useTimeState.ts:33-55 | the next map key by key: running or freshly changed entries only |
| TimeTicker.EntryAdvances | src/hooks/useTimeState.ts:34-39 | a running entry without a change reappears at frame+1 with its type |
| TimeTicker.EntryExpires | src/hooks/useTimeState.ts:36 | null entries and entries at frame ≥ 5 are dropped unless their bar changes |
| TimeTicker.ChangeStartsAnimation | src/hooks/useTimeState.ts:43-55 | HOUR, DAY, MONTH, YEAR and LIFE get a fresh frame-1 entry iff their field changed, overwriting a running one |
| TimeTicker.KindFollowsPerspective | src/hooks/useTimeState.ts:42 | grow under ELAPSED, shrink under REMAINING |
| TimeTicker.LifeNeedsBirthDate | src/hooks/useTimeState.ts:48 | no LIFE entry starts without a birth date |
| TimeTicker.NoOtherKeys | src/hooks/useTimeState.ts:43-55 | no key besides the five watched bars and running ones appears |
| TimeTicker.FlashOnlyForSecondChange | src/hooks/useTimeState.ts:58-62 | the flash map has only MINUTE, true iff the seconds differ |
| TimeTicker.FramesStayInRange | src/hooks/useTimeState.ts:36-53 | from non-negative frames, every entry afterwards is present with a frame in 1..5 |
| TimeTicker.EntryLifetime | src/hooks/useTimeState.ts:17-39 | without changes an entry at frame f is at f+j after j ticks while f+j ≤ 5 and gone after: drawn on five ticks, cleared on the sixth |
| TimeTicker.StaysAbsent | src/hooks/useTimeState.ts:33-55 | a bar without an entry stays without one while its field does not change |
| AsciiClock.Glyph | src/components/AsciiClock.tsx:3-16 | the DIGITS table: entries exactly for digits, ':' and ' ', each 5 rows of 3 characters |
| AsciiClock.GlyphsDistinct | src/components/AsciiClock.tsx:3-16 | different characters have different glyphs |
| AsciiClock.GetAsciiClockStringArray | src/components/AsciiClock.tsx:49-69 | five rows, row i the picture row of the time text |
| AsciiClock.DrawText | src/components/AsciiClock.tsx:52-68 | the nested loops give five rows; characters without a glyph add nothing |
| AsciiClock.GlyphColumns | src/components/AsciiClock.tsx:54-66 | a drawable text's rows are 4·\|text\| wide, glyph j at columns 4j..4j+2, a space at 4j+3 |
| AsciiClock.TimeTextShape | src/components/AsciiClock.tsx:50 | "HH:MM:SS": eight characters, colons at 2 and 5, fields reading back as the clock fields |
| AsciiClock.TimeLayout | src/components/AsciiClock.tsx:50 | positions of the three fields |
| AsciiClock.ClockRowsShape | src/components/AsciiClock.tsx:54-66 | for a valid instant each row is 32 characters; the colon cells show the colon glyph on even seconds and blanks on odd |
| AsciiClock.ClockPicture | src/components/AsciiClock.tsx:56-60 | the same for any "DD:DD:DD" text |
| Calendar.DaysInMonth | src/hooks/useLifeMonitorState.ts:182 | new Date(y, m, 0).getDate() under the Gregorian rule: 28..31 |
| Calendar.DaysInMonthZero | src/hooks/useLifeMonitorState.ts:227 | month 0 (reachable by Backspace) reads as the December before: 31 days |
| Calendar.DaysInMonthShift | src/lib/renderer.ts:209 | month numbers roll into neighbouring years twelve at a time |
| Calendar.FebruaryLength | src/lib/time.ts:82 | February has 29 days exactly in leap years |
| Calendar.DaysInYear | src/lib/time.ts:73 | 365 or 366 days |
| Calendar.DaysBefore | src/lib/time.ts:72 | the days before month m are between 28(m−1) and 31(m−1) |
| Calendar.MonthsFillYear | src/lib/time.ts:72-73 | the twelve months add up to the year |
| Calendar.DayOfYearBounds | src/lib/time.ts:72-73 | the day of the year of a valid date lies in 1..days in year |
| JsText.Repeat | src/lib/overlay.ts:49 | `c.repeat(n)`: n copies of c |
| JsText.PadStart | src/lib/renderer.ts:119 | padStart's length: the text's length, or n when the text is shorter |
| JsText.PadEnd | src/lib/overlay.ts:54 | padEnd's length: the text's length, or n when the text is shorter |
| JsText.SubstringFrom | src/lib/renderer.ts:13 | substring(a) with a clamped: the suffix from a, all of it for a ≤ 0, empty past the end |
| JsText.NatToString | src/lib/renderer.ts:113 | String(n) of a natural number: at least one character, all decimal digits |
| JsText.IntToString | src/lib/time.ts:109 | String(i): the digits of i when i ≥ 0, otherwise '-' followed by the digits of −i |
| JsText.IntToStringReadsBack | src/lib/time.ts:109 | String(i) reads back as i, or after its minus sign as −i |
| JsText.NatToStringReadsAs | src/lib/renderer.ts:113 | String(n) of a natural number is digits reading back as n |
| JsText.UpperAscii | src/lib/renderer.ts:118 | toUpperCase on the labels: same length, each character as `UpperChar` maps it |
| JsText.UpperChar | src/lib/renderer.ts:118 | each of a..z becomes its own capital (code − 32); other characters are kept |
| JsText.ZeroPadRoundTrip | src/lib/overlay.ts:58-60 | a zero-padded number is all digits and reads back as the number |
| JsText.PadStartShape | src/lib/overlay.ts:58-60 | padStart puts the filler first, then the text |
| JsText.PadEndShape | src/lib/overlay.ts:54 | padEnd puts the text first, then the filler |
| JsText.Substring | src/lib/renderer.ts:13 | substring with both ends clamped gives the slice for in-range ends |
| JsText.NatToStringRoundTrip | src/lib/time.ts:109 | String(n) reads back as n |
| JsText.ZeroPadField | src/lib/overlay.ts:58-60 | a number below 10^w zero-padded to w is w digits reading back as itself |
| JsText.DigitCount | src/lib/overlay.ts:61 | the digit count of numbers up to four digits |

## Left out

- Persistence: loading the saved configuration from `localStorage` on mount (and entering edit mode when none is saved or storage fails), and saving it on change. This is I/O.
- React wiring: `useState`, `useEffect`, `useCallback`, the `window` keydown listener and the 100 ms `setInterval` timer. Only the transition bodies are modelled. That the listener exists only while editing is modelled by `HandleKeyDown` leaving the state alone when not editing.
- `LifeClock.tsx` (mouse hits, pixel-to-cell conversion, positioned buttons). It is not part of this model. Its placement of the setup panel (column 14, row 8) enters only as the preconditions of the on-screen panel lemmas.
- The JSX `AsciiClock` component, which repeats `getAsciiClockStringArray`.
- The date library and `Date`:
  - `addYears`, `intervalToDuration` and `differenceInSeconds` arrive as the `DateFacts` parameter.
  - `getDayOfYear`, `getDaysInYear` and `getDaysInMonth` are the `Calendar` functions.
  - `toTimeString` is read as the local clock fields of the `Instant`.
  - The weekday is an input of the `Instant`. It is not derived from the date.
- LifeMonitor.HandleConfirm: stores the draft fields as the date unchanged. `Date.UTC` is not modelled: neither its roll-over of an out-of-range month or day (month 0, day 31 of a 30-day month) nor its mapping of years 0..99 to 1900..1999.
- LifeMonitor.ConfirmThenEditRoundTrip and LifeMonitor.CancelAfterConfirm: stated only for drafts that `Date.UTC` keeps as they are (`StoredAsDrafted`: a valid date outside years 0..99). Other drafts are read back rolled over or shifted by 1900 years.
- Calendar.DaysInMonth: does not model JavaScript's mapping of years 0..99 to 1900..1999 inside `new Date(y, m, 0)`. It applies the Gregorian rule to the year as given.
- Renderer.IsoDate: `toISOString` throws a RangeError for a date outside its range; that error is not modelled.
- ProgressBar.FloorScaled: the `1e-9` epsilon and floating-point division are replaced by the exact integer head formula. The two agree except where floating-point error moves p/d·(W − 1e-9) across an integer.
- ProgressBar.RoundDiv: `Math.round` and `toFixed(0)` on doubles are modelled as exact rounding with halves up. Ties that a double represents slightly below the half may print one less in the source.
- ProgressBar.DayBarInRange: the corrected DAY rule is proved about `CorrectedProgressLine` only. The screen (`TimeBarLines`, `Bars`, `Screen`, `Render`) draws the program's rule, as written.
- ProgressBar.ShrinkCells: with a zero denominator the source computes infinite or NaN positions, and no write lands on a cell. The model returns the static cells, which is the same picture.
- ProgressBar.FillBar: writes at an index outside 0..W−1 are skipped. In the source a negative index sets a property that `join` ignores, and a large index extends the array past the part the final `slice(0, W)` keeps.
- Renderer.DrawProgressBars: the bar line width (87) is proved under `Displayable` (a valid instant, an expectancy of 2..999 and elapsed years within it). Outside those ranges the lines are modelled but their width is not stated.
- Overlay.OverlayIsTenBySixty: years whose text is longer than 11 characters (below −9999999999 or above 99999999999) give a birth-date row wider than the panel; the width is not stated for them.
- `writeToBuffer` does not clip: an overrunning write lengthens the row (`SpliceOverrun`). This follows the code; a clipping write was not modelled.
- The comment on the assembled bar line (renderer.ts:197) says 86 characters. The line is 18 + 1 + 62 + 6 = 87 (`ProgressLineShape` with W = 60), which fills the 87 interior columns exactly.

## Findings

| source | as written | input that shows it | evidently intended | confidence | as-written member | corrected member |
|---|---|---|---|---|---|---|
| src/lib/renderer.ts:74 | `isOneBased` is true for the `DAY` label. That bar's value is the 0-based hour (renderer.ts:216), so its progress is hour−1. | Hour 0 under ELAPSED gives progress −1 of 24, a head at cell −3 (no head drawn) and "-4%". Under REMAINING it shows 25 of 24 hours. | Only the MONTH bar (day of month) counts from 1. The DAY bar maps hour h to h/24, with its head on cell 0 at midnight. | not executed | ProgressBar.DayBarAtMidnightAsWritten | ProgressBar.DayBarInRange |

The screen functions draw the rule as written. The corrected rule is `IsOneBased` and `CorrectedProgressLine`. `ProgressLine`'s contract says the two lines differ only on the DAY bar.
