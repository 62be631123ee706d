/** One progress-bar line of the dashboard (renderer.ts,
    `renderProgressBar`): a right-aligned label block, a bar of cells between
    two '|' and a percentage. The position of the bar head is computed
    exactly on integers; the animated cells of the grow and shrink
    transitions are written into an array, as the source does. */
module ProgressBar {
  import opened JsText
  import opened LifeMonitor
  import opened TimeTicker

  /** Width of the right-aligned label block. */
  const LabelAreaWidth := 18

  /** The number shown in the barLabel, and the fraction progress / denominator
      the bar and the percentage show. */
  datatype BarNumbers = BarNumbers(displayValue: int, progressValue: int, denominator: int)

  /** The labels whose value counts from 1, as the renderer decides it: both
      the DAY bar (whose value is the 0-based hour) and the MONTH bar (whose
      value is the 1-based day of the month). */
  predicate IsOneBasedAsWritten(barLabel: string) {
    barLabel == "DAY" || barLabel == "MONTH"
  }

  /** The labels whose value evidently counts from 1: only the MONTH bar,
      since the DAY bar's value is the 0-based hour. */
  predicate IsOneBased(barLabel: string) {
    barLabel == "MONTH"
  }

  /** The two rules agree on every label but DAY. */
  lemma OneBasedLabels(barLabel: string)
    ensures IsOneBasedAsWritten(barLabel) <==> IsOneBased(barLabel) || barLabel == "DAY"
    ensures IsOneBased(barLabel) ==> barLabel == "MONTH" && IsOneBasedAsWritten(barLabel)
  {
  }

  /** The numerator, denominator and shown value for each kind of bar: the
      second bar maps 0..59 to 1..60, a one-based value v is v-1 units in,
      and the REMAINING perspective counts what is left. */
  function Numbers(oneBased: bool, value: int, total: int, isSecondBar: bool, perspective: Perspective): (n: BarNumbers)
    ensures n.denominator == if isSecondBar then total - 1 else total
  {
    var denominator := if isSecondBar then total - 1 else total;
    match perspective
    case Elapsed =>
      if isSecondBar then
        var effectiveValue := if value == 0 then total else value;
        BarNumbers(effectiveValue, effectiveValue - 1, denominator)
      else if oneBased then BarNumbers(value, value - 1, denominator)
      else BarNumbers(value, value, denominator)
    case Remaining =>
      if isSecondBar then BarNumbers(total - value, value, denominator)
      else if oneBased then BarNumbers(total - (value - 1), total - value, denominator)
      else BarNumbers(total - value, total - value, denominator)
  }

  /** The values a bar accepts: 0..59 of a 60-second minute for the second
      bar, 1..total for a one-based bar, 0..total otherwise. */
  predicate InScale(oneBased: bool, value: int, total: int, isSecondBar: bool) {
    if isSecondBar then 0 <= value < total else if oneBased then 1 <= value <= total else 0 <= value <= total
  }

  /** A value inside its scale gives a fraction between 0 and 1 and a shown
      value between 0 and the total; the second bar and a one-based bar
      never show 0. */
  lemma NumbersInRange(oneBased: bool, value: int, total: int, isSecondBar: bool, perspective: Perspective)
    requires total >= 2 && InScale(oneBased, value, total, isSecondBar)
    ensures var n := Numbers(oneBased, value, total, isSecondBar, perspective);
      && n.denominator > 0
      && 0 <= n.progressValue <= n.denominator
      && 0 <= n.displayValue <= total
      && (isSecondBar || oneBased ==> 1 <= n.displayValue)
  {
  }

  /** The two perspectives of a bar that is not the second bar are
      complementary: what the ELAPSED bar has filled and what the REMAINING
      bar has filled add up to the whole scale (one unit less for a one-based
      value, whose current unit is counted by neither), and the two shown
      values add up to the total (one more for a one-based value, whose
      current unit is counted by both). */
  lemma PerspectivesComplement(oneBased: bool, value: int, total: int)
    ensures var e := Numbers(oneBased, value, total, false, Elapsed);
      var r := Numbers(oneBased, value, total, false, Remaining);
      && e.progressValue + r.progressValue == (if oneBased then total - 1 else total)
      && e.displayValue + r.displayValue == (if oneBased then total + 1 else total)
  {
  }

  /** floor(p / d * (w - eps)) for a vanishing eps > 0 and d > 0: the last
      cell strictly before p/d of the way along w cells when p > 0, and
      floor(p * w / d) otherwise. */
  function FloorScaled(p: int, d: int, w: int): (h: int)
    requires d > 0
    ensures p > 0 ==> h * d < p * w <= (h + 1) * d
    ensures p <= 0 ==> h * d <= p * w < (h + 1) * d
  {
    var a := if p > 0 then p * w - 1 else p * w;
    var h := a / d;
    assert h * d + a % d == a && 0 <= a % d < d;
    h
  }

  /** `Math.floor(percentage * (w - 1e-9))`, where the percentage is 0 when
      the denominator is not positive. */
  function HeadPos(p: int, d: int, w: int): int {
    if d > 0 then FloorScaled(p, d, w) else 0
  }

  /** A fraction between 0 and 1 puts the head on a cell of the bar: the
      first cell at 0 and the last cell when complete. */
  lemma HeadInBar(p: int, d: int, w: int)
    requires d > 0 && w >= 1 && 0 <= p <= d
    ensures 0 <= HeadPos(p, d, w) < w
    ensures p == 0 ==> HeadPos(p, d, w) == 0
    ensures p == d ==> HeadPos(p, d, w) == w - 1
  {
    var h := HeadPos(p, d, w);
    if p > 0 {
      MulLe(p, d, w);
      MulLtCancel(h, w, d);
      MulLe(1, p, w);
      MulLtCancel(0, h + 1, d);
      if p == d {
        MulLtCancel(w - 1, h + 1, d);
      }
    }
  }

  /** More progress never moves the head back (on a bar of at least one
      cell). */
  lemma HeadMonotone(p: int, q: int, d: int, w: int)
    requires d > 0 && w >= 1 && p <= q
    ensures HeadPos(p, d, w) <= HeadPos(q, d, w)
  {
    var hp, hq := HeadPos(p, d, w), HeadPos(q, d, w);
    MulLe(p, q, w);
    if p <= 0 < q {
      MulLe(p, 0, w);
      MulLe(1, q, w);
      assert hp * d <= 0 < q * w <= (hq + 1) * d;
    } else if p > 0 {
      assert hp * d < p * w <= q * w <= (hq + 1) * d;
    } else {
      assert hp * d <= p * w <= q * w < (hq + 1) * d;
    }
    MulLtCancel(hp, hq + 1, d);
  }

  lemma MulLe(a: int, b: int, c: int)
    requires a <= b && 0 <= c
    ensures a * c <= b * c
  {
  }

  lemma MulLtCancel(a: int, b: int, c: int)
    requires 0 < c && a * c < b * c
    ensures a < b
  {
  }

  lemma MulLeCancel(a: int, b: int, c: int)
    requires 0 < c && a * c <= b * c
    ensures a <= b
  {
  }

  /** Cell i of the bar before any animation: for ELAPSED the cells before
      the head are filled and the head is drawn; for REMAINING the same
      picture mirrored, filled from the right. */
  function StaticCell(perspective: Perspective, h: int, w: int, i: int): char {
    match perspective
    case Elapsed => if i < h then '▓' else if i == h then '█' else '░'
    case Remaining => if i >= w - h then '▓' else if i == w - h - 1 then '█' else '░'
  }

  /** The REMAINING bar is the ELAPSED bar read from right to left. */
  lemma RemainingMirrorsElapsed(h: int, w: int, i: int)
    ensures StaticCell(Remaining, h, w, i) == StaticCell(Elapsed, h, w, w - 1 - i)
  {
  }

  /** For a head on the bar, exactly h cells are filled and one cell is the
      head: the filled part of ELAPSED is the prefix before the head. */
  lemma StaticCellsCount(h: int, w: int, i: int)
    requires 0 <= h < w && 0 <= i < w
    ensures StaticCell(Elapsed, h, w, i) == '▓' <==> i < h
    ensures StaticCell(Elapsed, h, w, i) == '█' <==> i == h
    ensures StaticCell(Remaining, h, w, i) == '▓' <==> w - h <= i
    ensures StaticCell(Remaining, h, w, i) == '█' <==> i == w - h - 1
  {
  }

  function StaticBar(perspective: Perspective, h: int, w: nat): (r: seq<char>)
    ensures |r| == w
    ensures forall i :: 0 <= i < w ==> r[i] == StaticCell(perspective, h, w, i)
  {
    seq(w, i => StaticCell(perspective, h, w, i))
  }

  /** `Math.round(x / f)` for f > 0 (halves round up). */
  function RoundDiv(x: int, f: int): (r: int)
    requires f > 0
    ensures 2 * r * f - f <= 2 * x < 2 * r * f + f
  {
    var q := (2 * x + f) / (2 * f);
    assert q * (2 * f) + (2 * x + f) % (2 * f) == 2 * x + f;
    q
  }

  /** Rounding x / f for x between 0 and m * f stays between 0 and m and
      is exact at both ends. */
  lemma RoundDivBetween(x: int, f: int, m: int)
    requires f > 0 && 0 <= x <= m * f
    ensures 0 <= RoundDiv(x, f) <= m
    ensures x == 0 ==> RoundDiv(x, f) == 0
    ensures x == m * f ==> RoundDiv(x, f) == m
  {
    var r := RoundDiv(x, f);
    assert (2 * r + 1) * f == 2 * r * f + f;
    assert (2 * r - 1) * f == 2 * r * f - f;
    assert (2 * m) * f == 2 * (m * f);
    MulLtCancel(0, 2 * r + 1, f);
    MulLeCancel(2 * r - 1, 2 * m, f);
    if x == 0 {
      MulLeCancel(2 * r - 1, 0, f);
    }
    if x == m * f {
      MulLtCancel(2 * m, 2 * r + 1, f);
    }
  }

  /** An assignment `cells[i] = c` as it shows in the visible cells: an
      index outside 0..|cells|-1 changes none of them. */
  function Put(cells: seq<char>, i: int, c: char): (r: seq<char>)
    ensures |r| == |cells|
    ensures forall k :: 0 <= k < |cells| ==> r[k] == if k == i then c else cells[k]
  {
    if 0 <= i < |cells| then cells[i := c] else cells
  }

  /** The cell the grow animation draws at `frame`: it starts near the end
      of the bar and lands on the head at the last frame. */
  function GrowPos(h: int, w: int, frame: int): int {
    h + RoundDiv((w - 1 - h) * (AnimationFrames - frame), AnimationFrames)
  }

  function GrowCells(cells: seq<char>, h: int, frame: int): seq<char> {
    Put(Put(cells, h, '▓'), GrowPos(h, |cells|, frame), '█')
  }

  /** The head of the REMAINING bar one unit before, and the cell the shrink
      animation draws at `frame`: it starts on that old head and slides to
      the first cell at the last frame. */
  function PrevHead(p: int, d: int, w: int): int
    requires d != 0
  {
    var prevFilled := if d > 0 then FloorScaled(p + 1, d, w) else FloorScaled(-(p + 1), -d, w);
    w - prevFilled - 1
  }

  function ShrinkPos(prevHead: int, frame: int): int {
    prevHead - RoundDiv(prevHead * frame, AnimationFrames)
  }

  /** With a zero denominator the old head is at an infinite or undefined
      position, and neither write lands on a visible cell. */
  function ShrinkCells(cells: seq<char>, p: int, d: int, frame: int): (r: seq<char>)
    ensures |r| == |cells|
    ensures d == 0 ==> r == cells
  {
    if d == 0 then cells
    else
      var prevHead := PrevHead(p, d, |cells|);
      Put(Put(cells, prevHead, '░'), ShrinkPos(prevHead, frame), '█')
  }

  /** The visible cells of a bar that is not the second bar. */
  function BarCells(perspective: Perspective, h: int, w: nat, animation: Option<AnimationInfo>, p: int, d: int): (r: seq<char>)
    ensures |r| == w
  {
    var base := StaticBar(perspective, h, w);
    if animation.Some? && animation.value.frame > 0 then
      if animation.value.kind == Grow && perspective == Elapsed then GrowCells(base, h, animation.value.frame)
      else if animation.value.kind == Shrink && perspective == Remaining then ShrinkCells(base, p, d, animation.value.frame)
      else base
    else base
  }

  /** The bar cells as the renderer fills them: an array of empty cells, the
      static picture, then the animation frame. Writes at an index outside
      the array are left out, because in the source they land on no visible
      cell (a negative index, or one the final slice cuts off). */
  method FillBar(perspective: Perspective, headPos: int, w: nat, animation: Option<AnimationInfo>,
                 progressValue: int, denominator: int) returns (cells: seq<char>)
    ensures cells == BarCells(perspective, headPos, w, animation, progressValue, denominator)
  {
    var barChars := new char[w](_ => '░');
    if perspective == Remaining {
      var emptyPartLength := w - headPos;
      var i := emptyPartLength;
      while i < w
        invariant emptyPartLength <= i
        invariant forall k :: 0 <= k < w ==> barChars[k] == if emptyPartLength <= k < i then '▓' else '░'
        decreases w - i
      {
        if 0 <= i {
          barChars[i] := '▓';
        }
        i := i + 1;
      }
      if 0 <= emptyPartLength - 1 < w {
        barChars[emptyPartLength - 1] := '█';
      }
    } else {
      var i := 0;
      while i < headPos
        invariant 0 <= i && (i <= headPos || i == 0)
        invariant forall k :: 0 <= k < w ==> barChars[k] == if k < i then '▓' else '░'
      {
        if i < w {
          barChars[i] := '▓';
        }
        i := i + 1;
      }
      if 0 <= headPos < w {
        barChars[headPos] := '█';
      }
    }
    forall k | 0 <= k < w
      ensures barChars[k] == StaticCell(perspective, headPos, w, k)
    {
    }
    assert barChars[..] == StaticBar(perspective, headPos, w);
    if animation.Some? && animation.value.frame > 0 {
      var frame := animation.value.frame;
      if animation.value.kind == Grow && perspective == Elapsed {
        var animCharPos := GrowPos(headPos, w, frame);
        if 0 <= headPos < w {
          barChars[headPos] := '▓';
        }
        if 0 <= animCharPos < w {
          barChars[animCharPos] := '█';
        }
      } else if animation.value.kind == Shrink && perspective == Remaining && denominator != 0 {
        var prevHeadCharPos := PrevHead(progressValue, denominator, w);
        var animCharPos := ShrinkPos(prevHeadCharPos, frame);
        if 0 <= prevHeadCharPos < w {
          barChars[prevHeadCharPos] := '░';
        }
        if 0 <= animCharPos < w {
          barChars[animCharPos] := '█';
        }
      }
    }
    cells := barChars[..];
  }

  /** During the grow animation the moving head runs from near the end of
      the bar (frame 1) back to the real head (the last frame), never before
      it; the cells up to the head are filled and the rest empty. */
  lemma GrowFrame(h: int, w: nat, frame: int)
    requires 0 <= h < w && 1 <= frame <= AnimationFrames
    ensures var pos := GrowPos(h, w, frame);
      && h <= pos < w
      && (frame == AnimationFrames ==> pos == h)
      && forall i :: 0 <= i < w ==>
           GrowCells(StaticBar(Elapsed, h, w), h, frame)[i] == if i == pos then '█' else if i <= h then '▓' else '░'
  {
    var x := (w - 1 - h) * (AnimationFrames - frame);
    MulLe(0, w - 1 - h, AnimationFrames - frame);
    MulLe(AnimationFrames - frame, AnimationFrames, w - 1 - h);
    RoundDivBetween(x, AnimationFrames, w - 1 - h);
  }

  /** During the shrink animation of a REMAINING bar whose fraction
      (p + 1) / d was inside 0..1, the old head is a cell of the bar, the
      moving head lies between the first cell and the old head, it starts
      on the old head's side and reaches the first cell at the last frame;
      the drawn cells are the static REMAINING bar with the old head erased
      and the moving head drawn over it. */
  lemma ShrinkFrame(p: int, d: int, h: int, w: nat, frame: int)
    requires d > 0 && w >= 1 && 0 <= p + 1 <= d && 1 <= frame <= AnimationFrames
    ensures var prevHead := PrevHead(p, d, w);
      var pos := ShrinkPos(prevHead, frame);
      && 0 <= prevHead < w
      && 0 <= pos <= prevHead
      && (frame == AnimationFrames ==> pos == 0)
      && forall i :: 0 <= i < w ==>
           ShrinkCells(StaticBar(Remaining, h, w), p, d, frame)[i]
             == if i == pos then '█' else if i == prevHead then '░' else StaticCell(Remaining, h, w, i)
  {
    HeadInBar(p + 1, d, w);
    var prevHead := PrevHead(p, d, w);
    MulLe(0, frame, prevHead);
    MulLe(frame, AnimationFrames, prevHead);
    RoundDivBetween(prevHead * frame, AnimationFrames, prevHead);
  }

  /** The second bar: '=' cells with the head marked, an arrow at the
      start for ELAPSED and at the end for REMAINING. */
  function SecondBarContent(perspective: Perspective, h: int, w: nat, flash: bool): string {
    var headChar := if flash then '▓' else '█';
    var bar := Repeat('=', w);
    match perspective
    case Remaining =>
      var inv := w - 1 - h;
      DropLast(Substring(bar, 0, inv) + [headChar] + SubstringFrom(bar, inv + 1)) + "<"
    case Elapsed =>
      ">" + DropFirst(Substring(bar, 0, h) + [headChar] + SubstringFrom(bar, h + 1))
  }

  /** For a head on the bar the second bar is w cells: the arrow, the head
      (a flash shows it shaded) and '=' elsewhere; the arrow hides a head on
      the arrow's own cell. The two perspectives mirror each other. */
  lemma SecondBarShape(perspective: Perspective, h: int, w: nat, flash: bool)
    requires 0 <= h < w
    ensures var b := SecondBarContent(perspective, h, w, flash);
      var headChar := if flash then '▓' else '█';
      && |b| == w
      && (perspective == Elapsed ==> forall i :: 0 <= i < w ==>
            b[i] == if i == 0 then '>' else if i == h then headChar else '=')
      && (perspective == Remaining ==> forall i :: 0 <= i < w ==>
            b[i] == if i == w - 1 then '<' else if i == w - 1 - h then headChar else '=')
  {
    var headChar := if flash then '▓' else '█';
    var bar := Repeat('=', w);
    var k := if perspective == Elapsed then h else w - 1 - h;
    var marked := bar[..k] + [headChar] + bar[k + 1..];
    assert Substring(bar, 0, k) + [headChar] + SubstringFrom(bar, k + 1) == marked;
    assert forall i :: 0 <= i < w ==> marked[i] == if i == k then headChar else '=';
  }

  /** `(100 * num / den).toFixed(0)` for den > 0: the magnitude rounded
      half up, after a '-' when the value is negative. */
  function FixedPercent(num: int, den: int): string
    requires den > 0
  {
    if num < 0 then "-" + NatToString(RoundDiv(100 * -num, den))
    else NatToString(RoundDiv(100 * num, den))
  }

  /** The whole percentage as `toFixed(0)` prints it: non-finite values for a
      zero denominator. */
  function PercentDigits(num: int, den: int): string {
    if den > 0 then FixedPercent(num, den)
    else if den < 0 then FixedPercent(-num, -den)
    else if num > 0 then "Infinity"
    else if num < 0 then "-Infinity"
    else "NaN"
  }

  /** A percentage between 0 and 100 % prints as the nearest whole number,
      at most three digits: k within half a unit of 100 * num / den. */
  lemma PercentDigitsRound(num: int, den: int)
    requires den > 0 && 0 <= num <= den
    ensures var k := RoundDiv(100 * num, den);
      && 0 <= k <= 100
      && PercentDigits(num, den) == NatToString(k)
      && |PercentDigits(num, den)| <= 3
      && ReadsAs(PercentDigits(num, den), k)
      && 2 * k * den - den <= 200 * num < 2 * k * den + den
  {
    var k := RoundDiv(100 * num, den);
    MulLe(num, den, 100);
    RoundDivBetween(100 * num, den, 100);
    NatToStringRoundTrip(k);
    assert Pow10(3) == 1000;
    NatToStringLength(k, 3);
  }

  /** The fraction the percentage shows: the shown value over the total for
      the REMAINING second bar, otherwise the bar's own fraction (0 for a
      non-positive denominator). */
  function PercentFraction(n: BarNumbers, total: int, isSecondBar: bool, perspective: Perspective): (int, int) {
    if perspective == Remaining && isSecondBar then (n.displayValue, total)
    else if n.denominator > 0 then (n.progressValue, n.denominator)
    else (0, 1)
  }

  /** `"<label>[<value>/<total>] <unit>"`, upper-cased, the value padded to
      two digits. */
  function TextPart(barLabel: string, unit: string, displayValue: int, total: int): string {
    UpperAscii(barLabel) + "[" + PadStart(IntToString(displayValue), 2, '0') + "/" + IntToString(total) + "] " + UpperAscii(unit)
  }

  /** The progress line with the one-based decision given explicitly: never
      narrower than the label block, the two '|', a three-column percentage
      and its separators. */
  function ProgressLineWith(oneBased: bool, barLabel: string, unit: string, value: int, total: int, w: nat,
                            isSecondBar: bool, perspective: Perspective, flash: bool,
                            animation: Option<AnimationInfo>): (r: string)
    ensures |r| >= LabelAreaWidth + 9
  {
    var n := Numbers(oneBased, value, total, isSecondBar, perspective);
    var h := HeadPos(n.progressValue, n.denominator, w);
    var barContent := if isSecondBar then SecondBarContent(perspective, h, w, flash)
                      else BarCells(perspective, h, w, animation, n.progressValue, n.denominator);
    var fraction := PercentFraction(n, total, isSecondBar, perspective);
    Line(PadStart(TextPart(barLabel, unit, n.displayValue, total), LabelAreaWidth, ' '),
         Take(barContent, w), PadStart(PercentDigits(fraction.0, fraction.1), 3, ' '))
  }

  /** `"<labelPart> |<bar>| <percent>% "`. */
  function Line(labelPart: string, bar: string, percent: string): (r: string)
    ensures |r| == |labelPart| + |bar| + |percent| + 6
  {
    labelPart + " " + ("|" + bar + "|") + (" " + (percent + "%") + " ")
  }

  /** Where each part of a line sits. */
  lemma LineLayout(labelPart: string, bar: string, percent: string)
    ensures var r := Line(labelPart, bar, percent);
      var b := |labelPart| + 1;
      var e := b + |bar| + 1;
      && r[..|labelPart|] == labelPart && r[|labelPart|] == ' '
      && r[b] == '|' && r[b + 1 .. e] == bar && r[e] == '|'
      && r[e + 1] == ' ' && r[e + 2 .. e + 2 + |percent|] == percent
      && r[e + 2 + |percent|..] == "% "
  {
    var r := Line(labelPart, bar, percent);
    var a := labelPart + " ";
    var c := a + ("|" + bar + "|");
    assert r == c + (" " + (percent + "%") + " ");
    assert c[..|a|] == a;
    assert r[..|c|] == c;
  }

  /** The line with the one-based rule corrected to MONTH only. */
  function CorrectedProgressLine(barLabel: string, unit: string, value: int, total: int, w: nat,
                                 isSecondBar: bool, perspective: Perspective, flash: bool,
                                 animation: Option<AnimationInfo>): (r: string)
    ensures |r| >= LabelAreaWidth + 9
  {
    ProgressLineWith(IsOneBased(barLabel), barLabel, unit, value, total, w, isSecondBar, perspective, flash, animation)
  }

  /** The line the renderer draws, with its own one-based rule (DAY and
      MONTH); it differs from the corrected line only on the DAY bar. */
  function ProgressLine(barLabel: string, unit: string, value: int, total: int, w: nat,
                        isSecondBar: bool, perspective: Perspective, flash: bool,
                        animation: Option<AnimationInfo>): (r: string)
    ensures |r| >= LabelAreaWidth + 9
    ensures barLabel != "DAY" ==> r == CorrectedProgressLine(barLabel, unit, value, total, w, isSecondBar, perspective, flash, animation)
  {
    ProgressLineWith(IsOneBasedAsWritten(barLabel), barLabel, unit, value, total, w, isSecondBar, perspective, flash, animation)
  }

  /** `renderProgressBar`. */
  method RenderProgressBar(barLabel: string, unit: string, value: int, total: int, barCharacterWidth: nat,
                           isSecondBar: bool, perspective: Perspective, flash: bool,
                           animation: Option<AnimationInfo>) returns (line: string)
    ensures line == ProgressLine(barLabel, unit, value, total, barCharacterWidth, isSecondBar, perspective, flash, animation)
  {
    var n := Numbers(IsOneBasedAsWritten(barLabel), value, total, isSecondBar, perspective);
    var headPos := HeadPos(n.progressValue, n.denominator, barCharacterWidth);
    var labelPart := PadStart(TextPart(barLabel, unit, n.displayValue, total), LabelAreaWidth, ' ');
    var barContent;
    if isSecondBar {
      barContent := SecondBarContent(perspective, headPos, barCharacterWidth, flash);
    } else {
      barContent := FillBar(perspective, headPos, barCharacterWidth, animation, n.progressValue, n.denominator);
    }
    var fraction := PercentFraction(n, total, isSecondBar, perspective);
    var percentStr := PadStart(PercentDigits(fraction.0, fraction.1), 3, ' ');
    line := Line(labelPart, Take(barContent, barCharacterWidth), percentStr);
  }

  /** Under either one-based rule, a bar whose value lies inside its scale draws a line of exactly
      w + 27 characters when its label text fits the label block: the label
      block, the w bar cells between '|' and a percentage of at most 100. */
  lemma ProgressLineWithShape(oneBased: bool, barLabel: string, unit: string, value: int, total: int, w: nat,
                              isSecondBar: bool, perspective: Perspective, flash: bool,
                              animation: Option<AnimationInfo>)
    requires total >= 2 && w >= 1
    requires InScale(oneBased, value, total, isSecondBar)
    requires |TextPart(barLabel, unit, Numbers(oneBased, value, total, isSecondBar, perspective).displayValue, total)| <= LabelAreaWidth
    ensures var r := ProgressLineWith(oneBased, barLabel, unit, value, total, w, isSecondBar, perspective, flash, animation);
      && |r| == w + 27
      && r[LabelAreaWidth] == ' ' && r[LabelAreaWidth + 1] == '|' && r[w + LabelAreaWidth + 2] == '|'
      && r[w + 25..] == "% "
  {
    var n := Numbers(oneBased, value, total, isSecondBar, perspective);
    NumbersInRange(oneBased, value, total, isSecondBar, perspective);
    var h := HeadPos(n.progressValue, n.denominator, w);
    HeadInBar(n.progressValue, n.denominator, w);
    var barContent := if isSecondBar then SecondBarContent(perspective, h, w, flash)
                      else BarCells(perspective, h, w, animation, n.progressValue, n.denominator);
    if isSecondBar {
      SecondBarShape(perspective, h, w, flash);
    }
    var fraction := PercentFraction(n, total, isSecondBar, perspective);
    PercentDigitsRound(fraction.0, fraction.1);
    var labelPart := PadStart(TextPart(barLabel, unit, n.displayValue, total), LabelAreaWidth, ' ');
    var percent := PadStart(PercentDigits(fraction.0, fraction.1), 3, ' ');
    assert ProgressLineWith(oneBased, barLabel, unit, value, total, w, isSecondBar, perspective, flash, animation)
        == Line(labelPart, Take(barContent, w), percent);
    LineFixed(labelPart, Take(barContent, w), percent, w);
  }

  /** The drawn line of a bar whose value lies inside its scale (under the
      renderer's rule) is exactly w + 27 characters when its label text
      fits the label block, with the '|' and "% " in place. */
  lemma ProgressLineShape(barLabel: string, unit: string, value: int, total: int, w: nat,
                          isSecondBar: bool, perspective: Perspective, flash: bool,
                          animation: Option<AnimationInfo>)
    requires total >= 2 && w >= 1
    requires InScale(IsOneBasedAsWritten(barLabel), value, total, isSecondBar)
    requires |TextPart(barLabel, unit, Numbers(IsOneBasedAsWritten(barLabel), value, total, isSecondBar, perspective).displayValue, total)| <= LabelAreaWidth
    ensures var r := ProgressLine(barLabel, unit, value, total, w, isSecondBar, perspective, flash, animation);
      && |r| == w + 27
      && r[LabelAreaWidth] == ' ' && r[LabelAreaWidth + 1] == '|' && r[w + LabelAreaWidth + 2] == '|'
      && r[w + 25..] == "% "
  {
    ProgressLineWithShape(IsOneBasedAsWritten(barLabel), barLabel, unit, value, total, w, isSecondBar, perspective, flash, animation);
  }

  lemma LineFixed(labelPart: string, bar: string, percent: string, w: nat)
    requires |labelPart| == LabelAreaWidth && |bar| == w && |percent| == 3
    ensures var r := Line(labelPart, bar, percent);
      && |r| == w + 27
      && r[LabelAreaWidth] == ' ' && r[LabelAreaWidth + 1] == '|' && r[w + LabelAreaWidth + 2] == '|'
      && r[w + 25..] == "% "
  {
    LineLayout(labelPart, bar, percent);
  }

  /** The label text of a shown value below 10^dv and a total below 10^dt
      takes at most |label| + |unit| + dv + dt + 4 characters. */
  lemma TextPartWidth(barLabel: string, unit: string, v: int, t: int, dv: nat, dt: nat)
    requires 2 <= dv && 1 <= dt && 0 <= v < Pow10(dv) && 0 <= t < Pow10(dt)
    ensures |TextPart(barLabel, unit, v, t)| <= |barLabel| + |unit| + 4 + dv + dt
  {
    assert IntToString(v) == NatToString(v) && IntToString(t) == NatToString(t);
    NatToStringLength(v, dv);
    NatToStringLength(t, dt);
  }

  /** Under either one-based rule, a bar whose value is inside its scale
      and whose label, unit and numbers fit the label block draws a line of
      exactly w + 27 characters. */
  lemma ProgressLineWithFits(oneBased: bool, barLabel: string, unit: string, value: int, total: int, w: nat,
                             isSecondBar: bool, perspective: Perspective, flash: bool,
                             animation: Option<AnimationInfo>, digits: nat)
    requires total >= 2 && w >= 1 && InScale(oneBased, value, total, isSecondBar)
    requires 2 <= digits && total < Pow10(digits) && |barLabel| + |unit| + 4 + 2 * digits <= LabelAreaWidth
    ensures |ProgressLineWith(oneBased, barLabel, unit, value, total, w, isSecondBar, perspective, flash, animation)| == w + 27
  {
    var n := Numbers(oneBased, value, total, isSecondBar, perspective);
    NumbersInRange(oneBased, value, total, isSecondBar, perspective);
    TextPartWidth(barLabel, unit, n.displayValue, total, digits, digits);
    ProgressLineWithShape(oneBased, barLabel, unit, value, total, w, isSecondBar, perspective, flash, animation);
  }

  /** The drawn line of a bar inside its scale (under the renderer's rule)
      whose label, unit and numbers fit the label block is exactly w + 27
      characters. */
  lemma ProgressLineFits(barLabel: string, unit: string, value: int, total: int, w: nat,
                         isSecondBar: bool, perspective: Perspective, flash: bool,
                         animation: Option<AnimationInfo>, digits: nat)
    requires total >= 2 && w >= 1 && InScale(IsOneBasedAsWritten(barLabel), value, total, isSecondBar)
    requires 2 <= digits && total < Pow10(digits) && |barLabel| + |unit| + 4 + 2 * digits <= LabelAreaWidth
    ensures |ProgressLine(barLabel, unit, value, total, w, isSecondBar, perspective, flash, animation)| == w + 27
  {
    ProgressLineWithFits(IsOneBasedAsWritten(barLabel), barLabel, unit, value, total, w, isSecondBar, perspective, flash, animation, digits);
  }

  /** The drawn DAY line is 87 characters at every hour, midnight
      included: there the ELAPSED bar lies outside its scale, but its head
      is off the bar, its cells are still sixty and its percentage " -4"
      still three columns. */
  lemma DayLineWidth(hours: int, perspective: Perspective, animation: Option<AnimationInfo>)
    requires 0 <= hours < 24
    ensures |ProgressLine("DAY", "HRS", hours, 24, 60, false, perspective, false, animation)| == 87
  {
    assert Pow10(2) == 100;
    if hours == 0 {
      var n := Numbers(true, 0, 24, false, perspective);
      TextPartWidth("DAY", "HRS", n.displayValue, 24, 2, 2);
      var h := HeadPos(n.progressValue, n.denominator, 60);
      var fraction := PercentFraction(n, 24, false, perspective);
      if perspective == Elapsed {
        DayBarAtMidnightAsWritten();
      } else {
        PercentDigitsRound(fraction.0, fraction.1);
      }
      var labelPart := PadStart(TextPart("DAY", "HRS", n.displayValue, 24), LabelAreaWidth, ' ');
      var bar := Take(BarCells(perspective, h, 60, animation, n.progressValue, n.denominator), 60);
      var percent := PadStart(PercentDigits(fraction.0, fraction.1), 3, ' ');
      assert ProgressLine("DAY", "HRS", 0, 24, 60, false, perspective, false, animation) == Line(labelPart, bar, percent);
    } else {
      ProgressLineFits("DAY", "HRS", hours, 24, 60, false, perspective, false, animation, 2);
    }
  }

  /** As written, the DAY bar takes the 0-based hour for a 1-based value: at
      hour 0 the ELAPSED bar is one unit before its start, the head is off
      the bar, no cell is drawn and the percentage reads "-4"; the REMAINING
      bar shows 25 hours left of 24. */
  lemma DayBarAtMidnightAsWritten()
    ensures var n := Numbers(IsOneBasedAsWritten("DAY"), 0, 24, false, Elapsed);
      && n.progressValue == -1 && n.denominator == 24
      && HeadPos(n.progressValue, n.denominator, 60) == -3
      && BarCells(Elapsed, -3, 60, None, -1, 24) == Repeat('░', 60)
      && PercentDigits(n.progressValue, n.denominator) == "-4"
    ensures Numbers(IsOneBasedAsWritten("DAY"), 0, 24, false, Remaining).displayValue == 25
  {
    assert RoundDiv(100, 24) == 4;
    assert NatToString(4) == "4";
  }

  /** With the DAY bar zero-based, every hour of the day gives a fraction
      between 0 and 1, a head on the bar, the first cell at midnight in the
      ELAPSED perspective, a shown value within the day, and a corrected
      line of 87 characters. */
  lemma DayBarInRange(hours: int, perspective: Perspective, animation: Option<AnimationInfo>)
    requires 0 <= hours < 24
    ensures var n := Numbers(IsOneBased("DAY"), hours, 24, false, perspective);
      && 0 <= n.progressValue <= n.denominator == 24
      && 0 <= HeadPos(n.progressValue, n.denominator, 60) < 60
      && (perspective == Elapsed && hours == 0 ==> HeadPos(n.progressValue, n.denominator, 60) == 0)
      && 0 <= n.displayValue <= 24
    ensures |CorrectedProgressLine("DAY", "HRS", hours, 24, 60, false, perspective, false, animation)| == 87
  {
    var n := Numbers(IsOneBased("DAY"), hours, 24, false, perspective);
    NumbersInRange(false, hours, 24, false, perspective);
    HeadInBar(n.progressValue, n.denominator, 60);
    assert Pow10(2) == 100;
    ProgressLineWithFits(false, "DAY", "HRS", hours, 24, 60, false, perspective, false, animation, 2);
  }
}
