/** The life monitor's state record and its transitions: perspective
    toggle, confirming and cancelling the setup panel, and the key handler
    that edits the draft birth date and life expectancy digit by digit.
    Every transition is a function from the old record to the new one, as
    the source's `setState(s => ({ ...s, ... }))` updates are. */
module LifeMonitor {
  import opened JsText
  import opened Calendar

  datatype Perspective = Elapsed | Remaining

  datatype EditableField = Year | Month | Day | LifeExpectancy

  datatype LifeMonitorState = LifeMonitorState(
    perspective: Perspective,
    birthDate: Option<Date>,
    lifeExpectancy: Option<int>,
    isEditing: bool,
    draftYear: int,
    draftMonth: int,
    draftDay: int,
    draftLifeExpectancy: int,
    activeField: EditableField)

  /** `birthDate && lifeExpectancy`: a date is stored and the expectancy is
      present and truthy, so 0 counts as absent. */
  predicate Configured(s: LifeMonitorState) {
    s.birthDate.Some? && s.lifeExpectancy.Some? && s.lifeExpectancy.value != 0
  }

  /** The record before anything is loaded. */
  function InitialState(): LifeMonitorState {
    LifeMonitorState(Elapsed, None, None, false, 1990, 1, 1, 80, Year)
  }

  /** Drafts copied from the confirmed configuration. */
  function SeedDrafts(s: LifeMonitorState): (r: LifeMonitorState)
    requires Configured(s)
    ensures r.draftYear == s.birthDate.value.year
    ensures r.draftMonth == s.birthDate.value.month
    ensures r.draftDay == s.birthDate.value.day
    ensures r.draftLifeExpectancy == s.lifeExpectancy.value
    ensures r.(draftYear := s.draftYear, draftMonth := s.draftMonth,
               draftDay := s.draftDay, draftLifeExpectancy := s.draftLifeExpectancy) == s
  {
    var b := s.birthDate.value;
    s.(draftYear := b.year, draftMonth := b.month, draftDay := b.day,
       draftLifeExpectancy := s.lifeExpectancy.value)
  }

  function TogglePerspective(s: LifeMonitorState): (r: LifeMonitorState)
    ensures r.perspective != s.perspective
    ensures r.(perspective := s.perspective) == s
  {
    s.(perspective := if s.perspective == Elapsed then Remaining else Elapsed)
  }

  /** Stores a configuration with the expectancy clamped into [10, 999]
      and leaves edit mode. */
  function SetUserData(s: LifeMonitorState, birthDate: Date, lifeExpectancy: int): (r: LifeMonitorState)
    ensures r.birthDate == Some(birthDate)
    ensures r.lifeExpectancy.Some? && 10 <= r.lifeExpectancy.value <= 999
    ensures 10 <= lifeExpectancy <= 999 ==> r.lifeExpectancy == Some(lifeExpectancy)
    ensures lifeExpectancy < 10 ==> r.lifeExpectancy == Some(10)
    ensures lifeExpectancy > 999 ==> r.lifeExpectancy == Some(999)
    ensures !r.isEditing && Configured(r)
    ensures r.(birthDate := s.birthDate, lifeExpectancy := s.lifeExpectancy, isEditing := s.isEditing) == s
  {
    var clamped := Max(10, Min(lifeExpectancy, 999));
    s.(birthDate := Some(birthDate), lifeExpectancy := Some(clamped), isEditing := false)
  }

  function Min(a: int, b: int): int { if a < b then a else b }
  function Max(a: int, b: int): int { if a > b then a else b }

  /** Entering edit mode re-seeds the drafts from a stored configuration;
      leaving it, or entering without one, changes only the flag. */
  function SetIsEditing(s: LifeMonitorState, isEditing: bool): (r: LifeMonitorState)
    ensures r.isEditing == isEditing
    ensures isEditing && Configured(s) ==> r == SeedDrafts(s).(isEditing := true)
    ensures !(isEditing && Configured(s)) ==> r == s.(isEditing := isEditing)
  {
    if isEditing && Configured(s) then SeedDrafts(s).(isEditing := true)
    else s.(isEditing := isEditing)
  }

  function SetActiveField(s: LifeMonitorState, field: EditableField): (r: LifeMonitorState)
    ensures r.activeField == field && r.(activeField := s.activeField) == s
  {
    s.(activeField := field)
  }

  /** The draft date as confirm stores it (the `Date.UTC` normalisation of
      out-of-range fields is not part of this model). */
  function DraftDate(s: LifeMonitorState): Date {
    Date(s.draftYear, s.draftMonth, s.draftDay)
  }

  function HandleConfirm(s: LifeMonitorState): (r: LifeMonitorState)
    ensures r.birthDate == Some(DraftDate(s))
    ensures r.lifeExpectancy == Some(Max(10, Min(s.draftLifeExpectancy, 999)))
    ensures !r.isEditing
    ensures r.perspective == s.perspective && r.activeField == s.activeField
    ensures r.draftYear == s.draftYear && r.draftMonth == s.draftMonth
    ensures r.draftDay == s.draftDay && r.draftLifeExpectancy == s.draftLifeExpectancy
  {
    SetUserData(s, DraftDate(s), s.draftLifeExpectancy)
  }

  /** Leaves edit mode and, when a configuration is stored, throws the
      drafts away by re-seeding them from it. */
  function HandleCancel(s: LifeMonitorState): (r: LifeMonitorState)
    ensures !r.isEditing
    ensures r.perspective == s.perspective && r.activeField == s.activeField
    ensures r.birthDate == s.birthDate && r.lifeExpectancy == s.lifeExpectancy
    ensures Configured(s) ==> r == SeedDrafts(s).(isEditing := false)
    ensures !Configured(s) ==> r == s.(isEditing := false)
  {
    var t := SetIsEditing(s, false);
    if Configured(s) then SeedDrafts(t) else t
  }

  /** Value of the focused draft field. */
  function Focused(s: LifeMonitorState): int {
    match s.activeField
    case Year => s.draftYear
    case Month => s.draftMonth
    case Day => s.draftDay
    case LifeExpectancy => s.draftLifeExpectancy
  }

  /** Replaces the focused draft field. */
  function WithFocused(s: LifeMonitorState, v: int): (r: LifeMonitorState)
    ensures Focused(r) == v && r.activeField == s.activeField
  {
    match s.activeField
    case Year => s.(draftYear := v)
    case Month => s.(draftMonth := v)
    case Day => s.(draftDay := v)
    case LifeExpectancy => s.(draftLifeExpectancy := v)
  }

  /** Two states that differ at most in the focused draft field. */
  predicate SameBesidesFocused(s: LifeMonitorState, r: LifeMonitorState) {
    WithFocused(r, Focused(s)) == s
  }

  /** Backspace drops the last digit of the focused field (`Math.floor(v / 10)`;
      Dafny's `/` by a positive divisor is the same floor). */
  function Backspace(s: LifeMonitorState): (r: LifeMonitorState)
    ensures Focused(r) * 10 <= Focused(s) < Focused(r) * 10 + 10
    ensures r.activeField == s.activeField && SameBesidesFocused(s, r)
  {
    WithFocused(s, Focused(s) / 10)
  }

  /** The value a typed digit leaves in the focused field. */
  function DigitInto(s: LifeMonitorState, digit: int): int
    requires 0 <= digit <= 9
  {
    match s.activeField
    case Year =>
      var potential := s.draftYear * 10 + digit;
      if potential > 9999 then digit else potential
    case Month =>
      var potential := s.draftMonth * 10 + digit;
      if potential > 12 then (if digit > 0 then digit else 1)
      else if potential == 0 then 1 else potential
    case Day =>
      var maxDays := DaysInMonth(s.draftYear, s.draftMonth);
      var potential := s.draftDay * 10 + digit;
      if potential > maxDays then (if digit > 0 then digit else 1)
      else if potential == 0 then 1 else potential
    case LifeExpectancy =>
      var potential := s.draftLifeExpectancy * 10 + digit;
      var v := if potential > 999 then digit else potential;
      if v == 0 then (if digit > 0 then digit else 1) else v
  }

  /** Upper bound the digit rule keeps each field under. */
  function FieldMax(s: LifeMonitorState): int {
    match s.activeField
    case Year => 9999
    case Month => 12
    case Day => DaysInMonth(s.draftYear, s.draftMonth)
    case LifeExpectancy => 999
  }

  /** Typing a digit appends it to the focused field when the result stays
      within the field's maximum, and otherwise restarts the field at that
      digit; month, day and expectancy never become 0. */
  function TypeDigit(s: LifeMonitorState, digit: int): (r: LifeMonitorState)
    requires 0 <= digit <= 9
    ensures Focused(r) <= FieldMax(s)
    ensures s.activeField == Year && s.draftYear >= 0 ==> r.draftYear >= 0
    ensures s.activeField != Year && Focused(s) >= 0 ==> 1 <= Focused(r)
    ensures Focused(s) * 10 + digit <= FieldMax(s) ==>
      Focused(r) == (if Focused(s) * 10 + digit == 0 && s.activeField != Year then 1 else Focused(s) * 10 + digit)
    ensures Focused(s) * 10 + digit > FieldMax(s) ==> Focused(r) == (if digit == 0 && s.activeField != Year then 1 else digit)
    ensures r.activeField == s.activeField && SameBesidesFocused(s, r)
  {
    WithFocused(s, DigitInto(s, digit))
  }

  /** ArrowUp/ArrowDown: the focused field moves by `amount`, wrapping month
      12 <-> 1, day maxDays <-> 1 and expectancy 999 <-> 10; any expectancy
      below 10 lands on 999. The year is not bounded. */
  function Adjust(s: LifeMonitorState, amount: int): (r: LifeMonitorState)
    ensures s.activeField == Year ==> r.draftYear == s.draftYear + amount
    ensures s.activeField == Month ==> 1 <= r.draftMonth <= 12
    ensures s.activeField == Day ==> 1 <= r.draftDay <= DaysInMonth(s.draftYear, s.draftMonth)
    ensures s.activeField == LifeExpectancy ==> 10 <= r.draftLifeExpectancy <= 999
    ensures s.activeField == Month && 1 <= s.draftMonth + amount <= 12 ==> r.draftMonth == s.draftMonth + amount
    ensures s.activeField == Month && s.draftMonth + amount > 12 ==> r.draftMonth == 1
    ensures s.activeField == Month && s.draftMonth + amount < 1 ==> r.draftMonth == 12
    ensures s.activeField == Day && 1 <= s.draftDay + amount <= DaysInMonth(s.draftYear, s.draftMonth) ==> r.draftDay == s.draftDay + amount
    ensures s.activeField == Day && s.draftDay + amount > DaysInMonth(s.draftYear, s.draftMonth) ==> r.draftDay == 1
    ensures s.activeField == Day && s.draftDay + amount < 1 ==> r.draftDay == DaysInMonth(s.draftYear, s.draftMonth)
    ensures s.activeField == LifeExpectancy && 10 <= s.draftLifeExpectancy + amount <= 999 ==> r.draftLifeExpectancy == s.draftLifeExpectancy + amount
    ensures s.activeField == LifeExpectancy && s.draftLifeExpectancy + amount > 999 ==> r.draftLifeExpectancy == 10
    ensures s.activeField == LifeExpectancy && s.draftLifeExpectancy + amount < 10 ==> r.draftLifeExpectancy == 999
    ensures r.activeField == s.activeField && SameBesidesFocused(s, r)
  {
    match s.activeField
    case Year => s.(draftYear := s.draftYear + amount)
    case Month =>
      var newMonth := s.draftMonth + amount;
      s.(draftMonth := if newMonth > 12 then 1 else if newMonth < 1 then 12 else newMonth)
    case Day =>
      var maxDays := DaysInMonth(s.draftYear, s.draftMonth);
      var newDay := s.draftDay + amount;
      s.(draftDay := if newDay > maxDays then 1 else if newDay < 1 then maxDays else newDay)
    case LifeExpectancy =>
      var v := s.draftLifeExpectancy + amount;
      var v' := if v > 999 then 10 else v;
      s.(draftLifeExpectancy := if v' < 10 then 999 else v')
  }

  /** Position of a field in the fixed order year, month, day, expectancy. */
  function FieldIndex(f: EditableField): (i: int)
    ensures 0 <= i < 4
  {
    match f
    case Year => 0
    case Month => 1
    case Day => 2
    case LifeExpectancy => 3
  }

  function FieldAt(i: int): (f: EditableField)
    requires 0 <= i < 4
    ensures FieldIndex(f) == i
  {
    [Year, Month, Day, LifeExpectancy][i]
  }

  /** ArrowRight and Tab: the next field, wrapping after the expectancy. */
  function FocusNext(s: LifeMonitorState): (r: LifeMonitorState)
    ensures FieldIndex(r.activeField) == (FieldIndex(s.activeField) + 1) % 4
    ensures r.(activeField := s.activeField) == s
  {
    s.(activeField := FieldAt((FieldIndex(s.activeField) + 1) % 4))
  }

  /** ArrowLeft: the previous field, wrapping before the year. */
  function FocusPrev(s: LifeMonitorState): (r: LifeMonitorState)
    ensures FieldIndex(r.activeField) == (FieldIndex(s.activeField) - 1 + 4) % 4
    ensures r.(activeField := s.activeField) == s
  {
    s.(activeField := FieldAt((FieldIndex(s.activeField) - 1 + 4) % 4))
  }

  /** The keydown listener, installed only while editing; keys it does not
      know leave the state alone. */
  function HandleKeyDown(s: LifeMonitorState, key: string): (r: LifeMonitorState)
    ensures !s.isEditing ==> r == s
    ensures r.perspective == s.perspective
    ensures s.isEditing && key == "Enter" ==> r == HandleConfirm(s)
    ensures s.isEditing && (key == "Escape" || key == "e" || key == "E") ==> r == HandleCancel(s)
    ensures s.isEditing && (key == "ArrowRight" || key == "Tab") ==> r == FocusNext(s)
    ensures s.isEditing && key == "ArrowLeft" ==> r == FocusPrev(s)
    ensures s.isEditing && key == "ArrowUp" ==> r == Adjust(s, 1)
    ensures s.isEditing && key == "ArrowDown" ==> r == Adjust(s, -1)
    ensures s.isEditing && key == "Backspace" ==> r == Backspace(s)
    ensures s.isEditing && |key| == 1 && IsDigit(key[0]) ==> r == TypeDigit(s, DigitValue(key[0]))
    ensures s.isEditing && !(|key| == 1 && IsDigit(key[0]))
      && key !in {"Backspace", "Enter", "Escape", "e", "E", "ArrowRight", "Tab", "ArrowLeft", "ArrowUp", "ArrowDown"}
      ==> r == s
  {
    if !s.isEditing then s
    else if key == "Backspace" then Backspace(s)
    else if |key| == 1 && IsDigit(key[0]) then TypeDigit(s, DigitValue(key[0]))
    else if key == "Enter" then HandleConfirm(s)
    else if key == "Escape" || key == "e" || key == "E" then HandleCancel(s)
    else if key == "ArrowRight" || key == "Tab" then FocusNext(s)
    else if key == "ArrowLeft" then FocusPrev(s)
    else if key == "ArrowUp" then Adjust(s, 1)
    else if key == "ArrowDown" then Adjust(s, -1)
    else s
  }

  // ---------------------------------------------------------------------
  // Properties relating several transitions

  /** The initial record is unconfigured and its drafts are a valid date
      with an expectancy inside the confirm clamp. */
  lemma InitialStateShape()
    ensures !Configured(InitialState())
    ensures InitialState().perspective == Elapsed && InitialState().activeField == Year
    ensures ValidDate(InitialState().draftYear, InitialState().draftMonth, InitialState().draftDay)
    ensures DraftDate(InitialState()) == Date(1990, 1, 1) && InitialState().draftLifeExpectancy == 80
  {
  }

  /** Toggling twice restores the record. */
  lemma ToggleInvolution(s: LifeMonitorState)
    ensures TogglePerspective(TogglePerspective(s)) == s
  {
  }

  /** Backspace undoes a digit that was appended without overflow. */
  lemma {:induction false} BackspaceUndoesDigit(s: LifeMonitorState, digit: int)
    requires 0 <= digit <= 9
    requires 0 < Focused(s) * 10 + digit <= FieldMax(s)
    ensures Backspace(TypeDigit(s, digit)) == s
  {
    var t := TypeDigit(s, digit);
    assert Focused(t) == Focused(s) * 10 + digit;
    assert Focused(t) / 10 == Focused(s);
    assert WithFocused(t, Focused(s)) == s;
  }

  /** ArrowUp then ArrowDown (or the reverse) restores a field that was in
      its range, including across the wrap points. */
  lemma AdjustRoundTrip(s: LifeMonitorState)
    requires s.activeField == Month ==> 1 <= s.draftMonth <= 12
    requires s.activeField == Day ==> 1 <= s.draftDay <= DaysInMonth(s.draftYear, s.draftMonth)
    requires s.activeField == LifeExpectancy ==> 10 <= s.draftLifeExpectancy <= 999
    ensures Adjust(Adjust(s, 1), -1) == s
    ensures Adjust(Adjust(s, -1), 1) == s
  {
  }

  /** An expectancy below 10, such as 5 typed as a single digit, jumps to
      999 on ArrowUp. */
  lemma SmallExpectancyWrapsUp(s: LifeMonitorState)
    requires s.activeField == LifeExpectancy && s.draftLifeExpectancy + 1 < 10
    ensures Adjust(s, 1).draftLifeExpectancy == 999
  {
  }

  /** Right then Left, and Left then Right, restore the focus; four Rights
      come back to the start. */
  lemma FocusCycle(s: LifeMonitorState)
    ensures FocusPrev(FocusNext(s)) == s
    ensures FocusNext(FocusPrev(s)) == s
    ensures FocusNext(FocusNext(FocusNext(FocusNext(s)))) == s
  {
    assert forall f :: FieldAt(FieldIndex(f)) == f;
  }

  /** Drafts that `Date.UTC` stores unchanged: a real calendar date (no
      roll-over of the month or the day) whose year is not in 0..99 (which
      `Date.UTC` reads as 1900..1999). */
  predicate StoredAsDrafted(s: LifeMonitorState) {
    ValidDate(s.draftYear, s.draftMonth, s.draftDay) && !(0 <= s.draftYear <= 99)
  }

  /** Confirming and then re-opening the panel gives back the same drafts
      when the date is stored as drafted and the expectancy was already
      inside the clamp. */
  lemma ConfirmThenEditRoundTrip(s: LifeMonitorState)
    requires StoredAsDrafted(s)
    requires 10 <= s.draftLifeExpectancy <= 999
    ensures SetIsEditing(HandleConfirm(s), true) == s.(birthDate := Some(DraftDate(s)),
              lifeExpectancy := Some(s.draftLifeExpectancy), isEditing := true)
  {
  }

  /** Cancelling right after confirming changes nothing but the stored
      drafts' source: they already equal the configuration (when the date
      is stored as drafted). */
  lemma CancelAfterConfirm(s: LifeMonitorState)
    requires StoredAsDrafted(s)
    requires 10 <= s.draftLifeExpectancy <= 999
    ensures HandleCancel(HandleConfirm(s)) == HandleConfirm(s)
  {
  }

  /** Ranges every draft field keeps while the panel is used: month 0..12,
      day 0..31, expectancy 0..999 (0 is reachable only through Backspace),
      and a stored configuration in the same ranges. */
  predicate DraftsInRange(s: LifeMonitorState) {
    && 0 <= s.draftMonth <= 12
    && 0 <= s.draftDay <= 31
    && 0 <= s.draftLifeExpectancy <= 999
    && (s.birthDate.Some? ==> 0 <= s.birthDate.value.month <= 12 && 0 <= s.birthDate.value.day <= 31)
    && (s.lifeExpectancy.Some? ==> 0 <= s.lifeExpectancy.value <= 999)
  }

  /** Every key preserves the draft ranges. */
  lemma {:induction false} KeyPreservesRanges(s: LifeMonitorState, key: string)
    requires DraftsInRange(s)
    ensures DraftsInRange(HandleKeyDown(s, key))
  {
    if s.isEditing {
      if key == "Backspace" {
        EditsPreserveRanges(s);
      } else if |key| == 1 && IsDigit(key[0]) {
        DigitPreservesRanges(s, DigitValue(key[0]));
      } else {
        EditsPreserveRanges(s);
      }
    }
  }

  /** Typing a digit keeps the drafts in range: the field maximum bounds
      the new value, and a day is bounded by its month's length. */
  lemma DigitPreservesRanges(s: LifeMonitorState, d: int)
    requires DraftsInRange(s) && 0 <= d <= 9
    ensures DraftsInRange(TypeDigit(s, d))
  {
    if s.activeField == Day {
      assert TypeDigit(s, d).draftDay <= DaysInMonth(s.draftYear, s.draftMonth) <= 31;
    }
  }

  /** The other editing keys keep the drafts in range. */
  lemma EditsPreserveRanges(s: LifeMonitorState)
    requires DraftsInRange(s)
    ensures DraftsInRange(Backspace(s))
    ensures DraftsInRange(HandleConfirm(s)) && DraftsInRange(HandleCancel(s))
    ensures DraftsInRange(FocusNext(s)) && DraftsInRange(FocusPrev(s))
    ensures DraftsInRange(Adjust(s, 1)) && DraftsInRange(Adjust(s, -1))
  {
  }

  /** Editing mode and perspective toggles also preserve the ranges. */
  lemma OtherActionsPreserveRanges(s: LifeMonitorState, b: bool)
    requires DraftsInRange(s)
    ensures DraftsInRange(SetIsEditing(s, b))
    ensures DraftsInRange(TogglePerspective(s))
    ensures DraftsInRange(InitialState())
  {
  }
}
