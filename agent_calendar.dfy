/**
 * The agent's showing calendar (src/components/calendar/AgentCalendar.tsx):
 * the 42-cell month grid, month navigation, the slots shown in each cell,
 * and the save / delete handlers that edit the selected property's showing.
 */
module AgentCalendar {
  import opened Wrappers
  import opened Seqs
  import opened Gregorian
  import opened ShowingTypes
  import opened PropertyTypes
  import opened PropertyShowings

  datatype DayCell = DayCell(date: Date, isPadding: bool)

  const GridSize := 42  // 6 rows of 7 days

  /** `n` padding cells before the 1st: cell k is `new Date(y, m, k - n + 1)`, ending on day 0. */
  function LeadingCells(y: int, m: int, n: nat): (r: seq<DayCell>)
    ensures |r| == n && forall k :: 0 <= k < n ==> Valid(r[k].date) && r[k].isPadding
  {
    var r := seq(n, k requires 0 <= k < n => DayCell(MakeDate(y, m, k - n + 1), true));
    assert forall k :: 0 <= k < n ==> r[k].date == MakeDate(y, m, k - n + 1);
    r
  }

  /** The month's own cells: cell k is `new Date(y, m, k + 1)`. */
  function MonthCells(y: int, m: int, n: nat): (r: seq<DayCell>)
    ensures |r| == n && forall k :: 0 <= k < n ==> Valid(r[k].date) && !r[k].isPadding
  {
    seq(n, k requires 0 <= k < n => DayCell(MakeDate(y, m, k + 1), false))
  }

  /** `n` padding cells after the month: cell k is `new Date(y, m + 1, k + 1)`. */
  function TrailingCells(y: int, m: int, n: nat): (r: seq<DayCell>)
    ensures |r| == n && forall k :: 0 <= k < n ==> Valid(r[k].date) && r[k].isPadding
  {
    seq(n, k requires 0 <= k < n => DayCell(MakeDate(y, m + 1, k + 1), true))
  }

  function Leading(y: int, m: int): nat
    requires 0 <= m < 12
  {
    DayOfWeek(MakeDate(y, m, 1))
  }

  /** `lastDay.getDate()` with `lastDay = new Date(y, m + 1, 0)`: the Gregorian length of the month. */
  function LastDay(y: int, m: int): (d: int)
    requires 0 <= m < 12
    ensures d == DaysInMonth(y, m)
  {
    LastDayOfMonth(y, m);
    MakeDate(y, m + 1, 0).day
  }

  function Remaining(y: int, m: int): nat
    requires 0 <= m < 12
  {
    GridSize - (Leading(y, m) + LastDay(y, m))
  }

  /** The cells `getDaysInMonth` builds, stated with the same `new Date(...)` calls it makes. */
  function MonthGrid(y: int, m: int): (g: seq<DayCell>)
    requires 0 <= m < 12
    ensures |g| == GridSize && forall i :: 0 <= i < |g| ==> Valid(g[i].date)
  {
    LeadingCells(y, m, Leading(y, m)) + MonthCells(y, m, LastDay(y, m)) + TrailingCells(y, m, Remaining(y, m))
  }

  lemma LeadingStep(y: int, m: int, i: nat)
    ensures LeadingCells(y, m, i + 1) == [DayCell(MakeDate(y, m, -(i as int)), true)] + LeadingCells(y, m, i)
  {
  }

  lemma MonthStep(y: int, m: int, i: nat)
    ensures MonthCells(y, m, i + 1) == MonthCells(y, m, i) + [DayCell(MakeDate(y, m, i + 1), false)]
  {
  }

  lemma TrailingStep(y: int, m: int, i: nat)
    ensures TrailingCells(y, m, i + 1) == TrailingCells(y, m, i) + [DayCell(MakeDate(y, m + 1, i + 1), true)]
  {
  }

  /** `getDaysInMonth`: padding from the previous month (unshifted), the month's days, then padding to 42 cells. */
  method GetDaysInMonth(date: Date) returns (days: seq<DayCell>)
    requires Valid(date)
    ensures days == MonthGrid(date.year, date.month)
  {
    var year, month := date.year, date.month;
    var firstDay := MakeDate(year, month, 1);
    var lastDay := MakeDate(year, month + 1, 0);
    assert lastDay.day == LastDay(year, month) >= 28;
    days := [];
    var i := 0;
    while i < DayOfWeek(firstDay)
      invariant 0 <= i <= DayOfWeek(firstDay)
      invariant days == LeadingCells(year, month, i)
    {
      LeadingStep(year, month, i);
      days := [DayCell(MakeDate(year, month, -i), true)] + days;
      i := i + 1;
    }
    ghost var leading := days;
    assert leading == LeadingCells(year, month, Leading(year, month));
    i := 1;
    while i <= lastDay.day
      invariant 1 <= i <= (if lastDay.day < 0 then 0 else lastDay.day) + 1
      invariant days == leading + MonthCells(year, month, i - 1)
    {
      MonthStep(year, month, i - 1);
      days := days + [DayCell(MakeDate(year, month, i), false)];
      i := i + 1;
    }
    ghost var front := days;
    assert front == LeadingCells(year, month, Leading(year, month)) + MonthCells(year, month, LastDay(year, month));
    var remainingDays := GridSize - |days|;
    assert remainingDays == Remaining(year, month);
    i := 1;
    while i <= remainingDays
      invariant 1 <= i <= (if remainingDays < 0 then 0 else remainingDays) + 1
      invariant days == front + TrailingCells(year, month, i - 1)
    {
      TrailingStep(year, month, i - 1);
      days := days + [DayCell(MakeDate(year, month + 1, i), true)];
      i := i + 1;
    }
  }

  /** `lastDay.getDate()` is the Gregorian length of the month. */
  lemma LastDayOfMonth(y: int, m: int)
    requires 0 <= m < 12
    ensures MakeDate(y, m + 1, 0) == Date(y, m, DaysInMonth(y, m))
  {
    FirstOfAdjacentMonths(y, m);
    EndOfMonth(y, m);
    AddDaysAdd(Date(y, m, 1), DaysInMonth(y, m), -1);
    DayOfMonth(y, m, DaysInMonth(y, m) - 1);
  }

  /** Cell i of the grid, read off the region it falls in, with the `new Date(...)` call that built it. */
  lemma GridIndex(y: int, m: int, i: int)
    requires 0 <= m < 12 && 0 <= i < GridSize
    ensures var lead, len := Leading(y, m), LastDay(y, m);
            MonthGrid(y, m)[i] ==
              if i < lead then DayCell(MakeDate(y, m, i - lead + 1), true)
              else if i < lead + len then DayCell(MakeDate(y, m, i - lead + 1), false)
              else DayCell(MakeDate(y, m + 1, i - lead - len + 1), true)
  {
    CellsIndex(y, m, Leading(y, m), LastDay(y, m), Remaining(y, m), i);
  }

  /** Indexing into padding, month cells and padding of any lengths. */
  lemma CellsIndex(y: int, m: int, lead: nat, len: nat, rem: nat, i: int)
    requires 0 <= i < lead + len + rem
    ensures (LeadingCells(y, m, lead) + MonthCells(y, m, len) + TrailingCells(y, m, rem))[i] ==
              if i < lead then DayCell(MakeDate(y, m, i - lead + 1), true)
              else if i < lead + len then DayCell(MakeDate(y, m, i - lead + 1), false)
              else DayCell(MakeDate(y, m + 1, i - lead - len + 1), true)
  {
    ConcatIndex(LeadingCells(y, m, lead), MonthCells(y, m, len), TrailingCells(y, m, rem), i);
  }

  /** Cell i of the grid is the day i - lead after the 1st, and it is padding exactly outside the month's days. */
  lemma GridCell(y: int, m: int, i: int)
    requires 0 <= m < 12 && 0 <= i < GridSize
    ensures var g := MonthGrid(y, m);
            var lead := DayOfWeek(Date(y, m, 1));
            g[i].date == AddDays(Date(y, m, 1), i - lead) &&
            (g[i].isPadding <==> !(lead <= i < lead + DaysInMonth(y, m)))
  {
    var len := DaysInMonth(y, m);
    FirstOfAdjacentMonths(y, m);
    GridIndex(y, m, i);
    var lead := Leading(y, m);
    assert lead == DayOfWeek(Date(y, m, 1));
    if lead + len <= i {
      PastEndOfMonth(y, m, i - lead - len);
    }
  }

  /**
   * The grid has 42 cells; cell i is the day i - lead after the 1st, where lead is
   * the weekday of the 1st, and exactly the cells lead .. lead + days-in-month - 1
   * are not padding.
   */
  lemma GridCells(y: int, m: int)
    requires 0 <= m < 12
    ensures var g := MonthGrid(y, m);
            var lead := DayOfWeek(Date(y, m, 1));
            |g| == GridSize &&
            forall i :: 0 <= i < GridSize ==>
              g[i].date == AddDays(Date(y, m, 1), i - lead) &&
              (g[i].isPadding <==> !(lead <= i < lead + DaysInMonth(y, m)))
  {
    forall i | 0 <= i < GridSize
      ensures MonthGrid(y, m)[i].date == AddDays(Date(y, m, 1), i - DayOfWeek(Date(y, m, 1)))
      ensures MonthGrid(y, m)[i].isPadding <==> !(DayOfWeek(Date(y, m, 1)) <= i < DayOfWeek(Date(y, m, 1)) + DaysInMonth(y, m))
    {
      GridCell(y, m, i);
    }
  }

  /** Column c of the grid is weekday c: every row runs Sunday to Saturday. */
  lemma GridWeekdays(y: int, m: int, i: int)
    requires 0 <= m < 12 && 0 <= i < GridSize
    ensures DayOfWeek(MonthGrid(y, m)[i].date) == i % 7
  {
    var first := Date(y, m, 1);
    var lead := DayOfWeek(first);
    var d := MonthGrid(y, m)[i].date;
    assert d == AddDays(first, i - lead) by {
      GridCell(y, m, i);
    }
    AddDaysWeekday(first, i - lead);
  }

  /** Consecutive cells are consecutive calendar days. */
  lemma GridConsecutive(y: int, m: int, i: int)
    requires 0 <= m < 12 && 0 <= i < GridSize - 1
    ensures MonthGrid(y, m)[i + 1].date == NextDay(MonthGrid(y, m)[i].date)
  {
    GridCell(y, m, i);
    GridCell(y, m, i + 1);
    var lead := DayOfWeek(Date(y, m, 1));
    AddDaysAdd(Date(y, m, 1), i - lead, 1);
  }

  /** The cell just before the 1st, when there is one, is the last day of the preceding month. */
  lemma GridPrecedingEnd(y: int, m: int)
    requires 0 <= m < 12 && 0 < DayOfWeek(Date(y, m, 1))
    ensures var p := PrecedingMonth(y, m);
            MonthGrid(y, m)[DayOfWeek(Date(y, m, 1)) - 1].date == Date(p.year, p.month, DaysInMonth(p.year, p.month))
  {
    GridCell(y, m, DayOfWeek(Date(y, m, 1)) - 1);
    StartOfMonth(y, m);
  }

  /** The cells from the weekday of the 1st on are the days 1, 2, ... of the month. */
  lemma GridMonthDay(y: int, m: int, i: int)
    requires 0 <= m < 12
    requires DayOfWeek(Date(y, m, 1)) <= i < DayOfWeek(Date(y, m, 1)) + DaysInMonth(y, m)
    ensures MonthGrid(y, m)[i].date == Date(y, m, i - DayOfWeek(Date(y, m, 1)) + 1)
  {
    GridCell(y, m, i);
    DayOfMonth(y, m, i - DayOfWeek(Date(y, m, 1)));
  }

  /** The cells after the month's last day are the days 1, 2, ... of the following month. */
  lemma GridFollowingDay(y: int, m: int, i: int)
    requires 0 <= m < 12
    requires DayOfWeek(Date(y, m, 1)) + DaysInMonth(y, m) <= i < GridSize
    ensures var n := FollowingMonth(y, m);
            MonthGrid(y, m)[i].date == Date(n.year, n.month, i - DayOfWeek(Date(y, m, 1)) - DaysInMonth(y, m) + 1)
  {
    GridCell(y, m, i);
    PastMonthDay(y, m, DayOfWeek(Date(y, m, 1)), i);
  }

  predicate InMonth(c: DayCell) {
    !c.isPadding
  }

  /** Filtering padding, month cells, padding keeps the month cells. */
  lemma FilterRegions(a: seq<DayCell>, b: seq<DayCell>, c: seq<DayCell>)
    requires forall k :: 0 <= k < |a| ==> a[k].isPadding
    requires forall k :: 0 <= k < |b| ==> !b[k].isPadding
    requires forall k :: 0 <= k < |c| ==> c[k].isPadding
    ensures Filter(a + b + c, InMonth) == b
  {
    FilterConcat(a + b, c, InMonth);
    FilterConcat(a, b, InMonth);
    FilterNone(a, InMonth);
    FilterAll(b, InMonth);
    FilterNone(c, InMonth);
    assert [] + b + [] == b;
  }

  /** Dropping the padding leaves the month's own cells. */
  lemma FilterPadding(y: int, m: int)
    requires 0 <= m < 12
    ensures Filter(MonthGrid(y, m), InMonth) == MonthCells(y, m, LastDay(y, m))
  {
    FilterRegions(LeadingCells(y, m, Leading(y, m)), MonthCells(y, m, LastDay(y, m)), TrailingCells(y, m, Remaining(y, m)));
  }

  /** The non-padding cells are the days 1 .. days-in-month of the month, in order (29 for February of a leap year). */
  lemma MonthDays(y: int, m: int)
    requires 0 <= m < 12
    ensures var days := Filter(MonthGrid(y, m), InMonth);
            |days| == DaysInMonth(y, m) && forall k :: 0 <= k < |days| ==> days[k].date == Date(y, m, k + 1)
  {
    FilterPadding(y, m);
    var b := MonthCells(y, m, DaysInMonth(y, m));
    FirstOfAdjacentMonths(y, m);
    forall k | 0 <= k < |b| ensures b[k].date == Date(y, m, k + 1) {
      assert b[k].date == MakeDate(y, m, k + 1) == AddDays(Date(y, m, 1), k);
      DayOfMonth(y, m, k);
    }
  }

  /** April 2024 starts on a Monday: one leading padding cell, the 30 days of April, then 11 trailing cells. */
  lemma AprilGrid()
    ensures var g := MonthGrid(2024, 3);
            g[0].isPadding && g[0].date == Date(2024, 2, 31) &&
            (forall i :: 1 <= i < 31 ==> !g[i].isPadding && g[i].date == Date(2024, 3, i)) &&
            (forall i :: 31 <= i < GridSize ==> g[i].isPadding && g[i].date == Date(2024, 4, i - 30)) &&
            |Filter(g, InMonth)| == 30
  {
    KnownWeekdays();
    assert DaysInMonth(2024, 3) == 30;
    GridPrecedingEnd(2024, 3);
    GridCell(2024, 3, 0);
    forall i | 1 <= i < 31 ensures !MonthGrid(2024, 3)[i].isPadding && MonthGrid(2024, 3)[i].date == Date(2024, 3, i) {
      GridCell(2024, 3, i);
      GridMonthDay(2024, 3, i);
    }
    forall i | 31 <= i < GridSize
      ensures MonthGrid(2024, 3)[i].isPadding && MonthGrid(2024, 3)[i].date == Date(2024, 4, i - 30)
    {
      GridCell(2024, 3, i);
      GridFollowingDay(2024, 3, i);
    }
    MonthDays(2024, 3);
  }

  /** The 42 cells are 42 distinct days, so their `YYYY-MM-DD` texts are distinct. */
  lemma GridKeysDistinct(y: int, m: int, i: int, j: int)
    requires 0 <= m < 12 && 0 <= i < GridSize && 0 <= j < GridSize && i != j
    ensures DateKey(MonthGrid(y, m)[i].date) != DateKey(MonthGrid(y, m)[j].date)
  {
    var lead := GridOffset(y, m, i, j);
    DistinctOffsetKeys(Date(y, m, 1), i - lead, j - lead, MonthGrid(y, m)[i].date, MonthGrid(y, m)[j].date);
  }

  /** Two cells are the same offset, the leading padding, away from the day their index counts from the 1st. */
  lemma GridOffset(y: int, m: int, i: int, j: int) returns (lead: int)
    requires 0 <= m < 12 && 0 <= i < GridSize && 0 <= j < GridSize
    ensures MonthGrid(y, m)[i].date == AddDays(Date(y, m, 1), i - lead)
    ensures MonthGrid(y, m)[j].date == AddDays(Date(y, m, 1), j - lead)
  {
    lead := DayOfWeek(Date(y, m, 1));
    GridCell(y, m, i);
    GridCell(y, m, j);
  }

  // ---- Slots shown in a cell ----

  /** `currentShowing?.timeSlots.filter(slot => slot.date === dateStr) || []`; padding cells are not excluded. */
  function DaySlots(current: Option<Showing>, cell: DayCell): (r: seq<TimeSlot>)
    ensures current.None? ==> r == []
    ensures current.Some? ==>
      IsSubsequence(r, current.value.timeSlots) &&
      (forall s :: s in r <==> s in current.value.timeSlots && s.date == DateKey(cell.date)) &&
      forall s :: multiset(r)[s] == if s.date == DateKey(cell.date) then multiset(current.value.timeSlots)[s] else 0
  {
    match current
    case None => []
    case Some(sh) =>
      FilterIsSubsequence(sh.timeSlots, (s: TimeSlot) => s.date == DateKey(cell.date));
      FilterMembers(sh.timeSlots, (s: TimeSlot) => s.date == DateKey(cell.date));
      FilterCounts(sh.timeSlots, (s: TimeSlot) => s.date == DateKey(cell.date));
      Filter(sh.timeSlots, (s: TimeSlot) => s.date == DateKey(cell.date))
  }

  /** A slot of the showing appears in the cell whose date text it carries, and in no other cell of the grid. */
  lemma SlotInOneCell(y: int, m: int, sh: Showing, slot: TimeSlot, i: int)
    requires 0 <= m < 12 && 0 <= i < GridSize && slot in sh.timeSlots
    requires slot.date == DateKey(MonthGrid(y, m)[i].date)
    ensures slot in DaySlots(Some(sh), MonthGrid(y, m)[i])
    ensures forall j :: 0 <= j < GridSize && j != i ==> slot !in DaySlots(Some(sh), MonthGrid(y, m)[j])
  {
    GridCells(y, m);
    forall j | 0 <= j < GridSize && j != i ensures slot !in DaySlots(Some(sh), MonthGrid(y, m)[j]) {
      GridKeysDistinct(y, m, i, j);
    }
  }

  // ---- Month navigation ----

  /** `new Date(prev.getFullYear(), prev.getMonth() + 1)`. */
  function NextMonth(d: Date): Date {
    MakeDate(d.year, d.month + 1, 1)
  }

  /** `new Date(prev.getFullYear(), prev.getMonth() - 1)`. */
  function PrevMonth(d: Date): Date {
    MakeDate(d.year, d.month - 1, 1)
  }

  /** Navigation moves to the 1st of the adjacent month, rolling the year at December and January. */
  lemma NavigationSteps(d: Date)
    requires Valid(d)
    ensures NextMonth(d) == FollowingMonth(d.year, d.month)
    ensures PrevMonth(d) == PrecedingMonth(d.year, d.month)
    ensures d.month == 11 ==> NextMonth(d) == Date(d.year + 1, 0, 1)
    ensures d.month == 0 ==> PrevMonth(d) == Date(d.year - 1, 11, 1)
  {
    FirstOfAdjacentMonths(d.year, d.month);
  }

  /** Forward then back (or back then forward) returns to the same month, on its 1st. */
  lemma NavigationRoundTrip(d: Date)
    requires Valid(d)
    ensures PrevMonth(NextMonth(d)) == Date(d.year, d.month, 1)
    ensures NextMonth(PrevMonth(d)) == Date(d.year, d.month, 1)
  {
    NavigationSteps(d);
    NavigationSteps(NextMonth(d));
    NavigationSteps(PrevMonth(d));
  }

  // ---- Slot list edits ----

  /** The edit of `handleSaveTimeSlot`: slots with the edited id take the form's fields and keep their id. */
  function EditSlots(slots: seq<TimeSlot>, editingId: string, form: SlotDraft): (r: seq<TimeSlot>)
    ensures |r| == |slots|
    ensures forall i :: 0 <= i < |r| ==>
      if slots[i].id == editingId then r[i].id == editingId && DraftOf(r[i]) == form else r[i] == slots[i]
  {
    Map(slots, (s: TimeSlot) => if s.id == editingId then WithId(form, s.id) else s)
  }

  /** The delete of `handleDeleteTimeSlot`: drops the slots with that id, keeps the rest in order. */
  function DeleteSlots(slots: seq<TimeSlot>, slotId: string): (r: seq<TimeSlot>)
    ensures IsSubsequence(r, slots)
    ensures forall s :: s in r <==> s in slots && s.id != slotId
    ensures forall s :: multiset(r)[s] == if s.id != slotId then multiset(slots)[s] else 0
  {
    FilterIsSubsequence(slots, (s: TimeSlot) => s.id != slotId);
    FilterMembers(slots, (s: TimeSlot) => s.id != slotId);
    FilterCounts(slots, (s: TimeSlot) => s.id != slotId);
    Filter(slots, (s: TimeSlot) => s.id != slotId)
  }

  /** The calendar component's state, over the showing list of its showings hook. */
  class CalendarView {
    const store: ShowingStore
    var currentDate: Date
    var selectedProperty: Option<Property>
    var showTimeSlotModal: bool
    var editingSlot: Option<TimeSlot>

    /** `today` stands for `new Date()`; the first property is preselected. */
    constructor (store: ShowingStore, properties: seq<Property>, today: Date)
      ensures this.store == store && currentDate == today
      ensures selectedProperty == (if |properties| > 0 then Some(properties[0]) else None)
      ensures !showTimeSlotModal && editingSlot == None
    {
      this.store := store;
      currentDate := today;
      selectedProperty := if |properties| > 0 then Some(properties[0]) else None;
      showTimeSlotModal := false;
      editingSlot := None;
    }

    /** The showing of the selected property, as the grid and both handlers look it up. */
    function CurrentShowing(): Option<Showing>
      reads this, store
    {
      match selectedProperty
      case None => None
      case Some(p) => FindByProperty(store.showings, p.id)
    }

    method HandlePrevMonth()
      modifies this
      ensures currentDate == PrevMonth(old(currentDate))
      ensures selectedProperty == old(selectedProperty) && showTimeSlotModal == old(showTimeSlotModal)
      ensures editingSlot == old(editingSlot)
    {
      currentDate := PrevMonth(currentDate);
    }

    method HandleNextMonth()
      modifies this
      ensures currentDate == NextMonth(old(currentDate))
      ensures selectedProperty == old(selectedProperty) && showTimeSlotModal == old(showTimeSlotModal)
      ensures editingSlot == old(editingSlot)
    {
      currentDate := NextMonth(currentDate);
    }

    /** Opens the editor for a new slot, only when a property is selected. */
    method HandleAddTimeSlot()
      modifies this
      ensures old(selectedProperty).None? ==> editingSlot == old(editingSlot) && showTimeSlotModal == old(showTimeSlotModal)
      ensures old(selectedProperty).Some? ==> editingSlot == None && showTimeSlotModal
      ensures currentDate == old(currentDate) && selectedProperty == old(selectedProperty)
    {
      if selectedProperty.Some? {
        editingSlot := None;
        showTimeSlotModal := true;
      }
    }

    method HandleEditTimeSlot(slot: TimeSlot)
      modifies this
      ensures editingSlot == Some(slot) && showTimeSlotModal
      ensures currentDate == old(currentDate) && selectedProperty == old(selectedProperty)
    {
      editingSlot := Some(slot);
      showTimeSlotModal := true;
    }

    /**
     * `handleSaveTimeSlot`: edit the slot being edited, or append a new slot to the
     * property's showing, or create the showing. `newSlotId` and `newShowingId`
     * stand for the random ids.
     */
    method HandleSaveTimeSlot(form: SlotDraft, newSlotId: string, newShowingId: string)
      modifies this, store
      ensures old(selectedProperty).None? ==>
        store.showings == old(store.showings) && editingSlot == old(editingSlot) &&
        showTimeSlotModal == old(showTimeSlotModal)
      ensures old(selectedProperty).Some? ==>
        var current := FindByProperty(old(store.showings), old(selectedProperty).value.id);
        !showTimeSlotModal && editingSlot == None &&
        store.showings ==
          match (old(editingSlot), current)
          case (Some(e), Some(sh)) => ReplaceTimeSlots(old(store.showings), sh.id, EditSlots(sh.timeSlots, e.id, form))
          case (Some(_), None) => old(store.showings)
          case (None, Some(sh)) => ReplaceTimeSlots(old(store.showings), sh.id, sh.timeSlots + [WithId(form, newSlotId)])
          case (None, None) => old(store.showings) + [NewShowing(old(selectedProperty).value, [form], newShowingId, [newSlotId])]
      ensures currentDate == old(currentDate) && selectedProperty == old(selectedProperty)
    {
      if selectedProperty.None? {
        return;
      }
      var property := selectedProperty.value;
      var currentShowing := FindByProperty(store.showings, property.id);
      if editingSlot.Some? {
        if currentShowing.Some? {
          var updatedSlots := EditSlots(currentShowing.value.timeSlots, editingSlot.value.id, form);
          store.UpdateShowingTimeSlots(currentShowing.value.id, updatedSlots);
        }
      } else {
        if currentShowing.Some? {
          var newSlot := WithId(form, newSlotId);
          store.UpdateShowingTimeSlots(currentShowing.value.id, currentShowing.value.timeSlots + [newSlot]);
        } else {
          // the id attached here is overwritten by addPropertyShowing
          var _ := store.AddPropertyShowing(property, [form], newShowingId, [newSlotId]);
        }
      }
      showTimeSlotModal := false;
      editingSlot := None;
    }

    /** `handleDeleteTimeSlot`: removes the slot from the selected property's showing. */
    method HandleDeleteTimeSlot(slotId: string)
      modifies store
      ensures store.showings ==
          if old(selectedProperty).Some? && old(CurrentShowing()).Some?
          then ReplaceTimeSlots(old(store.showings), old(CurrentShowing()).value.id,
                                DeleteSlots(old(CurrentShowing()).value.timeSlots, slotId))
          else old(store.showings)
    {
      if selectedProperty.None? {
        return;
      }
      var currentShowing := FindByProperty(store.showings, selectedProperty.value.id);
      if currentShowing.Some? {
        var updatedSlots := DeleteSlots(currentShowing.value.timeSlots, slotId);
        store.UpdateShowingTimeSlots(currentShowing.value.id, updatedSlots);
      }
    }

    /** The slots drawn in a cell of the current grid. */
    function CellSlots(cell: DayCell): seq<TimeSlot>
      reads this, store
    {
      DaySlots(CurrentShowing(), cell)
    }
  }
}
