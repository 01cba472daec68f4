/**
 * The wear calendar: the month grid, the lookup of the log worn on a day,
 * the month heading, and the add-record dialog.
 */
module Calendar {
  import opened Wrappers
  import opened Text
  import opened Domain

  /** A local calendar day; `month` is zero-based, as `getMonth` returns it. */
  datatype CalendarDate = CalendarDate(year: nat, month: nat, day: nat)

  /** A wear record; `wornDate` is the local day its timestamp falls on. */
  datatype OutfitLog = OutfitLog(id: string, wornDate: CalendarDate, occasion: Option<string>, notes: Option<string>, outfitName: string)

  /**
   * `getDaysInMonth`: `startingDayOfWeek` empty cells, then the days 1 to
   * `daysInMonth` in order. The two counts are what `Date` reports for the
   * month; they are taken as inputs here.
   */
  method DaysInMonth(year: nat, month: nat, daysInMonth: nat, startingDayOfWeek: nat) returns (days: seq<Option<CalendarDate>>)
    ensures |days| == startingDayOfWeek + daysInMonth
    ensures startingDayOfWeek <= 6 && daysInMonth <= 31 ==> |days| <= 37
    ensures forall k :: 0 <= k < startingDayOfWeek ==> days[k].None?
    ensures forall d :: 1 <= d <= daysInMonth ==> days[startingDayOfWeek + d - 1] == Some(CalendarDate(year, month, d))
    ensures forall a, b :: startingDayOfWeek <= a < b < |days| ==> days[a].Some? && days[b].Some? && days[a].value.day < days[b].value.day
  {
    days := [];
    var i := 0;
    while i < startingDayOfWeek
      invariant 0 <= i <= startingDayOfWeek
      invariant |days| == i
      invariant forall k :: 0 <= k < i ==> days[k].None?
    {
      days := days + [None];
      i := i + 1;
    }
    i := 1;
    while i <= daysInMonth
      invariant 1 <= i <= daysInMonth + 1
      invariant |days| == startingDayOfWeek + i - 1
      invariant forall k :: 0 <= k < startingDayOfWeek ==> days[k].None?
      invariant forall k :: startingDayOfWeek <= k < |days| ==> days[k] == Some(CalendarDate(year, month, k - startingDayOfWeek + 1))
    {
      days := days + [Some(CalendarDate(year, month, i))];
      i := i + 1;
    }
  }

  /** `logs[i]` is worn on `date` and no earlier log is. */
  predicate FirstWornOn(logs: seq<OutfitLog>, date: CalendarDate, i: int)
  {
    0 <= i < |logs| && logs[i].wornDate == date && forall j :: 0 <= j < i ==> logs[j].wornDate != date
  }

  /** The position of the first log worn on `date`, if any. */
  function FirstLogIndex(logs: seq<OutfitLog>, date: CalendarDate): (r: Option<nat>)
    ensures r.Some? ==> r.value < |logs| && logs[r.value].wornDate == date
    ensures r.Some? ==> forall j :: 0 <= j < r.value ==> logs[j].wornDate != date
    ensures r.None? ==> forall j :: 0 <= j < |logs| ==> logs[j].wornDate != date
  {
    if logs == [] then None
    else if logs[0].wornDate == date then Some(0)
    else match FirstLogIndex(logs[1..], date)
      case None => None
      case Some(k) => Some(k + 1)
  }

  /**
   * `getOutfitLogForDate`: nothing for an empty cell; otherwise the first
   * log (in list order) worn that day, or nothing when there is none.
   */
  function OutfitLogForDate(logs: seq<OutfitLog>, date: Option<CalendarDate>): (r: Option<OutfitLog>)
    ensures date.None? ==> r.None?
    ensures date.Some? && r.None? ==> forall j :: 0 <= j < |logs| ==> logs[j].wornDate != date.value
    ensures r.Some? ==> date.Some? && exists i :: FirstWornOn(logs, date.value, i) && logs[i] == r.value
  {
    if date.None? then None
    else match FirstLogIndex(logs, date.value)
      case None => None
      case Some(i) => Some(logs[i])
  }

  /** `formatMonth`: `${year}年${month + 1}月`. */
  function FormatMonth(year: nat, month: nat): string
  {
    NatToString(year) + "年" + NatToString(month + 1) + "月"
  }

  /** The index of the first `c` in `s`, if any. */
  function IndexOf(s: string, c: char): (r: Option<nat>)
    ensures r.Some? ==> r.value < |s| && s[r.value] == c && forall j :: 0 <= j < r.value ==> s[j] != c
    ensures r.None? ==> forall j :: 0 <= j < |s| ==> s[j] != c
  {
    if s == [] then None
    else if s[0] == c then Some(0)
    else match IndexOf(s[1..], c)
      case None => None
      case Some(k) => Some(k + 1)
  }

  /** Reads a month heading back into the year and the one-based month it shows. */
  function ParseMonthHeading(s: string): Option<(nat, nat)>
  {
    if |s| == 0 || s[|s| - 1] != '月' then None
    else
      var body := s[..|s| - 1];
      match IndexOf(body, '年')
      case None => None
      case Some(k) =>
        match (ParseNat(body[..k]), ParseNat(body[k + 1..]))
        case (Some(y), Some(m)) => Some((y, m))
        case _ => None
  }

  /** The heading shows the year and the zero-based month plus one, and nothing else. */
  lemma {:induction false} FormatMonthShowsMonthPlusOne(year: nat, month: nat)
    ensures ParseMonthHeading(FormatMonth(year, month)) == Some((year, month + 1))
  {
    var y := NatToString(year);
    var m := NatToString(month + 1);
    var s := FormatMonth(year, month);
    var body := s[..|s| - 1];
    assert body == y + "年" + m;
    assert forall j :: 0 <= j < |y| ==> body[j] == y[j] && IsDigit(y[j]);
    assert body[|y|] == '年';
    assert IndexOf(body, '年') == Some(|y|);
    assert body[..|y|] == y;
    assert body[|y| + 1..] == m;
    ParseNatToString(year);
    ParseNatToString(month + 1);
  }

  /** The record the dialog posts. */
  datatype OutfitLogRequest = OutfitLogRequest(outfitId: string, wornDate: CalendarDate, occasion: string, notes: string)

  /** The guard of `handleAddOutfitLog`: with no outfit chosen nothing is sent. */
  function AddLogRequest(selectedOutfit: string, date: CalendarDate, occasion: string, notes: string): (r: Option<OutfitLogRequest>)
    ensures r.None? <==> selectedOutfit == ""
    ensures r.Some? ==> r == Some(OutfitLogRequest(selectedOutfit, date, occasion, notes))
  {
    if selectedOutfit == "" then None else Some(OutfitLogRequest(selectedOutfit, date, occasion, notes))
  }

  /**
   * The text `handleAddOutfitLog` passes to `alert`: `请选择搭配方案` when no
   * outfit is chosen, `穿搭记录添加成功！` after an ok answer, and otherwise the
   * caught message, `添加穿搭记录失败` for a non-ok answer.
   */
  function AddLogAlert(selectedOutfit: string, outcome: RequestOutcome): (r: string)
    ensures selectedOutfit == "" ==> r == "请选择搭配方案"
    ensures selectedOutfit != "" && outcome.OkResponse? ==> r == "穿搭记录添加成功！"
    ensures selectedOutfit != "" && !outcome.OkResponse? ==> r == CaughtMessage(outcome, "添加穿搭记录失败")
  {
    if selectedOutfit == "" then "请选择搭配方案"
    else if outcome.OkResponse? then "穿搭记录添加成功！"
    else CaughtMessage(outcome, "添加穿搭记录失败")
  }

  /** The calendar's dialog state. */
  class CalendarView {
    var outfitLogs: seq<OutfitLog>
    var selectedDate: CalendarDate
    var showAddModal: bool
    var selectedOutfit: string
    var occasion: string
    var notes: string

    /** The page opens on today, with the dialog closed and its fields empty. */
    constructor (today: CalendarDate)
      ensures outfitLogs == [] && selectedDate == today
      ensures !showAddModal && selectedOutfit == "" && occasion == "" && notes == ""
    {
      outfitLogs := [];
      selectedDate := today;
      showAddModal := false;
      selectedOutfit := "";
      occasion := "";
      notes := "";
    }

    /** Clicking a cell: a day cell selects that day and opens the dialog; an empty cell does nothing. */
    method ClickCell(cell: Option<CalendarDate>)
      modifies this
      ensures cell.Some? ==> selectedDate == cell.value && showAddModal
      ensures cell.None? ==> selectedDate == old(selectedDate) && showAddModal == old(showAddModal)
      ensures selectedOutfit == old(selectedOutfit) && occasion == old(occasion) && notes == old(notes)
      ensures outfitLogs == old(outfitLogs)
    {
      if cell.Some? {
        selectedDate := cell.value;
        showAddModal := true;
      }
    }

    /** Closes the dialog and empties its fields. */
    method ResetDialog()
      modifies this
      ensures !showAddModal && selectedOutfit == "" && occasion == "" && notes == ""
      ensures selectedDate == old(selectedDate) && outfitLogs == old(outfitLogs)
    {
      showAddModal := false;
      selectedOutfit := "";
      occasion := "";
      notes := "";
    }

    /** The cancel button. */
    method Cancel()
      modifies this
      ensures !showAddModal && selectedOutfit == "" && occasion == "" && notes == ""
      ensures selectedDate == old(selectedDate) && outfitLogs == old(outfitLogs)
    {
      ResetDialog();
    }

    /**
     * `handleAddOutfitLog`: with no outfit chosen nothing is sent and nothing
     * changes; otherwise the record for the selected day is sent, and after an
     * ok answer the dialog closes and its fields are emptied; a failed request
     * leaves everything as it was. Every path ends in one alert.
     */
    method HandleAddOutfitLog(outcome: RequestOutcome) returns (sent: Option<OutfitLogRequest>, alertText: string)
      modifies this
      ensures sent == AddLogRequest(old(selectedOutfit), old(selectedDate), old(occasion), old(notes))
      ensures alertText == AddLogAlert(old(selectedOutfit), outcome)
      ensures sent.Some? && outcome.OkResponse? ==> !showAddModal && selectedOutfit == "" && occasion == "" && notes == ""
      ensures sent.None? || !outcome.OkResponse? ==>
        showAddModal == old(showAddModal) && selectedOutfit == old(selectedOutfit)
        && occasion == old(occasion) && notes == old(notes)
      ensures selectedDate == old(selectedDate) && outfitLogs == old(outfitLogs)
    {
      alertText := AddLogAlert(selectedOutfit, outcome);
      if selectedOutfit == "" {
        return None, alertText;
      }
      sent := Some(OutfitLogRequest(selectedOutfit, selectedDate, occasion, notes));
      if outcome.OkResponse? {
        ResetDialog();
      }
    }
  }
}
