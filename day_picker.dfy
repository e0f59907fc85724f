/** The day drop-downs of the dashboard (update_start_day and
    update_end_day in main.py, which are the same code): when the month
    changes, the day options become 1..max_days and the chosen day is
    clamped to max_days. The dashboard's dates all lie in 2023. */
module DayPicker {
  import opened Calendar

  const DashboardYear: int := 2023

  /** 28 for February, 30 for April, June, September and November, 31 for
      any other month value. */
  function MaxDays(month: int): (n: int)
    ensures 28 <= n <= 31 && n != 29
    ensures n == 28 <==> month == 2
    ensures n == 30 <==> month == 4 || month == 6 || month == 9 || month == 11
  {
    if month == 2 then 28
    else if month in [4, 6, 9, 11] then 30
    else 31
  }

  /** For a real month, max_days is the length of that month in 2023. */
  lemma MaxDaysIsMonthLength(month: int)
    requires 1 <= month <= 12
    ensures MaxDays(month) == DaysInMonth(DashboardYear, month)
  {
  }

  /** The new option list (each option's label and value are the day) and
      the new selected day. */
  datatype DayChoice = DayChoice(options: seq<int>, day: int)

  function UpdateDay(month: int, currentDay: int): (r: DayChoice)
    ensures |r.options| == MaxDays(month)
    ensures forall i :: 0 <= i < |r.options| ==> r.options[i] == i + 1
    ensures r.day <= MaxDays(month)
    ensures r.day == currentDay || r.day == MaxDays(month)
    ensures currentDay <= MaxDays(month) ==> r.day == currentDay
  {
    var maxDays := MaxDays(month);
    var options := seq(maxDays, i requires 0 <= i < maxDays => i + 1);
    var newDay := if currentDay > maxDays then maxDays else currentDay;
    DayChoice(options, newDay)
  }

  /** After a month change, a selected day of at least 1 names a real date
      of 2023, and it is one of the options. */
  lemma UpdateDayGivesValidDate(month: int, currentDay: int)
    requires 1 <= month <= 12 && currentDay >= 1
    ensures ValidDate(Date(DashboardYear, month, UpdateDay(month, currentDay).day))
    ensures UpdateDay(month, currentDay).day in UpdateDay(month, currentDay).options
  {
    var r := UpdateDay(month, currentDay);
    assert r.options[r.day - 1] == r.day;
  }

  /** Day 30 in February becomes 28. */
  lemma FebruaryThirtieth()
    ensures UpdateDay(2, 30).day == 28
  {
  }
}
