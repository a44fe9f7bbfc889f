/** The client's `getNextDrawDate` label. It repeats the server's weekday
    table, returns early with today's weekday on a Tuesday or Friday before
    21:05, and otherwise names the weekday of the shifted date. The
    locale-formatted date of the day `o` days ahead is `dateText(o)`. */
module PredictionsPanel {
  import opened NextDraw

  const Suffix: string := " at 21:05 CET"

  /** The label for the current weekday and time. */
  function NextDrawLabel(day: Weekday, hour: Hour, minute: Minute, dateText: int -> string): string {
    if day == Tuesday && BeforeDrawTime(hour, minute) then
      "Tuesday, " + dateText(0) + Suffix
    else if day == Friday && BeforeDrawTime(hour, minute) then
      "Friday, " + dateText(0) + Suffix
    else
      var offset :=
        if day == 0 then 2
        else if day == 1 then 1
        else if day == 2 then 3
        else if day == 3 then 2
        else if day == 4 then 1
        else if day == 5 then 4
        else 3;
      var dayName := if (day + offset) % 7 == Tuesday then "Tuesday" else "Friday";
      dayName + ", " + dateText(offset) + Suffix
  }

  function DayName(d: int): string {
    if d == Tuesday then "Tuesday" else "Friday"
  }

  /** The label names the weekday of the server's next draw and the date
      that many days ahead: both copies of the table agree, and the
      `dayName` test always picks the day the shifted date falls on. */
  lemma NextDrawLabelSpec(day: Weekday, hour: Hour, minute: Minute, dateText: int -> string)
    ensures var o := DrawDayOffset(day, hour, minute);
      NextDrawLabel(day, hour, minute, dateText) == DayName((day + o) % 7) + ", " + dateText(o) + Suffix
  {
  }

  /** Every label begins with "Tuesday, " or "Friday, ", ends with
      " at 21:05 CET", and names a date at most 4 days ahead. */
  lemma NextDrawLabelShape(day: Weekday, hour: Hour, minute: Minute, dateText: int -> string)
    ensures exists o: nat :: (o <= 4 &&
      (NextDrawLabel(day, hour, minute, dateText) == "Tuesday, " + dateText(o) + Suffix ||
       NextDrawLabel(day, hour, minute, dateText) == "Friday, " + dateText(o) + Suffix))
  {
    NextDrawLabelSpec(day, hour, minute, dateText);
    var o := DrawDayOffset(day, hour, minute);
    assert o <= 4;
  }

  /** On a Tuesday or Friday before 21:05 the label names today and today's date. */
  lemma SameDayLabel(day: Weekday, hour: Hour, minute: Minute, dateText: int -> string)
    requires IsDrawDay(day) && BeforeDrawTime(hour, minute)
    ensures NextDrawLabel(day, hour, minute, dateText) == DayName(day) + ", " + dateText(0) + Suffix
  {
  }
}
