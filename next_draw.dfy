/** The next-draw rule of the jackpot endpoint: from the current weekday and
    wall-clock time, how many days ahead the next Tuesday or Friday draw at
    21:05 falls. Weekdays count from 0 (Sunday) as `Date.getDay` does. */
module NextDraw {

  type Weekday = d: int | 0 <= d < 7
  type Hour = h: int | 0 <= h < 24
  type Minute = m: int | 0 <= m < 60

  const Tuesday: Weekday := 2
  const Friday: Weekday := 5

  /** Minutes after midnight of the 21:05 draw. */
  const DrawMinute: int := 21 * 60 + 5

  predicate IsDrawDay(d: int) {
    d == Tuesday || d == Friday
  }

  /** `hours < 21 || (hours === 21 && minutes < 5)` */
  predicate BeforeDrawTime(hour: Hour, minute: Minute) {
    hour < 21 || (hour == 21 && minute < 5)
  }

  /** A draw o days ahead at 21:05 lies strictly after the current minute. */
  predicate SlotAhead(o: int, hour: Hour, minute: Minute) {
    o * 1440 + DrawMinute > hour * 60 + minute
  }

  /** There is a draw at 21:05 o days from a day whose weekday is `day`,
      and it has not started yet. */
  predicate DrawSlot(day: Weekday, o: nat, hour: Hour, minute: Minute) {
    IsDrawDay((day + o) % 7) && SlotAhead(o, hour, minute)
  }

  /** The day offset the branch table chooses. It lands on a Tuesday or a
      Friday whose 21:05 is still ahead, no earlier such draw exists, and so
      it is never more than 4 days away. */
  function DrawDayOffset(day: Weekday, hour: Hour, minute: Minute): (offset: nat)
    ensures offset <= 4
    ensures DrawSlot(day, offset, hour, minute)
    ensures forall o: nat :: o < offset ==> !DrawSlot(day, o, hour, minute)
  {
    if day == 0 then 2
    else if day == 1 then 1
    else if day == 2 then (if BeforeDrawTime(hour, minute) then 0 else 3)
    else if day == 3 then 2
    else if day == 4 then 1
    else if day == 5 then (if BeforeDrawTime(hour, minute) then 0 else 4)
    else 3
  }

  /** The draw is today exactly on a Tuesday or Friday before 21:05. */
  lemma SameDayIffBeforeDraw(day: Weekday, hour: Hour, minute: Minute)
    ensures DrawDayOffset(day, hour, minute) == 0 <==> IsDrawDay(day) && BeforeDrawTime(hour, minute)
  {
  }
}
