/** `tlgr/gateway/knobs.py`, `QuietHours`: a daily window in minutes of the day,
    start inclusive and end exclusive, which may wrap midnight. Moments are
    local wall-clock seconds since some local midnight. */
module QuietHours {

  const DAY := 86400

  datatype QuietHours = QuietHours(start: int, end: int) {

    /** What `parse` guarantees: both ends are real times of day. */
    predicate Valid() {
      0 <= start < 1440 && 0 <= end < 1440
    }

    function Minute(moment: real): int {
      (moment.Floor % DAY) / 60
    }

    predicate ContainsMinute(minute: int) {
      if start == end then false
      else if start < end then start <= minute < end
      else minute >= start || minute < end
    }

    predicate Contains(moment: real) {
      ContainsMinute(Minute(moment))
    }

    /** The minutes a window holds are those less than its length past its start, counted round the clock. */
    lemma ContainsRoundTheClock(moment: real)
      requires Valid()
      ensures Contains(moment) <==> (Minute(moment) - start) % 1440 < (end - start) % 1440
    {
      var minute := Minute(moment);
      assert 0 <= minute < 1440;
      assert (minute - start) % 1440 == if minute >= start then minute - start else minute - start + 1440;
      assert (end - start) % 1440 == if end >= start then end - start else end - start + 1440;
    }

    /** The end of the window around a moment, and any other moment as it is. */
    function WindowEnd(moment: real): real {
      if !Contains(moment) then moment
      else
        var close := moment.Floor - moment.Floor % DAY + end * 60;
        (if close as real <= moment then close + DAY else close) as real
    }

    lemma MinuteWithinDay(moment: real, midnight: int, s: int)
      requires midnight % DAY == 0 && 0 <= s < DAY
      requires moment.Floor == midnight + s
      ensures Minute(moment) == s / 60
    {
    }

    /** The end of the window is the first instant from `moment` on that lies outside it:
        everything before it is inside, and it is outside, also over midnight. */
    lemma WindowEndIsFirstOutside(moment: real)
      requires Valid()
      ensures WindowEnd(moment) >= moment
      ensures !Contains(WindowEnd(moment))
      ensures forall t: real :: moment <= t < WindowEnd(moment) ==> Contains(t)
    {
      if Contains(moment) {
        var midnight := moment.Floor - moment.Floor % DAY;
        var close := WindowEnd(moment);
        if close > (midnight + end * 60) as real {
          MinuteWithinDay(close, midnight + DAY, end * 60);
        } else {
          MinuteWithinDay(close, midnight, end * 60);
        }
        forall t: real | moment <= t < close ensures Contains(t) {
          InsideUntilClose(moment, t);
        }
      }
    }

    lemma InsideUntilClose(moment: real, t: real)
      requires Valid() && Contains(moment) && moment <= t < WindowEnd(moment)
      ensures Contains(t)
    {
      var midnight := moment.Floor - moment.Floor % DAY;
      MinuteWithinDay(moment, midnight, moment.Floor - midnight);
      if t.Floor < midnight + DAY {
        MinuteWithinDay(t, midnight, t.Floor - midnight);
      } else {
        MinuteWithinDay(t, midnight + DAY, t.Floor - midnight - DAY);
      }
    }
  }
}
