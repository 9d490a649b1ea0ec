/**
 Weekly opening hours on the business's wall clock, and the search for the next moment
 it is open.
 */
module Hours {
  import opened Common

  const MINUTE := 60_000_000
  const DAY := 1440 * MINUTE

  /** A wall-clock moment: a day counted from some Monday, and microseconds into it. */
  datatype Moment = Moment(day: int, micros: int)
  {
    predicate Valid() { 0 <= micros < DAY }
    predicate Before(other: Moment) { day < other.day || (day == other.day && micros < other.micros) }
  }

  /** Opening and closing minute of a day. */
  datatype Window = Window(start: nat, end: nat)
  {
    predicate Valid() { start < 1440 && end < 1440 }
    predicate Contains(micros: int) { start * MINUTE <= micros < end * MINUTE }
  }

  datatype Weekly = Weekly(monFri: Option<Window>, sat: Option<Window>, sun: Option<Window>)
  {
    predicate Valid() {
      && (monFri.Some? ==> monFri.value.Valid())
      && (sat.Some? ==> sat.value.Valid())
      && (sun.Some? ==> sun.value.Valid())
    }

    /** Monday is day 0 of the week. */
    function On(day: int): Option<Window> {
      if day % 7 < 5 then monFri else if day % 7 == 5 then sat else sun
    }
  }

  predicate IsOpen(hours: Weekly, m: Moment) {
    var window := hours.On(m.day);
    window.Some? && window.value.Contains(m.micros)
  }

  function Search(hours: Weekly, now: Moment, offset: int, horizonDays: int): Option<Moment>
    decreases horizonDays - offset
  {
    if offset > horizonDays then None
    else
      var day := now.day + offset;
      var window := hours.On(day);
      if window.None? then Search(hours, now, offset + 1, horizonDays)
      else
        var candidate := Moment(day, window.value.start * MINUTE);
        if offset == 0 && window.value.Contains(now.micros) then Some(now)
        else if !candidate.Before(now) then Some(candidate)
        else Search(hours, now, offset + 1, horizonDays)
  }

  function NextOpen(hours: Weekly, now: Moment, horizonDays: int): Option<Moment> {
    Search(hours, now, 0, horizonDays)
  }

  lemma {:induction false} SearchResult(hours: Weekly, now: Moment, offset: int, horizonDays: int, m: Moment)
    requires hours.Valid() && now.Valid() && offset >= 0
    requires m.Valid() && !m.Before(now) && m.day >= now.day + offset
    ensures var found := Search(hours, now, offset, horizonDays);
            && (found.Some? ==>
                  && found.value.Valid() && !found.value.Before(now)
                  && now.day + offset <= found.value.day <= now.day + horizonDays
                  && hours.On(found.value.day).Some?
                  && (found.value == now || found.value.micros == hours.On(found.value.day).value.start * MINUTE)
                  && (found.value == now ==> IsOpen(hours, now) || now.micros == hours.On(now.day).value.start * MINUTE)
                  && (m.Before(found.value) ==> !IsOpen(hours, m)))
            && (found.None? && m.day <= now.day + horizonDays ==> !IsOpen(hours, m))
    decreases horizonDays - offset
  {
    if offset <= horizonDays && m.day > now.day + offset {
      SearchResult(hours, now, offset + 1, horizonDays, m);
    } else if offset <= horizonDays {
      // `m` falls on the day under consideration; any later moment shows what the rest of the search gives.
      SearchResult(hours, now, offset + 1, horizonDays, Moment(now.day + offset + 1, 0));
    }
  }

  /**
   Whatever the search returns lies at or after `now`, within the horizon, with no open
   moment in between; and when it returns nothing, nothing in the horizon is open.
   */
  lemma NothingOpenSkipped(hours: Weekly, now: Moment, horizonDays: nat, m: Moment)
    requires hours.Valid() && now.Valid() && m.Valid() && !m.Before(now)
    ensures var found := NextOpen(hours, now, horizonDays);
            && (found.Some? ==> !found.value.Before(now) && found.value.day <= now.day + horizonDays)
            && (found.Some? && m.Before(found.value) ==> !IsOpen(hours, m))
            && (found.None? && m.day <= now.day + horizonDays ==> !IsOpen(hours, m))
  {
    SearchResult(hours, now, 0, horizonDays, m);
  }

  /**
   The returned moment is really open exactly when that day's window does not end before
   it starts, a shape the configuration accepts.
   */
  lemma OpenIffWindowIsForward(hours: Weekly, now: Moment, horizonDays: int)
    requires hours.Valid() && now.Valid() && NextOpen(hours, now, horizonDays).Some?
    ensures var t := NextOpen(hours, now, horizonDays).value;
            && hours.On(t.day).Some?
            && (IsOpen(hours, t) <==> hours.On(t.day).value.start < hours.On(t.day).value.end)
  {
    SearchResult(hours, now, 0, horizonDays, now);
  }

  /** A day that is closed, or whose window starts before it ends. */
  predicate Forward(window: Option<Window>) {
    window.Some? ==> window.value.start < window.value.end
  }

  ghost predicate AlwaysOpenWhenOffered(hours: Weekly, horizonDays: int) {
    forall now: Moment | now.Valid() && NextOpen(hours, now, horizonDays).Some? ::
      IsOpen(hours, NextOpen(hours, now, horizonDays).value)
  }

  /**
   Of a configuration: what is offered is open, whenever it is asked for, exactly when
   every range that is not closed starts before it ends.
   */
  lemma OffersOpenIff(hours: Weekly, horizonDays: int)
    requires hours.Valid() && horizonDays >= 0
    ensures AlwaysOpenWhenOffered(hours, horizonDays) <==>
              Forward(hours.monFri) && Forward(hours.sat) && Forward(hours.sun)
  {
    if Forward(hours.monFri) && Forward(hours.sat) && Forward(hours.sun) {
      forall now: Moment | now.Valid() && NextOpen(hours, now, horizonDays).Some?
        ensures IsOpen(hours, NextOpen(hours, now, horizonDays).value)
      {
        OpenIffWindowIsForward(hours, now, horizonDays);
      }
    } else if !Forward(hours.monFri) {
      OfferedClosed(hours, 0, horizonDays);
    } else if !Forward(hours.sat) {
      OfferedClosed(hours, 5, horizonDays);
    } else {
      OfferedClosed(hours, 6, horizonDays);
    }
  }

  /** Asked at the start of a window that does not run forward, the answer is that very moment. */
  lemma OfferedClosed(hours: Weekly, day: nat, horizonDays: int)
    requires hours.Valid() && horizonDays >= 0 && day < 7 && !Forward(hours.On(day))
    ensures !AlwaysOpenWhenOffered(hours, horizonDays)
  {
    var now := Moment(day, hours.On(day).value.start * MINUTE);
    assert now.Valid() && NextOpen(hours, now, horizonDays) == Some(now) && !IsOpen(hours, now);
  }

  /** When every window runs forward the search returns the first open moment of the horizon, if there is one. */
  lemma FirstOpenMoment(hours: Weekly, now: Moment, horizonDays: nat, m: Moment)
    requires hours.Valid() && now.Valid() && m.Valid() && !m.Before(now) && m.day <= now.day + horizonDays
    requires forall day :: hours.On(day).Some? ==> hours.On(day).value.start < hours.On(day).value.end
    requires IsOpen(hours, m)
    ensures var found := NextOpen(hours, now, horizonDays);
            && found.Some? && IsOpen(hours, found.value)
            && !found.value.Before(now) && !m.Before(found.value)
  {
    NothingOpenSkipped(hours, now, horizonDays, m);
    OpenIffWindowIsForward(hours, now, horizonDays);
  }

  /** An overnight window is offered as open although it never is. */
  lemma OvernightWindowNeverOpens(now: Moment)
    requires now == Moment(0, 9 * 60 * MINUTE)
    ensures var hours := Weekly(Some(Window(22 * 60, 6 * 60)), None, None);
            && hours.Valid()
            && NextOpen(hours, now, 14) == Some(Moment(0, 22 * 60 * MINUTE))
            && forall m: Moment | m.Valid() :: !IsOpen(hours, m)
  {
  }

  /** With a horizon of at least a week the search fails only for a business that never opens. */
  lemma NoneIffNeverOpens(hours: Weekly, now: Moment, horizonDays: int)
    requires hours.Valid() && now.Valid() && horizonDays >= 7
    ensures NextOpen(hours, now, horizonDays).None? <==> hours.monFri.None? && hours.sat.None? && hours.sun.None?
  {
    var w := now.day % 7;
    if hours.monFri.Some? {
      assert (now.day + (7 - w)) % 7 == 0;
      FindsDay(hours, now, 0, horizonDays, 7 - w);
    } else if hours.sat.Some? {
      var k := if w < 5 then 5 - w else 12 - w;
      assert (now.day + k) % 7 == 5;
      FindsDay(hours, now, 0, horizonDays, k);
    } else if hours.sun.Some? {
      var k := if w < 6 then 6 - w else 7;
      assert (now.day + k) % 7 == 6;
      FindsDay(hours, now, 0, horizonDays, k);
    }
    if hours.monFri.None? && hours.sat.None? && hours.sun.None? {
      NeverFinds(hours, now, 0, horizonDays);
    }
  }

  lemma {:induction false} FindsDay(hours: Weekly, now: Moment, offset: int, horizonDays: int, k: int)
    requires hours.Valid() && now.Valid() && 0 <= offset <= k <= horizonDays && k > 0 && hours.On(now.day + k).Some?
    ensures Search(hours, now, offset, horizonDays).Some?
    decreases k - offset
  {
    if offset < k {
      FindsDay(hours, now, offset + 1, horizonDays, k);
    }
  }

  lemma {:induction false} NeverFinds(hours: Weekly, now: Moment, offset: int, horizonDays: int)
    requires hours == Weekly(None, None, None)
    ensures Search(hours, now, offset, horizonDays).None?
    decreases horizonDays - offset
  {
    if offset <= horizonDays {
      NeverFinds(hours, now, offset + 1, horizonDays);
    }
  }

  /** Monday to Friday, Saturday and Sunday each keep their own range, closed from its end on. */
  lemma WeekdayRanges(hours: Weekly, week: int, weekday: nat, micros: int)
    requires weekday < 7
    ensures var range := if weekday <= 4 then hours.monFri else if weekday == 5 then hours.sat else hours.sun;
            IsOpen(hours, Moment(7 * week + weekday, micros)) <==>
              range.Some? && range.value.start * 60_000_000 <= micros < range.value.end * 60_000_000
  {
    assert (7 * week + weekday) % 7 == weekday;
  }
}
