/** Business-day counting, the rollover deadline, and UMC's regular session seen from Taipei. */
module ContractCalendar {
  import opened Models

  // Dates count days from 1 on a Monday; instants count seconds in Taipei time, with date d starting at d * DAY.

  const DAY := 86400
  const RTH_SECONDS := 390 * 60

  function Weekday(date: int): int {
    (date + 6) % 7
  }

  predicate IsBusinessDay(date: int, holidays: set<int>) {
    Weekday(date) < 5 && date !in holidays
  }

  /** Business days d with low <= d < high. */
  function BusinessDays(low: int, high: int, holidays: set<int>): nat
    decreases high - low
  {
    if high <= low then 0
    else (if IsBusinessDay(high - 1, holidays) then 1 else 0)
         + BusinessDays(low, high - 1, holidays)
  }

  /**
   Date 1 is a Monday: five days of business from every Monday on, less the holidays among them, and then two without.
   */
  lemma BusinessWeek(monday: int, k: int, holidays: set<int>)
    requires (monday - 1) % 7 == 0 && 0 <= k < 7
    ensures IsBusinessDay(monday + k, holidays) <==> k < 5 && monday + k !in holidays
  {
  }

  method BusinessDaysBetween(start: int, end: int, holidays: set<int>) returns (count: nat)
    ensures count == BusinessDays(start + 1, end + 1, holidays)
  {
    if end <= start {
      return 0;
    }
    count := 0;
    var current := start + 1;
    while current <= end
      invariant start + 1 <= current <= end + 1
      invariant count == BusinessDays(start + 1, current, holidays)
    {
      if IsBusinessDay(current, holidays) {
        count := count + 1;
      }
      current := current + 1;
    }
  }

  function Below(holidays: set<int>, date: int): set<int> {
    set h | h in holidays && h < date
  }

  /** Weekend days immediately before a date. */
  function WeekendBefore(date: int): nat {
    if Weekday(date) == 0 then 2 else if Weekday(date) == 6 then 1 else 0
  }

  /**
   How far the search can still be held up: three for every holiday ahead of it, plus the weekend it stands behind.
   */
  function Obstacles(holidays: set<int>, date: int): nat {
    3 * |Below(holidays, date)| + WeekendBefore(date)
  }

  lemma StepClears(holidays: set<int>, date: int)
    requires !IsBusinessDay(date - 1, holidays)
    ensures Obstacles(holidays, date - 1) < Obstacles(holidays, date)
  {
    var before, after := Below(holidays, date), Below(holidays, date - 1);
    if Weekday(date - 1) >= 5 {
      if date - 1 in holidays {
        assert before == after + {date - 1};
      } else {
        assert before == after;
      }
    } else {
      assert before == after + {date - 1};
      assert |before| == |after| + 1;
    }
  }

  /**
   The search ends for every finite set of holidays, at the day with exactly `days` business days from it up to the
   start.
   */
  method PreviousBusinessDay(value: int, days: int, holidays: set<int>) returns (current: int)
    ensures current <= value
    ensures BusinessDays(current, value, holidays) == if days > 0 then days else 0
    ensures days > 0 ==> IsBusinessDay(current, holidays)
    ensures days <= 0 ==> current == value
  {
    current := value;
    var remaining := days;
    while remaining > 0
      invariant current <= value
      invariant BusinessDays(current, value, holidays)
                == (if days > 0 then days else 0) - (if remaining > 0 then remaining else 0)
      invariant days <= 0 ==> current == value
      invariant remaining <= days && (days > 0 ==> remaining >= 0)
      invariant remaining < days ==> remaining > 0 || IsBusinessDay(current, holidays)
      decreases remaining, Obstacles(holidays, current)
    {
      DownOne(current, value, holidays);
      if IsBusinessDay(current - 1, holidays) {
        remaining := remaining - 1;
      } else {
        StepClears(holidays, current);
      }
      current := current - 1;
    }
  }

  lemma {:induction false} DownOne(low: int, high: int, holidays: set<int>)
    requires low <= high
    ensures BusinessDays(low - 1, high, holidays)
            == BusinessDays(low, high, holidays) + (if IsBusinessDay(low - 1, holidays) then 1 else 0)
    decreases high - low
  {
    if low < high {
      DownOne(low, high - 1, holidays);
    }
  }

  /**
   The two counters disagree by one at a non-business start: the search counts days before it, the difference days
   after.
   */
  lemma BetweenAfterPrevious(earlier: int, value: int, n: nat, holidays: set<int>)
    requires n >= 1 && earlier <= value && BusinessDays(earlier, value, holidays) == n
             && IsBusinessDay(earlier, holidays)
    ensures BusinessDays(earlier + 1, value + 1, holidays) == if IsBusinessDay(value, holidays) then n else n - 1
  {
    assert earlier < value;
    DownOne(earlier + 1, value, holidays);
  }

  method CountBackAndForth(value: int, n: nat, holidays: set<int>) returns (between: nat)
    requires n >= 1
    ensures between == if IsBusinessDay(value, holidays) then n else n - 1
  {
    var earlier := PreviousBusinessDay(value, n, holidays);
    between := BusinessDaysBetween(earlier, value, holidays);
    BetweenAfterPrevious(earlier, value, n, holidays);
  }

  // ---------------------------------------------------------------- sessions

  /**
   Whether US daylight saving is in force on a market date: sessions close at 04:00 Taipei then, at 05:00 otherwise.
   */
  type Dst = int -> bool

  function ClosesAt(dst: Dst, marketDate: int): int {
    (marketDate + 1) * DAY + (if dst(marketDate) then 4 else 5) * 3600
  }

  function OpensAt(dst: Dst, marketDate: int): int {
    ClosesAt(dst, marketDate) - RTH_SECONDS
  }

  function DateOf(instant: int): int {
    instant / DAY
  }

  predicate Trades(marketDate: int) {
    Weekday(marketDate) < 5
  }

  predicate Inside(dst: Dst, marketDate: int, instant: int) {
    Trades(marketDate) && OpensAt(dst, marketDate) <= instant < ClosesAt(dst, marketDate)
  }

  /**
   A session runs from 21:30 to 04:00 Taipei time under daylight saving and from 22:30 to 05:00 otherwise, on Mondays to
   Fridays; its first instant is inside and its last is not.
   */
  lemma SessionHours(dst: Dst, marketDate: int)
    ensures OpensAt(dst, marketDate) == marketDate * DAY + (if dst(marketDate) then 77400 else 81000)
    ensures ClosesAt(dst, marketDate) == (marketDate + 1) * DAY + (if dst(marketDate) then 14400 else 18000)
    ensures Trades(marketDate) <==> (marketDate - 1) % 7 < 5
    ensures Trades(marketDate) ==>
              && Inside(dst, marketDate, OpensAt(dst, marketDate))
              && Inside(dst, marketDate, ClosesAt(dst, marketDate) - 1)
              && !Inside(dst, marketDate, OpensAt(dst, marketDate) - 1)
              && !Inside(dst, marketDate, ClosesAt(dst, marketDate))
  {
  }

  /** A session lies between its own Taipei evening and the next morning. */
  lemma SessionSpan(dst: Dst, marketDate: int)
    ensures marketDate * DAY + 77400 <= OpensAt(dst, marketDate) < ClosesAt(dst, marketDate)
            <= (marketDate + 1) * DAY + 18000
    ensures DateOf(ClosesAt(dst, marketDate)) == marketDate + 1
  {
    var late := if dst(marketDate) then 4 * 3600 else 5 * 3600;
    assert ((marketDate + 1) * DAY + late) / DAY == marketDate + 1;
  }

  lemma DateBounds(instant: int)
    ensures DateOf(instant) * DAY <= instant < (DateOf(instant) + 1) * DAY
  {
  }

  /** Only yesterday's and today's market dates can hold an instant: looking at two of them is complete. */
  lemma TwoDatesSuffice(dst: Dst, marketDate: int, instant: int)
    requires Inside(dst, marketDate, instant)
    ensures marketDate == DateOf(instant) - 1 || marketDate == DateOf(instant)
  {
    SessionSpan(dst, marketDate);
    DateBounds(instant);
  }

  /**
   The last close dated on or before a day, found within a week whatever the clock change; holidays are not modelled.
   */
  method PairSessionCloseOn(dst: Dst, day: int) returns (close: int)
    ensures exists d :: Trades(d) && close == ClosesAt(dst, d)
    ensures DateOf(close) <= day
    ensures forall d :: Trades(d) && DateOf(ClosesAt(dst, d)) <= day ==> ClosesAt(dst, d) <= close
  {
    for offset := 1 to 8
      invariant forall d :: day - offset < d <= day - 1 ==> !Trades(d)
    {
      var marketDate := day - offset;
      if Weekday(marketDate) >= 5 {
        continue;
      }
      close := ClosesAt(dst, marketDate);
      SessionSpan(dst, marketDate);
      if DateOf(close) <= day {
        forall d | Trades(d) && DateOf(ClosesAt(dst, d)) <= day
          ensures ClosesAt(dst, d) <= close
        {
          SessionSpan(dst, d);
        }
        assert Trades(marketDate);
        return;
      }
    }
    SevenDaysHaveWeekdays(day - 7);
    assert false;
  }

  lemma SevenDaysHaveWeekdays(from: int)
    ensures exists d :: from <= d < from + 7 && Trades(d)
  {
    if Trades(from) {
    } else if Trades(from + 1) {
    } else {
      assert Trades(from + 2);
    }
  }

  /**
   A grace of 1 to 390 minutes puts the deadline inside the session it ends, never after it and never before it opens.
   */
  method ForceExitDeadline(dst: Dst, expiry: int, businessDays: int, holidays: set<int>, graceMinutes: int)
    returns (deadline: int)
    ensures exists d ::
              Trades(d) && deadline == ClosesAt(dst, d) - 60 * graceMinutes
              && ClosesAt(dst, d) < (expiry + 1) * DAY
              && (Inside(dst, d, deadline) <==> 1 <= graceMinutes <= 390)
  {
    var day := PreviousBusinessDay(expiry, businessDays, holidays);
    var close := PairSessionCloseOn(dst, day);
    deadline := close - 60 * graceMinutes;
    ghost var d :| Trades(d) && close == ClosesAt(dst, d);
    SessionSpan(dst, d);
    DateBounds(close);
  }

  /** Inside exactly when some session holds the instant; otherwise the next open is the first one after it. */
  method UmcRthStatus(dst: Dst, observedAt: int) returns (inside: bool, open: int)
    ensures inside <==> exists d :: Inside(dst, d, observedAt)
    ensures inside ==> exists d :: Inside(dst, d, observedAt) && open == OpensAt(dst, d)
    ensures !inside ==> (exists d :: Trades(d) && open == OpensAt(dst, d)) && observedAt < open
    ensures !inside ==> forall d :: Trades(d) && OpensAt(dst, d) > observedAt ==> open <= OpensAt(dst, d)
  {
    var today := DateOf(observedAt);
    DateBounds(observedAt);
    var yesterday := today - 1;
    if Trades(yesterday) && OpensAt(dst, yesterday) <= observedAt < ClosesAt(dst, yesterday) {
      assert Inside(dst, yesterday, observedAt);
      return true, OpensAt(dst, yesterday);
    }
    if Trades(today) && OpensAt(dst, today) <= observedAt < ClosesAt(dst, today) {
      assert Inside(dst, today, observedAt);
      return true, OpensAt(dst, today);
    }
    forall d
      ensures !Inside(dst, d, observedAt)
    {
      if Inside(dst, d, observedAt) {
        TwoDatesSuffice(dst, d, observedAt);
      }
    }
    for offset := 0 to 9
      invariant forall d :: d < today - 1 + offset && Trades(d) ==> OpensAt(dst, d) <= observedAt
    {
      EarlierOpens(dst, observedAt, today);
      var marketDate := today - 1 + offset;
      if Trades(marketDate) && OpensAt(dst, marketDate) > observedAt {
        open := OpensAt(dst, marketDate);
        forall d | Trades(d) && OpensAt(dst, d) > observedAt
          ensures open <= OpensAt(dst, d)
        {
          SessionSpan(dst, d);
          SessionSpan(dst, marketDate);
        }
        return false, open;
      }
    }
    SevenDaysHaveWeekdays(today + 1);
    var d :| today + 1 <= d < today + 8 && Trades(d);
    SessionSpan(dst, d);
    assert false;
  }

  lemma EarlierOpens(dst: Dst, observedAt: int, today: int)
    requires today == DateOf(observedAt)
    ensures forall d :: d < today - 1 ==> OpensAt(dst, d) <= observedAt
  {
    forall d | d < today - 1
      ensures OpensAt(dst, d) <= observedAt
    {
      SessionSpan(dst, d);
    }
  }

  method UmcRthCloseFor(dst: Dst, observedAt: int) returns (close: Option<int>)
    ensures close.Some? <==> exists d :: Inside(dst, d, observedAt)
    ensures forall d :: Inside(dst, d, observedAt) ==> close == Some(ClosesAt(dst, d))
  {
    var today := DateOf(observedAt);
    forall d
      ensures Inside(dst, d, observedAt) ==> d == today - 1 || d == today
    {
      if Inside(dst, d, observedAt) {
        TwoDatesSuffice(dst, d, observedAt);
      }
    }
    SessionSpan(dst, today - 1);
    SessionSpan(dst, today);
    if Inside(dst, today - 1, observedAt) {
      return Some(ClosesAt(dst, today - 1));
    }
    if Inside(dst, today, observedAt) {
      return Some(ClosesAt(dst, today));
    }
    close := None;
  }
}
