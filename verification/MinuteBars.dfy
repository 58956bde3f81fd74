/** One-minute bars from live quotes: freshness gates in order, and a bounded carry of the last CCF close. */
module MinuteBars {
  import opened Models
  import TradableSpread

  /** Times are seconds; the price may be older than the quote that carries it. */
  datatype LegQuote = LegQuote(timestamp: real, price: real, priceTimestamp: Option<real>)

  datatype Quotes = Quotes(ccf: LegQuote, umc: LegQuote, usdTwd: LegQuote)

  predicate PricesPositive(q: Quotes) {
    q.ccf.price > 0.0 && q.umc.price > 0.0 && q.usdTwd.price > 0.0
  }

  datatype Budgets = Budgets(
    staleSeconds: real,
    usdTwdStaleSeconds: real,
    umcTradeStaleSeconds: real,
    skewSeconds: real,
    carrySeconds: Option<real>
  )

  datatype SkipReason =
    | NoCurrentMinute | MissingRequiredQuote | StaleUmc | StaleUsdTwd | StaleTradePrice | LegTimestampSkew
    | MissingCcfForwardFill | StaleCcf

  datatype Bar = Bar(minute: int, ccfClose: Option<real>, ccfCloseFilled: real, umcTwdFair: real, usdTwd: real,
                     spread: real)

  datatype BuildResult = Built(bar: Bar) | Skipped(reason: SkipReason)

  datatype State = State(minute: Option<int>, quotes: Option<Quotes>, lastClose: Option<real>,
                         lastCloseAt: Option<real>)

  predicate Sound(st: State) {
    && (st.quotes.Some? ==> PricesPositive(st.quotes.value))
    && (st.lastClose.Some? ==> st.lastClose.value > 0.0)
  }

  function PriceTime(q: LegQuote): real {
    if q.priceTimestamp.Some? then q.priceTimestamp.value else q.timestamp
  }

  function FloorMinute(at: real): int {
    (at / 60.0).Floor
  }

  function CloseOf(minute: int): real {
    60.0 * (minute + 1) as real
  }

  /** The gates before the CCF leg is looked at, in the order they are checked. */
  function LegsRefused(b: Budgets, q: Quotes, close: real): Option<SkipReason> {
    if Abs(close - q.umc.timestamp) > b.staleSeconds then Some(StaleUmc)
    else if Abs(close - q.usdTwd.timestamp) > b.usdTwdStaleSeconds then Some(StaleUsdTwd)
    else if Abs(close - PriceTime(q.umc)) > b.umcTradeStaleSeconds then Some(StaleTradePrice)
    else if CcfFresh(b, q, close) && Abs(PriceTime(q.umc) - PriceTime(q.ccf)) > b.skewSeconds
    then Some(LegTimestampSkew)
    else None
  }

  predicate CcfFresh(b: Budgets, q: Quotes, close: real) {
    Abs(close - q.ccf.timestamp) <= b.staleSeconds
  }

  /** Whether a close carried since `since` has outlived the ceiling; an unknown age always has. */
  predicate CarriedTooLong(b: Budgets, close: real, since: Option<real>) {
    b.carrySeconds.Some? && (since.None? || close - since.value > b.carrySeconds.value)
  }

  function BarAt(minute: int, q: Quotes, ccfClose: Option<real>, filled: real): Bar
    requires PricesPositive(q) && filled > 0.0
  {
    TradableSpread.UmcFairPositive(q.umc.price, q.usdTwd.price);
    var fair := TradableSpread.UmcFair(q.umc.price, q.usdTwd.price);
    Bar(minute, ccfClose, filled, fair, q.usdTwd.price, TradableSpread.SpreadFromPrices(fair, filled))
  }

  function Finalized(b: Budgets, st: State): (r: (BuildResult, State))
    requires Sound(st)
    ensures Sound(r.1)
  {
    if st.minute.None? then (Skipped(NoCurrentMinute), st)
    else if st.quotes.None? then (Skipped(MissingRequiredQuote), st)
    else
      var minute, q := st.minute.value, st.quotes.value;
      var close := CloseOf(minute);
      var refused := LegsRefused(b, q, close);
      if refused.Some? then (Skipped(refused.value), st)
      else if CcfFresh(b, q, close) then
        (Built(BarAt(minute, q, Some(q.ccf.price), q.ccf.price)),
         st.(lastClose := Some(q.ccf.price), lastCloseAt := Some(close)))
      else if st.lastClose.None? then (Skipped(MissingCcfForwardFill), st)
      else if CarriedTooLong(b, close, st.lastCloseAt) then (Skipped(StaleCcf), st)
      else (Built(BarAt(minute, q, None, st.lastClose.value)), st)
  }

  datatype UpdateResult = UpdateResult(result: Option<BuildResult>, state: State)

  function Updated(b: Budgets, st: State, q: Quotes, observedAt: real): (r: UpdateResult)
    requires Sound(st) && PricesPositive(q)
    ensures Sound(r.state)
  {
    var minute := FloorMinute(observedAt);
    if st.minute.None? || st.minute.value == minute
    then UpdateResult(None, st.(minute := Some(minute), quotes := Some(q)))
    else
      var (result, after) := Finalized(b, st);
      UpdateResult(Some(result), after.(minute := Some(minute), quotes := Some(q)))
  }

  class LiveMinuteBarBuilder {
    const budgets: Budgets
    var currentMinute: Option<int>
    var currentQuotes: Option<Quotes>
    var lastCcfClose: Option<real>
    var lastCcfCloseAt: Option<real>

    constructor (budgets: Budgets)
      ensures this.budgets == budgets && View() == FRESH
    {
      this.budgets := budgets;
      currentMinute, currentQuotes, lastCcfClose, lastCcfCloseAt := None, None, None, None;
    }

    function View(): State
      reads this
    {
      State(currentMinute, currentQuotes, lastCcfClose, lastCcfCloseAt)
    }

    method ResetCurrentMinute()
      modifies this`currentMinute, this`currentQuotes
      ensures View() == old(View()).(minute := None, quotes := None)
    {
      currentMinute, currentQuotes := None, None;
    }

    method Update(q: Quotes, observedAt: real) returns (result: Option<BuildResult>)
      requires Sound(View()) && PricesPositive(q)
      modifies this
      ensures UpdateResult.UpdateResult(result, View()) == Updated(budgets, old(View()), q, observedAt)
    {
      var minute := FloorMinute(observedAt);
      if currentMinute.None? {
        currentMinute, currentQuotes := Some(minute), Some(q);
        return None;
      }
      if minute == currentMinute.value {
        currentQuotes := Some(q);
        return None;
      }
      var built := FinalizeCurrentMinute();
      currentMinute, currentQuotes := Some(minute), Some(q);
      result := Some(built);
    }

    method FinalizeCurrentMinute() returns (result: BuildResult)
      requires Sound(View())
      modifies this`lastCcfClose, this`lastCcfCloseAt
      ensures (result, View()) == Finalized(budgets, old(View()))
    {
      if currentMinute.None? {
        return Skipped(NoCurrentMinute);
      }
      if currentQuotes.None? {
        return Skipped(MissingRequiredQuote);
      }
      var minute, q := currentMinute.value, currentQuotes.value;
      var close := CloseOf(minute);
      if Abs(close - q.umc.timestamp) > budgets.staleSeconds {
        return Skipped(StaleUmc);
      }
      if Abs(close - q.usdTwd.timestamp) > budgets.usdTwdStaleSeconds {
        return Skipped(StaleUsdTwd);
      }
      var current := Abs(close - q.ccf.timestamp) <= budgets.staleSeconds;
      if Abs(close - PriceTime(q.umc)) > budgets.umcTradeStaleSeconds {
        return Skipped(StaleTradePrice);
      }
      if current && Abs(PriceTime(q.umc) - PriceTime(q.ccf)) > budgets.skewSeconds {
        return Skipped(LegTimestampSkew);
      }
      if current {
        lastCcfClose, lastCcfCloseAt := Some(q.ccf.price), Some(close);
      }
      if lastCcfClose.None? {
        return Skipped(MissingCcfForwardFill);
      }
      if !current && CarriedTooLong(budgets, close, lastCcfCloseAt) {
        return Skipped(StaleCcf);
      }
      result := Built(BarAt(minute, q, if current then Some(q.ccf.price) else None, lastCcfClose.value));
    }
  }

  const FRESH := State(None, None, None, None)

  // ---------------------------------------------------------------- whole streams

  datatype Observation = Observation(quotes: Quotes, at: real)

  predicate AllPositive(stream: seq<Observation>) {
    forall o :: o in stream ==> PricesPositive(o.quotes)
  }

  datatype Trace = Trace(results: seq<BuildResult>, state: State)

  function Run(b: Budgets, st: State, stream: seq<Observation>): (t: Trace)
    requires Sound(st) && AllPositive(stream)
    ensures Sound(t.state)
  {
    if stream == [] then Trace([], st)
    else
      var front, last := stream[..|stream| - 1], stream[|stream| - 1];
      assert last in stream && forall o :: o in front ==> o in stream;
      var earlier := Run(b, st, front);
      var step := Updated(b, earlier.state, last.quotes, last.at);
      Trace(earlier.results + (if step.result.Some? then [step.result.value] else []), step.state)
  }

  /** The seconds a carry budget has past its last whole minute, and a moment past its own, make no further minute. */
  predicate Absorbed(carry: real, since: real) {
    ((carry + since) / 60.0).Floor == (carry / 60.0).Floor + (since / 60.0).Floor
  }

  /** The moment the last close is carried from, if there is one, absorbs the odd seconds of the budget. */
  predicate Steady(b: Budgets, st: State) {
    b.carrySeconds.Some? && st.lastCloseAt.Some? ==> Absorbed(b.carrySeconds.value, st.lastCloseAt.value)
  }

  function FloorToMinute(carry: Option<real>): Option<real> {
    if carry.None? then None else Some(60.0 * (carry.value / 60.0).Floor as real)
  }

  lemma FloorBounds(x: real)
    ensures 60.0 * (x / 60.0).Floor as real <= x < 60.0 * ((x / 60.0).Floor + 1) as real
  {
    assert x / 60.0 * 60.0 == x;
  }

  /** Whole minutes always absorb. */
  lemma ClosesAbsorb(carry: real, minute: int)
    ensures Absorbed(carry, CloseOf(minute))
  {
    var n := minute + 1;
    assert (carry + CloseOf(minute)) / 60.0 == carry / 60.0 + n as real;
    assert CloseOf(minute) / 60.0 == n as real;
  }

  /** The budget and its whole minutes disagree about one minute at most, and about none exactly when it is absorbed. */
  lemma RoundsDownExactlyWhen(carry: real, since: real, minutes: int)
    ensures var whole := 60.0 * (carry / 60.0).Floor as real;
            60.0 * minutes as real - since > whole && !(60.0 * minutes as real - since > carry)
            <==> !Absorbed(carry, since) && minutes == ((carry + since) / 60.0).Floor
    ensures 60.0 * minutes as real - since > carry ==>
              60.0 * minutes as real - since > 60.0 * (carry / 60.0).Floor as real
  {
    var c, s, k := (carry / 60.0).Floor, (since / 60.0).Floor, ((carry + since) / 60.0).Floor;
    FloorBounds(carry);
    FloorBounds(since);
    FloorBounds(carry + since);
    var odd := carry - 60.0 * c as real;
    var late := since - 60.0 * s as real;
    assert k == c + s || k == c + s + 1 by { FloorSum(carry, since); }
    if minutes <= k {
      assert 60.0 * minutes as real <= 60.0 * k as real;
    } else {
      assert 60.0 * minutes as real >= 60.0 * (k + 1) as real;
    }
    if minutes > c + s {
      assert 60.0 * minutes as real >= 60.0 * (c + s + 1) as real;
    } else {
      assert 60.0 * minutes as real <= 60.0 * (c + s) as real;
    }
  }

  lemma FloorSum(x: real, y: real)
    ensures var k := ((x + y) / 60.0).Floor;
            k == (x / 60.0).Floor + (y / 60.0).Floor || k == (x / 60.0).Floor + (y / 60.0).Floor + 1
  {
    assert (x + y) / 60.0 == x / 60.0 + y / 60.0;
  }

  lemma CarryRoundsDown(b: Budgets, minute: int, since: Option<real>)
    requires b.carrySeconds.Some? && since.Some? ==> Absorbed(b.carrySeconds.value, since.value)
    ensures CarriedTooLong(b, CloseOf(minute), since)
            == CarriedTooLong(b.(carrySeconds := FloorToMinute(b.carrySeconds)), CloseOf(minute), since)
  {
    if b.carrySeconds.Some? && since.Some? {
      RoundsDownExactlyWhen(b.carrySeconds.value, since.value, minute + 1);
    }
  }

  lemma UpdateRoundsDown(b: Budgets, st: State, q: Quotes, at: real)
    requires Sound(st) && PricesPositive(q) && Steady(b, st)
    ensures Updated(b, st, q, at) == Updated(b.(carrySeconds := FloorToMinute(b.carrySeconds)), st, q, at)
    ensures Steady(b, Updated(b, st, q, at).state)
  {
    hide BarAt, CarriedTooLong, FloorToMinute, Absorbed;
    if st.minute.Some? {
      CarryRoundsDown(b, st.minute.value, st.lastCloseAt);
      if b.carrySeconds.Some? {
        ClosesAbsorb(b.carrySeconds.value, st.minute.value);
      }
      if st.quotes.Some? {
        var close := CloseOf(st.minute.value);
        assert LegsRefused(b, st.quotes.value, close)
          == LegsRefused(b.(carrySeconds := FloorToMinute(b.carrySeconds)), st.quotes.value, close);
      }
    }
  }

  /**
   Two runs over any quote stream, one with a carry budget and one with that budget rounded down to whole minutes, build
   the same bars and skip for the same reasons, from any state whose last close is steady: a budget between multiples of
   60 buys nothing.
   */
  lemma {:induction false} CarryBudgetIsWholeMinutes(b: Budgets, st: State, stream: seq<Observation>)
    requires Sound(st) && AllPositive(stream) && Steady(b, st)
    ensures Run(b, st, stream) == Run(b.(carrySeconds := FloorToMinute(b.carrySeconds)), st, stream)
    ensures Steady(b, Run(b, st, stream).state)
  {
    hide Updated, Steady, FloorToMinute;
    if stream != [] {
      var front, last := stream[..|stream| - 1], stream[|stream| - 1];
      assert last in stream && forall o :: o in front ==> o in stream;
      CarryBudgetIsWholeMinutes(b, st, front);
      UpdateRoundsDown(b, Run(b, st, front).state, last.quotes, last.at);
    }
  }

  /** A builder seeded with a close and the moment it was made. */
  function Seeded(price: real, since: real): State {
    State(None, None, Some(price), Some(since))
  }

  predicate Agree(b: Budgets, st: State, stream: seq<Observation>)
    requires Sound(st)
  {
    AllPositive(stream) ==> Run(b, st, stream) == Run(b.(carrySeconds := FloorToMinute(b.carrySeconds)), st, stream)
  }

  /** Quotes at a minute's close whose CCF leg alone is stale. */
  function StaleCcfAt(b: Budgets, minute: int): Quotes {
    var close := CloseOf(minute);
    Quotes(LegQuote(close - b.staleSeconds - 1.0, 50.0, None), LegQuote(close, 8.0, None), LegQuote(close, 30.0, None))
  }

  /** The stream on which the two budgets part: one minute quoted with a stale CCF leg, then the next. */
  function PartingStream(b: Budgets, minute: int): seq<Observation> {
    [Observation(StaleCcfAt(b, minute), 60.0 * minute as real),
     Observation(StaleCcfAt(b, minute), 60.0 * (minute + 1) as real)]
  }

  lemma PartingRun(b: Budgets, price: real, since: real, minute: int)
    requires price > 0.0 && b.staleSeconds >= 0.0 && b.usdTwdStaleSeconds >= 0.0 && b.umcTradeStaleSeconds >= 0.0
    ensures AllPositive(PartingStream(b, minute))
    ensures var results := Run(b, Seeded(price, since), PartingStream(b, minute)).results;
            |results| == 1
            && results[0] == (if CarriedTooLong(b, CloseOf(minute), Some(since)) then Skipped(StaleCcf)
                              else Built(BarAt(minute, StaleCcfAt(b, minute), None, price)))
  {
    hide BarAt, CarriedTooLong;
    var stream := PartingStream(b, minute);
    var first, last := stream[0], stream[1];
    assert stream[..1] == [first] && [first][..0] == [];
    assert FloorMinute(60.0 * minute as real) == minute && FloorMinute(60.0 * (minute + 1) as real) == minute + 1;
    var seed := Seeded(price, since);
    assert Run(b, seed, []) == Trace([], seed);
    var began := Updated(b, seed, first.quotes, first.at);
    assert Run(b, seed, [first]) == Trace([], began.state);
  }

  /**
   For which seeds the two budgets agree on every stream: exactly those whose moment absorbs the odd seconds of the
   budget, as every whole minute does.
   */
  lemma SeedsAgreeExactlyWhen(b: Budgets, price: real, since: real)
    requires price > 0.0 && b.carrySeconds.Some?
    requires b.staleSeconds >= 0.0 && b.usdTwdStaleSeconds >= 0.0 && b.umcTradeStaleSeconds >= 0.0
    ensures (forall stream :: Agree(b, Seeded(price, since), stream)) <==> Absorbed(b.carrySeconds.value, since)
  {
    var seed, whole := Seeded(price, since), b.(carrySeconds := FloorToMinute(b.carrySeconds));
    if Absorbed(b.carrySeconds.value, since) {
      forall stream
        ensures Agree(b, seed, stream)
      {
        if AllPositive(stream) {
          CarryBudgetIsWholeMinutes(b, seed, stream);
        }
      }
    } else {
      var minute := ((b.carrySeconds.value + since) / 60.0).Floor - 1;
      RoundsDownExactlyWhen(b.carrySeconds.value, since, minute + 1);
      PartingRun(b, price, since, minute);
      PartingRun(whole, price, since, minute);
      hide Run, BarAt, Absorbed;
      assert PartingStream(b, minute) == PartingStream(whole, minute);
      assert !Agree(b, seed, PartingStream(b, minute));
    }
  }

  // ---------------------------------------------------------------- order and freshness of what is emitted

  predicate Nondecreasing(stream: seq<Observation>) {
    forall i, j :: 0 <= i < j < |stream| ==> stream[i].at <= stream[j].at
  }

  lemma FloorMonotone(a: real, c: real)
    requires a <= c
    ensures FloorMinute(a) <= FloorMinute(c)
  {
    assert a / 60.0 <= c / 60.0;
  }

  /** Every bar so far is from a minute before the one being filled, and bars are in strictly increasing minutes. */
  predicate Ordered(t: Trace) {
    && (forall i :: 0 <= i < |t.results| && t.results[i].Built? ==>
          t.state.minute.Some? && t.results[i].bar.minute < t.state.minute.value)
    && forall i, j :: 0 <= i < j < |t.results| && t.results[i].Built? && t.results[j].Built? ==>
         t.results[i].bar.minute < t.results[j].bar.minute
  }

  /** Emitted minutes strictly increase on any stream of non-decreasing observation times. */
  lemma {:induction false} EmittedMinutesIncrease(b: Budgets, stream: seq<Observation>)
    requires AllPositive(stream) && Nondecreasing(stream)
    ensures Ordered(Run(b, FRESH, stream))
    ensures stream != [] ==> Run(b, FRESH, stream).state.minute == Some(FloorMinute(stream[|stream| - 1].at))
  {
    hide Updated, Ordered, FloorMinute;
    if stream == [] {
      NothingOrdered(b);
    } else {
      var front, last := stream[..|stream| - 1], stream[|stream| - 1];
      assert last in stream && forall o :: o in front ==> o in stream;
      EmittedMinutesIncrease(b, front);
      if front != [] {
        FloorMonotone(front[|front| - 1].at, last.at);
      } else {
        NothingOrdered(b);
      }
      OrderedStep(b, Run(b, FRESH, front), last.quotes, last.at);
    }
  }

  lemma NothingOrdered(b: Budgets)
    ensures Ordered(Run(b, FRESH, [])) && Run(b, FRESH, []).state == FRESH
  {
  }

  lemma OrderedStep(b: Budgets, earlier: Trace, q: Quotes, at: real)
    requires Sound(earlier.state) && PricesPositive(q) && Ordered(earlier)
    requires earlier.state.minute.Some? ==> earlier.state.minute.value <= FloorMinute(at)
    ensures var step := Updated(b, earlier.state, q, at);
            && step.state.minute == Some(FloorMinute(at))
            && Ordered(Trace(earlier.results + (if step.result.Some? then [step.result.value] else []), step.state))
  {
    hide Finalized, FloorMinute;
    MinuteOfBar(b, earlier.state);
  }

  lemma MinuteOfBar(b: Budgets, st: State)
    requires Sound(st)
    ensures Finalized(b, st).0.Built? ==> st.minute.Some? && Finalized(b, st).0.bar.minute == st.minute.value
  {
  }

  /**
   An observation a bar may be built from: made in the bar's minute, with UMC, its trade price and USD/TWD within their
   budgets of the minute's close, and a CCF price that is used exactly when it is fresh and not skewed from UMC's.
   */
  predicate QuotedBy(b: Budgets, bar: Bar, o: Observation) {
    var close, q := CloseOf(bar.minute), o.quotes;
    && FloorMinute(o.at) == bar.minute
    && Abs(close - q.umc.timestamp) <= b.staleSeconds
    && Abs(close - q.usdTwd.timestamp) <= b.usdTwdStaleSeconds
    && Abs(close - PriceTime(q.umc)) <= b.umcTradeStaleSeconds
    && bar.usdTwd == q.usdTwd.price && bar.umcTwdFair == TradableSpread.UmcFair(q.umc.price, q.usdTwd.price)
    && bar.ccfClose == (if Abs(close - q.ccf.timestamp) <= b.staleSeconds then Some(q.ccf.price) else None)
    && (bar.ccfClose.Some? ==> Abs(PriceTime(q.umc) - PriceTime(q.ccf)) <= b.skewSeconds)
  }

  predicate SomeQuote(b: Budgets, bar: Bar, stream: seq<Observation>) {
    exists k :: 0 <= k < |stream| && QuotedBy(b, bar, stream[k])
  }

  lemma FinalizedIsQuoted(b: Budgets, st: State, o: Observation)
    requires Sound(st) && st.minute == Some(FloorMinute(o.at)) && st.quotes == Some(o.quotes)
             && PricesPositive(o.quotes)
    ensures var result := Finalized(b, st).0; result.Built? ==> QuotedBy(b, result.bar, o)
  {
    hide TradableSpread.SpreadFromPrices, TradableSpread.UmcFair, FloorMinute;
  }

  lemma UpdatedHolds(b: Budgets, st: State, q: Quotes, at: real)
    requires Sound(st) && PricesPositive(q)
    ensures var step := Updated(b, st, q, at);
            && step.state.minute == Some(FloorMinute(at)) && step.state.quotes == Some(q)
            && (step.result.Some? ==> step.result.value == Finalized(b, st).0)
  {
    hide Finalized;
  }

  /** Every bar of every stream was built from one observation of its own minute that passed every gate. */
  lemma {:induction false} EveryBarWasQuoted(b: Budgets, stream: seq<Observation>)
    requires AllPositive(stream)
    ensures var t := Run(b, FRESH, stream);
            && (forall i :: 0 <= i < |t.results| && t.results[i].Built? ==> SomeQuote(b, t.results[i].bar, stream))
            && (stream != [] ==>
                  var last := stream[|stream| - 1];
                  t.state.minute == Some(FloorMinute(last.at)) && t.state.quotes == Some(last.quotes))
  {
    hide Finalized, Updated, QuotedBy, FloorMinute;
    if stream != [] {
      var front, last := stream[..|stream| - 1], stream[|stream| - 1];
      assert last in stream && forall o :: o in front ==> o in stream;
      EveryBarWasQuoted(b, front);
      var earlier, t := Run(b, FRESH, front), Run(b, FRESH, stream);
      UpdatedHolds(b, earlier.state, last.quotes, last.at);
      if front == [] {
        NothingToClose(b, last.quotes, last.at);
      } else {
        assert front[|front| - 1] in front;
        FinalizedIsQuoted(b, earlier.state, front[|front| - 1]);
      }
      forall i | 0 <= i < |t.results| && t.results[i].Built?
        ensures SomeQuote(b, t.results[i].bar, stream)
      {
        if i < |earlier.results| {
          var k :| 0 <= k < |front| && QuotedBy(b, earlier.results[i].bar, front[k]);
          assert stream[k] == front[k];
        } else {
          assert stream[|front| - 1] == front[|front| - 1];
        }
      }
    }
  }

  lemma NothingToClose(b: Budgets, q: Quotes, at: real)
    requires PricesPositive(q)
    ensures Updated(b, FRESH, q, at).result == None && Run(b, FRESH, []) == Trace([], FRESH)
  {
  }

  /** The close in hand is the one the latest bar with a fresh CCF price was built with, at that bar's close. */
  predicate LastFreshIs(t: Trace, j: int) {
    && 0 <= j < |t.results| && t.results[j].Built? && t.results[j].bar.ccfClose.Some?
    && t.state.lastClose == t.results[j].bar.ccfClose
    && t.state.lastCloseAt == Some(CloseOf(t.results[j].bar.minute))
    && forall k :: j < k < |t.results| && t.results[k].Built? ==> t.results[k].bar.ccfClose.None?
  }

  predicate NoFreshYet(t: Trace) {
    t.state.lastClose.None? && forall k :: 0 <= k < |t.results| ==> !t.results[k].Built?
  }

  /** Where a carried price came from: an earlier bar's fresh close, no further back than the ceiling allows. */
  predicate CarriedFrom(b: Budgets, results: seq<BuildResult>, i: int, j: int)
    requires 0 <= i < |results| && results[i].Built?
  {
    && 0 <= j < i && results[j].Built? && results[j].bar.ccfClose == Some(results[i].bar.ccfCloseFilled)
    && (b.carrySeconds.Some? ==>
          CloseOf(results[i].bar.minute) - CloseOf(results[j].bar.minute)
          <= b.carrySeconds.value)
  }

  ghost predicate CarriesExplained(b: Budgets, results: seq<BuildResult>) {
    forall i :: 0 <= i < |results| && results[i].Built? ==>
      if results[i].bar.ccfClose.Some? then results[i].bar.ccfCloseFilled == results[i].bar.ccfClose.value
      else exists j :: CarriedFrom(b, results, i, j)
  }

  lemma AppendKeepsExplained(b: Budgets, results: seq<BuildResult>, next: seq<BuildResult>)
    requires CarriesExplained(b, results)
    requires forall i :: |results| <= i < |results + next| && (results + next)[i].Built? ==>
               if (results + next)[i].bar.ccfClose.Some?
               then (results + next)[i].bar.ccfCloseFilled == (results + next)[i].bar.ccfClose.value
               else exists j :: CarriedFrom(b, results + next, i, j)
    ensures CarriesExplained(b, results + next)
  {
    var all := results + next;
    forall i | 0 <= i < |results| && results[i].Built? && results[i].bar.ccfClose.None?
      ensures exists j :: CarriedFrom(b, all, i, j)
    {
      var j :| CarriedFrom(b, results, i, j);
      assert CarriedFrom(b, all, i, j);
    }
  }

  /** What closing a minute does, in the terms the carry argument needs. */
  lemma FinalizeFacts(b: Budgets, st: State)
    requires Sound(st)
    ensures var (result, after) := Finalized(b, st);
            && (result.Built? && result.bar.ccfClose.Some? ==>
                  after.lastClose == result.bar.ccfClose == Some(result.bar.ccfCloseFilled)
                    && after.lastCloseAt == Some(CloseOf(result.bar.minute)))
            && (!(result.Built? && result.bar.ccfClose.Some?) ==>
                  after.lastClose == st.lastClose && after.lastCloseAt == st.lastCloseAt)
            && (result.Built? && result.bar.ccfClose.None? ==>
                  && st.lastClose == Some(result.bar.ccfCloseFilled)
                  && (b.carrySeconds.Some? ==>
                        st.lastCloseAt.Some?
                        && CloseOf(result.bar.minute) - st.lastCloseAt.value <= b.carrySeconds.value))
  {
    hide LegsRefused, CcfFresh, TradableSpread.SpreadFromPrices, TradableSpread.UmcFair;
  }

  /** In an unseeded builder every carried CCF price was fresh at an earlier bar's close, within the ceiling. */
  lemma {:induction false} CarriedPricesWereFresh(b: Budgets, stream: seq<Observation>)
    requires AllPositive(stream)
    ensures var t := Run(b, FRESH, stream);
            && CarriesExplained(b, t.results)
            && (NoFreshYet(t) || exists j :: LastFreshIs(t, j))
  {
    if stream != [] {
      var front, last := stream[..|stream| - 1], stream[|stream| - 1];
      assert last in stream && forall o :: o in front ==> o in stream;
      CarriedPricesWereFresh(b, front);
      var earlier, t := Run(b, FRESH, front), Run(b, FRESH, stream);
      FinalizeFacts(b, earlier.state);
      hide Finalized, FloorMinute, CloseOf;
      var step := Updated(b, earlier.state, last.quotes, last.at);
      if step.result.None? {
        assert t.results == earlier.results;
        if exists j :: LastFreshIs(earlier, j) {
          var j :| LastFreshIs(earlier, j);
          assert LastFreshIs(t, j);
        }
      } else {
        CarryStep(b, earlier, step.result.value, t);
      }
    }
  }

  lemma CarryStep(b: Budgets, earlier: Trace, result: BuildResult, t: Trace)
    requires CarriesExplained(b, earlier.results) && (NoFreshYet(earlier) || exists j :: LastFreshIs(earlier, j))
    requires t.results == earlier.results + [result]
    requires result.Built? && result.bar.ccfClose.Some? ==>
               t.state.lastClose == result.bar.ccfClose == Some(result.bar.ccfCloseFilled)
                 && t.state.lastCloseAt == Some(CloseOf(result.bar.minute))
    requires !(result.Built? && result.bar.ccfClose.Some?) ==>
               t.state.lastClose == earlier.state.lastClose && t.state.lastCloseAt == earlier.state.lastCloseAt
    requires result.Built? && result.bar.ccfClose.None? ==>
               && earlier.state.lastClose == Some(result.bar.ccfCloseFilled)
               && (b.carrySeconds.Some? ==>
                     earlier.state.lastCloseAt.Some?
                     && CloseOf(result.bar.minute) - earlier.state.lastCloseAt.value <= b.carrySeconds.value)
    ensures CarriesExplained(b, t.results) && (NoFreshYet(t) || exists j :: LastFreshIs(t, j))
  {
    var n := |earlier.results|;
    assert t.results[n] == result;
    if result.Built? && result.bar.ccfClose.Some? {
      assert LastFreshIs(t, n);
    } else if exists j :: LastFreshIs(earlier, j) {
      var j :| LastFreshIs(earlier, j);
      assert t.results[j] == earlier.results[j];
      assert LastFreshIs(t, j);
      if result.Built? {
        assert CarriedFrom(b, t.results, n, j);
      }
    }
    AppendKeepsExplained(b, earlier.results, [result]);
  }

  // ---------------------------------------------------------------- what every minute comes to

  /** The observations that close their minutes: the last of each run of one minute, the open one left out. */
  function Closing(stream: seq<Observation>): seq<Observation> {
    if |stream| < 2 then []
    else
      var n := |stream| - 1;
      Closing(stream[..n])
      + (if FloorMinute(stream[n - 1].at) != FloorMinute(stream[n].at) then [stream[n - 1]] else [])
  }

  /** UMC, its trade price and USD/TWD are within their budgets of the close of the observation's minute. */
  predicate LegsInBudget(b: Budgets, o: Observation) {
    var (close, q) := (CloseOf(FloorMinute(o.at)), o.quotes);
    && Abs(close - q.umc.timestamp) <= b.staleSeconds
    && Abs(close - q.usdTwd.timestamp) <= b.usdTwdStaleSeconds
    && Abs(close - PriceTime(q.umc)) <= b.umcTradeStaleSeconds
  }

  predicate CcfInBudget(b: Budgets, o: Observation) {
    Abs(CloseOf(FloorMinute(o.at)) - o.quotes.ccf.timestamp) <= b.staleSeconds
  }

  predicate Skewed(b: Budgets, o: Observation) {
    Abs(PriceTime(o.quotes.umc) - PriceTime(o.quotes.ccf)) > b.skewSeconds
  }

  /** The last of some closing observations whose own CCF price made a bar. */
  function LastFresh(b: Budgets, closed: seq<Observation>): Option<Observation> {
    if closed == [] then None
    else
      var o := closed[|closed| - 1];
      if LegsInBudget(b, o) && CcfInBudget(b, o) && !Skewed(b, o) then Some(o)
      else LastFresh(b, closed[..|closed| - 1])
  }

  /** The price an earlier minute's close may still lend: there is one, and it is within the ceiling. */
  predicate Lends(b: Budgets, o: Observation, last: Option<Observation>) {
    && last.Some?
    && (b.carrySeconds.Some? ==>
          CloseOf(FloorMinute(o.at)) - CloseOf(FloorMinute(last.value.at)) <= b.carrySeconds.value)
  }

  /**
   The bar shows this observation, with this CCF close: UMC in TWD at five shares to the ADR, and the spread as the
   percentage difference of the two prices against their middle.
   */
  predicate Shows(bar: Bar, o: Observation, ccfClose: Option<real>, filled: real) {
    && bar.minute == FloorMinute(o.at) && bar.ccfClose == ccfClose && bar.ccfCloseFilled == filled
    && bar.usdTwd == o.quotes.usdTwd.price
    && bar.umcTwdFair * 5.0 == o.quotes.umc.price * o.quotes.usdTwd.price
    && bar.spread * (bar.umcTwdFair + filled) == 200.0 * (bar.umcTwdFair - filled)
  }

  /** What a closed minute comes to, from its last observation and the last minute that had a fresh CCF price. */
  predicate Judged(b: Budgets, o: Observation, last: Option<Observation>, result: BuildResult) {
    if LegsInBudget(b, o) && CcfInBudget(b, o) && !Skewed(b, o) then
      result.Built? && Shows(result.bar, o, Some(o.quotes.ccf.price), o.quotes.ccf.price)
    else if LegsInBudget(b, o) && !CcfInBudget(b, o) && Lends(b, o, last) then
      result.Built? && Shows(result.bar, o, None, last.value.quotes.ccf.price)
    else result.Skipped? && Skips(b, o, last, result.reason)
  }

  /** The reason names the first thing that is wrong. */
  predicate Skips(b: Budgets, o: Observation, last: Option<Observation>, reason: SkipReason) {
    var (close, q) := (CloseOf(FloorMinute(o.at)), o.quotes);
    match reason
    case StaleUmc => Abs(close - q.umc.timestamp) > b.staleSeconds
    case StaleUsdTwd =>
      Abs(close - q.umc.timestamp) <= b.staleSeconds && Abs(close - q.usdTwd.timestamp) > b.usdTwdStaleSeconds
    case StaleTradePrice =>
      && Abs(close - q.umc.timestamp) <= b.staleSeconds && Abs(close - q.usdTwd.timestamp) <= b.usdTwdStaleSeconds
      && Abs(close - PriceTime(q.umc)) > b.umcTradeStaleSeconds
    case LegTimestampSkew => LegsInBudget(b, o) && CcfInBudget(b, o) && Skewed(b, o)
    case MissingCcfForwardFill => LegsInBudget(b, o) && !CcfInBudget(b, o) && last.None?
    case StaleCcf => LegsInBudget(b, o) && !CcfInBudget(b, o) && last.Some? && !Lends(b, o, last)
    case _ => false
  }

  lemma FairTimesFive(umc: real, usdTwd: real)
    ensures TradableSpread.UmcFair(umc, usdTwd) * 5.0 == umc * usdTwd
  {
  }

  lemma SpreadTimesSum(fair: real, ccf: real)
    requires fair > 0.0 && ccf > 0.0
    ensures TradableSpread.SpreadFromPrices(fair, ccf) * (fair + ccf) == 200.0 * (fair - ccf)
  {
    var sum := fair + ccf;
    assert (fair - ccf) / sum * sum == fair - ccf;
    assert (fair - ccf) / sum * 200.0 * sum == (fair - ccf) / sum * sum * 200.0;
  }

  lemma BarShows(o: Observation, ccfClose: Option<real>, filled: real)
    requires PricesPositive(o.quotes) && filled > 0.0
    ensures Shows(BarAt(FloorMinute(o.at), o.quotes, ccfClose, filled), o, ccfClose, filled)
  {
    FairTimesFive(o.quotes.umc.price, o.quotes.usdTwd.price);
    TradableSpread.UmcFairPositive(o.quotes.umc.price, o.quotes.usdTwd.price);
    SpreadTimesSum(TradableSpread.UmcFair(o.quotes.umc.price, o.quotes.usdTwd.price), filled);
    hide TradableSpread.UmcFair, TradableSpread.SpreadFromPrices, FloorMinute;
  }

  /** The builder remembers the last fresh minute. */
  predicate Remembers(st: State, last: Option<Observation>) {
    if last.None? then st.lastClose.None?
    else
      st.lastClose == Some(last.value.quotes.ccf.price)
      && st.lastCloseAt == Some(CloseOf(FloorMinute(last.value.at)))
  }

  lemma FinalizedIsJudged(b: Budgets, st: State, o: Observation, closed: seq<Observation>)
    requires Sound(st) && PricesPositive(o.quotes)
    requires st.minute == Some(FloorMinute(o.at)) && st.quotes == Some(o.quotes) && Remembers(st, LastFresh(b, closed))
    ensures var (result, after) := Finalized(b, st);
            Judged(b, o, LastFresh(b, closed), result) && Remembers(after, LastFresh(b, closed + [o]))
  {
    hide BarAt, Shows, FloorMinute;
    BarShows(o, Some(o.quotes.ccf.price), o.quotes.ccf.price);
    if st.lastClose.Some? {
      BarShows(o, None, st.lastClose.value);
    }
    assert (closed + [o])[..|closed|] == closed;
  }

  /**
   The builder with its carried state comes to what the stream says without any: one result for every minute closed, in
   order, a bar exactly when the legs are within budget and CCF is fresh and unskewed or an earlier fresh close may
   still lend its price, and otherwise the first thing that was wrong.
   */
  lemma {:induction false} EveryMinuteIsJudged(b: Budgets, stream: seq<Observation>)
    requires AllPositive(stream)
    ensures var (t, closed) := (Run(b, FRESH, stream), Closing(stream));
            && |t.results| == |closed|
            && (forall i :: 0 <= i < |closed| ==> Judged(b, closed[i], LastFresh(b, closed[..i]), t.results[i]))
            && Remembers(t.state, LastFresh(b, closed))
            && (stream != [] ==>
                  var last := stream[|stream| - 1];
                  t.state.minute == Some(FloorMinute(last.at)) && t.state.quotes == Some(last.quotes))
  {
    hide Finalized, Judged, FloorMinute, LastFresh;
    if stream == [] {
      NothingClosed(b);
    } else {
      var front, last := stream[..|stream| - 1], stream[|stream| - 1];
      assert last in stream && forall o :: o in front ==> o in stream;
      EveryMinuteIsJudged(b, front);
      var (earlier, closed) := (Run(b, FRESH, front), Closing(front));
      if front == [] {
        NothingClosed(b);
      } else {
        var o := front[|front| - 1];
        assert o in front && o == stream[|stream| - 2];
        FinalizedIsJudged(b, earlier.state, o, closed);
        UpdateCloses(b, earlier.state, last.quotes, last.at);
        assert closed + [] == closed;
        assert forall i :: 0 <= i < |closed| ==> (closed + [o])[..i] == closed[..i];
        assert (closed + [o])[..|closed|] == closed;
      }
    }
  }

  lemma NothingClosed(b: Budgets)
    ensures Run(b, FRESH, []) == Trace([], FRESH) && Closing([]) == [] && LastFresh(b, []) == None
  {
  }

  lemma UpdateCloses(b: Budgets, st: State, q: Quotes, at: real)
    requires Sound(st) && PricesPositive(q) && st.minute.Some?
    ensures var (step, done) := (Updated(b, st, q, at), Finalized(b, st));
            && (if st.minute.value == FloorMinute(at)
                then step.result.None? && step.state.lastClose == st.lastClose
                     && step.state.lastCloseAt == st.lastCloseAt
                else step.result == Some(done.0) && step.state.lastClose == done.1.lastClose
                     && step.state.lastCloseAt == done.1.lastCloseAt)
            && step.state.minute == Some(FloorMinute(at)) && step.state.quotes == Some(q)
  {
    hide Finalized, FloorMinute;
  }

  /**
   The spread a bar carries is positive exactly when UMC is the dearer leg, stays within two hundred either way, and is
   the mid spread of any quotes that show its prices fresh.
   */
  lemma SpreadMeans(bar: Bar, o: Observation, ccfClose: Option<real>, filled: real, quotes: TradableSpread.QuoteSet,
                    observedAt: real, budgets: TradableSpread.Budgets, lastCcfClose: Option<real>)
    requires PricesPositive(o.quotes) && filled > 0.0 && Shows(bar, o, ccfClose, filled)
    ensures bar.spread > 0.0 <==> o.quotes.umc.price * o.quotes.usdTwd.price > 5.0 * filled
    ensures -200.0 < bar.spread < 200.0
    ensures TradableSpread.Positive(quotes) && (lastCcfClose.Some? ==> lastCcfClose.value > 0.0)
            && quotes.umc.price == o.quotes.umc.price && quotes.usdTwd.price == o.quotes.usdTwd.price
            && TradableSpread.IsFresh(quotes.umc, observedAt, budgets.staleSeconds)
            && TradableSpread.IsFresh(quotes.usdTwd, observedAt, budgets.Fx())
            && TradableSpread.MidCcfPrice(quotes, observedAt, budgets, lastCcfClose) == Some(filled) ==>
              TradableSpread.EstimateMidSpread(quotes, observedAt, budgets, lastCcfClose) == Some(bar.spread)
  {
    var (fair, umc, usdTwd) := (bar.umcTwdFair, o.quotes.umc.price, o.quotes.usdTwd.price);
    TradableSpread.UmcFairPositive(umc, usdTwd);
    FairTimesFive(umc, usdTwd);
    assert fair == TradableSpread.UmcFair(umc, usdTwd);
    SpreadTimesSum(fair, filled);
    SameProduct(bar.spread, TradableSpread.SpreadFromPrices(fair, filled), fair + filled);
    hide TradableSpread.UmcFair, TradableSpread.SpreadFromPrices;
    SpreadBounds(bar.spread, fair, filled);
  }

  lemma SameProduct(x: real, y: real, sum: real)
    requires sum > 0.0 && x * sum == y * sum
    ensures x == y
  {
    assert x * sum / sum == x;
  }

  lemma SpreadBounds(spread: real, fair: real, ccf: real)
    requires fair > 0.0 && ccf > 0.0 && spread * (fair + ccf) == 200.0 * (fair - ccf)
    ensures spread > 0.0 <==> fair > ccf
    ensures -200.0 < spread < 200.0
  {
    var sum := fair + ccf;
    assert spread == 200.0 * (fair - ccf) / sum;
    hide Mul;
    if spread >= 200.0 {
      MulMonotone(200.0, spread, sum);
      Named(200.0, sum);
      Named(spread, sum);
    }
    if spread <= -200.0 {
      MulMonotone(spread, -200.0, sum);
      Named(-200.0, sum);
      Named(spread, sum);
    }
    if spread > 0.0 {
      MulPositive(spread, sum);
      Named(spread, sum);
    } else {
      MulMonotone(spread, 0.0, sum);
      Named(spread, sum);
      Named(0.0, sum);
    }
  }

  lemma Named(x: real, y: real)
    ensures Mul(x, y) == x * y
  {
  }
}
