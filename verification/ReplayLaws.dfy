/** Every way of splitting a replay over processes tells the same story. */
module ReplayLaws {
  import opened Models
  import opened Sizing
  import opened StrategyModel
  import opened StrategyLaws
  import opened Strategy
  import opened Indicator
  import opened StateJson
  import opened Store
  import opened ReplayModel

  /** A store with its ids left out: ids are numbered per process, everything else must not depend on the split. */
  datatype Log = Log(requests: seq<OrderRequest>, trades: seq<TradeRow>, events: seq<EventRow>, bars: map<int, BarRow>,
                     saved: Option<Saved>)

  const EMPTY_LOG := Log([], [], [], map[], None)

  function Requests(orders: seq<OrderResult>): seq<OrderRequest> {
    seq(|orders|, i requires 0 <= i < |orders| => orders[i].request)
  }

  function Erased(t: Tables): Log {
    Log(Requests(t.orders), t.trades, t.events, t.bars, t.saved)
  }

  function Logged(codec: Codec, log: Log, bar: MarketBar, snap: IndicatorSnapshot, step: Step, eventful: bool): Log {
    Log(log.requests + step.report.requests, log.trades + TradeRows(step.report),
        log.events + (if eventful then [BarEvent(bar, step.report)] else []),
        WriteBar(log.bars, RowFor(bar, snap, step)),
        Some(Saved(bar.rowIndex, bar.timestamp, ToJson(codec, step.state))))
  }

  datatype Story = Story(state: RuntimeState, log: Log)

  /** The strategy run straight over the first i bars, with no store and no processes. */
  function RunTo(env: Env, i: nat): Story
    requires Runnable(env) && i <= |env.bars|
  {
    if i == 0 then Story(FreshState(env.setup.strategy), EMPTY_LOG)
    else
      var earlier := RunTo(env, i - 1);
      var step := StrategyModel.OnBar(env.setup, earlier.state, env.bars[i - 1], SnapAt(env, i - 1));
      Story(step.state, Logged(env.codec, earlier.log, env.bars[i - 1], SnapAt(env, i - 1), step,
                               step.report.action != NoAction))
  }

  function Closing(env: Env): Option<Step>
    requires Runnable(env) && env.bars != []
  {
    StrategyModel.Finalize(env.setup, RunTo(env, |env.bars|).state, env.bars[|env.bars| - 1],
                           SnapAt(env, |env.bars| - 1))
  }

  /** The whole run, end of data included. */
  function Ending(env: Env): Story
    requires Runnable(env) && env.bars != []
  {
    var last := |env.bars| - 1;
    var story := RunTo(env, |env.bars|);
    if Closing(env).None? then story
    else Story(Closing(env).value.state,
               Logged(env.codec, story.log, env.bars[last], SnapAt(env, last), Closing(env).value, true))
  }

  // ---------------------------------------------------------------- ids

  /** Ids name their row; rows from `start` on were numbered by this process and stay below its counters. */
  predicate IdsBelow(t: Tables, rows: int, start: int, orderSerial: nat, fillSerial: nat) {
    && (forall o :: o in t.orders ==>
          o.orderId.Paper? && o.orderId.row == o.request.rowIndex < rows
            && (start <= o.orderId.row ==> o.orderId.serial < orderSerial))
    && (forall f :: f in t.fills ==>
          f.fillId.Paper? && f.fillId.row == f.rowIndex < rows
            && (start <= f.fillId.row ==> f.fillId.serial < fillSerial))
  }

  lemma {:induction false} FreshOrders(table: seq<OrderResult>, rows: seq<OrderResult>)
    requires forall o, r :: o in table && r in rows ==> o.orderId != r.orderId
    requires forall i, j :: 0 <= i < j < |rows| ==> rows[i].orderId != rows[j].orderId
    ensures WriteOrders(table, rows) == Write.Written(table + rows)
  {
    if rows == [] {
      assert table + rows == table;
    } else {
      var front, last := rows[..|rows| - 1], rows[|rows| - 1];
      FreshOrders(table, front);
      assert table + front + [last] == table + rows;
      assert forall o :: o in front ==> o.orderId != last.orderId;
    }
  }

  lemma {:induction false} FreshFills(table: seq<Fill>, rows: seq<Fill>)
    requires forall o, r :: o in table && r in rows ==> o.fillId != r.fillId
    requires forall i, j :: 0 <= i < j < |rows| ==> rows[i].fillId != rows[j].fillId
    ensures WriteFills(table, rows) == Write.Written(table + rows)
  {
    if rows == [] {
      assert table + rows == table;
    } else {
      var front, last := rows[..|rows| - 1], rows[|rows| - 1];
      FreshFills(table, front);
      assert table + front + [last] == table + rows;
      assert forall o :: o in front ==> o.fillId != last.fillId;
    }
  }

  predicate CarryRow(requests: seq<OrderRequest>, row: int) {
    forall r :: r in requests ==> r.rowIndex == row
  }

  lemma AttemptsCarryRow(setup: Setup, st: RuntimeState, bar: MarketBar, snap: IndicatorSnapshot, delay: int,
                         exitReason: ExitReason, reason: string)
    requires Usable(setup, bar)
    ensures CarryRow(EntryAttempt(setup, st, bar, snap, delay).requests, bar.rowIndex)
    ensures CarryRow(ExitAttempt(setup, st, bar, snap, exitReason, reason).requests, bar.rowIndex)
  {
    hide FillCosts, SizePositionForDirection, ClosedTrade, RoundHalfUpNonNegative;
  }

  lemma StepsCarryRow(setup: Setup, st: RuntimeState, bar: MarketBar, snap: IndicatorSnapshot)
    requires Usable(setup, bar)
    ensures CarryRow(StrategyModel.OnBar(setup, st, bar, snap).report.requests, bar.rowIndex)
    ensures var closing := StrategyModel.Finalize(setup, st, bar, snap);
            closing.Some? ==> CarryRow(closing.value.report.requests, bar.rowIndex)
  {
    hide EntryAttempt, ExitAttempt, CarryRow, Usable;
    NothingCarries(bar.rowIndex);
    if st.candidate.time.Some? {
      AttemptsCarryRow(setup, st, bar, snap, MinutesBetween(st.candidate.time.value, bar.timestamp), ZscoreExit,
                       "exit_filled");
    }
    AttemptsCarryRow(setup, st, bar, snap, 0, ZscoreExit, "exit_filled");
    AttemptsCarryRow(setup, st, bar, snap, 0, FridaySessionEnd, "friday_session_end");
    AttemptsCarryRow(setup, st, bar, snap, 0, EndOfData, "exit_filled");
  }

  lemma NothingCarries(row: int)
    ensures CarryRow([], row)
  {
  }

  /** A process numbers its next row with ids nothing in the store can carry. */
  lemma NextIdsAreNew(t: Tables, rows: int, start: int, requests: seq<OrderRequest>, row: int, orderSerial: nat,
                      fillSerial: nat)
    requires IdsBelow(t, rows, start, orderSerial, fillSerial) && CarryRow(requests, row)
    requires start <= row && rows <= row + 1
    ensures WriteOrders(t.orders, OrdersFor(requests, orderSerial))
            == Write.Written(t.orders + OrdersFor(requests, orderSerial))
    ensures WriteFills(t.fills, FillsFor(requests, orderSerial, fillSerial))
            == Write.Written(t.fills + FillsFor(requests, orderSerial, fillSerial))
  {
    var orders, fills := OrdersFor(requests, orderSerial), FillsFor(requests, orderSerial, fillSerial);
    forall o, r | o in t.orders && r in orders
      ensures o.orderId != r.orderId
    {
      var i :| 0 <= i < |orders| && orders[i] == r;
      assert requests[i] in requests;
    }
    forall f, r | f in t.fills && r in fills
      ensures f.fillId != r.fillId
    {
      var i :| 0 <= i < |fills| && fills[i] == r;
      assert requests[i] in requests;
    }
    FreshOrders(t.orders, orders);
    FreshFills(t.fills, fills);
  }

  lemma NextIdsBelow(t: Tables, rows: int, start: int, requests: seq<OrderRequest>, row: int, orderSerial: nat,
                     fillSerial: nat, after: Tables)
    requires IdsBelow(t, rows, start, orderSerial, fillSerial) && CarryRow(requests, row)
    requires start <= row && rows <= row + 1
    requires after.orders == t.orders + OrdersFor(requests, orderSerial)
    requires after.fills == t.fills + FillsFor(requests, orderSerial, fillSerial)
    ensures IdsBelow(after, row + 1, start, orderSerial + |requests|, fillSerial + |requests|)
  {
    var orders, fills := OrdersFor(requests, orderSerial), FillsFor(requests, orderSerial, fillSerial);
    forall o | o in after.orders
      ensures o.orderId.Paper? && o.orderId.row == o.request.rowIndex < row + 1
      ensures start <= o.orderId.row ==> o.orderId.serial < orderSerial + |requests|
    {
      if o !in t.orders {
        var i :| 0 <= i < |orders| && orders[i] == o;
        assert requests[i] in requests;
      }
    }
    forall f | f in after.fills
      ensures f.fillId.Paper? && f.fillId.row == f.rowIndex < row + 1
      ensures start <= f.fillId.row ==> f.fillId.serial < fillSerial + |requests|
    {
      if f !in t.fills {
        var i :| 0 <= i < |fills| && fills[i] == f;
        assert requests[i] in requests;
      }
    }
  }

  lemma RequestsAppend(orders: seq<OrderResult>, requests: seq<OrderRequest>, serial: nat)
    ensures Requests(orders + OrdersFor(requests, serial)) == Requests(orders) + requests
  {
  }

  /** Every fill answers the order at its position, exactly. */
  predicate FillsFollow(t: Tables) {
    && |t.fills| == |t.orders|
    && forall i :: 0 <= i < |t.fills| ==> t.fills[i] == FillOf(t.orders[i], t.fills[i].fillId)
  }

  function FillOf(order: OrderResult, fillId: RecordId): Fill {
    var r := order.request;
    Fill(fillId, order.orderId, r.broker, r.symbol, r.side, r.quantity, r.price, r.feeTwd, r.timestamp, r.rowIndex)
  }

  /** Writing one step on row `row` never collides, and appends its orders and fills. */
  lemma BookNeverCollides(codec: Codec, s: Session, bar: MarketBar, snap: IndicatorSnapshot, step: Step, eventful: bool,
                          rows: int, start: int)
    requires IdsBelow(s.tables, rows, start, s.orderSerial, s.fillSerial)
             && CarryRow(step.report.requests, bar.rowIndex)
    requires start <= bar.rowIndex && rows <= bar.rowIndex + 1 && FillsFollow(s.tables)
    ensures var booked := Book(codec, s, bar, snap, step, eventful);
            && booked.Some?
            && booked.value.state == step.state
            && FillsFollow(booked.value.tables)
            && IdsBelow(booked.value.tables, bar.rowIndex + 1, start, booked.value.orderSerial, booked.value.fillSerial)
            && Erased(booked.value.tables) == Logged(codec, Erased(s.tables), bar, snap, step, eventful)
  {
    var requests := step.report.requests;
    hide IdsBelow, OrdersFor, FillsFor, Requests, CarryRow, WriteBar, RowFor, TradeRows, BarEvent, ToJson, FillsFollow;
    NextIdsAreNew(s.tables, rows, start, requests, bar.rowIndex, s.orderSerial, s.fillSerial);
    var booked := Book(codec, s, bar, snap, step, eventful).value;
    NextIdsBelow(s.tables, rows, start, requests, bar.rowIndex, s.orderSerial, s.fillSerial, booked.tables);
    RequestsAppend(s.tables.orders, requests, s.orderSerial);
    BookedFillsFollow(s, requests, booked.tables);
  }

  lemma BookedFillsFollow(s: Session, requests: seq<OrderRequest>, t: Tables)
    requires FillsFollow(s.tables)
    requires t.orders == s.tables.orders + OrdersFor(requests, s.orderSerial)
    requires t.fills == s.tables.fills + FillsFor(requests, s.orderSerial, s.fillSerial)
    ensures FillsFollow(t)
  {
  }

  // ---------------------------------------------------------------- one process

  /** A store that holds the story so far: i bars in, saved at row i - 1. */
  ghost predicate At(env: Env, t: Tables, i: nat)
    requires Runnable(env) && i <= |env.bars|
  {
    && Erased(t) == RunTo(env, i).log
    && |t.fills| == |t.orders|
    && (forall o :: o in t.orders ==> o.orderId.Paper? && o.orderId.row == o.request.rowIndex < i)
    && (forall f :: f in t.fills ==> f.fillId.Paper? && f.fillId.row == f.rowIndex < i)
    && FillsFollow(t)
  }

  ghost predicate Midway(env: Env, s: Session, start: int, i: nat)
    requires Runnable(env) && i <= |env.bars|
  {
    && Erased(s.tables) == RunTo(env, i).log && s.state == RunTo(env, i).state
    && IdsBelow(s.tables, i, start, s.orderSerial, s.fillSerial) && FillsFollow(s.tables)
  }

  /** One more bar of the story. */
  function NextStep(env: Env, st: RuntimeState, i: nat): Step
    requires Runnable(env) && i < |env.bars|
  {
    StrategyModel.OnBar(env.setup, st, env.bars[i], SnapAt(env, i))
  }

  lemma StoryUnfolds(env: Env, i: nat)
    requires Runnable(env) && i < |env.bars|
    ensures var earlier := RunTo(env, i);
            var step := NextStep(env, earlier.state, i);
            RunTo(env, i + 1) == Story(step.state,
                                       Logged(env.codec, earlier.log, env.bars[i], SnapAt(env, i), step,
                                              step.report.action != NoAction))
  {
    hide StrategyModel.OnBar, SnapAt, Logged;
  }

  lemma ProcessUnfolds(env: Env, s: Session, i: nat)
    requires Runnable(env) && i < |env.bars|
    ensures var step := NextStep(env, s.state, i);
            var booked := Book(env.codec, s, env.bars[i], SnapAt(env, i), step, step.report.action != NoAction);
            Process(env, s, i) == if booked.Some? then Ran(booked.value) else Stuck(s)
  {
    hide StrategyModel.OnBar, SnapAt, Book;
  }

  lemma ProcessOnce(env: Env, s: Session, start: int, i: nat)
    requires Runnable(env) && start <= i < |env.bars| && Midway(env, s, start, i)
    ensures var p := Process(env, s, i); p.Ran? && Midway(env, p.session, start, i + 1)
  {
    hide StrategyModel.OnBar, SnapAt, Book, IdsBelow, FillsFollow, Logged, Erased, RunTo, Process, NextStep, CarryRow;
    var step := NextStep(env, s.state, i);
    StoryUnfolds(env, i);
    ProcessUnfolds(env, s, i);
    NextStepCarriesRow(env, s.state, i);
    BookNeverCollides(env.codec, s, env.bars[i], SnapAt(env, i), step, step.report.action != NoAction, i, start);
  }

  lemma NextStepCarriesRow(env: Env, st: RuntimeState, i: nat)
    requires Runnable(env) && i < |env.bars|
    ensures CarryRow(NextStep(env, st, i).report.requests, i)
  {
    hide StrategyModel.OnBar, SnapAt;
    StepsCarryRow(env.setup, st, env.bars[i], SnapAt(env, i));
  }

  lemma {:induction false} ProcessFollowsStory(env: Env, s: Session, start: nat, i: nat)
    requires Runnable(env) && start <= i <= |env.bars| && Midway(env, s, start, start)
    ensures var p := ProcessAll(env, s, start, i); p.Ran? && Midway(env, p.session, start, i)
  {
    hide Midway, Process;
    if i > start {
      ProcessFollowsStory(env, s, start, i - 1);
      ProcessOnce(env, ProcessAll(env, s, start, i - 1).session, start, i - 1);
    }
  }

  ghost predicate Complete(env: Env, t: Tables)
    requires Runnable(env) && env.bars != []
  {
    Erased(t) == Ending(env).log && FillsFollow(t)
  }

  lemma EndingUnfolds(env: Env)
    requires Runnable(env) && env.bars != []
    ensures var last := |env.bars| - 1;
            var (story, closing) := (RunTo(env, |env.bars|), Closing(env));
            && (closing.None? ==> Ending(env) == story)
            && (closing.Some? ==>
                  Ending(env)
                  == Story(closing.value.state, Logged(env.codec, story.log, env.bars[last], SnapAt(env, last),
                                                       closing.value, true)))
  {
    hide RunTo, StrategyModel.Finalize, SnapAt, Logged, Usable;
  }

  lemma ClosingCarriesRow(env: Env)
    requires Runnable(env) && env.bars != []
    ensures Closing(env).Some? ==> CarryRow(Closing(env).value.report.requests, |env.bars| - 1)
  {
    hide RunTo, StrategyModel.Finalize, StrategyModel.OnBar, SnapAt, CarryRow;
    var last := |env.bars| - 1;
    StepsCarryRow(env.setup, RunTo(env, |env.bars|).state, env.bars[last], SnapAt(env, last));
  }

  lemma FinishUnfolds(env: Env, s: Session)
    requires Runnable(env) && env.bars != [] && s.state == RunTo(env, |env.bars|).state
    ensures var last := |env.bars| - 1;
            var closing := Closing(env);
            && (closing.None? ==> Finish(env, s) == (Ran(s), false))
            && (closing.Some? ==>
                  var booked := Book(env.codec, s, env.bars[last], SnapAt(env, last), closing.value, true);
                  Finish(env, s) == if booked.Some? then (Ran(booked.value), true) else (Stuck(s), false))
            && (closing.Some? ==> CarryRow(closing.value.report.requests, last))
  {
    ClosingCarriesRow(env);
    hide RunTo, StrategyModel.Finalize, SnapAt, Book, CarryRow;
  }

  lemma FinishEndsStory(env: Env, s: Session, start: nat)
    requires Runnable(env) && env.bars != [] && start < |env.bars| && Midway(env, s, start, |env.bars|)
    ensures var (p, finalized) := Finish(env, s);
            p.Ran? && Complete(env, p.session.tables) && finalized == Closing(env).Some?
  {
    hide Finish, Book, SnapAt, IdsBelow, FillsFollow, Logged, Erased, RunTo, Closing, Ending, CarryRow, Usable;
    EndingUnfolds(env);
    FinishUnfolds(env, s);
    var last := |env.bars| - 1;
    if Closing(env).Some? {
      BookNeverCollides(env.codec, s, env.bars[last], SnapAt(env, last), Closing(env).value, true, last + 1, start);
    }
  }

  lemma SavedStory(env: Env, i: nat)
    requires Runnable(env) && 0 < i <= |env.bars|
    ensures var log := RunTo(env, i).log;
            && log.saved == Some(Saved(i - 1, env.bars[i - 1].timestamp, ToJson(env.codec, RunTo(env, i).state)))
            && log.bars != map[]
  {
    hide StrategyModel.OnBar, ToJson;
    assert i - 1 in RunTo(env, i).log.bars;
  }

  lemma MidwayIsAt(env: Env, s: Session, start: nat, i: nat)
    requires Runnable(env) && i <= |env.bars| && Midway(env, s, start, i)
    ensures At(env, s.tables, i)
  {
    hide RunTo, Erased;
  }

  lemma AtIsMidway(env: Env, t: Tables, i: nat)
    requires Runnable(env) && i <= |env.bars| && At(env, t, i)
    ensures Midway(env, Session(RunTo(env, i).state, t, 1, 1), i, i)
  {
    hide RunTo, Erased;
  }

  /** What a process does once its bars have run. */
  lemma RunFromUnfolds(env: Env, state: RuntimeState, start: nat, t: Tables, maxBars: Option<nat>, s: Session)
    requires Runnable(env) && start <= |env.bars|
    requires ProcessAll(env, Session(state, t, 1, 1), start, Stop(env, start, maxBars)) == Ran(s)
    ensures var stop := Stop(env, start, maxBars);
            var r := RunFrom(env, state, start, t, maxBars);
            && (start == stop ==> r == Result(Replayed(0, None, None, false), s.tables))
            && (start < stop < |env.bars| ==>
                  r == Result(Replayed(stop - start, Some(start), Some(stop - 1), false), s.tables))
            && (start < stop == |env.bars| && Finish(env, s).0.Ran? ==>
                  r == Result(Replayed(stop - start, Some(start), Some(stop - 1), Finish(env, s).1),
                              Finish(env, s).0.session.tables))
  {
    hide ProcessAll, Finish, Runnable;
  }

  /**
   One process over a store that holds i bars: it adds the bars it is allowed, and finalises only if it reaches the end.
   */
  lemma ProcessAdvances(env: Env, t: Tables, i: nat, maxBars: Option<nat>)
    requires Runnable(env) && i <= |env.bars| && At(env, t, i)
    ensures var stop := Stop(env, i, maxBars);
            var r := RunFrom(env, RunTo(env, i).state, i, t, maxBars);
            if i == stop then r == Result(Replayed(0, None, None, false), t)
            else if stop < |env.bars| then r.outcome == Replayed(stop - i, Some(i), Some(stop - 1), false)
              && At(env, r.tables, stop)
            else r.outcome == Replayed(stop - i, Some(i), Some(stop - 1), Closing(env).Some?) && Complete(env, r.tables)
  {
    hide RunTo, Midway, At, Finish, Closing, RunFrom, Complete, Process, Usable;
    var stop := Stop(env, i, maxBars);
    var s := Session(RunTo(env, i).state, t, 1, 1);
    AtIsMidway(env, t, i);
    ProcessFollowsStory(env, s, i, stop);
    var p := ProcessAll(env, s, i, stop);
    MidwayIsAt(env, p.session, i, stop);
    RunFromUnfolds(env, RunTo(env, i).state, i, t, maxBars, p.session);
    if i < stop == |env.bars| {
      FinishEndsStory(env, p.session, i);
    }
  }

  /** Resuming reads back exactly the state the story had, and rebuilds the window from the bars already run. */
  lemma ResumeContinues(env: Env, t: Tables, i: nat)
    requires Loaded(env) && i <= |env.bars| && At(env, t, i)
    ensures SavedSane(t) && OpeningOf(env, t, true, false) == StartsAt(i, RunTo(env, i).state)
    ensures forall maxBars :: Replay(env, t, maxBars, true, false) == RunFrom(env, RunTo(env, i).state, i, t, maxBars)
  {
    hide RunFrom, ToJson, FromJson, FreshState;
    if i > 0 {
      SavedStory(env, i);
      StateRoundTrip(env.codec, RunTo(env, i).state);
    }
  }

  /**
   One process on any store the story can have left: it runs as many bars as are left and allowed, from the first that
   is missing, reports them, and closes the data exactly if it ran the last one; then the store holds the story that
   far.
   */
  lemma ResumeRuns(env: Env, t: Tables, i: nat, maxBars: Option<nat>)
    requires Loaded(env) && i <= |env.bars| && At(env, t, i)
    ensures SavedSane(t)
    ensures var r := Replay(env, t, maxBars, true, false);
            var left := |env.bars| - i;
            var n := if maxBars.Some? && maxBars.value < left then maxBars.value else left;
            && r.outcome.Replayed? && r.outcome.rows == n
            && (n == 0 ==> r.tables == t && !r.outcome.finalized && r.outcome.startRow == r.outcome.endRow == None)
            && (n > 0 ==>
                  && r.outcome.startRow == Some(i) && r.outcome.endRow == Some(i + n - 1)
                  && (r.outcome.finalized <==> n == left && Closing(env).Some?)
                  && if n == left then Complete(env, r.tables) else At(env, r.tables, i + n))
  {
    hide At, RunFrom, Closing, Complete, RunTo, Replay;
    ResumeContinues(env, t, i);
    ProcessAdvances(env, t, i, maxBars);
  }

  /**
   What a replay refuses, exactly: a fresh run over a store with bars, a resume of bars without a saved state, and a
   saved state that does not read. A refusal leaves the store as it was, and a reset never refuses: it runs as on an
   empty store.
   */
  lemma RefusesExactlyWhen(env: Env, t: Tables, maxBars: Option<nat>, resume: bool)
    requires Loaded(env) && SavedSane(t)
    ensures var r := Replay(env, t, maxBars, resume, false);
            && (r.outcome == StoreHasData <==> !resume && t.bars != map[])
            && (r.outcome == StateMissing <==> resume && t.saved.None? && t.bars != map[])
            && (r.outcome == StateUnreadable <==>
                  resume && t.saved.Some? && FromJson(env.codec, t.saved.value.payload).None?)
            && (r.outcome in {StoreHasData, StateMissing, StateUnreadable} ==> r.tables == t)
    ensures Replay(env, t, maxBars, resume, true) == Replay(env, EMPTY, maxBars, true, false)
    ensures Replay(env, EMPTY, maxBars, resume, false) == Replay(env, EMPTY, maxBars, true, false)
  {
    hide FromJson, ProcessAll, Finish, FreshState, IsSquareRoot, Usable, IsIso;
  }

  lemma SavedAtEnd(env: Env)
    requires Runnable(env) && env.bars != []
    ensures var log := Ending(env).log;
            && log.saved
               == Some(Saved(|env.bars| - 1, env.bars[|env.bars| - 1].timestamp, ToJson(env.codec, Ending(env).state)))
            && log.bars != map[]
  {
    hide StrategyModel.OnBar, StrategyModel.Finalize, ToJson;
    SavedStory(env, |env.bars|);
    assert Closing(env).Some? ==> |env.bars| - 1 in Ending(env).log.bars;
  }

  /** A finished store is finished: another process, dying or not, changes nothing and finalises nothing. */
  lemma CompleteIsFinal(env: Env, t: Tables, link: Link)
    requires Loaded(env) && env.bars != [] && Complete(env, t)
    ensures SavedSane(t)
    ensures Replay(env, t, link.maxBars, true, false) == Result(Replayed(0, None, None, false), t)
    ensures Idle(ResumeLink(env, t, link).0) && ResumeLink(env, t, link).1 == t
  {
    hide ToJson, FromJson, FreshState, Ending;
    SavedAtEnd(env);
    StateRoundTrip(env.codec, Ending(env).state);
  }

  // ---------------------------------------------------------------- many processes

  /** One process after another, each stopped by its own bar limit, by its death, or by the end of data. */
  function Chain(env: Env, t: Tables, links: seq<Link>): (seq<Fate>, Tables)
    requires Runnable(env) && SavedSane(t)
    decreases |links|
  {
    if links == [] then ([], t)
    else
      var (first, next) := ResumeLink(env, t, links[0]);
      if !SavedSane(next) then ([first], next)
      else
        var (rest, end) := Chain(env, next, links[1..]);
        ([first] + rest, end)
  }

  predicate Idle(fate: Fate) {
    fate == Died(0) || fate == Returned(Replayed(0, None, None, false))
  }

  /** Not turned away and not stopped by an id collision. */
  predicate Worked(fate: Fate) {
    fate.Died? || fate.outcome.Replayed?
  }

  function FinalisedBy(fate: Fate): nat {
    if fate.Returned? && fate.outcome.Replayed? && fate.outcome.finalized then 1 else 0
  }

  function RowsBy(fate: Fate): nat {
    match fate
    case Died(rows) => rows
    case Returned(outcome) => if outcome.Replayed? then outcome.rows else 0
  }

  function Finalisations(fates: seq<Fate>): nat {
    if fates == [] then 0 else FinalisedBy(fates[0]) + Finalisations(fates[1..])
  }

  function RowsRun(fates: seq<Fate>): nat {
    if fates == [] then 0 else RowsBy(fates[0]) + RowsRun(fates[1..])
  }

  lemma ChainUnfolds(env: Env, t: Tables, links: seq<Link>)
    requires Runnable(env) && SavedSane(t) && links != []
    requires SavedSane(ResumeLink(env, t, links[0]).1)
    ensures var (first, next) := ResumeLink(env, t, links[0]);
            var (rest, end) := Chain(env, next, links[1..]);
            && Chain(env, t, links) == ([first] + rest, end)
            && RowsRun([first] + rest) == RowsBy(first) + RowsRun(rest)
            && Finalisations([first] + rest) == FinalisedBy(first) + Finalisations(rest)
  {
    hide ResumeLink, SavedSane, RowsBy, FinalisedBy;
    var (first, next) := ResumeLink(env, t, links[0]);
    var rest := Chain(env, next, links[1..]).0;
    assert ([first] + rest)[1..] == rest;
  }

  lemma NoChain(env: Env, t: Tables)
    requires Runnable(env) && SavedSane(t)
    ensures Chain(env, t, []) == ([], t)
  {
  }

  /** A store no process can move: each one leaves it as it is. */
  ghost predicate AtRest(env: Env, t: Tables)
    requires Runnable(env) && SavedSane(t)
  {
    forall link :: var (fate, next) := ResumeLink(env, t, link); Idle(fate) && next == t
  }

  lemma {:induction false} RestIsIdle(env: Env, t: Tables, links: seq<Link>)
    requires Runnable(env) && SavedSane(t) && AtRest(env, t)
    ensures var (fates, end) := Chain(env, t, links);
            end == t && Finalisations(fates) == 0 && RowsRun(fates) == 0 && forall f :: f in fates ==> Worked(f)
    decreases |links|
  {
    hide ResumeLink, Chain, SavedSane, Usable;
    if links == [] {
      NoChain(env, t);
    } else {
      var (first, next) := ResumeLink(env, t, links[0]);
      assert Idle(first) && next == t;
      RestIsIdle(env, t, links[1..]);
      ChainUnfolds(env, t, links);
    }
  }

  /** The process that commits the last bar lives to finalise it. */
  predicate ClosedOnArrival(env: Env, i: nat, links: seq<Link>)
    requires i <= |env.bars|
    decreases |links|
  {
    && links != [] && i < |env.bars|
    && var stop := Reach(env, i, links[0]);
       if stop == |env.bars| then links[0].diesAfter.None? else ClosedOnArrival(env, stop, links[1..])
  }

  /** How far a row and the links after it get, by arithmetic alone. */
  function FarReach(env: Env, i: nat, links: seq<Link>): (stop: nat)
    requires i <= |env.bars|
    ensures i <= stop <= |env.bars|
    decreases |links|
  {
    if links == [] then i else FarReach(env, Reach(env, i, links[0]), links[1..])
  }

  /** What the processes must add up to, from row i to wherever they got. */
  ghost predicate TellsTheStory(env: Env, i: nat, links: seq<Link>, fates: seq<Fate>, end: Tables)
    requires Runnable(env) && env.bars != [] && i <= |env.bars|
  {
    && (forall f :: f in fates ==> Worked(f))
    && i + RowsRun(fates) == FarReach(env, i, links)
    && Finalisations(fates) == (if ClosedOnArrival(env, i, links) && Closing(env).Some? then 1 else 0)
    && (if ClosedOnArrival(env, i, links) then Complete(env, end) else At(env, end, FarReach(env, i, links)))
  }

  /** What one link does to a store that holds i bars. */
  lemma LinkAdvances(env: Env, t: Tables, i: nat, link: Link)
    requires Loaded(env) && i <= |env.bars| && At(env, t, i)
    ensures SavedSane(t)
    ensures var stop := Reach(env, i, link);
            var (fate, next) := ResumeLink(env, t, link);
            && Worked(fate) && RowsBy(fate) == stop - i
            && (i == |env.bars| ==> Idle(fate) && next == t)
            && (if i < stop == |env.bars| && link.diesAfter.None?
                then FinalisedBy(fate) == (if Closing(env).Some? then 1 else 0) && Complete(env, next)
                else FinalisedBy(fate) == 0 && At(env, next, stop))
  {
    hide RunTo, Midway, At, Finish, Closing, RunFrom, Complete, Process, Usable, IsSquareRoot, Replay;
    ResumeContinues(env, t, i);
    var stop := Reach(env, i, link);
    if link.diesAfter.None? {
      ProcessAdvances(env, t, i, link.maxBars);
    } else {
      var s := Session(RunTo(env, i).state, t, 1, 1);
      AtIsMidway(env, t, i);
      ProcessFollowsStory(env, s, i, stop);
      MidwayIsAt(env, ProcessAll(env, s, i, stop).session, i, stop);
    }
  }

  lemma CompleteIsAtRest(env: Env, t: Tables)
    requires Loaded(env) && env.bars != [] && Complete(env, t)
    ensures SavedSane(t) && AtRest(env, t)
  {
    hide ResumeLink, Complete, IsSquareRoot, Usable, Replay, SavedSane;
    CompleteIsFinal(env, t, Link(None, None));
    forall link
      ensures Idle(ResumeLink(env, t, link).0) && ResumeLink(env, t, link).1 == t
    {
      CompleteIsFinal(env, t, link);
    }
  }

  /**
   However a replay is cut into processes, by bar limits or by deaths between commits, no id ever collides, the store
   tells the story of the bars that ran and every bar runs once. End of data is finalised exactly once, unless the
   process that committed the last bar died before its final commit: then it is never finalised.
   */
  lemma {:induction false} AnySplitTellsTheStory(env: Env, t: Tables, i: nat, links: seq<Link>)
    requires Loaded(env) && env.bars != [] && i <= |env.bars| && At(env, t, i)
    ensures SavedSane(t)
    ensures var (fates, end) := Chain(env, t, links); TellsTheStory(env, i, links, fates, end)
    decreases |links|
  {
    hide At, Complete, ResumeLink, RunTo, Closing, SavedSane, Usable, Chain, IsSquareRoot, Reach, Worked, FinalisedBy,
         RowsBy;
    AtIsSane(env, t, i);
    if links == [] {
      NoChain(env, t);
    } else {
      var stop := Reach(env, i, links[0]);
      LinkAdvances(env, t, i, links[0]);
      var next := ResumeLink(env, t, links[0]).1;
      if i < stop == |env.bars| && links[0].diesAfter.None? {
        CompleteIsAtRest(env, next);
        RestIsIdle(env, next, links[1..]);
        NothingLeft(env, links[1..]);
      } else {
        AnySplitTellsTheStory(env, next, stop, links[1..]);
      }
      ChainUnfolds(env, t, links);
    }
  }

  lemma {:induction false} NothingLeft(env: Env, links: seq<Link>)
    ensures FarReach(env, |env.bars|, links) == |env.bars|
    decreases |links|
  {
    if links != [] {
      NothingLeft(env, links[1..]);
    }
  }

  lemma AtIsSane(env: Env, t: Tables, i: nat)
    requires Runnable(env) && i <= |env.bars| && At(env, t, i)
    ensures SavedSane(t)
  {
    if i > 0 {
      SavedStory(env, i);
    }
  }

  /** A store whose last bar was committed but never finalised stays that way, whatever runs afterwards. */
  lemma {:induction false} LostCloseIsForever(env: Env, t: Tables, links: seq<Link>)
    requires Loaded(env) && env.bars != [] && At(env, t, |env.bars|)
    ensures SavedSane(t)
    ensures var (fates, end) := Chain(env, t, links); end == t && Finalisations(fates) == 0
  {
    hide At, ResumeLink, SavedSane, Usable, Chain, IsSquareRoot;
    AtIsSane(env, t, |env.bars|);
    forall link
      ensures Idle(ResumeLink(env, t, link).0) && ResumeLink(env, t, link).1 == t
    {
      LinkAdvances(env, t, |env.bars|, link);
    }
    RestIsIdle(env, t, links);
  }

  lemma EmptyIsAtZero(env: Env)
    requires Runnable(env)
    ensures At(env, EMPTY, 0) && SavedSane(EMPTY)
  {
    assert Requests([]) == [];
  }

  /** The last bar's commit is not yet the end when there is something to close: the final commit adds an event. */
  lemma UnclosedIsIncomplete(env: Env, t: Tables)
    requires Runnable(env) && env.bars != [] && At(env, t, |env.bars|)
    ensures Complete(env, t) <==> Closing(env).None?
  {
    hide RunTo, Closing, Ending, SnapAt;
    EndingUnfolds(env);
    if Closing(env).Some? {
      var log := RunTo(env, |env.bars|).log;
      assert |Ending(env).log.events| == |log.events| + 1;
    }
  }

  /**
   An interrupted replay that ran every bar left the same store as one uninterrupted run (same state, trades, events,
   bars and orders) exactly when the process that committed the last bar lived on, or there was nothing to close.
   */
  lemma InterruptedEqualsUninterrupted(env: Env, links: seq<Link>)
    requires Loaded(env) && env.bars != []
    ensures SavedSane(EMPTY)
    ensures var whole := Replay(env, EMPTY, None, false, false);
            var (fates, end) := Chain(env, EMPTY, links);
            && whole.outcome == Replayed(|env.bars|, Some(0), Some(|env.bars| - 1), Closing(env).Some?)
            && Complete(env, whole.tables)
            && (RowsRun(fates) == |env.bars| ==>
                  (Erased(end) == Erased(whole.tables) <==> ClosedOnArrival(env, 0, links) || Closing(env).None?))
  {
    hide RunFrom, RunTo, At, Closing, Ending, Erased, Usable, Chain, IsSquareRoot, ClosedOnArrival, FarReach;
    EmptyIsAtZero(env);
    AnySplitTellsTheStory(env, EMPTY, 0, links);
    ProcessAdvances(env, EMPTY, 0, None);
    FreshStart(env);
    var (fates, end) := Chain(env, EMPTY, links);
    if RowsRun(fates) == |env.bars| && !ClosedOnArrival(env, 0, links) {
      UnclosedIsIncomplete(env, end);
      AtFollows(env, end, |env.bars|);
    }
  }

  /** Two bars, window two, and a score of exactly one on the last bar: an entry is pending when the data ends. */
  function PendingEnd(sqrt: RealFunction, codec: Codec): Env {
    var strategy := StrategyConfig(0.5, 0.1, 0.0, 1000000.0, 5, Some(1));
    var fees := FeeConfig(1.0, 0.0, 1.0, 0.0, 0.0);
    Env(Setup(strategy, fees, "UMC"), 2, sqrt, codec,
        [MarketBar(0, 0, 1.0, 1.0, 0.0, None, None, true, true, false, "CCF"),
         MarketBar(1, 60, 1.0, 1.0, 2.0, None, None, true, true, false, "CCF")])
  }

  lemma PendingEndScores(sqrt: RealFunction, codec: Codec)
    requires IsSquareRoot(sqrt)
    ensures var env := PendingEnd(sqrt, codec);
            && !SnapAt(env, 0).zscoreValid && SnapAt(env, 1).entryAllowed
            && SnapAt(env, 1).zscoreValid && SnapAt(env, 1).zscore == Some(1.0)
  {
    var env := PendingEnd(sqrt, codec);
    var values := Spreads(env.bars[..2]);
    assert values == [0.0, 2.0] && LastN(values, 2) == values;
    ZeroAndTwo();
    RootOfOne(sqrt);
    AllEqualFirst(values);
  }

  lemma ZeroAndTwo()
    ensures Mean([0.0, 2.0]) == 1.0 && Variance([0.0, 2.0]) == 1.0
  {
    assert [0.0, 2.0][1..] == [2.0] && [2.0][1..] == [];
    assert Sum([2.0]) == 2.0 && SumSq([2.0]) == Sq(2.0);
    assert Sq(2.0) == 4.0 && Sq(0.0) == 0.0 && Sq(1.0) == 1.0;
  }

  lemma AllEqualFirst(values: seq<real>)
    requires |values| == 2 && values[0] != values[1]
    ensures !AllEqual(values, values[0])
  {
    assert values[1] in values;
  }

  lemma PendingEndPends(sqrt: RealFunction, codec: Codec)
    requires IsSquareRoot(sqrt) && IsIso(codec)
    ensures var env := PendingEnd(sqrt, codec);
            Loaded(env) && |env.bars| == 2 && RunTo(env, 2).state.state == EntryPending && Closing(env).Some?
  {
    hide IsIso, SnapAt, ToJson, WriteBar, TradeRows, BarEvent, RowFor, RunTo, IsSquareRoot, NextStep;
    var env := PendingEnd(sqrt, codec);
    PendingEndScores(sqrt, codec);
    FlatStart(env);
    StoryUnfolds(env, 0);
    FlatNextStep(env, RunTo(env, 0).state, 0);
    StoryUnfolds(env, 1);
    SignalledNextStep(env, RunTo(env, 1).state, 1);
  }

  lemma SignalledNextStep(env: Env, st: RuntimeState, i: nat)
    requires Loaded(env) && i < |env.bars| && st.state == Flat
    requires var snap := SnapAt(env, i);
             && snap.entryAllowed && snap.zscoreValid && snap.zscore.Some?
             && EntryDirection(snap.zscore.value, env.setup.strategy.entryZ).Some?
    ensures NextStep(env, st, i).state.state == EntryPending
  {
    hide SnapAt, EntryAttempt, ExitAttempt;
  }

  lemma RootOfOne(sqrt: RealFunction)
    requires IsSquareRoot(sqrt)
    ensures sqrt(1.0) == 1.0
  {
    var root := sqrt(1.0);
    assert root >= 0.0 && Sq(root) == 1.0 == Sq(1.0);
    SqMonotone(root, 1.0);
    SqMonotone(1.0, root);
  }

  /**
   The replay this happens to: its first process dies after the last bar's commit, and no later one ever finalises. The
   store keeps an entry that is still pending after the end of data.
   */
  lemma DeathLosesTheClose(sqrt: RealFunction, codec: Codec, later: seq<Link>)
    requires IsSquareRoot(sqrt) && IsIso(codec)
    ensures var env := PendingEnd(sqrt, codec);
            && Loaded(env) && SavedSane(EMPTY)
            && var (fates, end) := Chain(env, EMPTY, [Link(None, Some(2))] + later);
               && RowsRun(fates) == |env.bars| && Finalisations(fates) == 0
               && At(env, end, 2) && RunTo(env, 2).state.state == EntryPending
  {
    hide RunTo, Chain, At, Closing, IsSquareRoot, IsIso;
    var env, links := PendingEnd(sqrt, codec), [Link(None, Some(2))] + later;
    PendingEndPends(sqrt, codec);
    EmptyIsAtZero(env);
    AnySplitTellsTheStory(env, EMPTY, 0, links);
    assert links[1..] == later;
    NothingLeft(env, later);
  }

  lemma AtFollows(env: Env, t: Tables, i: nat)
    requires Runnable(env) && i <= |env.bars| && At(env, t, i)
    ensures FillsFollow(t)
  {
  }

  lemma FreshStart(env: Env)
    requires Runnable(env)
    ensures RunTo(env, 0) == Story(FreshState(env.setup.strategy), EMPTY_LOG)
  {
  }

  // ---------------------------------------------------------------- what the story satisfies

  function TotalNet(rows: seq<TradeRow>): real {
    if rows == [] then 0.0 else TotalNet(rows[..|rows| - 1]) + rows[|rows| - 1].Net()
  }

  function TotalFees(rows: seq<TradeRow>): real {
    if rows == [] then 0.0 else TotalFees(rows[..|rows| - 1]) + rows[|rows| - 1].Fees()
  }

  /** Realised PnL is what the trade table sums to, less the entry fee of a trade still open. */
  predicate Balanced(st: RuntimeState, trades: seq<TradeRow>) {
    && st.realizedPnl + OpenFee(st.openTrade) == TotalNet(trades)
    && st.realizedFeeTwd - OpenFee(st.openTrade) == TotalFees(trades)
  }

  lemma BalancedStep(before: RuntimeState, trades: seq<TradeRow>, step: Step)
    requires Balanced(before, trades) && MoneyKept(before, step.state, step.report.trade)
    ensures Balanced(step.state, trades + TradeRows(step.report))
  {
    var rows := TradeRows(step.report);
    if rows == [] {
      assert trades + rows == trades;
    } else {
      assert (trades + rows)[..|trades|] == trades;
    }
  }

  predicate OneSymbol(env: Env, symbol: string) {
    forall i :: 0 <= i < |env.bars| ==> CcfSymbolOf(env.bars[i]) == symbol
  }

  /** The orders so far add up to the position on both venues. */
  predicate LedgerAgrees(env: Env, symbol: string, st: RuntimeState, requests: seq<OrderRequest>) {
    && Requested(requests, IbkrUmc, env.setup.umcSymbol) == st.position.umcUnits
    && Requested(requests, FubonCcf, symbol) == st.position.ccfContracts as real
  }

  lemma {:induction false} SignedOfPlaced(requests: seq<OrderRequest>, a: nat, b: nat, broker: BrokerName,
                                          symbol: string)
    ensures SignedQuantity(FillsFor(requests, a, b), broker, symbol) == Requested(requests, broker, symbol)
  {
    if requests != [] {
      SignedOfPlaced(requests[1..], a + 1, b + 1, broker, symbol);
      SignedOfPlaced(requests[1..], 1, 1, broker, symbol);
      assert FillsFor(requests, a, b)[1..] == FillsFor(requests[1..], a + 1, b + 1);
      assert FillsFor(requests, 0, 0)[1..] == FillsFor(requests[1..], 1, 1);
    }
  }

  lemma RequestedConcat(a: seq<OrderRequest>, b: seq<OrderRequest>, broker: BrokerName, symbol: string)
    ensures Requested(a + b, broker, symbol) == Requested(a, broker, symbol) + Requested(b, broker, symbol)
  {
    assert FillsFor(a + b, 0, 0) == FillsFor(a, 0, 0) + FillsFor(b, |a|, |a|);
    SignedQuantityConcat(FillsFor(a, 0, 0), FillsFor(b, |a|, |a|), broker, symbol);
    SignedOfPlaced(b, |a|, |a|, broker, symbol);
  }

  /** Whatever ids a process gave them, the recorded fills are worth what the requests asked. */
  lemma {:induction false} RecordedIsRequested(t: Tables, broker: BrokerName, symbol: string)
    requires FillsFollow(t)
    ensures SignedQuantity(t.fills, broker, symbol) == Requested(Requests(t.orders), broker, symbol)
    decreases |t.fills|
  {
    if t.fills == [] {
      assert Requests(t.orders) == [];
      assert FillsFor([], 0, 0) == [];
    } else {
      var rest := t.(orders := t.orders[1..], fills := t.fills[1..]);
      RecordedIsRequested(rest, broker, symbol);
      assert Requests(t.orders) == [t.orders[0].request] + Requests(rest.orders);
      RequestedConcat([t.orders[0].request], Requests(rest.orders), broker, symbol);
      var one := FillsFor([t.orders[0].request], 0, 0);
      assert one[1..] == [];
      assert t.fills == [t.fills[0]] + rest.fills;
      assert SignedQuantity(one, broker, symbol) == if one[0].On(broker, symbol) then one[0].Signed() else 0.0;
      assert t.fills[0].On(broker, symbol) == one[0].On(broker, symbol) && t.fills[0].Signed() == one[0].Signed();
    }
  }

  lemma LedgerStep(env: Env, symbol: string, i: nat, before: RuntimeState, requests: seq<OrderRequest>, step: Step)
    requires i < |env.bars| && OneSymbol(env, symbol) && LedgerAgrees(env, symbol, before, requests)
    requires OrdersMatchPositions(env.setup, env.bars[i], before, step.state, step.report.requests)
    ensures LedgerAgrees(env, symbol, step.state, requests + step.report.requests)
  {
    hide Requested;
    RequestedConcat(requests, step.report.requests, IbkrUmc, env.setup.umcSymbol);
    RequestedConcat(requests, step.report.requests, FubonCcf, symbol);
  }

  ghost predicate Sound(env: Env, symbol: string, story: Story) {
    && WellFormed(story.state) && Balanced(story.state, story.log.trades)
    && LedgerAgrees(env, symbol, story.state, story.log.requests)
  }

  /** One sound story step keeps the story sound. */
  lemma SoundStep(env: Env, symbol: string, i: nat, story: Story, step: Step, log: Log)
    requires i < |env.bars| && OneSymbol(env, symbol) && Sound(env, symbol, story)
    requires StepOk(env.setup, env.bars[i], story.state, step)
    requires log.trades == story.log.trades + TradeRows(step.report)
             && log.requests == story.log.requests + step.report.requests
    ensures Sound(env, symbol, Story(step.state, log))
  {
    hide WellFormed, Balanced, LedgerAgrees, OrdersMatchPositions, MoneyKept, OneSymbol, TradeRows;
    BalancedStep(story.state, story.log.trades, step);
    LedgerStep(env, symbol, i, story.state, story.log.requests, step);
  }

  lemma NextStepOk(env: Env, st: RuntimeState, i: nat)
    requires Runnable(env) && i < |env.bars| && WellFormed(st)
    ensures StepOk(env.setup, env.bars[i], st, NextStep(env, st, i))
  {
    hide StrategyModel.OnBar, SnapAt, StepOk, WellFormed;
    OnBarOk(env.setup, st, env.bars[i], SnapAt(env, i));
  }

  lemma SoundIsWellFormed(env: Env, symbol: string, story: Story)
    requires Sound(env, symbol, story)
    ensures WellFormed(story.state)
  {
  }

  lemma SoundStart(env: Env, symbol: string)
    requires Runnable(env)
    ensures Sound(env, symbol, RunTo(env, 0))
  {
    assert FillsFor([], 0, 0) == [];
  }

  /** At every bar of every replay: no error state, the money balances, and the orders add up to the position. */
  lemma {:induction false} EveryBarIsSound(env: Env, symbol: string, i: nat)
    requires Runnable(env) && i <= |env.bars| && OneSymbol(env, symbol)
    ensures Sound(env, symbol, RunTo(env, i))
  {
    hide NextStep, RunTo, Sound, StepOk, OneSymbol, SnapAt, TradeRows, BarEvent, WriteBar;
    if i == 0 {
      SoundStart(env, symbol);
    } else {
      EveryBarIsSound(env, symbol, i - 1);
      assert WellFormed(RunTo(env, i - 1).state) by { SoundIsWellFormed(env, symbol, RunTo(env, i - 1)); }
      StoryUnfolds(env, i - 1);
      NextStepOk(env, RunTo(env, i - 1).state, i - 1);
      SoundStep(env, symbol, i - 1, RunTo(env, i - 1), NextStep(env, RunTo(env, i - 1).state, i - 1),
                RunTo(env, i).log);
    }
  }

  /** After end of data nothing is open: the ledger is flat and realised PnL is exactly the sum of the booked trades. */
  lemma EndIsFlat(env: Env, symbol: string)
    requires Runnable(env) && env.bars != [] && OneSymbol(env, symbol)
    ensures Sound(env, symbol, Ending(env)) && NotHolding(Ending(env).state)
    ensures Ending(env).state.realizedPnl == TotalNet(Ending(env).log.trades)
  {
    var n := |env.bars|;
    EveryBarIsSound(env, symbol, n);
    ClosingOk(env);
    hide RunTo, Closing, SnapAt, StepOk, WellFormed, LedgerAgrees, OneSymbol, TradeRows, BarEvent, WriteBar, TotalNet;
    if Closing(env).Some? {
      SoundStep(env, symbol, n - 1, RunTo(env, n), Closing(env).value, Ending(env).log);
    }
  }

  lemma ClosingOk(env: Env)
    requires Runnable(env) && env.bars != [] && WellFormed(RunTo(env, |env.bars|).state)
    ensures var (st, step) := (RunTo(env, |env.bars|).state, Closing(env));
            && (step.Some? ==>
                  StepOk(env.setup, env.bars[|env.bars| - 1], st, step.value)
                  && NotHolding(step.value.state))
            && (step.None? ==> NotHolding(st))
  {
    hide RunTo, StrategyModel.Finalize, SnapAt, StepOk, WellFormed, NotHolding;
    FinalizeOk(env.setup, RunTo(env, |env.bars|).state, env.bars[|env.bars| - 1], SnapAt(env, |env.bars| - 1));
  }

  /** In any store a replay can leave, the recorded fills of each venue equal the saved position. */
  lemma RecordedFillsArePosition(env: Env, symbol: string, t: Tables, i: nat)
    requires Runnable(env) && i <= |env.bars| && OneSymbol(env, symbol) && At(env, t, i)
    ensures var st := RunTo(env, i).state;
            && SignedQuantity(t.fills, IbkrUmc, env.setup.umcSymbol) == st.position.umcUnits
            && SignedQuantity(t.fills, FubonCcf, symbol) == st.position.ccfContracts as real
  {
    EveryBarIsSound(env, symbol, i);
    RecordedIsRequested(t, IbkrUmc, env.setup.umcSymbol);
    RecordedIsRequested(t, FubonCcf, symbol);
  }

  // ---------------------------------------------------------------- what every bar signals

  lemma ScaledRatio(x: real, std: real, bound: real)
    requires std > 0.0
    ensures x / std > bound <==> x > Mul(bound, std)
    ensures x / std < bound <==> x < Mul(bound, std)
  {
    MulOfRatio(x, std);
    var z := x / std;
    hide Mul;
    if z > bound {
      MulAbove(bound, z, std);
    } else if z < bound {
      MulAbove(z, bound, std);
    }
  }

  lemma MulAbove(low: real, high: real, weight: real)
    requires low < high && weight > 0.0
    ensures Mul(low, weight) < Mul(high, weight)
  {
    MulPositive(high - low, weight);
    MulSubtracts(high, low, weight);
  }

  /** How far the newest spread of a replay lies from the mean of its window, and that window's deviation. */
  function Distance(env: Env, i: nat): (real, real)
    requires Runnable(env) && i < |env.bars| && i + 1 >= env.window
  {
    var recent := LastN(Spreads(env.bars[..i + 1]), env.window);
    (env.bars[i].spread - Mean(recent), env.sqrt(Variance(recent)))
  }

  /** The score of a row against a bound: beyond it exactly when the distance is beyond that many deviations. */
  lemma ScoreIsDistance(env: Env, i: nat, bound: real)
    requires Loaded(env) && i < |env.bars| && bound >= 0.0
    ensures var snap := SnapAt(env, i);
            && snap.entryAllowed == env.bars[i].entryAllowed && snap.closeAllowed == env.bars[i].closeAllowed
            && (snap.zscoreValid <==> snap.zscore.Some?) && (snap.zscore.Some? ==> i + 1 >= env.window)
            && (i + 1 >= env.window ==>
                  var (x, std) := Distance(env, i);
                  && (snap.zscore.Some? && snap.zscore.value > bound <==> x > Mul(bound, std))
                  && (snap.zscore.Some? && snap.zscore.value < -bound <==> x < -Mul(bound, std)))
  {
    var history := Spreads(env.bars[..i + 1]);
    if i + 1 >= env.window {
      var recent := LastN(history, env.window);
      var (x, std) := Distance(env, i);
      assert recent[|recent| - 1] == env.bars[i].spread;
      ClampedDeviation(env.sqrt, recent);
      hide IsSquareRoot, Variance, Mul, Spreads, Usable;
      if AllEqual(recent, recent[0]) {
        ConstantMean(recent, recent[0]);
        MulOfZero(bound);
      } else {
        ScaledRatio(x, std, bound);
        ScaledRatio(x, std, -bound);
        MulNegates(bound, std);
      }
    }
  }

  lemma MulOfZero(x: real)
    ensures Mul(x, 0.0) == 0.0
  {
  }

  lemma MulNegates(x: real, y: real)
    ensures Mul(-x, y) == -Mul(x, y)
  {
  }

  /**
   What every row of every replay signals, in terms of the spreads alone. A flat strategy pends an entry exactly when
   entries are allowed, the window is full and the spread lies more than entry_z deviations from the window's mean; an
   open one signals its exit exactly when closing is allowed and it lies more than exit_z deviations on the other side.
   */
  lemma SignalsExactlyWhen(env: Env, i: nat)
    requires Loaded(env) && i < |env.bars|
    requires env.setup.strategy.entryZ >= 0.0 && env.setup.strategy.exitZ >= 0.0
    ensures var (st, next, full) := (RunTo(env, i).state, RunTo(env, i + 1).state, i + 1 >= env.window);
            && (st.state == Flat ==>
                  (next.state == EntryPending <==>
                     full && env.bars[i].entryAllowed
                     && Abs(Distance(env, i).0) > Mul(env.setup.strategy.entryZ, Distance(env, i).1)))
            && (st.state == Open && !env.bars[i].fridayForceClose ==>
                  (next.state == ExitPending <==>
                     full && env.bars[i].closeAllowed
                     && if st.direction == Some(ShortUmcLongCcf)
                        then Distance(env, i).0 < -Mul(env.setup.strategy.exitZ, Distance(env, i).1)
                        else Distance(env, i).0 > Mul(env.setup.strategy.exitZ, Distance(env, i).1)))
  {
    StoryScored(env, i);
    StoryUnfolds(env, i);
    ScoreIsDistance(env, i, env.setup.strategy.entryZ);
    ScoreIsDistance(env, i, env.setup.strategy.exitZ);
    NextSignals(env, RunTo(env, i).state, i);
    hide RunTo, SnapAt, Distance, Mul, NextStep, IsSquareRoot, Scored, Usable;
  }

  lemma NextSignals(env: Env, st: RuntimeState, i: nat)
    requires Runnable(env) && i < |env.bars| && WellFormed(st) && env.setup.strategy.entryZ >= 0.0
    ensures var (snap, next) := (SnapAt(env, i), NextStep(env, st, i).state);
            var scored := snap.zscoreValid && snap.zscore.Some?;
            && (st.state == Flat ==>
                  (next.state == EntryPending <==>
                     snap.entryAllowed && scored && Abs(snap.zscore.value) > env.setup.strategy.entryZ))
            && (st.state == Open && !env.bars[i].fridayForceClose ==>
                  (next.state == ExitPending <==>
                     snap.closeAllowed && scored
                     && ShouldExit(snap.zscore.value, st.direction.value, env.setup.strategy.exitZ)))
  {
    hide StrategyModel.OnBar, SnapAt;
    SignalsFollowScore(env.setup, st, env.bars[i], SnapAt(env, i));
  }

  // ---------------------------------------------------------------- what every trade was signalled by

  predicate AllScored(setup: Setup, trades: seq<TradeRow>) {
    forall row :: row in trades ==> row.Closed? && TradeScored(setup, row.trade)
  }

  lemma {:induction false} StoryScored(env: Env, i: nat)
    requires Runnable(env) && i <= |env.bars|
    ensures WellFormed(RunTo(env, i).state) && Scored(env.setup, RunTo(env, i).state, i)
    ensures AllScored(env.setup, RunTo(env, i).log.trades)
  {
    hide NextStep, RunTo, SnapAt, BarEvent, WriteBar, TradeScored, Scored, WellFormed, StepOk;
    if i == 0 {
      FreshStart(env);
      FreshIsScored(env.setup);
    } else {
      StoryScored(env, i - 1);
      StoryUnfolds(env, i - 1);
      var st := RunTo(env, i - 1).state;
      NextStepOk(env, st, i - 1);
      NextStepScored(env, st, i - 1);
      StepOkIsWellFormed(env.setup, env.bars[i - 1], st, NextStep(env, st, i - 1));
    }
  }

  lemma StepOkIsWellFormed(setup: Setup, bar: MarketBar, st: RuntimeState, step: Step)
    requires StepOk(setup, bar, st, step)
    ensures WellFormed(step.state)
  {
  }

  lemma FreshIsScored(setup: Setup)
    ensures WellFormed(FreshState(setup.strategy)) && Scored(setup, FreshState(setup.strategy), 0)
  {
  }

  lemma NextStepScored(env: Env, st: RuntimeState, i: nat)
    requires Runnable(env) && i < |env.bars| && WellFormed(st) && Scored(env.setup, st, i)
    ensures var step := NextStep(env, st, i);
            && Scored(env.setup, step.state, i + 1)
            && (step.report.trade.Some? ==> TradeScored(env.setup, step.report.trade.value))
  {
    hide StrategyModel.OnBar, SnapAt, TradeScored, Scored, WellFormed;
    OnBarScored(env.setup, st, env.bars[i], SnapAt(env, i));
  }

  lemma EndingScored(env: Env)
    requires Runnable(env) && env.bars != []
    ensures AllScored(env.setup, Ending(env).log.trades)
  {
    hide RunTo, Closing, SnapAt, TradeScored, Scored, WellFormed, BarEvent, WriteBar;
    var n := |env.bars|;
    StoryScored(env, n);
    EndingUnfolds(env);
    ClosingScored(env);
  }

  lemma ClosingScored(env: Env)
    requires Runnable(env) && env.bars != []
    requires WellFormed(RunTo(env, |env.bars|).state) && Scored(env.setup, RunTo(env, |env.bars|).state, |env.bars|)
    ensures var step := Closing(env);
            step.Some? && step.value.report.trade.Some? ==> TradeScored(env.setup, step.value.report.trade.value)
  {
    hide RunTo, StrategyModel.Finalize, SnapAt, TradeScored, Scored, WellFormed;
    FinalizeScored(env.setup, RunTo(env, |env.bars|).state, env.bars[|env.bars| - 1], SnapAt(env, |env.bars| - 1));
  }

  /**
   Over every replay, finished or not, every trade was opened by a score beyond the entry threshold on an earlier bar;
   one that a score closed was closed by a score beyond the exit threshold on the other side of zero, and signal, entry,
   exit signal and exit are four bars in that order: no fill ever looks at its own bar's signal.
   */
  lemma EveryTradeCrosses(env: Env, story: Story, i: nat, k: nat)
    requires Runnable(env) && i <= |env.bars|
    requires story == RunTo(env, i) || (env.bars != [] && story == Ending(env))
    requires k < |story.log.trades| && env.setup.strategy.entryZ >= 0.0 && env.setup.strategy.exitZ >= 0.0
    ensures var row := story.log.trades[k];
            && row.Closed? && 0 <= row.trade.entry.signalIdx < row.trade.entry.entryIdx <= row.trade.exitIdx
            && row.trade.entry.signalZscore.Some?
            && Abs(row.trade.entry.signalZscore.value) > env.setup.strategy.entryZ
            && (row.trade.exitReason.ZscoreExit? ==>
                  && row.trade.entry.entryIdx < row.trade.exitMark.idx < row.trade.exitIdx
                  && row.trade.exitMark.zscore.Some? && Abs(row.trade.exitMark.zscore.value) > env.setup.strategy.exitZ
                  && row.trade.entry.signalZscore.value * row.trade.exitMark.zscore.value < 0.0)
  {
    hide RunTo, Scored, Ending;
    if story == RunTo(env, i) {
      StoryScored(env, i);
    } else {
      EndingScored(env);
    }
    var row := story.log.trades[k];
    assert row in story.log.trades;
    if row.trade.exitReason.ZscoreExit? {
      ScoresOppose(env.setup, row.trade);
    }
  }

  // ---------------------------------------------------------------- the threshold no score can cross

  lemma ScoreBelowThreshold(z: real, entryZ: real, limit: real)
    requires entryZ >= 0.0 && Sq(entryZ) >= limit && Sq(z) <= limit
    ensures EntryDirection(z, entryZ).None?
  {
    SqMonotone(z, entryZ);
  }

  lemma SqMonotone(z: real, e: real)
    requires e >= 0.0 && Sq(z) <= Sq(e)
    ensures -e <= z <= e
  {
    SqGap(z, e);
    SqGap(-z, e);
    SqIsMul(z);
    hide Sq, Mul;
    if z > e {
      MulPositive(z - e, z + e);
    } else if -z > e {
      MulPositive(-z - e, -z + e);
    }
  }

  lemma SqGap(z: real, e: real)
    ensures Sq(z) - Sq(e) == Mul(z - e, z + e)
  {
  }

  /** No snapshot of the run asks for an entry when the threshold is at least the root of window - 1. */
  lemma NoEntryAsked(env: Env, i: nat)
    requires Loaded(env) && i < |env.bars|
    requires env.setup.strategy.entryZ >= 0.0 && Sq(env.setup.strategy.entryZ) >= env.window as real - 1.0
    ensures var snap := SnapAt(env, i);
            snap.zscoreValid && snap.zscore.Some? ==> EntryDirection(snap.zscore.value, env.setup.strategy.entryZ).None?
  {
    var bar := env.bars[i];
    assert Spreads(env.bars[..i + 1]) == Spreads(env.bars[..i]) + [bar.spread];
    hide Observed, Sq, IsSquareRoot, Spreads;
    DecisionBound(env.sqrt, env.window, Spreads(env.bars[..i]), bar);
    var snap := SnapAt(env, i);
    if snap.zscoreValid {
      ScoreBelowThreshold(snap.zscore.value, env.setup.strategy.entryZ, env.window as real - 1.0);
    }
  }

  /** With such a threshold no replay on any data ever leaves FLAT or sends an order. */
  lemma {:induction false} HighThresholdNeverTrades(env: Env, i: nat)
    requires Loaded(env) && i <= |env.bars|
    requires env.setup.strategy.entryZ >= 0.0 && Sq(env.setup.strategy.entryZ) >= env.window as real - 1.0
    ensures RunTo(env, i).state.state == Flat && RunTo(env, i).log.requests == [] && RunTo(env, i).log.events == []
  {
    hide RunTo, SnapAt, IsSquareRoot, IsIso, Sq, WriteBar, BarEvent, RowFor, NextStep, Usable, FreshState,
         EntryDirection;
    if i == 0 {
      FlatStart(env);
    } else {
      HighThresholdNeverTrades(env, i - 1);
      NoEntryAsked(env, i - 1);
      StoryUnfolds(env, i - 1);
      FlatNextStep(env, RunTo(env, i - 1).state, i - 1);
    }
  }

  lemma FlatStart(env: Env)
    requires Runnable(env)
    ensures RunTo(env, 0).state.state == Flat && RunTo(env, 0).log == EMPTY_LOG
  {
  }

  lemma FlatNextStep(env: Env, st: RuntimeState, i: nat)
    requires Loaded(env) && i < |env.bars| && st.state == Flat
    requires var snap := SnapAt(env, i);
             snap.zscoreValid && snap.zscore.Some? ==>
               EntryDirection(snap.zscore.value, env.setup.strategy.entryZ).None?
    ensures var step := NextStep(env, st, i);
            step.state.state == Flat && step.report.requests == [] && step.report.action == NoAction
              && step.report.trade == None
  {
    hide StrategyModel.OnBar, SnapAt;
    FlatStaysFlat(env.setup, st, env.bars[i], SnapAt(env, i));
  }

  lemma FlatStaysFlat(setup: Setup, st: RuntimeState, bar: MarketBar, snap: IndicatorSnapshot)
    requires Usable(setup, bar) && st.state == Flat
    requires snap.zscoreValid && snap.zscore.Some? ==> EntryDirection(snap.zscore.value, setup.strategy.entryZ).None?
    ensures var step := StrategyModel.OnBar(setup, st, bar, snap);
            step.state.state == Flat && step.report.requests == [] && step.report.action == NoAction
              && step.report.trade == None
  {
    hide EntryAttempt, ExitAttempt;
  }
}
