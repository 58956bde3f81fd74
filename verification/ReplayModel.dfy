/** Replaying bars into a store, as functions over its tables. */
module ReplayModel {
  import opened Models
  import opened Sizing
  import opened StrategyModel
  import opened Strategy
  import opened Indicator
  import opened StateJson
  import opened Store

  datatype Env = Env(setup: Setup, window: nat, sqrt: RealFunction, codec: Codec, bars: seq<MarketBar>)

  /** What the loader and the configuration provide: rows numbered from zero, usable prices, a real window. */
  ghost predicate Loaded(env: Env) {
    && env.window > 0 && IsSquareRoot(env.sqrt) && IsIso(env.codec)
    && forall i :: 0 <= i < |env.bars| ==> env.bars[i].rowIndex == i && Usable(env.setup, env.bars[i])
  }

  function Spreads(bars: seq<MarketBar>): seq<real> {
    seq(|bars|, i requires 0 <= i < |bars| => bars[i].spread)
  }

  function SnapAt(env: Env, i: nat): IndicatorSnapshot
    requires i < |env.bars| && env.window > 0
  {
    Observed(env.sqrt, env.window, Spreads(env.bars[..i + 1]), env.bars[i])
  }

  function ActionText(action: Action): string {
    match action
    case NoAction => "none"
    case EntrySignal => "entry_signal"
    case EntryFill => "entry_fill"
    case EntryCancel => "entry_cancel"
    case ExitSignal => "exit_signal"
    case ExitFill => "exit_fill"
    case ErrorAction => "error"
    case LiveExecution => "live_execution"
  }

  function WriteOrders(table: seq<OrderResult>, rows: seq<OrderResult>): Write<OrderResult> {
    if rows == [] then Write.Written(table)
    else
      match WriteOrders(table, rows[..|rows| - 1])
      case Collision => Collision
      case Written(earlier) => WriteOrder(earlier, rows[|rows| - 1])
  }

  function WriteFills(table: seq<Fill>, rows: seq<Fill>): Write<Fill> {
    if rows == [] then Write.Written(table)
    else
      match WriteFills(table, rows[..|rows| - 1])
      case Collision => Collision
      case Written(earlier) => WriteFill(earlier, rows[|rows| - 1])
  }

  /** A process in the middle of a replay. */
  datatype Session = Session(state: RuntimeState, tables: Tables, orderSerial: nat, fillSerial: nat)

  function TradeRows(report: Report): seq<TradeRow> {
    if report.trade.Some? then [Closed(report.trade.value)] else []
  }

  function BarEvent(bar: MarketBar, report: Report): EventRow {
    EventRow(bar.rowIndex, bar.timestamp, ActionText(report.action), report.reason)
  }

  function RowFor(bar: MarketBar, snap: IndicatorSnapshot, step: Step): BarRow {
    BarRow(bar, snap, step.state, step.report.unrealizedPnl, step.report.equity, step.report.runningMaxEquity,
           step.report.drawdownTwd, step.report.drawdownPct)
  }

  /** Everything a step writes before its commit; None when an id is already taken by something else. */
  function Book(codec: Codec, s: Session, bar: MarketBar, snap: IndicatorSnapshot, step: Step,
                eventful: bool): Option<Session> {
    var requests := step.report.requests;
    var orders := WriteOrders(s.tables.orders, OrdersFor(requests, s.orderSerial));
    var fills := WriteFills(s.tables.fills, FillsFor(requests, s.orderSerial, s.fillSerial));
    if orders.Collision? || fills.Collision? then None
    else
      Some(Session(step.state,
                   s.tables.(orders := orders.rows,
                             fills := fills.rows,
                             trades := s.tables.trades + TradeRows(step.report),
                             events := s.tables.events + (if eventful then [BarEvent(bar, step.report)] else []),
                             bars := WriteBar(s.tables.bars, RowFor(bar, snap, step)),
                             saved := Some(Saved(bar.rowIndex, bar.timestamp, ToJson(codec, step.state)))),
                   s.orderSerial + |requests|, s.fillSerial + |requests|))
  }

  /** A replay that ran, or one an id collision stopped with the last commit in place. */
  datatype Progress = Ran(session: Session) | Stuck(session: Session)

  function Process(env: Env, s: Session, i: nat): Progress
    requires env.window > 0 && i < |env.bars| && Usable(env.setup, env.bars[i])
  {
    var step := StrategyModel.OnBar(env.setup, s.state, env.bars[i], SnapAt(env, i));
    var booked := Book(env.codec, s, env.bars[i], SnapAt(env, i), step, step.report.action != NoAction);
    if booked.Some? then Ran(booked.value) else Stuck(s)
  }

  function ProcessAll(env: Env, s: Session, from: nat, to: nat): Progress
    requires env.window > 0 && from <= to <= |env.bars|
    requires forall i :: 0 <= i < |env.bars| ==> Usable(env.setup, env.bars[i])
  {
    if from == to then Ran(s)
    else
      match ProcessAll(env, s, from, to - 1)
      case Stuck(last) => Stuck(last)
      case Ran(last) => Process(env, last, to - 1)
  }

  /** End of data: whatever is open or pending is closed at the last bar. */
  function Finish(env: Env, s: Session): (r: (Progress, bool))
    requires env.window > 0 && env.bars != [] && Usable(env.setup, env.bars[|env.bars| - 1])
  {
    var last := |env.bars| - 1;
    var step := StrategyModel.Finalize(env.setup, s.state, env.bars[last], SnapAt(env, last));
    if step.None? then (Ran(s), false)
    else
      var booked := Book(env.codec, s, env.bars[last], SnapAt(env, last), step.value, true);
      if booked.Some? then (Ran(booked.value), true) else (Stuck(s), false)
  }

  datatype Outcome =
    | StoreHasData | StateMissing | StateUnreadable | IdCollision
    | Replayed(rows: nat, startRow: Option<int>, endRow: Option<int>, finalized: bool)

  datatype Result = Result(outcome: Outcome, tables: Tables)

  function Stop(env: Env, start: nat, maxBars: Option<nat>): nat
    requires start <= |env.bars|
  {
    if maxBars.Some? && start + maxBars.value < |env.bars| then start + maxBars.value else |env.bars|
  }

  /** The bar loop and the finalisation of a process that starts at a given row. */
  function RunFrom(env: Env, state: RuntimeState, start: nat, tables: Tables, maxBars: Option<nat>): Result
    requires Runnable(env) && start <= |env.bars|
  {
    var stop := Stop(env, start, maxBars);
    match ProcessAll(env, Session(state, tables, 1, 1), start, stop)
    case Stuck(s) => Result(IdCollision, s.tables)
    case Ran(s) =>
      if stop == start then Result(Replayed(0, None, None, false), s.tables)
      else if stop < |env.bars| then Result(Replayed(stop - start, Some(start), Some(stop - 1), false), s.tables)
      else
        match Finish(env, s)
        case (Stuck(t), _) => Result(IdCollision, t.tables)
        case (Ran(t), finalized) => Result(Replayed(stop - start, Some(start), Some(stop - 1), finalized), t.tables)
  }

  predicate Runnable(env: Env) {
    env.window > 0 && forall i :: 0 <= i < |env.bars| ==> env.bars[i].rowIndex == i && Usable(env.setup, env.bars[i])
  }

  /** Where a process starts: turned away, or at a row with a state. */
  datatype Opening = TurnedAway(outcome: Outcome) | StartsAt(row: nat, state: RuntimeState)

  function OpeningOf(env: Env, tables: Tables, resume: bool, reset: bool): (o: Opening)
    requires SavedSane(tables)
    ensures o.StartsAt? ==> o.row <= |env.bars|
  {
    if !resume && !reset && tables.bars != map[] then TurnedAway(StoreHasData)
    else if !resume || tables.saved.None? then
      if resume && tables.bars != map[] then TurnedAway(StateMissing) else StartsAt(0, FreshState(env.setup.strategy))
    else
      var state := FromJson(env.codec, tables.saved.value.payload);
      var start := tables.saved.value.rowIndex + 1;
      if state.None? then TurnedAway(StateUnreadable)
      else if start > |env.bars| then TurnedAway(Replayed(0, None, None, false))
      else StartsAt(start, state.value)
  }

  predicate SavedSane(t: Tables) {
    t.saved.Some? ==> t.saved.value.rowIndex >= -1
  }

  function Replay(env: Env, before: Tables, maxBars: Option<nat>, resume: bool, reset: bool): Result
    requires Runnable(env) && SavedSane(before)
  {
    var tables := if reset then EMPTY else before;
    match OpeningOf(env, tables, resume, reset)
    case TurnedAway(outcome) => Result(outcome, tables)
    case StartsAt(row, state) => RunFrom(env, state, row, tables, maxBars)
  }

  // ---------------------------------------------------------------- processes that die

  /** One process: how many bars it may run, and after how many commits it dies, if it does. */
  datatype Link = Link(maxBars: Option<nat>, diesAfter: Option<nat>)

  datatype Fate = Returned(outcome: Outcome) | Died(rows: nat)

  /**
   The row a process gets to: a death cuts its bars short, or comes after the last of them and before anything else.
   */
  function Reach(env: Env, start: nat, link: Link): (stop: nat)
    requires start <= |env.bars|
    ensures start <= stop <= |env.bars|
  {
    var stop := Stop(env, start, link.maxBars);
    if link.diesAfter.Some? && start + link.diesAfter.value < stop then start + link.diesAfter.value else stop
  }

  /** A process that dies leaves exactly its committed bars: nothing uncommitted survives it. */
  function RunUntilDeath(env: Env, state: RuntimeState, start: nat, tables: Tables, link: Link): (Fate, Tables)
    requires Runnable(env) && start <= |env.bars|
  {
    match ProcessAll(env, Session(state, tables, 1, 1), start, Reach(env, start, link))
    case Stuck(s) => (Returned(IdCollision), s.tables)
    case Ran(s) => (Died(Reach(env, start, link) - start), s.tables)
  }

  /** A resuming process, to its end or to its death. */
  function ResumeLink(env: Env, tables: Tables, link: Link): (Fate, Tables)
    requires Runnable(env) && SavedSane(tables)
  {
    if link.diesAfter.None? then
      var r := Replay(env, tables, link.maxBars, true, false);
      (Returned(r.outcome), r.tables)
    else
      match OpeningOf(env, tables, true, false)
      case TurnedAway(outcome) => (Returned(outcome), tables)
      case StartsAt(row, state) => RunUntilDeath(env, state, row, tables, link)
  }
}
