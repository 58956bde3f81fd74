/** The replay loop over a store, an indicator, a strategy and a paper broker, each updated in place. */
module Runner {
  import opened Models
  import opened StrategyModel
  import opened Strategy
  import opened Indicator
  import opened StateJson
  import opened Store
  import opened ReplayModel

  class SystemRunner {
    const env: Env

    constructor (env: Env)
      ensures this.env == env
    {
      this.env := env;
    }

    method RecordOrders(store: SQLiteStore, orders: seq<OrderResult>) returns (ok: bool)
      modifies store`orders
      ensures ok == WriteOrders(old(store.orders), orders).Written?
      ensures ok ==> store.orders == WriteOrders(old(store.orders), orders).rows
    {
      assert orders[..|orders|] == orders;
      for i := 0 to |orders|
        invariant WriteOrders(old(store.orders), orders[..i]) == Write.Written(store.orders)
      {
        assert orders[..i + 1][..i] == orders[..i];
        var written := store.RecordOrder(orders[i]);
        if !written {
          StaysCollided(old(store.orders), orders, i + 1);
          return false;
        }
      }
      ok := true;
    }

    method RecordFills(store: SQLiteStore, fills: seq<Fill>) returns (ok: bool)
      modifies store`fills
      ensures ok == WriteFills(old(store.fills), fills).Written?
      ensures ok ==> store.fills == WriteFills(old(store.fills), fills).rows
    {
      assert fills[..|fills|] == fills;
      for i := 0 to |fills|
        invariant WriteFills(old(store.fills), fills[..i]) == Write.Written(store.fills)
      {
        assert fills[..i + 1][..i] == fills[..i];
        var written := store.RecordFill(fills[i]);
        if !written {
          FillsStayCollided(old(store.fills), fills, i + 1);
          return false;
        }
      }
      ok := true;
    }

    /** Everything one bar writes, up to its commit. A collision puts the last commit back. */
    method RecordResult(store: SQLiteStore, bar: MarketBar, snap: IndicatorSnapshot, result: BarResult,
                        state: RuntimeState,
                        eventful: bool, ghost s: Session)
      returns (ok: bool)
      requires store.codec == env.codec && store.Contents() == s.tables
      requires result.orders == OrdersFor(result.report.requests, s.orderSerial)
      requires result.fills == FillsFor(result.report.requests, s.orderSerial, s.fillSerial)
      modifies store
      ensures var booked := Book(env.codec, s, bar, snap, Step(state, result.report), eventful);
              ok == booked.Some? && store.Contents() == if ok then booked.value.tables else s.tables
    {
      hide WriteOrders, WriteFills, OrdersFor, FillsFor, ToJson, RowFor, BarEvent, WriteBar;
      var committed := store.Contents();
      ok := RecordOrders(store, result.orders);
      if ok {
        ok := RecordFills(store, result.fills);
      }
      if !ok {
        store.Rollback(committed);
        return;
      }
      if result.report.trade.Some? {
        store.RecordTrade(Closed(result.report.trade.value));
      }
      if eventful {
        store.RecordEvent(BarEvent(bar, result.report));
      }
      store.RecordBar(RowFor(bar, snap, Step(state, result.report)));
      store.SaveState(bar.rowIndex, bar.timestamp, state);
    }

    /** One process of a replay: refuse, or resume, run the bars, and close at end of data. */
    method Replay(store: SQLiteStore, maxBars: Option<nat>, resume: bool, reset: bool) returns (outcome: Outcome)
      requires Runnable(env) && IsSquareRoot(env.sqrt) && store.codec == env.codec
      requires SavedSane(store.Contents())
      modifies store
      ensures Result(outcome, store.Contents())
              == ReplayModel.Replay(env, old(store.Contents()), maxBars, resume, reset)
    {
      hide IsSquareRoot, Usable, FromJson, ToJson, Book, RunFrom;
      if reset {
        store.Reset();
      }
      if !resume && !reset && store.bars != map[] {
        return StoreHasData;
      }
      var saved := if resume then store.saved else None;
      if resume && saved.None? && store.bars != map[] {
        return StateMissing;
      }
      var state, start := FreshState(env.setup.strategy), 0;
      if saved.Some? {
        var loaded := FromJson(env.codec, saved.value.payload);
        if loaded.None? {
          return StateUnreadable;
        }
        state, start := loaded.value, saved.value.rowIndex + 1;
        if start > |env.bars| {
          return Replayed(0, None, None, false);
        }
      }
      outcome := RunBars(store, state, start, maxBars);
    }

    /** A fresh window brought up to date with the bars already run. */
    method WarmUp(start: nat) returns (indicator: IndicatorEngine)
      requires env.window > 0 && IsSquareRoot(env.sqrt) && start <= |env.bars|
      ensures fresh(indicator) && Warm(indicator, start)
    {
      hide IsSquareRoot;
      indicator := new IndicatorEngine(env.window, env.sqrt);
      for i := 0 to start
        invariant Warm(indicator, i) && fresh(indicator)
      {
        var ignored := indicator.Update(env.bars[i]);
        SpreadsGrow(i);
      }
    }

    /** The indicator has seen exactly the first n bars. */
    ghost predicate Warm(indicator: IndicatorEngine, n: nat)
      requires n <= |env.bars|
      reads indicator
    {
      && indicator.Valid() && indicator.window == env.window && indicator.sqrt == env.sqrt
      && indicator.history == Spreads(env.bars[..n])
    }

    method RunBar(store: SQLiteStore, indicator: IndicatorEngine, strategy: PairStrategy, i: nat, ghost s: Session)
      returns (ok: bool, snap: IndicatorSnapshot)
      requires Runnable(env) && store.codec == env.codec && i < |env.bars| && Warm(indicator, i)
               && strategy.setup == env.setup
      requires s == Session(strategy.state, store.Contents(), strategy.broker.orderCounter, strategy.broker.fillCounter)
      modifies store, indicator, strategy, strategy.broker
      ensures Warm(indicator, i + 1) && snap == SnapAt(env, i)
      ensures ok == Process(env, s, i).Ran?
      ensures ok ==> Process(env, s, i).session
                     == Session(strategy.state, store.Contents(), strategy.broker.orderCounter,
                                strategy.broker.fillCounter)
      ensures !ok ==> Process(env, s, i) == Stuck(s) && store.Contents() == s.tables
    {
      hide IsSquareRoot, Usable, Book, StrategyModel.OnBar, Observed, ToJson, OrdersFor, FillsFor, Process;
      snap := indicator.Update(env.bars[i]);
      SpreadsGrow(i);
      var result := strategy.OnBar(env.bars[i], snap);
      ProcessUnfolds(s, i);
      BookedCounters(s, env.bars[i], snap, Step(strategy.state, result.report), result.report.action != NoAction);
      ok := RecordResult(store, env.bars[i], snap, result, strategy.state, result.report.action != NoAction, s);
    }

    lemma BookedCounters(s: Session, bar: MarketBar, snap: IndicatorSnapshot, step: Step, eventful: bool)
      ensures var booked := Book(env.codec, s, bar, snap, step, eventful);
              booked.Some? ==>
                && booked.value.state == step.state
                && booked.value.orderSerial == s.orderSerial + |step.report.requests|
                && booked.value.fillSerial == s.fillSerial + |step.report.requests|
    {
    }

    /** Closes what is left at the last bar; ok is false when an id collided. */
    method EndOfData(store: SQLiteStore, strategy: PairStrategy, snap: IndicatorSnapshot, ghost s: Session)
      returns (ok: bool, finalized: bool)
      requires Runnable(env) && store.codec == env.codec && env.bars != [] && snap == SnapAt(env, |env.bars| - 1)
               && strategy.setup == env.setup
      requires s == Session(strategy.state, store.Contents(), strategy.broker.orderCounter, strategy.broker.fillCounter)
      modifies store, strategy, strategy.broker
      ensures var (p, closed) := Finish(env, s);
              ok == p.Ran? && finalized == closed && store.Contents() == p.session.tables
    {
      hide Usable, Book, StrategyModel.Finalize, SnapAt, ToJson, OrdersFor, FillsFor, Finish;
      var last := env.bars[|env.bars| - 1];
      FinishUnfolds(s);
      var final := strategy.Finalize(last, snap);
      ok, finalized := true, false;
      if final.Some? {
        ok := RecordResult(store, last, snap, final.value, strategy.state, true, s);
        finalized := ok;
      }
    }

    method RunBars(store: SQLiteStore, state: RuntimeState, start: nat, maxBars: Option<nat>) returns (outcome: Outcome)
      requires Runnable(env) && IsSquareRoot(env.sqrt) && store.codec == env.codec && start <= |env.bars|
      modifies store
      ensures Result(outcome, store.Contents()) == RunFrom(env, state, start, old(store.Contents()), maxBars)
    {
      hide IsSquareRoot, Usable, Process, Finish, Warm, SnapAt;
      var indicator := WarmUp(start);
      var broker := new PaperBroker();
      var strategy := new PairStrategy(env.setup, broker, state);
      ghost var opening := Session(state, store.Contents(), 1, 1);
      ghost var s := opening;
      var rows := 0;
      var lastSnap: Option<IndicatorSnapshot> := None;
      while start + rows < |env.bars| && (maxBars.None? || rows < maxBars.value)
        invariant start + rows <= Stop(env, start, maxBars)
        invariant ProcessAll(env, opening, start, start + rows) == Ran(s)
        invariant s == Session(strategy.state, store.Contents(), broker.orderCounter, broker.fillCounter)
        invariant Warm(indicator, start + rows) && fresh(indicator) && strategy.broker == broker
                  && strategy.setup == env.setup
        invariant rows > 0 ==> lastSnap == Some(SnapAt(env, start + rows - 1))
        decreases |env.bars| - rows
      {
        var ok, snap := RunBar(store, indicator, strategy, start + rows, s);
        if !ok {
          StuckForGood(opening, start, start + rows, Stop(env, start, maxBars), s);
          return IdCollision;
        }
        s := Process(env, s, start + rows).session;
        rows, lastSnap := rows + 1, Some(snap);
      }
      if rows == 0 {
        return Replayed(0, None, None, false);
      }
      var finalized := false;
      if start + rows == |env.bars| {
        var ok;
        ok, finalized := EndOfData(store, strategy, lastSnap.value, s);
        if !ok {
          return IdCollision;
        }
      }
      outcome := Replayed(rows, Some(start), Some(start + rows - 1), finalized);
    }

    lemma SpreadsGrow(i: nat)
      requires i < |env.bars|
      ensures Spreads(env.bars[..i]) + [env.bars[i].spread] == Spreads(env.bars[..i + 1])
    {
    }

    lemma ProcessUnfolds(s: Session, i: nat)
      requires Runnable(env) && i < |env.bars|
      ensures var step := StrategyModel.OnBar(env.setup, s.state, env.bars[i], SnapAt(env, i));
              var booked := Book(env.codec, s, env.bars[i], SnapAt(env, i), step, step.report.action != NoAction);
              Process(env, s, i) == if booked.Some? then Ran(booked.value) else Stuck(s)
    {
      hide StrategyModel.OnBar, SnapAt, Book;
    }

    lemma FinishUnfolds(s: Session)
      requires Runnable(env) && env.bars != []
      ensures var last := |env.bars| - 1;
              var step := StrategyModel.Finalize(env.setup, s.state, env.bars[last], SnapAt(env, last));
              && (step.None? ==> Finish(env, s) == (Ran(s), false))
              && (step.Some? ==>
                    var booked := Book(env.codec, s, env.bars[last], SnapAt(env, last), step.value, true);
                    Finish(env, s) == if booked.Some? then (Ran(booked.value), true) else (Stuck(s), false))
    {
      hide StrategyModel.Finalize, SnapAt, Book;
    }

    lemma {:induction false} StuckForGood(s: Session, from: nat, at: nat, to: nat, last: Session)
      requires Runnable(env) && from <= at < to <= |env.bars|
      requires ProcessAll(env, s, from, at) == Ran(last) && Process(env, last, at) == Stuck(last)
      ensures ProcessAll(env, s, from, to) == Stuck(last)
    {
      hide Process;
      if to > at + 1 {
        StuckForGood(s, from, at, to - 1, last);
      }
    }
  }

  lemma {:induction false} StaysCollided(table: seq<OrderResult>, rows: seq<OrderResult>, n: nat)
    requires n <= |rows| && WriteOrders(table, rows[..n]).Collision?
    ensures WriteOrders(table, rows).Collision?
    decreases |rows|
  {
    if n < |rows| {
      assert rows[..|rows| - 1][..n] == rows[..n];
      StaysCollided(table, rows[..|rows| - 1], n);
    } else {
      assert rows[..n] == rows;
    }
  }

  lemma {:induction false} FillsStayCollided(table: seq<Fill>, rows: seq<Fill>, n: nat)
    requires n <= |rows| && WriteFills(table, rows[..n]).Collision?
    ensures WriteFills(table, rows).Collision?
    decreases |rows|
  {
    if n < |rows| {
      assert rows[..|rows| - 1][..n] == rows[..n];
      FillsStayCollided(table, rows[..|rows| - 1], n);
    } else {
      assert rows[..n] == rows;
    }
  }
}
