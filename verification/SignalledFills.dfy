/** When what a replay signalled is filled: on the first later bar that may trade, at that bar's open. */
module SignalledFills {
  import opened Models
  import opened Sizing
  import opened StrategyModel
  import opened StrategyLaws
  import opened BarLaws
  import opened Store
  import opened ReplayModel
  import opened ReplayLaws

  /** The strategy's state before bar i of a replay. */
  function StateAt(env: Env, i: nat): RuntimeState
    requires Runnable(env) && i <= |env.bars|
  {
    RunTo(env, i).state
  }

  /** Bar i answers the state before it, and the log gains exactly its orders and its trade. */
  lemma BarAnswers(env: Env, i: nat)
    requires Runnable(env) && i < |env.bars|
    ensures WellFormed(StateAt(env, i))
    ensures var step := NextStep(env, StateAt(env, i), i);
            && Answered(env.setup, StateAt(env, i), env.bars[i], SnapAt(env, i), step)
            && MarkedAt(env.setup, StateAt(env, i), env.bars[i], step)
            && StateAt(env, i + 1) == step.state
            && RunTo(env, i + 1).log.requests == RunTo(env, i).log.requests + step.report.requests
            && RunTo(env, i + 1).log.trades == RunTo(env, i).log.trades + TradeRows(step.report)
  {
    hide RunTo, SnapAt, StrategyModel.OnBar, Answered, MarkedAt, WellFormed, Scored, WriteBar, BarEvent;
    StoryScored(env, i);
    StoryUnfolds(env, i);
    OnBarAnswers(env.setup, StateAt(env, i), env.bars[i], SnapAt(env, i));
    OnBarMarks(env.setup, StateAt(env, i), env.bars[i], SnapAt(env, i));
  }

  /** While no bar allows closing a pended exit waits, with everything as it was. */
  lemma {:induction false} PendedExitWaits(env: Env, i: nat, j: nat)
    requires Runnable(env) && i <= j <= |env.bars| && StateAt(env, i).state == ExitPending
    requires forall k :: i <= k < j ==> !env.bars[k].closeAllowed
    ensures Unmoved(StateAt(env, i), StateAt(env, j))
    ensures RunTo(env, j).log.requests == RunTo(env, i).log.requests
    ensures RunTo(env, j).log.trades == RunTo(env, i).log.trades
  {
    hide RunTo, SnapAt, NextStep, MarkedAt, WellFormed;
    if i < j {
      PendedExitWaits(env, i, j - 1);
      BarAnswers(env, j - 1);
    }
  }

  /**
   A pended exit fills on the first later bar that allows closing, at that bar's open: the position is reversed, and the
   trade books it for the score. Until then nothing moves; without such a bar it stays.
   */
  lemma PendedExitFills(env: Env, i: nat, j: nat)
    requires Runnable(env) && i <= j < |env.bars| && StateAt(env, i).state == ExitPending
    requires env.bars[j].closeAllowed && forall k :: i <= k < j ==> !env.bars[k].closeAllowed
    ensures var (st, after) := (StateAt(env, i), RunTo(env, j + 1));
            var (orders, trades) := (RunTo(env, i).log.requests, RunTo(env, i).log.trades);
            && after.state.state == Flat && |after.log.trades| == |trades| + 1
            && orders <= after.log.requests && trades <= after.log.trades && after.log.trades[|trades|].Closed?
            && Exited(env.setup, StateAt(env, j), env.bars[j], ZscoreExit, after.state,
                      after.log.requests[|orders|..], Some(after.log.trades[|trades|].trade))
            && Unmoved(st, StateAt(env, j))
  {
    hide RunTo, SnapAt, NextStep, MarkedAt, WellFormed, Exited;
    PendedExitWaits(env, i, j);
    BarAnswers(env, j);
    var step := NextStep(env, StateAt(env, j), j);
    assert step.report.trade.Some? by { ExitedHasTrade(env.setup, StateAt(env, j), env.bars[j], step); }
    assert RunTo(env, j + 1).log.requests[|RunTo(env, i).log.requests|..] == step.report.requests;
  }

  lemma ExitedHasTrade(setup: Setup, st: RuntimeState, bar: MarketBar, step: Step)
    requires Usable(setup, bar) && BarLaws.Closed(setup, st, bar, ZscoreExit, step)
    ensures step.report.trade.Some?
  {
  }

  /** While no bar allows entries a pended entry waits, with everything as it was. */
  lemma {:induction false} PendedEntryWaits(env: Env, i: nat, j: nat)
    requires Runnable(env) && i <= j <= |env.bars| && StateAt(env, i).state == EntryPending
    requires forall k :: i <= k < j ==> !env.bars[k].entryAllowed
    ensures Unmoved(StateAt(env, i), StateAt(env, j))
    ensures RunTo(env, j).log.requests == RunTo(env, i).log.requests
    ensures RunTo(env, j).log.trades == RunTo(env, i).log.trades
  {
    hide RunTo, SnapAt, NextStep, MarkedAt, WellFormed;
    if i < j {
      PendedEntryWaits(env, i, j - 1);
      BarAnswers(env, j - 1);
    }
  }

  /**
   A pended entry opens on the first later bar that allows entries, at its open, exactly when the delay is within the
   limit and the size comes to a contract there; otherwise it is gone, and the bar ends FLAT or with a fresh signal.
   */
  lemma PendedEntryFills(env: Env, i: nat, j: nat)
    requires Runnable(env) && i <= j < |env.bars| && StateAt(env, i).state == EntryPending
    requires env.bars[j].entryAllowed && forall k :: i <= k < j ==> !env.bars[k].entryAllowed
    ensures var (st, bar, after, orders) :=
              (StateAt(env, i), env.bars[j], RunTo(env, j + 1), RunTo(env, i).log.requests);
            && st.candidate.time.Some? && st.candidate.direction.Some?
            && (after.state.state == Open
                <==> InTime(env.setup, st.candidate.time.value, bar) && WorthTrading(env.setup, OpenCcfPrice(bar)))
            && (after.state.state == Open ==>
                  && WantedPair(env.setup, st.candidate.direction.value, after.state.position, OpenUmcPrice(bar),
                                OpenCcfPrice(bar))
                  && orders <= after.log.requests && after.state.openTrade.Some?
                  && after.state.openTrade.value.entryIdx == j
                  && PairOf(after.log.requests[|orders|..], env.setup, bar, after.state.position.umcUnits,
                            after.state.position.ccfContracts, OpenUmcPrice(bar), OpenCcfPrice(bar),
                            after.state.openTrade.value.costs))
            && (after.state.state != Open ==>
                  after.state.state in {Flat, EntryPending} && after.log.requests == orders)
  {
    hide RunTo, SnapAt, NextStep, MarkedAt, WantedPair, PairOf, InTime, WorthTrading, OpenCcfPrice, OpenUmcPrice;
    PendedEntryWaits(env, i, j);
    BarAnswers(env, j);
    var step := NextStep(env, StateAt(env, j), j);
    assert RunTo(env, j + 1).log.requests[|RunTo(env, i).log.requests|..] == step.report.requests;
  }
}
