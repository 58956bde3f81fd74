/**
 Confirming one CCF order: callbacks first, polling as supporting evidence, and the position as the judge
 whenever callbacks fall short.
 */
module FubonAdapter {
  import opened Models
  import opened Intent
  import opened Coordinator
  import opened Exposure

  const DUST := 0.000000000001

  /**
   A polled or placed order row; absent texts are empty. The two flags say whether contract, and side and lot, look like
   ours.
   */
  datatype OrderRow = OrderRow(
    orderId: string,
    seqNo: string,
    observedAt: Option<real>,
    status: string,
    filledLot: real,
    lot: real,
    averagePrice: Option<real>,
    filledMoney: Option<real>,
    sameContract: bool,
    sameShape: bool
  )

  /** What the waiter shows at one glance. */
  datatype Look = Look(lots: real, average: Option<real>, terminal: string)

  /** One confirmation: what each glance at the waiter and each history query will show, and the limits in force. */
  datatype Watch = Watch(
    hasWaiter: bool,
    looks: nat -> Look,
    queries: nat -> Option<seq<OrderRow>>,
    requested: nat,
    keys: set<string>,
    submittedAt: real,
    window: Option<real>,
    grace: bool,
    attempts: nat
  )

  const FAILED_CODES := {"30", "80", "90", "91", "98", "99"}
  const REQUERY_CODES := {"9"}
  const DEAD_WORDS := ["cancel", "reject", "fail", "expire"]

  predicate Contains(text: string, word: string) {
    word <= text || (text != "" && Contains(text[1..], word))
  }

  predicate MentionsAny(text: string, words: seq<string>) {
    exists w :: w in words && Contains(text, w)
  }

  /** How many history queries fit the polling budget: at least one. */
  function Attempts(maxPollSeconds: real, intervalSeconds: real): (n: nat)
    ensures n >= 1
    ensures maxPollSeconds >= 0.0 ==> (n as real - 1.0) * Max(intervalSeconds, 0.001) <= maxPollSeconds
  {
    var step := Max(intervalSeconds, 0.001);
    var ratio := maxPollSeconds / step;
    assert ratio * step == maxPollSeconds;
    var whole := if ratio >= 0.0 then ratio.Floor else -((-ratio).Floor);
    if whole + 1 < 1 then 1
    else
      assert maxPollSeconds >= 0.0 ==>
        whole as real * step <= maxPollSeconds by { WholeBelow(whole as real, ratio, step); }
      whole + 1
  }

  lemma WholeBelow(whole: real, ratio: real, step: real)
    requires step > 0.0
    ensures whole <= ratio ==> whole * step <= ratio * step
    ensures ratio * step >= 0.0 ==> ratio >= 0.0
  {
  }

  predicate FullLots(w: Watch, lots: real) {
    lots >= w.requested as real - DUST
  }

  predicate IsFinal(row: OrderRow) {
    || (row.lot > 0.0 && row.filledLot >= row.lot)
    || row.status in FAILED_CODES
    || MentionsAny(row.status, ["filled"] + DEAD_WORDS)
  }

  predicate SharesKey(row: OrderRow, keys: set<string>) {
    (row.orderId != "" && row.orderId in keys) || (row.seqNo != "" && row.seqNo in keys)
  }

  predicate InWindow(w: Watch, row: OrderRow) {
    row.observedAt.None? || w.window.None? || Abs(row.observedAt.value - w.submittedAt) <= w.window.value
  }

  function FirstOurs(w: Watch, rows: seq<OrderRow>): (r: Option<OrderRow>)
    ensures r.Some? ==> r.value in rows && SharesKey(r.value, w.keys) && InWindow(w, r.value)
    ensures r.None? ==> forall row :: row in rows ==> !(SharesKey(row, w.keys) && InWindow(w, row))
  {
    if rows == [] then None
    else if SharesKey(rows[0], w.keys) && InWindow(w, rows[0]) then Some(rows[0])
    else FirstOurs(w, rows[1..])
  }

  function FirstOfShape(rows: seq<OrderRow>): (r: Option<OrderRow>)
    ensures r.Some? ==> r.value in rows && r.value.sameShape
    ensures r.None? ==> forall row :: row in rows ==> !row.sameShape
  {
    if rows == [] then None else if rows[0].sameShape then Some(rows[0]) else FirstOfShape(rows[1..])
  }

  function FirstOfContract(rows: seq<OrderRow>): (r: Option<OrderRow>)
    ensures r.Some? ==> r.value in rows && r.value.sameContract
    ensures r.None? ==> forall row :: row in rows ==> !row.sameContract
  {
    if rows == [] then None else if rows[0].sameContract then Some(rows[0]) else FirstOfContract(rows[1..])
  }

  /** With a key known only a row carrying it will do; without one the best look-alike is taken. */
  function MatchRow(w: Watch, rows: seq<OrderRow>): Option<OrderRow> {
    if w.keys != {} then FirstOurs(w, rows)
    else if FirstOfShape(rows).Some? then FirstOfShape(rows)
    else FirstOfContract(rows)
  }

  function WithStale(stale: seq<OrderRow>, rows: seq<OrderRow>): seq<OrderRow> {
    if rows == [] then stale
    else
      var earlier := WithStale(stale, rows[..|rows| - 1]);
      var last := rows[|rows| - 1];
      if last.sameShape && last !in earlier then earlier + [last] else earlier
  }

  datatype Polled = Polled(best: OrderRow, matched: bool, stale: seq<OrderRow>, failures: nat, looked: nat)

  /** What waiting ends with: the row to speak for the order, and what the waiter showed at glance number `glance`. */
  datatype WaitResult = WaitResult(finalRow: OrderRow, matched: bool, stale: seq<OrderRow>, failures: nat, glance: nat,
                                   lots: real, average: Option<real>)

  function Report(w: Watch, s: Polled, row: OrderRow): WaitResult {
    WaitResult(row, s.matched, s.stale, s.failures, s.looked,
               if w.hasWaiter then w.looks(s.looked).lots else 0.0,
               if w.hasWaiter then w.looks(s.looked).average else None)
  }

  /** One history query and what it teaches. */
  function AfterQuery(w: Watch, attempt: nat, s: Polled): Polled {
    var answer := w.queries(attempt);
    var rows := if answer.Some? then answer.value else [];
    var found := MatchRow(w, rows);
    var failures := s.failures + if answer.None? then 1 else 0;
    if found.Some? then s.(best := found.value, matched := true, failures := failures)
    else if w.keys != {} then s.(stale := WithStale(s.stale, rows), failures := failures)
    else s.(failures := failures)
  }

  /**
   Polling from a given attempt on: at most `attempts` queries whatever comes back, even when every answer says "ask
   again".
   */
  function PollFrom(w: Watch, attempt: nat, s: Polled): WaitResult
    decreases w.attempts - attempt
  {
    if attempt >= w.attempts then Report(w, s, s.best)
    else
      var look := w.looks(s.looked);
      var glanced := if w.hasWaiter then s.(looked := s.looked + 1) else s;
      if w.hasWaiter && FullLots(w, look.lots) then Report(w, glanced, s.best)
      else if w.hasWaiter && look.terminal in FAILED_CODES then Report(w, glanced, s.best.(status := look.terminal))
      else
        var next := AfterQuery(w, attempt, glanced);
        var answer := w.queries(attempt);
        if MatchRow(w, if answer.Some? then answer.value else []).Some? && IsFinal(next.best)
        then Report(w, next, next.best)
        else PollFrom(w, attempt + 1, next)
  }

  /** Callbacks get a first exclusive chance, then polling starts. */
  function Await(w: Watch, placed: OrderRow): WaitResult {
    var s := Polled(placed, false, [], 0, 0);
    if w.hasWaiter && w.grace then
      if FullLots(w, w.looks(1).lots) then Report(w, s.(looked := 2), placed) else PollFrom(w, 0, s.(looked := 2))
    else PollFrom(w, 0, s)
  }

  class FubonFutureExecutionAdapter {
    const maxPollSeconds: real
    const pollIntervalSeconds: real

    constructor (maxPollSeconds: real, pollIntervalSeconds: real)
      ensures this.maxPollSeconds == maxPollSeconds && this.pollIntervalSeconds == pollIntervalSeconds
    {
      this.maxPollSeconds, this.pollIntervalSeconds := maxPollSeconds, pollIntervalSeconds;
    }

    /** Rows of our shape that carry none of our keys are kept aside, once each. */
    method CollectStale(stale: seq<OrderRow>, rows: seq<OrderRow>) returns (kept: seq<OrderRow>)
      ensures kept == WithStale(stale, rows)
    {
      kept := stale;
      for i := 0 to |rows|
        invariant kept == WithStale(stale, rows[..i])
      {
        assert rows[..i + 1][..i] == rows[..i];
        if rows[i].sameShape && rows[i] !in kept {
          kept := kept + [rows[i]];
        }
      }
      assert rows[..|rows|] == rows;
    }

    method AwaitOrderCompletion(w: Watch, placed: OrderRow) returns (result: WaitResult)
      requires w.attempts == Attempts(maxPollSeconds, pollIntervalSeconds)
      ensures result == Await(w, placed)
    {
      hide IsFinal, MatchRow, WithStale, FullLots;
      var best, matched, stale, failures, looked := placed, false, [], 0, 0;
      if w.hasWaiter && w.grace {
        // one glance decides whether to wait for the grace period, the second follows it
        looked := 2;
        if FullLots(w, w.looks(1).lots) {
          return Report(w, Polled(best, matched, stale, failures, looked), best);
        }
      }
      var attempt := 0;
      while attempt < w.attempts
        invariant 0 <= attempt <= w.attempts
        invariant Await(w, placed) == PollFrom(w, attempt, Polled(best, matched, stale, failures, looked))
        decreases w.attempts - attempt
      {
        if w.hasWaiter {
          var look := w.looks(looked);
          looked := looked + 1;
          if FullLots(w, look.lots) {
            return Report(w, Polled(best, matched, stale, failures, looked), best);
          }
          if look.terminal in FAILED_CODES {
            return Report(w, Polled(best, matched, stale, failures, looked), best.(status := look.terminal));
          }
        }
        var answer := w.queries(attempt);
        var rows := if answer.Some? then answer.value else [];
        if answer.None? {
          failures := failures + 1;
        }
        var found := MatchRow(w, rows);
        attempt := attempt + 1;
        if found.Some? {
          best, matched := found.value, true;
          if IsFinal(best) {
            return Report(w, Polled(best, matched, stale, failures, looked), best);
          }
          if best.status in REQUERY_CODES {
            continue;
          }
        } else if w.keys != {} {
          stale := CollectStale(stale, rows);
        }
      }
      result := Report(w, Polled(best, matched, stale, failures, looked), best);
    }
  }

  // ---------------------------------------------------------------- position delta

  /** Lots the position confirms: movement on the order's own side, capped at the request. */
  function ConfirmedLots(side: OrderSide, requested: nat, before: real, after: real): (lots: real)
    ensures 0.0 <= lots <= requested as real
  {
    var delta, expected := after - before, side.Sign() * requested as real;
    if Abs(delta) <= DUST || delta * expected <= 0.0 then 0.0 else Min(Abs(delta), Abs(expected))
  }

  lemma SignedProduct(side: OrderSide, delta: real, requested: nat)
    ensures delta * (side.Sign() * requested as real) > 0.0 <==> requested > 0 && side.Sign() * delta > 0.0
  {
    if requested > 0 {
      var r := requested as real;
      if side.Sign() * delta > 0.0 {
        MulPositive(side.Sign() * delta, r);
      } else {
        MulMonotone(side.Sign() * delta, 0.0, r);
      }
    }
  }

  /** The position confirms something exactly when it moved the way the order pushes, by more than dust. */
  lemma ConfirmsExactlyWhen(side: OrderSide, requested: nat, before: real, after: real)
    requires requested > 0
    ensures ConfirmedLots(side, requested, before, after) > 0.0 <==> side.Sign() * (after - before) > DUST
    ensures ConfirmedLots(side, requested, before, after) > 0.0 ==>
              ConfirmedLots(side, requested, before, after) == Min(side.Sign() * (after - before), requested as real)
  {
    SignedProduct(side, after - before, requested);
    var delta, expected := after - before, side.Sign() * requested as real;
    assert Abs(expected) == requested as real && (side.Sign() * delta > 0.0 ==> Abs(delta) == side.Sign() * delta);
    var product := delta * expected;
    assert product > 0.0 <==> side.Sign() * delta > 0.0;
  }

  // ---------------------------------------------------------------- the outcome

  function MapStatus(status: string, requested: real, filled: real): OutcomeStatus {
    if filled >= Max(requested - DUST, 0.0) then Filled
    else if filled > 0.0 then PartialFill
    else if status in FAILED_CODES then Failed
    else if MentionsAny(status, DEAD_WORDS) then Failed
    else Unknown
  }

  /** Callback lots, unless they are short and the position confirms more. */
  function FilledLots(requested: nat, callback: real, delta: Option<real>): real {
    if callback < requested as real - DUST && delta.Some? && delta.value > callback + DUST then delta.value
    else callback
  }

  function Truthy(price: Option<real>): bool {
    price.Some? && price.value != 0.0
  }

  function RowPrice(row: OrderRow, filled: real): Option<real> {
    if Truthy(row.averagePrice) then row.averagePrice
    else if filled > 0.0 && row.filledMoney.Some? then Some(row.filledMoney.value / filled)
    else None
  }

  function FillPrice(leg: ExecutionLeg, expected: Option<real>, wait: WaitResult, filled: real): real {
    var exact := if wait.matched then RowPrice(wait.finalRow, filled) else None;
    if Truthy(wait.average) then wait.average.value
    else if Truthy(exact) then exact.value
    else if Truthy(expected) then expected.value
    else leg.price
  }

  /** An unmatched row only speaks when it reports a failure. */
  function StatusText(wait: WaitResult, placed: OrderRow): string {
    var own := if wait.matched || wait.finalRow.status in FAILED_CODES then wait.finalRow.status else "";
    if own != "" then own else placed.status
  }

  function OutcomeFromOrder(leg: ExecutionLeg, expected: Option<real>, requested: nat, placed: OrderRow,
                            wait: WaitResult,
                            delta: Option<real>, orderId: RecordId, fillId: RecordId, now: int, row: int): Outcome
  {
    var filled := FilledLots(requested, wait.lots, delta);
    var status := MapStatus(StatusText(wait, placed), requested as real, filled);
    Outcome(status,
            if filled > 0.0 then [Fill(fillId, orderId, leg.broker, leg.symbol, leg.side, filled,
                                       FillPrice(leg, expected, wait, filled), leg.feeTwd, now, row)] else [],
            if status != Filled then Some(Paused) else None)
  }

  // ---------------------------------------------------------------- main results

  lemma OneFill(f: Fill, leg: ExecutionLeg)
    requires f.On(leg.broker, leg.symbol)
    ensures FilledQuantity([f], leg.broker, leg.symbol) == f.quantity
  {
    assert [f][1..] == [];
  }

  /**
   No fill without evidence: the reported quantity is the callback lots, or the position's confirmation when callbacks
   are short and it confirms more. Polled rows decide neither the quantity nor whether the order counts as filled.
   */
  lemma NoFillWithoutEvidence(leg: ExecutionLeg, expected: Option<real>, requested: nat, placed: OrderRow,
                              wait: WaitResult,
                              delta: Option<real>, orderId: RecordId, fillId: RecordId, now: int, row: int)
    requires requested > 0
    ensures var o := OutcomeFromOrder(leg, expected, requested, placed, wait, delta, orderId, fillId, now, row);
            var filled := FilledQuantity(o.fills, leg.broker, leg.symbol);
            && (wait.lots >= 0.0 ==> filled == FilledLots(requested, wait.lots, delta))
            && (filled > 0.0 ==>
                  filled == wait.lots
                  || (delta.Some? && filled == delta.value && wait.lots < requested as real - DUST))
            && (o.status == Filled <==> FilledLots(requested, wait.lots, delta) >= requested as real - DUST)
            && (o.status == Filled ==> filled >= requested as real - DUST)
            && (o.status == PartialFill <==> 0.0 < filled < requested as real - DUST)
            && (o.recommended == Some(Paused) <==> o.status != Filled)
    ensures forall other: OrderRow, seen: bool ::
              var o := OutcomeFromOrder(leg, expected, requested, placed, wait, delta, orderId, fillId, now, row);
              var o' := OutcomeFromOrder(leg, expected, requested, placed, wait.(finalRow := other, matched := seen),
                                         delta, orderId, fillId, now, row);
              && FilledQuantity(o'.fills, leg.broker, leg.symbol) == FilledQuantity(o.fills, leg.broker, leg.symbol)
              && (o'.status == Filled <==> o.status == Filled)
  {
    hide FillPrice, MentionsAny, StatusText, FilledQuantity;
    var o := OutcomeFromOrder(leg, expected, requested, placed, wait, delta, orderId, fillId, now, row);
    QuantityOf(leg, expected, requested, placed, wait, delta, orderId, fillId, now, row);
    forall other: OrderRow, seen: bool
      ensures var o' := OutcomeFromOrder(leg, expected, requested, placed, wait.(finalRow := other, matched := seen),
                                         delta, orderId, fillId, now, row);
              FilledQuantity(o'.fills, leg.broker, leg.symbol) == FilledQuantity(o.fills, leg.broker, leg.symbol)
              && (o'.status == Filled <==> o.status == Filled)
    {
      QuantityOf(leg, expected, requested, placed, wait.(finalRow := other, matched := seen), delta, orderId, fillId,
                 now, row);
    }
  }

  lemma QuantityOf(leg: ExecutionLeg, expected: Option<real>, requested: nat, placed: OrderRow, wait: WaitResult,
                   delta: Option<real>, orderId: RecordId, fillId: RecordId, now: int, row: int)
    ensures var o := OutcomeFromOrder(leg, expected, requested, placed, wait, delta, orderId, fillId, now, row);
            FilledQuantity(o.fills, leg.broker, leg.symbol) == Max(FilledLots(requested, wait.lots, delta), 0.0)
  {
    hide FillPrice, MentionsAny, StatusText, FilledLots;
    var o := OutcomeFromOrder(leg, expected, requested, placed, wait, delta, orderId, fillId, now, row);
    if o.fills != [] {
      OneFill(o.fills[0], leg);
    }
  }

  /**
   An order that reports no fill is FAILED exactly when what speaks for it names a failure: its own row when one was
   matched or reports a failure code, else the answer to placing it. Everything else without a fill is UNKNOWN.
   */
  lemma FailedExactlyWhen(leg: ExecutionLeg, expected: Option<real>, requested: nat, placed: OrderRow,
                          wait: WaitResult, delta: Option<real>, orderId: RecordId, fillId: RecordId, now: int,
                          row: int)
    requires requested > 0
    ensures var o := OutcomeFromOrder(leg, expected, requested, placed, wait, delta, orderId, fillId, now, row);
            var own := wait.finalRow.status;
            var said := if own != "" && (wait.matched || own in FAILED_CODES) then own else placed.status;
            && (o.status == Failed <==>
                  FilledLots(requested, wait.lots, delta) <= 0.0
                  && (said in FAILED_CODES || exists w :: w in DEAD_WORDS && Contains(said, w)))
            && (o.status in {Failed, Unknown} <==> FilledLots(requested, wait.lots, delta) <= 0.0)
            && o.status != OutcomeStatus.Rejected
  {
    hide FillPrice, FilledLots, Contains;
  }

  /** Nothing is ever matched, in any number of polls, but a row that shares a key and sits in the time window. */
  lemma {:induction false} MatchesCarryKeys(w: Watch, attempt: nat, s: Polled)
    requires w.keys != {} && (s.matched ==> SharesKey(s.best, w.keys) && InWindow(w, s.best))
    ensures var r := PollFrom(w, attempt, s);
            r.matched ==> SharesKey(r.finalRow, w.keys) && InWindow(w, r.finalRow)
    decreases w.attempts - attempt
  {
    hide IsFinal;
    if attempt < w.attempts {
      var glanced := if w.hasWaiter then s.(looked := s.looked + 1) else s;
      MatchesCarryKeys(w, attempt + 1, AfterQuery(w, attempt, glanced));
    }
  }

  lemma AwaitCarriesKeys(w: Watch, placed: OrderRow)
    requires w.keys != {}
    ensures Await(w, placed).matched ==>
              SharesKey(Await(w, placed).finalRow, w.keys) && InWindow(w, Await(w, placed).finalRow)
  {
    hide PollFrom;
    MatchesCarryKeys(w, 0, Polled(placed, false, [], 0, 0));
    MatchesCarryKeys(w, 0, Polled(placed, false, [], 0, 2));
  }

  /** What makes a row speak for the order: a key it shares in the window, or, no key known, its looks. */
  predicate Speaks(w: Watch, rows: seq<OrderRow>, row: OrderRow) {
    && row in rows
    && if w.keys != {} then SharesKey(row, w.keys) && InWindow(w, row)
       else row.sameShape || (row.sameContract && forall other :: other in rows ==> !other.sameShape)
  }

  /** Query i answered, and the row speaks for the order. */
  predicate AnsweredBy(w: Watch, i: nat, row: OrderRow) {
    w.queries(i).Some? && Speaks(w, w.queries(i).value, row)
  }

  ghost predicate OursAt(w: Watch, i: nat) {
    exists row :: AnsweredBy(w, i, row)
  }

  /** Query i showed a look-alike and nothing that shares a key. */
  ghost predicate LookAlikeAt(w: Watch, i: nat, row: OrderRow) {
    w.keys != {} && w.queries(i).Some? && row in w.queries(i).value && row.sameShape && !OursAt(w, i)
  }

  function Unanswered(w: Watch, n: nat): nat {
    if n == 0 then 0 else Unanswered(w, n - 1) + if w.queries(n - 1).None? then 1 else 0
  }

  predicate Distinct(rows: seq<OrderRow>) {
    forall i, j :: 0 <= i < j < |rows| ==> rows[i] != rows[j]
  }

  /** The look-alikes set aside are those the queries showed, each once. */
  ghost predicate SetAside(w: Watch, n: nat, stale: seq<OrderRow>) {
    Distinct(stale) && forall row :: row in stale <==> exists i: nat :: i < n && LookAlikeAt(w, i, row)
  }

  /** What the queries so far taught: a row is matched iff one of them had it, and it is from the last that did. */
  ghost predicate Learned(w: Watch, n: nat, s: Polled, placed: OrderRow) {
    && (s.matched <==> exists i: nat :: i < n && OursAt(w, i))
    && (s.matched ==>
          exists i: nat :: i < n && AnsweredBy(w, i, s.best) && forall j: nat :: i < j < n ==> !OursAt(w, j))
    && (!s.matched ==> s.best == placed)
    && s.failures == Unanswered(w, n)
  }

  lemma MatchSpeaks(w: Watch, rows: seq<OrderRow>)
    ensures var found := MatchRow(w, rows);
            (found.Some? ==> Speaks(w, rows, found.value)) && (found.None? ==> forall row :: !Speaks(w, rows, row))
  {
    hide SharesKey, InWindow;
  }

  lemma {:induction false} KeepsLookAlikes(stale: seq<OrderRow>, rows: seq<OrderRow>)
    requires Distinct(stale)
    ensures var kept := WithStale(stale, rows);
            Distinct(kept) && forall row :: row in kept <==> row in stale || (row in rows && row.sameShape)
  {
    if rows != [] {
      KeepsLookAlikes(stale, rows[..|rows| - 1]);
      assert rows == rows[..|rows| - 1] + [rows[|rows| - 1]];
    }
  }

  lemma OneQueryLearned(w: Watch, n: nat, s: Polled, placed: OrderRow)
    requires Learned(w, n, s, placed)
    ensures Learned(w, n + 1, AfterQuery(w, n, s), placed)
  {
    var rows := if w.queries(n).Some? then w.queries(n).value else [];
    var found := MatchRow(w, rows);
    MatchSpeaks(w, rows);
    hide Speaks, WithStale, MatchRow;
    FoundIsOurs(w, n);
    if found.Some? {
      assert AnsweredBy(w, n, found.value);
    } else if s.matched {
      var i: nat :| i < n && AnsweredBy(w, i, s.best) && forall j: nat :: i < j < n ==> !OursAt(w, j);
      assert AnsweredBy(w, i, AfterQuery(w, n, s).best);
    }
  }

  lemma OneQuerySetsAside(w: Watch, n: nat, s: Polled)
    requires SetAside(w, n, s.stale)
    ensures SetAside(w, n + 1, AfterQuery(w, n, s).stale)
  {
    var rows := if w.queries(n).Some? then w.queries(n).value else [];
    FoundIsOurs(w, n);
    KeepsLookAlikes(s.stale, rows);
    hide OursAt, MatchRow, WithStale;
    var kept := AfterQuery(w, n, s).stale;
    forall row
      ensures row in kept <==> row in s.stale || LookAlikeAt(w, n, row)
    {
    }
    forall row
      ensures row in kept <==> exists i: nat :: i < n + 1 && LookAlikeAt(w, i, row)
    {
      if row in s.stale {
        var i: nat :| i < n && LookAlikeAt(w, i, row);
        assert i < n + 1;
      }
    }
  }

  /** A glance at the waiter that ends the wait: the fills are complete or the venue failed the order. */
  predicate Settled(w: Watch, k: nat) {
    FullLots(w, w.looks(k).lots) || w.looks(k).terminal in FAILED_CODES
  }

  /** A failure at the last glance overrides the status of the row that is believed. */
  function Believed(w: Watch, glance: nat, best: OrderRow): OrderRow {
    if glance == 0 || FullLots(w, w.looks(glance - 1).lots) then best
    else best.(status := w.looks(glance - 1).terminal)
  }

  /**
   Polling from one query, and one glance, on stopped before query n. Every glance before that showed nothing to stop
   for, every earlier row of the order was not final, and it stopped for the first glance that settles the order, the
   first final row, or the end of the budget.
   */
  ghost predicate Stopped(w: Watch, attempt: nat, first: nat, n: nat, best: OrderRow, r: WaitResult) {
    && attempt <= n <= w.attempts
    && (forall i: nat :: attempt <= i && i + 1 < n && OursAt(w, i) ==>
          exists row :: AnsweredBy(w, i, row) && !IsFinal(row))
    && (w.hasWaiter ==> forall k: nat :: first <= k < first + n - attempt ==> !Settled(w, k))
    && var glances := first + if w.hasWaiter then n - attempt else 0;
       if r.glance == glances
       then r.finalRow == best && (n == w.attempts || (n > attempt && OursAt(w, n - 1) && IsFinal(best)))
       else w.hasWaiter && r.glance == glances + 1 && Settled(w, glances) && r.finalRow == Believed(w, r.glance, best)
  }

  lemma {:induction false} PollAccount(w: Watch, attempt: nat, s: Polled, placed: OrderRow)
    returns (n: nat, last: Polled)
    requires Learned(w, attempt, s, placed) && SetAside(w, attempt, s.stale) && attempt <= w.attempts
    ensures Learned(w, n, last, placed) && SetAside(w, n, last.stale)
    ensures var r := PollFrom(w, attempt, s);
            && r.matched == last.matched && r.failures == last.failures && r.stale == last.stale
            && r.lots == (if w.hasWaiter then w.looks(r.glance).lots else 0.0)
            && r.average == (if w.hasWaiter then w.looks(r.glance).average else None)
            && Stopped(w, attempt, s.looked, n, last.best, r)
    decreases w.attempts - attempt
  {
    hide IsFinal, FullLots, Learned, AfterQuery, SetAside, OursAt, AnsweredBy, MatchRow;
    if attempt == w.attempts {
      n, last := attempt, s;
    } else {
      var glanced := if w.hasWaiter then s.(looked := s.looked + 1) else s;
      GlanceTeachesNothing(w, attempt, s, glanced, placed);
      if w.hasWaiter && Settled(w, s.looked) {
        n, last := attempt, glanced;
      } else {
        OneQueryLearned(w, attempt, glanced, placed);
        OneQuerySetsAside(w, attempt, glanced);
        var next := AfterQuery(w, attempt, glanced);
        FoundIsOurs(w, attempt);
        QueryBelieves(w, attempt, glanced);
        if OursAt(w, attempt) && IsFinal(next.best) {
          n, last := attempt + 1, next;
        } else {
          n, last := PollAccount(w, attempt + 1, next, placed);
        }
      }
    }
  }

  lemma QueryBelieves(w: Watch, i: nat, s: Polled)
    ensures OursAt(w, i) ==> AnsweredBy(w, i, AfterQuery(w, i, s).best)
    ensures AfterQuery(w, i, s).looked == s.looked
  {
    FoundIsOurs(w, i);
    MatchSpeaks(w, if w.queries(i).Some? then w.queries(i).value else []);
    hide MatchRow, OursAt, WithStale;
  }

  lemma GlanceTeachesNothing(w: Watch, n: nat, s: Polled, glanced: Polled, placed: OrderRow)
    requires Learned(w, n, s, placed) && glanced == s.(looked := glanced.looked)
    ensures Learned(w, n, glanced, placed)
  {
    hide OursAt, AnsweredBy;
  }

  lemma FoundIsOurs(w: Watch, i: nat)
    ensures MatchRow(w, if w.queries(i).Some? then w.queries(i).value else []).Some? <==> OursAt(w, i)
  {
    var rows := if w.queries(i).Some? then w.queries(i).value else [];
    MatchSpeaks(w, rows);
    hide MatchRow, SharesKey, InWindow;
    if MatchRow(w, rows).Some? {
      assert AnsweredBy(w, i, MatchRow(w, rows).value);
    }
  }

  /**
   What waiting comes to: some number of history queries, each of them used. A row is matched exactly when one of them
   had a row that speaks for the order, and the last that did is believed; otherwise the placed row is. Look-alikes of
   an order with a key are set aside, each once. Fills already complete in the grace period need no query at all. What
   the waiter shows when waiting stops is what is reported of the fills.
   */
  lemma AwaitAccount(w: Watch, placed: OrderRow) returns (n: nat, best: OrderRow)
    ensures var r := Await(w, placed);
            && (r.matched <==> exists i: nat :: i < n && OursAt(w, i))
            && (if r.matched
                then exists i: nat :: i < n && AnsweredBy(w, i, best) && forall j: nat :: i < j < n ==> !OursAt(w, j)
                else best == placed)
            && r.failures == Unanswered(w, n) && SetAside(w, n, r.stale)
            && r.lots == (if w.hasWaiter then w.looks(r.glance).lots else 0.0)
            && r.average == (if w.hasWaiter then w.looks(r.glance).average else None)
            && (if w.hasWaiter && w.grace && FullLots(w, w.looks(1).lots)
                then n == 0 && r.finalRow == placed && r.glance == 2
                else Stopped(w, 0, if w.hasWaiter && w.grace then 2 else 0, n, best, r))
  {
    hide PollFrom, FullLots, IsFinal, OursAt, AnsweredBy, Stopped;
    assert SetAside(w, 0, []);
    if w.hasWaiter && w.grace && FullLots(w, w.looks(1).lots) {
      n, best := 0, placed;
    } else {
      var last;
      n, last := PollAccount(w, 0, Polled(placed, false, [], 0, if w.hasWaiter && w.grace then 2 else 0), placed);
      best := last.best;
    }
  }

  /**
   Whatever waiting and the position said in whole lots, at a positive price: the outcome keeps the coordinator's
   contract exactly when the callback lots do not exceed the request. That is the only way FILLED can misstate the leg.
   */
  lemma HonestExactlyWhen(leg: ExecutionLeg, planType: PlanType, emergency: bool, expected: Option<real>,
                          requested: nat,
                          placed: OrderRow, wait: WaitResult, delta: Option<real>, orderId: RecordId, fillId: RecordId,
                          now: int, row: int, moved: real)
    requires leg.broker == FubonCcf && leg.quantity == requested as real && requested > 0
    requires IsWhole(wait.lots) && wait.lots >= 0.0
    requires delta.Some? ==> IsWhole(delta.value) && 0.0 <= delta.value <= requested as real
    requires FillPrice(leg, expected, wait, FilledLots(requested, wait.lots, delta)) > 0.0
    ensures var o := OutcomeFromOrder(leg, expected, requested, placed, wait, delta, orderId, fillId, now, row);
            Honest(Dispatch(leg, planType, emergency, false, o, moved)) <==> wait.lots <= requested as real
  {
    hide FillPrice, MentionsAny, StatusText;
    var o := OutcomeFromOrder(leg, expected, requested, placed, wait, delta, orderId, fillId, now, row);
    QuantityOf(leg, expected, requested, placed, wait, delta, orderId, fillId, now, row);
    if delta.Some? {
      WholeGap(delta.value, requested);
    }
    WholeGap(wait.lots, requested);
  }

  lemma WholeGap(x: real, n: nat)
    requires IsWhole(x)
    ensures x >= n as real - DUST ==> x >= n as real
  {
    if x < n as real {
      assert x.Floor < n;
      assert x.Floor as real <= n as real - 1.0;
    }
  }

  lemma ConfirmedWhole(side: OrderSide, requested: nat, before: real, after: real)
    requires IsWhole(after - before)
    ensures IsWhole(ConfirmedLots(side, requested, before, after))
  {
    var delta := after - before;
    assert Abs(delta) == AbsInt(delta.Floor) as real;
    assert IsWhole(requested as real) && IsWhole(0.0) && IsWhole(AbsInt(delta.Floor) as real);
    assert Abs(side.Sign() * requested as real) == requested as real;
  }
}
