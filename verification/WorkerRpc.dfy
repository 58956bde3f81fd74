/**
 Request and reply over a pipe to a worker process that may stall, refuse or die, and the two facades built on it.

 The pipe is first in, first out: the worker answers requests in the order they were sent, and a reply that arrives
 after its deadline stays in the pipe for whoever reads next.
 */
module WorkerRpc {
  import opened Models

  datatype Reply = Reply(tag: nat, ok: bool)

  datatype Worker = Absent | Live(symbol: string, waiting: seq<nat>, ready: seq<Reply>) {
    /** Everything owed through the pipe, oldest first. */
    function Owed(): seq<nat> {
      if Absent? then [] else Tags(ready) + waiting
    }
  }

  function Tags(replies: seq<Reply>): seq<nat> {
    seq(|replies|, i requires 0 <= i < |replies| => replies[i].tag)
  }

  /** Requests carry a tag only for the proofs: the real messages do not, which is why pairing matters. */
  datatype World = World(now: nat, nextTag: nat, worker: Worker, sent: seq<string>, spawned: nat)

  /**
   What happens around one exchange: the old worker may have died, the new one may die at once, the send may fail,
   the worker gets through some of what it owes before the deadline, and it may exit.
   */
  datatype Beat = Beat(deadAlready: bool, diesAtStart: bool, sendFails: bool, answers: seq<bool>, exits: bool)

  type Tape = nat -> Beat

  datatype Answer = Value(tag: nat) | Refused(tag: nat) | TimedOut | Broke | ClosedError

  function Spawned(beat: Beat, w: World, symbol: string): World {
    if w.worker.Live? && !beat.deadAlready then w else w.(worker := Live(symbol, [], []), spawned := w.spawned + 1)
  }

  function Scrap(w: World): World {
    w.(worker := Absent)
  }

  /** Send, wait for something readable until the deadline, read one reply. */
  function Exchange(beat: Beat, w: World, operation: string): (Answer, World) {
    var at := w.(now := w.now + 1);
    if w.worker.Absent? || beat.diesAtStart then (Broke, at.(worker := Absent))
    else if beat.sendFails then (Broke, at)
    else
      var waiting := w.worker.waiting + [w.nextTag];
      var k := if |beat.answers| < |waiting| then |beat.answers| else |waiting|;
      var ready := w.worker.ready + seq(k, i requires 0 <= i < k => Reply(waiting[i], beat.answers[i]));
      var after := at.(nextTag := w.nextTag + 1, sent := w.sent + [operation]);
      if ready == [] then
        if beat.exits then (Broke, after.(worker := Absent))
        else (TimedOut, after.(worker := Live(w.worker.symbol, waiting[k..], [])))
      else
        var worker := if beat.exits then Absent else Live(w.worker.symbol, waiting[k..], ready[1..]);
        (if ready[0].ok then Value(ready[0].tag) else Refused(ready[0].tag), after.(worker := worker))
  }

  /** The pipe owes exactly the most recent requests, in order. */
  predicate InOrder(w: World) {
    UpTo(w.worker.Owed(), w.nextTag)
  }

  /** The last tags below `next`, oldest first. */
  predicate UpTo(owed: seq<nat>, next: nat) {
    |owed| <= next && forall i :: 0 <= i < |owed| ==> owed[i] == next - |owed| + i
  }

  lemma UpToGrows(owed: seq<nat>, next: nat)
    requires UpTo(owed, next)
    ensures UpTo(owed + [next], next + 1) && UpTo((owed + [next])[1..], next + 1) && UpTo([], next)
    ensures (owed + [next])[0] == next - |owed|
  {
  }

  function Lag(w: World): nat {
    |w.worker.Owed()|
  }

  lemma OwedAfter(waiting: seq<nat>, ready: seq<Reply>, answers: seq<bool>, k: nat)
    requires k <= |waiting| && k <= |answers|
    ensures Tags(ready + seq(k, i requires 0 <= i < k => Reply(waiting[i], answers[i]))) + waiting[k..]
            == Tags(ready) + waiting
  {
  }

  predicate Delivered(beat: Beat, w: World) {
    w.worker.Live? && !beat.diesAtStart && !beat.sendFails
  }

  /** A request that reaches the worker is owed last; a reply that is read was owed first. */
  lemma ExchangeOwes(beat: Beat, w: World, operation: string)
    ensures var (answer, after) := Exchange(beat, w, operation);
            var owed := w.worker.Owed() + [w.nextTag];
            && (answer.TimedOut? ==> Delivered(beat, w) && after.worker.Live?)
            && (answer.Value? || answer.Refused? ==> Delivered(beat, w) && answer.tag == owed[0])
            && after.nextTag == w.nextTag + (if Delivered(beat, w) then 1 else 0)
            && (after.worker.Live? ==>
                  && w.worker.Live? && after.worker.symbol == w.worker.symbol
                  && after.worker.Owed() == if !Delivered(beat, w) then w.worker.Owed()
                       else if answer.TimedOut? then owed else owed[1..])
  {
    if Delivered(beat, w) {
      var waiting := w.worker.waiting + [w.nextTag];
      var k := if |beat.answers| < |waiting| then |beat.answers| else |waiting|;
      var ready := w.worker.ready + seq(k, i requires 0 <= i < k => Reply(waiting[i], beat.answers[i]));
      OwedAfter(waiting, w.worker.ready, beat.answers, k);
      var owed := Tags(ready) + waiting[k..];
      assert owed == w.worker.Owed() + [w.nextTag];
      if ready != [] {
        assert owed[0] == ready[0].tag;
        assert Tags(ready[1..]) + waiting[k..] == owed[1..];
      }
    }
  }

  lemma ExchangeShape(beat: Beat, w: World, operation: string)
    ensures var (_, after) := Exchange(beat, w, operation);
            after.now == w.now + 1 && after.spawned == w.spawned && w.sent <= after.sent && |after.sent| <= |w.sent| + 1
  {
  }

  /** Whatever the worker does, a reply read is the oldest one owed: the answer to the request `lag` sends earlier. */
  lemma ExchangeIsFifo(beat: Beat, w: World, operation: string)
    requires InOrder(w)
    ensures var (answer, after) := Exchange(beat, w, operation);
            && InOrder(after)
            && after.now == w.now + 1 && after.spawned == w.spawned
            && (answer.Value? || answer.Refused? ==> answer.tag == w.nextTag - Lag(w))
            && (after.worker.Live? ==>
                  && w.worker.Live? && after.worker.symbol == w.worker.symbol
                  && Lag(after) == Lag(w) + (if answer.TimedOut? then 1 else 0))
            && (answer.TimedOut? ==> after.worker.Live?)
            && w.sent <= after.sent && |after.sent| <= |w.sent| + 1
  {
    ExchangeOwes(beat, w, operation);
    ExchangeShape(beat, w, operation);
    UpToGrows(w.worker.Owed(), w.nextTag);
    hide Exchange, Tags, UpTo;
  }

  // ---------------------------------------------------------------- the execution facade

  datatype Exec = Exec(world: World, closed: bool, symbol: string)

  function ExecRequest(tape: Tape, e: Exec, operation: string): (Answer, Exec) {
    if e.closed then (ClosedError, e)
    else
      var beat := tape(e.world.now);
      var (answer, w) := Exchange(beat, Spawned(beat, e.world, e.symbol), operation);
      (answer, e.(world := w))
  }

  /** Every failure scraps the worker and its pipe; nothing is sent again. */
  function ExecCall(tape: Tape, e: Exec, operation: string): (Answer, Exec) {
    var (answer, after) := ExecRequest(tape, e, operation);
    if answer.Value? || answer.ClosedError? then (answer, after) else (answer, after.(world := Scrap(after.world)))
  }

  /** Read-only queries get one more try on a fresh worker. */
  function ExecReadonly(tape: Tape, e: Exec, operation: string): (Answer, Exec) {
    var (first, e1) := ExecCall(tape, e, operation);
    if first.Value? || first.ClosedError? then (first, e1) else ExecCall(tape, e1, operation)
  }

  function Retarget(e: Exec, symbol: string): Exec {
    if e.closed || symbol == "" || symbol == e.symbol then e else Exec(Scrap(e.world), e.closed, symbol)
  }

  function ExecClose(e: Exec): Exec {
    if e.closed then e else Exec(Scrap(e.world), true, e.symbol)
  }

  datatype RetargetResult = Moved | NotMoved | RetargetClosed

  /**
   What an execute call tells the coordinator: an outcome of the worker, or that nobody knows and nobody may retry.
   */
  datatype ExecuteResult = Outcome(tag: nat) | UnknownDoNotRetry | Closed

  class FubonFutureExecutionProcess {
    const tape: Tape
    var world: World
    var closed: bool
    var symbol: string

    constructor (tape: Tape, symbol: string)
      ensures State() == Exec(World(0, 0, Absent, [], 0), false, symbol) && this.tape == tape
    {
      this.tape, this.symbol, closed, world := tape, symbol, false, World(0, 0, Absent, [], 0);
    }

    function State(): Exec
      reads this
    {
      Exec(world, closed, symbol)
    }

    method Request(operation: string) returns (answer: Answer)
      modifies this
      ensures (answer, State()) == ExecRequest(tape, old(State()), operation)
    {
      if closed {
        return ClosedError;
      }
      var beat := tape(world.now);
      world := Spawned(beat, world, symbol);
      var (reply, after) := Exchange(beat, world, operation);
      world := after;
      answer := reply;
    }

    method Execute() returns (result: ExecuteResult)
      modifies this
      ensures var (answer, after) := ExecCall(tape, old(State()), "execute");
              && State() == after
              && result == (match answer case Value(tag) => Outcome(tag) case ClosedError => Closed case _ =>
                              UnknownDoNotRetry)
    {
      var answer := Request("execute");
      match answer {
        case Value(tag) => result := Outcome(tag);
        case ClosedError => result := Closed;
        case _ =>
          world := Scrap(world);
          result := UnknownDoNotRetry;
      }
    }

    method Query(operation: string) returns (answer: Answer)
      modifies this
      ensures (answer, State()) == ExecCall(tape, old(State()), operation)
    {
      answer := Request(operation);
      if !answer.Value? && !answer.ClosedError? {
        world := Scrap(world);
      }
    }

    method ReadonlyQuery(operation: string) returns (answer: Answer)
      modifies this
      ensures (answer, State()) == ExecReadonly(tape, old(State()), operation)
    {
      answer := Query(operation);
      if !answer.Value? && !answer.ClosedError? {
        answer := Query(operation);
      }
    }

    /** Points the facade at another contract; a closed one raises, and the same or an empty symbol moves nothing. */
    method RetargetSymbol(target: string) returns (result: RetargetResult)
      modifies this
      ensures State() == Retarget(old(State()), target)
      ensures result == (if old(closed) then RetargetClosed
                         else if target == "" || target == old(symbol) then NotMoved else RetargetResult.Moved)
    {
      if closed {
        return RetargetClosed;
      }
      if target == "" || target == symbol {
        return NotMoved;
      }
      symbol := target;
      world := Scrap(world);
      result := RetargetResult.Moved;
    }

    /**
     The closing request is refused because `closed` is set before it is made: no message is sent and the worker is
     scrapped.
     */
    method Close()
      modifies this
      ensures State() == ExecClose(old(State())) && world.sent == old(world.sent)
    {
      if closed {
        return;
      }
      closed := true;
      if world.worker.Live? && !tape(world.now).deadAlready {
        var refused := Request("close");
      }
      world := Scrap(world);
    }
  }

  datatype ExecOp =
    | DoExecute | DoQuery(operation: string) | DoReadonly(operation: string) | DoRetarget(symbol: string)
    | DoRestart | DoClose

  function ExecStep(tape: Tape, e: Exec, op: ExecOp): (Answer, Exec) {
    match op
    case DoExecute => ExecCall(tape, e, "execute")
    case DoQuery(operation) => ExecCall(tape, e, operation)
    case DoReadonly(operation) => ExecReadonly(tape, e, operation)
    case DoRetarget(symbol) => (Broke, Retarget(e, symbol))
    case DoRestart => (Broke, e.(world := Scrap(e.world)))
    case DoClose => (Broke, ExecClose(e))
  }

  /** Nothing is owed, and a live worker serves the current contract. */
  predicate Fresh(e: Exec) {
    InOrder(e.world) && Lag(e.world) == 0 && (e.world.worker.Live? ==> e.world.worker.symbol == e.symbol)
  }

  lemma CallIsFresh(tape: Tape, e: Exec, operation: string)
    requires Fresh(e)
    ensures var (answer, after) := ExecCall(tape, e, operation);
            && Fresh(after)
            && after.symbol == e.symbol
            && (answer.Value? ==>
                  answer.tag == after.world.nextTag - 1
                  && after.world.sent == e.world.sent + [operation])
            && e.world.sent <= after.world.sent && |after.world.sent| <= |e.world.sent| + 1
  {
    var beat := tape(e.world.now);
    var started := Spawned(beat, e.world, e.symbol);
    assert Tags([]) == [];
    ExchangeIsFifo(beat, started, operation);
  }

  /**
   Over any schedule of calls, stalls, deaths, retargets and restarts, every result the execution facade returns answers
   the request it just sent, a live worker serves the current contract, and one execute sends at most one message.
   */
  lemma {:induction false} ExecutionIsPaired(tape: Tape, e: Exec, ops: seq<ExecOp>)
    requires Fresh(e)
    ensures Fresh(AfterOps(tape, e, ops))
    ensures forall op :: var at := AfterOps(tape, e, ops);
                         var (answer, after) := ExecStep(tape, at, op);
                         && (answer.Value? ==> answer.tag == after.world.nextTag - 1)
                         && (op == DoExecute ==> |after.world.sent| <= |at.world.sent| + 1)
    decreases |ops|
  {
    if ops != [] {
      StepIsFresh(tape, e, ops[0]);
      ExecutionIsPaired(tape, ExecStep(tape, e, ops[0]).1, ops[1..]);
    } else {
      forall op
        ensures var (answer, after) := ExecStep(tape, e, op);
                && (answer.Value? ==> answer.tag == after.world.nextTag - 1)
                && (op == DoExecute ==> |after.world.sent| <= |e.world.sent| + 1)
      {
        StepIsFresh(tape, e, op);
      }
    }
  }

  function AfterOps(tape: Tape, e: Exec, ops: seq<ExecOp>): Exec
    decreases |ops|
  {
    if ops == [] then e else AfterOps(tape, ExecStep(tape, e, ops[0]).1, ops[1..])
  }

  lemma StepIsFresh(tape: Tape, e: Exec, op: ExecOp)
    requires Fresh(e)
    ensures var (answer, after) := ExecStep(tape, e, op);
            && Fresh(after)
            && (answer.Value? ==> answer.tag == after.world.nextTag - 1)
            && (op == DoExecute ==> |after.world.sent| <= |e.world.sent| + 1)
  {
    match op {
      case DoExecute => CallIsFresh(tape, e, "execute");
      case DoQuery(operation) => CallIsFresh(tape, e, operation);
      case DoReadonly(operation) =>
        CallIsFresh(tape, e, operation);
        CallIsFresh(tape, ExecCall(tape, e, operation).1, operation);
      case _ =>
    }
  }

  /** A beat that lets one fresh request through and answers it well in time. */
  predicate Answers(beat: Beat) {
    !beat.diesAtStart && !beat.sendFails && beat.answers != [] && beat.answers[0]
  }

  /** With nothing owed the worker's pipe is empty. */
  lemma FreshPipe(w: Worker)
    requires w.Live? && |w.Owed()| == 0
    ensures w.waiting == [] && w.ready == []
  {
    assert |Tags(w.ready)| == |w.ready|;
  }

  /** One exchange on an empty pipe. */
  lemma FreshExchange(beat: Beat, w: World, operation: string)
    requires w.worker.Live? && w.worker.waiting == [] && w.worker.ready == []
    ensures var (answer, after) := Exchange(beat, w, operation);
            && (answer.Value? <==> Answers(beat))
            && !answer.ClosedError?
            && after.sent == w.sent + (if beat.diesAtStart || beat.sendFails then [] else [operation])
            && after.now == w.now + 1
  {
    assert w.sent + [] == w.sent;
  }

  /**
   What one call of the execution facade comes to, wherever a schedule has left it: an answer exactly when the worker
   takes the request and answers it in time, an error and nothing sent once closed, and otherwise a scrapped worker. The
   request goes out once, if it can be sent at all.
   */
  lemma ExecAnswersExactlyWhen(tape: Tape, e: Exec, operation: string)
    requires Fresh(e)
    ensures var (beat, answer, after) := (tape(e.world.now), ExecCall(tape, e, operation).0,
                                          ExecCall(tape, e, operation).1);
            && (answer == ClosedError <==> e.closed) && (e.closed ==> after == e)
            && (answer.Value? <==> !e.closed && Answers(beat))
            && (!e.closed ==>
                  && after.world.sent
                     == e.world.sent + (if beat.diesAtStart || beat.sendFails then [] else [operation])
                  && (!answer.Value? ==> after.world.worker.Absent?) && after.closed == e.closed
                  && after.world.now == e.world.now + 1)
  {
    if !e.closed {
      var beat := tape(e.world.now);
      var started := Spawned(beat, e.world, e.symbol);
      if e.world.worker.Live? {
        FreshPipe(e.world.worker);
      }
      FreshExchange(beat, started, operation);
    }
    hide Exchange;
  }

  /** A read-only query is tried again once, on a fresh worker, exactly when the first try failed. */
  lemma ReadonlyAnswersExactlyWhen(tape: Tape, e: Exec, operation: string)
    requires Fresh(e)
    ensures var (first, second) := (tape(e.world.now), tape(e.world.now + 1));
            var (answer, after) := ExecReadonly(tape, e, operation);
            && (answer.Value? <==> !e.closed && (Answers(first) || Answers(second)))
            && (answer == ClosedError <==> e.closed)
            && (!e.closed ==> after.world.now == e.world.now + if Answers(first) then 1 else 2)
  {
    hide ExecCall, Answers;
    ExecAnswersExactlyWhen(tape, e, operation);
    CallIsFresh(tape, e, operation);
    ExecAnswersExactlyWhen(tape, ExecCall(tape, e, operation).1, operation);
  }

  /** Pointing an open facade at another contract leaves no worker of the old one; nothing else moves it. */
  lemma RetargetMoves(e: Exec, symbol: string)
    ensures var after := Retarget(e, symbol);
            && after.closed == e.closed && after.world.sent == e.world.sent
            && (e.closed || symbol == "" ==> after == e)
            && (!e.closed && symbol != "" ==> after.symbol == symbol)
            && (!e.closed && symbol != "" && symbol != e.symbol ==> after.world.worker.Absent?)
            && (symbol == e.symbol ==> after == e)
  {
  }

  /** Once closed the facade has no worker and never sends anything again, whatever is asked of it. */
  lemma {:induction false} ClosedForGood(tape: Tape, e: Exec, ops: seq<ExecOp>)
    requires e.closed ==> e.world.worker.Absent?
    ensures var end := AfterOps(tape, ExecClose(e), ops);
            end.closed && end.world.worker.Absent? && end.world.sent == e.world.sent
    decreases |ops|
  {
    hide Exchange;
    if ops != [] {
      var next := ExecStep(tape, ExecClose(e), ops[0]).1;
      assert ExecClose(next) == next;
      ClosedForGood(tape, next, ops[1..]);
    }
  }

  // ---------------------------------------------------------------- the market-data facade

  datatype Market = Market(world: World, connected: bool, closed: bool, consecutive: nat, recycled: nat)

  function Scrapped(m: Market): Market {
    m.(world := Scrap(m.world), connected := false)
  }

  function Started(beat: Beat, m: Market): Market {
    if m.world.worker.Live? && !beat.deadAlready then m else m.(world := Spawned(beat, m.world, ""), connected := false)
  }

  /** Connects a worker, rebuilding it once if it does not answer in time. */
  function Rebuild(tape: Tape, m: Market, attempt: nat): (Answer, Market)
    requires attempt < 2
    decreases 2 - attempt
  {
    var beat := tape(m.world.now);
    var (answer, w) := Exchange(beat, Started(beat, m).world, "connect");
    var after := Started(beat, m).(world := w);
    if answer.Value? then (answer, after.(connected := true))
    else if answer.TimedOut? && attempt == 0 then Rebuild(tape, Scrapped(after), 1)
    else (answer, Scrapped(after))
  }

  datatype Connection = Ready | Failed(answer: Answer)

  function Connected(tape: Tape, m: Market): (Connection, Market) {
    if m.closed then (Failed(ClosedError), m)
    else if m.connected && m.world.worker.Live? && !tape(m.world.now).deadAlready then (Ready, m)
    else
      var (answer, after) := Rebuild(tape, m, 0);
      (if answer.Value? then Ready else Failed(answer), after)
  }

  /**
   A timed-out worker is kept until `limit` timeouts in a row; any reply in between, even a stale one, resets the count.
   */
  function Called(tape: Tape, limit: nat, m: Market, operation: string): (Answer, Market) {
    var (connection, ready) := Connected(tape, m);
    if connection.Failed? then (connection.answer, ready)
    else
      var (answer, w) := Exchange(tape(ready.world.now), ready.world, operation);
      var after := ready.(world := w);
      if answer.TimedOut? then
        if after.consecutive + 1 >= limit
        then (answer, Scrapped(after).(consecutive := 0, recycled := after.recycled + 1))
        else (answer, after.(consecutive := after.consecutive + 1))
      else if answer.Value? then (answer, after.(consecutive := 0))
      else (answer, after)
  }

  function Reconnected(tape: Tape, m: Market): (Connection, Market) {
    var (connection, ready) := Connected(tape, m);
    if connection.Failed? then (connection, ready)
    else
      var (answer, w) := Exchange(tape(ready.world.now), ready.world, "reconnect");
      var after := ready.(world := w);
      if answer.Value? then (Ready, after.(connected := true))
      else if answer.TimedOut? then
        var (again, rebuilt) := Rebuild(tape, Scrapped(after), 0);
        (if again.Value? then Ready else Failed(again), rebuilt)
      else (Failed(answer), after)
  }

  /** Closing asks a live worker to close, ignores the answer, and scraps it. */
  function MarketClosed(tape: Tape, m: Market): Market {
    if m.closed then m
    else
      var beat := tape(m.world.now);
      var alive := m.world.worker.Live? && !beat.deadAlready;
      Scrapped(m.(closed := true, world := if alive then Exchange(beat, m.world, "close").1 else m.world))
  }

  class FubonCcfMarketDataProcess {
    const tape: Tape
    const maxConsecutiveTimeouts: nat
    var world: World
    var connected: bool
    var closed: bool
    var consecutiveTimeouts: nat
    var workerRecycleCount: nat

    constructor (tape: Tape, maxConsecutiveTimeouts: nat)
      requires maxConsecutiveTimeouts >= 1
      ensures State() == NEW_MARKET && this.tape == tape && this.maxConsecutiveTimeouts == maxConsecutiveTimeouts
    {
      this.tape, this.maxConsecutiveTimeouts := tape, maxConsecutiveTimeouts;
      world, connected, closed, consecutiveTimeouts, workerRecycleCount := World(0, 0, Absent, [], 0), false, false, 0,
      0;
    }

    function State(): Market
      reads this
    {
      Market(world, connected, closed, consecutiveTimeouts, workerRecycleCount)
    }

    method TerminateWorker()
      modifies this`world, this`connected
      ensures State() == Scrapped(old(State()))
    {
      world := Scrap(world);
      connected := false;
    }

    method StartWorker()
      modifies this`world, this`connected
      ensures State() == Started(tape(old(world.now)), old(State()))
    {
      var beat := tape(world.now);
      if world.worker.Live? && !beat.deadAlready {
        return;
      }
      world := Spawned(beat, world, "");
      connected := false;
    }

    method Request(operation: string) returns (answer: Answer)
      modifies this`world
      ensures (answer, world) == Exchange(tape(old(world.now)), old(world), operation)
    {
      var (reply, after) := Exchange(tape(world.now), world, operation);
      world := after;
      answer := reply;
    }

    method ConnectWithOneRebuild() returns (answer: Answer)
      modifies this`world, this`connected
      ensures (answer, State()) == Rebuild(tape, old(State()), 0)
    {
      hide Exchange;
      answer := TimedOut;
      for attempt := 0 to 2
        invariant attempt > 0 ==> answer == TimedOut
        invariant attempt < 2 ==> Rebuild(tape, old(State()), 0) == Rebuild(tape, State(), attempt)
        invariant attempt == 2 ==> (answer, State()) == Rebuild(tape, old(State()), 0)
      {
        StartWorker();
        answer := Request("connect");
        if answer.Value? {
          connected := true;
          return;
        }
        TerminateWorker();
        if !answer.TimedOut? {
          return;
        }
      }
    }

    method Connect() returns (connection: Connection)
      modifies this`world, this`connected
      ensures (connection, State()) == Connected(tape, old(State()))
    {
      if closed {
        return Failed(ClosedError);
      }
      if connected && world.worker.Live? && !tape(world.now).deadAlready {
        return Ready;
      }
      var answer := ConnectWithOneRebuild();
      connection := if answer.Value? then Ready else Failed(answer);
    }

    method Call(operation: string) returns (answer: Answer)
      modifies this
      ensures (answer, State()) == Called(tape, maxConsecutiveTimeouts, old(State()), operation)
    {
      hide Exchange, Connected;
      var connection := Connect();
      if connection.Failed? {
        return connection.answer;
      }
      answer := Request(operation);
      if answer.TimedOut? {
        consecutiveTimeouts := consecutiveTimeouts + 1;
        if consecutiveTimeouts >= maxConsecutiveTimeouts {
          consecutiveTimeouts := 0;
          workerRecycleCount := workerRecycleCount + 1;
          TerminateWorker();
        }
      } else if answer.Value? {
        consecutiveTimeouts := 0;
      }
    }

    method Reconnect() returns (connection: Connection)
      modifies this`world, this`connected
      ensures (connection, State()) == Reconnected(tape, old(State()))
    {
      hide Exchange, Connected, Rebuild;
      connection := Connect();
      if connection.Failed? {
        return;
      }
      var answer := Request("reconnect");
      if answer.Value? {
        connected := true;
      } else if answer.TimedOut? {
        TerminateWorker();
        var again := ConnectWithOneRebuild();
        connection := if again.Value? then Ready else Failed(again);
      } else {
        connection := Failed(answer);
      }
    }

    method Close()
      modifies this
      ensures State() == MarketClosed(tape, old(State()))
    {
      hide Exchange;
      if closed {
        return;
      }
      closed := true;
      if world.worker.Live? && !tape(world.now).deadAlready {
        var ignored := Request("close");
      }
      TerminateWorker();
    }
  }

  const NEW_MARKET := Market(World(0, 0, Absent, [], 0), false, false, 0, 0)

  /** A worker that is up but not yet connected owes nothing. */
  predicate Sane(m: Market) {
    InOrder(m.world) && (m.world.worker.Live? && !m.connected ==> Lag(m.world) == 0)
  }

  lemma AbsentOwesNothing(w: World)
    ensures w.worker.Absent? ==> InOrder(w) && Lag(w) == 0
  {
  }

  lemma RebuildOwesNothing(tape: Tape, m: Market, attempt: nat)
    requires Sane(m) && attempt < 2 && (m.world.worker.Live? && !tape(m.world.now).deadAlready ==> Lag(m.world) == 0)
    ensures var (answer, after) := Rebuild(tape, m, attempt);
            && Sane(after) && Lag(after.world) == 0
            && (answer.Value? ==> answer.tag == after.world.nextTag - 1)
            && after.consecutive == m.consecutive && after.closed == m.closed
    decreases 2 - attempt
  {
    var beat := tape(m.world.now);
    var s := Started(beat, m);
    assert Tags([]) == [];
    ExchangeIsFifo(beat, s.world, "connect");
    var (answer, w) := Exchange(beat, s.world, "connect");
    if answer.TimedOut? && attempt == 0 {
      RebuildOwesNothing(tape, Scrapped(s.(world := w)), 1);
    }
  }

  lemma ConnectKeepsLag(tape: Tape, m: Market)
    requires Sane(m)
    ensures var (connection, after) := Connected(tape, m);
            && Sane(after) && after.consecutive == m.consecutive && after.recycled == m.recycled
            && after.world.spawned >= m.world.spawned
            && (connection.Ready? ==>
                  after == m || (Lag(after.world) == 0
                                 && (after.world.spawned == m.world.spawned ==> Lag(m.world) == 0)))
            && (connection.Failed? && !m.closed ==> after.world.worker.Absent? || after == m)
  {
    if !m.closed && !(m.connected && m.world.worker.Live? && !tape(m.world.now).deadAlready) {
      RebuildOwesNothing(tape, m, 0);
      RebuildShape(tape, m, 0);
    }
  }

  lemma RebuildShape(tape: Tape, m: Market, attempt: nat)
    requires attempt < 2
    ensures var (answer, after) := Rebuild(tape, m, attempt);
            && after.consecutive == m.consecutive && after.recycled == m.recycled
            && (answer.Value? || after.world.worker.Absent?)
            && (answer.Value? ==> after.connected)
            && after.world.spawned >= Started(tape(m.world.now), m).world.spawned
    decreases 2 - attempt
  {
    var beat := tape(m.world.now);
    var (answer, w) := Exchange(beat, Started(beat, m).world, "connect");
    assert w.spawned == Started(beat, m).world.spawned;
    hide Exchange;
    if answer.TimedOut? && attempt == 0 {
      RebuildShape(tape, Scrapped(Started(beat, m).(world := w)), 1);
    }
  }

  /**
   One call: a reply read answers the request that is as many sends old as the pipe owed, and only timeouts add to that.
   */
  lemma CallLag(tape: Tape, limit: nat, m: Market, operation: string)
    requires Sane(m) && limit >= 1
    ensures var (answer, after) := Called(tape, limit, m, operation);
            var (connection, ready) := Connected(tape, m);
            && Sane(after)
            && (answer.Value? ==> connection.Ready? && answer.tag + Lag(ready.world) == after.world.nextTag - 1)
            && (connection.Ready? && after.world.worker.Live? ==>
                  Lag(after.world) == Lag(ready.world) + (if answer.TimedOut? then 1 else 0))
            && (answer.TimedOut? && limit == 1 ==> after.world.worker.Absent?)
            && after.world.spawned == ready.world.spawned
  {
    ConnectKeepsLag(tape, m);
    var (connection, ready) := Connected(tape, m);
    if connection.Ready? {
      ConnectedAfter(tape, m);
      hide Connected, Rebuild, Exchange, InOrder, Lag;
      var (_, w) := Exchange(tape(ready.world.now), ready.world, operation);
      ExchangeIsFifo(tape(ready.world.now), ready.world, operation);
      SentOne(tape(ready.world.now), ready.world, operation);
      AbsentOwesNothing(w);
      AbsentOwesNothing(Scrap(w));
    } else {
      FailedIsNoValue(tape, m);
    }
  }

  lemma SentOne(beat: Beat, w: World, operation: string)
    ensures var (answer, after) := Exchange(beat, w, operation);
            answer.Value? ==> after.nextTag == w.nextTag + 1
  {
  }

  lemma ConnectedAfter(tape: Tape, m: Market)
    requires Connected(tape, m).0.Ready?
    ensures Connected(tape, m).1.connected
  {
    hide Exchange;
    RebuildShape(tape, m, 0);
  }

  lemma FailedIsNoValue(tape: Tape, m: Market)
    requires Connected(tape, m).0.Failed?
    ensures !Connected(tape, m).0.answer.Value?
    ensures Connected(tape, m).0.answer.TimedOut? ==> Connected(tape, m).1.world.worker.Absent?
  {
    hide Exchange;
    RebuildShape(tape, m, 0);
  }

  // ---------------------------------------------------------------- the market-data facade over any schedule

  datatype MarketOp = DoCall(operation: string) | DoConnect | DoReconnect | DoCloseMarket

  /** One operation of the facade, with its answer when it is a call. */
  function MarketStep(tape: Tape, limit: nat, m: Market, op: MarketOp): (Option<Answer>, Market) {
    match op
    case DoCall(operation) => var (answer, after) := Called(tape, limit, m, operation); (Some(answer), after)
    case DoConnect => (None, Connected(tape, m).1)
    case DoReconnect => (None, Reconnected(tape, m).1)
    case DoCloseMarket => (None, MarketClosed(tape, m))
  }

  function AfterMarket(tape: Tape, limit: nat, ops: seq<MarketOp>): Market {
    if ops == [] then NEW_MARKET
    else MarketStep(tape, limit, AfterMarket(tape, limit, ops[..|ops| - 1]), ops[|ops| - 1]).1
  }

  /** Calls that timed out on the worker now alive, counted over the schedule; a new worker starts from none. */
  function Misses(tape: Tape, limit: nat, ops: seq<MarketOp>): nat {
    if ops == [] then 0
    else
      var front := ops[..|ops| - 1];
      var m := AfterMarket(tape, limit, front);
      var (answer, after) := MarketStep(tape, limit, m, ops[|ops| - 1]);
      if after.world.worker.Absent? then 0
      else
        (if after.world.spawned == m.world.spawned then Misses(tape, limit, front) else 0)
        + (if answer == Some(TimedOut) then 1 else 0)
  }

  /** What an operation carries over from before it: the pipe of the same worker, or nothing. */
  function Carried(m: Market, after: Market): nat {
    if after.world.spawned == m.world.spawned then Lag(m.world) else 0
  }

  lemma StepLag(tape: Tape, limit: nat, m: Market, op: MarketOp)
    requires Sane(m) && limit >= 1
    ensures var (answer, after) := MarketStep(tape, limit, m, op);
            && Sane(after)
            && Lag(after.world) == (if after.world.worker.Absent? then 0
                                    else Carried(m, after) + (if answer == Some(TimedOut) then 1 else 0))
            && (answer.Some? && answer.value.Value? ==> answer.value.tag + Carried(m, after) == after.world.nextTag - 1)
            && (limit == 1 && answer == Some(TimedOut) ==> after.world.worker.Absent?)
  {
    match op {
      case DoCall(operation) => CallStepLag(tape, limit, m, operation);
      case DoConnect => ConnectStepLag(tape, m);
      case DoReconnect => ReconnectStepLag(tape, m);
      case DoCloseMarket => AbsentOwesNothing(MarketClosed(tape, m).world);
    }
  }

  lemma ConnectStepLag(tape: Tape, m: Market)
    requires Sane(m)
    ensures var (connection, after) := Connected(tape, m);
            && Sane(after)
            && Lag(after.world) == (if after.world.worker.Absent? then 0 else Carried(m, after))
            && (connection.Ready? ==> after.connected)
            && (connection.Failed? ==> after.world.worker.Absent? || after == m)
  {
    ConnectKeepsLag(tape, m);
    AbsentOwesNothing(Connected(tape, m).1.world);
    if Connected(tape, m).0.Ready? {
      ConnectedAfter(tape, m);
    }
    hide Rebuild, Exchange, InOrder, Lag;
  }

  lemma CallStepLag(tape: Tape, limit: nat, m: Market, operation: string)
    requires Sane(m) && limit >= 1
    ensures var (answer, after) := Called(tape, limit, m, operation);
            && Sane(after)
            && Lag(after.world) == (if after.world.worker.Absent? then 0
                                    else Carried(m, after) + (if answer.TimedOut? then 1 else 0))
            && (answer.Value? ==> answer.tag + Carried(m, after) == after.world.nextTag - 1)
            && (limit == 1 && answer.TimedOut? ==> after.world.worker.Absent?)
  {
    hide Rebuild, Exchange, InOrder, Lag, Connected;
    CallLag(tape, limit, m, operation);
    ConnectKeepsLag(tape, m);
    ConnectStepLag(tape, m);
    AbsentOwesNothing(Called(tape, limit, m, operation).1.world);
    if Connected(tape, m).0.Failed? {
      FailedIsNoValue(tape, m);
    }
  }

  lemma ReconnectStepLag(tape: Tape, m: Market)
    requires Sane(m)
    ensures var (_, after) := Reconnected(tape, m);
            && Sane(after)
            && Lag(after.world) == (if after.world.worker.Absent? then 0 else Carried(m, after))
  {
    hide Rebuild, Exchange, InOrder, Lag, Connected;
    ConnectStepLag(tape, m);
    ConnectKeepsLag(tape, m);
    var (connection, ready) := Connected(tape, m);
    if connection.Ready? {
      var beat := tape(ready.world.now);
      ExchangeIsFifo(beat, ready.world, "reconnect");
      var (answer, w) := Exchange(beat, ready.world, "reconnect");
      AbsentOwesNothing(w);
      AbsentOwesNothing(Scrap(w));
      if answer.TimedOut? {
        var scrapped := Scrapped(ready.(world := w));
        RebuildOwesNothing(tape, scrapped, 0);
        RebuildShape(tape, scrapped, 0);
      }
    }
  }

  /**
   Over any schedule of calls, connects, reconnects and closes, stalls and deaths, the pipe owes exactly the calls that
   timed out since its worker started, and the next reply answers the call that many sends ago.
   */
  lemma {:induction false} LagCountsMisses(tape: Tape, limit: nat, ops: seq<MarketOp>, op: MarketOp)
    requires limit >= 1
    ensures var m := AfterMarket(tape, limit, ops);
            var (answer, after) := MarketStep(tape, limit, m, op);
            && Sane(m) && Lag(m.world) == Misses(tape, limit, ops)
            && (answer.Some? && answer.value.Value? ==>
                  answer.value.tag + (if after.world.spawned == m.world.spawned then Misses(tape, limit, ops) else 0)
                  == after.world.nextTag - 1)
    decreases |ops|
  {
    hide MarketStep, Sane, Lag;
    if ops == [] {
      NewOwesNothing();
    } else {
      var front, last := ops[..|ops| - 1], ops[|ops| - 1];
      LagCountsMisses(tape, limit, front, last);
      StepLag(tape, limit, AfterMarket(tape, limit, front), last);
    }
    StepLag(tape, limit, AfterMarket(tape, limit, ops), op);
  }

  lemma NewOwesNothing()
    ensures Sane(NEW_MARKET) && Lag(NEW_MARKET.world) == 0
  {
  }

  /** The reply read next on this schedule, if one is, answers the call that asked for it. */
  predicate Paired(tape: Tape, limit: nat, ops: seq<MarketOp>, op: MarketOp) {
    var (answer, after) := MarketStep(tape, limit, AfterMarket(tape, limit, ops), op);
    answer.Some? && answer.value.Value? ==> answer.value.tag == after.world.nextTag - 1
  }

  /**
   When a single timeout already scraps the worker, every market-data reply answers its own request, on every schedule.
   */
  lemma OneStrikeIsPaired(tape: Tape, ops: seq<MarketOp>, op: MarketOp)
    ensures Paired(tape, 1, ops, op) && Lag(AfterMarket(tape, 1, ops).world) == 0
  {
    hide MarketStep, Sane, Lag;
    LagCountsMisses(tape, 1, ops, op);
    OneStrikeNeverMisses(tape, ops);
  }

  lemma {:induction false} OneStrikeNeverMisses(tape: Tape, ops: seq<MarketOp>)
    ensures Misses(tape, 1, ops) == 0
    decreases |ops|
  {
    hide MarketStep, Sane, Lag;
    if ops != [] {
      var front, last := ops[..|ops| - 1], ops[|ops| - 1];
      OneStrikeNeverMisses(tape, front);
      LagCountsMisses(tape, 1, front, last);
      StepLag(tape, 1, AfterMarket(tape, 1, front), last);
    }
  }

  /**
   Connected to a live worker that stays alive and lets requests through, but answers nothing, for the next n beats.
   */
  predicate Silent(tape: Tape, m: Market, n: nat) {
    && !m.closed && m.connected && m.world.worker.Live? && m.world.worker.ready == []
    && forall i: nat :: m.world.now <= i < m.world.now + n ==>
         var b := tape(i);
         !b.deadAlready && !b.diesAtStart && !b.sendFails && !b.exits && b.answers == []
  }

  function Calls(tape: Tape, limit: nat, m: Market, operation: string, n: nat): Market {
    if n == 0 then m else Called(tape, limit, Calls(tape, limit, m, operation, n - 1), operation).1
  }

  lemma SilentCall(tape: Tape, limit: nat, m: Market, operation: string, n: nat)
    requires Silent(tape, m, n) && n > 0 && limit >= 1
    ensures var (answer, after) := Called(tape, limit, m, operation);
            && answer == TimedOut && after.world.now == m.world.now + 1
            && if m.consecutive + 1 >= limit
               then after.world.worker.Absent? && !after.connected && after.consecutive == 0
                    && after.recycled == m.recycled + 1
               else Silent(tape, after, n - 1) && after.consecutive == m.consecutive + 1
                    && after.recycled == m.recycled && after.world.spawned == m.world.spawned
  {
    assert tape(m.world.now).answers == [];
  }

  /**
   Silence is put up with for exactly as many calls as the limit has left: until then every call times out on the same
   worker, and the call that reaches the limit scraps it, counts one recycling and starts counting again.
   */
  lemma {:induction false} SilenceRecycles(tape: Tape, limit: nat, m: Market, operation: string, n: nat, ahead: nat)
    requires limit >= 1 && m.consecutive + n < limit && Silent(tape, m, n + 1 + ahead)
    ensures var before := Calls(tape, limit, m, operation, n);
            var (answer, after) := Called(tape, limit, before, operation);
            && Silent(tape, before, 1 + ahead) && before.world.spawned == m.world.spawned
            && before.consecutive == m.consecutive + n && before.recycled == m.recycled && answer == TimedOut
            && (after.world.worker.Absent? <==> m.consecutive + n + 1 == limit)
            && after.recycled == m.recycled + (if m.consecutive + n + 1 == limit then 1 else 0)
            && after.consecutive == (if m.consecutive + n + 1 == limit then 0 else m.consecutive + n + 1)
  {
    hide Called, Silent;
    if n > 0 {
      SilenceRecycles(tape, limit, m, operation, n - 1, ahead + 1);
      SilentCall(tape, limit, Calls(tape, limit, m, operation, n - 1), operation, 2 + ahead);
    }
    SilentCall(tape, limit, Calls(tape, limit, m, operation, n), operation, 1 + ahead);
    LiveWhileSilent(tape, Called(tape, limit, Calls(tape, limit, m, operation, n), operation).1, ahead);
  }

  lemma LiveWhileSilent(tape: Tape, m: Market, n: nat)
    ensures Silent(tape, m, n) ==> m.world.worker.Live?
  {
  }

  /** A worker in touch that answers the oldest request owed well: the call returns it and forgets the timeouts. */
  lemma AnswerResets(tape: Tape, limit: nat, m: Market, operation: string)
    requires !m.closed && m.connected && m.world.worker.Live? && m.world.worker.ready == []
    requires var b := tape(m.world.now);
             !b.deadAlready && !b.diesAtStart && !b.sendFails && b.answers != []
    ensures var (answer, after) := Called(tape, limit, m, operation);
            var oldest := (m.world.worker.waiting + [m.world.nextTag])[0];
            && answer == (if tape(m.world.now).answers[0] then Value(oldest) else Refused(oldest))
            && after.consecutive == (if tape(m.world.now).answers[0] then 0 else m.consecutive)
            && after.recycled == m.recycled
  {
  }

  /** A beat that lets one request through and stays silent. */
  predicate Quiet(beat: Beat) {
    !beat.diesAtStart && !beat.sendFails && beat.answers == [] && !beat.exits
  }

  lemma QuietExchange(beat: Beat, w: World, operation: string)
    requires w.worker.Live? && w.worker.waiting == [] && w.worker.ready == []
    ensures Exchange(beat, w, operation).0.TimedOut? <==> Quiet(beat)
  {
  }

  /**
   From no worker a connection is made exactly when the first new one answers, or stays silent and a second answers.
   */
  lemma ConnectsExactlyWhen(tape: Tape, m: Market)
    requires m.world.worker.Absent? && !m.closed
    ensures var (first, second) := (tape(m.world.now), tape(m.world.now + 1));
            var (connection, after) := Connected(tape, m);
            && (connection.Ready? <==> Answers(first) || (Quiet(first) && Answers(second)))
            && after.world.spawned == m.world.spawned + (if Quiet(first) then 2 else 1)
            && after.connected == connection.Ready? && (connection.Failed? ==> after.world.worker.Absent?)
  {
    var (first, second) := (tape(m.world.now), tape(m.world.now + 1));
    var started := Started(first, m);
    FreshExchange(first, started.world, "connect");
    QuietExchange(first, started.world, "connect");
    ExchangeShape(first, started.world, "connect");
    var w := Exchange(first, started.world, "connect").1;
    var again := Started(second, Scrapped(started.(world := w)));
    FreshExchange(second, again.world, "connect");
    QuietExchange(second, again.world, "connect");
    ExchangeShape(second, again.world, "connect");
    hide Exchange, Answers, Quiet;
  }

  /**
   Reconnecting a worker in touch that owes nothing: it stays when it answers or fails in any other way, and is scrapped
   for a new one exactly when it stays silent.
   */
  lemma ReconnectsExactlyWhen(tape: Tape, m: Market)
    requires !m.closed && m.connected && m.world.worker.Live? && m.world.worker.waiting == []
             && m.world.worker.ready == [] && !tape(m.world.now).deadAlready
    ensures var (beat, next, last) := (tape(m.world.now), tape(m.world.now + 1), tape(m.world.now + 2));
            var (connection, after) := Reconnected(tape, m);
            && (connection.Ready? <==>
                  Answers(beat) || (Quiet(beat) && (Answers(next) || (Quiet(next) && Answers(last)))))
            && (after.world.spawned > m.world.spawned <==> Quiet(beat))
            && after.consecutive == m.consecutive && after.recycled == m.recycled
  {
    var beat := tape(m.world.now);
    FreshExchange(beat, m.world, "reconnect");
    QuietExchange(beat, m.world, "reconnect");
    ExchangeShape(beat, m.world, "reconnect");
    var w := Exchange(beat, m.world, "reconnect").1;
    var scrapped := Scrapped(m.(world := w));
    ConnectsExactlyWhen(tape, scrapped);
    RebuildShape(tape, scrapped, 0);
    hide Exchange, Answers, Quiet, Rebuild;
    assert Connected(tape, scrapped).1 == Rebuild(tape, scrapped, 0).1;
  }

  /** Closing asks a worker still alive to close, once, drops it, and is final. */
  lemma MarketCloseAsks(tape: Tape, m: Market)
    ensures var (beat, after) := (tape(m.world.now), MarketClosed(tape, m));
            && after.closed && (m.closed ==> after == m)
            && (!m.closed ==>
                  && after.world.worker.Absent? && !after.connected
                  && after.world.sent
                     == m.world.sent
                        + (if m.world.worker.Live? && !beat.deadAlready && !beat.diesAtStart && !beat.sendFails
                           then ["close"] else []))
            && MarketClosed(tape, after) == after && Connected(tape, after) == (Failed(ClosedError), after)
  {
    assert m.world.sent + [] == m.world.sent;
  }

  /**
   A worker that connects promptly, misses the first call's deadline, and then answers one request per call forever.
   */
  function OneSlowReply(): Tape {
    (i: nat) => Beat(false, false, false, if i == 1 then [] else [true], false)
  }

  predicate OneBehind(m: Market, n: nat) {
    && !m.closed && m.connected && m.consecutive == 0 && m.recycled == 0
    && m.world.now == n + 1 && m.world.nextTag == n + 1
    && m.world.worker == Live("", [n], [])
  }

  /** One prompt answer takes the oldest request owed. */
  lemma PromptExchange(w: World, waiting: seq<nat>, operation: string)
    requires w.worker == Live("", waiting, [])
    ensures var all := waiting + [w.nextTag];
            Exchange(Beat(false, false, false, [true], false), w, operation)
            == (Value(all[0]), World(w.now + 1, w.nextTag + 1, Live("", all[1..], []), w.sent + [operation], w.spawned))
  {
    var all := waiting + [w.nextTag];
    var ready := [] + seq(1, i requires 0 <= i < 1 => Reply(all[i], [true][i]));
    assert ready[1..] == [];
  }

  lemma SilentExchange(w: World, waiting: seq<nat>, operation: string)
    requires w.worker == Live("", waiting, [])
    ensures Exchange(Beat(false, false, false, [], false), w, operation)
            == (TimedOut, World(w.now + 1, w.nextTag + 1, Live("", waiting + [w.nextTag], []), w.sent + [operation],
                                w.spawned))
  {
    assert (waiting + [w.nextTag])[0..] == waiting + [w.nextTag];
  }

  lemma OneBehindStays(limit: nat, m: Market, n: nat, operation: string)
    requires limit >= 2 && n > 1 && OneBehind(m, n)
    ensures var (answer, after) := Called(OneSlowReply(), limit, m, operation);
            answer == Value(n) && OneBehind(after, n + 1)
  {
    hide Exchange;
    PromptExchange(m.world, [n], operation);
    assert ([n] + [n + 1])[1..] == [n + 1];
  }

  predicate AllCalls(ops: seq<MarketOp>) {
    forall op :: op in ops ==> op.DoCall?
  }

  /**
   With any larger limit one slow reply desynchronises the facade for good: every later call returns the previous call's
   answer, the count never reaches the limit, and the worker is never recycled.
   */
  lemma {:induction false} OneSlowReplyMispairsForever(limit: nat, ops: seq<MarketOp>, operation: string)
    requires limit >= 2 && |ops| >= 2 && AllCalls(ops)
    ensures var m := AfterMarket(OneSlowReply(), limit, ops);
            var (answer, after) := Called(OneSlowReply(), limit, m, operation);
            OneBehind(m, |ops|) && answer == Value(after.world.nextTag - 2)
    decreases |ops|
  {
    hide Called;
    var front, last := ops[..|ops| - 1], ops[|ops| - 1];
    assert last in ops && forall op :: op in front ==> op in ops;
    if |ops| == 2 {
      FirstTwoCalls(limit, ops);
    } else {
      OneSlowReplyMispairsForever(limit, front, last.operation);
      OneBehindStays(limit, AfterMarket(OneSlowReply(), limit, front), |front|, last.operation);
    }
    OneBehindStays(limit, AfterMarket(OneSlowReply(), limit, ops), |ops|, operation);
  }

  /** A facade is paired on every schedule exactly when its limit is one timeout. */
  lemma PairedExactlyWhen(limit: nat)
    requires limit >= 1
    ensures (forall tape: Tape, ops: seq<MarketOp>, op: MarketOp :: Paired(tape, limit, ops, op)) <==> limit == 1
  {
    hide Paired;
    if limit == 1 {
      forall tape: Tape, ops: seq<MarketOp>, op: MarketOp
        ensures Paired(tape, limit, ops, op)
      {
        OneStrikeIsPaired(tape, ops, op);
      }
    } else {
      SlowReplyUnpaired(limit);
    }
  }

  lemma SlowReplyUnpaired(limit: nat)
    requires limit >= 2
    ensures !Paired(OneSlowReply(), limit, [DoCall("a"), DoCall("b")], DoCall("c"))
  {
    hide Called, AfterMarket;
    OneSlowReplyMispairsForever(limit, [DoCall("a"), DoCall("b")], "c");
  }

  lemma FirstTwoCalls(limit: nat, ops: seq<MarketOp>)
    requires limit >= 2 && |ops| == 2 && ops[0].DoCall? && ops[1].DoCall?
    ensures OneBehind(AfterMarket(OneSlowReply(), limit, ops), 2)
  {
    hide Exchange;
    var tape := OneSlowReply();
    var started := Started(tape(0), NEW_MARKET);
    PromptExchange(started.world, [], "connect");
    var zero: nat := 0;
    assert started.world == World(0, 0, Live("", [], []), [], 1);
    assert ([] + [zero])[1..] == [];
    var connected := World(1, 1, Live("", [], []), ["connect"], 1);
    assert [] + ["connect"] == ["connect"];
    assert tape(0) == Beat(false, false, false, [true], false) && tape(1) == Beat(false, false, false, [], false);
    assert Exchange(tape(0), started.world, "connect") == (Value(0), connected);
    SilentExchange(connected, [], ops[0].operation);
    assert ["connect"] + [ops[0].operation] == ["connect", ops[0].operation];
    assert [] + [1] == [1];
    var (c1, m1) := Called(tape, limit, NEW_MARKET, ops[0].operation);
    assert m1 == Market(World(2, 2, Live("", [1], []), ["connect", ops[0].operation], 1), true, false, 1, 0);
    PromptExchange(m1.world, [1], ops[1].operation);
    assert ([1] + [2])[1..] == [2];
    assert ops[..1][..0] == [];
    assert AfterMarket(tape, limit, ops[..1]) == m1;
  }
}
