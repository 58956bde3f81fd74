/** Saving and loading the strategy state as JSON. */
module StateJson {
  import opened Models
  import opened Sizing
  import opened StrategyModel

  datatype Scalar = Null | Number(number: real) | Integer(whole: int) | Text(text: string) | Flag(flag: bool)

  /** Rendering a moment as ISO text and reading one back from any scalar, which fails on text that is not a moment. */
  datatype Codec = Codec(render: int -> string, parse: Scalar -> Option<int>)

  predicate Renders(codec: Codec, t: int) {
    codec.render(t) != "" && codec.parse(Text(codec.render(t))) == Some(t)
  }

  ghost predicate IsIso(codec: Codec) {
    forall t: int :: Renders(codec, t)
  }

  predicate Truthy(s: Scalar) {
    match s
    case Null => false
    case Number(x) => x != 0.0
    case Integer(n) => n != 0
    case Text(t) => t != ""
    case Flag(b) => b
  }

  // ---------------------------------------------------------------- the open trade, a dictionary

  datatype FillKey =
    | EntrySignalIdx | EntrySignalTime | EntrySignalZscore | EntryIdx | EntryTime | EntryDelayMinutes | EntryFillZscore
    | TradeDirection | EntryUmcTwdFair | EntryCcfClose | UmcUnits | CcfUnits | CcfContracts | RawCcfContracts
    | LegNotional
    | EntryUmcFee | EntryCcfFee | EntryCcfTax | EntryFee | TradeCcfSymbol

  /** The keys an entry fill writes, the two an exit adds a moment under, and whatever else the dictionary carries. */
  datatype TradeKey = OfFill(key: FillKey) | ExitSignalTime | ExitTime | OtherKey(name: string)

  datatype PyValue = Plain(scalar: Scalar) | Moment(time: int)

  type Dict = map<TradeKey, PyValue>

  /** The keys read back as moments; every other value keeps its JSON type. */
  const MOMENT_KEYS: set<TradeKey> := {OfFill(EntrySignalTime), OfFill(EntryTime), ExitSignalTime, ExitTime}

  function Written(codec: Codec, v: PyValue): Scalar {
    match v
    case Plain(s) => s
    case Moment(t) => Text(codec.render(t))
  }

  function SerializeTrade(codec: Codec, trade: Dict): map<TradeKey, Scalar> {
    map k | k in trade :: Written(codec, trade[k])
  }

  predicate Readable(codec: Codec, payload: map<TradeKey, Scalar>) {
    forall k :: k in payload && k in MOMENT_KEYS && Truthy(payload[k]) ==> codec.parse(payload[k]).Some?
  }

  function ReadValue(codec: Codec, key: TradeKey, s: Scalar): PyValue {
    if key in MOMENT_KEYS && Truthy(s) && codec.parse(s).Some? then Moment(codec.parse(s).value) else Plain(s)
  }

  /** None stands for the error an unreadable moment raises. */
  function DeserializeTrade(codec: Codec, payload: map<TradeKey, Scalar>): Option<Dict> {
    if !Readable(codec, payload) then None else Some(map k | k in payload :: ReadValue(codec, k, payload[k]))
  }

  predicate Survives(key: TradeKey, v: PyValue) {
    if v.Moment? then key in MOMENT_KEYS else key in MOMENT_KEYS ==> !Truthy(v.scalar)
  }

  /**
   A trade dictionary survives the round trip exactly when its moments sit under the four moment keys and nothing else
   truthy does: a moment under any other key comes back as text.
   */
  lemma TradeRoundTrip(codec: Codec, trade: Dict)
    requires IsIso(codec)
    ensures DeserializeTrade(codec, SerializeTrade(codec, trade)) == Some(trade)
            <==> forall k :: k in trade ==> Survives(k, trade[k])
  {
    var payload := SerializeTrade(codec, trade);
    var back := DeserializeTrade(codec, payload);
    if back == Some(trade) {
      forall k | k in trade
        ensures Survives(k, trade[k])
      {
        assert back.value[k] == ReadValue(codec, k, payload[k]);
      }
    }
    if forall k :: k in trade ==> Survives(k, trade[k]) {
      forall k | k in payload
        ensures ReadValue(codec, k, payload[k]) == trade[k]
                && (k in MOMENT_KEYS && Truthy(payload[k]) ==> codec.parse(payload[k]).Some?)
      {
        assert Survives(k, trade[k]);
        assert trade[k].Moment? ==> Renders(codec, trade[k].time);
      }
      assert (map k | k in payload :: ReadValue(codec, k, payload[k])) == trade;
    }
  }

  function OptionalNumber(x: Option<real>): Scalar {
    if x.Some? then Number(x.value) else Null
  }

  function NumberOf(s: Scalar): Option<real> {
    if s.Number? then Some(s.number) else None
  }

  function DirectionText(d: Direction): string {
    if d == ShortUmcLongCcf then "short_umc_long_ccf" else "long_umc_short_ccf"
  }

  function DirectionOf(s: Scalar): Option<Direction> {
    if s == Text("short_umc_long_ccf") then Some(ShortUmcLongCcf)
    else if s == Text("long_umc_short_ccf") then Some(LongUmcShortCcf)
    else None
  }

  function FillValue(t: OpenTrade, key: FillKey): PyValue {
    match key
    case EntrySignalIdx => Plain(Integer(t.signalIdx))
    case EntrySignalTime => if t.signalTime.Some? then Moment(t.signalTime.value) else Plain(Null)
    case EntrySignalZscore => Plain(OptionalNumber(t.signalZscore))
    case EntryIdx => Plain(Integer(t.entryIdx))
    case EntryTime => Moment(t.entryTime)
    case EntryDelayMinutes => Plain(Integer(t.delayMinutes))
    case EntryFillZscore => Plain(OptionalNumber(t.fillZscore))
    case TradeDirection => Plain(Text(DirectionText(t.direction)))
    case EntryUmcTwdFair => Plain(Number(t.entryUmc))
    case EntryCcfClose => Plain(Number(t.entryCcf))
    case UmcUnits => Plain(Number(t.position.umcUnits))
    case CcfUnits => Plain(Number(t.position.ccfUnits))
    case CcfContracts => Plain(Integer(t.position.ccfContracts))
    case RawCcfContracts => Plain(Number(t.rawCcfContracts))
    case LegNotional => Plain(Number(t.position.notional))
    case EntryUmcFee => Plain(Number(t.costs.umcFeeTwd))
    case EntryCcfFee => Plain(Number(t.costs.ccfFeeTwd))
    case EntryCcfTax => Plain(Number(t.costs.ccfTaxTwd))
    case EntryFee => Plain(Number(t.costs.totalFeeTwd))
    case TradeCcfSymbol => Plain(Text(t.ccfSymbol))
  }

  /** The dictionary an entry fill writes. */
  function TradeDict(t: OpenTrade): Dict {
    map key: FillKey | true :: OfFill(key) := FillValue(t, key)
  }

  function At(d: Dict, k: FillKey): PyValue {
    if OfFill(k) in d then d[OfFill(k)] else Plain(Null)
  }

  function RealAt(d: Dict, k: FillKey): real {
    var v := At(d, k);
    if v.Plain? && v.scalar.Number? then v.scalar.number else 0.0
  }

  function IntAt(d: Dict, k: FillKey): int {
    var v := At(d, k);
    if v.Plain? && v.scalar.Integer? then v.scalar.whole else 0
  }

  function MomentAt(d: Dict, k: FillKey): Option<int> {
    if At(d, k).Moment? then Some(At(d, k).time) else None
  }

  function NumberAt(d: Dict, k: FillKey): Option<real> {
    if At(d, k).Plain? then NumberOf(At(d, k).scalar) else None
  }

  /** The dictionary seen as the record the rest of the model works with. */
  function TradeOf(d: Dict): Option<OpenTrade> {
    var direction, symbol := At(d, TradeDirection), At(d, TradeCcfSymbol);
    if direction.Moment? || DirectionOf(direction.scalar).None? || MomentAt(d, EntryTime).None? || symbol.Moment?
      || !symbol.scalar.Text? then None
    else
      Some(OpenTrade(IntAt(d, EntrySignalIdx), MomentAt(d, EntrySignalTime), NumberAt(d, EntrySignalZscore),
                     IntAt(d, EntryIdx), MomentAt(d, EntryTime).value, IntAt(d, EntryDelayMinutes),
                     NumberAt(d, EntryFillZscore),
                     DirectionOf(direction.scalar).value, RealAt(d, EntryUmcTwdFair), RealAt(d, EntryCcfClose),
                     Position(RealAt(d, UmcUnits), RealAt(d, CcfUnits), IntAt(d, CcfContracts), RealAt(d, LegNotional)),
                     RealAt(d, RawCcfContracts),
                     Costs(RealAt(d, EntryUmcFee), RealAt(d, EntryCcfFee), RealAt(d, EntryCcfTax), RealAt(d, EntryFee)),
                     symbol.scalar.text))
  }

  lemma DictHolds(t: OpenTrade, k: FillKey)
    ensures At(TradeDict(t), k) == FillValue(t, k)
  {
    assert OfFill(k) in TradeDict(t);
  }

  lemma PricesKept(t: OpenTrade)
    ensures var d := TradeDict(t);
            && RealAt(d, EntryUmcTwdFair) == t.entryUmc
            && RealAt(d, EntryCcfClose) == t.entryCcf
            && RealAt(d, UmcUnits) == t.position.umcUnits
            && RealAt(d, CcfUnits) == t.position.ccfUnits
            && RealAt(d, RawCcfContracts) == t.rawCcfContracts
            && RealAt(d, LegNotional) == t.position.notional
  {
    hide TradeDict, At;
    DictHolds(t, EntryUmcTwdFair);
    DictHolds(t, EntryCcfClose);
    DictHolds(t, UmcUnits);
    DictHolds(t, CcfUnits);
    DictHolds(t, RawCcfContracts);
    DictHolds(t, LegNotional);
  }

  lemma CostsKept(t: OpenTrade)
    ensures var d := TradeDict(t);
            && RealAt(d, EntryUmcFee) == t.costs.umcFeeTwd
            && RealAt(d, EntryCcfFee) == t.costs.ccfFeeTwd
            && RealAt(d, EntryCcfTax) == t.costs.ccfTaxTwd
            && RealAt(d, EntryFee) == t.costs.totalFeeTwd
  {
    hide TradeDict, At;
    DictHolds(t, EntryUmcFee);
    DictHolds(t, EntryCcfFee);
    DictHolds(t, EntryCcfTax);
    DictHolds(t, EntryFee);
  }

  lemma IndexesKept(t: OpenTrade)
    ensures var d := TradeDict(t);
            && IntAt(d, EntrySignalIdx) == t.signalIdx
            && IntAt(d, EntryIdx) == t.entryIdx
            && IntAt(d, EntryDelayMinutes) == t.delayMinutes
            && IntAt(d, CcfContracts) == t.position.ccfContracts
  {
    hide TradeDict, At;
    DictHolds(t, EntrySignalIdx);
    DictHolds(t, EntryIdx);
    DictHolds(t, EntryDelayMinutes);
    DictHolds(t, CcfContracts);
  }

  lemma SignalKept(t: OpenTrade)
    ensures var d := TradeDict(t);
            && MomentAt(d, EntrySignalTime) == t.signalTime && MomentAt(d, EntryTime) == Some(t.entryTime)
            && NumberAt(d, EntrySignalZscore) == t.signalZscore && NumberAt(d, EntryFillZscore) == t.fillZscore
            && At(d, TradeCcfSymbol) == Plain(Text(t.ccfSymbol))
            && At(d, TradeDirection) == Plain(Text(DirectionText(t.direction)))
            && DirectionOf(Text(DirectionText(t.direction))) == Some(t.direction)
  {
    hide TradeDict, At;
    DictHolds(t, EntrySignalTime);
    DictHolds(t, EntryTime);
    DictHolds(t, EntrySignalZscore);
    DictHolds(t, EntryFillZscore);
    DictHolds(t, TradeCcfSymbol);
    DictHolds(t, TradeDirection);
  }

  lemma TradeDictKeepsTrade(t: OpenTrade)
    ensures TradeOf(TradeDict(t)) == Some(t)
  {
    hide TradeDict, At, RealAt, IntAt, MomentAt, NumberAt, DirectionOf, DirectionText;
    PricesKept(t);
    CostsKept(t);
    IndexesKept(t);
    SignalKept(t);
  }

  // ---------------------------------------------------------------- the state

  /** What a saved state is made of. Values JSON carries unchanged keep their type; names and moments become text. */
  datatype Payload = Payload(
    state: string,
    direction: Option<string>,
    candidateDirection: Option<string>,
    candidateIdx: int,
    candidateTime: Option<string>,
    candidateZscore: Option<real>,
    exitIdx: int,
    exitTime: Option<string>,
    exitZscore: Option<real>,
    entry: EntryMark,
    position: Position,
    realizedPnl: real,
    realizedFeeTwd: real,
    runningMaxEquity: real,
    openTrade: Option<map<TradeKey, Scalar>>,
    contract: ContractFields,
    pnlStatus: string
  )

  function StateText(s: StrategyState): string {
    match s
    case Flat => "flat"
    case EntryPending => "entry_pending"
    case Open => "open"
    case ExitPending => "exit_pending"
    case Paused => "paused"
    case Error => "error"
    case ForcedClosed => "forced_closed_end_of_data"
  }

  function StateOf(s: string): Option<StrategyState> {
    if s == "flat" then Some(Flat)
    else if s == "entry_pending" then Some(EntryPending)
    else if s == "open" then Some(Open)
    else if s == "exit_pending" then Some(ExitPending)
    else if s == "paused" then Some(Paused)
    else if s == "error" then Some(Error)
    else if s == "forced_closed_end_of_data" then Some(ForcedClosed)
    else None
  }

  lemma StateTextRoundTrip(s: StrategyState)
    ensures StateOf(StateText(s)) == Some(s)
  {
    match s {
      case EntryPending => assert StateText(s)[0] == 'e' && StateText(s)[1] == 'n';
      case _ =>
    }
  }

  function OptionalDirection(d: Option<Direction>): Option<string> {
    if d.Some? then Some(DirectionText(d.value)) else None
  }

  function OptionalMoment(codec: Codec, t: Option<int>): Option<string> {
    if t.Some? then Some(codec.render(t.value)) else None
  }

  /** None inside stands for an unknown name or an unreadable moment; empty text counts as absent. */
  function ReadDirection(text: Option<string>): Option<Option<Direction>> {
    if text.None? || text.value == "" then Some(None)
    else if DirectionOf(Text(text.value)).None? then None
    else Some(DirectionOf(Text(text.value)))
  }

  function ReadMoment(codec: Codec, text: Option<string>): Option<Option<int>> {
    if text.None? || text.value == "" then Some(None)
    else if codec.parse(Text(text.value)).None? then None
    else Some(codec.parse(Text(text.value)))
  }

  function ToJson(codec: Codec, st: RuntimeState): Payload {
    Payload(StateText(st.state), OptionalDirection(st.direction),
            OptionalDirection(st.candidate.direction), st.candidate.idx, OptionalMoment(codec, st.candidate.time),
            st.candidate.zscore,
            st.exitMark.idx, OptionalMoment(codec, st.exitMark.time), st.exitMark.zscore,
            st.entry, st.position, st.realizedPnl, st.realizedFeeTwd, st.runningMaxEquity,
            if st.openTrade.Some? then Some(SerializeTrade(codec, TradeDict(st.openTrade.value))) else None,
            st.contract, if st.pnlStatus == Complete then "complete" else "pending")
  }

  function ReadTrade(codec: Codec, payload: Option<map<TradeKey, Scalar>>): Option<Option<OpenTrade>> {
    if payload.None? then Some(None)
    else
      var dict := DeserializeTrade(codec, payload.value);
      if dict.None? || TradeOf(dict.value).None? then None else Some(TradeOf(dict.value))
  }

  /** None stands for the error a load raises. */
  function FromJson(codec: Codec, p: Payload): Option<RuntimeState> {
    var state, direction, candidate := StateOf(p.state), ReadDirection(p.direction),
    ReadDirection(p.candidateDirection);
    var signalled, leaving, trade := ReadMoment(codec, p.candidateTime), ReadMoment(codec, p.exitTime),
    ReadTrade(codec, p.openTrade);
    if state.None? || direction.None? || candidate.None? || signalled.None? || leaving.None? || trade.None? then None
    else
      Some(RuntimeState(state.value, direction.value,
                        Candidate(candidate.value, p.candidateIdx, signalled.value, p.candidateZscore),
                        ExitMark(p.exitIdx, leaving.value, p.exitZscore),
                        p.entry, p.position, p.realizedPnl, p.realizedFeeTwd, p.runningMaxEquity, trade.value,
                        p.contract,
                        if p.pnlStatus == "pending" then Pending else Complete))
  }

  lemma DirectionRoundTrip(d: Option<Direction>)
    ensures ReadDirection(OptionalDirection(d)) == Some(d)
  {
  }

  lemma MomentRoundTrip(codec: Codec, t: Option<int>)
    requires IsIso(codec)
    ensures ReadMoment(codec, OptionalMoment(codec, t)) == Some(t)
  {
    if t.Some? {
      var moment: int := t.value;
      assert Renders(codec, moment);
    }
  }

  lemma TradeLoaded(codec: Codec, trade: Option<OpenTrade>)
    requires IsIso(codec)
    ensures ReadTrade(codec, if trade.Some? then Some(SerializeTrade(codec, TradeDict(trade.value))) else None)
            == Some(trade)
  {
    hide TradeOf, SerializeTrade, DeserializeTrade;
    if trade.Some? {
      TradeDictKeepsTrade(trade.value);
      TradeRoundTrip(codec, TradeDict(trade.value));
    }
  }

  /** What the store saves is what the next process loads. */
  lemma StateRoundTrip(codec: Codec, st: RuntimeState)
    requires IsIso(codec)
    ensures FromJson(codec, ToJson(codec, st)) == Some(st)
  {
    hide StateOf, StateText, ReadDirection, OptionalDirection, ReadMoment, OptionalMoment, ReadTrade, TradeDict,
         SerializeTrade, IsIso;
    StateTextRoundTrip(st.state);
    DirectionRoundTrip(st.direction);
    DirectionRoundTrip(st.candidate.direction);
    MomentRoundTrip(codec, st.candidate.time);
    MomentRoundTrip(codec, st.exitMark.time);
    TradeLoaded(codec, st.openTrade);
  }
}
