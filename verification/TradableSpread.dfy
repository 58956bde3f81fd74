/** Executable spreads and their z-scores: what crossing the book in each direction would really be worth. */
module TradableSpread {
  import opened Models
  import opened StrategyModel
  import opened Indicator

  /** Times are seconds. bookMissing is the feed's flag that it carries no book. */
  datatype Quote = Quote(timestamp: real, price: real, bid: Option<real>, ask: Option<real>, bookMissing: bool)

  datatype QuoteSet = QuoteSet(ccf: Quote, umc: Quote, usdTwd: Quote)

  datatype Budgets = Budgets(staleSeconds: real, ccfBookStaleSeconds: real, usdTwdStaleSeconds: Option<real>) {
    function Fx(): real {
      if usdTwdStaleSeconds.Some? then usdTwdStaleSeconds.value else staleSeconds
    }
  }

  datatype BookSide = Bid | Ask

  datatype Missing = StaleUmc | StaleUsdTwd | StaleCcf | MissingBook

  datatype SpreadResult = Spread(value: real) | Absent(reason: Missing)

  predicate IsFresh(quote: Quote, observedAt: real, budget: real) {
    Abs(observedAt - quote.timestamp) <= budget
  }

  function BookPrice(quote: Quote, side: BookSide): Option<real> {
    if side == Bid then quote.bid else quote.ask
  }

  /** A symmetric percentage difference. Defined for prices that do not cancel; every positive pair qualifies. */
  function SpreadFromPrices(umcTwdFair: real, ccfPrice: real): real
    requires umcTwdFair + ccfPrice != 0.0
  {
    (umcTwdFair - ccfPrice) / (umcTwdFair + ccfPrice) * 200.0
  }

  /** Every price present is positive, which the feeds guarantee. */
  predicate Positive(quotes: QuoteSet) {
    && quotes.ccf.price > 0.0 && quotes.umc.price > 0.0 && quotes.usdTwd.price > 0.0
    && (quotes.ccf.bid.Some? ==> quotes.ccf.bid.value > 0.0) && (quotes.ccf.ask.Some? ==> quotes.ccf.ask.value > 0.0)
    && (quotes.umc.bid.Some? ==> quotes.umc.bid.value > 0.0) && (quotes.umc.ask.Some? ==> quotes.umc.ask.value > 0.0)
  }

  function UmcFair(umcPrice: real, usdTwd: real): real {
    umcPrice * usdTwd / 5.0
  }

  lemma UmcFairPositive(umcPrice: real, usdTwd: real)
    requires umcPrice > 0.0 && usdTwd > 0.0
    ensures UmcFair(umcPrice, usdTwd) > 0.0
  {
    assert umcPrice * usdTwd > 0.0;
  }

  /** CCF's own last price while fresh, otherwise the close the bar builder carries. */
  function MidCcfPrice(quotes: QuoteSet, observedAt: real, budgets: Budgets, lastCcfClose: Option<real>): Option<real> {
    if IsFresh(quotes.ccf, observedAt, budgets.staleSeconds) then Some(quotes.ccf.price) else lastCcfClose
  }

  function EstimateMidSpread(quotes: QuoteSet, observedAt: real, budgets: Budgets,
                             lastCcfClose: Option<real>): Option<real>
    requires Positive(quotes) && (lastCcfClose.Some? ==> lastCcfClose.value > 0.0)
  {
    var ccf := MidCcfPrice(quotes, observedAt, budgets, lastCcfClose);
    if !IsFresh(quotes.umc, observedAt, budgets.staleSeconds) || !IsFresh(quotes.usdTwd, observedAt, budgets.Fx())
      || ccf.None? then None
    else
      UmcFairPositive(quotes.umc.price, quotes.usdTwd.price);
      Some(SpreadFromPrices(UmcFair(quotes.umc.price, quotes.usdTwd.price), ccf.value))
  }

  function EstimateDirectionalSpread(quotes: QuoteSet, observedAt: real, budgets: Budgets, umcSide: BookSide,
                                     ccfSide: BookSide): SpreadResult
    requires Positive(quotes)
  {
    var umc, ccf := BookPrice(quotes.umc, umcSide), BookPrice(quotes.ccf, ccfSide);
    if !IsFresh(quotes.umc, observedAt, budgets.staleSeconds) then Absent(StaleUmc)
    else if !IsFresh(quotes.usdTwd, observedAt, budgets.Fx()) then Absent(StaleUsdTwd)
    else if quotes.ccf.bookMissing || !IsFresh(quotes.ccf, observedAt, budgets.ccfBookStaleSeconds)
    then Absent(StaleCcf)
    else if umc.None? || ccf.None? then Absent(MissingBook)
    else
      UmcFairPositive(umc.value, quotes.usdTwd.price);
      Spread(SpreadFromPrices(UmcFair(umc.value, quotes.usdTwd.price), ccf.value))
  }

  function AsOption(r: SpreadResult): Option<real> {
    match r
    case Spread(value) => Some(value)
    case Absent(_) => None
  }

  /** The z-score of a hypothetical spread against the engine's window as it stands. */
  ghost function EstimateZscore(engine: IndicatorEngine, spread: Option<real>): Option<real>
    requires engine.Valid()
    reads engine
  {
    if spread.None? then None
    else ZscoreAgainst(engine.sqrt, engine.window, |engine.values|, engine.total, engine.totalSq, spread.value)
  }

  datatype Snapshot = Snapshot(
    mid: Option<real>, midZ: Option<real>,
    short: Option<real>, shortZ: Option<real>,
    long: Option<real>, longZ: Option<real>,
    missing: Option<Missing>)

  ghost function EstimateTradableSpreads(quotes: QuoteSet, observedAt: real, engine: IndicatorEngine, budgets: Budgets,
                                         lastCcfClose: Option<real>): Snapshot
    requires engine.Valid() && Positive(quotes) && (lastCcfClose.Some? ==> lastCcfClose.value > 0.0)
    reads engine
  {
    var mid := EstimateMidSpread(quotes, observedAt, budgets, lastCcfClose);
    var short := EstimateDirectionalSpread(quotes, observedAt, budgets, Bid, Ask);
    var long := EstimateDirectionalSpread(quotes, observedAt, budgets, Ask, Bid);
    Snapshot(mid, EstimateZscore(engine, mid),
             AsOption(short), EstimateZscore(engine, AsOption(short)),
             AsOption(long), EstimateZscore(engine, AsOption(long)),
             if short.Absent? then Some(short.reason) else if long.Absent? then Some(long.reason) else None)
  }

  // ---------------------------------------------------------------- order of spreads

  lemma SpreadGap(u1: real, c1: real, u2: real, c2: real)
    requires u1 > 0.0 && c1 > 0.0 && u2 > 0.0 && c2 > 0.0
    ensures (u1 - c1) * (u2 + c2) - (u2 - c2) * (u1 + c1) == 2.0 * (Mul(u1, c2) - Mul(u2, c1))
  {
    assert (u1 - c1) * (u2 + c2) == u1 * u2 + u1 * c2 - c1 * u2 - c1 * c2;
    assert (u2 - c2) * (u1 + c1) == u2 * u1 + u2 * c1 - c2 * u1 - c2 * c1;
  }

  lemma RatioOrder(a: real, b: real, v: real, w: real)
    requires v > 0.0 && w > 0.0
    ensures a / v >= b / w <==> a * w >= b * v
  {
    var p, q := a / v, b / w;
    assert a == p * v && b == q * w;
    assert a * w == p * (v * w) && b * v == q * (v * w);
    var vw := v * w;
    assert vw > 0.0;
    assert p * vw - q * vw == (p - q) * vw;
    SignOfProduct(vw, p - q);
  }

  /** One spread is at least another exactly when the cross products of their prices are. */
  lemma SpreadOrder(u1: real, c1: real, u2: real, c2: real)
    requires u1 > 0.0 && c1 > 0.0 && u2 > 0.0 && c2 > 0.0
    ensures SpreadFromPrices(u1, c1) >= SpreadFromPrices(u2, c2) <==> Mul(u1, c2) >= Mul(u2, c1)
  {
    SpreadGap(u1, c1, u2, c2);
    RatioOrder(u1 - c1, u2 - c2, u1 + c1, u2 + c2);
  }

  lemma CrossMonotone(u1: real, c1: real, u2: real, c2: real)
    requires 0.0 < u2 <= u1 && 0.0 < c1 <= c2
    ensures Mul(u1, c2) >= Mul(u2, c1)
  {
    MulMonotone(u2, u1, c2);
    MulMonotone(c1, c2, u2);
    assert Mul(c1, u2) == Mul(u2, c1) && Mul(c2, u2) == Mul(u2, c2);
  }

  predicate Uncrossed(quote: Quote) {
    quote.bid.Some? && quote.ask.Some? && quote.bid.value <= quote.ask.value
  }

  /** The exact test for the documented ordering: each leg's mid price against the opposite corners of the two books. */
  predicate InsideCorners(quotes: QuoteSet, ccfMid: real)
    requires quotes.umc.bid.Some? && quotes.umc.ask.Some? && quotes.ccf.bid.Some? && quotes.ccf.ask.Some?
  {
    && Mul(quotes.umc.ask.value, ccfMid) >= Mul(quotes.umc.price, quotes.ccf.bid.value)
    && Mul(quotes.umc.price, quotes.ccf.ask.value) >= Mul(quotes.umc.bid.value, ccfMid)
  }

  lemma FairScales(u: real, v: real, c: real, d: real, usdTwd: real)
    requires usdTwd > 0.0
    ensures Mul(UmcFair(u, usdTwd), c) >= Mul(UmcFair(v, usdTwd), d) <==> Mul(u, c) >= Mul(v, d)
  {
    var k := usdTwd / 5.0;
    assert UmcFair(u, usdTwd) * c == u * c * k;
    assert UmcFair(v, usdTwd) * d == v * d * k;
    assert u * c * k - v * d * k == (u * c - v * d) * k;
    SignOfProduct(k, u * c - v * d);
  }

  lemma FairOrder(u: real, c: real, v: real, d: real, usdTwd: real)
    requires u > 0.0 && c > 0.0 && v > 0.0 && d > 0.0 && usdTwd > 0.0
    ensures UmcFair(u, usdTwd) > 0.0 && UmcFair(v, usdTwd) > 0.0
    ensures SpreadFromPrices(UmcFair(u, usdTwd), c) >= SpreadFromPrices(UmcFair(v, usdTwd), d)
            <==> Mul(u, d) >= Mul(v, c)
  {
    UmcFairPositive(u, usdTwd);
    UmcFairPositive(v, usdTwd);
    SpreadOrder(UmcFair(u, usdTwd), c, UmcFair(v, usdTwd), d);
    FairScales(u, v, d, c, usdTwd);
  }

  /** On uncrossed books the long spread is never below the short one. */
  lemma LongAboveShort(quotes: QuoteSet, observedAt: real, budgets: Budgets)
    requires Positive(quotes) && Uncrossed(quotes.umc) && Uncrossed(quotes.ccf)
    ensures var long := EstimateDirectionalSpread(quotes, observedAt, budgets, Ask, Bid);
            var short := EstimateDirectionalSpread(quotes, observedAt, budgets, Bid, Ask);
            && long.Spread? == short.Spread?
            && (long.Spread? ==> long.value >= short.value)
  {
    var umc, ccf := quotes.umc, quotes.ccf;
    hide Mul, UmcFair, SpreadFromPrices;
    CrossMonotone(umc.ask.value, ccf.bid.value, umc.bid.value, ccf.ask.value);
    FairOrder(umc.ask.value, ccf.bid.value, umc.bid.value, ccf.ask.value, quotes.usdTwd.price);
  }

  predicate InsideBooks(quotes: QuoteSet, ccfMid: real)
    requires Uncrossed(quotes.umc) && Uncrossed(quotes.ccf)
  {
    && quotes.umc.bid.value <= quotes.umc.price <= quotes.umc.ask.value
    && quotes.ccf.bid.value <= ccfMid <= quotes.ccf.ask.value
  }

  /** Prices inside their own books pass the corner test, so the ordering is then kept. */
  lemma InsideBooksSuffice(quotes: QuoteSet, ccfMid: real)
    requires Positive(quotes) && Uncrossed(quotes.umc) && Uncrossed(quotes.ccf)
    requires InsideBooks(quotes, ccfMid)
    ensures InsideCorners(quotes, ccfMid)
  {
    CrossMonotone(quotes.umc.ask.value, quotes.ccf.bid.value, quotes.umc.price, ccfMid);
    CrossMonotone(quotes.umc.price, ccfMid, quotes.umc.bid.value, quotes.ccf.ask.value);
  }

  /**
   The documented long >= mid >= short holds exactly when the mid prices pass the corner test, as prices inside their
   own books do.
   */
  lemma MidBetweenExactlyWhen(quotes: QuoteSet, observedAt: real, budgets: Budgets, lastCcfClose: Option<real>)
    requires Positive(quotes) && Uncrossed(quotes.umc) && Uncrossed(quotes.ccf)
    requires lastCcfClose.Some? ==> lastCcfClose.value > 0.0
    requires EstimateMidSpread(quotes, observedAt, budgets, lastCcfClose).Some?
    requires EstimateDirectionalSpread(quotes, observedAt, budgets, Ask, Bid).Spread?
    ensures var mid := EstimateMidSpread(quotes, observedAt, budgets, lastCcfClose).value;
            var long := EstimateDirectionalSpread(quotes, observedAt, budgets, Ask, Bid);
            var short := EstimateDirectionalSpread(quotes, observedAt, budgets, Bid, Ask);
            var ccfMid := MidCcfPrice(quotes, observedAt, budgets, lastCcfClose).value;
            && short.Spread?
            && (long.value >= mid >= short.value <==> InsideCorners(quotes, ccfMid))
            && (InsideBooks(quotes, ccfMid) ==> long.value >= mid >= short.value)
  {
    var umc, ccf := quotes.umc, quotes.ccf;
    var ccfMid := MidCcfPrice(quotes, observedAt, budgets, lastCcfClose).value;
    hide Mul, UmcFair, SpreadFromPrices;
    if InsideBooks(quotes, ccfMid) {
      InsideBooksSuffice(quotes, ccfMid);
    }
    FairOrder(umc.ask.value, ccf.bid.value, umc.price, ccfMid, quotes.usdTwd.price);
    FairOrder(umc.price, ccfMid, umc.bid.value, ccf.ask.value, quotes.usdTwd.price);
  }

  /** A last trade above its own ask is enough to break the ordering the README calls universal. */
  lemma MidCanEscape(budgets: Budgets)
    requires budgets.staleSeconds >= 0.0 && budgets.ccfBookStaleSeconds >= 0.0 && budgets.Fx() >= 0.0
    ensures var quotes := QuoteSet(Quote(0.0, 50.0, Some(49.0), Some(51.0), false),
                                   Quote(0.0, 9.0, Some(7.0), Some(8.0), false), Quote(0.0, 30.0, None, None, false));
            && Positive(quotes) && Uncrossed(quotes.umc) && Uncrossed(quotes.ccf)
            && var mid := EstimateMidSpread(quotes, 0.0, budgets, None);
               var long := EstimateDirectionalSpread(quotes, 0.0, budgets, Ask, Bid);
               mid.Some? && long.Spread? && mid.value > long.value
  {
    UmcFairPositive(9.0, 30.0);
    UmcFairPositive(8.0, 30.0);
    FairOrder(8.0, 49.0, 9.0, 50.0, 30.0);
    assert Mul(8.0, 50.0) < Mul(9.0, 49.0);
  }

  // ---------------------------------------------------------------- when there is a spread, and what it is worth

  /** A percentage difference of two TWD prices against their middle, UMC at five shares to the ADR. */
  predicate Measures(spread: real, umcUsd: real, usdTwd: real, ccf: real) {
    spread * (umcUsd * usdTwd + 5.0 * ccf) == 200.0 * (umcUsd * usdTwd - 5.0 * ccf)
  }

  lemma SpreadMeasures(umcUsd: real, usdTwd: real, ccf: real)
    requires umcUsd > 0.0 && usdTwd > 0.0 && ccf > 0.0
    ensures UmcFair(umcUsd, usdTwd) > 0.0
    ensures Measures(SpreadFromPrices(UmcFair(umcUsd, usdTwd), ccf), umcUsd, usdTwd, ccf)
  {
    UmcFairPositive(umcUsd, usdTwd);
    var (fair, product) := (UmcFair(umcUsd, usdTwd), umcUsd * usdTwd);
    assert product == 5.0 * fair;
    var (sum, gap) := (fair + ccf, fair - ccf);
    var ratio := gap / sum;
    assert ratio * sum == gap;
    assert ratio * 200.0 * (5.0 * sum) == 1000.0 * (ratio * sum);
    assert product + 5.0 * ccf == 5.0 * sum && product - 5.0 * ccf == 5.0 * gap;
  }

  /** A quote is in date at a moment. */
  predicate InDate(quote: Quote, at: real, budget: real) {
    -budget <= at - quote.timestamp <= budget
  }

  /**
   There is a mid spread exactly when UMC and USD/TWD are in date and CCF is, or a close is carried; it measures the
   trade prices, CCF's own while in date.
   */
  lemma MidExactlyWhen(quotes: QuoteSet, at: real, budgets: Budgets, lastCcfClose: Option<real>)
    requires Positive(quotes) && (lastCcfClose.Some? ==> lastCcfClose.value > 0.0)
    ensures var mid := EstimateMidSpread(quotes, at, budgets, lastCcfClose);
            var own := InDate(quotes.ccf, at, budgets.staleSeconds);
            && (mid.Some? <==>
                  InDate(quotes.umc, at, budgets.staleSeconds) && InDate(quotes.usdTwd, at, budgets.Fx())
                  && (own || lastCcfClose.Some?))
            && (mid.Some? ==>
                  Measures(mid.value, quotes.umc.price, quotes.usdTwd.price,
                           if own then quotes.ccf.price else lastCcfClose.value))
  {
    SpreadMeasures(quotes.umc.price, quotes.usdTwd.price, quotes.ccf.price);
    if lastCcfClose.Some? {
      SpreadMeasures(quotes.umc.price, quotes.usdTwd.price, lastCcfClose.value);
    }
    hide SpreadFromPrices, UmcFair, Measures;
  }

  /**
   Crossing the books is worth something exactly when UMC and USD/TWD are in date, CCF's book is too and is not flagged
   missing, and both sides to be crossed are quoted; the reason given is the first of these that fails.
   */
  lemma DirectionalExactlyWhen(quotes: QuoteSet, at: real, budgets: Budgets, umcSide: BookSide, ccfSide: BookSide)
    requires Positive(quotes)
    ensures var (r, umc, ccf) := (EstimateDirectionalSpread(quotes, at, budgets, umcSide, ccfSide),
                                  if umcSide == Bid then quotes.umc.bid else quotes.umc.ask,
                                  if ccfSide == Bid then quotes.ccf.bid else quotes.ccf.ask);
            var (umcIn, fxIn, ccfIn) := (InDate(quotes.umc, at, budgets.staleSeconds),
                                         InDate(quotes.usdTwd, at, budgets.Fx()),
                                         InDate(quotes.ccf, at, budgets.ccfBookStaleSeconds)
                                         && !quotes.ccf.bookMissing);
            && (r.Spread? <==> umcIn && fxIn && ccfIn && umc.Some? && ccf.Some?)
            && (r.Spread? ==> Measures(r.value, umc.value, quotes.usdTwd.price, ccf.value))
            && (r == Absent(StaleUmc) <==> !umcIn)
            && (r == Absent(StaleUsdTwd) <==> umcIn && !fxIn)
            && (r == Absent(StaleCcf) <==> umcIn && fxIn && !ccfIn)
            && (r == Absent(MissingBook) <==> umcIn && fxIn && ccfIn && (umc.None? || ccf.None?))
  {
    var (umc, ccf) := (BookPrice(quotes.umc, umcSide), BookPrice(quotes.ccf, ccfSide));
    if umc.Some? && ccf.Some? {
      SpreadMeasures(umc.value, quotes.usdTwd.price, ccf.value);
    }
    hide SpreadFromPrices, UmcFair, Measures;
  }

  // ---------------------------------------------------------------- order of z-scores

  lemma QuotientMonotone(a: real, b: real, v: real)
    requires v > 0.0 && a <= b
    ensures a / v <= b / v
  {
    hide Mul;
    MulOfRatio(a, v);
    MulOfRatio(b, v);
    MulCancels(a / v, b / v, v);
  }

  /** One window scores every spread on the same scale: either all are scored or none, and order is kept. */
  lemma ZscoreKeepsOrder(sqrt: RealFunction, window: nat, count: nat, total: real, totalSq: real, low: real, high: real)
    requires window > 0 && IsSquareRoot(sqrt) && low <= high
    ensures var (l, h) := (ZscoreAgainst(sqrt, window, count, total, totalSq, low),
                           ZscoreAgainst(sqrt, window, count, total, totalSq, high));
            && l.Some? == h.Some?
            && (l.Some? ==> l.value <= h.value)
  {
    var std := sqrt(Max(VarianceOf(window, total, totalSq), 0.0));
    assert std >= 0.0;
    if std > 0.0 {
      QuotientMonotone(low - MeanOf(window, total), high - MeanOf(window, total), std);
    }
  }

  /**
   Short entry wants the short z-score above +entryZ, long entry wants the long one below -entryZ. From one indicator,
   on uncrossed books and with entryZ not negative, at most one of them can ever ask to enter.
   */
  lemma EntriesExclude(quotes: QuoteSet, observedAt: real, engine: IndicatorEngine, budgets: Budgets,
                       lastCcfClose: Option<real>, entryZ: real)
    requires engine.Valid() && Positive(quotes) && Uncrossed(quotes.umc) && Uncrossed(quotes.ccf) && entryZ >= 0.0
    requires lastCcfClose.Some? ==> lastCcfClose.value > 0.0
    ensures var s := EstimateTradableSpreads(quotes, observedAt, engine, budgets, lastCcfClose);
            && s.shortZ.Some? == s.longZ.Some?
            && (s.shortZ.Some? ==> s.longZ.value >= s.shortZ.value)
            && !(s.shortZ.Some? && s.longZ.Some? && s.shortZ.value > entryZ && s.longZ.value < -entryZ)
  {
    hide EstimateDirectionalSpread, ZscoreAgainst, IsSquareRoot;
    LongAboveShort(quotes, observedAt, budgets);
    var short := EstimateDirectionalSpread(quotes, observedAt, budgets, Bid, Ask);
    var long := EstimateDirectionalSpread(quotes, observedAt, budgets, Ask, Bid);
    if short.Spread? {
      ZscoreKeepsOrder(engine.sqrt, engine.window, |engine.values|, engine.total, engine.totalSq, short.value,
                       long.value);
    }
  }

  /** Scoring the newest spread against the window it just entered gives the score the update itself reported. */
  lemma EstimateAgrees(engine: IndicatorEngine, earlier: seq<real>, bar: MarketBar)
    requires engine.Valid() && engine.history == earlier + [bar.spread]
    ensures EstimateZscore(engine, Some(bar.spread)) == Observed(engine.sqrt, engine.window, engine.history, bar).zscore
  {
    FromTotals(engine.sqrt, engine.window, engine.history, bar);
  }
}
