/** The position a pair of filled orders is worth, taken from the fills and not from the plan. */
module ExecutedPosition {
  import opened Models
  import opened Sizing

  datatype Failure =
    | MissingUmcFill | MissingCcfFill | NetIsZero | NotWholeLots | WrongSides | BadMultiplier | NoQuantity | BadPrice

  datatype SizingResult = Sized(sizing: PositionSizing) | Unsized(error: Failure)

  datatype PriceResult = Priced(price: real) | Unpriced(error: Failure)

  const RELATIVE_TOLERANCE := 0.000000001
  const LOT_TOLERANCE := 0.000000001
  const ZERO_TOLERANCE := 0.000000000001

  predicate IsClose(a: real, b: real, absolute: real) {
    a == b || Abs(a - b) <= Max(RELATIVE_TOLERANCE * Max(Abs(a), Abs(b)), absolute)
  }

  /** Nearest integer, ties to even. */
  function Round(x: real): (n: int)
    ensures Abs(x - n as real) <= 0.5
    ensures x == x.Floor as real ==> n as real == x
  {
    var rest := x - x.Floor as real;
    if rest < 0.5 || (rest == 0.5 && x.Floor % 2 == 0) then x.Floor else x.Floor + 1
  }

  function Matching(fills: seq<Fill>, broker: BrokerName, symbol: string): seq<Fill> {
    if fills == [] then []
    else (if fills[0].On(broker, symbol) then [fills[0]] else []) + Matching(fills[1..], broker, symbol)
  }

  function TotalQuantity(rows: seq<Fill>): real {
    if rows == [] then 0.0 else TotalQuantity(rows[..|rows| - 1]) + Abs(rows[|rows| - 1].quantity)
  }

  function TotalValue(rows: seq<Fill>): real {
    if rows == [] then 0.0
    else TotalValue(rows[..|rows| - 1]) + Mul(rows[|rows| - 1].price, Abs(rows[|rows| - 1].quantity))
  }

  predicate PricesPositive(rows: seq<Fill>) {
    forall f :: f in rows ==> f.price > 0.0
  }

  function VolumeWeighted(rows: seq<Fill>): PriceResult {
    if TotalQuantity(rows) <= 0.0 then Unpriced(NoQuantity)
    else if !PricesPositive(rows) then Unpriced(BadPrice)
    else Priced(TotalValue(rows) / TotalQuantity(rows))
  }

  method VolumeWeightedPrice(rows: seq<Fill>) returns (result: PriceResult)
    ensures result == VolumeWeighted(rows)
  {
    hide Mul, Abs;
    var total := 0.0;
    for i := 0 to |rows|
      invariant total == TotalQuantity(rows[..i])
    {
      assert rows[..i + 1][..i] == rows[..i];
      total := total + Abs(rows[i].quantity);
    }
    assert rows[..|rows|] == rows;
    if total <= 0.0 {
      return Unpriced(NoQuantity);
    }
    var weighted := 0.0;
    for i := 0 to |rows|
      invariant weighted == TotalValue(rows[..i]) && PricesPositive(rows[..i])
    {
      assert rows[..i + 1][..i] == rows[..i];
      if rows[i].price <= 0.0 {
        assert rows[i] in rows;
        return Unpriced(BadPrice);
      }
      weighted := weighted + Mul(rows[i].price, Abs(rows[i].quantity));
    }
    result := Priced(weighted / total);
  }

  function SizingFromFills(direction: Direction, fills: seq<Fill>, umcSymbol: string, ccfSymbol: string,
                           multiplier: real): SizingResult {
    var umcRows, ccfRows := Matching(fills, IbkrUmc, umcSymbol), Matching(fills, FubonCcf, ccfSymbol);
    var umcUnits, rawContracts := SignedQuantity(fills, IbkrUmc, umcSymbol), SignedQuantity(fills, FubonCcf, ccfSymbol);
    var contracts := Round(rawContracts);
    if umcRows == [] then Unsized(MissingUmcFill)
    else if ccfRows == [] then Unsized(MissingCcfFill)
    else if IsClose(umcUnits, 0.0, ZERO_TOLERANCE) || IsClose(rawContracts, 0.0, ZERO_TOLERANCE) then Unsized(NetIsZero)
    else if !IsClose(rawContracts, contracts as real, LOT_TOLERANCE) then Unsized(NotWholeLots)
    else if !DirectionSigns(direction, umcUnits, contracts) then Unsized(WrongSides)
    else if multiplier <= 0.0 then Unsized(BadMultiplier)
    else
      match VolumeWeighted(ccfRows)
      case Unpriced(error) => Unsized(error)
      case Priced(price) =>
        Sized(PositionSizing(umcUnits, contracts as real * multiplier, contracts, Abs(rawContracts),
                             AbsInt(contracts) as real * multiplier * price))
  }

  function SumSigned(rows: seq<Fill>): real {
    if rows == [] then 0.0 else SumSigned(rows[..|rows| - 1]) + rows[|rows| - 1].Signed()
  }

  method SignedTotal(rows: seq<Fill>) returns (quantity: real)
    ensures quantity == SumSigned(rows)
  {
    quantity := 0.0;
    for i := 0 to |rows|
      invariant quantity == SumSigned(rows[..i])
    {
      assert rows[..i + 1][..i] == rows[..i];
      quantity := quantity + rows[i].Signed();
    }
    assert rows[..|rows|] == rows;
  }

  method PositionSizingFromFills(direction: Direction, fills: seq<Fill>, umcSymbol: string, ccfSymbol: string,
                                 multiplier: real)
    returns (result: SizingResult)
    ensures result == SizingFromFills(direction, fills, umcSymbol, ccfSymbol, multiplier)
  {
    hide IsClose, Round, Matching, SignedQuantity, DirectionSigns, VolumeWeighted, SumSigned, Abs;
    var umcRows, ccfRows := Matching(fills, IbkrUmc, umcSymbol), Matching(fills, FubonCcf, ccfSymbol);
    if umcRows == [] {
      return Unsized(MissingUmcFill);
    }
    if ccfRows == [] {
      return Unsized(MissingCcfFill);
    }
    MatchingSum(fills, IbkrUmc, umcSymbol);
    MatchingSum(fills, FubonCcf, ccfSymbol);
    var umcUnits := SignedTotal(umcRows);
    if IsClose(umcUnits, 0.0, ZERO_TOLERANCE) {
      return Unsized(NetIsZero);
    }
    var rawContracts := SignedTotal(ccfRows);
    if IsClose(rawContracts, 0.0, ZERO_TOLERANCE) {
      return Unsized(NetIsZero);
    }
    var contracts := Round(rawContracts);
    if !IsClose(rawContracts, contracts as real, LOT_TOLERANCE) {
      return Unsized(NotWholeLots);
    }
    if !DirectionSigns(direction, umcUnits, contracts) {
      return Unsized(WrongSides);
    }
    if multiplier <= 0.0 {
      return Unsized(BadMultiplier);
    }
    var priced := VolumeWeightedPrice(ccfRows);
    if priced.Unpriced? {
      return Unsized(priced.error);
    }
    result := Sized(PositionSizing(umcUnits, contracts as real * multiplier, contracts, Abs(rawContracts),
                                   AbsInt(contracts) as real * multiplier * priced.price));
  }

  lemma {:induction false} SumSignedPrepend(f: Fill, rows: seq<Fill>)
    ensures SumSigned([f] + rows) == f.Signed() + SumSigned(rows)
  {
    if rows == [] {
      assert [f] + rows == [f] && [f][..0] == [];
    } else {
      var n := |rows| - 1;
      assert ([f] + rows)[..n + 1] == [f] + rows[..n];
      SumSignedPrepend(f, rows[..n]);
    }
  }

  lemma {:induction false} MatchingSum(fills: seq<Fill>, broker: BrokerName, symbol: string)
    ensures SumSigned(Matching(fills, broker, symbol)) == SignedQuantity(fills, broker, symbol)
  {
    if fills != [] {
      MatchingSum(fills[1..], broker, symbol);
      var rest := Matching(fills[1..], broker, symbol);
      assert [] + rest == rest;
      if fills[0].On(broker, symbol) {
        SumSignedPrepend(fills[0], rest);
      }
    }
  }

  lemma {:induction false} MatchingMembers(fills: seq<Fill>, broker: BrokerName, symbol: string)
    ensures forall f :: f in Matching(fills, broker, symbol) <==> f in fills && f.On(broker, symbol)
  {
    if fills != [] {
      MatchingMembers(fills[1..], broker, symbol);
      assert fills == [fills[0]] + fills[1..];
    }
  }

  /** The net is bounded by the gross, so a non-zero net always leaves something to weigh a price by. */
  lemma {:induction false} NetWithinGross(rows: seq<Fill>)
    ensures Abs(SumSigned(rows)) <= TotalQuantity(rows)
  {
    if rows != [] {
      NetWithinGross(rows[..|rows| - 1]);
    }
  }

  lemma {:induction false} ValueWithin(rows: seq<Fill>, low: real, high: real)
    requires forall f :: f in rows ==> low <= f.price <= high
    ensures Mul(low, TotalQuantity(rows)) <= TotalValue(rows) <= Mul(high, TotalQuantity(rows))
  {
    hide Mul, Abs;
    if rows == [] {
      NothingWeighed(low);
      NothingWeighed(high);
    } else {
      var front, last := rows[..|rows| - 1], rows[|rows| - 1];
      ValueWithin(front, low, high);
      OneMoreFill(low, last.price, high, TotalQuantity(front), last.quantity);
    }
  }

  lemma NothingWeighed(x: real)
    ensures Mul(x, 0.0) == 0.0
  {
  }

  lemma OneMoreFill(low: real, price: real, high: real, weight: real, quantity: real)
    requires low <= price <= high
    ensures Mul(low, weight + Abs(quantity)) <= Mul(low, weight) + Mul(price, Abs(quantity))
    ensures Mul(high, weight) + Mul(price, Abs(quantity)) <= Mul(high, weight + Abs(quantity))
  {
    hide Mul;
    MulAdds(low, weight, Abs(quantity));
    MulAdds(high, weight, Abs(quantity));
    MulMonotone(low, price, Abs(quantity));
    MulMonotone(price, high, Abs(quantity));
  }

  /** The volume-weighted price lies among the fill prices. */
  lemma PriceAmongFills(rows: seq<Fill>, low: real, high: real)
    requires VolumeWeighted(rows).Priced? && forall f :: f in rows ==> low <= f.price <= high
    ensures low <= VolumeWeighted(rows).price <= high
  {
    ValueWithin(rows, low, high);
    hide Mul, PricesPositive;
    var value, weight := TotalValue(rows), TotalQuantity(rows);
    MulOfRatio(value, weight);
    MulCancels(low, value / weight, weight);
    MulCancels(value / weight, high, weight);
  }

  /**
   Fills make a position exactly when both legs traded a net amount above rounding dust, CCF in whole lots, on the sides
   the direction asks for, at positive CCF prices. The empty-quantity refusal can then never be the reason.
   */
  lemma SizedExactlyWhen(direction: Direction, fills: seq<Fill>, umcSymbol: string, ccfSymbol: string, multiplier: real)
    requires multiplier > 0.0
    ensures var umc, ccf := SignedQuantity(fills, IbkrUmc, umcSymbol), SignedQuantity(fills, FubonCcf, ccfSymbol);
            var result := SizingFromFills(direction, fills, umcSymbol, ccfSymbol, multiplier);
            && (result.Sized? <==>
                  && Abs(umc) > ZERO_TOLERANCE
                  && IsClose(ccf, Round(ccf) as real, LOT_TOLERANCE)
                  && DirectionSigns(direction, umc, Round(ccf))
                  && forall f :: f in fills && f.On(FubonCcf, ccfSymbol) ==> f.price > 0.0)
            && (result.Unsized? ==> result.error != NoQuantity)
            && (result.Sized? ==> result.sizing.umcUnits == umc && result.sizing.ccfContracts == Round(ccf))
  {
    MatchingSum(fills, IbkrUmc, umcSymbol);
    MatchingSum(fills, FubonCcf, ccfSymbol);
    MatchingMembers(fills, FubonCcf, ccfSymbol);
    NetWithinGross(Matching(fills, FubonCcf, ccfSymbol));
  }

  /** What such a position is worth: its lots in units, and those at the volume-weighted CCF price. */
  lemma SizedWorth(direction: Direction, fills: seq<Fill>, umcSymbol: string, ccfSymbol: string, multiplier: real)
    requires SizingFromFills(direction, fills, umcSymbol, ccfSymbol, multiplier).Sized?
    ensures var s := SizingFromFills(direction, fills, umcSymbol, ccfSymbol, multiplier).sizing;
            var rows := Matching(fills, FubonCcf, ccfSymbol);
            && s.ccfUnits == s.ccfContracts as real * multiplier
            && s.rawCcfContracts == Abs(SignedQuantity(fills, FubonCcf, ccfSymbol))
            && TotalQuantity(rows) > 0.0
            && Mul(s.actualLegNotionalTwd, TotalQuantity(rows)) == Mul(Abs(s.ccfUnits), TotalValue(rows))
  {
    hide IsClose, Round, Matching, SignedQuantity, DirectionSigns, TotalQuantity, TotalValue, PricesPositive;
    var s := SizingFromFills(direction, fills, umcSymbol, ccfSymbol, multiplier).sizing;
    var rows := Matching(fills, FubonCcf, ccfSymbol);
    WorthAtAverage(AbsInt(s.ccfContracts), multiplier, TotalValue(rows), TotalQuantity(rows));
    if s.ccfContracts < 0 {
      assert -(s.ccfContracts as real) * multiplier == -(s.ccfContracts as real * multiplier);
    }
    LotsInUnits(s.ccfContracts, multiplier);
  }

  lemma LotsInUnits(contracts: int, multiplier: real)
    requires multiplier > 0.0
    ensures Abs(contracts as real * multiplier) == AbsInt(contracts) as real * multiplier
  {
  }

  lemma WorthAtAverage(lots: nat, multiplier: real, value: real, quantity: real)
    requires quantity > 0.0
    ensures Mul(lots as real * multiplier * (value / quantity), quantity) == Mul(lots as real * multiplier, value)
  {
    assert value / quantity * quantity == value;
  }

  lemma WholeLotsAreClose(n: int)
    ensures Round(n as real) == n && IsClose(n as real, n as real, LOT_TOLERANCE)
  {
    assert (n as real).Floor == n;
  }
}
