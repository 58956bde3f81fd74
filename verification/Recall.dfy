/** Unwinding the CCF leg after a stock-loan recall shrank the UMC leg. */
module Recall {
  import opened Models

  datatype Response =
    | Nothing(kept: int)
    | Order(target: int, closeContracts: nat, closeSide: OrderSide, closesAll: bool)
    | Refuse(why: Refusal)

  datatype Refusal = NoUmcEntry | NotWhole | WouldGrow | WouldFlip

  function ExactHedge(entryCcf: int, entryUmc: real, remainingUmc: real): real
    requires entryUmc != 0.0
  {
    entryCcf as real * (remainingUmc / entryUmc)
  }

  /** Truncation toward zero. */
  function Truncated(x: real): int {
    if x >= 0.0 then x.Floor else -((-x).Floor)
  }

  /** Half away from zero. */
  function HedgeTarget(entryCcf: int, entryUmc: real, remainingUmc: real): int
    requires entryUmc != 0.0
  {
    var exact := ExactHedge(entryCcf, entryUmc, remainingUmc);
    Truncated(exact + if exact >= 0.0 then 0.5 else -0.5)
  }

  function IsWhole(x: real): bool {
    x == x.Floor as real
  }

  function Plan(entryCcf: int, entryUmc: real, observedCcf: real, observedUmc: real): Response {
    if entryUmc == 0.0 then Refuse(NoUmcEntry)
    else if observedCcf == 0.0 then Nothing(0)
    else if !IsWhole(observedCcf) then Refuse(NotWhole)
    else
      var held := observedCcf.Floor;
      var target := HedgeTarget(entryCcf, entryUmc, observedUmc);
      if AbsInt(target) > AbsInt(held) then Refuse(WouldGrow)
      else if target != 0 && (target > 0) != (held > 0) then Refuse(WouldFlip)
      else if AbsInt(held) == AbsInt(target) then Nothing(target)
      else Order(target, AbsInt(held) - AbsInt(target), if held > 0 then Sell else Buy, target == 0)
  }

  /** What the order leaves: a sell takes contracts away, a buy adds them back. */
  function AfterOrder(held: int, response: Response): int
    requires response.Order?
  {
    if response.closeSide == Sell then held - response.closeContracts else held + response.closeContracts
  }

  /** No whole number of contracts leaves a smaller residual than the target does. */
  lemma TargetIsNearest(entryCcf: int, entryUmc: real, remainingUmc: real, other: int)
    requires entryUmc != 0.0
    ensures var exact := ExactHedge(entryCcf, entryUmc, remainingUmc);
            Abs(exact - HedgeTarget(entryCcf, entryUmc, remainingUmc) as real) <= Abs(exact - other as real)
  {
    var exact := ExactHedge(entryCcf, entryUmc, remainingUmc);
    var target := HedgeTarget(entryCcf, entryUmc, remainingUmc);
    hide ExactHedge;
    assert Abs(exact - target as real) <= 0.5;
    if other > target {
      assert other as real >= target as real + 1.0;
    } else if other < target {
      assert other as real <= target as real - 1.0;
    }
  }

  /** An order only ever shrinks what is held, to exactly the target, without crossing zero. */
  lemma OrderReachesTarget(entryCcf: int, entryUmc: real, observedCcf: real, observedUmc: real)
    requires Plan(entryCcf, entryUmc, observedCcf, observedUmc).Order?
    ensures var r := Plan(entryCcf, entryUmc, observedCcf, observedUmc);
            var held := observedCcf.Floor;
            && observedCcf == held as real
            && r.target == HedgeTarget(entryCcf, entryUmc, observedUmc)
            && AfterOrder(held, r) == r.target
            && r.closeContracts > 0
            && (held > 0 ==> 0 <= r.target < held) && (held < 0 ==> held < r.target <= 0)
            && (r.closesAll <==> AfterOrder(held, r) == 0)
  {
    hide HedgeTarget;
  }

  /**
   When no unwind is planned: refused for an entry without UMC, a broken number of contracts, or a target that would
   need more of them or the other side; nothing to do when none are held or the remainder supports all of them.
   */
  lemma PlansExactlyWhen(entryCcf: int, entryUmc: real, observedCcf: real, observedUmc: real)
    ensures var r := Plan(entryCcf, entryUmc, observedCcf, observedUmc);
            && (r == Refuse(NoUmcEntry) <==> entryUmc == 0.0)
            && (entryUmc != 0.0 && observedCcf == 0.0 ==> r == Nothing(0))
            && (entryUmc != 0.0 && observedCcf != 0.0 ==>
                  var target := HedgeTarget(entryCcf, entryUmc, observedUmc) as real;
                  && (r == Refuse(NotWhole) <==> !IsWhole(observedCcf))
                  && (IsWhole(observedCcf) ==>
                        && (r == Refuse(WouldGrow) <==> Abs(target) > Abs(observedCcf))
                        && (r == Refuse(WouldFlip) <==>
                              Abs(target) <= Abs(observedCcf)
                              && ((target > 0.0 && observedCcf < 0.0) || (target < 0.0 && observedCcf > 0.0)))
                        && (r.Nothing? <==> target == observedCcf)
                        && (r.Order? <==>
                              (0.0 <= target < observedCcf) || (observedCcf < target <= 0.0))))
  {
    hide HedgeTarget;
    if entryUmc != 0.0 && IsWhole(observedCcf) {
      var held := observedCcf.Floor;
      assert observedCcf == held as real && (observedCcf != 0.0 ==> held != 0);
    }
  }

  lemma SharedSign(entryCcf: int, ratio: real)
    requires ratio >= 0.0
    ensures entryCcf >= 0 ==> entryCcf as real * ratio >= 0.0
    ensures entryCcf <= 0 ==> entryCcf as real * ratio <= 0.0
    ensures ratio <= 1.0 ==> Abs(entryCcf as real * ratio) <= Abs(entryCcf as real)
  {
    MulMonotone(0.0, Abs(entryCcf as real), ratio);
    if ratio <= 1.0 {
      MulMonotone(ratio, 1.0, Abs(entryCcf as real));
    }
  }

  /**
   A recall that only shrank the UMC leg never refuses while the entry's contracts are still held: the target keeps the
   sign of the held contracts and never exceeds them.
   */
  lemma ShrunkenLegIsPlannable(entryCcf: int, entryUmc: real, observedUmc: real)
    requires entryUmc != 0.0 && 0.0 <= observedUmc / entryUmc <= 1.0
    ensures !Plan(entryCcf, entryUmc, entryCcf as real, observedUmc).Refuse?
  {
    SharedSign(entryCcf, observedUmc / entryUmc);
    TargetBetween(entryCcf, entryUmc, observedUmc, ExactHedge(entryCcf, entryUmc, observedUmc),
                  HedgeTarget(entryCcf, entryUmc, observedUmc));
    hide ExactHedge, HedgeTarget;
    WholePlan(entryCcf, entryUmc, observedUmc);
  }

  /** Planning on a whole observation refuses only to grow or flip. */
  lemma WholePlan(held: int, entryUmc: real, observedUmc: real)
    requires entryUmc != 0.0
    requires var target := HedgeTarget(held, entryUmc, observedUmc);
             AbsInt(target) <= AbsInt(held) && (target > 0 ==> held > 0) && (target < 0 ==> held < 0)
    ensures !Plan(held, entryUmc, held as real, observedUmc).Refuse?
  {
    hide HedgeTarget;
    assert (held as real).Floor == held;
  }

  lemma TargetBetween(entryCcf: int, entryUmc: real, observedUmc: real, exact: real, target: int)
    requires entryUmc != 0.0 && exact == ExactHedge(entryCcf, entryUmc, observedUmc)
             && target == HedgeTarget(entryCcf, entryUmc, observedUmc)
    requires Abs(exact) <= Abs(entryCcf as real) && (entryCcf >= 0 ==> exact >= 0.0) && (entryCcf <= 0 ==> exact <= 0.0)
    ensures AbsInt(target) <= AbsInt(entryCcf) && (target > 0 ==> entryCcf > 0) && (target < 0 ==> entryCcf < 0)
  {
    hide ExactHedge;
  }

  // ---------------------------------------------------------------- a leg recalled piece by piece

  /** What is held once a plan's order, if it asks for one, has filled; None when the plan refuses. */
  function Answered(held: int, response: Response): Option<int> {
    match response
    case Nothing(_) => Some(held)
    case Refuse(_) => None
    case Order(_, _, _, _) => Some(AfterOrder(held, response))
  }

  /** The contracts held after every observed remainder of the UMC leg has been answered in turn, from the entry's. */
  function Unwound(entryCcf: int, entryUmc: real, seen: seq<real>): Option<int> {
    if seen == [] then Some(entryCcf)
    else
      match Unwound(entryCcf, entryUmc, seen[..|seen| - 1])
      case None => None
      case Some(held) => Answered(held, Plan(entryCcf, entryUmc, held as real, seen[|seen| - 1]))
  }

  /** The part of the entry's UMC leg that remains. */
  function Part(entryUmc: real, remaining: real): real
    requires entryUmc != 0.0
  {
    remaining / entryUmc
  }

  /** Recalls only take away: every observed remainder is a part of the one before it. */
  predicate Recalled(entryUmc: real, seen: seq<real>)
    requires entryUmc != 0.0
  {
    forall k {:trigger seen[k]} :: 0 <= k < |seen| ==>
      0.0 <= Part(entryUmc, seen[k]) <= (if k == 0 then 1.0 else Part(entryUmc, seen[k - 1]))
  }

  /** Rounding half away from zero keeps the order of magnitudes. */
  lemma TruncatesInOrder(x: real, y: real)
    requires 0.0 <= x <= y
    ensures 0 <= Truncated(x + 0.5) <= Truncated(y + 0.5)
    ensures Truncated(-y - 0.5) <= Truncated(-x - 0.5) <= 0
  {
  }

  /** The exact hedge is the entry's contracts times the part that remains. */
  lemma HedgeOfPart(entryCcf: int, entryUmc: real, remaining: real)
    requires entryUmc != 0.0
    ensures ExactHedge(entryCcf, entryUmc, remaining) == Mul(entryCcf as real, Part(entryUmc, remaining))
  {
  }

  lemma ScaledInOrder(c: real, small: real, large: real)
    requires 0.0 <= small <= large
    ensures c >= 0.0 ==> 0.0 <= Mul(c, small) <= Mul(c, large)
    ensures c <= 0.0 ==> Mul(c, large) <= Mul(c, small) <= 0.0
  {
    if c >= 0.0 {
      MulMonotone(small, large, c);
      MulMonotone(0.0, small, c);
    } else {
      MulMonotone(small, large, -c);
      MulMonotone(0.0, small, -c);
    }
  }

  /** A smaller remainder supports no more contracts, on the same side. */
  lemma TargetShrinks(entryCcf: int, entryUmc: real, less: real, more: real)
    requires entryUmc != 0.0 && 0.0 <= Part(entryUmc, less) <= Part(entryUmc, more)
    ensures var (small, large) := (HedgeTarget(entryCcf, entryUmc, less), HedgeTarget(entryCcf, entryUmc, more));
            && (entryCcf >= 0 ==> 0 <= small <= large) && (entryCcf <= 0 ==> large <= small <= 0)
  {
    HedgeOfPart(entryCcf, entryUmc, less);
    HedgeOfPart(entryCcf, entryUmc, more);
    ScaledInOrder(entryCcf as real, Part(entryUmc, less), Part(entryUmc, more));
    hide Part, Mul, ExactHedge, Truncated;
    var (x, y) := (ExactHedge(entryCcf, entryUmc, less), ExactHedge(entryCcf, entryUmc, more));
    if entryCcf >= 0 {
      TruncatesInOrder(x, y);
    } else {
      TruncatesInOrder(-x, -y);
    }
  }

  /** One observation answered: nothing held stays nothing, growth is refused, anything else lands on the target. */
  lemma AnswersWithTarget(entryCcf: int, entryUmc: real, held: int, remaining: real)
    requires entryUmc != 0.0
    requires var target := HedgeTarget(entryCcf, entryUmc, remaining);
             (held > 0 ==> target >= 0) && (held < 0 ==> target <= 0)
    ensures Answered(held, Plan(entryCcf, entryUmc, held as real, remaining))
         == if held == 0 then Some(0)
            else if AbsInt(HedgeTarget(entryCcf, entryUmc, remaining)) > AbsInt(held) then None
            else Some(HedgeTarget(entryCcf, entryUmc, remaining))
  {
    hide HedgeTarget;
    assert (held as real).Floor == held && IsWhole(held as real);
    if held != 0 && Plan(entryCcf, entryUmc, held as real, remaining).Order? {
      OrderReachesTarget(entryCcf, entryUmc, held as real, remaining);
    }
  }

  lemma RecalledBefore(entryUmc: real, seen: seq<real>)
    requires entryUmc != 0.0 && Recalled(entryUmc, seen) && |seen| > 1
    ensures Recalled(entryUmc, seen[..|seen| - 1])
    ensures 0.0 <= Part(entryUmc, seen[|seen| - 1]) <= Part(entryUmc, seen[|seen| - 2])
  {
    hide Part;
  }

  /**
   However a recall is spread over observations, the unwinds end on the contracts the last remainder supports, the same
   as one unwind for all of it, and none is refused.
   */
  lemma {:induction false} UnwindForgetsThePath(entryCcf: int, entryUmc: real, seen: seq<real>)
    requires entryUmc != 0.0 && Recalled(entryUmc, seen) && seen != []
    ensures Unwound(entryCcf, entryUmc, seen) == Some(HedgeTarget(entryCcf, entryUmc, seen[|seen| - 1]))
    ensures Unwound(entryCcf, entryUmc, seen) == Unwound(entryCcf, entryUmc, [seen[|seen| - 1]])
  {
    hide HedgeTarget, Plan, Answered, Part, Recalled;
    OneUnwind(entryCcf, entryUmc, seen);
    if |seen| > 1 {
      var (earlier, last) := (seen[..|seen| - 1], seen[|seen| - 1]);
      RecalledBefore(entryUmc, seen);
      UnwindForgetsThePath(entryCcf, entryUmc, earlier);
      TargetShrinks(entryCcf, entryUmc, last, earlier[|earlier| - 1]);
      AnswersWithTarget(entryCcf, entryUmc, HedgeTarget(entryCcf, entryUmc, earlier[|earlier| - 1]), last);
    } else {
      assert seen == [seen[0]];
    }
  }

  /** A remainder seen at once, in whatever steps it came about. */
  lemma OneUnwind(entryCcf: int, entryUmc: real, seen: seq<real>)
    requires entryUmc != 0.0 && Recalled(entryUmc, seen) && seen != []
    ensures var last := seen[|seen| - 1];
            Unwound(entryCcf, entryUmc, [last]) == Some(HedgeTarget(entryCcf, entryUmc, last))
  {
    hide HedgeTarget, Plan, Answered, Part;
    var last := seen[|seen| - 1];
    WithinEntry(entryUmc, seen, |seen| - 1);
    WholeTarget(entryCcf, entryUmc);
    TargetShrinks(entryCcf, entryUmc, last, entryUmc);
    AnswersWithTarget(entryCcf, entryUmc, entryCcf, last);
    assert [last][..0] == [];
  }

  lemma WholeTarget(entryCcf: int, entryUmc: real)
    requires entryUmc != 0.0
    ensures Part(entryUmc, entryUmc) == 1.0 && HedgeTarget(entryCcf, entryUmc, entryUmc) == entryCcf
  {
    var c := entryCcf as real;
    assert entryUmc / entryUmc == 1.0;
    assert ExactHedge(entryCcf, entryUmc, entryUmc) == c * 1.0 == c;
    assert (c + 0.5).Floor == entryCcf && (-c + 0.5).Floor == -entryCcf;
    hide ExactHedge;
  }

  lemma {:induction false} WithinEntry(entryUmc: real, seen: seq<real>, k: nat)
    requires entryUmc != 0.0 && Recalled(entryUmc, seen) && k < |seen|
    ensures 0.0 <= Part(entryUmc, seen[k]) <= 1.0
  {
    hide Part;
    if k > 0 {
      WithinEntry(entryUmc, seen, k - 1);
    }
  }

  /** After any recall one more observation is refused iff contracts are left and the new remainder supports more. */
  lemma NextRefusedExactlyWhen(entryCcf: int, entryUmc: real, seen: seq<real>, next: real)
    requires entryUmc != 0.0 && Recalled(entryUmc, seen) && seen != [] && Part(entryUmc, next) >= 0.0
    ensures var (left, wanted) := (HedgeTarget(entryCcf, entryUmc, seen[|seen| - 1]),
                                   HedgeTarget(entryCcf, entryUmc, next));
            && (Unwound(entryCcf, entryUmc, seen + [next]).None? <==> left != 0 && AbsInt(wanted) > AbsInt(left))
            && (Unwound(entryCcf, entryUmc, seen + [next]).Some? ==>
                  Unwound(entryCcf, entryUmc, seen + [next]) == Some(if left == 0 then 0 else wanted))
  {
    hide HedgeTarget, Plan, Answered, Part;
    UnwindForgetsThePath(entryCcf, entryUmc, seen);
    assert (seen + [next])[..|seen|] == seen;
    var last := seen[|seen| - 1];
    assert 0.0 <= Part(entryUmc, last);
    TargetShrinks(entryCcf, entryUmc, last, last);
    TargetShrinks(entryCcf, entryUmc, next, next);
    AnswersWithTarget(entryCcf, entryUmc, HedgeTarget(entryCcf, entryUmc, last), next);
  }
}
