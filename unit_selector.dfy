/** The squad picker of the quick army builder: the points spent and left,
    the faction's squads, the affordability test, the colour of the budget
    readout and the add button with its over-budget warning. */
module UnitSelector {
  import opened Strings
  import opened Types
  import ArmyBuilder

  /** `totalCost`: the sum of the units' costs. */
  function TotalCost(army: seq<ArmyUnit>): (total: int)
    ensures army == [] ==> total == 0
    ensures (forall i :: 0 <= i < |army| ==> army[i].data.Cost() >= 0) ==> total >= 0
  {
    if army == [] then 0
    else
      assert forall i :: 1 <= i < |army| ==> army[1..][i - 1] == army[i];
      army[0].data.Cost() + TotalCost(army[1..])
  }

  /** The running total of the army builder and this sum agree. */
  lemma {:induction false} TotalCostIsTally(army: seq<ArmyUnit>)
    ensures TotalCost(army) == ArmyBuilder.CostSum(army)
  {
    if army != [] {
      TotalCostIsTally(army[1..]);
    }
  }

  /** `remainingPoints`. */
  function RemainingPoints(budget: int, army: seq<ArmyUnit>): (r: int)
    ensures r + TotalCost(army) == budget
  {
    budget - TotalCost(army)
  }

  /** `availableSquads`: the squads of the selected faction, in order. */
  function AvailableSquads(squads: seq<Squad>, faction: FactionId): (r: seq<Squad>)
    ensures forall s :: s in r <==> s in squads && s.faction == faction
    ensures |r| <= |squads|
  {
    if squads == [] then []
    else
      var rest := AvailableSquads(squads[1..], faction);
      assert forall s :: s in squads <==> s == squads[0] || s in squads[1..];
      if squads[0].faction == faction then [squads[0]] + rest else rest
  }

  /** Selecting works piece by piece, so the faction's squads keep their
      order and their repetitions. */
  lemma {:induction false} AvailableSquadsConcat(a: seq<Squad>, b: seq<Squad>, faction: FactionId)
    ensures AvailableSquads(a + b, faction) == AvailableSquads(a, faction) + AvailableSquads(b, faction)
  {
    if a == [] {
      assert a + b == b;
    } else {
      assert (a + b)[0] == a[0] && (a + b)[1..] == a[1..] + b;
      AvailableSquadsConcat(a[1..], b, faction);
    }
  }

  /** `canAffordUnit`. */
  predicate CanAfford(cost: int, budget: int, army: seq<ArmyUnit>)
  {
    cost <= RemainingPoints(budget, army)
  }

  /** A squad is affordable exactly when adding it keeps the army within
      the budget. */
  lemma {:induction false} AffordableStaysWithinBudget(squad: Squad, stamp: int, budget: int, army: seq<ArmyUnit>)
    ensures CanAfford(squad.cost, budget, army) <==>
              TotalCost(army + [ArmyBuilder.NewUnit(SquadData(squad), stamp)]) <= budget
  {
    TotalCostAppend(army, ArmyBuilder.NewUnit(SquadData(squad), stamp));
  }

  lemma {:induction false} TotalCostAppend(army: seq<ArmyUnit>, u: ArmyUnit)
    ensures TotalCost(army + [u]) == TotalCost(army) + u.data.Cost()
  {
    if army != [] {
      assert (army + [u])[1..] == army[1..] + [u];
      TotalCostAppend(army[1..], u);
    }
  }

  datatype BudgetColor = Green | Yellow | Red

  /** `getBudgetColor`, on exact rationals: the share of the budget left,
      in percent, above 50 is green, from 20 up yellow, anything else red.
      A zero budget divides to +Infinity (green) when points are left, and
      to -Infinity or NaN (red) otherwise. */
  function GetBudgetColor(budget: int, remaining: int): BudgetColor
  {
    if budget == 0 then
      if remaining > 0 then Green else Red
    else
      var percentage := (remaining as real / budget as real) * 100.0;
      if percentage > 50.0 then Green
      else if percentage >= 20.0 then Yellow
      else Red
  }

  /** For a positive budget the thresholds read as integer comparisons:
      green iff remaining·100 > 50·budget, yellow iff it is not green and
      remaining·100 ≥ 20·budget. */
  lemma BudgetColorCross(budget: int, remaining: int)
    requires budget > 0
    ensures GetBudgetColor(budget, remaining) == Green <==> remaining * 100 > 50 * budget
    ensures GetBudgetColor(budget, remaining) == Yellow <==>
              remaining * 100 <= 50 * budget && remaining * 100 >= 20 * budget
    ensures GetBudgetColor(budget, remaining) == Red <==> remaining * 100 < 20 * budget
  {
    var b := budget as real;
    var p := (remaining as real / b) * 100.0;
    assert GetBudgetColor(budget, remaining) == if p > 50.0 then Green else if p >= 20.0 then Yellow else Red;
    PercentTimesBudget(remaining as real, b);
    assert p * b == (remaining * 100) as real;
    ScaledThreshold(p, b, remaining * 100, 50 * budget, 50.0);
    ScaledThreshold(p, b, remaining * 100, 20 * budget, 20.0);
  }

  /** A threshold on the percentage is a threshold on the scaled integers. */
  lemma ScaledThreshold(p: real, b: real, n: int, c: int, k: real)
    requires b > 0.0 && p * b == n as real && k * b == c as real
    ensures p > k <==> n > c
    ensures p >= k <==> n >= c
  {
    ScaleCompare(p, k, b);
  }

  /** The percentage times the budget is a hundred times the points left. */
  lemma PercentTimesBudget(x: real, b: real)
    requires b > 0.0
    ensures (x / b) * 100.0 * b == x * 100.0
  {
    assert (x / b) * b == x;
    assert (x / b) * 100.0 * b == ((x / b) * b) * 100.0;
  }

  /** Scaling by a positive factor keeps an order. */
  lemma ScaleCompare(x: real, c: real, b: real)
    requires b > 0.0
    ensures x > c <==> x * b > c * b
    ensures x >= c <==> x * b >= c * b
  {
    assert x * b - c * b == (x - c) * b;
  }

  /** For a positive budget, more points left never gives a worse colour. */
  lemma BudgetColorMonotone(budget: int, r1: int, r2: int)
    requires budget > 0 && r1 <= r2
    ensures GetBudgetColor(budget, r1) == Green ==> GetBudgetColor(budget, r2) == Green
    ensures GetBudgetColor(budget, r1) == Yellow ==> GetBudgetColor(budget, r2) != Red
  {
    BudgetColorCross(budget, r1);
    BudgetColorCross(budget, r2);
  }

  /** The "to battle" button is disabled iff the army is empty. */
  predicate ToBattleDisabled(army: seq<ArmyUnit>)
  {
    |army| == 0
  }

  /** Any added unit enables the button; clearing the army disables it. */
  lemma ToBattleAfterEdits(army: Army, data: UnitData, stamp: int)
    ensures !ToBattleDisabled(ArmyBuilder.AddUnit(army, data, stamp).units)
    ensures ToBattleDisabled(ArmyBuilder.ClearArmy(army).units)
  {
  }

  /** The selector's one piece of state: whether the over-budget warning
      is showing. */
  class Selector {
    var showWarning: bool

    constructor()
      ensures !showWarning
    {
      showWarning := false;
    }

    /** `handleAddUnit`: an affordable squad is handed on (`added`); any
        other raises the warning instead. */
    method HandleAddUnit(squad: Squad, budget: int, army: seq<ArmyUnit>) returns (added: bool)
      modifies this
      ensures added <==> CanAfford(squad.cost, budget, army)
      ensures showWarning == (old(showWarning) || !added)
    {
      if !CanAfford(squad.cost, budget, army) {
        showWarning := true;
        return false;
      }
      return true;
    }

    /** The warning's timer running out. */
    method HideWarning()
      modifies this
      ensures !showWarning
    {
      showWarning := false;
    }
  }
}
