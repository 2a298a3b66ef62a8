/** Unit bookkeeping of an army: how many units of each template it holds,
    the per-template instance numbers, and the limit of 99 units of one
    template. */
module UnitUtils {
  import opened Strings
  import opened Types

  const MaxUnitsPerType := 99
  const TooManyUnitsError := "Максимум 99 юнитов этого типа"

  /** `units.filter(u => u.data.id === unitId)`. */
  function UnitsOfType(units: seq<ArmyUnit>, unitId: string): (r: seq<ArmyUnit>)
    ensures |r| <= |units|
    ensures forall i :: 0 <= i < |r| ==> r[i].data.Id() == unitId
    ensures forall u :: u in units && u.data.Id() == unitId ==> u in r
  {
    if units == [] then []
    else
      var rest := UnitsOfType(units[..|units| - 1], unitId);
      var u := units[|units| - 1];
      assert forall v :: v in units ==> v in units[..|units| - 1] || v == u;
      if u.data.Id() == unitId then rest + [u] else rest
  }

  /** The number of units of one template. */
  function CountOf(units: seq<ArmyUnit>, unitId: string): nat
  {
    |UnitsOfType(units, unitId)|
  }

  /** A template occurs in the army iff it is counted. */
  lemma {:induction false} CountOfPositive(units: seq<ArmyUnit>, unitId: string)
    ensures CountOf(units, unitId) > 0 <==> exists i :: 0 <= i < |units| && units[i].data.Id() == unitId
  {
    if exists i :: 0 <= i < |units| && units[i].data.Id() == unitId {
      var i :| 0 <= i < |units| && units[i].data.Id() == unitId;
      assert units[i] in UnitsOfType(units, unitId);
    } else if CountOf(units, unitId) > 0 {
      var r := UnitsOfType(units, unitId);
      assert r[0].data.Id() == unitId;
      UnitsOfTypeFrom(units, unitId, r[0]);
    }
  }

  /** Every unit the filter keeps comes from the army. */
  lemma {:induction false} UnitsOfTypeFrom(units: seq<ArmyUnit>, unitId: string, u: ArmyUnit)
    requires u in UnitsOfType(units, unitId)
    ensures u in units
    decreases |units|
  {
    var rest := UnitsOfType(units[..|units| - 1], unitId);
    if u in rest {
      UnitsOfTypeFrom(units[..|units| - 1], unitId, u);
    }
  }

  /** Appending a unit counts it once, under its own template only. */
  lemma CountOfAppend(units: seq<ArmyUnit>, u: ArmyUnit, unitId: string)
    ensures CountOf(units + [u], unitId) == CountOf(units, unitId) + (if u.data.Id() == unitId then 1 else 0)
  {
    assert (units + [u])[..|units|] == units;
  }

  /** The counting map: one more for the template of each unit in turn. */
  function Increment(m: map<string, nat>, key: string): map<string, nat>
  {
    m[key := (if key in m then m[key] else 0) + 1]
  }

  function CountMap(units: seq<ArmyUnit>): map<string, nat>
  {
    if units == [] then map[]
    else Increment(CountMap(units[..|units| - 1]), units[|units| - 1].data.Id())
  }

  /** `countByUnitType`: folds the units into a map from template id to
      count, updating the accumulator in place. */
  method CountByUnitType(units: seq<ArmyUnit>) returns (counts: map<string, nat>)
    ensures counts == CountMap(units)
    ensures forall k :: k in counts <==> CountOf(units, k) > 0
    ensures forall k :: k in counts ==> counts[k] == CountOf(units, k)
    ensures MapSum(counts) == |units|
  {
    counts := map[];
    var i := 0;
    while i < |units|
      invariant 0 <= i <= |units|
      invariant counts == CountMap(units[..i])
    {
      var key := units[i].data.Id();
      assert units[..i + 1][..i] == units[..i];
      counts := counts[key := (if key in counts then counts[key] else 0) + 1];
      i := i + 1;
    }
    assert units[..i] == units;
    CountMapCounts(units);
    CountMapSum(units);
  }

  /** The map holds exactly the templates present, each with its count. */
  lemma {:induction false} CountMapCounts(units: seq<ArmyUnit>)
    ensures forall k :: k in CountMap(units) <==> CountOf(units, k) > 0
    ensures forall k :: k in CountMap(units) ==> CountMap(units)[k] == CountOf(units, k)
    decreases |units|
  {
    if units != [] {
      var init := units[..|units| - 1];
      var u := units[|units| - 1];
      assert init + [u] == units;
      CountMapCounts(init);
      forall k ensures CountOf(units, k) == CountOf(init, k) + (if u.data.Id() == k then 1 else 0) {
        CountOfAppend(init, u, k);
      }
    }
  }

  /** The sum of a map's values. */
  ghost function MapSum(m: map<string, nat>): nat
    decreases |m.Keys|
  {
    if m.Keys == {} then 0
    else
      var k :| k in m.Keys;
      m[k] + MapSum(m - {k})
  }

  /** The sum does not depend on which key is taken first. */
  lemma {:induction false} MapSumRemove(m: map<string, nat>, k: string)
    requires k in m
    ensures MapSum(m) == m[k] + MapSum(m - {k})
    decreases |m.Keys|
  {
    var j :| j in m.Keys && MapSum(m) == m[j] + MapSum(m - {j});
    if j != k {
      MapSumRemove(m - {j}, k);
      MapSumRemove(m - {k}, j);
      assert m - {j} - {k} == m - {k} - {j};
    }
  }

  lemma MapSumIncrement(m: map<string, nat>, key: string)
    ensures MapSum(Increment(m, key)) == MapSum(m) + 1
  {
    var n := Increment(m, key);
    MapSumRemove(n, key);
    if key in m {
      MapSumRemove(m, key);
      assert n - {key} == m - {key};
    } else {
      assert n - {key} == m;
    }
  }

  /** The counts add up to the number of units. */
  lemma {:induction false} CountMapSum(units: seq<ArmyUnit>)
    ensures MapSum(CountMap(units)) == |units|
    decreases |units|
  {
    if units == [] {
      assert CountMap(units).Keys == {};
    } else {
      CountMapSum(units[..|units| - 1]);
      MapSumIncrement(CountMap(units[..|units| - 1]), units[|units| - 1].data.Id());
    }
  }

  /** `getNextInstanceNumber`: one more than the units of that template. */
  function GetNextInstanceNumber(army: Army, unitId: string): (n: nat)
    ensures n >= 1
    ensures n == 1 <==> forall i :: 0 <= i < |army.units| ==> army.units[i].data.Id() != unitId
  {
    CountOfPositive(army.units, unitId);
    CountOf(army.units, unitId) + 1
  }

  /** Adding a unit of a template moves that template's next number on by
      one and leaves every other template's alone. */
  lemma NextNumberAfterAdd(army: Army, u: ArmyUnit, unitId: string)
    ensures GetNextInstanceNumber(army.(units := army.units + [u]), unitId)
            == GetNextInstanceNumber(army, unitId) + (if u.data.Id() == unitId then 1 else 0)
  {
    CountOfAppend(army.units, u, unitId);
  }

  /** `assignInstanceNumber`: the same unit with the number set. */
  function AssignInstanceNumber(unit: ArmyUnit, number: int): (r: ArmyUnit)
    ensures r.instanceNumber == Some(number)
    ensures r.(instanceNumber := unit.instanceNumber) == unit
  {
    unit.(instanceNumber := Some(number))
  }

  /** `canAddUnit`: fewer than 99 units of the template. */
  function CanAddUnit(army: Army, unitId: string): (b: bool)
    ensures b <==> GetNextInstanceNumber(army, unitId) <= MaxUnitsPerType
  {
    CountOf(army.units, unitId) < MaxUnitsPerType
  }

  /** Adding a unit that passes the check keeps the template within 99. */
  lemma AddKeepsLimit(army: Army, u: ArmyUnit)
    requires CanAddUnit(army, u.data.Id())
    ensures CountOf(army.units + [u], u.data.Id()) <= MaxUnitsPerType
  {
    CountOfAppend(army.units, u, u.data.Id());
  }

  datatype Validation = Valid | Invalid(error: string)

  /** `validateAddUnit`. */
  function ValidateAddUnit(army: Army, unitId: string): (v: Validation)
    ensures v.Valid? <==> CanAddUnit(army, unitId)
    ensures v.Invalid? ==> v.error == TooManyUnitsError
  {
    if CanAddUnit(army, unitId) then Valid else Invalid(TooManyUnitsError)
  }

  /** `formatUnitNumber`: "#n" for a set, non-zero number; otherwise the
      1-based fallback position when one is given; otherwise nothing. */
  function FormatUnitNumber(unit: ArmyUnit, fallbackIndex: Option<int>): (s: string)
    ensures s == "" <==> (unit.instanceNumber.None? || unit.instanceNumber.value == 0) && fallbackIndex.None?
    ensures s != "" ==> s[0] == '#'
    ensures unit.instanceNumber.Some? && unit.instanceNumber.value > 0 ==>
              AllDigits(s[1..]) && DecimalValue(s[1..]) == unit.instanceNumber.value
    ensures (unit.instanceNumber.None? || unit.instanceNumber.value == 0) && fallbackIndex.Some?
              && fallbackIndex.value >= 0 ==>
              AllDigits(s[1..]) && DecimalValue(s[1..]) == fallbackIndex.value + 1
  {
    if unit.instanceNumber.Some? && unit.instanceNumber.value != 0 then
      "#" + IntToString(unit.instanceNumber.value)
    else if fallbackIndex.Some? then
      "#" + IntToString(fallbackIndex.value + 1)
    else ""
  }

  /** `formatCountBadge`: no badge for 0, the count itself otherwise. */
  function FormatCountBadge(count: int): (r: Option<string>)
    ensures r.None? <==> count == 0
    ensures count > 0 ==> AllDigits(r.value) && DecimalValue(r.value) == count
    ensures count < 0 ==> |r.value| > 1 && r.value[0] == '-'
                          && AllDigits(r.value[1..]) && DecimalValue(r.value[1..]) == -count
  {
    if count == 0 then None else Some(IntToString(count))
  }
}
