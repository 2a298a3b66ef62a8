/** The domain records shared by the rules, the combat flow and the army
    screens. */
module Types {
  import opened Strings

  /** A faction id ('polaris', 'protectorate', 'mercenaries'); kept as text
      because the armlist editor and store accept any id. */
  type FactionId = string

  datatype Faction = Faction(
    id: FactionId, name: string, color: string, symbol: Option<string>,
    description: string, homeWorld: string, motto: string)

  datatype Soldier = Soldier(
    rank: int, speed: int, range: string, power: string, melee: int,
    props: seq<string>, armor: int, image: Option<string>)

  datatype Squad = Squad(
    id: string, name: string, faction: FactionId, cost: int,
    soldiers: seq<Soldier>, image: Option<string>, originalUrl: Option<string>)

  datatype SpeedSector = SpeedSector(minDurability: int, maxDurability: int, speed: int)

  /** A weapon's special rule: one of the three structured effects or free
      text that the fan edition parses. */
  datatype WeaponSpecial =
    | AoEEffect(radius: int, damage: string)
    | RepairEffect(amount: int, range: Option<int>)
    | BurstEffect(count: int, directions: seq<string>)
    | SpecialText(text: string)

  datatype Weapon = Weapon(name: string, range: string, power: string, special: Option<WeaponSpecial>)

  datatype Machine = Machine(
    id: string, name: string, faction: FactionId, cost: int, rank: int,
    fireRate: int, ammoMax: int, durabilityMax: int,
    speedSectors: seq<SpeedSector>, weapons: seq<Weapon>,
    image: Option<string>, originalUrl: Option<string>)

  /** A unit's template; its constructor is the unit's `type`. */
  datatype UnitData = SquadData(squad: Squad) | MachineData(machine: Machine)
  {
    function Id(): string { if SquadData? then squad.id else machine.id }
    function Name(): string { if SquadData? then squad.name else machine.name }
    function Cost(): int { if SquadData? then squad.cost else machine.cost }
    function Faction(): FactionId { if SquadData? then squad.faction else machine.faction }
  }

  datatype ActionFlags = ActionFlags(moved: bool, shot: bool, melee: bool, done: bool)

  const NoActions := ActionFlags(false, false, false, false)

  /** One unit of an army, with its state in the current game.  Absent
      optional flags read as false, an absent list as empty and an absent
      count as 0, the way the screens read them. */
  datatype ArmyUnit = ArmyUnit(
    instanceId: string,
    data: UnitData,
    instanceNumber: Option<int>,
    currentDurability: Option<int>,
    currentAmmo: Option<int>,
    grenadesUsed: bool,
    deadSoldiers: seq<int>,
    actionsUsed: seq<ActionFlags>,
    isMachineMoved: bool,
    isMachineShot: bool,
    isMachineMelee: bool,
    isMachineDone: bool,
    machineShotsUsed: int,
    machineWeaponShots: map<int, int>)

  datatype Army = Army(
    name: string, faction: FactionId, units: seq<ArmyUnit>, totalCost: int,
    pointBudget: Option<int>, currentTurn: Option<int>)

  datatype HitResult = HitResult(success: bool, roll: int, total: int, isGrenade: bool)

  datatype SpecialKind = AoE | Repair | Burst

  datatype SpecialResult = SpecialResult(
    kind: SpecialKind, description: string,
    additionalDamage: Option<int>, targets: Option<seq<string>>)

  datatype DamageResult = DamageResult(damage: int, rolls: seq<int>, special: Option<SpecialResult>)

  datatype Winner = Attacker | Defender | Draw

  datatype MeleeResult = MeleeResult(
    attackerRoll: int, attackerTotal: int,
    defenderRoll: int, defenderTotal: int, winner: Winner)

  datatype RulesVersionId = Tehnolog | Fan

  /** The descriptive part of a rules edition; its three calculations are
      dispatched on `id`. */
  datatype RulesVersion = RulesVersion(
    id: RulesVersionId, name: string, source: string, supportsSpecialEffects: bool)

  /** Cover of the target: 'none', 'light' or 'heavy'. */
  datatype Fortification = NoCover | Light | Heavy

  datatype FortificationModifiers = FortificationModifiers(armor: int, distance: int)

  function FortificationName(f: Fortification): string
  {
    match f
    case NoCover => "none"
    case Light => "light"
    case Heavy => "heavy"
  }

  function FortificationFromName(s: string): (r: Option<Fortification>)
    ensures r.Some? ==> FortificationName(r.value) == s
  {
    if s == "none" then Some(NoCover)
    else if s == "light" then Some(Light)
    else if s == "heavy" then Some(Heavy)
    else None
  }

  /** The three names are the only ones, and each names its own level. */
  lemma FortificationNamesRoundTrip(f: Fortification)
    ensures FortificationFromName(FortificationName(f)) == Some(f)
  {
  }

  /** The fortification modifier table. */
  function ModifiersOf(f: Fortification): FortificationModifiers
  {
    match f
    case NoCover => FortificationModifiers(0, 0)
    case Light => FortificationModifiers(1, 1)
    case Heavy => FortificationModifiers(2, 2)
  }

  /** The order none < light < heavy. */
  function CoverLevel(f: Fortification): nat
  {
    match f
    case NoCover => 0
    case Light => 1
    case Heavy => 2
  }

  /** Each level adds the same amount to armor and to distance: nothing
      without cover, 1 for light and 2 for heavy cover. */
  lemma ModifiersAgree(f: Fortification)
    ensures ModifiersOf(f).armor == ModifiersOf(f).distance == CoverLevel(f)
    ensures ModifiersOf(f).armor == 0 <==> f == NoCover
  {
  }

  /** More cover never lowers a modifier. */
  lemma ModifiersMonotone(f: Fortification, g: Fortification)
    requires CoverLevel(f) <= CoverLevel(g)
    ensures ModifiersOf(f).armor <= ModifiersOf(g).armor
    ensures ModifiersOf(f).distance <= ModifiersOf(g).distance
  {
  }
}
