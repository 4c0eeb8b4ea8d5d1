/** The battle as the aggressive-combat AI sees it: units, their items, and the
    engine queries (geometry, pathfinding, time-unit costs) it consumes.
    Every engine query is an uninterpreted total function carried in `Oracles`;
    units are referred to by their index in `World.units`, the battle's unit list. */
module Battle {

  datatype Option<T> = None | Some(value: T)

  /** A map cell (x, y, level), or a voxel coordinate after `Voxel`. */
  datatype Position = Position(x: int, y: int, z: int) {
    function Plus(d: Position): Position {
      Position(x + d.x, y + d.y, z + d.z)
    }
  }

  /** Centre voxel of a cell: a cell is 16 by 16 voxels wide and 24 voxels high. */
  function Voxel(p: Position): Position {
    Position(p.x * 16 + 8, p.y * 16 + 8, p.z * 24 + 12)
  }

  /** What `calculateLine` reports when the first thing the line strikes is a unit. */
  const VOXEL_UNIT := 4

  /** C++ `/` on `int` by a positive divisor: the quotient is truncated toward zero. */
  function Quot(a: int, b: int): int
    requires b > 0
  {
    if a >= 0 then a / b else -((-a) / b)
  }

  datatype Faction = Player | Hostile | Neutral

  /** The kinds of `BattleAction` the aggressive state can produce. */
  datatype ActionType =
    | NoAction | Walk | Prime | Throw | AutoShot | SnapShot | Hit | Launch | MindControl | Panic | Rethink

  /** `DT_HE` against every other damage type. */
  datatype DamageType = HighExplosive | OtherDamage

  /** The loaded ammunition item: its rule power and damage type. */
  datatype Ammo = Ammo(power: int, damage: DamageType)

  /** A battle item: whether its rules make it a waypoint launcher or a melee
      weapon, its rule power (the grenade radius is derived from it), its loaded
      ammunition and its ammo quantity. */
  datatype Item = Item(waypoint: bool, melee: bool, power: int, ammo: Option<Ammo>, quantity: int)

  /** A battle unit. `maxHealth` and `maxTimeUnits` are its stats (`getStats()->health`,
      `getStats()->tu`); `health` and `timeUnits` its current values; `visible` the
      indices of the units it currently sees. */
  datatype Unit = Unit(
    id: int,
    unitType: string,
    faction: Faction,
    position: Position,
    size: int,
    height: int,
    out: bool,
    health: int,
    maxHealth: int,
    timeUnits: int,
    maxTimeUnits: int,
    morale: int,
    bravery: int,
    psiSkill: int,
    psiStrength: int,
    aggression: int,
    intelligence: int,
    mainHand: Option<Item>,
    beltGrenade: Option<Item>,
    visible: seq<nat>)

  /** The saved battle: its unit list, the units exposed to the aliens so far,
      the turn number and the mission type. */
  datatype World = World(units: seq<Unit>, exposed: seq<nat>, turn: int, missionType: string)

  /** Every unit reference in the battle points into the unit list. */
  predicate WellFormed(w: World) {
    (forall i :: 0 <= i < |w.exposed| ==> w.exposed[i] < |w.units|) &&
    (forall i, j :: 0 <= i < |w.units| && 0 <= j < |w.units[i].visible| ==> w.units[i].visible[j] < |w.units|)
  }

  /** The engine queries made on behalf of the acting unit, as uninterpreted functions.
      - distance: `TileEngine::distance` between two cells.
      - line: `TileEngine::calculateLine` between two voxels, ignoring the given unit;
        the kind of the first thing struck (-1 nothing, 0..3 terrain, 4 a unit).
      - visible: `TileEngine::visible(unit, tile)`.
      - meleeNow: `validMeleeRange(actor, target)` from where the actor stands.
      - meleeFrom: `validMeleeRange(cell, -1, size, height, target)`.
      - reachable: `Pathfinding::calculate(actor, cell, unit)` followed by
        `getStartDirection() != -1`.
      - route: the steps `dequeuePath` yields after `calculate(actor, cell, unit)`,
        each already turned into its direction vector.
      - actionTUs: the actor's `getActionTUs(type, item)`.
      - throwRange: `ProjectileFlyBState::validThrowRange` for a throw of the item at the cell.
      - unitAt: `getTile(cell)->getUnit()`.
      - spotting: `getSpottingUnits(actor)`. */
  datatype Oracles = Oracles(
    distance: (Position, Position) -> int,
    line: (Position, Position, Option<nat>) -> int,
    visible: (nat, Position) -> bool,
    meleeNow: nat -> bool,
    meleeFrom: (Position, int, int, nat) -> bool,
    reachable: (Position, Option<nat>) -> bool,
    route: (Position, Option<nat>) -> seq<Position>,
    actionTUs: (ActionType, Option<Item>) -> int,
    throwRange: (Position, Item) -> bool,
    unitAt: Position -> Option<nat>,
    spotting: int)
}
