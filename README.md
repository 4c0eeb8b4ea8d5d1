# AggroBAIState in Dafny

This project models OpenXcom's aggressive-combat AI state for one battlescape unit,
`AggroBAIState` (`src/Battlescape/AggroBAIState.cpp`). Each AI cycle, `think` fills in a
`BattleAction`, running these stages in order:

1. a psionic attack on an exposed unit;
2. a waypoint-launcher shot at a unit an ally sees;
3. regular targeting of the nearest visible unit, which covers:
   - the lost-target counter;
   - the cover roll;
   - melee strikes and charges;
   - grenade or gunfire selection;
   - a random search for cover.

The state remembers its target, the target last seen, where that target stood and how
many cycles it has gone unseen. The state is saved and loaded as unit ids, a position
and a counter. `explosiveEfficacy` decides whether setting off an explosive at a cell is
acceptable.

How the model represents the game:

- **Units.** Units are referred to by their index in the battle's unit list (`World.units`).
- **Engine queries.** Each query the AI makes of the engine is an uninterpreted total
  function in an `Oracles` value. These cover:
  - distance, line of fire (`calculateLine`) and visibility;
  - melee range;
  - pathfinding (whether a path exists, and the steps of one);
  - time-unit costs and throw range;
  - the unit on a tile, and the number of units spotting the actor.
- **Randomness.** The random source is a stream read through a cursor. Every operation
  that draws takes the cursor and returns the one after its draws.
- **Side effects on the actor.** `think`'s changes to the acting unit and its items are
  returned as an `Effects` value:
  - the charging mark;
  - time units spent priming;
  - a grenade primed.

Modules:

- `Battle`: the data model.
- `Rng`: the random source.
- `Efficacy`: `explosiveEfficacy`.
- `Psionics`: the psionic stage.
- `Waypoints`: the launcher stage.
- `Engagement`: regular targeting.
- `Persistence`: the saved record.
- `AggroAI`: the `AggroBAIState` class, and the `BattleAction` class that `think` fills in.

## Model

| member | source | states |
|---|---|---|
| Rng.Generate | src/Battlescape/AggroBAIState.cpp:348 | a draw of `generate(lo, hi)` lies in [lo, hi], and is the stream's own value whenever that is in range |
| Efficacy.ExplosiveEfficacy | src/Battlescape/AggroBAIState.cpp:530-534 | the gate is false whenever the battle turn is below 3 |
| Efficacy.TallyCounts | src/Battlescape/AggroBAIState.cpp:555-572 | the accumulating scan over the unit list yields exactly the number of enemies caught, and +1 per enemy and -2 per friend caught (caught: not out, not the attacker, same level, within the radius, line strikes a unit) |
| Efficacy.EfficacyMeaning | src/Battlescape/AggroBAIState.cpp:530-578 | the gate holds iff the turn is at least 3 and either the final efficacy is positive or at least ten enemies (ground zero included) are caught. Final efficacy: desperation + 1, -3 within the radius, mission bias, +1 per enemy, -2 per friend, plus `generate(0, diff+1) - generate(0, 2)` |
| Efficacy.CrowdAlwaysPasses | src/Battlescape/AggroBAIState.cpp:575-576 | after the grace period, ten or more enemies caught pass the gate whatever the score and the draws |
| Psionics.Examined | src/Battlescape/AggroBAIState.cpp:158 | the scan looks at the first min(80, exposed count) exposed units, in order |
| Psionics.BestScore | src/Battlescape/AggroBAIState.cpp:156-178 | the reference pick over the first n examined units is a targetable (non-tank) unit whose score is positive, no lower than any other targetable unit's, and strictly higher than every one before it; none means no score is positive |
| Psionics.PsionicScan | src/Battlescape/AggroBAIState.cpp:156-181 | the loop makes one draw per non-tank unit and returns the reference pick: the first unit with the greatest positive score and that score, or no pick and 0 when no score is positive |
| Psionics.PsiOutcomeMeaning | src/Battlescape/AggroBAIState.cpp:154-240 | the stage runs only for a psionic non-soldier with exposed units and an opening roll above 66. It attacks exactly when the scan picks a unit and the score beats the loaded ammunition's power, or a `generate(35,155)` roll without ammunition. The target is the examined unit the scan picked, an exposed non-tank unit. Mind control needs a score of at least 30 and the control roll at or above the target's threshold; morale 0 always gives mind control; otherwise panic |
| Psionics.PsionicAttack | src/Battlescape/AggroBAIState.cpp:154-240 | the stage's statements yield exactly the reference outcome `PsiOutcome`: target, kind, surviving score and cursor, including the ammunition-less gate roll |
| Waypoints.Sightings | src/Battlescape/AggroBAIState.cpp:248-253 | the candidates are the units seen by the actor's faction, in loop order, all in the unit list |
| Waypoints.ScanSeen | src/Battlescape/AggroBAIState.cpp:252-260 | the inner loop equals the reference scan `FirstLaunchable` over one ally's sightings |
| Waypoints.FindLaunchTarget | src/Battlescape/AggroBAIState.cpp:248-262 | the nested loops pick the first sighted unit with a path to it that passes the efficacy gate with radius power/20+1, with the draws of every gate asked along the way |
| Waypoints.FirstLaunchableAppend | src/Battlescape/AggroBAIState.cpp:248-262 | scanning two candidate lists in turn is scanning their concatenation, so the outer loop may stop at the first find |
| Waypoints.LaunchTargetIsReachable | src/Battlescape/AggroBAIState.cpp:255-258 | a launch target is a sighted unit the actor has a path to, and the cursor never moves back |
| Waypoints.NoLaunchInGracePeriod | src/Battlescape/AggroBAIState.cpp:530-534 | before turn 3 no launch target is found and no draw is used |
| Waypoints.PlotWaypoints | src/Battlescape/AggroBAIState.cpp:270-304 | the dequeue loop computes the reference plot: a blocked line back to the last waypoint commits the previous cell; a line striking the target commits the current cell |
| Waypoints.PlotShape | src/Battlescape/AggroBAIState.cpp:272-306 | the tracked last waypoint is the last committed one (the start when none is), and every waypoint is a cell on the path |
| Engagement.NearestUnique | src/Battlescape/AggroBAIState.cpp:319-327 | the nearest-target relation determines its result: two results for the same earlier pick are equal |
| Engagement.PickNearest | src/Battlescape/AggroBAIState.cpp:319-327 | the result is none only if there was no earlier pick and no visible unit is living. No living visible unit is strictly closer than the result. A new pick is a living visible unit strictly closer than the earlier pick, with every living unit before it farther away (ties go to the first) |
| Engagement.BestChargeSpotUnique | src/Battlescape/AggroBAIState.cpp:381-409 | at most one ring offset is the best charge spot |
| Engagement.ChargeOffset | src/Battlescape/AggroBAIState.cpp:381-409 | the charge offset is the best charge spot when one exists, and none exactly when every reachable melee-valid ring cell is 200 or farther |
| Engagement.FindChargeSpot | src/Battlescape/AggroBAIState.cpp:381-409 | the loops return `ChargeOffset`: the reachable, melee-valid ring cell (offset (0,0) excluded) with the strictly smallest distance below 200, the first in loop order on a tie; none when every such cell is 200 or farther |
| Engagement.AttackMeaning | src/Battlescape/AggroBAIState.cpp:413-475 | throw iff `ThrowsGrenade` (belt grenade, gate with radius power/10+1, faction rule, pickup, prime and throw costs within the maximum time units, target in throw range), with no cover. Otherwise the main weapon: without a weapon, without the faction licence or without ammunition, cover with the action at none. HE ammunition failing the gate leaves none; otherwise auto shot on a roll below 5 with more than two rounds, else snap shot. Cover is forced exactly when the cost exceeds the current time units |
| Engagement.ChooseAttack | src/Battlescape/AggroBAIState.cpp:413-475 | the nested ifs compute exactly the reference choice `Attack`: kind, weapon, cover flag and cursor, including the empty-gun case |
| Engagement.CoverTriesMeaning | src/Battlescape/AggroBAIState.cpp:483-507 | the search stops at the first accepted try: every try before it was rejected (seen on tries 1-19, or unreachable), and a search ending before try 30 ends on an accepted one |
| Engagement.CoverTry | src/Battlescape/AggroBAIState.cpp:487-505 | one try samples the actor's cell moved by two `generate(-5, 5)` draws, in x then y. It is accepted exactly when the cell can be reached and, on tries 1 to 19, the target does not see it |
| Engagement.CoverSearch | src/Battlescape/AggroBAIState.cpp:478-507 | the loop makes `CoverTries` tries of two draws each; it returns the last cell sampled, within 5 tiles on the actor's level, and whether that try was accepted |
| Engagement.ReactionMeaning | src/Battlescape/AggroBAIState.cpp:342-507 | the cover roll is the first draw. With a melee weapon: a strike iff the target is in melee range, a charge to the best charge spot's cell iff it is not and such a spot exists. Without one, the sighting is recorded iff the roll stands its ground, and a roll that does not stand walks to the cover search's last cell. Any other walk is to a cell within 5 tiles |
| Engagement.FireMeaning | src/Battlescape/AggroBAIState.cpp:411-475 | after standing its ground, the actor throws iff `ThrowsGrenade` holds at the draw after the roll; an empty gun takes cover; a grenade is primed iff thrown, costing the prime time units; a shot or an action left at none aims the main weapon at the target and fits the current time units |
| Engagement.EmptyGunIsRead | src/Battlescape/AggroBAIState.cpp:459 | a concrete battle reaches the ammunition read of line 459 with an empty gun, and the corrected model walks to cover there |
| Persistence.LastWithId | src/Battlescape/AggroBAIState.cpp:62-68 | the load scan ends on the last unit with the saved id, or none when no unit has it |
| Persistence.ResolveIdOf | src/Battlescape/AggroBAIState.cpp:58-99 | with unique ids none of which is -1, a saved target id loads back to the very same unit, and -1 to none |
| Persistence.SaveLoadRoundTrip | src/Battlescape/AggroBAIState.cpp:58-113 | saving and loading into a freshly constructed state restores both targets, the last known position and the counter |
| AggroAI.Acquired | src/Battlescape/AggroBAIState.cpp:154-262 | the target after the psionic and waypoint stages is a unit of the battle, and the cursor never moves back |
| AggroAI.AggroBAIState.constructor | src/Battlescape/AggroBAIState.cpp:41 | a new state has no targets, a zero position and counter 0 |
| AggroAI.AggroBAIState.Load | src/Battlescape/AggroBAIState.cpp:58-83 | the fields become the decoding of the record. A saved -1, or an id no unit has, keeps the prior target; otherwise the target is the last unit with the id |
| AggroAI.AggroBAIState.Save | src/Battlescape/AggroBAIState.cpp:89-113 | each target is written as its unit's id, or -1 when there is none; the last known position and the counter are copied. When ids are unique and none is -1, decoding the record over the initial fields gives back exactly the saved fields |
| AggroAI.SaveAndReload | src/Battlescape/AggroBAIState.cpp:41-113 | saving a state, constructing a new state for the same unit and loading the record into it gives a state whose fields all equal the original's |
| AggroAI.AggroBAIState.SetAggroTarget | src/Battlescape/AggroBAIState.cpp:523-528 | the counter is reset, and the unit and its position are remembered; the current target is untouched |
| AggroAI.AggroBAIState.PlanLaunch | src/Battlescape/AggroBAIState.cpp:265-309 | the launch uses the main weapon and its cost, plots its waypoints and aims at the first. It stands iff there are at most 6+2*diff waypoints (unsigned comparison) and the last waypoint is the target's cell; otherwise it reverts to rethink |
| AggroAI.AggroBAIState.PsiStage | src/Battlescape/AggroBAIState.cpp:154-240 | the target and cursor are the reference psionic outcome, and a psionic attack sets the action's kind and aims at its target's cell |
| AggroAI.AggroBAIState.LaunchStage | src/Battlescape/AggroBAIState.cpp:243-309 | a unit that can launch and has no target takes the reference launch target; with a target it plans the launch, which then stands only with the cap and the last-waypoint rule met |
| AggroAI.AggroBAIState.Acquire | src/Battlescape/AggroBAIState.cpp:154-309 | the target and cursor are `Acquired`. A launcher with a target plans the launch; otherwise the action is the psionic kind aimed at its target's cell, or rethink. Mind control and panic aim at an exposed unit |
| AggroAI.AggroBAIState.WalkToCover | src/Battlescape/AggroBAIState.cpp:478-507 | the action walks to the cell the cover search ends on, and the cursor follows its draws |
| AggroAI.AggroBAIState.EngageMelee | src/Battlescape/AggroBAIState.cpp:366-409 | the action and effects are the melee reference: strike in range, else charge the best spot, else cover; no charge means no best spot exists |
| AggroAI.AggroBAIState.EngageFire | src/Battlescape/AggroBAIState.cpp:411-475 | the sighting is recorded (counter 0, target cell remembered), and the action and effects are the reference choice: throw with the grenade primed, fire, or cover when forced |
| AggroAI.AggroBAIState.EngageRanged | src/Battlescape/AggroBAIState.cpp:342-365 | without a melee weapon the cover roll decides: standing records the sighting and fires; otherwise cover with the memory kept |
| AggroAI.AggroBAIState.Engage | src/Battlescape/AggroBAIState.cpp:342-503 | the action kind, target cell, weapon, effects and cursor are exactly the reference `Reaction`; a weapon it does not write keeps its value; the sighting is recorded exactly when the reaction records it |
| AggroAI.AggroBAIState.Respond | src/Battlescape/AggroBAIState.cpp:317-511 | the target is the nearest living visible unit (an earlier pick stays unless one is strictly closer). Without one, a remembered target costs one more unseen cycle, then a walk to its last position or a give-up. With one, the action is exactly the reference `Reaction`. A chosen action carries its time-unit cost |
| AggroAI.AggroBAIState.RegularTargeting | src/Battlescape/AggroBAIState.cpp:314-515 | regular targeting followed by remembering: the nearest target and its reaction, a strike only in melee range, no psionic or launch action, the memory and the lost-target counter |
| AggroAI.AggroBAIState.ThinkQuiet | src/Battlescape/AggroBAIState.cpp:148-309 | for an actor that neither sees nor is spotted, the target and action are those of the psionic and waypoint stages, and a target is remembered |
| AggroAI.AggroBAIState.ThinkEngaged | src/Battlescape/AggroBAIState.cpp:148-515 | for an actor that sees or is spotted, the nearest living visible unit, counted from the acquisition stages' pick, is engaged with the reference reaction |
| AggroAI.AggroBAIState.Think | src/Battlescape/AggroBAIState.cpp:138-515 | without seeing or being spotted, the target, cursor and action are those of the psionic and waypoint stages (rethink, mind control, panic or launch). Otherwise the nearest living visible unit is engaged with exactly the reference `Reaction` from the cursor those stages leave. A strike needs regular targeting and melee range. A target is remembered with its cell and the counter reset; without one the memory is kept and the counter follows the walk-or-give-up rule. Psionic and launch actions need the actor neither to see nor to be spotted; a launch meets the cap and ends on the target. Once regular targeting has run, every chosen action carries its cost |

## Left out

- The YAML syntax of `save`/`load`. The saved form is a record of six integers.
- The `state: AGGRO` key that `save` writes.
- `enter` and `exit`, which are empty.
- The facing change before a melee attack (`lookAt` and the `turn` loop, lines 370-372): the
  model does not turn the actor. `meleeNow` is the engine's melee-range test as taken after the
  actor has turned to face the target.
- The internals of the engine queries: pathfinding, line and voxel collision, visibility,
  melee range, time-unit costs and throw range. They are uninterpreted functions. A
  pathfinding path is given as its sequence of step vectors.
- The random generator's algorithm. A draw is the stream's value clamped into the requested range.
- `explosiveEfficacy` makes two draws, `generate(0, diff+1) - generate(0, 2)`. C++ leaves
  the order of those two calls unspecified; the model draws left to right.
- The psionic score's `psiSkill * -0.4` term is computed by the source in double precision.
  The model computes the whole score exactly as a rational and truncates it toward zero,
  as the conversion to `int` does. It does not model IEEE rounding.
- AggroAI.AggroBAIState.Think: line 185 reads the main-hand weapon's ammunition without
  checking that a weapon is held. The model requires `Armed`: a weapon is held whenever that
  line is reached (the psionic stage runs, its opening roll passes and the scan picks a unit).
- AggroAI.AggroBAIState.PlanLaunch: line 305 reads `waypoints.front()` without checking
  that the list is non-empty. That is undefined behaviour in C++, and it is reachable:
  - a target picked by the psionic stage may have no path;
  - an empty route plots no waypoints.

  The model then leaves the action's target unchanged. Such a launch only stands when
  the actor stands on the target's cell.
- The cover search checks visibility on tries 1 to 19 only: the test is `tries < 20`,
  made after the increment. The model follows the code here rather than a reading of
  "the first 20 tries".
- AggroAI.AggroBAIState.Think: the actor's charging mark, the priming time units spent
  and the grenade's explode turn are not written into a unit object. They are returned
  as `Effects`: the mark set, the time units spent, and whether a grenade was primed.
- `BattleAction` fields that `think` does not write keep the caller's values. The model
  leaves them unconstrained rather than tracking what the caller put there.
- src/Basescape/BuildFacilitiesState.cpp is not part of this model: it only builds a screen of buttons and lists.

## Findings

| source | as written | input that shows it | evidently intended | confidence | as-written member | corrected member |
|---|---|---|---|---|---|---|
| src/Battlescape/AggroBAIState.cpp:459 | the shot choice reads `getAmmoItem()->getRules()` of the main-hand weapon without checking that it is loaded, a null dereference | `Engagement.EmptyGunBattle`: a hostile with aggression 0 holding an unloaded gun sees a soldier three tiles away, nobody spots it and the first draw is 0, so it stands its ground, has no grenade to throw and reaches line 459 | the comment at line 450 says a unit out of ammunition takes cover: the action stays at none and the unit walks to cover | not executed | Engagement.ReadsMissingAmmo, Engagement.EmptyGunIsRead | Engagement.Attack, Engagement.AttackMeaning, Engagement.ChooseAttack |
