/** `AggroBAIState::explosiveEfficacy`: whether setting off an explosive of a given
    radius at a cell is acceptable to the acting unit. It reads the battle and two
    random draws and changes nothing. */
module Efficacy {
  import opened Battle
  import opened Rng

  /** Turns before which the AI never uses an explosive. */
  const GRACE_TURNS := 3

  /** Enemies caught at which the explosive is used whatever the score. */
  const CROWD := 10

  /** Desperation from lost morale, plus 3 when more than two thirds of health is gone. */
  function Desperation(u: Unit): int {
    var injury := u.maxHealth - u.health;
    Quot(100 - u.morale, 10) + (if injury > Quot(u.maxHealth, 3) * 2 then 3 else 0)
  }

  /** Mission bias: spare the aliens' own base, be reckless on a base defence or terror mission. */
  function MissionBias(mission: string): int {
    if mission == "STR_ALIEN_BASE_ASSAULT" then -3
    else if mission == "STR_BASE_DEFENSE" || mission == "STR_TERROR_MISSION" then 3
    else 0
  }

  /** The efficacy before any unit is scanned: desperation, the one target assumed
      at ground zero, minus 3 when the attacker stands within the radius, plus the mission bias. */
  function BaseEfficacy(w: World, o: Oracles, actor: nat, target: Position, radius: int): int
    requires actor < |w.units|
  {
    var a := w.units[actor];
    Desperation(a) + 1 - (if o.distance(a.position, target) <= radius then 3 else 0) + MissionBias(w.missionType)
  }

  /** Unit i would be hit: it is not out, it is not the attacker, it is on the target's
      level within the radius, and the line from the target voxel to it strikes a unit. */
  predicate Caught(w: World, o: Oracles, actor: nat, target: Position, radius: int, i: nat)
    requires i < |w.units|
  {
    var u := w.units[i];
    !u.out && i != actor && u.position.z == target.z && o.distance(u.position, target) <= radius &&
    o.line(Voxel(target), Voxel(u.position), o.unitAt(target)) == VOXEL_UNIT
  }

  predicate Enemy(w: World, actor: nat, i: nat)
    requires actor < |w.units| && i < |w.units|
  {
    w.units[i].faction != w.units[actor].faction
  }

  /** The scan of `units[..n]`, as the loop accumulates it: the change to the
      efficacy (+1 per enemy caught, -2 per friend caught) and the enemies caught. */
  function Tally(w: World, o: Oracles, actor: nat, target: Position, radius: int, n: nat): (int, int)
    requires actor < |w.units| && n <= |w.units|
  {
    if n == 0 then (0, 0)
    else
      var (delta, enemies) := Tally(w, o, actor, target, radius, n - 1);
      if !Caught(w, o, actor, target, radius, n - 1) then (delta, enemies)
      else if Enemy(w, actor, n - 1) then (delta + 1, enemies + 1)
      else (delta - 2, enemies)
  }

  /** The closing random adjustment `generate(0, diff + 1) - generate(0, 2)`, drawn left to right. */
  function Spice(s: Stream, k: nat, diff: int): int {
    Generate(s, k, 0, diff + 1) - Generate(s, k + 1, 0, 2)
  }

  /** Draws one call consumes: none in the grace period, two otherwise. */
  function DrawsUsed(w: World): nat {
    if w.turn < GRACE_TURNS then 0 else 2
  }

  /** The gate itself, with its random draws at cursors k and k + 1. */
  function ExplosiveEfficacy(w: World, o: Oracles, actor: nat, target: Position, radius: int, diff: int, s: Stream, k: nat): (ok: bool)
    requires actor < |w.units|
    ensures w.turn < GRACE_TURNS ==> !ok
  {
    if w.turn < GRACE_TURNS then false
    else
      var (delta, enemies) := Tally(w, o, actor, target, radius, |w.units|);
      var efficacy := BaseEfficacy(w, o, actor, target, radius) + delta + Spice(s, k, diff);
      efficacy > 0 || 1 + enemies >= CROWD
  }

  // Reference definitions: who is caught, counted as sets rather than accumulated.

  function EnemiesCaught(w: World, o: Oracles, actor: nat, target: Position, radius: int, n: nat): set<nat>
    requires actor < |w.units| && n <= |w.units|
  {
    set i: nat | i < n && Caught(w, o, actor, target, radius, i) && Enemy(w, actor, i)
  }

  function FriendsCaught(w: World, o: Oracles, actor: nat, target: Position, radius: int, n: nat): set<nat>
    requires actor < |w.units| && n <= |w.units|
  {
    set i: nat | i < n && Caught(w, o, actor, target, radius, i) && !Enemy(w, actor, i)
  }

  /** The final efficacy as the source describes it: the base, +1 per enemy caught,
      -2 per friend caught, and the random adjustment. */
  function Score(w: World, o: Oracles, actor: nat, target: Position, radius: int, diff: int, s: Stream, k: nat): int
    requires actor < |w.units|
  {
    var n := |w.units|;
    BaseEfficacy(w, o, actor, target, radius)
      + |EnemiesCaught(w, o, actor, target, radius, n)|
      - 2 * |FriendsCaught(w, o, actor, target, radius, n)|
      + Spice(s, k, diff)
  }

  /** The accumulating scan computes exactly the two counts. */
  lemma {:induction false} TallyCounts(w: World, o: Oracles, actor: nat, target: Position, radius: int, n: nat)
    requires actor < |w.units| && n <= |w.units|
    ensures Tally(w, o, actor, target, radius, n).1 == |EnemiesCaught(w, o, actor, target, radius, n)|
    ensures Tally(w, o, actor, target, radius, n).0 ==
            |EnemiesCaught(w, o, actor, target, radius, n)| - 2 * |FriendsCaught(w, o, actor, target, radius, n)|
  {
    var en := EnemiesCaught(w, o, actor, target, radius, n);
    var fr := FriendsCaught(w, o, actor, target, radius, n);
    if n == 0 {
      assert en == {} by { forall i | i in en ensures false { } }
      assert fr == {} by { forall i | i in fr ensures false { } }
    } else {
      TallyCounts(w, o, actor, target, radius, n - 1);
      var en' := EnemiesCaught(w, o, actor, target, radius, n - 1);
      var fr' := FriendsCaught(w, o, actor, target, radius, n - 1);
      var m: nat := n - 1;
      assert m !in en' && m !in fr';
      if !Caught(w, o, actor, target, radius, m) {
        assert en == en';
        assert fr == fr';
      } else if Enemy(w, actor, m) {
        assert en == en' + {m};
        assert fr == fr';
      } else {
        assert en == en';
        assert fr == fr' + {m};
      }
    }
  }

  /** explosiveEfficacy holds exactly when the grace period is over and either the
      final efficacy is positive or at least ten enemies (counting ground zero) are hit. */
  lemma EfficacyMeaning(w: World, o: Oracles, actor: nat, target: Position, radius: int, diff: int, s: Stream, k: nat)
    requires actor < |w.units|
    ensures ExplosiveEfficacy(w, o, actor, target, radius, diff, s, k) <==>
            w.turn >= GRACE_TURNS &&
            (Score(w, o, actor, target, radius, diff, s, k) > 0 ||
             1 + |EnemiesCaught(w, o, actor, target, radius, |w.units|)| >= CROWD)
  {
    TallyCounts(w, o, actor, target, radius, |w.units|);
  }

  /** A crowd of ten or more enemies (ground zero included) on the blast settles the gate
      once the grace period is over, whatever the score and the draws. */
  lemma CrowdAlwaysPasses(w: World, o: Oracles, actor: nat, target: Position, radius: int, diff: int, s: Stream, k: nat)
    requires actor < |w.units| && w.turn >= GRACE_TURNS
    requires 1 + |EnemiesCaught(w, o, actor, target, radius, |w.units|)| >= CROWD
    ensures ExplosiveEfficacy(w, o, actor, target, radius, diff, s, k)
  {
    TallyCounts(w, o, actor, target, radius, |w.units|);
  }
}
