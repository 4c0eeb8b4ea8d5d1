/** Regular targeting in `AggroBAIState::think` (lines 317-508): pick the nearest
    visible unit, roll for cover, charge or strike in melee, choose a grenade or a
    shot, and search for cover. */
module Engagement {
  import opened Battle
  import opened Rng
  import opened Efficacy

  /** Distance from the actor to unit j. */
  function DistanceTo(w: World, o: Oracles, actor: nat, j: nat): int
    requires actor < |w.units| && j < |w.units|
  {
    o.distance(w.units[actor].position, w.units[j].position)
  }

  /** Unit j is a candidate of the nearest-target loop: it is in the list and not out. */
  predicate Living(w: World, j: nat) {
    j < |w.units| && !w.units[j].out
  }

  /** r is what the loop of lines 319-327 leaves as the target, starting from the
      incumbent (a unit picked by an earlier stage): none only when there was no
      incumbent and no visible unit is living; no living visible unit strictly closer
      than r; and a new pick is a living visible unit strictly closer than the
      incumbent, every living unit seen before it being farther away. */
  predicate Nearest(w: World, o: Oracles, actor: nat, incumbent: Option<nat>, r: Option<nat>)
    requires actor < |w.units| && WellFormed(w)
    requires incumbent.Some? ==> incumbent.value < |w.units|
  {
    var seen := w.units[actor].visible;
    (r.Some? ==> r.value < |w.units|) &&
    (r.None? <==> incumbent.None? && forall i :: 0 <= i < |seen| ==> !Living(w, seen[i])) &&
    (r.Some? ==> forall i :: 0 <= i < |seen| && Living(w, seen[i]) ==> DistanceTo(w, o, actor, r.value) <= DistanceTo(w, o, actor, seen[i])) &&
    (r != incumbent ==>
       r.Some? &&
       exists p :: 0 <= p < |seen| && seen[p] == r.value && Living(w, r.value) &&
         (incumbent.Some? ==> DistanceTo(w, o, actor, r.value) < DistanceTo(w, o, actor, incumbent.value)) &&
         forall i :: 0 <= i < p && Living(w, seen[i]) ==> DistanceTo(w, o, actor, seen[i]) > DistanceTo(w, o, actor, r.value))
  }

  /** The description of the nearest target admits one result only. */
  lemma NearestUnique(w: World, o: Oracles, actor: nat, incumbent: Option<nat>, r1: Option<nat>, r2: Option<nat>)
    requires actor < |w.units| && WellFormed(w)
    requires incumbent.Some? ==> incumbent.value < |w.units|
    requires Nearest(w, o, actor, incumbent, r1) && Nearest(w, o, actor, incumbent, r2)
    ensures r1 == r2
  {
  }

  /** The loop of lines 319-327 over the units the actor sees. It keeps the incumbent
      target unless a living visible unit is strictly closer; among living visible
      units it keeps the first of the closest. */
  method PickNearest(w: World, o: Oracles, actor: nat, incumbent: Option<nat>) returns (r: Option<nat>)
    requires actor < |w.units| && WellFormed(w)
    requires incumbent.Some? ==> incumbent.value < |w.units|
    ensures Nearest(w, o, actor, incumbent, r)
  {
    var seen := w.units[actor].visible;
    r := incumbent;
    ghost var at := 0;
    var j := 0;
    while j < |seen|
      invariant 0 <= j <= |seen|
      invariant r.Some? ==> r.value < |w.units|
      invariant r.None? <==> incumbent.None? && forall i :: 0 <= i < j ==> !Living(w, seen[i])
      invariant r.Some? ==> forall i :: 0 <= i < j && Living(w, seen[i]) ==> DistanceTo(w, o, actor, r.value) <= DistanceTo(w, o, actor, seen[i])
      invariant r != incumbent ==>
                  at < j && seen[at] == r.value && Living(w, r.value) &&
                  (incumbent.Some? ==> DistanceTo(w, o, actor, r.value) < DistanceTo(w, o, actor, incumbent.value)) &&
                  forall i :: 0 <= i < at && Living(w, seen[i]) ==> DistanceTo(w, o, actor, seen[i]) > DistanceTo(w, o, actor, r.value)
    {
      var c := seen[j];
      if r.None? || o.distance(w.units[actor].position, w.units[c].position) < o.distance(w.units[actor].position, w.units[r.value].position) {
        if !w.units[c].out {
          r := Some(c);
          at := j;
        }
      }
      j := j + 1;
    }
  }

  // The cover roll (lines 345-365).

  /** generate(0, 100), +5 per unit spotting the actor, +10 when the actor is hurt,
      -50 when the target has no weapon. */
  function CoverRoll(w: World, o: Oracles, actor: nat, target: nat, draw: int): int
    requires actor < |w.units| && target < |w.units|
  {
    var a := w.units[actor];
    draw + o.spotting * 5 + (if a.health < a.maxHealth then 10 else 0) - (if w.units[target].mainHand.None? then 50 else 0)
  }

  /** The roll is low enough for the actor's aggression to stand and fight: below 10
      at aggression 0, below 50 at 1, below 90 at 2; any other aggression always takes cover. */
  predicate StandsGround(aggression: int, roll: int) {
    (aggression == 0 && roll < 10) || (aggression == 1 && roll < 50) || (aggression == 2 && roll < 90)
  }

  // The melee charge (lines 380-409).

  /** Charging never goes this far. */
  const CHARGE_LIMIT := 200

  /** The cell at offset (x, y) from the target. */
  function ChargeCell(w: World, target: nat, x: int, y: int): Position
    requires target < |w.units|
  {
    w.units[target].position.Plus(Position(x, y, 0))
  }

  /** Offsets of the ring run from -(actor size) - 1 up to (target size) - 1 on both axes. */
  function RingLow(w: World, actor: nat): int
    requires actor < |w.units|
  {
    0 - w.units[actor].size - 1
  }

  function RingHigh(w: World, target: nat): int
    requires target < |w.units|
  {
    w.units[target].size - 1
  }

  predicate InRing(w: World, actor: nat, target: nat, x: int, y: int)
    requires actor < |w.units| && target < |w.units|
  {
    RingLow(w, actor) <= x <= RingHigh(w, target) && RingLow(w, actor) <= y <= RingHigh(w, target)
  }

  /** Offset (x, y) is a charge spot: not the target's own cell, a path to it exists,
      and the target is in melee range from it. */
  predicate ChargeSpot(w: World, o: Oracles, actor: nat, target: nat, x: int, y: int)
    requires actor < |w.units| && target < |w.units|
  {
    var cell := ChargeCell(w, target, x, y);
    !(x == 0 && y == 0) && o.reachable(cell, None) &&
    o.meleeFrom(cell, w.units[actor].size, w.units[actor].height, target)
  }

  function ChargeDistance(w: World, o: Oracles, actor: nat, target: nat, x: int, y: int): int
    requires actor < |w.units| && target < |w.units|
  {
    o.distance(w.units[actor].position, ChargeCell(w, target, x, y))
  }

  /** (x, y) comes before (cx, cy) in the order the nested loops visit offsets. */
  predicate Before(x: int, y: int, cx: int, cy: int) {
    x < cx || (x == cx && y < cy)
  }

  /** Offset p is where the nested loops over the ring leave the charge: a charge spot
      in the ring closer than CHARGE_LIMIT, no charge spot in the ring closer, and every
      charge spot visited before it strictly farther. */
  ghost predicate BestChargeSpot(w: World, o: Oracles, actor: nat, target: nat, p: Position)
    requires actor < |w.units| && target < |w.units|
  {
    p.z == 0 && InRing(w, actor, target, p.x, p.y) && ChargeSpot(w, o, actor, target, p.x, p.y) &&
    ChargeDistance(w, o, actor, target, p.x, p.y) < CHARGE_LIMIT &&
    (forall x, y :: InRing(w, actor, target, x, y) && ChargeSpot(w, o, actor, target, x, y) ==>
       ChargeDistance(w, o, actor, target, p.x, p.y) <= ChargeDistance(w, o, actor, target, x, y)) &&
    (forall x, y :: InRing(w, actor, target, x, y) && Before(x, y, p.x, p.y) && ChargeSpot(w, o, actor, target, x, y) ==>
       ChargeDistance(w, o, actor, target, p.x, p.y) < ChargeDistance(w, o, actor, target, x, y))
  }

  /** No charge spot in the ring is closer than CHARGE_LIMIT. */
  ghost predicate NoChargeSpot(w: World, o: Oracles, actor: nat, target: nat)
    requires actor < |w.units| && target < |w.units|
  {
    forall x, y :: InRing(w, actor, target, x, y) && ChargeSpot(w, o, actor, target, x, y) ==>
      ChargeDistance(w, o, actor, target, x, y) >= CHARGE_LIMIT
  }

  /** At most one offset is the best charge spot. */
  lemma BestChargeSpotUnique(w: World, o: Oracles, actor: nat, target: nat, p: Position, q: Position)
    requires actor < |w.units| && target < |w.units|
    requires BestChargeSpot(w, o, actor, target, p) && BestChargeSpot(w, o, actor, target, q)
    ensures p == q
  {
  }

  /** The offset a charge goes to, when there is a best charge spot. */
  ghost function ChargeOffset(w: World, o: Oracles, actor: nat, target: nat): (r: Option<Position>)
    requires actor < |w.units| && target < |w.units|
    ensures r.Some? ==> BestChargeSpot(w, o, actor, target, r.value)
    ensures forall p :: BestChargeSpot(w, o, actor, target, p) ==> r == Some(p)
    ensures NoChargeSpot(w, o, actor, target) ==> r.None?
  {
    if exists p :: BestChargeSpot(w, o, actor, target, p) then
      var p :| BestChargeSpot(w, o, actor, target, p);
      assert forall q :: BestChargeSpot(w, o, actor, target, q) ==> q == p by {
        forall q | BestChargeSpot(w, o, actor, target, q) ensures q == p {
          BestChargeSpotUnique(w, o, actor, target, p, q);
        }
      }
      Some(p)
    else None
  }

  /** The nested loops over the ring: the offset of the charge spot with the strictly
      smallest distance below CHARGE_LIMIT, the first such in visiting order, or none. */
  method FindChargeSpot(w: World, o: Oracles, actor: nat, target: nat) returns (spot: Option<Position>)
    requires actor < |w.units| && target < |w.units|
    ensures spot.Some? ==> BestChargeSpot(w, o, actor, target, spot.value)
    ensures spot.None? ==> NoChargeSpot(w, o, actor, target)
    ensures spot == ChargeOffset(w, o, actor, target)
  {
    var lo, hi := RingLow(w, actor), RingHigh(w, target);
    spot := None;
    var distance := CHARGE_LIMIT;
    var x := lo;
    while x <= hi
      invariant lo <= x <= hi + 1 || (hi < lo && x == lo)
      invariant distance <= CHARGE_LIMIT
      invariant spot.None? ==> distance == CHARGE_LIMIT
      invariant spot.Some? ==>
                  var p := spot.value;
                  p.z == 0 && InRing(w, actor, target, p.x, p.y) && p.x < x && ChargeSpot(w, o, actor, target, p.x, p.y) &&
                  ChargeDistance(w, o, actor, target, p.x, p.y) == distance < CHARGE_LIMIT &&
                  (forall x', y' :: InRing(w, actor, target, x', y') && Before(x', y', p.x, p.y) && ChargeSpot(w, o, actor, target, x', y') ==>
                     distance < ChargeDistance(w, o, actor, target, x', y'))
      invariant forall x', y' :: InRing(w, actor, target, x', y') && x' < x && ChargeSpot(w, o, actor, target, x', y') ==>
                  distance <= ChargeDistance(w, o, actor, target, x', y')
    {
      var y := lo;
      while y <= hi
        invariant lo <= y <= hi + 1
        invariant distance <= CHARGE_LIMIT
        invariant spot.None? ==> distance == CHARGE_LIMIT
        invariant spot.Some? ==>
                    var p := spot.value;
                    p.z == 0 && InRing(w, actor, target, p.x, p.y) && Before(p.x, p.y, x, y) && ChargeSpot(w, o, actor, target, p.x, p.y) &&
                    ChargeDistance(w, o, actor, target, p.x, p.y) == distance < CHARGE_LIMIT &&
                    (forall x', y' :: InRing(w, actor, target, x', y') && Before(x', y', p.x, p.y) && ChargeSpot(w, o, actor, target, x', y') ==>
                       distance < ChargeDistance(w, o, actor, target, x', y'))
        invariant forall x', y' :: InRing(w, actor, target, x', y') && Before(x', y', x, y) && ChargeSpot(w, o, actor, target, x', y') ==>
                    distance <= ChargeDistance(w, o, actor, target, x', y')
      {
        if !(x == 0 && y == 0) {
          var cell := ChargeCell(w, target, x, y);
          var newDistance := o.distance(w.units[actor].position, cell);
          var valid := o.meleeFrom(cell, w.units[actor].size, w.units[actor].height, target);
          if o.reachable(cell, None) && valid && newDistance < distance {
            spot := Some(Position(x, y, 0));
            distance := newDistance;
          }
        }
        y := y + 1;
      }
      x := x + 1;
    }
  }

  // Grenade or shot (lines 413-475).

  /** The actor may attack the target: it is hostile, or neutral against a hostile target. */
  predicate Licensed(w: World, actor: nat, target: nat)
    requires actor < |w.units| && target < |w.units|
  {
    w.units[actor].faction == Hostile || (w.units[actor].faction == Neutral && w.units[target].faction == Hostile)
  }

  /** TUs the actor reserves for fetching a grenade from its belt. */
  const PICKUP_TUS := 4

  /** Blast radius of an explosive of the given power: power / 10 + 1. */
  function BlastRadius(power: int): int {
    Quot(power, 10) + 1
  }

  /** The grenade is thrown: the actor carries one, the gate passes at the target (its
      draws at cursor k), the actor may attack, fetching, priming and throwing fit in the
      actor's MAXIMUM time units, and the target is within throwing range. */
  predicate ThrowsGrenade(w: World, o: Oracles, actor: nat, target: nat, diff: int, s: Stream, k: nat)
    requires actor < |w.units| && target < |w.units|
  {
    var a := w.units[actor];
    var cell := w.units[target].position;
    a.beltGrenade.Some? &&
    ExplosiveEfficacy(w, o, actor, cell, BlastRadius(a.beltGrenade.value.power), diff, s, k) &&
    Licensed(w, actor, target) &&
    PICKUP_TUS + o.actionTUs(Prime, a.beltGrenade) + o.actionTUs(Throw, a.beltGrenade) <= a.maxTimeUnits &&
    o.throwRange(cell, a.beltGrenade.value)
  }

  /** Draws the grenade gate uses. */
  function GrenadeDraws(w: World, actor: nat): nat
    requires actor < |w.units|
  {
    if w.units[actor].beltGrenade.Some? then DrawsUsed(w) else 0
  }

  /** The main weapon fires explosive ammunition (its loaded ammunition does HE damage). */
  predicate FiresHE(weapon: Item)
    requires weapon.ammo.Some?
  {
    weapon.ammo.value.damage == HighExplosive
  }

  /** How the choice between a grenade and a shot ends: the action kind, the weapon of
      the action, whether the actor must take cover after all, and the cursor after
      its draws. */
  datatype Choice = Choice(kind: ActionType, weapon: Option<Item>, takeCover: bool, next: nat)

  /** The reference for lines 413-475, draws from cursor k: the grenade gate, then the
      HE gate of the main weapon, then the burst roll `generate(1, 10)`. A main weapon
      with no ammunition loaded makes the actor take cover, as the comment on line 450
      says it should; the source reads that missing ammunition instead (line 459,
      see `ReadsMissingAmmo`). */
  function Attack(w: World, o: Oracles, actor: nat, target: nat, diff: int, s: Stream, k: nat): Choice
    requires actor < |w.units| && target < |w.units|
  {
    var a := w.units[actor];
    var k2 := k + GrenadeDraws(w, actor);
    if ThrowsGrenade(w, o, actor, target, diff, s, k) then Choice(Throw, a.beltGrenade, false, k2)
    else if a.mainHand.None? || !Licensed(w, actor, target) || a.mainHand.value.ammo.None? then Choice(NoAction, a.mainHand, true, k2)
    else
      var m := a.mainHand.value;
      var gate := !FiresHE(m) || ExplosiveEfficacy(w, o, actor, w.units[target].position, BlastRadius(m.ammo.value.power), diff, s, k2);
      var k3 := k2 + (if FiresHE(m) then DrawsUsed(w) else 0);
      var kind := if !gate then NoAction else if Generate(s, k3, 1, 10) < 5 && m.quantity > 2 then AutoShot else SnapShot;
      Choice(kind, a.mainHand, o.actionTUs(kind, a.mainHand) > a.timeUnits, if gate then k3 + 1 else k3)
  }

  /** What the choice promises: a throw exactly when `ThrowsGrenade` holds, with the belt
      grenade and no cover; otherwise the main weapon. No weapon, no licence to attack or
      no ammunition means taking cover with the action at none; HE ammunition failing its
      gate leaves the action at none; otherwise an auto shot on a roll below 5 with more
      than two rounds, else a snap shot; cover is forced when the action costs more than
      the actor's current time units. */
  lemma AttackMeaning(w: World, o: Oracles, actor: nat, target: nat, diff: int, s: Stream, k: nat)
    requires actor < |w.units| && target < |w.units|
    ensures var c := Attack(w, o, actor, target, diff, s, k);
            var a := w.units[actor];
            && c.next >= k
            && c.kind in {Throw, AutoShot, SnapShot, NoAction}
            && (c.kind == Throw <==> ThrowsGrenade(w, o, actor, target, diff, s, k))
            && (c.kind == Throw ==> c.weapon == a.beltGrenade && !c.takeCover)
            && (c.kind != Throw ==> c.weapon == a.mainHand)
            && (c.kind != Throw && (a.mainHand.None? || !Licensed(w, actor, target) || a.mainHand.value.ammo.None?) ==>
                  c.kind == NoAction && c.takeCover)
            && (c.kind != Throw && a.mainHand.Some? && Licensed(w, actor, target) && a.mainHand.value.ammo.Some? ==>
                  var m := a.mainHand.value;
                  var k2 := k + GrenadeDraws(w, actor);
                  var gate := !FiresHE(m) || ExplosiveEfficacy(w, o, actor, w.units[target].position, BlastRadius(m.ammo.value.power), diff, s, k2);
                  var k3 := k2 + (if FiresHE(m) then DrawsUsed(w) else 0);
                  (c.kind == NoAction <==> !gate) &&
                  (c.kind == AutoShot <==> gate && Generate(s, k3, 1, 10) < 5 && m.quantity > 2) &&
                  (c.takeCover <==> o.actionTUs(c.kind, c.weapon) > a.timeUnits))
  {
  }

  /** The choice as the nested ifs of lines 413-475 make it. */
  method ChooseAttack(w: World, o: Oracles, actor: nat, target: nat, diff: int, s: Stream, k: nat)
    returns (kind: ActionType, weapon: Option<Item>, takeCover: bool, next: nat)
    requires actor < |w.units| && target < |w.units|
    ensures Choice(kind, weapon, takeCover, next) == Attack(w, o, actor, target, diff, s, k)
  {
    var a := w.units[actor];
    var cell := w.units[target].position;
    kind, takeCover, next := NoAction, false, k;
    weapon := None;
    var grenade := a.beltGrenade;
    var tu := PICKUP_TUS;
    if grenade.Some? {
      var gate := ExplosiveEfficacy(w, o, actor, cell, BlastRadius(grenade.value.power), diff, s, next);
      next := next + DrawsUsed(w);
      if gate && Licensed(w, actor, target) {
        weapon := grenade;
        tu := tu + o.actionTUs(Prime, grenade) + o.actionTUs(Throw, grenade);
        if tu <= a.maxTimeUnits && o.throwRange(cell, grenade.value) {
          kind := Throw;
        }
      }
    }
    if kind == NoAction {
      weapon := a.mainHand;
      if weapon.None? {
        takeCover := true;
      } else if Licensed(w, actor, target) {
        if weapon.value.ammo.None? {
          // Out of ammunition: take cover.
          takeCover := true;
        } else {
          var ammo := weapon.value.ammo.value;
          var gate := true;
          if ammo.damage == HighExplosive {
            gate := ExplosiveEfficacy(w, o, actor, cell, BlastRadius(ammo.power), diff, s, next);
            next := next + DrawsUsed(w);
          }
          if gate {
            if Generate(s, next, 1, 10) < 5 && weapon.value.quantity > 2 {
              kind := AutoShot;
            } else {
              kind := SnapShot;
            }
            next := next + 1;
          }
          tu := o.actionTUs(kind, weapon);
          if tu > a.timeUnits {
            takeCover := true;
          }
        }
      } else {
        takeCover := true;
      }
    }
  }

  // Cover search (lines 478-508).

  const COVER_TRIES := 30
  /** Tries numbered below this (counting from 1) must end out of the target's sight. */
  const SIGHT_TRIES := 20
  const COVER_STEP := 5

  /** The cell sampled by try i (counting from 0): the actor's cell moved by
      generate(-5, 5) on x and then on y. */
  function CoverCell(w: World, actor: nat, s: Stream, k: nat, i: nat): (cell: Position)
    requires actor < |w.units|
    ensures var here := w.units[actor].position;
            cell.z == here.z && here.x - COVER_STEP <= cell.x <= here.x + COVER_STEP && here.y - COVER_STEP <= cell.y <= here.y + COVER_STEP
  {
    var here := w.units[actor].position;
    Position(here.x + Generate(s, k + 2 * i, -COVER_STEP, COVER_STEP), here.y + Generate(s, k + 2 * i + 1, -COVER_STEP, COVER_STEP), here.z)
  }

  /** Try i accepts its cell: out of the target's sight unless it is the 20th try or
      later, and reachable. */
  predicate CoverAccepted(w: World, o: Oracles, actor: nat, target: nat, s: Stream, k: nat, i: nat)
    requires actor < |w.units|
  {
    var cell := CoverCell(w, actor, s, k, i);
    (i + 1 >= SIGHT_TRIES || !o.visible(target, cell)) && o.reachable(cell, None)
  }

  /** The number of tries the search makes when try i is the next: it stops after the
      first accepted try, and after try 30 whatever happens. */
  function CoverTries(w: World, o: Oracles, actor: nat, target: nat, s: Stream, k: nat, i: nat): (n: nat)
    requires actor < |w.units| && i <= COVER_TRIES
    ensures i <= n <= COVER_TRIES && (i < COVER_TRIES ==> i < n)
    decreases COVER_TRIES - i
  {
    if i == COVER_TRIES then COVER_TRIES
    else if CoverAccepted(w, o, actor, target, s, k, i) then i + 1
    else CoverTries(w, o, actor, target, s, k, i + 1)
  }

  /** One try of the search: an accepted try i ends it, otherwise the search goes on. */
  lemma CoverTriesStep(w: World, o: Oracles, actor: nat, target: nat, s: Stream, k: nat, i: nat)
    requires actor < |w.units| && i < COVER_TRIES
    ensures CoverTries(w, o, actor, target, s, k, i) ==
              if CoverAccepted(w, o, actor, target, s, k, i) then i + 1 else CoverTries(w, o, actor, target, s, k, i + 1)
  {
  }

  /** The search from try i stops at the first accepted try: every earlier one was
      rejected, and a search that ends before the 30th try ends on an accepted one. */
  lemma {:induction false} CoverTriesMeaning(w: World, o: Oracles, actor: nat, target: nat, s: Stream, k: nat, i: nat)
    requires actor < |w.units| && i <= COVER_TRIES
    ensures var n := CoverTries(w, o, actor, target, s, k, i);
            && (forall j :: i <= j < n - 1 ==> !CoverAccepted(w, o, actor, target, s, k, j))
            && (i < n < COVER_TRIES ==> CoverAccepted(w, o, actor, target, s, k, n - 1))
    decreases COVER_TRIES - i
  {
    if i < COVER_TRIES && !CoverAccepted(w, o, actor, target, s, k, i) {
      CoverTriesMeaning(w, o, actor, target, s, k, i + 1);
    }
  }

  /** One try of the search (lines 487-505), the try numbered i + 1 with its draws at
      k + 2 * i: sample a cell, test that the target cannot see it (tries 1-19 only),
      then that a path to it exists. */
  method CoverTry(w: World, o: Oracles, actor: nat, target: nat, s: Stream, k: nat, i: nat)
    returns (cell: Position, found: bool)
    requires actor < |w.units|
    ensures cell == CoverCell(w, actor, s, k, i)
    ensures found <==> CoverAccepted(w, o, actor, target, s, k, i)
  {
    var here := w.units[actor].position;
    var tries := i + 1;
    var dx := Generate(s, k + 2 * i, -COVER_STEP, COVER_STEP);
    var dy := Generate(s, k + 2 * i + 1, -COVER_STEP, COVER_STEP);
    cell := Position(here.x + dx, here.y + dy, here.z);
    if tries < SIGHT_TRIES {
      found := !o.visible(target, cell);
    } else {
      found := true;
    }
    if found {
      if !o.reachable(cell, None) {
        found := false;
      }
    }
  }

  /** The loop of lines 485-507: up to 30 tries, stopping at the first accepted cell.
      The cell returned is the last one sampled, accepted or not. */
  method CoverSearch(w: World, o: Oracles, actor: nat, target: nat, s: Stream, k: nat)
    returns (cell: Position, tries: nat, found: bool, next: nat)
    requires actor < |w.units|
    ensures tries == CoverTries(w, o, actor, target, s, k, 0) && next == k + 2 * tries
    ensures cell == CoverCell(w, actor, s, k, tries - 1)
    ensures found <==> CoverAccepted(w, o, actor, target, s, k, tries - 1)
  {
    tries, found, next := 0, false, k;
    cell := w.units[actor].position;
    while tries < COVER_TRIES && !found
      invariant 0 <= tries <= COVER_TRIES && next == k + 2 * tries
      invariant tries > 0 ==> cell == CoverCell(w, actor, s, k, tries - 1)
      invariant tries > 0 ==> (found <==> CoverAccepted(w, o, actor, target, s, k, tries - 1))
      invariant tries == 0 ==> !found
      invariant found ==> CoverTries(w, o, actor, target, s, k, 0) == tries
      invariant !found ==> CoverTries(w, o, actor, target, s, k, 0) == CoverTries(w, o, actor, target, s, k, tries)
    {
      CoverTriesStep(w, o, actor, target, s, k, tries);
      cell, found := CoverTry(w, o, actor, target, s, k, tries);
      tries := tries + 1;
      next := next + 2;
    }
    if !found {
      assert tries == COVER_TRIES;
    }
  }

  // The engagement as a whole (lines 342-503).

  /** What `setCharging` last did to the actor during a `think`. */
  datatype Charging = Untouched | NotCharging | ChargingAt(target: nat)

  /** The changes `think` makes to the acting unit and its items rather than to its own
      state: the charging mark, the time units spent priming a grenade, and whether a
      grenade was primed (its explode turn set to the current turn). */
  datatype Effects = Effects(charging: Charging, spentTUs: int, primed: bool)

  /** How engaging a unit ends: the action kind and target cell; the weapon written
      into the action, or None when the action's weapon is left as it was; the effects
      on the actor; whether the unit's sighting is recorded (counter reset, its cell
      remembered); and the cursor after the draws. */
  datatype Response = Response(kind: ActionType, target: Position, weapon: Option<Option<Item>>, fx: Effects, records: bool, next: nat)

  /** A walk to the cell the cover search ends on, its draws from cursor k. */
  function CoverWalk(w: World, o: Oracles, actor: nat, t: nat, s: Stream, k: nat, weapon: Option<Option<Item>>, records: bool): Response
    requires actor < |w.units|
  {
    var n := CoverTries(w, o, actor, t, s, k, 0);
    Response(Walk, CoverCell(w, actor, s, k, n - 1), weapon, Effects(NotCharging, 0, false), records, k + 2 * n)
  }

  /** The melee branch (lines 366-409), after the roll: a strike when t is in melee
      range, else a charge to the best charge spot, else cover with draws from k. */
  ghost function MeleeReaction(w: World, o: Oracles, actor: nat, t: nat, s: Stream, k: nat): Response
    requires actor < |w.units| && t < |w.units|
  {
    if o.meleeNow(t) then Response(Hit, w.units[t].position, Some(w.units[actor].mainHand), Effects(NotCharging, 0, false), false, k)
    else match ChargeOffset(w, o, actor, t)
      case Some(p) => Response(Walk, ChargeCell(w, t, p.x, p.y), None, Effects(ChargingAt(t), 0, false), false, k)
      case None => CoverWalk(w, o, actor, t, s, k, None, false)
  }

  /** The branch of a roll that stands without a melee weapon (lines 411-475): the
      grenade-or-shot choice from cursor k, falling back on cover when it forces that. */
  function FireReaction(w: World, o: Oracles, actor: nat, t: nat, diff: int, s: Stream, k: nat): Response
    requires actor < |w.units| && t < |w.units|
  {
    var c := Attack(w, o, actor, t, diff, s, k);
    if c.takeCover then CoverWalk(w, o, actor, t, s, c.next, Some(c.weapon), true)
    else
      var primed := c.kind == Throw;
      Response(c.kind, w.units[t].position, Some(c.weapon),
               Effects(NotCharging, if primed then o.actionTUs(Prime, w.units[actor].beltGrenade) else 0, primed), true, c.next)
  }

  /** Without a melee weapon (lines 342-365 and 411-507): cover unless the roll, the
      draw at k, stands; then the grenade-or-shot choice from k + 1. */
  function RangedReaction(w: World, o: Oracles, actor: nat, t: nat, diff: int, s: Stream, k: nat): Response
    requires actor < |w.units| && t < |w.units|
  {
    if StandsGround(w.units[actor].aggression, CoverRoll(w, o, actor, t, Generate(s, k, 0, 100))) then
      FireReaction(w, o, actor, t, diff, s, k + 1)
    else CoverWalk(w, o, actor, t, s, k + 1, None, false)
  }

  /** The reference for the engagement of unit t, its draws from cursor k: the cover roll
      first; with a melee weapon a strike when t is in melee range, else a charge to the
      best charge spot, else cover; without one, cover unless the roll stands, and then
      the grenade-or-shot choice, falling back on cover when that choice forces it. */
  ghost function Reaction(w: World, o: Oracles, actor: nat, t: nat, diff: int, s: Stream, k: nat): Response
    requires actor < |w.units| && t < |w.units|
  {
    var a := w.units[actor];
    if a.mainHand.Some? && a.mainHand.value.melee then MeleeReaction(w, o, actor, t, s, k + 1)
    else RangedReaction(w, o, actor, t, diff, s, k)
  }

  /** What engaging unit t promises about moving and striking. The roll is the first
      draw. With a melee weapon the actor strikes exactly when t is in melee range, and
      charges exactly when it is not and a best charge spot exists, walking to that
      spot's cell. Without one, a roll that does not stand walks to the cover search's
      cell. Any other walk is to a cover cell within COVER_STEP tiles. */
  lemma ReactionMeaning(w: World, o: Oracles, actor: nat, t: nat, diff: int, s: Stream, k: nat)
    requires actor < |w.units| && t < |w.units|
    ensures var r := Reaction(w, o, actor, t, diff, s, k);
            var a := w.units[actor];
            var melee := a.mainHand.Some? && a.mainHand.value.melee;
            var stands := StandsGround(a.aggression, CoverRoll(w, o, actor, t, Generate(s, k, 0, 100)));
            && r.next > k
            && r.kind in {Hit, Walk, Throw, AutoShot, SnapShot, NoAction}
            && (r.kind == Hit <==> melee && o.meleeNow(t))
            && (r.kind == Hit ==> r.target == w.units[t].position && r.weapon == Some(a.mainHand))
            && (r.fx.charging == NotCharging || r.fx.charging == ChargingAt(t))
            && (r.fx.charging.ChargingAt? <==> melee && !o.meleeNow(t) && ChargeOffset(w, o, actor, t).Some?)
            && (r.fx.charging.ChargingAt? ==>
                  var p := ChargeOffset(w, o, actor, t).value;
                  r.kind == Walk && BestChargeSpot(w, o, actor, t, p) && r.target == ChargeCell(w, t, p.x, p.y))
            && (r.records <==> !melee && stands)
            && (!melee && !stands ==>
                  r.kind == Walk && r.target == CoverCell(w, actor, s, k + 1, CoverTries(w, o, actor, t, s, k + 1, 0) - 1))
            && (r.kind == Walk && !r.fx.charging.ChargingAt? ==>
                  r.target.z == a.position.z &&
                  a.position.x - COVER_STEP <= r.target.x <= a.position.x + COVER_STEP &&
                  a.position.y - COVER_STEP <= r.target.y <= a.position.y + COVER_STEP)
  {
  }

  /** What engaging unit t promises once the actor stands its ground without a melee
      weapon (the sighting is recorded): it throws exactly when `ThrowsGrenade` holds at
      the draw after the roll, while an empty gun takes cover; a grenade is primed exactly
      when thrown; a shot, or an action left at none, aims the main weapon at t and fits
      the actor's current time units. */
  lemma FireMeaning(w: World, o: Oracles, actor: nat, t: nat, diff: int, s: Stream, k: nat)
    requires actor < |w.units| && t < |w.units|
    ensures var r := Reaction(w, o, actor, t, diff, s, k);
            var a := w.units[actor];
            && (r.records ==> (r.kind == Throw <==> ThrowsGrenade(w, o, actor, t, diff, s, k + 1)))
            && (r.records && a.mainHand.Some? && a.mainHand.value.ammo.None? && !ThrowsGrenade(w, o, actor, t, diff, s, k + 1) ==>
                  r.kind == Walk)
            && (r.fx.primed <==> r.kind == Throw)
            && (r.fx.spentTUs == if r.fx.primed then o.actionTUs(Prime, a.beltGrenade) else 0)
            && (r.kind == Throw ==> r.target == w.units[t].position && r.weapon == Some(a.beltGrenade))
            && (r.kind == NoAction || r.kind == AutoShot || r.kind == SnapShot ==>
                  r.target == w.units[t].position && r.weapon == Some(a.mainHand) && o.actionTUs(r.kind, a.mainHand) <= a.timeUnits)
  {
    AttackMeaning(w, o, actor, t, diff, s, k + 1);
  }

  /** Line 459 as written: the path on which the source reads the ammunition of a main
      weapon that has none. The actor holds a non-melee weapon, its roll stands, it does
      not throw, and it may attack t. */
  predicate ReadsMissingAmmo(w: World, o: Oracles, actor: nat, t: nat, diff: int, s: Stream, k: nat)
    requires actor < |w.units| && t < |w.units|
  {
    var a := w.units[actor];
    a.mainHand.Some? && !a.mainHand.value.melee &&
    StandsGround(a.aggression, CoverRoll(w, o, actor, t, Generate(s, k, 0, 100))) &&
    !ThrowsGrenade(w, o, actor, t, diff, s, k + 1) && Licensed(w, actor, t) &&
    a.mainHand.value.ammo.None?
  }

  /** A hostile unit of aggression 0 holding an empty gun and no grenade, facing an
      unarmed soldier it sees. */
  function EmptyGunBattle(): World {
    var gun := Item(false, false, 0, None, 0);
    var alien := Unit(1, "SECTOID", Hostile, Position(0, 0, 0), 1, 20, false, 30, 30, 50, 50, 80, 80, 0, 0, 0, 0, Some(gun), None, [1]);
    var soldier := Unit(2, "SOLDIER", Player, Position(3, 0, 0), 1, 20, false, 30, 30, 50, 50, 80, 80, 0, 0, 0, 0, None, None, []);
    World([alien, soldier], [], 5, "")
  }

  /** On that battle, with nobody spotting the alien and a first draw of 0, the source
      reaches line 459 and reads the missing ammunition; the corrected engagement walks
      to cover instead. */
  lemma EmptyGunIsRead(o: Oracles, s: Stream)
    requires o.spotting == 0 && s(0) == 0
    ensures ReadsMissingAmmo(EmptyGunBattle(), o, 0, 1, 0, s, 0)
    ensures Reaction(EmptyGunBattle(), o, 0, 1, 0, s, 0).kind == Walk
  {
  }
}
