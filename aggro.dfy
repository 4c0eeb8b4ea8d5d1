/** `AggroBAIState`: the aggressive-combat AI state of one unit, and the
    `BattleAction` its `think` fills in. */
module AggroAI {
  import opened Battle
  import opened Rng
  import opened Persistence
  import opened Psionics
  import opened Waypoints
  import opened Engagement

  /** The action descriptor: owned by the caller, filled in by `think`. Fields
      `think` does not write keep whatever the caller left in them. */
  class BattleAction {
    var kind: ActionType
    var actor: nat
    var target: Position
    var weapon: Option<Item>
    var tu: int
    var waypoints: seq<Position>
    var diff: int

    /** An action with no kind yet decided (rethink), no weapon, no waypoints and zeroes elsewhere. */
    constructor ()
      ensures kind == Rethink && actor == 0 && target == Position(0, 0, 0) && weapon.None?
      ensures tu == 0 && waypoints == [] && diff == 0
    {
      kind := Rethink;
      actor := 0;
      target := Position(0, 0, 0);
      weapon := None;
      tu := 0;
      waypoints := [];
      diff := 0;
    }
  }

  /** Regular targeting runs: the actor sees someone, or someone spots the actor (line 317). */
  predicate Engaged(w: World, o: Oracles, actor: nat)
    requires actor < |w.units|
  {
    |w.units[actor].visible| > 0 || o.spotting != 0
  }

  /** The action carries the kind and target cell of engagement r, and its weapon where r writes one. */
  predicate Follows(action: BattleAction, r: Response)
    reads action
  {
    action.kind == r.kind && action.target == r.target && (r.weapon.Some? ==> action.weapon == r.weapon.value)
  }

  /** The action holds a launch at unit t as lines 285-308 plan it: the main weapon and
      its launch cost, the waypoints plotted along the path to t, the first of them as
      the target, and the launch kept exactly when it stands. */
  predicate LaunchPlanned(action: BattleAction, w: World, o: Oracles, actor: nat, t: nat)
    reads action
    requires actor < |w.units| && t < |w.units|
  {
    var here := w.units[actor].position;
    var (wps, last) := Plot(o, actor, t, o.route(w.units[t].position, Some(t)), here, here);
    action.weapon == w.units[actor].mainHand && action.tu == o.actionTUs(Launch, action.weapon) &&
    action.waypoints == wps && (|wps| > 0 ==> action.target == wps[0]) &&
    action.kind == (if LaunchStands(wps, last, w.units[t].position, action.diff) then Launch else Rethink)
  }

  /** The action, the effects and the cursor are those of engagement r; the weapon was
      `before` where r leaves it as it was. */
  predicate Performs(action: BattleAction, r: Response, fx: Effects, next: nat, before: Option<Item>)
    reads action
  {
    Follows(action, r) && fx == r.fx && next == r.next &&
    action.weapon == (if r.weapon.Some? then r.weapon.value else before)
  }

  /** A launch at unit t that stands: at most PATH_CAP_BASE + 2 * difficulty waypoints
      (when the difficulty is not negative), aimed at the first, the last on t's cell;
      with no waypoints at all, the actor already stands on t's cell. */
  predicate LaunchShape(action: BattleAction, w: World, actor: nat, t: nat)
    reads action
    requires actor < |w.units| && t < |w.units|
  {
    var wps := action.waypoints;
    (action.diff >= 0 ==> |wps| <= PATH_CAP_BASE + 2 * action.diff) &&
    (|wps| > 0 ==> action.target == wps[0] && wps[|wps| - 1] == w.units[t].position) &&
    (|wps| == 0 ==> w.units[actor].position == w.units[t].position)
  }

  /** The action as the psionic and waypoint stages leave it, given their target t: a
      planned launch when the actor can launch and has a target, and otherwise the psionic
      attack's kind aimed at its target's cell, or rethink when there is none. */
  predicate Acquires(action: BattleAction, w: World, o: Oracles, actor: nat, t: Option<nat>, s: Stream, k: nat)
    reads action
    requires actor < |w.units| && (t.Some? ==> t.value < |w.units|)
  {
    var p := PsiOutcome(w, o, actor, s, k);
    && action.kind in {Rethink, MindControl, Panic, Launch}
    && (CanLaunch(w, actor) && t.Some? ==> LaunchPlanned(action, w, o, actor, t.value))
    && (!(CanLaunch(w, actor) && t.Some?) ==>
          action.kind == (if p.kind.Some? then p.kind.value else Rethink) &&
          (p.kind.Some? ==> action.target == w.units[p.target.value].position))
  }

  /** The target and cursor after the psionic and the waypoint stages (lines 154-262):
      the psionic pick, or else, for a unit that can launch, the first unit its allies
      see that it has a path to and that passes the efficacy gate. */
  function Acquired(w: World, o: Oracles, actor: nat, diff: int, s: Stream, k: nat): (r: (Option<nat>, nat))
    requires actor < |w.units| && WellFormed(w)
    ensures r.1 >= k
    ensures r.0.Some? ==> r.0.value < |w.units|
  {
    var p := PsiOutcome(w, o, actor, s, k);
    PsiOutcomeMeaning(w, o, actor, s, k);
    var a := w.units[actor];
    if CanLaunch(w, actor) && p.target.None? then
      var cands := Sightings(w, a.faction, 0);
      LaunchTargetIsReachable(w, o, actor, LaunchRadius(a.mainHand.value), diff, s, cands, p.next);
      FirstLaunchable(w, o, actor, LaunchRadius(a.mainHand.value), diff, s, cands, p.next)
    else (p.target, p.next)
  }

  /** Lines 41 and 58-113 together: saving a state and loading the record into a newly
      constructed state for the same unit restores every field. */
  method SaveAndReload(st: AggroBAIState, units: seq<Unit>) returns (copy: AggroBAIState)
    requires RefersInto(st.Fields(), units) && IdsIdentify(units)
    ensures fresh(copy) && copy.unit == st.unit && copy.Fields() == st.Fields()
  {
    var node := st.Save(units);
    copy := new AggroBAIState(st.unit);
    copy.Load(node, units);
  }

  class AggroBAIState {
    /** The unit this state drives (`_unit`), as its index in the unit list. */
    const unit: nat
    var aggroTarget: Option<nat>
    var lastKnownTarget: Option<nat>
    var lastKnownPosition: Position
    var timesNotSeen: int

    /** The four fields as one value. */
    function Fields(): AggroFields
      reads this
    {
      AggroFields(aggroTarget, lastKnownTarget, lastKnownPosition, timesNotSeen)
    }

    /** Line 41: no targets, counter 0. */
    constructor (unit: nat)
      ensures this.unit == unit && Fields() == Initial()
    {
      this.unit := unit;
      aggroTarget := None;
      lastKnownTarget := None;
      lastKnownPosition := Position(0, 0, 0);
      timesNotSeen := 0;
    }

    /** `save` (lines 89-113): each target as its unit's id or NO_UNIT, the last known
      position and the counter. With unique ids none of which is NO_UNIT, loading the
      record into a newly constructed state gives these fields back. */
    function Save(units: seq<Unit>): (r: SavedAggro)
      reads this
      requires RefersInto(Fields(), units)
      ensures r.aggroTarget == (if aggroTarget.Some? then units[aggroTarget.value].id else NO_UNIT)
      ensures r.lastKnownTarget == (if lastKnownTarget.Some? then units[lastKnownTarget.value].id else NO_UNIT)
      ensures Position(r.x, r.y, r.z) == lastKnownPosition && r.timesNotSeen == timesNotSeen
      ensures IdsIdentify(units) ==> Decode(Initial(), r, units) == Fields()
    {
      if IdsIdentify(units) then
        SaveLoadRoundTrip(Fields(), units);
        Encode(Fields(), units)
      else Encode(Fields(), units)
    }

    /** `load`: each saved id other than -1 is looked up by a scan over the whole unit
      list that keeps the last match; the position and the counter are copied. */
    method Load(node: SavedAggro, units: seq<Unit>)
      modifies this
      ensures Fields() == Decode(old(Fields()), node, units)
    {
      var id := node.aggroTarget;
      if id != NO_UNIT {
        var j := 0;
        while j < |units|
          invariant 0 <= j <= |units|
          invariant aggroTarget == (var f := LastWithId(units, id, j); if f.None? then old(aggroTarget) else f)
          invariant lastKnownTarget == old(lastKnownTarget)
        {
          if units[j].id == id {
            aggroTarget := Some(j);
          }
          j := j + 1;
        }
      }
      id := node.lastKnownTarget;
      if id != NO_UNIT {
        var j := 0;
        while j < |units|
          invariant 0 <= j <= |units|
          invariant lastKnownTarget == (var f := LastWithId(units, id, j); if f.None? then old(lastKnownTarget) else f)
          invariant aggroTarget == Decode(old(Fields()), node, units).aggroTarget
        {
          if units[j].id == id {
            lastKnownTarget := Some(j);
          }
          j := j + 1;
        }
      }
      lastKnownPosition := Position(node.x, node.y, node.z);
      timesNotSeen := node.timesNotSeen;
    }

    /** `setAggroTarget` (lines 523-528): remember the unit and where it stands, reset the counter. */
    method SetAggroTarget(t: nat, w: World)
      requires t < |w.units|
      modifies this`timesNotSeen, this`lastKnownTarget, this`lastKnownPosition
      ensures timesNotSeen == 0 && lastKnownTarget == Some(t) && lastKnownPosition == w.units[t].position
    {
      timesNotSeen := 0;
      lastKnownTarget := Some(t);
      lastKnownPosition := w.units[t].position;
    }

    /** Lines 285-308: aim a launch at unit t. The weapon and its cost are set, the
      waypoints are plotted along the path to t, the action aims at the first of them,
      and the launch is withdrawn unless it stands. */
    method PlanLaunch(action: BattleAction, w: World, o: Oracles, t: nat)
      requires unit < |w.units| && t < |w.units|
      modifies action`kind, action`weapon, action`tu, action`waypoints, action`target
      ensures LaunchPlanned(action, w, o, unit, t)
      ensures |action.waypoints| == 0 ==> action.target == old(action.target)
      ensures action.kind == Launch ==> LaunchShape(action, w, unit, t)
    {
      var here := w.units[unit].position;
      var targetCell := w.units[t].position;
      action.weapon := w.units[unit].mainHand;
      action.kind := Launch;
      action.tu := o.actionTUs(Launch, action.weapon);
      var steps := o.route(targetCell, Some(t));
      var waypoints, lastWaypoint := PlotWaypoints(o, unit, t, here, steps);
      PlotShape(o, unit, t, steps, here, here);
      action.waypoints := waypoints;
      if |waypoints| > 0 {
        action.target := waypoints[0];
      }
      if !LaunchStands(waypoints, lastWaypoint, targetCell, action.diff) {
        action.kind := Rethink;
      }
    }

    /** Lines 485-507: walk to the cell the cover search ends on, its draws from k. */
    method WalkToCover(action: BattleAction, w: World, o: Oracles, t: nat, s: Stream, k: nat) returns (next: nat)
      requires unit < |w.units|
      modifies action`kind, action`target
      ensures var r := CoverWalk(w, o, unit, t, s, k, None, false);
              action.kind == r.kind && action.target == r.target && next == r.next
    {
      // Look within 5 tiles for a cell the target cannot see; failing that the
      // last cell sampled is walked to anyway.
      action.kind := Walk;
      var cell, tries, found;
      cell, tries, found, next := CoverSearch(w, o, unit, t, s, k);
      action.target := cell;
    }

    /** Lines 366-409 and the cover walk after them: with a melee weapon, strike t when
      it is in range, or else charge the best spot around it, or else take cover. */
    method EngageMelee(action: BattleAction, w: World, o: Oracles, t: nat, s: Stream, k: nat) returns (next: nat, fx: Effects)
      requires unit < |w.units| && t < |w.units|
      modifies action`kind, action`target, action`weapon
      ensures Performs(action, MeleeReaction(w, o, unit, t, s, k), fx, next, old(action.weapon))
      ensures !o.meleeNow(t) && !fx.charging.ChargingAt? ==> NoChargeSpot(w, o, unit, t)
    {
      fx := Effects(NotCharging, 0, false);
      next := k;
      if o.meleeNow(t) {
        action.target := w.units[t].position;
        action.weapon := w.units[unit].mainHand;
        action.kind := Hit;
      } else {
        var spot := FindChargeSpot(w, o, unit, t);
        if spot.Some? {
          action.target := ChargeCell(w, t, spot.value.x, spot.value.y);
          action.kind := Walk;
          fx := fx.(charging := ChargingAt(t));
        } else {
          next := WalkToCover(action, w, o, t, s, k);
        }
      }
    }

    /** Lines 411-475 and the cover walk after them: a roll that stands without a melee
      weapon records the sighting of t, then throws a grenade or fires, or takes cover
      when the choice forces it. */
    method EngageFire(action: BattleAction, w: World, o: Oracles, t: nat, s: Stream, k: nat) returns (next: nat, fx: Effects)
      requires unit < |w.units| && t < |w.units|
      modifies this`timesNotSeen, this`lastKnownPosition, action`kind, action`target, action`weapon
      ensures Performs(action, FireReaction(w, o, unit, t, action.diff, s, k), fx, next, old(action.weapon))
      ensures timesNotSeen == 0 && lastKnownPosition == w.units[t].position
    {
      var targetCell := w.units[t].position;
      fx := Effects(NotCharging, 0, false);
      timesNotSeen := 0;
      lastKnownPosition := targetCell;
      action.target := targetCell;
      var kind, weapon, takeCover;
      kind, weapon, takeCover, next := ChooseAttack(w, o, unit, t, action.diff, s, k);
      action.kind := kind;
      action.weapon := weapon;
      if kind == Throw {
        fx := fx.(spentTUs := o.actionTUs(Prime, w.units[unit].beltGrenade), primed := true);
      }
      if takeCover {
        next := WalkToCover(action, w, o, t, s, next);
      }
    }

    /** Lines 342-365 and 411-507 for an actor without a melee weapon: the roll, the
      draw at k, decides between standing (and then firing) and taking cover. */
    method EngageRanged(action: BattleAction, w: World, o: Oracles, t: nat, s: Stream, k: nat) returns (next: nat, fx: Effects)
      requires unit < |w.units| && t < |w.units|
      modifies this`timesNotSeen, this`lastKnownPosition, action`kind, action`target, action`weapon
      ensures var r := RangedReaction(w, o, unit, t, action.diff, s, k);
              && Performs(action, r, fx, next, old(action.weapon))
              && (r.records ==> timesNotSeen == 0 && lastKnownPosition == w.units[t].position)
              && (!r.records ==> timesNotSeen == old(timesNotSeen) && lastKnownPosition == old(lastKnownPosition))
    {
      var roll := CoverRoll(w, o, unit, t, Generate(s, k, 0, 100));
      if StandsGround(w.units[unit].aggression, roll) {
        next, fx := EngageFire(action, w, o, t, s, k + 1);
      } else {
        fx := Effects(NotCharging, 0, false);
        next := WalkToCover(action, w, o, t, s, k + 1);
      }
    }

    /** Lines 342-503: the actor sees unit t. It rolls whether to take cover; with a
      melee weapon it strikes when in range or else charges the nearest spot around t;
      a unit that stands its ground throws a grenade or fires; one that does not, or
      that cannot fire, walks to a cover cell within 5 tiles. The source's `takeCover`
      and `charge` flags select among these branches; with a melee weapon the roll is
      drawn but has no effect. */
    method Engage(action: BattleAction, w: World, o: Oracles, t: nat, s: Stream, k: nat) returns (next: nat, fx: Effects)
      requires unit < |w.units| && t < |w.units|
      modifies this`timesNotSeen, this`lastKnownPosition, action`kind, action`target, action`weapon
      ensures var r := Reaction(w, o, unit, t, action.diff, s, k);
              && Performs(action, r, fx, next, old(action.weapon))
              && (r.records ==> timesNotSeen == 0 && lastKnownPosition == w.units[t].position)
              && (!r.records ==> timesNotSeen == old(timesNotSeen) && lastKnownPosition == old(lastKnownPosition))
      ensures var m := w.units[unit].mainHand;
              m.Some? && m.value.melee && !o.meleeNow(t) && !fx.charging.ChargingAt? ==> NoChargeSpot(w, o, unit, t)
    {
      var me := w.units[unit];
      if me.mainHand.Some? && me.mainHand.value.melee {
        next, fx := EngageMelee(action, w, o, t, s, k + 1);
      } else {
        next, fx := EngageRanged(action, w, o, t, s, k);
      }
    }

    /** Lines 154-240: the psionic stage. A psionic attack sets the action's kind and
      aims it at the target's cell. */
    method PsiStage(action: BattleAction, w: World, o: Oracles, s: Stream, k: nat) returns (next: nat)
      requires unit < |w.units| && WellFormed(w) && Armed(w, o, unit, s, k)
      modifies this`aggroTarget, action`kind, action`target
      ensures var p := PsiOutcome(w, o, unit, s, k);
              aggroTarget == p.target && next == p.next &&
              action.kind == (if p.kind.Some? then p.kind.value else old(action.kind)) &&
              action.target == (if p.kind.Some? then w.units[p.target.value].position else old(action.target))
    {
      var psiKind, chance;
      aggroTarget, psiKind, chance, next := PsionicAttack(w, o, unit, s, k);
      if psiKind.Some? {
        action.kind := psiKind.value;
        action.target := w.units[aggroTarget.value].position;
      }
    }

    /** Lines 243-309: waypoint targeting for a unit that can launch. Without a target
      from the psionic stage, it takes the first unit its allies see that it has a path
      to and that passes the efficacy gate; with a target, it plans a launch at it. */
    method LaunchStage(action: BattleAction, w: World, o: Oracles, s: Stream, k: nat) returns (next: nat)
      requires unit < |w.units| && WellFormed(w)
      requires aggroTarget.Some? ==> aggroTarget.value < |w.units|
      modifies this`aggroTarget, action`kind, action`weapon, action`tu, action`waypoints, action`target
      ensures var a := w.units[unit];
              if CanLaunch(w, unit) && old(aggroTarget).None?
              then (aggroTarget, next) == FirstLaunchable(w, o, unit, LaunchRadius(a.mainHand.value), action.diff, s, Sightings(w, a.faction, 0), k)
              else aggroTarget == old(aggroTarget) && next == k
      ensures aggroTarget.Some? ==> aggroTarget.value < |w.units|
      ensures CanLaunch(w, unit) && aggroTarget.Some? ==>
                LaunchPlanned(action, w, o, unit, aggroTarget.value) &&
                (action.kind == Launch ==> LaunchShape(action, w, unit, aggroTarget.value))
      ensures !(CanLaunch(w, unit) && aggroTarget.Some?) ==> action.kind == old(action.kind) && action.target == old(action.target)
    {
      next := k;
      var me := w.units[unit];
      if CanLaunch(w, unit) {
        if aggroTarget.None? {
          aggroTarget, next := FindLaunchTarget(w, o, unit, LaunchRadius(me.mainHand.value), action.diff, s, k);
          LaunchTargetIsReachable(w, o, unit, LaunchRadius(me.mainHand.value), action.diff, s, Sightings(w, me.faction, 0), k);
        }
        if aggroTarget.Some? {
          PlanLaunch(action, w, o, aggroTarget.value);
        }
      }
    }

    /** Lines 154-309: the psionic stage, then the waypoint stage; either may pick a
      target before regular targeting runs. */
    method Acquire(action: BattleAction, w: World, o: Oracles, s: Stream, k: nat) returns (next: nat)
      requires unit < |w.units| && WellFormed(w) && Armed(w, o, unit, s, k)
      requires action.kind == Rethink
      modifies this`aggroTarget, action`kind, action`weapon, action`tu, action`waypoints, action`target
      ensures (aggroTarget, next) == Acquired(w, o, unit, action.diff, s, k)
      ensures aggroTarget.Some? ==> aggroTarget.value < |w.units|
      ensures Acquires(action, w, o, unit, aggroTarget, s, k)
      ensures aggroTarget.None? ==> action.kind == Rethink
      ensures action.kind == MindControl || action.kind == Panic ==>
                aggroTarget.Some? && aggroTarget.value in w.exposed && action.target == w.units[aggroTarget.value].position
      ensures action.kind == Launch ==> aggroTarget.Some? && CanLaunch(w, unit) && LaunchShape(action, w, unit, aggroTarget.value)
    {
      next := PsiStage(action, w, o, s, k);
      PsiOutcomeMeaning(w, o, unit, s, k);
      next := LaunchStage(action, w, o, s, next);
    }

    /** Lines 314-511: regular targeting, run when the actor sees a unit or is spotted.
      The nearest living visible unit becomes the target (an earlier pick stays unless
      one is strictly closer). Without a target, a unit that had one counts another
      cycle without it and either walks to where it was last seen or gives up;
      with a target, it engages it. A chosen action is given its time-unit cost. */
    method Respond(action: BattleAction, w: World, o: Oracles, s: Stream, k: nat) returns (next: nat, fx: Effects)
      requires unit < |w.units| && WellFormed(w)
      requires aggroTarget.Some? ==> aggroTarget.value < |w.units|
      requires aggroTarget.None? ==> action.kind == Rethink
      modifies this`aggroTarget, this`timesNotSeen, this`lastKnownPosition, action`kind, action`target, action`weapon, action`tu
      ensures Nearest(w, o, unit, old(aggroTarget), aggroTarget)
      ensures aggroTarget.None? ==> next == k && fx == Effects(Untouched, 0, false) && lastKnownPosition == old(lastKnownPosition)
      ensures aggroTarget.None? && lastKnownTarget.Some? ==>
                timesNotSeen == old(timesNotSeen) + 1 &&
                if timesNotSeen > w.units[unit].intelligence || w.units[unit].aggression == 0
                then action.kind == Rethink
                else action.kind == Walk && action.target == old(lastKnownPosition)
      ensures aggroTarget.None? && lastKnownTarget.None? ==> timesNotSeen == old(timesNotSeen) && action.kind == Rethink
      ensures aggroTarget.Some? ==>
                var r := Reaction(w, o, unit, aggroTarget.value, action.diff, s, k);
                && Follows(action, r) && fx == r.fx && next == r.next
                && (r.weapon.None? ==> action.weapon == old(action.weapon))
                && (r.records ==> timesNotSeen == 0 && lastKnownPosition == w.units[aggroTarget.value].position)
                && (!r.records ==> timesNotSeen == old(timesNotSeen) && lastKnownPosition == old(lastKnownPosition))
      ensures action.kind != Rethink ==> action.tu == o.actionTUs(action.kind, action.weapon)
    {
      next := k;
      fx := Effects(Untouched, 0, false);
      aggroTarget := PickNearest(w, o, unit, aggroTarget);
      if aggroTarget.None? && lastKnownTarget.Some? {
        timesNotSeen := timesNotSeen + 1;
        if timesNotSeen > w.units[unit].intelligence || w.units[unit].aggression == 0 {
          // Aggro lost: back to patrolling.
          return;
        }
        action.kind := Walk;
        action.target := lastKnownPosition;
      } else if aggroTarget.Some? {
        next, fx := Engage(action, w, o, aggroTarget.value, s, k);
      }
      if action.kind != Rethink {
        action.tu := o.actionTUs(action.kind, action.weapon);
      }
    }

    /** A target, when there is one, is remembered with the cell it stands on, and the
      lost-target counter is reset. */
    predicate Remembers(w: World)
      reads this
    {
      aggroTarget.Some? ==>
        aggroTarget.value < |w.units| && timesNotSeen == 0 &&
        lastKnownTarget == aggroTarget && lastKnownPosition == w.units[aggroTarget.value].position
    }

    /** Lines 314-515: regular targeting followed by remembering the target chosen. */
    method RegularTargeting(action: BattleAction, w: World, o: Oracles, s: Stream, k: nat) returns (next: nat, fx: Effects)
      requires unit < |w.units| && WellFormed(w)
      requires aggroTarget.Some? ==> aggroTarget.value < |w.units|
      requires aggroTarget.None? ==> action.kind == Rethink
      modifies this`aggroTarget, this`lastKnownTarget, this`timesNotSeen, this`lastKnownPosition,
               action`kind, action`target, action`weapon, action`tu
      ensures Nearest(w, o, unit, old(aggroTarget), aggroTarget)
      ensures aggroTarget.Some? ==>
                var r := Reaction(w, o, unit, aggroTarget.value, action.diff, s, k);
                Follows(action, r) && fx == r.fx && next == r.next
      ensures next >= k
      ensures aggroTarget.None? ==> next == k && fx == Effects(Untouched, 0, false)
      ensures action.kind == Hit ==> aggroTarget.Some? && o.meleeNow(aggroTarget.value)
      ensures action.kind !in {MindControl, Panic, Launch}
      ensures Remembers(w)
      ensures aggroTarget.None? ==>
                lastKnownTarget == old(lastKnownTarget) && lastKnownPosition == old(lastKnownPosition)
      ensures aggroTarget.None? && old(lastKnownTarget).Some? ==>
                timesNotSeen == old(timesNotSeen) + 1 &&
                if timesNotSeen > w.units[unit].intelligence || w.units[unit].aggression == 0
                then action.kind == Rethink
                else action.kind == Walk && action.target == old(lastKnownPosition)
      ensures aggroTarget.None? && old(lastKnownTarget).None? ==>
                timesNotSeen == old(timesNotSeen) && action.kind == Rethink
      ensures action.kind != Rethink ==> action.tu == o.actionTUs(action.kind, action.weapon)
    {
      next, fx := Respond(action, w, o, s, k);
      if aggroTarget.Some? {
        ReactionMeaning(w, o, unit, aggroTarget.value, action.diff, s, k);
        SetAggroTarget(aggroTarget.value, w);
      }
    }

    /** Lines 148-309 for an actor that neither sees nor is spotted: the psionic and
      waypoint stages alone decide, and a target they choose is remembered. */
    method ThinkQuiet(action: BattleAction, w: World, o: Oracles, s: Stream, k: nat) returns (next: nat)
      requires unit < |w.units| && WellFormed(w) && Armed(w, o, unit, s, k)
      modifies this`aggroTarget, this`lastKnownTarget, this`timesNotSeen, this`lastKnownPosition
      modifies action`kind, action`target, action`weapon, action`tu, action`waypoints
      ensures (aggroTarget, next) == Acquired(w, o, unit, action.diff, s, k)
      ensures aggroTarget.Some? ==> aggroTarget.value < |w.units|
      ensures Acquires(action, w, o, unit, aggroTarget, s, k)
      ensures aggroTarget.None? ==> action.kind == Rethink
      ensures action.kind == MindControl || action.kind == Panic ==>
                aggroTarget.Some? && aggroTarget.value in w.exposed && action.target == w.units[aggroTarget.value].position
      ensures action.kind == Launch ==> aggroTarget.Some? && CanLaunch(w, unit) && LaunchShape(action, w, unit, aggroTarget.value)
      ensures Remembers(w)
      ensures aggroTarget.None? ==>
                lastKnownTarget == old(lastKnownTarget) && lastKnownPosition == old(lastKnownPosition) &&
                timesNotSeen == old(timesNotSeen)
    {
      action.kind := Rethink;
      aggroTarget := None;
      next := Acquire(action, w, o, s, k);
      if aggroTarget.Some? {
        SetAggroTarget(aggroTarget.value, w);
      }
    }

    /** Lines 148-515 for an actor that sees a unit or is spotted: after the psionic and
      waypoint stages, the nearest living visible unit is engaged. */
    method ThinkEngaged(action: BattleAction, w: World, o: Oracles, s: Stream, k: nat) returns (next: nat, fx: Effects)
      requires unit < |w.units| && WellFormed(w) && Armed(w, o, unit, s, k)
      modifies this`aggroTarget, this`lastKnownTarget, this`timesNotSeen, this`lastKnownPosition
      modifies action`kind, action`target, action`weapon, action`tu, action`waypoints
      ensures var (t0, k0) := Acquired(w, o, unit, action.diff, s, k);
              Nearest(w, o, unit, t0, aggroTarget) &&
              (aggroTarget.Some? ==>
                 var r := Reaction(w, o, unit, aggroTarget.value, action.diff, s, k0);
                 Follows(action, r) && fx == r.fx && next == r.next)
      ensures next >= k
      ensures aggroTarget.None? ==> fx == Effects(Untouched, 0, false)
      ensures action.kind == Hit ==> aggroTarget.Some? && o.meleeNow(aggroTarget.value)
      ensures action.kind !in {MindControl, Panic, Launch}
      ensures Remembers(w)
      ensures aggroTarget.None? ==>
                lastKnownTarget == old(lastKnownTarget) && lastKnownPosition == old(lastKnownPosition)
      ensures aggroTarget.None? && old(lastKnownTarget).Some? ==>
                timesNotSeen == old(timesNotSeen) + 1 &&
                if timesNotSeen > w.units[unit].intelligence || w.units[unit].aggression == 0
                then action.kind == Rethink
                else action.kind == Walk && action.target == old(lastKnownPosition)
      ensures aggroTarget.None? && old(lastKnownTarget).None? ==>
                timesNotSeen == old(timesNotSeen) && action.kind == Rethink
      ensures action.kind != Rethink ==> action.tu == o.actionTUs(action.kind, action.weapon)
    {
      action.kind := Rethink;
      aggroTarget := None;
      next := Acquire(action, w, o, s, k);
      next, fx := RegularTargeting(action, w, o, s, next);
    }

    /** `think` (lines 138-515): decide the unit's action for this AI cycle. The draws
      of the random source are read from cursor k on; `next` is the cursor after them. */
    method Think(action: BattleAction, w: World, o: Oracles, s: Stream, k: nat) returns (next: nat, fx: Effects)
      requires unit < |w.units| && WellFormed(w) && Armed(w, o, unit, s, k)
      modifies this`aggroTarget, this`lastKnownTarget, this`timesNotSeen, this`lastKnownPosition
      modifies action`kind, action`actor, action`target, action`weapon, action`tu, action`waypoints
      ensures next >= k
      ensures action.actor == unit
      // Neither seeing nor spotted: the psionic and waypoint stages decide.
      ensures var (t0, k0) := Acquired(w, o, unit, action.diff, s, k);
              !Engaged(w, o, unit) ==>
                aggroTarget == t0 && next == k0 && fx == Effects(Untouched, 0, false) &&
                Acquires(action, w, o, unit, t0, s, k)
      // Seeing a unit or being spotted: the nearest living visible unit is engaged.
      ensures var (t0, k0) := Acquired(w, o, unit, action.diff, s, k);
              Engaged(w, o, unit) ==>
                Nearest(w, o, unit, t0, aggroTarget) &&
                (aggroTarget.Some? ==>
                   var r := Reaction(w, o, unit, aggroTarget.value, action.diff, s, k0);
                   Follows(action, r) && fx == r.fx && next == r.next)
      ensures !(Engaged(w, o, unit) && aggroTarget.Some?) ==> fx == Effects(Untouched, 0, false)
      // A strike needs a melee weapon and the target in melee range.
      ensures action.kind == Hit ==> Engaged(w, o, unit) && aggroTarget.Some? && o.meleeNow(aggroTarget.value)
      // A target chosen this cycle is remembered, with where it stands, and the counter reset.
      ensures Remembers(w)
      // Without a target the memory is kept.
      ensures aggroTarget.None? ==>
                lastKnownTarget == old(lastKnownTarget) && lastKnownPosition == old(lastKnownPosition)
      // The lost-target counter (lines 330-341).
      ensures aggroTarget.None? && Engaged(w, o, unit) && old(lastKnownTarget).Some? ==>
                timesNotSeen == old(timesNotSeen) + 1 &&
                if timesNotSeen > w.units[unit].intelligence || w.units[unit].aggression == 0
                then action.kind == Rethink
                else action.kind == Walk && action.target == old(lastKnownPosition)
      ensures aggroTarget.None? && !(Engaged(w, o, unit) && old(lastKnownTarget).Some?) ==>
                timesNotSeen == old(timesNotSeen) && action.kind == Rethink
      // Psionic attacks go at the cell of an exposed unit.
      ensures action.kind == MindControl || action.kind == Panic ==>
                !Engaged(w, o, unit) && aggroTarget.Some? && aggroTarget.value in w.exposed &&
                action.target == w.units[aggroTarget.value].position
      // A launch that stands has few enough waypoints, ending on the target.
      ensures action.kind == Launch ==>
                !Engaged(w, o, unit) && aggroTarget.Some? && CanLaunch(w, unit) && LaunchShape(action, w, unit, aggroTarget.value)
      // Once regular targeting has run, a chosen action carries its time-unit cost.
      ensures Engaged(w, o, unit) && action.kind != Rethink ==> action.tu == o.actionTUs(action.kind, action.weapon)
    {
      if Engaged(w, o, unit) {
        next, fx := ThinkEngaged(action, w, o, s, k);
      } else {
        next := ThinkQuiet(action, w, o, s, k);
        fx := Effects(Untouched, 0, false);
      }
      action.actor := unit;
    }
  }
}
