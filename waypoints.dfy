/** The waypoint stage of `AggroBAIState::think` (lines 246-311): a unit with a
    waypoint launcher picks a target its allies can see, then plots the waypoints
    of the launch along the path towards it. */
module Waypoints {
  import opened Battle
  import opened Rng
  import opened Efficacy

  /** A launch may use at most PATH_CAP_BASE + 2 * difficulty waypoints. */
  const PATH_CAP_BASE := 6

  /** The actor can launch: it holds a loaded waypoint weapon and is not a soldier. */
  predicate CanLaunch(w: World, actor: nat)
    requires actor < |w.units|
  {
    var a := w.units[actor];
    a.mainHand.Some? && a.mainHand.value.ammo.Some? && a.mainHand.value.waypoint && a.unitType != "SOLDIER"
  }

  /** Blast radius the efficacy gate is asked about: ammunition power / 20 + 1. */
  function LaunchRadius(weapon: Item): int
    requires weapon.ammo.Some?
  {
    Quot(weapon.ammo.value.power, 20) + 1
  }

  /** The units seen by the units i.. of the given faction, in the order the nested
      loops visit them. */
  function Sightings(w: World, faction: Faction, i: nat): (r: seq<nat>)
    requires i <= |w.units| && WellFormed(w)
    ensures forall j :: 0 <= j < |r| ==> r[j] < |w.units|
    decreases |w.units| - i
  {
    if i == |w.units| then []
    else (if w.units[i].faction == faction then w.units[i].visible else []) + Sightings(w, faction, i + 1)
  }

  /** The first candidate the actor has a path to and at which the launch passes the
      efficacy gate, with the cursor after the draws of the gates asked along the way. */
  function FirstLaunchable(w: World, o: Oracles, actor: nat, radius: int, diff: int, s: Stream, cands: seq<nat>, k: nat): (Option<nat>, nat)
    requires actor < |w.units| && forall j :: 0 <= j < |cands| ==> cands[j] < |w.units|
  {
    if cands == [] then (None, k)
    else
      var c := cands[0];
      var p := w.units[c].position;
      if !o.reachable(p, Some(c)) then FirstLaunchable(w, o, actor, radius, diff, s, cands[1..], k)
      else if ExplosiveEfficacy(w, o, actor, p, radius, diff, s, k) then (Some(c), k + DrawsUsed(w))
      else FirstLaunchable(w, o, actor, radius, diff, s, cands[1..], k + DrawsUsed(w))
  }

  /** Scanning two lists one after the other is scanning their concatenation. */
  lemma {:induction false} FirstLaunchableAppend(w: World, o: Oracles, actor: nat, radius: int, diff: int, s: Stream, xs: seq<nat>, ys: seq<nat>, k: nat)
    requires actor < |w.units|
    requires forall j :: 0 <= j < |xs| ==> xs[j] < |w.units|
    requires forall j :: 0 <= j < |ys| ==> ys[j] < |w.units|
    ensures var (t, k') := FirstLaunchable(w, o, actor, radius, diff, s, xs, k);
            FirstLaunchable(w, o, actor, radius, diff, s, xs + ys, k) ==
            if t.Some? then (t, k') else FirstLaunchable(w, o, actor, radius, diff, s, ys, k')
    decreases |xs|
  {
    if xs == [] {
      assert xs + ys == ys;
    } else {
      assert (xs + ys)[0] == xs[0];
      assert (xs + ys)[1..] == xs[1..] + ys;
      FirstLaunchableAppend(w, o, actor, radius, diff, s, xs[1..], ys, k);
      FirstLaunchableAppend(w, o, actor, radius, diff, s, xs[1..], ys, k + DrawsUsed(w));
    }
  }

  /** The inner loop of lines 252-260, over the units one ally sees. */
  method ScanSeen(w: World, o: Oracles, actor: nat, radius: int, diff: int, s: Stream, seen: seq<nat>, k: nat)
    returns (target: Option<nat>, next: nat)
    requires actor < |w.units| && forall j :: 0 <= j < |seen| ==> seen[j] < |w.units|
    ensures (target, next) == FirstLaunchable(w, o, actor, radius, diff, s, seen, k)
  {
    target, next := None, k;
    var j := 0;
    while j < |seen| && target.None?
      invariant 0 <= j <= |seen|
      invariant FirstLaunchable(w, o, actor, radius, diff, s, seen, k) ==
                if target.Some? then (target, next) else FirstLaunchable(w, o, actor, radius, diff, s, seen[j..], next)
    {
      var c := seen[j];
      assert seen[j..][1..] == seen[j + 1..];
      var p := w.units[c].position;
      if o.reachable(p, Some(c)) {
        if ExplosiveEfficacy(w, o, actor, p, radius, diff, s, next) {
          target := Some(c);
        }
        next := next + DrawsUsed(w);
      }
      j := j + 1;
    }
  }

  /** The outer loop of lines 248-262: over every unit of the actor's faction, until
      a target is found. */
  method FindLaunchTarget(w: World, o: Oracles, actor: nat, radius: int, diff: int, s: Stream, k: nat)
    returns (target: Option<nat>, next: nat)
    requires actor < |w.units| && WellFormed(w)
    ensures (target, next) == FirstLaunchable(w, o, actor, radius, diff, s, Sightings(w, w.units[actor].faction, 0), k)
  {
    var faction := w.units[actor].faction;
    ghost var all := Sightings(w, faction, 0);
    target, next := None, k;
    var i := 0;
    while i < |w.units| && target.None?
      invariant 0 <= i <= |w.units|
      invariant FirstLaunchable(w, o, actor, radius, diff, s, all, k) ==
                if target.Some? then (target, next) else FirstLaunchable(w, o, actor, radius, diff, s, Sightings(w, faction, i), next)
    {
      ghost var rest := Sightings(w, faction, i + 1);
      if w.units[i].faction == faction {
        var seen := w.units[i].visible;
        assert Sightings(w, faction, i) == seen + rest;
        FirstLaunchableAppend(w, o, actor, radius, diff, s, seen, rest, next);
        target, next := ScanSeen(w, o, actor, radius, diff, s, seen, next);
      } else {
        assert Sightings(w, faction, i) == [] + rest;
        assert [] + rest == rest;
      }
      i := i + 1;
    }
  }

  /** A launch target is a unit some ally sees and the actor has a path to. */
  lemma {:induction false} LaunchTargetIsReachable(w: World, o: Oracles, actor: nat, radius: int, diff: int, s: Stream, cands: seq<nat>, k: nat)
    requires actor < |w.units| && forall j :: 0 <= j < |cands| ==> cands[j] < |w.units|
    ensures var r := FirstLaunchable(w, o, actor, radius, diff, s, cands, k);
            r.1 >= k &&
            (r.0.Some? ==> r.0.value in cands && o.reachable(w.units[r.0.value].position, r.0))
    decreases |cands|
  {
    if cands != [] {
      LaunchTargetIsReachable(w, o, actor, radius, diff, s, cands[1..], k);
      LaunchTargetIsReachable(w, o, actor, radius, diff, s, cands[1..], k + DrawsUsed(w));
    }
  }

  /** In the grace period no launch target is found and no draw is used. */
  lemma {:induction false} NoLaunchInGracePeriod(w: World, o: Oracles, actor: nat, radius: int, diff: int, s: Stream, cands: seq<nat>, k: nat)
    requires actor < |w.units| && forall j :: 0 <= j < |cands| ==> cands[j] < |w.units|
    requires w.turn < GRACE_TURNS
    ensures FirstLaunchable(w, o, actor, radius, diff, s, cands, k) == (None, k)
    decreases |cands|
  {
    if cands != [] {
      NoLaunchInGracePeriod(w, o, actor, radius, diff, s, cands[1..], k);
    }
  }

  /** The waypoint loop of lines 280-304, from cell `cur` with `lastWaypoint` the last
      waypoint committed so far: each step moves to the next cell; when the line from
      that cell back to the last waypoint strikes terrain, the cell before it becomes a
      waypoint; when it strikes a unit and that unit is the target, the cell itself does.
      Yields the waypoints added and the last waypoint at the end. */
  function Plot(o: Oracles, actor: nat, target: nat, steps: seq<Position>, cur: Position, lastWaypoint: Position): (seq<Position>, Position)
  {
    if steps == [] then ([], lastWaypoint)
    else
      var next := cur.Plus(steps[0]);
      var hit := o.line(Voxel(next), Voxel(lastWaypoint), Some(actor));
      if 0 <= hit < VOXEL_UNIT then
        var (rest, last) := Plot(o, actor, target, steps[1..], next, cur);
        ([cur] + rest, last)
      else if hit == VOXEL_UNIT && o.unitAt(next) == Some(target) then
        var (rest, last) := Plot(o, actor, target, steps[1..], next, next);
        ([next] + rest, last)
      else Plot(o, actor, target, steps[1..], next, lastWaypoint)
  }

  /** The loop itself, dequeuing one step of the path at a time. */
  method PlotWaypoints(o: Oracles, actor: nat, target: nat, start: Position, steps: seq<Position>)
    returns (waypoints: seq<Position>, lastWaypoint: Position)
    ensures (waypoints, lastWaypoint) == Plot(o, actor, target, steps, start, start)
  {
    waypoints := [];
    lastWaypoint := start;
    var cur := start;
    var i := 0;
    assert steps[i..] == steps;
    while i < |steps|
      invariant 0 <= i <= |steps|
      invariant Plot(o, actor, target, steps, start, start).0 == waypoints + Plot(o, actor, target, steps[i..], cur, lastWaypoint).0
      invariant Plot(o, actor, target, steps, start, start).1 == Plot(o, actor, target, steps[i..], cur, lastWaypoint).1
    {
      assert steps[i..][1..] == steps[i + 1..];
      ghost var before := Plot(o, actor, target, steps[i..], cur, lastWaypoint);
      var lastPosition := cur;
      cur := cur.Plus(steps[i]);
      var hit := o.line(Voxel(cur), Voxel(lastWaypoint), Some(actor));
      if 0 <= hit < VOXEL_UNIT {
        waypoints := waypoints + [lastPosition];
        lastWaypoint := lastPosition;
        assert before.0 == [lastPosition] + Plot(o, actor, target, steps[i + 1..], cur, lastWaypoint).0;
      } else if hit == VOXEL_UNIT && o.unitAt(cur) == Some(target) {
        waypoints := waypoints + [cur];
        lastWaypoint := cur;
        assert before.0 == [cur] + Plot(o, actor, target, steps[i + 1..], cur, lastWaypoint).0;
      }
      i := i + 1;
    }
    assert steps[i..] == [];
    assert waypoints + [] == waypoints;
  }

  /** The cells a path passes through: the start and the cell after every step. */
  function Visited(cur: Position, steps: seq<Position>): seq<Position>
    decreases |steps|
  {
    if steps == [] then [cur] else [cur] + Visited(cur.Plus(steps[0]), steps[1..])
  }

  /** The last waypoint tracked by the loop is the last waypoint committed (or the
      starting one when none is), and every waypoint is a cell on the path. */
  lemma {:induction false} PlotShape(o: Oracles, actor: nat, target: nat, steps: seq<Position>, cur: Position, lastWaypoint: Position)
    ensures var (wps, last) := Plot(o, actor, target, steps, cur, lastWaypoint);
            (|wps| == 0 ==> last == lastWaypoint) &&
            (|wps| > 0 ==> wps[|wps| - 1] == last) &&
            (forall i :: 0 <= i < |wps| ==> wps[i] in Visited(cur, steps))
    decreases |steps|
  {
    if steps != [] {
      var next := cur.Plus(steps[0]);
      var hit := o.line(Voxel(next), Voxel(lastWaypoint), Some(actor));
      assert Visited(cur, steps) == [cur] + Visited(next, steps[1..]);
      if 0 <= hit < VOXEL_UNIT {
        PlotShape(o, actor, target, steps[1..], next, cur);
      } else if hit == VOXEL_UNIT && o.unitAt(next) == Some(target) {
        PlotShape(o, actor, target, steps[1..], next, next);
        assert Visited(next, steps[1..])[0] == next;
      } else {
        PlotShape(o, actor, target, steps[1..], next, lastWaypoint);
      }
    }
  }

  /** A launch stands when it has at most 6 + 2 * difficulty waypoints and its last
      waypoint is the target's cell (line 306). The count is unsigned, so the signed
      cap is converted to it: a negative cap becomes a huge one that no count exceeds. */
  predicate LaunchStands(waypoints: seq<Position>, lastWaypoint: Position, targetCell: Position, diff: int) {
    (PATH_CAP_BASE + 2 * diff < 0 || |waypoints| <= PATH_CAP_BASE + 2 * diff) && lastWaypoint == targetCell
  }
}
