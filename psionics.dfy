/** The psionic stage of `AggroBAIState::think`: pick the exposed unit the actor's
    psionic attack is strongest against, then decide between mind control and panic. */
module Psionics {
  import opened Battle
  import opened Rng

  /** At most this many exposed units are examined. */
  const PSI_TRIES := 80
  /** The opening roll `generate(0, 100)` must exceed this. */
  const PSI_ROLL := 66
  /** Scores at or above this may become mind control; lower positive scores only panic. */
  const CONTROL_SCORE := 30
  /** Armour size of units the psionic attack leaves alone (tanks). */
  const TANK_SIZE := 2

  /** The stage runs at all: the actor has psionic skill, is not a soldier and knows of an exposed unit. */
  predicate Opportunity(w: World, actor: nat)
    requires actor < |w.units|
  {
    w.units[actor].psiSkill != 0 && w.units[actor].unitType != "SOLDIER" && |w.exposed| > 0
  }

  /** The exposed units the scan examines: the first PSI_TRIES of them. */
  function Examined(w: World): (es: seq<nat>)
    ensures |es| <= PSI_TRIES && |es| <= |w.exposed| && es == w.exposed[..|es|]
    ensures |es| == |w.exposed| || |es| == PSI_TRIES
  {
    if |w.exposed| <= PSI_TRIES then w.exposed else w.exposed[..PSI_TRIES]
  }

  /** A unit the psionic attack may pick: anything but a tank. */
  predicate Targetable(w: World, e: nat) {
    e < |w.units| && w.units[e].size != TANK_SIZE
  }

  /** How many of the first n units of es are targetable: each of them costs one draw. */
  function TargetableCount(w: World, es: seq<nat>, n: nat): nat
    requires n <= |es|
  {
    if n == 0 then 0
    else TargetableCount(w, es, n - 1) + (if Targetable(w, es[n - 1]) then 1 else 0)
  }

  /** The strength of the attack on unit e given the draw r of `generate(0, 50)`:
      psiSkill * psiStrength / 50 - 0.4 * (e's psiSkill) - distance / 2 - (e's psiStrength) + r + 55,
      with the fractional term computed exactly and the sum truncated toward zero as
      its conversion to `int` does. */
  function AttackScore(w: World, o: Oracles, actor: nat, e: nat, r: int): int
    requires actor < |w.units| && e < |w.units|
  {
    var a := w.units[actor];
    var t := w.units[e];
    var whole := Quot(a.psiSkill * a.psiStrength, 50) - Quot(o.distance(a.position, t.position), 2) - t.psiStrength + r + 55;
    Quot(5 * whole - 2 * t.psiSkill, 5)
  }

  /** The score of es[i]: its draw is the one after those of the targetable units before it in es. */
  function ScoreAt(w: World, o: Oracles, actor: nat, es: seq<nat>, s: Stream, k: nat, i: nat): int
    requires actor < |w.units| && i < |es| && es[i] < |w.units|
  {
    AttackScore(w, o, actor, es[i], Generate(s, k + TargetableCount(w, es, i), 0, 50))
  }

  /** The reference for the scan over es[..n]: the position of the first unit with
      the greatest positive score, with that score, or none when no score is positive. */
  function BestScore(w: World, o: Oracles, actor: nat, es: seq<nat>, s: Stream, k: nat, n: nat): (r: Option<(nat, int)>)
    requires actor < |w.units| && n <= |es|
    ensures r.Some? ==> r.value.0 < n && Targetable(w, es[r.value.0]) &&
                        r.value.1 == ScoreAt(w, o, actor, es, s, k, r.value.0) && r.value.1 > 0
    ensures r.Some? ==> forall i :: 0 <= i < n && Targetable(w, es[i]) ==> ScoreAt(w, o, actor, es, s, k, i) <= r.value.1
    ensures r.Some? ==> forall i :: 0 <= i < r.value.0 && Targetable(w, es[i]) ==> ScoreAt(w, o, actor, es, s, k, i) < r.value.1
    ensures r.None? ==> forall i :: 0 <= i < n && Targetable(w, es[i]) ==> ScoreAt(w, o, actor, es, s, k, i) <= 0
  {
    if n == 0 then None
    else
      var b := BestScore(w, o, actor, es, s, k, n - 1);
      var bar := if b.None? then 0 else b.value.1;
      if Targetable(w, es[n - 1]) && ScoreAt(w, o, actor, es, s, k, n - 1) > bar
      then Some((n - 1, ScoreAt(w, o, actor, es, s, k, n - 1)))
      else b
  }

  /** The scan loop over the examined exposed units es (lines 156-178; `tries` counts
      the units looked at, so es is at most the first PSI_TRIES of them). It returns
      the position in es of the unit with the greatest positive score (the first one on
      a tie) and that score, or no unit and 0 when no score is positive. */
  method PsionicScan(w: World, o: Oracles, actor: nat, es: seq<nat>, s: Stream, k: nat) returns (pick: Option<nat>, chance: int, next: nat)
    requires actor < |w.units|
    ensures next == k + TargetableCount(w, es, |es|)
    ensures var b := BestScore(w, o, actor, es, s, k, |es|);
            pick == (if b.None? then None else Some(b.value.0)) && chance == (if b.None? then 0 else b.value.1)
    ensures pick.None? ==> chance == 0
    ensures pick.None? ==> forall i :: 0 <= i < |es| && Targetable(w, es[i]) ==> ScoreAt(w, o, actor, es, s, k, i) <= 0
    ensures pick.Some? ==> pick.value < |es| && Targetable(w, es[pick.value])
    ensures pick.Some? ==> chance == ScoreAt(w, o, actor, es, s, k, pick.value) && chance > 0
    ensures pick.Some? ==> forall i :: 0 <= i < |es| && Targetable(w, es[i]) ==> ScoreAt(w, o, actor, es, s, k, i) <= chance
    ensures pick.Some? ==> forall i :: 0 <= i < pick.value && Targetable(w, es[i]) ==> ScoreAt(w, o, actor, es, s, k, i) < chance
  {
    pick, chance, next := None, 0, k;
    var tries := 0;
    while tries < |es|
      invariant 0 <= tries <= |es|
      invariant next == k + TargetableCount(w, es, tries)
      invariant pick.None? ==> chance == 0 && BestScore(w, o, actor, es, s, k, tries).None?
      invariant pick.Some? ==> BestScore(w, o, actor, es, s, k, tries) == Some((pick.value, chance))
    {
      var e := es[tries];
      if Targetable(w, e) {
        var score := AttackScore(w, o, actor, e, Generate(s, next, 0, 50));
        next := next + 1;
        if score > chance {
          chance := score;
          pick := Some(tries);
        }
      }
      tries := tries + 1;
    }
  }

  /** The mind-control threshold for a target of the given bravery and morale
      (lines 203-222): 60, +15 for bravery above 60, -15 for bravery below 40,
      +15 when morale is at least 40 and morale - 10 * bravery is below 50,
      -15 when morale is below 40, and 0 when morale is 0. */
  function ControlOrPanic(bravery: int, morale: int): int {
    if morale == 0 then 0
    else
      60 + (if bravery > 60 then 15 else 0) - (if bravery < 40 then 15 else 0)
         + (if morale >= 40 then (if morale - 10 * bravery < 50 then 15 else 0) else -15)
  }

  /** The best pick of the scan, whose draws start at cursor k + 1 (after the opening roll). */
  function StageBest(w: World, o: Oracles, actor: nat, s: Stream, k: nat): Option<(nat, int)>
    requires actor < |w.units|
  {
    BestScore(w, o, actor, Examined(w), s, k + 1, |Examined(w)|)
  }

  /** Line 185 reads the main-hand weapon without a check, on the path where the stage
      runs, its opening roll passes and the scan picks a unit. */
  predicate ReachesWeapon(w: World, o: Oracles, actor: nat, s: Stream, k: nat)
    requires actor < |w.units|
  {
    Opportunity(w, actor) && Generate(s, k, 0, 100) > PSI_ROLL && StageBest(w, o, actor, s, k).Some?
  }

  /** The precondition this model places on the stage: the actor holds a weapon wherever
      the stage reads it. */
  predicate Armed(w: World, o: Oracles, actor: nat, s: Stream, k: nat)
    requires actor < |w.units|
  {
    ReachesWeapon(w, o, actor, s, k) ==> w.units[actor].mainHand.Some?
  }

  /** The attack survives its gate: the loaded ammunition's power is below the score
      or, without ammunition, a draw of generate(35, 155) at cursor kd is. */
  predicate Undeterred(w: World, actor: nat, chance: int, s: Stream, kd: nat)
    requires actor < |w.units|
  {
    var m := w.units[actor].mainHand;
    m.Some? && if m.value.ammo.Some? then m.value.ammo.value.power < chance else Generate(s, kd, 35, 155) < chance
  }

  /** What the stage yields: the unit attacked, the attack kind, the surviving score, and
      the cursor after its draws. */
  datatype PsiResult = PsiResult(target: Option<nat>, kind: Option<ActionType>, chance: int, next: nat)

  /** The reference for the stage. Draws, in order: the opening roll at k, one per
      targetable examined unit, the ammunition-less gate roll, and the control roll. */
  function PsiOutcome(w: World, o: Oracles, actor: nat, s: Stream, k: nat): (r: PsiResult)
    requires actor < |w.units|
    ensures r.next >= k && (r.target.Some? <==> r.kind.Some?)
    ensures r.target.Some? ==> Targetable(w, r.target.value)
  {
    if !Opportunity(w, actor) then PsiResult(None, None, 0, k)
    else if Generate(s, k, 0, 100) <= PSI_ROLL then PsiResult(None, None, 0, k + 1)
    else
      var es := Examined(w);
      var kd := k + 1 + TargetableCount(w, es, |es|);
      match StageBest(w, o, actor, s, k)
      case None => PsiResult(None, None, 0, kd)
      case Some((p, chance)) =>
        var m := w.units[actor].mainHand;
        var kc := kd + (if m.Some? && m.value.ammo.None? then 1 else 0);
        var e := es[p];
        if !Undeterred(w, actor, chance, s, kd) then PsiResult(None, None, 0, kc)
        else if chance < CONTROL_SCORE then PsiResult(Some(e), Some(Panic), chance, kc)
        else
          var control := Generate(s, kc, 0, 100) >= ControlOrPanic(w.units[e].bravery, w.units[e].morale);
          PsiResult(Some(e), Some(if control then MindControl else Panic), chance, kc + 1)
  }

  /** What the stage promises (lines 154-240): it runs only on an opportunity and an opening
      roll above 66; an attack aims at the examined non-tank unit with the first greatest
      positive score, and survives only a gate that the weapon's ammunition power (or,
      without ammunition, a `generate(35, 155)` roll) stays below; mind control needs a score
      of 30 and a control roll at the target's threshold, and otherwise the attack panics. */
  lemma PsiOutcomeMeaning(w: World, o: Oracles, actor: nat, s: Stream, k: nat)
    requires actor < |w.units| && WellFormed(w)
    ensures var r := PsiOutcome(w, o, actor, s, k);
            && r.next >= k
            && (r.target.Some? <==> r.kind.Some?)
            && (!Opportunity(w, actor) ==> r.target.None? && r.next == k)
            && (r.target.Some? <==>
                  ReachesWeapon(w, o, actor, s, k) &&
                  Undeterred(w, actor, StageBest(w, o, actor, s, k).value.1, s, k + 1 + TargetableCount(w, Examined(w), |Examined(w)|)))
            && (r.target.Some? ==>
                  var b := StageBest(w, o, actor, s, k).value;
                  b.0 < |Examined(w)| && r.target.value == Examined(w)[b.0] && r.chance == b.1)
            && (r.target.Some? ==> r.target.value in w.exposed && Targetable(w, r.target.value))
            && (r.target.Some? ==> r.chance > 0 && (r.kind.value == MindControl || r.kind.value == Panic))
            && (r.kind == Some(MindControl) ==> r.chance >= CONTROL_SCORE)
            && (r.target.Some? && r.chance >= CONTROL_SCORE ==>
                  r.next >= 1 &&
                  (r.kind.value == MindControl <==>
                   Generate(s, r.next - 1, 0, 100) >= ControlOrPanic(w.units[r.target.value].bravery, w.units[r.target.value].morale)))
            && (r.target.Some? && r.chance >= CONTROL_SCORE && w.units[r.target.value].morale == 0 ==> r.kind == Some(MindControl))
  {
    var es := Examined(w);
    var b := StageBest(w, o, actor, s, k);
    if Opportunity(w, actor) && Generate(s, k, 0, 100) > PSI_ROLL && b.Some? {
      assert es[b.value.0] == w.exposed[b.value.0];
    }
  }

  /** The whole psionic stage (lines 154-240). It yields the unit attacked (as a unit
      index) and the attack kind, or neither; the score that survived the gates; and the
      cursor after its draws. */
  method PsionicAttack(w: World, o: Oracles, actor: nat, s: Stream, k: nat)
    returns (target: Option<nat>, kind: Option<ActionType>, chance: int, next: nat)
    requires actor < |w.units| && WellFormed(w) && Armed(w, o, actor, s, k)
    ensures PsiResult(target, kind, chance, next) == PsiOutcome(w, o, actor, s, k)
  {
    target, kind, chance, next := None, None, 0, k;
    if !Opportunity(w, actor) {
      return;
    }
    var roll := Generate(s, next, 0, 100);
    next := next + 1;
    if roll <= PSI_ROLL {
      return;
    }
    var es := Examined(w);
    var pick;
    pick, chance, next := PsionicScan(w, o, actor, es, s, next);
    if pick.None? {
      return;
    }
    var e := es[pick.value];
    assert e == w.exposed[pick.value];
    var kd := next;
    // The attack is dropped when the loaded ammunition is at least as strong as the
    // score, or, without ammunition, when a roll of generate(35, 155) reaches it.
    var ammo := w.units[actor].mainHand.value.ammo;
    var dropped: bool;
    if ammo.Some? {
      dropped := ammo.value.power >= chance;
    } else {
      dropped := Generate(s, next, 35, 155) >= chance;
      next := next + 1;
    }
    assert dropped <==> !Undeterred(w, actor, chance, s, kd);
    if dropped {
      chance := 0;
      return;
    }
    target := Some(e);
    if chance >= CONTROL_SCORE {
      var threshold := ControlOrPanic(w.units[e].bravery, w.units[e].morale);
      if Generate(s, next, 0, 100) >= threshold {
        kind := Some(MindControl);
      } else {
        kind := Some(Panic);
      }
      next := next + 1;
    } else {
      kind := Some(Panic);
    }
  }
}
