/** The four persistent fields of the aggressive AI state and their saved form
    (`AggroBAIState::save` / `load`, lines 58-113): each target as its unit id or -1,
    the last known position as three integers, and the not-seen counter. */
module Persistence {
  import opened Battle

  /** The sentinel id saved for "no unit". */
  const NO_UNIT := -1

  /** The aggro fields: the current target, the last known target, where that target
      was last seen, and for how many turns it has not been seen. Targets are unit indices. */
  datatype AggroFields = AggroFields(aggroTarget: Option<nat>, lastKnownTarget: Option<nat>, lastKnownPosition: Position, timesNotSeen: int)

  /** The saved record: the two target ids (or NO_UNIT), the position and the counter. */
  datatype SavedAggro = SavedAggro(aggroTarget: int, lastKnownTarget: int, x: int, y: int, z: int, timesNotSeen: int)

  /** The state the constructor creates (line 41): no targets, counter 0, and a
      default-constructed position. */
  function Initial(): AggroFields {
    AggroFields(None, None, Position(0, 0, 0), 0)
  }

  /** Both targets refer to units of the list. */
  predicate RefersInto(f: AggroFields, units: seq<Unit>) {
    (f.aggroTarget.Some? ==> f.aggroTarget.value < |units|) &&
    (f.lastKnownTarget.Some? ==> f.lastKnownTarget.value < |units|)
  }

  function IdOf(t: Option<nat>, units: seq<Unit>): int
    requires t.Some? ==> t.value < |units|
  {
    if t.Some? then units[t.value].id else NO_UNIT
  }

  /** What save writes (lines 89-113). */
  function Encode(f: AggroFields, units: seq<Unit>): SavedAggro
    requires RefersInto(f, units)
  {
    var p := f.lastKnownPosition;
    SavedAggro(IdOf(f.aggroTarget, units), IdOf(f.lastKnownTarget, units), p.x, p.y, p.z, f.timesNotSeen)
  }

  /** The scan of load over units[..n]: the LAST unit whose id is id (the loop does not stop at a match). */
  function LastWithId(units: seq<Unit>, id: int, n: nat): (r: Option<nat>)
    requires n <= |units|
    ensures r.Some? ==> r.value < n && units[r.value].id == id
    ensures r.Some? ==> forall j :: r.value < j < n ==> units[j].id != id
    ensures r.None? ==> forall j :: 0 <= j < n ==> units[j].id != id
  {
    if n == 0 then None
    else if units[n - 1].id == id then Some(n - 1)
    else LastWithId(units, id, n - 1)
  }

  /** How load sets one target from a saved id: for NO_UNIT, or an id no unit has, the
      target keeps its prior value; otherwise it becomes the last unit with that id. */
  function Resolve(prior: Option<nat>, units: seq<Unit>, id: int): Option<nat> {
    if id == NO_UNIT then prior
    else
      match LastWithId(units, id, |units|)
      case None => prior
      case Some(i) => Some(i)
  }

  /** What load makes of the fields (lines 58-83). */
  function Decode(prior: AggroFields, r: SavedAggro, units: seq<Unit>): AggroFields {
    AggroFields(Resolve(prior.aggroTarget, units, r.aggroTarget),
                Resolve(prior.lastKnownTarget, units, r.lastKnownTarget),
                Position(r.x, r.y, r.z), r.timesNotSeen)
  }

  /** Unit ids identify units: no two share one, and none is the sentinel. */
  predicate IdsIdentify(units: seq<Unit>) {
    (forall i, j :: 0 <= i < j < |units| ==> units[i].id != units[j].id) &&
    (forall i :: 0 <= i < |units| ==> units[i].id != NO_UNIT)
  }

  /** With identifying ids, a saved target id resolves to the very unit it came from. */
  lemma ResolveIdOf(prior: Option<nat>, units: seq<Unit>, t: Option<nat>)
    requires IdsIdentify(units) && (t.Some? ==> t.value < |units|)
    requires prior.None?
    ensures Resolve(prior, units, IdOf(t, units)) == t
  {
    if t.Some? {
      var r := LastWithId(units, units[t.value].id, |units|);
      assert r == t;
    }
  }

  /** Saving and then loading into a freshly constructed state restores all four
      fields, provided unit ids identify units and the targets are units of the list. */
  lemma SaveLoadRoundTrip(f: AggroFields, units: seq<Unit>)
    requires RefersInto(f, units) && IdsIdentify(units)
    ensures Decode(Initial(), Encode(f, units), units) == f
  {
    ResolveIdOf(None, units, f.aggroTarget);
    ResolveIdOf(None, units, f.lastKnownTarget);
  }
}
