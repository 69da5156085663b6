/**
 * The part of the entity store this program uses: every entity carries a
 * `Pos` and a `MoveTo` (src/render.rs creates them together), entity k is
 * slot k of both storages, and a join visits the entities in slot order.
 */
module Ecs {
  import opened Components

  class World {
    /** `Pos` storage, written in place by the mover. */
    var pos: array<Pos>
    /** `MoveTo` storage, fixed after creation. */
    var moveTo: seq<MoveTo>

    ghost predicate Valid()
      reads this
    {
      pos.Length == |moveTo|
    }

    /** Creates one entity per target, all at the same starting position. */
    constructor (start: Pos, targets: seq<MoveTo>)
      ensures Valid() && fresh(pos)
      ensures moveTo == targets
      ensures forall k :: 0 <= k < pos.Length ==> pos[k] == start
    {
      pos := new Pos[|targets|](_ => start);
      moveTo := targets;
    }
  }
}
