/**
 * Common components and tags, and the callback that mirrors an entity's
 * Position component into its tag set.
 */
module Components {
  import opened Wrappers
  import opened Constants

  /** A frozen grid position. */
  datatype Position = Position(x: int, y: int) {
    /** `Position + (dx, dy)`: a new position; the receiver is a value and stays as it was. */
    function Add(v: Vec): (r: Position)
      ensures r.x - x == v.dx && r.y - y == v.dy
    {
      Position(x + v.dx, y + v.dy)
    }
  }

  function Negate(v: Vec): Vec {
    Vec(-v.dx, -v.dy)
  }

  /** Adding a step and then its opposite returns to the start. */
  lemma AddThenSubtract(p: Position, v: Vec)
    ensures p.Add(v).Add(Negate(v)) == p
  {
  }

  /** Adding two steps one after the other is adding their sum. */
  lemma AddTwice(p: Position, v: Vec, w: Vec)
    ensures p.Add(v).Add(w) == p.Add(Vec(v.dx + w.dx, v.dy + w.dy))
  {
  }

  /** An entity's glyph (a code point) and foreground colour. */
  datatype Graphic = Graphic(ch: int, fg: (int, int, int))

  const White: (int, int, int) := (255, 255, 255)
  const Yellow: (int, int, int) := (255, 255, 0)

  /** Tags are the strings of game/tags.py or Position values mirrored from the component. */
  datatype Tag = Named(name: string) | At(pos: Position)

  const IsPlayer: Tag := Named("IsPlayer")
  const IsActor: Tag := Named("IsActor")
  const IsItem: Tag := Named("IsItem")

  /**
   * on_position_changed: the entity's tags after its Position went from
   * `before` to `after` (None = component absent).
   */
  function OnPositionChanged(tags: set<Tag>, before: Option<Position>, after: Option<Position>): (r: set<Tag>)
    ensures before == after ==> r == tags
    ensures before != after && after.Some? ==> At(after.value) in r
    ensures before.Some? && before != after ==> At(before.value) !in r
    ensures forall t :: t in r && t !in tags ==> after.Some? && t == At(after.value)
    ensures forall t :: t in tags && t !in r ==> before.Some? && t == At(before.value)
  {
    if before == after then tags
    else
      var dropped := if before.Some? then tags - {At(before.value)} else tags;
      if after.Some? then dropped + {At(after.value)} else dropped
  }

  /**
   * The mirroring invariant of one entity: its position tags are exactly the
   * one position it holds, or none when it has no Position.
   */
  ghost predicate Mirrored(position: Option<Position>, tags: set<Tag>) {
    (forall t :: t in tags && t.At? ==> position == Some(t.pos)) &&
    (position.Some? ==> At(position.value) in tags)
  }

  /** Every Position write through the callback keeps the invariant. */
  lemma MirrorPreserved(tags: set<Tag>, before: Option<Position>, after: Option<Position>)
    requires Mirrored(before, tags)
    ensures Mirrored(after, OnPositionChanged(tags, before, after))
  {
  }

  /**
   * Moving an entity from p to q: afterwards it is tagged q and not p, and no
   * other tag changed.
   */
  lemma MoveRetags(tags: set<Tag>, p: Position, q: Position)
    requires p != q
    ensures var t2 := OnPositionChanged(tags, Some(p), Some(q));
      At(q) in t2 && At(p) !in t2 && t2 - {At(q)} == tags - {At(p), At(q)}
  {
  }
}
