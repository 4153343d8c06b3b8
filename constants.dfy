/**
 * The direction-key table: each movement key maps to a unit step (dx, dy) on
 * the grid, with y growing downward.  game/states.py carries an identical copy
 * of the table; both are modelled by `Direction`.
 */
module Constants {
  import opened Wrappers
  import opened Events

  datatype Vec = Vec(dx: int, dy: int)

  /** The three families of movement keys. */
  datatype KeyGroup = Navigation | Keypad | Vi

  /** DIRECTION_KEYS as a lookup: `None` for a key that is not in the table. */
  function Direction(k: KeySym): (r: Option<Vec>)
    ensures r.Some? ==> -1 <= r.value.dx <= 1 && -1 <= r.value.dy <= 1
    ensures r.Some? ==> r.value != Vec(0, 0)
  {
    match k
    case Left => Some(Vec(-1, 0))
    case Right => Some(Vec(1, 0))
    case Up => Some(Vec(0, -1))
    case Down => Some(Vec(0, 1))
    case Home => Some(Vec(-1, -1))
    case End => Some(Vec(-1, 1))
    case PageUp => Some(Vec(1, -1))
    case PageDown => Some(Vec(1, 1))
    case Kp4 => Some(Vec(-1, 0))
    case Kp6 => Some(Vec(1, 0))
    case Kp8 => Some(Vec(0, -1))
    case Kp2 => Some(Vec(0, 1))
    case Kp7 => Some(Vec(-1, -1))
    case Kp1 => Some(Vec(-1, 1))
    case Kp9 => Some(Vec(1, -1))
    case Kp3 => Some(Vec(1, 1))
    case LowerH => Some(Vec(-1, 0))
    case LowerL => Some(Vec(1, 0))
    case LowerK => Some(Vec(0, -1))
    case LowerJ => Some(Vec(0, 1))
    case LowerY => Some(Vec(-1, -1))
    case LowerB => Some(Vec(-1, 1))
    case LowerU => Some(Vec(1, -1))
    case LowerN => Some(Vec(1, 1))
    case _ => None
  }

  predicate IsDirectionKey(k: KeySym) {
    Direction(k).Some?
  }

  /** Which family a key of the table belongs to. */
  function GroupOf(k: KeySym): Option<KeyGroup> {
    match k
    case Left | Right | Up | Down | Home | End | PageUp | PageDown => Some(Navigation)
    case Kp4 | Kp6 | Kp8 | Kp2 | Kp7 | Kp1 | Kp9 | Kp3 => Some(Keypad)
    case LowerH | LowerL | LowerK | LowerJ | LowerY | LowerB | LowerU | LowerN => Some(Vi)
    case _ => None
  }

  /** One of the eight neighbouring steps. */
  predicate IsUnitStep(v: Vec) {
    -1 <= v.dx <= 1 && -1 <= v.dy <= 1 && v != Vec(0, 0)
  }

  /** The key of family `g` that produces step `v`. */
  function KeyFor(v: Vec, g: KeyGroup): (k: KeySym)
    requires IsUnitStep(v)
    ensures Direction(k) == Some(v) && GroupOf(k) == Some(g)
  {
    match g
    case Navigation =>
      if v.dy == 0 then (if v.dx < 0 then Left else Right)
      else if v.dx == 0 then (if v.dy < 0 then Up else Down)
      else if v.dx < 0 then (if v.dy < 0 then Home else End)
      else (if v.dy < 0 then PageUp else PageDown)
    case Keypad =>
      if v.dy == 0 then (if v.dx < 0 then Kp4 else Kp6)
      else if v.dx == 0 then (if v.dy < 0 then Kp8 else Kp2)
      else if v.dx < 0 then (if v.dy < 0 then Kp7 else Kp1)
      else (if v.dy < 0 then Kp9 else Kp3)
    case Vi =>
      if v.dy == 0 then (if v.dx < 0 then LowerH else LowerL)
      else if v.dx == 0 then (if v.dy < 0 then LowerK else LowerJ)
      else if v.dx < 0 then (if v.dy < 0 then LowerY else LowerB)
      else (if v.dy < 0 then LowerU else LowerN)
  }

  /**
   * Every key of the table is the `KeyFor` of its step and family, so each of
   * the eight steps is produced by exactly three keys, one per family.
   */
  lemma KeysPerStep(k: KeySym)
    ensures IsDirectionKey(k) <==> GroupOf(k).Some?
    ensures IsDirectionKey(k) ==> k == KeyFor(Direction(k).value, GroupOf(k).value)
  {
  }

  /** The three keys producing a step are distinct and are the only ones. */
  lemma ThreeKeysPerStep(v: Vec, k: KeySym)
    requires IsUnitStep(v)
    ensures Direction(k) == Some(v) <==> k in {KeyFor(v, Navigation), KeyFor(v, Keypad), KeyFor(v, Vi)}
    ensures |{KeyFor(v, Navigation), KeyFor(v, Keypad), KeyFor(v, Vi)}| == 3
  {
    KeysPerStep(k);
    var a, b, c := KeyFor(v, Navigation), KeyFor(v, Keypad), KeyFor(v, Vi);
    assert GroupOf(a) != GroupOf(b) && GroupOf(b) != GroupOf(c) && GroupOf(a) != GroupOf(c);
  }

  /**
   * The screen's y axis grows downward.  This reads off four entries of
   * `Direction`; the structure of the whole table is proved in `KeysPerStep`.
   */
  lemma ArrowSteps()
    ensures Direction(Up) == Some(Vec(0, -1)) && Direction(Down) == Some(Vec(0, 1))
    ensures Direction(Left) == Some(Vec(-1, 0)) && Direction(Right) == Some(Vec(1, 0))
  {
  }

  /** A purely vertical key: the only keys that move a menu selection. */
  predicate IsVerticalKey(k: KeySym) {
    Direction(k).Some? && Direction(k).value.dx == 0 && Direction(k).value.dy != 0
  }

  lemma VerticalKeys(k: KeySym)
    ensures IsVerticalKey(k) <==> k in {Up, Down, Kp8, Kp2, LowerK, LowerJ}
    ensures IsVerticalKey(k) ==> Direction(k).value.dy == 1 || Direction(k).value.dy == -1
  {
  }
}
