/**
 * The tutorial's first state: a player position moved by the four arrow
 * keys, with no bounds check, on an 80 by 50 console.
 */
module ExampleMain {
  import opened Events
  import opened Constants

  const ConsoleWidth: int := 80
  const ConsoleHeight: int := 50

  /** The arrow keys the example reacts to. */
  predicate IsArrow(k: KeySym) {
    k == Left || k == Right || k == Up || k == Down
  }

  /** Where the player stands after an event: an arrow key moves one cell, anything else stays. */
  function Moved(x: int, y: int, event: Event): (r: (int, int))
    ensures event == KeyDown(Left) ==> r == (x - 1, y)
    ensures event == KeyDown(Right) ==> r == (x + 1, y)
    ensures event == KeyDown(Up) ==> r == (x, y - 1)
    ensures event == KeyDown(Down) ==> r == (x, y + 1)
    ensures r != (x, y) <==> event.KeyDown? && IsArrow(event.sym)
    ensures r.0 == x || r.1 == y
  {
    match event
    case KeyDown(Left) => (x - 1, y)
    case KeyDown(Right) => (x + 1, y)
    case KeyDown(Up) => (x, y - 1)
    case KeyDown(Down) => (x, y + 1)
    case _ => (x, y)
  }

  /** The four arrows move exactly as the direction table says. */
  lemma ArrowsFollowTable(x: int, y: int, k: KeySym)
    requires IsArrow(k)
    ensures Direction(k).Some?
    ensures Moved(x, y, KeyDown(k)) == (x + Direction(k).value.dx, y + Direction(k).value.dy)
  {
  }

  /** Opposite arrows undo each other, wherever the player stands. */
  lemma OppositeArrowsCancel(x: int, y: int)
    ensures var (x1, y1) := Moved(x, y, KeyDown(Left)); Moved(x1, y1, KeyDown(Right)) == (x, y)
    ensures var (x2, y2) := Moved(x, y, KeyDown(Up)); Moved(x2, y2, KeyDown(Down)) == (x, y)
  {
  }

  class ExampleState {
    var playerX: int
    var playerY: int

    /** The program's start: the centre of the 80 by 50 console. */
    constructor Centred()
      ensures playerX == 40 && playerY == 25
    {
      playerX := ConsoleWidth / 2;
      playerY := ConsoleHeight / 2;
    }

    /** on_event: `exit` stands for the SystemExit raised on Quit. */
    method OnEvent(event: Event) returns (exit: bool)
      modifies this
      ensures exit <==> event == Quit
      ensures (playerX, playerY) == Moved(old(playerX), old(playerY), event)
    {
      exit := false;
      match event {
        case Quit =>
          exit := true;
        case KeyDown(Left) =>
          playerX := playerX - 1;
        case KeyDown(Right) =>
          playerX := playerX + 1;
        case KeyDown(Up) =>
          playerY := playerY - 1;
        case KeyDown(Down) =>
          playerY := playerY + 1;
        case _ =>
      }
    }
  }
}
