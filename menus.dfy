/**
 * The menu building blocks: a clickable item, and a list menu whose selection
 * moves with the vertical direction keys (wrapping round), follows the mouse,
 * and whose other input goes to the selected item.
 */
module Menus {
  import opened Wrappers
  import opened Events
  import opened Constants
  import opened State

  /** The selection invariant: nothing selected, or an index into the items. */
  predicate ValidSelection(selected: Option<int>, count: nat) {
    selected.None? || 0 <= selected.value < count
  }

  /**
   * A vertical move by `dy` (one row up or down): wraps round from either end,
   * and with nothing selected picks the first item (down) or the last (up).
   */
  function MoveSelection(selected: Option<int>, dy: int, count: nat): (r: Option<int>)
    requires selected.Some? ==> count > 0
    ensures r.Some?
    ensures selected.None? ==> r.value == if dy == 1 then 0 else count - 1
    ensures ValidSelection(selected, count) && dy == 1 && selected.Some? ==>
      r.value == if selected.value == count - 1 then 0 else selected.value + 1
    ensures ValidSelection(selected, count) && dy == -1 && selected.Some? ==>
      r.value == if selected.value == 0 then count - 1 else selected.value - 1
    ensures count > 0 ==> ValidSelection(r, count)
  {
    if selected.Some? then
      var moved := selected.value + dy;
      Some(moved % count)
    else
      Some(if dy == 1 then 0 else count - 1)
  }

  /** The item under the mouse row, or nothing when the row is outside the list. */
  function PointAt(mouseY: int, menuY: int, count: nat): (r: Option<int>)
    ensures r.Some? <==> menuY <= mouseY < menuY + count
    ensures r.Some? ==> menuY + r.value == mouseY
    ensures ValidSelection(r, count)
  {
    var row := mouseY - menuY;
    if 0 <= row < count then Some(row) else None
  }

  /** A key that moves a menu selection: a direction key with no sideways part. */
  predicate MovesSelection(event: Event) {
    event.KeyDown? && IsDirectionKey(event.sym) && Direction(event.sym).value.dx == 0
  }

  /**
   * The selection after an event; both list menus agree on it.  Horizontal
   * direction keys and every other event leave it alone.
   */
  function NextSelected(selected: Option<int>, count: nat, menuY: int, event: Event): (r: Option<int>)
    requires MovesSelection(event) && selected.Some? ==> count > 0
    ensures MovesSelection(event) ==> r.Some?
    ensures event.MouseMotion? ==> (r.Some? <==> menuY <= event.y < menuY + count)
    ensures !MovesSelection(event) && !event.MouseMotion? ==> r == selected
  {
    match event
    case KeyDown(sym) =>
      if MovesSelection(event) then MoveSelection(selected, Direction(sym).value.dy, count) else selected
    case MouseMotion(_, y) => PointAt(y, menuY, count)
    case _ => selected
  }

  /** With at least one item every event keeps the selection invariant. */
  lemma NextSelectedValid(selected: Option<int>, count: nat, menuY: int, event: Event)
    requires count > 0 && ValidSelection(selected, count)
    ensures ValidSelection(NextSelected(selected, count, menuY, event), count)
  {
  }

  /** Only the six vertical keys and mouse motion change the selection. */
  lemma {:induction false} SelectionChangers(selected: Option<int>, count: nat, menuY: int, event: Event)
    requires count > 0 && ValidSelection(selected, count)
    requires NextSelected(selected, count, menuY, event) != selected
    ensures event.MouseMotion? || (event.KeyDown? && event.sym in {Up, Down, Kp8, Kp2, LowerK, LowerJ})
  {
    if event.KeyDown? {
      VerticalKeys(event.sym);
    }
  }

  /** With three items, up from the first gives the last and down from the last gives the first. */
  lemma WrapAroundThree(menuY: int)
    ensures NextSelected(Some(0), 3, menuY, KeyDown(Up)) == Some(2)
    ensures NextSelected(Some(2), 3, menuY, KeyDown(Down)) == Some(0)
    ensures NextSelected(Some(0), 3, menuY, KeyDown(LowerK)) == Some(2)
  {
  }

  predicate IsConfirm(event: Event) {
    || (event.KeyDown? && event.sym in {ReturnKey, Return2Key, KpEnter})
    || event == MouseButtonUp(LeftButton)
  }

  predicate IsCancel(event: Event) {
    event == KeyDown(Escape) || event == MouseButtonUp(RightButton)
  }

  /** A clickable item: its callback runs when it is confirmed. */
  datatype SelectItem<S> = SelectItem(caption: string, callback: () -> Reply<S>) {
    function OnEvent(event: Event): (r: Reply<S>)
      ensures IsConfirm(event) ==> r == callback()
      ensures !IsConfirm(event) ==> r == Return(NoResult)
    {
      match event
      case KeyDown(sym) => if sym in {ReturnKey, Return2Key, KpEnter} then callback() else Return(NoResult)
      case MouseButtonUp(LeftButton) => callback()
      case _ => Return(NoResult)
    }
  }

  class ListMenu<S> {
    const items: seq<SelectItem<S>>
    var selected: Option<int>
    const x: int
    const y: int

    ghost predicate Valid()
      reads this
    {
      ValidSelection(selected, |items|)
    }

    constructor (items: seq<SelectItem<S>>, selected: Option<int>, x: int, y: int)
      ensures this.items == items && this.selected == selected && this.x == x && this.y == y
    {
      this.items, this.selected, this.x, this.y := items, selected, x, y;
    }

    /** activate_selected: pass the event on to the selected item, if any. */
    function ActivateSelected(event: Event): (r: Reply<S>)
      reads this
      requires Valid()
      ensures selected.Some? && IsConfirm(event) ==> r == items[selected.value].callback()
      ensures selected.None? || !IsConfirm(event) ==> r == Return(NoResult)
    {
      if selected.Some? then items[selected.value].OnEvent(event) else Return(NoResult)
    }

    /** on_cancel: close the menu. */
    function OnCancel(): (r: Reply<S>)
      ensures r == Return(Pop)
    {
      Return(Pop)
    }

    method OnEvent(event: Event) returns (r: Reply<S>)
      requires Valid()
      modifies this`selected
      ensures selected == NextSelected(old(selected), |items|, y, event)
      ensures |items| > 0 ==> Valid()
      ensures event == Quit ==> r == Exit
      ensures MovesSelection(event) || event.MouseMotion? ==> r == Return(NoResult)
      ensures IsCancel(event) ==> r == Return(Pop) && selected == old(selected)
      ensures event != Quit && !MovesSelection(event) && !event.MouseMotion? && !IsCancel(event) ==>
        selected == old(selected) && r == ActivateSelected(event)
    {
      match event {
        case Quit =>
          r := Exit;
        case KeyDown(sym) =>
          if IsDirectionKey(sym) {
            var v := Direction(sym).value;
            if v.dx != 0 || v.dy == 0 {
              r := ActivateSelected(event);
              return;
            }
            if selected.Some? {
              selected := Some(selected.value + v.dy);
              selected := Some(selected.value % |items|);
            } else {
              selected := Some(if v.dy == 1 then 0 else |items| - 1);
            }
            r := Return(NoResult);
          } else if sym == Escape {
            r := OnCancel();
          } else {
            r := ActivateSelected(event);
          }
        case MouseMotion(_, mouseY) =>
          var row := mouseY - y;
          selected := if 0 <= row < |items| then Some(row) else None;
          r := Return(NoResult);
        case MouseButtonUp(RightButton) =>
          r := OnCancel();
        case _ =>
          r := ActivateSelected(event);
      }
    }
  }
}
