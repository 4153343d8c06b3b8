/**
 * The log renderer's scrolling: the total wrapped height of the log and a
 * scroll offset kept between the top and the bottom-most position.  How many
 * rows a message wraps to is the text layout's business and is given as the
 * function `heightOf(width, text)`.
 */
module Rendering {
  import opened GameMessage
  import opened Ecs
  import opened MessageTools

  /** Sum of the wrapped heights of the log's rendered messages. */
  function LogHeight(log: seq<Message>, width: int, heightOf: (int, string) -> nat): (r: nat)
    ensures r == 0 <==> forall i :: 0 <= i < |log| ==> heightOf(width, log[i].Text()) == 0
  {
    if |log| == 0 then 0 else heightOf(width, log[0].Text()) + LogHeight(log[1..], width, heightOf)
  }

  /** A message added at the end adds its own wrapped height and nothing else. */
  lemma {:induction false} LogHeightAppend(log: seq<Message>, m: Message, width: int, heightOf: (int, string) -> nat)
    ensures LogHeight(log + [m], width, heightOf) == LogHeight(log, width, heightOf) + heightOf(width, m.Text())
    decreases |log|
  {
    if |log| > 0 {
      assert (log + [m])[1..] == log[1..] + [m];
      LogHeightAppend(log[1..], m, width, heightOf);
    }
  }

  /** The log is at least as tall as any one of its messages. */
  lemma {:induction false} LogHeightBounds(log: seq<Message>, i: nat, width: int, heightOf: (int, string) -> nat)
    requires i < |log|
    ensures heightOf(width, log[i].Text()) <= LogHeight(log, width, heightOf)
    decreases |log|
  {
    if i > 0 {
      LogHeightBounds(log[1..], i - 1, width, heightOf);
    }
  }

  /** The largest scroll offset: how far the log overflows the viewport, or zero. */
  function MaxYPos(logHeight: nat, viewport: int): (r: nat)
    ensures r >= logHeight - viewport
    ensures r == 0 || r == logHeight - viewport
  {
    if logHeight - viewport > 0 then logHeight - viewport else 0
  }

  /** The new offset after scrolling by `yDir`, clamped to [0, maxY]. */
  function Scrolled(position: int, yDir: int, maxY: nat): (r: int)
    ensures 0 <= r <= maxY
    ensures 0 <= position + yDir <= maxY ==> r == position + yDir
    ensures 0 <= position <= maxY && yDir >= 0 ==> position <= r
    ensures 0 <= position <= maxY && yDir <= 0 ==> r <= position
  {
    var lower := if position + yDir < maxY then position + yDir else maxY;
    if 0 < lower then lower else 0
  }

  class LogRenderer {
    const world: Registry
    const width: int
    const height: int
    var yPosition: int
    /** get_height_rect of the text layout, not modelled here. */
    const heightOf: (int, string) -> nat

    /** get_log_height: the log takes no rows exactly when every message wraps to none. */
    function GetLogHeight(): (r: nat)
      reads this, world
      ensures var log := LogOf(world.Get(WorldKey));
        r == 0 <==> forall i :: 0 <= i < |log| ==> heightOf(width, log[i].Text()) == 0
    {
      LogHeight(LogOf(world.Get(WorldKey)), width, heightOf)
    }

    /** get_max_y_pos: how far the log overflows the renderer's height, or zero. */
    function GetMaxYPos(): (r: nat)
      reads this, world
      ensures r >= GetLogHeight() - height
      ensures r == 0 || r == GetLogHeight() - height
    {
      MaxYPos(GetLogHeight(), height)
    }

    /** init: a renderer scrolled to the bottom of the log. */
    constructor Init(world: Registry, width: int, height: int, heightOf: (int, string) -> nat)
      ensures this.world == world && this.width == width && this.height == height && this.heightOf == heightOf
      ensures yPosition == GetMaxYPos()
    {
      this.world, this.width, this.height, this.heightOf := world, width, height, heightOf;
      yPosition := 0;
      new;
      yPosition := GetMaxYPos();
    }

    /** scroll: move by `yDir` rows, kept between the top and the bottom; `wrap` has no effect. */
    method Scroll(yDir: int, wrap: bool)
      modifies this`yPosition
      ensures yPosition == Scrolled(old(yPosition), yDir, GetMaxYPos())
      ensures 0 <= yPosition <= GetMaxYPos()
    {
      yPosition := Max(0, Min(yPosition + yDir, GetMaxYPos()));
    }
  }

  function Max(a: int, b: int): int {
    if a < b then b else a
  }

  function Min(a: int, b: int): int {
    if a < b then a else b
  }
}
