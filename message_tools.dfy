/**
 * The global message log, kept on the world entity, and `report`, which
 * compresses a repeated message into a count.
 */
module MessageTools {
  import opened Wrappers
  import opened GameMessage
  import opened Ecs

  /** The log held by an entity, or the empty list `setdefault` would install. */
  function LogOf(d: EntityData): seq<Message> {
    if d.log.Some? then d.log.value else []
  }

  /**
   * The log after reporting `text`.  The new text is compared with the last
   * entry's rendered text, not with its raw text.
   */
  function Reported(log: seq<Message>, text: string): (r: seq<Message>)
    ensures |log| <= |r| <= |log| + 1
    ensures |r| == |log| + 1 ==> r == log + [Message(text, 1)]
    ensures |r| == |log| ==> |r| > 0 && r[|r| - 1].count == log[|log| - 1].count + 1
  {
    if |log| > 0 && log[|log| - 1].Text() == text then
      log[..|log| - 1] + [log[|log| - 1].(count := log[|log| - 1].count + 1)]
    else
      log + [Message(text, 1)]
  }

  /** Sum of the repeat counts: the number of reports the log stands for. */
  function TotalCount(log: seq<Message>): int {
    if |log| == 0 then 0 else TotalCount(log[..|log| - 1]) + log[|log| - 1].count
  }

  predicate CountsPositive(log: seq<Message>) {
    forall i :: 0 <= i < |log| ==> log[i].count >= 1
  }

  /**
   * Either the last entry's count goes up by one, or one fresh entry is
   * appended.  This unfolds `Reported`; the inductive facts about reports are
   * `ReportCounts` and `ReportsTotal`.
   */
  lemma ReportShape(log: seq<Message>, text: string)
    ensures var r := Reported(log, text);
      if |log| > 0 && log[|log| - 1].Text() == text then
        |r| == |log| && r[..|log| - 1] == log[..|log| - 1] &&
        r[|log| - 1] == Message(log[|log| - 1].rawText, log[|log| - 1].count + 1)
      else
        r == log + [Message(text, 1)]
  {
  }

  /**
   * Every report adds exactly one to the total count, keeps every count at
   * least one and never shortens the log.
   */
  lemma ReportCounts(log: seq<Message>, text: string)
    requires CountsPositive(log)
    ensures var r := Reported(log, text);
      TotalCount(r) == TotalCount(log) + 1 && CountsPositive(r) && |r| >= |log|
  {
    var r := Reported(log, text);
    if |log| > 0 && log[|log| - 1].Text() == text {
      assert r[..|r| - 1] == log[..|log| - 1];
    } else {
      assert r[..|r| - 1] == log;
    }
  }

  /** A log built by reports alone stands for exactly that many reports. */
  lemma {:induction false} ReportsTotal(texts: seq<string>)
    ensures CountsPositive(ReportAll([], texts)) && TotalCount(ReportAll([], texts)) == |texts|
    decreases |texts|
  {
    if |texts| > 0 {
      var front := texts[..|texts| - 1];
      ReportsTotal(front);
      ReportCounts(ReportAll([], front), texts[|texts| - 1]);
    }
  }

  /** Reporting several texts in order. */
  function ReportAll(log: seq<Message>, texts: seq<string>): seq<Message> {
    if |texts| == 0 then log else Reported(ReportAll(log, texts[..|texts| - 1]), texts[|texts| - 1])
  }

  /**
   * Because the comparison is with the rendered text, "Hello" three times
   * gives two entries: a count of two ("Hello (x2)") and a fresh one.
   */
  lemma HelloThreeTimes()
    ensures ReportAll([], ["Hello", "Hello", "Hello"]) == [Message("Hello", 2), Message("Hello", 1)]
    ensures Message("Hello", 2).Text() == "Hello (x2)"
  {
    var one := Reported([], "Hello");
    assert one == [Message("Hello", 1)];
    var two := Reported(one, "Hello");
    assert two == [Message("Hello", 2)];
    assert Decimal(2) == "2";
    assert Message("Hello", 2).Text() == "Hello (x2)";
    var hs := ["Hello", "Hello", "Hello"];
    assert hs[..2][..1] == ["Hello"] && hs[..2][..1][..0] == [];
    assert ReportAll([], hs[..2][..1]) == one;
    assert ReportAll([], hs[..2]) == two;
    assert ReportAll([], hs) == Reported(two, "Hello");
  }

  /** "Hello", "World", "Hello" gives three separate entries. */
  lemma HelloWorldHello()
    ensures ReportAll([], ["Hello", "World", "Hello"]) == [Message("Hello", 1), Message("World", 1), Message("Hello", 1)]
  {
    assert ["Hello", "World", "Hello"][..2] == ["Hello", "World"];
    assert ["Hello", "World"][..1] == ["Hello"];
  }

  /**
   * Reporting the rendered text of a repeated entry increases that entry's
   * count: the reported text itself never appears in the log.
   */
  lemma RenderedTextAbsorbed(raw: string, n: int)
    requires n > 1
    ensures Reported([Message(raw, n)], Message(raw, n).Text()) == [Message(raw, n + 1)]
  {
  }

  /** get_log: the world entity's log, installed empty when missing. */
  method GetLog(world: Registry) returns (log: seq<Message>)
    requires world.Valid()
    modifies world
    ensures world.Valid() && world.nextId == old(world.nextId)
    ensures log == LogOf(old(world.Get(WorldKey)))
    ensures world.entities == old(world.entities)[WorldKey := old(world.Get(WorldKey)).(log := Some(log))]
  {
    var d := world.Get(WorldKey);
    if d.log.Some? {
      log := d.log.value;
      assert world.entities == world.entities[WorldKey := d];
    } else {
      world.SetLog(WorldKey, []);
      log := [];
    }
  }

  /** report: append text to the global log, compressing an exact repeat of the last rendered entry. */
  method Report(world: Registry, text: string)
    requires world.Valid()
    modifies world
    ensures world.Valid() && world.nextId == old(world.nextId)
    ensures world.entities == old(world.entities)[WorldKey :=
      old(world.Get(WorldKey)).(log := Some(Reported(LogOf(old(world.Get(WorldKey))), text)))]
  {
    var log := GetLog(world);
    if |log| > 0 && log[|log| - 1].Text() == text {
      var last := log[|log| - 1];
      log := log[..|log| - 1] + [last.(count := last.count + 1)];
    } else {
      log := log + [Message(text, 1)];
    }
    world.SetLog(WorldKey, log);
  }
}
