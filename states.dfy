/**
 * The game's own states: the in-game state (walking, with automatic gold
 * pickup), the older list menu and the main menu built on it.  The global
 * `g.world` is the `world` field of a `Globals` object.
 */
module States {
  import opened Wrappers
  import opened Events
  import opened Constants
  import opened State
  import opened Components
  import opened Ecs
  import WorldTools
  import Menus

  // ---------------------------------------------------------------------
  // Gold accounting

  /** The gold an entity holds (nothing counts as zero). */
  ghost function GoldOf(m: map<EntityId, EntityData>, e: EntityId): int {
    if e in m && m[e].gold.Some? then m[e].gold.value else 0
  }

  /** The gold held by the entities of `s`. */
  ghost function GoldSum(m: map<EntityId, EntityData>, s: set<EntityId>): int
    decreases s
  {
    if s == {} then 0 else var e :| e in s; GoldOf(m, e) + GoldSum(m, s - {e})
  }

  /** All the gold in the world. */
  ghost function TotalGold(m: map<EntityId, EntityData>): int {
    GoldSum(m, m.Keys)
  }

  /** The sum does not depend on which element is taken out first. */
  lemma {:induction false} GoldSumRemove(m: map<EntityId, EntityData>, s: set<EntityId>, e: EntityId)
    requires e in s
    ensures GoldSum(m, s) == GoldOf(m, e) + GoldSum(m, s - {e})
    decreases s
  {
    var x :| x in s && GoldSum(m, s) == GoldOf(m, x) + GoldSum(m, s - {x});
    if x != e {
      GoldSumRemove(m, s - {x}, e);
      GoldSumRemove(m, s - {e}, x);
      assert s - {x} - {e} == s - {e} - {x};
    }
  }

  /** Two stores that agree on the gold of `s` agree on its sum. */
  lemma {:induction false} GoldSumFrame(m1: map<EntityId, EntityData>, m2: map<EntityId, EntityData>, s: set<EntityId>)
    requires forall e :: e in s ==> GoldOf(m1, e) == GoldOf(m2, e)
    ensures GoldSum(m1, s) == GoldSum(m2, s)
    decreases s
  {
    if s != {} {
      var x :| x in s;
      GoldSumRemove(m1, s, x);
      GoldSumRemove(m2, s, x);
      GoldSumFrame(m1, m2, s - {x});
    }
  }

  /** The gold of two disjoint groups adds up. */
  lemma {:induction false} GoldSumSplit(m: map<EntityId, EntityData>, a: set<EntityId>, b: set<EntityId>)
    requires a !! b
    ensures GoldSum(m, a + b) == GoldSum(m, a) + GoldSum(m, b)
    decreases a
  {
    if a == {} {
      assert a + b == b;
    } else {
      var x :| x in a;
      GoldSumRemove(m, a + b, x);
      GoldSumRemove(m, a, x);
      assert (a + b) - {x} == (a - {x}) + b;
      GoldSumSplit(m, a - {x}, b);
    }
  }

  // ---------------------------------------------------------------------
  // One step of the player

  /** The entities tagged IsPlayer. */
  function Players(m: map<EntityId, EntityData>): set<EntityId> {
    AllOf(m, {}, {IsPlayer})
  }

  /** `player.components[Position] += step`, with the changed callback's retagging. */
  function Moved(m: map<EntityId, EntityData>, p: EntityId, v: Vec): (r: map<EntityId, EntityData>)
    requires p in m && m[p].position.Some?
    ensures r.Keys == m.Keys
    ensures r[p].position == Some(m[p].position.value.Add(v))
    ensures r[p] == m[p].(position := r[p].position, tags := OnPositionChanged(m[p].tags, m[p].position, r[p].position))
    ensures forall e :: e in m && e != p ==> r[e] == m[e]
    ensures forall e :: e in m ==> r[e].gold == m[e].gold
  {
    var d := m[p];
    var np := d.position.value.Add(v);
    m[p := d.(position := Some(np), tags := OnPositionChanged(d.tags, d.position, Some(np)))]
  }

  /** The gold piles on cell `at`, as the pickup query finds them. */
  function GoldAt(m: map<EntityId, EntityData>, at: Position): (r: set<EntityId>)
    ensures forall e :: e in r <==> e in m && m[e].gold.Some? && IsItem in m[e].tags && At(at) in m[e].tags
  {
    AllOf(m, {GoldKind}, {At(at), IsItem})
  }

  /** Whether a step by `v` can be taken: the player has a place, is no item, and has a purse if gold lies ahead. */
  ghost predicate CanStep(m: map<EntityId, EntityData>, p: EntityId, v: Vec) {
    && p in m && m[p].position.Some? && IsItem !in m[p].tags
    && (GoldAt(Moved(m, p, v), m[p].position.value.Add(v)) != {} ==> m[p].gold.Some?)
  }

  /** The store once the piles `done` are picked up: their gold is the player's, and they are cleared. */
  ghost function Collected(m: map<EntityId, EntityData>, p: EntityId, done: set<EntityId>): (r: map<EntityId, EntityData>)
    requires p in m && p !in done && (done != {} ==> m[p].gold.Some?)
    ensures r.Keys == m.Keys - done
    ensures forall e :: e in r && e != p ==> r[e] == m[e]
    ensures r[p].position == m[p].position && r[p].tags == m[p].tags
  {
    if done == {} then m
    else (m - done)[p := m[p].(gold := Some(m[p].gold.value + GoldSum(m, done)))]
  }

  /** The player never lies among the gold piles, since it carries no IsItem tag. */
  lemma PlayerNotPicked(m: map<EntityId, EntityData>, p: EntityId, v: Vec)
    requires CanStep(m, p, v)
    ensures p !in GoldAt(Moved(m, p, v), m[p].position.value.Add(v))
  {
    var d := m[p];
    var np := d.position.value.Add(v);
    assert IsItem != At(np);
  }

  /** The whole in-game step: move, then pick up every gold pile on the new cell. */
  ghost function Stepped(m: map<EntityId, EntityData>, p: EntityId, v: Vec): (r: map<EntityId, EntityData>)
    requires CanStep(m, p, v)
    ensures r.Keys <= m.Keys && p in r
    ensures r[p].position == Some(m[p].position.value.Add(v))
  {
    PlayerNotPicked(m, p, v);
    var m1 := Moved(m, p, v);
    Collected(m1, p, GoldAt(m1, m[p].position.value.Add(v)))
  }

  /** One pickup of the loop: the pile's gold goes to the player and the pile is cleared. */
  lemma PickupStep(m: map<EntityId, EntityData>, p: EntityId, done: set<EntityId>, item: EntityId)
    requires p in m && m[p].gold.Some? && p !in done
    requires item in m && item != p && item !in done && m[item].gold.Some?
    ensures var cur := Collected(m, p, done);
      && p in cur && item in cur && cur[item] == m[item] && cur[p].gold.Some?
      && cur[p := cur[p].(gold := Some(cur[p].gold.value + cur[item].gold.value))] - {item}
         == Collected(m, p, done + {item})
  {
    GoldSumRemove(m, done + {item}, item);
    assert (done + {item}) - {item} == done;
    var cur := Collected(m, p, done);
    var lhs := cur[p := cur[p].(gold := Some(cur[p].gold.value + cur[item].gold.value))] - {item};
    var rhs := Collected(m, p, done + {item});
    assert lhs.Keys == rhs.Keys;
  }

  /** Walking moves no gold out of the world: the pile's gold is now the player's. */
  lemma StepConservesGold(m: map<EntityId, EntityData>, p: EntityId, v: Vec)
    requires CanStep(m, p, v)
    ensures TotalGold(Stepped(m, p, v)) == TotalGold(m)
  {
    PlayerNotPicked(m, p, v);
    var m1 := Moved(m, p, v);
    var done := GoldAt(m1, m[p].position.value.Add(v));
    GoldSumFrame(m1, m, m.Keys);
    if done != {} {
      var s := Stepped(m, p, v);
      var rest := m1.Keys - done - {p};
      assert s.Keys == rest + {p};
      GoldSumRemove(s, s.Keys, p);
      assert s.Keys - {p} == rest;
      GoldSumFrame(s, m1, rest);
      GoldSumRemove(m1, m1.Keys, p);
      assert m1.Keys - {p} == done + rest;
      GoldSumSplit(m1, done, rest);
    }
  }

  /** After the step the player stands one step on, and no gold is left under its feet. */
  lemma StepMovesAndCollects(m: map<EntityId, EntityData>, p: EntityId, v: Vec)
    requires CanStep(m, p, v)
    ensures var s := Stepped(m, p, v);
      && p in s && s[p].position == Some(m[p].position.value.Add(v))
      && GoldAt(s, m[p].position.value.Add(v)) == {}
  {
    PlayerNotPicked(m, p, v);
    var np := m[p].position.value.Add(v);
    var s := Stepped(m, p, v);
    assert IsItem != At(np);
  }

  /** The player's purse grows by exactly the gold that lay on the new cell. */
  lemma StepPaysPlayer(m: map<EntityId, EntityData>, p: EntityId, v: Vec)
    requires CanStep(m, p, v)
    ensures var np := m[p].position.value.Add(v);
      GoldOf(Stepped(m, p, v), p) == GoldOf(m, p) + GoldSum(m, GoldAt(m, np))
  {
    PlayerNotPicked(m, p, v);
    var np := m[p].position.value.Add(v);
    var m1 := Moved(m, p, v);
    assert GoldAt(m1, np) == GoldAt(m, np) by {
      assert IsItem != At(np);
    }
    GoldSumFrame(m1, m, GoldAt(m, np));
  }

  /** Everything but the player and the piles on the new cell is untouched. */
  lemma StepKeepsOthers(m: map<EntityId, EntityData>, p: EntityId, v: Vec, e: EntityId)
    requires CanStep(m, p, v)
    requires e in m && e != p && e !in GoldAt(m, m[p].position.value.Add(v))
    ensures e in Stepped(m, p, v) && Stepped(m, p, v)[e] == m[e]
  {
    PlayerNotPicked(m, p, v);
  }

  /** A world ready to play: one player, placed, with a purse, and no item. */
  ghost predicate Playable(m: map<EntityId, EntityData>) {
    && |Players(m)| == 1
    && forall p | p in Players(m) :: m[p].position.Some? && m[p].gold.Some? && IsItem !in m[p].tags
  }

  /** A set of one element has no second one. */
  lemma OnlyMember<T>(s: set<T>, a: T, b: T)
    requires |s| == 1 && a in s && b in s
    ensures a == b
  {
    assert |s - {a}| == 0;
  }

  lemma TheOnlyPlayer(m: map<EntityId, EntityData>, p: EntityId)
    requires |Players(m)| == 1 && p in Players(m)
    ensures Players(m) == {p}
  {
    forall q | q in Players(m)
      ensures q == p
    {
      OnlyMember(Players(m), p, q);
    }
  }

  /** In a playable world every step can be taken, and leaves the world playable with the same player. */
  lemma StepKeepsPlayable(m: map<EntityId, EntityData>, p: EntityId, v: Vec)
    requires Playable(m) && p in Players(m)
    ensures CanStep(m, p, v)
    ensures Players(Stepped(m, p, v)) == {p}
    ensures Playable(Stepped(m, p, v))
  {
    PlayerNotPicked(m, p, v);
    var s := Stepped(m, p, v);
    var ps := Players(m);
    assert ps == {p} by {
      forall q | q in ps ensures q == p {
        OnlyMember(ps, p, q);
      }
    }
    assert Players(s) == {p};
    assert IsPlayer != At(m[p].position.value.Add(v));
  }

  // ---------------------------------------------------------------------
  // The states

  /** The module `g`: `world` is null until a game has been started. */
  class Globals {
    var world: Registry?

    constructor ()
      ensures world == null
    {
      world := null;
    }
  }

  /** A state on the stack: the in-game state, or a list menu. */
  datatype GameState = InGame | MenuState(menu: ListMenu)

  /** The main menu's callbacks: `continue_`, `new_game` and `quit`. */
  datatype Callback = ContinueGame | NewGame | QuitGame

  datatype MenuItem = MenuItem(caption: string, callback: Callback)

  /** The main menu's items: "Continue" first when a world exists, then "New game" and "Quit". */
  function MainMenuItems(worldExists: bool): (r: seq<MenuItem>)
    ensures |r| == if worldExists then 3 else 2
    ensures r[|r| - 2..] == [MenuItem("New game", NewGame), MenuItem("Quit", QuitGame)]
    ensures r[0] == MenuItem("Continue", ContinueGame) <==> worldExists
  {
    var items := [MenuItem("New game", NewGame), MenuItem("Quit", QuitGame)];
    if worldExists then [MenuItem("Continue", ContinueGame)] + items else items
  }

  /** What a callback hands back: both game callbacks rebase onto a fresh in-game state; quit exits. */
  function CallbackReply(c: Callback): (r: Reply<GameState>)
    ensures r.Exit? <==> c == QuitGame
    ensures r.Return? ==> r.result == Rebase(InGame)
  {
    match c
    case ContinueGame => Return(Rebase(InGame))
    case NewGame => Return(Rebase(InGame))
    case QuitGame => Exit
  }

  /** A world as new_world leaves it is ready to play. */
  lemma NewWorldPlayable(world: Registry, player: EntityId)
    requires world.Query({}, {IsPlayer}) == {player}
    requires WorldTools.IsPlayerData(world.Get(player))
    ensures Playable(world.entities)
  {
    assert player in Players(world.entities);
  }

  /** Run a callback; `seed` stands for the entropy new_world draws. */
  method Call(c: Callback, g: Globals, seed: nat) returns (r: Reply<GameState>)
    modifies g
    ensures r == CallbackReply(c)
    ensures c == NewGame ==> g.world != null && fresh(g.world) && g.world.Valid() && Playable(g.world.entities)
    ensures c != NewGame ==> g.world == old(g.world)
  {
    match c {
      case ContinueGame =>
        r := Return(Rebase(InGame));
      case NewGame =>
        var world, player := WorldTools.NewWorld(seed);
        NewWorldPlayable(world, player);
        g.world := world;
        r := Return(Rebase(InGame));
      case QuitGame =>
        r := Exit;
    }
  }

  /** Confirming the selection: the Return key or a left click. */
  predicate IsActivation(event: Event) {
    event == KeyDown(ReturnKey) || event == MouseButtonUp(LeftButton)
  }

  /** The older list menu of this module, whose items are plain callbacks. */
  class ListMenu {
    const items: seq<MenuItem>
    var selected: Option<int>
    const x: int
    const y: int

    ghost predicate Valid()
      reads this
    {
      Menus.ValidSelection(selected, |items|)
    }

    constructor (items: seq<MenuItem>, selected: Option<int>, x: int, y: int)
      ensures this.items == items && this.selected == selected && this.x == x && this.y == y
    {
      this.items, this.selected, this.x, this.y := items, selected, x, y;
    }

    /** MainMenu(): its items depend on whether a world exists; the first is selected; drawn at (5, 5). */
    constructor MainMenu(g: Globals)
      ensures items == MainMenuItems(g.world != null) && selected == Some(0) && x == 5 && y == 5
      ensures Valid()
    {
      items := MainMenuItems(g.world != null);
      selected := Some(0);
      x, y := 5, 5;
    }

    /** The callback a confirmation would run. */
    function Chosen(): Option<Callback>
      reads this
      requires Valid()
    {
      if selected.Some? then Some(items[selected.value].callback) else None
    }

    method ActivateSelected(g: Globals, seed: nat) returns (r: Reply<GameState>)
      requires Valid()
      modifies g
      ensures Chosen().None? ==> r == Return(NoResult) && g.world == old(g.world)
      ensures Chosen().Some? ==> r == CallbackReply(Chosen().value)
      ensures Chosen() == Some(NewGame) ==>
        g.world != null && fresh(g.world) && g.world.Valid() && Playable(g.world.entities)
      ensures Chosen() != Some(NewGame) ==> g.world == old(g.world)
    {
      if selected.Some? {
        r := Call(items[selected.value].callback, g, seed);
      } else {
        r := Return(NoResult);
      }
    }

    method OnEvent(event: Event, g: Globals, seed: nat) returns (r: Reply<GameState>)
      requires Valid()
      modifies this`selected, g
      ensures selected == Menus.NextSelected(old(selected), |items|, y, event)
      ensures |items| > 0 ==> Valid()
      ensures event == Quit ==> r == Exit
      ensures Menus.IsCancel(event) ==> r == Return(Pop)
      ensures IsActivation(event) ==> old(Valid() && Chosen().Some?) ==> r == CallbackReply(old(Chosen().value))
      ensures IsActivation(event) ==> old(Valid() && Chosen().None?) ==> r == Return(NoResult)
      ensures IsActivation(event) && old(Valid() && Chosen() == Some(NewGame)) ==>
        g.world != null && fresh(g.world) && g.world.Valid() && Playable(g.world.entities)
      ensures !(IsActivation(event) && old(Valid() && Chosen() == Some(NewGame))) ==> g.world == old(g.world)
      ensures event != Quit && !Menus.IsCancel(event) && !IsActivation(event) ==> r == Return(NoResult)
    {
      match event {
        case Quit =>
          r := Exit;
        case KeyDown(sym) =>
          if IsDirectionKey(sym) {
            var v := Direction(sym).value;
            if v.dx != 0 || v.dy == 0 {
              r := Return(NoResult);
              return;
            }
            if selected.Some? {
              selected := Some(selected.value + v.dy);
              selected := Some(selected.value % |items|);
            } else {
              selected := Some(if v.dy == 1 then 0 else |items| - 1);
            }
            r := Return(NoResult);
          } else if sym == ReturnKey {
            r := ActivateSelected(g, seed);
          } else if sym == Escape {
            r := Return(Pop);
          } else {
            r := Return(NoResult);
          }
        case MouseMotion(_, mouseY) =>
          var row := mouseY - y;
          selected := if 0 <= row < |items| then Some(row) else None;
          r := Return(NoResult);
        case MouseButtonUp(LeftButton) =>
          r := ActivateSelected(g, seed);
        case MouseButtonUp(RightButton) =>
          r := Return(Pop);
        case _ =>
          r := Return(NoResult);
      }
    }
  }

  /** A direction key, which walks the player. */
  predicate IsMove(event: Event) {
    event.KeyDown? && IsDirectionKey(event.sym)
  }

  /** The store after one pickup: the pile's gold is the player's and the pile is gone. */
  function AfterCollect(m: map<EntityId, EntityData>, p: EntityId, pile: EntityId): map<EntityId, EntityData>
    requires p in m && pile in m && m[p].gold.Some? && m[pile].gold.Some?
  {
    m[p := m[p].(gold := Some(m[p].gold.value + m[pile].gold.value))] - {pile}
  }

  /** One turn of the pickup loop: the pile's gold is added to the player's, then the pile is cleared. */
  method Collect(world: Registry, player: EntityId, pile: EntityId)
    requires world.Valid() && player in world.entities && pile in world.entities && player != pile
    requires world.entities[player].gold.Some? && world.entities[pile].gold.Some?
    modifies world
    ensures world.Valid()
    ensures world.entities == AfterCollect(old(world.entities), player, pile)
  {
    var amount := world.Get(pile).gold.value;
    world.SetGold(player, world.Get(player).gold.value + amount);
    world.Clear(pile);
  }

  /** Part way through the pickup loop: the piles of `at` outside `left` are collected already. */
  ghost predicate PickupProgress(cur: map<EntityId, EntityData>, m: map<EntityId, EntityData>,
                                 p: EntityId, at: Position, left: set<EntityId>) {
    && p in m && p !in GoldAt(m, at) && (GoldAt(m, at) != {} ==> m[p].gold.Some?)
    && left <= GoldAt(m, at)
    && cur == Collected(m, p, GoldAt(m, at) - left)
  }

  /** Collecting one more pile keeps the loop's progress, and the pile is there to collect. */
  lemma PickupProgressStep(cur: map<EntityId, EntityData>, m: map<EntityId, EntityData>,
                           p: EntityId, at: Position, left: set<EntityId>, pile: EntityId)
    requires PickupProgress(cur, m, p, at, left) && pile in left
    ensures p in cur && pile in cur && p != pile && cur[p].gold.Some? && cur[pile].gold.Some?
    ensures PickupProgress(AfterCollect(cur, p, pile), m, p, at, left - {pile})
  {
    var done := GoldAt(m, at) - left;
    PickupStep(m, p, done, pile);
    assert done + {pile} == GoldAt(m, at) - (left - {pile});
  }

  /** The pickup loop: each gold pile on `at` goes into the player's purse and is cleared. */
  method PickUpGold(world: Registry, player: EntityId, at: Position)
    requires world.Valid() && player in world.entities && player !in GoldAt(world.entities, at)
    requires GoldAt(world.entities, at) != {} ==> world.entities[player].gold.Some?
    modifies world
    ensures world.Valid()
    ensures world.entities == Collected(old(world.entities), player, GoldAt(old(world.entities), at))
  {
    ghost var m1 := world.entities;
    var piles := world.Query({GoldKind}, {At(at), IsItem});
    assert GoldAt(m1, at) - piles == {};
    while piles != {}
      invariant world.Valid() && PickupProgress(world.entities, m1, player, at, piles)
      decreases piles
    {
      var pile :| pile in piles;
      PickupProgressStep(world.entities, m1, player, at, piles, pile);
      Collect(world, player, pile);
      piles := piles - {pile};
    }
    assert GoldAt(m1, at) - piles == GoldAt(m1, at);
  }

  /** A direction key in game: `player.components[Position] += step`, then the automatic pickup. */
  method Walk(world: Registry, player: EntityId, v: Vec)
    requires world.Valid() && CanStep(world.entities, player, v)
    modifies world
    ensures world.Valid()
    ensures world.entities == Stepped(old(world.entities), player, v)
  {
    ghost var m0 := world.entities;
    PlayerNotPicked(m0, player, v);
    var at := world.Get(player).position.value.Add(v);
    world.SetPosition(player, Some(at));
    assert world.entities == Moved(m0, player, v);
    PickUpGold(world, player, at);
  }

  /** Every player can take the step `v`. */
  ghost predicate PlayersCanStep(m: map<EntityId, EntityData>, v: Vec) {
    forall p | p in Players(m) :: CanStep(m, p, v)
  }

  /** `after` is `before` once every player has taken the step `v`. */
  ghost predicate PlayersStepped(before: map<EntityId, EntityData>, after: map<EntityId, EntityData>, v: Vec) {
    forall p | p in Players(before) :: CanStep(before, p, v) && after == Stepped(before, p, v)
  }

  lemma OnlyPlayerCanStep(m: map<EntityId, EntityData>, p: EntityId, v: Vec)
    requires Players(m) == {p} && PlayersCanStep(m, v)
    ensures CanStep(m, p, v)
  {
  }

  lemma OnlyPlayerStepped(m: map<EntityId, EntityData>, m': map<EntityId, EntityData>, p: EntityId, v: Vec)
    requires Players(m) == {p} && CanStep(m, p, v) && m' == Stepped(m, p, v)
    ensures PlayersStepped(m, m', v)
  {
  }

  /** `return Push(MainMenu())` from the game: a fresh main menu offering Continue. */
  method PushMainMenu(g: Globals) returns (r: Reply<GameState>)
    requires g.world != null
    ensures r.Return? && r.result.Push? && r.result.state.MenuState?
    ensures fresh(r.result.state.menu) && r.result.state.menu.Valid()
    ensures r.result.state.menu.items == MainMenuItems(true)
    ensures r.result.state.menu.selected == Some(0)
    ensures r.result.state.menu.x == 5 && r.result.state.menu.y == 5
  {
    var menu := new ListMenu.MainMenu(g);
    r := Return(Push(MenuState(menu)));
  }

  /**
   * InGame.on_event.  The world must hold exactly one player; a direction key
   * moves it and picks up every gold pile on the cell it reaches, clearing
   * the piles; Escape opens the main menu over the game.
   */
  method InGameOnEvent(g: Globals, event: Event) returns (r: Reply<GameState>)
    requires g.world != null && g.world.Valid() && |Players(g.world.entities)| == 1
    requires IsMove(event) ==> PlayersCanStep(g.world.entities, Direction(event.sym).value)
    modifies g.world
    ensures g.world.Valid()
    ensures IsMove(event) ==> r == Return(NoResult)
    ensures IsMove(event) ==> PlayersStepped(old(g.world.entities), g.world.entities, Direction(event.sym).value)
    ensures !IsMove(event) ==> g.world.entities == old(g.world.entities)
    ensures event == Quit ==> r == Exit
    ensures event == KeyDown(Escape) ==>
      && r.Return? && r.result.Push? && r.result.state.MenuState?
      && fresh(r.result.state.menu) && r.result.state.menu.Valid()
      && r.result.state.menu.items == MainMenuItems(true)
      && r.result.state.menu.selected == Some(0)
      && r.result.state.menu.x == 5 && r.result.state.menu.y == 5
    ensures event != Quit && event != KeyDown(Escape) && !IsMove(event) ==> r == Return(NoResult)
  {
    var world := g.world;
    if event == Quit {
      r := Exit;
    } else if IsMove(event) {
      var player :| player in Players(world.entities);
      TheOnlyPlayer(world.entities, player);
      var v := Direction(event.sym).value;
      ghost var m0 := world.entities;
      OnlyPlayerCanStep(m0, player, v);
      Walk(world, player, v);
      OnlyPlayerStepped(m0, world.entities, player, v);
      r := Return(NoResult);
    } else if event == KeyDown(Escape) {
      r := PushMainMenu(g);
    } else {
      r := Return(NoResult);
    }
  }
}
