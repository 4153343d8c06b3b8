/** Generating a fresh world: one player at (5, 5) and ten gold piles. */
module WorldTools {
  import opened Wrappers
  import opened Components
  import opened PyRandom
  import opened Ecs

  const ItemCount: nat := 10

  predicate IsPlayerData(d: EntityData) {
    && d.position == Some(Position(5, 5))
    && d.graphic == Some(Graphic('@' as int, White))
    && d.gold == Some(0)
    && d.tags == {At(Position(5, 5)), IsPlayer, IsActor}
  }

  predicate IsGoldItemData(d: EntityData) {
    && d.position.Some?
    && 0 <= d.position.value.x <= 20 && 0 <= d.position.value.y <= 20
    && d.graphic == Some(Graphic('$' as int, Yellow))
    && d.gold.Some? && 1 <= d.gold.value <= 10
    && d.tags == {At(d.position.value), IsItem}
  }

  /** The first two writes to a new entity: its Position (which tags it with the cell), then its Graphic. */
  method Place(world: Registry, e: EntityId, at: Position, look: Graphic)
    requires world.Valid() && world.Allocated(e) && e !in world.entities
    modifies world
    ensures world.Valid() && world.nextId == old(world.nextId)
    ensures world.entities ==
      old(world.entities)[e := Blank.(position := Some(at), graphic := Some(look), tags := {At(at)})]
  {
    assert world.Get(e) == Blank;
    assert OnPositionChanged({}, None, Some(at)) == {At(at)};
    world.SetPosition(e, Some(at));
    world.SetGraphic(e, look);
  }

  /** The last two writes: the Gold component, then `tags |= ts`. */
  method Endow(world: Registry, e: EntityId, amount: int, ts: set<Tag>)
    requires world.Valid() && world.Allocated(e) && e in world.entities
    requires forall t :: t in ts ==> t.Named?
    modifies world
    ensures world.Valid() && world.nextId == old(world.nextId)
    ensures world.entities ==
      old(world.entities)[e := old(world.entities)[e].(gold := Some(amount), tags := old(world.entities)[e].tags + ts)]
  {
    world.SetGold(e, amount);
    world.AddTags(e, ts);
  }

  /** The player: a fresh entity at (5, 5) drawn as '@' with no gold, tagged IsPlayer and IsActor. */
  method SpawnPlayer(world: Registry) returns (player: EntityId)
    requires world.Valid()
    modifies world
    ensures world.Valid() && world.nextId == old(world.nextId) + 1
    ensures player == Obj(old(world.nextId)) && player !in old(world.entities)
    ensures player in world.entities && world.entities == old(world.entities)[player := world.entities[player]]
    ensures IsPlayerData(world.entities[player])
  {
    player := world.NewEntity();
    Place(world, player, Position(5, 5), Graphic('@' as int, White));
    Endow(world, player, 0, {IsPlayer, IsActor});
    assert {At(Position(5, 5))} + {IsPlayer, IsActor} == {At(Position(5, 5)), IsPlayer, IsActor};
  }

  /** One gold pile: a fresh entity at a random cell of [0, 20]², worth 1 to 10 gold, tagged IsItem. */
  method SpawnGold(world: Registry, rng: Random) returns (gold: EntityId, ghost d: EntityData)
    requires world.Valid()
    modifies world, rng
    ensures world.Valid() && world.nextId == old(world.nextId) + 1
    ensures gold == Obj(old(world.nextId)) && gold !in old(world.entities)
    ensures world.entities == old(world.entities)[gold := d] && IsGoldItemData(d)
  {
    gold := world.NewEntity();
    var x := rng.RandInt(0, 20);
    var y := rng.RandInt(0, 20);
    var at := Position(x, y);
    Place(world, gold, at, Graphic('$' as int, Yellow));
    var amount := rng.RandInt(1, 10);
    Endow(world, gold, amount, {IsItem});
    assert {At(at)} + {IsItem} == {At(at), IsItem};
    d := world.entities[gold];
  }

  /** `m` is `start` plus the gold piles `items`, whose keys were handed out from `startId` on. */
  ghost predicate SpawnedItems(m: map<EntityId, EntityData>, start: map<EntityId, EntityData>,
                               startId: nat, nextId: nat, items: set<EntityId>) {
    && startId <= nextId
    && items !! start.Keys
    && m.Keys == start.Keys + items
    && (forall e :: e in items ==> e.Obj? && startId <= e.id < nextId)
    && (forall e :: e in start ==> m[e] == start[e])
    && (forall e :: e in items ==> IsGoldItemData(m[e]))
  }

  lemma SpawnStep(m: map<EntityId, EntityData>, start: map<EntityId, EntityData>,
                  startId: nat, nextId: nat, items: set<EntityId>, d: EntityData)
    requires SpawnedItems(m, start, startId, nextId, items)
    requires Obj(nextId) !in m && IsGoldItemData(d)
    ensures Obj(nextId) !in items
    ensures SpawnedItems(m[Obj(nextId) := d], start, startId, nextId + 1, items + {Obj(nextId)})
  {
    var g := Obj(nextId);
    var m' := m[g := d];
    assert m'.Keys == m.Keys + {g};
    forall e | e in items + {g}
      ensures IsGoldItemData(m'[e])
    {
      if e != g {
        assert m'[e] == m[e];
      }
    }
  }

  /** The loop of new_world: `count` gold piles, each a new entity. */
  method SpawnGoldItems(world: Registry, rng: Random, count: nat) returns (ghost items: set<EntityId>)
    requires world.Valid()
    modifies world, rng
    ensures world.Valid() && |items| == count
    ensures SpawnedItems(world.entities, old(world.entities), old(world.nextId), world.nextId, items)
  {
    ghost var start, startId := world.entities, world.nextId;
    items := {};
    var i := 0;
    while i < count
      invariant 0 <= i <= count
      invariant world.Valid() && world.nextId == startId + i
      invariant |items| == i
      invariant SpawnedItems(world.entities, start, startId, world.nextId, items)
    {
      ghost var m := world.entities;
      var gold, d := SpawnGold(world, rng);
      SpawnStep(m, start, startId, gold.id, items, d);
      items := items + {gold};
      i := i + 1;
    }
  }

  /** In the generated layout the player query finds the player alone and the item query the items. */
  lemma LayoutQueries(m: map<EntityId, EntityData>, player: EntityId, items: set<EntityId>)
    requires m.Keys == {WorldKey, player} + items && player !in items && WorldKey !in items
    requires m[WorldKey].tags == {} && IsPlayerData(m[player])
    requires forall e :: e in items ==> IsGoldItemData(m[e])
    ensures AllOf(m, {}, {IsPlayer}) == {player}
    ensures AllOf(m, {}, {IsItem}) == items
  {
    forall e | e in m
      ensures IsPlayer in m[e].tags <==> e == player
      ensures IsItem in m[e].tags <==> e in items
    {
      if e in items {
        assert m[e].tags == {At(m[e].position.value), IsItem};
      }
    }
  }

  /** new_world, with `seed` standing for the generator's entropy source. */
  method NewWorld(seed: nat) returns (world: Registry, player: EntityId)
    ensures fresh(world) && world.Valid()
    ensures world.Get(WorldKey).random.Some?
    ensures world.Query({}, {IsPlayer}) == {player}
    ensures IsPlayerData(world.Get(player))
    ensures |world.Query({}, {IsItem})| == ItemCount
    ensures forall e :: e in world.Query({}, {IsItem}) ==> IsGoldItemData(world.Get(e))
    ensures IsItem !in world.Get(player).tags
  {
    world := new Registry();
    var rng := new Random(seed);
    world.SetRandom(WorldKey, rng);
    player := SpawnPlayer(world);
    ghost var start := world.entities;
    assert start.Keys == {WorldKey, player};
    var items := SpawnGoldItems(world, rng, ItemCount);
    LayoutQueries(world.entities, player, items);
  }
}
