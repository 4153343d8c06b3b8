/**
 * The entity store, as far as the game uses it: entities addressed by key
 * (the `None` key is the world's global entity), at most one value per
 * component kind, a tag set per entity, `all_of` queries, `clear`, and the
 * Position-changed callback that keeps position tags in step.
 */
module Ecs {
  import opened Wrappers
  import opened Components
  import opened GameMessage
  import opened PyRandom

  /** `world[None]` or `world[object()]`, a fresh object standing for a new entity. */
  datatype EntityId = WorldKey | Obj(id: nat)

  datatype Kind = PositionKind | GraphicKind | GoldKind | RandomKind | MessageLogKind

  /** One entity: its components, one optional slot per kind, and its tags. */
  datatype EntityData = EntityData(
    position: Option<Position>,
    graphic: Option<Graphic>,
    gold: Option<int>,
    random: Option<Random>,
    log: Option<seq<Message>>,
    tags: set<Tag>)

  const Blank: EntityData := EntityData(None, None, None, None, None, {})

  predicate Has(d: EntityData, k: Kind) {
    match k
    case PositionKind => d.position.Some?
    case GraphicKind => d.graphic.Some?
    case GoldKind => d.gold.Some?
    case RandomKind => d.random.Some?
    case MessageLogKind => d.log.Some?
  }

  /** Holds every listed component kind and carries every listed tag. */
  predicate Matches(d: EntityData, kinds: set<Kind>, tags: set<Tag>) {
    (forall k :: k in kinds ==> Has(d, k)) && tags <= d.tags
  }

  function Lookup(m: map<EntityId, EntityData>, e: EntityId): EntityData {
    if e in m then m[e] else Blank
  }

  /** `all_of(components=kinds, tags=tags)` over a snapshot of the store. */
  function AllOf(m: map<EntityId, EntityData>, kinds: set<Kind>, tags: set<Tag>): (r: set<EntityId>)
    ensures forall e :: e in r <==> e in m && Matches(m[e], kinds, tags)
  {
    set e | e in m && Matches(m[e], kinds, tags)
  }

  /** The store's invariant: position tags mirror Position components; keys are never reused. */
  ghost predicate StoreInvariant(m: map<EntityId, EntityData>, nextId: nat) {
    (forall e :: e in m ==> Mirrored(m[e].position, m[e].tags)) &&
    (forall e :: e in m && e.Obj? ==> e.id < nextId)
  }

  class Registry {
    var entities: map<EntityId, EntityData>
    var nextId: nat

    ghost predicate Valid()
      reads this
    {
      StoreInvariant(entities, nextId)
    }

    constructor ()
      ensures Valid() && entities == map[] && nextId == 0
    {
      entities, nextId := map[], 0;
    }

    /** A key handed out by this store (or the world key). */
    predicate Allocated(e: EntityId)
      reads this
    {
      e.Obj? ==> e.id < nextId
    }

    function Get(e: EntityId): EntityData
      reads this
    {
      Lookup(entities, e)
    }

    function Query(kinds: set<Kind>, tags: set<Tag>): set<EntityId>
      reads this
    {
      AllOf(entities, kinds, tags)
    }

    /** `world[object()]`: a key no entity has used before. */
    method NewEntity() returns (e: EntityId)
      requires Valid()
      modifies this
      ensures Valid()
      ensures e == Obj(old(nextId)) && e !in entities && nextId == old(nextId) + 1
      ensures entities == old(entities)
    {
      e := Obj(nextId);
      nextId := nextId + 1;
    }

    /** Write (or, with None, remove) the Position component; the changed callback retags. */
    method SetPosition(e: EntityId, p: Option<Position>)
      requires Valid() && Allocated(e)
      modifies this
      ensures Valid() && nextId == old(nextId)
      ensures entities == old(entities)[e := old(Get(e)).(position := p,
        tags := OnPositionChanged(old(Get(e)).tags, old(Get(e)).position, p))]
    {
      var d := Get(e);
      MirrorPreserved(d.tags, d.position, p);
      entities := entities[e := d.(position := p, tags := OnPositionChanged(d.tags, d.position, p))];
    }

    method SetGraphic(e: EntityId, g: Graphic)
      requires Valid() && Allocated(e)
      modifies this
      ensures Valid() && nextId == old(nextId)
      ensures entities == old(entities)[e := old(Get(e)).(graphic := Some(g))]
    {
      entities := entities[e := Get(e).(graphic := Some(g))];
    }

    method SetGold(e: EntityId, amount: int)
      requires Valid() && Allocated(e)
      modifies this
      ensures Valid() && nextId == old(nextId)
      ensures entities == old(entities)[e := old(Get(e)).(gold := Some(amount))]
    {
      entities := entities[e := Get(e).(gold := Some(amount))];
    }

    method SetRandom(e: EntityId, rng: Random)
      requires Valid() && Allocated(e)
      modifies this
      ensures Valid() && nextId == old(nextId)
      ensures entities == old(entities)[e := old(Get(e)).(random := Some(rng))]
    {
      entities := entities[e := Get(e).(random := Some(rng))];
    }

    method SetLog(e: EntityId, log: seq<Message>)
      requires Valid() && Allocated(e)
      modifies this
      ensures Valid() && nextId == old(nextId)
      ensures entities == old(entities)[e := old(Get(e)).(log := Some(log))]
    {
      entities := entities[e := Get(e).(log := Some(log))];
    }

    /** `entity.tags |= ts` with named tags (position tags only come from the callback). */
    method AddTags(e: EntityId, ts: set<Tag>)
      requires Valid() && Allocated(e)
      requires forall t :: t in ts ==> t.Named?
      modifies this
      ensures Valid() && nextId == old(nextId)
      ensures entities == old(entities)[e := old(Get(e)).(tags := old(Get(e)).tags + ts)]
    {
      entities := entities[e := Get(e).(tags := Get(e).tags + ts)];
    }

    /**
     * `entity.clear()`: every component is removed (the Position callback drops
     * the position tag) and every tag with it, so no query finds the entity.
     */
    method Clear(e: EntityId)
      requires Valid()
      modifies this
      ensures Valid() && nextId == old(nextId)
      ensures entities == old(entities) - {e}
    {
      if e in entities {
        SetPosition(e, None);
      }
      entities := entities - {e};
    }
  }

  /** A cleared entity matches no query that asks for anything. */
  lemma ClearedMatchesNothing(m: map<EntityId, EntityData>, e: EntityId, kinds: set<Kind>, tags: set<Tag>)
    requires kinds != {} || tags != {}
    ensures e !in AllOf(m - {e}, kinds, tags)
    ensures !Matches(Lookup(m - {e}, e), kinds, tags)
  {
    if kinds != {} {
      var k :| k in kinds;
      assert !Has(Blank, k);
    } else {
      var t :| t in tags;
      assert t !in Blank.tags;
    }
  }
}
