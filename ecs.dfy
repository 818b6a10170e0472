/** The entity store of src/engine/ecs.rs: a counter that hands out ids and
    an append-only list of entities.  The transform type of an entity is a
    type parameter, and the renderer is seen only through its scene's list
    of renderable objects. */
module Ecs {
  import opened EnginePrimitives

  /** `usize::MAX` on a 64-bit target: `next_id += 1` panics past it. */
  const USIZE_MAX: nat := 0xFFFF_FFFF_FFFF_FFFF

  datatype Entity<Transform> = Entity(id: nat, name: string, transform: Transform, mesh: Mesh)

  /** `Entity::new`: the given id and name, the default transform and the
      default (empty) mesh. */
  function NewEntity<Transform>(id: nat, name: string, defaultTransform: Transform): (e: Entity<Transform>)
    ensures e.id == id && e.name == name && e.transform == defaultTransform
    ensures e.mesh.vertices == [] && e.mesh.indices == []
  {
    Entity(id, name, defaultTransform, Mesh.DEFAULT)
  }

  /** A renderable as the scene records it: the entity it was made for.
      Its GPU buffers are not modelled. */
  datatype Renderable = Renderable(entityId: nat)

  /** `renderer.scene.objects`. */
  class Scene {
    var objects: seq<Renderable>

    constructor ()
      ensures objects == []
    {
      objects := [];
    }
  }

  /** Every id below `next_id` is in use, by the entity at that position. */
  ghost predicate IdsArePositions<Transform>(nextId: nat, entities: seq<Entity<Transform>>) {
    nextId == |entities| && forall k :: 0 <= k < |entities| ==> entities[k].id == k
  }

  class ECS<Transform> {
    var nextId: nat
    var entities: seq<Entity<Transform>>

    ghost predicate Valid()
      reads this
    {
      IdsArePositions(nextId, entities)
    }

    /** `ECS::new`. */
    constructor ()
      ensures nextId == 0 && entities == [] && Valid()
    {
      nextId := 0;
      entities := [];
    }

    /** `create_entity`: the new entity takes the current counter as its id,
        the counter moves up by one, the entity is appended, and the scene
        gets exactly one new renderable, for that entity. */
    method CreateEntity(name: string, mesh: Mesh, transform: Transform, scene: Scene) returns (entity: Entity<Transform>)
      requires nextId < USIZE_MAX
      modifies this, scene
      ensures entity == Entity(old(nextId), name, transform, mesh)
      ensures nextId == old(nextId) + 1
      ensures entities == old(entities) + [entity]
      ensures scene.objects == old(scene.objects) + [Renderable(entity.id)]
      ensures old(Valid()) ==> Valid()
    {
      var id := nextId;
      nextId := nextId + 1;
      entity := Entity(id, name, transform, mesh);
      entities := entities + [entity];
      scene.objects := scene.objects + [Renderable(entity.id)];
    }
  }

  /** In a valid store ids strictly increase along the list, so no id is
      held twice, and the next id to be handed out is held by nobody. */
  lemma IdsIncreaseAndAreFresh<Transform>(nextId: nat, entities: seq<Entity<Transform>>)
    requires IdsArePositions(nextId, entities)
    ensures forall i, j :: 0 <= i < j < |entities| ==> entities[i].id < entities[j].id
    ensures forall k :: 0 <= k < |entities| ==> entities[k].id != nextId
  {
  }
}
