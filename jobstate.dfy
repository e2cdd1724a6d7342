/**
 * The run-scoped job state the steps share: entities and relationships in the order they
 * were added. Steps only add to it.
 */
module Jobs {
  import opened Wrappers
  import opened Sdk

  /** The first entity whose key is `key`; an absent key finds nothing. */
  function FindByKey(es: seq<Entity>, key: Option<string>): (r: Option<Entity>)
    ensures r.Some? ==> key.Some? && r.value in es && r.value.key == key.value
    ensures r.None? ==> key.None? || forall i :: 0 <= i < |es| ==> es[i].key != key.value
    decreases |es|
  {
    if key.None? || es == [] then None
    else if es[0].key == key.value then Some(es[0])
    else FindByKey(es[1..], key)
  }

  /** The entities whose `_type` is `t`, in the order they were added. */
  function OfType(es: seq<Entity>, t: string): (r: seq<Entity>)
    ensures |r| <= |es|
    ensures forall i :: 0 <= i < |r| ==> r[i].entityType == t && r[i] in es
    ensures forall i :: 0 <= i < |es| && es[i].entityType == t ==> es[i] in r
    decreases |es|
  {
    if es == [] then []
    else (if es[0].entityType == t then [es[0]] else []) + OfType(es[1..], t)
  }

  /** Filtering a list extended by one entity extends the filtered list by that entity when it has the type. */
  lemma {:induction false} OfTypeAppend(es: seq<Entity>, e: Entity, t: string)
    ensures OfType(es + [e], t) == OfType(es, t) + (if e.entityType == t then [e] else [])
    decreases |es|
  {
    if es == [] {
      assert es + [e] == [e];
    } else {
      assert (es + [e])[0] == es[0];
      assert (es + [e])[1..] == es[1..] + [e];
      OfTypeAppend(es[1..], e, t);
    }
  }

  /** Adding to a list leaves what an earlier lookup found where it was. */
  lemma {:induction false} FindByKeyAppend(es: seq<Entity>, more: seq<Entity>, key: Option<string>)
    requires FindByKey(es, key).Some?
    ensures FindByKey(es + more, key) == FindByKey(es, key)
    decreases |es|
  {
    assert (es + more)[0] == es[0];
    if es[0].key != key.value {
      assert (es + more)[1..] == es[1..] + more;
      FindByKeyAppend(es[1..], more, key);
    }
  }

  class JobState {
    var entities: seq<Entity>
    var relationships: seq<Relationship>

    constructor ()
      ensures entities == [] && relationships == []
    {
      entities := [];
      relationships := [];
    }

    method AddEntity(e: Entity) returns (added: Entity)
      modifies this
      ensures entities == old(entities) + [e] && relationships == old(relationships)
      ensures added == e
    {
      entities := entities + [e];
      added := e;
    }

    method AddRelationship(r: Relationship)
      modifies this
      ensures relationships == old(relationships) + [r] && entities == old(entities)
    {
      relationships := relationships + [r];
    }

    /** `findEntity(key)`: an entity with that key, or nothing. */
    function FindEntity(key: Option<string>): (r: Option<Entity>)
      reads this
      ensures r.Some? ==> key.Some? && r.value in entities && r.value.key == key.value
      ensures r.None? ==> key.None? || forall e :: e in entities ==> e.key != key.value
    {
      FindByKey(entities, key)
    }

    /** The entities `iterateEntities({ _type: t }, ...)` visits, in order. */
    function EntitiesOfType(t: string): (r: seq<Entity>)
      reads this
      ensures forall e :: e in r <==> e in entities && e.entityType == t
    {
      OfType(entities, t)
    }
  }
}
