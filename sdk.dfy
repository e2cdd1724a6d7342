/**
 * The shapes that the integration SDK stores in job state, and the SDK and Azure helpers
 * the core calls. The helpers' code is not part of this model: they are deterministic
 * functions supplied by the caller as a `Helpers` record. The one SDK behaviour pinned
 * down by the repository's tests is the key of a direct relationship,
 * `fromKey|<class in lower case>|toKey`.
 */
module Sdk {
  import opened Wrappers

  datatype RelationshipClass = HAS | IDENTIFIED | CONTAINS

  /** The lower-case class name that appears inside a relationship key. */
  function ClassVerb(c: RelationshipClass): (v: string)
    ensures v != [] && '|' !in v
  {
    match c
    case HAS => "has"
    case IDENTIFIED => "identified"
    case CONTAINS => "contains"
  }

  /** A stored graph entity: its key, its `_type`, and the `id` and `name` properties handlers read. */
  datatype Entity = Entity(key: string, entityType: string, id: Option<string>, name: Option<string>)

  datatype Relationship = Relationship(
    key: string,
    relClass: RelationshipClass,
    fromKey: string,
    fromType: string,
    toKey: string,
    toType: string,
    relType: string)

  /** The helpers whose code is outside this model, as deterministic functions. */
  datatype Helpers = Helpers(
    generateEntityKey: Option<string> -> string,
    generateRelationshipType: (RelationshipClass, string, string) -> string,
    resourceGroupName: (Option<string>, Option<bool>) -> Option<string>,
    eventGridDomainNameFromId: Option<string> -> Option<string>,
    portalResourceUrl: Option<string> -> Option<string>,
    getTime: Option<string> -> Option<int>)

  function RelationshipKey(fromKey: string, c: RelationshipClass, toKey: string): (k: string)
    ensures |k| == |fromKey| + |ClassVerb(c)| + |toKey| + 2
    ensures k[..|fromKey|] == fromKey && k[|k| - |toKey|..] == toKey
  {
    fromKey + "|" + ClassVerb(c) + "|" + toKey
  }

  /**
   * `createDirectRelationship` given keys and types; `typeOverride` is `properties._type`,
   * otherwise the SDK derives the `_type` from the class and the two entity types.
   */
  function DirectRelationship(
    h: Helpers, c: RelationshipClass, fromKey: string, fromType: string,
    toKey: string, toType: string, typeOverride: Option<string>): (r: Relationship)
    ensures r.key == RelationshipKey(r.fromKey, r.relClass, r.toKey)
    ensures r.relClass == c && r.fromKey == fromKey && r.toKey == toKey
    ensures r.fromType == fromType && r.toType == toType
    ensures typeOverride.Some? ==> r.relType == typeOverride.value
    ensures typeOverride.None? ==> r.relType == h.generateRelationshipType(c, fromType, toType)
  {
    var relType := match typeOverride
      case Some(t) => t
      case None => h.generateRelationshipType(c, fromType, toType);
    Relationship(RelationshipKey(fromKey, c, toKey), c, fromKey, fromType, toKey, toType, relType)
  }

  /** `createDirectRelationship({_class, from, to, properties})`: keys and types come from the entities. */
  function DirectRelationshipBetween(
    h: Helpers, c: RelationshipClass, from: Entity, to: Entity, typeOverride: Option<string>): (r: Relationship)
    ensures r.fromKey == from.key && r.toKey == to.key
    ensures r.fromType == from.entityType && r.toType == to.entityType
    ensures r.relClass == c && r.key == RelationshipKey(from.key, c, to.key)
    ensures typeOverride.Some? ==> r.relType == typeOverride.value
    ensures typeOverride.None? ==> r.relType == h.generateRelationshipType(c, from.entityType, to.entityType)
  {
    DirectRelationship(h, c, from.key, from.entityType, to.key, to.entityType, typeOverride)
  }

  /** In `a + "|" + b` with no '|' in `a`, the first '|' stands at index |a|. */
  lemma FirstBarAt(a: string, b: string)
    requires '|' !in a
    ensures (a + "|" + b)[|a|] == '|'
    ensures forall k :: 0 <= k < |a| ==> (a + "|" + b)[k] != '|'
  {
    forall k | 0 <= k < |a| ensures (a + "|" + b)[k] != '|' {
      assert (a + "|" + b)[k] == a[k];
    }
  }

  /** Splitting at the first '|' is unique when the left part holds no '|'. */
  lemma {:induction false} SplitAtFirstBar(a1: string, b1: string, a2: string, b2: string)
    requires '|' !in a1 && '|' !in a2
    requires a1 + "|" + b1 == a2 + "|" + b2
    ensures a1 == a2 && b1 == b2
  {
    var s := a1 + "|" + b1;
    FirstBarAt(a1, b1);
    FirstBarAt(a2, b2);
    assert |a1| == |a2|;
    assert a1 == s[..|a1|];
    assert a2 == (a2 + "|" + b2)[..|a2|];
    assert b1 == s[|a1| + 1..];
    assert b2 == (a2 + "|" + b2)[|a2| + 1..];
  }

  /**
   * The relationship key determines the triple it was made from, as long as the source key
   * holds no '|' (true of the Azure resource ids and account keys used as keys).
   */
  lemma {:induction false} RelationshipKeyInjective(
    f1: string, c1: RelationshipClass, t1: string, f2: string, c2: RelationshipClass, t2: string)
    requires '|' !in f1 && '|' !in f2
    requires RelationshipKey(f1, c1, t1) == RelationshipKey(f2, c2, t2)
    ensures f1 == f2 && c1 == c2 && t1 == t2
  {
    var v1, v2 := ClassVerb(c1), ClassVerb(c2);
    assert f1 + "|" + v1 + "|" + t1 == f1 + "|" + (v1 + "|" + t1);
    assert f2 + "|" + v2 + "|" + t2 == f2 + "|" + (v2 + "|" + t2);
    SplitAtFirstBar(f1, v1 + "|" + t1, f2, v2 + "|" + t2);
    SplitAtFirstBar(v1, t1, v2, t2);
    match c1
    case HAS => assert c2 == HAS;
    case IDENTIFIED => assert c2 == IDENTIFIED;
    case CONTAINS => assert c2 == CONTAINS;
  }
}
