/**
 * The event-grid steps. Each handler walks the job-state entities of one parent `_type`
 * in order, asks the client for that parent's children, and for each child adds its
 * entity and then one relationship. Clients and converters are given functions.
 */
module EventGrid {
  import opened Wrappers
  import opened Sdk
  import opened Jobs
  import opened StepGraph
  import Directory

  const DOMAIN_TYPE := "azure_event_grid_domain"
  const DOMAIN_TOPIC_TYPE := "azure_event_grid_domain_topic"
  const TOPIC_TYPE := "azure_event_grid_topic"
  const TOPIC_SUBSCRIPTION_TYPE := "azure_event_grid_topic_subscription"

  // resources/ is not part of this model; the key-vault test stores resource groups with
  // this `_type`, and the step id stands for the constant of the same name.
  const RESOURCE_GROUP_ENTITY_TYPE := "azure_resource_group"
  const STEP_RM_RESOURCES_RESOURCE_GROUPS := "STEP_RM_RESOURCES_RESOURCE_GROUPS"

  const STEP_RM_EVENT_GRID_DOMAINS := "rm-event-grid-domains"
  const STEP_RM_EVENT_GRID_DOMAIN_TOPICS := "rm-event-grid-domain-topics"
  const STEP_RM_EVENT_GRID_TOPIC_SUBSCRIPTIONS := "rm-event-grid-topic-subscriptions"
  const STEP_RM_EVENT_GRID_TOPICS := "rm-event-grid-topics"
  // Imported by index.ts but not defined in constants.ts: a distinct opaque identifier.
  const STEP_RM_EVENT_GRID_DOMAIN_TOPIC_SUBSCRIPTIONS := "STEP_RM_EVENT_GRID_DOMAIN_TOPIC_SUBSCRIPTIONS"

  // Relationship shapes, by the name of their `EventGridRelationships` entry.
  const RESOURCE_GROUP_HAS_DOMAIN := "RESOURCE_GROUP_HAS_DOMAIN"
  const DOMAIN_HAS_DOMAIN_TOPIC := "DOMAIN_HAS_DOMAIN_TOPIC"
  const DOMAIN_TOPIC_HAS_SUBSCRIPTION := "DOMAIN_TOPIC_HAS_SUBSCRIPTION"
  const RESOURCE_GROUP_HAS_TOPIC := "RESOURCE_GROUP_HAS_TOPIC"
  const TOPIC_HAS_SUBSCRIPTION := "TOPIC_HAS_SUBSCRIPTION"

  // ---------------------------------------------------------------------------------------
  // What a handler adds

  /** One child entity added under one parent. */
  datatype Addition = Addition(parent: Entity, child: Entity)

  function ChildAdditions<R>(p: Entity, items: seq<R>, convert: R -> Entity): (r: seq<Addition>)
    ensures |r| == |items|
  {
    seq(|items|, k requires 0 <= k < |items| => Addition(p, convert(items[k])))
  }

  /** The number of children the client yields for the parents the guard admits. */
  function ChildCount<R>(parents: seq<Entity>, guard: Entity -> bool, client: Entity -> seq<R>): (n: nat)
    ensures (forall i :: 0 <= i < |parents| ==> !guard(parents[i])) ==> n == 0
    decreases |parents|
  {
    if parents == [] then 0
    else
      var p := parents[|parents| - 1];
      ChildCount(parents[..|parents| - 1], guard, client) + (if guard(p) then |client(p)| else 0)
  }

  /** The additions in the order the nested loops make them: parent order, then child order. */
  function Additions<R>(
    parents: seq<Entity>, guard: Entity -> bool, client: Entity -> seq<R>, convert: R -> Entity): (r: seq<Addition>)
    ensures |r| == ChildCount(parents, guard, client)
    decreases |parents|
  {
    if parents == [] then []
    else
      var p := parents[|parents| - 1];
      Additions(parents[..|parents| - 1], guard, client, convert)
      + (if guard(p) then ChildAdditions(p, client(p), convert) else [])
  }

  /** The child entities, in the order they are added. */
  function AddedEntities(adds: seq<Addition>): (r: seq<Entity>)
    ensures |r| == |adds|
    decreases |adds|
  {
    if adds == [] then [] else AddedEntities(adds[..|adds| - 1]) + [adds[|adds| - 1].child]
  }

  /** The edge made for each addition, in the order they are added. */
  function AddedEdges(adds: seq<Addition>, edge: (Entity, Entity) -> Relationship): (r: seq<Relationship>)
    ensures |r| == |adds|
    decreases |adds|
  {
    if adds == [] then [] else AddedEdges(adds[..|adds| - 1], edge) + [edge(adds[|adds| - 1].parent, adds[|adds| - 1].child)]
  }

  /** Every parent is visited. */
  function Unguarded(p: Entity): (admit: bool)
    ensures admit
  {
    true
  }

  /** The edge from the child's resource group, as the given `createResourceGroupResourceRelationship` builds it. */
  function ResourceGroupEdge(resourceGroupEdge: Entity -> Relationship): (edge: (Entity, Entity) -> Relationship)
    ensures forall p, c :: edge(p, c) == resourceGroupEdge(c)
  {
    (p: Entity, c: Entity) => resourceGroupEdge(c)
  }

  /** The direct HAS edge from the parent being iterated to the child. */
  function ParentHasEdge(h: Helpers): (edge: (Entity, Entity) -> Relationship)
    ensures forall p, c ::
      (edge(p, c).relClass == HAS && edge(p, c).fromKey == p.key && edge(p, c).toKey == c.key
       && edge(p, c).fromType == p.entityType && edge(p, c).toType == c.entityType
       && edge(p, c).key == RelationshipKey(p.key, HAS, c.key)
       && edge(p, c).relType == h.generateRelationshipType(HAS, p.entityType, c.entityType))
  {
    (p: Entity, c: Entity) => DirectRelationshipBetween(h, HAS, p, c, None)
  }

  // ---------------------------------------------------------------------------------------
  // Properties of the additions

  /** Handling a list of parents in two parts adds the first part's children, then the second's. */
  lemma {:induction false} AdditionsAppend<R>(
    a: seq<Entity>, b: seq<Entity>, guard: Entity -> bool, client: Entity -> seq<R>, convert: R -> Entity)
    ensures Additions(a + b, guard, client, convert)
      == Additions(a, guard, client, convert) + Additions(b, guard, client, convert)
    decreases |b|
  {
    if b == [] {
      assert a + b == a;
    } else {
      var b', p := b[..|b| - 1], b[|b| - 1];
      var tail := if guard(p) then ChildAdditions(p, client(p), convert) else [];
      AdditionsAppend(a, b', guard, client, convert);
      assert (a + b)[..|a + b| - 1] == a + b';
      assert (a + b)[|a + b| - 1] == p;
      assert Additions(a + b, guard, client, convert) == Additions(a + b', guard, client, convert) + tail;
      assert Additions(b, guard, client, convert) == Additions(b', guard, client, convert) + tail;
      ConcatAssoc(Additions(a, guard, client, convert), Additions(b', guard, client, convert), tail);
    }
  }

  /** A single parent adds its children in client order when the guard admits it, and nothing otherwise. */
  lemma AdditionsSingle<R>(p: Entity, guard: Entity -> bool, client: Entity -> seq<R>, convert: R -> Entity)
    ensures Additions([p], guard, client, convert)
      == if guard(p) then ChildAdditions(p, client(p), convert) else []
  {
    assert [p][..0] == [];
  }

  /** Every addition pairs an admitted parent with the conversion of one of that parent's children. */
  lemma {:induction false} AdditionsOrigin<R>(
    parents: seq<Entity>, guard: Entity -> bool, client: Entity -> seq<R>, convert: R -> Entity, k: nat)
    requires k < |Additions(parents, guard, client, convert)|
    ensures var a := Additions(parents, guard, client, convert)[k];
      a.parent in parents && guard(a.parent)
      && exists j :: 0 <= j < |client(a.parent)| && a.child == convert(client(a.parent)[j])
    decreases |parents|
  {
    var init := parents[..|parents| - 1];
    var p := parents[|parents| - 1];
    var before := Additions(init, guard, client, convert);
    if k < |before| {
      AdditionsOrigin(init, guard, client, convert, k);
      assert forall e :: e in init ==> e in parents;
    } else {
      var j := k - |before|;
      assert Additions(parents, guard, client, convert)[k] == Addition(p, convert(client(p)[j]));
    }
  }

  lemma {:induction false} AddedEntitiesAt(adds: seq<Addition>, k: nat)
    requires k < |adds|
    ensures AddedEntities(adds)[k] == adds[k].child
    decreases |adds|
  {
    if k < |adds| - 1 {
      AddedEntitiesAt(adds[..|adds| - 1], k);
    }
  }

  lemma {:induction false} AddedEdgesAt(adds: seq<Addition>, edge: (Entity, Entity) -> Relationship, k: nat)
    requires k < |adds|
    ensures AddedEdges(adds, edge)[k] == edge(adds[k].parent, adds[k].child)
    decreases |adds|
  {
    if k < |adds| - 1 {
      AddedEdgesAt(adds[..|adds| - 1], edge, k);
    }
  }

  /**
   * The HAS edges of a handler run from an entity of the parent type, the one being
   * iterated, to the entity added together with the edge.
   */
  lemma ParentHasEdgesLinkPairs<R>(
    h: Helpers, es: seq<Entity>, parentType: string, guard: Entity -> bool, client: Entity -> seq<R>,
    convert: R -> Entity, k: nat)
    requires k < |Additions(OfType(es, parentType), guard, client, convert)|
    ensures var adds := Additions(OfType(es, parentType), guard, client, convert);
      var r := AddedEdges(adds, ParentHasEdge(h))[k];
      && r.relClass == HAS
      && r.fromKey == adds[k].parent.key && r.fromType == parentType && adds[k].parent in es
      && r.toKey == AddedEntities(adds)[k].key
  {
    var adds := Additions(OfType(es, parentType), guard, client, convert);
    AdditionsOrigin(OfType(es, parentType), guard, client, convert, k);
    AddedEntitiesAt(adds, k);
    AddedEdgesAt(adds, ParentHasEdge(h), k);
  }

  /** The resource-group edges of a handler are built from the entity added together with them. */
  lemma ResourceGroupEdgesFollowChildren(resourceGroupEdge: Entity -> Relationship, adds: seq<Addition>, k: nat)
    requires k < |adds|
    ensures AddedEdges(adds, ResourceGroupEdge(resourceGroupEdge))[k] == resourceGroupEdge(AddedEntities(adds)[k])
  {
    AddedEntitiesAt(adds, k);
    AddedEdgesAt(adds, ResourceGroupEdge(resourceGroupEdge), k);
  }

  lemma {:induction false} AddedEntitiesAppend(a: seq<Addition>, b: seq<Addition>)
    ensures AddedEntities(a + b) == AddedEntities(a) + AddedEntities(b)
    decreases |b|
  {
    if b == [] {
      assert a + b == a;
    } else {
      var b' := b[..|b| - 1];
      assert (a + b)[..|a + b| - 1] == a + b';
      AddedEntitiesAppend(a, b');
    }
  }

  lemma {:induction false} AddedEdgesAppend(a: seq<Addition>, b: seq<Addition>, edge: (Entity, Entity) -> Relationship)
    ensures AddedEdges(a + b, edge) == AddedEdges(a, edge) + AddedEdges(b, edge)
    decreases |b|
  {
    if b == [] {
      assert a + b == a;
    } else {
      var b' := b[..|b| - 1];
      assert (a + b)[..|a + b| - 1] == a + b';
      AddedEdgesAppend(a, b', edge);
    }
  }

  // ---------------------------------------------------------------------------------------
  // Handlers

  /** One more parent extends the additions by that parent's own. */
  lemma AdditionsStep<R>(
    parents: seq<Entity>, i: nat, guard: Entity -> bool, client: Entity -> seq<R>, convert: R -> Entity)
    requires i < |parents|
    ensures Additions(parents[..i + 1], guard, client, convert)
      == Additions(parents[..i], guard, client, convert)
         + (if guard(parents[i]) then ChildAdditions(parents[i], client(parents[i]), convert) else [])
  {
    assert parents[..i + 1][..i] == parents[..i];
  }

  lemma ConcatAssoc<T>(a: seq<T>, b: seq<T>, c: seq<T>)
    ensures (a + b) + c == a + (b + c)
  {
  }

  /** The inner loop: the children of one parent, each entity followed by its edge. */
  method AddChildren<R>(js: JobState, p: Entity, items: seq<R>, convert: R -> Entity, edge: (Entity, Entity) -> Relationship)
    modifies js
    ensures js.entities == old(js.entities) + AddedEntities(ChildAdditions(p, items, convert))
    ensures js.relationships == old(js.relationships) + AddedEdges(ChildAdditions(p, items, convert), edge)
  {
    var j := 0;
    while j < |items|
      invariant 0 <= j <= |items|
      invariant js.entities == old(js.entities) + AddedEntities(ChildAdditions(p, items[..j], convert))
      invariant js.relationships == old(js.relationships) + AddedEdges(ChildAdditions(p, items[..j], convert), edge)
    {
      var child := convert(items[j]);
      var added := js.AddEntity(child);
      js.AddRelationship(edge(p, added));
      ghost var done := ChildAdditions(p, items[..j], convert);
      assert ChildAdditions(p, items[..j + 1], convert) == done + [Addition(p, child)];
      AddedEntitiesAppend(done, [Addition(p, child)]);
      AddedEdgesAppend(done, [Addition(p, child)], edge);
      j := j + 1;
    }
    assert items[..j] == items;
  }

  /**
   * The loop every handler runs: for each parent of `parentType` that the guard admits,
   * for each child the client yields, add the converted entity and then its edge.
   */
  method FetchChildren<R>(
    js: JobState, parentType: string, guard: Entity -> bool, client: Entity -> seq<R>,
    convert: R -> Entity, edge: (Entity, Entity) -> Relationship)
    modifies js
    ensures js.entities == old(js.entities)
      + AddedEntities(Additions(OfType(old(js.entities), parentType), guard, client, convert))
    ensures js.relationships == old(js.relationships)
      + AddedEdges(Additions(OfType(old(js.entities), parentType), guard, client, convert), edge)
    ensures |js.entities| - |old(js.entities)| == |js.relationships| - |old(js.relationships)|
      == ChildCount(OfType(old(js.entities), parentType), guard, client)
  {
    var parents := js.EntitiesOfType(parentType);
    var i := 0;
    assert parents[..0] == [];
    while i < |parents|
      invariant 0 <= i <= |parents|
      invariant js.entities == old(js.entities) + AddedEntities(Additions(parents[..i], guard, client, convert))
      invariant js.relationships == old(js.relationships) + AddedEdges(Additions(parents[..i], guard, client, convert), edge)
    {
      var p := parents[i];
      ghost var done := Additions(parents[..i], guard, client, convert);
      ghost var mine := if guard(p) then ChildAdditions(p, client(p), convert) else [];
      ghost var entitiesBefore, relationshipsBefore := js.entities, js.relationships;
      if guard(p) {
        AddChildren(js, p, client(p), convert, edge);
      } else {
        assert AddedEntities(mine) == [] && AddedEdges(mine, edge) == [];
      }
      assert js.entities == entitiesBefore + AddedEntities(mine);
      assert js.relationships == relationshipsBefore + AddedEdges(mine, edge);
      AdditionsStep(parents, i, guard, client, convert);
      AddedEntitiesAppend(done, mine);
      AddedEdgesAppend(done, mine, edge);
      ConcatAssoc(old(js.entities), AddedEntities(done), AddedEntities(mine));
      ConcatAssoc(old(js.relationships), AddedEdges(done, edge), AddedEdges(mine, edge));
      assert js.entities == old(js.entities) + AddedEntities(Additions(parents[..i + 1], guard, client, convert));
      i := i + 1;
    }
    assert parents[..i] == parents;
  }

  method FetchEventGridDomains<R>(
    js: JobState, client: Entity -> seq<R>, convert: R -> Entity,
    resourceGroupEdge: Entity -> Relationship)
    modifies js
    ensures js.entities == old(js.entities)
      + AddedEntities(Additions(OfType(old(js.entities), RESOURCE_GROUP_ENTITY_TYPE), Unguarded, client, convert))
    ensures js.relationships == old(js.relationships)
      + AddedEdges(Additions(OfType(old(js.entities), RESOURCE_GROUP_ENTITY_TYPE), Unguarded, client, convert),
                   ResourceGroupEdge(resourceGroupEdge))
  {
    FetchChildren(js, RESOURCE_GROUP_ENTITY_TYPE, Unguarded, client, convert, ResourceGroupEdge(resourceGroupEdge));
  }

  method FetchEventGridDomainTopics<R>(js: JobState, h: Helpers, client: Entity -> seq<R>, convert: R -> Entity)
    modifies js
    ensures js.entities == old(js.entities)
      + AddedEntities(Additions(OfType(old(js.entities), DOMAIN_TYPE), Unguarded, client, convert))
    ensures js.relationships == old(js.relationships)
      + AddedEdges(Additions(OfType(old(js.entities), DOMAIN_TYPE), Unguarded, client, convert), ParentHasEdge(h))
  {
    FetchChildren(js, DOMAIN_TYPE, Unguarded, client, convert, ParentHasEdge(h));
  }

  /** The arguments the domain-topic-subscription client is called with. */
  datatype DomainTopicScope = DomainTopicScope(resourceGroupName: string, domainTopicName: string, domainName: string)

  /** The scope of a domain topic, when its resource group, domain name and own name are all truthy. */
  function ScopeOf(h: Helpers, topic: Entity): (s: Option<DomainTopicScope>)
    ensures s.Some? <==>
      Truthy(h.resourceGroupName(topic.id, Some(true)))
      && Truthy(h.eventGridDomainNameFromId(topic.id)) && Truthy(topic.name)
    ensures s.Some? ==>
      s.value.resourceGroupName == h.resourceGroupName(topic.id, Some(true)).value
      && s.value.domainName == h.eventGridDomainNameFromId(topic.id).value
      && s.value.domainTopicName == topic.name.value
  {
    var resourceGroup := h.resourceGroupName(topic.id, Some(true));
    var domainName := h.eventGridDomainNameFromId(topic.id);
    if Truthy(resourceGroup) && Truthy(domainName) && Truthy(topic.name)
    then Some(DomainTopicScope(resourceGroup.value, topic.name.value, domainName.value))
    else None
  }

  /** The guard of the subscription step: only topics whose scope is complete are visited. */
  function HasScope(h: Helpers): (admit: Entity -> bool)
    ensures forall topic :: admit(topic) <==> ScopeOf(h, topic).Some?
  {
    (topic: Entity) => ScopeOf(h, topic).Some?
  }

  /** The client, called only for a topic whose scope is complete. */
  function ScopedClient<R>(h: Helpers, client: DomainTopicScope -> seq<R>): (scoped: Entity -> seq<R>)
    ensures forall topic :: ScopeOf(h, topic).None? ==> scoped(topic) == []
    ensures forall topic :: ScopeOf(h, topic).Some? ==> scoped(topic) == client(ScopeOf(h, topic).value)
  {
    (topic: Entity) => match ScopeOf(h, topic) case Some(s) => client(s) case None => []
  }

  method FetchEventGridDomainTopicSubscriptions<R>(
    js: JobState, h: Helpers, client: DomainTopicScope -> seq<R>, convert: R -> Entity)
    modifies js
    ensures js.entities == old(js.entities)
      + AddedEntities(Additions(OfType(old(js.entities), DOMAIN_TOPIC_TYPE), HasScope(h), ScopedClient(h, client), convert))
    ensures js.relationships == old(js.relationships)
      + AddedEdges(Additions(OfType(old(js.entities), DOMAIN_TOPIC_TYPE), HasScope(h), ScopedClient(h, client), convert),
                   ParentHasEdge(h))
  {
    FetchChildren(js, DOMAIN_TOPIC_TYPE, HasScope(h), ScopedClient(h, client), convert, ParentHasEdge(h));
  }

  method FetchEventGridTopics<R>(
    js: JobState, client: Entity -> seq<R>, convert: R -> Entity,
    resourceGroupEdge: Entity -> Relationship)
    modifies js
    ensures js.entities == old(js.entities)
      + AddedEntities(Additions(OfType(old(js.entities), RESOURCE_GROUP_ENTITY_TYPE), Unguarded, client, convert))
    ensures js.relationships == old(js.relationships)
      + AddedEdges(Additions(OfType(old(js.entities), RESOURCE_GROUP_ENTITY_TYPE), Unguarded, client, convert),
                   ResourceGroupEdge(resourceGroupEdge))
  {
    FetchChildren(js, RESOURCE_GROUP_ENTITY_TYPE, Unguarded, client, convert, ResourceGroupEdge(resourceGroupEdge));
  }

  method FetchEventGridTopicSubscriptions<R>(js: JobState, h: Helpers, client: Entity -> seq<R>, convert: R -> Entity)
    modifies js
    ensures js.entities == old(js.entities)
      + AddedEntities(Additions(OfType(old(js.entities), TOPIC_TYPE), Unguarded, client, convert))
    ensures js.relationships == old(js.relationships)
      + AddedEdges(Additions(OfType(old(js.entities), TOPIC_TYPE), Unguarded, client, convert), ParentHasEdge(h))
  {
    FetchChildren(js, TOPIC_TYPE, Unguarded, client, convert, ParentHasEdge(h));
  }

  /** A domain topic with an incomplete scope contributes nothing, and the client never sees it. */
  lemma {:induction false} SubscriptionsOnlyForCompleteScopes<R>(
    h: Helpers, topics: seq<Entity>, client: DomainTopicScope -> seq<R>, convert: R -> Entity, k: nat)
    requires k < |Additions(topics, HasScope(h), ScopedClient(h, client), convert)|
    ensures var a := Additions(topics, HasScope(h), ScopedClient(h, client), convert)[k];
      a.parent in topics && ScopeOf(h, a.parent).Some?
      && exists j :: 0 <= j < |client(ScopeOf(h, a.parent).value)|
           && a.child == convert(client(ScopeOf(h, a.parent).value)[j])
  {
    AdditionsOrigin(topics, HasScope(h), ScopedClient(h, client), convert, k);
  }

  // ---------------------------------------------------------------------------------------
  // Step descriptors

  /** The exported step list, in declaration order. */
  function EventGridSteps(): (steps: seq<StepDescriptor>)
    ensures |steps| == 5 && DistinctIds(steps) && DependenciesPrecede(steps)
  {
    [
      StepDescriptor(
        STEP_RM_EVENT_GRID_DOMAINS, "Event Grid Domains", [DOMAIN_TYPE], [RESOURCE_GROUP_HAS_DOMAIN],
        [Directory.STEP_AD_ACCOUNT, STEP_RM_RESOURCES_RESOURCE_GROUPS]),
      StepDescriptor(
        STEP_RM_EVENT_GRID_DOMAIN_TOPICS, "Event Grid Domain Topics", [DOMAIN_TOPIC_TYPE],
        [DOMAIN_HAS_DOMAIN_TOPIC],
        [Directory.STEP_AD_ACCOUNT, STEP_RM_RESOURCES_RESOURCE_GROUPS, STEP_RM_EVENT_GRID_DOMAINS]),
      StepDescriptor(
        STEP_RM_EVENT_GRID_DOMAIN_TOPIC_SUBSCRIPTIONS, "Event Grid Domain Topic Subscriptions",
        [TOPIC_SUBSCRIPTION_TYPE], [DOMAIN_TOPIC_HAS_SUBSCRIPTION],
        [Directory.STEP_AD_ACCOUNT, STEP_RM_RESOURCES_RESOURCE_GROUPS, STEP_RM_EVENT_GRID_DOMAINS,
         STEP_RM_EVENT_GRID_DOMAIN_TOPICS]),
      StepDescriptor(
        STEP_RM_EVENT_GRID_TOPICS, "Event Grid Topics", [TOPIC_TYPE], [RESOURCE_GROUP_HAS_TOPIC],
        [Directory.STEP_AD_ACCOUNT, STEP_RM_RESOURCES_RESOURCE_GROUPS]),
      StepDescriptor(
        STEP_RM_EVENT_GRID_TOPIC_SUBSCRIPTIONS, "Event Grid Topic Subscriptions", [TOPIC_SUBSCRIPTION_TYPE],
        [TOPIC_HAS_SUBSCRIPTION],
        [Directory.STEP_AD_ACCOUNT, STEP_RM_RESOURCES_RESOURCE_GROUPS, STEP_RM_EVENT_GRID_TOPICS])
    ]
  }

  /** The event-grid steps: every one needs the account and the resource groups, and each child step its parent step. */
  lemma EventGridStepsDependencies()
    ensures |EventGridSteps()| == 5 && DistinctIds(EventGridSteps())
    ensures forall i :: 0 <= i < |EventGridSteps()| ==>
      Directory.STEP_AD_ACCOUNT in EventGridSteps()[i].dependsOn
      && STEP_RM_RESOURCES_RESOURCE_GROUPS in EventGridSteps()[i].dependsOn
    ensures DependsOnStep(EventGridSteps(), 1, 0)
    ensures DependsOnStep(EventGridSteps(), 2, 1)
    ensures DependsOnStep(EventGridSteps(), 4, 3)
    ensures EventGridSteps()[2].entities == EventGridSteps()[4].entities == [TOPIC_SUBSCRIPTION_TYPE]
  {
  }

  /** The event-grid steps form an acyclic dependency graph, without self-dependencies. */
  lemma EventGridStepsAcyclic()
    ensures DependenciesPrecede(EventGridSteps())
    ensures forall path :: IsDependencyPath(EventGridSteps(), path) && |path| >= 2 ==> path[0] != path[|path| - 1]
    ensures forall i :: 0 <= i < |EventGridSteps()| ==> EventGridSteps()[i].id !in EventGridSteps()[i].dependsOn
  {
    Acyclic(EventGridSteps());
  }
}
