/**
 * The advisor step: every recommendation the client yields becomes an entity, linked from
 * the assessment named by its metadata source and from the resource named by its metadata
 * resource id, each link made only when the job state holds an entity with that key.
 */
module Advisor {
  import opened Wrappers
  import opened Sdk
  import opened Jobs
  import opened StepGraph
  import Directory

  // advisor/constants.ts and security/ are not part of this model: their identifiers stand
  // for themselves, and each relationship's class is the one its name spells.
  const STEP_RM_ADVISOR_RECOMMENDATIONS := "STEP_RM_ADVISOR_RECOMMENDATIONS"
  const STEP_RM_SECURITY_ASSESSMENTS := "STEP_RM_SECURITY_ASSESSMENTS"
  const RECOMMENDATION_ENTITY_TYPE := "RECOMMENDATION_ENTITY_TYPE"
  const ASSESSMENT_IDENTIFIED_FINDING := "ASSESSMENT_IDENTIFIED_FINDING"
  const ANY_RESOURCE_HAS_FINDING := "ANY_RESOURCE_HAS_FINDING"

  datatype ResourceMetadata = ResourceMetadata(source: Option<string>, resourceId: Option<string>)

  /** The part of a recommendation the handler reads itself; the rest goes to the converter. */
  datatype Recommendation = Recommendation(id: Option<string>, resourceMetadata: Option<ResourceMetadata>)

  /** `recommendation.resourceMetadata?.source`. */
  function SourceKey(rec: Recommendation): (k: Option<string>)
    ensures k.Some? <==> rec.resourceMetadata.Some? && rec.resourceMetadata.value.source.Some?
  {
    match rec.resourceMetadata
    case None => None
    case Some(m) => m.source
  }

  /** `recommendation.resourceMetadata?.resourceId`. */
  function ResourceKey(rec: Recommendation): (k: Option<string>)
    ensures k.Some? <==> rec.resourceMetadata.Some? && rec.resourceMetadata.value.resourceId.Some?
  {
    match rec.resourceMetadata
    case None => None
    case Some(m) => m.resourceId
  }

  datatype Graph = Graph(entities: seq<Entity>, relationships: seq<Relationship>)

  /** The edge to `to` from the entity found under `key`, or no edge when none is found. */
  function LinkFrom(
    h: Helpers, es: seq<Entity>, key: Option<string>, c: RelationshipClass, relType: string, to: Entity)
    : (r: seq<Relationship>)
    ensures |r| <= 1
    ensures |r| == 1 <==> key.Some? && exists e :: e in es && e.key == key.value
    ensures |r| == 1 ==>
      (r[0].fromKey == key.value && r[0].toKey == to.key && r[0].relClass == c && r[0].relType == relType)
  {
    match FindByKey(es, key)
    case Some(from) => [DirectRelationshipBetween(h, c, from, to, Some(relType))]
    case None => []
  }

  /** The job state after one recommendation: its entity, then the assessment link, then the resource link. */
  function Record(h: Helpers, g: Graph, rec: Recommendation, convert: Recommendation -> Entity): (r: Graph)
    ensures r.entities == g.entities + [convert(rec)]
    ensures g.relationships <= r.relationships && |r.relationships| <= |g.relationships| + 2
  {
    var e := convert(rec);
    var es := g.entities + [e];
    Graph(es, g.relationships
      + LinkFrom(h, es, SourceKey(rec), IDENTIFIED, ASSESSMENT_IDENTIFIED_FINDING, e)
      + LinkFrom(h, es, ResourceKey(rec), HAS, ANY_RESOURCE_HAS_FINDING, e))
  }

  /** The job state after the recommendations, handled in order. */
  function RecordAll(h: Helpers, g: Graph, recs: seq<Recommendation>, convert: Recommendation -> Entity): (r: Graph)
    ensures |r.entities| == |g.entities| + |recs|
    ensures g.relationships <= r.relationships
    decreases |recs|
  {
    if recs == [] then g
    else Record(h, RecordAll(h, g, recs[..|recs| - 1], convert), recs[|recs| - 1], convert)
  }

  /** Every edge the step adds joins two entities of the job state and is of a declared shape. */
  predicate AnchoredFinding(r: Relationship, es: seq<Entity>, findings: seq<Entity>) {
    && (exists e :: e in es && e.key == r.fromKey)
    && (exists f :: f in findings && f.key == r.toKey)
    && ((r.relClass == IDENTIFIED && r.relType == ASSESSMENT_IDENTIFIED_FINDING)
        || (r.relClass == HAS && r.relType == ANY_RESOURCE_HAS_FINDING))
  }

  /** The edges `r` holds beyond those of `g` all run from an entity of `r` to one of the findings. */
  predicate NewEdgesAnchored(g: Graph, r: Graph, findings: seq<Entity>) {
    forall k :: |g.relationships| <= k < |r.relationships| ==>
      AnchoredFinding(r.relationships[k], r.entities, findings)
  }

  /** One recommendation: an assessment link exists exactly when the source key names an entity. */
  lemma RecordLinksWhenFound(h: Helpers, g: Graph, rec: Recommendation, convert: Recommendation -> Entity)
    ensures var r := Record(h, g, rec, convert);
      var added := r.relationships[|g.relationships|..];
      && ((exists k :: 0 <= k < |added| && added[k].relClass == IDENTIFIED)
          <==> SourceKey(rec).Some? && exists e :: e in r.entities && e.key == SourceKey(rec).value)
      && ((exists k :: 0 <= k < |added| && added[k].relClass == HAS)
          <==> ResourceKey(rec).Some? && exists e :: e in r.entities && e.key == ResourceKey(rec).value)
  {
    var e := convert(rec);
    var es := g.entities + [e];
    var a := LinkFrom(h, es, SourceKey(rec), IDENTIFIED, ASSESSMENT_IDENTIFIED_FINDING, e);
    var b := LinkFrom(h, es, ResourceKey(rec), HAS, ANY_RESOURCE_HAS_FINDING, e);
    var r := Record(h, g, rec, convert);
    assert r.relationships[|g.relationships|..] == a + b;
    LinkClasses(a, b);
  }

  /** An assessment link followed by a resource link: each class occurs exactly when its link is there. */
  lemma LinkClasses(a: seq<Relationship>, b: seq<Relationship>)
    requires |a| <= 1 && |b| <= 1
    requires |a| == 1 ==> a[0].relClass == IDENTIFIED
    requires |b| == 1 ==> b[0].relClass == HAS
    ensures (exists k :: 0 <= k < |a + b| && (a + b)[k].relClass == IDENTIFIED) <==> |a| == 1
    ensures (exists k :: 0 <= k < |a + b| && (a + b)[k].relClass == HAS) <==> |b| == 1
  {
    if |a| == 1 {
      assert (a + b)[0] == a[0];
    }
    if |b| == 1 {
      assert (a + b)[|a|] == b[0];
    }
  }

  /** The converted recommendations, in order. */
  function Converted(recs: seq<Recommendation>, convert: Recommendation -> Entity): (r: seq<Entity>)
    ensures |r| == |recs|
  {
    seq(|recs|, j requires 0 <= j < |recs| => convert(recs[j]))
  }

  /** The entities after the recommendations are the earlier ones followed by one per recommendation, in order. */
  lemma {:induction false} RecordAllEntities(
    h: Helpers, g: Graph, recs: seq<Recommendation>, convert: Recommendation -> Entity)
    ensures RecordAll(h, g, recs, convert).entities == g.entities + Converted(recs, convert)
    decreases |recs|
  {
    if recs == [] {
      assert g.entities + Converted(recs, convert) == g.entities;
    } else {
      var init := recs[..|recs| - 1];
      RecordAllEntities(h, g, init, convert);
      assert Converted(recs, convert) == Converted(init, convert) + [convert(recs[|recs| - 1])];
    }
  }

  /** At most two edges come per recommendation. */
  lemma {:induction false} RecordAllEdgeCount(
    h: Helpers, g: Graph, recs: seq<Recommendation>, convert: Recommendation -> Entity)
    ensures |RecordAll(h, g, recs, convert).relationships| <= |g.relationships| + 2 * |recs|
    decreases |recs|
  {
    if recs != [] {
      RecordAllEdgeCount(h, g, recs[..|recs| - 1], convert);
    }
  }

  /** The edges one recommendation adds run from an entity of the job state to its own entity. */
  lemma RecordAnchored(h: Helpers, g: Graph, rec: Recommendation, convert: Recommendation -> Entity)
    ensures var r := Record(h, g, rec, convert);
      forall k :: |g.relationships| <= k < |r.relationships| ==>
        AnchoredFinding(r.relationships[k], r.entities, [convert(rec)])
  {
    var e := convert(rec);
    var es := g.entities + [e];
    var a := LinkFrom(h, es, SourceKey(rec), IDENTIFIED, ASSESSMENT_IDENTIFIED_FINDING, e);
    var b := LinkFrom(h, es, ResourceKey(rec), HAS, ANY_RESOURCE_HAS_FINDING, e);
    var r := Record(h, g, rec, convert);
    forall k | |g.relationships| <= k < |r.relationships|
      ensures AnchoredFinding(r.relationships[k], r.entities, [e])
    {
      if k < |g.relationships| + |a| {
        assert r.relationships[k] == a[0];
      } else {
        assert r.relationships[k] == b[0];
      }
    }
  }

  /** Anchoring survives growing the entities and the findings. */
  lemma AnchoredGrows(r: Relationship, es: seq<Entity>, fs: seq<Entity>, es': seq<Entity>, fs': seq<Entity>)
    requires AnchoredFinding(r, es, fs)
    requires forall x :: x in es ==> x in es'
    requires forall x :: x in fs ==> x in fs'
    ensures AnchoredFinding(r, es', fs')
  {
    var e :| e in es && e.key == r.fromKey;
    var f :| f in fs && f.key == r.toKey;
    assert e in es' && f in fs';
  }

  /** Every edge the recommendations add runs from an entity of the job state to a recommendation entity. */
  lemma {:induction false} RecordAllAnchored(
    h: Helpers, g: Graph, recs: seq<Recommendation>, convert: Recommendation -> Entity)
    ensures NewEdgesAnchored(g, RecordAll(h, g, recs, convert), Converted(recs, convert))
    decreases |recs|
  {
    if recs != [] {
      var init := recs[..|recs| - 1];
      var rec := recs[|recs| - 1];
      RecordAllAnchored(h, g, init, convert);
      var m := RecordAll(h, g, init, convert);
      var r := Record(h, m, rec, convert);
      assert RecordAll(h, g, recs, convert) == r;
      RecordAnchored(h, m, rec, convert);
      var before := Converted(init, convert);
      var now := Converted(recs, convert);
      assert now == before + [convert(rec)];
      forall k | |g.relationships| <= k < |r.relationships|
        ensures AnchoredFinding(r.relationships[k], r.entities, now)
      {
        if k < |m.relationships| {
          assert r.relationships[k] == m.relationships[k];
          assert AnchoredFinding(m.relationships[k], m.entities, before);
          AnchoredGrows(r.relationships[k], m.entities, before, r.entities, now);
        } else {
          AnchoredGrows(r.relationships[k], r.entities, [convert(rec)], r.entities, now);
        }
      }
    }
  }

  /** `fetchRecommendations`: the client's recommendations handled in order against the job state. */
  method FetchRecommendations(js: JobState, h: Helpers, recs: seq<Recommendation>, convert: Recommendation -> Entity)
    modifies js
    ensures Graph(js.entities, js.relationships)
      == RecordAll(h, Graph(old(js.entities), old(js.relationships)), recs, convert)
  {
    ghost var g0 := Graph(js.entities, js.relationships);
    var i := 0;
    while i < |recs|
      invariant 0 <= i <= |recs|
      invariant Graph(js.entities, js.relationships) == RecordAll(h, g0, recs[..i], convert)
    {
      var rec := recs[i];
      ghost var before := Graph(js.entities, js.relationships);
      var recommendationEntity := js.AddEntity(convert(rec));
      var assessment := js.FindEntity(SourceKey(rec));
      if assessment.Some? {
        js.AddRelationship(
          DirectRelationshipBetween(h, IDENTIFIED, assessment.value, recommendationEntity, Some(ASSESSMENT_IDENTIFIED_FINDING)));
      }
      var resource := js.FindEntity(ResourceKey(rec));
      if resource.Some? {
        js.AddRelationship(
          DirectRelationshipBetween(h, HAS, resource.value, recommendationEntity, Some(ANY_RESOURCE_HAS_FINDING)));
      }
      assert recs[..i + 1][..i] == recs[..i];
      assert Graph(js.entities, js.relationships) == Record(h, before, rec, convert);
      i := i + 1;
    }
    assert recs[..i] == recs;
  }

  /** The advisor step, given the resource-manager steps every resource-manager step runs after. */
  function AdvisorStep(executeFirstSteps: seq<string>): (s: StepDescriptor)
    ensures s.id == STEP_RM_ADVISOR_RECOMMENDATIONS && s.entities == [RECOMMENDATION_ENTITY_TYPE]
    ensures s.relationships == [ASSESSMENT_IDENTIFIED_FINDING, ANY_RESOURCE_HAS_FINDING]
    ensures Directory.STEP_AD_ACCOUNT in s.dependsOn && STEP_RM_SECURITY_ASSESSMENTS in s.dependsOn
    ensures forall x :: x in executeFirstSteps ==> x in s.dependsOn
    ensures s.id !in s.dependsOn <==> s.id !in executeFirstSteps
  {
    StepDescriptor(
      STEP_RM_ADVISOR_RECOMMENDATIONS, "Recommendations", [RECOMMENDATION_ENTITY_TYPE],
      [ASSESSMENT_IDENTIFIED_FINDING, ANY_RESOURCE_HAS_FINDING],
      [Directory.STEP_AD_ACCOUNT, STEP_RM_SECURITY_ASSESSMENTS] + executeFirstSteps)
  }

  /** Every edge the advisor handler adds has a relationship type its step declares. */
  lemma AdvisorEdgesDeclared(
    h: Helpers, g: Graph, recs: seq<Recommendation>, convert: Recommendation -> Entity, executeFirstSteps: seq<string>)
    ensures var r := RecordAll(h, g, recs, convert);
      forall k :: |g.relationships| <= k < |r.relationships| ==>
        r.relationships[k].relType in AdvisorStep(executeFirstSteps).relationships
  {
    RecordAllAnchored(h, g, recs, convert);
  }
}
