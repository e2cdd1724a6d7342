/**
 * Static step descriptors and the ordering they declare. A runner executes a step only
 * after the steps it depends on; a list in which every dependency on a member names an
 * earlier member cannot hold a dependency cycle.
 */
module StepGraph {

  datatype StepDescriptor = StepDescriptor(
    id: string, name: string, entities: seq<string>, relationships: seq<string>,
    dependsOn: seq<string>)

  predicate DistinctIds(steps: seq<StepDescriptor>) {
    forall i, j :: 0 <= i < j < |steps| ==> steps[i].id != steps[j].id
  }

  /** Every dependency on a step of the list names a step that comes earlier in it. */
  predicate DependenciesPrecede(steps: seq<StepDescriptor>) {
    forall i, j :: 0 <= i < |steps| && 0 <= j < |steps| && steps[j].id in steps[i].dependsOn ==> j < i
  }

  /** Step `i` of the list depends on step `j` of the list. */
  predicate DependsOnStep(steps: seq<StepDescriptor>, i: nat, j: nat)
    requires i < |steps| && j < |steps|
  {
    steps[j].id in steps[i].dependsOn
  }

  /** A chain of steps of the list, each depending on the next. */
  predicate IsDependencyPath(steps: seq<StepDescriptor>, path: seq<nat>) {
    && (forall t :: 0 <= t < |path| ==> path[t] < |steps|)
    && (forall t :: 0 <= t < |path| - 1 ==> DependsOnStep(steps, path[t], path[t + 1]))
  }

  /** Along a dependency chain the list positions strictly decrease. */
  lemma {:induction false} PathDescends(steps: seq<StepDescriptor>, path: seq<nat>)
    requires DependenciesPrecede(steps) && IsDependencyPath(steps, path) && |path| >= 2
    ensures path[|path| - 1] < path[0]
    decreases |path|
  {
    assert DependsOnStep(steps, path[0], path[1]);
    if |path| > 2 {
      var rest := path[1..];
      assert forall t :: 0 <= t < |rest| ==> rest[t] == path[t + 1];
      PathDescends(steps, rest);
    }
  }

  /** No step depends on itself, directly or through other steps of the list. */
  lemma Acyclic(steps: seq<StepDescriptor>)
    requires DependenciesPrecede(steps)
    ensures forall path :: IsDependencyPath(steps, path) && |path| >= 2 ==> path[0] != path[|path| - 1]
    ensures forall i :: 0 <= i < |steps| ==> steps[i].id !in steps[i].dependsOn
  {
    forall path | IsDependencyPath(steps, path) && |path| >= 2
      ensures path[0] != path[|path| - 1]
    {
      PathDescends(steps, path);
    }
  }
}
