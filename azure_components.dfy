/**
 * The Azure component list of a project (src/Models/AzureComponentConfig.ts
 * and the `AzureComponent` class of src/Models/Azure.ts): the components
 * stored in the project's Azure config file, their dependency-ordered
 * listing, and the lookups and edits on the stored list.
 */
module AzureComponents {
  import opened Wrappers

  datatype DependencyType = Other | Input | Output

  /** A dependency: the id of the component depended on, and how. */
  datatype DependencyConfig = DependencyConfig(id: string, dependencyType: DependencyType)

  datatype ComponentInfo = ComponentInfo(values: map<string, string>)

  datatype ComponentConfig = ComponentConfig(
    id: string, componentType: string, name: string, folder: string,
    dependencies: seq<DependencyConfig>, componentInfo: Option<ComponentInfo>)

  /** The error every operation on the config file reports. */
  const InvalidConfigMessage := "Invalid azure components config file."

  /**
   * How a dependency is looked up among the ids sorted so far.
   * `ById` is `sortedComponentIds.indexOf(dependency.id)` of
   * AzureComponentConfig.ts. `ByObject` is `sortedComponentIds.indexOf(dependency)`
   * of Azure.ts, which searches an array of id strings for the dependency
   * object itself.
   */
  datatype DependencyLookup = ById | ByObject

  /** A value `indexOf` compares with `===`: an id string or a dependency object. */
  datatype JsValue = JsString(text: string) | JsObject(dependency: DependencyConfig)

  /** `===` between a string and an object is false; two strings compare by content. */
  predicate StrictEquals(a: JsValue, b: JsValue)
  {
    match (a, b)
    case (JsString(x), JsString(y)) => x == y
    case (JsObject(x), JsObject(y)) => x == y
    case _ => false
  }

  /** `Array.prototype.indexOf`: the first position holding a strictly equal value, or -1. */
  function IndexOfValue(values: seq<JsValue>, v: JsValue): (r: int)
    ensures -1 <= r < |values|
    ensures r == -1 <==> forall k :: 0 <= k < |values| ==> !StrictEquals(values[k], v)
    ensures r >= 0 ==> StrictEquals(values[r], v) && forall k :: 0 <= k < r ==> !StrictEquals(values[k], v)
  {
    if |values| == 0 then -1
    else if StrictEquals(values[0], v) then 0
    else
      var r := IndexOfValue(values[1..], v);
      assert forall k :: 1 <= k < |values| ==> values[1..][k - 1] == values[k];
      if r == -1 then -1 else r + 1
  }

  /** The sorted ids as the array of strings the source keeps. */
  function IdValues(sortedIds: seq<string>): (r: seq<JsValue>)
    ensures |r| == |sortedIds| && forall k :: 0 <= k < |r| ==> r[k] == JsString(sortedIds[k])
  {
    seq(|sortedIds|, k requires 0 <= k < |sortedIds| => JsString(sortedIds[k]))
  }

  /** The `indexOf(...) === -1` test of the inner loop. */
  predicate Missing(lookup: DependencyLookup, sortedIds: seq<string>, dependency: DependencyConfig)
  {
    match lookup
    case ById => IndexOfValue(IdValues(sortedIds), JsString(dependency.id)) == -1
    case ByObject => IndexOfValue(IdValues(sortedIds), JsObject(dependency)) == -1
  }

  /** A component may be emitted once none of its dependencies is missing. */
  predicate Ready(lookup: DependencyLookup, c: ComponentConfig, sortedIds: seq<string>)
  {
    forall d :: 0 <= d < |c.dependencies| ==> !Missing(lookup, sortedIds, c.dependencies[d])
  }

  /** Looked up by id, a dependency is found exactly when its id has been sorted. */
  lemma ReadyById(c: ComponentConfig, sortedIds: seq<string>)
    ensures Ready(ById, c, sortedIds) <==> forall d :: 0 <= d < |c.dependencies| ==> c.dependencies[d].id in sortedIds
  {
    var values := IdValues(sortedIds);
    forall d | 0 <= d < |c.dependencies|
      ensures !Missing(ById, sortedIds, c.dependencies[d]) <==> c.dependencies[d].id in sortedIds
    {
      var id := c.dependencies[d].id;
      if id in sortedIds {
        var k :| 0 <= k < |sortedIds| && sortedIds[k] == id;
        assert StrictEquals(values[k], JsString(id));
      }
    }
  }

  /** Looked up as an object, a dependency is never found: only a component without dependencies is ready. */
  lemma ReadyByObject(c: ComponentConfig, sortedIds: seq<string>)
    ensures Ready(ByObject, c, sortedIds) <==> |c.dependencies| == 0
  {
    if |c.dependencies| > 0 {
      assert Missing(ByObject, sortedIds, c.dependencies[0]);
    }
  }

  function Ids(components: seq<ComponentConfig>): (r: seq<string>)
    ensures |r| == |components| && forall k :: 0 <= k < |r| ==> r[k] == components[k].id
  {
    seq(|components|, k requires 0 <= k < |components| => components[k].id)
  }

  predicate Distinct(ids: seq<string>)
  {
    forall i, j :: 0 <= i < j < |ids| ==> ids[i] != ids[j]
  }

  /**
   * A listing drawn from `configs` in which no id occurs twice and every
   * component comes after everything it depends on.
   */
  predicate DependencyOrdered(configs: seq<ComponentConfig>, lookup: DependencyLookup, components: seq<ComponentConfig>)
  {
    Distinct(Ids(components)) &&
    forall k :: 0 <= k < |components| ==> components[k] in configs && Ready(lookup, components[k], Ids(components[..k]))
  }

  /** Nothing more can be listed: every component left out still waits for a dependency. */
  predicate Saturated(configs: seq<ComponentConfig>, lookup: DependencyLookup, components: seq<ComponentConfig>)
  {
    forall i :: 0 <= i < |configs| ==> configs[i].id in Ids(components) || !Ready(lookup, configs[i], Ids(components))
  }

  /** The inner loop of a pass: whether some dependency is still missing. */
  method Hold(lookup: DependencyLookup, c: ComponentConfig, sortedIds: seq<string>) returns (hold: bool)
    ensures hold <==> !Ready(lookup, c, sortedIds)
  {
    hold := false;
    for d := 0 to |c.dependencies|
      invariant forall e :: 0 <= e < d ==> !Missing(lookup, sortedIds, c.dependencies[e])
    {
      if IndexOfValue(IdValues(sortedIds), if lookup.ById? then JsString(c.dependencies[d].id) else JsObject(c.dependencies[d])) == -1 {
        hold := true;
        break;
      }
    }
  }

  /** Appending a ready component with a new id keeps a listing ordered. */
  lemma AppendOrdered(configs: seq<ComponentConfig>, lookup: DependencyLookup, components: seq<ComponentConfig>, c: ComponentConfig)
    requires DependencyOrdered(configs, lookup, components)
    requires c in configs && c.id !in Ids(components) && Ready(lookup, c, Ids(components))
    ensures DependencyOrdered(configs, lookup, components + [c])
  {
    var next := components + [c];
    assert next[..|components|] == components;
    forall k | 0 <= k < |components|
      ensures next[..k] == components[..k]
    {
    }
  }

  /**
   * One pass over the configs: each one not yet listed whose dependencies
   * are all listed is appended, in config order.
   */
  method SortPass(configs: seq<ComponentConfig>, lookup: DependencyLookup, components0: seq<ComponentConfig>, sortedIds0: seq<string>)
    returns (components: seq<ComponentConfig>, sortedIds: seq<string>)
    requires DependencyOrdered(configs, lookup, components0) && sortedIds0 == Ids(components0)
    ensures DependencyOrdered(configs, lookup, components) && sortedIds == Ids(components)
    ensures |components| >= |components0| && components[..|components0|] == components0
    ensures |components| == |components0| ==> Saturated(configs, lookup, components)
  {
    components, sortedIds := components0, sortedIds0;
    for i := 0 to |configs|
      invariant DependencyOrdered(configs, lookup, components) && sortedIds == Ids(components)
      invariant |components| >= |components0| && components[..|components0|] == components0
      invariant |components| == |components0| ==>
        forall j :: 0 <= j < i ==> configs[j].id in sortedIds || !Ready(lookup, configs[j], sortedIds)
    {
      var c := configs[i];
      if IndexOfValue(IdValues(sortedIds), JsString(c.id)) > -1 {
        continue;
      }
      var hold := Hold(lookup, c, sortedIds);
      if hold {
        continue;
      }
      AppendOrdered(configs, lookup, components, c);
      assert (components + [c])[..|components0|] == components[..|components0|];
      sortedIds := sortedIds + [c.id];
      components := components + [c];
    }
  }

  /**
   * `getSortedComponents` (lookup `ById`) and `getAllComponents` as
   * written (lookup `ByObject`): passes repeat while the previous one
   * listed something and not every config is listed yet. The result lists
   * each id at most once, after its dependencies, and leaves out exactly
   * the components that wait for a dependency that is never listed.
   */
  method SortComponents(configs: seq<ComponentConfig>, lookup: DependencyLookup) returns (components: seq<ComponentConfig>)
    ensures DependencyOrdered(configs, lookup, components)
    ensures Saturated(configs, lookup, components)
  {
    components := [];
    var sortedIds: seq<string> := [];
    var lastSortedCount := |components|;
    components, sortedIds := SortPass(configs, lookup, components, sortedIds);
    while lastSortedCount < |configs| && lastSortedCount < |components|
      invariant DependencyOrdered(configs, lookup, components) && sortedIds == Ids(components)
      invariant lastSortedCount <= |components|
      invariant lastSortedCount == |components| ==> Saturated(configs, lookup, components)
      decreases |configs| - lastSortedCount
    {
      lastSortedCount := |components|;
      components, sortedIds := SortPass(configs, lookup, components, sortedIds);
    }
    if lastSortedCount >= |configs| {
      AllListed(configs, lookup, components);
    }
  }

  /** A listing as long as the configs lists every config's id. */
  lemma AllListed(configs: seq<ComponentConfig>, lookup: DependencyLookup, components: seq<ComponentConfig>)
    requires DependencyOrdered(configs, lookup, components) && |components| >= |configs|
    ensures forall i :: 0 <= i < |configs| ==> configs[i].id in Ids(components)
  {
    var listed := set x | x in Ids(components);
    var all := set x | x in Ids(configs);
    DistinctCard(Ids(components));
    SeqSetCard(Ids(configs));
    ListedWithin(configs, components);
    SubsetFull(listed, all);
    forall i | 0 <= i < |configs| ensures configs[i].id in Ids(components) {
      assert Ids(configs)[i] in all;
    }
  }

  lemma ListedWithin(configs: seq<ComponentConfig>, components: seq<ComponentConfig>)
    requires forall k :: 0 <= k < |components| ==> components[k] in configs
    ensures (set x | x in Ids(components)) <= (set x | x in Ids(configs))
  {
    forall x | x in Ids(components) ensures x in Ids(configs) {
      var k :| 0 <= k < |components| && Ids(components)[k] == x;
      var i :| 0 <= i < |configs| && configs[i] == components[k];
      assert Ids(configs)[i] == x;
    }
  }

  lemma SubsetFull(a: set<string>, b: set<string>)
    requires a <= b && |a| >= |b|
    ensures a == b
  {
    var rest := b - a;
    assert b == a + rest && a * rest == {};
  }

  /** A sequence without repeats has as many distinct elements as entries. */
  lemma {:induction false} DistinctCard(s: seq<string>)
    requires Distinct(s)
    ensures |set x | x in s| == |s|
  {
    if |s| > 0 {
      var front := s[..|s| - 1];
      DistinctCard(front);
      assert (set x | x in s) == (set x | x in front) + {s[|s| - 1]};
    }
  }

  lemma {:induction false} SeqSetCard(s: seq<string>)
    ensures |set x | x in s| <= |s|
  {
    if |s| > 0 {
      var front := s[..|s| - 1];
      SeqSetCard(front);
      assert (set x | x in s) == (set x | x in front) + {s[|s| - 1]};
    }
  }

  predicate DependsOn(c: ComponentConfig, id: string)
  {
    exists d :: 0 <= d < |c.dependencies| && c.dependencies[d].id == id
  }

  /**
   * In a listing by id, a component comes strictly after every listed
   * component it depends on; so no listed component depends on itself and
   * no two listed components depend on each other.
   */
  lemma ListedBeforeDependents(configs: seq<ComponentConfig>, components: seq<ComponentConfig>, j: nat, k: nat)
    requires DependencyOrdered(configs, ById, components) && j < |components| && k < |components|
    requires DependsOn(components[k], components[j].id)
    ensures j < k
  {
    var d :| 0 <= d < |components[k].dependencies| && components[k].dependencies[d].id == components[j].id;
    ReadyById(components[k], Ids(components[..k]));
    var earlier := Ids(components[..k]);
    var i :| 0 <= i < |earlier| && earlier[i] == components[j].id;
    assert Ids(components)[i] == Ids(components)[j];
  }

  /** Two listed components never depend on each other. */
  lemma NoMutualDependency(configs: seq<ComponentConfig>, components: seq<ComponentConfig>, j: nat, k: nat)
    requires DependencyOrdered(configs, ById, components) && j < |components| && k < |components|
    ensures !(DependsOn(components[k], components[j].id) && DependsOn(components[j], components[k].id))
  {
    if DependsOn(components[k], components[j].id) {
      ListedBeforeDependents(configs, components, j, k);
      if DependsOn(components[j], components[k].id) {
        ListedBeforeDependents(configs, components, k, j);
      }
    }
  }

  /** A component without dependencies is always listed, by id or as written. */
  lemma IndependentListed(configs: seq<ComponentConfig>, lookup: DependencyLookup, components: seq<ComponentConfig>, i: nat)
    requires Saturated(configs, lookup, components) && i < |configs| && |configs[i].dependencies| == 0
    ensures configs[i].id in Ids(components)
  {
  }

  /** As written in Azure.ts, only components without dependencies are ever listed. */
  lemma AsWrittenListsOnlyIndependent(configs: seq<ComponentConfig>, components: seq<ComponentConfig>, k: nat)
    requires DependencyOrdered(configs, ByObject, components) && k < |components|
    ensures |components[k].dependencies| == 0
  {
    ReadyByObject(components[k], Ids(components[..k]));
  }

  /**
   * The input that shows it: `a` with no dependencies and `b` depending on
   * `a`. By id, `b` is listed after `a`; as written, `b` is never listed.
   */
  lemma AsWrittenDropsDependent(a: ComponentConfig, b: ComponentConfig,
                                byId: seq<ComponentConfig>, asWritten: seq<ComponentConfig>)
    requires a.id != b.id && a.dependencies == [] && |b.dependencies| == 1 && b.dependencies[0].id == a.id
    requires DependencyOrdered([a, b], ById, byId) && Saturated([a, b], ById, byId)
    requires DependencyOrdered([a, b], ByObject, asWritten)
    ensures b.id in Ids(byId)
    ensures b !in asWritten
  {
    IndependentListed([a, b], ById, byId, 0);
    ReadyById(b, Ids(byId));
    assert [a, b][1] == b;
    if b in asWritten {
      var k :| 0 <= k < |asWritten| && asWritten[k] == b;
      AsWrittenListsOnlyIndependent([a, b], asWritten, k);
    }
  }

  /** `findIndex(config => config.id === id)`: the first config with that id, or -1. */
  function FindIndexById(configs: seq<ComponentConfig>, id: string): (r: int)
    ensures -1 <= r < |configs|
    ensures r == -1 <==> id !in Ids(configs)
    ensures r >= 0 ==> configs[r].id == id && id !in Ids(configs[..r])
  {
    if |configs| == 0 then -1
    else
      var front := configs[..|configs| - 1];
      var r := FindIndexById(front, id);
      assert Ids(configs) == Ids(front) + [configs[|configs| - 1].id];
      if r >= 0 then
        assert configs[..r] == front[..r];
        r
      else if configs[|configs| - 1].id == id then |configs| - 1
      else -1
  }

  /**
   * The project's Azure config file, read and written whole by each
   * operation.
   */
  class ConfigFile {
    var componentConfigs: seq<ComponentConfig>

    /** `createIfNotExists`: a new file holds no components. */
    constructor()
      ensures componentConfigs == []
    {
      componentConfigs := [];
    }

    /** `appendComponent`: the component is added at the end and the new list is returned. */
    method AppendComponent(component: ComponentConfig) returns (configs: seq<ComponentConfig>)
      modifies this
      ensures componentConfigs == old(componentConfigs) + [component]
      ensures configs == componentConfigs
    {
      componentConfigs := componentConfigs + [component];
      configs := componentConfigs;
    }

    /**
     * `updateComponent`: an index with no component is an error and the
     * file is left alone; otherwise only the component info at that index
     * changes, so ids and dependencies stay as they were.
     */
    method UpdateComponent(index: int, componentInfo: ComponentInfo) returns (r: Result<seq<ComponentConfig>>)
      modifies this
      ensures !(0 <= index < |old(componentConfigs)|) ==> r == Err(InvalidConfigMessage) && unchanged(this)
      ensures 0 <= index < |old(componentConfigs)| ==>
        |componentConfigs| == |old(componentConfigs)| && r == Ok(componentConfigs) &&
        componentConfigs[index] == old(componentConfigs)[index].(componentInfo := Some(componentInfo)) &&
        forall k :: 0 <= k < |componentConfigs| && k != index ==> componentConfigs[k] == old(componentConfigs)[k]
      ensures Ids(componentConfigs) == Ids(old(componentConfigs))
    {
      if !(0 <= index < |componentConfigs|) {
        return Err(InvalidConfigMessage);
      }
      var component := componentConfigs[index];
      componentConfigs := componentConfigs[index := component.(componentInfo := Some(componentInfo))];
      r := Ok(componentConfigs);
    }
  }

  /** After an append the new component is found at the end, unless its id was already present. */
  lemma AppendThenFind(configs: seq<ComponentConfig>, component: ComponentConfig)
    ensures FindIndexById(configs + [component], component.id) ==
      if component.id in Ids(configs) then FindIndexById(configs, component.id) else |configs|
  {
    var next := configs + [component];
    assert next[..|next| - 1] == configs;
  }
}
