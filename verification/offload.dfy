/** The offload resource: translates the plan's cluster selector terms into
    the API's node-selector terms, keeps one NamespaceOffloading object per
    namespace fully in line with the plan, and deletes it on teardown. */
module Offload {
  import opened Kube

  /** Defaults of the two optional strategy attributes. */
  const DefaultPodOffloadingStrategy: string := "LocalAndRemote"
  const DefaultNamespaceMappingStrategy: string := "DefaultName"

  /** The well-known name of the one NamespaceOffloading object in a namespace. */
  const DefaultNamespaceOffloadingName: string := "offloading"

  // The plan's selector: a list of terms, OR-combined, each a list of
  // match expressions, AND-combined.
  datatype MatchExpression = MatchExpression(key: string, operator: string, values: seq<string>)
  datatype SelectorTerm = SelectorTerm(matchExpressions: seq<MatchExpression>)

  /** The attributes of an offload resource. */
  datatype OffloadPlan = OffloadPlan(
    namespace: string,
    podOffloadingStrategy: Option<string>,
    namespaceMappingStrategy: Option<string>,
    clusterSelectorTerms: seq<SelectorTerm>)

  /** The intermediate label-selector requirement each match expression becomes. */
  datatype LabelSelectorRequirement = LabelSelectorRequirement(key: string, operator: string, values: seq<string>)

  // The API's node selector, as stored in the NamespaceOffloading object.
  datatype NodeSelectorRequirement = NodeSelectorRequirement(key: string, operator: string, values: seq<string>)
  datatype NodeSelectorTerm = NodeSelectorTerm(matchExpressions: seq<NodeSelectorRequirement>)

  datatype NamespaceOffloadingSpec = NamespaceOffloadingSpec(
    podOffloadingStrategy: string,
    namespaceMappingStrategy: string,
    clusterSelector: seq<NodeSelectorTerm>)

  datatype NamespaceOffloading = NamespaceOffloading(namespace: string, name: string, spec: NamespaceOffloadingSpec)

  datatype ObjectKey = ObjectKey(namespace: string, name: string)

  datatype OffloadError = ApiFailed(cause: ApiError) | UpdateNotPermitted

  /** The pod offloading strategy after the schema default; the string is
      passed on as it is, never checked against the known strategies. */
  function PodOffloadingStrategy(plan: OffloadPlan): (s: string)
    ensures plan.podOffloadingStrategy.None? ==> s == "LocalAndRemote"
    ensures plan.podOffloadingStrategy.Some? ==> s == plan.podOffloadingStrategy.value
  {
    WithDefault(plan.podOffloadingStrategy, DefaultPodOffloadingStrategy)
  }

  /** The namespace mapping strategy after the schema default, passed on unchecked. */
  function NamespaceMappingStrategy(plan: OffloadPlan): (s: string)
    ensures plan.namespaceMappingStrategy.None? ==> s == "DefaultName"
    ensures plan.namespaceMappingStrategy.Some? ==> s == plan.namespaceMappingStrategy.value
  {
    WithDefault(plan.namespaceMappingStrategy, DefaultNamespaceMappingStrategy)
  }

  /** The key of the one offloading object of a namespace. */
  function OffloadingKey(namespace: string): (k: ObjectKey)
    ensures k.namespace == namespace && k.name == "offloading"
  {
    ObjectKey(namespace, DefaultNamespaceOffloadingName)
  }

  // ----- Translation, stage one: match expressions to label-selector requirements

  function LabelRequirement(m: MatchExpression): LabelSelectorRequirement
  {
    LabelSelectorRequirement(m.key, m.operator, m.values)
  }

  /** One requirement per match expression, in the same order. */
  function LabelRequirements(ms: seq<MatchExpression>): (rs: seq<LabelSelectorRequirement>)
    ensures |rs| == |ms|
    ensures forall j :: 0 <= j < |ms| ==>
              rs[j].key == ms[j].key && rs[j].operator == ms[j].operator && rs[j].values == ms[j].values
  {
    if ms == [] then [] else [LabelRequirement(ms[0])] + LabelRequirements(ms[1..])
  }

  /** One list of requirements per plan term, in the same order. */
  function ClusterSelector(ts: seq<SelectorTerm>): (cs: seq<seq<LabelSelectorRequirement>>)
    ensures |cs| == |ts|
    ensures forall i :: 0 <= i < |ts| ==> cs[i] == LabelRequirements(ts[i].matchExpressions)
  {
    if ts == [] then [] else [LabelRequirements(ts[0].matchExpressions)] + ClusterSelector(ts[1..])
  }

  // ----- Translation, stage two: requirements to node-selector terms

  function NodeRequirement(r: LabelSelectorRequirement): NodeSelectorRequirement
  {
    NodeSelectorRequirement(r.key, r.operator, r.values)
  }

  /** One node-selector requirement per label-selector requirement, in the same order. */
  function NodeRequirements(rs: seq<LabelSelectorRequirement>): (ns: seq<NodeSelectorRequirement>)
    ensures |ns| == |rs|
    ensures forall j :: 0 <= j < |rs| ==>
              ns[j].key == rs[j].key && ns[j].operator == rs[j].operator && ns[j].values == rs[j].values
  {
    if rs == [] then [] else [NodeRequirement(rs[0])] + NodeRequirements(rs[1..])
  }

  /** One node-selector term per requirement list, in the same order. */
  function NodeSelectorTerms(cs: seq<seq<LabelSelectorRequirement>>): (terms: seq<NodeSelectorTerm>)
    ensures |terms| == |cs|
    ensures forall i :: 0 <= i < |cs| ==> terms[i].matchExpressions == NodeRequirements(cs[i])
  {
    if cs == [] then [] else [NodeSelectorTerm(NodeRequirements(cs[0]))] + NodeSelectorTerms(cs[1..])
  }

  /** The whole translation, as Create performs it. */
  function Translate(ts: seq<SelectorTerm>): (terms: seq<NodeSelectorTerm>)
    ensures |terms| == |ts|
    ensures forall i :: 0 <= i < |ts| ==> |terms[i].matchExpressions| == |ts[i].matchExpressions|
    ensures forall i, j :: 0 <= i < |ts| && 0 <= j < |ts[i].matchExpressions| ==>
              terms[i].matchExpressions[j] ==
                NodeSelectorRequirement(ts[i].matchExpressions[j].key,
                                        ts[i].matchExpressions[j].operator,
                                        ts[i].matchExpressions[j].values)
  {
    NodeSelectorTerms(ClusterSelector(ts))
  }

  // ----- The way back: node-selector terms to plan terms

  function PlanExpressions(ns: seq<NodeSelectorRequirement>): (ms: seq<MatchExpression>)
  {
    if ns == [] then [] else [MatchExpression(ns[0].key, ns[0].operator, ns[0].values)] + PlanExpressions(ns[1..])
  }

  function PlanTerms(terms: seq<NodeSelectorTerm>): (ts: seq<SelectorTerm>)
  {
    if terms == [] then [] else [SelectorTerm(PlanExpressions(terms[0].matchExpressions))] + PlanTerms(terms[1..])
  }

  lemma {:induction false} ExpressionsRoundTrip(ms: seq<MatchExpression>)
    ensures PlanExpressions(NodeRequirements(LabelRequirements(ms))) == ms
  {
    if ms != [] {
      ExpressionsRoundTrip(ms[1..]);
      assert LabelRequirements(ms) == [LabelRequirement(ms[0])] + LabelRequirements(ms[1..]);
      assert NodeRequirements(LabelRequirements(ms)) ==
             [NodeRequirement(LabelRequirement(ms[0]))] + NodeRequirements(LabelRequirements(ms[1..]));
    }
  }

  /** The translation loses nothing: the plan's terms can be read back from the
      stored selector exactly, order and all. */
  lemma {:induction false} TranslateRoundTrip(ts: seq<SelectorTerm>)
    ensures PlanTerms(Translate(ts)) == ts
  {
    if ts != [] {
      TranslateRoundTrip(ts[1..]);
      ExpressionsRoundTrip(ts[0].matchExpressions);
      assert ClusterSelector(ts) == [LabelRequirements(ts[0].matchExpressions)] + ClusterSelector(ts[1..]);
      assert Translate(ts) ==
             [NodeSelectorTerm(NodeRequirements(LabelRequirements(ts[0].matchExpressions)))] + Translate(ts[1..]);
    }
  }

  lemma {:induction false} RequirementsRoundTrip(ns: seq<NodeSelectorRequirement>)
    ensures NodeRequirements(LabelRequirements(PlanExpressions(ns))) == ns
  {
    if ns != [] {
      RequirementsRoundTrip(ns[1..]);
      var m := MatchExpression(ns[0].key, ns[0].operator, ns[0].values);
      assert PlanExpressions(ns) == [m] + PlanExpressions(ns[1..]);
      assert LabelRequirements(PlanExpressions(ns)) == [LabelRequirement(m)] + LabelRequirements(PlanExpressions(ns[1..]));
    }
  }

  /** Every node selector is the translation of some plan selector: the one
      read back from it. */
  lemma {:induction false} TranslateOnto(terms: seq<NodeSelectorTerm>)
    ensures Translate(PlanTerms(terms)) == terms
  {
    if terms != [] {
      TranslateOnto(terms[1..]);
      RequirementsRoundTrip(terms[0].matchExpressions);
      var t := SelectorTerm(PlanExpressions(terms[0].matchExpressions));
      assert PlanTerms(terms) == [t] + PlanTerms(terms[1..]);
      assert ClusterSelector(PlanTerms(terms)) == [LabelRequirements(t.matchExpressions)] + ClusterSelector(PlanTerms(terms[1..]));
    }
  }

  // ----- The loops Create runs, proved to compute the translation

  /** Copy the values of one match expression, one by one. */
  method CopyValues(vs: seq<string>) returns (values: seq<string>)
    ensures values == vs
  {
    values := [];
    for k := 0 to |vs|
      invariant values == vs[..k]
    {
      values := values + [vs[k]];
    }
  }

  /** Turn each plan term into the list of its requirements. */
  method BuildClusterSelector(ts: seq<SelectorTerm>) returns (clusterSelector: seq<seq<LabelSelectorRequirement>>)
    ensures clusterSelector == ClusterSelector(ts)
  {
    clusterSelector := [];
    for i := 0 to |ts|
      invariant |clusterSelector| == i
      invariant forall k :: 0 <= k < i ==> clusterSelector[k] == LabelRequirements(ts[k].matchExpressions)
    {
      var ms := ts[i].matchExpressions;
      var requirements: seq<LabelSelectorRequirement> := [];
      for j := 0 to |ms|
        invariant |requirements| == j
        invariant forall k :: 0 <= k < j ==> requirements[k] == LabelRequirement(ms[k])
      {
        var values := CopyValues(ms[j].values);
        requirements := requirements + [LabelSelectorRequirement(ms[j].key, ms[j].operator, values)];
      }
      clusterSelector := clusterSelector + [requirements];
    }
  }

  /** Turn each list of requirements into one node-selector term. */
  method BuildNodeSelectorTerms(clusterSelector: seq<seq<LabelSelectorRequirement>>) returns (terms: seq<NodeSelectorTerm>)
    ensures terms == NodeSelectorTerms(clusterSelector)
  {
    terms := [];
    for i := 0 to |clusterSelector|
      invariant |terms| == i
      invariant forall k :: 0 <= k < i ==> terms[k].matchExpressions == NodeRequirements(clusterSelector[k])
    {
      var requirements: seq<NodeSelectorRequirement> := [];
      for j := 0 to |clusterSelector[i]|
        invariant |requirements| == j
        invariant forall k :: 0 <= k < j ==> requirements[k] == NodeRequirement(clusterSelector[i][k])
      {
        var r := clusterSelector[i][j];
        requirements := requirements + [NodeSelectorRequirement(r.key, r.operator, r.values)];
      }
      terms := terms + [NodeSelectorTerm(requirements)];
    }
  }

  /** The spec the plan asks for; every one of its fields comes from the plan alone. */
  function DesiredSpec(plan: OffloadPlan): (spec: NamespaceOffloadingSpec)
    ensures spec.podOffloadingStrategy == PodOffloadingStrategy(plan)
    ensures spec.namespaceMappingStrategy == NamespaceMappingStrategy(plan)
    ensures PlanTerms(spec.clusterSelector) == plan.clusterSelectorTerms
  {
    TranslateRoundTrip(plan.clusterSelectorTerms);
    NamespaceOffloadingSpec(PodOffloadingStrategy(plan), NamespaceMappingStrategy(plan), Translate(plan.clusterSelectorTerms))
  }

  /** The mutate function of Create: replace the whole spec, keep the object's identity. */
  function ReplaceSpec(spec: NamespaceOffloadingSpec): (mutate: NamespaceOffloading -> Result<NamespaceOffloading, OffloadError>)
    // it never refuses, keeps the namespace and name, and leaves nothing of the old spec
    ensures forall current: NamespaceOffloading :: mutate(current).Ok? && mutate(current).value.spec == spec &&
              mutate(current).value.namespace == current.namespace && mutate(current).value.name == current.name
    // an object that already has that spec comes back unchanged, so no write is needed
    ensures forall current: NamespaceOffloading :: current.spec == spec ==> mutate(current) == Ok(current)
  {
    (current: NamespaceOffloading) => Ok(current.(spec := spec))
  }

  /** The result of a successful apply does not depend on what was stored
      before: two stores that differ at most in the offloading object end up
      identical, so no term of an earlier apply survives. */
  lemma ApplyLeavesNoResidue(s1: map<ObjectKey, NamespaceOffloading>,
                            s2: map<ObjectKey, NamespaceOffloading>,
                            plan: OffloadPlan, w1: Option<OffloadError>, w2: Option<OffloadError>)
    requires forall k :: k != OffloadingKey(plan.namespace) ==> (k in s1 <==> k in s2)
    requires forall k :: k != OffloadingKey(plan.namespace) && k in s1 ==> s1[k] == s2[k]
    requires forall k :: k in s1 ==> s1[k].namespace == k.namespace && s1[k].name == k.name
    requires forall k :: k in s2 ==> s2[k].namespace == k.namespace && s2[k].name == k.name
    ensures var key := OffloadingKey(plan.namespace);
            var initial := NamespaceOffloading(key.namespace, key.name, NamespaceOffloadingSpec("", "", []));
            var r1 := CreateOrUpdate(s1, key, initial, ReplaceSpec(DesiredSpec(plan)), None, w1);
            var r2 := CreateOrUpdate(s2, key, initial, ReplaceSpec(DesiredSpec(plan)), None, w2);
            r1.Ok? && r2.Ok? ==> r1.value == r2.value
  {
  }

  /** The error a failing API call is reported with. */
  function AsError(f: Fault): Option<OffloadError>
  {
    if f.Some? then Some(ApiFailed(Failure(f.value))) else None
  }

  /** Update is not supported: it always fails with the same error. */
  function Update(): (r: Outcome<OffloadError>)
    ensures r == Fail(UpdateNotPermitted)
  {
    Fail(UpdateNotPermitted)
  }

  /** The consumer cluster as the offload resource sees it: the
      NamespaceOffloading objects by namespace and name. */
  class OffloadingStore {
    var offloadings: map<ObjectKey, NamespaceOffloading>

    /** Every object is stored under its own namespace and name. */
    predicate Valid()
      reads this
    {
      forall k :: k in offloadings ==> offloadings[k].namespace == k.namespace && offloadings[k].name == k.name
    }

    constructor ()
      ensures Valid() && offloadings == map[]
    {
      offloadings := map[];
    }

    /** Create (or bring back in line) the namespace's offloading object from
      the plan: the two strategies and the whole selector are overwritten. */
    method Create(plan: OffloadPlan, get: Fault, write: Fault) returns (r: Outcome<OffloadError>)
      requires Valid()
      modifies this
      ensures Valid()
      // only the namespace's one offloading object can change
      ensures forall k :: k != OffloadingKey(plan.namespace) ==>
                (k in offloadings <==> k in old(offloadings)) &&
                (k in offloadings ==> offloadings[k] == old(offloadings)[k])
      ensures r.Pass? ==>
                var key := OffloadingKey(plan.namespace);
                offloadings == old(offloadings)[key := NamespaceOffloading(key.namespace, key.name, DesiredSpec(plan))]
      ensures r.Fail? ==> offloadings == old(offloadings)
      ensures get.Some? ==> r == Fail(ApiFailed(Failure(get.value)))
      ensures get.None? && write.None? ==> r.Pass?
      // a write that fails is reported, unless the stored object already matched the plan
      // and no write was needed
      ensures var key := OffloadingKey(plan.namespace);
              get.None? && key in old(offloadings) && old(offloadings)[key].spec == DesiredSpec(plan) ==> r.Pass?
      ensures var key := OffloadingKey(plan.namespace);
              get.None? && write.Some? && !(key in old(offloadings) && old(offloadings)[key].spec == DesiredSpec(plan)) ==>
                r == Fail(ApiFailed(Failure(write.value)))
    {
      var clusterSelector := BuildClusterSelector(plan.clusterSelectorTerms);
      var terms := BuildNodeSelectorTerms(clusterSelector);
      var key := OffloadingKey(plan.namespace);
      var initial := NamespaceOffloading(key.namespace, key.name, NamespaceOffloadingSpec("", "", []));
      var spec := NamespaceOffloadingSpec(PodOffloadingStrategy(plan), NamespaceMappingStrategy(plan), terms);
      assert spec == DesiredSpec(plan);
      var written := CreateOrUpdate(offloadings, key, initial, ReplaceSpec(spec), AsError(get), AsError(write));
      if written.Err? {
        return Fail(written.error);
      }
      offloadings := written.value;
      return Pass;
    }

    /** Delete the namespace's offloading object; one that is already gone is
      no error, any other failure is reported. */
    method Delete(namespace: string, fault: Fault) returns (r: Outcome<OffloadError>)
      requires Valid()
      modifies this
      ensures Valid()
      ensures fault.Some? ==> r == Fail(ApiFailed(Failure(fault.value))) && offloadings == old(offloadings)
      ensures fault.None? ==> r == Pass && offloadings == old(offloadings) - {OffloadingKey(namespace)}
    {
      var key := OffloadingKey(namespace);
      var err: Option<ApiError>;
      if fault.Some? {
        err := Some(Failure(fault.value));
      } else if key in offloadings {
        offloadings := offloadings - {key};
        err := None;
      } else {
        err := Some(NotFound);
      }
      if IgnoreNotFound(err).Some? {
        return Fail(ApiFailed(err.value));
      }
      return Pass;
    }
  }
}
