/** The peering resource: establishes an out-of-band peering towards a remote
    cluster by storing the remote token and creating or merging the
    ForeignCluster object that stands for that cluster, and on teardown
    disables the outgoing peering instead of deleting the object. */
module Peering {
  import opened Kube

  /** The kind of a peering. Unknown is the API's empty value, so a freshly
      built ForeignCluster carries it. */
  datatype PeeringType = Unknown | OutOfBand | InBand

  /** Whether a peering direction is enabled. Unset is the API's empty value. */
  datatype PeeringEnabled = Unset | Yes | No | Auto

  /** The part of a ForeignCluster's spec that the peering resource reads or writes. */
  datatype ForeignClusterSpec = ForeignClusterSpec(
    peeringType: PeeringType,
    clusterIdentity: ClusterIdentity,
    foreignAuthURL: string,
    foreignProxyURL: string,
    outgoingPeeringEnabled: PeeringEnabled,
    incomingPeeringEnabled: PeeringEnabled,
    insecureSkipTLSVerify: Option<bool>)

  /** A ForeignCluster object: cluster-scoped, stored under its name, and
      labelled with the ID of the remote cluster it stands for. */
  datatype ForeignCluster = ForeignCluster(name: string, labels: map<string, string>, spec: ForeignClusterSpec)

  /** The label key under which a ForeignCluster carries the remote cluster ID. */
  const ClusterIDLabel: string := "discovery.liqo.io/cluster-id"

  /** The attributes of a peering resource. */
  datatype PeeringPlan = PeeringPlan(
    clusterID: string,
    clusterName: string,
    clusterAuthURL: string,
    clusterToken: string,
    liqoNamespace: Option<string>)

  datatype PeeringError =
    | ApiFailed(cause: ApiError)
    | SelfPeering
    | TypeConflict(existing: PeeringType, clusterName: string)
    | UpdateNotPermitted

  /** The namespace Liqo runs in, after the schema default. */
  function Namespace(plan: PeeringPlan): string
  {
    WithDefault(plan.liqoNamespace, DefaultLiqoNamespace)
  }

  predicate HasClusterID(fc: ForeignCluster, clusterID: string)
  {
    ClusterIDLabel in fc.labels && fc.labels[ClusterIDLabel] == clusterID
  }

  /** The peering types an out-of-band peering may take over: none yet, or its own. */
  predicate MayPeerOutOfBand(t: PeeringType)
  {
    t == Unknown || t == OutOfBand
  }

  /** The fields an out-of-band peering owns, as the plan dictates them. */
  predicate OwnsFields(spec: ForeignClusterSpec, plan: PeeringPlan)
  {
    && spec.peeringType == OutOfBand
    && spec.clusterIdentity.clusterID == plan.clusterID
    && spec.foreignAuthURL == plan.clusterAuthURL
    && spec.foreignProxyURL == ""
    && spec.outgoingPeeringEnabled == Yes
  }

  /** The three fields the peering only defaults: a value that is already set
      is kept, an unset one takes its default. */
  predicate KeepsOrDefaults(before: ForeignClusterSpec, after: ForeignClusterSpec, plan: PeeringPlan)
  {
    && (before.clusterIdentity.clusterName != "" ==> after.clusterIdentity.clusterName == before.clusterIdentity.clusterName)
    && (before.clusterIdentity.clusterName == "" ==> after.clusterIdentity.clusterName == plan.clusterName)
    && (before.incomingPeeringEnabled != Unset ==> after.incomingPeeringEnabled == before.incomingPeeringEnabled)
    && (before.incomingPeeringEnabled == Unset ==> after.incomingPeeringEnabled == Auto)
    && (before.insecureSkipTLSVerify.Some? ==> after.insecureSkipTLSVerify == before.insecureSkipTLSVerify)
    && (before.insecureSkipTLSVerify.None? ==> after.insecureSkipTLSVerify == Some(true))
  }

  /** The mutate function Create hands to create-or-update: refuse an object
      that already stands for a peering of another type; otherwise take it
      over as out-of-band, overwrite the owned fields and default the rest. */
  function Merge(fc: ForeignCluster, plan: PeeringPlan): (r: Result<ForeignCluster, PeeringError>)
    ensures r.Ok? <==> MayPeerOutOfBand(fc.spec.peeringType)
    ensures r.Err? ==> r.error == TypeConflict(fc.spec.peeringType, plan.clusterName)
    ensures r.Ok? ==> r.value.name == fc.name && r.value.labels == fc.labels
    ensures r.Ok? ==> OwnsFields(r.value.spec, plan) && KeepsOrDefaults(fc.spec, r.value.spec, plan)
  {
    if !MayPeerOutOfBand(fc.spec.peeringType) then
      Err(TypeConflict(fc.spec.peeringType, plan.clusterName))
    else
      var spec := fc.spec;
      var name := if spec.clusterIdentity.clusterName == "" then plan.clusterName else spec.clusterIdentity.clusterName;
      Ok(fc.(spec := spec.(
        peeringType := OutOfBand,
        clusterIdentity := ClusterIdentity(plan.clusterID, name),
        foreignAuthURL := plan.clusterAuthURL,
        foreignProxyURL := "",
        outgoingPeeringEnabled := Yes,
        incomingPeeringEnabled := if spec.incomingPeeringEnabled == Unset then Auto else spec.incomingPeeringEnabled,
        insecureSkipTLSVerify := if spec.insecureSkipTLSVerify.None? then Some(true) else spec.insecureSkipTLSVerify)))
  }

  /** The object Create builds when no ForeignCluster carries the remote
      cluster's ID: named after the plan, labelled with the ID, and with every
      spec field at its empty value. */
  function Fresh(plan: PeeringPlan): (fc: ForeignCluster)
    ensures fc.name == plan.clusterName && HasClusterID(fc, plan.clusterID)
    ensures fc.labels.Keys == {ClusterIDLabel}
    ensures fc.spec.peeringType == Unknown
    // so it always passes the merge's guard
    ensures Merge(fc, plan).Ok?
    // and, nothing being set yet, the merge fills every defaulted field from
    // the plan or its default
    ensures Merge(fc, plan).value.spec.clusterIdentity == ClusterIdentity(plan.clusterID, plan.clusterName)
    ensures Merge(fc, plan).value.spec.incomingPeeringEnabled == Auto
    ensures Merge(fc, plan).value.spec.insecureSkipTLSVerify == Some(true)
  {
    ForeignCluster(plan.clusterName, map[ClusterIDLabel := plan.clusterID],
                   ForeignClusterSpec(Unknown, ClusterIdentity("", ""), "", "", Unset, Unset, None))
  }

  /** What Delete writes: the outgoing peering switched off, nothing else touched. */
  function Disabled(fc: ForeignCluster): (d: ForeignCluster)
    ensures d.spec.outgoingPeeringEnabled == No
    ensures d.name == fc.name && d.labels == fc.labels
    ensures d.spec.(outgoingPeeringEnabled := fc.spec.outgoingPeeringEnabled) == fc.spec
  {
    fc.(spec := fc.spec.(outgoingPeeringEnabled := No))
  }

  /** Update is not supported: it always fails with the same error. */
  function Update(): (r: Outcome<PeeringError>)
    ensures r == Fail(UpdateNotPermitted)
  {
    Fail(UpdateNotPermitted)
  }

  /** Merging what a merge produced gives the same object again. */
  lemma MergeIdempotent(fc: ForeignCluster, plan: PeeringPlan)
    requires Merge(fc, plan).Ok?
    ensures Merge(Merge(fc, plan).value, plan) == Merge(fc, plan)
  {
  }

  /** A peering type, once concrete, is never replaced by a different one:
      an in-band object is refused and an out-of-band one stays out-of-band. */
  lemma PeeringTypeNeverSwitches(fc: ForeignCluster, plan: PeeringPlan)
    requires fc.spec.peeringType != Unknown
    ensures Merge(fc, plan).Ok? ==> Merge(fc, plan).value.spec.peeringType == fc.spec.peeringType
    ensures fc.spec.peeringType == InBand ==> Merge(fc, plan).Err?
  {
  }

  /** After a merge none of the defaulted fields is left unset. */
  lemma MergeLeavesNothingUnset(fc: ForeignCluster, plan: PeeringPlan)
    requires Merge(fc, plan).Ok?
    ensures Merge(fc, plan).value.spec.incomingPeeringEnabled != Unset
    ensures Merge(fc, plan).value.spec.insecureSkipTLSVerify.Some?
    ensures plan.clusterName != "" ==> Merge(fc, plan).value.spec.clusterIdentity.clusterName != ""
  {
  }

  /** Disabling touches only what the merge overwrites, so establishing the
      peering again after a teardown gives the object the first merge gave. */
  lemma ReestablishUndoesDisable(fc: ForeignCluster, plan: PeeringPlan)
    ensures Merge(Disabled(fc), plan) == Merge(fc, plan)
  {
  }

  /** A merged object is one Delete acts on, and disabling it keeps the peering
      type, the auth URL and the cluster identity. */
  lemma MergedIsDisablable(fc: ForeignCluster, plan: PeeringPlan)
    requires Merge(fc, plan).Ok?
    ensures Merge(fc, plan).value.spec.peeringType == OutOfBand
    ensures var d := Disabled(Merge(fc, plan).value);
            d.spec.peeringType == OutOfBand && d.spec.foreignAuthURL == plan.clusterAuthURL &&
            d.spec.clusterIdentity == Merge(fc, plan).value.spec.clusterIdentity &&
            d.spec.outgoingPeeringEnabled == No
  {
  }

  /** The key of a stored remote token: the remote cluster's ID and the namespace. */
  datatype SecretKey = SecretKey(clusterID: string, namespace: string)

  /** What looking a ForeignCluster up by cluster-ID label gives. */
  datatype Lookup = Found(name: string) | NoneFound | LookupFailed(cause: string)

  /** What the external calls of one Create give: the local identity, whether
      storing the token goes through, the lookup by ID, and whether the read
      and the write inside create-or-update go through. */
  datatype CreateCalls = CreateCalls(
    localIdentity: Result<ClusterIdentity, ApiError>,
    storeToken: Fault,
    lookup: Lookup,
    get: Fault,
    write: Fault)

  /** The lookup by ID agrees with the store: a found object carries the
      label, and nothing is found only when no object carries it. */
  predicate LookupAgrees(fcs: map<string, ForeignCluster>, lookup: Lookup, clusterID: string)
  {
    match lookup
    case Found(n) => n in fcs && HasClusterID(fcs[n], clusterID)
    case NoneFound => forall n :: n in fcs ==> !HasClusterID(fcs[n], clusterID)
    case LookupFailed(_) => true
  }

  /** The object the merge runs on: create-or-update reads it under the name
      of the object the lookup found, or of the fresh one when none was found. */
  function MergeInput(fcs: map<string, ForeignCluster>, plan: PeeringPlan, lookup: Lookup): ForeignCluster
    requires lookup.Found? ==> lookup.name in fcs
  {
    var target := if lookup.Found? then fcs[lookup.name] else Fresh(plan);
    Current(fcs, target.name, target)
  }

  function AsError(f: Fault): Option<PeeringError>
  {
    if f.Some? then Some(ApiFailed(Failure(f.value))) else None
  }

  /** Create gets past its first three steps: the local identity is read, it
      is not the remote cluster's, and the token is stored. */
  predicate TokenStored(plan: PeeringPlan, calls: CreateCalls)
  {
    && calls.localIdentity.Ok?
    && calls.localIdentity.value.clusterID != plan.clusterID
    && calls.storeToken.None?
  }

  /** Create gets as far as create-or-update with an object the merge accepts. */
  predicate ReachesWrite(fcs: map<string, ForeignCluster>, plan: PeeringPlan, calls: CreateCalls)
    requires calls.lookup.Found? ==> calls.lookup.name in fcs
  {
    && TokenStored(plan, calls)
    && !calls.lookup.LookupFailed?
    && MayPeerOutOfBand(MergeInput(fcs, plan, calls.lookup).spec.peeringType)
  }

  /** Running create-or-update with the merge once more on what a successful
      run stored writes nothing, whatever object it starts from. */
  lemma EstablishSettles(fcs: map<string, ForeignCluster>, key: string, target: ForeignCluster,
                          target': ForeignCluster, plan: PeeringPlan, write: Fault, write': Fault)
    requires CreateOrUpdate(fcs, key, target, fc => Merge(fc, plan), None, AsError(write)).Ok?
    ensures var stored := CreateOrUpdate(fcs, key, target, fc => Merge(fc, plan), None, AsError(write)).value;
            CreateOrUpdate(stored, key, target', fc => Merge(fc, plan), None, AsError(write')) == Ok(stored)
  {
    MergeIdempotent(Current(fcs, key, target), plan);
  }

  /** The consumer cluster as the peering resource sees it: the remote tokens
      kept in secrets, and the ForeignCluster objects by name. */
  class PeeringStore {
    var tokens: map<SecretKey, string>
    var foreignClusters: map<string, ForeignCluster>

    /** Every object is stored under its own name. */
    predicate Valid()
      reads this
    {
      forall n :: n in foreignClusters ==> foreignClusters[n].name == n
    }

    constructor ()
      ensures Valid() && tokens == map[] && foreignClusters == map[]
    {
      tokens := map[];
      foreignClusters := map[];
    }

    /** Establish the peering the plan describes. */
    method Create(plan: PeeringPlan, calls: CreateCalls) returns (r: Outcome<PeeringError>)
      requires Valid()
      requires LookupAgrees(foreignClusters, calls.lookup, plan.clusterID)
      modifies this
      ensures Valid()
      // at most this cluster's token is stored or overwritten
      ensures tokens == old(tokens) || tokens == old(tokens)[SecretKey(plan.clusterID, Namespace(plan)) := plan.clusterToken]
      // without the local identity nothing is written
      ensures calls.localIdentity.Err? ==>
                r == Fail(ApiFailed(calls.localIdentity.error)) &&
                tokens == old(tokens) && foreignClusters == old(foreignClusters)
      // peering with the local cluster is refused before anything is written
      ensures calls.localIdentity.Ok? && calls.localIdentity.value.clusterID == plan.clusterID ==>
                r == Fail(SelfPeering) && tokens == old(tokens) && foreignClusters == old(foreignClusters)
      // a token that cannot be stored stops Create before any ForeignCluster is touched
      ensures calls.storeToken.Some? ==>
                r.Fail? && tokens == old(tokens) && foreignClusters == old(foreignClusters)
      ensures foreignClusters != old(foreignClusters) ==>
                tokens == old(tokens)[SecretKey(plan.clusterID, Namespace(plan)) := plan.clusterToken]
      // a failed lookup by ID writes no ForeignCluster
      ensures calls.lookup.LookupFailed? ==> r.Fail? && foreignClusters == old(foreignClusters)
      // an object that stands for a peering of another type is refused and left as it was
      ensures !MayPeerOutOfBand(MergeInput(old(foreignClusters), plan, calls.lookup).spec.peeringType) ==>
                r.Fail? && foreignClusters == old(foreignClusters)
      // on success the token is stored and the merged object replaces the one the merge ran on
      ensures r.Pass? ==>
                var m := MergeInput(old(foreignClusters), plan, calls.lookup);
                && tokens == old(tokens)[SecretKey(plan.clusterID, Namespace(plan)) := plan.clusterToken]
                && Merge(m, plan).Ok?
                && foreignClusters == old(foreignClusters)[m.name := Merge(m, plan).value]
      ensures r.Fail? ==> foreignClusters == old(foreignClusters)
      // a token that cannot be stored is reported with its own error
      ensures calls.localIdentity.Ok? && calls.localIdentity.value.clusterID != plan.clusterID && calls.storeToken.Some? ==>
                r == Fail(ApiFailed(Failure(calls.storeToken.value)))
      // once stored, the token stays stored whatever happens afterwards
      ensures TokenStored(plan, calls) ==>
                tokens == old(tokens)[SecretKey(plan.clusterID, Namespace(plan)) := plan.clusterToken]
      ensures TokenStored(plan, calls) && calls.lookup.LookupFailed? ==>
                r == Fail(ApiFailed(Failure(calls.lookup.cause)))
      ensures TokenStored(plan, calls) && !calls.lookup.LookupFailed? && calls.get.None? &&
              !MayPeerOutOfBand(MergeInput(old(foreignClusters), plan, calls.lookup).spec.peeringType) ==>
                var m := MergeInput(old(foreignClusters), plan, calls.lookup);
                r == Fail(TypeConflict(m.spec.peeringType, plan.clusterName))
      // the read inside create-or-update comes before the merge's guard: a failed read is reported
      ensures TokenStored(plan, calls) && !calls.lookup.LookupFailed? && calls.get.Some? ==>
                r == Fail(ApiFailed(Failure(calls.get.value)))
      // past the guards Create succeeds exactly when the write goes through
      // or is not needed, and reports a failed write
      ensures ReachesWrite(old(foreignClusters), plan, calls) && calls.get.None? ==>
                var m := MergeInput(old(foreignClusters), plan, calls.lookup);
                var same := m.name in old(foreignClusters) && Merge(m, plan).value == old(foreignClusters)[m.name];
                && (calls.write.None? || same ==> r == Pass)
                && (calls.write.Some? && !same ==> r == Fail(ApiFailed(Failure(calls.write.value))))
    {
      if calls.localIdentity.Err? {
        return Fail(ApiFailed(calls.localIdentity.error));
      }
      if calls.localIdentity.value.clusterID == plan.clusterID {
        return Fail(SelfPeering);
      }
      if calls.storeToken.Some? {
        return Fail(ApiFailed(Failure(calls.storeToken.value)));
      }
      tokens := tokens[SecretKey(plan.clusterID, Namespace(plan)) := plan.clusterToken];

      var fc: ForeignCluster;
      match calls.lookup {
        case Found(name) => fc := foreignClusters[name];
        case NoneFound => fc := Fresh(plan);
        case LookupFailed(cause) => return Fail(ApiFailed(Failure(cause)));
      }
      var mutate := current => Merge(current, plan);
      assert Current(foreignClusters, fc.name, fc) == MergeInput(foreignClusters, plan, calls.lookup);
      var written := CreateOrUpdate(foreignClusters, fc.name, fc, mutate, AsError(calls.get), AsError(calls.write));
      if written.Err? {
        return Fail(written.error);
      }
      foreignClusters := written.value;
      return Pass;
    }

    /** Tear the peering down: disable the outgoing peering of the
      ForeignCluster with that name, but only when it is out-of-band. A
      missing object, a failed read or another peering type ends the call
      silently, without error and without a write. */
    method Delete(clusterName: string, get: Fault, update: Fault) returns (r: Outcome<PeeringError>)
      requires Valid()
      modifies this
      ensures Valid() && tokens == old(tokens)
      ensures get.Some? || clusterName !in old(foreignClusters) ||
              old(foreignClusters)[clusterName].spec.peeringType != OutOfBand ==>
                r == Pass && foreignClusters == old(foreignClusters)
      ensures get.None? && clusterName in old(foreignClusters) &&
              old(foreignClusters)[clusterName].spec.peeringType == OutOfBand ==>
                if update.Some? then
                  r == Fail(ApiFailed(Failure(update.value))) && foreignClusters == old(foreignClusters)
                else
                  r == Pass &&
                  foreignClusters == old(foreignClusters)[clusterName := Disabled(old(foreignClusters)[clusterName])]
    {
      if get.Some? || clusterName !in foreignClusters {
        return Pass;
      }
      var fc := foreignClusters[clusterName];
      if fc.spec.peeringType != OutOfBand {
        return Pass;
      }
      if update.Some? {
        return Fail(ApiFailed(Failure(update.value)));
      }
      foreignClusters := foreignClusters[clusterName := Disabled(fc)];
      return Pass;
    }
  }
}
