/** The generate resource: reads, on the provider cluster, what a remote
    administrator needs to peer with it (cluster ID and name, a local
    authentication token, the authentication endpoint) and exposes it as the
    resource's computed attributes. It writes nothing. */
module Generate {
  import opened Kube

  /** The attributes of a generate resource once Create has filled them in. */
  datatype GenerateState = GenerateState(
    clusterID: string,
    clusterName: string,
    authEP: string,
    localToken: string,
    liqoNamespace: string)

  datatype GenerateError = LookupFailed(cause: ApiError) | UpdateNotPermitted

  /** The three reads Create composes, each given the Liqo namespace: the
      local cluster identity, the local authentication token and the
      authentication endpoint. */
  datatype Lookups = Lookups(
    identity: string -> Result<ClusterIdentity, ApiError>,
    token: string -> Result<string, ApiError>,
    authURL: string -> Result<string, ApiError>)

  /** The name shown for a cluster: its own name, or its ID when it has none. */
  function DisplayName(id: ClusterIdentity): (name: string)
    ensures id.clusterName != "" ==> name == id.clusterName
    ensures id.clusterName == "" ==> name == id.clusterID
    ensures name == "" <==> id.clusterName == "" && id.clusterID == ""
  {
    if id.clusterName == "" then id.clusterID else id.clusterName
  }

  /** Run the three reads in order, stop at the first that fails and report
      its error; when all three succeed, the outputs are the identity's ID,
      its display name, the token and the endpoint, and the namespace is
      passed through. */
  function Create(liqoNamespace: Option<string>, lookups: Lookups): (r: Result<GenerateState, GenerateError>)
    ensures var ns := WithDefault(liqoNamespace, DefaultLiqoNamespace);
            r.Ok? <==> lookups.identity(ns).Ok? && lookups.token(ns).Ok? && lookups.authURL(ns).Ok?
    ensures var ns := WithDefault(liqoNamespace, DefaultLiqoNamespace);
            lookups.identity(ns).Err? ==> r == Err(LookupFailed(lookups.identity(ns).error))
    ensures var ns := WithDefault(liqoNamespace, DefaultLiqoNamespace);
            lookups.identity(ns).Ok? && lookups.token(ns).Err? ==> r == Err(LookupFailed(lookups.token(ns).error))
    ensures var ns := WithDefault(liqoNamespace, DefaultLiqoNamespace);
            lookups.identity(ns).Ok? && lookups.token(ns).Ok? && lookups.authURL(ns).Err? ==>
              r == Err(LookupFailed(lookups.authURL(ns).error))
    ensures var ns := WithDefault(liqoNamespace, DefaultLiqoNamespace);
            r.Ok? ==>
              && r.value.clusterID == lookups.identity(ns).value.clusterID
              && r.value.clusterName == DisplayName(lookups.identity(ns).value)
              && r.value.localToken == lookups.token(ns).value
              && r.value.authEP == lookups.authURL(ns).value
              && r.value.liqoNamespace == ns
    // the namespace defaults to "liqo"
    ensures r.Ok? && liqoNamespace.None? ==> r.value.liqoNamespace == "liqo"
  {
    var ns := WithDefault(liqoNamespace, DefaultLiqoNamespace);
    match lookups.identity(ns)
    case Err(e) => Err(LookupFailed(e))
    case Ok(identity) =>
      match lookups.token(ns)
      case Err(e) => Err(LookupFailed(e))
      case Ok(token) =>
        match lookups.authURL(ns)
        case Err(e) => Err(LookupFailed(e))
        case Ok(authEP) =>
          Ok(GenerateState(identity.clusterID, DisplayName(identity), authEP, token, ns))
  }

  /** Update is not supported: it always fails with the same error. */
  function Update(): (r: Outcome<GenerateError>)
    ensures r == Fail(UpdateNotPermitted)
  {
    Fail(UpdateNotPermitted)
  }

  /** Delete does nothing and always succeeds: the resource wrote nothing to undo. */
  function Delete(state: GenerateState): (r: Outcome<GenerateError>)
    ensures r == Pass
  {
    Pass
  }

  /** The generated name is never empty for a cluster with an ID, so a
      peering built from these outputs always has a name to use. */
  lemma GeneratedNameNeverEmpty(liqoNamespace: Option<string>, lookups: Lookups)
    requires Create(liqoNamespace, lookups).Ok?
    requires lookups.identity(WithDefault(liqoNamespace, DefaultLiqoNamespace)).value.clusterID != ""
    ensures Create(liqoNamespace, lookups).value.clusterName != ""
  {
  }
}
