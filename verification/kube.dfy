/** What the three resources share: optional plan values with their schema
    defaults, results, the errors the Kubernetes client reports, the identity
    record Liqo keeps for a cluster, and controller-runtime's create-or-update
    performed as a single attempt. */
module Kube {

  datatype Option<+T> = None | Some(value: T)

  datatype Result<+T, +E> = Ok(value: T) | Err(error: E)

  /** Success, or the error a resource operation adds to its diagnostics. */
  datatype Outcome<+E> = Pass | Fail(error: E)

  /** An error from the API server or from a Liqo helper. NotFound is the only
      kind the reconcilers tell apart (kerrors.IsNotFound, client.IgnoreNotFound);
      every other failure carries its cause. */
  datatype ApiError = NotFound | Failure(cause: string)

  /** Whether one API call that the model takes as given goes through (None)
      or fails for a reason other than absence (Some(cause)): network,
      authorisation, admission or a conflicting write. */
  type Fault = Option<string>

  /** The identity Liqo records for a cluster. */
  datatype ClusterIdentity = ClusterIdentity(clusterID: string, clusterName: string)

  /** Default of the optional liqo_namespace attribute. */
  const DefaultLiqoNamespace: string := "liqo"

  /** The value an Optional+Computed attribute takes once its DefaultValue
      plan modifier has run: the configured value, or the default when unset. */
  function WithDefault<T>(configured: Option<T>, default: T): (v: T)
    ensures configured.Some? ==> v == configured.value
    ensures configured.None? ==> v == default
  {
    match configured
    case Some(x) => x
    case None => default
  }

  /** client.IgnoreNotFound: absence is no error, every other error stays. */
  function IgnoreNotFound(err: Option<ApiError>): (r: Option<ApiError>)
    ensures r.None? <==> err.None? || err.value.NotFound?
    ensures r.Some? ==> r == err
  {
    if err.Some? && err.value.NotFound? then None else err
  }

  /** The object create-or-update hands to the mutate function: the stored one
      when the key is present, the caller's freshly built object otherwise. */
  function Current<K, V>(store: map<K, V>, key: K, initial: V): V
  {
    if key in store then store[key] else initial
  }

  /** controllerutil.CreateOrUpdate as one attempt, without any retry: read the
      object under key (the freshly built one when it is absent), apply mutate, write
      nothing when mutate fails, skip the write when a stored object comes out
      unchanged, and otherwise create or update it. getFault and writeFault
      say whether the read and the write go through. */
  function CreateOrUpdate<K, V(==), E>(store: map<K, V>, key: K, initial: V,
                                       mutate: V -> Result<V, E>,
                                       getFault: Option<E>, writeFault: Option<E>): (r: Result<map<K, V>, E>)
    // a failed read is reported and nothing else happens
    ensures getFault.Some? ==> r == Err(getFault.value)
    // a refusing mutate function is reported and nothing is written
    ensures getFault.None? && mutate(Current(store, key, initial)).Err? ==>
              r == Err(mutate(Current(store, key, initial)).error)
    // on success the key holds the mutated object and no other key changes
    ensures r.Ok? ==> mutate(Current(store, key, initial)).Ok?
    ensures r.Ok? ==> r.value == store[key := mutate(Current(store, key, initial)).value]
    // only a write that actually happens can fail
    ensures getFault.None? && mutate(Current(store, key, initial)).Ok? ==>
              (r.Ok? <==> writeFault.None? ||
                          (key in store && mutate(Current(store, key, initial)).value == store[key]))
    // and a write that fails is reported with its own error
    ensures getFault.None? && mutate(Current(store, key, initial)).Ok? && writeFault.Some? &&
            !(key in store && mutate(Current(store, key, initial)).value == store[key]) ==>
              r == Err(writeFault.value)
  {
    if getFault.Some? then Err(getFault.value)
    else
      var current := if key in store then store[key] else initial;
      match mutate(current)
      case Err(e) => Err(e)
      case Ok(next) =>
        if key in store && next == current then
          assert store[key := next] == store;
          Ok(store)
        else if writeFault.Some? then Err(writeFault.value)
        else Ok(store[key := next])
  }

  /** Running create-or-update again on what a successful run stored, with a
      mutate function that is idempotent on its own output, writes nothing:
      it succeeds whatever the write would have done and leaves the store as it was. */
  lemma CreateOrUpdateSettles<K, V, E>(store: map<K, V>, key: K, initial: V, initial': V,
                                       mutate: V -> Result<V, E>,
                                       writeFault: Option<E>, writeFault': Option<E>)
    requires CreateOrUpdate(store, key, initial, mutate, None, writeFault).Ok?
    requires mutate(mutate(Current(store, key, initial)).value) == mutate(Current(store, key, initial))
    ensures var stored := CreateOrUpdate(store, key, initial, mutate, None, writeFault).value;
            CreateOrUpdate(stored, key, initial', mutate, None, writeFault') == Ok(stored)
  {
  }
}
