# Liqo Terraform provider: reconciliation core in Dafny

This project models the reconciliation logic of the Liqo Terraform provider's
three resources. Terraform drives each resource through Create, Read, Update
and Delete. The logic decides what is written to a cluster's object store and
when a write is refused.

- **generate** (`generate.dfy`, module `Generate`) runs on the provider
  cluster. It reads the local cluster identity, a local authentication token
  and the authentication endpoint, and exposes them as computed attributes.
  An identity with an empty name is shown under its ID. Update always fails,
  and Delete does nothing.
- **peering** (`peering.dfy`, module `Peering`) runs on the consumer cluster.
  Create takes these steps in order:
  1. Refuse to peer with the local cluster itself.
  2. Store the remote token.
  3. Find the ForeignCluster carrying the remote cluster-ID label, or build a
     fresh one named after the plan.
  4. Run create-or-update with a guarded merge.

  The merge refuses an object that already has another peering type (InBand).
  It overwrites the fields an out-of-band peering owns: peering type, cluster
  ID, auth URL, proxy URL and outgoing flag. Three fields are filled in only
  when unset: cluster name, incoming flag and insecure-skip-TLS. Delete
  fetches the ForeignCluster by name. It switches the outgoing peering to No,
  but only on an out-of-band object. A missing object, a failed read or
  another peering type makes it return silently. Update always fails.
- **offload** (`offload.dfy`, module `Offload`) runs on the consumer cluster.
  Create copies the plan's cluster-selector terms, in order, into the API's
  node-selector terms. The outer list is OR-combined and each inner list is
  AND-combined. It then creates or overwrites the namespace's single
  NamespaceOffloading object, named `offloading`, with the two strategies and
  the whole selector. Unset strategies default to `LocalAndRemote` and
  `DefaultName`. Delete removes that object, and an object that is already
  gone is not an error.

`kube.dfy` (module `Kube`) holds what the resources share:
- `Option`, `Result` and `Outcome`;
- the two kinds of API error the code tells apart (not-found, and any other
  failure);
- the schema's default for an unset attribute;
- `client.IgnoreNotFound`;
- controller-runtime's `CreateOrUpdate`, made as a single attempt. It reads
  the object under the key, or uses the freshly built one. It applies the
  mutate function. It writes nothing when that fails, and skips the write
  when a stored object comes out unchanged.

The stores are classes whose fields are maps. `Peering.PeeringStore` holds
the remote tokens, keyed by cluster ID and namespace, and the ForeignCluster
objects by name. `Offload.OffloadingStore` holds the NamespaceOffloading
objects by namespace and name. The merge, the selector translation and the
generate composition are functions. The loops that build the selector are
methods proved equal to those functions.

Calls into Liqo helpers and the API server are parameters of the operations:
- the cluster-identity lookup is a `Result`;
- the token, auth-endpoint and identity reads of generate are functions of
  the namespace;
- the lookup of a ForeignCluster by cluster ID is a `Lookup`. Its
  precondition says what that helper guarantees: a found object carries the
  label, and "not found" means that no stored object carries it;
- every other call (storing the token, the read and the write inside
  create-or-update, Delete's read and update) comes with a `Fault` saying
  whether it goes through.

Two constants come from Liqo packages whose source is not part of this model:
the ForeignCluster cluster-ID label key (`discovery.liqo.io/cluster-id`) and
the NamespaceOffloading name (`offloading`). The peering type `Unknown` and
the flag value `Unset` stand for the API's empty string. So a freshly built
ForeignCluster has type Unknown and passes the merge's guard.

Three behaviours of the teardown and of the write path:
- Peering Delete on an object whose peering type is not OutOfBand returns
  without error and writes nothing.
- Peering Delete also returns silently, without a write, when reading the
  object fails for any reason, not only when it is not found.
- Create-or-update is one attempt: a conflicting write is reported as an
  error and not retried.

Two behaviours of the code are kept as they are:
- Create finds the ForeignCluster by its cluster-ID label, but Delete fetches
  it by `cluster_name`. So an object found under another name is not
  disabled by Delete.
- When no object carries the label, the fresh object is named `cluster_name`.
  If an object with that name is already stored, create-or-update merges into
  the stored object.

## Model

| member | source | states |
|---|---|---|
| Kube.WithDefault | liqo_provider/liqo/generate_resource.go:70-76 | an unset optional attribute takes its schema default, a configured one is kept |
| Kube.IgnoreNotFound | liqo_provider/liqo/offload_resource.go:499 | not-found is dropped as no error; any other error is kept unchanged |
| Kube.CreateOrUpdate | liqo_provider/liqo/offload_resource.go:302-315 | a failed read or a refusing mutate function is reported and writes nothing; on success only the key changes and it holds the mutated object; a write is skipped (and cannot fail) when the stored object is unchanged; a write that happens and fails is reported with its own error |
| Kube.CreateOrUpdateSettles | liqo_provider/liqo/peering_resource.go:288-310 | with a mutate function idempotent on its output, a second create-or-update on the stored result succeeds and writes nothing, whatever the write would do |
| Peering.Merge | liqo_provider/liqo/peering_resource.go:288-310 | refuses exactly the peering types other than Unknown/OutOfBand, with the existing type and the plan's cluster name; otherwise owned fields equal the plan (OutOfBand, cluster ID, auth URL, empty proxy URL, outgoing Yes), cluster name / incoming flag / insecure flag are kept when set and defaulted when unset, name and labels unchanged |
| Peering.Fresh | liqo_provider/liqo/peering_resource.go:276-279 | the fresh object is named after the plan, labelled only with the cluster ID, has peering type Unknown and passes the merge's guard; since none of its fields is set, the first merge gives it the plan's cluster ID and name, incoming peering Auto and insecure TLS true |
| Peering.Disabled | liqo_provider/liqo/peering_resource.go:511 | outgoing peering becomes No and every other field, name and label is unchanged |
| Peering.Update | liqo_provider/liqo/peering_resource.go:343-348 | update always fails with the same error |
| Peering.MergeIdempotent | liqo_provider/liqo/peering_resource.go:288-310 | merging a merged object gives it back unchanged |
| Peering.PeeringTypeNeverSwitches | liqo_provider/liqo/peering_resource.go:289-294 | a concrete peering type is never replaced by another: InBand is refused, OutOfBand stays OutOfBand |
| Peering.MergeLeavesNothingUnset | liqo_provider/liqo/peering_resource.go:296-308 | after a merge the incoming flag is set, the insecure flag is present, and the cluster name is non-empty when the plan's is |
| Peering.ReestablishUndoesDisable | liqo_provider/liqo/peering_resource.go:294-310 | merging a disabled object gives what merging the object before teardown gives |
| Peering.MergedIsDisablable | liqo_provider/liqo/peering_resource.go:507-511 | a merged object is out-of-band, so Delete acts on it, and disabling it keeps type, auth URL and identity |
| Peering.EstablishSettles | liqo_provider/liqo/peering_resource.go:288-310 | create-or-update with the merge, run again under the same key on what a successful run stored, writes nothing and succeeds whatever the write would do (the token upsert and the lookup by ID are outside this lemma) |
| Peering.PeeringStore.Create | liqo_provider/liqo/peering_resource.go:250-319 | identity failure or self-peering is reported and writes nothing; a token that cannot be stored is reported and stops Create before any ForeignCluster is touched; once stored the token stays stored even when a later step fails; a failed lookup, a conflicting peering type (with the existing type and cluster name) or a failed read is reported and writes no ForeignCluster; past those guards Create succeeds exactly when the write goes through or is not needed, and a failed write is reported; on success the merged object replaces the one merged |
| Peering.PeeringStore.Delete | liqo_provider/liqo/peering_resource.go:502-519 | missing object, failed read or non-OutOfBand type: success with no write; otherwise only the outgoing flag changes to No, and a failed update is reported with nothing written; tokens untouched |
| Offload.PodOffloadingStrategy | liqo_provider/liqo/offload_resource.go:54-62 | unset defaults to LocalAndRemote; a configured string passes through unchecked |
| Offload.NamespaceMappingStrategy | liqo_provider/liqo/offload_resource.go:63-71 | unset defaults to DefaultName; a configured string passes through unchecked |
| Offload.OffloadingKey | liqo_provider/liqo/offload_resource.go:299-300 | the offloading object is the one named `offloading` in the plan's namespace |
| Offload.LabelRequirements | liqo_provider/liqo/offload_resource.go:265-278 | one requirement per match expression, same order, same key, operator and values |
| Offload.ClusterSelector | liqo_provider/liqo/offload_resource.go:259-281 | one requirement list per plan term, same order |
| Offload.NodeRequirements | liqo_provider/liqo/offload_resource.go:288-294 | one node-selector requirement per label requirement, same order, same key, operator (retyped, never checked) and values |
| Offload.NodeSelectorTerms | liqo_provider/liqo/offload_resource.go:283-297 | one node-selector term per requirement list, same order; empty input gives no terms |
| Offload.Translate | liqo_provider/liqo/offload_resource.go:257-297 | the stored selector has exactly one term per plan term and, within each, the same requirements with the same key, operator and values in the same order |
| Offload.ExpressionsRoundTrip | liqo_provider/liqo/offload_resource.go:265-293 | the match expressions of a term are read back exactly from its node-selector requirements |
| Offload.TranslateRoundTrip | liqo_provider/liqo/offload_resource.go:257-297 | the plan's terms are read back exactly from the translation: nothing is lost, reordered or changed |
| Offload.RequirementsRoundTrip | liqo_provider/liqo/offload_resource.go:285-296 | node-selector requirements are reproduced exactly from the expressions read back from them |
| Offload.TranslateOnto | liqo_provider/liqo/offload_resource.go:257-297 | every node selector is the translation of the plan terms read back from it, so translation is a bijection |
| Offload.CopyValues | liqo_provider/liqo/offload_resource.go:267-271 | the values list is copied element by element, in order |
| Offload.BuildClusterSelector | liqo_provider/liqo/offload_resource.go:257-281 | the first nested loop computes ClusterSelector of the plan's terms |
| Offload.BuildNodeSelectorTerms | liqo_provider/liqo/offload_resource.go:283-297 | the second nested loop computes NodeSelectorTerms of its input |
| Offload.DesiredSpec | liqo_provider/liqo/offload_resource.go:302-306 | the spec written holds the (defaulted) strategies and a selector from which the plan's terms are read back exactly |
| Offload.ReplaceSpec | liqo_provider/liqo/offload_resource.go:302-307 | the mutate function never refuses, replaces the whole spec with the desired one, keeps namespace and name, and gives an object that already has that spec back unchanged |
| Offload.ApplyLeavesNoResidue | liqo_provider/liqo/offload_resource.go:302-307 | two stores that differ only in the offloading object end up identical after a successful apply, so nothing of an earlier apply survives |
| Offload.Update | liqo_provider/liqo/offload_resource.go:339-344 | update always fails with the same error |
| Offload.OffloadingStore.Create | liqo_provider/liqo/offload_resource.go:257-315 | only the namespace's offloading object can change; on success it holds exactly the desired spec; a failure writes nothing; a failed read is reported; with the read going through it succeeds when the write does or when the stored object already has the desired spec, and otherwise reports the failed write |
| Offload.OffloadingStore.Delete | liqo_provider/liqo/offload_resource.go:497-505 | without a fault the object is gone afterwards and the result is success whether or not it existed; any other error is reported and nothing is removed |
| Generate.DisplayName | liqo_provider/liqo/generate_resource.go:274-276 | an empty name is replaced by the cluster ID, a non-empty one is kept |
| Generate.Create | liqo_provider/liqo/generate_resource.go:247-283 | succeeds exactly when all three lookups do; otherwise reports the first failing lookup's error in the order identity, token, endpoint; on success the outputs are the ID, the display name, the token, the endpoint and the namespace, which defaults to "liqo" |
| Generate.Update | liqo_provider/liqo/generate_resource.go:305-310 | update always fails with the same error |
| Generate.Delete | liqo_provider/liqo/generate_resource.go:312-313 | delete does nothing and succeeds |
| Generate.GeneratedNameNeverEmpty | liqo_provider/liqo/generate_resource.go:274-279 | for a cluster with an ID the generated cluster name is never empty |

## Left out

- Kubeconfig loading and client construction in every Create, Delete and Configure: I/O and library calls with no invariants of their own.
- The provider itself (`provider.go`: scheme registration, schema, client set-up) and the plugin bootstrap (`main.go`).
- Schema declarations, Metadata, Configure and Read. Read only echoes the stored state.
- Recording the plan as Terraform state after a successful Create (`resp.State.Set`), and the text of diagnostics. The model only distinguishes an error from success.
- The internals of Liqo's helpers. These are `GetClusterIdentityWithControllerClient`, `auth.GetToken`, `GetHomeAuthURL`, `StoreInSecret` and `GetForeignClusterByID`. They are parameters or faults with the contracts described above. `StoreInSecret` is modelled as an upsert of the token under the cluster ID and namespace.
- ForeignCluster and NamespaceOffloading fields that no operation reads or writes, object status, and metadata other than name and labels.
- Go's distinction between a nil and an empty slice. Both are the empty sequence here.
- Concurrency, optimistic-concurrency conflicts and context cancellation. The code retries nothing. A conflicting write is one more failing write (`Fault`).
