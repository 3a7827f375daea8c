# Reconciliation context assembly (cass-operator)

This project models how the Cassandra operator builds the context for one
reconciliation of a `CassandraDatacenter`. The procedure is
`CreateReconciliationContext` in `operator/pkg/reconciliation/context.go`. It
runs these steps in order:

1. It attaches the request's namespace to the logger.
2. It loads the datacenter from the object store.
3. In memory, it replaces a zero `SuperUserUpserted` or `LastServerNodeStarted`
   with the sentinel `metav1.Unix(1, 0)`.
4. If `LastRollingRestart` is zero, it sets that field to the current time and
   issues one status merge patch. The baseline of that patch is a copy taken
   after step 3.
5. It builds the management-API HTTP client.
6. It attaches the datacenter and cluster names to the logger.
7. It resolves the management-API protocol.
8. It returns the context, holding a `NodeMgmtClient`.

The first failure stops the procedure. The function then returns no context
and the error unchanged.

Files:

- `wrappers.dfy`: `Option` and `Result`.
- `api_types.dfy`: Go-style timestamps (`IsZero`, `Unix`, the sentinel) and
  the datacenter fields this phase touches. Also timestamp normalization,
  status merge patches (`MergeFrom` and `ApplyPatch`), the logger as a list of
  attributes, and opaque handles.
- `object_store.dfy`: the store's state as a value, with `Read` and `Patch`.
  The class `Store` holds the records, the log of patch calls, and the
  store's current fault condition. Its `Get` and `PatchStatus` methods are
  proved against `Read` and `Patch`.
- `reconciliation.dfy`: the specification `Assemble` and the class
  `ReconciliationContext`. Also `RetrieveDatacenter` and
  `CreateReconciliationContext`, which fills the context one field at a time.
  It is proved equal to `Assemble` in four things: the result, the new store
  state, the error, and the sequence of external calls it makes.
- `properties.dfy`: lemmas about `Assemble`. They cover normalization, the
  bootstrap patch, each failure path, the contents of a successful context and
  two concrete scenarios. They also prove that over any number of
  reconciliations `LastRollingRestart` is written at most once.

Timestamps follow Go's `time.Time`: whole seconds since January 1 of year 1
(UTC), plus nanoseconds. The zero time is `(0, 0)`, and `metav1.Unix(1, 0)` is
62135596801 seconds. The two `httphelper` calls are function-valued
parameters that may return an error. The wall clock is the parameter `now`.

Two facts about the order and the errors of the code:

- The HTTP client is built (line 86) before the protocol is resolved
  (line 96). So when the encryption configuration is rejected, the client has
  already been built (`BadEncryptionScenario`).
- Every error is returned exactly as the store or helper produced it, without
  wrapping.

## Model

| member | source | states |
|---|---|---|
| `ApiTypes.IsZero` | operator/pkg/reconciliation/context.go:69-76 | Go's Time.IsZero: true exactly when both the seconds since year 1 and the nanoseconds are 0, that is for the zero instant alone |
| `ApiTypes.Unix` | operator/pkg/reconciliation/context.go:70 | `metav1.Unix(sec, nsec)` is the instant `sec` seconds past the Unix epoch, as Go counts it from year 1 |
| `ApiTypes.Sentinel` | operator/pkg/reconciliation/context.go:70-73 | the replacement instant one second past the epoch is not the zero time |
| `ApiTypes.Normalize` | operator/pkg/reconciliation/context.go:68-74 | both repaired timestamps end up non-zero; a zero one becomes the sentinel, a non-zero one is kept; metadata, spec and LastRollingRestart are untouched |
| `ApiTypes.MergeFrom` | operator/pkg/reconciliation/context.go:77-79 | the patch names a status field exactly when the baseline and the modified object differ in it |
| `ApiTypes.ApplyPatch` | operator/pkg/reconciliation/context.go:79 | the store's side of the status merge patch: each status field the patch names is overwritten with the patch's value, each field it does not name keeps its stored value |
| `ApiTypes.WithValues` | operator/pkg/reconciliation/context.go:55-56 | logr's WithValues: the new logger keeps every earlier attribute, in order, and carries the given key and value as one more attribute at the end |
| `Reconciliation.RequestLogger` | operator/pkg/reconciliation/context.go:52-56 | the request logger is the caller's logger with exactly one attribute added at the end, namespace = the request's namespace |
| `Reconciliation.DatacenterLogger` | operator/pkg/reconciliation/context.go:92-94 | the logger once the datacenter is loaded carries the earlier attributes followed by datacenterName = the record's name and then clusterName = its spec's cluster name |
| `ObjectStore.Read` | operator/pkg/reconciliation/context.go:111-117 | a read succeeds exactly when the store is healthy and holds the key, and then returns the stored record; otherwise it returns the store's fault or NotFound for that key |
| `ObjectStore.Patch` | operator/pkg/reconciliation/context.go:77-83 | every patch call is logged once, for the object's key, with the status difference from the baseline. It applies exactly when the store is healthy and holds the key, and then changes only that record's patched status fields. On failure no record changes. Keys and faults never change |
| `ObjectStore.Store.Get` | operator/pkg/reconciliation/context.go:112-115 | the client's Get returns what `Read` gives for the store's current state |
| `ObjectStore.Store.PatchStatus` | operator/pkg/reconciliation/context.go:79 | the store's new state and the returned error are those of `Patch` on its old state |
| `Reconciliation.RetrieveDatacenter` | operator/pkg/reconciliation/context.go:111-117 | loading through the context's client returns `Read` of the store for the request's namespaced name |
| `Reconciliation.NormalizeTimestamps` | operator/pkg/reconciliation/context.go:68-74 | the in-place sentinel writes leave the context's datacenter equal to `Normalize` of what was loaded |
| `Reconciliation.Bootstrap` | operator/pkg/reconciliation/context.go:76-84 | a zero LastRollingRestart leads to exactly one patch call; a set one leads to no call, no store change and no error. Metadata and spec are kept |
| `Reconciliation.BootstrapRollingRestart` | operator/pkg/reconciliation/context.go:76-84 | the in-place bootstrap gives the datacenter, store, error and calls that `Bootstrap` specifies |
| `Reconciliation.Assemble` | operator/pkg/reconciliation/context.go:40-109 | the first call is always the read. The store keeps its keys and fault condition, and its patch log grows by at most one call with the old log kept as a prefix |
| `Reconciliation.CreateReconciliationContext` | operator/pkg/reconciliation/context.go:40-109 | the new store, the calls made and the outcome are those of `Assemble`. On failure it returns no context and the error unchanged. On success it returns a fresh context whose value is `Assemble`'s and whose client is the store passed in |
| `ContextProperties.NormalizeIdempotent` | operator/pkg/reconciliation/context.go:68-74 | normalizing twice is the same as normalizing once |
| `ContextProperties.MergeFromRoundTrip` | operator/pkg/reconciliation/context.go:77-79 | applying the difference from a baseline to that baseline gives the modified status; an unchanged status gives an empty patch |
| `ContextProperties.RetrievalFailureStopsEverything` | operator/pkg/reconciliation/context.go:62-65 | a failed read returns that error, leaves the store (and its patch log) untouched and makes no other call |
| `ContextProperties.PatchFailureStopsEverything` | operator/pkg/reconciliation/context.go:76-83 | any failed bootstrap patch returns its error: the store's fault, or NotFound when the record is gone. The records are unchanged, one rejected patch call is logged, and neither the client build nor the protocol lookup happens |
| `ContextProperties.ClientBuildFailureSkipsProtocol` | operator/pkg/reconciliation/context.go:86-90 | a failed client build returns that error, is the last call, and the protocol is never looked up |
| `ContextProperties.ProtocolFailureReturnsIt` | operator/pkg/reconciliation/context.go:96-100 | a failed protocol lookup returns that error, after the client build |
| `ContextProperties.NoPatchWhenRollingRestartSet` | operator/pkg/reconciliation/context.go:68-84 | when LastRollingRestart is already set, the store is left exactly as it was, so normalization alone writes nothing, and no patch is issued |
| `ContextProperties.OnePatchWhenRollingRestartZero` | operator/pkg/reconciliation/context.go:76-84 | when LastRollingRestart is zero, exactly one patch follows the read. It targets the requested record and names only LastRollingRestart = now. If the store applies it, the stored LastRollingRestart becomes now and nothing else changes |
| `ContextProperties.StoreKeepsUnpatchedFields` | operator/pkg/reconciliation/context.go:68-84 | no record's metadata, spec, SuperUserUpserted or LastServerNodeStarted is changed in the store, so the sentinels are never persisted |
| `ContextProperties.SuccessfulContext` | operator/pkg/reconciliation/context.go:47-56 | success happens exactly when bootstrap, client build and protocol lookup all succeed. The context then holds the request, scheme and recorder passed in, and the normalized record with LastRollingRestart = now if it was zero. It also holds the built client and the resolved protocol. One logger with attributes namespace, datacenterName, clusterName is both the request logger and the client's log |
| `ContextProperties.AllZeroScenario` | operator/pkg/reconciliation/context.go:40-109 | all three timestamps zero: two sentinels, one applied patch that sets LastRollingRestart only, and an https client. The logger carries the three attributes in order |
| `ContextProperties.BadEncryptionScenario` | operator/pkg/reconciliation/context.go:86-100 | LastRollingRestart set and the protocol lookup failing: the error is returned, the store is unchanged, and the client was built first |
| `ContextProperties.AssembleKeepsWrittenOnceAtMost` | operator/pkg/reconciliation/context.go:76-84 | one reconciliation with a non-zero clock keeps "no applied patch yet, or one and the record's LastRollingRestart is set" |
| `ContextProperties.RunAllKeepsWrittenOnceAtMost` | operator/pkg/reconciliation/context.go:76-84 | that invariant holds after any sequence of reconciliations of the record |
| `ContextProperties.BootstrapWrittenAtMostOnce` | operator/pkg/reconciliation/context.go:76-84 | starting with no applied patch, any sequence of reconciliations leaves the store with at most one applied patch, whatever the store's faults in each run |

## Left out

- Context field `Ctx`: `context.Background()`, cancellation and deadlines are not modelled. No step of this code checks them.
- Fields `Services`, `desiredRackInformation` and `statefulSets` are not modelled. This function never fills them.
- The `Info` and `Error` log lines are not modelled. The logger is only the list of attributes attached with `WithValues`.
- The event recorder and the runtime scheme are opaque values that are passed through.
- `metav1.Now()` is the parameter `now`. The model does not say that it is at least the instant the phase began.
- `httphelper.BuildManagementApiHttpClient` and `httphelper.GetManagementApiProtocol` are uninterpreted functions of the datacenter. `httphelper` is not part of this model. That includes the encrypted-or-plaintext decision and the builder's reads of TLS material through the store client.
- The controller-runtime client internals are not modelled. The merge patch is a field-by-field difference of the three status timestamps, not a JSON merge patch. A patch fails only through the store's configured fault or a missing record.
- The client library decodes the server's reply to a successful patch into `dc`. The model keeps `dc` as the object that was sent. So in `ContextProperties.SuccessfulContext` and `ContextProperties.AllZeroScenario` the context's datacenter after a bootstrap shows the sentinels and the exact `now`. In the program it holds the server's reply: its LastRollingRestart is `now` at one-second precision, and its two repaired timestamps are whatever the reply decodes to, not necessarily the sentinels.
- In the source, `rc.Datacenter` and `dc` point to one object. The model holds the datacenter as a value in the context's field, and updates that field in place.
- Timestamps drop the time zone, the monotonic clock reading and the one-second precision of their serialized form.
- `ContextProperties.BootstrapWrittenAtMostOnce`: it assumes the clock never reads zero. It also assumes that nothing but these reconciliations writes the record between runs.
