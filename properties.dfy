/**
 * Properties of context assembly: what normalization does, when the
 * bootstrap patch is issued and what it carries, which calls each failure
 * skips, what a successful context holds, and that over any number of
 * reconciliations LastRollingRestart is written at most once.
 */
module ContextProperties {
  import opened Wrappers
  import opened ApiTypes
  import opened ObjectStore
  import opened Reconciliation

  // ------------------------------------------------------ Normalization

  /** The sentinel is not zero, so a second normalization changes nothing. */
  lemma NormalizeIdempotent(dc: Datacenter)
    ensures Normalize(Normalize(dc)) == Normalize(dc)
  {
  }

  /** Merge-patching a status with its own difference to a target yields the target. */
  lemma MergeFromRoundTrip(base: DatacenterStatus, modified: DatacenterStatus)
    ensures ApplyPatch(base, MergeFrom(base, modified)) == modified
    ensures MergeFrom(base, base) == StatusPatch(None, None, None)
  {
  }

  /** The record the assembly starts from: the stored one, normalized. */
  function Loaded(st: StoreState, req: Request): Datacenter
    requires Read(st, req.namespacedName).Ok?
  {
    Normalize(st.objects[req.namespacedName])
  }

  // ----------------------------------------------------- Failure paths

  /** A failed read returns that error, writes nothing and calls nothing else. */
  lemma RetrievalFailureStopsEverything(req: Request, st: StoreState, now: Time, base: Logger, scheme: Scheme,
                                        rec: EventRecorder, build: ClientBuilder, resolve: ProtocolResolver)
    requires Read(st, req.namespacedName).Err?
    ensures var o := Assemble(req, st, now, base, scheme, rec, build, resolve);
      o.result == Err(Read(st, req.namespacedName).error) && o.store == st && o.calls == [GetDatacenter]
  {
  }

  /**
   * A failed bootstrap patch, whether the store rejects patches or no longer
   * holds the record, returns that error: the records are unchanged, one
   * rejected call is logged, and neither client build nor protocol lookup
   * happens.
   */
  lemma PatchFailureStopsEverything(req: Request, st: StoreState, now: Time, base: Logger, scheme: Scheme,
                                    rec: EventRecorder, build: ClientBuilder, resolve: ProtocolResolver)
    requires Read(st, req.namespacedName).Ok?
    requires Bootstrap(st, Loaded(st, req), now).err.Some?
    ensures var o := Assemble(req, st, now, base, scheme, rec, build, resolve);
      var b := Bootstrap(st, Loaded(st, req), now);
      o.result == Err(b.err.value) &&
      b.err.value == (if st.patchFault.Some? then st.patchFault.value else NotFound(KeyOf(b.dc))) &&
      o.calls == [GetDatacenter, PatchStatus] &&
      BuildHttpClient !in o.calls && ResolveProtocol !in o.calls &&
      o.store.objects == st.objects && |o.store.patchLog| == |st.patchLog| + 1 &&
      !o.store.patchLog[|st.patchLog|].accepted
  {
  }

  /** A failed client build returns that error, and the protocol is not looked up. */
  lemma ClientBuildFailureSkipsProtocol(req: Request, st: StoreState, now: Time, base: Logger, scheme: Scheme,
                                        rec: EventRecorder, build: ClientBuilder, resolve: ProtocolResolver)
    requires Read(st, req.namespacedName).Ok?
    requires Bootstrap(st, Loaded(st, req), now).err.None?
    requires build(Bootstrap(st, Loaded(st, req), now).dc).Err?
    ensures var o := Assemble(req, st, now, base, scheme, rec, build, resolve);
      o.result == Err(build(Bootstrap(st, Loaded(st, req), now).dc).error) &&
      o.calls[|o.calls| - 1] == BuildHttpClient && ResolveProtocol !in o.calls
  {
  }

  /** A failed protocol lookup returns that error, after the client was built. */
  lemma ProtocolFailureReturnsIt(req: Request, st: StoreState, now: Time, base: Logger, scheme: Scheme,
                                 rec: EventRecorder, build: ClientBuilder, resolve: ProtocolResolver)
    requires Read(st, req.namespacedName).Ok?
    requires Bootstrap(st, Loaded(st, req), now).err.None?
    requires build(Bootstrap(st, Loaded(st, req), now).dc).Ok?
    requires resolve(Bootstrap(st, Loaded(st, req), now).dc).Err?
    ensures var o := Assemble(req, st, now, base, scheme, rec, build, resolve);
      o.result == Err(resolve(Bootstrap(st, Loaded(st, req), now).dc).error) &&
      o.calls[|o.calls| - 2..] == [BuildHttpClient, ResolveProtocol]
  {
  }

  // ------------------------------------------------------- Bootstrap

  /** A set LastRollingRestart means no patch: the store is left exactly as it was. */
  lemma NoPatchWhenRollingRestartSet(req: Request, st: StoreState, now: Time, base: Logger, scheme: Scheme,
                                     rec: EventRecorder, build: ClientBuilder, resolve: ProtocolResolver)
    requires Read(st, req.namespacedName).Ok?
    requires !IsZero(st.objects[req.namespacedName].status.lastRollingRestart)
    ensures var o := Assemble(req, st, now, base, scheme, rec, build, resolve);
      o.store == st && PatchStatus !in o.calls
  {
  }

  /**
   * A zero LastRollingRestart means exactly one patch, for the requested
   * record, naming LastRollingRestart alone (the sentinels were already in
   * the baseline); when the store applies it, the stored LastRollingRestart
   * becomes now and nothing else in the store changes.
   */
  lemma OnePatchWhenRollingRestartZero(req: Request, st: StoreState, now: Time, base: Logger, scheme: Scheme,
                                       rec: EventRecorder, build: ClientBuilder, resolve: ProtocolResolver)
    requires WellKeyed(st) && Read(st, req.namespacedName).Ok?
    requires IsZero(st.objects[req.namespacedName].status.lastRollingRestart)
    requires !IsZero(now)
    ensures var o := Assemble(req, st, now, base, scheme, rec, build, resolve);
      var key := req.namespacedName;
      var stored := st.objects[key];
      o.calls[..2] == [GetDatacenter, PatchStatus] && multiset(o.calls)[PatchStatus] == 1 &&
      o.store.patchLog == st.patchLog + [PatchCall(key, StatusPatch(None, None, Some(now)), st.patchFault.None?)] &&
      (st.patchFault.None? ==>
        o.store.objects == st.objects[key := stored.(status := stored.status.(lastRollingRestart := now))])
  {
  }

  /** The assembly never writes the sentinels, nor anything else but LastRollingRestart, to the store. */
  lemma StoreKeepsUnpatchedFields(req: Request, st: StoreState, now: Time, base: Logger, scheme: Scheme,
                                  rec: EventRecorder, build: ClientBuilder, resolve: ProtocolResolver, k: NamespacedName)
    requires k in st.objects
    ensures var o := Assemble(req, st, now, base, scheme, rec, build, resolve);
      var before := st.objects[k];
      var after := o.store.objects[k];
      after.meta == before.meta && after.spec == before.spec &&
      after.status.superUserUpserted == before.status.superUserUpserted &&
      after.status.lastServerNodeStarted == before.status.lastServerNodeStarted
  {
  }

  // --------------------------------------------------------- Success

  /**
   * Assembly succeeds exactly when read, bootstrap, client build and
   * protocol lookup all succeed; the context then holds the normalized
   * (and possibly bootstrapped) record, the inputs passed in, the built
   * client and resolved protocol, and one logger carrying namespace,
   * datacenterName and clusterName after the caller's attributes.
   */
  lemma SuccessfulContext(req: Request, st: StoreState, now: Time, base: Logger, scheme: Scheme,
                          rec: EventRecorder, build: ClientBuilder, resolve: ProtocolResolver)
    requires Read(st, req.namespacedName).Ok?
    ensures var o := Assemble(req, st, now, base, scheme, rec, build, resolve);
      var b := Bootstrap(st, Loaded(st, req), now);
      (o.result.Ok? <==> b.err.None? && build(b.dc).Ok? && resolve(b.dc).Ok?) &&
      (o.result.Ok? ==>
        var c := o.result.value;
        var stored := st.objects[req.namespacedName];
        c.request == req && c.scheme == scheme && c.recorder == rec &&
        c.datacenter == (if IsZero(stored.status.lastRollingRestart)
                         then Loaded(st, req).(status := Loaded(st, req).status.(lastRollingRestart := now))
                         else Loaded(st, req)) &&
        c.nodeMgmtClient.client == build(b.dc).value &&
        c.nodeMgmtClient.protocol == resolve(b.dc).value &&
        c.nodeMgmtClient.log == c.reqLogger &&
        c.reqLogger.attrs == base.attrs + [Attr("namespace", req.namespacedName.namespace),
                                           Attr("datacenterName", stored.meta.name),
                                           Attr("clusterName", stored.spec.clusterName)] &&
        o.calls[|o.calls| - 2..] == [BuildHttpClient, ResolveProtocol])
  {
  }

  /**
   * A record with all three timestamps zero, a healthy store and helpers
   * that succeed: two sentinels, one accepted patch, and a context whose
   * client uses https.
   */
  lemma AllZeroScenario(now: Time)
    requires !IsZero(now)
    ensures
      var key := NamespacedName("ns", "dc1");
      var zero := DatacenterStatus(ZeroTime, ZeroTime, ZeroTime);
      var dc := Datacenter(ObjectMeta("ns", "dc1"), DatacenterSpec("cluster1"), zero);
      var st := StoreState(map[key := dc], [], None, None);
      var o := Assemble(Request(key), st, now, Logger([]), Scheme(0), EventRecorder(0),
                        d => Ok(HttpClient(1)), d => Ok("https"));
      o.result.Ok? &&
      o.result.value.datacenter.status == DatacenterStatus(Sentinel(), Sentinel(), now) &&
      o.result.value.nodeMgmtClient.protocol == "https" &&
      o.store.patchLog == [PatchCall(key, StatusPatch(None, None, Some(now)), true)] &&
      o.store.objects[key].status == DatacenterStatus(ZeroTime, ZeroTime, now) &&
      o.result.value.reqLogger.attrs ==
        [Attr("namespace", "ns"), Attr("datacenterName", "dc1"), Attr("clusterName", "cluster1")]
  {
  }

  /**
   * A record whose LastRollingRestart is set and whose encryption settings
   * the resolver rejects: no patch, the configuration error is returned, and
   * the HTTP client has already been built by then.
   */
  lemma BadEncryptionScenario(now: Time)
    ensures
      var key := NamespacedName("ns", "dc1");
      var dc := Datacenter(ObjectMeta("ns", "dc1"), DatacenterSpec("cluster1"),
                           DatacenterStatus(ZeroTime, ZeroTime, Unix(5, 0)));
      var st := StoreState(map[key := dc], [], None, None);
      var o := Assemble(Request(key), st, now, Logger([]), Scheme(0), EventRecorder(0),
                        d => Ok(HttpClient(1)), d => Err(Configuration("conflicting encryption settings")));
      o.result == Err(Configuration("conflicting encryption settings")) && o.store == st &&
      o.calls == [GetDatacenter, BuildHttpClient, ResolveProtocol]
  {
  }

  // ------------------------------------- Many reconciliations of one record

  /** The store's condition during one reconciliation, and the clock's reading. */
  datatype Run = Run(now: Time, getFault: Option<Error>, patchFault: Option<Error>)

  /** The store after the given reconciliations of the same request, one after another. */
  function RunAll(req: Request, st: StoreState, runs: seq<Run>, base: Logger, scheme: Scheme,
                  rec: EventRecorder, build: ClientBuilder, resolve: ProtocolResolver): StoreState
    decreases |runs|
  {
    if runs == [] then st
    else
      var r := runs[0];
      var o := Assemble(req, st.(getFault := r.getFault, patchFault := r.patchFault), r.now,
                        base, scheme, rec, build, resolve);
      RunAll(req, o.store, runs[1..], base, scheme, rec, build, resolve)
  }

  /** How many logged patch calls the store applied. */
  function AcceptedPatches(log: seq<PatchCall>): nat
  {
    if log == [] then 0
    else AcceptedPatches(log[..|log| - 1]) + (if log[|log| - 1].accepted then 1 else 0)
  }

  /** No patch applied yet, or exactly one, and then the record's LastRollingRestart is set. */
  ghost predicate WrittenOnceAtMost(st: StoreState, key: NamespacedName) {
    WellKeyed(st) &&
    (AcceptedPatches(st.patchLog) == 0 ||
     (AcceptedPatches(st.patchLog) == 1 && key in st.objects &&
      !IsZero(st.objects[key].status.lastRollingRestart)))
  }

  /** One reconciliation, with a non-zero clock, keeps WrittenOnceAtMost. */
  lemma AssembleKeepsWrittenOnceAtMost(req: Request, st: StoreState, now: Time, base: Logger, scheme: Scheme,
                                       rec: EventRecorder, build: ClientBuilder, resolve: ProtocolResolver)
    requires WrittenOnceAtMost(st, req.namespacedName) && !IsZero(now)
    ensures WrittenOnceAtMost(Assemble(req, st, now, base, scheme, rec, build, resolve).store, req.namespacedName)
  {
  }

  lemma {:induction false} RunAllKeepsWrittenOnceAtMost(req: Request, st: StoreState, runs: seq<Run>, base: Logger,
                                                        scheme: Scheme, rec: EventRecorder,
                                                        build: ClientBuilder, resolve: ProtocolResolver)
    requires WrittenOnceAtMost(st, req.namespacedName)
    requires forall i :: 0 <= i < |runs| ==> !IsZero(runs[i].now)
    ensures WrittenOnceAtMost(RunAll(req, st, runs, base, scheme, rec, build, resolve), req.namespacedName)
    decreases |runs|
  {
    if runs != [] {
      var r := runs[0];
      var st1 := st.(getFault := r.getFault, patchFault := r.patchFault);
      assert WrittenOnceAtMost(st1, req.namespacedName);
      AssembleKeepsWrittenOnceAtMost(req, st1, r.now, base, scheme, rec, build, resolve);
      RunAllKeepsWrittenOnceAtMost(req, Assemble(req, st1, r.now, base, scheme, rec, build, resolve).store,
                                   runs[1..], base, scheme, rec, build, resolve);
    }
  }

  /**
   * Over any sequence of reconciliations of one record, whatever the store's
   * condition in each and as long as the clock never reads zero, the store
   * applies at most one bootstrap patch: LastRollingRestart is written once
   * at most.
   */
  lemma {:induction false} BootstrapWrittenAtMostOnce(req: Request, st: StoreState, runs: seq<Run>, base: Logger,
                                                      scheme: Scheme, rec: EventRecorder,
                                                      build: ClientBuilder, resolve: ProtocolResolver)
    requires WellKeyed(st) && AcceptedPatches(st.patchLog) == 0
    requires forall i :: 0 <= i < |runs| ==> !IsZero(runs[i].now)
    ensures AcceptedPatches(RunAll(req, st, runs, base, scheme, rec, build, resolve).patchLog) <= 1
  {
    RunAllKeepsWrittenOnceAtMost(req, st, runs, base, scheme, rec, build, resolve);
  }
}
