/**
 * Assembly of the reconciliation context: load the datacenter, repair its
 * zero timestamps in memory, bootstrap LastRollingRestart with one status
 * patch, build the management-API client, enrich the logger and resolve the
 * management-API protocol. Every failure stops the assembly and is returned
 * unchanged.
 *
 * Assemble is the specification, a function of the store's state and the
 * inputs; CreateReconciliationContext is the step-by-step procedure proved
 * against it.
 */
module Reconciliation {
  import opened Wrappers
  import opened ApiTypes
  import opened ObjectStore

  /** The external calls the assembly makes, in the order it makes them. */
  datatype Call = GetDatacenter | PatchStatus | BuildHttpClient | ResolveProtocol

  /** httphelper.BuildManagementApiHttpClient, seen as an uninterpreted function that may fail. */
  type ClientBuilder = Datacenter -> Result<HttpClient, Error>

  /** httphelper.GetManagementApiProtocol, seen as an uninterpreted function that may fail. */
  type ProtocolResolver = Datacenter -> Result<Protocol, Error>

  /** The value of a fully assembled context (the store client reference aside). */
  datatype Context = Context(
    request: Request,
    scheme: Scheme,
    recorder: EventRecorder,
    datacenter: Datacenter,
    nodeMgmtClient: NodeMgmtClient,
    reqLogger: Logger)

  /** What one assembly returns, what the store looks like afterwards, and the calls it made. */
  datatype Outcome = Outcome(result: Result<Context, Error>, store: StoreState, calls: seq<Call>)

  /** The result of the LastRollingRestart bootstrap. */
  datatype Bootstrapped = Bootstrapped(dc: Datacenter, store: StoreState, calls: seq<Call>, err: Option<Error>)

  /**
   * If LastRollingRestart is zero, set it to now and patch the status with
   * the record as it was before that assignment as the baseline; otherwise
   * leave record and store alone.
   */
  function Bootstrap(st: StoreState, dc: Datacenter, now: Time): (b: Bootstrapped)
    ensures IsZero(dc.status.lastRollingRestart) ==> b.calls == [PatchStatus]
    ensures !IsZero(dc.status.lastRollingRestart) ==> b.calls == [] && b.store == st && b.dc == dc && b.err.None?
    ensures b.dc.meta == dc.meta && b.dc.spec == dc.spec
  {
    if IsZero(dc.status.lastRollingRestart) then
      var patched := dc.(status := dc.status.(lastRollingRestart := now));
      var p := Patch(st, patched, dc);
      Bootstrapped(patched, p.store, [PatchStatus], p.err)
    else
      Bootstrapped(dc, st, [], None)
  }

  /** The request-scoped logger: the caller's logger with the namespace attached. */
  function RequestLogger(base: Logger, req: Request): (r: Logger)
    ensures |r.attrs| == |base.attrs| + 1 && r.attrs[..|base.attrs|] == base.attrs
    ensures r.attrs[|base.attrs|] == Attr("namespace", req.namespacedName.namespace)
  {
    WithValues(base, "namespace", req.namespacedName.namespace)
  }

  /** The logger once the datacenter is known: datacenter name, then cluster name. */
  function DatacenterLogger(l: Logger, dc: Datacenter): (r: Logger)
    ensures r.attrs == l.attrs + [Attr("datacenterName", dc.meta.name), Attr("clusterName", dc.spec.clusterName)]
  {
    WithValues(WithValues(l, "datacenterName", dc.meta.name), "clusterName", dc.spec.clusterName)
  }

  /** The specification of CreateReconciliationContext. */
  function Assemble(req: Request, st: StoreState, now: Time, base: Logger, scheme: Scheme,
                    rec: EventRecorder, build: ClientBuilder, resolve: ProtocolResolver): (o: Outcome)
    ensures o.store.objects.Keys == st.objects.Keys
    ensures o.store.getFault == st.getFault && o.store.patchFault == st.patchFault
    ensures |st.patchLog| <= |o.store.patchLog| <= |st.patchLog| + 1
    ensures o.store.patchLog[..|st.patchLog|] == st.patchLog
    ensures |o.calls| >= 1 && o.calls[0] == GetDatacenter
  {
    match Read(st, req.namespacedName)
    case Err(e) => Outcome(Err(e), st, [GetDatacenter])
    case Ok(loaded) =>
      var b := Bootstrap(st, Normalize(loaded), now);
      var calls := [GetDatacenter] + b.calls;
      if b.err.Some? then
        Outcome(Err(b.err.value), b.store, calls)
      else
        match build(b.dc)
        case Err(e) => Outcome(Err(e), b.store, calls + [BuildHttpClient])
        case Ok(http) =>
          var log := DatacenterLogger(RequestLogger(base, req), b.dc);
          match resolve(b.dc)
          case Err(e) => Outcome(Err(e), b.store, calls + [BuildHttpClient, ResolveProtocol])
          case Ok(protocol) =>
            var ctx := Context(req, scheme, rec, b.dc, NodeMgmtClient(http, log, protocol), log);
            Outcome(Ok(ctx), b.store, calls + [BuildHttpClient, ResolveProtocol])
  }

  /** The context handed to the computation of reconciliation actions. */
  class ReconciliationContext {
    var request: Request
    var client: Store?
    var scheme: Scheme
    var datacenter: Datacenter
    var nodeMgmtClient: NodeMgmtClient
    var recorder: EventRecorder
    var reqLogger: Logger

    function Value(): Context
      reads this
    {
      Context(request, scheme, recorder, datacenter, nodeMgmtClient, reqLogger)
    }
  }

  /** Load the datacenter named by the request through the context's store client. */
  method RetrieveDatacenter(rc: ReconciliationContext, request: Request) returns (r: Result<Datacenter, Error>)
    requires rc.client != null
    ensures r == Read(rc.client.State(), request.namespacedName)
  {
    r := rc.client.Get(request.namespacedName);
  }

  /** Replace zero SuperUserUpserted and LastServerNodeStarted of the context's datacenter with the sentinel. */
  method NormalizeTimestamps(rc: ReconciliationContext)
    modifies rc`datacenter
    ensures rc.datacenter == Normalize(old(rc.datacenter))
  {
    if IsZero(rc.datacenter.status.superUserUpserted) {
      rc.datacenter := rc.datacenter.(status := rc.datacenter.status.(superUserUpserted := Sentinel()));
    }
    if IsZero(rc.datacenter.status.lastServerNodeStarted) {
      rc.datacenter := rc.datacenter.(status := rc.datacenter.status.(lastServerNodeStarted := Sentinel()));
    }
  }

  /**
   * Seed LastRollingRestart with now when it is zero, through one status
   * patch whose baseline is a copy of the datacenter taken just before.
   */
  method BootstrapRollingRestart(rc: ReconciliationContext, cli: Store, now: Time)
    returns (err: Option<Error>, ghost calls: seq<Call>)
    modifies rc`datacenter, cli
    ensures var b := Bootstrap(old(cli.State()), old(rc.datacenter), now);
      rc.datacenter == b.dc && cli.State() == b.store && err == b.err && calls == b.calls
  {
    calls := [];
    err := None;
    if IsZero(rc.datacenter.status.lastRollingRestart) {
      var baseline := rc.datacenter;
      rc.datacenter := rc.datacenter.(status := rc.datacenter.status.(lastRollingRestart := now));
      calls := [PatchStatus];
      err := cli.PatchStatus(rc.datacenter, baseline);
    }
  }

  /**
   * Gather everything the reconciliation actions need into a new context, or
   * return the first error met. `now` is the clock's reading for the bootstrap.
   */
  method CreateReconciliationContext(req: Request, cli: Store, scheme: Scheme, rec: EventRecorder,
                                     reqLogger: Logger, now: Time,
                                     build: ClientBuilder, resolve: ProtocolResolver)
    returns (rc: ReconciliationContext?, err: Option<Error>, ghost calls: seq<Call>)
    modifies cli
    ensures var o := Assemble(req, old(cli.State()), now, reqLogger, scheme, rec, build, resolve);
      cli.State() == o.store && calls == o.calls &&
      (o.result.Err? ==> rc == null && err == Some(o.result.error)) &&
      (o.result.Ok? ==> rc != null && fresh(rc) && err.None? && rc.Value() == o.result.value && rc.client == cli)
  {
    var ctx := new ReconciliationContext;
    ctx.request := req;
    ctx.client := cli;
    ctx.scheme := scheme;
    ctx.recorder := rec;
    ctx.reqLogger := reqLogger;
    ctx.reqLogger := WithValues(ctx.reqLogger, "namespace", req.namespacedName.namespace);

    calls := [GetDatacenter];
    var got := RetrieveDatacenter(ctx, req);
    if got.Err? {
      return null, Some(got.error), calls;
    }
    ctx.datacenter := got.value;

    // zero timestamps are replaced in memory only
    NormalizeTimestamps(ctx);

    var patchErr, patchCalls := BootstrapRollingRestart(ctx, cli, now);
    calls := calls + patchCalls;
    if patchErr.Some? {
      return null, patchErr, calls;
    }

    calls := calls + [BuildHttpClient];
    var httpClient := build(ctx.datacenter);
    if httpClient.Err? {
      return null, Some(httpClient.error), calls;
    }

    ctx.reqLogger := WithValues(ctx.reqLogger, "datacenterName", ctx.datacenter.meta.name);
    ctx.reqLogger := WithValues(ctx.reqLogger, "clusterName", ctx.datacenter.spec.clusterName);

    calls := calls + [ResolveProtocol];
    var protocol := resolve(ctx.datacenter);
    if protocol.Err? {
      return null, Some(protocol.error), calls;
    }

    ctx.nodeMgmtClient := NodeMgmtClient(httpClient.value, ctx.reqLogger, protocol.value);
    return ctx, None, calls;
  }
}
