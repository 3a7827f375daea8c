/**
 * The values the reconciliation context is built from: timestamps, the
 * CassandraDatacenter record (only the fields this phase reads or writes),
 * status merge patches, structured-logger attributes and the opaque handles
 * passed through to the context.
 */
module ApiTypes {
  import opened Wrappers

  // ---------------------------------------------------------------- Time

  /**
   * A Kubernetes timestamp, held as Go's time.Time holds it: whole seconds
   * since January 1, year 1, 00:00:00 UTC, and nanoseconds within the second.
   */
  datatype Time = Time(sec: int, nsec: int)

  /** Seconds from January 1, year 1 to the Unix epoch (Go's unixToInternal). */
  const UnixToInternal: int := 62135596800

  /** The zero value of a timestamp, January 1, year 1, 00:00:00 UTC. */
  const ZeroTime: Time := Time(0, 0)

  /** Go's Time.IsZero: true only for the zero instant. */
  predicate IsZero(t: Time): (b: bool)
    ensures b <==> t == ZeroTime
  {
    t.sec == 0 && t.nsec == 0
  }

  /** metav1.Unix(sec, nsec) for a nanosecond count within one second. */
  function Unix(sec: int, nsec: int): (t: Time)
    requires 0 <= nsec < 1_000_000_000
    ensures t.sec - UnixToInternal == sec && t.nsec == nsec
  {
    Time(sec + UnixToInternal, nsec)
  }

  /** The instant one second past the Unix epoch that replaces zero timestamps. */
  function Sentinel(): (t: Time)
    ensures !IsZero(t)
  {
    Unix(1, 0)
  }

  // ---------------------------------------------------------- Identities

  datatype NamespacedName = NamespacedName(namespace: string, name: string)

  /** A reconcile.Request: the identity of the object to reconcile. */
  datatype Request = Request(namespacedName: NamespacedName)

  // ---------------------------------------------------------- Datacenter

  datatype ObjectMeta = ObjectMeta(namespace: string, name: string)

  datatype DatacenterSpec = DatacenterSpec(clusterName: string)

  datatype DatacenterStatus = DatacenterStatus(
    superUserUpserted: Time,
    lastServerNodeStarted: Time,
    lastRollingRestart: Time)

  /** The CassandraDatacenter record, reduced to what this phase touches. */
  datatype Datacenter = Datacenter(meta: ObjectMeta, spec: DatacenterSpec, status: DatacenterStatus)

  /** The store key of a record: its namespace and name. */
  function KeyOf(dc: Datacenter): NamespacedName {
    NamespacedName(dc.meta.namespace, dc.meta.name)
  }

  /**
   * The in-memory workaround for zero timestamps: a zero SuperUserUpserted or
   * LastServerNodeStarted becomes the sentinel; everything else is kept.
   */
  function Normalize(dc: Datacenter): (r: Datacenter)
    ensures !IsZero(r.status.superUserUpserted) && !IsZero(r.status.lastServerNodeStarted)
    ensures IsZero(dc.status.superUserUpserted) ==> r.status.superUserUpserted == Sentinel()
    ensures !IsZero(dc.status.superUserUpserted) ==> r.status.superUserUpserted == dc.status.superUserUpserted
    ensures IsZero(dc.status.lastServerNodeStarted) ==> r.status.lastServerNodeStarted == Sentinel()
    ensures !IsZero(dc.status.lastServerNodeStarted) ==> r.status.lastServerNodeStarted == dc.status.lastServerNodeStarted
    ensures r.meta == dc.meta && r.spec == dc.spec
    ensures r.status.lastRollingRestart == dc.status.lastRollingRestart
  {
    var s := dc.status;
    var s1 := if IsZero(s.superUserUpserted) then s.(superUserUpserted := Sentinel()) else s;
    var s2 := if IsZero(s1.lastServerNodeStarted) then s1.(lastServerNodeStarted := Sentinel()) else s1;
    dc.(status := s2)
  }

  // ------------------------------------------------------ Status patches

  /** A merge patch of the status: the fields it sets, and to what. */
  datatype StatusPatch = StatusPatch(
    superUserUpserted: Option<Time>,
    lastServerNodeStarted: Option<Time>,
    lastRollingRestart: Option<Time>)

  function FieldDiff(base: Time, modified: Time): Option<Time> {
    if base == modified then None else Some(modified)
  }

  /** The patch that turns the baseline status into the modified one (client.MergeFrom). */
  function MergeFrom(base: DatacenterStatus, modified: DatacenterStatus): (p: StatusPatch)
    ensures p.superUserUpserted.None? <==> base.superUserUpserted == modified.superUserUpserted
    ensures p.lastServerNodeStarted.None? <==> base.lastServerNodeStarted == modified.lastServerNodeStarted
    ensures p.lastRollingRestart.None? <==> base.lastRollingRestart == modified.lastRollingRestart
  {
    StatusPatch(
      FieldDiff(base.superUserUpserted, modified.superUserUpserted),
      FieldDiff(base.lastServerNodeStarted, modified.lastServerNodeStarted),
      FieldDiff(base.lastRollingRestart, modified.lastRollingRestart))
  }

  function Set(current: Time, update: Option<Time>): Time {
    if update.Some? then update.value else current
  }

  /** The store's side of a merge patch: the fields the patch names are overwritten, the rest kept. */
  function ApplyPatch(s: DatacenterStatus, p: StatusPatch): (r: DatacenterStatus)
    ensures p.superUserUpserted.Some? ==> r.superUserUpserted == p.superUserUpserted.value
    ensures p.superUserUpserted.None? ==> r.superUserUpserted == s.superUserUpserted
    ensures p.lastServerNodeStarted.Some? ==> r.lastServerNodeStarted == p.lastServerNodeStarted.value
    ensures p.lastServerNodeStarted.None? ==> r.lastServerNodeStarted == s.lastServerNodeStarted
    ensures p.lastRollingRestart.Some? ==> r.lastRollingRestart == p.lastRollingRestart.value
    ensures p.lastRollingRestart.None? ==> r.lastRollingRestart == s.lastRollingRestart
  {
    DatacenterStatus(
      Set(s.superUserUpserted, p.superUserUpserted),
      Set(s.lastServerNodeStarted, p.lastServerNodeStarted),
      Set(s.lastRollingRestart, p.lastRollingRestart))
  }

  // ---------------------------------------------------------------- Errors

  /**
   * Errors reported by the store and by the management-API helpers; they are
   * passed on unchanged. The store produces NotFound itself; the other
   * variants only label the faults the environment configures and are never
   * inspected.
   */
  datatype Error =
    | NotFound(key: NamespacedName)
    | Conflict(reason: string)
    | Transport(reason: string)
    | Configuration(reason: string)
    | ClientConstruction(reason: string)

  // ------------------------------------------------ Logger and handles

  datatype Attr = Attr(key: string, value: string)

  /** A structured logger, seen only through the attributes attached to it. */
  datatype Logger = Logger(attrs: seq<Attr>)

  /** logr's WithValues: a logger that carries one more attribute. */
  function WithValues(l: Logger, key: string, value: string): (r: Logger)
    ensures |r.attrs| == |l.attrs| + 1
    ensures r.attrs[..|l.attrs|] == l.attrs
    ensures r.attrs[|l.attrs|] == Attr(key, value)
  {
    Logger(l.attrs + [Attr(key, value)])
  }

  /** Opaque handles the context carries but this phase never looks into. */
  datatype Scheme = Scheme(id: nat)
  datatype EventRecorder = EventRecorder(id: nat)
  datatype HttpClient = HttpClient(id: nat)

  /** The management-API protocol name, as GetManagementApiProtocol returns it ("http" or "https"). */
  type Protocol = string

  /** httphelper.NodeMgmtClient: an HTTP client bound to a logger and a protocol. */
  datatype NodeMgmtClient = NodeMgmtClient(client: HttpClient, log: Logger, protocol: Protocol)
}
