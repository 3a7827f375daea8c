/**
 * The object store behind the controller-runtime client, reduced to the two
 * calls this phase makes: a read of one datacenter and a merge patch of its
 * status. Whether a call fails is decided by the store's condition
 * (getFault, patchFault), which the environment sets; a missing record is a
 * NotFound error.
 */
module ObjectStore {
  import opened Wrappers
  import opened ApiTypes

  /** One status patch the store was asked to apply, and whether it applied it. */
  datatype PatchCall = PatchCall(key: NamespacedName, patch: StatusPatch, accepted: bool)

  /** Everything about the store that the model observes. */
  datatype StoreState = StoreState(
    objects: map<NamespacedName, Datacenter>,
    patchLog: seq<PatchCall>,
    getFault: Option<Error>,
    patchFault: Option<Error>)

  /** Every record is stored under its own namespace and name. */
  ghost predicate WellKeyed(st: StoreState) {
    forall k :: k in st.objects ==> KeyOf(st.objects[k]) == k
  }

  /** Client.Get: the stored record, or the store's error. */
  function Read(st: StoreState, key: NamespacedName): (r: Result<Datacenter, Error>)
    ensures r.Ok? <==> st.getFault.None? && key in st.objects
    ensures r.Ok? ==> r.value == st.objects[key]
    ensures st.getFault.Some? ==> r == Err(st.getFault.value)
    ensures st.getFault.None? && key !in st.objects ==> r == Err(NotFound(key))
  {
    if st.getFault.Some? then Err(st.getFault.value)
    else if key !in st.objects then Err(NotFound(key))
    else Ok(st.objects[key])
  }

  datatype PatchOutcome = PatchOutcome(store: StoreState, err: Option<Error>)

  /**
   * Status().Patch(obj, MergeFrom(baseline)): the status difference between
   * the baseline and obj is sent for obj's key; every call is logged, and
   * only a healthy store holding the record applies it.
   */
  function Patch(st: StoreState, obj: Datacenter, baseline: Datacenter): (o: PatchOutcome)
    ensures o.store.objects.Keys == st.objects.Keys
    ensures o.store.getFault == st.getFault && o.store.patchFault == st.patchFault
    ensures |o.store.patchLog| == |st.patchLog| + 1 && o.store.patchLog[..|st.patchLog|] == st.patchLog
    ensures o.store.patchLog[|st.patchLog|] ==
      PatchCall(KeyOf(obj), MergeFrom(baseline.status, obj.status), o.err.None?)
    ensures o.err.None? <==> st.patchFault.None? && KeyOf(obj) in st.objects
    ensures o.err.Some? ==> o.store.objects == st.objects
    ensures o.err.None? ==> o.store.objects == st.objects[KeyOf(obj) :=
      var stored := st.objects[KeyOf(obj)];
      stored.(status := ApplyPatch(stored.status, MergeFrom(baseline.status, obj.status)))]
  {
    var key := KeyOf(obj);
    var p := MergeFrom(baseline.status, obj.status);
    if st.patchFault.Some? then
      PatchOutcome(st.(patchLog := st.patchLog + [PatchCall(key, p, false)]), st.patchFault)
    else if key !in st.objects then
      PatchOutcome(st.(patchLog := st.patchLog + [PatchCall(key, p, false)]), Some(NotFound(key)))
    else
      var stored := st.objects[key];
      var updated := stored.(status := ApplyPatch(stored.status, p));
      PatchOutcome(st.(objects := st.objects[key := updated], patchLog := st.patchLog + [PatchCall(key, p, true)]), None)
  }

  /** The store as the client sees it: records, the log of patch calls, and its current condition. */
  class Store {
    var objects: map<NamespacedName, Datacenter>
    var patchLog: seq<PatchCall>
    var getFault: Option<Error>
    var patchFault: Option<Error>

    function State(): StoreState
      reads this
    {
      StoreState(objects, patchLog, getFault, patchFault)
    }

    /** Client.Get for one datacenter. */
    method Get(key: NamespacedName) returns (r: Result<Datacenter, Error>)
      ensures r == Read(State(), key)
    {
      if getFault.Some? {
        r := Err(getFault.value);
      } else if key !in objects {
        r := Err(NotFound(key));
      } else {
        r := Ok(objects[key]);
      }
    }

    /** Client.Status().Patch(obj, MergeFrom(baseline)). */
    method PatchStatus(obj: Datacenter, baseline: Datacenter) returns (err: Option<Error>)
      modifies this
      ensures State() == Patch(old(State()), obj, baseline).store
      ensures err == Patch(old(State()), obj, baseline).err
    {
      var key := KeyOf(obj);
      var p := MergeFrom(baseline.status, obj.status);
      if patchFault.Some? {
        patchLog := patchLog + [PatchCall(key, p, false)];
        err := patchFault;
      } else if key !in objects {
        patchLog := patchLog + [PatchCall(key, p, false)];
        err := Some(NotFound(key));
      } else {
        var stored := objects[key];
        objects := objects[key := stored.(status := ApplyPatch(stored.status, p))];
        patchLog := patchLog + [PatchCall(key, p, true)];
        err := None;
      }
    }
  }
}
