/** The apply policy for changes to the derived-record collection: an add is
    a create (an update when the record already exists), an update is an
    update, a delete is a delete, and a failed update or delete schedules one
    recomputation after a fixed delay. The API server is a map from object
    key to secret; `Faults` says which verbs it rejects with a server-side
    error in this step. */
module Events {
  import opened Wrappers
  import opened Kube

  /** Seconds before a recomputation is triggered after a failed apply. */
  const RecomputeDelay: nat := 15

  type Store = map<NamespacedName, Secret>

  datatype EventKind = EventAdd | EventUpdate | EventDelete

  /** A collection event and the record it concerns. */
  datatype Event = Event(kind: EventKind, record: Secret)

  datatype ApiError = AlreadyExists | NotFound | ServerError

  datatype Faults = Faults(create: bool, update: bool, delete: bool)

  const NoFaults := Faults(false, false, false)

  datatype ApiCall =
    | CreateCall(record: Secret)
    | UpdateCall(record: Secret)
    | DeleteCall(key: NamespacedName)

  datatype ApiOutcome = ApiOutcome(store: Store, err: Option<ApiError>)

  /** The effect of one event: the store afterwards, the API calls made in
      order, and the delays of the recomputations scheduled. */
  datatype Effect = Effect(store: Store, calls: seq<ApiCall>, recomputeAfter: seq<nat>)

  function Create(store: Store, s: Secret, fail: bool): (o: ApiOutcome)
    ensures o.err.None? <==> !fail && KeyOf(s) !in store
    ensures o.err.None? ==> o.store == store[KeyOf(s) := s]
    ensures o.err.Some? ==> o.store == store
    ensures o.err == Some(AlreadyExists) <==> !fail && KeyOf(s) in store
  {
    if fail then ApiOutcome(store, Some(ServerError))
    else if KeyOf(s) in store then ApiOutcome(store, Some(AlreadyExists))
    else ApiOutcome(store[KeyOf(s) := s], None)
  }

  function Update(store: Store, s: Secret, fail: bool): (o: ApiOutcome)
    ensures o.err.None? <==> !fail && KeyOf(s) in store
    ensures o.err.None? ==> o.store == store[KeyOf(s) := s]
    ensures o.err.Some? ==> o.store == store
  {
    if fail then ApiOutcome(store, Some(ServerError))
    else if KeyOf(s) !in store then ApiOutcome(store, Some(NotFound))
    else ApiOutcome(store[KeyOf(s) := s], None)
  }

  function Delete(store: Store, key: NamespacedName, fail: bool): (o: ApiOutcome)
    ensures o.err.None? <==> !fail && key in store
    ensures o.err.None? ==> o.store == store - {key}
    ensures o.err.Some? ==> o.store == store
  {
    if fail then ApiOutcome(store, Some(ServerError))
    else if key !in store then ApiOutcome(store, Some(NotFound))
    else ApiOutcome(store - {key}, None)
  }

  /** One failed apply schedules one recomputation; success schedules none. */
  function RetryOnError(o: ApiOutcome): (delays: seq<nat>)
    ensures o.err.Some? ==> delays == [RecomputeDelay]
    ensures o.err.None? ==> delays == []
  {
    if o.err.Some? then [RecomputeDelay] else []
  }

  /** The registered event handler, as a step over the store. */
  function Handle(store: Store, ev: Event, faults: Faults): (e: Effect)
    ensures |e.recomputeAfter| <= 1
    ensures forall d :: d in e.recomputeAfter ==> d == RecomputeDelay
    // Nothing but the event's own record changes.
    ensures forall k :: k != KeyOf(ev.record) ==>
      (k in e.store <==> k in store) && (k in store ==> e.store[k] == store[k])
    // Add: create; if it already exists, update; any other create failure is dropped.
    ensures ev.kind == EventAdd && !faults.create && KeyOf(ev.record) !in store ==>
      e == Effect(store[KeyOf(ev.record) := ev.record], [CreateCall(ev.record)], [])
    ensures ev.kind == EventAdd && !faults.create && KeyOf(ev.record) in store ==>
      e.calls == [CreateCall(ev.record), UpdateCall(ev.record)]
      && (faults.update ==> e.store == store && e.recomputeAfter == [RecomputeDelay])
      && (!faults.update ==> e.store == store[KeyOf(ev.record) := ev.record] && e.recomputeAfter == [])
    ensures ev.kind == EventAdd && faults.create ==>
      e == Effect(store, [CreateCall(ev.record)], [])
    // Update: one update; a recompute exactly when it fails.
    ensures ev.kind == EventUpdate ==> e.calls == [UpdateCall(ev.record)]
    ensures ev.kind == EventUpdate ==>
      (e.recomputeAfter == [RecomputeDelay] <==> faults.update || KeyOf(ev.record) !in store)
    ensures ev.kind == EventUpdate && !faults.update && KeyOf(ev.record) in store ==>
      e.store == store[KeyOf(ev.record) := ev.record]
    // A failed update or delete leaves the store, the record included, as it was.
    ensures (ev.kind == EventUpdate || ev.kind == EventDelete) && e.recomputeAfter != [] ==> e.store == store
    // Delete: one delete of the record's key; a recompute exactly when it fails.
    ensures ev.kind == EventDelete ==> e.calls == [DeleteCall(KeyOf(ev.record))]
    ensures ev.kind == EventDelete ==>
      (e.recomputeAfter == [RecomputeDelay] <==> faults.delete || KeyOf(ev.record) !in store)
    ensures ev.kind == EventDelete && e.recomputeAfter == [] ==> e.store == store - {KeyOf(ev.record)}
  {
    var created :=
      if ev.kind == EventAdd then Some(Create(store, ev.record, faults.create)) else None;
    var afterCreate := if created.Some? then created.value.store else store;
    var createCalls := if created.Some? then [CreateCall(ev.record)] else [];
    var tryUpdate := created.Some? && created.value.err == Some(AlreadyExists);
    if ev.kind == EventUpdate || tryUpdate then
      var o := Update(afterCreate, ev.record, faults.update);
      Effect(o.store, createCalls + [UpdateCall(ev.record)], RetryOnError(o))
    else if ev.kind == EventDelete then
      var o := Delete(afterCreate, KeyOf(ev.record), faults.delete);
      Effect(o.store, createCalls + [DeleteCall(KeyOf(ev.record))], RetryOnError(o))
    else
      Effect(afterCreate, createCalls, [])
  }

  /** Without server errors an add always leaves the record in the store,
      whether or not it was there before. */
  lemma AddConverges(store: Store, s: Secret)
    ensures var e := Handle(store, Event(EventAdd, s), NoFaults);
      KeyOf(s) in e.store && e.store[KeyOf(s)] == s && e.recomputeAfter == []
  {
  }

  /** Delivering the same add twice leaves the store as delivering it once. */
  lemma AddIdempotent(store: Store, s: Secret)
    ensures var once := Handle(store, Event(EventAdd, s), NoFaults).store;
      Handle(once, Event(EventAdd, s), NoFaults).store == once
  {
  }

  /** Deleting twice removes the record once; the second delete finds
      nothing and, since not-found is not told apart from other failures,
      schedules a recomputation. */
  lemma SecondDeleteSchedulesRecompute(store: Store, s: Secret)
    requires KeyOf(s) in store
    ensures var first := Handle(store, Event(EventDelete, s), NoFaults);
      var second := Handle(first.store, Event(EventDelete, s), NoFaults);
      first.recomputeAfter == [] && KeyOf(s) !in first.store
      && second.store == first.store && second.recomputeAfter == [RecomputeDelay]
  {
  }

  /** A failed create that is not an already-exists conflict is dropped:
      the store is unchanged and nothing is rescheduled, so the record stays
      missing until another event arrives. */
  lemma FailedCreateIsDropped(store: Store, s: Secret, faults: Faults)
    requires faults.create
    ensures var e := Handle(store, Event(EventAdd, s), faults);
      KeyOf(s) !in store ==> KeyOf(s) !in e.store && e.recomputeAfter == []
  {
  }
}
