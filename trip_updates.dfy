/** The trip-update flattener (`parse_tripupdates`): one row per stop-time
    update of every entity that carries a trip update, in entity order and
    then stop-time-update order, all stamped with one snapshot string. */
module TripUpdates {
  import opened Wrappers
  import opened Feed

  datatype TripUpdateRow = TripUpdateRow(
    snapshotUtc: string,
    entityId: string,
    routeId: Option<string>,
    tripId: Option<string>,
    startDate: Option<string>,
    stopId: Option<string>,
    arrivalDelay: Option<Int32>,
    departureDelay: Option<Int32>,
    vehicleId: Option<string>)

  /** The delay of an optional stop-time event, present only when the event
      is present and its own `delay` has-bit is set. */
  function EventDelay(event: Option<StopTimeEvent>): Option<Int32> {
    if event.Some? && event.value.delay.Some? then event.value.delay else None
  }

  /** The row for one stop-time update `stu` of the trip update `tu` of entity `entityId`. */
  function StopTimeRow(snap: string, entityId: string, tu: TripUpdate, stu: StopTimeUpdate): TripUpdateRow {
    TripUpdateRow(
      snap,
      entityId,
      NoneIfEmpty(tu.trip.routeId.GetOr("")),
      NoneIfEmpty(tu.trip.tripId.GetOr("")),
      NoneIfEmpty(tu.trip.startDate.GetOr("")),
      NoneIfEmpty(stu.stopId.GetOr("")),
      EventDelay(stu.arrival),
      EventDelay(stu.departure),
      if tu.vehicle.Some? then Some(tu.vehicle.value.id.GetOr("")) else None)
  }

  /** What each field of a stop-time row holds, in terms of the decoded message. */
  lemma StopTimeRowFields(snap: string, entityId: string, tu: TripUpdate, stu: StopTimeUpdate, row: TripUpdateRow)
    requires row == StopTimeRow(snap, entityId, tu, stu)
    ensures row.snapshotUtc == snap && row.entityId == entityId
    // String fields read with their "" default and normalised: None exactly when empty.
    ensures row.routeId.None? <==> tu.trip.routeId.GetOr("") == ""
    ensures row.routeId.Some? ==> row.routeId.value == tu.trip.routeId.value
    ensures row.tripId.None? <==> tu.trip.tripId.GetOr("") == ""
    ensures row.tripId.Some? ==> row.tripId.value == tu.trip.tripId.value
    ensures row.startDate.None? <==> tu.trip.startDate.GetOr("") == ""
    ensures row.startDate.Some? ==> row.startDate.value == tu.trip.startDate.value
    ensures row.stopId.None? <==> stu.stopId.GetOr("") == ""
    ensures row.stopId.Some? ==> row.stopId.value == stu.stopId.value
    // Delays keep presence: a present zero delay is Some(0).
    ensures row.arrivalDelay.Some? <==> stu.arrival.Some? && stu.arrival.value.delay.Some?
    ensures row.arrivalDelay.Some? ==> row.arrivalDelay.value == stu.arrival.value.delay.value
    ensures row.departureDelay.Some? <==> stu.departure.Some? && stu.departure.value.delay.Some?
    ensures row.departureDelay.Some? ==> row.departureDelay.value == stu.departure.value.delay.value
    // The vehicle id is not normalised: an unset or empty id stays "".
    ensures row.vehicleId.None? <==> tu.vehicle.None?
    ensures tu.vehicle.Some? ==> row.vehicleId.value == tu.vehicle.value.id.GetOr("")
  {
  }

  /** Two rows agree on every field taken from the entity and its trip descriptor. */
  predicate SameTripFields(a: TripUpdateRow, b: TripUpdateRow) {
    a.snapshotUtc == b.snapshotUtc && a.entityId == b.entityId &&
    a.routeId == b.routeId && a.tripId == b.tripId && a.startDate == b.startDate &&
    a.vehicleId == b.vehicleId
  }

  /** The rows for a list of stop-time updates of one trip update, one per update, in list order. */
  function StopTimeRows(snap: string, entityId: string, tu: TripUpdate, updates: seq<StopTimeUpdate>)
    : (rows: seq<TripUpdateRow>)
    ensures |rows| == |updates|
    decreases |updates|
  {
    if updates == [] then []
    else
      StopTimeRows(snap, entityId, tu, updates[..|updates| - 1])
        + [StopTimeRow(snap, entityId, tu, updates[|updates| - 1])]
  }

  /** The k-th of those rows is built from the k-th update. */
  lemma {:induction false} StopTimeRowsAt(snap: string, entityId: string, tu: TripUpdate, updates: seq<StopTimeUpdate>, k: int)
    requires 0 <= k < |updates|
    ensures StopTimeRows(snap, entityId, tu, updates)[k] == StopTimeRow(snap, entityId, tu, updates[k])
    decreases |updates|
  {
    var n := |updates| - 1;
    if k < n {
      StopTimeRowsAt(snap, entityId, tu, updates[..n], k);
      assert updates[..n][k] == updates[k];
    }
  }

  /** One more update extends the rows by that update's row (the inner loop's step). */
  lemma StopTimeRowsStep(snap: string, entityId: string, tu: TripUpdate, updates: seq<StopTimeUpdate>, k: int)
    requires 0 <= k < |updates|
    ensures StopTimeRows(snap, entityId, tu, updates[..k + 1])
      == StopTimeRows(snap, entityId, tu, updates[..k]) + [StopTimeRow(snap, entityId, tu, updates[k])]
  {
    assert updates[..k + 1][..k] == updates[..k];
  }

  /** The rows one entity contributes: none without a trip update, else one per stop-time update. */
  function EntityRows(e: FeedEntity, snap: string): (rows: seq<TripUpdateRow>)
    ensures e.tripUpdate.None? ==> rows == []
    ensures e.tripUpdate.Some? ==> |rows| == |e.tripUpdate.value.stopTimeUpdates|
  {
    if e.tripUpdate.None? then []
    else StopTimeRows(snap, e.id, e.tripUpdate.value, e.tripUpdate.value.stopTimeUpdates)
  }

  /** Row k of an entity is built from its k-th stop-time update. */
  lemma EntityRowsAt(e: FeedEntity, snap: string, k: int)
    requires 0 <= k < |EntityRows(e, snap)|
    ensures e.tripUpdate.Some? && k < |e.tripUpdate.value.stopTimeUpdates|
    ensures EntityRows(e, snap)[k] == StopTimeRow(snap, e.id, e.tripUpdate.value, e.tripUpdate.value.stopTimeUpdates[k])
  {
    StopTimeRowsAt(snap, e.id, e.tripUpdate.value, e.tripUpdate.value.stopTimeUpdates, k);
  }

  /** Every row of one entity carries the same entity id, trip fields, vehicle id and snapshot. */
  lemma EntityRowsShareTripFields(e: FeedEntity, snap: string, j: int, k: int)
    requires 0 <= j < |EntityRows(e, snap)| && 0 <= k < |EntityRows(e, snap)|
    ensures SameTripFields(EntityRows(e, snap)[j], EntityRows(e, snap)[k])
  {
    EntityRowsAt(e, snap, j);
    EntityRowsAt(e, snap, k);
  }

  /** The rows of a whole entity sequence, built as the source's loop builds
      them: the rows of all but the last entity, then the last entity's. */
  function TripUpdateRows(entities: seq<FeedEntity>, snap: string): (rows: seq<TripUpdateRow>)
    decreases |entities|
  {
    if entities == [] then []
    else TripUpdateRows(entities[..|entities| - 1], snap) + EntityRows(entities[|entities| - 1], snap)
  }

  /** One more entity extends the rows by that entity's rows (the outer loop's step). */
  lemma TripUpdateRowsStep(entities: seq<FeedEntity>, snap: string, i: int)
    requires 0 <= i < |entities|
    ensures TripUpdateRows(entities[..i + 1], snap) == TripUpdateRows(entities[..i], snap) + EntityRows(entities[i], snap)
  {
    assert entities[..i + 1][..i] == entities[..i];
  }

  /** The number of stop-time updates over the entities that carry a trip
      update, counted front to back (independently of TripUpdateRows). */
  function StopTimeUpdateCount(entities: seq<FeedEntity>): nat {
    if entities == [] then 0
    else
      (if entities[0].tripUpdate.Some? then |entities[0].tripUpdate.value.stopTimeUpdates| else 0)
      + StopTimeUpdateCount(entities[1..])
  }

  lemma {:induction false} StopTimeUpdateCountConcat(a: seq<FeedEntity>, b: seq<FeedEntity>)
    ensures StopTimeUpdateCount(a + b) == StopTimeUpdateCount(a) + StopTimeUpdateCount(b)
    decreases |a|
  {
    if a != [] {
      assert (a + b)[0] == a[0] && (a + b)[1..] == a[1..] + b;
      StopTimeUpdateCountConcat(a[1..], b);
    } else {
      assert a + b == b;
    }
  }

  /** Appending one entity appends exactly that entity's rows. */
  lemma TripUpdateRowsSnoc(entities: seq<FeedEntity>, e: FeedEntity, snap: string)
    ensures TripUpdateRows(entities + [e], snap) == TripUpdateRows(entities, snap) + EntityRows(e, snap)
  {
    var s := entities + [e];
    assert s[..|s| - 1] == entities && s[|s| - 1] == e;
  }

  /** Flattening distributes over concatenation of entity sequences. */
  lemma {:induction false} TripUpdateRowsConcat(a: seq<FeedEntity>, b: seq<FeedEntity>, snap: string)
    ensures TripUpdateRows(a + b, snap) == TripUpdateRows(a, snap) + TripUpdateRows(b, snap)
    decreases |b|
  {
    if b == [] {
      assert a + b == a;
    } else {
      var n := |b| - 1;
      var init, last := b[..n], b[n];
      assert b == init + [last];
      assert a + b == (a + init) + [last];
      TripUpdateRowsConcat(a, init, snap);
      TripUpdateRowsSnoc(a + init, last, snap);
      TripUpdateRowsSnoc(init, last, snap);
      ConcatAssoc(TripUpdateRows(a, snap), TripUpdateRows(init, snap), EntityRows(last, snap));
    }
  }

  /** The total row count is the number of stop-time updates over trip-update entities. */
  lemma {:induction false} TripUpdateRowsCount(entities: seq<FeedEntity>, snap: string)
    ensures |TripUpdateRows(entities, snap)| == StopTimeUpdateCount(entities)
    decreases |entities|
  {
    if entities != [] {
      var n := |entities| - 1;
      assert entities == entities[..n] + [entities[n]];
      TripUpdateRowsCount(entities[..n], snap);
      StopTimeUpdateCountConcat(entities[..n], [entities[n]]);
      assert StopTimeUpdateCount([entities[n]]) == |EntityRows(entities[n], snap)|;
    }
  }

  /** The rows of a feed split around entity i: those before it, its own, those after it. */
  lemma TripUpdateRowsSplit(entities: seq<FeedEntity>, snap: string, i: int)
    requires 0 <= i < |entities|
    ensures TripUpdateRows(entities, snap)
      == TripUpdateRows(entities[..i], snap) + (EntityRows(entities[i], snap) + TripUpdateRows(entities[i + 1..], snap))
  {
    var e, pre, post := entities[i], entities[..i], entities[i + 1..];
    assert entities == pre + ([e] + post);
    TripUpdateRowsConcat(pre, [e] + post, snap);
    TripUpdateRowsConcat([e], post, snap);
    assert [e][..0] == [];
    assert TripUpdateRows([e], snap) == EntityRows(e, snap);
  }

  /** Row k of entity i sits right after the rows of the entities before i. */
  lemma TripUpdateRowsAt(entities: seq<FeedEntity>, snap: string, i: int, k: int)
    requires 0 <= i < |entities| && 0 <= k < |EntityRows(entities[i], snap)|
    ensures |TripUpdateRows(entities[..i], snap)| + k < |TripUpdateRows(entities, snap)|
    ensures TripUpdateRows(entities, snap)[|TripUpdateRows(entities[..i], snap)| + k] == EntityRows(entities[i], snap)[k]
  {
    TripUpdateRowsSplit(entities, snap, i);
    MiddleIndex(TripUpdateRows(entities[..i], snap), EntityRows(entities[i], snap), TripUpdateRows(entities[i + 1..], snap), k);
  }

  /** Output order: the k-th stop-time update of entity i is the row that
      follows all rows of the entities before i and the first k rows of i. */
  lemma TripUpdateRowsOrder(entities: seq<FeedEntity>, snap: string, i: int, k: int)
    requires 0 <= i < |entities| && entities[i].tripUpdate.Some?
    requires 0 <= k < |entities[i].tripUpdate.value.stopTimeUpdates|
    ensures StopTimeUpdateCount(entities[..i]) + k < |TripUpdateRows(entities, snap)|
    ensures TripUpdateRows(entities, snap)[StopTimeUpdateCount(entities[..i]) + k]
      == StopTimeRow(snap, entities[i].id, entities[i].tripUpdate.value,
                     entities[i].tripUpdate.value.stopTimeUpdates[k])
  {
    TripUpdateRowsCount(entities[..i], snap);
    TripUpdateRowsAt(entities, snap, i, k);
    EntityRowsAt(entities[i], snap, k);
  }

  /** A feed whose entities carry no trip update (alerts, vehicle positions) yields no rows. */
  lemma {:induction false} NoTripUpdatesNoRows(entities: seq<FeedEntity>, snap: string)
    requires forall e :: e in entities ==> e.tripUpdate.None?
    ensures TripUpdateRows(entities, snap) == []
    decreases |entities|
  {
    if entities != [] {
      var n := |entities| - 1;
      assert entities[n] in entities;
      forall e | e in entities[..n] ensures e.tripUpdate.None? {
        assert e in entities;
      }
      NoTripUpdatesNoRows(entities[..n], snap);
    }
  }

  /** Every row produced by one call carries that call's snapshot. */
  lemma {:induction false} TripUpdateRowsSnapshot(entities: seq<FeedEntity>, snap: string)
    ensures forall j :: 0 <= j < |TripUpdateRows(entities, snap)| ==> TripUpdateRows(entities, snap)[j].snapshotUtc == snap
    decreases |entities|
  {
    if entities != [] {
      var n := |entities| - 1;
      TripUpdateRowsSnapshot(entities[..n], snap);
      var p: seq<TripUpdateRow>, q: seq<TripUpdateRow> := TripUpdateRows(entities[..n], snap), EntityRows(entities[n], snap);
      forall j | 0 <= j < |p + q| ensures (p + q)[j].snapshotUtc == snap {
        if j >= |p| {
          assert (p + q)[j] == q[j - |p|];
          EntityRowsAt(entities[n], snap, j - |p|);
        } else {
          assert (p + q)[j] == p[j];
        }
      }
    }
  }

  /** Flattening the same feed under two snapshots gives the same rows apart from `snapshot_utc`. */
  lemma {:induction false} TripUpdateRowsSnapshotOnly(entities: seq<FeedEntity>, s1: string, s2: string)
    ensures |TripUpdateRows(entities, s1)| == |TripUpdateRows(entities, s2)|
    ensures forall j :: 0 <= j < |TripUpdateRows(entities, s1)| ==>
      TripUpdateRows(entities, s1)[j].(snapshotUtc := s2) == TripUpdateRows(entities, s2)[j]
    decreases |entities|
  {
    if entities != [] {
      var n := |entities| - 1;
      TripUpdateRowsSnapshotOnly(entities[..n], s1, s2);
      var p1: seq<TripUpdateRow>, p2: seq<TripUpdateRow> := TripUpdateRows(entities[..n], s1), TripUpdateRows(entities[..n], s2);
      var q1: seq<TripUpdateRow>, q2: seq<TripUpdateRow> := EntityRows(entities[n], s1), EntityRows(entities[n], s2);
      forall j | 0 <= j < |p1 + q1| ensures (p1 + q1)[j].(snapshotUtc := s2) == (p2 + q2)[j] {
        if j >= |p1| {
          assert (p1 + q1)[j] == q1[j - |p1|];
          assert (p2 + q2)[j] == q2[j - |p1|];
          EntityRowsAt(entities[n], s1, j - |p1|);
          EntityRowsAt(entities[n], s2, j - |p1|);
        } else {
          assert (p1 + q1)[j] == p1[j] && (p2 + q2)[j] == p2[j];
        }
      }
    }
  }

  /** `parse_tripupdates`: decode failure propagates; otherwise nested loops
      over the entities and their stop-time updates append one row each. */
  method ParseTripUpdates(payload: Decoded, snap: string) returns (result: Result<seq<TripUpdateRow>, DecodeError>)
    ensures result.Failure? <==> payload.Failure?
    ensures payload.Failure? ==> result.error == payload.error
    ensures payload.Success? ==> result.value == TripUpdateRows(payload.value.entities, snap)
  {
    if payload.Failure? {
      return Failure(payload.error);
    }
    var entities := payload.value.entities;
    var rows: seq<TripUpdateRow> := [];
    for i := 0 to |entities|
      invariant rows == TripUpdateRows(entities[..i], snap)
    {
      var e := entities[i];
      if e.tripUpdate.None? {
        assert rows == TripUpdateRows(entities[..i + 1], snap) by {
          TripUpdateRowsStep(entities, snap, i);
        }
        continue;
      }
      var tu, trip := e.tripUpdate.value, e.tripUpdate.value.trip;
      var vid := if tu.vehicle.Some? then Some(tu.vehicle.value.id.GetOr("")) else None;
      for k := 0 to |tu.stopTimeUpdates|
        invariant rows == TripUpdateRows(entities[..i], snap) + StopTimeRows(snap, e.id, tu, tu.stopTimeUpdates[..k])
      {
        var stu := tu.stopTimeUpdates[k];
        var row := TripUpdateRow(
          snap,
          e.id,
          NoneIfEmpty(trip.routeId.GetOr("")),
          NoneIfEmpty(trip.tripId.GetOr("")),
          NoneIfEmpty(trip.startDate.GetOr("")),
          NoneIfEmpty(stu.stopId.GetOr("")),
          if stu.arrival.Some? && stu.arrival.value.delay.Some? then stu.arrival.value.delay else None,
          if stu.departure.Some? && stu.departure.value.delay.Some? then stu.departure.value.delay else None,
          vid);
        assert row == StopTimeRow(snap, e.id, tu, stu);
        assert rows + [row] == TripUpdateRows(entities[..i], snap) + StopTimeRows(snap, e.id, tu, tu.stopTimeUpdates[..k + 1]) by {
          StopTimeRowsStep(snap, e.id, tu, tu.stopTimeUpdates, k);
          ConcatAssoc(TripUpdateRows(entities[..i], snap), StopTimeRows(snap, e.id, tu, tu.stopTimeUpdates[..k]), [row]);
        }
        rows := rows + [row];
      }
      assert rows == TripUpdateRows(entities[..i + 1], snap) by {
        assert tu.stopTimeUpdates[..|tu.stopTimeUpdates|] == tu.stopTimeUpdates;
        TripUpdateRowsStep(entities, snap, i);
      }
    }
    assert entities[..|entities|] == entities;
    return Success(rows);
  }
}
