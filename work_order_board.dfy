/** The work-order board: work orders grouped into one column per status, and what
    each card resolves from the store (contractor, crew names, timeline date). */
module WorkOrderBoard {
  import opened Domain

  const AllStatuses: set<WorkOrderStatus> := {Scheduled, InProgress, Completed, Blocked}

  const UnknownLabourer := "-"
  const UnassignedContractor := "Unassigned"

  /** The column of one status: the orders with that status, in input order. */
  function Bucket(orders: seq<WorkOrder>, status: WorkOrderStatus): seq<WorkOrder> {
    Filter(orders, StatusIs(status))
  }

  /** `grouped`: a reduce over the orders that pushes each one onto the bucket of its
      status, starting from four empty buckets. */
  method Group(orders: seq<WorkOrder>) returns (grouped: map<WorkOrderStatus, seq<WorkOrder>>)
    ensures grouped.Keys == AllStatuses
    ensures forall status :: status in grouped ==> grouped[status] == Bucket(orders, status)
  {
    grouped := map[Scheduled := [], InProgress := [], Completed := [], Blocked := []];
    for i := 0 to |orders|
      invariant grouped.Keys == AllStatuses
      invariant forall status :: status in grouped ==> grouped[status] == Bucket(orders[..i], status)
    {
      var workOrder := orders[i];
      grouped := grouped[workOrder.status := grouped[workOrder.status] + [workOrder]];
      BucketPrefix(orders, i);
    }
    assert orders[..|orders|] == orders;
  }

  lemma BucketPrefix(orders: seq<WorkOrder>, i: nat)
    requires i < |orders|
    ensures forall status ::
      Bucket(orders[..i + 1], status) == Bucket(orders[..i], status) + (if orders[i].status == status then [orders[i]] else [])
  {
    assert orders[..i + 1][..i] == orders[..i];
  }

  /** An order is in a column exactly when its status names that column, so it sits
      in exactly one of the four. */
  lemma {:induction false} BucketMembership(orders: seq<WorkOrder>, o: WorkOrder, status: WorkOrderStatus)
    ensures o in Bucket(orders, status) <==> o in orders && o.status == status
  {
    assert StatusIs(status)(o) == (o.status == status);
  }

  /** Every order is shown once: the four column sizes add up to the number of orders. */
  lemma {:induction false} BucketSizes(orders: seq<WorkOrder>)
    ensures |Bucket(orders, Scheduled)| + |Bucket(orders, InProgress)|
          + |Bucket(orders, Completed)| + |Bucket(orders, Blocked)| == |orders|
  {
    if orders != [] {
      BucketSizes(orders[..|orders| - 1]);
    }
  }

  /** A column keeps the board's order: it is the input read at an increasing list
      of positions, namely those of the orders with that status. */
  lemma BucketKeepsOrder(orders: seq<WorkOrder>, status: WorkOrderStatus)
    ensures var ix := MatchingIndices(orders, StatusIs(status));
      && |Bucket(orders, status)| == |ix|
      && (forall k, m :: 0 <= k < m < |ix| ==> ix[k] < ix[m])
      && (forall k :: 0 <= k < |ix| ==> ix[k] < |orders| && Bucket(orders, status)[k] == orders[ix[k]])
      && (forall i :: 0 <= i < |orders| && orders[i].status == status ==> i in ix)
  {
    var ix := MatchingIndices(orders, StatusIs(status));
    FilterKeepsOrder(orders, StatusIs(status));
    forall i | 0 <= i < |orders| && orders[i].status == status ensures i in ix {
      assert StatusIs(status)(orders[i]);
    }
  }

  // ---------------------------------------------------------------------------
  // One card

  /** The contractor line of a card: the name stored under the order's contractor
      id, or "Unassigned". */
  function ContractorLabel(contractors: seq<Contractor>, o: WorkOrder): (shown: string)
    ensures (forall k :: 0 <= k < |contractors| ==> contractors[k].id != o.contractorId) ==> shown == UnassignedContractor
    ensures (exists k :: 0 <= k < |contractors| && contractors[k].id == o.contractorId) ==>
              exists k :: 0 <= k < |contractors| && contractors[k].id == o.contractorId && contractors[k].name == shown
  {
    match FindContractor(contractors, o.contractorId)
    case Some(c) => c.name
    case None => UnassignedContractor
  }

  /** The name shown for one crew id: the labourer's name, or "-". */
  function CrewName(labourers: seq<Labourer>, id: string): string {
    match FindLabourer(labourers, id)
    case Some(l) => l.name
    case None => UnknownLabourer
  }

  /** The crew line of a card: one entry per assigned id, in assignment order. */
  function CrewNames(labourers: seq<Labourer>, ids: seq<string>): (names: seq<string>)
    ensures |names| == |ids|
    ensures forall k :: 0 <= k < |ids| ==>
      ((forall j :: 0 <= j < |labourers| ==> labourers[j].id != ids[k]) ==> names[k] == UnknownLabourer) &&
      ((exists j :: 0 <= j < |labourers| && labourers[j].id == ids[k]) ==>
         exists j :: 0 <= j < |labourers| && labourers[j].id == ids[k] && labourers[j].name == names[k])
  {
    if ids == [] then []
    else
      var n := |ids| - 1;
      CrewNames(labourers, ids[..n]) + [CrewName(labourers, ids[n])]
  }

  /** The date a card's timeline counts from: a completed order's end date when it
      has one, its start date otherwise. */
  function TimelineDate(o: WorkOrder): (date: Day)
    ensures o.status != Completed ==> date == o.startDate
    ensures o.status == Completed && o.endDate.Some? ==> date == o.endDate.value
    ensures o.endDate.None? ==> date == o.startDate
  {
    if o.status == Completed then o.endDate.GetOr(o.startDate) else o.startDate
  }
}
