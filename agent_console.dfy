/** The rule engine behind the agent console: a prioritised list of alerts built
    from three independent rules over a store snapshot (a recent absence, a blocked
    work order, a contractor balance above the payout threshold), with an
    "All clear" entry when none of them fires. */
module AgentConsole {
  import opened Domain

  datatype Priority = Low | Medium | High {
    /** The order in which the console ranks priorities. */
    function Rank(): nat {
      match this
      case Low => 0
      case Medium => 1
      case High => 2
    }
  }

  /** What a suggestion is about: the values its title and body interpolate. */
  datatype Alert =
    | AttendanceDip(labourerName: string, daysAgo: int)
    | Unblock(workOrderTitle: string, contractorName: string, reason: string)
    | Payout(contractorName: string, company: string, balance: int)
    | AllClear

  datatype Suggestion = Suggestion(alert: Alert, priority: Priority)

  /** An absence at most this many days before today is recent. */
  const RecentAbsenceDays := 3

  /** A balance strictly above this amount calls for a payout. */
  const PayoutThreshold := 40000

  const UnknownContractor := "Contractor"
  const ReasonNotLogged := "Reason not logged"

  const AllClearSuggestion := Suggestion(AllClear, Low)

  predicate IsAbsent(r: AttendanceRecord) {
    r.status == Absent
  }

  // ---------------------------------------------------------------------------
  // Rule 1: a recent absence

  /** The rule, stated on the labourer's record list: the FIRST absent record in
      list order exists and lies at most three days before today (a date after
      today also qualifies). */
  predicate AbsenceFires(l: Labourer, today: Day) {
    var k := FindIndex(l.attendance, IsAbsent);
    k < |l.attendance| && today - l.attendance[k].date <= RecentAbsenceDays
  }

  function AbsenceSuggestion(l: Labourer, today: Day): (r: Option<Suggestion>)
    ensures r.Some? <==> AbsenceFires(l, today)
    ensures r.Some? ==>
      var first := l.attendance[FindIndex(l.attendance, IsAbsent)];
      r.value == Suggestion(AttendanceDip(l.name, today - first.date), High)
  {
    match Find(l.attendance, IsAbsent)
    case None => None
    case Some(recentAbsence) =>
      var daysAgo := today - recentAbsence.date;
      if daysAgo <= RecentAbsenceDays
      then Some(Suggestion(AttendanceDip(l.name, daysAgo), High))
      else None
  }

  function Fires(today: Day): Labourer -> bool {
    (l: Labourer) => AbsenceFires(l, today)
  }

  function AbsenceSuggestions(labourers: seq<Labourer>, today: Day): seq<Suggestion> {
    if labourers == [] then []
    else
      var n := |labourers| - 1;
      AbsenceSuggestions(labourers[..n], today) + AbsenceSuggestion(labourers[n], today).ToSeq()
  }

  // ---------------------------------------------------------------------------
  // Rule 2: a blocked work order

  /** The contractor named on a blocked-order alert, "Contractor" when the id
      does not resolve. */
  function ContractorNameOrDefault(contractors: seq<Contractor>, id: string): (name: string)
    ensures FindContractor(contractors, id).None? ==> name == UnknownContractor
    ensures (exists k :: 0 <= k < |contractors| && contractors[k].id == id) ==>
              exists k :: 0 <= k < |contractors| && contractors[k].id == id && contractors[k].name == name
  {
    match FindContractor(contractors, id)
    case Some(c) => c.name
    case None => UnknownContractor
  }

  function UnblockSuggestion(o: WorkOrder, contractors: seq<Contractor>): Suggestion {
    Suggestion(Unblock(o.title, ContractorNameOrDefault(contractors, o.contractorId), o.notes.GetOr(ReasonNotLogged)), Medium)
  }

  function BlockedSuggestions(orders: seq<WorkOrder>, contractors: seq<Contractor>): seq<Suggestion> {
    if orders == [] then []
    else
      var n := |orders| - 1;
      BlockedSuggestions(orders[..n], contractors) +
        (if orders[n].status == Blocked then [UnblockSuggestion(orders[n], contractors)] else [])
  }

  // ---------------------------------------------------------------------------
  // Rule 3: a high contractor balance

  predicate OverThreshold(c: Contractor) {
    c.balance > PayoutThreshold
  }

  function PayoutSuggestion(c: Contractor): Suggestion {
    Suggestion(Payout(c.name, c.company, c.balance), Medium)
  }

  function BalanceSuggestions(contractors: seq<Contractor>): seq<Suggestion> {
    if contractors == [] then []
    else
      var n := |contractors| - 1;
      var c := contractors[n];
      BalanceSuggestions(contractors[..n]) +
        (if OverThreshold(c) then [PayoutSuggestion(c)] else [])
  }

  // ---------------------------------------------------------------------------
  // The whole list

  /** Every suggestion the three rules produce, in rule order, each rule in input order. */
  function Fired(snap: Snapshot, today: Day): seq<Suggestion> {
    AbsenceSuggestions(snap.labourers, today)
      + BlockedSuggestions(snap.workOrders, snap.contractors)
      + BalanceSuggestions(snap.contractors)
  }

  /** The console's list: what the rules fired, or the single fallback. */
  function Suggestions(snap: Snapshot, today: Day): seq<Suggestion> {
    var fired := Fired(snap, today);
    if |fired| == 0 then [AllClearSuggestion] else fired
  }

  lemma AbsencePrefix(labourers: seq<Labourer>, i: nat, today: Day)
    requires i < |labourers|
    ensures AbsenceSuggestions(labourers[..i + 1], today)
         == AbsenceSuggestions(labourers[..i], today) + AbsenceSuggestion(labourers[i], today).ToSeq()
  {
    assert labourers[..i + 1][..i] == labourers[..i];
  }

  lemma BlockedPrefix(orders: seq<WorkOrder>, i: nat, contractors: seq<Contractor>)
    requires i < |orders|
    ensures BlockedSuggestions(orders[..i + 1], contractors)
         == BlockedSuggestions(orders[..i], contractors)
            + (if orders[i].status == Blocked then [UnblockSuggestion(orders[i], contractors)] else [])
  {
    assert orders[..i + 1][..i] == orders[..i];
  }

  lemma BalancePrefix(contractors: seq<Contractor>, i: nat)
    requires i < |contractors|
    ensures BalanceSuggestions(contractors[..i + 1])
         == BalanceSuggestions(contractors[..i])
            + (if OverThreshold(contractors[i]) then [PayoutSuggestion(contractors[i])] else [])
  {
    assert contractors[..i + 1][..i] == contractors[..i];
  }

  /** The first `forEach`: push an alert for every labourer whose first absent
      record is recent. */
  method PushAbsenceSuggestions(suggestions: seq<Suggestion>, labourers: seq<Labourer>, today: Day)
    returns (pushed: seq<Suggestion>)
    ensures pushed == suggestions + AbsenceSuggestions(labourers, today)
  {
    pushed := suggestions;
    for i := 0 to |labourers|
      invariant pushed == suggestions + AbsenceSuggestions(labourers[..i], today)
    {
      var labourer := labourers[i];
      var recentAbsence := Find(labourer.attendance, IsAbsent);
      if recentAbsence.Some? {
        var daysAgo := today - recentAbsence.value.date;
        if daysAgo <= RecentAbsenceDays {
          pushed := pushed + [Suggestion(AttendanceDip(labourer.name, daysAgo), High)];
        }
      }
      AbsencePrefix(labourers, i, today);
    }
    assert labourers[..|labourers|] == labourers;
  }

  /** The second `forEach`: push an alert for every blocked work order. */
  method PushBlockedSuggestions(suggestions: seq<Suggestion>, orders: seq<WorkOrder>, contractors: seq<Contractor>)
    returns (pushed: seq<Suggestion>)
    ensures pushed == suggestions + BlockedSuggestions(orders, contractors)
  {
    pushed := suggestions;
    for i := 0 to |orders|
      invariant pushed == suggestions + BlockedSuggestions(orders[..i], contractors)
    {
      var workOrder := orders[i];
      if workOrder.status == Blocked {
        var contractor := ContractorNameOrDefault(contractors, workOrder.contractorId);
        pushed := pushed + [Suggestion(Unblock(workOrder.title, contractor, workOrder.notes.GetOr(ReasonNotLogged)), Medium)];
      }
      BlockedPrefix(orders, i, contractors);
    }
    assert orders[..|orders|] == orders;
  }

  /** The third `forEach`: push an alert for every contractor over the threshold. */
  method PushBalanceSuggestions(suggestions: seq<Suggestion>, contractors: seq<Contractor>)
    returns (pushed: seq<Suggestion>)
    ensures pushed == suggestions + BalanceSuggestions(contractors)
  {
    pushed := suggestions;
    for i := 0 to |contractors|
      invariant pushed == suggestions + BalanceSuggestions(contractors[..i])
    {
      var contractor := contractors[i];
      if OverThreshold(contractor) {
        pushed := pushed + [PayoutSuggestion(contractor)];
      }
      BalancePrefix(contractors, i);
    }
    assert contractors[..|contractors|] == contractors;
  }

  /** The hook: the three rules in order onto one list, then the fallback when
      the list is still empty. */
  method GenerateSuggestions(snap: Snapshot, today: Day) returns (suggestions: seq<Suggestion>)
    ensures suggestions == Suggestions(snap, today)
  {
    suggestions := [];
    suggestions := PushAbsenceSuggestions(suggestions, snap.labourers, today);
    suggestions := PushBlockedSuggestions(suggestions, snap.workOrders, snap.contractors);
    suggestions := PushBalanceSuggestions(suggestions, snap.contractors);
    assert suggestions == Fired(snap, today) by {
      assert [] + AbsenceSuggestions(snap.labourers, today) == AbsenceSuggestions(snap.labourers, today);
    }
    if |suggestions| == 0 {
      suggestions := suggestions + [AllClearSuggestion];
    }
  }

  // ---------------------------------------------------------------------------
  // Properties

  /** Each group holds one suggestion per firing input: a labourer whose rule
      fires, a blocked order, a contractor over the threshold. */
  lemma {:induction false} AbsenceCount(labourers: seq<Labourer>, today: Day)
    ensures |AbsenceSuggestions(labourers, today)| == |Filter(labourers, Fires(today))|
  {
    if labourers != [] {
      AbsenceCount(labourers[..|labourers| - 1], today);
    }
  }

  lemma {:induction false} BlockedCount(orders: seq<WorkOrder>, contractors: seq<Contractor>)
    ensures |BlockedSuggestions(orders, contractors)| == |Filter(orders, StatusIs(Blocked))|
  {
    if orders != [] {
      BlockedCount(orders[..|orders| - 1], contractors);
    }
  }

  lemma {:induction false} BalanceCount(contractors: seq<Contractor>)
    ensures |BalanceSuggestions(contractors)| == |Filter(contractors, OverThreshold)|
  {
    if contractors != [] {
      BalanceCount(contractors[..|contractors| - 1]);
    }
  }

  /** The blocked-order group is the blocked orders themselves, one alert each, in
      input order: the k-th alert is about the k-th blocked order. */
  lemma {:induction false} BlockedSuggestionsFollowOrders(orders: seq<WorkOrder>, contractors: seq<Contractor>)
    ensures |BlockedSuggestions(orders, contractors)| == |Filter(orders, StatusIs(Blocked))|
    ensures forall k :: 0 <= k < |Filter(orders, StatusIs(Blocked))| ==>
              BlockedSuggestions(orders, contractors)[k] == UnblockSuggestion(Filter(orders, StatusIs(Blocked))[k], contractors)
  {
    if orders != [] {
      var n := |orders| - 1;
      BlockedSuggestionsFollowOrders(orders[..n], contractors);
      assert orders == orders[..n] + [orders[n]];
    }
  }

  /** The absence group is the firing labourers' alerts, one each, in labourer
      order: the k-th alert is that of the k-th labourer whose rule fires. */
  lemma {:induction false} AbsenceSuggestionsFollowLabourers(labourers: seq<Labourer>, today: Day)
    ensures |AbsenceSuggestions(labourers, today)| == |Filter(labourers, Fires(today))|
    ensures forall k :: 0 <= k < |Filter(labourers, Fires(today))| ==>
              AbsenceSuggestion(Filter(labourers, Fires(today))[k], today) == Some(AbsenceSuggestions(labourers, today)[k])
  {
    if labourers != [] {
      var n := |labourers| - 1;
      var last := labourers[n];
      AbsenceSuggestionsFollowLabourers(labourers[..n], today);
      var f, g := Filter(labourers[..n], Fires(today)), AbsenceSuggestions(labourers[..n], today);
      assert Fires(today)(last) == AbsenceFires(last, today);
      if AbsenceFires(last, today) {
        assert Filter(labourers, Fires(today)) == f + [last];
        assert AbsenceSuggestions(labourers, today) == g + [AbsenceSuggestion(last, today).value];
        forall k | 0 <= k < |f| + 1
          ensures AbsenceSuggestion((f + [last])[k], today) == Some((g + [AbsenceSuggestion(last, today).value])[k])
        {
          if k < |f| {
            assert (f + [last])[k] == f[k];
          }
        }
      } else {
        assert Filter(labourers, Fires(today)) == f;
        assert AbsenceSuggestions(labourers, today) == g;
      }
    }
  }

  /** The payout group is the contractors over the threshold, one alert each, in
      contractor order. */
  lemma {:induction false} BalanceSuggestionsFollowContractors(contractors: seq<Contractor>)
    ensures |BalanceSuggestions(contractors)| == |Filter(contractors, OverThreshold)|
    ensures forall k :: 0 <= k < |Filter(contractors, OverThreshold)| ==>
              BalanceSuggestions(contractors)[k] == PayoutSuggestion(Filter(contractors, OverThreshold)[k])
  {
    if contractors != [] {
      var n := |contractors| - 1;
      BalanceSuggestionsFollowContractors(contractors[..n]);
      assert contractors == contractors[..n] + [contractors[n]];
    }
  }

  /** The fallback fires exactly when no rule fires, and then the list is that
      one low-priority entry; otherwise the list length is the number of firing
      labourers plus blocked orders plus contractors over the threshold. The list
      is never empty. */
  lemma SuggestionCount(snap: Snapshot, today: Day)
    ensures |Suggestions(snap, today)| >= 1
    ensures var firing := |Filter(snap.labourers, Fires(today))|
                          + |Filter(snap.workOrders, StatusIs(Blocked))|
                          + |Filter(snap.contractors, OverThreshold)|;
            if firing == 0 then Suggestions(snap, today) == [AllClearSuggestion]
            else |Suggestions(snap, today)| == firing
    ensures var firing := |Filter(snap.labourers, Fires(today))|
                          + |Filter(snap.workOrders, StatusIs(Blocked))|
                          + |Filter(snap.contractors, OverThreshold)|;
            AllClearSuggestion in Suggestions(snap, today) <==> firing == 0
  {
    AbsenceCount(snap.labourers, today);
    BlockedCount(snap.workOrders, snap.contractors);
    BalanceCount(snap.contractors);
    var a := AbsenceSuggestions(snap.labourers, today);
    var b := BlockedSuggestions(snap.workOrders, snap.contractors);
    var c := BalanceSuggestions(snap.contractors);
    if |a + b + c| != 0 {
      AbsenceGroup(snap.labourers, today);
      BlockedGroup(snap.workOrders, snap.contractors);
      BalanceGroup(snap.contractors);
      GroupAt(a, b, c);
      assert Group(AllClearSuggestion.alert) == 3;
    }
  }

  /** Position of an alert's group in the output: absences, then blocked orders,
      then balances, then the fallback. */
  function Group(a: Alert): nat {
    match a
    case AttendanceDip(_, _) => 0
    case Unblock(_, _, _) => 1
    case Payout(_, _, _) => 2
    case AllClear => 3
  }

  /** Absence alerts are high priority, the two other rules medium, the fallback low. */
  function PriorityOf(a: Alert): Priority {
    match a
    case AttendanceDip(_, _) => High
    case Unblock(_, _, _) => Medium
    case Payout(_, _, _) => Medium
    case AllClear => Low
  }

  predicate AllInGroup(s: seq<Suggestion>, group: nat) {
    forall k :: 0 <= k < |s| ==> Group(s[k].alert) == group && s[k].priority == PriorityOf(s[k].alert)
  }

  lemma {:induction false} AbsenceGroup(labourers: seq<Labourer>, today: Day)
    ensures AllInGroup(AbsenceSuggestions(labourers, today), 0)
  {
    if labourers != [] {
      AbsenceGroup(labourers[..|labourers| - 1], today);
    }
  }

  lemma {:induction false} BlockedGroup(orders: seq<WorkOrder>, contractors: seq<Contractor>)
    ensures AllInGroup(BlockedSuggestions(orders, contractors), 1)
  {
    if orders != [] {
      BlockedGroup(orders[..|orders| - 1], contractors);
    }
  }

  lemma {:induction false} BalanceGroup(contractors: seq<Contractor>)
    ensures AllInGroup(BalanceSuggestions(contractors), 2)
  {
    if contractors != [] {
      BalanceGroup(contractors[..|contractors| - 1]);
    }
  }

  lemma RankFollowsGroup(x: Alert, y: Alert)
    requires Group(x) <= Group(y)
    ensures PriorityOf(x).Rank() >= PriorityOf(y).Rank()
  {
  }

  /** In the three groups laid end to end, an entry's group is fixed by its position. */
  lemma GroupAt(a: seq<Suggestion>, b: seq<Suggestion>, c: seq<Suggestion>)
    requires AllInGroup(a, 0) && AllInGroup(b, 1) && AllInGroup(c, 2)
    ensures forall k :: 0 <= k < |a + b + c| ==>
      Group((a + b + c)[k].alert) == (if k < |a| then 0 else if k < |a| + |b| then 1 else 2) &&
      (a + b + c)[k].priority == PriorityOf((a + b + c)[k].alert)
  {
    forall k | 0 <= k < |a + b + c|
      ensures Group((a + b + c)[k].alert) == (if k < |a| then 0 else if k < |a| + |b| then 1 else 2)
      ensures (a + b + c)[k].priority == PriorityOf((a + b + c)[k].alert)
    {
      if k < |a| {
        assert (a + b + c)[k] == a[k];
      } else if k < |a| + |b| {
        assert (a + b + c)[k] == b[k - |a|];
      } else {
        assert (a + b + c)[k] == c[k - |a| - |b|];
      }
    }
  }

  /** The output is ordered by rule (absences, blocked orders, balances, fallback)
      and therefore by descending priority; every entry carries its rule's priority. */
  lemma SuggestionOrder(snap: Snapshot, today: Day)
    ensures var s := Suggestions(snap, today);
      forall i, j :: 0 <= i < j < |s| ==> Group(s[i].alert) <= Group(s[j].alert)
    ensures var s := Suggestions(snap, today);
      forall k :: 0 <= k < |s| ==> s[k].priority == PriorityOf(s[k].alert)
    ensures var s := Suggestions(snap, today);
      forall i, j :: 0 <= i < j < |s| ==> s[i].priority.Rank() >= s[j].priority.Rank()
  {
    var s := Suggestions(snap, today);
    var a := AbsenceSuggestions(snap.labourers, today);
    var b := BlockedSuggestions(snap.workOrders, snap.contractors);
    var c := BalanceSuggestions(snap.contractors);
    if |a + b + c| != 0 {
      assert s == a + b + c;
      AbsenceGroup(snap.labourers, today);
      BlockedGroup(snap.workOrders, snap.contractors);
      BalanceGroup(snap.contractors);
      GroupAt(a, b, c);
    }
    forall i, j | 0 <= i < j < |s| ensures s[i].priority.Rank() >= s[j].priority.Rank() {
      RankFollowsGroup(s[i].alert, s[j].alert);
    }
  }

  /** The record the absence rule examines is the first absent one in list order,
      not the latest: an old absence listed first hides an absence today. */
  lemma FirstAbsenceDecides()
    ensures var l := Labourer("l1", "Ravi", "Mason", 800,
                              [AttendanceRecord(1, Absent, None), AttendanceRecord(10, Absent, None)]);
            AbsenceSuggestion(l, 10).None?
  {
    var l := Labourer("l1", "Ravi", "Mason", 800,
                      [AttendanceRecord(1, Absent, None), AttendanceRecord(10, Absent, None)]);
    assert IsAbsent(l.attendance[0]);
    assert FindIndex(l.attendance, IsAbsent) == 0;
  }
}
