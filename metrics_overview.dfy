/** The three dashboard tiles: attendance health on the latest recorded date, the
    number of blocked jobs and the pending contractor balance, each with its tone. */
module MetricsOverview {
  import opened Domain
  import AgentConsole

  // ---------------------------------------------------------------------------
  // The latest attendance date

  /** The dates of one labourer's records, in record order. */
  function DatesOf(attendance: seq<AttendanceRecord>): (dates: seq<Day>)
    ensures |dates| == |attendance|
    ensures forall j :: 0 <= j < |attendance| ==> dates[j] == attendance[j].date
  {
    seq(|attendance|, j requires 0 <= j < |attendance| => attendance[j].date)
  }

  /** `attendanceDates`: every record's date, labourer by labourer (a `flatMap`). */
  function AllDates(labourers: seq<Labourer>): (dates: seq<Day>)
    ensures forall l, r :: l in labourers && r in l.attendance ==> r.date in dates
    ensures forall d :: d in dates ==> exists l, r :: l in labourers && r in l.attendance && r.date == d
  {
    if labourers == [] then []
    else
      var init, last := labourers[..|labourers| - 1], labourers[|labourers| - 1];
      assert labourers == init + [last];
      var dates := AllDates(init) + DatesOf(last.attendance);
      assert forall r :: r in last.attendance ==> r.date in DatesOf(last.attendance);
      dates
  }

  /** The largest of `dates`, none when there are none. */
  function MaxOf(dates: seq<Day>): (m: Option<Day>)
    ensures m.None? <==> dates == []
    ensures m.Some? ==> m.value in dates && forall d :: d in dates ==> d <= m.value
  {
    if dates == [] then None
    else
      assert dates == [dates[0]] + dates[1..];
      match MaxOf(dates[1..])
      case None => Some(dates[0])
      case Some(rest) => Some(Max(dates[0], rest))
  }

  /** `latestDate`: the latest date any labourer has a record on. */
  function LatestDate(labourers: seq<Labourer>): (latest: Option<Day>)
    ensures latest.None? <==> forall l :: l in labourers ==> l.attendance == []
    ensures latest.Some? ==> exists l, r :: l in labourers && r in l.attendance && r.date == latest.value
    ensures latest.Some? ==> forall l, r :: l in labourers && r in l.attendance ==> r.date <= latest.value
  {
    var dates := AllDates(labourers);
    var latest := MaxOf(dates);
    assert (forall l :: l in labourers ==> l.attendance == []) ==> dates == [] by {
      if dates != [] {
        assert dates[0] in dates;
      }
    }
    forall l | l in labourers && l.attendance != [] ensures dates != [] {
      assert l.attendance[0] in l.attendance;
      assert l.attendance[0].date in dates;
    }
    latest
  }

  predicate Descending(s: seq<Day>) {
    forall i, j :: 0 <= i < j < |s| ==> s[i] >= s[j]
  }

  /** The head of a latest-first sort of `dates` is a date in `dates` that no
      other one exceeds; the sort is empty exactly when `dates` is. */
  lemma HeadOfDescending(dates: seq<Day>, sorted: seq<Day>)
    requires multiset(sorted) == multiset(dates)
    requires Descending(sorted)
    ensures sorted == [] <==> dates == []
    ensures MaxOf(dates) == if sorted == [] then None else Some(sorted[0])
  {
    assert |sorted| == |dates| by {
      assert |multiset(sorted)| == |multiset(dates)|;
    }
    if sorted != [] {
      assert sorted[0] in multiset(dates);
      assert sorted[0] in dates;
      forall d | d in dates ensures d <= sorted[0] {
        assert d in multiset(sorted);
        var k :| 0 <= k < |sorted| && sorted[k] == d;
      }
      var m := MaxOf(dates).value;
      assert m <= sorted[0] && sorted[0] <= m;
    }
  }

  /** The dashboard takes the head of the dates sorted latest first: whatever
      order that sort leaves equal dates in, its head is the latest date. */
  lemma LatestIsHeadOfSorted(labourers: seq<Labourer>, sorted: seq<Day>)
    requires multiset(sorted) == multiset(AllDates(labourers))
    requires Descending(sorted)
    ensures sorted == [] <==> LatestDate(labourers).None?
    ensures sorted != [] ==> LatestDate(labourers) == Some(sorted[0])
  {
    HeadOfDescending(AllDates(labourers), sorted);
  }

  // ---------------------------------------------------------------------------
  // Presence on the latest date

  /** A labourer counts as present when their first record on `date` exists and
      is not `absent`. */
  predicate PresentOn(l: Labourer, date: Day) {
    match RecordOn(l.attendance, date)
    case None => false
    case Some(record) => record.status != Absent
  }

  function IsPresentOn(date: Day): Labourer -> bool {
    (l: Labourer) => PresentOn(l, date)
  }

  /** `presentOnLatest`: a counting `reduce` over the labourers, zero throughout
      when there is no latest date. */
  function PresentOnLatest(labourers: seq<Labourer>, latest: Option<Day>): (n: nat)
    ensures n <= |labourers|
    ensures latest.None? ==> n == 0
  {
    if labourers == [] then 0
    else
      var last := labourers[|labourers| - 1];
      PresentOnLatest(labourers[..|labourers| - 1], latest)
        + if latest.Some? && PresentOn(last, latest.value) then 1 else 0
  }

  /** The count is the number of labourers present on the latest date. */
  lemma {:induction false} PresentCountIsFilter(labourers: seq<Labourer>, date: Day)
    ensures PresentOnLatest(labourers, Some(date)) == |Filter(labourers, IsPresentOn(date))|
  {
    if labourers != [] {
      PresentCountIsFilter(labourers[..|labourers| - 1], date);
    }
  }

  /** All present gives the full count, nobody present gives zero. */
  lemma {:induction false} PresentCountExtremes(labourers: seq<Labourer>, date: Day)
    ensures (forall l :: l in labourers ==> PresentOn(l, date)) ==> PresentOnLatest(labourers, Some(date)) == |labourers|
    ensures (forall l :: l in labourers ==> !PresentOn(l, date)) ==> PresentOnLatest(labourers, Some(date)) == 0
  {
    if labourers != [] {
      var init := labourers[..|labourers| - 1];
      assert forall l :: l in init ==> l in labourers;
      PresentCountExtremes(init, date);
    }
  }

  /** `Math.round(present / count * 100)` for a non-empty crew. */
  function RoundedPercent(present: nat, count: nat): (rate: int)
    requires present <= count && count > 0
    ensures 0 <= rate <= 100
    ensures var n, p := count as real, present as real;
            p * 100.0 - n / 2.0 < rate as real * n <= p * 100.0 + n / 2.0
  {
    var n, p := count as real, present as real;
    RatioBounds(p, n);
    RoundScaled(p * 100.0, n);
    Round(p / n * 100.0)
  }

  lemma RatioBounds(p: real, n: real)
    requires 0.0 <= p <= n && n > 0.0
    ensures 0.0 <= p / n * 100.0 <= 100.0
    ensures p / n * 100.0 == p * 100.0 / n
  {
    assert p / n <= 1.0 by {
      assert p / n * n == p;
    }
  }

  /** A full crew reads as 100 %, an empty one as 0 %. */
  lemma RoundedPercentExtremes(count: nat)
    requires count > 0
    ensures RoundedPercent(count, count) == 100
    ensures RoundedPercent(0, count) == 0
  {
    var n := count as real;
    assert n / n * 100.0 == 100.0;
    assert 0.0 / n * 100.0 == 0.0;
  }

  /** `presentRate`: the percentage of labourers present on the latest date,
      rounded half up; zero without labourers or without a latest date. */
  function PresentRate(labourers: seq<Labourer>, latest: Option<Day>): (rate: int)
    ensures 0 <= rate <= 100
    ensures labourers == [] || latest.None? ==> rate == 0
    ensures labourers != [] && latest.Some? ==> rate == RoundedPercent(PresentOnLatest(labourers, latest), |labourers|)
  {
    if |labourers| == 0 || latest.None? then 0
    else RoundedPercent(PresentOnLatest(labourers, latest), |labourers|)
  }

  /** Everybody present on the latest date reads as 100 %, nobody as 0 %. */
  lemma RateExtremes(labourers: seq<Labourer>, date: Day)
    requires labourers != []
    ensures (forall l :: l in labourers ==> PresentOn(l, date)) ==> PresentRate(labourers, Some(date)) == 100
    ensures (forall l :: l in labourers ==> !PresentOn(l, date)) ==> PresentRate(labourers, Some(date)) == 0
  {
    PresentCountExtremes(labourers, date);
    RoundedPercentExtremes(|labourers|);
  }

  // ---------------------------------------------------------------------------
  // Blocked jobs and the pending balance

  /** `blockedJobs`: how many work orders are blocked. */
  function BlockedJobs(orders: seq<WorkOrder>): (n: nat)
    ensures n <= |orders|
    ensures n == 0 <==> forall o :: o in orders ==> o.status != Blocked
  {
    var blocked := Filter(orders, StatusIs(Blocked));
    assert blocked != [] ==> blocked[0] in blocked;
    |blocked|
  }

  /** The Blocked Jobs tile and the agent console agree: one unblock suggestion
      per blocked job. */
  lemma BlockedTileMatchesConsole(orders: seq<WorkOrder>, contractors: seq<Contractor>)
    ensures BlockedJobs(orders) == |AgentConsole.BlockedSuggestions(orders, contractors)|
  {
    AgentConsole.BlockedCount(orders, contractors);
  }

  function BalanceOf(c: Contractor): int {
    c.balance
  }

  /** `totalBalance`: the contractors' balances summed. */
  function TotalBalance(contractors: seq<Contractor>): int {
    Sum(contractors, BalanceOf)
  }

  lemma TotalBalanceAppend(a: seq<Contractor>, b: seq<Contractor>)
    ensures TotalBalance(a + b) == TotalBalance(a) + TotalBalance(b)
  {
    SumAppend(a, b, BalanceOf);
  }

  /** With no contractor in debit, the total covers each single balance. */
  lemma {:induction false} TotalBalanceCoversEach(contractors: seq<Contractor>)
    requires forall c :: c in contractors ==> c.balance >= 0
    ensures TotalBalance(contractors) >= 0
    ensures forall c :: c in contractors ==> c.balance <= TotalBalance(contractors)
  {
    if contractors != [] {
      var init := contractors[..|contractors| - 1];
      assert forall c :: c in init ==> c in contractors;
      TotalBalanceCoversEach(init);
      assert contractors == init + [contractors[|contractors| - 1]];
    }
  }

  /** A pending total at or below the payout threshold, with no contractor in
      debit, leaves the agent console without payout suggestions. */
  lemma SmallTotalNoPayout(contractors: seq<Contractor>)
    requires forall c :: c in contractors ==> c.balance >= 0
    requires TotalBalance(contractors) <= AgentConsole.PayoutThreshold
    ensures AgentConsole.BalanceSuggestions(contractors) == []
  {
    TotalBalanceCoversEach(contractors);
    AgentConsole.BalanceCount(contractors);
  }

  // ---------------------------------------------------------------------------
  // The tiles

  datatype Metrics = Metrics(presentRate: int, blockedJobs: nat, totalBalance: int)

  /** `metrics`, computed from one read of the store. */
  function ComputeMetrics(snap: Snapshot): (m: Metrics)
    ensures 0 <= m.presentRate <= 100
    ensures snap.labourers == [] ==> m.presentRate == 0
    ensures m.blockedJobs <= |snap.workOrders|
    ensures (forall o :: o in snap.workOrders ==> o.status != Blocked) <==> m.blockedJobs == 0
  {
    var latest := LatestDate(snap.labourers);
    Metrics(PresentRate(snap.labourers, latest), BlockedJobs(snap.workOrders), TotalBalance(snap.contractors))
  }

  datatype Tone = Positive | Accent | Negative {
    /** How good the tone reads, worst first. */
    function Rank(): nat {
      match this
      case Negative => 0
      case Accent => 1
      case Positive => 2
    }
  }

  const AttendanceTarget := 92
  const AttendanceWarning := 85

  /** The Attendance Health tone: on target at 92 %, a warning from 85 %. */
  function AttendanceTone(presentRate: int): (tone: Tone)
    ensures tone == Positive <==> presentRate >= AttendanceTarget
    ensures tone == Accent <==> AttendanceWarning <= presentRate < AttendanceTarget
    ensures tone == Negative <==> presentRate < AttendanceWarning
  {
    if presentRate >= AttendanceTarget then Positive
    else if presentRate >= AttendanceWarning then Accent
    else Negative
  }

  /** A higher rate never reads worse. */
  lemma AttendanceToneMonotone(a: int, b: int)
    requires a <= b
    ensures AttendanceTone(a).Rank() <= AttendanceTone(b).Rank()
  {
  }

  /** The Blocked Jobs tone: positive exactly when nothing is blocked, never the accent. */
  function BlockedTone(blockedJobs: nat): (tone: Tone)
    ensures tone == Positive <==> blockedJobs == 0
    ensures tone != Accent
  {
    if blockedJobs == 0 then Positive else Negative
  }

  /** Full attendance on the latest date shows the attendance tile on target. */
  lemma FullAttendanceOnTarget(snap: Snapshot)
    requires snap.labourers != [] && LatestDate(snap.labourers).Some?
    requires forall l :: l in snap.labourers ==> PresentOn(l, LatestDate(snap.labourers).value)
    ensures AttendanceTone(ComputeMetrics(snap).presentRate) == Positive
  {
    RateExtremes(snap.labourers, LatestDate(snap.labourers).value);
  }
}
