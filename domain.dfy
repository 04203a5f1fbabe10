/** Entities of the workforce store as the dashboard components read them, and the
    small array helpers those components lean on: `find`, `filter`, a summing
    `reduce` and `Math.round`. Calendar days are day numbers. */
module Domain {

  datatype Option<+T> = None | Some(value: T) {

    /** The value, or `default` when there is none (the `??` operator). */
    function GetOr(default: T): T {
      match this
      case Some(v) => v
      case None => default
    }

    /** Zero or one element, as pushed by a rule that may or may not fire. */
    function ToSeq(): (s: seq<T>)
      ensures |s| <= 1
      ensures None? <==> s == []
      ensures Some? ==> s == [value]
    {
      match this
      case Some(v) => [v]
      case None => []
    }
  }

  /** A calendar day as a day number. */
  type Day = int

  datatype AttendanceStatus = Present | Absent | Half | Overtime

  datatype AttendanceRecord = AttendanceRecord(date: Day, status: AttendanceStatus, hours: Option<int>)

  datatype Labourer = Labourer(
    id: string,
    name: string,
    role: string,
    rate: int,
    attendance: seq<AttendanceRecord>)

  datatype Contractor = Contractor(
    id: string,
    name: string,
    company: string,
    contact: string,
    balance: int,
    labourers: seq<string>)

  datatype WorkOrderStatus = Scheduled | InProgress | Completed | Blocked

  datatype WorkOrder = WorkOrder(
    id: string,
    title: string,
    contractorId: string,
    labourers: seq<string>,
    status: WorkOrderStatus,
    startDate: Day,
    endDate: Option<Day>,
    estimatedHours: int,
    location: string,
    notes: Option<string>)

  /** What a component reads from the store: each id-keyed collection as its
      sequence of values, in `Object.values` order. */
  datatype Snapshot = Snapshot(
    labourers: seq<Labourer>,
    contractors: seq<Contractor>,
    workOrders: seq<WorkOrder>)

  // ---------------------------------------------------------------------------
  // Array.prototype.find

  /** Index of the first element satisfying `p`, or `|s|` when there is none. */
  function FindIndex<T>(s: seq<T>, p: T -> bool): (k: nat)
    ensures k <= |s|
    ensures forall j :: 0 <= j < k ==> !p(s[j])
    ensures k < |s| ==> p(s[k])
  {
    if s == [] then 0
    else if p(s[0]) then 0
    else 1 + FindIndex(s[1..], p)
  }

  /** The first element satisfying `p`, if any. */
  function Find<T>(s: seq<T>, p: T -> bool): (r: Option<T>)
    ensures r.None? <==> forall j :: 0 <= j < |s| ==> !p(s[j])
    ensures r.Some? ==> exists k :: 0 <= k < |s| && s[k] == r.value && p(s[k]) &&
                                    forall j :: 0 <= j < k ==> !p(s[j])
  {
    var k := FindIndex(s, p);
    if k < |s| then Some(s[k]) else None
  }

  function HasLabourerId(id: string): Labourer -> bool {
    (l: Labourer) => l.id == id
  }

  function HasContractorId(id: string): Contractor -> bool {
    (c: Contractor) => c.id == id
  }

  function OnDate(date: Day): AttendanceRecord -> bool {
    (r: AttendanceRecord) => r.date == date
  }

  function StatusIs(status: WorkOrderStatus): WorkOrder -> bool {
    (o: WorkOrder) => o.status == status
  }

  /** The labourer stored under `id`. */
  function FindLabourer(labourers: seq<Labourer>, id: string): Option<Labourer> {
    Find(labourers, HasLabourerId(id))
  }

  /** The contractor stored under `id`. */
  function FindContractor(contractors: seq<Contractor>, id: string): Option<Contractor> {
    Find(contractors, HasContractorId(id))
  }

  /** The first attendance record of a labourer on `date`, if any. */
  function RecordOn(attendance: seq<AttendanceRecord>, date: Day): Option<AttendanceRecord> {
    Find(attendance, OnDate(date))
  }

  // ---------------------------------------------------------------------------
  // Array.prototype.filter

  /** The elements satisfying `p`, in their original order. */
  function Filter<T(!new)>(s: seq<T>, p: T -> bool): (r: seq<T>)
    ensures |r| <= |s|
    ensures forall x :: x in r <==> x in s && p(x)
  {
    if s == [] then []
    else
      var init, last := s[..|s| - 1], s[|s| - 1];
      assert s == init + [last];
      Filter(init, p) + (if p(last) then [last] else [])
  }

  /** The positions of the elements satisfying `p`, in increasing order. */
  function MatchingIndices<T>(s: seq<T>, p: T -> bool): (ix: seq<nat>)
    ensures forall k :: 0 <= k < |ix| ==> ix[k] < |s| && p(s[ix[k]])
    ensures forall k, m :: 0 <= k < m < |ix| ==> ix[k] < ix[m]
    ensures forall i :: 0 <= i < |s| && p(s[i]) ==> i in ix
  {
    if s == [] then []
    else
      var n := |s| - 1;
      var ix := MatchingIndices(s[..n], p);
      ix + (if p(s[n]) then [n] else [])
  }

  /** `filter` keeps exactly the matching elements and keeps their relative order:
      its result is the input read at the increasing list of matching positions. */
  lemma {:induction false} FilterKeepsOrder<T(!new)>(s: seq<T>, p: T -> bool)
    ensures |Filter(s, p)| == |MatchingIndices(s, p)|
    ensures forall k :: 0 <= k < |Filter(s, p)| ==> Filter(s, p)[k] == s[MatchingIndices(s, p)[k]]
  {
    if s != [] {
      var n := |s| - 1;
      FilterKeepsOrder(s[..n], p);
      var f, ix := Filter(s[..n], p), MatchingIndices(s[..n], p);
      var tail, tailIx := if p(s[n]) then [s[n]] else [], if p(s[n]) then [n] else [];
      assert Filter(s, p) == f + tail;
      assert MatchingIndices(s, p) == ix + tailIx;
      forall k | 0 <= k < |f| + |tail| ensures (f + tail)[k] == s[(ix + tailIx)[k]] {
        if k < |f| {
          assert s[..n][ix[k]] == s[ix[k]];
        }
      }
    }
  }

  // ---------------------------------------------------------------------------
  // reduce((acc, x) => acc + f(x), 0)

  function Sum<T>(s: seq<T>, f: T -> int): int {
    if s == [] then 0 else Sum(s[..|s| - 1], f) + f(s[|s| - 1])
  }

  lemma SumSnoc<T>(s: seq<T>, x: T, f: T -> int)
    ensures Sum(s + [x], f) == Sum(s, f) + f(x)
  {
    assert (s + [x])[..|s|] == s;
  }

  lemma {:induction false} SumAppend<T>(a: seq<T>, b: seq<T>, f: T -> int)
    ensures Sum(a + b, f) == Sum(a, f) + Sum(b, f)
  {
    if b != [] {
      var n := |b| - 1;
      assert (a + b)[..|a + b| - 1] == a + b[..n];
      SumAppend(a, b[..n], f);
    } else {
      assert a + b == a;
    }
  }

  // ---------------------------------------------------------------------------
  // Math.round

  /** The integer nearest to `x`, halves rounded up. */
  function Round(x: real): (r: int)
    ensures x - 0.5 < r as real <= x + 0.5
  {
    (x + 0.5).Floor
  }

  /** Scaling the rounding bounds of `x / d` back by `d`. */
  lemma RoundScaled(b: real, d: real)
    requires d > 0.0
    ensures b - d / 2.0 < Round(b / d) as real * d <= b + d / 2.0
  {
    var x, r := b / d, Round(b / d) as real;
    assert x * d == b;
    // r - (x - 0.5) > 0 and (x + 0.5) - r >= 0, each scaled by d
    ScaleDifference(r, x - 0.5, d);
    ScaleDifference(x + 0.5, r, d);
  }

  lemma ScaleDifference(p: real, q: real, d: real)
    requires d > 0.0
    ensures (p - q) * d == p * d - q * d
    ensures p > q ==> p * d > q * d
    ensures p >= q ==> p * d >= q * d
    ensures (q + 0.5) * d == q * d + d / 2.0 && (q - 0.5) * d == q * d - d / 2.0
    ensures (p + 0.5) * d == p * d + d / 2.0
  {
  }

  function Max(a: int, b: int): (m: int)
    ensures m >= a && m >= b && (m == a || m == b)
  {
    if a >= b then a else b
  }
}
