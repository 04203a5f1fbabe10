/** The attendance matrix: the calendar of attendance dates in ascending order, and
    the toggle policy that turns a click on a (labourer, date) cell into the record
    handed to the store's `saveAttendance`. */
module AttendanceMatrix {
  import opened Domain

  // ---------------------------------------------------------------------------
  // Toggle policy

  /** The status a cell currently shows to the toggle: that of the labourer's first
      record on `date`, and `absent` when the labourer or the record is missing. */
  function ExistingStatus(labourers: seq<Labourer>, labourerId: string, date: Day): (status: AttendanceStatus)
    ensures FindLabourer(labourers, labourerId).None? ==> status == Absent
    ensures FindLabourer(labourers, labourerId).Some? ==>
      var attendance := FindLabourer(labourers, labourerId).value.attendance;
      var k := FindIndex(attendance, OnDate(date));
      status == if k < |attendance| then attendance[k].status else Absent
  {
    match FindLabourer(labourers, labourerId)
    case None => Absent
    case Some(labourer) =>
      match RecordOn(labourer.attendance, date)
      case None => Absent
      case Some(record) => record.status
  }

  /** Clicking with the status already shown clears the cell to `absent`;
      any other click sets the selected status. */
  function Toggled(existing: AttendanceStatus, selected: AttendanceStatus): (status: AttendanceStatus)
    ensures status == Absent || status == selected
    ensures status == selected <==> existing != selected || selected == Absent
  {
    if existing == selected then Absent else selected
  }

  /** Hours saved with each status. */
  function HoursFor(status: AttendanceStatus): (hours: Option<int>)
    ensures hours.None? <==> status == Absent
    ensures hours.Some? ==> hours.value > 0
  {
    match status
    case Present => Some(8)
    case Half => Some(4)
    case Overtime => Some(10)
    case Absent => None
  }

  /** The store's record invariant: `absent` carries no hours, every other status a
      positive number of hours. */
  predicate WellFormedRecord(record: AttendanceRecord) {
    (record.status == Absent <==> record.hours.None?) &&
    (record.hours.Some? ==> record.hours.value > 0)
  }

  /** The arguments of one `saveAttendance` call. */
  datatype SaveAttendance = SaveAttendance(labourerId: string, record: AttendanceRecord)

  /** A click on the cell of `labourerId` on `date` while `selected` is chosen. */
  function HandleToggle(labourers: seq<Labourer>, labourerId: string, date: Day, selected: AttendanceStatus)
    : (call: SaveAttendance)
    ensures call.labourerId == labourerId && call.record.date == date
    ensures call.record.status == Toggled(ExistingStatus(labourers, labourerId, date), selected)
    ensures call.record.hours == HoursFor(call.record.status)
    ensures WellFormedRecord(call.record)
    ensures selected == Absent ==> call.record.status == Absent
  {
    var existingStatus := ExistingStatus(labourers, labourerId, date);
    var toggledStatus := Toggled(existingStatus, selected);
    SaveAttendance(labourerId, AttendanceRecord(date, toggledStatus, HoursFor(toggledStatus)))
  }

  /** A cell with no record reads as `absent`, so a first click with a working
      status records that status. */
  lemma {:induction false} FirstClickRecords(labourers: seq<Labourer>, labourerId: string, date: Day, selected: AttendanceStatus)
    requires forall l :: l in labourers && l.id == labourerId ==>
               forall r :: r in l.attendance ==> r.date != date
    ensures HandleToggle(labourers, labourerId, date, selected).record.status == selected
  {
    match FindLabourer(labourers, labourerId)
    case None =>
    case Some(labourer) =>
      var k :| 0 <= k < |labourers| && labourers[k] == labourer && HasLabourerId(labourerId)(labourers[k]);
      assert labourer in labourers;
  }

  /** Repeated clicks with one selected status alternate between that status and
      `absent`, whatever the cell showed before the first click. */
  lemma ClicksAlternate(existing: AttendanceStatus, selected: AttendanceStatus)
    ensures var once := Toggled(existing, selected);
            Toggled(Toggled(once, selected), selected) == once
  {
  }

  // ---------------------------------------------------------------------------
  // The calendar header

  predicate Ascending(s: seq<Day>) {
    forall i, j :: 0 <= i < j < |s| ==> s[i] <= s[j]
  }

  /** `Array.prototype.sort` with the ascending comparator, on an array in place
      (an insertion sort). */
  method SortInPlace(a: array<Day>)
    modifies a
    ensures Ascending(a[..])
    ensures multiset(a[..]) == multiset(old(a[..]))
  {
    for i := 0 to a.Length
      invariant forall p, q :: 0 <= p < q < i ==> a[p] <= a[q]
      invariant multiset(a[..]) == multiset(old(a[..]))
    {
      InsertBackwards(a, i);
    }
  }

  /** Moves `a[i]` left past every larger element of the sorted prefix `a[..i]`. */
  method InsertBackwards(a: array<Day>, i: nat)
    requires i < a.Length
    requires forall p, q :: 0 <= p < q < i ==> a[p] <= a[q]
    modifies a
    ensures forall p, q :: 0 <= p < q <= i ==> a[p] <= a[q]
    ensures multiset(a[..]) == multiset(old(a[..]))
  {
    var j := i;
    while j > 0 && a[j - 1] > a[j]
      invariant 0 <= j <= i
      invariant forall p, q :: 0 <= p < q <= i && p != j && q != j ==> a[p] <= a[q]
      invariant forall q :: j < q <= i ==> a[j] <= a[q]
      invariant multiset(a[..]) == multiset(old(a[..]))
    {
      a[j - 1], a[j] := a[j], a[j - 1];
      j := j - 1;
    }
  }

  /** `sortedDates`: the store's attendance dates, copied and sorted ascending. The
      store's own sequence is a value and stays as it was. */
  method SortedDates(attendanceDates: seq<Day>) returns (sorted: seq<Day>)
    ensures Ascending(sorted)
    ensures multiset(sorted) == multiset(attendanceDates)
  {
    var copy := new Day[|attendanceDates|](i requires 0 <= i < |attendanceDates| => attendanceDates[i]);
    assert copy[..] == attendanceDates;
    SortInPlace(copy);
    sorted := copy[..];
  }

  lemma HeadIsLeast(s: seq<Day>, x: Day)
    requires Ascending(s) && x in multiset(s)
    ensures s != [] && s[0] <= x
  {
    assert x in s;
  }

  lemma AscendingTail(s: seq<Day>)
    requires Ascending(s) && s != []
    ensures Ascending(s[1..])
    ensures multiset(s[1..]) == multiset(s) - multiset{s[0]}
  {
    assert s == [s[0]] + s[1..];
  }

  lemma HeadTailEqual(a: seq<Day>, b: seq<Day>)
    requires a != [] && b != [] && a[0] == b[0] && a[1..] == b[1..]
    ensures a == b
  {
    assert a == [a[0]] + a[1..];
    assert b == [b[0]] + b[1..];
  }

  /** An ascending permutation is unique: whatever sort produced it, the calendar
      header for a given set of dates is determined. */
  lemma {:induction false} AscendingPermutationUnique(a: seq<Day>, b: seq<Day>)
    requires Ascending(a) && Ascending(b)
    requires multiset(a) == multiset(b)
    ensures a == b
  {
    if a == [] {
      assert |b| == |multiset(b)| == 0;
    } else {
      HeadIsLeast(b, a[0]);
      HeadIsLeast(a, b[0]);
      AscendingTail(a);
      AscendingTail(b);
      assert a[0] == b[0];
      AscendingPermutationUnique(a[1..], b[1..]);
      HeadTailEqual(a, b);
    }
  }
}
