/** The contractor ledger: per contractor its crew size, daily burn and runway, and
    the release form that hands a payment release to the store's `releasePayment`. */
module ContractorLedger {
  import opened Domain

  datatype LedgerEntry = LedgerEntry(
    contractor: Contractor,
    labourerCount: nat,
    dailyBurn: int,
    upcomingMilestones: int)

  /** `labourer?.rate ?? 0` for one crew id. */
  function RateOrZero(labourers: seq<Labourer>): string -> int {
    (id: string) => match FindLabourer(labourers, id)
                    case Some(l) => l.rate
                    case None => 0
  }

  function IsKnown(labourers: seq<Labourer>): string -> bool {
    (id: string) => FindLabourer(labourers, id).Some?
  }

  /** The summed rate of a crew. */
  function DailyBurn(labourers: seq<Labourer>, ids: seq<string>): int {
    Sum(ids, RateOrZero(labourers))
  }

  /** Ids that resolve to no labourer add nothing to the daily burn. */
  lemma {:induction false} DailyBurnIgnoresUnknown(labourers: seq<Labourer>, ids: seq<string>)
    ensures DailyBurn(labourers, ids) == DailyBurn(labourers, Filter(ids, IsKnown(labourers)))
  {
    if ids != [] {
      var n := |ids| - 1;
      DailyBurnIgnoresUnknown(labourers, ids[..n]);
      var known := Filter(ids[..n], IsKnown(labourers));
      if IsKnown(labourers)(ids[n]) {
        assert Filter(ids, IsKnown(labourers)) == known + [ids[n]];
        SumSnoc(known, ids[n], RateOrZero(labourers));
      } else {
        assert Filter(ids, IsKnown(labourers)) == known;
        assert RateOrZero(labourers)(ids[n]) == 0;
      }
    }
  }

  /** The daily burn of two crews laid end to end is the sum of their burns. */
  lemma DailyBurnAppend(labourers: seq<Labourer>, a: seq<string>, b: seq<string>)
    ensures DailyBurn(labourers, a + b) == DailyBurn(labourers, a) + DailyBurn(labourers, b)
  {
    SumAppend(a, b, RateOrZero(labourers));
  }

  /** The divisor of the runway, never below one. */
  function RunwayDivisor(totalRate: int): (d: int)
    ensures d >= 1
    ensures totalRate >= 1 ==> d == totalRate
  {
    Max(totalRate, 1)
  }

  /** Days of runway: the balance over the divisor, rounded half up. */
  function Runway(balance: int, totalRate: int): (days: int)
    ensures var d := RunwayDivisor(totalRate) as real;
            balance as real - d / 2.0 < days as real * d <= balance as real + d / 2.0
  {
    var d := RunwayDivisor(totalRate) as real;
    RoundScaled(balance as real, d);
    Round(balance as real / d)
  }

  /** A crew that burns nothing (none resolved, or rates summing to at most zero)
      leaves the whole balance as runway. */
  lemma IdleCrewRunway(balance: int, totalRate: int)
    requires totalRate <= 0
    ensures Runway(balance, totalRate) == balance
  {
    assert RunwayDivisor(totalRate) == 1;
    assert balance as real / 1.0 == balance as real;
  }

  function Entry(c: Contractor, labourers: seq<Labourer>): LedgerEntry {
    var totalRate := DailyBurn(labourers, c.labourers);
    LedgerEntry(c, |c.labourers|, totalRate, Runway(c.balance, totalRate))
  }

  /** `ledger`: one entry per contractor, in contractor order. The crew size counts
      every listed id, resolved or not. */
  function Ledger(contractors: seq<Contractor>, labourers: seq<Labourer>): (ledger: seq<LedgerEntry>)
    ensures |ledger| == |contractors|
    ensures forall k :: 0 <= k < |ledger| ==>
      && ledger[k].contractor == contractors[k]
      && ledger[k].labourerCount == |contractors[k].labourers|
      && ledger[k].dailyBurn == DailyBurn(labourers, contractors[k].labourers)
      && ledger[k].upcomingMilestones == Runway(contractors[k].balance, ledger[k].dailyBurn)
  {
    seq(|contractors|, k requires 0 <= k < |contractors| => Entry(contractors[k], labourers))
  }

  // ---------------------------------------------------------------------------
  // The release form

  /** The arguments of one `releasePayment` call. */
  datatype ReleasePayment = ReleasePayment(contractorId: string, amount: real)

  /** The contractor selected when the ledger opens: the first one, if any. */
  function InitialSelection(contractors: seq<Contractor>): (selected: Option<string>)
    ensures selected.None? <==> contractors == []
    ensures selected.Some? ==> selected.value == contractors[0].id
  {
    if contractors == [] then None else Some(contractors[0].id)
  }

  /** A selection counts when it is neither null nor the empty string. */
  predicate HasSelection(selected: Option<string>) {
    selected.Some? && selected.value != ""
  }

  /** What `handleRelease` sends to the store: nothing without a selection or with
      a zero amount, otherwise the selection and the amount as they stand. */
  function ReleaseRequest(selected: Option<string>, amount: real): (call: Option<ReleasePayment>)
    ensures call.Some? <==> HasSelection(selected) && amount != 0.0
    ensures call.Some? ==> call.value.contractorId == selected.value && call.value.amount == amount
  {
    if !HasSelection(selected) || amount == 0.0 then None
    else Some(ReleasePayment(selected.value, amount))
  }

  /** The release button is enabled iff the amount is positive and a contractor is selected. */
  predicate ReleaseEnabled(selected: Option<string>, amount: real) {
    amount > 0.0 && HasSelection(selected)
  }

  /** Whatever the enabled button sends, `handleRelease` passes on. */
  lemma EnabledButtonReleases(selected: Option<string>, amount: real)
    requires ReleaseEnabled(selected, amount)
    ensures ReleaseRequest(selected, amount) == Some(ReleasePayment(selected.value, amount))
  {
  }

  /** `handleRelease` alone rejects only a zero amount: a negative amount passes its
      guard, and it is the disabled button that keeps it from the store. */
  lemma NegativeAmountOnlyStoppedByButton()
    ensures ReleaseRequest(Some("c1"), -500.0).Some?
    ensures !ReleaseEnabled(Some("c1"), -500.0)
  {
  }

  /** The form's state and the `releasePayment` calls it has made. */
  class ReleaseForm {
    var selectedContractor: Option<string>
    var releaseAmount: real
    var released: seq<ReleasePayment>

    /** Every call made so far named a contractor and a non-zero amount. */
    ghost predicate Valid()
      reads this
    {
      forall k :: 0 <= k < |released| ==> released[k].contractorId != "" && released[k].amount != 0.0
    }

    constructor (contractors: seq<Contractor>)
      ensures Valid()
      ensures selectedContractor == InitialSelection(contractors)
      ensures releaseAmount == 0.0 && released == []
    {
      selectedContractor := InitialSelection(contractors);
      releaseAmount := 0.0;
      released := [];
    }

    /** The contractor drop-down. */
    method Select(id: string)
      requires Valid()
      modifies this
      ensures Valid()
      ensures selectedContractor == Some(id)
      ensures releaseAmount == old(releaseAmount) && released == old(released)
    {
      selectedContractor := Some(id);
    }

    /** The amount field. */
    method SetAmount(amount: real)
      requires Valid()
      modifies this
      ensures Valid()
      ensures releaseAmount == amount
      ensures selectedContractor == old(selectedContractor) && released == old(released)
    {
      releaseAmount := amount;
    }

    /** `handleRelease`: the guard, the call, then the amount back to zero. */
    method HandleRelease()
      requires Valid()
      modifies this
      ensures Valid()
      ensures selectedContractor == old(selectedContractor)
      ensures match ReleaseRequest(old(selectedContractor), old(releaseAmount))
              case None => released == old(released) && releaseAmount == old(releaseAmount)
              case Some(call) => released == old(released) + [call] && releaseAmount == 0.0
    {
      if !HasSelection(selectedContractor) || releaseAmount == 0.0 {
        return;
      }
      released := released + [ReleasePayment(selectedContractor.value, releaseAmount)];
      releaseAmount := 0.0;
    }
  }
}
