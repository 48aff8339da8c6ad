/**
  The "Create New Redistribution" form: six inputs, a validity test that
  only asks each of them to be filled in, a destination list that leaves out
  the branch being sent from, and a submit that either refuses with a toast
  or announces the schedule and leaves the page.
 */
module CreateRedistributionForm {
  import opened Wrappers
  import opened Seqs

  /** A calendar day picked in the date popover. */
  datatype Date = Date(year: int, month: int, day: int)

  /** The six inputs at one moment; `selectedDate` is `None` until a day is picked. */
  datatype Draft = Draft(
    selectedItem: string,
    fromBranch: string,
    toBranch: string,
    selectedDate: Option<Date>,
    selectedTime: string,
    quantity: string)

  /** The state the form starts in: the sender preset to "Main Branch", nothing else chosen. */
  const InitialDraft := Draft("", "Main Branch", "", None, "", "")

  /** Every input is filled in (a non-empty string is truthy, a picked date is truthy). */
  predicate IsFormValid(d: Draft)
  {
    d.selectedItem != "" && d.fromBranch != "" && d.toBranch != "" &&
    d.selectedDate.Some? && d.selectedTime != "" && d.quantity != ""
  }

  /** What a submit leads to. `Scheduled` is the success toast followed by the move to the management page. */
  datatype SubmitOutcome =
    | MissingFieldsToast
    | Scheduled(item: string, from: string, to: string, date: Date, time: string)

  function Submit(d: Draft): (o: SubmitOutcome)
    ensures o == MissingFieldsToast <==> !IsFormValid(d)
    ensures o.Scheduled? ==>
              o.item == d.selectedItem && o.from == d.fromBranch && o.to == d.toBranch &&
              d.selectedDate == Some(o.date) && o.time == d.selectedTime
  {
    if !IsFormValid(d) then MissingFieldsToast
    else Scheduled(d.selectedItem, d.fromBranch, d.toBranch, d.selectedDate.value, d.selectedTime)
  }

  function OtherBranch(from: string): string -> bool
  {
    b => b != from
  }

  /** `branches.filter(branch => branch !== fromBranch)`. */
  function DestinationOptions(branches: seq<string>, from: string): seq<string>
  {
    Filter(branches, OtherBranch(from))
  }

  /** The form opens invalid, so its submit button starts disabled and a submit only toasts. */
  lemma InitialDraftIsInvalid()
    ensures !IsFormValid(InitialDraft)
    ensures Submit(InitialDraft) == MissingFieldsToast
  {
  }

  /**
    Validity does not compare the two branches: once a destination is
    chosen, changing the sender to the same branch keeps the form valid.
   */
  lemma SameBranchCanBeValid(d: Draft)
    requires IsFormValid(d)
    ensures IsFormValid(d.(fromBranch := d.toBranch))
    ensures Submit(d.(fromBranch := d.toBranch)).Scheduled?
  {
  }

  /** Clearing any one input makes the form invalid. */
  lemma EveryInputIsRequired(d: Draft)
    ensures !IsFormValid(d.(selectedItem := ""))
    ensures !IsFormValid(d.(fromBranch := ""))
    ensures !IsFormValid(d.(toBranch := ""))
    ensures !IsFormValid(d.(selectedDate := None))
    ensures !IsFormValid(d.(selectedTime := ""))
    ensures !IsFormValid(d.(quantity := ""))
  {
  }

  /** The destination list is the branch list without the sender, in the branch list's order. */
  lemma DestinationOptionsMembers(branches: seq<string>, from: string, b: string)
    ensures b in DestinationOptions(branches, from) <==> b in branches && b != from
    ensures from !in DestinationOptions(branches, from)
    ensures IsSubsequence(DestinationOptions(branches, from), branches)
  {
    var p := OtherBranch(from);
    FilterIsSubsequence(branches, p);
    if b in branches && b != from {
      var i :| 0 <= i < |branches| && branches[i] == b;
    }
    var f := Filter(branches, p);
    if b in f {
      var i :| 0 <= i < |f| && f[i] == b;
    }
  }

  /** A sender that is not in the branch list removes nothing. */
  lemma DestinationOptionsUnknownSender(branches: seq<string>, from: string)
    requires from !in branches
    ensures DestinationOptions(branches, from) == branches
  {
    FilterAllPass(branches, OtherBranch(from));
  }

  /** The form's state: one field per input. */
  class CreateRedistributionFormState {
    var selectedItem: string
    var fromBranch: string
    var toBranch: string
    var selectedDate: Option<Date>
    var selectedTime: string
    var quantity: string

    function Current(): Draft
      reads this
    {
      Draft(selectedItem, fromBranch, toBranch, selectedDate, selectedTime, quantity)
    }

    constructor ()
      ensures Current() == InitialDraft
    {
      selectedItem := "";
      fromBranch := "Main Branch";
      toBranch := "";
      selectedDate := None;
      selectedTime := "";
      quantity := "";
    }

    /** The submit button's `disabled` attribute. */
    predicate SubmitDisabled()
      reads this
    {
      !IsFormValid(Current())
    }

    method SetSelectedItem(v: string)
      modifies this
      ensures Current() == old(Current()).(selectedItem := v)
    {
      selectedItem := v;
    }

    /** Changing the sender does not clear a destination chosen before. */
    method SetFromBranch(v: string)
      modifies this
      ensures Current() == old(Current()).(fromBranch := v)
    {
      fromBranch := v;
    }

    method SetToBranch(v: string)
      modifies this
      ensures Current() == old(Current()).(toBranch := v)
    {
      toBranch := v;
    }

    method SetSelectedDate(v: Option<Date>)
      modifies this
      ensures Current() == old(Current()).(selectedDate := v)
    {
      selectedDate := v;
    }

    method SetSelectedTime(v: string)
      modifies this
      ensures Current() == old(Current()).(selectedTime := v)
    {
      selectedTime := v;
    }

    method SetQuantity(v: string)
      modifies this
      ensures Current() == old(Current()).(quantity := v)
    {
      quantity := v;
    }

    /**
      `handleSubmit`: an invalid form gets the "complete all fields" toast; a
      valid one gets the schedule toast and the navigation. Neither changes
      the form's state.
     */
    method HandleSubmit() returns (outcome: SubmitOutcome)
      ensures outcome == Submit(Current())
      ensures outcome == MissingFieldsToast <==> SubmitDisabled()
    {
      if !IsFormValid(Current()) {
        outcome := MissingFieldsToast;
        return;
      }
      outcome := Scheduled(selectedItem, fromBranch, toBranch, selectedDate.value, selectedTime);
    }
  }
}
