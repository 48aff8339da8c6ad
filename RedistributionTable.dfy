/**
  The redistribution schedule: a list of scheduled transfers narrowed by a
  search, a status filter, an item filter and a tab; a cancel dialog and a
  reschedule dialog that rewrite the one record whose id they were opened
  for; and the list of item names offered by the item filter.
 */
module RedistributionTable {
  import opened Wrappers
  import opened Seqs
  import opened Text

  datatype Status = Scheduled | InTransit | Delivered | Cancelled

  datatype Redistribution = Redistribution(
    id: int,
    itemName: string,
    stockTransition: string,
    from: string,
    to: string,
    quantity: string,
    status: Status,
    scheduledDate: string,
    scheduledTime: string)

  /** The status as the text the status filter compares it with. */
  function StatusName(s: Status): string
  {
    match s
    case Scheduled => "Scheduled"
    case InTransit => "In Transit"
    case Delivered => "Delivered"
    case Cancelled => "Cancelled"
  }

  /** A dialog's visibility and the record id it was opened for (`null` is `None`). */
  datatype Modal = Modal(open: bool, id: Option<int>)

  const Closed := Modal(false, None)

  /** JavaScript truthiness of a `number | null` id: `null` and `0` are false. */
  predicate Truthy(id: Option<int>)
  {
    id.Some? && id.value != 0
  }

  // ---- the row filter ----

  predicate MatchesSearch(r: Redistribution, searchTerm: string)
  {
    ContainsIgnoringCase(r.itemName, searchTerm) ||
    ContainsIgnoringCase(r.from, searchTerm) ||
    ContainsIgnoringCase(r.to, searchTerm)
  }

  predicate MatchesStatus(r: Redistribution, statusFilter: string)
  {
    statusFilter == "all" || StatusName(r.status) == statusFilter
  }

  predicate MatchesItem(r: Redistribution, itemFilter: string)
  {
    itemFilter == "all" || r.itemName == itemFilter
  }

  /** The tabs: all, scheduled, completed (= delivered), cancelled; an unknown tab matches nothing. */
  predicate MatchesTab(r: Redistribution, tab: string)
  {
    tab == "all" ||
    (tab == "scheduled" && r.status == Scheduled) ||
    (tab == "completed" && r.status == Delivered) ||
    (tab == "cancelled" && r.status == Cancelled)
  }

  predicate Shown(r: Redistribution, searchTerm: string, statusFilter: string, itemFilter: string, tab: string)
  {
    MatchesSearch(r, searchTerm) && MatchesStatus(r, statusFilter) &&
    MatchesItem(r, itemFilter) && MatchesTab(r, tab)
  }

  function Shower(searchTerm: string, statusFilter: string, itemFilter: string, tab: string): Redistribution -> bool
  {
    r => Shown(r, searchTerm, statusFilter, itemFilter, tab)
  }

  function FilteredRedistributions(rs: seq<Redistribution>, searchTerm: string, statusFilter: string,
                                   itemFilter: string, tab: string): seq<Redistribution>
  {
    Filter(rs, Shower(searchTerm, statusFilter, itemFilter, tab))
  }

  // ---- the record updates ----

  function CancelIfId(id: int): Redistribution -> Redistribution
  {
    (r: Redistribution) => if r.id == id then r.(status := Cancelled) else r
  }

  /** `prev.map(item => item.id === id ? { ...item, status: 'Cancelled' } : item)`. */
  function CancelById(rs: seq<Redistribution>, id: int): seq<Redistribution>
  {
    Map(rs, CancelIfId(id))
  }

  function RescheduleIfId(id: int, date: string, time: string): Redistribution -> Redistribution
  {
    (r: Redistribution) => if r.id == id then r.(scheduledDate := date, scheduledTime := time) else r
  }

  function RescheduleById(rs: seq<Redistribution>, id: int, date: string, time: string): seq<Redistribution>
  {
    Map(rs, RescheduleIfId(id, date, time))
  }

  /** `Array.from(new Set(redistributions.map(r => r.itemName)))`. */
  function ItemName(r: Redistribution): string
  {
    r.itemName
  }

  /** What confirming the cancel dialog does to the schedule, given its pending id. */
  function ApplyCancel(rs: seq<Redistribution>, pending: Option<int>): seq<Redistribution>
  {
    if Truthy(pending) then CancelById(rs, pending.value) else rs
  }

  /** What confirming the reschedule dialog does to the schedule, given its pending id, day and time. */
  function ApplyReschedule(rs: seq<Redistribution>, pending: Option<int>, date: Option<string>, time: string): seq<Redistribution>
  {
    if Truthy(pending) && date.Some? && time != "" then RescheduleById(rs, pending.value, date.value, time) else rs
  }

  function UniqueItems(rs: seq<Redistribution>): seq<string>
  {
    Dedup(Map(rs, ItemName))
  }

  datatype RowAction = CancelAction | RescheduleAction | EditRouteAction

  /** The actions menu of a row; an empty menu is the disabled "No actions available". */
  function RowActions(r: Redistribution): seq<RowAction>
  {
    if r.status == Scheduled then [CancelAction, RescheduleAction, EditRouteAction] else []
  }

  // ---- properties of the filter ----

  /** A row is listed iff it passes all four tests, and the listing keeps the schedule's order. */
  lemma FilteredMembers(rs: seq<Redistribution>, searchTerm: string, statusFilter: string,
                        itemFilter: string, tab: string, r: Redistribution)
    ensures r in FilteredRedistributions(rs, searchTerm, statusFilter, itemFilter, tab) <==>
              r in rs && MatchesSearch(r, searchTerm) && MatchesStatus(r, statusFilter) &&
              MatchesItem(r, itemFilter) && MatchesTab(r, tab)
    ensures IsSubsequence(FilteredRedistributions(rs, searchTerm, statusFilter, itemFilter, tab), rs)
  {
    var p := Shower(searchTerm, statusFilter, itemFilter, tab);
    FilterIsSubsequence(rs, p);
    if r in rs && p(r) {
      var i :| 0 <= i < |rs| && rs[i] == r;
    }
    var f := Filter(rs, p);
    if r in f {
      var i :| 0 <= i < |f| && f[i] == r;
    }
  }

  /** Each named tab shows exactly one status; a row in transit appears only under the "all" tab. */
  lemma TabMapping(r: Redistribution, tab: string)
    ensures tab == "scheduled" ==> (MatchesTab(r, tab) <==> r.status == Scheduled)
    ensures tab == "completed" ==> (MatchesTab(r, tab) <==> r.status == Delivered)
    ensures tab == "cancelled" ==> (MatchesTab(r, tab) <==> r.status == Cancelled)
    ensures r.status == InTransit ==> (MatchesTab(r, tab) <==> tab == "all")
  {
  }

  /** No search term and every filter at "all": the whole schedule, in order. */
  lemma DefaultFiltersShowAll(rs: seq<Redistribution>)
    ensures FilteredRedistributions(rs, "", "all", "all", "all") == rs
  {
    forall i | 0 <= i < |rs| ensures Shower("", "all", "all", "all")(rs[i]) {
      EmptyIsEverywhere(rs[i].itemName);
    }
    FilterAllPass(rs, Shower("", "all", "all", "all"));
  }

  // ---- properties of the updates ----

  /**
    Cancelling rewrites the status of the rows with the id and nothing else:
    same length, same order, the other rows and all other fields unchanged.
   */
  lemma CancelByIdEffect(rs: seq<Redistribution>, id: int)
    ensures |CancelById(rs, id)| == |rs|
    ensures forall i :: 0 <= i < |rs| && rs[i].id == id ==> CancelById(rs, id)[i] == rs[i].(status := Cancelled)
    ensures forall i :: 0 <= i < |rs| && rs[i].id != id ==> CancelById(rs, id)[i] == rs[i]
  {
  }

  /** Cancelling twice is cancelling once. */
  lemma CancelIdempotent(rs: seq<Redistribution>, id: int)
    ensures CancelById(CancelById(rs, id), id) == CancelById(rs, id)
  {
  }

  /** After a cancel no row with that id offers any action: cancellation is final. */
  lemma CancelledRowsOfferNothing(rs: seq<Redistribution>, id: int)
    ensures forall i :: 0 <= i < |rs| && rs[i].id == id ==> RowActions(CancelById(rs, id)[i]) == []
  {
  }

  /** Rescheduling changes the date and time of the rows with the id and nothing else. */
  lemma RescheduleByIdEffect(rs: seq<Redistribution>, id: int, date: string, time: string)
    ensures |RescheduleById(rs, id, date, time)| == |rs|
    ensures forall i :: 0 <= i < |rs| && rs[i].id == id ==>
              RescheduleById(rs, id, date, time)[i] == rs[i].(scheduledDate := date, scheduledTime := time)
    ensures forall i :: 0 <= i < |rs| && rs[i].id != id ==> RescheduleById(rs, id, date, time)[i] == rs[i]
  {
  }

  /**
    The truthiness test makes a pending id of `0` behave like `null`: a row
    with id 0 can be neither cancelled nor rescheduled, whatever its status.
   */
  lemma ZeroIdIsNeverApplied(rs: seq<Redistribution>, date: Option<string>, time: string)
    ensures ApplyCancel(rs, Some(0)) == rs && ApplyCancel(rs, None) == rs
    ensures ApplyReschedule(rs, Some(0), date, time) == rs && ApplyReschedule(rs, None, date, time) == rs
  {
  }

  /** Only scheduled rows offer Cancel, Reschedule and Edit Route. */
  lemma ActionsOnlyWhenScheduled(r: Redistribution)
    ensures RowActions(r) != [] <==> r.status == Scheduled
    ensures CancelAction in RowActions(r) <==> r.status == Scheduled
  {
  }

  /** The item filter offers every item name exactly once, in order of first appearance. */
  lemma UniqueItemsAreDistinct(rs: seq<Redistribution>)
    ensures NoDuplicates(UniqueItems(rs))
    ensures forall i :: 0 <= i < |rs| ==> rs[i].itemName in UniqueItems(rs)
    ensures forall n :: n in UniqueItems(rs) ==> exists i :: 0 <= i < |rs| && rs[i].itemName == n
    ensures forall i, j :: 0 <= i < j < |UniqueItems(rs)| ==>
              IndexOf(Map(rs, ItemName), UniqueItems(rs)[i]) < IndexOf(Map(rs, ItemName), UniqueItems(rs)[j])
  {
    UniqueItemsCoverNames(rs);
    UniqueItemsAreNames(rs);
    UniqueItemsInFirstOccurrenceOrder(rs);
  }

  lemma UniqueItemsCoverNames(rs: seq<Redistribution>)
    ensures forall i :: 0 <= i < |rs| ==> rs[i].itemName in UniqueItems(rs)
  {
    var names := Map(rs, ItemName);
    forall i | 0 <= i < |rs| ensures rs[i].itemName in UniqueItems(rs) {
      assert names[i] == ItemName(rs[i]) == rs[i].itemName;
      assert names[i] in Dedup(names);
    }
  }

  lemma UniqueItemsAreNames(rs: seq<Redistribution>)
    ensures forall n :: n in UniqueItems(rs) ==> exists i :: 0 <= i < |rs| && rs[i].itemName == n
  {
    var names := Map(rs, ItemName);
    var u := Dedup(names);
    forall n | n in u ensures exists i :: 0 <= i < |rs| && rs[i].itemName == n {
      var k :| 0 <= k < |u| && u[k] == n;
      assert n in names;
      var i :| 0 <= i < |names| && names[i] == n;
      assert names[i] == ItemName(rs[i]) == rs[i].itemName;
    }
  }

  lemma UniqueItemsInFirstOccurrenceOrder(rs: seq<Redistribution>)
    ensures forall i, j :: 0 <= i < j < |UniqueItems(rs)| ==>
              IndexOf(Map(rs, ItemName), UniqueItems(rs)[i]) < IndexOf(Map(rs, ItemName), UniqueItems(rs)[j])
  {
    var names := Map(rs, ItemName);
    forall i, j | 0 <= i < j < |Dedup(names)|
      ensures Dedup(names)[i] in names && Dedup(names)[j] in names
      ensures IndexOf(names, Dedup(names)[i]) < IndexOf(names, Dedup(names)[j])
    {
      DedupFirstOccurrenceOrder(names, i, j);
    }
  }

  /** The schedule table's state: the records, the four filter inputs, the three dialogs and the reschedule form. */
  class RedistributionTableState {
    var redistributions: seq<Redistribution>
    var searchTerm: string
    var statusFilter: string
    var itemFilter: string
    var selectedTab: string
    var cancelModal: Modal
    var rescheduleModal: Modal
    var editRouteModal: Modal
    /**
      The picked day, already as the `YYYY-MM-DD` text that
      `toISOString().split('T')[0]` stores; `None` is `undefined`.
     */
    var rescheduleDate: Option<string>
    var rescheduleTime: string
    var rescheduleNotes: string

    constructor (initial: seq<Redistribution>)
      ensures redistributions == initial && Filters() == ("", "all", "all", "all")
      ensures Dialogs() == (Closed, Closed, Closed)
      ensures RescheduleForm() == (None, "", "")
      ensures Listed() == initial
    {
      redistributions := initial;
      DefaultFiltersShowAll(initial);
      searchTerm, statusFilter, itemFilter, selectedTab := "", "all", "all", "all";
      cancelModal, rescheduleModal, editRouteModal := Closed, Closed, Closed;
      rescheduleDate, rescheduleTime, rescheduleNotes := None, "", "";
    }

    /** The search term, status filter, item filter and tab. */
    function Filters(): (string, string, string, string)
      reads this
    {
      (searchTerm, statusFilter, itemFilter, selectedTab)
    }

    /** The cancel, reschedule and edit-route dialogs. */
    function Dialogs(): (Modal, Modal, Modal)
      reads this
    {
      (cancelModal, rescheduleModal, editRouteModal)
    }

    /** The day, time and notes of the reschedule dialog. */
    function RescheduleForm(): (Option<string>, string, string)
      reads this
    {
      (rescheduleDate, rescheduleTime, rescheduleNotes)
    }

    /** The rows listed under the current search, filters and tab. */
    function Listed(): seq<Redistribution>
      reads this
    {
      FilteredRedistributions(redistributions, searchTerm, statusFilter, itemFilter, selectedTab)
    }

    /** The search box, the two filter selects and the tabs each set their own input only. */
    method SetSearchTerm(v: string)
      modifies this
      ensures Filters() == old(Filters()).(0 := v)
      ensures redistributions == old(redistributions) && Dialogs() == old(Dialogs())
      ensures RescheduleForm() == old(RescheduleForm())
    {
      searchTerm := v;
    }

    method SetStatusFilter(v: string)
      modifies this
      ensures Filters() == old(Filters()).(1 := v)
      ensures redistributions == old(redistributions) && Dialogs() == old(Dialogs())
      ensures RescheduleForm() == old(RescheduleForm())
    {
      statusFilter := v;
    }

    method SetItemFilter(v: string)
      modifies this
      ensures Filters() == old(Filters()).(2 := v)
      ensures redistributions == old(redistributions) && Dialogs() == old(Dialogs())
      ensures RescheduleForm() == old(RescheduleForm())
    {
      itemFilter := v;
    }

    method SetSelectedTab(v: string)
      modifies this
      ensures Filters() == old(Filters()).(3 := v)
      ensures redistributions == old(redistributions) && Dialogs() == old(Dialogs())
      ensures RescheduleForm() == old(RescheduleForm())
    {
      selectedTab := v;
    }

    /** The Cancel entry of a row's menu. */
    method OpenCancel(id: int)
      modifies this
      ensures Dialogs() == old(Dialogs()).(0 := Modal(true, Some(id)))
      ensures redistributions == old(redistributions) && Filters() == old(Filters())
      ensures RescheduleForm() == old(RescheduleForm())
    {
      cancelModal := Modal(true, Some(id));
    }

    /** The Reschedule entry of a row's menu. */
    method OpenReschedule(id: int)
      modifies this
      ensures Dialogs() == old(Dialogs()).(1 := Modal(true, Some(id)))
      ensures redistributions == old(redistributions) && Filters() == old(Filters())
      ensures RescheduleForm() == old(RescheduleForm())
    {
      rescheduleModal := Modal(true, Some(id));
    }

    /** The Edit Route entry of a row's menu. */
    method OpenEditRoute(id: int)
      modifies this
      ensures Dialogs() == old(Dialogs()).(2 := Modal(true, Some(id)))
      ensures redistributions == old(redistributions) && Filters() == old(Filters())
      ensures RescheduleForm() == old(RescheduleForm())
    {
      editRouteModal := Modal(true, Some(id));
    }

    /** A dialog's `onOpenChange`, and its "No, Go Back" / "Cancel" buttons: the pending id is dropped. */
    method CancelDialogChange(open: bool)
      modifies this
      ensures Dialogs() == old(Dialogs()).(0 := Modal(open, None))
      ensures redistributions == old(redistributions) && Filters() == old(Filters())
      ensures RescheduleForm() == old(RescheduleForm())
    {
      cancelModal := Modal(open, None);
    }

    /** Closing the reschedule dialog without confirming keeps what was typed into its form. */
    method RescheduleDialogChange(open: bool)
      modifies this
      ensures Dialogs() == old(Dialogs()).(1 := Modal(open, None))
      ensures redistributions == old(redistributions) && Filters() == old(Filters())
      ensures RescheduleForm() == old(RescheduleForm())
    {
      rescheduleModal := Modal(open, None);
    }

    method EditRouteDialogChange(open: bool)
      modifies this
      ensures Dialogs() == old(Dialogs()).(2 := Modal(open, None))
      ensures redistributions == old(redistributions) && Filters() == old(Filters())
      ensures RescheduleForm() == old(RescheduleForm())
    {
      editRouteModal := Modal(open, None);
    }

    method SetRescheduleDate(date: Option<string>)
      modifies this
      ensures RescheduleForm() == old(RescheduleForm()).(0 := date)
      ensures redistributions == old(redistributions) && Filters() == old(Filters())
      ensures Dialogs() == old(Dialogs())
    {
      rescheduleDate := date;
    }

    method SetRescheduleTime(time: string)
      modifies this
      ensures RescheduleForm() == old(RescheduleForm()).(1 := time)
      ensures redistributions == old(redistributions) && Filters() == old(Filters())
      ensures Dialogs() == old(Dialogs())
    {
      rescheduleTime := time;
    }

    method SetRescheduleNotes(notes: string)
      modifies this
      ensures RescheduleForm() == old(RescheduleForm()).(2 := notes)
      ensures redistributions == old(redistributions) && Filters() == old(Filters())
      ensures Dialogs() == old(Dialogs())
    {
      rescheduleNotes := notes;
    }

    /** The "Confirm Reschedule" button is disabled. */
    predicate ConfirmRescheduleDisabled()
      reads this
    {
      rescheduleDate == None || rescheduleTime == ""
    }

    /**
      "Yes, Cancel Redistribution": with a truthy pending id the matching rows
      become cancelled and the dialog closes; with `null` or `0` nothing happens.
     */
    method HandleCancelRedistribution() returns (toasted: bool)
      modifies this
      ensures toasted <==> Truthy(old(cancelModal.id))
      ensures redistributions == ApplyCancel(old(redistributions), old(cancelModal.id))
      ensures toasted ==> Dialogs() == old(Dialogs()).(0 := Closed)
      ensures !toasted ==> Dialogs() == old(Dialogs())
      ensures Filters() == old(Filters()) && RescheduleForm() == old(RescheduleForm())
    {
      toasted := false;
      if cancelModal.id.Some? && cancelModal.id.value != 0 {
        redistributions := CancelById(redistributions, cancelModal.id.value);
        toasted := true;
        cancelModal := Closed;
      }
    }

    /**
      "Confirm Reschedule": with a truthy pending id, a date and a time the
      matching rows get the new date and time, the dialog closes and its form
      is cleared; otherwise nothing happens.
     */
    method HandleReschedule() returns (toasted: bool)
      modifies this
      ensures toasted <==> Truthy(old(rescheduleModal.id)) && old(rescheduleDate).Some? && old(rescheduleTime) != ""
      ensures redistributions == ApplyReschedule(old(redistributions), old(rescheduleModal.id),
                                                 old(rescheduleDate), old(rescheduleTime))
      ensures toasted ==> Dialogs() == old(Dialogs()).(1 := Closed) && RescheduleForm() == (None, "", "")
      ensures !toasted ==> Dialogs() == old(Dialogs()) && RescheduleForm() == old(RescheduleForm())
      ensures Filters() == old(Filters())
      ensures old(ConfirmRescheduleDisabled()) ==> !toasted
      ensures toasted ==> ConfirmRescheduleDisabled()
    {
      toasted := false;
      if rescheduleModal.id.Some? && rescheduleModal.id.value != 0 && rescheduleDate.Some? && rescheduleTime != "" {
        redistributions := RescheduleById(redistributions, rescheduleModal.id.value,
                                          rescheduleDate.value, rescheduleTime);
        toasted := true;
        rescheduleModal := Closed;
        rescheduleDate := None;
        rescheduleTime := "";
        rescheduleNotes := "";
      }
    }

    /** "Save Route Changes" only toasts and closes the dialog: the schedule is not changed. */
    method SaveRouteChanges()
      modifies this
      ensures Dialogs() == old(Dialogs()).(2 := Closed)
      ensures redistributions == old(redistributions) && Filters() == old(Filters())
      ensures RescheduleForm() == old(RescheduleForm())
    {
      editRouteModal := Closed;
    }
  }
}
