/**
  The "Create Redistribution Order" panel: an item and a destination are
  picked by the text of their numeric ids, a quantity is set by a slider or
  typed in, and confirming starts an asynchronous submit that ends by
  clearing the panel.
 */
module RedistributionForm {
  import opened Wrappers
  import opened Seqs
  import opened Text

  datatype AvailableItem = AvailableItem(id: int, name: string, available: int, unit: string)

  /** A suggested destination; distance, demand, ETA and savings are display text. */
  datatype Destination = Destination(id: int, name: string, distance: string, demand: string, eta: string, savings: string)

  /** The quantity the slider starts at and is reset to. */
  const DefaultQuantity := 50

  /** The slider's upper bound when no item is chosen or its stock reads as 0. */
  const FallbackMax := 100

  function ItemIdIs(selected: string): AvailableItem -> bool
  {
    (item: AvailableItem) => IntToString(item.id) == selected
  }

  function DestinationIdIs(selected: string): Destination -> bool
  {
    (dest: Destination) => IntToString(dest.id) == selected
  }

  /** `availableItems.find(item => item.id.toString() === selectedItem)`. */
  function SelectedItemData(items: seq<AvailableItem>, selected: string): Option<AvailableItem>
  {
    FindFirst(items, ItemIdIs(selected))
  }

  /** `suggestedDestinations.find(dest => dest.id.toString() === selectedDestination)`. */
  function SelectedDestData(dests: seq<Destination>, selected: string): Option<Destination>
  {
    FindFirst(dests, DestinationIdIs(selected))
  }

  /** `selectedItemData?.available || 100`: a missing item and a stock of 0 both fall back to 100. */
  function MaxQuantity(item: Option<AvailableItem>): (m: int)
    ensures item.None? ==> m == FallbackMax
    ensures item.Some? && item.value.available == 0 ==> m == FallbackMax
    ensures item.Some? && item.value.available != 0 ==> m == item.value.available
  {
    if item.Some? && item.value.available != 0 then item.value.available else FallbackMax
  }

  /** The test at the top of `handleSubmit` and the non-processing half of the button's `disabled`. */
  predicate CanSubmit(selectedItem: string, selectedDestination: string, currentQuantity: int)
  {
    selectedItem != "" && selectedDestination != "" && currentQuantity != 0
  }

  /** Choosing an item by the text of its id finds it, provided no other item has the same id. */
  lemma SelectById(items: seq<AvailableItem>, k: int)
    requires 0 <= k < |items|
    requires forall i, j :: 0 <= i < j < |items| ==> items[i].id != items[j].id
    ensures SelectedItemData(items, IntToString(items[k].id)) == Some(items[k])
    ensures MaxQuantity(SelectedItemData(items, IntToString(items[k].id))) ==
              if items[k].available == 0 then FallbackMax else items[k].available
  {
    var p := ItemIdIs(IntToString(items[k].id));
    forall j | 0 <= j < k ensures !p(items[j]) {
      if p(items[j]) {
        IntToStringInjective(items[j].id, items[k].id);
      }
    }
    FindFirstAt(items, p, k);
  }

  /** A selection that is the text of no item's id selects nothing, and the slider bound falls back to 100. */
  lemma UnknownSelection(items: seq<AvailableItem>, selected: string)
    requires forall i :: 0 <= i < |items| ==> IntToString(items[i].id) != selected
    ensures SelectedItemData(items, selected) == None
    ensures MaxQuantity(SelectedItemData(items, selected)) == FallbackMax
  {
    assert forall i :: 0 <= i < |items| ==> !ItemIdIs(selected)(items[i]);
  }

  /**
    Typing into the number field: text with no digit gives 0, which blocks
    the submit; typing back the number shown gives that number.
   */
  lemma QuantityInput(text: string, shown: int, selectedItem: string, selectedDestination: string)
    requires forall i :: 0 <= i < |text| ==> !IsDigit(text[i])
    ensures ParseIntOrZero(text) == 0
    ensures !CanSubmit(selectedItem, selectedDestination, ParseIntOrZero(text))
    ensures ParseIntOrZero(IntToString(shown)) == shown
  {
    ParseIntWithoutDigits(text);
    ParseIntOfIntToString(shown);
  }

  /** The panel's state; `quantity` is the one value of the slider's array. */
  class RedistributionFormState {
    const items: seq<AvailableItem>
    const destinations: seq<Destination>
    var selectedItem: string
    var selectedDestination: string
    var quantity: int
    var isProcessing: bool

    constructor (items: seq<AvailableItem>, destinations: seq<Destination>)
      ensures this.items == items && this.destinations == destinations
      ensures selectedItem == "" && selectedDestination == "" && quantity == DefaultQuantity && !isProcessing
    {
      this.items := items;
      this.destinations := destinations;
      selectedItem := "";
      selectedDestination := "";
      quantity := DefaultQuantity;
      isProcessing := false;
    }

    function ItemData(): Option<AvailableItem>
      reads this
    {
      SelectedItemData(items, selectedItem)
    }

    function Max(): int
      reads this
    {
      MaxQuantity(ItemData())
    }

    /** The quantity slider and input are rendered. */
    predicate QuantityShown()
      reads this
    {
      ItemData().Some?
    }

    /** The order summary is rendered. */
    predicate SummaryShown()
      reads this
    {
      ItemData().Some? && SelectedDestData(destinations, selectedDestination).Some?
    }

    /** The confirm button's `disabled` attribute. */
    predicate ConfirmDisabled()
      reads this
    {
      !CanSubmit(selectedItem, selectedDestination, quantity) || isProcessing
    }

    method SetSelectedItem(v: string)
      modifies this
      ensures selectedItem == v
      ensures selectedDestination == old(selectedDestination) && quantity == old(quantity)
      ensures isProcessing == old(isProcessing)
    {
      selectedItem := v;
    }

    method SetSelectedDestination(v: string)
      modifies this
      ensures selectedDestination == v
      ensures selectedItem == old(selectedItem) && quantity == old(quantity)
      ensures isProcessing == old(isProcessing)
    {
      selectedDestination := v;
    }

    /** The slider reports its new value. */
    method SetQuantityFromSlider(v: int)
      modifies this
      ensures quantity == v
      ensures selectedItem == old(selectedItem) && selectedDestination == old(selectedDestination)
      ensures isProcessing == old(isProcessing)
    {
      quantity := v;
    }

    /** The number field's `onChange`: `setQuantity([parseInt(text) || 0])`. */
    method SetQuantityFromInput(text: string)
      modifies this
      ensures quantity == ParseIntOrZero(text)
      ensures selectedItem == old(selectedItem) && selectedDestination == old(selectedDestination)
      ensures isProcessing == old(isProcessing)
    {
      quantity := ParseIntOrZero(text);
    }

    /**
      The synchronous part of `handleSubmit`: when the guard fails nothing
      happens; otherwise the panel enters the processing state. The guard
      itself does not look at `isProcessing`; only the button does.
     */
    method BeginSubmit() returns (started: bool)
      modifies this
      ensures started <==> CanSubmit(old(selectedItem), old(selectedDestination), old(quantity))
      ensures !started ==> isProcessing == old(isProcessing)
      ensures started ==> isProcessing
      ensures selectedItem == old(selectedItem) && selectedDestination == old(selectedDestination)
      ensures quantity == old(quantity)
    {
      if selectedItem == "" || selectedDestination == "" || quantity == 0 {
        started := false;
        return;
      }
      started := true;
      isProcessing := true;
    }

    /** What runs once the simulated transaction delay is over: processing ends and the panel is cleared. */
    method CompleteSubmit()
      modifies this
      ensures !isProcessing
      ensures selectedItem == "" && selectedDestination == "" && quantity == DefaultQuantity
      ensures ConfirmDisabled() && !QuantityShown() && !SummaryShown()
    {
      isProcessing := false;
      selectedItem := "";
      selectedDestination := "";
      quantity := DefaultQuantity;
      NoItemHasEmptyIdText(items);
    }
  }

  /** No integer's text is empty, so the cleared selection never finds an item. */
  lemma NoItemHasEmptyIdText(items: seq<AvailableItem>)
    ensures SelectedItemData(items, "") == None
  {
    forall i | 0 <= i < |items| ensures !ItemIdIs("")(items[i]) {
      var t := IntToString(items[i].id);
      assert |t| > 0;
    }
  }
}
