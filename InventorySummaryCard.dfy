/**
  The supply analysis of one inventory card: the item's quantity is
  classified against its two supply limits, the classification decides the
  redistribution badge and the redistributable quantity, the quantity and
  the two unit prices give the net profit, and all of it picks the advisory
  ("smart prompt") shown on the expanded card. Quantities and prices are
  integers, as in every fixture.
 */
module InventorySummaryCard {
  import opened Wrappers

  /** The `redistributionStatus` an item is stored with. */
  datatype StoredStatus = Eligible | InRedistribution | NoneStored

  /** The fields of an inventory item the analysis reads. */
  datatype Item = Item(
    quantity: int,
    acquiredPrice: int,
    mrp: int,
    overSupplyLimit: int,
    underSupplyLimit: int,
    redistributionStatus: StoredStatus,
    estimatedMarketDemand: int)

  datatype SupplyStatus = OverSupplied | UnderSupplied | AptSupply

  /** The redistribution badge; `None` is the source's `null` (no badge). */
  datatype Badge = InRedistributionBadge | EligibleBadge

  datatype FinancialImpact = FinancialImpact(
    redistributableQty: int,
    expectedRevenue: int,
    originalCost: int,
    netProfit: int,
    isProfit: bool,
    isBreakeven: bool)

  /**
    The advisory templates, with the numbers they show (their text and the
    `toFixed` rendering of the amounts are not modelled).
   */
  datatype SmartPrompt =
    | OverSupplyProfit(excess: int, profit: int)
    | OverSupplyLoss(excess: int, loss: int)
    | UnderSupplyShortage(shortage: int)

  /** The badge of the financial panel. */
  datatype Verdict = BreakEven | Profit(amount: int) | Loss(amount: int)

  /** Over the upper limit, else under the lower limit, else apt: the first test that holds wins. */
  function GetSupplyStatus(item: Item): SupplyStatus
  {
    if item.quantity > item.overSupplyLimit then OverSupplied
    else if item.quantity < item.underSupplyLimit then UnderSupplied
    else AptSupply
  }

  /**
    A stored `in-redistribution` wins; otherwise an item that is not at apt
    supply is eligible; otherwise there is no badge. The stored values
    `eligible` and `none` are never consulted.
   */
  function GetRedistributionStatus(item: Item): Option<Badge>
  {
    if item.redistributionStatus == InRedistribution then Some(InRedistributionBadge)
    else if GetSupplyStatus(item) != AptSupply then Some(EligibleBadge)
    else None
  }

  function CalculateFinancialImpact(item: Item): FinancialImpact
  {
    var status := GetSupplyStatus(item);
    var qty :=
      if status == OverSupplied then item.quantity - item.overSupplyLimit
      else if status == UnderSupplied then item.estimatedMarketDemand
      else 0;
    var revenue := qty * item.mrp;
    var cost := qty * item.acquiredPrice;
    var net := revenue - cost;
    FinancialImpact(qty, revenue, cost, net, net > 0, net == 0)
  }

  function Abs(x: int): int
  {
    if x < 0 then -x else x
  }

  function GetSmartPrompt(item: Item): Option<SmartPrompt>
  {
    var status := GetSupplyStatus(item);
    var impact := CalculateFinancialImpact(item);
    if status == OverSupplied then
      var excess := item.quantity - item.overSupplyLimit;
      if impact.isProfit then Some(OverSupplyProfit(excess, impact.netProfit))
      else Some(OverSupplyLoss(excess, Abs(impact.netProfit)))
    else if status == UnderSupplied then
      Some(UnderSupplyShortage(item.underSupplyLimit - item.quantity))
    else None
  }

  /**
    The condition on which the expanded card renders the "Net Financial
    Status" panel; the card's expand/collapse toggle itself is not modelled.
   */
  predicate FinancialPanelShown(item: Item)
  {
    CalculateFinancialImpact(item).redistributableQty > 0
  }

  /** The badge inside the financial panel: break-even is checked before profit. */
  function FinancialVerdict(impact: FinancialImpact): (v: Verdict)
    ensures v == BreakEven <==> impact.isBreakeven
    ensures v.Profit? <==> !impact.isBreakeven && impact.isProfit
    ensures v.Profit? ==> v.amount == impact.netProfit
    ensures v.Loss? ==> v.amount == Abs(impact.netProfit) && v.amount >= 0
  {
    if impact.isBreakeven then BreakEven
    else if impact.isProfit then Profit(impact.netProfit)
    else Loss(Abs(impact.netProfit))
  }

  /**
    For an item's own impact the badge follows the sign of the net profit:
    break-even at zero, the profit amount when positive, the absolute loss
    when negative.
   */
  lemma FinancialVerdictFollowsNetProfit(item: Item)
    ensures var impact := CalculateFinancialImpact(item);
      (FinancialVerdict(impact) == BreakEven <==> impact.netProfit == 0) &&
      (FinancialVerdict(impact).Profit? <==> impact.netProfit > 0) &&
      (FinancialVerdict(impact).Loss? <==> impact.netProfit < 0) &&
      (FinancialVerdict(impact).Profit? ==> FinancialVerdict(impact).amount == impact.netProfit) &&
      (FinancialVerdict(impact).Loss? ==> FinancialVerdict(impact).amount == -impact.netProfit)
  {
  }

  /** The condition on which the expanded card renders the "Redistribute Now" button. */
  predicate RedistributeNowShown(item: Item)
  {
    GetRedistributionStatus(item) == Some(EligibleBadge)
  }

  /** Everything the card derives from an item, in one record. */
  datatype SupplyAnalysis = SupplyAnalysis(
    status: SupplyStatus,
    badge: Option<Badge>,
    impact: FinancialImpact,
    prompt: Option<SmartPrompt>)

  /**
    The whole analysis, with the promises the card makes about how its
    parts agree with one another.
   */
  function ComputeSupplyAnalysis(item: Item): (a: SupplyAnalysis)
    // the classification, first match wins
    ensures a.status == OverSupplied <==> item.quantity > item.overSupplyLimit
    ensures a.status == UnderSupplied <==>
              item.quantity <= item.overSupplyLimit && item.quantity < item.underSupplyLimit
    ensures a.status == AptSupply <==>
              item.underSupplyLimit <= item.quantity <= item.overSupplyLimit
    // the redistributable quantity
    ensures a.status == OverSupplied ==>
              a.impact.redistributableQty == item.quantity - item.overSupplyLimit > 0
    ensures a.status == UnderSupplied ==> a.impact.redistributableQty == item.estimatedMarketDemand
    ensures a.status == AptSupply ==> a.impact.redistributableQty == 0 && a.impact.netProfit == 0
    // profit bookkeeping
    ensures a.impact.netProfit == a.impact.expectedRevenue - a.impact.originalCost
    ensures a.impact.netProfit == a.impact.redistributableQty * (item.mrp - item.acquiredPrice)
    ensures a.impact.isProfit <==> a.impact.netProfit > 0
    ensures a.impact.isBreakeven <==> a.impact.netProfit == 0
    ensures !(a.impact.isProfit && a.impact.isBreakeven)
    // the badge
    ensures a.badge == Some(InRedistributionBadge) <==> item.redistributionStatus == InRedistribution
    ensures a.badge == Some(EligibleBadge) <==>
              item.redistributionStatus != InRedistribution && a.status != AptSupply
    ensures a.badge == None <==>
              item.redistributionStatus != InRedistribution && a.status == AptSupply
    // the prompt
    ensures a.prompt == None <==> a.status == AptSupply
    ensures a.prompt.Some? && a.prompt.value.OverSupplyProfit? <==>
              a.status == OverSupplied && a.impact.isProfit
    ensures a.prompt.Some? && a.prompt.value.OverSupplyLoss? <==>
              a.status == OverSupplied && !a.impact.isProfit
    ensures a.prompt.Some? && (a.prompt.value.OverSupplyProfit? || a.prompt.value.OverSupplyLoss?) ==>
              a.prompt.value.excess == a.impact.redistributableQty
    ensures a.prompt.Some? && a.prompt.value.OverSupplyProfit? ==> a.prompt.value.profit == a.impact.netProfit > 0
    ensures a.prompt.Some? && a.prompt.value.OverSupplyLoss? ==>
              a.prompt.value.loss == Abs(a.impact.netProfit) && a.impact.netProfit <= 0
    ensures a.prompt.Some? && a.prompt.value.UnderSupplyShortage? ==>
              a.status == UnderSupplied && a.prompt.value.shortage == item.underSupplyLimit - item.quantity > 0
  {
    var impact := CalculateFinancialImpact(item);
    NetProfitFactors(impact.redistributableQty, item.mrp, item.acquiredPrice);
    SupplyAnalysis(GetSupplyStatus(item), GetRedistributionStatus(item), impact, GetSmartPrompt(item))
  }

  /** Revenue minus cost is the quantity times the unit margin. */
  lemma NetProfitFactors(qty: int, mrp: int, acquiredPrice: int)
    ensures qty * mrp - qty * acquiredPrice == qty * (mrp - acquiredPrice)
  {
    assert qty * (mrp - acquiredPrice) == qty * mrp - qty * acquiredPrice;
  }

  /**
    For an over-supplied item the outcome is decided by the unit margin
    alone: profit iff the MRP exceeds the acquired price, break-even iff they
    are equal.
   */
  lemma OverSupplyProfitFollowsMargin(item: Item)
    requires GetSupplyStatus(item) == OverSupplied
    ensures CalculateFinancialImpact(item).isProfit <==> item.mrp > item.acquiredPrice
    ensures CalculateFinancialImpact(item).isBreakeven <==> item.mrp == item.acquiredPrice
  {
    var impact := CalculateFinancialImpact(item);
    var qty := impact.redistributableQty;
    var margin := item.mrp - item.acquiredPrice;
    NetProfitFactors(qty, item.mrp, item.acquiredPrice);
    assert qty > 0;
    if margin > 0 {
      assert qty * margin >= margin by { MultiplyAtLeast(qty, margin); }
    } else if margin < 0 {
      assert qty * (-margin) >= -margin by { MultiplyAtLeast(qty, -margin); }
    }
  }

  lemma {:induction false} MultiplyAtLeast(q: int, m: int)
    requires q >= 1 && m >= 0
    ensures q * m >= m
    decreases q
  {
    if q > 1 {
      MultiplyAtLeast(q - 1, m);
      assert q * m == (q - 1) * m + m;
    }
  }

  /** The stored values `eligible` and `none` lead to the same card. */
  lemma StoredEligibleAndNoneAgree(item: Item)
    ensures ComputeSupplyAnalysis(item.(redistributionStatus := Eligible)) ==
            ComputeSupplyAnalysis(item.(redistributionStatus := NoneStored))
  {
  }

  /** Expanded, the card of an item at apt supply shows neither the financial panel, nor a prompt, nor the "Redistribute Now" button. */
  lemma AptSupplyIsQuiet(item: Item)
    requires GetSupplyStatus(item) == AptSupply
    ensures !FinancialPanelShown(item)
    ensures GetSmartPrompt(item) == None
    ensures !RedistributeNowShown(item)
    ensures FinancialVerdict(CalculateFinancialImpact(item)) == BreakEven
  {
  }

  /** Expanded, the card of an over-supplied item always shows the financial panel. */
  lemma OverSupplyShowsPanel(item: Item)
    requires GetSupplyStatus(item) == OverSupplied
    ensures FinancialPanelShown(item)
  {
  }

  /** The expanded card offers "Redistribute Now" exactly when the item is not in redistribution and not at apt supply. */
  lemma RedistributeNowCondition(item: Item)
    ensures RedistributeNowShown(item) <==>
              item.redistributionStatus != InRedistribution && GetSupplyStatus(item) != AptSupply
  {
  }

  /**
    The prompt and the panel badge can disagree: an over-supplied item whose
    MRP equals its acquired price is shown as "Break-even" in the panel while
    its prompt uses the loss template (with a loss of 0).
   */
  lemma BreakEvenOverSupplyGetsLossPrompt(item: Item)
    requires GetSupplyStatus(item) == OverSupplied && item.mrp == item.acquiredPrice
    ensures FinancialVerdict(CalculateFinancialImpact(item)) == BreakEven
    ensures GetSmartPrompt(item) == Some(OverSupplyLoss(item.quantity - item.overSupplyLimit, 0))
  {
    OverSupplyProfitFollowsMargin(item);
  }

  /** The first worked example: 95 against limits 70 and 30 at prices 40 and 22. */
  lemma OverSupplyExample()
    ensures var item := Item(95, 22, 40, 70, 30, NoneStored, 0);
            ComputeSupplyAnalysis(item) ==
              SupplyAnalysis(OverSupplied, Some(EligibleBadge),
                FinancialImpact(25, 1000, 550, 450, true, false),
                Some(OverSupplyProfit(25, 450)))
  {
  }
}
