/**
  The report export panel: three export options toggled by checkboxes, and
  a generate button that refuses when no option is chosen and otherwise
  starts a progress bar that a periodic timer advances in steps of 20 until
  it reports the file ready.
 */
module ReportsExports {

  datatype ExportOptions = ExportOptions(inventoryLog: bool, redistributionHistory: bool, financialReport: bool)

  /** All three checkboxes start unticked. */
  const NoOptions := ExportOptions(false, false, false)

  /** The number of ticked options: `Object.entries(exportOptions).filter(([_, selected]) => selected).length`. */
  function SelectedCount(o: ExportOptions): (n: nat)
    ensures n <= 3
    ensures n == 0 <==> !o.inventoryLog && !o.redistributionHistory && !o.financialReport
  {
    (if o.inventoryLog then 1 else 0) +
    (if o.redistributionHistory then 1 else 0) +
    (if o.financialReport then 1 else 0)
  }

  /**
    The progress of one export: whether the progress bar is shown, its
    value, and whether the timer that advances it is still running.
   */
  datatype Generation = Generation(isGenerating: bool, progress: int, ticking: bool)

  const Idle := Generation(false, 0, false)

  /** What a successful `handleExport` sets: generating, at 0, with the timer running. */
  const Started := Generation(true, 0, true)

  /** The states the panel can be in: progress a multiple of 20 between 0 and 100, the timer running exactly while generating. */
  predicate ValidGeneration(g: Generation)
  {
    0 <= g.progress <= 100 && g.progress % 20 == 0 && g.ticking == g.isGenerating
  }

  /**
    One firing of the timer: below 100 the progress grows by 20; at 100 the
    timer is cleared, generation ends and the progress stays at 100. A
    cleared timer no longer fires.
   */
  function Step(g: Generation): Generation
  {
    if !g.ticking then g
    else if g.progress >= 100 then Generation(false, 100, false)
    else g.(progress := g.progress + 20)
  }

  /** The timer's firing that shows the "Report Ready to Download" toast. */
  predicate ReadyOnStep(g: Generation)
  {
    g.ticking && g.progress >= 100
  }

  /** The state after `k` firings of the timer. */
  function AfterTicks(g: Generation, k: nat): Generation
    decreases k
  {
    if k == 0 then g else Step(AfterTicks(g, k - 1))
  }

  /** A firing of the timer keeps the panel's state valid and never takes the progress back. */
  lemma StepKeepsValid(g: Generation)
    requires ValidGeneration(g)
    ensures ValidGeneration(Step(g))
    ensures g.progress <= Step(g).progress <= 100
  {
  }

  /**
    Starting from 0, the `k`-th firing shows `20 * k` while `k` is at most
    5; the sixth firing ends generation at 100, and nothing changes after it.
   */
  lemma {:induction false} ProgressSchedule(k: nat)
    ensures k <= 5 ==> AfterTicks(Started, k) == Generation(true, 20 * k, true)
    ensures k > 5 ==> AfterTicks(Started, k) == Generation(false, 100, false)
    decreases k
  {
    if k > 0 {
      ProgressSchedule(k - 1);
    }
  }

  /** The ready toast appears once, on the sixth firing, and the progress never passes 100. */
  lemma ReadyOnSixthTick(k: nat)
    ensures ReadyOnStep(AfterTicks(Started, k)) <==> k == 5
    ensures AfterTicks(Started, k).progress <= 100
    ensures AfterTicks(Started, k).isGenerating <==> k <= 5
  {
    ProgressSchedule(k);
  }

  /** Validity holds along the whole run, whatever valid state it starts from. */
  lemma {:induction false} AfterTicksValid(g: Generation, k: nat)
    requires ValidGeneration(g)
    ensures ValidGeneration(AfterTicks(g, k))
    ensures g.progress <= AfterTicks(g, k).progress
    decreases k
  {
    if k > 0 {
      AfterTicksValid(g, k - 1);
      StepKeepsValid(AfterTicks(g, k - 1));
    }
  }

  /** The panel's state: the three options and the progress of the running export. */
  class ReportsExportsState {
    var options: ExportOptions
    var generation: Generation

    constructor ()
      ensures options == NoOptions && generation == Idle
      ensures Valid()
    {
      options := NoOptions;
      generation := Idle;
    }

    predicate Valid()
      reads this
    {
      ValidGeneration(generation)
    }

    /** The generate button's `disabled` attribute; the progress bar is shown under the same condition. */
    predicate GenerateDisabled()
      reads this
    {
      generation.isGenerating
    }

    /**
      `handleExport`, reachable only through the generate button and so only
      while no export runs: with no option ticked it shows the "No Options
      Selected" toast and changes nothing; otherwise it starts generating
      from 0.
     */
    method HandleExport() returns (started: bool)
      requires Valid() && !GenerateDisabled()
      modifies this
      ensures Valid()
      ensures started <==> SelectedCount(old(options)) > 0
      ensures !started ==> generation == old(generation)
      ensures started ==> generation == Started
      ensures options == old(options)
    {
      if SelectedCount(options) == 0 {
        started := false;
        return;
      }
      started := true;
      generation := Started;
    }

    /** One firing of the timer; `ready` is the success toast. */
    method Tick() returns (ready: bool)
      requires Valid()
      modifies this
      ensures Valid()
      ensures generation == Step(old(generation))
      ensures ready <==> ReadyOnStep(old(generation))
      ensures options == old(options)
    {
      ready := ReadyOnStep(generation);
      StepKeepsValid(generation);
      generation := Step(generation);
    }

    method SetInventoryLog(checked: bool)
      modifies this
      ensures options == old(options).(inventoryLog := checked)
      ensures generation == old(generation)
    {
      options := options.(inventoryLog := checked);
    }

    method SetRedistributionHistory(checked: bool)
      modifies this
      ensures options == old(options).(redistributionHistory := checked)
      ensures generation == old(generation)
    {
      options := options.(redistributionHistory := checked);
    }

    method SetFinancialReport(checked: bool)
      modifies this
      ensures options == old(options).(financialReport := checked)
      ensures generation == old(generation)
    {
      options := options.(financialReport := checked);
    }
  }
}
