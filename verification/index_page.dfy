/**
 * The dashboard page: it owns the uploaded files and the processing state,
 * runs the timer-driven processing simulation, and feeds its state to the
 * processing card, the mapping preview and the export panel.
 */
module IndexPage {
  import opened DataUpload
  import AiProcessing
  import MappingPreview

  /** The simulation's state: the interval callback's own `step` and
      `progress`, whether the interval is still scheduled, and the page state
      the callback publishes. */
  datatype Simulation = Simulation(
    step: int,
    progress: int,
    timerActive: bool,
    isProcessing: bool,
    currentStep: int,
    processingProgress: int,
    isComplete: bool)

  /** The state right after `startProcessing`. */
  const Started := Simulation(0, 0, true, true, 0, 0, false)

  /** The state the interval leaves behind when it stops: the callback's step
      went to 4, but the published step and progress kept their last values. */
  const Finished := Simulation(4, 0, false, false, 3, 100, true)

  /** One firing of the interval callback. */
  function Next(s: Simulation): Simulation
    requires s.timerActive
  {
    var progress := s.progress + 5;
    if progress > 100 then
      var step := s.step + 1;
      if step > 3 then
        s.(step := step, progress := 0, timerActive := false, isComplete := true, isProcessing := false)
      else
        s.(step := step, progress := 0, currentStep := step, processingProgress := 0)
    else
      s.(progress := progress, processingProgress := progress)
  }

  /** `n` firings, or fewer if the interval is cleared first. */
  function Ticks(s: Simulation, n: nat): Simulation
    decreases n
  {
    if n == 0 || !s.timerActive then s else Ticks(Next(s), n - 1)
  }

  /** The states a run passes through: while the interval runs the callback's
      step and progress are published as they are, the progress a multiple of 5
      between 0 and 100; once it stops, the published values are those of the
      tick before. */
  ghost predicate Reachable(s: Simulation) {
    if s.timerActive then
      && 0 <= s.step <= 3
      && 0 <= s.progress <= 100 && s.progress % 5 == 0
      && s.currentStep == s.step && s.processingProgress == s.progress
      && s.isProcessing && !s.isComplete
    else
      s == Finished
  }

  /** Firings left before the interval clears itself. */
  function Remaining(s: Simulation): nat
    requires Reachable(s)
  {
    if s.timerActive then (3 - s.step) * 21 + (100 - s.progress) / 5 + 1 else 0
  }

  /** A firing keeps the state reachable, brings completion one firing
      closer, adds exactly 5 to the callback's progress unless it passes 100
      (then progress restarts at 0 and the step advances by one), never moves
      the published step back, and completes the run only on its last
      firing. */
  lemma NextStep(s: Simulation)
    requires Reachable(s) && s.timerActive
    ensures Reachable(Next(s))
    ensures Remaining(Next(s)) == Remaining(s) - 1
    ensures s.progress + 5 <= 100 ==> Next(s).progress == s.progress + 5 && Next(s).step == s.step
    ensures s.progress + 5 > 100 ==> Next(s).progress == 0 && Next(s).step == s.step + 1
    ensures Next(s).currentStep >= s.currentStep
    ensures Next(s).isComplete <==> Remaining(s) == 1
  {
  }

  /** Running the interval from any reachable state: `n` firings use up `n`
      of the remaining ones, the published step never decreases, and the
      interval is still scheduled exactly when fewer firings than remain have
      happened. */
  lemma {:induction false} TicksFrom(s: Simulation, n: nat)
    requires Reachable(s)
    ensures Reachable(Ticks(s, n))
    ensures Remaining(Ticks(s, n)) == if n <= Remaining(s) then Remaining(s) - n else 0
    ensures Ticks(s, n).currentStep >= s.currentStep
    ensures Ticks(s, n).timerActive <==> n < Remaining(s)
    decreases n
  {
    if n > 0 && s.timerActive {
      NextStep(s);
      TicksFrom(Next(s), n - 1);
    }
  }

  /** Firings compose. */
  lemma {:induction false} TicksAdd(s: Simulation, m: nat, n: nat)
    ensures Ticks(s, m + n) == Ticks(Ticks(s, m), n)
    decreases m
  {
    if m > 0 && s.timerActive {
      TicksAdd(Next(s), m - 1, n);
    }
  }

  /** A run takes exactly 84 firings, four steps of 21: before that the
      interval is running and nothing is complete; the 84th firing stops it,
      marks the run complete and not processing, and leaves step 3 and 100%
      published. */
  lemma RunLength(n: nat)
    ensures n < 84 ==> Ticks(Started, n).timerActive && !Ticks(Started, n).isComplete
    ensures n >= 84 ==> Ticks(Started, n) == Finished
  {
    TicksFrom(Started, n);
  }

  /** Every published state of a run: step between 0 and 3, progress a
      multiple of 5 between 0 and 100 (105 never appears), and a published
      step that never goes back. */
  lemma PublishedValues(j: nat, k: nat)
    requires j <= k
    ensures var s := Ticks(Started, k);
      0 <= s.currentStep <= 3 && 0 <= s.processingProgress <= 100 && s.processingProgress % 5 == 0
    ensures Ticks(Started, j).currentStep <= Ticks(Started, k).currentStep
  {
    TicksFrom(Started, k);
    TicksAdd(Started, j, k - j);
    TicksFrom(Started, j);
    TicksFrom(Ticks(Started, j), k - j);
  }

  /** After a complete run the processing card still shows the validation step
      as processing, at 100%, while the three steps before it are complete. */
  lemma ValidationStaysProcessing()
    ensures var steps := AiProcessing.Steps(Finished.currentStep, Finished.processingProgress);
      && steps[3].status == AiProcessing.Processing
      && steps[3].progress == 100
      && AiProcessing.Label(steps[3]) == "100%"
      && forall i :: 0 <= i < 3 ==> steps[i].status == AiProcessing.Complete
  {
  }

  /** The "Almost complete!" banner is up for exactly two published states of a
      run: after firings 82 and 83 (step 3 at 95% and 100%). */
  lemma AlmostCompleteWindow(n: nat)
    ensures var s := Ticks(Started, n);
      AiProcessing.AlmostComplete(s.isProcessing, s.currentStep, s.processingProgress) <==> n == 82 || n == 83
  {
    TicksFrom(Started, n);
  }

  /** While a run is going the processing card is shown whatever the files;
      once it is complete the card stays only if files were handed over. */
  lemma CardVisibility(n: nat, fileCount: nat)
    ensures var s := Ticks(Started, n);
      AiProcessing.Renders(s.isProcessing, fileCount) <==> n < 84 || fileCount > 0
  {
    RunLength(n);
    TicksFrom(Started, n);
  }

  /** The mapping preview (and the export panel, which has the same guard)
      appears exactly when a run has finished. */
  lemma PreviewAfterRun(n: nat, searchTerm: string)
    ensures MappingPreview.RenderPreview(Ticks(Started, n).isComplete, searchTerm).Some? <==> n >= 84
  {
    RunLength(n);
  }

  /** The page component. */
  class Dashboard {
    var files: seq<MockFile>
    var isProcessing: bool
    var currentStep: int
    var processingProgress: int
    var isComplete: bool
    var showAuditTrail: bool
    // The interval callback's closure and whether the interval is scheduled.
    var step: int
    var progress: int
    var timerActive: bool
    // How many "Processing complete" notices have been raised.
    var completionNotices: nat

    function State(): Simulation
      reads this
    {
      Simulation(step, progress, timerActive, isProcessing, currentStep, processingProgress, isComplete)
    }

    /** The initial page state: nothing uploaded, idle at step -1. */
    constructor ()
      ensures files == [] && !showAuditTrail && completionNotices == 0
      ensures !isProcessing && currentStep == -1 && processingProgress == 0 && !isComplete
      ensures !timerActive
    {
      files := [];
      isProcessing, currentStep, processingProgress, isComplete := false, -1, 0, false;
      showAuditTrail := false;
      step, progress, timerActive := 0, 0, false;
      completionNotices := 0;
    }

    /** `startProcessing`: reset the published state and schedule a fresh
        interval whose closure starts at step 0, progress 0. */
    method StartProcessing()
      requires !timerActive
      modifies this
      ensures State() == Started
      ensures isProcessing && currentStep == 0 && processingProgress == 0 && !isComplete
      ensures files == old(files) && showAuditTrail == old(showAuditTrail)
      ensures completionNotices == old(completionNotices)
    {
      isProcessing := true;
      currentStep := 0;
      processingProgress := 0;
      isComplete := false;
      step, progress, timerActive := 0, 0, true;
    }

    /** `handleFileUpload`: keep the files handed over, then start. */
    method HandleFileUpload(uploadedFiles: seq<MockFile>)
      requires !timerActive
      modifies this
      ensures files == uploadedFiles
      ensures State() == Started
      ensures showAuditTrail == old(showAuditTrail) && completionNotices == old(completionNotices)
    {
      files := uploadedFiles;
      StartProcessing();
    }

    /** One firing of the interval callback. */
    method Tick()
      requires timerActive
      modifies this
      ensures State() == Next(old(State()))
      ensures completionNotices == old(completionNotices) + (if timerActive then 0 else 1)
      ensures files == old(files) && showAuditTrail == old(showAuditTrail)
    {
      progress := progress + 5;
      if progress > 100 {
        progress := 0;
        step := step + 1;
        if step > 3 {
          timerActive := false;
          isComplete := true;
          isProcessing := false;
          completionNotices := completionNotices + 1;
          return;
        }
        currentStep := step;
      }
      processingProgress := progress;
    }

    /** Let the interval fire until it clears itself: 84 firings, one
        completion notice, and the finished state. */
    method RunToCompletion() returns (firings: nat)
      requires State() == Started
      modifies this
      ensures firings == 84
      ensures State() == Finished
      ensures State() == Ticks(Started, firings)
      ensures completionNotices == old(completionNotices) + 1
      ensures files == old(files) && showAuditTrail == old(showAuditTrail)
    {
      firings := 0;
      while timerActive
        invariant Reachable(State())
        invariant firings + Remaining(State()) == 84
        invariant State() == Ticks(Started, firings)
        invariant completionNotices == old(completionNotices) + (if timerActive then 0 else 1)
        invariant files == old(files) && showAuditTrail == old(showAuditTrail)
        decreases Remaining(State())
      {
        NextStep(State());
        TicksAdd(Started, firings, 1);
        Tick();
        firings := firings + 1;
      }
    }

    /** `toggleAuditTrail`: flip the audit panel, touching nothing else; two
        toggles restore it. */
    method ToggleAuditTrail()
      modifies this
      ensures showAuditTrail == !old(showAuditTrail)
      ensures files == old(files) && State() == old(State())
      ensures completionNotices == old(completionNotices)
    {
      showAuditTrail := !showAuditTrail;
    }
  }
}
