/**
 * The AI-processing card: four pipeline steps whose status and progress are
 * derived, on every render, from the page's `currentStep` and
 * `processingProgress`.
 */
module AiProcessing {
  import opened Text

  datatype Status = Waiting | Processing | Complete | Error

  datatype ProcessingStep = ProcessingStep(
    id: string,
    title: string,
    description: string,
    progress: int,
    status: Status)

  /** Progress bar value of step `i`: the live value on the current step, full
      on the steps before it, empty on the steps after it. The four steps use
      the same expression with their own index. */
  function StepProgress(i: nat, currentStep: int, processingProgress: int): int {
    if currentStep >= i then (if currentStep == i then processingProgress else 100) else 0
  }

  /** Status of the first three steps. */
  function EarlyStatus(i: nat, currentStep: int): Status {
    if currentStep > i then Complete else if currentStep == i then Processing else Waiting
  }

  /** Status of the validation step, which is complete only at step 4 exactly. */
  function ValidationStatus(currentStep: int): Status {
    if currentStep == 4 then Complete else if currentStep == 3 then Processing else Waiting
  }

  /** The `steps` array rendered by the card. */
  function Steps(currentStep: int, processingProgress: int): (r: seq<ProcessingStep>)
    ensures |r| == 4
    ensures forall i :: 0 <= i < 3 ==>
      && (r[i].status == Complete <==> currentStep > i)
      && (r[i].status == Processing <==> currentStep == i)
      && (r[i].status == Waiting <==> currentStep < i)
    ensures r[3].status == Complete <==> currentStep == 4
    ensures r[3].status == Processing <==> currentStep == 3
    ensures r[3].status == Waiting <==> currentStep != 3 && currentStep != 4
    ensures forall i :: 0 <= i < 4 ==>
      && (currentStep == i ==> r[i].progress == processingProgress)
      && (currentStep > i ==> r[i].progress == 100)
      && (currentStep < i ==> r[i].progress == 0)
  {
    [ ProcessingStep("extract", "Data Extraction", "Extracting structured data from your files",
        StepProgress(0, currentStep, processingProgress), EarlyStatus(0, currentStep)),
      ProcessingStep("analyze", "Data Analysis", "Analyzing and categorizing ESG metrics",
        StepProgress(1, currentStep, processingProgress), EarlyStatus(1, currentStep)),
      ProcessingStep("schema", "Schema Mapping", "Mapping to GRESB schema",
        StepProgress(2, currentStep, processingProgress), EarlyStatus(2, currentStep)),
      ProcessingStep("validation", "Data Validation", "Validating against GRESB requirements",
        StepProgress(3, currentStep, processingProgress), ValidationStatus(currentStep)) ]
  }

  /** Position of a status in the pipeline: done steps first, waiting ones last. */
  function Rank(s: Status): nat {
    match s
    case Complete => 2
    case Processing => 1
    case Waiting => 0
    case Error => 0
  }

  /** Whatever the step index, the derived statuses never contain `error`, at
      most one step is processing, and the statuses are ordered complete,
      processing, waiting along the pipeline. */
  lemma StepsWellFormed(currentStep: int, processingProgress: int)
    ensures var r := Steps(currentStep, processingProgress);
      && (forall i :: 0 <= i < 4 ==> r[i].status != Error)
      && (forall i, j :: 0 <= i < 4 && 0 <= j < 4 && r[i].status == Processing && r[j].status == Processing ==> i == j)
      && (forall i, j :: 0 <= i < j < 4 ==> Rank(r[i].status) >= Rank(r[j].status))
  {
  }

  /** Past the last step (a value the page never publishes) the validation step
      falls back to waiting while the three before it are complete. */
  lemma ValidationWaitsPastFour(currentStep: int, processingProgress: int)
    requires currentStep > 4
    ensures var r := Steps(currentStep, processingProgress);
      r[3].status == Waiting && r[3].progress == 100 &&
      forall i :: 0 <= i < 3 ==> r[i].status == Complete
  {
  }

  /** `getStatusClass`: the icon style of a status. */
  function StatusClass(s: Status): (c: string)
    ensures c == "text-muted-foreground" <==> s == Waiting
  {
    match s
    case Complete => "text-success"
    case Processing => "text-primary animate-pulse"
    case Error => "text-destructive"
    case Waiting => "text-muted-foreground"
  }

  /** Distinct statuses are drawn with distinct styles. */
  lemma StatusClassInjective(s: Status, t: Status)
    requires StatusClass(s) == StatusClass(t)
    ensures s == t
  {
  }

  /** The percentage shown next to a step's title. Progress values are integers,
      so rounding them is the identity. */
  function Label(step: ProcessingStep): string {
    if step.status == Complete then "100%"
    else if step.status == Processing then IntToString(step.progress) + "%"
    else ""
  }

  /** A label is blank exactly for steps that are neither complete nor
      processing; a processing step's label is its progress in canonical
      decimal (a minus only for negatives, no leading zero) and a percent sign,
      and the number can be read back from it. */
  lemma LabelMeaning(step: ProcessingStep)
    ensures Label(step) == "" <==> step.status != Complete && step.status != Processing
    ensures step.status == Complete ==> Label(step) == "100%"
    ensures step.status == Processing ==>
      var l := Label(step);
      && |l| >= 2 && l[|l| - 1] == '%'
      && (forall i :: 0 <= i < |l| - 1 ==> IsDigit(l[i]) || (i == 0 && l[0] == '-'))
      && ParseInt(l[..|l| - 1]) == step.progress
      && (l[0] == '-' <==> step.progress < 0)
      && (step.progress < 0 ==> l[1] != '0')
      && (step.progress >= 0 && |l| > 2 ==> l[0] != '0')
  {
    if step.status == Processing {
      var l := Label(step);
      assert l[..|l| - 1] == IntToString(step.progress);
      ParseIntToString(step.progress);
    }
  }

  /** The card is hidden (`null`) when nothing is processing and no file was
      handed over. */
  function Renders(isProcessing: bool, fileCount: nat): bool {
    !(!isProcessing && fileCount == 0)
  }

  /** The "Almost complete!" banner. */
  function AlmostComplete(isProcessing: bool, currentStep: int, processingProgress: int): (shown: bool)
    ensures shown ==> Steps(currentStep, processingProgress)[3].status == Processing
    ensures shown ==> Steps(currentStep, processingProgress)[3].progress > 90
  {
    isProcessing && currentStep == 3 && processingProgress > 90
  }
}
