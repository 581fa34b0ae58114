/** The vocabulary of worker/src/contract.ts that the board stores and guards. */
module Contract {
  import opened Wrappers

  datatype JobStatus = Queued | Processing | Complete | ManualRemediation | Failed

  predicate OutputReady(status: JobStatus) {
    status == Complete || status == ManualRemediation
  }

  predicate Active(status: JobStatus) {
    status == Queued || status == Processing
  }

  predicate Terminal(status: JobStatus) {
    OutputReady(status) || status == Failed
  }

  datatype StepName =
    | Classify | Ocr | Structure | AltText | Tagging | Validation | Fidelity
    | OtherStep(text: string)

  datatype StepStatus =
    | Pending | Running | StepComplete | Skipped | StepFailed
    | OtherStatus(text: string)

  const PIPELINE_STEPS: seq<StepName> :=
    [Classify, Ocr, Structure, AltText, Tagging, Validation, Fidelity]

  const RERUN_STEPS: seq<StepName> := [Tagging, Validation, Fidelity]

  datatype Step = Step(
    name: StepName,
    status: StepStatus,
    startedAt: Option<int>,
    completedAt: Option<int>,
    error: Option<string>,
    result: Option<string>)

  /** A progress report; every field may be missing. */
  datatype ProgressEvent = ProgressEvent(
    step: Option<StepName>,
    status: Option<StepStatus>,
    result: Option<string>,
    message: Option<string>)

  datatype ActionType = Undo | Revise | Edit

  datatype ReviewAction = ReviewAction(kind: ActionType, changeId: nat, text: string)

  datatype JobResult = JobResult(status: JobStatus, error: Option<string>, steps: seq<Step>)

  /** What a runner reports at the end of a task. */
  datatype CompleteRequest =
    | Refused(reason: string, overridesVersion: nat)
    | Finished(job: JobResult, files: seq<string>, hasState: bool, overridesVersion: nat)

  const STATE_FILE := "state.tar.gz"

  predicate Digits(s: string) {
    1 <= |s| <= 4 && forall i | 0 <= i < |s| :: '0' <= s[i] <= '9'
  }

  const FIXED_NAMES: set<string> := {
    "document.html", "report.html", "output.pdf", STATE_FILE,
    "views/review-tasks.json", "views/applied-changes.json", "views/figure-changes.json",
    "views/report.json", "views/batch-parts.json"
  }

  /** The names an artifact PUT or a manifest may use. */
  predicate IsRunnerFileName(name: string) {
    || name in FIXED_NAMES
    || ("figures/" <= name && Digits(name[|"figures/"|..]))
    || ("previews/" <= name && Digits(name[|"previews/"|..]))
  }
}
