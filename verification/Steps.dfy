/** worker/src/steps.ts: the guarded life of one job's pipeline steps. */
module Steps {
  import opened Wrappers
  import opened Contract

  /** The table of worker/src/steps.ts; statuses outside it allow nothing. */
  predicate StepAllows(current: StepStatus, target: StepStatus) {
    match current
    case Pending => target in {Pending, Running, StepComplete, Skipped, StepFailed}
    case Running => target in {Running, StepComplete, Skipped, StepFailed}
    case StepComplete => target == StepComplete
    case Skipped => target == Skipped
    case StepFailed => target == StepFailed
    case OtherStatus(_) => false
  }

  predicate Settled(status: StepStatus) {
    status in {StepComplete, Skipped, StepFailed}
  }

  function Names(steps: seq<Step>): set<StepName> {
    set s | s in steps :: s.name
  }

  /** Whether `validateSteps` accepts: the seven pipeline steps once each, with known statuses. */
  predicate ValidSteps(steps: seq<Step>) {
    && |steps| == |PIPELINE_STEPS|
    && |Names(steps)| == |PIPELINE_STEPS|
    && (forall i | 0 <= i < |steps| :: steps[i].name in PIPELINE_STEPS)
    && (forall i | 0 <= i < |steps| :: StepAllows(steps[i].status, steps[i].status))
  }

  function PendingStep(name: StepName): Step {
    Step(name, Pending, None, None, None, None)
  }

  function PendingSteps(): seq<Step> {
    seq(|PIPELINE_STEPS|, i requires 0 <= i < |PIPELINE_STEPS| => PendingStep(PIPELINE_STEPS[i]))
  }

  function ResetStep(step: Step, review: bool): Step {
    if review && step.name !in RERUN_STEPS then step else PendingStep(step.name)
  }

  function ResetSteps(steps: seq<Step>, review: bool): seq<Step> {
    seq(|steps|, i requires 0 <= i < |steps| => ResetStep(steps[i], review))
  }

  function FailStep(step: Step, error: string, now: int): Step {
    if step.status == Pending || step.status == Running
    then step.(status := StepFailed, completedAt := Some(now), error := Some(error))
    else step
  }

  function FailSteps(steps: seq<Step>, error: string, now: int): seq<Step> {
    seq(|steps|, i requires 0 <= i < |steps| => FailStep(steps[i], error, now))
  }

  /** The first step with the reported name: what `find` returns. */
  function FindStep(steps: seq<Step>, name: Option<StepName>): (k: nat)
    ensures k <= |steps|
    ensures k < |steps| ==> name == Some(steps[k].name)
    ensures forall i | 0 <= i < k :: name != Some(steps[i].name)
  {
    if steps == [] then 0
    else if name == Some(steps[0].name) then 0
    else 1 + FindStep(steps[1..], name)
  }

  function Advanced(step: Step, event: ProgressEvent, target: StepStatus, now: int): Step {
    step.(
      status := target,
      startedAt := if target == Running then Some(step.startedAt.GetOr(now)) else step.startedAt,
      completedAt := if Settled(target) then Some(now) else None,
      error := if target == StepFailed
               then (if event.message.Some? then event.message else step.error) else None,
      result := if event.result.Some? then event.result
                else if target == Running then None else step.result)
  }

  function ApplyStepProgress(steps: seq<Step>, event: ProgressEvent, now: int): Outcome<seq<Step>> {
    if event.step == None && event.status == None then Ok(steps)
    else if event.step == Some(OtherStep("review"))
         && event.status in {Some(StepComplete), Some(OtherStatus("manual_remediation")), Some(StepFailed)}
    then Ok(steps)
    else
      var k := FindStep(steps, event.step);
      if k == |steps| || event.status == None then Raised("Unknown or incomplete pipeline progress event")
      else if !StepAllows(steps[k].status, event.status.value) then Raised("Illegal step transition")
      else Ok(steps[k := Advanced(steps[k], event, event.status.value, now)])
  }

  /** Two step lists tell the same pipeline: same names in the same order. */
  predicate SameNames(a: seq<Step>, b: seq<Step>) {
    |a| == |b| && forall i | 0 <= i < |a| :: a[i].name == b[i].name
  }

  lemma SameNamesSame(a: seq<Step>, b: seq<Step>)
    requires SameNames(a, b)
    ensures Names(a) == Names(b)
  {
    forall n ensures n in Names(a) <==> n in Names(b) {
      if n in Names(a) {
        var i :| 0 <= i < |a| && a[i].name == n;
        assert b[i] in b;
      }
      if n in Names(b) {
        var i :| 0 <= i < |b| && b[i].name == n;
        assert a[i] in a;
      }
    }
  }

  /** The reports that change nothing: one about no step, and the job's outcome under "review". */
  predicate Ignored(event: ProgressEvent) {
    || (event.step == None && event.status == None)
    || (event.step == Some(OtherStep("review"))
        && event.status in {Some(StepComplete), Some(OtherStatus("manual_remediation")), Some(StepFailed)})
  }

  /** The report is about this step: the first of that name. */
  predicate About(event: ProgressEvent, steps: seq<Step>, k: nat) {
    && k < |steps| && event.step == Some(steps[k].name)
    && forall i | 0 <= i < k :: event.step != Some(steps[i].name)
  }

  predicate Recordable(event: ProgressEvent, steps: seq<Step>, k: nat) {
    About(event, steps, k) && event.status.Some? && StepAllows(steps[k].status, event.status.value)
  }

  /** A step that shows what was reported of it: it starts once, its end and its error go when it
      runs again, and what it already had to show stays where the report is silent. */
  predicate Shows(before: Step, after: Step, event: ProgressEvent, now: int) {
    && after.name == before.name && Some(after.status) == event.status
    && match after.status
       case Running =>
         && after.startedAt == Some(if before.startedAt.Some? then before.startedAt.value else now)
         && after.completedAt == None && after.error == None && after.result == event.result
       case StepFailed =>
         && after.startedAt == before.startedAt && after.completedAt == Some(now)
         && after.error == (if event.message.Some? then event.message else before.error)
         && after.result == (if event.result.Some? then event.result else before.result)
       case Pending =>
         && after.startedAt == before.startedAt && after.completedAt == None && after.error == None
         && after.result == (if event.result.Some? then event.result else before.result)
       case _ =>
         && after.startedAt == before.startedAt && after.completedAt == Some(now) && after.error == None
         && after.result == (if event.result.Some? then event.result else before.result)
  }

  /** Both lists differ in one step at most, and that one shows the report. */
  predicate Tells(steps: seq<Step>, after: seq<Step>, event: ProgressEvent, now: int) {
    && |after| == |steps|
    && if Ignored(event) then after == steps
       else exists k | 0 <= k < |steps| ::
         && Recordable(event, steps, k) && Shows(steps[k], after[k], event, now)
         && forall i | 0 <= i < |steps| && i != k :: after[i] == steps[i]
  }

  /** A report is accepted exactly when it may be ignored, or names a step its status may follow; the
      steps then tell it. */
  lemma ProgressTellsTheReport(steps: seq<Step>, event: ProgressEvent, now: int)
    ensures var r := ApplyStepProgress(steps, event, now);
      && (r.Ok? <==> Ignored(event) || exists k: nat :: Recordable(event, steps, k))
      && (r.Ok? ==> Tells(steps, r.value, event, now))
  {
    var k := FindStep(steps, event.step);
    if k < |steps| && event.status.Some? && StepAllows(steps[k].status, event.status.value) {
      assert Recordable(event, steps, k);
    }
  }

  /** A report moves a step along its table or not at all; a settled step keeps its status, and no step
      is added, lost or renamed. */
  lemma ProgressIsMonotone(steps: seq<Step>, event: ProgressEvent, now: int)
    requires ApplyStepProgress(steps, event, now).Ok?
    ensures var after := ApplyStepProgress(steps, event, now).value;
      && SameNames(steps, after)
      && (forall i | 0 <= i < |steps| :: after[i] == steps[i] || StepAllows(steps[i].status, after[i].status))
      && (forall i | 0 <= i < |steps| && Settled(steps[i].status) :: after[i].status == steps[i].status)
      && (forall i, j | 0 <= i < j < |steps| :: after[i] == steps[i] || after[j] == steps[j])
      && (ValidSteps(steps) ==> ValidSteps(after))
  {
    var after := ApplyStepProgress(steps, event, now).value;
    assert SameNames(steps, after);
    SameNamesSame(steps, after);
  }

  lemma PendingStepsAre()
    ensures var s := PendingSteps();
      && |s| == 7
      && s[0] == PendingStep(Classify) && s[1] == PendingStep(Ocr) && s[2] == PendingStep(Structure)
      && s[3] == PendingStep(AltText) && s[4] == PendingStep(Tagging) && s[5] == PendingStep(Validation)
      && s[6] == PendingStep(Fidelity)
  {
  }

  lemma SevenNames()
    ensures |{Classify, Ocr, Structure, AltText, Tagging, Validation, Fidelity}| == 7
  {
  }

  lemma NamesOfSeven(s: seq<Step>)
    requires |s| == 7
    ensures Names(s) == {s[0].name, s[1].name, s[2].name, s[3].name, s[4].name, s[5].name, s[6].name}
  {
    assert s[0] in s && s[1] in s && s[2] in s && s[3] in s && s[4] in s && s[5] in s && s[6] in s;
  }

  lemma {:induction false} FewNames(s: seq<Step>)
    ensures |Names(s)| <= |s|
  {
    if s != [] {
      var init, last := s[..|s| - 1], s[|s| - 1];
      FewNames(init);
      assert Names(s) == Names(init) + {last.name} by {
        assert s == init + [last];
      }
    }
  }

  lemma SameSizeSubset(a: set<StepName>, b: set<StepName>)
    requires a <= b && |a| >= |b|
    ensures a == b
  {
    assert |b - a| == |b| - |a|;
    assert b == a + (b - a);
  }

  predicate Shown(steps: seq<Step>, name: StepName) {
    exists i | 0 <= i < |steps| :: steps[i].name == name
  }

  /** A completion's steps are valid exactly when there are seven, every pipeline step is among them, and
      every status is one the table knows. */
  lemma ValidStepsMeans(steps: seq<Step>)
    ensures ValidSteps(steps) <==>
              && |steps| == 7
              && (forall name | name in {Classify, Ocr, Structure, AltText, Tagging, Validation, Fidelity} ::
                    Shown(steps, name))
              && forall i | 0 <= i < |steps| :: !steps[i].status.OtherStatus?
  {
    PipelineNames();
    SevenNames();
    FewNames(steps);
    NamesAreShown(steps);
    hide Names;
    var pipeline := {Classify, Ocr, Structure, AltText, Tagging, Validation, Fidelity};
    if ValidSteps(steps) {
      SameSizeSubset(Names(steps), pipeline);
    }
    if |steps| == 7 && pipeline <= Names(steps) {
      SameSizeSubset(pipeline, Names(steps));
    }
  }

  lemma PipelineNames()
    ensures forall name :: name in PIPELINE_STEPS <==> name in {Classify, Ocr, Structure, AltText, Tagging, Validation, Fidelity}
  {
  }

  lemma NamesAreShown(steps: seq<Step>)
    ensures forall name :: name in Names(steps) <==> Shown(steps, name)
    ensures forall i | 0 <= i < |steps| :: steps[i].name in Names(steps)
  {
    forall i | 0 <= i < |steps| ensures steps[i].name in Names(steps) {
      assert steps[i] in steps;
    }
  }

  lemma PipelineIsSeven()
    ensures ValidSteps(PendingSteps())
  {
    var s := PendingSteps();
    PendingStepsAre();
    SevenNames();
    NamesOfSeven(s);
    hide PendingSteps; hide Names;
    assert |PIPELINE_STEPS| == 7;
    forall i | 0 <= i < |s| ensures s[i].name in PIPELINE_STEPS && s[i].status == Pending {
      assert i == 0 || i == 1 || i == 2 || i == 3 || i == 4 || i == 5 || i == 6;
      assert s[i].name == PIPELINE_STEPS[i];
    }
  }

  /** Nothing is left of a step but its name; a reset for review spares the steps that are not run again. */
  predicate Reset(before: seq<Step>, after: seq<Step>, review: bool) {
    && |after| == |before|
    && forall i | 0 <= i < |before| ::
         if review && before[i].name !in {Tagging, Validation, Fidelity} then after[i] == before[i]
         else && after[i].name == before[i].name && after[i].status == Pending && after[i].startedAt == None
              && after[i].completedAt == None && after[i].error == None && after[i].result == None
  }

  /** The steps that were not settled, and those alone, end failed, with the reason. */
  predicate BrokenOff(before: seq<Step>, after: seq<Step>, error: string, now: int) {
    && |after| == |before|
    && forall i | 0 <= i < |before| ::
         if before[i].status !in {Pending, Running} then after[i] == before[i]
         else && after[i].name == before[i].name && after[i].status == StepFailed && after[i].error == Some(error)
              && after[i].completedAt == Some(now)
              && after[i].startedAt == before[i].startedAt && after[i].result == before[i].result
  }

  lemma ResetStepsReset(steps: seq<Step>, review: bool)
    ensures Reset(steps, ResetSteps(steps, review), review)
  {
  }

  lemma FailStepsBreakOff(steps: seq<Step>, error: string, now: int)
    ensures BrokenOff(steps, FailSteps(steps, error, now), error, now)
  {
  }

  /** Resetting and failing keep a valid pipeline valid, and do no more to it than they should. */
  lemma ResetAndFailKeepThePipeline(steps: seq<Step>, review: bool, error: string, now: int)
    requires ValidSteps(steps)
    ensures ValidSteps(ResetSteps(steps, review)) && Reset(steps, ResetSteps(steps, review), review)
    ensures ValidSteps(FailSteps(steps, error, now)) && BrokenOff(steps, FailSteps(steps, error, now), error, now)
    ensures forall i | 0 <= i < |steps| :: Settled(FailSteps(steps, error, now)[i].status)
  {
    SameNamesSame(steps, ResetSteps(steps, review));
    SameNamesSame(steps, FailSteps(steps, error, now));
  }
}
