/**
 * The wizard controller: a step cursor over four steps that moves by one and
 * stops at either end, the application record it owns, the screen shown for
 * each step, the step indicators and the navigation buttons.
 */
module AdmissionForm {
  import opened Wrappers
  import opened AdmissionData
  import ReviewStep
  import StudentInfoStep

  datatype StepInfo = StepInfo(id: int, title: string, description: string)

  const Steps: seq<StepInfo> := [
    StepInfo(1, "Student Information", "Basic details about the student"),
    StepInfo(2, "Parent Information", "Guardian contact details"),
    StepInfo(3, "Contact & Emergency", "Address and emergency contacts"),
    StepInfo(4, "Review & Submit", "Verify all information")]

  /** `steps.length`, the last step. */
  const StepCount: int := |Steps|

  // ---------------------------------------------------------------------------
  // The step cursor

  /** The step `handleNext` moves to: one further, except at the last step. */
  function NextStep(step: int): int {
    if step < StepCount then step + 1 else step
  }

  /** The step `handlePrevious` moves to: one back, except at the first step. */
  function PreviousStep(step: int): int {
    if step > 1 then step - 1 else step
  }

  datatype Navigation = GoNext | GoPrevious

  /** The step reached from `step` by a sequence of navigation clicks. */
  function Run(step: int, clicks: seq<Navigation>): int
    decreases |clicks|
  {
    if clicks == [] then step
    else Run(if clicks[0] == GoNext then NextStep(step) else PreviousStep(step), clicks[1..])
  }

  function CountNext(clicks: seq<Navigation>): nat
    decreases |clicks|
  {
    if clicks == [] then 0 else (if clicks[0] == GoNext then 1 else 0) + CountNext(clicks[1..])
  }

  /** `k` consecutive Next clicks. */
  function NextTimes(k: nat): (r: seq<Navigation>)
    ensures |r| == k && forall i :: 0 <= i < k ==> r[i] == GoNext
  {
    seq(k, _ => GoNext)
  }

  /** Both moves keep the cursor on a real step. */
  lemma MovesStayInRange(step: int)
    requires 1 <= step <= StepCount
    ensures 1 <= NextStep(step) <= StepCount
    ensures 1 <= PreviousStep(step) <= StepCount
    ensures NextStep(step) == step <==> step == StepCount
    ensures PreviousStep(step) == step <==> step == 1
  {
  }

  /** Next then Previous is the identity below the last step, and Previous then Next above the first. */
  lemma NextPreviousRoundTrip(step: int)
    requires 1 <= step <= StepCount
    ensures step < StepCount ==> PreviousStep(NextStep(step)) == step
    ensures step > 1 ==> NextStep(PreviousStep(step)) == step
    ensures PreviousStep(NextStep(StepCount)) == StepCount - 1
    ensures NextStep(PreviousStep(1)) == 2
  {
  }

  /** Any sequence of clicks keeps the cursor in 1..4, and it rises by at most one per Next. */
  lemma {:induction false} RunBounds(step: int, clicks: seq<Navigation>)
    requires 1 <= step <= StepCount
    ensures 1 <= Run(step, clicks) <= StepCount
    ensures Run(step, clicks) <= step + CountNext(clicks)
    decreases |clicks|
  {
    if clicks != [] {
      var next := if clicks[0] == GoNext then NextStep(step) else PreviousStep(step);
      RunBounds(next, clicks[1..]);
    }
  }

  /** `k` Next clicks from `step` reach `min(step + k, 4)`: they saturate at the last step. */
  lemma {:induction false} NextSaturates(step: int, k: nat)
    requires 1 <= step <= StepCount
    ensures Run(step, NextTimes(k)) == if step + k < StepCount then step + k else StepCount
    decreases k
  {
    if k > 0 {
      assert NextTimes(k)[1..] == NextTimes(k - 1);
      NextSaturates(NextStep(step), k - 1);
    }
  }

  /** No step is skipped: from the first step the review needs at least three Next clicks. */
  lemma ReachingReviewTakesThreeNexts(clicks: seq<Navigation>)
    requires Run(1, clicks) == StepCount
    ensures CountNext(clicks) >= 3
  {
    RunBounds(1, clicks);
  }

  // ---------------------------------------------------------------------------
  // Step-dependent views

  /** The component `renderStep` mounts, with the data it is given. */
  datatype Screen =
    | StudentEditor(student: StudentData)
    | ParentEditor(parent: ParentData)
    | ContactEditor(contact: ContactData)
    | ReviewScreen(review: ReviewStep.Review)

  /** The step each kind of screen belongs to. */
  function ScreenStep(s: Screen): int {
    match s
    case StudentEditor(_) => 1
    case ParentEditor(_) => 2
    case ContactEditor(_) => 3
    case ReviewScreen(_) => 4
  }

  /** `renderStep`: one screen per step 1..4, and nothing (`null`) for any other value. */
  function RenderStep(step: int, formData: FormData): (r: Option<Screen>)
    ensures r.Some? <==> 1 <= step <= StepCount
    ensures r.Some? ==> ScreenStep(r.value) == step
    ensures r.Some? && r.value.StudentEditor? ==> r.value.student == formData.student
    ensures r.Some? && r.value.ParentEditor? ==> r.value.parent == formData.parent
    ensures r.Some? && r.value.ContactEditor? ==> r.value.contact == formData.contact
    ensures r.Some? && r.value.ReviewScreen? ==> r.value.review == ReviewStep.ReviewOf(formData)
  {
    match step
    case 1 => Some(StudentEditor(formData.student))
    case 2 => Some(ParentEditor(formData.parent))
    case 3 => Some(ContactEditor(formData.contact))
    case 4 => Some(ReviewScreen(ReviewStep.ReviewOf(formData)))
    case _ => None
  }

  datatype StepStatus = Completed | Active | Pending

  /** `getStepIcon`: the indicator of `stepNumber` while the cursor is at `currentStep`. */
  function StepIcon(stepNumber: int, currentStep: int): StepStatus {
    if stepNumber < currentStep then Completed
    else if stepNumber == currentStep then Active
    else Pending
  }

  /** The indicator row: `getStepIcon(step.id)` for every entry of `steps`, in order. */
  function StepIndicators(currentStep: int): (r: seq<StepStatus>)
    ensures |r| == |Steps|
    ensures forall i :: 0 <= i < |r| ==> (r[i] == Completed <==> i + 1 < currentStep)
    ensures forall i :: 0 <= i < |r| ==> (r[i] == Active <==> i + 1 == currentStep)
    ensures forall i :: 0 <= i < |r| ==> (r[i] == Pending <==> i + 1 > currentStep)
  {
    seq(|Steps|, i requires 0 <= i < |Steps| => StepIcon(Steps[i].id, currentStep))
  }

  function Repeat(x: StepStatus, n: nat): (r: seq<StepStatus>)
    ensures |r| == n && forall i :: 0 <= i < n ==> r[i] == x
  {
    seq(n, _ => x)
  }

  /**
   * On a real step the indicator row is the completed steps, then exactly one
   * active step, then the pending ones.
   */
  lemma ExactlyOneActive(currentStep: int)
    requires 1 <= currentStep <= StepCount
    ensures StepIndicators(currentStep) ==
      Repeat(Completed, currentStep - 1) + [Active] + Repeat(Pending, StepCount - currentStep)
  {
  }

  datatype ForwardButton = NextButton | SubmitButton

  /** The right-hand button: Submit on the last step, Next on every other. */
  function ForwardButtonAt(step: int): ForwardButton {
    if step == StepCount then SubmitButton else NextButton
  }

  /** The Previous button is disabled exactly on the first step. */
  predicate PreviousDisabled(step: int) {
    step == 1
  }

  /**
   * The buttons agree with the moves: Next is offered exactly where it moves the
   * cursor, Submit exactly where Next could not, and Previous is disabled exactly
   * where it would not move.
   */
  lemma ButtonsMatchMoves(step: int)
    requires 1 <= step <= StepCount
    ensures ForwardButtonAt(step) == SubmitButton <==> step == StepCount
    ensures ForwardButtonAt(step) == NextButton <==> NextStep(step) == step + 1
    ensures PreviousDisabled(step) <==> PreviousStep(step) == step
  {
  }

  /**
   * A grade picked from the select's catalog options is stored in the student
   * section, and the review then shows that grade rather than "Not selected".
   */
  lemma GradeSelectionReviewed(formData: FormData, i: int)
    requires 0 <= i < |StudentInfoStep.GradeCatalog|
    ensures var g := StudentInfoStep.GradeCatalog[i];
      var updated := ApplyUpdate(formData, StudentUpdate(StudentInfoStep.TextEdit(Grade, g)));
      && updated.student.grade == g
      && ReviewStep.ReviewOf(updated).grade == g
  {
    var g := StudentInfoStep.GradeCatalog[i];
    var updated := ApplyUpdate(formData, StudentUpdate(StudentInfoStep.TextEdit(Grade, g)));
    ApplyUpdateFields(formData, StudentUpdate(StudentInfoStep.TextEdit(Grade, g)), InStudent(Grade));
    assert |g| > 0;
  }

  // ---------------------------------------------------------------------------
  // The component's state

  /** The `AdmissionForm` component: its two pieces of state, `currentStep` and `formData`. */
  class Wizard {
    var step: int
    var form: FormData

    ghost predicate Valid()
      reads this
    {
      1 <= step <= StepCount
    }

    /** The initial state: the first step and the all-empty record. */
    constructor ()
      ensures Valid()
      ensures step == 1 && form == InitialForm
    {
      step := 1;
      form := InitialForm;
    }

    /** `handleNext`. */
    method HandleNext()
      modifies this
      ensures old(Valid()) ==> Valid()
      ensures step == NextStep(old(step)) && form == old(form)
    {
      if step < StepCount {
        step := step + 1;
      }
    }

    /** `handlePrevious`. */
    method HandlePrevious()
      modifies this
      ensures old(Valid()) ==> Valid()
      ensures step == PreviousStep(old(step)) && form == old(form)
    {
      if step > 1 {
        step := step - 1;
      }
    }

    /** `updateFormData(section, data)`: the step is untouched, the record gets the merge. */
    method UpdateFormData(u: SectionUpdate)
      modifies this
      ensures step == old(step)
      ensures form == ApplyUpdate(old(form), u)
      ensures forall k :: FormGet(form, k) == Override(UpdateGet(u, k), FormGet(old(form), k))
    {
      form := ApplyUpdate(form, u);
      forall k ensures FormGet(form, k) == Override(UpdateGet(u, k), FormGet(old(form), k)) {
        ApplyUpdateFields(old(form), u, k);
      }
    }

    /**
     * `handleSubmit`: hands the current record to the (unmodelled) notification
     * and log. It changes neither the step nor the record, and nothing about the
     * fields' contents can block it.
     */
    method HandleSubmit() returns (submitted: FormData)
      ensures submitted == form
    {
      submitted := form;
    }

    /** What the component shows for its current state. */
    function View(): (r: Option<Screen>)
      reads this
      requires Valid()
      ensures r.Some? && ScreenStep(r.value) == step
    {
      RenderStep(step, form)
    }
  }

  /**
   * A whole session: the first and last name are entered and Physics is
   * ticked, then Next, the father's name, Next twice, and Submit on the review.
   * The review shows both names, the one subject and placeholders for
   * everything left empty, and Submit accepts the mostly empty record.
   */
  method EnrolmentSession() returns (finalStep: int, review: ReviewStep.Review, submitted: FormData)
    ensures finalStep == 4
    ensures review.fullName == "Ana Lee"
    ensures review.fatherName == "Tom Lee"
    ensures review.motherName == ReviewStep.NotProvided
    ensures review.dateOfBirth == ReviewStep.NotProvided
    ensures review.subjects == ReviewStep.Badges(["Physics"])
    ensures review.cityLine == ReviewStep.CityAndPostalCodeNotProvided
    ensures submitted.student.firstName == "Ana" && submitted.parent.motherName == ""
  {
    var w := new Wizard();
    w.UpdateFormData(StudentUpdate(NoStudentFields.(firstName := Some("Ana"), lastName := Some("Lee"))));
    w.UpdateFormData(StudentUpdate(StudentInfoStep.HandleSubjectChange(w.form.student, "Physics", true)));
    w.HandleNext();
    w.UpdateFormData(ParentUpdate(NoParentFields.(fatherName := Some("Tom Lee"))));
    w.HandleNext();
    w.HandleNext();
    var screen := w.View();
    finalStep := w.step;
    review := screen.value.review;
    submitted := w.HandleSubmit();
  }
}
