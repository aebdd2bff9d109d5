# Tuition admission wizard — a Dafny model

This project models the logic of a four-step admission wizard written as React
components. The wizard collects student, parent and contact details on three
editor screens, then shows a read-only review with a Submit button. Four pieces
are modelled:

- **Wizard controller** (`AdmissionForm` module, `admission_form.dfy`). The
  `Wizard` class holds the component's two pieces of state, `step` and `form`.
  Its methods `HandleNext`, `HandlePrevious` and `UpdateFormData` change
  that state; `HandleSubmit` returns the record and leaves the state unchanged. The pure helpers give the screen for each
  step (`RenderStep`), the indicator row (`StepIcon`, `StepIndicators`) and the
  buttons (`ForwardButtonAt`, `PreviousDisabled`).
- **Application record** (`AdmissionData` module, `admission_data.dfy`). This
  holds the `StudentData`, `ParentData`, `ContactData` and `FormData` records,
  the all-empty `InitialForm`, and the merge that `updateFormData` performs
  (`ApplyUpdate`). A TypeScript `Partial<...>` is a record of `Option` fields;
  a field is named when it is `Some`. To state what object spread does,
  each section also has a key view: `FormGet` reads one field,
  `UpdateGet` reads what an update gives that field, and `Override` is the
  spread rule for a single key.
- **Subject selection** (`StudentInfoStep` module, `student_info_step.dfy`).
  This covers the two catalogs and `handleSubjectChange`. Ticking a subject
  appends it. Unticking it filters out every copy (`Without`). The checkbox is
  drawn checked when the subject is in the list (`Checked`), and a click
  reports the opposite state (`Click`). Each text input sends a partial that
  names only its own field (`TextEdit`).
- **Review projection** (`ReviewStep` module, `review_step.dfy`). `ReviewOf`
  maps a `FormData` to the strings on screen, with the component's own
  fallback rules. JavaScript `||` on strings is modelled by `Or`, and
  truthiness by `Truthy`.

Three behaviours of the code are worth stating explicitly:

- The review shows a placeholder for every empty field except the full name.
  The full name is `firstName + " " + lastName`, so an empty name shows a
  single space (`OnlyFullNameCanBeBlank`, `ReviewOfInitialForm`). The
  medical-conditions block is left out entirely when the note is empty.
- Unticking and re-ticking a subject that was already ticked moves it to the
  end of the list (`ClickTwiceChecked`). Ticking and unticking a subject that
  was not ticked gives back exactly the old list (`ClickTwiceUnchecked`).
- `handleSubmit` has no step check. Only the button limits Submit to step 4
  (`ButtonsMatchMoves`), so the model's `HandleSubmit` has no precondition.

## Model

| member | source | states |
|---|---|---|
| `AdmissionData.ApplyUpdate` | src/components/AdmissionForm.tsx:89-94 | the two sections the update does not address are returned unchanged |
| `AdmissionData.ApplyUpdateFields` | src/components/AdmissionForm.tsx:89-94 | merge locality: every field the update names takes the update's value, and every other field of the whole record, in the same section or another, keeps its old value |
| `AdmissionData.EmptyUpdateIsIdentity` | src/components/AdmissionForm.tsx:89-94 | an update that names no field leaves the record equal to what it was |
| `AdmissionData.NoFieldsNameNothing` | src/components/AdmissionForm.tsx:89-94 | the three `{}` partials name no field of any section |
| `AdmissionData.ApplyUpdateIdempotent` | src/components/AdmissionForm.tsx:89-94 | applying the same update twice gives the same record as applying it once |
| `AdmissionData.IndependentUpdatesCommute` | src/components/AdmissionForm.tsx:89-94 | two updates that name disjoint sets of fields give the same record in either order |
| `AdmissionData.DifferentSectionsIndependent` | src/components/AdmissionForm.tsx:89-94 | updates of two different sections never name the same field, so they always commute |
| `AdmissionData.FormExtensional` | src/components/AdmissionForm.tsx:42-46 | two records that agree on every field through the key view are equal, so the key view covers every field of the three sections |
| `AdmissionData.InitialFormEmpty` | src/components/AdmissionForm.tsx:59-87 | every field of the initial record is empty: `""` for text, `[]` for subjects |
| `AdmissionForm.Wizard.constructor` | src/components/AdmissionForm.tsx:56-87 | the wizard starts on step 1 with the all-empty record, and its step is in range |
| `AdmissionForm.Wizard.HandleNext` | src/components/AdmissionForm.tsx:96-100 | the step becomes `NextStep` of the old step (one more below 4, otherwise unchanged), the record is untouched, and the range 1..4 is kept |
| `AdmissionForm.Wizard.HandlePrevious` | src/components/AdmissionForm.tsx:102-106 | the step becomes `PreviousStep` of the old step (one less above 1, otherwise unchanged), the record is untouched, and the range 1..4 is kept |
| `AdmissionForm.Wizard.UpdateFormData` | src/components/AdmissionForm.tsx:89-94 | the step is untouched; each field of the new record is the update's value where the update names it and the old value everywhere else |
| `AdmissionForm.Wizard.HandleSubmit` | src/components/AdmissionForm.tsx:108-114 | returns the current record for the notification and the log; it has no precondition on field contents and no modifies clause, so step and record stay unchanged |
| `AdmissionForm.Wizard.View` | src/components/AdmissionForm.tsx:116-129 | in every reachable state there is a screen, and it belongs to the current step |
| `AdmissionForm.NextStep` | src/components/AdmissionForm.tsx:97-98 | no contract of its own: the step `handleNext` moves to (one more below 4, otherwise the same); its properties are stated by `MovesStayInRange`, `NextPreviousRoundTrip` and `NextSaturates` |
| `AdmissionForm.PreviousStep` | src/components/AdmissionForm.tsx:103-104 | no contract of its own: the step `handlePrevious` moves to (one less above 1, otherwise the same); its properties are stated by `MovesStayInRange` and `NextPreviousRoundTrip` |
| `AdmissionForm.MovesStayInRange` | src/components/AdmissionForm.tsx:96-106 | from a step in 1..4 both moves stay in 1..4; Next stays put exactly at 4, Previous exactly at 1 |
| `AdmissionForm.NextPreviousRoundTrip` | src/components/AdmissionForm.tsx:96-106 | Next then Previous returns to the same step from steps 1–3; Previous then Next returns to the same step from steps 2–4; at the ends the round trip does not return |
| `AdmissionForm.RunBounds` | src/components/AdmissionForm.tsx:96-106 | after any sequence of clicks the step is in 1..4 and has risen by at most the number of Next clicks |
| `AdmissionForm.NextSaturates` | src/components/AdmissionForm.tsx:96-100 | `k` Next clicks from step `s` reach `min(s + k, 4)` and then stay there |
| `AdmissionForm.ReachingReviewTakesThreeNexts` | src/components/AdmissionForm.tsx:96-106 | no step is skipped: reaching step 4 from step 1 takes at least three Next clicks |
| `AdmissionForm.RenderStep` | src/components/AdmissionForm.tsx:116-129 | a screen exists exactly for steps 1..4 (otherwise nothing); its kind matches the step; each editor receives its own section, and the review receives the projection of the whole record |
| `AdmissionForm.StepIcon` | src/components/AdmissionForm.tsx:131-139 | no contract of its own: `getStepIcon` as completed / active / pending; its properties are stated by `StepIndicators` and `ExactlyOneActive` |
| `AdmissionForm.StepIndicators` | src/components/AdmissionForm.tsx:131-139 | one indicator per step: completed below the current step, active at it, pending above it |
| `AdmissionForm.ExactlyOneActive` | src/components/AdmissionForm.tsx:131-139 | on a real step the indicator row is the completed steps, then exactly one active step, then the pending steps |
| `AdmissionForm.ForwardButtonAt` | src/components/AdmissionForm.tsx:218 | no contract of its own: Submit on the last step, Next otherwise; its properties are stated by `ButtonsMatchMoves` |
| `AdmissionForm.PreviousDisabled` | src/components/AdmissionForm.tsx:211 | no contract of its own: the Previous button's `disabled` condition; its properties are stated by `ButtonsMatchMoves` |
| `AdmissionForm.ButtonsMatchMoves` | src/components/AdmissionForm.tsx:207-234 | Submit is offered exactly on step 4; Next is offered exactly where it advances the step; Previous is disabled exactly where it would not move |
| `AdmissionForm.GradeSelectionReviewed` | src/components/admission-steps/StudentInfoStep.tsx:85-94 | a grade picked from the select's catalog options is stored in the student section, and the review then shows that grade |
| `AdmissionForm.EnrolmentSession` | src/components/AdmissionForm.tsx:89-129 | a full session (names, one subject, Next, father's name, Next, Next) ends on step 4; the review shows "Ana Lee", the subject and "Tom Lee", with placeholders for the rest; Submit accepts the mostly empty record |
| `StudentInfoStep.CatalogsWellFormed` | src/components/admission-steps/StudentInfoStep.tsx:14-35 | the subject catalog has 10 distinct entries and the grade catalog has 7 distinct entries |
| `StudentInfoStep.Without` | src/components/admission-steps/StudentInfoStep.tsx:41 | the filtered list does not contain the subject; every other value is in it exactly when it was before; its length drops by the number of copies removed |
| `StudentInfoStep.UpdatedSubjects` | src/components/admission-steps/StudentInfoStep.tsx:38-41 | ticking: one longer, the old entries first in their order, the subject last, with no duplicate check. Unticking: the subject is gone, other values stay, and the list does not grow |
| `StudentInfoStep.SubjectsEdit` | src/components/admission-steps/StudentInfoStep.tsx:42 | the partial names `subjects` with the given list and no other field |
| `StudentInfoStep.HandleSubjectChange` | src/components/admission-steps/StudentInfoStep.tsx:38-43 | the partial sent upward names exactly `subjects`, holding the updated list |
| `StudentInfoStep.TextEdit` | src/components/admission-steps/StudentInfoStep.tsx:53-135 | each text or select input sends a partial that names exactly its own field with the typed value |
| `StudentInfoStep.WithoutAppend` | src/components/admission-steps/StudentInfoStep.tsx:41 | filtering distributes over concatenation, so the kept entries stay in their original order |
| `StudentInfoStep.WithoutSingleton` | src/components/admission-steps/StudentInfoStep.tsx:41 | a one-entry list is kept exactly when its entry differs from the subject |
| `StudentInfoStep.WithoutAbsent` | src/components/admission-steps/StudentInfoStep.tsx:41 | filtering out a subject that is not in the list returns the list unchanged |
| `StudentInfoStep.WithoutDistinct` | src/components/admission-steps/StudentInfoStep.tsx:41 | filtering keeps a duplicate-free list duplicate-free |
| `StudentInfoStep.AppendFreshDistinct` | src/components/admission-steps/StudentInfoStep.tsx:40 | appending a subject that is not in a duplicate-free list keeps it duplicate-free |
| `StudentInfoStep.Checked` | src/components/admission-steps/StudentInfoStep.tsx:118 | no contract of its own: the checkbox is checked when the list includes the subject; its properties are stated by `ClickFlipsChecked` and `ClickKeepsDistinct` |
| `StudentInfoStep.Click` | src/components/admission-steps/StudentInfoStep.tsx:119 | no contract of its own: the checkbox callback passes the opposite of the drawn state to `handleSubjectChange`; its properties are stated by `ClickFlipsChecked`, `ClickKeepsDistinct`, `ClickTwiceUnchecked` and `ClickTwiceChecked` |
| `StudentInfoStep.ClickFlipsChecked` | src/components/admission-steps/StudentInfoStep.tsx:116-119 | a click flips whether the clicked subject's checkbox is drawn checked |
| `StudentInfoStep.ClickKeepsDistinct` | src/components/admission-steps/StudentInfoStep.tsx:116-119 | since the checkbox state is list membership, clicks keep a duplicate-free list duplicate-free |
| `StudentInfoStep.ClickTwiceUnchecked` | src/components/admission-steps/StudentInfoStep.tsx:39-41 | for a subject not in the list, adding then removing it gives back exactly the old list |
| `StudentInfoStep.ClickTwiceChecked` | src/components/admission-steps/StudentInfoStep.tsx:39-41 | for a subject in a duplicate-free list, removing then adding it gives the filtered list with the subject appended: same length, same elements, subject last, still duplicate-free |
| `StudentInfoStep.ClickStaysInCatalog` | src/components/admission-steps/StudentInfoStep.tsx:114-119 | clicking catalog checkboxes keeps a list of catalog subjects within the catalog |
| `StudentInfoStep.SelectionBounded` | src/components/admission-steps/StudentInfoStep.tsx:14-25 | a duplicate-free list of catalog subjects has at most 10 entries |
| `StudentInfoStep.PhysicsMathematicsScenario` | src/components/admission-steps/StudentInfoStep.tsx:38-42 | Physics on, Mathematics on, Physics off leaves exactly `["Mathematics"]` |
| `ReviewStep.ReviewOf` | src/components/admission-steps/ReviewStep.tsx:11-184 | full name is `first + " " + last` with no placeholder. Grade shows its value or "Not selected". Every other text field shows its value or "Not provided". Subjects show one badge per entry in list order, or only "No subjects selected". The medical block appears exactly when its note is non-empty. The city line is "city, postal" only when both are filled, otherwise the combined placeholder |
| `ReviewStep.OnlyFullNameCanBeBlank` | src/components/admission-steps/ReviewStep.tsx:33-179 | every always-shown line except the full name is non-empty for any record; the full name is a bare space exactly when both names are empty |
| `ReviewStep.ReviewOfInitialForm` | src/components/admission-steps/ReviewStep.tsx:33-179 | the review of the initial record shows a blank name, "Not selected" for grade, "No subjects selected", no medical block, the combined city placeholder and "Not provided" everywhere else |
| `ReviewStep.CityLineHidesHalfFilledAddress` | src/components/admission-steps/ReviewStep.tsx:160 | a city without a postal code, or a postal code without a city, shows the same combined placeholder |
| `ReviewStep.ReviewKeepsListAndNote` | src/components/admission-steps/ReviewStep.tsx:61-81 | two records with the same review have the same subject list, in order, and the same medical note |
| `ReviewStep.PlaceholderIsAmbiguous` | src/components/admission-steps/ReviewStep.tsx:103 | an empty father name and the father name "Not provided" give identical reviews |

## Left out

- The JSX markup, CSS classes, icons, cards and the static "Next Steps" text of the review screen are presentation with no logic.
- The step titles and descriptions are kept in `Steps`, but the heading that displays them (`steps[currentStep - 1].title`) is not modelled as an operation. It is presentation only.
- The progress bar (`progressPercentage`, `Math.round`) uses floating-point arithmetic and is not modelled.
- `AdmissionForm.Wizard.HandleSubmit`: the toast notification and the console log are I/O. The model returns the record they are given and changes nothing.
- React hook mechanics are sequentialised into plain fields. This covers `useState`, re-rendering, and the `currentStep` that `handleNext`/`handlePrevious` capture in their closures. The model does not capture two clicks handled within one render both reading the same stale step.
- The parent and contact editors (ParentInfoStep.tsx, ContactInfoStep.tsx) only forward one single-field partial per input. Their effect is covered by `ApplyUpdate` and its lemmas. Their `relationships` catalog feeds a select widget and is never enforced, so it is not modelled.
- The checkbox widget can report a non-boolean "indeterminate" state, which the source casts to `boolean`. The widget library is not part of this model, so `Click` assumes a boolean that is the opposite of the drawn state.
- The review renders subject badges keyed by subject name. React's behaviour for duplicate keys belongs to the framework and is not modelled. The model shows one badge per list entry.
- `AdmissionData.SectionUpdate` pairs each section with a partial of its own type. The TypeScript signature of `updateFormData` would also accept a partial of another section's type, or a key that is present but holds `undefined` (which spread copies in); `Option` treats such a key as absent. No call site does either: each editor's callback passes its own section and only strings or lists.
- The "required" asterisks in the labels are cosmetic, and no validation exists behind them. None is invented here.
