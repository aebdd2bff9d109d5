/**
 * The student editor: the fixed subject and grade catalogs, the subject
 * checkboxes (add by appending, remove by filtering out every copy) and the
 * single-field partials each input sends to the controller.
 */
module StudentInfoStep {
  import opened Wrappers
  import opened AdmissionData

  /** The ten subjects offered as checkboxes, in display order. */
  const SubjectCatalog: seq<string> := [
    "Mathematics", "Physics", "Chemistry", "Biology", "English",
    "History", "Geography", "Computer Science", "Economics", "Accounting"]

  /** The seven grades offered by the grade select, in display order. */
  const GradeCatalog: seq<string> := [
    "Grade 6", "Grade 7", "Grade 8", "Grade 9", "Grade 10", "Grade 11", "Grade 12"]

  predicate Distinct(xs: seq<string>) {
    forall i, j :: 0 <= i < j < |xs| ==> xs[i] != xs[j]
  }

  /** The set of entries of a list. */
  function Elements(xs: seq<string>): (r: set<string>)
    ensures forall x :: x in r <==> x in xs
    ensures |r| <= |xs|
    ensures Distinct(xs) ==> |r| == |xs|
    decreases |xs|
  {
    if xs == [] then {} else {xs[0]} + Elements(xs[1..])
  }

  lemma CatalogsWellFormed()
    ensures |SubjectCatalog| == 10 && Distinct(SubjectCatalog)
    ensures |GradeCatalog| == 7 && Distinct(GradeCatalog)
  {
  }

  // ---------------------------------------------------------------------------
  // Subject list operations

  /** `subjects.filter(s => s !== subject)`: every copy of `subject` dropped, the rest kept. */
  function Without(xs: seq<string>, subject: string): (r: seq<string>)
    ensures subject !in r
    ensures forall x :: x != subject ==> (x in r <==> x in xs)
    ensures |r| == |xs| - multiset(xs)[subject]
    decreases |xs|
  {
    if xs == [] then []
    else
      assert xs == [xs[0]] + xs[1..];
      if xs[0] == subject then Without(xs[1..], subject)
      else [xs[0]] + Without(xs[1..], subject)
  }

  /**
   * The list `handleSubjectChange(subject, checked)` sends upward: the old list
   * with `subject` appended (no duplicate check) when `checked`, and the old
   * list with every copy of `subject` filtered out otherwise.
   */
  function UpdatedSubjects(subjects: seq<string>, subject: string, checked: bool): (r: seq<string>)
    ensures checked ==> |r| == |subjects| + 1 && r[..|subjects|] == subjects && r[|subjects|] == subject
    ensures !checked ==> subject !in r && |r| <= |subjects|
    ensures !checked ==> forall x :: x != subject ==> (x in r <==> x in subjects)
  {
    if checked then subjects + [subject] else Without(subjects, subject)
  }

  /** A partial that names only `subjects`. */
  function SubjectsEdit(subjects: seq<string>): (p: StudentPartial)
    ensures StudentPatchGet(p, Subjects) == Some(Items(subjects))
    ensures forall k :: k != Subjects ==> StudentPatchGet(p, k).None?
  {
    NoStudentFields.(subjects := Some(subjects))
  }

  /** `handleSubjectChange`: the partial `{ subjects: updatedSubjects }` sent upward. */
  function HandleSubjectChange(data: StudentData, subject: string, checked: bool): (p: StudentPartial)
    ensures forall k :: StudentPatchGet(p, k).Some? <==> k == Subjects
    ensures p.subjects == Some(UpdatedSubjects(data.subjects, subject, checked))
  {
    SubjectsEdit(UpdatedSubjects(data.subjects, subject, checked))
  }

  /** The checkbox of `subject` is drawn checked exactly when the list includes it. */
  predicate Checked(subjects: seq<string>, subject: string) {
    subject in subjects
  }

  /** A click on a checkbox reports the opposite of its drawn state. */
  function Click(subjects: seq<string>, subject: string): seq<string> {
    UpdatedSubjects(subjects, subject, !Checked(subjects, subject))
  }

  /**
   * A text or select input sends a partial naming exactly its own field; the
   * subject list is never sent this way.
   */
  function TextEdit(field: StudentField, value: string): (p: StudentPartial)
    requires field != Subjects
    ensures forall k :: StudentPatchGet(p, k) == if k == field then Some(Text(value)) else None
  {
    match field
    case FirstName => NoStudentFields.(firstName := Some(value))
    case LastName => NoStudentFields.(lastName := Some(value))
    case DateOfBirth => NoStudentFields.(dateOfBirth := Some(value))
    case Grade => NoStudentFields.(grade := Some(value))
    case PreviousSchool => NoStudentFields.(previousSchool := Some(value))
    case MedicalConditions => NoStudentFields.(medicalConditions := Some(value))
  }

  // ---------------------------------------------------------------------------
  // Lemmas about the subject list

  /** Filtering distributes over concatenation, so the kept entries stay in their order. */
  lemma {:induction false} WithoutAppend(a: seq<string>, b: seq<string>, subject: string)
    ensures Without(a + b, subject) == Without(a, subject) + Without(b, subject)
    decreases |a|
  {
    if a == [] {
      assert a + b == b;
    } else {
      assert (a + b)[1..] == a[1..] + b;
      WithoutAppend(a[1..], b, subject);
    }
  }

  /** Filtering a one-entry list keeps the entry exactly when it differs from `subject`. */
  lemma WithoutSingleton(x: string, subject: string)
    ensures Without([x], subject) == if x == subject then [] else [x]
  {
  }

  /** Filtering out a subject the list does not hold changes nothing. */
  lemma {:induction false} WithoutAbsent(xs: seq<string>, subject: string)
    requires subject !in xs
    ensures Without(xs, subject) == xs
    decreases |xs|
  {
    if xs != [] {
      WithoutAbsent(xs[1..], subject);
      assert xs == [xs[0]] + xs[1..];
    }
  }

  /** Filtering keeps a duplicate-free list duplicate-free. */
  lemma {:induction false} WithoutDistinct(xs: seq<string>, subject: string)
    requires Distinct(xs)
    ensures Distinct(Without(xs, subject))
    decreases |xs|
  {
    if xs != [] {
      assert Distinct(xs[1..]) by {
        forall i, j | 0 <= i < j < |xs[1..]| ensures xs[1..][i] != xs[1..][j] {
          assert xs[1..][i] == xs[i + 1] && xs[1..][j] == xs[j + 1];
        }
      }
      WithoutDistinct(xs[1..], subject);
      if xs[0] != subject {
        var rest := Without(xs[1..], subject);
        assert xs[0] !in xs[1..] by {
          forall j | 0 <= j < |xs[1..]| ensures xs[1..][j] != xs[0] {
            assert xs[1..][j] == xs[j + 1];
          }
        }
        assert xs[0] !in rest;
        forall i, j | 0 <= i < j < |[xs[0]] + rest| ensures ([xs[0]] + rest)[i] != ([xs[0]] + rest)[j] {
          if i == 0 {
            assert ([xs[0]] + rest)[j] == rest[j - 1];
          } else {
            assert ([xs[0]] + rest)[i] == rest[i - 1] && ([xs[0]] + rest)[j] == rest[j - 1];
          }
        }
      }
    }
  }

  /** Appending a subject the list does not hold keeps it duplicate-free. */
  lemma AppendFreshDistinct(xs: seq<string>, subject: string)
    requires Distinct(xs) && subject !in xs
    ensures Distinct(xs + [subject])
  {
  }

  /** A click flips the drawn state of the clicked checkbox. */
  lemma ClickFlipsChecked(subjects: seq<string>, subject: string)
    ensures Checked(Click(subjects, subject), subject) == !Checked(subjects, subject)
  {
  }

  /**
   * Because the drawn state is list membership, a click appends only a subject
   * that is absent: a duplicate-free list stays duplicate-free.
   */
  lemma ClickKeepsDistinct(subjects: seq<string>, subject: string)
    requires Distinct(subjects)
    ensures Distinct(Click(subjects, subject))
  {
    if Checked(subjects, subject) {
      WithoutDistinct(subjects, subject);
    } else {
      AppendFreshDistinct(subjects, subject);
    }
  }

  /** Clicking an unchecked subject twice gives back exactly the old list. */
  lemma ClickTwiceUnchecked(subjects: seq<string>, subject: string)
    requires !Checked(subjects, subject)
    ensures Click(Click(subjects, subject), subject) == subjects
  {
    var added := subjects + [subject];
    assert Click(subjects, subject) == added;
    assert subject in added by { assert added[|subjects|] == subject; }
    WithoutAppend(subjects, [subject], subject);
    WithoutSingleton(subject, subject);
    WithoutAbsent(subjects, subject);
  }

  /**
   * Clicking a checked subject twice in a duplicate-free list keeps the same
   * entries and length but moves that subject to the end.
   */
  lemma ClickTwiceChecked(subjects: seq<string>, subject: string)
    requires Distinct(subjects) && Checked(subjects, subject)
    ensures Click(Click(subjects, subject), subject) == Without(subjects, subject) + [subject]
    ensures var r := Click(Click(subjects, subject), subject);
      && |r| == |subjects|
      && (forall x :: x in r <==> x in subjects)
      && r[|r| - 1] == subject
      && Distinct(r)
  {
    var removed := Without(subjects, subject);
    assert multiset(subjects)[subject] == 1 by {
      var i :| 0 <= i < |subjects| && subjects[i] == subject;
      assert subjects == subjects[..i] + [subject] + subjects[i + 1..];
      assert subject !in subjects[..i] && subject !in subjects[i + 1..];
    }
    ClickKeepsDistinct(subjects, subject);
    ClickKeepsDistinct(removed, subject);
  }

  /** Clicking catalog checkboxes keeps a list of catalog subjects within the catalog. */
  lemma ClickStaysInCatalog(subjects: seq<string>, subject: string)
    requires forall x :: x in subjects ==> x in SubjectCatalog
    requires subject in SubjectCatalog
    ensures forall x :: x in Click(subjects, subject) ==> x in SubjectCatalog
  {
  }

  /** A duplicate-free list of catalog subjects has at most ten entries. */
  lemma SelectionBounded(subjects: seq<string>)
    requires Distinct(subjects)
    requires forall x :: x in subjects ==> x in SubjectCatalog
    ensures |subjects| <= |SubjectCatalog|
  {
    assert Elements(subjects) <= Elements(SubjectCatalog);
    assert |Elements(subjects)| <= |Elements(SubjectCatalog)| by {
      SubsetCardinality(Elements(subjects), Elements(SubjectCatalog));
    }
  }

  lemma SubsetCardinality(a: set<string>, b: set<string>)
    requires a <= b
    ensures |a| <= |b|
  {
    assert b == a + (b - a);
  }

  /** Physics on, Mathematics on, Physics off leaves only Mathematics. */
  lemma PhysicsMathematicsScenario()
    ensures Click(Click(Click([], "Physics"), "Mathematics"), "Physics") == ["Mathematics"]
  {
  }
}
