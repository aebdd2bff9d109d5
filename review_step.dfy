/**
 * The review screen: a read-only projection of the whole application record
 * to the strings shown before submission. Most fields fall back to a
 * placeholder when empty, but not uniformly: the full name has none, the
 * medical-conditions block is left out when empty, and city and postal code
 * share one placeholder unless both are filled.
 */
module ReviewStep {
  import opened Wrappers
  import opened AdmissionData

  const NotProvided := "Not provided"
  const NotSelected := "Not selected"
  const NoSubjectsSelected := "No subjects selected"
  const CityAndPostalCodeNotProvided := "City and postal code not provided"

  /** JavaScript truthiness of a string: only "" is falsy. */
  predicate Truthy(s: string) {
    s != ""
  }

  /** JavaScript `a || b` on two strings. */
  function Or(a: string, b: string): string {
    if Truthy(a) then a else b
  }

  /** The subjects area: one badge per list entry, or a single placeholder line. */
  datatype SubjectsView = Badges(labels: seq<string>) | NoSubjects(message: string)

  /** What the review screen displays, field by field. */
  datatype Review = Review(
    fullName: string,
    dateOfBirth: string,
    grade: string,
    previousSchool: string,
    subjects: SubjectsView,
    medicalConditions: Option<string>,   // None: the block is not rendered
    fatherName: string,
    fatherOccupation: string,
    fatherPhone: string,
    fatherEmail: string,
    motherName: string,
    motherOccupation: string,
    motherPhone: string,
    motherEmail: string,
    address: string,
    cityLine: string,
    emergencyContactName: string,
    emergencyContactPhone: string,
    emergencyContactRelation: string)

  /** `shown` is `value` when that is non-empty and `placeholder` otherwise. */
  predicate ShowsOr(shown: string, value: string, placeholder: string) {
    (value != "" ==> shown == value) && (value == "" ==> shown == placeholder)
  }

  /** The `ReviewStep` component as a function of `formData`. */
  function ReviewOf(formData: FormData): (r: Review)
    ensures r.fullName == formData.student.firstName + " " + formData.student.lastName
    ensures ShowsOr(r.dateOfBirth, formData.student.dateOfBirth, NotProvided)
    ensures ShowsOr(r.grade, formData.student.grade, NotSelected)
    ensures ShowsOr(r.previousSchool, formData.student.previousSchool, NotProvided)
    ensures r.subjects.Badges? <==> |formData.student.subjects| > 0
    ensures r.subjects.Badges? ==> r.subjects.labels == formData.student.subjects
    ensures r.subjects.NoSubjects? ==> r.subjects.message == NoSubjectsSelected
    ensures r.medicalConditions.Some? <==> formData.student.medicalConditions != ""
    ensures r.medicalConditions.Some? ==> r.medicalConditions.value == formData.student.medicalConditions
    ensures ShowsOr(r.fatherName, formData.parent.fatherName, NotProvided)
    ensures ShowsOr(r.fatherOccupation, formData.parent.fatherOccupation, NotProvided)
    ensures ShowsOr(r.fatherPhone, formData.parent.fatherPhone, NotProvided)
    ensures ShowsOr(r.fatherEmail, formData.parent.fatherEmail, NotProvided)
    ensures ShowsOr(r.motherName, formData.parent.motherName, NotProvided)
    ensures ShowsOr(r.motherOccupation, formData.parent.motherOccupation, NotProvided)
    ensures ShowsOr(r.motherPhone, formData.parent.motherPhone, NotProvided)
    ensures ShowsOr(r.motherEmail, formData.parent.motherEmail, NotProvided)
    ensures ShowsOr(r.address, formData.contact.address, NotProvided)
    ensures formData.contact.city != "" && formData.contact.postalCode != "" ==>
              r.cityLine == formData.contact.city + ", " + formData.contact.postalCode
    ensures formData.contact.city == "" || formData.contact.postalCode == "" ==>
              r.cityLine == CityAndPostalCodeNotProvided
    ensures ShowsOr(r.emergencyContactName, formData.contact.emergencyContactName, NotProvided)
    ensures ShowsOr(r.emergencyContactPhone, formData.contact.emergencyContactPhone, NotProvided)
    ensures ShowsOr(r.emergencyContactRelation, formData.contact.emergencyContactRelation, NotProvided)
  {
    var student, parent, contact := formData.student, formData.parent, formData.contact;
    Review(
      student.firstName + " " + student.lastName,
      Or(student.dateOfBirth, NotProvided),
      Or(student.grade, NotSelected),
      Or(student.previousSchool, NotProvided),
      if |student.subjects| > 0 then Badges(student.subjects) else NoSubjects(NoSubjectsSelected),
      if Truthy(student.medicalConditions) then Some(student.medicalConditions) else None,
      Or(parent.fatherName, NotProvided),
      Or(parent.fatherOccupation, NotProvided),
      Or(parent.fatherPhone, NotProvided),
      Or(parent.fatherEmail, NotProvided),
      Or(parent.motherName, NotProvided),
      Or(parent.motherOccupation, NotProvided),
      Or(parent.motherPhone, NotProvided),
      Or(parent.motherEmail, NotProvided),
      Or(contact.address, NotProvided),
      if Truthy(contact.city) && Truthy(contact.postalCode)
      then contact.city + ", " + contact.postalCode
      else CityAndPostalCodeNotProvided,
      Or(contact.emergencyContactName, NotProvided),
      Or(contact.emergencyContactPhone, NotProvided),
      Or(contact.emergencyContactRelation, NotProvided))
  }

  /** The strings the review always shows, in screen order (the full name first). */
  function Lines(r: Review): seq<string> {
    [r.fullName, r.dateOfBirth, r.grade, r.previousSchool,
     r.fatherName, r.fatherOccupation, r.fatherPhone, r.fatherEmail,
     r.motherName, r.motherOccupation, r.motherPhone, r.motherEmail,
     r.address, r.cityLine,
     r.emergencyContactName, r.emergencyContactPhone, r.emergencyContactRelation]
  }

  /**
   * Every always-shown line other than the full name is non-empty, whatever the
   * record holds; the full name alone can show only the separating space.
   */
  lemma OnlyFullNameCanBeBlank(formData: FormData)
    ensures forall i :: 1 <= i < |Lines(ReviewOf(formData))| ==> Lines(ReviewOf(formData))[i] != ""
    ensures Lines(ReviewOf(formData))[0] == " " <==>
              formData.student.firstName == "" && formData.student.lastName == ""
  {
    var r := ReviewOf(formData);
    var name := formData.student.firstName + " " + formData.student.lastName;
    assert |name| == |formData.student.firstName| + 1 + |formData.student.lastName|;
    if name == " " {
      assert |formData.student.firstName| == 0 && |formData.student.lastName| == 0;
    }
  }

  /**
   * The review of the all-empty initial record: a blank full name, every other
   * field its placeholder, no subject badges and no medical block.
   */
  lemma ReviewOfInitialForm()
    ensures var r := ReviewOf(InitialForm);
      && r.fullName == " "
      && r.grade == NotSelected
      && r.subjects == NoSubjects(NoSubjectsSelected)
      && r.medicalConditions == None
      && r.cityLine == CityAndPostalCodeNotProvided
      && (forall i :: 1 <= i < |Lines(r)| && i != 2 && i != 13 ==> Lines(r)[i] == NotProvided)
  {
  }

  /**
   * A filled city with an empty postal code (or the reverse) still shows the
   * combined placeholder: the line cannot tell which half is missing.
   */
  lemma CityLineHidesHalfFilledAddress(a: FormData, b: FormData)
    requires a.contact.city != "" && a.contact.postalCode == ""
    requires b.contact.city == "" && b.contact.postalCode != ""
    ensures ReviewOf(a).cityLine == ReviewOf(b).cityLine == CityAndPostalCodeNotProvided
  {
  }

  /**
   * The subject list and the medical note reach the screen unchanged: two
   * records with the same review hold the same subjects, in the same order,
   * and the same medical note.
   */
  lemma ReviewKeepsListAndNote(a: FormData, b: FormData)
    requires ReviewOf(a) == ReviewOf(b)
    ensures a.student.subjects == b.student.subjects
    ensures a.student.medicalConditions == b.student.medicalConditions
  {
  }

  /**
   * A placeholder field cannot be told apart from a field that holds the
   * placeholder's own text: an empty father name and the father name
   * "Not provided" give the same review.
   */
  lemma PlaceholderIsAmbiguous(f: FormData)
    requires f.parent.fatherName == ""
    ensures ReviewOf(f) == ReviewOf(f.(parent := f.parent.(fatherName := NotProvided)))
  {
  }
}
