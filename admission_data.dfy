/** Option: a partial record names a field when that field is Some. */
module Wrappers {
  datatype Option<T> = None | Some(value: T)
}

/**
 * The aggregate application record of the admission wizard, its all-empty
 * initial value, and the partial update `updateFormData` merges into it:
 * `{ ...prev, [section]: { ...prev[section], ...data } }`.
 *
 * A TypeScript `Partial<StudentData>` is modelled as a record whose fields are
 * all `Option`s; a field is "named" by the partial when it is `Some`. To state
 * what object spread does key by key, every section also has a key view:
 * `StudentGet(s, k)` reads field `k` of a section, `StudentPatchGet(p, k)`
 * reads it from a partial, and `Override` is the spread rule for one key.
 */
module AdmissionData {
  import opened Wrappers

  datatype StudentData = StudentData(
    firstName: string,
    lastName: string,
    dateOfBirth: string,
    grade: string,
    subjects: seq<string>,
    previousSchool: string,
    medicalConditions: string)

  datatype ParentData = ParentData(
    fatherName: string,
    fatherOccupation: string,
    fatherPhone: string,
    fatherEmail: string,
    motherName: string,
    motherOccupation: string,
    motherPhone: string,
    motherEmail: string)

  datatype ContactData = ContactData(
    address: string,
    city: string,
    postalCode: string,
    emergencyContactName: string,
    emergencyContactPhone: string,
    emergencyContactRelation: string)

  datatype FormData = FormData(student: StudentData, parent: ParentData, contact: ContactData)

  /** The state the wizard starts with: every text field "" and no subjects. */
  const InitialForm: FormData :=
    FormData(
      StudentData("", "", "", "", [], "", ""),
      ParentData("", "", "", "", "", "", "", ""),
      ContactData("", "", "", "", "", ""))

  // ---------------------------------------------------------------------------
  // Partial records (TypeScript Partial<...>)

  datatype StudentPartial = StudentPartial(
    firstName: Option<string>,
    lastName: Option<string>,
    dateOfBirth: Option<string>,
    grade: Option<string>,
    subjects: Option<seq<string>>,
    previousSchool: Option<string>,
    medicalConditions: Option<string>)

  datatype ParentPartial = ParentPartial(
    fatherName: Option<string>,
    fatherOccupation: Option<string>,
    fatherPhone: Option<string>,
    fatherEmail: Option<string>,
    motherName: Option<string>,
    motherOccupation: Option<string>,
    motherPhone: Option<string>,
    motherEmail: Option<string>)

  datatype ContactPartial = ContactPartial(
    address: Option<string>,
    city: Option<string>,
    postalCode: Option<string>,
    emergencyContactName: Option<string>,
    emergencyContactPhone: Option<string>,
    emergencyContactRelation: Option<string>)

  /** The two arguments of `updateFormData`: which section, and a partial of that section's type. */
  datatype SectionUpdate =
    | StudentUpdate(student: StudentPartial)
    | ParentUpdate(parent: ParentPartial)
    | ContactUpdate(contact: ContactPartial)

  /** Partials that name no field (`{}`). */
  const NoStudentFields := StudentPartial(None, None, None, None, None, None, None)
  const NoParentFields := ParentPartial(None, None, None, None, None, None, None, None)
  const NoContactFields := ContactPartial(None, None, None, None, None, None)

  // ---------------------------------------------------------------------------
  // Key view: a section as a map from field names to values

  datatype FieldValue = Text(text: string) | Items(items: seq<string>)

  datatype StudentField =
    FirstName | LastName | DateOfBirth | Grade | Subjects | PreviousSchool | MedicalConditions

  datatype ParentField =
    FatherName | FatherOccupation | FatherPhone | FatherEmail |
    MotherName | MotherOccupation | MotherPhone | MotherEmail

  datatype ContactField =
    Address | City | PostalCode | EmergencyContactName | EmergencyContactPhone | EmergencyContactRelation

  /** A field of the whole record: its section and its name within the section. */
  datatype FormField = InStudent(sf: StudentField) | InParent(pf: ParentField) | InContact(cf: ContactField)

  /** The empty value of a field's type: "" for text, [] for the subject list. */
  predicate IsEmptyValue(v: FieldValue) {
    match v
    case Text(t) => t == ""
    case Items(xs) => xs == []
  }

  /** `{ ...old, ...patch }` for one key: the patch's value if it has the key, else the old value. */
  function Override(patch: Option<FieldValue>, prev: FieldValue): FieldValue {
    match patch
    case Some(v) => v
    case None => prev
  }

  function TextOption(o: Option<string>): Option<FieldValue> {
    match o
    case Some(t) => Some(Text(t))
    case None => None
  }

  function StudentGet(s: StudentData, k: StudentField): FieldValue {
    match k
    case FirstName => Text(s.firstName)
    case LastName => Text(s.lastName)
    case DateOfBirth => Text(s.dateOfBirth)
    case Grade => Text(s.grade)
    case Subjects => Items(s.subjects)
    case PreviousSchool => Text(s.previousSchool)
    case MedicalConditions => Text(s.medicalConditions)
  }

  function StudentPatchGet(p: StudentPartial, k: StudentField): Option<FieldValue> {
    match k
    case FirstName => TextOption(p.firstName)
    case LastName => TextOption(p.lastName)
    case DateOfBirth => TextOption(p.dateOfBirth)
    case Grade => TextOption(p.grade)
    case Subjects => if p.subjects.Some? then Some(Items(p.subjects.value)) else None
    case PreviousSchool => TextOption(p.previousSchool)
    case MedicalConditions => TextOption(p.medicalConditions)
  }

  function ParentGet(s: ParentData, k: ParentField): FieldValue {
    match k
    case FatherName => Text(s.fatherName)
    case FatherOccupation => Text(s.fatherOccupation)
    case FatherPhone => Text(s.fatherPhone)
    case FatherEmail => Text(s.fatherEmail)
    case MotherName => Text(s.motherName)
    case MotherOccupation => Text(s.motherOccupation)
    case MotherPhone => Text(s.motherPhone)
    case MotherEmail => Text(s.motherEmail)
  }

  function ParentPatchGet(p: ParentPartial, k: ParentField): Option<FieldValue> {
    match k
    case FatherName => TextOption(p.fatherName)
    case FatherOccupation => TextOption(p.fatherOccupation)
    case FatherPhone => TextOption(p.fatherPhone)
    case FatherEmail => TextOption(p.fatherEmail)
    case MotherName => TextOption(p.motherName)
    case MotherOccupation => TextOption(p.motherOccupation)
    case MotherPhone => TextOption(p.motherPhone)
    case MotherEmail => TextOption(p.motherEmail)
  }

  function ContactGet(s: ContactData, k: ContactField): FieldValue {
    match k
    case Address => Text(s.address)
    case City => Text(s.city)
    case PostalCode => Text(s.postalCode)
    case EmergencyContactName => Text(s.emergencyContactName)
    case EmergencyContactPhone => Text(s.emergencyContactPhone)
    case EmergencyContactRelation => Text(s.emergencyContactRelation)
  }

  function ContactPatchGet(p: ContactPartial, k: ContactField): Option<FieldValue> {
    match k
    case Address => TextOption(p.address)
    case City => TextOption(p.city)
    case PostalCode => TextOption(p.postalCode)
    case EmergencyContactName => TextOption(p.emergencyContactName)
    case EmergencyContactPhone => TextOption(p.emergencyContactPhone)
    case EmergencyContactRelation => TextOption(p.emergencyContactRelation)
  }

  function FormGet(f: FormData, k: FormField): FieldValue {
    match k
    case InStudent(sk) => StudentGet(f.student, sk)
    case InParent(pk) => ParentGet(f.parent, pk)
    case InContact(ck) => ContactGet(f.contact, ck)
  }

  /** The value an update gives field `k`, or None when the update does not name `k`. */
  function UpdateGet(u: SectionUpdate, k: FormField): Option<FieldValue> {
    match (u, k)
    case (StudentUpdate(p), InStudent(sk)) => StudentPatchGet(p, sk)
    case (ParentUpdate(p), InParent(pk)) => ParentPatchGet(p, pk)
    case (ContactUpdate(p), InContact(ck)) => ContactPatchGet(p, ck)
    case _ => None
  }

  predicate SameSection(u: SectionUpdate, v: SectionUpdate) {
    || (u.StudentUpdate? && v.StudentUpdate?)
    || (u.ParentUpdate? && v.ParentUpdate?)
    || (u.ContactUpdate? && v.ContactUpdate?)
  }

  /** Two updates never name the same field. */
  ghost predicate Independent(u: SectionUpdate, v: SectionUpdate) {
    forall k :: !(UpdateGet(u, k).Some? && UpdateGet(v, k).Some?)
  }

  // ---------------------------------------------------------------------------
  // The merge

  function Pick<T>(patch: Option<T>, prev: T): T {
    if patch.Some? then patch.value else prev
  }

  /** `{ ...s, ...p }` on the student section. */
  function MergeStudent(s: StudentData, p: StudentPartial): StudentData {
    StudentData(
      Pick(p.firstName, s.firstName),
      Pick(p.lastName, s.lastName),
      Pick(p.dateOfBirth, s.dateOfBirth),
      Pick(p.grade, s.grade),
      Pick(p.subjects, s.subjects),
      Pick(p.previousSchool, s.previousSchool),
      Pick(p.medicalConditions, s.medicalConditions))
  }

  /** `{ ...s, ...p }` on the parent section. */
  function MergeParent(s: ParentData, p: ParentPartial): ParentData {
    ParentData(
      Pick(p.fatherName, s.fatherName),
      Pick(p.fatherOccupation, s.fatherOccupation),
      Pick(p.fatherPhone, s.fatherPhone),
      Pick(p.fatherEmail, s.fatherEmail),
      Pick(p.motherName, s.motherName),
      Pick(p.motherOccupation, s.motherOccupation),
      Pick(p.motherPhone, s.motherPhone),
      Pick(p.motherEmail, s.motherEmail))
  }

  /** `{ ...s, ...p }` on the contact section. */
  function MergeContact(s: ContactData, p: ContactPartial): ContactData {
    ContactData(
      Pick(p.address, s.address),
      Pick(p.city, s.city),
      Pick(p.postalCode, s.postalCode),
      Pick(p.emergencyContactName, s.emergencyContactName),
      Pick(p.emergencyContactPhone, s.emergencyContactPhone),
      Pick(p.emergencyContactRelation, s.emergencyContactRelation))
  }

  /** The new record `updateFormData(section, data)` stores: one section merged, the other two kept. */
  function ApplyUpdate(f: FormData, u: SectionUpdate): (r: FormData)
    ensures !u.StudentUpdate? ==> r.student == f.student
    ensures !u.ParentUpdate? ==> r.parent == f.parent
    ensures !u.ContactUpdate? ==> r.contact == f.contact
  {
    match u
    case StudentUpdate(p) => f.(student := MergeStudent(f.student, p))
    case ParentUpdate(p) => f.(parent := MergeParent(f.parent, p))
    case ContactUpdate(p) => f.(contact := MergeContact(f.contact, p))
  }

  // ---------------------------------------------------------------------------
  // Lemmas: the key view determines a record, and the merge is object spread

  lemma StudentExtensional(a: StudentData, b: StudentData)
    requires forall k :: StudentGet(a, k) == StudentGet(b, k)
    ensures a == b
  {
    assert StudentGet(a, FirstName) == StudentGet(b, FirstName);
    assert StudentGet(a, LastName) == StudentGet(b, LastName);
    assert StudentGet(a, DateOfBirth) == StudentGet(b, DateOfBirth);
    assert StudentGet(a, Grade) == StudentGet(b, Grade);
    assert StudentGet(a, Subjects) == StudentGet(b, Subjects);
    assert StudentGet(a, PreviousSchool) == StudentGet(b, PreviousSchool);
    assert StudentGet(a, MedicalConditions) == StudentGet(b, MedicalConditions);
  }

  lemma ParentExtensional(a: ParentData, b: ParentData)
    requires forall k :: ParentGet(a, k) == ParentGet(b, k)
    ensures a == b
  {
    assert ParentGet(a, FatherName) == ParentGet(b, FatherName);
    assert ParentGet(a, FatherOccupation) == ParentGet(b, FatherOccupation);
    assert ParentGet(a, FatherPhone) == ParentGet(b, FatherPhone);
    assert ParentGet(a, FatherEmail) == ParentGet(b, FatherEmail);
    assert ParentGet(a, MotherName) == ParentGet(b, MotherName);
    assert ParentGet(a, MotherOccupation) == ParentGet(b, MotherOccupation);
    assert ParentGet(a, MotherPhone) == ParentGet(b, MotherPhone);
    assert ParentGet(a, MotherEmail) == ParentGet(b, MotherEmail);
  }

  lemma ContactExtensional(a: ContactData, b: ContactData)
    requires forall k :: ContactGet(a, k) == ContactGet(b, k)
    ensures a == b
  {
    assert ContactGet(a, Address) == ContactGet(b, Address);
    assert ContactGet(a, City) == ContactGet(b, City);
    assert ContactGet(a, PostalCode) == ContactGet(b, PostalCode);
    assert ContactGet(a, EmergencyContactName) == ContactGet(b, EmergencyContactName);
    assert ContactGet(a, EmergencyContactPhone) == ContactGet(b, EmergencyContactPhone);
    assert ContactGet(a, EmergencyContactRelation) == ContactGet(b, EmergencyContactRelation);
  }

  /** Two records that agree on every field are equal. */
  lemma FormExtensional(a: FormData, b: FormData)
    requires forall k :: FormGet(a, k) == FormGet(b, k)
    ensures a == b
  {
    forall sk ensures StudentGet(a.student, sk) == StudentGet(b.student, sk) {
      assert FormGet(a, InStudent(sk)) == FormGet(b, InStudent(sk));
    }
    forall pk ensures ParentGet(a.parent, pk) == ParentGet(b.parent, pk) {
      assert FormGet(a, InParent(pk)) == FormGet(b, InParent(pk));
    }
    forall ck ensures ContactGet(a.contact, ck) == ContactGet(b.contact, ck) {
      assert FormGet(a, InContact(ck)) == FormGet(b, InContact(ck));
    }
    StudentExtensional(a.student, b.student);
    ParentExtensional(a.parent, b.parent);
    ContactExtensional(a.contact, b.contact);
  }

  /**
   * Merge locality: after `updateFormData`, every field the update names holds the
   * update's value, and every other field of the whole record, in the updated
   * section or in the other two, holds its old value.
   */
  lemma ApplyUpdateFields(f: FormData, u: SectionUpdate, k: FormField)
    ensures FormGet(ApplyUpdate(f, u), k) == Override(UpdateGet(u, k), FormGet(f, k))
  {
  }

  /** An update that names no field leaves the record as it was. */
  lemma EmptyUpdateIsIdentity(f: FormData, u: SectionUpdate)
    requires forall k :: UpdateGet(u, k).None?
    ensures ApplyUpdate(f, u) == f
  {
    forall k ensures FormGet(ApplyUpdate(f, u), k) == FormGet(f, k) {
      ApplyUpdateFields(f, u, k);
    }
    FormExtensional(ApplyUpdate(f, u), f);
  }

  /** The three `{}` partials name no field. */
  lemma NoFieldsNameNothing(k: FormField)
    ensures UpdateGet(StudentUpdate(NoStudentFields), k).None?
    ensures UpdateGet(ParentUpdate(NoParentFields), k).None?
    ensures UpdateGet(ContactUpdate(NoContactFields), k).None?
  {
  }

  /** Applying the same update twice stores what applying it once does. */
  lemma ApplyUpdateIdempotent(f: FormData, u: SectionUpdate)
    ensures ApplyUpdate(ApplyUpdate(f, u), u) == ApplyUpdate(f, u)
  {
  }

  /** Updates that name disjoint sets of fields can be applied in either order. */
  lemma IndependentUpdatesCommute(f: FormData, u: SectionUpdate, v: SectionUpdate)
    requires Independent(u, v)
    ensures ApplyUpdate(ApplyUpdate(f, u), v) == ApplyUpdate(ApplyUpdate(f, v), u)
  {
    var uv := ApplyUpdate(ApplyUpdate(f, u), v);
    var vu := ApplyUpdate(ApplyUpdate(f, v), u);
    forall k ensures FormGet(uv, k) == FormGet(vu, k) {
      ApplyUpdateFields(f, u, k);
      ApplyUpdateFields(ApplyUpdate(f, u), v, k);
      ApplyUpdateFields(f, v, k);
      ApplyUpdateFields(ApplyUpdate(f, v), u, k);
    }
    FormExtensional(uv, vu);
  }

  /** Updates of two different sections never name the same field. */
  lemma DifferentSectionsIndependent(u: SectionUpdate, v: SectionUpdate)
    requires !SameSection(u, v)
    ensures Independent(u, v)
  {
  }

  /** Every field of the initial record is empty. */
  lemma InitialFormEmpty(k: FormField)
    ensures IsEmptyValue(FormGet(InitialForm, k))
  {
  }
}
