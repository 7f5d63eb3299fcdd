/**
 * The medical-record form: its defaults, a change of one field, the draft it
 * submits, and the submission into the patients store.
 */
module MedicalRecordForm {
  import opened Types
  import opened Patients

  datatype Form = Form(
    recordType: RecordType,
    title: string,
    description: string,
    prescription: string,
    authorId: string)

  /** A new form: a diagnosis by author "2", with empty texts. */
  const DefaultForm := Form(Diagnosis, "", "", "", "2")

  /** The text fields the form has an input for; `authorId` has none. */
  datatype TextField = TitleField | DescriptionField | PrescriptionField

  /**
   * A change event: the type select offers exactly the four record types;
   * the title, description and prescription inputs take free text.
   */
  datatype Change = ChangeType(t: RecordType) | ChangeText(field: TextField, value: string)

  /** The text a text field of the form holds. */
  function TextValue(f: Form, field: TextField): string {
    match field
    case TitleField => f.title
    case DescriptionField => f.description
    case PrescriptionField => f.prescription
  }

  /** `handleChange`: the named field takes the new value; every other field keeps its own. */
  function ApplyChange(f: Form, c: Change): (r: Form)
    ensures c.ChangeType? ==> r.recordType == c.t && forall x :: TextValue(r, x) == TextValue(f, x)
    ensures c.ChangeText? ==> r.recordType == f.recordType && TextValue(r, c.field) == c.value
    ensures c.ChangeText? ==> forall x :: x != c.field ==> TextValue(r, x) == TextValue(f, x)
    ensures r.authorId == f.authorId
  {
    match c
    case ChangeType(t) => f.(recordType := t)
    case ChangeText(field, value) =>
      match field
      case TitleField => f.(title := value)
      case DescriptionField => f.(description := value)
      case PrescriptionField => f.(prescription := value)
  }

  /**
   * The draft `handleSubmit` passes to the store: the form as it is, with an
   * empty prescription submitted as absent. The prescription is kept whatever
   * the record type, although the field is shown only for prescriptions.
   */
  function BuildDraft(f: Form): (d: RecordDraft)
    ensures d.prescription.None? <==> f.prescription == ""
    ensures d.prescription.Some? ==> d.prescription.value == f.prescription
    ensures d.attachments.None?
  {
    RecordDraft(f.authorId, f.recordType, f.title, f.description,
                if f.prescription == "" then None else Some(f.prescription), None)
  }

  /**
   * A submitted form comes back out of the stored record: type, title,
   * description and author id unchanged, the record filed under the modal's
   * patient, and a non-empty prescription kept even on a diagnosis.
   */
  lemma SubmitRoundTrip(patientId: string, f: Form, id: string, now: string)
    ensures var r := NewRecord(patientId, BuildDraft(f), id, now);
      && r.patientId == patientId
      && r.recordType == f.recordType && r.title == f.title
      && r.description == f.description && r.authorId == f.authorId
      && (f.prescription != "" ==> r.prescription == Some(f.prescription))
      && (f.prescription == "" ==> r.prescription == None)
  {
    assert RecordDraftOf(NewRecord(patientId, BuildDraft(f), id, now)) == BuildDraft(f);
  }

  /** The modal: the patient it files under, the form, a busy flag and whether it has closed. */
  class MedicalRecordModal {
    const patientId: string
    var formData: Form
    var isLoading: bool
    var closed: bool

    constructor (patientId: string)
      ensures this.patientId == patientId && formData == DefaultForm
      ensures !isLoading && !closed
    {
      this.patientId := patientId;
      formData := DefaultForm;
      isLoading := false;
      closed := false;
    }

    /** `handleChange`. */
    method HandleChange(c: Change)
      modifies this
      ensures formData == ApplyChange(old(formData), c)
      ensures isLoading == old(isLoading) && closed == old(closed)
    {
      formData := ApplyChange(formData, c);
    }

    /**
     * `handleSubmit`: files the draft under the modal's patient and closes
     * once the store call succeeds; when it throws, the error is caught, the
     * store is unchanged and the modal stays open. Loading ends either way.
     */
    method HandleSubmit(store: PatientsStore, freshId: string, now: string)
      requires store.Valid()
      modifies this, store
      ensures store.Valid()
      ensures var res := AppendRecord(old(store.medicalRecords), patientId,
                                      NewRecord(patientId, BuildDraft(formData), freshId, now));
        && (res.Success? ==> store.medicalRecords == res.value && closed)
        && (res.Failure? ==> store.medicalRecords == old(store.medicalRecords) && closed == old(closed))
      ensures store.patients == old(store.patients) && store.currentPatient == old(store.currentPatient)
      ensures store.isLoading == old(store.isLoading) && store.searchQuery == old(store.searchQuery)
      ensures !isLoading && formData == old(formData)
    {
      isLoading := true;
      var outcome := store.AddMedicalRecord(patientId, BuildDraft(formData), freshId, now);
      if outcome.Pass? {
        closed := true;
      }
      isLoading := false;
    }
  }
}
