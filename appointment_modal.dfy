/**
 * The appointment form: its fields as text, the defaults of a new form, the
 * prefill from an existing appointment, a change of one field, the draft it
 * submits and where it submits it. Turning the date and time fields into
 * ISO-8601 instants, and back for the prefill, depends on the time zone; the
 * model takes those texts as inputs, `None` standing for a date that cannot
 * be converted.
 */
module AppointmentForm {
  import opened Types
  import opened Appointments

  datatype Form = Form(
    patientId: string,
    doctorId: string,
    date: string,
    startTime: string,
    endTime: string,
    reason: string,
    notes: string,
    createdBy: string)

  /** A new form: doctor "2", created by "3", everything else empty. */
  const DefaultForm := Form("", "2", "", "", "", "", "", "3")

  /** The fields the form has an input for; `createdBy` has none. */
  datatype Field = PatientIdField | DoctorIdField | DateField | StartTimeField
                 | EndTimeField | ReasonField | NotesField

  /** The text a field of the form holds. */
  function FieldValue(f: Form, field: Field): string {
    match field
    case PatientIdField => f.patientId
    case DoctorIdField => f.doctorId
    case DateField => f.date
    case StartTimeField => f.startTime
    case EndTimeField => f.endTime
    case ReasonField => f.reason
    case NotesField => f.notes
  }

  /** `handleChange`: the named field takes the new text; every other field keeps its own. */
  function SetField(f: Form, field: Field, value: string): (r: Form)
    ensures FieldValue(r, field) == value
    ensures forall other :: other != field ==> FieldValue(r, other) == FieldValue(f, other)
    ensures r.createdBy == f.createdBy
  {
    match field
    case PatientIdField => f.(patientId := value)
    case DoctorIdField => f.(doctorId := value)
    case DateField => f.(date := value)
    case StartTimeField => f.(startTime := value)
    case EndTimeField => f.(endTime := value)
    case ReasonField => f.(reason := value)
    case NotesField => f.(notes := value)
  }

  /**
   * The form filled from an existing appointment; `date` is the UTC calendar
   * date of its start, and `startTime` and `endTime` are the local clock times
   * of its start and end.
   */
  function Prefill(a: Appointment, date: string, startTime: string, endTime: string): Form {
    Form(a.patientId, a.doctorId, date, startTime, endTime, a.reason, a.notes.GetOr(""), a.createdBy)
  }

  /**
   * The draft `handleSubmit` builds: always `scheduled`, and empty notes
   * submitted as absent.
   */
  function BuildDraft(f: Form, startAt: string, endAt: string): (d: AppointmentDraft)
    ensures d.status == Scheduled
    ensures d.notes == None <==> f.notes == ""
    ensures d.notes.Some? ==> d.notes.value == f.notes
    ensures d.startAt == startAt && d.endAt == endAt
    ensures d.patientId == f.patientId && d.doctorId == f.doctorId
    ensures d.reason == f.reason && d.createdBy == f.createdBy
  {
    AppointmentDraft(f.patientId, f.doctorId, startAt, endAt, Scheduled, f.reason,
                     if f.notes == "" then None else Some(f.notes), f.createdBy)
  }

  /**
   * The same draft handed to `updateAppointment` as a partial. It carries the
   * `notes` key even when its value is undefined, so spreading it removes
   * notes the appointment had.
   */
  function DraftPatch(d: AppointmentDraft): AppointmentPatch {
    AppointmentPatch(None, Some(d.patientId), None, Some(d.doctorId), None, Some(d.startAt),
                     Some(d.endAt), Some(d.status), Some(d.reason), Some(d.notes),
                     Some(d.createdBy), None, None)
  }

  /**
   * Prefilling from an appointment and submitting gives back its patient,
   * doctor, reason and creator whatever the date and time texts convert to;
   * the status becomes `scheduled` and empty notes become absent. The instants
   * are the conversions of the prefilled texts, which need not be the
   * appointment's own.
   */
  lemma PrefillThenSubmit(a: Appointment, date: string, startTime: string, endTime: string,
                          startAt: string, endAt: string)
    ensures var d := BuildDraft(Prefill(a, date, startTime, endTime), startAt, endAt);
      && d.patientId == a.patientId && d.doctorId == a.doctorId
      && d.reason == a.reason && d.createdBy == a.createdBy
      && d.startAt == startAt && d.endAt == endAt
      && d.status == Scheduled
      && d.notes == (if a.notes == Some("") then None else a.notes)
  {
  }

  /**
   * Saving an edit sets every entry with the appointment's id back to
   * `scheduled`, and clears its notes when the notes field is empty.
   */
  lemma EditResetsStatus(list: seq<Appointment>, id: string, f: Form, startAt: string, endAt: string,
                         now: string)
    ensures var r := UpdateAppointments(list, id, DraftPatch(BuildDraft(f, startAt, endAt)), now);
      forall i :: 0 <= i < |list| && list[i].id == id ==>
        && r[i].status == Scheduled
        && r[i].id == id
        && r[i].patient == list[i].patient && r[i].doctor == list[i].doctor
        && r[i].createdAt == list[i].createdAt
        && (f.notes == "" ==> r[i].notes == None)
  {
  }

  /** The modal: the appointment it edits (if any), the form, a busy flag and whether it has closed. */
  class AppointmentModal {
    const appointment: Option<Appointment>
    var formData: Form
    var isLoading: bool
    var closed: bool

    /** Opens the modal, prefilled when it edits an appointment. */
    constructor (appointment: Option<Appointment>, date: string, startTime: string, endTime: string)
      ensures this.appointment == appointment
      ensures formData == if appointment.Some? then Prefill(appointment.value, date, startTime, endTime)
                          else DefaultForm
      ensures !isLoading && !closed
    {
      this.appointment := appointment;
      formData := if appointment.Some? then Prefill(appointment.value, date, startTime, endTime)
                  else DefaultForm;
      isLoading := false;
      closed := false;
    }

    /** `handleChange`. */
    method HandleChange(field: Field, value: string)
      modifies this
      ensures formData == SetField(old(formData), field, value)
      ensures isLoading == old(isLoading) && closed == old(closed)
    {
      formData := SetField(formData, field, value);
    }

    /**
     * `handleSubmit`. `startAt` and `endAt` are the ISO-8601 conversions of
     * the date and time fields, `None` when a conversion throws. If both
     * convert, the draft goes to `updateAppointment` when editing and to
     * `addAppointment` otherwise, and the modal closes; if one throws, the
     * store is untouched and the modal stays open. Loading ends either way.
     */
    method HandleSubmit(store: AppointmentsStore, startAt: Option<string>, endAt: Option<string>,
                        freshId: string, now: string)
      modifies this, store
      ensures !isLoading && formData == old(formData)
      ensures store.isLoading == old(store.isLoading)
      ensures (startAt.None? || endAt.None?) ==>
        store.appointments == old(store.appointments) && closed == old(closed)
      ensures startAt.Some? && endAt.Some? ==> closed
      ensures startAt.Some? && endAt.Some? && appointment.Some? ==>
        store.appointments == UpdateAppointments(old(store.appointments), appointment.value.id,
                                DraftPatch(BuildDraft(formData, startAt.value, endAt.value)), now)
      ensures startAt.Some? && endAt.Some? && appointment.None? ==>
        store.appointments == old(store.appointments) +
                              [NewAppointment(BuildDraft(formData, startAt.value, endAt.value), freshId, now)]
    {
      isLoading := true;
      if startAt.Some? && endAt.Some? {
        var d := BuildDraft(formData, startAt.value, endAt.value);
        if appointment.Some? {
          store.UpdateAppointment(appointment.value.id, DraftPatch(d), now);
        } else {
          store.AddAppointment(d, freshId, now);
        }
        closed := true;
      }
      isLoading := false;
    }
  }
}
