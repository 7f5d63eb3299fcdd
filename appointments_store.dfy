/**
 * The appointments store: the appointment list and a loading flag. Each
 * action is one atomic state change; the clock and the millisecond id it
 * reads are passed in as `now` and `freshId`.
 */
module Appointments {
  import opened Types
  import opened Collections
  import opened Fixtures

  /**
   * `{ ...draft, id, patient: <fixture 0's patient>, doctor: <fixture 0's doctor>,
   * createdAt: now, updatedAt: now }`: the snapshots never come from the
   * draft's `patientId` or `doctorId`, and `status` is the draft's own.
   */
  function NewAppointment(d: AppointmentDraft, id: string, now: string): (a: Appointment)
    ensures a.id == id && a.createdAt == now && a.updatedAt == now
    ensures a.patient == MockAppointments[0].patient && a.doctor == MockAppointments[0].doctor
    ensures DraftOf(a) == d
  {
    Appointment(id, d.patientId, MockAppointments[0].patient, d.doctorId, MockAppointments[0].doctor,
                d.startAt, d.endAt, d.status, d.reason, d.notes, d.createdBy, now, now)
  }

  /** The fields of an appointment that its creator supplies. */
  function DraftOf(a: Appointment): AppointmentDraft {
    AppointmentDraft(a.patientId, a.doctorId, a.startAt, a.endAt, a.status, a.reason, a.notes, a.createdBy)
  }

  /** The list after `updateAppointment(id, d)`: every entry with that id merged, the rest as they were. */
  function UpdateAppointments(s: seq<Appointment>, id: string, d: AppointmentPatch, now: string): (r: seq<Appointment>)
    ensures |r| == |s|
    ensures forall i :: 0 <= i < |s| && s[i].id == id ==> r[i] == MergeAppointment(s[i], d, now)
    ensures forall i :: 0 <= i < |s| && s[i].id != id ==> r[i] == s[i]
  {
    MapWhere(s, (a: Appointment) => a.id == id, (a: Appointment) => MergeAppointment(a, d, now))
  }

  /** The list after `deleteAppointment(id)`: the entries with another id, in their order. */
  function RemoveAppointments(s: seq<Appointment>, id: string): (r: seq<Appointment>)
    ensures forall a :: a in r <==> a in s && a.id != id
    ensures forall a :: multiset(r)[a] == if a.id != id then multiset(s)[a] else 0
    ensures IsSubsequence(r, s)
  {
    FilterIsSubsequence(s, (a: Appointment) => a.id != id);
    FilterCount(s, (a: Appointment) => a.id != id);
    Filter(s, (a: Appointment) => a.id != id)
  }

  class AppointmentsStore {
    var appointments: seq<Appointment>
    var isLoading: bool

    constructor ()
      ensures appointments == [] && !isLoading
    {
      appointments := [];
      isLoading := false;
    }

    /** `fetchAppointments`: the list becomes the fixture and loading ends. */
    method FetchAppointments()
      modifies this
      ensures appointments == MockAppointments && !isLoading
    {
      isLoading := true;
      appointments := MockAppointments;
      isLoading := false;
    }

    /** `addAppointment(d)`: appends one new appointment at the end. */
    method AddAppointment(d: AppointmentDraft, freshId: string, now: string)
      modifies this
      ensures appointments == old(appointments) + [NewAppointment(d, freshId, now)]
      ensures isLoading == old(isLoading)
    {
      appointments := appointments + [NewAppointment(d, freshId, now)];
    }

    /** `updateAppointment(id, d)`: merges `d` into every matching entry. */
    method UpdateAppointment(id: string, d: AppointmentPatch, now: string)
      modifies this
      ensures appointments == UpdateAppointments(old(appointments), id, d, now)
      ensures isLoading == old(isLoading)
    {
      appointments := UpdateAppointments(appointments, id, d, now);
    }

    /** `deleteAppointment(id)`: drops every entry with that id. */
    method DeleteAppointment(id: string)
      modifies this
      ensures appointments == RemoveAppointments(old(appointments), id)
      ensures isLoading == old(isLoading)
    {
      appointments := RemoveAppointments(appointments, id);
    }
  }

  /**
   * The snapshot an added appointment embeds need not be the patient its
   * `patientId` names: a draft for patient "2" gets John Doe, patient "1".
   */
  lemma NewAppointmentSnapshotMismatch(d: AppointmentDraft, id: string, now: string)
    requires d.patientId == "2"
    ensures NewAppointment(d, id, now).patient.id == "1"
    ensures NewAppointment(d, id, now).patientId != NewAppointment(d, id, now).patient.id
  {
  }

  /** The status of an added appointment is the draft's, so it need not be `scheduled`. */
  lemma NewAppointmentKeepsDraftStatus(d: AppointmentDraft, id: string, now: string)
    ensures NewAppointment(d, id, now).status == d.status
    ensures d.status == Completed ==> NewAppointment(d, id, now).status != Scheduled
  {
  }

  /** Adding then deleting under an unused id gives back the list as it was. */
  lemma {:induction false} AddThenDelete(s: seq<Appointment>, d: AppointmentDraft, freshId: string, now: string)
    requires forall a :: a in s ==> a.id != freshId
    ensures RemoveAppointments(s + [NewAppointment(d, freshId, now)], freshId) == s
  {
    var x := NewAppointment(d, freshId, now);
    var keep := (a: Appointment) => a.id != freshId;
    FilterAppend(s, x, keep);
    FilterKeepsAll(s, keep);
  }

  /** Updating an id that no entry carries changes nothing. */
  lemma UpdateAbsentId(s: seq<Appointment>, id: string, d: AppointmentPatch, now: string)
    requires forall a :: a in s ==> a.id != id
    ensures UpdateAppointments(s, id, d, now) == s
  {
    var r := UpdateAppointments(s, id, d, now);
    assert forall i :: 0 <= i < |s| ==> r[i] == s[i];
  }
}
