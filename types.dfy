/**
 * The entity shapes shared by every store and view of the clinic front end:
 * users, patients, medical records, appointments and the dashboard summary,
 * together with the drafts (records without their store-assigned fields) and
 * the partial records (`Partial<...>`) the stores merge into existing entries.
 */
module Types {

  /** A field that may be absent. */
  datatype Option<+T> = None | Some(value: T) {
    /** The value, or `default` when absent. */
    function GetOr(default: T): T {
      match this
      case Some(v) => v
      case None => default
    }
  }

  /** The result of a call that either resolves with a value or throws. */
  datatype Result<+T, +E> = Success(value: T) | Failure(error: E)

  /** The result of a call that either resolves with nothing or throws. */
  datatype Outcome<+E> = Pass | Fail(error: E)

  /**
   * The names every plain JavaScript object answers through its prototype.
   * Indexing an object literal with one of them that is not an own key
   * yields a truthy value that is no array: a function, or the prototype
   * object itself.
   */
  const ObjectPrototypeNames: set<string> := {
    "constructor", "__proto__", "hasOwnProperty", "isPrototypeOf",
    "propertyIsEnumerable", "toString", "toLocaleString", "valueOf",
    "__defineGetter__", "__defineSetter__", "__lookupGetter__", "__lookupSetter__"
  }

  // ---------------------------------------------------------------------
  // Roles
  // ---------------------------------------------------------------------

  /** The declared role values of a user. */
  datatype Role = Admin | Doktor | Foydalanuvchi

  /** The string a declared role is written as. */
  function RoleName(r: Role): string {
    match r
    case Admin => "admin"
    case Doktor => "doktor"
    case Foydalanuvchi => "foydalanuvchi"
  }

  /** Reads a role string back into a declared role, if it is one. */
  function ParseRole(s: string): (r: Option<Role>)
    ensures r.Some? ==> RoleName(r.value) == s
    ensures r.None? ==> forall x: Role :: RoleName(x) != s
  {
    if s == "admin" then Some(Admin)
    else if s == "doktor" then Some(Doktor)
    else if s == "foydalanuvchi" then Some(Foydalanuvchi)
    else None
  }

  /** A role string is declared iff it is one of the three role values. */
  predicate IsDeclaredRole(s: string) {
    ParseRole(s).Some?
  }

  /** Naming a role and reading it back gives the same role. */
  lemma ParseRoleName(r: Role)
    ensures ParseRole(RoleName(r)) == Some(r)
    ensures IsDeclaredRole(RoleName(r))
  {
  }

  /** The declared roles are exactly the strings admin, doktor and foydalanuvchi. */
  lemma DeclaredRoles(s: string)
    ensures IsDeclaredRole(s) <==> s == "admin" || s == "doktor" || s == "foydalanuvchi"
  {
  }

  // ---------------------------------------------------------------------
  // Entities
  // ---------------------------------------------------------------------

  /**
   * A staff member. `role` holds the role as the program stores it, a string:
   * the declared values are those of `Role`, but the doctor snapshot embedded in
   * the stores' fixtures carries "doctor", which is not one of them.
   */
  datatype User = User(
    id: string,
    email: string,
    firstName: string,
    lastName: string,
    role: string,
    createdAt: string,
    updatedAt: string)

  /** A user is well typed when its role is one of the declared values. */
  predicate WellTypedUser(u: User) {
    IsDeclaredRole(u.role)
  }

  datatype Gender = Male | Female | Other

  /** A patient; `notes` is a required (possibly empty) string. */
  datatype Patient = Patient(
    id: string,
    firstName: string,
    lastName: string,
    gender: Gender,
    phone: string,
    email: string,
    dateOfBirth: string,
    address: string,
    emergencyContact: string,
    emergencyPhone: string,
    notes: string,
    createdAt: string,
    updatedAt: string)

  datatype RecordType = Diagnosis | Treatment | Prescription | Note

  /**
   * A medical record of one patient, with a snapshot of its author taken when
   * it was written. Only `prescription` and `attachments` may be absent.
   */
  datatype MedicalRecord = MedicalRecord(
    id: string,
    patientId: string,
    authorId: string,
    author: User,
    recordType: RecordType,
    title: string,
    description: string,
    prescription: Option<string>,
    attachments: Option<seq<string>>,
    createdAt: string,
    updatedAt: string)

  datatype Status = Scheduled | Completed | Canceled | NoShow

  /**
   * An appointment, with snapshots of its patient and doctor. `startAt` and
   * `endAt` are ISO-8601 strings the model treats as opaque; only `notes` is
   * optional.
   */
  datatype Appointment = Appointment(
    id: string,
    patientId: string,
    patient: Patient,
    doctorId: string,
    doctor: User,
    startAt: string,
    endAt: string,
    status: Status,
    reason: string,
    notes: Option<string>,
    createdBy: string,
    createdAt: string,
    updatedAt: string)

  /** The dashboard summary: five counts and two lists. */
  datatype DashboardStats = DashboardStats(
    totalPatients: nat,
    todayAppointments: nat,
    newPatientsThisWeek: nat,
    completedAppointmentsToday: nat,
    pendingAppointments: nat,
    recentPatients: seq<Patient>,
    upcomingAppointments: seq<Appointment>)

  // ---------------------------------------------------------------------
  // Drafts: an entity without the fields the store assigns
  // ---------------------------------------------------------------------

  /** A patient without `id`, `createdAt` and `updatedAt`. */
  datatype PatientDraft = PatientDraft(
    firstName: string,
    lastName: string,
    gender: Gender,
    phone: string,
    email: string,
    dateOfBirth: string,
    address: string,
    emergencyContact: string,
    emergencyPhone: string,
    notes: string)

  /** A medical record without `id`, `patientId`, `author` and the timestamps. */
  datatype RecordDraft = RecordDraft(
    authorId: string,
    recordType: RecordType,
    title: string,
    description: string,
    prescription: Option<string>,
    attachments: Option<seq<string>>)

  /**
   * An appointment without `id`, the two snapshots and the timestamps. It
   * keeps `status`: the creation draft is free to choose one.
   */
  datatype AppointmentDraft = AppointmentDraft(
    patientId: string,
    doctorId: string,
    startAt: string,
    endAt: string,
    status: Status,
    reason: string,
    notes: Option<string>,
    createdBy: string)

  // ---------------------------------------------------------------------
  // Partial records and their merge `{ ...entry, ...partial, updatedAt: now }`
  // ---------------------------------------------------------------------

  /**
   * A `Partial<Patient>`: `None` is a key the partial does not carry. Every
   * key may be present, `id` and the timestamps included.
   */
  datatype PatientPatch = PatientPatch(
    id: Option<string>,
    firstName: Option<string>,
    lastName: Option<string>,
    gender: Option<Gender>,
    phone: Option<string>,
    email: Option<string>,
    dateOfBirth: Option<string>,
    address: Option<string>,
    emergencyContact: Option<string>,
    emergencyPhone: Option<string>,
    notes: Option<string>,
    createdAt: Option<string>,
    updatedAt: Option<string>)

  /** The partial that carries no key at all. */
  const EmptyPatientPatch := PatientPatch(None, None, None, None, None, None, None,
                                          None, None, None, None, None, None)

  /**
   * Spreads `d` over `p` and then stamps `updatedAt` with `now`, whatever
   * `updatedAt` the partial carries.
   */
  function MergePatient(p: Patient, d: PatientPatch, now: string): Patient {
    Patient(
      d.id.GetOr(p.id),
      d.firstName.GetOr(p.firstName),
      d.lastName.GetOr(p.lastName),
      d.gender.GetOr(p.gender),
      d.phone.GetOr(p.phone),
      d.email.GetOr(p.email),
      d.dateOfBirth.GetOr(p.dateOfBirth),
      d.address.GetOr(p.address),
      d.emergencyContact.GetOr(p.emergencyContact),
      d.emergencyPhone.GetOr(p.emergencyPhone),
      d.notes.GetOr(p.notes),
      d.createdAt.GetOr(p.createdAt),
      now)
  }

  /** A key the partial carries wins; a key it lacks keeps its old value; `updatedAt` is `now`. */
  lemma MergePatientFields(p: Patient, d: PatientPatch, now: string)
    ensures var m := MergePatient(p, d, now);
      && m.updatedAt == now
      && (if d.id.Some? then m.id == d.id.value else m.id == p.id)
      && (if d.firstName.Some? then m.firstName == d.firstName.value else m.firstName == p.firstName)
      && (if d.lastName.Some? then m.lastName == d.lastName.value else m.lastName == p.lastName)
      && (if d.gender.Some? then m.gender == d.gender.value else m.gender == p.gender)
      && (if d.phone.Some? then m.phone == d.phone.value else m.phone == p.phone)
      && (if d.email.Some? then m.email == d.email.value else m.email == p.email)
      && (if d.dateOfBirth.Some? then m.dateOfBirth == d.dateOfBirth.value else m.dateOfBirth == p.dateOfBirth)
      && (if d.address.Some? then m.address == d.address.value else m.address == p.address)
      && (if d.emergencyContact.Some? then m.emergencyContact == d.emergencyContact.value else m.emergencyContact == p.emergencyContact)
      && (if d.emergencyPhone.Some? then m.emergencyPhone == d.emergencyPhone.value else m.emergencyPhone == p.emergencyPhone)
      && (if d.notes.Some? then m.notes == d.notes.value else m.notes == p.notes)
      && (if d.createdAt.Some? then m.createdAt == d.createdAt.value else m.createdAt == p.createdAt)
  {
  }

  /** The empty partial refreshes `updatedAt` and nothing else. */
  lemma MergeEmptyPatientPatch(p: Patient, now: string)
    ensures MergePatient(p, EmptyPatientPatch, now) == p.(updatedAt := now)
  {
  }

  /** Merging the same partial twice at the same instant is merging it once. */
  lemma MergePatientIdempotent(p: Patient, d: PatientPatch, now: string)
    ensures MergePatient(MergePatient(p, d, now), d, now) == MergePatient(p, d, now)
  {
  }

  /**
   * A `Partial<Appointment>`. `notes` is optional in `Appointment`, so the
   * partial distinguishes an absent key (`None`) from a key present with the
   * value `undefined` (`Some(None)`): spreading the latter removes the notes.
   */
  datatype AppointmentPatch = AppointmentPatch(
    id: Option<string>,
    patientId: Option<string>,
    patient: Option<Patient>,
    doctorId: Option<string>,
    doctor: Option<User>,
    startAt: Option<string>,
    endAt: Option<string>,
    status: Option<Status>,
    reason: Option<string>,
    notes: Option<Option<string>>,
    createdBy: Option<string>,
    createdAt: Option<string>,
    updatedAt: Option<string>)

  /** Spreads `d` over `a` and then stamps `updatedAt` with `now`. */
  function MergeAppointment(a: Appointment, d: AppointmentPatch, now: string): Appointment {
    Appointment(
      d.id.GetOr(a.id),
      d.patientId.GetOr(a.patientId),
      d.patient.GetOr(a.patient),
      d.doctorId.GetOr(a.doctorId),
      d.doctor.GetOr(a.doctor),
      d.startAt.GetOr(a.startAt),
      d.endAt.GetOr(a.endAt),
      d.status.GetOr(a.status),
      d.reason.GetOr(a.reason),
      d.notes.GetOr(a.notes),
      d.createdBy.GetOr(a.createdBy),
      d.createdAt.GetOr(a.createdAt),
      now)
  }

  /** The partial that carries only `status`. */
  function StatusPatch(s: Status): AppointmentPatch {
    AppointmentPatch(None, None, None, None, None, None, None, Some(s),
                     None, None, None, None, None)
  }

  /** Merging a status-only partial changes `status` and `updatedAt` and nothing else. */
  lemma MergeStatusOnly(a: Appointment, s: Status, now: string)
    ensures MergeAppointment(a, StatusPatch(s), now) == a.(status := s, updatedAt := now)
  {
  }

  /** Merging the same partial twice at the same instant is merging it once. */
  lemma MergeAppointmentIdempotent(a: Appointment, d: AppointmentPatch, now: string)
    ensures MergeAppointment(MergeAppointment(a, d, now), d, now) == MergeAppointment(a, d, now)
  {
  }
}
