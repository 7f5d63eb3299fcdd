/**
 * The mock data the stores serve in place of a backend: three patients, the
 * doctor snapshot the stores stamp on records and appointments, two
 * appointments and the single medical record every partition is fetched as.
 */
module Fixtures {
  import opened Types

  const MockPatients: seq<Patient> := [
    Patient("1", "John", "Doe", Male, "+998901234567", "john.doe@email.com",
            "1985-03-15", "123 Main St, Tashkent", "Jane Doe", "+998907654321",
            "Regular checkups needed", "2024-01-15T10:00:00Z", "2024-01-15T10:00:00Z"),
    Patient("2", "Maria", "Garcia", Female, "+998901234568", "maria.garcia@email.com",
            "1992-07-22", "456 Oak Ave, Tashkent", "Carlos Garcia", "+998907654322",
            "Allergic to penicillin", "2024-01-10T14:30:00Z", "2024-01-10T14:30:00Z"),
    Patient("3", "Ahmed", "Hassan", Male, "+998901234569", "ahmed.hassan@email.com",
            "1978-11-08", "789 Elm St, Tashkent", "Fatima Hassan", "+998907654323",
            "Diabetes patient", "2024-01-05T09:15:00Z", "2024-01-05T09:15:00Z")
  ]

  /**
   * The doctor snapshot written into medical records and appointments. Its
   * role is the string "doctor", which is not a declared role value.
   */
  const MockDoctor := User("2", "doctor@clinic.com", "Dr. Michael", "Smith", "doctor",
                           "2024-01-01T00:00:00Z", "2024-01-01T00:00:00Z")

  /** The two appointments; their patient snapshots are field for field the first two patients. */
  const MockAppointments: seq<Appointment> := [
    Appointment("1", "1", MockPatients[0], "2", MockDoctor,
                "2024-01-25T09:00:00Z", "2024-01-25T09:30:00Z", Scheduled,
                "Regular checkup", None, "3", "2024-01-20T08:00:00Z", "2024-01-20T08:00:00Z"),
    Appointment("2", "2", MockPatients[1], "2", MockDoctor,
                "2024-01-25T14:00:00Z", "2024-01-25T14:30:00Z", Scheduled,
                "Follow-up consultation", None, "3", "2024-01-20T10:00:00Z", "2024-01-20T10:00:00Z")
  ]

  /** The record a fetch of patient `patientId`'s records yields. */
  function FetchedRecord(patientId: string): (r: MedicalRecord)
    ensures r.patientId == patientId && r.author == MockDoctor && r.authorId == r.author.id
  {
    MedicalRecord("1", patientId, "2", MockDoctor, Diagnosis, "Annual Checkup",
                  "Patient appears healthy. Vital signs normal.", None, None,
                  "2024-01-20T11:00:00Z", "2024-01-20T11:00:00Z")
  }

  /** The fixture patients carry the ids 1, 2 and 3, in that order. */
  lemma MockPatientIds()
    ensures |MockPatients| == 3
    ensures MockPatients[0].id == "1" && MockPatients[1].id == "2" && MockPatients[2].id == "3"
  {
  }

  /**
   * Both fixture appointments are scheduled, and each one's `patientId` is the
   * id of its embedded patient snapshot.
   */
  lemma MockAppointmentsConsistent()
    ensures |MockAppointments| == 2
    ensures forall a :: a in MockAppointments ==> a.status == Scheduled && a.patientId == a.patient.id
    ensures forall a :: a in MockAppointments ==> a.doctorId == a.doctor.id
  {
  }

  /** The doctor snapshot does not carry a declared role. */
  lemma MockDoctorRoleUndeclared()
    ensures !WellTypedUser(MockDoctor)
  {
  }
}
