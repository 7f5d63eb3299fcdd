# Clinic dashboard state layer in Dafny

This project models the client-side state layer of a browser clinic-administration front end. It covers:

- **Entity shapes** of `src/types/index.ts`: users, patients, medical records, appointments and the dashboard summary. Enumerated fields become datatypes with one variant per value. Optional fields become `Option`.
- **Patients store** (`Patients.PatientsStore`), a class with these fields:
  - the patient list;
  - the patient opened in the details view;
  - the medical records, partitioned by patient id;
  - a loading flag;
  - the search text.
- **Appointments store** (`Appointments.AppointmentsStore`): the appointment list and a loading flag.
- **Auth store** (`Auth.AuthStore`):
  - the credential check against a fixed table of three users;
  - the session fields;
  - the three-field projection of its state that survives page loads.
- **Decisions the views make**:
  - the case-insensitive patient search and the delete permission (`PatientsList`);
  - the edit and delete permissions, the Complete/Cancel status actions and what they send to the store (`AppointmentsList`);
  - the appointment form: defaults, prefill, field changes, the draft it submits and where it routes it (`AppointmentForm`);
  - the medical-record form (`MedicalRecordForm`);
  - the role-filtered navigation menu (`Sidebar`).

How the model is set up:

- **Store actions.** Each store action is one atomic state change. The clock reading, the `Date.now()` id and the token stamp are parameters: `now`, `freshId` and `stamp`.
- **Partial updates.** A partial record (`Partial<...>`) is a record of `Option`s, one per key. Spreading it over an entry keeps the old value where the key is absent. The stores then stamp `updatedAt` with `now`, whatever the partial says.
- **Optional fields in partials.** For an optional field such as `Appointment.notes`, the partial distinguishes two cases. `None` means the key is absent. `Some(None)` means the key is present with the value `undefined`, and spreading that removes the field.
- **Role strings.** Roles are kept as the strings the program stores. The declared values are `admin`, `doktor` and `foydalanuvchi` (`Types.Role`, `Types.ParseRole`). The views compare against `doctor` and `reception`, and the fixture doctor snapshot carries `doctor`. The lemmas state what follows from that mismatch.

## Behaviour worth knowing

- The declared doctor and reception roles are `doktor` and `foydalanuvchi`, not `doctor` and `reception`.
- `addAppointment` never rejects. It fills the patient and doctor snapshots from fixture 0, not from a lookup by the draft's ids.
- A new appointment keeps the draft's status instead of being forced to `scheduled`.
- `addMedicalRecord` does not check that the patient exists. It throws only when the patient id is a name every JavaScript object inherits (such as `constructor`) and no partition exists under it yet: the lookup then yields a truthy value that is not an array, and spreading it fails.
- Editing an appointment can move it. The form's date is the UTC date of the start (`toISOString`), but its times are local clock times (`toTimeString`), and the submit reads date and time together as local time. Where the local date differs from the UTC date the appointment moves by a day: in UTC+5, a start at `2024-01-25T20:00:00.000Z` is prefilled as `2024-01-25` and `01:00` and is saved back as `2024-01-24T20:00:00.000Z`.

## Model

| member | source | states |
|---|---|---|
| Types.ParseRole | src/types/index.ts:6 | A role string reads back as a declared role only if that role is written exactly so. It reads back as nothing when no declared role is written that way. |
| Types.ParseRoleName | src/types/index.ts:6 | Writing a declared role and reading it back gives the same role, so each of the three is declared. |
| Types.DeclaredRoles | src/types/index.ts:6 | A role string is declared iff it is `admin`, `doktor` or `foydalanuvchi`. |
| Types.MergePatientFields | src/stores/patientsStore.ts:136-139 | Merging a partial into a patient: for every field, a key the partial carries wins and a key it lacks keeps the old value; `updatedAt` becomes `now` whatever the partial carries. |
| Types.MergeEmptyPatientPatch | src/stores/patientsStore.ts:138 | Merging the partial with no keys changes only `updatedAt`. |
| Types.MergePatientIdempotent | src/stores/patientsStore.ts:134-145 | Merging the same partial twice at the same instant equals merging it once. |
| Types.MergeStatusOnly | src/components/Appointments/AppointmentsList.tsx:27-29 | Merging the status-only partial changes `status` and `updatedAt` and no other field. |
| Types.MergeAppointmentIdempotent | src/stores/appointmentsStore.ts:113-121 | Merging the same appointment partial twice at the same instant equals merging it once. |
| Collections.FilterCount | src/stores/patientsStore.ts:149 | `filter` keeps every copy of each element the predicate accepts and no copy of any other element. |
| Collections.FilterIsSubsequence | src/stores/patientsStore.ts:149 | What `filter` keeps is an order-preserving subsequence of its input. |
| Collections.FilterIdempotent | src/components/Patients/PatientsList.tsx:20-24 | Filtering again with the same predicate changes nothing. |
| Collections.MapWhere | src/stores/patientsStore.ts:136-140 | A `map` that rewrites the selected elements keeps the length, rewrites every selected position and copies every other position. |
| Fixtures.MockPatientIds | src/stores/patientsStore.ts:21-67 | The patient fixture has three entries with ids 1, 2 and 3, in that order. |
| Fixtures.MockAppointmentsConsistent | src/stores/appointmentsStore.ts:13-86 | The appointment fixture has two entries. Both are `scheduled`, and each one's `patientId` and `doctorId` are the ids of its embedded snapshots. |
| Fixtures.FetchedRecord | src/stores/patientsStore.ts:91-111 | The fetched record carries the requested `patientId` and the fixed doctor snapshot as author, and its `authorId` is that author's id. |
| Fixtures.MockDoctorRoleUndeclared | src/stores/patientsStore.ts:96-104 | The doctor snapshot's role `doctor` is not a declared role. |
| Patients.FindById | src/stores/patientsStore.ts:86 | The lookup finds nothing iff no patient carries the id. Otherwise it finds a listed patient with that id. |
| Patients.FindByIdFirst | src/stores/patientsStore.ts:86 | The patient found is the first one in the list that carries the id. |
| Patients.NewPatient | src/stores/patientsStore.ts:122-127 | A new patient has the given id, `createdAt == updatedAt == now`, and every draft field as supplied. |
| Patients.UpdatePatients | src/stores/patientsStore.ts:136-140 | The updated list has the same length. Every entry with the id is merged with the partial and every other entry is unchanged. |
| Patients.RemovePatients | src/stores/patientsStore.ts:149 | The list after a delete holds every copy of each entry with another id, and nothing else, in the original order. |
| Patients.NewRecord | src/stores/patientsStore.ts:154-169 | A new record has the given id, is filed under the given patient and has `createdAt == updatedAt == now`. Its author is always the fixed doctor snapshot with id 2, and the draft fields are kept as supplied. |
| Patients.PatientsStore.constructor | src/stores/patientsStore.ts:70-74 | The store starts with no patients, nothing open, no records, not loading and an empty search. |
| Patients.PatientsStore.FetchPatients | src/stores/patientsStore.ts:76-81 | The list becomes the three-patient fixture, loading is off, and nothing else changes. |
| Patients.PatientsStore.FetchPatient | src/stores/patientsStore.ts:83-88 | The open patient becomes the fixture patient with that id, or nothing. The current list is not searched and nothing else changes. |
| Patients.PatientsStore.FetchMedicalRecords | src/stores/patientsStore.ts:90-119 | The patient's partition becomes the one fetched record. Every other partition and field is unchanged, and every record stays in its own patient's partition. |
| Patients.PatientsStore.AddPatient | src/stores/patientsStore.ts:121-132 | Exactly one new patient is appended at the end. Earlier patients and the other fields are unchanged. |
| Patients.PatientsStore.UpdatePatient | src/stores/patientsStore.ts:134-145 | Every entry with the id is merged. The open patient is merged too when its id matches, and records, loading and search are unchanged. |
| Patients.PatientsStore.DeletePatient | src/stores/patientsStore.ts:147-151 | The entries with the id are dropped, the rest keep their order, and the medical records are untouched (no cascade). |
| Patients.AppendRecord | src/stores/patientsStore.ts:171-176 | Appending fails iff there is no own partition under the id and the id is a prototype name. Otherwise the id's partition gains the record at its end, the id becomes a key, and every other partition is unchanged. |
| Patients.PatientsStore.AddMedicalRecord | src/stores/patientsStore.ts:153-177 | On success the partitions become the append's result. On the prototype-name failure it reports the error and the partitions are unchanged. Every record stays in its own patient's partition, and the other fields are unchanged. |
| Patients.PatientsStore.SetSearchQuery | src/stores/patientsStore.ts:179 | Only the search text changes, and it becomes the query. |
| Patients.FindByIdAppend | src/stores/patientsStore.ts:130 | A lookup in a list with one patient appended finds the earlier match if there is one, otherwise the appended patient if its id matches. |
| Patients.AddThenFind | src/stores/patientsStore.ts:121-132 | A patient added under an unused id is found again under that id, with its draft fields and `createdAt == updatedAt == now`. |
| Patients.DeleteThenFind | src/stores/patientsStore.ts:147-151 | After a delete no entry carries the id, every entry with another id survives, and the list is no longer than before. |
| Patients.UpdateThenFind | src/stores/patientsStore.ts:134-145 | An update whose partial carries no `id` keeps every entry's id. Looking the id up afterwards finds the merged first match, or nothing if there was none. |
| Patients.FetchPatientFixture | src/stores/patientsStore.ts:83-88 | Fetching patient 2 opens the second fixture patient, and fetching patient 4 opens nothing. |
| Patients.AddRecordKeepsPartitions | src/stores/patientsStore.ts:153-177 | A successful append and a fetch both keep every record in the partition of its own `patientId`. |
| Patients.AppendAfterFetch | src/stores/patientsStore.ts:113-118 | After a fetch has created the patient's partition, appending to it succeeds and puts the record after the fetched one. |
| Appointments.NewAppointment | src/stores/appointmentsStore.ts:99-106 | A new appointment has the given id and `createdAt == updatedAt == now`. Its patient and doctor snapshots are always fixture 0's, and the draft's fields, status included, are kept as supplied. |
| Appointments.UpdateAppointments | src/stores/appointmentsStore.ts:115-119 | The updated list has the same length. Every entry with the id is merged and every other entry is unchanged. |
| Appointments.RemoveAppointments | src/stores/appointmentsStore.ts:125 | The list after a delete holds every copy of each entry with another id, and nothing else, in the original order. |
| Appointments.AppointmentsStore.constructor | src/stores/appointmentsStore.ts:89-90 | The store starts empty and not loading. |
| Appointments.AppointmentsStore.FetchAppointments | src/stores/appointmentsStore.ts:92-96 | The list becomes the two-appointment fixture and loading is off. |
| Appointments.AppointmentsStore.AddAppointment | src/stores/appointmentsStore.ts:98-111 | Exactly one new appointment is appended at the end, and earlier entries and loading are unchanged. |
| Appointments.AppointmentsStore.UpdateAppointment | src/stores/appointmentsStore.ts:113-121 | Every entry with the id is merged and everything else is unchanged. |
| Appointments.AppointmentsStore.DeleteAppointment | src/stores/appointmentsStore.ts:123-127 | The entries with the id are dropped and the rest keep their order. |
| Appointments.NewAppointmentSnapshotMismatch | src/stores/appointmentsStore.ts:102-103 | A draft for patient 2 gets patient 1's snapshot, so `patientId` and `patient.id` disagree. |
| Appointments.NewAppointmentKeepsDraftStatus | src/stores/appointmentsStore.ts:99-100 | A new appointment's status is the draft's, so a `completed` draft is not stored as `scheduled`. |
| Appointments.AddThenDelete | src/stores/appointmentsStore.ts:98-127 | Adding under an unused id and then deleting that id gives back the original list. |
| Appointments.UpdateAbsentId | src/stores/appointmentsStore.ts:113-121 | Updating an id that no entry carries leaves the list unchanged. |
| Auth.PrototypeNameAccepted | src/stores/authStore.ts:51-52 | The check as written accepts the email `constructor` with the shared password, although it is not a key of the table. |
| Auth.MockLogin | src/stores/authStore.ts:51-56 | Login succeeds iff the email is an own key of the table and the password is `password`. It yields that key's user and a token starting with `mock-jwt-token-`, and otherwise fails with invalid credentials. |
| Auth.MockLoginAgreesAwayFromPrototype | src/stores/authStore.ts:51-56 | Away from the prototype names, the corrected check accepts exactly what the check as written accepts. |
| Auth.TableUsersWellTyped | src/stores/authStore.ts:21-49 | Every user of the credential table carries a declared role. |
| Auth.LoginFixtures | src/stores/authStore.ts:31-46 | The doctor logs in with role `doktor`, and a wrong password fails. The key `reception@clinic.com` yields a user whose email is `foydalanuvchi@clinic.com`. |
| Auth.PersistRoundTrip | src/stores/authStore.ts:95-99 | The persisted projection ignores the loading flag. Restoring it gives back the saved session with the current loading flag. |
| Auth.AuthStore.constructor | src/stores/authStore.ts:59-65 | With nothing saved the store starts logged out and not loading. With a saved projection, that projection is restored. |
| Auth.AuthStore.Login | src/stores/authStore.ts:67-81 | Runs the corrected own-key check `MockLogin`. Success stores its user and token and sets authenticated. Failure rethrows invalid credentials and leaves the session unchanged. Loading is off either way. |
| Auth.AuthStore.Logout | src/stores/authStore.ts:83-89 | User and token are cleared and authenticated is false. The loading flag is unchanged, and the persisted projection is the logged-out one. |
| Auth.AuthStore.SetLoading | src/stores/authStore.ts:91 | Only the loading flag changes, so nothing persisted changes. |
| PatientsList.Lower | src/components/Patients/PatientsList.tsx:22-23 | Lower-casing keeps the length and folds every ASCII capital, position by position. |
| PatientsList.LowerIdempotent | src/components/Patients/PatientsList.tsx:22-23 | Lower-casing twice equals lower-casing once. |
| PatientsList.IncludesIff | src/components/Patients/PatientsList.tsx:23 | `includes` holds iff the needle occurs at some position of the text. |
| PatientsList.FilterPatients | src/components/Patients/PatientsList.tsx:20-24 | The search keeps a patient iff the lower-cased `first last phone email` text contains the lower-cased query. Every copy of a kept patient survives, and the result is an order-preserving subsequence of the list. |
| PatientsList.FieldHitMatches | src/components/Patients/PatientsList.tsx:20-24 | A query found, case-insensitively, in the first name, last name, phone or email alone keeps the patient. |
| PatientsList.EmptyQueryKeepsAll | src/components/Patients/PatientsList.tsx:20-24 | The empty query returns every patient in the original order. |
| PatientsList.SearchIdempotent | src/components/Patients/PatientsList.tsx:20-24 | Searching the result again with the same query returns it unchanged. |
| PatientsList.SearchCaseInsensitive | src/components/Patients/PatientsList.tsx:20-24 | Searching for the lower-cased query gives the same result as searching for the query. |
| PatientsList.CanDeletePatientIffAdmin | src/components/Patients/PatientsList.tsx:42 | A patient may be deleted iff a user is logged in and their role is the declared role `admin`. |
| AppointmentsList.CanDeleteImpliesCanEdit | src/components/Appointments/AppointmentsList.tsx:42-43 | Whoever may delete an appointment may also edit it. |
| AppointmentsList.DeclaredRolesEdit | src/components/Appointments/AppointmentsList.tsx:42-43 | For a user with a declared role, edit is allowed iff the role is `admin`, and delete is allowed iff edit is. |
| AppointmentsList.OfferedActions | src/components/Appointments/AppointmentsList.tsx:140-155 | Actions are offered iff the appointment is scheduled, and then exactly Complete followed by Cancel; `no-show` is never offered. |
| AppointmentsList.HandleStatusUpdate | src/components/Appointments/AppointmentsList.tsx:27-29 | The store receives an update for the id whose partial carries only the status. |
| AppointmentsList.StatusActionEffect | src/components/Appointments/AppointmentsList.tsx:140-155 | An offered action changes only `status` and `updatedAt` of each entry with the appointment's id. It sets the status to `completed` or `canceled`, and every other entry is unchanged. |
| AppointmentForm.SetField | src/components/Appointments/AppointmentModal.tsx:75-78 | A change sets the named field and leaves every other field as it was. Only fields with an input can be named, so `createdBy` never changes. |
| AppointmentForm.BuildDraft | src/components/Appointments/AppointmentModal.tsx:51-60 | The draft carries the form's patient, doctor, reason and creator and the converted instants, and is always `scheduled`. Empty notes become absent and non-empty notes are kept verbatim. |
| AppointmentForm.PrefillThenSubmit | src/components/Appointments/AppointmentModal.tsx:30-38 | Prefilling and resubmitting keeps patient, doctor, reason and creator whatever the date and time texts are; the instants are whatever those texts convert to. The status becomes `scheduled`, and absent or empty notes come back absent. |
| AppointmentForm.EditResetsStatus | src/components/Appointments/AppointmentModal.tsx:62-63 | Saving an edit puts every matching entry back to `scheduled`, keeps its id, snapshots and creation time, and clears its notes when the notes field is empty. |
| AppointmentForm.AppointmentModal.constructor | src/components/Appointments/AppointmentModal.tsx:14-41 | A new form has doctor 2, creator 3 and every other field empty. When editing, the form is prefilled from the appointment. |
| AppointmentForm.AppointmentModal.HandleChange | src/components/Appointments/AppointmentModal.tsx:75-78 | Only the named form field changes. |
| AppointmentForm.AppointmentModal.HandleSubmit | src/components/Appointments/AppointmentModal.tsx:43-73 | If both instants convert, the draft updates the edited appointment or appends a new one, and the modal closes. If a conversion throws, the store is untouched and the modal stays open. Loading ends either way. |
| MedicalRecordForm.ApplyChange | src/components/Patients/MedicalRecordModal.tsx:38-41 | A change sets the named field and leaves every other field as it was. Only fields with an input can be named, so `authorId` never changes. |
| MedicalRecordForm.BuildDraft | src/components/Patients/MedicalRecordModal.tsx:26-29 | An empty prescription is submitted as absent, a non-empty one is kept, and no attachments are sent. |
| MedicalRecordForm.SubmitRoundTrip | src/components/Patients/MedicalRecordModal.tsx:26-29 | The stored record carries the form's type, title, description and author id under the modal's patient. A non-empty prescription is kept whatever the type. |
| MedicalRecordForm.MedicalRecordModal.constructor | src/components/Patients/MedicalRecordModal.tsx:10-19 | A new form is a diagnosis by author 2 with empty title, description and prescription. |
| MedicalRecordForm.MedicalRecordModal.HandleChange | src/components/Patients/MedicalRecordModal.tsx:38-41 | Only the named form field changes. |
| MedicalRecordForm.MedicalRecordModal.HandleSubmit | src/components/Patients/MedicalRecordModal.tsx:21-36 | If the store call succeeds, the draft is appended to the modal patient's partition and the modal closes. If it throws, the store is unchanged and the modal stays open. The rest of the store is unchanged, and loading ends either way. |
| Sidebar.VisibleItems | src/components/Layout/Sidebar.tsx:22-24 | The visible items are exactly the table items whose allowed roles contain the role, in table order. |
| Sidebar.AtMostOneActive | src/components/Layout/Sidebar.tsx:35 | The table's ids are pairwise distinct, so at most one item is highlighted. |
| Sidebar.AdminSeesAll | src/components/Layout/Sidebar.tsx:14-19 | `admin` sees all six items in table order. |
| Sidebar.DoctorMenu | src/components/Layout/Sidebar.tsx:14-19 | `doctor` sees exactly the items other than user management. |
| Sidebar.ReceptionMenu | src/components/Layout/Sidebar.tsx:14-19 | `reception` sees exactly the dashboard, patients and appointments items. |
| Sidebar.UnnamedRoleSeesNothing | src/components/Layout/Sidebar.tsx:22-24 | A role the table never names sees no item. |
| Sidebar.NoItemsWithoutMatchingRole | src/components/Layout/Sidebar.tsx:23 | With nobody logged in, and for the declared roles `doktor` and `foydalanuvchi`, the menu is empty. |
| Sidebar.DeclaredRolesMenu | src/components/Layout/Sidebar.tsx:22-24 | A user with a declared role sees the whole menu if admin, and nothing otherwise. |

## Left out

- The simulated network latency (`setTimeout`), `async` sequencing and the state container's `create`/`set`: each store action is one atomic state change. The loading flag's true-then-false pair is kept only as a before/after fact.
- The persistence middleware and browser storage: only the `partialize` projection and a restore over the initial state are modelled.
- The clock: `Date.now()` ids and `toISOString()` timestamps are parameters. Each action's separate clock reads are collapsed into one `now`, and the id is a separate `freshId`. Id uniqueness is not claimed, because the code does not ensure it.
- Patients.NewPatient: the source reads the clock separately for `createdAt` and `updatedAt`, so the two may differ by a millisecond there; the model's `createdAt == updatedAt == now` holds only because of the single `now`.
- Patients.NewRecord: `createdAt` and `updatedAt` come from two clock reads in the source and one `now` in the model.
- Appointments.NewAppointment: `createdAt` and `updatedAt` come from two clock reads in the source and one `now` in the model.
- Patients.PatientsStore.UpdatePatient: the source reads the clock once for the list entries and again for the open patient; the model stamps both with the same `now`.
- Auth.AuthStore.Login: it runs the corrected check `MockLogin`, so a prototype name such as `constructor` with the shared password fails here. The source's login succeeds on it and stores a value that is not a user, which `Option<User>` cannot hold (see Findings).
- Date parsing and formatting in the appointment form (`toISOString`, `toTimeString`): the prefilled texts (the UTC date and the local start and end times) and the ISO conversions of the submitted texts are parameters, with `None` for a conversion that throws; the model does not compute the time-zone shift described above.
- Unicode case folding: lower-casing is ASCII-only.
- `window.confirm` before deletes, which modal is open, and all JSX, icons and colour maps.
- The dashboard store, the dashboard, the patient details modal, the navigation bar, the chart, the layout and the app routing: they are rendering or a constant fixture. `DashboardStats` is declared as a datatype only.
- Interleaving of concurrent store calls.
- The `console.error` logging in the two forms' catch blocks.
- A partial that carries a required key with the value `undefined`: a patch key is either absent or holds a value of the field's type. This undefined case is modelled only for the optional appointment `notes`.
- Values that are not `User` records where the views read `user?.role`: a missing user is `None`, and a present one always has a string role.

## Findings

| source | as written | input that shows it | evidently intended | confidence | as-written member | corrected member |
|---|---|---|---|---|---|---|
| src/stores/authStore.ts:51-52 | `mockUsers[email]` on a plain object literal is also truthy for names inherited from the object prototype | email `constructor`, password `password`: the login succeeds with a non-user value | only the table's own keys log in | not executed | Auth.PrototypeNameAccepted | Auth.MockLogin |
