/**
 * The patients store: the patient list, the patient opened in the details
 * view, the medical records partitioned by patient id, a loading flag and the
 * search text. Each action is one atomic state change; the clock and the
 * millisecond ids it reads are passed in as `now` and `freshId`.
 */
module Patients {
  import opened Types
  import opened Collections
  import opened Fixtures

  /** `patients.find(p => p.id === id) || null`: the first patient with that id. */
  function FindById(ps: seq<Patient>, id: string): (r: Option<Patient>)
    ensures r.None? <==> forall p :: p in ps ==> p.id != id
    ensures r.Some? ==> r.value in ps && r.value.id == id
  {
    if ps == [] then None
    else if ps[0].id == id then Some(ps[0])
    else
      assert forall p :: p in ps ==> p == ps[0] || p in ps[1..];
      FindById(ps[1..], id)
  }

  /** The patient found is the first one that carries the id. */
  lemma {:induction false} FindByIdFirst(ps: seq<Patient>, id: string)
    requires FindById(ps, id).Some?
    ensures exists i :: 0 <= i < |ps| && ps[i] == FindById(ps, id).value &&
                        forall j :: 0 <= j < i ==> ps[j].id != id
  {
    if ps[0].id != id {
      FindByIdFirst(ps[1..], id);
      var i :| 0 <= i < |ps[1..]| && ps[1..][i] == FindById(ps[1..], id).value &&
               forall j :: 0 <= j < i ==> ps[1..][j].id != id;
      assert ps[i + 1] == FindById(ps, id).value;
      assert forall j :: 1 <= j < i + 1 ==> ps[j].id == ps[1..][j - 1].id;
    } else {
      assert ps[0] == FindById(ps, id).value;
    }
  }

  /** The fields of a patient that its creator supplies. */
  function DraftOf(p: Patient): PatientDraft {
    PatientDraft(p.firstName, p.lastName, p.gender, p.phone, p.email, p.dateOfBirth,
                 p.address, p.emergencyContact, p.emergencyPhone, p.notes)
  }

  /** `{ ...draft, id, createdAt: now, updatedAt: now }`. */
  function NewPatient(d: PatientDraft, id: string, now: string): (p: Patient)
    ensures p.id == id && p.createdAt == now && p.updatedAt == now
    ensures DraftOf(p) == d
  {
    Patient(id, d.firstName, d.lastName, d.gender, d.phone, d.email, d.dateOfBirth,
            d.address, d.emergencyContact, d.emergencyPhone, d.notes, now, now)
  }

  /** The list after `updatePatient(id, d)`: every entry with that id merged, the rest as they were. */
  function UpdatePatients(ps: seq<Patient>, id: string, d: PatientPatch, now: string): (r: seq<Patient>)
    ensures |r| == |ps|
    ensures forall i :: 0 <= i < |ps| && ps[i].id == id ==> r[i] == MergePatient(ps[i], d, now)
    ensures forall i :: 0 <= i < |ps| && ps[i].id != id ==> r[i] == ps[i]
  {
    MapWhere(ps, (p: Patient) => p.id == id, (p: Patient) => MergePatient(p, d, now))
  }

  /** The list after `deletePatient(id)`: the entries with another id, in their order. */
  function RemovePatients(ps: seq<Patient>, id: string): (r: seq<Patient>)
    ensures forall p :: p in r <==> p in ps && p.id != id
    ensures forall p :: multiset(r)[p] == if p.id != id then multiset(ps)[p] else 0
    ensures IsSubsequence(r, ps)
  {
    FilterIsSubsequence(ps, (p: Patient) => p.id != id);
    FilterCount(ps, (p: Patient) => p.id != id);
    Filter(ps, (p: Patient) => p.id != id)
  }

  /** `medicalRecords[patientId] || []`. */
  function RecordsOf(m: map<string, seq<MedicalRecord>>, patientId: string): seq<MedicalRecord> {
    if patientId in m then m[patientId] else []
  }

  /** The error a store action raises when it spreads a value that is not an array. */
  datatype StoreError = NotIterable

  /**
   * The partitions after `addMedicalRecord` appends `r` under `patientId`, or
   * the error its spread of `medicalRecords[patientId] || []` raises: without
   * an own partition under one of the prototype names, the lookup yields a
   * truthy value that is not an array.
   */
  function AppendRecord(m: map<string, seq<MedicalRecord>>, patientId: string, r: MedicalRecord)
    : (res: Result<map<string, seq<MedicalRecord>>, StoreError>)
    ensures res.Failure? <==> patientId !in m && patientId in ObjectPrototypeNames
    ensures res.Failure? ==> res.error == NotIterable
    ensures res.Success? ==> res.value.Keys == m.Keys + {patientId}
    ensures res.Success? ==> RecordsOf(res.value, patientId) == RecordsOf(m, patientId) + [r]
    ensures res.Success? ==> forall k :: k != patientId ==> RecordsOf(res.value, k) == RecordsOf(m, k)
  {
    if patientId !in m && patientId in ObjectPrototypeNames then Failure(NotIterable)
    else Success(m[patientId := RecordsOf(m, patientId) + [r]])
  }

  /** The fields of a record that its creator supplies. */
  function RecordDraftOf(r: MedicalRecord): RecordDraft {
    RecordDraft(r.authorId, r.recordType, r.title, r.description, r.prescription, r.attachments)
  }

  /**
   * `{ ...draft, id, patientId, author: <doctor 2>, createdAt: now, updatedAt: now }`:
   * the author snapshot is always the fixture doctor, whatever `authorId` says.
   */
  function NewRecord(patientId: string, d: RecordDraft, id: string, now: string): (r: MedicalRecord)
    ensures r.id == id && r.patientId == patientId
    ensures r.author == MockDoctor && r.author.id == "2"
    ensures r.createdAt == now && r.updatedAt == now
    ensures RecordDraftOf(r) == d
  {
    MedicalRecord(id, patientId, d.authorId, MockDoctor, d.recordType, d.title, d.description,
                  d.prescription, d.attachments, now, now)
  }

  /** Every record sits in the partition of its own patient. */
  predicate PartitionsConsistent(m: map<string, seq<MedicalRecord>>) {
    forall k :: k in m ==> forall r :: r in m[k] ==> r.patientId == k
  }

  class PatientsStore {
    var patients: seq<Patient>
    var currentPatient: Option<Patient>
    var medicalRecords: map<string, seq<MedicalRecord>>
    var isLoading: bool
    var searchQuery: string

    ghost predicate Valid()
      reads this
    {
      PartitionsConsistent(medicalRecords)
    }

    constructor ()
      ensures Valid()
      ensures patients == [] && currentPatient == None && medicalRecords == map[]
      ensures !isLoading && searchQuery == ""
    {
      patients := [];
      currentPatient := None;
      medicalRecords := map[];
      isLoading := false;
      searchQuery := "";
    }

    /** `fetchPatients`: the list becomes the fixture and loading ends. */
    method FetchPatients()
      requires Valid()
      modifies this
      ensures Valid()
      ensures patients == MockPatients && !isLoading
      ensures currentPatient == old(currentPatient) && medicalRecords == old(medicalRecords)
      ensures searchQuery == old(searchQuery)
    {
      isLoading := true;
      patients := MockPatients;
      isLoading := false;
    }

    /** `fetchPatient(id)`: looks the id up in the fixture, not in the current list. */
    method FetchPatient(id: string)
      requires Valid()
      modifies this
      ensures Valid()
      ensures currentPatient == FindById(MockPatients, id) && !isLoading
      ensures patients == old(patients) && medicalRecords == old(medicalRecords)
      ensures searchQuery == old(searchQuery)
    {
      isLoading := true;
      currentPatient := FindById(MockPatients, id);
      isLoading := false;
    }

    /** `fetchMedicalRecords(pid)`: partition `pid` becomes the one fixture record; no other partition moves. */
    method FetchMedicalRecords(patientId: string)
      requires Valid()
      modifies this
      ensures Valid()
      ensures medicalRecords == old(medicalRecords)[patientId := [FetchedRecord(patientId)]]
      ensures forall k :: k != patientId ==> RecordsOf(medicalRecords, k) == RecordsOf(old(medicalRecords), k)
      ensures patients == old(patients) && currentPatient == old(currentPatient)
      ensures isLoading == old(isLoading) && searchQuery == old(searchQuery)
    {
      medicalRecords := medicalRecords[patientId := [FetchedRecord(patientId)]];
    }

    /** `addPatient(d)`: appends one new patient at the end. */
    method AddPatient(d: PatientDraft, freshId: string, now: string)
      requires Valid()
      modifies this
      ensures Valid()
      ensures patients == old(patients) + [NewPatient(d, freshId, now)]
      ensures currentPatient == old(currentPatient) && medicalRecords == old(medicalRecords)
      ensures isLoading == old(isLoading) && searchQuery == old(searchQuery)
    {
      patients := patients + [NewPatient(d, freshId, now)];
    }

    /** `updatePatient(id, d)`: merges `d` into every matching entry and into the open patient if it matches. */
    method UpdatePatient(id: string, d: PatientPatch, now: string)
      requires Valid()
      modifies this
      ensures Valid()
      ensures patients == UpdatePatients(old(patients), id, d, now)
      ensures currentPatient == if old(currentPatient).Some? && old(currentPatient).value.id == id
                                then Some(MergePatient(old(currentPatient).value, d, now))
                                else old(currentPatient)
      ensures medicalRecords == old(medicalRecords)
      ensures isLoading == old(isLoading) && searchQuery == old(searchQuery)
    {
      patients := UpdatePatients(patients, id, d, now);
      if currentPatient.Some? && currentPatient.value.id == id {
        currentPatient := Some(MergePatient(currentPatient.value, d, now));
      }
    }

    /** `deletePatient(id)`: drops every entry with that id; the records of that patient stay. */
    method DeletePatient(id: string)
      requires Valid()
      modifies this
      ensures Valid()
      ensures patients == RemovePatients(old(patients), id)
      ensures medicalRecords == old(medicalRecords)
      ensures currentPatient == old(currentPatient)
      ensures isLoading == old(isLoading) && searchQuery == old(searchQuery)
    {
      patients := RemovePatients(patients, id);
    }

    /** `addMedicalRecord(pid, d)`: appends one record to partition `pid`, creating it if missing. */
    method AddMedicalRecord(patientId: string, d: RecordDraft, freshId: string, now: string)
      returns (outcome: Outcome<StoreError>)
      requires Valid()
      modifies this
      ensures Valid()
      ensures var res := AppendRecord(old(medicalRecords), patientId, NewRecord(patientId, d, freshId, now));
        && (res.Success? ==> outcome == Pass && medicalRecords == res.value)
        && (res.Failure? ==> outcome == Fail(res.error) && medicalRecords == old(medicalRecords))
      ensures patients == old(patients) && currentPatient == old(currentPatient)
      ensures isLoading == old(isLoading) && searchQuery == old(searchQuery)
    {
      var res := AppendRecord(medicalRecords, patientId, NewRecord(patientId, d, freshId, now));
      if res.Success? {
        AddRecordKeepsPartitions(medicalRecords, patientId, d, freshId, now);
        medicalRecords := res.value;
        outcome := Pass;
      } else {
        outcome := Fail(res.error);
      }
    }

    /** `setSearchQuery(q)`: sets the search text and nothing else. */
    method SetSearchQuery(q: string)
      requires Valid()
      modifies this`searchQuery
      ensures Valid()
      ensures searchQuery == q
    {
      searchQuery := q;
    }
  }

  /** Looking an id up in a list with one more patient at the end. */
  lemma {:induction false} FindByIdAppend(ps: seq<Patient>, x: Patient, id: string)
    ensures FindById(ps + [x], id) ==
            if FindById(ps, id).Some? then FindById(ps, id)
            else if x.id == id then Some(x) else None
  {
    if ps != [] {
      assert (ps + [x])[1..] == ps[1..] + [x];
      FindByIdAppend(ps[1..], x, id);
    }
  }

  /** A patient added under an unused id is found again under that id, with its draft and equal timestamps. */
  lemma AddThenFind(ps: seq<Patient>, d: PatientDraft, freshId: string, now: string)
    requires forall p :: p in ps ==> p.id != freshId
    ensures var found := FindById(ps + [NewPatient(d, freshId, now)], freshId);
      found.Some? && DraftOf(found.value) == d &&
      found.value.createdAt == found.value.updatedAt == now
  {
    FindByIdAppend(ps, NewPatient(d, freshId, now), freshId);
  }

  /** After a delete, no entry carries the id and every entry with another id survives. */
  lemma DeleteThenFind(ps: seq<Patient>, id: string)
    ensures FindById(RemovePatients(ps, id), id) == None
    ensures forall p :: p in ps && p.id != id ==> p in RemovePatients(ps, id)
    ensures |RemovePatients(ps, id)| <= |ps|
  {
    assert IsSubsequence(RemovePatients(ps, id), ps);
    SubsequenceLength(RemovePatients(ps, id), ps);
  }

  /** A subsequence is no longer than the sequence it is taken from. */
  lemma {:induction false} SubsequenceLength<T>(a: seq<T>, b: seq<T>)
    requires IsSubsequence(a, b)
    ensures |a| <= |b|
    decreases |b|
  {
    if a != [] {
      if a[0] == b[0] && IsSubsequence(a[1..], b[1..]) {
        SubsequenceLength(a[1..], b[1..]);
      } else {
        SubsequenceLength(a, b[1..]);
      }
    }
  }

  /**
   * An update that does not rename finds the first matching patient merged;
   * every entry keeps its id.
   */
  lemma {:induction false} UpdateThenFind(ps: seq<Patient>, id: string, d: PatientPatch, now: string)
    requires d.id.None?
    ensures var r := UpdatePatients(ps, id, d, now);
      forall i :: 0 <= i < |ps| ==> r[i].id == ps[i].id
    ensures FindById(UpdatePatients(ps, id, d, now), id) ==
            if FindById(ps, id).Some? then Some(MergePatient(FindById(ps, id).value, d, now)) else None
  {
    if ps != [] {
      var r := UpdatePatients(ps, id, d, now);
      assert r[1..] == UpdatePatients(ps[1..], id, d, now);
      UpdateThenFind(ps[1..], id, d, now);
    }
  }

  /** `fetchPatient` finds Maria under "2" and nobody under "4". */
  lemma FetchPatientFixture()
    ensures FindById(MockPatients, "2") == Some(MockPatients[1])
    ensures FindById(MockPatients, "4") == None
  {
    assert MockPatients[0].id == "1";
  }

  /** Fetching or adding records keeps every record in its own patient's partition. */
  lemma AddRecordKeepsPartitions(m: map<string, seq<MedicalRecord>>, patientId: string, d: RecordDraft,
                                 freshId: string, now: string)
    requires PartitionsConsistent(m)
    ensures var res := AppendRecord(m, patientId, NewRecord(patientId, d, freshId, now));
      res.Success? ==> PartitionsConsistent(res.value)
    ensures PartitionsConsistent(m[patientId := [FetchedRecord(patientId)]])
  {
  }

  /** Once a patient's partition exists, for instance after a fetch, appending to it cannot fail. */
  lemma AppendAfterFetch(m: map<string, seq<MedicalRecord>>, patientId: string, r: MedicalRecord)
    ensures AppendRecord(m[patientId := [FetchedRecord(patientId)]], patientId, r) ==
            Success(m[patientId := [FetchedRecord(patientId), r]])
  {
    var fetched := m[patientId := [FetchedRecord(patientId)]];
    assert RecordsOf(fetched, patientId) + [r] == [FetchedRecord(patientId), r];
    assert fetched[patientId := [FetchedRecord(patientId), r]] == m[patientId := [FetchedRecord(patientId), r]];
  }
}
