/**
 * The decisions the appointments list view makes: who may edit or delete,
 * which status actions an appointment offers, and what clicking one does.
 */
module AppointmentsList {
  import opened Types
  import opened Appointments

  /** `canEdit`: the role is "admin" or "reception". */
  predicate CanEdit(user: Option<User>) {
    user.Some? && (user.value.role == "admin" || user.value.role == "reception")
  }

  /** `canDelete`: the role is "admin". */
  predicate CanDelete(user: Option<User>) {
    user.Some? && user.value.role == "admin"
  }

  /** Whoever may delete may also edit. */
  lemma CanDeleteImpliesCanEdit(user: Option<User>)
    ensures CanDelete(user) ==> CanEdit(user)
  {
  }

  /**
   * "reception" is not a declared role, so among users with a declared role
   * only the admin may edit, and only the admin may delete.
   */
  lemma DeclaredRolesEdit(u: User)
    requires WellTypedUser(u)
    ensures CanEdit(Some(u)) <==> ParseRole(u.role) == Some(Admin)
    ensures CanDelete(Some(u)) <==> CanEdit(Some(u))
  {
  }

  /**
   * The status actions an appointment offers, Complete then Cancel: both when
   * it is scheduled, none otherwise.
   */
  function OfferedActions(a: Appointment): (r: seq<Status>)
    ensures r != [] <==> a.status == Scheduled
    ensures a.status == Scheduled ==> r == [Completed, Canceled]
    ensures forall s :: s in r ==> s == Completed || s == Canceled
    ensures NoShow !in r
  {
    if a.status == Scheduled then [Completed, Canceled] else []
  }

  /** `handleStatusUpdate(id, s)`: an update whose partial carries only the status. */
  method HandleStatusUpdate(store: AppointmentsStore, id: string, s: Status, now: string)
    modifies store
    ensures store.appointments == UpdateAppointments(old(store.appointments), id, StatusPatch(s), now)
    ensures store.isLoading == old(store.isLoading)
  {
    store.UpdateAppointment(id, StatusPatch(s), now);
  }

  /**
   * Clicking an offered action on an appointment sets the status of every
   * entry with its id to Completed or Canceled, refreshes `updatedAt`, and
   * touches nothing else; in particular the view never produces `no-show`.
   */
  lemma StatusActionEffect(list: seq<Appointment>, a: Appointment, s: Status, now: string)
    requires s in OfferedActions(a)
    ensures var r := UpdateAppointments(list, a.id, StatusPatch(s), now);
      && |r| == |list|
      && a.status == Scheduled
      && (forall i :: 0 <= i < |list| && list[i].id == a.id ==>
            r[i] == list[i].(status := s, updatedAt := now) && r[i].status != NoShow)
      && (forall i :: 0 <= i < |list| && list[i].id != a.id ==> r[i] == list[i])
  {
    var r := UpdateAppointments(list, a.id, StatusPatch(s), now);
    forall i | 0 <= i < |list| && list[i].id == a.id
      ensures r[i] == list[i].(status := s, updatedAt := now)
    {
      MergeStatusOnly(list[i], s, now);
    }
  }
}
