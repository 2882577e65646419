/** The two role permissions of the Django REST views. */
module UserPermissions {
  import opened Wrappers
  import opened PyValues
  import opened UserModels

  /** `request.user`: the anonymous user, or a signed-in `CustomUser`
      (whose `is_authenticated` is always true). */
  datatype RequestUser = AnonymousUser | Authenticated(user: CustomUser)

  /** `IsFaculty.has_permission`. */
  function IsFaculty(u: RequestUser): (granted: bool)
    ensures granted <==> u.Authenticated? && RoleOf(RoleField(u.user)) == Some(FACULTY)
  {
    u.Authenticated? && RoleField(u.user) == PyStr("FACULTY")
  }

  /** `IsStudent.has_permission`. */
  function IsStudent(u: RequestUser): (granted: bool)
    ensures granted <==> u.Authenticated? && RoleOf(RoleField(u.user)) == Some(STUDENT)
  {
    u.Authenticated? && RoleField(u.user) == PyStr("STUDENT")
  }

  /** The anonymous user is refused by both; nobody is granted both; an
      admin is granted neither. */
  lemma PermissionsExclusive(u: RequestUser)
    ensures u.AnonymousUser? ==> !IsFaculty(u) && !IsStudent(u)
    ensures !(IsFaculty(u) && IsStudent(u))
    ensures u.Authenticated? && RoleOf(RoleField(u.user)) == Some(ADMIN) ==> !IsFaculty(u) && !IsStudent(u)
  {
  }
}
