/** The user models of the Django server: the role enumeration, the user
    record with its two unique columns, the two profile tables, and the
    post-save rule that gives a new student or faculty member a profile. */
module UserModels {
  import opened Wrappers
  import opened PyValues

  /** `Roles`, a text-choices enumeration stored in `role`. */
  datatype Role = STUDENT | FACULTY | ADMIN

  const ROLES: seq<Role> := [STUDENT, FACULTY, ADMIN]

  /** `max_length` of the `role` column. */
  const ROLE_MAX_LENGTH := 10

  /** The stored value of a role. */
  function Value(r: Role): string
  {
    match r
    case STUDENT => "STUDENT"
    case FACULTY => "FACULTY"
    case ADMIN => "ADMIN"
  }

  /** The human-readable label of a role. */
  function Label(r: Role): string
  {
    match r
    case STUDENT => "Student"
    case FACULTY => "Faculty"
    case ADMIN => "Admin"
  }

  /** The role a stored value stands for; a choice member compares equal to
      its value string, so a role is recognised exactly by that string. */
  function RoleOf(v: PyValue): (r: Option<Role>)
    ensures r.Some? ==> v == PyStr(Value(r.value))
    ensures r.None? ==> forall role: Role :: v != PyStr(Value(role))
  {
    if v == PyStr("STUDENT") then Some(STUDENT)
    else if v == PyStr("FACULTY") then Some(FACULTY)
    else if v == PyStr("ADMIN") then Some(ADMIN)
    else None
  }

  /** The enumeration has exactly three members with distinct values, all
      within the column's length. */
  lemma ExactlyThreeRoles()
    ensures |ROLES| == 3 && forall r: Role :: r in ROLES
    ensures forall i, j :: 0 <= i < j < |ROLES| ==> Value(ROLES[i]) != Value(ROLES[j]) && Label(ROLES[i]) != Label(ROLES[j])
    ensures forall r: Role :: |Value(r)| <= ROLE_MAX_LENGTH && RoleOf(PyStr(Value(r))) == Some(r)
  {
    forall r: Role
      ensures r in ROLES
    {
      match r {
        case STUDENT => assert ROLES[0] == r;
        case FACULTY => assert ROLES[1] == r;
        case ADMIN => assert ROLES[2] == r;
      }
    }
  }

  /** A saved `CustomUser` row: its primary key, the two columns the
      manager sets by name, and every other field passed as a keyword. */
  datatype CustomUser = CustomUser(id: nat, email: string, username: string, kauId: Option<int>, fields: Dict)

  /** The `role` column: the value given at creation, the empty string (a
      character field's default) otherwise. */
  function RoleField(u: CustomUser): PyValue
  {
    GetOr(u.fields, "role", PyStr(""))
  }

  /** Some row already holds this email. */
  predicate EmailTaken(users: seq<CustomUser>, email: string)
  {
    exists i :: 0 <= i < |users| && users[i].email == email
  }

  /** Some row already holds this (non-null) `kau_id`; null never clashes. */
  predicate KauIdTaken(users: seq<CustomUser>, kauId: Option<int>)
  {
    kauId.Some? && exists i :: 0 <= i < |users| && users[i].kauId == kauId
  }

  /** `email` is unique; `kau_id` is unique among non-null values. */
  predicate UniqueColumns(users: seq<CustomUser>)
  {
    && (forall i, j :: 0 <= i < j < |users| ==> users[i].email != users[j].email)
    && (forall i, j :: 0 <= i < j < |users| && users[i].kauId.Some? ==> users[i].kauId != users[j].kauId)
  }

  predicate NoDuplicates(s: seq<nat>)
  {
    forall i, j :: 0 <= i < j < |s| ==> s[i] != s[j]
  }

  /** `get_or_create(user=...)` on a profile table whose rows are the ids of
      their users. */
  function GetOrCreate(rows: seq<nat>, id: nat): (r: seq<nat>)
    ensures id in r
    ensures forall x :: x in r <==> x in rows || x == id
    ensures NoDuplicates(rows) ==> NoDuplicates(r)
    ensures id in rows ==> r == rows
  {
    if id in rows then rows else rows + [id]
  }

  /** The two profile tables. */
  datatype Profiles = Profiles(students: seq<nat>, faculty: seq<nat>)

  /** The profile tables after the post-save signal for `instance`. */
  function ProfilesAfterSave(p: Profiles, instance: CustomUser, created: bool): Profiles
  {
    if !created then p
    else if RoleField(instance) == PyStr(Value(STUDENT)) then p.(students := GetOrCreate(p.students, instance.id))
    else if RoleField(instance) == PyStr(Value(FACULTY)) then p.(faculty := GetOrCreate(p.faculty, instance.id))
    else p
  }

  /** An update leaves both tables alone; a new student gets a student
      profile and no faculty profile, a new faculty member the reverse; an
      admin, or a user with any other role, gets none. */
  lemma ProfileDispatch(p: Profiles, instance: CustomUser, created: bool)
    ensures !created ==> ProfilesAfterSave(p, instance, created) == p
    ensures created && RoleOf(RoleField(instance)) == Some(STUDENT) ==>
      && instance.id in ProfilesAfterSave(p, instance, created).students
      && ProfilesAfterSave(p, instance, created).faculty == p.faculty
    ensures created && RoleOf(RoleField(instance)) == Some(FACULTY) ==>
      && instance.id in ProfilesAfterSave(p, instance, created).faculty
      && ProfilesAfterSave(p, instance, created).students == p.students
    ensures RoleOf(RoleField(instance)) !in {Some(STUDENT), Some(FACULTY)} ==> ProfilesAfterSave(p, instance, created) == p
  {
  }

  /** Running the signal again for the same user changes nothing, and no
      user ever has two profiles of one kind. */
  lemma ProfileStepIdempotent(p: Profiles, instance: CustomUser, created: bool)
    requires NoDuplicates(p.students) && NoDuplicates(p.faculty)
    ensures ProfilesAfterSave(ProfilesAfterSave(p, instance, created), instance, created) == ProfilesAfterSave(p, instance, created)
    ensures NoDuplicates(ProfilesAfterSave(p, instance, created).students)
    ensures NoDuplicates(ProfilesAfterSave(p, instance, created).faculty)
  {
  }

  /** The user table with the two profile tables. */
  datatype Tables = Tables(users: seq<CustomUser>, profiles: Profiles)

  /** `save()` of a new user: the unique columns refuse a taken email or a
      taken non-null `kau_id` and nothing changes; otherwise the row gets
      the next key and the post-save signal runs with `created` set. */
  function SaveNew(t: Tables, email: string, username: string, kauId: Option<int>, fields: Dict): (out: (Result<CustomUser, PyError>, Tables))
    ensures out.0.Failure? <==> EmailTaken(t.users, email) || KauIdTaken(t.users, kauId)
    ensures out.0.Failure? ==> out.0.error == IntegrityError && out.1 == t
    ensures out.0.Success? ==>
      && out.1.users == t.users + [out.0.value]
      && out.0.value == CustomUser(|t.users|, email, username, kauId, fields)
      && out.1.profiles == ProfilesAfterSave(t.profiles, out.0.value, true)
    ensures UniqueColumns(t.users) ==> UniqueColumns(out.1.users)
  {
    if EmailTaken(t.users, email) || KauIdTaken(t.users, kauId) then (Failure(IntegrityError), t)
    else
      var u := CustomUser(|t.users|, email, username, kauId, fields);
      (Success(u), Tables(t.users + [u], ProfilesAfterSave(t.profiles, u, true)))
  }

  /** Saving a second user with the email of a saved one fails, and so does
      one with a saved user's non-null `kau_id`; two users without a
      `kau_id` can both be saved. */
  lemma UniqueEmailAndKauId(t: Tables, u: CustomUser, email: string, username: string, kauId: Option<int>, fields: Dict)
    requires u in t.users
    ensures SaveNew(t, u.email, username, kauId, fields).0 == Failure(IntegrityError)
    ensures u.kauId.Some? ==> SaveNew(t, email, username, u.kauId, fields).0 == Failure(IntegrityError)
  {
    var i :| 0 <= i < |t.users| && t.users[i] == u;
    assert t.users[i].email == u.email;
    assert u.kauId.Some? ==> t.users[i].kauId == u.kauId;
  }

  lemma NullKauIdsNeverClash(t: Tables, email: string, username: string, fields: Dict)
    requires !EmailTaken(t.users, email)
    ensures SaveNew(t, email, username, None, fields).0.Success?
  {
  }

  /** The user table and the two profile tables, updated in place. */
  class UserDatabase {
    var users: seq<CustomUser>
    var studentProfiles: seq<nat>
    var facultyProfiles: seq<nat>

    /** Rows are numbered from 0, the unique columns hold, and every profile
        row belongs to one existing user. */
    ghost predicate Valid()
      reads this
    {
      && (forall i :: 0 <= i < |users| ==> users[i].id == i)
      && UniqueColumns(users)
      && NoDuplicates(studentProfiles) && NoDuplicates(facultyProfiles)
      && (forall id :: id in studentProfiles ==> id < |users|)
      && (forall id :: id in facultyProfiles ==> id < |users|)
    }

    function Contents(): Tables
      reads this
    {
      Tables(users, Profiles(studentProfiles, facultyProfiles))
    }

    constructor ()
      ensures Valid()
      ensures Contents() == Tables([], Profiles([], []))
    {
      users := [];
      studentProfiles := [];
      facultyProfiles := [];
    }

    /** `create_user_profile`, the post-save receiver. */
    method CreateUserProfile(instance: CustomUser, created: bool)
      requires Valid() && instance.id < |users|
      modifies this`studentProfiles, this`facultyProfiles
      ensures Valid()
      ensures Contents().profiles == ProfilesAfterSave(old(Contents()).profiles, instance, created)
    {
      if created {
        if RoleField(instance) == PyStr(Value(STUDENT)) {
          if instance.id !in studentProfiles {
            studentProfiles := studentProfiles + [instance.id];
          }
        } else if RoleField(instance) == PyStr(Value(FACULTY)) {
          if instance.id !in facultyProfiles {
            facultyProfiles := facultyProfiles + [instance.id];
          }
        }
      }
    }

    /** `save()` of a new user, with its post-save signal. */
    method Insert(email: string, username: string, kauId: Option<int>, fields: Dict) returns (r: Result<CustomUser, PyError>)
      requires Valid()
      modifies this
      ensures Valid()
      ensures (r, Contents()) == SaveNew(old(Contents()), email, username, kauId, fields)
    {
      if EmailTaken(users, email) || KauIdTaken(users, kauId) {
        return Failure(IntegrityError);
      }
      var u := CustomUser(|users|, email, username, kauId, fields);
      users := users + [u];
      CreateUserProfile(u, true);
      r := Success(u);
    }
  }
}
