/** The user serializers: the registration serializer that accepts
    `password_1` for `password1` and fills `password2` itself, and the
    user serializer's field list and role-based profile data. */
module UserSerializers {
  import opened Wrappers
  import opened PyValues
  import opened UserModels

  const PASSWORD_1 := "password_1"
  const PASSWORD1 := "password1"
  const PASSWORD2 := "password2"

  /** The payload after `if 'password_1' in data: data['password1'] =
      data.pop('password_1')`. */
  function RenamePassword(d: Dict): (r: Dict)
    ensures PASSWORD_1 !in r
    ensures PASSWORD_1 in d ==>
      && r.Keys == d.Keys - {PASSWORD_1} + {PASSWORD1}
      && r[PASSWORD1] == d[PASSWORD_1]
      && forall k :: k in d && k != PASSWORD_1 && k != PASSWORD1 ==> r[k] == d[k]
    ensures PASSWORD_1 !in d ==> r == d
  {
    if PASSWORD_1 in d then (d - {PASSWORD_1})[PASSWORD1 := d[PASSWORD_1]] else d
  }

  /** Renaming twice is renaming once, so `validate` repeating the rename
      after `to_internal_value` changes nothing more. */
  lemma RenameIdempotent(d: Dict)
    ensures RenamePassword(RenamePassword(d)) == RenamePassword(d)
  {
  }

  /** The payload after `data["password2"] = data.get("password1")`. */
  function WithPassword2(d: Dict): (r: Dict)
    ensures r.Keys == d.Keys + {PASSWORD2}
    ensures r[PASSWORD2] == GetOr(d, PASSWORD1, PyNone)
    ensures forall k :: k in d && k != PASSWORD2 ==> r[k] == d[k]
  {
    d[PASSWORD2 := GetOr(d, PASSWORD1, PyNone)]
  }

  /** After `validate` the confirmation always equals the password, under
      either spelling of the password key, and is `None` without one. */
  lemma ValidatedPasswordsMatch(d: Dict)
    ensures var v := WithPassword2(RenamePassword(d));
      && PASSWORD_1 !in v
      && (PASSWORD_1 in d ==> v[PASSWORD1] == d[PASSWORD_1] && v[PASSWORD2] == d[PASSWORD_1])
      && (PASSWORD_1 !in d && PASSWORD1 in d ==> v[PASSWORD1] == d[PASSWORD1] && v[PASSWORD2] == d[PASSWORD1])
      && (PASSWORD_1 !in d && PASSWORD1 !in d ==> v[PASSWORD2] == PyNone)
  {
  }

  /** The request payload dict, changed in place by the serializer. */
  class Payload {
    var entries: Dict

    constructor (d: Dict)
      ensures entries == d
    {
      entries := d;
    }
  }

  /** `CustomRegisterSerializer`; the checks of its parent serializer are
      not part of this model. */
  class CustomRegisterSerializer {
    /** The declared field names. */
    var fields: set<string>

    /** `__init__`: the parent's fields without `password2`, whether or not
        the parent declared it. */
    constructor (inherited: set<string>)
      ensures fields == inherited - {PASSWORD2}
      ensures PASSWORD2 !in fields
    {
      fields := inherited - {PASSWORD2};
    }

    /** `to_internal_value`: rename `password_1` in place; `handed` is what
        goes on to the parent's `to_internal_value`. */
    method ToInternalValue(data: Payload) returns (handed: Dict)
      modifies data
      ensures data.entries == RenamePassword(old(data.entries))
      ensures handed == data.entries
    {
      if PASSWORD_1 in data.entries {
        var value := data.entries[PASSWORD_1];
        data.entries := data.entries - {PASSWORD_1};
        data.entries := data.entries[PASSWORD1 := value];
      }
      handed := data.entries;
    }

    /** `validate`: the same rename, then `password2` copied from
        `password1`; `handed` goes on to the parent's `validate`. */
    method Validate(data: Payload) returns (handed: Dict)
      modifies data
      ensures data.entries == WithPassword2(RenamePassword(old(data.entries)))
      ensures handed == data.entries
    {
      if PASSWORD_1 in data.entries {
        var value := data.entries[PASSWORD_1];
        data.entries := data.entries - {PASSWORD_1};
        data.entries := data.entries[PASSWORD1 := value];
      }
      data.entries := data.entries[PASSWORD2 := GetOr(data.entries, PASSWORD1, PyNone)];
      handed := data.entries;
    }
  }

  /** `UserSerializer.Meta.fields` and the write-only ones among them. */
  const USER_FIELDS: seq<string> := ["id", "email", "password", "role", "profile_data", "kau_id"]
  const WRITE_ONLY: set<string> := {"password"}

  /** The fields that appear in the serialized output, in declared order. */
  function Readable(fields: seq<string>, writeOnly: set<string>): (r: seq<string>)
    ensures forall f :: f in r <==> f in fields && f !in writeOnly
    ensures |r| <= |fields|
  {
    if fields == [] then []
    else if fields[0] in writeOnly then Readable(fields[1..], writeOnly)
    else [fields[0]] + Readable(fields[1..], writeOnly)
  }

  /** The password is accepted on input but never shown; every other
      declared field is. */
  lemma PasswordIsWriteOnly()
    ensures "password" in USER_FIELDS && "password" !in Readable(USER_FIELDS, WRITE_ONLY)
    ensures forall f :: f in USER_FIELDS && f != "password" ==> f in Readable(USER_FIELDS, WRITE_ONLY)
  {
    assert USER_FIELDS[2] == "password";
  }

  /** The nested profile data: both profile serializers declare no fields,
      so either renders as an empty object. */
  datatype ProfileData = StudentProfileData | FacultyProfileData

  /** `get_profile_data` as intended: student data for a student with a
      student profile, faculty data for a faculty member with a faculty
      profile, `None` otherwise. */
  function GetProfileData(obj: CustomUser, hasStudentProfile: bool, hasFacultyProfile: bool): (r: Option<ProfileData>)
    ensures r == Some(StudentProfileData) <==> RoleOf(RoleField(obj)) == Some(STUDENT) && hasStudentProfile
    ensures r == Some(FacultyProfileData) <==> RoleOf(RoleField(obj)) == Some(FACULTY) && hasFacultyProfile
    ensures RoleOf(RoleField(obj)) !in {Some(STUDENT), Some(FACULTY)} ==> r == None
  {
    if RoleField(obj) == PyStr(Value(STUDENT)) && hasStudentProfile then Some(StudentProfileData)
    else if RoleField(obj) == PyStr(Value(FACULTY)) && hasFacultyProfile then Some(FacultyProfileData)
    else None
  }

  /** A user just created through the manager is shown with the profile
      data of its role. */
  lemma NewUserProfileData(t: Tables, u: CustomUser)
    requires RoleOf(RoleField(u)) in {Some(STUDENT), Some(FACULTY)}
    ensures var p := ProfilesAfterSave(t.profiles, u, true);
      GetProfileData(u, u.id in p.students, u.id in p.faculty)
        == if RoleOf(RoleField(u)) == Some(STUDENT) then Some(StudentProfileData) else Some(FacultyProfileData)
  {
    ProfileDispatch(t.profiles, u, true);
  }

  /** The names class `CustomUser` resolves as attributes: those its body
      binds, the model fields and helpers of Django's `AbstractUser`, the
      reverse one-to-one accessors of the two profiles, and the names Django
      adds to every model. The role enumeration is bound at module level,
      so `Roles` is not among them. */
  const CUSTOM_USER_ATTRIBUTES: set<string> := {
    "kau_id", "username", "email", "role", "USERNAME_FIELD", "REQUIRED_FIELDS", "objects", "__str__",
    "first_name", "last_name", "is_staff", "is_active", "date_joined", "EMAIL_FIELD", "password",
    "last_login", "is_superuser", "groups", "user_permissions", "clean", "get_full_name",
    "get_short_name", "email_user", "get_role_display", "student_profile", "faculty_profile",
    "id", "pk", "DoesNotExist", "MultipleObjectsReturned"
  }

  /** `get_profile_data` as written: the first condition reads
      `CustomUser.Roles`, an attribute lookup on the class. */
  function GetProfileDataAsWritten(obj: CustomUser, hasStudentProfile: bool, hasFacultyProfile: bool): Result<Option<ProfileData>, PyError>
  {
    if "Roles" in CUSTOM_USER_ATTRIBUTES then Success(GetProfileData(obj, hasStudentProfile, hasFacultyProfile))
    else Failure(AttributeError)
  }

  /** As written, every call raises `AttributeError`, even for a student
      who has a student profile and should get its data. */
  lemma ProfileDataAsWrittenRaises(obj: CustomUser, hasStudentProfile: bool, hasFacultyProfile: bool)
    ensures GetProfileDataAsWritten(obj, hasStudentProfile, hasFacultyProfile) == Failure(AttributeError)
    ensures RoleOf(RoleField(obj)) == Some(STUDENT) && hasStudentProfile ==>
      GetProfileData(obj, hasStudentProfile, hasFacultyProfile) == Some(StudentProfileData)
  {
  }
}
