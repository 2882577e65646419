/** `CustomUserManager`: the checks `create_user` makes before saving a
    user, the email normalisation and username default it applies, and the
    defaults `create_superuser` adds. */
module UserManagers {
  import opened Wrappers
  import opened PyValues
  import opened UserModels

  const EMAIL_REQUIRED := "The Email must be set"
  const KAU_ID_REQUIRED := "The Kau_ID must be set"

  /** The names `create_user` binds itself, which its `**extra_fields` can
      therefore never hold. */
  const CREATE_USER_PARAMS: set<string> := {"self", "email", "password", "kau_id", "username"}

  /** The names `create_superuser` binds itself. */
  const CREATE_SUPERUSER_PARAMS: set<string> := {"self", "email", "password", "username"}

  /** `not s` is false: the string is given and non-empty. */
  predicate Given(s: Option<string>)
  {
    s.Some? && s.value != ""
  }

  /** `not kau_id` is false: the id is given and not 0. */
  predicate KauIdGiven(k: Option<int>)
  {
    k.Some? && k.value != 0
  }

  /** The characters `str.strip()` removes: those `str.isspace()` holds
      for, which include the ASCII separators U+001C to U+001F. */
  predicate IsSpace(c: char)
  {
    || '\t' <= c <= '\r'
    || '\U{1C}' <= c <= ' '
    || c == '\U{85}' || c == '\U{A0}' || c == '\U{1680}'
    || '\U{2000}' <= c <= '\U{200A}'
    || c == '\U{2028}' || c == '\U{2029}' || c == '\U{202F}' || c == '\U{205F}' || c == '\U{3000}'
  }

  function TrimStart(s: string): (r: string)
    ensures |r| <= |s| && r == s[|s| - |r|..]
    ensures r == [] || !IsSpace(r[0])
  {
    if s != [] && IsSpace(s[0]) then TrimStart(s[1..]) else s
  }

  function TrimEnd(s: string): (r: string)
    ensures |r| <= |s| && r == s[..|r|]
    ensures r == [] || !IsSpace(r[|r| - 1])
  {
    if s != [] && IsSpace(s[|s| - 1]) then TrimEnd(s[..|s| - 1]) else s
  }

  /** `s.strip()`. */
  function Strip(s: string): string
  {
    TrimEnd(TrimStart(s))
  }

  function LowerChar(c: char): char
  {
    if 'A' <= c <= 'Z' then (c as int + 32) as char else c
  }

  /** `s.lower()` on ASCII letters. */
  function LowerAscii(s: string): (r: string)
    ensures |r| == |s|
    ensures forall i :: 0 <= i < |s| ==> r[i] == LowerChar(s[i])
  {
    if s == [] then [] else [LowerChar(s[0])] + LowerAscii(s[1..])
  }

  /** The index of the last '@', where `rsplit("@", 1)` cuts. */
  function LastAt(s: string): (r: Option<nat>)
    ensures r.Some? ==> r.value < |s| && s[r.value] == '@' && forall i :: r.value < i < |s| ==> s[i] != '@'
    ensures r.None? <==> '@' !in s
  {
    if s == [] then None
    else if s[|s| - 1] == '@' then Some(|s| - 1)
    else
      assert s == s[..|s| - 1] + [s[|s| - 1]];
      LastAt(s[..|s| - 1])
  }

  /** `s.split("@")[0]`: everything before the first '@'. */
  function BeforeFirstAt(s: string): (r: string)
    ensures |r| <= |s| && '@' !in r && r == s[..|r|]
    ensures |r| < |s| ==> s[|r|] == '@'
  {
    if s == [] || s[0] == '@' then []
    else
      var rest := BeforeFirstAt(s[1..]);
      assert s[..|rest| + 1] == [s[0]] + s[1..][..|rest|];
      [s[0]] + rest
  }

  /** `normalize_email` of Django's `BaseUserManager`: split the stripped
      address at its last '@' and lowercase the domain part; an address
      without '@' is returned as given. */
  function NormalizeEmail(email: string): string
  {
    var t := Strip(email);
    match LastAt(t)
    case None => email
    case Some(k) => t[..k] + "@" + LowerAscii(t[k + 1..])
  }

  /** A leading information separator is whitespace to `strip()`. */
  lemma StripDropsSeparator()
    ensures Strip("\U{1F}a@B") == "a@B"
  {
    var e: string := "\U{1F}a@B";
    assert IsSpace(e[0]) && e[1..] == "a@B";
    TrimKeeps("a@B");
  }

  /** Helper of `StripDropsSeparator`: a string with no outer whitespace
      is left as it is by both trims. */
  lemma TrimKeeps(t: string)
    requires t != [] && !IsSpace(t[0]) && !IsSpace(t[|t| - 1])
    ensures TrimStart(t) == t && TrimEnd(t) == t
  {
  }

  /** So normalising drops it along with the domain's case. */
  lemma NormalizeStripsSeparators()
    ensures NormalizeEmail("\U{1F}a@B") == "a@b"
  {
    StripDropsSeparator();
    var t: string := "a@B";
    assert t[..2] == "a@";
    assert LastAt("a@") == Some(1);
    assert LastAt(t) == Some(1);
    assert LowerAscii("B") == "b";
    assert t[..1] == "a" && t[2..] == "B";
  }

  /** Re-joining an address at an '@' with the part after it lowercased
      keeps everything up to that '@' and lowers each letter after it. */
  lemma LowerAfterAt(t: string, k: nat)
    requires k < |t| && t[k] == '@'
    ensures var r := t[..k] + "@" + LowerAscii(t[k + 1..]);
      && |r| == |t|
      && forall i :: 0 <= i < |t| ==> (i <= k ==> r[i] == t[i]) && (i > k ==> r[i] == LowerChar(t[i]))
  {
    var a, l := t[..k], LowerAscii(t[k + 1..]);
    var r := a + "@" + l;
    forall i | 0 <= i < |t|
      ensures (i <= k ==> r[i] == t[i]) && (i > k ==> r[i] == LowerChar(t[i]))
    {
      if i < k {
        assert r[i] == a[i];
      } else if i > k {
        assert r[i] == l[i - k - 1];
        assert t[k + 1..][i - k - 1] == t[i];
      }
    }
  }

  /** Normalising changes nothing up to the last '@' of the stripped
      address and only the case of the letters after it. */
  lemma NormalizeOnlyLowersDomain(email: string)
    requires '@' in Strip(email)
    ensures var t, r := Strip(email), NormalizeEmail(email);
      && |r| == |t|
      && forall i :: 0 <= i < |t| ==>
        (i <= LastAt(t).value ==> r[i] == t[i]) && (i > LastAt(t).value ==> r[i] == LowerChar(t[i]))
  {
    var t := Strip(email);
    LowerAfterAt(t, LastAt(t).value);
  }

  /** The part before the first '@' does not depend on what follows that
      '@'. */
  lemma {:induction false} BeforeFirstAtIgnoresTail(a: string, b: string, c: string)
    ensures BeforeFirstAt(a + "@" + b) == BeforeFirstAt(a + "@" + c)
  {
    if a != [] {
      assert (a + "@" + b)[0] == a[0] && (a + "@" + b)[1..] == a[1..] + "@" + b;
      assert (a + "@" + c)[0] == a[0] && (a + "@" + c)[1..] == a[1..] + "@" + c;
      BeforeFirstAtIgnoresTail(a[1..], b, c);
    }
  }

  /** The default username is the local part of the stripped address as
      typed: lowercasing the domain never reaches it. */
  lemma DefaultUsernameKeepsLocalPart(email: string)
    requires '@' in Strip(email)
    ensures BeforeFirstAt(NormalizeEmail(email)) == BeforeFirstAt(Strip(email))
  {
    var t := Strip(email);
    var k := LastAt(t).value;
    assert t == t[..k] + "@" + t[k + 1..];
    BeforeFirstAtIgnoresTail(t[..k], LowerAscii(t[k + 1..]), t[k + 1..]);
  }

  /** The columns `create_user` hands to the model constructor. */
  datatype NewUser = NewUser(email: string, username: string, kauId: Option<int>, fields: Dict)

  /** The checks and defaults of `create_user` before `save()`. */
  function PrepareUser(email: Option<string>, kauId: Option<int>, username: Option<string>, extra: Dict): (r: Result<NewUser, PyError>)
    ensures !Given(email) ==> r == Failure(ValueError(EMAIL_REQUIRED))
    ensures Given(email) && !KauIdGiven(kauId) && !Truthy(GetOr(extra, "is_staff", PyNone)) ==>
      r == Failure(ValueError(KAU_ID_REQUIRED))
    ensures r.Success? <==> Given(email) && (KauIdGiven(kauId) || Truthy(GetOr(extra, "is_staff", PyNone)))
    ensures r.Success? ==>
      && r.value.email == NormalizeEmail(email.value)
      && r.value.kauId == kauId && r.value.fields == extra
      && (Given(username) ==> r.value.username == username.value)
      && (!Given(username) ==> r.value.username == BeforeFirstAt(r.value.email) && '@' !in r.value.username)
  {
    if !Given(email) then Failure(ValueError(EMAIL_REQUIRED))
    else if !KauIdGiven(kauId) && !Truthy(GetOr(extra, "is_staff", PyNone)) then Failure(ValueError(KAU_ID_REQUIRED))
    else
      var normalized := NormalizeEmail(email.value);
      Success(NewUser(normalized, if Given(username) then username.value else BeforeFirstAt(normalized), kauId, extra))
  }

  /** `create_user` on the tables: the checks, then `save()`. */
  function CreateUserOn(t: Tables, email: Option<string>, kauId: Option<int>, username: Option<string>, extra: Dict): (Result<CustomUser, PyError>, Tables)
  {
    match PrepareUser(email, kauId, username, extra)
    case Failure(e) => (Failure(e), t)
    case Success(n) => SaveNew(t, n.email, n.username, n.kauId, n.fields)
  }

  /** A created user is stored with the next key, the normalised email, the
      given `kau_id` and exactly the extra fields; a refused one changes
      nothing. */
  lemma CreatedUserCarriesArguments(t: Tables, email: Option<string>, kauId: Option<int>, username: Option<string>, extra: Dict)
    ensures var (r, t') := CreateUserOn(t, email, kauId, username, extra);
      && (r.Failure? ==> t' == t)
      && (r.Success? ==>
        && Given(email) && t'.users == t.users + [r.value]
        && r.value.id == |t.users| && r.value.email == NormalizeEmail(email.value)
        && r.value.kauId == kauId && r.value.fields == extra)
  {
  }

  /** A created student has a student profile. */
  lemma CreatedStudentHasProfile(t: Tables, email: Option<string>, kauId: Option<int>, username: Option<string>, extra: Dict)
    requires GetOr(extra, "role", PyNone) == PyStr(Value(STUDENT))
    requires CreateUserOn(t, email, kauId, username, extra).0.Success?
    ensures var (r, t') := CreateUserOn(t, email, kauId, username, extra);
      r.value.id in t'.profiles.students && t'.profiles.faculty == t.profiles.faculty
  {
    ProfileDispatch(t.profiles, CreateUserOn(t, email, kauId, username, extra).0.value, true);
  }

  /** `create_user`. `password` goes to `set_password`, which is not part
      of this model. */
  method CreateUser(db: UserDatabase, email: Option<string>, kauId: Option<int>, username: Option<string>, extra: Dict)
    returns (r: Result<CustomUser, PyError>)
    requires db.Valid()
    requires extra.Keys !! CREATE_USER_PARAMS
    modifies db
    ensures db.Valid()
    ensures (r, db.Contents()) == CreateUserOn(old(db.Contents()), email, kauId, username, extra)
  {
    if !Given(email) {
      return Failure(ValueError(EMAIL_REQUIRED));
    }
    if !KauIdGiven(kauId) && !Truthy(GetOr(extra, "is_staff", PyNone)) {
      return Failure(ValueError(KAU_ID_REQUIRED));
    }
    var normalized := NormalizeEmail(email.value);
    var name := if Given(username) then username.value else BeforeFirstAt(normalized);
    r := db.Insert(normalized, name, kauId, extra);
  }

  /** The extra fields after `setdefault("is_staff", True)` and
      `setdefault("is_superuser", True)`. */
  function SuperuserDefaults(extra: Dict): (r: Dict)
    ensures r.Keys == extra.Keys + {"is_staff", "is_superuser"}
    ensures forall k :: k in extra ==> r[k] == extra[k]
    ensures "is_staff" !in extra ==> r["is_staff"] == PyBool(true)
    ensures "is_superuser" !in extra ==> r["is_superuser"] == PyBool(true)
  {
    var staff := if "is_staff" in extra then extra else extra["is_staff" := PyBool(true)];
    if "is_superuser" in staff then staff else staff["is_superuser" := PyBool(true)]
  }

  /** `create_superuser` on the tables: passing a `kau_id` keyword as well
      is a `TypeError` (the call to `create_user` names it twice). */
  function CreateSuperuserOn(t: Tables, email: Option<string>, username: Option<string>, extra: Dict): (Result<CustomUser, PyError>, Tables)
  {
    if "kau_id" in extra then (Failure(TypeError), t)
    else CreateUserOn(t, email, None, username, SuperuserDefaults(extra))
  }

  /** A superuser with the default flags passes the `kau_id` check without
      one; an explicit falsy `is_staff` makes that check fail. */
  lemma SuperuserKauIdCheck(t: Tables, email: Option<string>, username: Option<string>, extra: Dict)
    requires Given(email) && "kau_id" !in extra
    ensures "is_staff" !in extra ==> PrepareUser(email, None, username, SuperuserDefaults(extra)).Success?
    ensures "is_staff" in extra && !Truthy(extra["is_staff"]) ==>
      CreateSuperuserOn(t, email, username, extra) == (Failure(ValueError(KAU_ID_REQUIRED)), t)
    ensures CreateSuperuserOn(t, email, username, extra).0.Success? ==>
      CreateSuperuserOn(t, email, username, extra).0.value.kauId == None
  {
  }

  /** The email check comes first: without an email nothing else matters. */
  lemma EmailCheckedFirst(t: Tables, email: Option<string>, kauId: Option<int>, username: Option<string>, extra: Dict)
    requires !Given(email)
    ensures CreateUserOn(t, email, kauId, username, extra) == (Failure(ValueError(EMAIL_REQUIRED)), t)
    ensures "kau_id" !in extra ==> CreateSuperuserOn(t, email, username, extra) == (Failure(ValueError(EMAIL_REQUIRED)), t)
  {
  }

  /** `create_superuser`. */
  method CreateSuperuser(db: UserDatabase, email: Option<string>, username: Option<string>, extra: Dict)
    returns (r: Result<CustomUser, PyError>)
    requires db.Valid()
    requires extra.Keys !! CREATE_SUPERUSER_PARAMS
    modifies db
    ensures db.Valid()
    ensures (r, db.Contents()) == CreateSuperuserOn(old(db.Contents()), email, username, extra)
  {
    var fields := extra;
    if "is_staff" !in fields {
      fields := fields["is_staff" := PyBool(true)];
    }
    if "is_superuser" !in fields {
      fields := fields["is_superuser" := PyBool(true)];
    }
    if "kau_id" in fields {
      return Failure(TypeError);
    }
    r := CreateUser(db, email, None, username, fields);
  }
}
