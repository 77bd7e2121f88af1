/**
 * The user model of the authentication service (`back/auth_service/api/models.py`):
 * the fields' defaults, the manager that creates users and superusers, and
 * the e-mail verification token's life cycle. A model instance is a map from
 * field names to values; the database is the list of what each `save()` wrote.
 * The clock, the random UUIDs, e-mail normalisation and password hashing
 * are parameters.
 */
module Models {
  import opened Js

  /** A field's value. A stored password is either a hash or Django's unusable marker. */
  datatype Value =
    | Null
    | Flag(b: bool)
    | Text(s: string)
    | Moment(t: int)       // a date and time, in seconds
    | Uuid(u: nat)
    | Hashed(h: string)
    | Unusable

  /** The model's fields, and any other keyword a caller may pass. */
  datatype Field =
    | Id | Email | Password | FirstName | LastName
    | PhoneCountryCode | PhoneNumber
    | ProfilePictureUrl | CoverPhotoUrl | Bio | DateOfBirth | Gender
    | Address | Country | Language | Timezone
    | SubscriptionPlan
    | IsVerified | IsActive | IsBanned | IsStaff | IsSuperuser
    | VerificationToken | VerificationTokenExpiry
    | ResetPasswordToken | ResetTokenExpiry
    | LastLogin | DateJoined
    | Other(name: string)

  type Fields = map<Field, Value>

  /** What a manager method raises, or what it returns. */
  datatype Outcome<T> = Done(value: T) | Raised(error: string)

  const Hour: int := 3600
  const Day: int := 24 * Hour

  const MissingEmail := "The Email field must be set"

  /** The `TypeError` a model constructor raises for a keyword that names none of its fields. */
  const UnexpectedKeywords := "User() got unexpected keyword arguments"

  /** `dict.setdefault(k, v)`: a key already given keeps its value; every other key is untouched. */
  function SetDefault(m: Fields, k: Field, v: Value): (r: Fields)
    ensures k in r && r[k] == (if k in m then m[k] else v)
    ensures r - {k} == m - {k}
  {
    if k in m then m else m[k := v]
  }

  /** The value a flag ends with after `setdefault(k, v)`. */
  function Defaulted(m: Fields, k: Field, v: bool): Value
  {
    if k in m then m[k] else Flag(v)
  }

  /** The extra fields after `create_user`'s three `setdefault` calls: staff, active (the e-mail must be verified first) and verified default to false. */
  function UserExtra(extra: Fields): (r: Fields)
    ensures IsStaff in r && r[IsStaff] == Defaulted(extra, IsStaff, false)
    ensures IsActive in r && r[IsActive] == Defaulted(extra, IsActive, false)
    ensures IsVerified in r && r[IsVerified] == Defaulted(extra, IsVerified, false)
    ensures r - {IsStaff, IsActive, IsVerified} == extra - {IsStaff, IsActive, IsVerified}
  {
    SetDefault(SetDefault(SetDefault(extra, IsStaff, Flag(false)), IsActive, Flag(false)), IsVerified, Flag(false))
  }

  /** The extra fields after `create_superuser`'s four `setdefault` calls: staff, superuser, verified and active default to true. */
  function SuperuserExtra(extra: Fields): (r: Fields)
    ensures IsStaff in r && r[IsStaff] == Defaulted(extra, IsStaff, true)
    ensures IsSuperuser in r && r[IsSuperuser] == Defaulted(extra, IsSuperuser, true)
    ensures IsVerified in r && r[IsVerified] == Defaulted(extra, IsVerified, true)
    ensures IsActive in r && r[IsActive] == Defaulted(extra, IsActive, true)
    ensures r - {IsStaff, IsSuperuser, IsVerified, IsActive} == extra - {IsStaff, IsSuperuser, IsVerified, IsActive}
  {
    SetDefault(SetDefault(SetDefault(SetDefault(extra, IsStaff, Flag(true)), IsSuperuser, Flag(true)), IsVerified, Flag(true)), IsActive, Flag(true))
  }

  /** Setting a default for a model field neither adds nor removes an unknown keyword. */
  lemma SetDefaultExpected(m: Fields, k: Field, v: Value)
    requires !k.Other?
    ensures Unexpected(SetDefault(m, k, v)) <==> Unexpected(m)
  {
    if Unexpected(SetDefault(m, k, v)) {
      var j :| j in SetDefault(m, k, v) && j.Other?;
      assert j in m;
    }
  }

  /** The flag defaults add no unknown keyword and remove none. */
  lemma SuperuserExtraExpected(extra: Fields)
    ensures Unexpected(SuperuserExtra(extra)) <==> Unexpected(extra)
    ensures Unexpected(UserExtra(extra)) <==> Unexpected(extra)
  {
    var s1 := SetDefault(extra, IsStaff, Flag(true));
    var s2 := SetDefault(s1, IsSuperuser, Flag(true));
    var s3 := SetDefault(s2, IsVerified, Flag(true));
    SetDefaultExpected(extra, IsStaff, Flag(true));
    SetDefaultExpected(s1, IsSuperuser, Flag(true));
    SetDefaultExpected(s2, IsVerified, Flag(true));
    SetDefaultExpected(s3, IsActive, Flag(true));
    var u1 := SetDefault(extra, IsStaff, Flag(false));
    var u2 := SetDefault(u1, IsActive, Flag(false));
    SetDefaultExpected(extra, IsStaff, Flag(false));
    SetDefaultExpected(u1, IsActive, Flag(false));
    SetDefaultExpected(u2, IsVerified, Flag(false));
  }

  /**
   * The defaults of every field that has one when an instance is built: the
   * dialling code "+33", the "free" plan, the status flags off, a fresh
   * verification token (the `uuid4` draws are the parameters `id` and
   * `token`), an empty e-mail and password and null for the rest, the join
   * date included until the first save stamps it.
   */
  function ModelDefaults(id: nat, token: nat): (f: Fields)
    ensures forall k :: k in f <==> !k.Other?
    ensures forall k :: k in f ==> f[k] == DefaultOf(k, id, token)
  {
    map k | k in Columns :: DefaultOf(k, id, token)
  }

  /** The model's own fields. */
  const Columns: set<Field> := {
    Id, Email, Password, FirstName, LastName, PhoneCountryCode, PhoneNumber,
    ProfilePictureUrl, CoverPhotoUrl, Bio, DateOfBirth, Gender,
    Address, Country, Language, Timezone, SubscriptionPlan,
    IsVerified, IsActive, IsBanned, IsStaff, IsSuperuser,
    VerificationToken, VerificationTokenExpiry, ResetPasswordToken, ResetTokenExpiry, LastLogin, DateJoined}

  /** A field's value when the caller does not give one. */
  function DefaultOf(k: Field, id: nat, token: nat): Value
  {
    match k
    case Id => Uuid(id)
    case Email => Text("")
    case Password => Text("")
    case PhoneCountryCode => Text("+33")
    case SubscriptionPlan => Text("free")
    case IsVerified => Flag(false)
    case IsActive => Flag(false)
    case IsBanned => Flag(false)
    case IsStaff => Flag(false)
    case IsSuperuser => Flag(false)
    case VerificationToken => Uuid(token)
    case _ => Null
  }

  function OrNull(s: Option<string>): Value
  {
    if s.Some? then Text(s.value) else Null
  }

  /** `set_password`: a hash of the raw password, or the unusable marker for `None`. */
  function PasswordValue(password: Option<string>, hash: string -> string): Value
  {
    if password.Some? then Hashed(hash(password.value)) else Unusable
  }

  /** `not email`: a missing or empty address. */
  predicate Blank(email: Option<string>)
  {
    email.None? || email.value == ""
  }

  /**
   * The fields of the user `create_user` builds from the extra fields it was
   * given (after the flag defaults): the model's defaults, overridden by the
   * normalised e-mail and the names, then by the extra fields, then the
   * hashed password.
   */
  function Instance(email: string, firstName: Option<string>, lastName: Option<string>, password: Option<string>,
                    extra: Fields, normalize: string -> string, hash: string -> string, id: nat, token: nat): (f: Fields)
    ensures forall k :: k in extra && k != Password ==> k in f && f[k] == extra[k]
    ensures Email !in extra ==> Email in f && f[Email] == Text(normalize(email))
    ensures Password in f && f[Password] == PasswordValue(password, hash)
    ensures VerificationToken !in extra ==> VerificationToken in f && f[VerificationToken] == Uuid(token)
  {
    var named := map[Email := Text(normalize(email)), FirstName := OrNull(firstName), LastName := OrNull(lastName)];
    var defaults := ModelDefaults(id, token);
    assert VerificationToken in defaults && defaults[VerificationToken] == Uuid(token);
    assert VerificationToken !in named && named[Email] == Text(normalize(email));
    var o := Overlay(defaults, named, extra);
    o[Password := PasswordValue(password, hash)]
  }

  /** Keyword arguments over a model's defaults: the named ones first, then the extra ones, each winning over what lies below. */
  function Overlay(defaults: Fields, named: Fields, extra: Fields): (f: Fields)
    ensures forall k :: k in extra ==> k in f && f[k] == extra[k]
    ensures forall k :: k in named && k !in extra ==> k in f && f[k] == named[k]
    ensures forall k :: k in defaults && k !in named && k !in extra ==> k in f && f[k] == defaults[k]
  {
    defaults + named + extra
  }

  /** Some extra keyword names no field of the model. */
  predicate Unexpected(extra: Fields)
  {
    exists k :: k in extra && k.Other?
  }

  /**
   * `create_user`: a blank e-mail raises `ValueError`; a keyword that is no
   * field makes the model's constructor raise `TypeError`; otherwise the
   * user is built as above and saved, and that first save stamps the join
   * date with the clock (`now`), whatever the caller passed.
   */
  function NewUser(email: Option<string>, firstName: Option<string>, lastName: Option<string>, password: Option<string>,
                   extra: Fields, normalize: string -> string, hash: string -> string, id: nat, token: nat, now: int): (r: Outcome<Fields>)
    ensures r.Raised? <==> Blank(email) || Unexpected(extra)
    ensures r.Raised? ==> r.error == (if Blank(email) then MissingEmail else UnexpectedKeywords)
    ensures r.Done? ==> r.value == Instance(email.value, firstName, lastName, password, UserExtra(extra), normalize, hash, id, token)[DateJoined := Moment(now)]
    ensures r.Done? ==> DateJoined in r.value && r.value[DateJoined] == Moment(now)
  {
    if Blank(email) then Raised(MissingEmail)
    else if Unexpected(extra) then Raised(UnexpectedKeywords)
    else Done(Instance(email.value, firstName, lastName, password, UserExtra(extra), normalize, hash, id, token)[DateJoined := Moment(now)])
  }

  /** Any unknown keyword makes `create_user` raise `TypeError` once the e-mail is there. */
  lemma NewUserRaises(email: Option<string>, firstName: Option<string>, lastName: Option<string>, password: Option<string>,
                      extra: Fields, normalize: string -> string, hash: string -> string, id: nat, token: nat, now: int)
    requires !Blank(email) && Unexpected(extra)
    ensures NewUser(email, firstName, lastName, password, extra, normalize, hash, id, token, now) == Raised(UnexpectedKeywords)
  {
  }

  /** `create_user(email, foo=1)`: a keyword the model does not have raises `TypeError`, and no user is built. */
  lemma UnknownKeywordRaises(email: string, normalize: string -> string, hash: string -> string, id: nat, token: nat, now: int)
    requires email != ""
    ensures NewUser(Some(email), None, None, None, map[Other("foo") := Text("1")], normalize, hash, id, token, now)
            == Raised(UnexpectedKeywords)
  {
    var extra := map[Other("foo") := Text("1")];
    assert Other("foo") in extra;
    assert Unexpected(extra);
    NewUserRaises(Some(email), None, None, None, extra, normalize, hash, id, token, now);
  }

  /** A registration that passes no flag creates a user that is neither active, verified nor staff, with a pending token. */
  lemma RegistrationPending(email: string, firstName: Option<string>, lastName: Option<string>, password: Option<string>,
                            extra: Fields, normalize: string -> string, hash: string -> string, id: nat, token: nat, now: int)
    requires IsStaff !in extra && IsActive !in extra && IsVerified !in extra && VerificationToken !in extra
    ensures var r := NewUser(Some(email), firstName, lastName, password, extra, normalize, hash, id, token, now);
            email != "" && !Unexpected(extra) ==>
              r.Done? && r.value[IsActive] == Flag(false) && r.value[IsVerified] == Flag(false)
              && r.value[IsStaff] == Flag(false) && r.value[VerificationToken] != Null
  {
    if email != "" && !Unexpected(extra) {
      var ux := UserExtra(extra);
      assert VerificationToken !in ux by {
        assert ux - {IsStaff, IsActive, IsVerified} == extra - {IsStaff, IsActive, IsVerified};
        assert VerificationToken !in extra - {IsStaff, IsActive, IsVerified};
      }
      var f := Instance(email, firstName, lastName, password, ux, normalize, hash, id, token);
      assert f[IsActive] == Flag(false) && f[IsVerified] == Flag(false) && f[IsStaff] == Flag(false);
      assert f[VerificationToken] == Uuid(token);
      SavedKeeps(email, firstName, lastName, password, extra, normalize, hash, id, token, now, IsActive);
      SavedKeeps(email, firstName, lastName, password, extra, normalize, hash, id, token, now, IsVerified);
      SavedKeeps(email, firstName, lastName, password, extra, normalize, hash, id, token, now, IsStaff);
      SavedKeeps(email, firstName, lastName, password, extra, normalize, hash, id, token, now, VerificationToken);
    }
  }

  /** Saving a new user changes only its join date: every other field is the instance's. */
  lemma SavedKeeps(email: string, firstName: Option<string>, lastName: Option<string>, password: Option<string>,
                   extra: Fields, normalize: string -> string, hash: string -> string, id: nat, token: nat, now: int, k: Field)
    requires email != "" && !Unexpected(extra) && k != DateJoined
    ensures var f := Instance(email, firstName, lastName, password, UserExtra(extra), normalize, hash, id, token);
            var r := NewUser(Some(email), firstName, lastName, password, extra, normalize, hash, id, token, now);
            r.Done? && (k in r.value <==> k in f) && (k in f ==> r.value[k] == f[k])
  {
    var f := Instance(email, firstName, lastName, password, UserExtra(extra), normalize, hash, id, token);
    var r := NewUser(Some(email), firstName, lastName, password, extra, normalize, hash, id, token, now);
    assert r.Done?;
    assert r.value == f[DateJoined := Moment(now)];
  }

  /**
   * Every model field exists on a new instance, and a field that neither the
   * caller nor `create_user` itself sets holds its default.
   */
  lemma InstanceDefaults(email: string, firstName: Option<string>, lastName: Option<string>, password: Option<string>,
                         extra: Fields, normalize: string -> string, hash: string -> string, id: nat, token: nat)
    ensures var f := Instance(email, firstName, lastName, password, extra, normalize, hash, id, token);
            (forall k: Field :: !k.Other? ==> k in f)
            && (forall k: Field :: k in f && k !in extra && k !in {Email, FirstName, LastName, Password} ==> !k.Other? && f[k] == DefaultOf(k, id, token))
  {
    var named := map[Email := Text(normalize(email)), FirstName := OrNull(firstName), LastName := OrNull(lastName)];
    var md := ModelDefaults(id, token);
    var f := Instance(email, firstName, lastName, password, extra, normalize, hash, id, token);
    assert f == (md + named + extra)[Password := PasswordValue(password, hash)];
    forall k: Field | !k.Other?
      ensures k in f
    {
      assert k in md;
    }
    forall k: Field | k in f && k !in extra && k !in {Email, FirstName, LastName, Password}
      ensures !k.Other? && f[k] == DefaultOf(k, id, token)
    {
      assert k !in named && k in md;
    }
  }

  /** The flags a caller passes win over the defaults, since they are only set when absent. */
  lemma CallerFlagsWin(email: string, extra: Fields, normalize: string -> string, hash: string -> string, id: nat, token: nat, now: int, k: Field)
    requires k in {IsStaff, IsActive, IsVerified} && k in extra
    ensures email != "" && !Unexpected(extra) ==> NewUser(Some(email), None, None, None, extra, normalize, hash, id, token, now).value[k] == extra[k]
  {
  }

  /** A superuser created without flags is staff, superuser, verified and active at once; a flag passed explicitly still wins. */
  lemma SuperuserDefaults(email: string, first: string, last: string, password: string, extra: Fields,
                          normalize: string -> string, hash: string -> string, id: nat, token: nat, now: int)
    requires email != "" && !Unexpected(extra)
    ensures var f := NewUser(Some(email), Some(first), Some(last), Some(password), SuperuserExtra(extra), normalize, hash, id, token, now).value;
            f[IsStaff] == Defaulted(extra, IsStaff, true) && f[IsSuperuser] == Defaulted(extra, IsSuperuser, true)
            && f[IsVerified] == Defaulted(extra, IsVerified, true) && f[IsActive] == Defaulted(extra, IsActive, true)
  {
    var sx := SuperuserExtra(extra);
    SuperuserExtraExpected(extra);
    var ux := UserExtra(sx);
    assert IsSuperuser in sx - {IsStaff, IsActive, IsVerified};
    assert ux[IsSuperuser] == sx[IsSuperuser];
    SavedKeeps(email, Some(first), Some(last), Some(password), sx, normalize, hash, id, token, now, IsStaff);
    SavedKeeps(email, Some(first), Some(last), Some(password), sx, normalize, hash, id, token, now, IsSuperuser);
    SavedKeeps(email, Some(first), Some(last), Some(password), sx, normalize, hash, id, token, now, IsVerified);
    SavedKeeps(email, Some(first), Some(last), Some(password), sx, normalize, hash, id, token, now, IsActive);
  }

  /** `get_token_expiry`: one day after `now`. */
  function TokenExpiry(now: int): (t: int)
    ensures t > now
  {
    now + Day
  }

  /** The fields after `generate_verification_token`: a new token that expires 24 hours from `now`. */
  function WithToken(f: Fields, token: nat, now: int): (r: Fields)
    ensures VerificationToken in r && r[VerificationToken] == Uuid(token) && VerificationTokenExpiry in r && r[VerificationTokenExpiry] == Moment(now + 24 * Hour)
    ensures r - {VerificationToken, VerificationTokenExpiry} == f - {VerificationToken, VerificationTokenExpiry}
  {
    f[VerificationToken := Uuid(token)][VerificationTokenExpiry := Moment(now + 24 * Hour)]
  }

  /** The fields after `clear_verification_token`: no token and no expiry, and the account becomes active and verified. */
  function Activated(f: Fields): (r: Fields)
    ensures VerificationToken in r && r[VerificationToken] == Null && VerificationTokenExpiry in r && r[VerificationTokenExpiry] == Null
    ensures IsActive in r && r[IsActive] == Flag(true) && IsVerified in r && r[IsVerified] == Flag(true)
    ensures r - {VerificationToken, VerificationTokenExpiry, IsActive, IsVerified}
            == f - {VerificationToken, VerificationTokenExpiry, IsActive, IsVerified}
  {
    f[VerificationToken := Null][VerificationTokenExpiry := Null][IsActive := Flag(true)][IsVerified := Flag(true)]
  }

  /** Clearing twice is clearing once. */
  lemma ActivationIdempotent(f: Fields)
    ensures Activated(Activated(f)) == Activated(f)
  {
  }

  /** A token generated and then cleared leaves no trace: the result is that of clearing alone. */
  lemma FreshTokenThenActivate(f: Fields, token: nat, now: int)
    ensures Activated(WithToken(f, token, now)) == Activated(f)
  {
  }

  /** The expiry the token gets agrees with `get_token_expiry`: 24 hours is one day. */
  lemma ExpiriesAgree(f: Fields, token: nat, now: int)
    ensures WithToken(f, token, now)[VerificationTokenExpiry] == Moment(TokenExpiry(now))
  {
  }

  /** `check_password`: the stored value is the hash of the raw password given; an unusable password never matches. */
  predicate PasswordMatches(f: Fields, raw: string, hash: string -> string)
  {
    Password in f && f[Password] == Hashed(hash(raw))
  }

  /** A user instance: its fields, changed in place, and what its `save()` calls wrote. */
  class User {
    var fields: Fields
    var saved: seq<Fields>

    constructor (fields: Fields)
      ensures this.fields == fields && saved == []
    {
      this.fields := fields;
      saved := [];
    }

    method Save()
      modifies this
      ensures fields == old(fields) && saved == old(saved) + [fields]
    {
      saved := saved + [fields];
    }

    /** The first save of a new row: `auto_now_add` stamps the join date with the clock. */
    method Insert(now: int)
      modifies this
      ensures fields == old(fields)[DateJoined := Moment(now)] && saved == old(saved) + [fields]
    {
      fields := fields[DateJoined := Moment(now)];
      Save();
    }

    method SetPassword(raw: Option<string>, hash: string -> string)
      modifies this
      ensures fields == old(fields)[Password := PasswordValue(raw, hash)] && saved == old(saved)
    {
      fields := fields[Password := PasswordValue(raw, hash)];
    }

    predicate CheckPassword(raw: string, hash: string -> string)
      reads this
    {
      PasswordMatches(fields, raw, hash)
    }

    method GenerateVerificationToken(token: nat, now: int)
      modifies this
      ensures fields == WithToken(old(fields), token, now) && saved == old(saved) + [fields]
    {
      fields := fields[VerificationToken := Uuid(token)];
      fields := fields[VerificationTokenExpiry := Moment(now + 24 * Hour)];
      Save();
    }

    method ClearVerificationToken()
      modifies this
      ensures fields == Activated(old(fields)) && saved == old(saved) + [fields]
    {
      fields := fields[VerificationToken := Null];
      fields := fields[VerificationTokenExpiry := Null];
      fields := fields[IsActive := Flag(true)];
      fields := fields[IsVerified := Flag(true)];
      Save();
    }
  }

  /** `CustomUserManager`, over the users it has saved. */
  class Manager {
    var users: seq<User>

    constructor ()
      ensures users == []
    {
      users := [];
    }

    /** `create_user`: a blank e-mail or an unknown keyword raises before anything is saved. */
    method CreateUser(email: Option<string>, firstName: Option<string>, lastName: Option<string>, password: Option<string>,
                      extra: Fields, normalize: string -> string, hash: string -> string, id: nat, token: nat, now: int)
      returns (r: Outcome<User>)
      modifies this
      ensures r.Raised? <==> Blank(email) || Unexpected(extra)
      ensures r.Raised? ==> r.error == NewUser(email, firstName, lastName, password, extra, normalize, hash, id, token, now).error && users == old(users)
      ensures r.Done? ==>
                fresh(r.value) && users == old(users) + [r.value]
                && r.value.fields == NewUser(email, firstName, lastName, password, extra, normalize, hash, id, token, now).value
                && r.value.saved == [r.value.fields]
    {
      if Blank(email) {
        return Raised(MissingEmail);
      }
      if exists k :: k in extra && k.Other? {
        return Raised(UnexpectedKeywords);
      }
      var address := normalize(email.value);
      var flags := extra;
      flags := SetDefault(flags, IsStaff, Flag(false));
      flags := SetDefault(flags, IsActive, Flag(false));
      flags := SetDefault(flags, IsVerified, Flag(false));
      var named := map[Email := Text(address), FirstName := OrNull(firstName), LastName := OrNull(lastName)];
      var user := new User(ModelDefaults(id, token) + named + flags);
      user.SetPassword(password, hash);
      user.Insert(now);
      users := users + [user];
      r := Done(user);
    }

    /** `create_superuser`: the four flags default to true, then `create_user`. */
    method CreateSuperuser(email: Option<string>, firstName: Option<string>, lastName: Option<string>, password: Option<string>,
                           extra: Fields, normalize: string -> string, hash: string -> string, id: nat, token: nat, now: int)
      returns (r: Outcome<User>)
      modifies this
      ensures r.Raised? <==> Blank(email) || Unexpected(extra)
      ensures r.Raised? ==> users == old(users)
      ensures r.Done? ==>
                fresh(r.value) && users == old(users) + [r.value]
                && r.value.fields == NewUser(email, firstName, lastName, password, SuperuserExtra(extra), normalize, hash, id, token, now).value
    {
      var flags := extra;
      flags := SetDefault(flags, IsStaff, Flag(true));
      flags := SetDefault(flags, IsSuperuser, Flag(true));
      flags := SetDefault(flags, IsVerified, Flag(true));
      flags := SetDefault(flags, IsActive, Flag(true));
      SuperuserExtraExpected(extra);
      r := CreateUser(email, firstName, lastName, password, flags, normalize, hash, id, token, now);
    }
  }
}
