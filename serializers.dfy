/**
 * The serializers of the authentication service
 * (`back/auth_service/api/serializers.py`): the change-password payload's
 * validation, and the user serializer's `create` and `update`. Django's
 * password validators are the parameter `validatePassword`, which returns
 * the messages it raises (none when the password is accepted).
 */
module Serializers {
  import opened Js
  import opened Models

  /** A request payload, or the validated data built from it. */
  type Payload = map<string, string>

  /** Field name to messages, as `serializer.errors` holds them. */
  type Errors = map<string, seq<string>>

  datatype Validation = Valid(data: Payload) | Invalid(errors: Errors)

  const OldPassword := "old_password"
  const NewPassword := "new_password"
  const ConfirmNewPassword := "confirm_new_password"

  /** The three fields `ChangePasswordSerializer` declares, all of them required. */
  const PasswordFields := {OldPassword, NewPassword, ConfirmNewPassword}

  const RequiredMessage := "This field is required."
  const BlankMessage := "This field may not be blank."
  const MismatchMessage := "Credentials do not match."

  /** Python's `str.isspace` on one character: the characters `str.strip()` removes. */
  predicate PySpace(c: char)
  {
    ('\t' <= c <= '\r') || ('\U{001C}' <= c <= ' ') || c == '\U{0085}' || c == '\U{00A0}' || c == '\U{1680}'
    || ('\U{2000}' <= c <= '\U{200A}') || c == '\U{2028}' || c == '\U{2029}' || c == '\U{202F}'
    || c == '\U{205F}' || c == '\U{3000}'
  }

  /** Every character of `s` is blank. */
  predicate AllBlank(s: string)
  {
    s == [] || (PySpace(s[0]) && AllBlank(s[1..]))
  }

  /**
   * `s.strip()`, which a `CharField` applies to its value (`trim_whitespace`
   * defaults to true): blanks are removed from both ends, so the result is
   * empty exactly when `s` is all blanks, and otherwise neither starts nor
   * ends with one.
   */
  function Strip(s: string): (r: string)
    ensures |r| <= |s|
    ensures r == [] <==> AllBlank(s)
    ensures r != [] ==> !PySpace(r[0]) && !PySpace(r[|r| - 1])
  {
    if s == [] then []
    else if PySpace(s[0]) then Strip(s[1..])
    else if PySpace(s[|s| - 1]) then
      var r := Strip(s[..|s| - 1]);
      assert s[..|s| - 1][0] == s[0];
      r
    else s
  }

  /** A string that neither starts nor ends with a blank is its own strip. */
  lemma StripUnchanged(s: string)
    requires s == [] || (!PySpace(s[0]) && !PySpace(s[|s| - 1]))
    ensures Strip(s) == s
  {
  }

  /** One blank either side of a value that has none at its edges is stripped away. */
  lemma StripPadded(s: string)
    requires s == [] || (!PySpace(s[0]) && !PySpace(s[|s| - 1]))
    ensures Strip([' '] + s + [' ']) == s
  {
    var p := [' '] + s + [' '];
    assert p[1..] == s + [' '];
    if s == [] {
      assert (s + [' '])[1..] == [];
    } else {
      assert (s + [' '])[..|s|] == s;
      StripUnchanged(s);
    }
  }

  /**
   * One field's errors, as `CharField` and the serializer raise them: a
   * required field that is absent, or whose value is empty once stripped,
   * fails on its own; the stripped new password must then also pass
   * `validate_new_password`, which runs Django's validators.
   */
  function FieldError(data: Payload, k: string, validatePassword: string -> seq<string>): (r: seq<string>)
    ensures k !in data ==> r == [RequiredMessage]
    ensures k in data && Strip(data[k]) == "" ==> r == [BlankMessage]
    ensures k in data && Strip(data[k]) != "" ==> r == (if k == NewPassword then validatePassword(Strip(data[k])) else [])
  {
    if k !in data then [RequiredMessage]
    else if data[k] == "" || Strip(data[k]) == "" then [BlankMessage]
    else if k == NewPassword then validatePassword(Strip(data[k]))
    else []
  }

  /** The field-level errors of the three declared fields; every one is reported, not only the first. */
  function FieldErrors(data: Payload, validatePassword: string -> seq<string>): (e: Errors)
    ensures e.Keys <= PasswordFields
    ensures forall k :: k in PasswordFields ==> (k in e <==> FieldError(data, k, validatePassword) != [])
    ensures forall k :: k in e ==> e[k] == FieldError(data, k, validatePassword)
  {
    map k | k in PasswordFields && FieldError(data, k, validatePassword) != [] :: FieldError(data, k, validatePassword)
  }

  /** The validated data: the declared fields only, whatever else the payload holds, each value stripped. */
  function Declared(data: Payload): (attrs: Payload)
    ensures attrs.Keys == data.Keys * PasswordFields
    ensures forall k :: k in attrs ==> attrs[k] == Strip(data[k])
  {
    map k | k in data && k in PasswordFields :: Strip(data[k])
  }

  /** `ChangePasswordSerializer.validate`: the new password and its confirmation must be equal; the data passes through unchanged. */
  function Validate(attrs: Payload): (r: Validation)
    requires NewPassword in attrs && ConfirmNewPassword in attrs
    ensures r.Valid? <==> attrs[NewPassword] == attrs[ConfirmNewPassword]
    ensures r.Valid? ==> r.data == attrs
    ensures r.Invalid? ==> r.errors == map[NewPassword := [MismatchMessage]]
  {
    if attrs[NewPassword] != attrs[ConfirmNewPassword] then Invalid(map[NewPassword := [MismatchMessage]])
    else Valid(attrs)
  }

  /** `is_valid()`: field-level errors first; `validate` runs only once every field has passed. */
  function IsValid(data: Payload, validatePassword: string -> seq<string>): Validation
  {
    var e := FieldErrors(data, validatePassword);
    if e != map[] then Invalid(e)
    else
      assert forall k :: k in PasswordFields ==> FieldError(data, k, validatePassword) == [];
      Validate(Declared(data))
  }

  /** The field is present and not blank once stripped. */
  predicate Given(data: Payload, k: string)
  {
    k in data && Strip(data[k]) != ""
  }

  /** What a payload must be for `is_valid()` to hold, on the stripped values. */
  predicate Acceptable(data: Payload, validatePassword: string -> seq<string>)
  {
    Given(data, OldPassword) && Given(data, NewPassword) && Given(data, ConfirmNewPassword)
    && validatePassword(Strip(data[NewPassword])) == []
    && Strip(data[NewPassword]) == Strip(data[ConfirmNewPassword])
  }

  /** A payload validates exactly when it is acceptable, and then its validated data is its three fields, stripped. */
  lemma IsValidIffAcceptable(data: Payload, validatePassword: string -> seq<string>)
    ensures IsValid(data, validatePassword).Valid? <==> Acceptable(data, validatePassword)
    ensures IsValid(data, validatePassword).Valid? ==>
              IsValid(data, validatePassword).data.Keys == PasswordFields
              && forall k :: k in PasswordFields ==> IsValid(data, validatePassword).data[k] == Strip(data[k])
  {
    var e := FieldErrors(data, validatePassword);
    FieldPasses(data, validatePassword, OldPassword);
    FieldPasses(data, validatePassword, NewPassword);
    FieldPasses(data, validatePassword, ConfirmNewPassword);
    if e == map[] {
      assert OldPassword !in e && NewPassword !in e && ConfirmNewPassword !in e;
      var attrs := Declared(data);
      assert attrs.Keys == PasswordFields;
      assert attrs[NewPassword] == Strip(data[NewPassword]) && attrs[ConfirmNewPassword] == Strip(data[ConfirmNewPassword]);
      assert IsValid(data, validatePassword) == Validate(attrs);
    } else {
      var k :| k in e;
      assert FieldError(data, k, validatePassword) != [];
      assert !Acceptable(data, validatePassword);
    }
  }

  /** A declared field passes its own checks exactly when it is present, not blank once stripped, and, for the new password, accepted by the validators. */
  lemma FieldPasses(data: Payload, validatePassword: string -> seq<string>, k: string)
    requires k in PasswordFields
    ensures FieldError(data, k, validatePassword) == [] <==>
              Given(data, k) && (k == NewPassword ==> validatePassword(Strip(data[k])) == [])
  {
  }

  /** Each required field that is missing is reported under its own name. */
  lemma MissingFieldReported(data: Payload, validatePassword: string -> seq<string>, k: string)
    requires k in PasswordFields && k !in data
    ensures IsValid(data, validatePassword).Invalid?
    ensures k in IsValid(data, validatePassword).errors && IsValid(data, validatePassword).errors[k] == [RequiredMessage]
  {
    var e := FieldErrors(data, validatePassword);
    assert k in e;
  }

  /** A complete payload whose new password and confirmation differ fails with the mismatch, keyed by the new password. */
  lemma MismatchReported(data: Payload, validatePassword: string -> seq<string>)
    requires Given(data, OldPassword) && Given(data, NewPassword) && Given(data, ConfirmNewPassword)
    requires validatePassword(Strip(data[NewPassword])) == []
    requires Strip(data[NewPassword]) != Strip(data[ConfirmNewPassword])
    ensures IsValid(data, validatePassword) == Invalid(map[NewPassword := [MismatchMessage]])
  {
    var e := FieldErrors(data, validatePassword);
    assert e == map[];
  }

  /** A field holding only blanks is reported as blank under its own name, never passed on. */
  lemma BlankFieldReported(data: Payload, validatePassword: string -> seq<string>, k: string)
    requires k in PasswordFields && k in data
    requires AllBlank(data[k])
    ensures IsValid(data, validatePassword).Invalid?
    ensures k in IsValid(data, validatePassword).errors && IsValid(data, validatePassword).errors[k] == [BlankMessage]
  {
    var e := FieldErrors(data, validatePassword);
    assert k in e;
  }

  // -------------------------------------------------------------------
  // UserSerializer

  /** The key `update` discards before assigning. */
  const PasswordHash := Other("password_hash")

  /** The instance's fields after `update`: every validated key but `password_hash` assigned, all others as they were. */
  function Updated(f: Fields, validated: Fields): (r: Fields)
    ensures forall k :: k in validated && k != PasswordHash ==> k in r && r[k] == validated[k]
    ensures forall k :: k !in validated || k == PasswordHash ==> (k in r <==> k in f) && (k in f ==> r[k] == f[k])
  {
    f + (validated - {PasswordHash})
  }

  /** Updating twice with the same data is updating once. */
  lemma UpdateIdempotent(f: Fields, validated: Fields)
    ensures Updated(Updated(f, validated), validated) == Updated(f, validated)
  {
  }

  /** `update`: pop `password_hash`, `setattr` each validated value in turn, then save once. */
  method Update(instance: User, validated: Fields)
    modifies instance
    ensures instance.fields == Updated(old(instance.fields), validated)
    ensures instance.saved == old(instance.saved) + [instance.fields]
  {
    var data := validated - {PasswordHash};
    ghost var start := instance.fields;
    var todo := data.Keys;
    ghost var done: set<Field> := {};
    while todo != {}
      invariant todo + done == data.Keys && todo !! done
      invariant instance.fields == start + Restrict(data, done)
      invariant instance.saved == old(instance.saved)
    {
      var k :| k in todo;
      RestrictStep(data, done, k);
      instance.fields := instance.fields[k := data[k]];
      todo := todo - {k};
      done := done + {k};
    }
    assert Restrict(data, done) == data;
    instance.Save();
  }

  /** The part of `m` on the keys in `s`. */
  function Restrict(m: Fields, s: set<Field>): (r: Fields)
    ensures r.Keys == m.Keys * s
  {
    map k | k in m && k in s :: m[k]
  }

  /** Assigning one more key extends what has been assigned by that key. */
  lemma RestrictStep(m: Fields, s: set<Field>, k: Field)
    requires k in m
    ensures Restrict(m, s + {k}) == Restrict(m, s)[k := m[k]]
  {
  }

  /** The arguments `create_user(**validated_data)` receives: the e-mail, the names and the password by name, the rest as extra fields. */
  function NameArg(validated: Fields, k: Field): Option<string>
  {
    if k in validated && validated[k].Text? then Some(validated[k].s) else None
  }

  function ExtraArgs(validated: Fields): (extra: Fields)
    ensures extra.Keys == validated.Keys - {Email, FirstName, LastName, Password}
  {
    validated - {Email, FirstName, LastName, Password}
  }

  /** Data a `ModelSerializer` validated: its keys are fields of the model. */
  predicate ModelData(validated: Fields)
  {
    forall k :: k in validated ==> !k.Other?
  }

  /** Validated data never carries an unknown keyword, so `create` raises only for a blank e-mail. */
  lemma ModelDataExpected(validated: Fields)
    requires ModelData(validated)
    ensures !Unexpected(ExtraArgs(validated))
  {
  }

  /**
   * `create`: hands the validated data to `create_user`. Data without an
   * e-mail is mapped to the missing-email error, whereas Python would raise
   * a TypeError for the missing positional argument; the serializer requires
   * `email`, so validated data always carries one and the two never differ.
   */
  method Create(manager: Manager, validated: Fields, normalize: string -> string, hash: string -> string, id: nat, token: nat, now: int)
    returns (r: Outcome<User>)
    modifies manager
    ensures r.Raised? <==> Blank(NameArg(validated, Email)) || Unexpected(ExtraArgs(validated))
    ensures r.Raised? ==> manager.users == old(manager.users)
    ensures r.Done? ==>
              fresh(r.value) && manager.users == old(manager.users) + [r.value]
              && r.value.fields == NewUserFrom(validated, normalize, hash, id, token, now).value
  {
    r := manager.CreateUser(NameArg(validated, Email), NameArg(validated, FirstName), NameArg(validated, LastName),
                            NameArg(validated, Password), ExtraArgs(validated), normalize, hash, id, token, now);
  }

  /** The user `create` builds from the validated data. */
  function NewUserFrom(validated: Fields, normalize: string -> string, hash: string -> string, id: nat, token: nat, now: int): Outcome<Fields>
  {
    NewUser(NameArg(validated, Email), NameArg(validated, FirstName), NameArg(validated, LastName),
            NameArg(validated, Password), ExtraArgs(validated), normalize, hash, id, token, now)
  }

  /**
   * `create` inherits `create_user`'s flag defaults: unless the data says
   * otherwise the new user is neither staff, active nor verified; the flags
   * are writable fields of the serializer, so data that does set them is obeyed.
   */
  lemma CreateInheritsFlagDefaults(validated: Fields, normalize: string -> string, hash: string -> string, id: nat, token: nat, now: int, k: Field)
    requires !Blank(NameArg(validated, Email)) && ModelData(validated)
    requires k in {IsStaff, IsActive, IsVerified}
    ensures var f := NewUserFrom(validated, normalize, hash, id, token, now).value;
            k in f && f[k] == (if k in validated then validated[k] else Flag(false))
  {
    var extra := ExtraArgs(validated);
    assert k in validated <==> k in extra;
  }

  /**
   * The password is not one of the serializer's fields, so the data holds
   * none, and a user created through it has an unusable password that no
   * raw password matches.
   */
  lemma CreatedWithoutPassword(validated: Fields, normalize: string -> string, hash: string -> string, id: nat, token: nat, now: int, raw: string)
    requires !Blank(NameArg(validated, Email)) && Password !in validated && ModelData(validated)
    ensures !PasswordMatches(NewUserFrom(validated, normalize, hash, id, token, now).value, raw, hash)
  {
  }
}
