/**
 * `ChangePasswordView.post` (`back/auth_service/api/views.py`): the
 * authenticated user changes their own password by giving the old one and
 * the new one twice. The framework has already authenticated the request;
 * the view receives its user and its parsed payload.
 */
module Views {
  import opened Js
  import opened Models
  import opened Serializers

  datatype Response = Response(status: int, body: Json)

  const BadRequest := 400
  const Okay := 200

  const WrongOldPassword := "Ancien mot de passe incorrect."
  const PasswordChanged := "Mot de passe changé avec succès."

  /** The JSON rendering of `serializer.errors`: each field's list of messages. */
  function ErrorsBody(errors: Errors): (body: Json)
    ensures body.JObj? && body.fields.Keys == errors.Keys
    ensures forall k :: k in errors ==> body.fields[k] == JArr(Messages(errors[k]))
  {
    JObj(map k | k in errors :: JArr(Messages(errors[k])))
  }

  function Messages(ms: seq<string>): (r: seq<Json>)
    ensures |r| == |ms| && forall i :: 0 <= i < |ms| ==> r[i] == JStr(ms[i])
  {
    if ms == [] then [] else [JStr(ms[0])] + Messages(ms[1..])
  }

  const WrongOldBody := JObj(map[OldPassword := JStr(WrongOldPassword)])
  const ChangedBody := JObj(map["status" := JStr("success"), "message" := JStr(PasswordChanged)])

  /** Whether `post` saves the user: the payload is valid and the old password checks. */
  predicate Changes(f: Fields, data: Payload, validatePassword: string -> seq<string>, hash: string -> string)
  {
    var v := IsValid(data, validatePassword);
    v.Valid? && OldPassword in v.data && PasswordMatches(f, v.data[OldPassword], hash)
  }

  /**
   * `post` on the user's fields: an invalid payload is answered 400 with the
   * errors, a wrong old password 400 keyed `old_password`, both leaving the
   * user as it was; otherwise the new password, stripped as the serializer
   * validated it, is set and 200 reports success.
   */
  function PostEffect(f: Fields, data: Payload, validatePassword: string -> seq<string>, hash: string -> string): (out: (Fields, Response))
    ensures IsValid(data, validatePassword).Invalid? ==>
              out == (f, Response(BadRequest, ErrorsBody(IsValid(data, validatePassword).errors)))
    ensures IsValid(data, validatePassword).Valid? && !Changes(f, data, validatePassword, hash) ==>
              out == (f, Response(BadRequest, WrongOldBody))
    ensures Changes(f, data, validatePassword, hash) ==>
              out == (f[Password := Hashed(hash(Strip(data[NewPassword])))], Response(Okay, ChangedBody))
    ensures out.1.status == Okay <==> Changes(f, data, validatePassword, hash)
    ensures !Changes(f, data, validatePassword, hash) ==> out.0 == f
  {
    var v := IsValid(data, validatePassword);
    if v.Invalid? then (f, Response(BadRequest, ErrorsBody(v.errors)))
    else
      IsValidIffAcceptable(data, validatePassword);
      if !PasswordMatches(f, v.data[OldPassword], hash) then (f, Response(BadRequest, WrongOldBody))
      else (f[Password := Hashed(hash(v.data[NewPassword]))], Response(Okay, ChangedBody))
  }

  /** After a successful change the new password checks, and nothing but the password changed. */
  lemma SuccessfulChange(f: Fields, data: Payload, validatePassword: string -> seq<string>, hash: string -> string)
    requires Changes(f, data, validatePassword, hash)
    ensures PasswordMatches(PostEffect(f, data, validatePassword, hash).0, Strip(data[NewPassword]), hash)
    ensures PostEffect(f, data, validatePassword, hash).0 - {Password} == f - {Password}
  {
    IsValidIffAcceptable(data, validatePassword);
  }

  /**
   * Blanks around the passwords do not count: a new password padded with
   * spaces matches its unpadded confirmation, and the unpadded one is set.
   */
  lemma PaddedPasswordAccepted(f: Fields, validatePassword: string -> seq<string>, hash: string -> string)
    requires PasswordMatches(f, "Old12345!", hash) && validatePassword("Abcdef1!") == []
    ensures var data := map[OldPassword := "Old12345!", NewPassword := " Abcdef1! ", ConfirmNewPassword := "Abcdef1!"];
            PostEffect(f, data, validatePassword, hash) == (f[Password := Hashed(hash("Abcdef1!"))], Response(Okay, ChangedBody))
  {
    var data := map[OldPassword := "Old12345!", NewPassword := " Abcdef1! ", ConfirmNewPassword := "Abcdef1!"];
    StripUnchanged("Abcdef1!");
    StripUnchanged("Old12345!");
    StripPadded("Abcdef1!");
    assert [' '] + "Abcdef1!" + [' '] == " Abcdef1! ";
    assert Acceptable(data, validatePassword);
    IsValidIffAcceptable(data, validatePassword);
  }

  /** A refused request leaves the old password in force. */
  lemma RefusedKeepsPassword(f: Fields, data: Payload, validatePassword: string -> seq<string>, hash: string -> string, raw: string)
    requires !Changes(f, data, validatePassword, hash)
    ensures PostEffect(f, data, validatePassword, hash).1.status == BadRequest
    ensures PasswordMatches(PostEffect(f, data, validatePassword, hash).0, raw, hash) == PasswordMatches(f, raw, hash)
  {
    IsValidIffAcceptable(data, validatePassword);
  }

  /**
   * The payload is checked before the old password: a request that is both
   * incomplete and wrong about the old password gets the field errors.
   */
  lemma ValidationComesFirst(f: Fields, data: Payload, validatePassword: string -> seq<string>, hash: string -> string)
    requires OldPassword in data && !PasswordMatches(f, data[OldPassword], hash)
    requires NewPassword !in data
    ensures PostEffect(f, data, validatePassword, hash).1.body.JObj?
    ensures NewPassword in PostEffect(f, data, validatePassword, hash).1.body.fields
  {
    MissingFieldReported(data, validatePassword, NewPassword);
  }

  /** `ChangePasswordView`, for the request's user. Only that user is changed, and it is saved once on success. */
  method Post(user: User, data: Payload, validatePassword: string -> seq<string>, hash: string -> string) returns (resp: Response)
    modifies user
    ensures (user.fields, resp) == PostEffect(old(user.fields), data, validatePassword, hash)
    ensures user.saved == old(user.saved) + (if Changes(old(user.fields), data, validatePassword, hash) then [user.fields] else [])
  {
    var v := IsValid(data, validatePassword);
    if v.Invalid? {
      return Response(BadRequest, ErrorsBody(v.errors));
    }
    IsValidIffAcceptable(data, validatePassword);
    if !user.CheckPassword(v.data[OldPassword], hash) {
      return Response(BadRequest, WrongOldBody);
    }
    user.SetPassword(Some(v.data[NewPassword]), hash);
    user.Save();
    resp := Response(Okay, ChangedBody);
  }
}
