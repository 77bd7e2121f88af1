/**
 * The form that sets a new password from a reset link
 * (`front/src/components/forms/reset-password-confirm-form.jsx`): two
 * password fields that must match, the token read from the page's URL, and
 * the message shown once the reset has been tried.
 */
module ResetPasswordConfirmForm {
  import opened Js
  import opened Browser
  import opened Validators
  import Api
  import ApiClient

  /** The two fields; `None` is a field never filled. */
  datatype Values = Values(newPassword: Option<string>, confirmPassword: Option<string>)

  const TooShort := "Password must be at least 8 characters long"
  const Mismatch := Issue("confirm_password", "Passwords do not match")

  const MissingToken := "Reset token is missing from the URL."
  const ResetDone := "Your password has been reset successfully. Please login with your new password."
  const ResetFailed := "Failed to reset password. Please try again."

  /** `resetPasswordConfirmSchema`: both fields at least 8 long, then the mismatch when both are present and differ. */
  function Issues(v: Values): (r: seq<Issue>)
    ensures v.newPassword.Some? && v.confirmPassword.Some? && v.newPassword.value != v.confirmPassword.value ==>
              |r| > 0 && r[|r| - 1] == Mismatch
  {
    MinIssues("new_password", v.newPassword, 8, TooShort)
    + MinIssues("confirm_password", v.confirmPassword, 8, TooShort)
    + (if v.newPassword.Some? && v.confirmPassword.Some? && v.newPassword.value != v.confirmPassword.value
       then [Mismatch] else [])
  }

  /** The schema passes exactly for two equal passwords of at least 8 characters. */
  lemma IssuesEmptyIff(v: Values)
    ensures Issues(v) == [] <==>
              v.newPassword.Some? && v.confirmPassword.Some? && |v.newPassword.value| >= 8
              && v.newPassword.value == v.confirmPassword.value
  {
    var a := MinIssues("new_password", v.newPassword, 8, TooShort);
    var b := MinIssues("confirm_password", v.confirmPassword, 8, TooShort);
    var c := if v.newPassword.Some? && v.confirmPassword.Some? && v.newPassword.value != v.confirmPassword.value
             then [Mismatch] else [];
    assert Issues(v) == a + b + c;
  }

  /** The form's state: the loading flag and the message under the form. */
  datatype State = State(loading: bool, message: string)

  /**
   * `onSubmit` with values the schema accepted. Without a token in the URL
   * only the message changes. Otherwise the URL's token and the new password
   * are sent, and the message says whether the reset went through.
   */
  function SubmitEffect(s: State, w: World, token: Option<string>, newPassword: string): (out: (State, World))
    ensures !Filled(token) ==> out == (s.(message := MissingToken), w)
    ensures Filled(token) ==>
              !out.0.loading
              && out.1 == Api.ConfirmPasswordReset(w, token.value, newPassword).0
              && out.1.sent == w.sent + [Api.ConfirmResetRequest(token.value, newPassword)]
              && (out.0.message == ResetDone <==> Api.NextIsOkJson(w))
              && (out.0.message == ResetDone || out.0.message == ResetFailed)
  {
    if !Filled(token) then (s.(message := MissingToken), w)
    else
      var (w1, r) := Api.ConfirmPasswordReset(w, token.value, newPassword);
      (State(false, if r.Ok? then ResetDone else ResetFailed), w1)
  }

  class Form {
    const client: ApiClient.Client
    var loading: bool
    var message: string

    function Current(): State
      reads this
    {
      State(loading, message)
    }

    constructor (client: ApiClient.Client)
      ensures this.client == client && Current() == State(false, "")
    {
      this.client := client;
      loading := false;
      message := "";
    }

    /** `handleSubmit(onSubmit)` with the URL's `token` parameter. */
    method Submit(v: Values, token: Option<string>) returns (issues: seq<Issue>)
      modifies this, client.win
      ensures issues == Issues(v)
      ensures issues != [] ==> Current() == old(Current()) && client.win.State() == old(client.win.State())
      ensures issues == [] ==>
                v.newPassword.Some?
                && (Current(), client.win.State()) == SubmitEffect(old(Current()), old(client.win.State()), token, v.newPassword.value)
    {
      issues := Issues(v);
      if issues != [] {
        return;
      }
      IssuesEmptyIff(v);
      if !Filled(token) {
        message := MissingToken;
        return;
      }
      loading := true;
      var r := client.ConfirmPasswordReset(token.value, v.newPassword.value);
      if r.Ok? {
        message := ResetDone;
      } else {
        message := ResetFailed;
      }
      loading := false;
    }
  }
}
