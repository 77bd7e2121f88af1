/**
 * The two forms that ask for a password-reset e-mail. Both send the address
 * to `resetPassword` and then tell the user the same thing whatever the
 * server answered, so the page does not reveal whether an account exists:
 * `front/src/components/reset-password-form.jsx` shows a message under the
 * form, `front/src/components/forms/reset-password-form.jsx` a toast.
 */
module ResetPasswordForm {
  import opened Js
  import opened Browser
  import opened Validators
  import Api
  import ApiClient

  const Sent := "If an account with that email exists, a reset link has been sent."

  /** `resetRequestSchema`: a single e-mail field. */
  function Issues(email: Option<string>, isEmail: string -> bool): (r: seq<Issue>)
    ensures r == [] <==> email.Some? && isEmail(email.value)
  {
    EmailIssues("email", email, isEmail, "Invalid email format")
  }

  datatype State = State(loading: bool, message: string)

  /** `onSubmit`: one request for the address; the message is the same on both outcomes. */
  function SubmitEffect(s: State, w: World, email: string): (out: (State, World))
    ensures out.0 == State(false, Sent)
    ensures out.1 == Api.ResetPassword(w, email).0
    ensures out.1.sent == w.sent + [Api.ResetPasswordRequest(email)]
    ensures out.1.nav == w.nav && out.1.toasts == w.toasts && out.1.storage == w.storage
  {
    var (w1, _) := Api.ResetPassword(w, email);
    (State(false, Sent), w1)
  }

  /** Whatever the server answers, the user sees the same thing. */
  lemma SameWhateverTheServerSays(s: State, w: World, w': World, email: string)
    requires w'.sent == w.sent && w'.storage == w.storage && w'.nav == w.nav && w'.toasts == w.toasts
    ensures SubmitEffect(s, w, email).0 == SubmitEffect(s, w', email).0
    ensures SubmitEffect(s, w, email).1.(replies := []) == SubmitEffect(s, w', email).1.(replies := [])
  {
  }

  class Form {
    const client: ApiClient.Client
    var loading: bool
    var message: string

    function Current(): State
      reads this
    {
      State(loading, message)
    }

    constructor (client: ApiClient.Client)
      ensures this.client == client && Current() == State(false, "")
    {
      this.client := client;
      loading := false;
      message := "";
    }

    method Submit(email: Option<string>, isEmail: string -> bool) returns (issues: seq<Issue>)
      modifies this, client.win
      ensures issues == Issues(email, isEmail)
      ensures issues != [] ==> Current() == old(Current()) && client.win.State() == old(client.win.State())
      ensures issues == [] ==>
                email.Some? && (Current(), client.win.State()) == SubmitEffect(old(Current()), old(client.win.State()), email.value)
    {
      issues := Issues(email, isEmail);
      if issues != [] {
        return;
      }
      loading := true;
      var r := client.ResetPassword(email.value);
      if r.Ok? {
        message := Sent;
      } else {
        message := Sent;
      }
      loading := false;
    }
  }
}

/** The toast variant (`front/src/components/forms/reset-password-form.jsx`). */
module ResetPasswordToastForm {
  import opened Js
  import opened Browser
  import opened Validators
  import Api
  import ApiClient

  const Sent := "Un email de réinitialisation a été envoyé !"

  function Issues(email: Option<string>, isEmail: string -> bool): (r: seq<Issue>)
    ensures r == [] <==> email.Some? && isEmail(email.value)
  {
    EmailIssues("email", email, isEmail, "Format d'email invalide")
  }

  /** `onSubmit`: one request, then the same success toast on both outcomes. */
  function SubmitEffect(w: World, email: string): (out: World)
    ensures out == ShowToast(Api.ResetPassword(w, email).0, Success(Sent))
    ensures out.sent == w.sent + [Api.ResetPasswordRequest(email)]
    ensures out.toasts == w.toasts + [Success(Sent)] && out.nav == w.nav && out.storage == w.storage
  {
    var (w1, r) := Api.ResetPassword(w, email);
    if r.Ok? then ShowToast(w1, Success(Sent)) else ShowToast(w1, Success(Sent))
  }

  /** Whatever the server answers, the user sees the same toast. */
  lemma SameWhateverTheServerSays(w: World, w': World, email: string)
    requires w'.sent == w.sent && w'.storage == w.storage && w'.nav == w.nav && w'.toasts == w.toasts
    ensures SubmitEffect(w, email).(replies := []) == SubmitEffect(w', email).(replies := [])
  {
  }

  class Form {
    const client: ApiClient.Client
    var loading: bool

    constructor (client: ApiClient.Client)
      ensures this.client == client && !loading
    {
      this.client := client;
      loading := false;
    }

    method Submit(email: Option<string>, isEmail: string -> bool) returns (issues: seq<Issue>)
      modifies this, client.win
      ensures issues == Issues(email, isEmail)
      ensures issues != [] ==> loading == old(loading) && client.win.State() == old(client.win.State())
      ensures issues == [] ==> email.Some? && !loading && client.win.State() == SubmitEffect(old(client.win.State()), email.value)
    {
      issues := Issues(email, isEmail);
      if issues != [] {
        return;
      }
      loading := true;
      var r := client.ResetPassword(email.value);
      client.win.Notify(Success(Sent));
      loading := false;
    }
  }
}
