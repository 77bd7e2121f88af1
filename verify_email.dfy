/**
 * The e-mail verification page (`front/src/app/verify-email/page.jsx`): it
 * reads the link's token, asks the server to verify it, tells the user how
 * that went, and always sends them on to the login page.
 */
module VerifyEmail {
  import opened Js
  import opened Browser
  import Api
  import ApiClient

  const NoToken := "Le jeton de vérification est manquant."
  const Verified := "Email vérifié avec succès !"
  const BadToken := "Jeton invalide ou expiré."
  const ServerTrouble := "Erreur du serveur. Réessayez plus tard."

  /** How a verification attempt is reported: only a status of 400 on the error counts as a bad token. */
  function Report(r: Result<Json>): (t: Toast)
    ensures r.Ok? <==> t == Success(Verified)
    ensures r.Err? && r.error.status == Some(400) <==> t == Failure(BadToken)
    ensures t == Success(Verified) || t == Failure(BadToken) || t == Failure(ServerTrouble)
  {
    if r.Ok? then Success(Verified)
    else if r.error.status == Some(400) then Failure(BadToken)
    else Failure(ServerTrouble)
  }

  /** The page's effect on the `token` parameter. */
  function VerifyEffect(w: World, token: Option<string>): (out: World)
    ensures !Filled(token) ==> out == Navigate(ShowToast(w, Failure(NoToken)), Push("/login"))
    ensures Filled(token) ==>
              out == Navigate(ShowToast(Api.VerifyEmail(w, token.value).0, Report(Api.VerifyEmail(w, token.value).1)), Push("/login"))
    ensures out.nav == w.nav + [Push("/login")]
    ensures |out.toasts| == |w.toasts| + 1 && out.toasts[..|w.toasts|] == w.toasts
    ensures out.storage == w.storage
  {
    if !Filled(token) then Navigate(ShowToast(w, Failure(NoToken)), Push("/login"))
    else
      var (w1, r) := Api.VerifyEmail(w, token.value);
      Navigate(ShowToast(w1, Report(r)), Push("/login"))
  }

  /** Without a token nothing is sent. */
  lemma NoTokenNoRequest(w: World, token: Option<string>)
    requires !Filled(token)
    ensures VerifyEffect(w, token).sent == w.sent
  {
  }

  /**
   * Classification against the server's reply: a 2xx answer is reported as
   * verified, a 400 answer with a body that is not `null` as a bad token, and
   * a failed request or any other status as server trouble.
   */
  lemma Classification(w: World, token: string)
    requires token != ""
    ensures var t := VerifyEffect(w, Some(token)).toasts[|w.toasts|];
            var reply := Api.NextReply(w);
            (t == Success(Verified) <==> reply.Answer? && reply.response.IsOk())
            && (reply.Answer? && reply.response.status == 400 && reply.response.body != Some(JNull) ==> t == Failure(BadToken))
            && (reply.NetworkError? || (reply.response.status != 400 && !reply.response.IsOk()) ==> t == Failure(ServerTrouble))
  {
    var (w1, r) := Api.VerifyEmail(w, token);
    var reply := Api.NextReply(w);
    if reply.NetworkError? {
      assert r == Err(NetworkFailure);
    } else if !reply.response.IsOk() && reply.response.body != Some(JNull) {
      assert r.error.status == Some(reply.response.status);
    } else if !reply.response.IsOk() {
      assert r == Err(TypeFailure);
    }
  }

  class Page {
    const client: ApiClient.Client

    constructor (client: ApiClient.Client)
      ensures this.client == client
    {
      this.client := client;
    }

    method OnToken(token: Option<string>)
      modifies client.win
      ensures client.win.State() == VerifyEffect(old(client.win.State()), token)
    {
      if !Filled(token) {
        client.win.Notify(Failure(NoToken));
        client.win.Go(Push("/login"));
        return;
      }
      var r := client.VerifyEmail(token.value);
      if r.Ok? {
        client.win.Notify(Success(Verified));
        client.win.Go(Push("/login"));
      } else {
        if r.error.status == Some(400) {
          client.win.Notify(Failure(BadToken));
        } else {
          client.win.Notify(Failure(ServerTrouble));
        }
        client.win.Go(Push("/login"));
      }
    }
  }
}
