/**
 * The account-deletion box (`front/src/components/forms/delete-account.jsx`):
 * deletion runs only once the user has typed the confirmation word, and the
 * session is closed only after the server has deleted the account.
 */
module DeleteAccount {
  import opened Js
  import opened Browser
  import Api
  import ApiClient

  const ConfirmWord := "SUPPRIMER"
  const NotConfirmed := "Tapez SUPPRIMER pour confirmer."
  const Deleted := "Compte supprimé."
  const DeleteFallback := "Échec de la suppression"

  /** The box's state: the text typed in and the loading flag. */
  datatype State = State(confirm: string, loading: bool)

  /**
   * `onDelete`: without the exact word only an error toast is shown and the
   * loading flag is not touched; otherwise the account is deleted and, only
   * on success, the user is logged out. Loading ends false after an attempt.
   */
  function DeleteEffect(s: State, w: World): (out: (State, World))
    ensures s.confirm != ConfirmWord ==> out == (s, ShowToast(w, Failure(NotConfirmed)))
    ensures s.confirm == ConfirmWord ==> out.0 == s.(loading := false)
    ensures s.confirm == ConfirmWord && Api.DeleteAccount(w).1.Ok? ==>
              out.1 == Api.Logout(ShowToast(Api.DeleteAccount(w).0, Success(Deleted)), Api.LogoutTarget)
    ensures s.confirm == ConfirmWord && Api.DeleteAccount(w).1.Err? ==>
              out.1 == ShowToast(Api.DeleteAccount(w).0, Failure(
                if Api.DeleteAccount(w).1.error.message != "" then Api.DeleteAccount(w).1.error.message else DeleteFallback))
  {
    if s.confirm != ConfirmWord then (s, ShowToast(w, Failure(NotConfirmed)))
    else
      var (w1, r) := Api.DeleteAccount(w);
      match r
      case Ok(_) => (s.(loading := false), Api.Logout(ShowToast(w1, Success(Deleted)), Api.LogoutTarget))
      case Err(e) => (s.(loading := false), ShowToast(w1, Failure(if e.message != "" then e.message else DeleteFallback)))
  }

  /** Without the confirmation word nothing is sent and the session is kept. */
  lemma GuardSendsNothing(s: State, w: World)
    requires s.confirm != ConfirmWord
    ensures DeleteEffect(s, w).1.sent == w.sent && DeleteEffect(s, w).1.storage == w.storage && DeleteEffect(s, w).1.nav == w.nav
  {
  }

  /**
   * The session ends exactly when the deletion succeeded: both tokens are
   * gone and the page leaves for the login page; after a failure no
   * navigation happens and the refresh token is still stored.
   */
  lemma LogoutOnlyAfterDeletion(s: State, w: World)
    requires s.confirm == ConfirmWord
    ensures var out := DeleteEffect(s, w).1;
            Api.DeleteAccount(w).1.Ok? <==> out.nav == w.nav + [Assign(Api.LogoutTarget)]
    ensures var out := DeleteEffect(s, w).1;
            Api.DeleteAccount(w).1.Ok? ==> Api.AccessKey !in out.storage && Api.RefreshKey !in out.storage
    ensures var out := DeleteEffect(s, w).1;
            Api.DeleteAccount(w).1.Err? ==> out.nav == w.nav && Api.SameButAccess(w.storage, out.storage)
  {
    var (w1, r) := Api.DeleteAccount(w);
    if r.Err? {
      assert DeleteEffect(s, w).1.nav == w1.nav == w.nav;
      assert |w.nav + [Assign(Api.LogoutTarget)]| != |w.nav|;
    }
  }

  class Box {
    const client: ApiClient.Client
    var confirm: string
    var loading: bool

    function Current(): State
      reads this
    {
      State(confirm, loading)
    }

    constructor (client: ApiClient.Client)
      ensures this.client == client && Current() == State("", false)
    {
      this.client := client;
      confirm := "";
      loading := false;
    }

    /** The input's `onChange`. */
    method Type(text: string)
      modifies this
      ensures Current() == old(Current()).(confirm := text)
    {
      confirm := text;
    }

    method OnDelete()
      modifies this, client.win
      ensures (Current(), client.win.State()) == DeleteEffect(old(Current()), old(client.win.State()))
    {
      if confirm != ConfirmWord {
        client.win.Notify(Failure(NotConfirmed));
        return;
      }
      loading := true;
      var r := client.DeleteAccount();
      if r.Ok? {
        client.win.Notify(Success(Deleted));
        client.Logout(Api.LogoutTarget);
      } else {
        client.win.Notify(Failure(if r.error.message != "" then r.error.message else DeleteFallback));
      }
      loading := false;
    }
  }
}
