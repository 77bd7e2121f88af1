/**
 * The private-messages page (`front/src/app/messages/page.jsx`): the
 * conversation list with unread counters, the selected thread, and the
 * composer. Conversation ids are numbers; `selectedId` may be null, and a
 * selected id of 0 is falsy, as in JavaScript.
 */
module MessagesPage {
  import opened Js
  import opened Browser

  datatype Conversation = Conversation(id: int, name: string, avatar: string, lastMessage: string, unread: int)

  datatype Message = Message(id: int, from: string, text: string, time: string)

  function SampleConversations(): seq<Conversation>
  {
    [ Conversation(1, "Teddy Riner", "/images/teddy-1.jpg", "On se parle demain ?", 2),
      Conversation(2, "Clarisse A.", "/images/clarisse-1.jpg", "Merci !", 0),
      Conversation(3, "Victor W.", "/images/wemby-1.jpg", "Ok pour vendredi", 1),
      Conversation(4, "Caroline G.", "/images/garcia-1.jpg", "A bientôt", 0) ]
  }

  function InitialMessages(): map<int, seq<Message>>
  {
    map[
      1 := [Message(101, "them", "Salut !", "10:21"), Message(102, "me", "Hello Teddy, dispo demain ?", "10:22"),
            Message(103, "them", "Oui, parfait.", "10:24")],
      2 := [Message(201, "me", "Félicitations pour la victoire !", "09:05"), Message(202, "them", "Merci !", "09:08")],
      3 := [Message(301, "them", "Ok pour vendredi", "11:12")],
      4 := []]
  }

  /** The explorer tab is highlighted on "/" and under these prefixes (this page does not list "/explorer"). */
  const ExplorerPrefixes := ["/athletes", "/teams", "/organisations"]

  predicate IsExplorer(pathname: string)
  {
    pathname == "/" || StartsWithAny(pathname, ExplorerPrefixes)
  }

  predicate Selects(selected: Option<int>, c: Conversation)
  {
    selected == Some(c.id)
  }

  /**
   * The mark-read updater: the selected conversation's counter drops to 0,
   * every other field and every other conversation stays as it was.
   */
  function MarkRead(convs: seq<Conversation>, selected: Option<int>): (r: seq<Conversation>)
    ensures |r| == |convs|
    ensures forall i :: 0 <= i < |r| ==> r[i].(unread := convs[i].unread) == convs[i]
    ensures forall i :: 0 <= i < |r| && Selects(selected, convs[i]) ==> r[i].unread == 0
    ensures forall i :: 0 <= i < |r| && !Selects(selected, convs[i]) ==> r[i] == convs[i]
  {
    if convs == [] then []
    else
      var c := convs[0];
      [if Selects(selected, c) then c.(unread := 0) else c] + MarkRead(convs[1..], selected)
  }

  /** Marking the same conversation read twice changes nothing the second time. */
  lemma MarkReadIdempotent(convs: seq<Conversation>, selected: Option<int>)
    ensures MarkRead(MarkRead(convs, selected), selected) == MarkRead(convs, selected)
  {
    var once := MarkRead(convs, selected);
    var twice := MarkRead(once, selected);
    forall i | 0 <= i < |once| ensures twice[i] == once[i] {
      assert once[i].id == convs[i].id;
    }
  }

  /** The number of conversations showing an unread badge (`c.unread > 0`). */
  function Badges(convs: seq<Conversation>): nat
  {
    if convs == [] then 0 else (if convs[0].unread > 0 then 1 else 0) + Badges(convs[1..])
  }

  /** Marking a conversation read never adds a badge. */
  lemma {:induction false} MarkReadRemovesBadges(convs: seq<Conversation>, selected: Option<int>)
    ensures Badges(MarkRead(convs, selected)) <= Badges(convs)
  {
    if convs != [] {
      MarkReadRemovesBadges(convs[1..], selected);
      assert MarkRead(convs, selected)[1..] == MarkRead(convs[1..], selected);
    }
  }

  /** `conversations.find(c => c.id === selectedId) || null`: the first conversation with that id. */
  function FindConversation(convs: seq<Conversation>, selected: Option<int>): (r: Option<Conversation>)
    ensures r.Some? ==> exists i :: 0 <= i < |convs| && convs[i] == r.value && Selects(selected, convs[i])
                          && forall j :: 0 <= j < i ==> !Selects(selected, convs[j])
    ensures r.None? <==> forall j :: 0 <= j < |convs| ==> !Selects(selected, convs[j])
  {
    if convs == [] then None
    else if Selects(selected, convs[0]) then Some(convs[0])
    else
      var r := FindConversation(convs[1..], selected);
      assert forall j :: 1 <= j < |convs| ==> convs[j] == convs[1..][j - 1];
      r
  }

  /** `messagesByConv[selectedId] || []`: a missing thread, or no selection, shows as empty. */
  function Thread(byConv: map<int, seq<Message>>, selected: Option<int>): seq<Message>
  {
    if selected.Some? && selected.value in byConv then byConv[selected.value] else []
  }

  /** `selectedId` in a condition: null and 0 are falsy. */
  predicate SelectionTruthy(selected: Option<int>)
  {
    selected.Some? && selected.value != 0
  }

  /** The composer sends on Enter without Shift. */
  predicate SendsOnKey(key: string, shiftKey: bool)
  {
    key == "Enter" && !shiftKey
  }

  /** The message of the auth guard and where it sends a signed-out visitor. */
  const SignInRequired := "Vous devez être connecté pour accéder à cette page."

  function LoginRedirect(pathname: string): string
  {
    "/login?next=" + EncodeURIComponent(pathname)
  }

  /** The auth-guard effect: a signed-out visitor gets an error toast and is sent to the login page. */
  function Guard(w: World, user: Option<Json>, pathname: string): (w': World)
    ensures Truthy(user) ==> w' == w
    ensures !Truthy(user) ==>
              w'.toasts == w.toasts + [Failure(SignInRequired)] && w'.nav == w.nav + [Replace(LoginRedirect(pathname))]
              && w'.storage == w.storage && w'.sent == w.sent
  {
    if Truthy(user) then w else Navigate(ShowToast(w, Failure(SignInRequired)), Replace(LoginRedirect(pathname)))
  }

  /** The page renders nothing until there is a user. */
  predicate Renders(user: Option<Json>)
  {
    Truthy(user)
  }

  class Page {
    var conversations: seq<Conversation>
    var selectedId: Option<int>
    var messagesByConv: map<int, seq<Message>>
    var input: string

    /** The initial state: the first conversation is selected (`sampleConversations[0]?.id ?? null`). */
    constructor (convs: seq<Conversation>, byConv: map<int, seq<Message>>)
      ensures conversations == convs && messagesByConv == byConv && input == ""
      ensures selectedId == if convs == [] then None else Some(convs[0].id)
    {
      conversations := convs;
      selectedId := if convs == [] then None else Some(convs[0].id);
      messagesByConv := byConv;
      input := "";
    }

    /** The effect that runs whenever `selectedId` changes. */
    method MarkSelectedRead()
      modifies this
      ensures conversations == MarkRead(old(conversations), selectedId)
      ensures selectedId == old(selectedId) && messagesByConv == old(messagesByConv) && input == old(input)
    {
      conversations := MarkRead(conversations, selectedId);
    }

    /** A click on a conversation: select it, then the mark-read effect. */
    method Select(id: int)
      modifies this
      ensures selectedId == Some(id)
      ensures conversations == MarkRead(old(conversations), Some(id))
      ensures messagesByConv == old(messagesByConv) && input == old(input)
    {
      selectedId := Some(id);
      MarkSelectedRead();
    }

    method Type(text: string)
      modifies this
      ensures input == text
      ensures conversations == old(conversations) && selectedId == old(selectedId) && messagesByConv == old(messagesByConv)
    {
      input := text;
    }

    /**
     * `sendMessage`: a blank draft or no (truthy) selection changes nothing;
     * otherwise the trimmed text is appended to the selected thread as a
     * message from "me" and the draft is cleared. Other threads are untouched.
     */
    method SendMessage(newId: int, time: string)
      modifies this
      ensures var text := Trim(old(input));
              if text == "" || !SelectionTruthy(old(selectedId)) then
                messagesByConv == old(messagesByConv) && input == old(input)
              else
                messagesByConv == old(messagesByConv)[old(selectedId).value :=
                  Thread(old(messagesByConv), old(selectedId)) + [Message(newId, "me", text, time)]]
                && input == ""
      ensures conversations == old(conversations) && selectedId == old(selectedId)
    {
      var text := Trim(input);
      if text == "" || !SelectionTruthy(selectedId) {
        return;
      }
      var id := selectedId.value;
      messagesByConv := messagesByConv[id := Thread(messagesByConv, selectedId) + [Message(newId, "me", text, time)]];
      input := "";
    }

    /** The composer's key handler. */
    method KeyDown(key: string, shiftKey: bool, newId: int, time: string)
      modifies this
      ensures !SendsOnKey(key, shiftKey) ==>
                conversations == old(conversations) && selectedId == old(selectedId)
                && messagesByConv == old(messagesByConv) && input == old(input)
      ensures SendsOnKey(key, shiftKey) ==>
                var text := Trim(old(input));
                if text == "" || !SelectionTruthy(old(selectedId)) then
                  messagesByConv == old(messagesByConv) && input == old(input)
                else
                  messagesByConv == old(messagesByConv)[old(selectedId).value :=
                    Thread(old(messagesByConv), old(selectedId)) + [Message(newId, "me", text, time)]]
                  && input == ""
      ensures conversations == old(conversations) && selectedId == old(selectedId)
      ensures SendsOnKey(key, shiftKey) && Trim(old(input)) != "" && SelectionTruthy(selectedId) ==>
                Thread(messagesByConv, selectedId) == Thread(old(messagesByConv), selectedId) + [Message(newId, "me", Trim(old(input)), time)]
                && (forall c :: c != selectedId.value ==> Thread(messagesByConv, Some(c)) == Thread(old(messagesByConv), Some(c)))
    {
      if SendsOnKey(key, shiftKey) {
        SendMessage(newId, time);
      }
    }
  }
}
