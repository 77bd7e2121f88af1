/**
 * The language and currency dialog (`front/src/components/language-currency-modal.jsx`).
 * On opening it reloads the user's preferences and resolves them against
 * the supported languages and currencies; a click on a language or a
 * currency applies it at once and sends it to the server; "save" sends both
 * and closes. `updatePreferences` is not defined in the client library this
 * model covers, so how each call settles is a parameter.
 */
module LanguageCurrencyModal {
  import opened Js
  import opened Browser
  import UserApi
  import UserApiClient

  const Languages := ["fr", "en", "es"]
  const Currencies := ["EUR", "USD"]

  /** `user?.k` on the context user, which may be null or undefined. */
  function UserField(user: Option<Json>, k: string): Option<Json>
  {
    if user.Some? && user.value != JNull then Member(user.value, k) else None
  }

  /** `profile.k || user?.k || selected || fallback` */
  function Pick(profile: Json, user: Option<Json>, k: string, selected: string, fallback: string): (r: Json)
    requires profile != JNull && fallback != ""
    ensures Truthy(Some(r))
    ensures Truthy(Member(profile, k)) ==> r == Member(profile, k).value
    ensures !Truthy(Member(profile, k)) && Truthy(UserField(user, k)) ==> r == UserField(user, k).value
    ensures !Truthy(Member(profile, k)) && !Truthy(UserField(user, k)) ==> r == JStr(if selected != "" then selected else fallback)
  {
    Or(Member(profile, k), Or(UserField(user, k), Or(Some(JStr(selected)), JStr(fallback))))
  }

  /** `.toLowerCase()` / `.toUpperCase()` exist only on strings: on any other value the call throws (`None`). */
  function Lowered(v: Json): Option<string>
  {
    if v.JStr? then Some(ToLower(v.s)) else None
  }

  function Uppered(v: Json): Option<string>
  {
    if v.JStr? then Some(ToUpper(v.s)) else None
  }

  /** `set.has(x) ? x : fallback` */
  function Supported(x: string, supported: seq<string>, fallback: string): (r: string)
    ensures x in supported ==> r == x
    ensures x !in supported ==> r == fallback
  {
    if x in supported then x else fallback
  }

  /** The two selections of the dialog. */
  datatype Selection = Selection(language: string, currency: string)

  /**
   * The `try` block after a successful profile fetch: each preference comes
   * from the profile, else the context user, else the current selection,
   * else the default, case-normalised and reset to fr / EUR when unsupported.
   */
  function Resolve(profile: Json, user: Option<Json>, current: Selection): (r: Option<Selection>)
    ensures r.Some? ==> r.value.language in Languages && r.value.currency in Currencies
    ensures r.None? <==>
              profile == JNull
              || Lowered(Pick(profile, user, "language", current.language, "fr")).None?
              || Uppered(Pick(profile, user, "currency", current.currency, "EUR")).None?
    ensures r.Some? ==>
              var l := Lowered(Pick(profile, user, "language", current.language, "fr")).value;
              (l in Languages ==> r.value.language == l) && (l !in Languages ==> r.value.language == "fr")
    ensures r.Some? ==>
              var c := Uppered(Pick(profile, user, "currency", current.currency, "EUR")).value;
              (c in Currencies ==> r.value.currency == c) && (c !in Currencies ==> r.value.currency == "EUR")
  {
    if profile == JNull then None
    else
      var lang := Lowered(Pick(profile, user, "language", current.language, "fr"));
      var curr := Uppered(Pick(profile, user, "currency", current.currency, "EUR"));
      if lang.None? || curr.None? then None
      else Some(Selection(Supported(lang.value, Languages, "fr"), Supported(curr.value, Currencies, "EUR")))
  }

  /** A supported language stored in the profile wins over everything else, whatever its case. */
  lemma ProfileLanguageWins(profile: Json, user: Option<Json>, current: Selection, s: string)
    requires profile.JObj? && "language" in profile.fields && profile.fields["language"] == JStr(s)
    requires ToLower(s) in Languages
    requires Uppered(Pick(profile, user, "currency", current.currency, "EUR")).Some?
    ensures Resolve(profile, user, current).Some? && Resolve(profile, user, current).value.language == ToLower(s)
  {
  }

  /** An unsupported stored language falls back to French. */
  lemma UnsupportedLanguageResets(profile: Json, user: Option<Json>, current: Selection)
    requires profile.JObj? && "language" in profile.fields && profile.fields["language"] == JStr("de")
    requires Uppered(Pick(profile, user, "currency", current.currency, "EUR")).Some?
    ensures Resolve(profile, user, current).Some? && Resolve(profile, user, current).value.language == "fr"
  {
    assert ToLower("de") == "de";
  }

  /**
   * The `catch` block: the context user's value, when truthy, is turned into
   * a string and case-normalised but not checked against the supported lists.
   */
  function Fallback(user: Option<Json>, current: Selection): (r: Selection)
    ensures Truthy(UserField(user, "language")) ==> r.language == ToLower(JsString(UserField(user, "language")))
    ensures !Truthy(UserField(user, "language")) ==> r.language == current.language
    ensures Truthy(UserField(user, "currency")) ==> r.currency == ToUpper(JsString(UserField(user, "currency")))
    ensures !Truthy(UserField(user, "currency")) ==> r.currency == current.currency
  {
    Selection(
      if Truthy(UserField(user, "language")) then ToLower(JsString(UserField(user, "language"))) else current.language,
      if Truthy(UserField(user, "currency")) then ToUpper(JsString(UserField(user, "currency"))) else current.currency)
  }

  /** After a failed fetch an unsupported language from the context is shown as it is. */
  lemma FallbackIsUnchecked(current: Selection)
    ensures var user := Some(JObj(map["language" := JStr("de")]));
            Fallback(user, current).language == "de" && Fallback(user, current).language !in Languages
  {
    assert ToLower("de") == "de";
  }

  /** The open effect's outcome, given how `fetchUserProfile()` settled. */
  function OpenSelection(fetched: Result<Json>, user: Option<Json>, current: Selection): (r: Selection)
    ensures fetched.Ok? && Resolve(fetched.value, user, current).Some? ==>
              r.language in Languages && r.currency in Currencies
    ensures fetched.Ok? && Resolve(fetched.value, user, current).Some? ==> r == Resolve(fetched.value, user, current).value
    ensures fetched.Ok? && Resolve(fetched.value, user, current).None? ==> r == Fallback(user, current)
    ensures fetched.Err? ==> r == Fallback(user, current)
  {
    if fetched.Ok? then
      var resolved := Resolve(fetched.value, user, current);
      if resolved.Some? then resolved.value else Fallback(user, current)
    else Fallback(user, current)
  }

  /**
   * A fetched profile whose language is a number makes `.toLowerCase()` throw,
   * so the dialog falls back to the context user's values.
   */
  lemma NumericLanguageFallsBack(user: Option<Json>, current: Selection)
    ensures OpenSelection(Ok(JObj(map["language" := JNum(5)])), user, current) == Fallback(user, current)
  {
    var profile := JObj(map["language" := JNum(5)]);
    assert Member(profile, "language") == Some(JNum(5));
    assert Lowered(Pick(profile, user, "language", current.language, "fr")).None?;
  }

  /** The body of a language click's request: the language and the time zone, nothing else. */
  function LanguageUpdate(code: string, timeZone: string): (m: map<string, Json>)
    ensures m.Keys == {"language", "timezone"} && m["language"] == JStr(code)
  {
    map["language" := JStr(code), "timezone" := JStr(timeZone)]
  }

  /** The body of a currency click's request: the currency alone. */
  function CurrencyUpdate(code: string): (m: map<string, Json>)
    ensures m.Keys == {"currency"} && m["currency"] == JStr(code)
  {
    map["currency" := JStr(code)]
  }

  /** The body sent by "save": both selections and the time zone. */
  function SaveUpdate(s: Selection, timeZone: string): (m: map<string, Json>)
    ensures m.Keys == {"language", "currency", "timezone"}
    ensures m["language"] == JStr(s.language) && m["currency"] == JStr(s.currency)
  {
    map["language" := JStr(s.language), "currency" := JStr(s.currency), "timezone" := JStr(timeZone)]
  }

  class Modal {
    const client: UserApiClient.Client
    var selectedLanguage: string
    var selectedCurrency: string
    /** The `open` prop, which the parent changes through `onOpenChange`. */
    var open: bool
    /** The bodies passed to `updatePreferences`, in order. */
    var updates: seq<map<string, Json>>

    function Current(): Selection
      reads this
    {
      Selection(selectedLanguage, selectedCurrency)
    }

    constructor (client: UserApiClient.Client, open: bool)
      ensures this.client == client && Current() == Selection("fr", "EUR") && this.open == open && updates == []
    {
      this.client := client;
      selectedLanguage := "fr";
      selectedCurrency := "EUR";
      this.open := open;
      updates := [];
    }

    /** The open effect: reload the profile and resolve the selections; a closed dialog does nothing. */
    method OnOpen(user: Option<Json>) returns (fetched: Option<Result<Json>>)
      modifies this, client.core.win
      ensures !old(open) ==> fetched == None && Current() == old(Current()) && client.core.win.State() == old(client.core.win.State())
      ensures old(open) ==>
                (fetched.Some?
                 && (client.core.win.State(), fetched.value) == UserApi.FetchUserProfile(old(client.core.win.State()))
                 && Current() == OpenSelection(fetched.value, user, old(Current())))
      ensures open == old(open) && updates == old(updates)
    {
      if !open {
        return None;
      }
      var r := client.FetchUserProfile();
      var s := OpenSelection(r, user, Current());
      selectedLanguage := s.language;
      selectedCurrency := s.currency;
      fetched := Some(r);
    }

    /** A language click: the selection changes first, then the request; its failure is swallowed. */
    method SelectLanguage(code: string, timeZone: string, outcome: Result<Json>)
      modifies this
      ensures selectedLanguage == code && selectedCurrency == old(selectedCurrency)
      ensures updates == old(updates) + [LanguageUpdate(code, timeZone)]
      ensures open == old(open)
    {
      selectedLanguage := code;
      updates := updates + [LanguageUpdate(code, timeZone)];
    }

    /** A currency click: the same, with the currency. */
    method SelectCurrency(code: string, outcome: Result<Json>)
      modifies this
      ensures selectedCurrency == code && selectedLanguage == old(selectedLanguage)
      ensures updates == old(updates) + [CurrencyUpdate(code)]
      ensures open == old(open)
    {
      selectedCurrency := code;
      updates := updates + [CurrencyUpdate(code)];
    }

    /** "Save": both selections are sent and the dialog closes, whether the request succeeds or fails. */
    method Save(timeZone: string, outcome: Result<Json>)
      modifies this
      ensures updates == old(updates) + [SaveUpdate(old(Current()), timeZone)]
      ensures !open
      ensures Current() == old(Current())
    {
      updates := updates + [SaveUpdate(Current(), timeZone)];
      if outcome.Ok? {
        open := false;
      } else {
        open := false;
      }
    }
  }
}
