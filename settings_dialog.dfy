/**
 * The profile form of the settings dialog (`front/src/components/settings-dialog.jsx`):
 * how a fetched user record is turned into form values (`form.reset`), how
 * the submitted values are turned back into the record's fields
 * (`onSubmit`), and the form's validation schema. The user's names and
 * phone are edited as one string each, so the two mappings are inverse only
 * under conditions on the stored values, which the round-trip lemmas state.
 */
module SettingsDialog {
  import opened Js

  /** The fields of the fetched user record that the form reads; `None` is a null or missing value. */
  datatype Profile = Profile(
    firstName: Option<string>,
    lastName: Option<string>,
    email: string,
    bio: Option<string>,
    phoneCountryCode: Option<string>,
    phoneNumber: Option<string>,
    country: Option<string>,
    urls: Option<seq<string>>)

  datatype UrlEntry = UrlEntry(value: string)

  /** The form's values. */
  datatype Form = Form(username: string, email: string, bio: string, phone: string, country: string, urls: seq<UrlEntry>)

  /** The fields `onSubmit` sends. */
  datatype Update = Update(
    firstName: string,
    lastName: string,
    email: string,
    bio: string,
    phoneNumber: string,
    phoneCountryCode: string,
    country: string,
    urls: seq<string>)

  /** `${user.first_name} ${user.last_name}`.trim() */
  function LoadedUsername(p: Profile): string
  {
    Trim(StrOrNull(p.firstName) + " " + StrOrNull(p.lastName))
  }

  /** `user.phone_country_code ? `${code} ${number}` : ""` */
  function LoadedPhone(p: Profile): (r: string)
    ensures !Filled(p.phoneCountryCode) ==> r == ""
    ensures Filled(p.phoneCountryCode) ==> r == p.phoneCountryCode.value + " " + StrOrNull(p.phoneNumber)
  {
    if Filled(p.phoneCountryCode) then p.phoneCountryCode.value + " " + StrOrNull(p.phoneNumber) else ""
  }

  function Entries(urls: seq<string>): (r: seq<UrlEntry>)
    ensures |r| == |urls| && forall i :: 0 <= i < |r| ==> r[i] == UrlEntry(urls[i])
  {
    if urls == [] then [] else [UrlEntry(urls[0])] + Entries(urls[1..])
  }

  function Values(entries: seq<UrlEntry>): (r: seq<string>)
    ensures |r| == |entries| && forall i :: 0 <= i < |r| ==> r[i] == entries[i].value
  {
    if entries == [] then [] else [entries[0].value] + Values(entries[1..])
  }

  /** The `form.reset` mapping. */
  function LoadForm(p: Profile): (f: Form)
    ensures f.username == LoadedUsername(p) && f.email == p.email && f.phone == LoadedPhone(p)
    ensures f.bio == OrStr(p.bio, "") && f.country == OrStr(p.country, "")
    ensures p.urls.Some? ==> Values(f.urls) == p.urls.value
    ensures p.urls.None? ==> f.urls == [UrlEntry("")]
  {
    Form(LoadedUsername(p), p.email, OrStr(p.bio, ""), LoadedPhone(p), OrStr(p.country, ""),
         if p.urls.Some? then Entries(p.urls.value) else [UrlEntry("")])
  }

  /** `s.split(" ")[0] || ""` */
  function FirstWord(s: string): string
  {
    Split(s, ' ')[0]
  }

  /** `s.split(" ").slice(1).join(" ") || ""` */
  function OtherWords(s: string): string
  {
    Join(Split(s, ' ')[1..], ' ')
  }

  /** The first word and the rest put back together give the whole string. */
  lemma {:induction false} WordsRejoin(s: string)
    ensures (if |Split(s, ' ')| == 1 then FirstWord(s) else FirstWord(s) + " " + OtherWords(s)) == s
  {
    JoinSplit(s, ' ');
    var parts := Split(s, ' ');
    if |parts| > 1 {
      assert Join(parts, ' ') == parts[0] + [' '] + Join(parts[1..], ' ');
    }
  }

  /** The `onSubmit` mapping: a first word and the rest, for the name and for the phone. */
  function SubmitUpdate(f: Form): (u: Update)
    ensures ' ' !in u.firstName && ' ' !in u.phoneCountryCode
    ensures u.urls == Values(f.urls) && u.email == f.email && u.bio == f.bio && u.country == f.country
  {
    var first := FirstWord(f.username);
    assert ' ' !in first by { NoSeparatorInParts(f.username, ' '); }
    var code := FirstWord(f.phone);
    assert ' ' !in code by { NoSeparatorInParts(f.phone, ' '); }
    Update(first, OtherWords(f.username), f.email, f.bio, OtherWords(f.phone), code, f.country, Values(f.urls))
  }

  /** No piece of a split holds the separator. */
  lemma {:induction false} NoSeparatorInParts(s: string, d: char)
    ensures forall i :: 0 <= i < |Split(s, d)| ==> d !in Split(s, d)[i]
  {
    if s != [] {
      NoSeparatorInParts(s[1..], d);
    }
  }

  /** `trimEnd` of a word with no blank, followed by one space, gives the word back. */
  lemma TrimEndDropsOneSpace(w: string)
    requires forall i :: 0 <= i < |w| ==> !IsSpace(w[i])
    ensures TrimEnd(w + " ") == w
  {
    var s := w + " ";
    var r := TrimEnd(s);
    assert IsSpace(s[|s| - 1]);
    if |w| > 0 {
      assert s[|w| - 1] == w[|w| - 1] && !IsSpace(s[|w| - 1]);
    }
    assert |r| == |w|;
    assert r == s[..|w|] == w;
  }

  /**
   * Round trip of the phone: loading a stored code and number and submitting
   * the field unchanged gives them back, provided the code is set and has
   * no space in it (the number may hold spaces).
   */
  lemma PhoneRoundTrip(p: Profile, f: Form)
    requires Filled(p.phoneCountryCode) && ' ' !in p.phoneCountryCode.value
    requires f == LoadForm(p)
    ensures SubmitUpdate(f).phoneCountryCode == p.phoneCountryCode.value
    ensures SubmitUpdate(f).phoneNumber == StrOrNull(p.phoneNumber)
  {
    var code := p.phoneCountryCode.value;
    var number := StrOrNull(p.phoneNumber);
    assert f.phone == code + [' '] + number;
    SplitAt(code, ' ', number);
    JoinSplit(number, ' ');
    assert Split(f.phone, ' ')[1..] == Split(number, ' ');
  }

  /** The loaded username of a blank-free first name and a last name that does not end in a blank. */
  lemma TrimmedName(first: string, last: string)
    requires first != "" && forall i :: 0 <= i < |first| ==> !IsSpace(first[i])
    requires last == "" || !IsSpace(last[|last| - 1])
    ensures Trim(first + " " + last) == if last == "" then first else first + " " + last
  {
    var s := first + " " + last;
    assert s[0] == first[0];
    assert TrimStart(s) == s;
    if last == "" {
      assert s == first + " ";
      TrimEndDropsOneSpace(first);
    } else {
      assert s[|s| - 1] == last[|last| - 1];
      TrimUnchanged(s);
    }
  }

  /**
   * Round trip of the name: loading and submitting unchanged gives back the
   * first and last names, provided the first name is set and holds no blank
   * and the last name does not end in one.
   */
  lemma NameRoundTrip(p: Profile, f: Form)
    requires p.firstName.Some? && p.lastName.Some?
    requires p.firstName.value != "" && forall i :: 0 <= i < |p.firstName.value| ==> !IsSpace(p.firstName.value[i])
    requires p.lastName.value == "" || !IsSpace(p.lastName.value[|p.lastName.value| - 1])
    requires f == LoadForm(p)
    ensures SubmitUpdate(f).firstName == p.firstName.value
    ensures SubmitUpdate(f).lastName == p.lastName.value
  {
    var first := p.firstName.value;
    var last := p.lastName.value;
    assert ' ' !in first by {
      forall i | 0 <= i < |first| ensures first[i] != ' ' { assert IsSpace(' ') && !IsSpace(first[i]); }
    }
    TrimmedName(first, last);
    assert f.username == LoadedUsername(p) == Trim(first + " " + last);
    if last == "" {
      SplitWithout(first, ' ');
      assert Split(f.username, ' ') == [first];
    } else {
      assert f.username == first + [' '] + last;
      SplitAt(first, ' ', last);
      JoinSplit(last, ' ');
      assert Split(f.username, ' ')[1..] == Split(last, ' ');
    }
  }

  /** Round trip of the URL list: the stored URLs come back as they were; with none stored, one blank URL is submitted. */
  lemma UrlsRoundTrip(p: Profile)
    ensures p.urls.Some? ==> SubmitUpdate(LoadForm(p)).urls == p.urls.value
    ensures p.urls.None? ==> SubmitUpdate(LoadForm(p)).urls == [""]
  {
  }

  /**
   * `profileFormSchema`: a username of 2 to 30 characters, an email, a bio
   * that, when present, holds 4 to 160 characters, and a URL in every entry.
   * The email and URL checks are the form library's and are parameters.
   */
  predicate SchemaAccepts(f: Form, isEmail: string -> bool, isUrl: string -> bool)
  {
    2 <= |f.username| <= 30
    && isEmail(f.email)
    && 4 <= |f.bio| <= 160
    && forall i :: 0 <= i < |f.urls| ==> isUrl(f.urls[i].value)
  }

  /**
   * A profile without a bio loads the empty string, which is present and
   * shorter than 4, so the dialog refuses to save it until a bio is typed.
   */
  lemma MissingBioBlocksSave(p: Profile, isEmail: string -> bool, isUrl: string -> bool)
    requires !Filled(p.bio)
    ensures !SchemaAccepts(LoadForm(p), isEmail, isUrl)
  {
  }

  /** Likewise a profile without URLs loads one blank entry, which only passes if the blank string counts as a URL. */
  lemma MissingUrlsNeedBlankUrl(p: Profile, isEmail: string -> bool, isUrl: string -> bool)
    requires p.urls.None? && SchemaAccepts(LoadForm(p), isEmail, isUrl)
    ensures isUrl("")
  {
    assert LoadForm(p).urls[0].value == "";
  }
}
