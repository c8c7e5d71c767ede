/**
 * The account page: the profile form filled from the signed-in user, the
 * field-by-field edit, the save request (which never sends the e-mail),
 * the passport completeness check and the save buttons' disabled state.
 *
 * `formData` is a JavaScript object edited through computed keys, so it is
 * modelled as its list of entries in key order: spreading an object and
 * assigning a key it already has keeps that key's place, and a new key
 * goes last.
 */
module AccountPage {
  import opened Wrappers

  /**
   * A user object as its entries, in order. The translation tables of the
   * Language module are entry lists too, but their values are nested
   * tables and their lemmas reason about the position of the entry a
   * lookup finds; the user object is flat, holds text, and is also written
   * (`Set`, `Delete`), so its lookup is stated by key instead.
   */
  type Entries = seq<(string, string)>

  /** The object's keys, in order. */
  function Keys(entries: Entries): (r: seq<string>)
    ensures |r| == |entries|
    ensures forall i :: 0 <= i < |entries| ==> r[i] == entries[i].0
  {
    if |entries| == 0 then [] else [entries[0].0] + Keys(entries[1..])
  }

  predicate KeysDistinct(entries: Entries)
  {
    forall i, j :: 0 <= i < j < |entries| ==> entries[i].0 != entries[j].0
  }

  /** Reading `object[key]`: the value of the first entry with that key, or none. */
  function Get(entries: Entries, key: string): Option<string>
  {
    if |entries| == 0 then None
    else if entries[0].0 == key then Some(entries[0].1)
    else Get(entries[1..], key)
  }

  /** A key reads a value exactly when it is one of the object's keys, and the value is that key's entry. */
  lemma {:induction false} GetFindsKey(entries: Entries, key: string)
    ensures Get(entries, key).Some? <==> key in Keys(entries)
    ensures Get(entries, key).Some? ==> (key, Get(entries, key).value) in entries
  {
    if |entries| > 0 {
      GetFindsKey(entries[1..], key);
    }
  }

  /** With distinct keys, each key reads the value of its own entry. */
  lemma {:induction false} GetDistinct(entries: Entries, i: nat)
    requires KeysDistinct(entries) && i < |entries|
    ensures Get(entries, entries[i].0) == Some(entries[i].1)
  {
    if i > 0 {
      assert entries[0].0 != entries[i].0;
      assert entries[1..][i - 1] == entries[i];
      GetDistinct(entries[1..], i - 1);
    }
  }

  /**
   * `{ ...entries, [key]: value }`: `key` now reads `value` and every other
   * key reads as before.
   */
  function Set(entries: Entries, key: string, value: string): (r: Entries)
    ensures Get(r, key) == Some(value)
    ensures forall k :: k != key ==> Get(r, k) == Get(entries, k)
  {
    if |entries| == 0 then [(key, value)]
    else if entries[0].0 == key then [(key, value)] + entries[1..]
    else
      var rest := Set(entries[1..], key, value);
      assert ([entries[0]] + rest)[1..] == rest;
      [entries[0]] + rest
  }

  /** The keys after `Set` are the old ones, in their order, with `key` appended when it is new. */
  lemma {:induction false} SetKeys(entries: Entries, key: string, value: string)
    ensures Keys(Set(entries, key, value)) == if key in Keys(entries) then Keys(entries) else Keys(entries) + [key]
  {
    var r := Set(entries, key, value);
    if |entries| == 0 {
      assert r[1..] == [];
    } else if entries[0].0 == key {
      assert r[1..] == entries[1..];
    } else {
      var rest := Set(entries[1..], key, value);
      assert r[1..] == rest;
      SetKeys(entries[1..], key, value);
      assert key in Keys(entries) <==> key in Keys(entries[1..]);
      if key !in Keys(entries[1..]) {
        assert Keys(r) == [entries[0].0] + (Keys(entries[1..]) + [key]);
        assert [entries[0].0] + (Keys(entries[1..]) + [key]) == ([entries[0].0] + Keys(entries[1..])) + [key];
      }
    }
  }

  /** `delete object[key]`: `key` no longer reads, the other keys read as before and keep their order. */
  function Delete(entries: Entries, key: string): (r: Entries)
    ensures Get(r, key) == None
    ensures forall k :: k != key ==> Get(r, k) == Get(entries, k)
    ensures forall k :: k in Keys(r) <==> k in Keys(entries) && k != key
    ensures |r| <= |entries|
  {
    if |entries| == 0 then []
    else
      var rest := Delete(entries[1..], key);
      if entries[0].0 == key then rest
      else
        assert ([entries[0]] + rest)[1..] == rest;
        [entries[0]] + rest
  }

  /** Deleting a key the object does not have leaves it as it is. */
  lemma {:induction false} DeleteAbsent(entries: Entries, key: string)
    requires key !in Keys(entries)
    ensures Delete(entries, key) == entries
  {
    if |entries| > 0 {
      DeleteAbsent(entries[1..], key);
    }
  }

  /** The form's keys, in the order the initial state declares them. */
  const FormFields := ["full_name", "email", "phone_number", "date_of_birth",
                       "passport_number", "passport_country", "passport_expiry"]

  /** The initial `formData`: every form field empty. */
  const InitialForm: Entries := [("full_name", ""), ("email", ""), ("phone_number", ""), ("date_of_birth", ""),
                                 ("passport_number", ""), ("passport_country", ""), ("passport_expiry", "")]

  /** The signed-in user as the server returns it; any field may be missing. */
  datatype User = User(
    fullName: Option<string>,
    email: Option<string>,
    phoneNumber: Option<string>,
    dateOfBirth: Option<string>,
    passportNumber: Option<string>,
    passportCountry: Option<string>,
    passportExpiry: Option<string>)

  /** `field || ''`: a missing (or empty) field becomes the empty string. */
  function OrEmpty(field: Option<string>): (r: string)
    ensures field.Some? ==> r == field.value
    ensures field.None? ==> r == ""
  {
    field.GetOr("")
  }

  /** The `formData` `loadUser` builds from the user. */
  function FormOf(user: User): Entries
  {
    [("full_name", OrEmpty(user.fullName)), ("email", OrEmpty(user.email)),
     ("phone_number", OrEmpty(user.phoneNumber)), ("date_of_birth", OrEmpty(user.dateOfBirth)),
     ("passport_number", OrEmpty(user.passportNumber)), ("passport_country", OrEmpty(user.passportCountry)),
     ("passport_expiry", OrEmpty(user.passportExpiry))]
  }

  /**
   * The loaded form has exactly the form's keys, each reading the user's
   * value or, where the user has none, the empty string.
   */
  lemma LoadedFormHasEveryField(user: User)
    ensures Keys(FormOf(user)) == FormFields && KeysDistinct(FormOf(user))
    ensures Get(FormOf(user), "full_name") == Some(OrEmpty(user.fullName))
    ensures Get(FormOf(user), "email") == Some(OrEmpty(user.email))
    ensures Get(FormOf(user), "phone_number") == Some(OrEmpty(user.phoneNumber))
    ensures Get(FormOf(user), "date_of_birth") == Some(OrEmpty(user.dateOfBirth))
    ensures Get(FormOf(user), "passport_number") == Some(OrEmpty(user.passportNumber))
    ensures Get(FormOf(user), "passport_country") == Some(OrEmpty(user.passportCountry))
    ensures Get(FormOf(user), "passport_expiry") == Some(OrEmpty(user.passportExpiry))
  {
    var form := FormOf(user);
    GetDistinct(form, 0);
    GetDistinct(form, 1);
    GetDistinct(form, 2);
    GetDistinct(form, 3);
    GetDistinct(form, 4);
    GetDistinct(form, 5);
    GetDistinct(form, 6);
  }

  /** The initial form is the one a user with no fields at all would load. */
  lemma InitialFormIsEmptyUser()
    ensures InitialForm == FormOf(User(None, None, None, None, None, None, None))
    ensures Keys(InitialForm) == FormFields
  {
  }

  /** A JavaScript string used as a condition: true exactly when present and non-empty. */
  predicate Truthy(value: Option<string>)
  {
    value.Some? && value.value != ""
  }

  /** `isPassportComplete`. */
  predicate PassportComplete(form: Entries)
  {
    Truthy(Get(form, "passport_number")) && Truthy(Get(form, "passport_country")) && Truthy(Get(form, "passport_expiry"))
  }

  /** The passport warning is rendered when the passport is not complete. */
  predicate ShowsPassportWarning(form: Entries)
  {
    !PassportComplete(form)
  }

  /**
   * For a loaded form, the passport is complete exactly when the user has a
   * non-empty passport number, country and expiry, and the warning shows
   * exactly when one of them is missing or empty.
   */
  lemma PassportCompleteIff(user: User)
    ensures PassportComplete(FormOf(user)) <==>
      OrEmpty(user.passportNumber) != "" && OrEmpty(user.passportCountry) != "" && OrEmpty(user.passportExpiry) != ""
    ensures ShowsPassportWarning(FormOf(user)) <==>
      OrEmpty(user.passportNumber) == "" || OrEmpty(user.passportCountry) == "" || OrEmpty(user.passportExpiry) == ""
  {
    LoadedFormHasEveryField(user);
  }

  /** Emptying any one passport field makes the passport incomplete and shows the warning. */
  lemma ClearingPassportFieldShowsWarning(form: Entries, key: string)
    requires key in ["passport_number", "passport_country", "passport_expiry"]
    ensures ShowsPassportWarning(Set(form, key, ""))
  {
  }

  /** The page cells. */
  datatype PageState = PageState(user: Option<User>, formData: Entries, isLoading: bool, isSaving: bool)

  const InitialState := PageState(None, InitialForm, true, false)

  /** The save buttons' `disabled`. */
  predicate SaveDisabled(state: PageState)
  {
    state.isSaving || state.isLoading
  }

  /** `handleChange`: the input named `name` writes its value into the form. */
  function Change(state: PageState, name: string, value: string): (r: PageState)
    ensures Get(r.formData, name) == Some(value)
    ensures forall k :: k != name ==> Get(r.formData, k) == Get(state.formData, k)
    ensures name in Keys(state.formData) ==> Keys(r.formData) == Keys(state.formData)
    ensures r.user == state.user && r.isLoading == state.isLoading && r.isSaving == state.isSaving
  {
    SetKeys(state.formData, name, value);
    state.(formData := Set(state.formData, name, value))
  }

  /** What `loadUser` obtains from the server. */
  datatype LoadOutcome = Failed | Loaded(user: User)

  /** After `loadUser`: the user and its form on success, the old cells on failure; loading ends either way. */
  function AfterLoad(state: PageState, outcome: LoadOutcome): (r: PageState)
    ensures !r.isLoading && r.isSaving == state.isSaving
    ensures outcome.Loaded? ==> r.user == Some(outcome.user) && r.formData == FormOf(outcome.user)
    ensures outcome.Failed? ==> r.user == state.user && r.formData == state.formData
  {
    match outcome
    case Failed => state.(isLoading := false)
    case Loaded(user) => state.(user := Some(user), formData := FormOf(user), isLoading := false)
  }

  /** The object `handleSave` sends: a copy of the form without `email`. */
  function SavePayload(form: Entries): (r: Entries)
    ensures Get(r, "email") == None
    ensures forall k :: k != "email" ==> Get(r, k) == Get(form, k)
  {
    Delete(form, "email")
  }

  /** A loaded form saves every field but the e-mail, each as loaded, and nothing else. */
  lemma PayloadOfLoadedForm(user: User)
    ensures Keys(SavePayload(FormOf(user))) ==
      ["full_name", "phone_number", "date_of_birth", "passport_number", "passport_country", "passport_expiry"]
  {
    var form := FormOf(user);
    assert form[1..][1..] == form[2..];
    DeleteAbsent(form[2..], "email");
    assert Delete(form, "email") == [form[0]] + form[2..];
  }

  /** `handleSave` up to the request: saving begins, and the payload is the form without `email`. */
  function BeginSave(state: PageState): (r: (PageState, Entries))
    ensures r.0 == state.(isSaving := true)
    ensures r.1 == SavePayload(state.formData)
  {
    (state.(isSaving := true), SavePayload(state.formData))
  }

  /**
   * The rest of `handleSave`: when the update succeeds the user is
   * reloaded; when it fails the form is left as typed. Saving ends either way.
   */
  function EndSave(state: PageState, updated: bool, reload: LoadOutcome): (r: PageState)
    ensures !r.isSaving
    ensures updated ==> r == AfterLoad(state, reload).(isSaving := false)
    ensures !updated ==> r == state.(isSaving := false)
  {
    if updated then AfterLoad(state, reload).(isSaving := false) else state.(isSaving := false)
  }

  /**
   * The save buttons are disabled from the start until the first load
   * finishes, and for the whole of a save; once a save ends after a
   * finished load they are enabled again.
   */
  lemma SaveButtonsDisabledWhileBusy(state: PageState, updated: bool, reload: LoadOutcome)
    ensures SaveDisabled(InitialState)
    ensures SaveDisabled(BeginSave(state).0)
    ensures !state.isLoading ==> !SaveDisabled(EndSave(BeginSave(state).0, updated, reload))
  {
  }
}
