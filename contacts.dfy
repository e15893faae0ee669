/** The admin contact numbers used for credit purchases: the configured list
    or a single built-in contact, the default selection, and lookup by id
    with a built-in fallback number. */
module Contacts {
  import opened Records
  import opened Search

  datatype Phone = Phone(id: string, number: string, name: string, isDefault: bool)

  const FallbackNumber := "8227070298"
  const FallbackPhoneId := "default"

  /** `settings.adminPhones || [the built-in contact]`: only an absent list is
      replaced; a configured empty list is kept. */
  function AdminPhones(configured: Option<seq<Phone>>): (r: seq<Phone>)
    ensures configured.Some? ==> r == configured.value
    ensures configured.None? ==> |r| == 1 && r[0].id == FallbackPhoneId && r[0].number == FallbackNumber
  {
    match configured
    case Some(ps) => ps
    case None => [Phone(FallbackPhoneId, FallbackNumber, "Admin", false)]
  }

  /** The id of the first contact flagged as default, else of the first
      contact, else `default`; an empty id counts as missing at each step. */
  function DefaultPhoneId(phones: seq<Phone>): (r: string)
    ensures r != ""
    ensures r == FallbackPhoneId || exists i :: 0 <= i < |phones| && phones[i].id == r
  {
    var flagged := FindFirst(phones, (p: Phone) => p.isDefault);
    if flagged.Some? && phones[flagged.value].id != "" then phones[flagged.value].id
    else if |phones| > 0 && phones[0].id != "" then phones[0].id
    else FallbackPhoneId
  }

  /** The first contact flagged as default wins when it has an id. */
  lemma DefaultPhoneIsFirstFlagged(phones: seq<Phone>, i: nat)
    requires i < |phones| && phones[i].isDefault && phones[i].id != ""
    requires forall j :: 0 <= j < i ==> !phones[j].isDefault
    ensures DefaultPhoneId(phones) == phones[i].id
  {
  }

  /** Without a flagged contact, or when the first flagged contact has no
      id, the first contact is chosen. */
  lemma DefaultPhoneWithoutFlag(phones: seq<Phone>)
    requires (forall j :: 0 <= j < |phones| ==> !phones[j].isDefault)
          || (exists i :: 0 <= i < |phones| && phones[i].isDefault && phones[i].id == ""
                         && forall j :: 0 <= j < i ==> !phones[j].isDefault)
    requires |phones| > 0 && phones[0].id != ""
    ensures DefaultPhoneId(phones) == phones[0].id
  {
  }

  /** When the first contact has no id and no flagged contact supplies one,
      the built-in id is chosen. */
  lemma DefaultPhoneFallsBack(phones: seq<Phone>)
    requires forall i ::
      (0 <= i < |phones| && phones[i].isDefault && forall j :: 0 <= j < i ==> !phones[j].isDefault)
      ==> phones[i].id == ""
    requires |phones| == 0 || phones[0].id == ""
    ensures DefaultPhoneId(phones) == FallbackPhoneId
  {
  }

  /** The selection is initialised when it is still empty and there is a
      contact to choose (see `InitialSelectionSettles`). */
  function InitialSelection(selected: string, phones: seq<Phone>): (r: string)
    ensures selected != "" ==> r == selected
    ensures selected == "" && |phones| > 0 ==> r == DefaultPhoneId(phones)
    ensures selected == "" && |phones| == 0 ==> r == ""
  {
    if selected == "" && |phones| > 0 then DefaultPhoneId(phones) else selected
  }

  /** Choosing again changes nothing: the default id is never empty, so the
      render-time initialisation fires at most once. */
  lemma InitialSelectionSettles(selected: string, phones: seq<Phone>)
    ensures InitialSelection(InitialSelection(selected, phones), phones) == InitialSelection(selected, phones)
  {
  }

  /** `phoneId || selectedPhoneId`. */
  function LookupKey(phoneId: Option<string>, selected: string): (r: string)
    ensures phoneId.Some? && phoneId.value != "" ==> r == phoneId.value
    ensures phoneId.None? || phoneId.value == "" ==> r == selected
    ensures r == "" ==> selected == ""
  {
    if phoneId.Some? && phoneId.value != "" then phoneId.value else selected
  }

  /** The number of the first contact whose id is the lookup key, or the
      built-in number when none has it. */
  function PhoneNumber(phones: seq<Phone>, phoneId: Option<string>, selected: string): (r: string)
    ensures (forall i :: 0 <= i < |phones| ==> phones[i].id != LookupKey(phoneId, selected)) ==>
      r == FallbackNumber
    ensures r == FallbackNumber ||
      exists i :: 0 <= i < |phones| && phones[i].id == LookupKey(phoneId, selected) && phones[i].number == r
  {
    var key := LookupKey(phoneId, selected);
    match FindFirst(phones, (p: Phone) => p.id == key)
    case Some(i) => phones[i].number
    case None => FallbackNumber
  }

  /** A contact with the key, and none before it, supplies the number. */
  lemma PhoneNumberOfFirstMatch(phones: seq<Phone>, phoneId: Option<string>, selected: string, i: nat)
    requires i < |phones| && phones[i].id == LookupKey(phoneId, selected)
    requires forall j :: 0 <= j < i ==> phones[j].id != LookupKey(phoneId, selected)
    ensures PhoneNumber(phones, phoneId, selected) == phones[i].number
  {
  }

  /** With no contacts configured, the initial selection finds the built-in
      number. */
  lemma UnconfiguredContactsUseFallback()
    ensures PhoneNumber(AdminPhones(None), None, InitialSelection("", AdminPhones(None))) == FallbackNumber
  {
  }
}
