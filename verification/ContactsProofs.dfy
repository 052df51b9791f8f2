/** A saved contact book reads back as it was saved. */
module ContactsProofs {
  import opened Wrappers
  import opened Json
  import opened JsonProofs
  import opened PrettyJson
  import opened Wire
  import opened WireProofs
  import opened Contacts

  lemma EntryRoundTrip(e: Entry)
    ensures DecodeEntryJson(EntryJson(e)) == Some(e) && ValidJson(EntryJson(e))
  {
    hide ValidJson, StringJson, DecodeString, Struct, Fields;
    StringRoundTrip(e.username);
    StringRoundTrip(e.identityKey);
    StringRoundTrip(e.encryptionKey);
    var values := [StringJson(e.username), StringJson(e.identityKey), StringJson(e.encryptionKey)];
    FieldsStruct(ENTRY_FIELDS, values);
    StructValid(ENTRY_FIELDS, values);
  }

  /** In a contacts object every name stands for the last entry under it. */
  lemma {:induction false} LastEntryStays(members: seq<Member>, name: string, i: nat)
    requires DecodeMap(members).Some? && i < |members| && Unescape(members[i].key) == Some(name)
    requires forall k :: i < k < |members| ==> Unescape(members[k].key) != Some(name)
    ensures name in DecodeMap(members).value && DecodeEntryJson(members[i].value) == Some(DecodeMap(members).value[name])
  {
    hide Unescape, DecodeEntryJson;
    if i < |members| - 1 {
      LastEntryStays(members[..|members| - 1], name, i);
    }
  }

  function Chosen(contacts: map<string, Entry>, names: seq<string>): map<string, Entry>
    requires forall name :: name in names ==> name in contacts
  {
    map name | name in names :: contacts[name]
  }

  lemma {:induction false} DecodeMapMembers(contacts: map<string, Entry>, names: seq<string>)
    requires forall name :: name in names ==> name in contacts
    requires forall i, j :: 0 <= i < j < |names| ==> names[i] != names[j]
    ensures DecodeMap(MapMembers(contacts, names)) == Some(Chosen(contacts, names))
  {
    hide Escape, Unescape, EntryJson, DecodeEntryJson;
    if names != [] {
      var init, last := names[..|names| - 1], names[|names| - 1];
      DecodeMapMembers(contacts, init);
      assert MapMembers(contacts, names)[..|names| - 1] == MapMembers(contacts, init);
      UnescapeEscape(last);
      EntryRoundTrip(contacts[last]);
      assert names == init + [last];
      assert Chosen(contacts, init)[last := contacts[last]] == Chosen(contacts, names);
    }
  }

  lemma ContactsJsonRoundTrip(contacts: map<string, Entry>)
    ensures ValidJson(ContactsJson(contacts)) && Fields(ContactsJson(contacts), CONTACTS_FIELDS).Some?
    ensures var v := Fields(ContactsJson(contacts), CONTACTS_FIELDS).value; v[0].JObject? && DecodeMap(v[0].members) == Some(contacts)
  {
    hide Escape, Unescape, EntryJson, DecodeEntryJson, DecodeMap, Struct, Fields, ValidJson, ValidRaw;
    var names := Sorted(contacts.Keys);
    var members := MapMembers(contacts, names);
    DecodeMapMembers(contacts, names);
    assert Chosen(contacts, names) == contacts;
    FieldsStruct(CONTACTS_FIELDS, [JObject(members)]);
    MembersValid(contacts, names);
    StructValid(CONTACTS_FIELDS, [JObject(members)]);
  }

  lemma MembersValid(contacts: map<string, Entry>, names: seq<string>)
    requires forall name :: name in names ==> name in contacts
    ensures ValidJson(JObject(MapMembers(contacts, names)))
  {
    hide Escape, EntryJson, ValidRaw;
    var members := MapMembers(contacts, names);
    forall i | 0 <= i < |members| ensures ValidRaw(members[i].key) && ValidJson(members[i].value) {
      EscapeIsValidRaw(names[i]);
      EntryRoundTrip(contacts[names[i]]);
    }
  }

  /** What save writes is what load_or_create_in reads, for every contact book. */
  lemma SavedContactsLoad(contacts: map<string, Entry>)
    ensures ReadContacts(ContactsText(contacts)) == Some(contacts)
  {
    hide Pretty, Parse, ContactsJson, Fields, ValidJson, DecodeMap;
    ContactsJsonRoundTrip(contacts);
    ParsePretty(ContactsJson(contacts));
  }
}
