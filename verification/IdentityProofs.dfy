/** An identity is stable: over any calls, and through the upgrade of a legacy file. */
module IdentityProofs {
  import opened Wrappers
  import Crypto
  import opened Json
  import opened JsonProofs
  import opened PrettyJson
  import opened Wire
  import opened WireProofs
  import opened Base64Url
  import opened Identity
  import Contacts

  // ---------------------------------------------------------------- the file reads back

  lemma {:induction false} LastFieldAt(members: seq<Member>, names: seq<string>, i: nat)
    requires |members| == |names| && i < |names| && Distinct(names)
    requires forall k :: 0 <= k < |names| ==> members[k].key == Escape(names[k])
    ensures LastField(members, names[i]) == Some(members[i].value)
  {
    hide Escape, Unescape;
    var n := |members| - 1;
    UnescapeEscape(names[n]);
    if i < n {
      LastFieldAt(members[..n], names[..n], i);
    }
  }

  lemma ValueFieldsStruct(names: seq<string>, values: seq<Json>)
    requires Distinct(names) && |names| == |values|
    ensures ValueFields(Struct(names, values), names) == Some(values)
    ensures forall i :: 0 <= i < |names| ==> LastField(Struct(names, values).members, names[i]) == Some(values[i])
  {
    hide Escape, LastField;
    var members := Struct(names, values).members;
    forall i | 0 <= i < |names| ensures LastField(members, names[i]) == Some(values[i]) {
      LastFieldAt(members, names, i);
    }
    assert ValueFields(Struct(names, values), names).value == values;
  }

  lemma StructTextsDecode(names: seq<string>, values: seq<Json>)
    requires |names| == |values| && forall i :: 0 <= i < |values| ==> TextsDecode(values[i])
    ensures TextsDecode(Struct(names, values))
  {
    hide Escape, Unescape;
    forall i | 0 <= i < |names| ensures Unescape(Escape(names[i])).Some? {
      UnescapeEscape(names[i]);
    }
  }

  lemma StringTextsDecode(s: string)
    ensures TextsDecode(StringJson(s)) && DecodeString(StringJson(s)) == Some(s) && ValidJson(StringJson(s))
  {
    hide Escape, Unescape;
    UnescapeEscape(s);
    EscapeIsValidRaw(s);
  }

  lemma StoredJsonReads(s: Stored)
    ensures var j := StoredJson(s);
            ValidJson(j) && TextsDecode(j) && j.JObject? && LastField(j.members, "identity_public_key").Some? && DecodeStored(j) == Some(s)
  {
    hide StringJson, DecodeString, TextsDecode, ValidJson, LastField, ValueFields;
    var values := [StringJson(s.identityKey), StringJson(s.identitySecret), StringJson(s.encryptionKey), StringJson(s.encryptionSecret)];
    StringTextsDecode(s.identityKey);
    StringTextsDecode(s.identitySecret);
    StringTextsDecode(s.encryptionKey);
    StringTextsDecode(s.encryptionSecret);
    assert Distinct(STORED_FIELDS);
    ValueFieldsStruct(STORED_FIELDS, values);
    assert STORED_FIELDS[0] == "identity_public_key";
    StructTextsDecode(STORED_FIELDS, values);
    StructValid(STORED_FIELDS, values);
  }

  /** What a client writes it reads back, and never takes for a legacy file. */
  lemma StoredReads(s: Stored)
    ensures ReadIdentity(StoredText(s)) == Some(Current(s))
  {
    hide Parse, Pretty, StoredJson, TextsDecode, LastField, DecodeStored, ValidJson;
    StoredJsonReads(s);
    ParsePretty(StoredJson(s));
  }

  /** Different names have different identity files and different contact books, and no identity
      file is a contact book. */
  lemma IdentityPathsApart(a: string, b: string)
    ensures IdentityPath(a) == IdentityPath(b) <==> a == b
    ensures Contacts.ContactsPath(a) == Contacts.ContactsPath(b) <==> a == b
    ensures IdentityPath(a) != Contacts.ContactsPath(b)
  {
    assert Contacts.ContactsPath(a)[9..9 + |a|] == a && Contacts.ContactsPath(b)[9..9 + |b|] == b;
    assert IdentityPath(a)[0] == 'i' && Contacts.ContactsPath(b)[0] == 'c';
    assert IdentityPath(a)[11..11 + |a|] == a && IdentityPath(b)[11..11 + |b|] == b;
  }

  // ---------------------------------------------------------------- what is written validates

  lemma EncodedKey(key: Key)
    ensures DecodeKey(Encode(key)) == Some(key) && IsValidKeyText(Encode(key))
  {
    hide DecodeKey, Encode, IsValidKeyText;
    KeyRoundTrip(key);
  }

  lemma CreatedValidates(sig: Signatures, p: Crypto.Suite, c: Chances)
    requires LawfulSignatures(sig)
    ensures Validates(sig, p, Created(sig, p, c))
  {
    hide DecodeKey, Encode;
    EncodedKey(sig.verifying(c.signing));
    EncodedKey(c.signing);
    EncodedKey(p.publicKey(c.encryption));
    EncodedKey(c.encryption);
  }

  /** A legacy upgrade that succeeds keeps the identity pair and writes a file that validates. */
  lemma UpgradeKeepsIdentity(sig: Signatures, p: Crypto.Suite, text: string, legacy: Legacy, c: Chances)
    ensures var loaded := UpgradeLegacy(sig, p, text, legacy, c);
            if loaded.stored.None? then loaded.text == text
            else
              && loaded.stored.value.identityKey == legacy.publicKey && loaded.stored.value.identitySecret == legacy.secretKey
              && Validates(sig, p, loaded.stored.value)
              && ReadIdentity(loaded.text) == Some(Current(loaded.stored.value))
  {
    hide DecodeKey, Encode, ReadIdentity, StoredText;
    EncodedKey(p.publicKey(c.encryption));
    EncodedKey(c.encryption);
    StoredReads(WithEncryptionKeys(p, legacy.publicKey, legacy.secretKey, c.encryption));
  }

  // ---------------------------------------------------------------- one call

  /** The file of this name holds these keys, in the current format, and validates. */
  ghost predicate Settled(sig: Signatures, p: Crypto.Suite, texts: map<string, string>, username: string, s: Stored) {
    var path := IdentityPath(username);
    path in texts && ReadIdentity(texts[path]) == Some(Current(s)) && Validates(sig, p, s)
  }

  /** The identity carries the keys of s. */
  predicate Carries(identity: Identity, s: Stored) {
    && identity.identityKey == s.identityKey && identity.encryptionKey == s.encryptionKey
    && DecodeKey(s.encryptionSecret) == Some(identity.encryptionSecret)
  }

  /** The call upgrades a legacy file. */
  predicate Upgrades(sig: Signatures, p: Crypto.Suite, texts: map<string, string>, username: string, c: Chances) {
    var path := IdentityPath(username);
    IsValidUsername(username) && path in texts && LoadFile(sig, p, texts[path], c).text != texts[path]
  }

  /** How a file that loads looks afterwards. */
  lemma LoadFileSettles(sig: Signatures, p: Crypto.Suite, text: string, c: Chances)
    ensures var loaded := LoadFile(sig, p, text, c);
            if loaded.stored.None? then loaded.text == text
            else ReadIdentity(loaded.text) == Some(Current(loaded.stored.value)) && Validates(sig, p, loaded.stored.value)
    ensures ReadIdentity(text).Some? && ReadIdentity(text).value.Current? ==> LoadFile(sig, p, text, c).text == text
    ensures ReadIdentity(text).Some? && ReadIdentity(text).value.Outdated? && LoadFile(sig, p, text, c).stored.Some? ==>
              LoadFile(sig, p, text, c).stored.value.identityKey == ReadIdentity(text).value.legacy.publicKey
              && LoadFile(sig, p, text, c).stored.value.identitySecret == ReadIdentity(text).value.legacy.secretKey
  {
    hide ReadIdentity, Validates, UpgradeLegacy;
    match ReadIdentity(text) {
      case Some(Outdated(legacy)) => UpgradeKeepsIdentity(sig, p, text, legacy, c);
      case _ =>
    }
  }

  /** A call that yields an identity leaves a settled file with those keys. */
  lemma SuccessSettles(sig: Signatures, p: Crypto.Suite, texts: map<string, string>, username: string, c: Chances) returns (s: Stored)
    requires LawfulSignatures(sig) && LoadOrCreate(sig, p, texts, username, c).identity.Some?
    ensures Settled(sig, p, LoadOrCreate(sig, p, texts, username, c).texts, username, s)
    ensures Carries(LoadOrCreate(sig, p, texts, username, c).identity.value, s)
  {
    hide LoadFile, IsValidUsername, StoredText, IdentityPath, ReadIdentity, Validates, Encode, DecodeKey;
    var path := IdentityPath(username);
    if path in texts {
      LoadFileSettles(sig, p, texts[path], c);
      s := LoadFile(sig, p, texts[path], c).stored.value;
    } else {
      s := Created(sig, p, c);
      CreatedValidates(sig, p, c);
      StoredReads(s);
      EncodedKey(c.encryption);
    }
  }

  /** A call for a settled name changes no file, and yields those keys or nothing. */
  lemma SettledStays(sig: Signatures, p: Crypto.Suite, texts: map<string, string>, username: string, c: Chances, s: Stored)
    requires Settled(sig, p, texts, username, s)
    ensures LoadOrCreate(sig, p, texts, username, c).texts == texts && !Upgrades(sig, p, texts, username, c)
    ensures var identity := LoadOrCreate(sig, p, texts, username, c).identity;
            identity.Some? ==> Carries(identity.value, s) && !identity.value.wasCreated
    ensures LoadOrCreate(sig, p, texts, username, c).identity.Some? <==> IsValidUsername(username) && !c.readFails
  {
    hide IsValidUsername, StoredText, IdentityPath, ReadIdentity, UpgradeLegacy, Encode, DecodeKey;
  }

  /** A call touches no file but its own name's, and a call without success changes no file at
      all, except for what another process put there. */
  lemma OtherFilesStay(sig: Signatures, p: Crypto.Suite, texts: map<string, string>, username: string, c: Chances, path: string)
    ensures var texts' := LoadOrCreate(sig, p, texts, username, c).texts;
            path != IdentityPath(username) ==> (path in texts' <==> path in texts) && (path in texts ==> texts'[path] == texts[path])
    ensures LoadOrCreate(sig, p, texts, username, c).identity.None? && c.rival.None? ==>
              LoadOrCreate(sig, p, texts, username, c).texts == texts
    ensures IdentityPath(username) in texts && LoadOrCreate(sig, p, texts, username, c).identity.None? ==>
              LoadOrCreate(sig, p, texts, username, c).texts == texts
  {
    hide LoadFile, IsValidUsername, StoredText, IdentityPath, ReadIdentity, Validates, Encode, DecodeKey;
    var own := IdentityPath(username);
    if own in texts {
      LoadFileSettles(sig, p, texts[own], c);
      var loaded := LoadFile(sig, p, texts[own], c);
      if loaded.stored.Some? {
        ValidatedSecret(sig, p, loaded.stored.value);
      }
    }
  }

  lemma ValidatedSecret(sig: Signatures, p: Crypto.Suite, s: Stored)
    requires Validates(sig, p, s)
    ensures DecodeKey(s.encryptionSecret).Some? && IsValidKeyText(s.identityKey)
    ensures s.encryptionKey == Encode(p.publicKey(DecodeKey(s.encryptionSecret).value))
  {
    hide Decode, Encode, IsValidKeyText;
    KeyTextArithmetic(s.identityKey);
    EncodeDecode(s.encryptionKey);
  }

  /** The keys of every identity belong together, and the server accepts their texts. */
  lemma IdentityKeysMatch(sig: Signatures, p: Crypto.Suite, texts: map<string, string>, username: string, c: Chances)
    requires LawfulSignatures(sig) && LoadOrCreate(sig, p, texts, username, c).identity.Some?
    ensures var identity := LoadOrCreate(sig, p, texts, username, c).identity.value;
            && identity.encryptionKey == Encode(p.publicKey(identity.encryptionSecret))
            && IsValidKeyText(identity.encryptionKey) && IsValidKeyText(identity.identityKey) && IsValidUsername(username)
  {
    hide LoadFile, StoredText, IdentityPath, ReadIdentity, IsValidKeyText, Encode;
    assert IsValidUsername(username);
    hide IsValidUsername;
    var s := SuccessSettles(sig, p, texts, username, c);
    ValidatedSecret(sig, p, s);
    EncodedKey(p.publicKey(LoadOrCreate(sig, p, texts, username, c).identity.value.encryptionSecret));
  }

  // ---------------------------------------------------------------- any number of calls

  datatype Call = Call(username: string, chances: Chances)

  /** The files after these calls, one after the other. */
  function After(sig: Signatures, p: Crypto.Suite, texts: map<string, string>, calls: seq<Call>): map<string, string> {
    if calls == [] then texts
    else
      var last := calls[|calls| - 1];
      LoadOrCreate(sig, p, After(sig, p, texts, calls[..|calls| - 1]), last.username, last.chances).texts
  }

  function Got(sig: Signatures, p: Crypto.Suite, texts: map<string, string>, calls: seq<Call>, i: nat): Option<Identity>
    requires i < |calls|
  {
    LoadOrCreate(sig, p, After(sig, p, texts, calls[..i]), calls[i].username, calls[i].chances).identity
  }

  lemma SettledStep(sig: Signatures, p: Crypto.Suite, texts: map<string, string>, username: string, s: Stored, call: Call)
    requires Settled(sig, p, texts, username, s)
    ensures Settled(sig, p, LoadOrCreate(sig, p, texts, call.username, call.chances).texts, username, s)
  {
    hide LoadOrCreate, IdentityPath, ReadIdentity, Validates;
    if call.username == username {
      SettledStays(sig, p, texts, username, call.chances, s);
    } else {
      IdentityPathsApart(username, call.username);
      OtherFilesStay(sig, p, texts, call.username, call.chances, IdentityPath(username));
    }
  }

  lemma AfterSnoc(sig: Signatures, p: Crypto.Suite, texts: map<string, string>, calls: seq<Call>, n: nat)
    requires n < |calls|
    ensures After(sig, p, texts, calls[..n + 1])
         == LoadOrCreate(sig, p, After(sig, p, texts, calls[..n]), calls[n].username, calls[n].chances).texts
  {
    hide LoadOrCreate;
    assert calls[..n + 1][..n] == calls[..n];
  }

  lemma {:induction false} SettledForGood(sig: Signatures, p: Crypto.Suite, texts: map<string, string>, calls: seq<Call>, i: nat, j: nat, username: string, s: Stored)
    requires i <= j <= |calls| && Settled(sig, p, After(sig, p, texts, calls[..i]), username, s)
    ensures Settled(sig, p, After(sig, p, texts, calls[..j]), username, s)
  {
    hide LoadOrCreate, Settled, After;
    if i < j {
      SettledForGood(sig, p, texts, calls, i, j - 1, username, s);
      AfterSnoc(sig, p, texts, calls, j - 1);
      SettledStep(sig, p, After(sig, p, texts, calls[..j - 1]), username, s, calls[j - 1]);
    }
  }

  /** Once a call for a name has succeeded, every later call for that name yields the same keys
      unless the file cannot be read, and creates, upgrades and changes nothing, whatever calls
      run in between. */
  lemma IdentityStability(sig: Signatures, p: Crypto.Suite, texts: map<string, string>, calls: seq<Call>, i: nat, j: nat)
    requires LawfulSignatures(sig) && i < j < |calls| && calls[i].username == calls[j].username
    requires Got(sig, p, texts, calls, i).Some?
    ensures !Upgrades(sig, p, After(sig, p, texts, calls[..j]), calls[j].username, calls[j].chances)
    ensures After(sig, p, texts, calls[..j + 1]) == After(sig, p, texts, calls[..j])
    ensures Got(sig, p, texts, calls, j).Some? <==> !calls[j].chances.readFails
    ensures Got(sig, p, texts, calls, j).Some? ==>
              var a, b := Got(sig, p, texts, calls, i).value, Got(sig, p, texts, calls, j).value;
              && b.identityKey == a.identityKey && b.encryptionKey == a.encryptionKey
              && b.encryptionSecret == a.encryptionSecret && !b.wasCreated
  {
    hide LoadOrCreate, Settled, After, IsValidUsername, Upgrades;
    var username := calls[i].username;
    var before := After(sig, p, texts, calls[..i]);
    IdentityKeysMatch(sig, p, before, username, calls[i].chances);
    var s := SuccessSettles(sig, p, before, username, calls[i].chances);
    AfterSnoc(sig, p, texts, calls, i);
    SettledForGood(sig, p, texts, calls, i + 1, j, username, s);
    SettledStays(sig, p, After(sig, p, texts, calls[..j]), username, calls[j].chances, s);
    AfterSnoc(sig, p, texts, calls, j);
  }

  /** A legacy file is upgraded at most once: an upgrade succeeds, and so settles the name. */
  lemma UpgradeOnce(sig: Signatures, p: Crypto.Suite, texts: map<string, string>, calls: seq<Call>, i: nat, j: nat)
    requires LawfulSignatures(sig) && i < j < |calls| && calls[i].username == calls[j].username
    requires Upgrades(sig, p, After(sig, p, texts, calls[..i]), calls[i].username, calls[i].chances)
    ensures Got(sig, p, texts, calls, i).Some? && !Got(sig, p, texts, calls, i).value.wasCreated
    ensures !Upgrades(sig, p, After(sig, p, texts, calls[..j]), calls[j].username, calls[j].chances)
  {
    hide After, IsValidUsername, LoadFile, Validates, DecodeKey;
    var before := After(sig, p, texts, calls[..i]);
    var path := IdentityPath(calls[i].username);
    LoadFileSettles(sig, p, before[path], calls[i].chances);
    ValidatedSecret(sig, p, LoadFile(sig, p, before[path], calls[i].chances).stored.value);
    IdentityStability(sig, p, texts, calls, i, j);
  }
}
