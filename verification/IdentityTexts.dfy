/** What load_or_create_in makes of a file, by the text of the file: the current format, the legacy
    format, and no file at all. */
module IdentityTexts {
  import opened Wrappers
  import opened Json
  import opened JsonProofs
  import opened JsonExact
  import opened Wire
  import opened WireProofs
  import WireTexts
  import opened Base64Url
  import Crypto
  import opened Identity
  import opened IdentityProofs

  // ---------------------------------------------------------------- objects of strings

  /** An object with these names, and the raw text of a string under each. */
  function StringObject(names: seq<string>, raws: seq<string>): Json
    requires |names| == |raws|
  {
    JObject(seq(|names|, i requires 0 <= i < |names| => Member(names[i], JString(raws[i]))))
  }

  predicate PlainNames(names: seq<string>) {
    forall i :: 0 <= i < |names| ==> WireTexts.Plain(names[i])
  }

  lemma {:induction false} NoSuchField(members: seq<Member>, names: seq<string>, name: string)
    requires |members| == |names| && name !in names && forall k :: 0 <= k < |names| ==> members[k].key == Escape(names[k])
    ensures LastField(members, name) == None
  {
    hide Escape, Unescape;
    if members != [] {
      var n := |members| - 1;
      UnescapeEscape(names[n]);
      NoSuchField(members[..n], names[..n], name);
    }
  }

  /** Reading such an object finds every name's string, and no other name. */
  lemma ObjectFields(names: seq<string>, raws: seq<string>, i: nat, other: string)
    requires |names| == |raws| && Distinct(names) && PlainNames(names) && i < |names| && other !in names
    ensures LastField(StringObject(names, raws).members, names[i]) == Some(JString(raws[i]))
    ensures LastField(StringObject(names, raws).members, other) == None
  {
    hide Escape, LastField, WireTexts.Plain;
    var members := StringObject(names, raws).members;
    forall k | 0 <= k < |names| ensures members[k].key == Escape(names[k]) {
      WireTexts.EscapePlain(names[k]);
    }
    LastFieldAt(members, names, i);
    NoSuchField(members, names, other);
  }

  lemma ObjectDecodes(names: seq<string>, raws: seq<string>)
    requires |names| == |raws| && PlainNames(names) && forall i :: 0 <= i < |raws| ==> Unescape(raws[i]).Some?
    ensures TextsDecode(StringObject(names, raws))
  {
    hide Escape, Unescape, WireTexts.Plain;
    forall i | 0 <= i < |names| ensures Unescape(names[i]).Some? {
      WireTexts.EscapePlain(names[i]);
      UnescapeEscape(names[i]);
    }
  }

  lemma LegacyNames()
    ensures PlainNames(["public_key", "secret_key"]) && Distinct(["public_key", "secret_key"])
    ensures PlainNames(["secret_key", "public_key"]) && Distinct(["secret_key", "public_key"])
    ensures "identity_public_key" !in ["public_key", "secret_key"] && "identity_public_key" !in ["secret_key", "public_key"]
  {
    hide WireTexts.Plain;
    WireTexts.LowerPlain("public_key");
    WireTexts.LowerPlain("secret_key");
    assert |"identity_public_key"| != |"public_key"| && "public_key"[0] != "secret_key"[0];
  }

  // ---------------------------------------------------------------- key pairs, by their texts

  /** A stored signing pair is good exactly when both texts are those of a secret's own key pair. */
  lemma SigningPairExactly(sig: Signatures, secretText: string, publicText: string)
    requires LawfulSignatures(sig)
    ensures SigningPair(sig, secretText, publicText) <==>
            exists s: Key :: secretText == Encode(s) && publicText == Encode(sig.verifying(s))
  {
    hide Decode, Encode;
    if SigningPair(sig, secretText, publicText) {
      EncodeDecode(secretText);
      EncodeDecode(publicText);
      var s: Key := DecodeKey(secretText).value;
      assert secretText == Encode(s) && publicText == Encode(sig.verifying(s));
    }
    if s: Key :| secretText == Encode(s) && publicText == Encode(sig.verifying(s)) {
      EncodedKey(s);
      EncodedKey(sig.verifying(s));
    }
  }

  lemma EncryptionPairExactly(p: Crypto.Suite, secretText: string, publicText: string)
    ensures EncryptionPair(p, secretText, publicText) <==>
            exists e: Key :: secretText == Encode(e) && publicText == Encode(p.publicKey(e))
  {
    hide Decode, Encode;
    if EncryptionPair(p, secretText, publicText) {
      EncodeDecode(secretText);
      EncodeDecode(publicText);
      var e: Key := DecodeKey(secretText).value;
      assert secretText == Encode(e) && publicText == Encode(p.publicKey(e));
    }
    if e: Key :| secretText == Encode(e) && publicText == Encode(p.publicKey(e)) {
      EncodedKey(e);
      EncodedKey(p.publicKey(e));
    }
  }

  // ---------------------------------------------------------------- a legacy file

  /** The text is a JSON text of the legacy object: these two strings under these two names, in
      either order, or in an array of the two, with any white space, and with any way of escaping them. */
  ghost predicate IsLegacyText(text: string, public: string, secret: string) {
    exists x: string, y: string :: LegacySpelling(text, public, secret, x, y)
  }

  ghost predicate LegacySpelling(text: string, public: string, secret: string, x: string, y: string) {
    && Unescape(x) == Some(public) && Unescape(y) == Some(secret)
    && (IsTextOf(text, StringObject(["public_key", "secret_key"], [x, y])) || IsTextOf(text, StringObject(["secret_key", "public_key"], [y, x]))
        || IsTextOf(text, JArray([JString(x), JString(y)])))
  }

  lemma LegacyReads(text: string, public: string, secret: string)
    requires IsLegacyText(text, public, secret)
    ensures ReadIdentity(text) == Some(Outdated(Legacy(public, secret)))
  {
    hide Unescape, Parse, LastField, IsTextOf, TextsDecode, WireTexts.Plain;
    var x: string, y: string :| LegacySpelling(text, public, secret, x, y);
    LegacyNames();
    if IsTextOf(text, StringObject(["public_key", "secret_key"], [x, y])) {
      var j := StringObject(["public_key", "secret_key"], [x, y]);
      ParseExactly(text, j);
      ObjectDecodes(["public_key", "secret_key"], [x, y]);
      ObjectFields(["public_key", "secret_key"], [x, y], 0, "identity_public_key");
      ObjectFields(["public_key", "secret_key"], [x, y], 1, "identity_public_key");
    } else if IsTextOf(text, JArray([JString(x), JString(y)])) {
      ParseExactly(text, JArray([JString(x), JString(y)]));
      PairDecodes(x, y);
    } else {
      var j := StringObject(["secret_key", "public_key"], [y, x]);
      ParseExactly(text, j);
      ObjectDecodes(["secret_key", "public_key"], [y, x]);
      ObjectFields(["secret_key", "public_key"], [y, x], 0, "identity_public_key");
      ObjectFields(["secret_key", "public_key"], [y, x], 1, "identity_public_key");
    }
  }

  lemma PairDecodes(x: string, y: string)
    requires Unescape(x).Some? && Unescape(y).Some?
    ensures TextsDecode(JArray([JString(x), JString(y)]))
  {
    hide Unescape;
  }

  /** Of a repeated member the last one counts. */
  lemma LastMemberCounts(members: seq<Member>, name: string, i: nat)
    requires i < |members| && Unescape(members[i].key) == Some(name) && forall k :: i < k < |members| ==> Unescape(members[k].key) != Some(name)
    ensures LastField(members, name) == Some(members[i].value)
  {
    hide Unescape;
    if i < |members| - 1 {
      LastMemberCounts(members[..|members| - 1], name, i);
    }
  }

  /** A file with a string that stands for no text, under whatever name, is refused and left alone. */
  lemma BrokenTextRefused(sig: Signatures, p: Crypto.Suite, texts: map<string, string>, username: string, c: Chances, members: seq<Member>, i: nat)
    requires "identities/" + username + ".json" in texts && IsTextOf(texts["identities/" + username + ".json"], JObject(members))
    requires i < |members| && (Unescape(members[i].key) == None || (members[i].value.JString? && Unescape(members[i].value.raw) == None))
    ensures LoadOrCreate(sig, p, texts, username, c) == Outcome(None, texts)
  {
    hide Unescape, Parse, IsTextOf, IsValidUsername;
    var text := texts["identities/" + username + ".json"];
    ParseExactly(text, JObject(members));
    assert !TextsDecode(JObject(members));
    assert ReadIdentity(text) == None;
  }

  /** The text of an identity file that a client writes. */
  function FileText(identityKey: string, identitySecret: string, encryptionKey: string, encryptionSecret: string): string {
    "{\n  \"identity_public_key\": " + WireTexts.Quoted(identityKey) + ",\n  \"identity_secret_key\": " + WireTexts.Quoted(identitySecret)
    + ",\n  \"encryption_public_key\": " + WireTexts.Quoted(encryptionKey) + ",\n  \"encryption_secret_key\": " + WireTexts.Quoted(encryptionSecret) + "\n}"
  }

  /** A legacy file loads exactly when it holds a secret and its own public key. It is then replaced
      by a file with that pair and a fresh encryption pair, and these are the identity. */
  lemma LegacyFileUpgrades(sig: Signatures, p: Crypto.Suite, texts: map<string, string>, username: string, c: Chances, public: string, secret: string)
    requires LawfulSignatures(sig) && IsValidUsername(username) && !c.readFails && !c.writeFails
    requires "identities/" + username + ".json" in texts && IsLegacyText(texts["identities/" + username + ".json"], public, secret)
    ensures var path, outcome := "identities/" + username + ".json", LoadOrCreate(sig, p, texts, username, c);
            && (outcome.identity.Some? <==> exists s: Key :: secret == Encode(s) && public == Encode(sig.verifying(s)))
            && (if outcome.identity.None? then outcome.texts == texts
                else
                  && outcome.identity == Some(Identity(public, Encode(p.publicKey(c.encryption)), c.encryption, path, false))
                  && outcome.texts == texts[path := FileText(public, secret, Encode(p.publicKey(c.encryption)), Encode(c.encryption))])
  {
    hide Encode, DecodeKey, ReadIdentity, IsValidUsername, SigningPair, EncryptionPair, StoredText, IsLegacyText, FileText;
    var path := "identities/" + username + ".json";
    LegacyReads(texts[path], public, secret);
    SigningPairExactly(sig, secret, public);
    var stored := WithEncryptionKeys(p, public, secret, c.encryption);
    EncryptionPairExactly(p, stored.encryptionSecret, stored.encryptionKey);
    EncodedKey(c.encryption);
    FileTextIs(stored);
  }

  lemma FileTextIs(s: Stored)
    ensures StoredText(s) == FileText(s.identityKey, s.identitySecret, s.encryptionKey, s.encryptionSecret)
    ensures ReadIdentity(StoredText(s)) == Some(Current(s))
  {
    hide WireTexts.Quoted, StoredText, ReadIdentity;
    WireTexts.IdentityText(s);
  }

  // ---------------------------------------------------------------- a current file

  /** The text is a JSON text of the current object: these four strings under these four names. */
  ghost predicate IsCurrentText(text: string, s: Stored) {
    exists w: string, x: string, y: string, z: string :: CurrentSpelling(text, s, w, x, y, z)
  }

  ghost predicate CurrentSpelling(text: string, s: Stored, w: string, x: string, y: string, z: string) {
    && Unescape(w) == Some(s.identityKey) && Unescape(x) == Some(s.identitySecret)
    && Unescape(y) == Some(s.encryptionKey) && Unescape(z) == Some(s.encryptionSecret)
    && IsTextOf(text, StringObject(["identity_public_key", "identity_secret_key", "encryption_public_key", "encryption_secret_key"], [w, x, y, z]))
  }

  lemma CurrentNames()
    ensures var names := ["identity_public_key", "identity_secret_key", "encryption_public_key", "encryption_secret_key"];
            PlainNames(names) && Distinct(names) && "" !in names
  {
    hide WireTexts.Plain;
    WireTexts.KeyNames();
    DifferentNames();
  }

  lemma DifferentNames()
    ensures "identity_public_key" != "identity_secret_key" && "identity_public_key" != "encryption_public_key" && "identity_public_key" != "encryption_secret_key"
    ensures "identity_secret_key" != "encryption_public_key" && "identity_secret_key" != "encryption_secret_key" && "encryption_public_key" != "encryption_secret_key"
  {
    assert "identity_public_key"[0] == 'i' && "identity_secret_key"[0] == 'i' && "encryption_public_key"[0] == 'e' && "encryption_secret_key"[0] == 'e';
    assert "identity_public_key"[9] == 'p' && "identity_secret_key"[9] == 's' && "encryption_public_key"[11] == 'p' && "encryption_secret_key"[11] == 's';
  }

  lemma CurrentReads(text: string, s: Stored)
    requires IsCurrentText(text, s)
    ensures ReadIdentity(text) == Some(Current(s))
  {
    hide Unescape, Parse, LastField, IsTextOf, TextsDecode, PlainNames, Distinct;
    var w: string, x: string, y: string, z: string :| CurrentSpelling(text, s, w, x, y, z);
    var names, raws := ["identity_public_key", "identity_secret_key", "encryption_public_key", "encryption_secret_key"], [w, x, y, z];
    CurrentNames();
    ParseExactly(text, StringObject(names, raws));
    ObjectDecodes(names, raws);
    ObjectFields(names, raws, 0, "");
    ObjectFields(names, raws, 1, "");
    ObjectFields(names, raws, 2, "");
    ObjectFields(names, raws, 3, "");
  }

  /** A current file loads exactly when it holds two secrets, each with its own public key; these are
      then the identity, and no file changes. */
  lemma CurrentFileLoads(sig: Signatures, p: Crypto.Suite, texts: map<string, string>, username: string, c: Chances, s: Stored)
    requires LawfulSignatures(sig) && IsValidUsername(username) && !c.readFails
    requires "identities/" + username + ".json" in texts && IsCurrentText(texts["identities/" + username + ".json"], s)
    ensures var path, outcome := "identities/" + username + ".json", LoadOrCreate(sig, p, texts, username, c);
            && outcome.texts == texts
            && (outcome.identity.Some? <==>
                  (exists i: Key :: s.identitySecret == Encode(i) && s.identityKey == Encode(sig.verifying(i)))
                  && (exists e: Key :: s.encryptionSecret == Encode(e) && s.encryptionKey == Encode(p.publicKey(e))))
            && (forall e: Key :: outcome.identity.Some? && s.encryptionSecret == Encode(e) ==>
                  outcome.identity == Some(Identity(s.identityKey, s.encryptionKey, e, path, false)))
  {
    hide Encode, Decode, ReadIdentity, IsValidUsername, SigningPair, IsCurrentText;
    var path := "identities/" + username + ".json";
    CurrentReads(texts[path], s);
    SigningPairExactly(sig, s.identitySecret, s.identityKey);
    EncryptionPairExactly(p, s.encryptionSecret, s.encryptionKey);
    forall e: Key | s.encryptionSecret == Encode(e) ensures DecodeKey(s.encryptionSecret) == Some(e) {
      EncodedKey(e);
    }
  }

  // ---------------------------------------------------------------- no file

  /** Without a file, an identity is created exactly when nothing fails and no other process creates
      the file first; and then its file holds the two fresh key pairs. */
  lemma NewIdentity(sig: Signatures, p: Crypto.Suite, texts: map<string, string>, username: string, c: Chances)
    requires IsValidUsername(username) && "identities/" + username + ".json" !in texts
    ensures var path, outcome := "identities/" + username + ".json", LoadOrCreate(sig, p, texts, username, c);
            if c.createFails || c.writeFails || c.rival.Some? then
              outcome.identity.None? && outcome.texts == if c.createFails || c.rival.None? then texts else texts[path := c.rival.value]
            else
              && outcome.identity == Some(Identity(Encode(sig.verifying(c.signing)), Encode(p.publicKey(c.encryption)), c.encryption, path, true))
              && outcome.texts == texts[path := FileText(Encode(sig.verifying(c.signing)), Encode(c.signing), Encode(p.publicKey(c.encryption)), Encode(c.encryption))]
  {
    hide Encode, IsValidUsername, StoredText, FileText;
    FileTextIs(Created(sig, p, c));
  }

  /** A name that is not valid has no identity and touches no file. */
  lemma InvalidName(sig: Signatures, p: Crypto.Suite, texts: map<string, string>, username: string, c: Chances)
    requires !IsValidUsername(username)
    ensures LoadOrCreate(sig, p, texts, username, c) == Outcome(None, texts)
  {
  }
}
