/** The envelope: it opens for its addressee, for nobody else, and only unaltered. */
module CryptoProofs {
  import opened Wrappers
  import opened Wire
  import opened WireProofs
  import opened Base64Url
  import opened Crypto

  /** The text of the public key of a secret. */
  function KeyText(p: Suite, secret: Key): string {
    Encode(p.publicKey(secret))
  }

  lemma KeyTextDecodes(p: Suite, secret: Key)
    ensures DecodeKey(KeyText(p, secret)) == Some(p.publicKey(secret))
  {
    hide Decode, Encode;
    KeyRoundTrip(p.publicKey(secret));
  }

  /** The associated data determines both keys and their order. */
  lemma AssociatedInjective(a: Key, b: Key, a': Key, b': Key)
    ensures Associated(a, b) == Associated(a', b') <==> a == a' && b == b'
  {
    assert Associated(a, b)[13..45] == a && Associated(a, b)[45..] == b;
    assert Associated(a', b')[13..45] == a' && Associated(a', b')[45..] == b';
  }

  /** Sender and addressee derive the same message key, because both put the sender first. */
  lemma SameMessageKey(p: Suite, a: Key, b: Key)
    requires Lawful(p)
    ensures MessageKey(p, p.agree(a, p.publicKey(b)), p.publicKey(a), p.publicKey(b))
         == MessageKey(p, p.agree(b, p.publicKey(a)), p.publicKey(a), p.publicKey(b))
  {
  }

  /** What honest encryption from secret a to secret b's public key makes. */
  function Envelope(p: Suite, sender: string, recipient: string, body: string, a: Key, b: Key, nonce: Nonce): Wire.Encrypted {
    var from, to := p.publicKey(a), p.publicKey(b);
    var key := MessageKey(p, p.agree(a, to), from, to);
    Wire.Encrypted(MESSAGE_VERSION, KeyText(p, a), Encode(nonce),
                   Encode(p.seal(key, nonce, EncodePlaintext(Plaintext(sender, recipient, body)), Associated(from, to))))
  }

  lemma EncryptsToEnvelope(p: Suite, sender: string, recipient: string, body: string, a: Key, b: Key, nonce: Nonce)
    ensures Crypto.Encrypted(p, sender, recipient, body, a, KeyText(p, a), KeyText(p, b), nonce)
         == Ok(Envelope(p, sender, recipient, body, a, b, nonce))
  {
    hide DecodeKey, KeyText, EncodePlaintext;
    KeyTextDecodes(p, a);
    KeyTextDecodes(p, b);
  }

  /** Decryption by any key pair, down to the one call that opens. */
  lemma DecryptOf(p: Suite, sender: string, recipient: string, body: string, a: Key, b: Key, nonce: Nonce, c: Key)
    ensures Decrypt(p, c, KeyText(p, c), Envelope(p, sender, recipient, body, a, b, nonce))
         == Opened(p, c, p.publicKey(a), p.publicKey(c), nonce,
                   p.seal(MessageKey(p, p.agree(a, p.publicKey(b)), p.publicKey(a), p.publicKey(b)), nonce,
                          EncodePlaintext(Plaintext(sender, recipient, body)), Associated(p.publicKey(a), p.publicKey(b))))
  {
    hide DecodeKey, KeyText, Encode, Decode, Opened, EncodePlaintext, DecodeNonce, MessageKey;
    KeyTextDecodes(p, a);
    KeyTextDecodes(p, c);
    NonceText(nonce, "");
    var from, to := p.publicKey(a), p.publicKey(b);
    DecodeEncode(p.seal(MessageKey(p, p.agree(a, to), from, to), nonce, EncodePlaintext(Plaintext(sender, recipient, body)), Associated(from, to)));
  }

  /** The addressee reads exactly what was sent, for all names, bodies, nonces and key pairs. */
  lemma EnvelopeRoundTrip(p: Suite, sender: string, recipient: string, body: string, a: Key, b: Key, nonce: Nonce)
    requires Lawful(p)
    ensures Decrypt(p, b, KeyText(p, b), Envelope(p, sender, recipient, body, a, b, nonce)) == Ok(Plaintext(sender, recipient, body))
  {
    hide KeyText, Decrypt, EncodePlaintext, DecodePlaintext, Associated;
    var m := Plaintext(sender, recipient, body);
    var from, to := p.publicKey(a), p.publicKey(b);
    DecryptOf(p, sender, recipient, body, a, b, nonce, b);
    SameMessageKey(p, a, b);
    var key := MessageKey(p, p.agree(a, to), from, to);
    assert p.open(key, nonce, p.seal(key, nonce, EncodePlaintext(m), Associated(from, to)), Associated(from, to)) == Some(EncodePlaintext(m));
    PlaintextRoundTrip(m);
  }

  /** A key pair decrypts an envelope exactly when its public key is the addressee's. */
  lemma OnlyAddresseeOpens(p: Suite, sender: string, recipient: string, body: string, a: Key, b: Key, nonce: Nonce, c: Key)
    requires Lawful(p)
    ensures Decrypt(p, c, KeyText(p, c), Envelope(p, sender, recipient, body, a, b, nonce)).Ok? <==> p.publicKey(c) == p.publicKey(b)
    ensures Decrypt(p, c, KeyText(p, c), Envelope(p, sender, recipient, body, a, b, nonce)).Ok? ==>
              Decrypt(p, c, KeyText(p, c), Envelope(p, sender, recipient, body, a, b, nonce)) == Ok(Plaintext(sender, recipient, body))
  {
    hide KeyText, Decrypt, EncodePlaintext, DecodePlaintext, Associated;
    if p.publicKey(c) == p.publicKey(b) {
      SamePublicKey(p, sender, recipient, body, a, b, nonce, c);
      EnvelopeRoundTrip(p, sender, recipient, body, a, c, nonce);
    } else {
      DecryptOf(p, sender, recipient, body, a, b, nonce, c);
      AssociatedInjective(p.publicKey(a), p.publicKey(c), p.publicKey(a), p.publicKey(b));
    }
  }

  lemma SamePublicKey(p: Suite, sender: string, recipient: string, body: string, a: Key, b: Key, nonce: Nonce, c: Key)
    requires p.publicKey(c) == p.publicKey(b)
    ensures Envelope(p, sender, recipient, body, a, c, nonce) == Envelope(p, sender, recipient, body, a, b, nonce)
  {
  }

  /** A ciphertext opens only with the version, sender key text and nonce text it was sent with. */
  lemma HeaderBound(p: Suite, sender: string, recipient: string, body: string, a: Key, b: Key, nonce: Nonce, c: Key, e: Wire.Encrypted)
    requires Lawful(p) && e.ciphertext == Envelope(p, sender, recipient, body, a, b, nonce).ciphertext
    requires Decrypt(p, c, KeyText(p, c), e).Ok?
    ensures e == Envelope(p, sender, recipient, body, a, b, nonce) && p.publicKey(c) == p.publicKey(b)
  {
    hide Encode, Decode, EncodePlaintext, DecodePlaintext, Associated, MessageKey;
    var from, to := p.publicKey(a), p.publicKey(b);
    var sealed := p.seal(MessageKey(p, p.agree(a, to), from, to), nonce, EncodePlaintext(Plaintext(sender, recipient, body)), Associated(from, to));
    DecodeEncode(sealed);
    KeyTextDecodes(p, a);
    KeyTextDecodes(p, c);
    NonceText(nonce, "");
    AssociatedInjective(DecodeKey(e.senderKey).value, p.publicKey(c), from, to);
    TextEqualsBytes(e.senderKey, KeyText(p, a));
    TextEqualsBytes(e.nonce, Encode(nonce));
  }

  /** Whoever opens a message that encrypt_message made, with whatever keys: the plaintext is the one sealed. */
  lemma OpensAsSealed(p: Suite, sender: string, recipient: string, body: string, a: Key, senderKey: string, recipientKey: string, nonce: Nonce, c: Key, ownKey: string)
    requires Lawful(p)
    requires Crypto.Encrypted(p, sender, recipient, body, a, senderKey, recipientKey, nonce).Ok?
    requires Decrypt(p, c, ownKey, Crypto.Encrypted(p, sender, recipient, body, a, senderKey, recipientKey, nonce).value).Ok?
    ensures Decrypt(p, c, ownKey, Crypto.Encrypted(p, sender, recipient, body, a, senderKey, recipientKey, nonce).value)
         == Ok(Plaintext(sender, recipient, body))
  {
    hide Encode, Decode, DecodeKey, EncodePlaintext, DecodePlaintext, Associated, MessageKey, DecodeNonce;
    var from, to := DecodeKey(senderKey).value, DecodeKey(recipientKey).value;
    NonceText(nonce, "");
    DecodeEncode(p.seal(MessageKey(p, p.agree(a, to), from, to), nonce, EncodePlaintext(Plaintext(sender, recipient, body)), Associated(from, to)));
    PlaintextRoundTrip(Plaintext(sender, recipient, body));
  }

  // ---------------------------------------------------------------- the format, spelled out

  /** The bytes of an ASCII text. */
  function AsciiBytes(text: string): Bytes
    requires forall i :: 0 <= i < |text| ==> text[i] < 128 as char
  {
    seq(|text|, i requires 0 <= i < |text| => text[i] as int)
  }

  /** What encrypt_message seals, under which key and with what beside it, down to the last literal:
      the key is derived from the agreed secret, and both keys are bound to the message. */
  lemma EnvelopeSpelled(p: Suite, sender: string, recipient: string, body: string, a: Key, b: Key, nonce: Nonce)
    ensures var from, to := p.publicKey(a), p.publicKey(b);
            var bound := AsciiBytes("phantasma:v1:") + from + to;
            var key := p.hkdf("phantasma x25519 xchacha20poly1305 v1", p.agree(a, to), bound);
            Crypto.Encrypted(p, sender, recipient, body, a, Encode(from), Encode(to), nonce)
            == Ok(Wire.Encrypted(1, Encode(from), Encode(nonce),
                                 Encode(p.seal(key, nonce, EncodePlaintext(Plaintext(sender, recipient, body)), bound))))
  {
    hide DecodeKey, EncodePlaintext, Encode;
    ContextSpelled();
    EncryptsToEnvelope(p, sender, recipient, body, a, b, nonce);
  }

  lemma ContextSpelled()
    ensures CONTEXT == AsciiBytes("phantasma:v1:")
  {
  }

  /** Whoever does not agree on the secret opens nothing, also under the addressee's own public key:
      an envelope to b opens for a secret exactly when that secret agrees with a's public key as b's does. */
  lemma SecretNeeded(p: Suite, sender: string, recipient: string, body: string, a: Key, b: Key, nonce: Nonce, c: Key)
    requires Lawful(p)
    ensures var e := Crypto.Encrypted(p, sender, recipient, body, a, Encode(p.publicKey(a)), Encode(p.publicKey(b)), nonce);
            e.Ok? && (Decrypt(p, c, Encode(p.publicKey(b)), e.value).Ok? <==> p.agree(c, p.publicKey(a)) == p.agree(a, p.publicKey(b)))
  {
    hide DecodeKey, Encode, Decode, EncodePlaintext, DecodePlaintext, DecodeNonce, Associated;
    EncryptsToEnvelope(p, sender, recipient, body, a, b, nonce);
    KeyTextDecodes(p, a);
    KeyTextDecodes(p, b);
    NonceText(nonce, "");
    var from, to := p.publicKey(a), p.publicKey(b);
    var m := Plaintext(sender, recipient, body);
    DecodeEncode(p.seal(MessageKey(p, p.agree(a, to), from, to), nonce, EncodePlaintext(m), Associated(from, to)));
    PlaintextRoundTrip(m);
  }
}
