/**
 * client/src/crypto.rs over an arbitrary suite of primitives: X25519 (section 6.1 of RFC 7748),
 * HKDF-SHA-256 (section 2 of RFC 5869) and XChaCha20-Poly1305 enter as functions, and what the
 * results need of them is the predicate Lawful. A plaintext stands for its UTF-8 bytes.
 */
module Crypto {
  import opened Wrappers
  import opened Wire
  import opened Base64Url

  type Key = k: Bytes | |k| == 32 witness seq(32, i => 0)
  type Nonce = n: Bytes | |n| == 24 witness seq(24, i => 0)

  datatype Suite = Suite(
    publicKey: Key -> Key,                           // X25519PublicKey::from
    agree: (Key, Key) -> Key,                        // own secret, other public key
    hkdf: (string, Key, Bytes) -> Key,               // salt, input key, info
    seal: (Key, Nonce, string, Bytes) -> Bytes,      // key, nonce, plaintext, associated data
    open: (Key, Nonce, Bytes, Bytes) -> Option<string>)

  /** Agreement commutes; a sealed text opens under the key, nonce and associated data it was
      sealed with, and under no others; and derivation separates the keys it is given. */
  ghost predicate Lawful(p: Suite) {
    && (forall a: Key, b: Key :: p.agree(a, p.publicKey(b)) == p.agree(b, p.publicKey(a)))
    && (forall k: Key, n: Nonce, m, a :: p.open(k, n, p.seal(k, n, m, a), a) == Some(m))
    && (forall k: Key, n: Nonce, m, a, k': Key, n': Nonce, a' ::
          p.open(k', n', p.seal(k, n, m, a), a').Some? ==> k' == k && n' == n && a' == a)
    && (forall salt, k: Key, k': Key, info :: p.hkdf(salt, k, info) == p.hkdf(salt, k', info) ==> k == k')
  }

  const MESSAGE_VERSION: u8 := 1
  const KEY_DERIVATION_SALT := "phantasma x25519 xchacha20poly1305 v1"

  /** b"phantasma:v1:" */
  const CONTEXT: Bytes := [112, 104, 97, 110, 116, 97, 115, 109, 97, 58, 118, 49, 58]

  datatype Error = BadSenderKey | BadRecipientKey | BadVersion | BadNonce | BadCiphertext | CannotOpen | BadPlaintext
  datatype Result<+T> = Ok(value: T) | Err(error: Error)

  // ---------------------------------------------------------------- what the methods compute

  function Associated(sender: Key, recipient: Key): Bytes {
    CONTEXT + sender + recipient
  }

  function MessageKey(p: Suite, shared: Key, sender: Key, recipient: Key): Key {
    p.hkdf(KEY_DERIVATION_SALT, shared, Associated(sender, recipient))
  }

  function Encrypted(p: Suite, sender: string, recipient: string, body: string,
                     secret: Key, senderKey: string, recipientKey: string, nonce: Nonce): Result<Wire.Encrypted> {
    match (DecodeKey(senderKey), DecodeKey(recipientKey))
    case (None, _) => Err(BadSenderKey)
    case (_, None) => Err(BadRecipientKey)
    case (Some(from), Some(to)) =>
      var key := MessageKey(p, p.agree(secret, to), from, to);
      var plaintext := EncodePlaintext(Plaintext(sender, recipient, body));
      Ok(Wire.Encrypted(MESSAGE_VERSION, senderKey, Encode(nonce), Encode(p.seal(key, nonce, plaintext, Associated(from, to)))))
  }

  /** decrypt_message, check by check. */
  function Decrypt(p: Suite, secret: Key, ownKey: string, e: Wire.Encrypted): Result<Plaintext> {
    if e.version != MESSAGE_VERSION then Err(BadVersion)
    else
      match DecodeKey(e.senderKey)
      case None => Err(BadSenderKey)
      case Some(from) =>
        match DecodeKey(ownKey)
        case None => Err(BadRecipientKey)
        case Some(to) =>
          match DecodeNonce(e.nonce)
          case None => Err(BadNonce)
          case Some(nonce) =>
            match Decode(e.ciphertext)
            case None => Err(BadCiphertext)
            case Some(ciphertext) => Opened(p, secret, from, to, nonce, ciphertext)
  }

  function Opened(p: Suite, secret: Key, from: Key, to: Key, nonce: Nonce, ciphertext: Bytes): Result<Plaintext> {
    match p.open(MessageKey(p, p.agree(secret, from), from, to), nonce, ciphertext, Associated(from, to))
    case None => Err(CannotOpen)
    case Some(text) =>
      match DecodePlaintext(text)
      case None => Err(BadPlaintext)
      case Some(m) => Ok(m)
  }

  // ---------------------------------------------------------------- the methods

  method AssociatedData(sender: Key, recipient: Key) returns (data: Bytes)
    ensures data == Associated(sender, recipient)
  {
    data := [];
    data := data + CONTEXT;
    data := data + sender;
    data := data + recipient;
  }

  method DeriveMessageKey(p: Suite, shared: Key, sender: Key, recipient: Key) returns (key: Key)
    ensures key == MessageKey(p, shared, sender, recipient)
  {
    var info := AssociatedData(sender, recipient);
    key := p.hkdf(KEY_DERIVATION_SALT, shared, info);
  }

  /** The nonce comes from the random generator, which fills the buffer before it is read. */
  method EncryptMessage(p: Suite, sender: string, recipient: string, body: string,
                        secret: Key, senderKey: string, recipientKey: string, random: Nonce)
    returns (r: Result<Wire.Encrypted>)
    ensures r == Encrypted(p, sender, recipient, body, secret, senderKey, recipientKey, random)
  {
    var from := DecodeKey(senderKey);
    if from.None? {
      return Err(BadSenderKey);
    }
    var to := DecodeKey(recipientKey);
    if to.None? {
      return Err(BadRecipientKey);
    }
    var shared := p.agree(secret, to.value);
    var messageKey := DeriveMessageKey(p, shared, from.value, to.value);
    var nonce: Nonce := seq(24, i => 0);
    nonce := random;
    var plaintext := EncodePlaintext(Plaintext(sender, recipient, body));
    var associated := AssociatedData(from.value, to.value);
    var ciphertext := p.seal(messageKey, nonce, plaintext, associated);
    return Ok(Wire.Encrypted(MESSAGE_VERSION, senderKey, Encode(nonce), Encode(ciphertext)));
  }
}
