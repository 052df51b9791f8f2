/** client/src/main.rs: sending, receiving, and the contact book in between. */
module Client {
  import opened Wrappers
  import opened Wire
  import Crypto
  import opened Contacts

  /** Who this client is: its name and encryption key pair. */
  datatype Session = Session(name: string, secret: Crypto.Key, ownKey: string)

  /** What GET /users/{username}/public-key comes to. */
  datatype Reply = Known(entry: Entry) | Unknown | Broken

  /** The server's answers during one operation, by the name asked for. */
  type Answers = string -> Reply

  /** A line printed for a received message, with the sender key of its envelope. */
  datatype Shown = Shown(from: string, body: string, senderKey: string)

  // ---------------------------------------------------------------- the text of a command

  /** Unicode White_Space, which str::trim removes. */
  predicate IsWhiteSpace(c: char) {
    var n := c as int;
    9 <= n <= 13 || n in {0x20, 0x85, 0xA0, 0x1680, 0x2028, 0x2029, 0x202F, 0x205F, 0x3000} || 0x2000 <= n <= 0x200A
  }

  function TrimStart(s: string): string {
    if s != "" && IsWhiteSpace(s[0]) then TrimStart(s[1..]) else s
  }

  function TrimEnd(s: string): string {
    if s != "" && IsWhiteSpace(s[|s| - 1]) then TrimEnd(s[..|s| - 1]) else s
  }

  function Trim(s: string): string { TrimEnd(TrimStart(s)) }

  /** Where the first space is. */
  function SpaceAt(s: string): (n: nat)
    ensures n <= |s| && (n < |s| ==> s[n] == ' ') && forall i :: 0 <= i < n ==> s[i] != ' '
  {
    if s == "" || s[0] == ' ' then 0 else 1 + SpaceAt(s[1..])
  }

  /** The recipient and the body of a /send command. */
  function Addressed(rest: string): Option<(string, string)> {
    var text := Trim(rest);
    var n := SpaceAt(text);
    if n == |text| then None
    else
      var recipient, body := Trim(text[..n]), Trim(text[n + 1..]);
      if recipient == "" || body == "" then None else Some((recipient, body))
  }

  lemma TrimEnds(s: string)
    ensures s == "" || !IsWhiteSpace(s[0]) ==> TrimStart(s) == s
    ensures s == "" || !IsWhiteSpace(s[|s| - 1]) ==> TrimEnd(s) == s
  {
  }

  /** Any body without white space around it reaches send_message unchanged. */
  lemma AddressedExactly(recipient: string, body: string)
    requires recipient != "" && body != "" && forall i :: 0 <= i < |recipient| ==> !IsWhiteSpace(recipient[i])
    requires !IsWhiteSpace(body[0]) && !IsWhiteSpace(body[|body| - 1])
    ensures Addressed(recipient + " " + body) == Some((recipient, body))
  {
    var text := recipient + " " + body;
    TrimEnds(text);
    TrimEnds(recipient);
    TrimEnds(body);
    assert text[|recipient|] == ' ' && forall i :: 0 <= i < |recipient| ==> text[i] == recipient[i];
    assert SpaceAt(text) == |recipient|;
    assert text[..|recipient|] == recipient && text[|recipient| + 1..] == body;
  }

  // ---------------------------------------------------------------- what an operation does

  /** lookup_public_key asks for valid names only. */
  function Asked(username: string, server: Answers): Reply {
    if IsValidUsername(username) then server(username) else Broken
  }

  function With(contacts: map<string, Entry>, e: Entry): map<string, Entry> {
    contacts[e.username := e]
  }

  /** The contacts afterwards, the entry to go on with (a known one, or the server's once saved),
      and whether the book was to be saved. */
  datatype Resolution = Resolution(contacts: map<string, Entry>, entry: Option<Entry>, saves: bool)

  function Resolve(contacts: map<string, Entry>, username: string, server: Answers, saveFails: bool): Resolution {
    if username in contacts then Resolution(contacts, Some(contacts[username]), false)
    else
      match Asked(username, server)
      case Known(entry) => Resolution(With(contacts, entry), if saveFails then None else Some(entry), true)
      case _ => Resolution(contacts, None, false)
  }

  /** What send_message does to the contacts, and the frame to write to the socket. */
  datatype Sending = Sending(contacts: map<string, Entry>, frame: Option<string>, saves: bool)

  function Composed(p: Crypto.Suite, me: Session, recipient: string, body: string, recipientKey: string, nonce: Crypto.Nonce): Option<string> {
    match Crypto.Encrypted(p, me.name, recipient, body, me.secret, me.ownKey, recipientKey, nonce)
    case Err(_) => None
    case Ok(encrypted) => Some(EncodeRouted(Routed(me.name, recipient, encrypted)))
  }

  function Send(p: Crypto.Suite, me: Session, contacts: map<string, Entry>, rest: string, server: Answers, saveFails: bool, nonce: Crypto.Nonce): Sending {
    match Addressed(rest)
    case None => Sending(contacts, None, false)
    case Some((recipient, body)) =>
      var r := Resolve(contacts, recipient, server, saveFails);
      if r.entry.None? then Sending(r.contacts, None, r.saves)
      else Sending(r.contacts, Composed(p, me, recipient, body, r.entry.value.encryptionKey, nonce), r.saves)
  }

  /** What of a frame from the socket can be opened and is meant for this client. */
  function Opened(p: Crypto.Suite, me: Session, bytes: string): Option<(Encrypted, Plaintext)> {
    match DecodeEncrypted(bytes)
    case None => None
    case Some(encrypted) =>
      match Crypto.Decrypt(p, me.secret, me.ownKey, encrypted)
      case Err(_) => None
      case Ok(chat) => if chat.to == me.name then Some((encrypted, chat)) else None
  }

  /** What receive_message does to the contacts, and the line to print. */
  datatype Receipt = Receipt(contacts: map<string, Entry>, shown: Option<Shown>, saves: bool)

  function Receive(p: Crypto.Suite, me: Session, contacts: map<string, Entry>, bytes: string, server: Answers, saveFails: bool): Receipt {
    match Opened(p, me, bytes)
    case None => Receipt(contacts, None, false)
    case Some((encrypted, chat)) =>
      var r := Resolve(contacts, chat.from, server, saveFails);
      if r.entry.None? || r.entry.value.encryptionKey != encrypted.senderKey then Receipt(r.contacts, None, r.saves)
      else Receipt(r.contacts, Some(Shown(chat.from, chat.body, encrypted.senderKey)), r.saves)
  }

  /** /add and /lookup ask the server even for a saved contact. */
  function Add(contacts: map<string, Entry>, username: string, server: Answers, saveFails: bool): Resolution {
    if username == "" then Resolution(contacts, None, false)
    else
      match Asked(username, server)
      case Known(entry) => Resolution(With(contacts, entry), if saveFails then None else Some(entry), true)
      case _ => Resolution(contacts, None, false)
  }

  // ---------------------------------------------------------------- the code

  class Process {
    const p: Crypto.Suite
    const me: Session
    const contacts: ContactBook
    var outgoing: seq<string>  // frames written to the socket
    var screen: seq<Shown>

    constructor (p: Crypto.Suite, me: Session, contacts: ContactBook)
      ensures this.p == p && this.me == me && this.contacts == contacts && outgoing == [] && screen == []
    {
      this.p := p;
      this.me := me;
      this.contacts := contacts;
      outgoing := [];
      screen := [];
    }

    function Book(): map<string, Entry>
      reads this, contacts
    {
      contacts.contacts
    }

    /** The files afterwards, given those before and whether the book was saved. */
    function FilesAfter(before: map<string, string>, saved: bool): map<string, string>
      reads this, contacts
    {
      if saved then before[contacts.path := ContactsText(contacts.contacts)] else before
    }

    method LookupPublicKey(username: string, server: Answers) returns (reply: Reply)
      ensures reply == Asked(username, server)
    {
      if !IsValidUsername(username) {
        return Broken;
      }
      reply := server(username);
    }

    method AddContact(username: string, server: Answers, saveFails: bool) returns (ok: bool)
      modifies contacts, contacts.files
      ensures var result := Add(old(Book()), username, server, saveFails);
              && Book() == result.contacts
              && contacts.files.texts == FilesAfter(old(contacts.files.texts), result.saves && !saveFails)
              && (ok <==> username == "" || Asked(username, server).Unknown? || result.entry.Some?)
    {
      hide IsValidUsername, ContactsText;
      if username == "" {
        return true;
      }
      var reply := LookupPublicKey(username, server);
      match reply {
        case Known(entry) =>
          ok := contacts.Add(entry, saveFails);
        case Unknown =>
          ok := true;
        case Broken =>
          ok := false;
      }
    }

    /** find_or_add_sender, and the same choice inside send_message. */
    method FindOrAdd(username: string, server: Answers, saveFails: bool) returns (entry: Option<Entry>)
      modifies contacts, contacts.files
      ensures var result := Resolve(old(Book()), username, server, saveFails);
              && Book() == result.contacts && entry == result.entry
              && contacts.files.texts == FilesAfter(old(contacts.files.texts), result.saves && !saveFails)
    {
      hide IsValidUsername, ContactsText;
      entry := contacts.Get(username);
      if entry.Some? {
        return;
      }
      var reply := LookupPublicKey(username, server);
      if !reply.Known? {
        return None;
      }
      var ok := contacts.Add(reply.entry, saveFails);
      return if ok then Some(reply.entry) else None;
    }

    method SendMessage(rest: string, server: Answers, saveFails: bool, random: Crypto.Nonce, socketFails: bool) returns (sent: bool)
      modifies this`outgoing, contacts, contacts.files
      ensures var result := Send(p, me, old(Book()), rest, server, saveFails, random);
              && Book() == result.contacts
              && contacts.files.texts == FilesAfter(old(contacts.files.texts), result.saves && !saveFails)
              && (sent <==> result.frame.Some? && !socketFails)
              && outgoing == if sent then old(outgoing) + [result.frame.value] else old(outgoing)
    {
      hide ContactsText, Crypto.Encrypted, EncodeRouted, Asked;
      var command := Addressed(rest);
      if command.None? {
        return false;
      }
      var (recipient, body) := command.value;
      var entry := FindOrAdd(recipient, server, saveFails);
      if entry.None? {
        return false;
      }
      var encrypted := Crypto.EncryptMessage(p, me.name, recipient, body, me.secret, me.ownKey, entry.value.encryptionKey, random);
      if encrypted.Err? {
        return false;
      }
      var wireMessage := EncodeRouted(Routed(me.name, recipient, encrypted.value));
      sent := !socketFails;
      if sent {
        outgoing := outgoing + [wireMessage];
      }
    }

    method ReceiveMessage(bytes: string, server: Answers, saveFails: bool)
      modifies this`screen, contacts, contacts.files
      ensures var result := Receive(p, me, old(Book()), bytes, server, saveFails);
              && Book() == result.contacts
              && contacts.files.texts == FilesAfter(old(contacts.files.texts), result.saves && !saveFails)
              && screen == if result.shown.Some? then old(screen) + [result.shown.value] else old(screen)
    {
      hide ContactsText, Crypto.Decrypt, DecodeEncrypted, Asked;
      var encrypted := DecodeEncrypted(bytes);
      if encrypted.None? {
        return;
      }
      var chat := Crypto.Decrypt(p, me.secret, me.ownKey, encrypted.value);
      if chat.Err? || chat.value.to != me.name {
        return;
      }
      var entry := FindOrAdd(chat.value.from, server, saveFails);
      if entry.None? || entry.value.encryptionKey != encrypted.value.senderKey {
        return;
      }
      screen := screen + [Shown(chat.value.from, chat.value.body, encrypted.value.senderKey)];
    }
  }
}
