/**
 * Client processes, their sockets, the key directory and the relay as one step system. A frame
 * travels in order along its socket; the clients are honest, so that every frame on a socket was
 * composed by send_message. Everything else is arbitrary: who starts with which keys, what
 * lookups answer, what fails, and how the steps interleave.
 */
module Network {
  import opened Wrappers
  import Crypto
  import Wire
  import Relay
  import Server
  import opened Client

  type ContactMap = map<string, Wire.Entry>

  /** A running client process. */
  datatype Instance = Instance(me: Session, identityKey: string, contacts: ContactMap, registered: bool)

  /** What send_message composed a frame from. */
  datatype Letter = Letter(to: string, body: string, key: string, nonce: Crypto.Nonce)

  /** One socket: its client, what the client wrote, how many of those frames the relay has read,
      and how many of the relay's frames the client has read. `origins` is history: which letter
      each frame that the relay accepted came from. */
  datatype Link = Link(client: nat, letters: seq<Letter>, arrived: nat, origins: seq<nat>, taken: nat)

  /** A line on the screen of a user; `link` and `index` are history: the frame it was read from. */
  datatype Line = Line(user: string, shown: Shown, link: nat, index: nat)

  datatype World = World(
    relay: Relay.State,
    links: seq<Link>,             // by connection
    clients: seq<Instance>,
    keys: map<string, Wire.Entry>,  // public_keys
    books: map<string, ContactMap>,   // the contact files
    screen: seq<Line>)

  datatype Event =
    | Start(me: Session, identityKey: string)        // a client loads its identity and contacts
    | Enroll(client: nat)                            // POST /users succeeds
    | Dial(client: nat)                              // the socket is opened
    | Speak(link: nat, rest: string, server: Answers, saveFails: bool, nonce: Crypto.Nonce, socketFails: bool)
    | Refresh(client: nat, username: string, server: Answers, saveFails: bool)  // /add or /lookup
    | Arrive(link: nat)                              // the relay reads the next frame
    | Tick(e: Relay.Event)                           // any other step of the relay
    | Hear(link: nat, server: Answers, saveFails: bool)  // the client reads the next frame

  const BEGINNING := World(Relay.INITIAL, [], [], map[], map[], [])

  function FrameOf(p: Crypto.Suite, me: Session, l: Letter): Option<string> {
    Composed(p, me, l.to, l.body, l.key, l.nonce)
  }

  function LetterOf(contacts: ContactMap, rest: string, server: Answers, saveFails: bool, nonce: Crypto.Nonce): Option<Letter> {
    match Addressed(rest)
    case None => None
    case Some((recipient, body)) =>
      match Resolve(contacts, recipient, server, saveFails).entry
      case None => None
      case Some(entry) => Some(Letter(recipient, body, entry.encryptionKey, nonce))
  }

  /** send_message writes the frame of its letter, when there is one. */
  lemma SendsLetter(p: Crypto.Suite, me: Session, contacts: ContactMap, rest: string, server: Answers, saveFails: bool, nonce: Crypto.Nonce)
    ensures var letter := LetterOf(contacts, rest, server, saveFails, nonce);
            Send(p, me, contacts, rest, server, saveFails, nonce).frame == if letter.None? then None else FrameOf(p, me, letter.value)
  {
    hide Addressed, Resolve, Composed;
  }

  function Registration(c: Instance): Wire.Entry {
    Wire.Entry(c.me.name, c.identityKey, c.me.ownKey)
  }

  /** The client and the contact files after an operation on the contacts. */
  function WithContacts(w: World, c: nat, contacts: ContactMap, saved: bool): World
    requires c < |w.clients|
  {
    w.(clients := w.clients[c := w.clients[c].(contacts := contacts)],
       books := if saved then w.books[w.clients[c].me.name := contacts] else w.books)
  }

  function StepStart(w: World, me: Session, identityKey: string): Option<World> {
    if !Wire.IsValidUsername(me.name) then None
    else
      var contacts := if me.name in w.books then w.books[me.name] else map[];
      Some(w.(clients := w.clients + [Instance(me, identityKey, contacts, false)]))
  }

  function StepEnroll(w: World, c: nat): Option<World> {
    if c >= |w.clients| then None
    else
      var entry := Registration(w.clients[c]);
      if !Server.ValidRegistration(entry) then None
      else Some(w.(keys := w.keys[entry.username := entry], clients := w.clients[c := w.clients[c].(registered := true)]))
  }

  /** main registers before it connects. */
  function StepDial(w: World, c: nat): Option<World> {
    if c >= |w.clients| || !w.clients[c].registered then None
    else
      match Relay.Step(w.relay, Relay.Open(w.clients[c].me.name))
      case None => None
      case Some(relay) => Some(w.(relay := relay, links := w.links + [Link(c, [], 0, [], 0)]))
  }

  function StepSpeak(p: Crypto.Suite, w: World, k: nat, rest: string, server: Answers, saveFails: bool, nonce: Crypto.Nonce, socketFails: bool): Option<World> {
    if k >= |w.links| || w.links[k].client >= |w.clients| then None
    else
      var c := w.links[k].client;
      var me, contacts := w.clients[c].me, w.clients[c].contacts;
      var r := Send(p, me, contacts, rest, server, saveFails, nonce);
      var w' := WithContacts(w, c, r.contacts, r.saves && !saveFails);
      var letter := LetterOf(contacts, rest, server, saveFails, nonce);
      if r.frame.None? || letter.None? || socketFails then Some(w')
      else Some(w'.(links := w.links[k := w.links[k].(letters := w.links[k].letters + [letter.value])]))
  }

  function StepRefresh(w: World, c: nat, username: string, server: Answers, saveFails: bool): Option<World> {
    if c >= |w.clients| then None
    else
      var r := Add(w.clients[c].contacts, username, server, saveFails);
      Some(WithContacts(w, c, r.contacts, r.saves && !saveFails))
  }

  function AcceptedCount(s: Relay.State, k: nat): nat {
    if k < |s.conns| then |s.conns[k].accepted| else 0
  }

  /** The link after the relay has read its next frame. */
  function ReadFrom(link: Link, accepted: bool): Link {
    link.(arrived := link.arrived + 1, origins := if accepted then link.origins + [link.arrived] else link.origins)
  }

  function StepArrive(p: Crypto.Suite, w: World, k: nat): Option<World> {
    if k >= |w.links| || w.links[k].client >= |w.clients| || w.links[k].arrived >= |w.links[k].letters| then None
    else
      match FrameOf(p, w.clients[w.links[k].client].me, w.links[k].letters[w.links[k].arrived])
      case None => None
      case Some(frame) =>
        match Relay.Step(w.relay, Relay.Frame(k, frame))
        case None => None
        case Some(relay) =>
          var accepted := AcceptedCount(relay, k) > AcceptedCount(w.relay, k);
          Some(w.(relay := relay, links := w.links[k := ReadFrom(w.links[k], accepted)]))
  }

  function StepTick(w: World, e: Relay.Event): Option<World> {
    if e.Open? || e.Frame? then None
    else
      match Relay.Step(w.relay, e)
      case None => None
      case Some(relay) => Some(w.(relay := relay))
  }

  /** The i-th frame that the relay wrote, or will write, to socket k. */
  function Payload(s: Relay.State, k: nat, i: nat): string
    requires k < |s.conns| && i < |s.conns[k].pushed|
  {
    match s.conns[k].pushed[i]
    case Live(m) => m.payload
    case Drained(row) => row.message.payload
  }

  function StepHear(p: Crypto.Suite, w: World, k: nat, server: Answers, saveFails: bool): Option<World> {
    if k >= |w.links| || w.links[k].client >= |w.clients| || k >= |w.relay.conns| then None
    else
      var c := w.links[k].client;
      if w.links[k].taken >= w.relay.conns[k].written || w.relay.conns[k].written > |w.relay.conns[k].pushed| then None
      else
        var me := w.clients[c].me;
        var r := Receive(p, me, w.clients[c].contacts, Payload(w.relay, k, w.links[k].taken), server, saveFails);
        var w' := WithContacts(w, c, r.contacts, r.saves && !saveFails);
        Some(w'.(links := w.links[k := w.links[k].(taken := w.links[k].taken + 1)],
                 screen := if r.shown.None? then w.screen else w.screen + [Line(me.name, r.shown.value, k, w.links[k].taken)]))
  }

  function Step(p: Crypto.Suite, w: World, e: Event): Option<World> {
    match e
    case Start(me, identityKey) => StepStart(w, me, identityKey)
    case Enroll(c) => StepEnroll(w, c)
    case Dial(c) => StepDial(w, c)
    case Speak(k, rest, server, saveFails, nonce, socketFails) => StepSpeak(p, w, k, rest, server, saveFails, nonce, socketFails)
    case Refresh(c, username, server, saveFails) => StepRefresh(w, c, username, server, saveFails)
    case Arrive(k) => StepArrive(p, w, k)
    case Tick(e) => StepTick(w, e)
    case Hear(k, server, saveFails) => StepHear(p, w, k, server, saveFails)
  }

  /** A client that starts again has the contacts of the last save of its name. */
  lemma StartLoads(p: Crypto.Suite, w: World, c: nat, contacts: ContactMap, me: Session, identityKey: string)
    requires c < |w.clients| && me.name == w.clients[c].me.name && Wire.IsValidUsername(me.name)
    ensures var saved := WithContacts(w, c, contacts, true);
            var again := Step(p, saved, Start(me, identityKey));
            again.Some? && |again.value.clients| == |w.clients| + 1 && again.value.clients[|w.clients|].contacts == contacts
  {
    hide Wire.IsValidUsername;
  }

  function Run(p: Crypto.Suite, run: seq<Event>): Option<World> {
    if run == [] then Some(BEGINNING)
    else
      match Run(p, run[..|run| - 1])
      case None => None
      case Some(w) => Step(p, w, run[|run| - 1])
  }

  lemma LastStep(p: Crypto.Suite, run: seq<Event>)
    requires run != [] && Run(p, run).Some?
    ensures Run(p, run[..|run| - 1]).Some?
    ensures Step(p, Run(p, run[..|run| - 1]).value, run[|run| - 1]) == Run(p, run)
  {
    hide Step;
  }
}
