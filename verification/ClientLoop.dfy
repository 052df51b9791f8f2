/** The select loop of client/src/main.rs: one input after the other, typed or from the socket. */
module ClientLoop {
  import opened Wrappers
  import Crypto
  import Wire
  import opened Contacts
  import opened ContactsProofs
  import opened Client
  import opened ClientTexts
  import opened ContactPinning

  datatype Command = Quit | AddContact(username: string) | SendTo(rest: string) | Other

  function Strip(prefix: string, line: string): Option<string> {
    if prefix <= line then Some(line[|prefix|..]) else None
  }

  /** What a typed line asks for. Other stands for help, the contact list and unknown commands. */
  function CommandOf(line: string): Command {
    var command := Trim(line);
    if command == "/quit" then Quit
    else
      match (Strip("/add ", command), Strip("/send ", command), Strip("/to ", command), Strip("/lookup ", command))
      case (Some(username), _, _, _) => AddContact(Trim(username))
      case (_, Some(rest), _, _) => SendTo(rest)
      case (_, _, Some(rest), _) => SendTo(rest)
      case (_, _, _, Some(username)) => AddContact(Trim(username))
      case _ => Other
  }

  // ---------------------------------------------------------------- lines, spelled out

  /** "/send bob hi" or "/to bob hi", with any white space around, and with more of it before the
      recipient and the body. */
  ghost predicate SendLine(line: string, recipient: string, body: string) {
    exists w0: string, w1: string, w2: string, w3: string :: SendSpelling(line, recipient, body, w0, w1, w2, w3)
  }

  predicate SendSpelling(line: string, recipient: string, body: string, w0: string, w1: string, w2: string, w3: string) {
    && Blank(w0) && Blank(w1) && Blank(w2) && Blank(w3) && Word(recipient) && Bare(body) && body != ""
    && (line == w0 + ("/send " + (w1 + (recipient + " " + w2 + body))) + w3 || line == w0 + ("/to " + (w1 + (recipient + " " + w2 + body))) + w3)
  }

  /** "/add bob" or "/lookup bob", with any white space around and more of it before the name. */
  ghost predicate AddLine(line: string, username: string) {
    exists w0: string, w1: string, w3: string :: AddSpelling(line, username, w0, w1, w3)
  }

  predicate AddSpelling(line: string, username: string, w0: string, w1: string, w3: string) {
    && Blank(w0) && Blank(w1) && Blank(w3) && Bare(username) && username != ""
    && (line == w0 + ("/add " + (w1 + username)) + w3 || line == w0 + ("/lookup " + (w1 + username)) + w3)
  }

  lemma StripWhole(prefix: string, rest: string)
    ensures Strip(prefix, prefix + rest) == Some(rest)
  {
    assert (prefix + rest)[|prefix|..] == rest;
  }

  /** A command ends in what cannot be trimmed, and starts with a slash. */
  lemma CommandTrims(w0: string, command: string, rest: string, w3: string)
    requires Blank(w0) && Blank(w3) && command != "" && command[0] == '/' && rest != "" && !IsWhiteSpace(rest[|rest| - 1])
    ensures Trim(w0 + (command + rest) + w3) == command + rest
  {
    var text := command + rest;
    assert text[0] == '/' && text[|text| - 1] == rest[|rest| - 1];
    Trims(w0, text, w3);
  }

  /** The second character tells the commands apart. */
  lemma SecondCharacter(text: string)
    requires |text| > 1
    ensures text[1] != 'q' ==> text != "/quit"
    ensures text[1] != 'a' ==> Strip("/add ", text) == None
    ensures text[1] != 's' ==> Strip("/send ", text) == None
    ensures text[1] != 't' ==> Strip("/to ", text) == None
    ensures text[1] != 'l' ==> Strip("/lookup ", text) == None
  {
    assert "/quit"[1] == 'q' && "/add "[1] == 'a' && "/send "[1] == 's' && "/to "[1] == 't' && "/lookup "[1] == 'l';
  }

  lemma SendLineMeans(line: string, recipient: string, body: string)
    requires SendLine(line, recipient, body)
    ensures CommandOf(line).SendTo? && Addressed(CommandOf(line).rest) == Some((recipient, body))
  {
    hide Trim, Strip, Addressed, Blank, IsWhiteSpace;
    var w0: string, w1: string, w2: string, w3: string :| SendSpelling(line, recipient, body, w0, w1, w2, w3);
    var rest := w1 + (recipient + " " + w2 + body);
    var send := line == w0 + ("/send " + rest) + w3;
    var command := if send then "/send " else "/to ";
    assert rest[|rest| - 1] == body[|body| - 1];
    CommandTrims(w0, command, rest, w3);
    StripWhole(command, rest);
    assert (command + rest)[1] == if send then 's' else 't';
    SecondCharacter(command + rest);
    AddressedAnyhow(w1, recipient, w2, body, "") by { BlankNothing(); }
    assert rest + "" == rest;
  }

  lemma BlankNothing()
    ensures Blank("")
  {
  }

  lemma AddLineMeans(line: string, username: string)
    requires AddLine(line, username)
    ensures CommandOf(line) == AddContact(username)
  {
    hide Trim, Strip, Blank, IsWhiteSpace;
    var w0: string, w1: string, w3: string :| AddSpelling(line, username, w0, w1, w3);
    var rest := w1 + username;
    var add := line == w0 + ("/add " + rest) + w3;
    var command := if add then "/add " else "/lookup ";
    assert rest[|rest| - 1] == username[|username| - 1];
    CommandTrims(w0, command, rest, w3);
    StripWhole(command, rest);
    assert (command + rest)[1] == if add then 'a' else 'l';
    SecondCharacter(command + rest);
    BlankNothing();
    Trims(w1, username, "");
    assert rest + "" == rest;
  }

  lemma NoTrail(w1: string, text: string, w2: string)
    requires Blank(w2) && w1 + text + w2 != "" && !IsWhiteSpace((w1 + text + w2)[|w1 + text + w2| - 1])
    ensures w2 == "" && w1 + text + w2 == w1 + text
  {
    if w2 != "" {
      EndsBlank(w1 + text, w2);
    }
  }

  lemma EndsBlank(text: string, blank: string)
    requires Blank(blank) && blank != ""
    ensures IsWhiteSpace((text + blank)[|text + blank| - 1])
  {
    assert (text + blank)[|text + blank| - 1] == blank[|blank| - 1];
  }

  /** And only such lines add a contact. */
  lemma AddsByLine(line: string, username: string)
    requires CommandOf(line) == AddContact(username) && username != ""
    ensures AddLine(line, username)
  {
    hide Trim;
    var w0, w3 := TrimParts(line);
    var command := Trim(line);
    var prefix := if "/add " <= command then "/add " else "/lookup ";
    var rest := command[|prefix|..];
    assert command == prefix + rest;
    var w1, w2 := TrimParts(rest);
    assert rest[|rest| - 1] == command[|command| - 1];
    NoTrail(w1, username, w2);
    assert AddSpelling(line, username, w0, w1, w3);
  }

  /** An input of the loop, with what the server, the file and the socket do meanwhile. */
  datatype Input =
    | Typed(line: string, server: Answers, saveFails: bool, nonce: Crypto.Nonce, socketFails: bool)
    | Received(bytes: string, server: Answers, saveFails: bool)
    | Nothing  // a text frame, a ping, or a lost connection that is opened again

  /** What an input is to the contact book. */
  function EventOf(input: Input): Option<Event> {
    match input
    case Typed(line, server, saveFails, nonce, _) =>
      (match CommandOf(line)
       case AddContact(username) => Some(AddEvent(username, server, saveFails))
       case SendTo(rest) => Some(SendEvent(rest, server, saveFails, nonce))
       case _ => None)
    case Received(bytes, server, saveFails) => Some(ReceiveEvent(bytes, server, saveFails))
    case Nothing => None
  }

  function EventsOf(inputs: seq<Input>): seq<Event> {
    if inputs == [] then []
    else
      var last := EventOf(inputs[|inputs| - 1]);
      EventsOf(inputs[..|inputs| - 1]) + (if last.None? then [] else [last.value])
  }

  /** The loop ends at /quit, and when an added contact cannot be fetched or saved. */
  predicate Stops(input: Input) {
    input.Typed?
    && match CommandOf(input.line)
       case Quit => true
       case AddContact(username) =>
         username != "" && (Asked(username, input.server).Broken? || (Asked(username, input.server).Known? && input.saveFails))
       case _ => false
  }

  /** Everything displayed in a run, in order. */
  function AllDisplayed(p: Crypto.Suite, me: Session, start: Book, run: seq<Event>): seq<Shown> {
    if run == [] then []
    else
      var before := run[..|run| - 1];
      var shown := Displayed(p, me, Books(p, me, start, before), run[|run| - 1]);
      AllDisplayed(p, me, start, before) + (if shown.None? then [] else [shown.value])
  }

  /** The frame that an input makes the client write to its socket. */
  function FrameWritten(p: Crypto.Suite, me: Session, book: Book, input: Input): seq<string> {
    match input
    case Typed(line, server, saveFails, nonce, socketFails) =>
      (match CommandOf(line)
       case SendTo(rest) =>
         var frame := Send(p, me, book.contacts, rest, server, saveFails, nonce).frame;
         if frame.None? || socketFails then [] else [frame.value]
       case _ => [])
    case _ => []
  }

  /** Every frame written for these inputs, in order. */
  function AllWritten(p: Crypto.Suite, me: Session, start: Book, inputs: seq<Input>): seq<string> {
    if inputs == [] then []
    else
      var before := inputs[..|inputs| - 1];
      AllWritten(p, me, start, before) + FrameWritten(p, me, Books(p, me, start, EventsOf(before)), inputs[|inputs| - 1])
  }

  lemma OneMore(p: Crypto.Suite, me: Session, start: Book, run: seq<Event>, e: Event)
    ensures Books(p, me, start, run + [e]) == Next(p, me, Books(p, me, start, run), e)
    ensures var shown := Displayed(p, me, Books(p, me, start, run), e);
            AllDisplayed(p, me, start, run + [e]) == AllDisplayed(p, me, start, run) + (if shown.None? then [] else [shown.value])
  {
    hide Next, Displayed;
    assert (run + [e])[..|run|] == run;
  }

  /** The file holds these contacts. */
  ghost predicate FileHolds(process: Process, contacts: map<string, Wire.Entry>)
    reads process.contacts.files
  {
    var path := process.contacts.path;
    path in process.contacts.files.texts && process.contacts.files.texts[path] == ContactsText(contacts)
  }

  /** What is on the way from the process to the run that it carries out. */
  ghost predicate Tracks(process: Process, book: Book)
    reads process, process.contacts, process.contacts.files
  {
    process.Book() == book.contacts && FileHolds(process, book.saved)
  }

  /** The frame that send_message composes for this recipient and body, if it comes to that. */
  function Said(p: Crypto.Suite, me: Session, contacts: map<string, Wire.Entry>, recipient: string, body: string, input: Input): seq<string>
    requires input.Typed?
  {
    var entry := Resolve(contacts, recipient, input.server, input.saveFails).entry;
    if entry.None? || input.socketFails then []
    else
      match Crypto.Encrypted(p, me.name, recipient, body, me.secret, me.ownKey, entry.value.encryptionKey, input.nonce)
      case Err(_) => []
      case Ok(e) => [Wire.EncodeRouted(Wire.Routed(me.name, recipient, e))]
  }

  lemma LineSends(p: Crypto.Suite, me: Session, book: Book, input: Input, recipient: string, body: string)
    requires input.Typed? && SendLine(input.line, recipient, body)
    ensures !Stops(input) && FrameWritten(p, me, book, input) == Said(p, me, book.contacts, recipient, body, input)
    ensures EventOf(input).Some?
    ensures Next(p, me, book, EventOf(input).value).contacts == Resolve(book.contacts, recipient, input.server, input.saveFails).contacts
  {
    hide CommandOf, Addressed, Resolve, Crypto.Encrypted, Wire.EncodeRouted, SendLine;
    SendLineMeans(input.line, recipient, body);
  }

  lemma LineAdds(p: Crypto.Suite, me: Session, book: Book, input: Input, username: string)
    requires input.Typed? && AddLine(input.line, username)
    ensures FrameWritten(p, me, book, input) == [] && EventOf(input).Some?
    ensures var answer := Asked(username, input.server);
            && (Stops(input) <==> answer.Broken? || (answer.Known? && input.saveFails))
            && Next(p, me, book, EventOf(input).value).contacts
               == if answer.Known? then book.contacts[answer.entry.username := answer.entry] else book.contacts
  {
    hide CommandOf, Asked, AddLine;
    AddLineMeans(input.line, username);
    assert username != "" by { AddLineNamed(input.line, username); }
  }

  lemma LineQuits(p: Crypto.Suite, me: Session, book: Book, input: Input)
    requires input.Typed? && Trim(input.line) == "/quit"
    ensures Stops(input) && EventOf(input) == None && FrameWritten(p, me, book, input) == []
  {
    hide Trim;
  }

  /** Any other line sends nothing and asks nothing. */
  lemma OtherLine(p: Crypto.Suite, me: Session, book: Book, input: Input)
    requires input.Typed? && var text := Trim(input.line); !("/send " <= text) && !("/to " <= text) && !("/add " <= text) && !("/lookup " <= text)
    ensures EventOf(input) == None && FrameWritten(p, me, book, input) == [] && (Stops(input) <==> Trim(input.line) == "/quit")
  {
    hide Trim;
  }

  /** The loop ends at /quit, and at /add and /lookup of a name that cannot be looked up or saved,
      and at no other input. */
  lemma StopsExactly(input: Input)
    ensures Stops(input) <==>
            input.Typed?
            && (Trim(input.line) == "/quit"
                || exists u :: AddLine(input.line, u)
                               && (Asked(u, input.server).Broken? || (Asked(u, input.server).Known? && input.saveFails)))
  {
    hide Asked, AddLine, Trim, Strip;
    if input.Typed? {
      if CommandOf(input.line).AddContact? && CommandOf(input.line).username != "" {
        AddsByLine(input.line, CommandOf(input.line).username);
      }
      forall u | AddLine(input.line, u) ensures CommandOf(input.line) == AddContact(u) && u != "" {
        AddLineMeans(input.line, u);
        AddLineNamed(input.line, u);
      }
    }
  }

  lemma AddLineNamed(line: string, username: string)
    requires AddLine(line, username)
    ensures username != ""
  {
  }

  method HandleInput(process: Process, input: Input, ghost book: Book) returns (stop: bool)
    requires Tracks(process, book)
    modifies process, process.contacts, process.contacts.files
    ensures stop <==> Stops(input)
    ensures var e := EventOf(input);
            && Tracks(process, if e.None? then book else Next(process.p, process.me, book, e.value))
            && process.screen == old(process.screen)
                 + (if e.None? || Displayed(process.p, process.me, book, e.value).None? then [] else [Displayed(process.p, process.me, book, e.value).value])
    ensures process.outgoing == old(process.outgoing) + FrameWritten(process.p, process.me, book, input)
  {
    hide CommandOf, ContactsText, Send, Receive, Asked;
    assert process.outgoing + [] == process.outgoing;
    stop := false;
    match input {
      case Typed(line, server, saveFails, nonce, socketFails) =>
        match CommandOf(line) {
          case Quit =>
            stop := true;
          case AddContact(username) =>
            var ok := process.AddContact(username, server, saveFails);
            stop := !ok;
          case SendTo(rest) =>
            var sent := process.SendMessage(rest, server, saveFails, nonce, socketFails);
          case Other =>
        }
      case Received(bytes, server, saveFails) =>
        process.ReceiveMessage(bytes, server, saveFails);
      case Nothing =>
    }
  }

  /** One input: what it does to the contact book, the screen and the socket; and spelled out, what
      the typed lines do. */
  method Handle(process: Process, input: Input, ghost book: Book) returns (stop: bool)
    requires Tracks(process, book)
    modifies process, process.contacts, process.contacts.files
    ensures stop <==> Stops(input)
    ensures var e := EventOf(input);
            && Tracks(process, if e.None? then book else Next(process.p, process.me, book, e.value))
            && process.screen == old(process.screen)
                 + (if e.None? || Displayed(process.p, process.me, book, e.value).None? then [] else [Displayed(process.p, process.me, book, e.value).value])
    ensures process.outgoing == old(process.outgoing) + FrameWritten(process.p, process.me, book, input)
    ensures forall recipient, body :: input.Typed? && SendLine(input.line, recipient, body) ==>
              && !stop && process.outgoing == old(process.outgoing) + Said(process.p, process.me, book.contacts, recipient, body, input)
              && process.Book() == Resolve(book.contacts, recipient, input.server, input.saveFails).contacts
    ensures forall username :: input.Typed? && AddLine(input.line, username) ==>
              var answer := Asked(username, input.server);
              && (stop <==> answer.Broken? || (answer.Known? && input.saveFails)) && process.outgoing == old(process.outgoing)
              && process.Book() == if answer.Known? then book.contacts[answer.entry.username := answer.entry] else book.contacts
    ensures input.Typed? && Trim(input.line) == "/quit" ==>
              stop && process.outgoing == old(process.outgoing) && process.screen == old(process.screen) && process.Book() == book.contacts
  {
    hide CommandOf, Send, Receive, Asked, Stops, EventOf, FrameWritten, Said, Next, Displayed, SendLine, AddLine, Trim, Resolve;
    stop := HandleInput(process, input, book);
    assert process.outgoing + [] == process.outgoing && old(process.outgoing) + [] == old(process.outgoing) && old(process.screen) + [] == old(process.screen);
    if input.Typed? {
      forall recipient, body | SendLine(input.line, recipient, body)
        ensures !Stops(input) && EventOf(input).Some? && FrameWritten(process.p, process.me, book, input) == Said(process.p, process.me, book.contacts, recipient, body, input)
        ensures Next(process.p, process.me, book, EventOf(input).value).contacts == Resolve(book.contacts, recipient, input.server, input.saveFails).contacts
      {
        LineSends(process.p, process.me, book, input, recipient, body);
      }
      forall username | AddLine(input.line, username)
        ensures FrameWritten(process.p, process.me, book, input) == [] && EventOf(input).Some?
        ensures Stops(input) <==> Asked(username, input.server).Broken? || (Asked(username, input.server).Known? && input.saveFails)
        ensures var answer := Asked(username, input.server);
                Next(process.p, process.me, book, EventOf(input).value).contacts
                == if answer.Known? then book.contacts[answer.entry.username := answer.entry] else book.contacts
      {
        LineAdds(process.p, process.me, book, input, username);
      }
      if Trim(input.line) == "/quit" {
        LineQuits(process.p, process.me, book, input);
      }
    }
  }

  /** The loop carries out the run of the inputs it consumed, so that what is proved of runs of the
      contact book holds of a client process; and it writes exactly the frames of its commands. */
  method Serve(process: Process, inputs: seq<Input>, ghost start: Book) returns (n: nat)
    requires Tracks(process, start)
    modifies process, process.contacts, process.contacts.files
    ensures n <= |inputs| && (forall i :: 0 <= i < n - 1 ==> !Stops(inputs[i])) && (n < |inputs| ==> n > 0 && Stops(inputs[n - 1]))
    ensures Tracks(process, Books(process.p, process.me, start, EventsOf(inputs[..n])))
    ensures process.screen == old(process.screen) + AllDisplayed(process.p, process.me, start, EventsOf(inputs[..n]))
    ensures process.outgoing == old(process.outgoing) + AllWritten(process.p, process.me, start, inputs[..n])
  {
    hide Tracks, Books, AllDisplayed, EventsOf, Stops, Next, Displayed, EventOf, AllWritten, FrameWritten;
    n := 0;
    var stop := false;
    EmptyRun(process.p, process.me, start, inputs);
    while n < |inputs| && !stop
      invariant n <= |inputs| && (forall i :: 0 <= i < n - 1 ==> !Stops(inputs[i]))
      invariant n > 0 ==> (stop <==> Stops(inputs[n - 1]))
      invariant n == 0 ==> !stop
      invariant Tracks(process, Books(process.p, process.me, start, EventsOf(inputs[..n])))
      invariant process.screen == old(process.screen) + AllDisplayed(process.p, process.me, start, EventsOf(inputs[..n]))
      invariant process.outgoing == old(process.outgoing) + AllWritten(process.p, process.me, start, inputs[..n])
    {
      ghost var run := EventsOf(inputs[..n]);
      ghost var lines := AllDisplayed(process.p, process.me, start, run);
      stop := Handle(process, inputs[n], Books(process.p, process.me, start, run));
      NextEvent(inputs, n);
      NextFrame(process.p, process.me, start, inputs, n);
      assert run + [] == run && lines + [] == lines;
      if EventOf(inputs[n]).Some? {
        OneMore(process.p, process.me, start, run, EventOf(inputs[n]).value);
      }
      n := n + 1;
    }
  }

  /** The client starts again: it reads back exactly the contacts that were saved last. */
  method StartAgain(process: Process, ghost book: Book) returns (next: Process?)
    requires Tracks(process, book) && Wire.IsValidUsername(process.me.name) && process.contacts.path == ContactsPath(process.me.name)
    modifies process.contacts.files
    ensures next != null && next.p == process.p && next.me == process.me && next.contacts.files == process.contacts.files
    ensures process.contacts.files.texts == old(process.contacts.files.texts)
    ensures Tracks(next, Next(process.p, process.me, book, Reload))
  {
    hide Wire.IsValidUsername, ContactsText, ReadContacts;
    SavedContactsLoad(book.saved);
    var contacts := LoadOrCreateIn(process.me.name, process.contacts.files, false, false, false);
    next := new Process(process.p, process.me, contacts);
  }

  lemma EmptyRun(p: Crypto.Suite, me: Session, start: Book, inputs: seq<Input>)
    ensures Books(p, me, start, EventsOf(inputs[..0])) == start && AllDisplayed(p, me, start, EventsOf(inputs[..0])) == []
    ensures AllWritten(p, me, start, inputs[..0]) == []
  {
  }

  lemma NextFrame(p: Crypto.Suite, me: Session, start: Book, inputs: seq<Input>, n: nat)
    requires n < |inputs|
    ensures AllWritten(p, me, start, inputs[..n + 1])
         == AllWritten(p, me, start, inputs[..n]) + FrameWritten(p, me, Books(p, me, start, EventsOf(inputs[..n])), inputs[n])
  {
    hide FrameWritten, Books, EventsOf;
    assert inputs[..n + 1][..n] == inputs[..n];
  }

  lemma NextEvent(inputs: seq<Input>, n: nat)
    requires n < |inputs|
    ensures EventsOf(inputs[..n + 1]) == EventsOf(inputs[..n]) + (if EventOf(inputs[n]).None? then [] else [EventOf(inputs[n]).value])
  {
    hide EventOf;
    assert inputs[..n + 1][..n] == inputs[..n];
  }
}
