/** A contact, once saved, stays: over any run of sends, receives and restarts of a client. */
module ContactPinning {
  import opened Wrappers
  import Crypto
  import opened Wire
  import opened Client

  /** The contacts in memory, and those in the file. */
  datatype Book = Book(contacts: map<string, Entry>, saved: map<string, Entry>)

  datatype Event =
    | SendEvent(rest: string, server: Answers, saveFails: bool, nonce: Crypto.Nonce)
    | ReceiveEvent(bytes: string, server: Answers, saveFails: bool)
    | AddEvent(username: string, server: Answers, saveFails: bool)
    | Reload  // the client starts again and loads its file

  function Kept(book: Book, contacts: map<string, Entry>, saves: bool): Book {
    Book(contacts, if saves then contacts else book.saved)
  }

  function Next(p: Crypto.Suite, me: Session, book: Book, e: Event): Book {
    match e
    case SendEvent(rest, server, saveFails, nonce) =>
      var r := Send(p, me, book.contacts, rest, server, saveFails, nonce); Kept(book, r.contacts, r.saves && !saveFails)
    case ReceiveEvent(bytes, server, saveFails) =>
      var r := Receive(p, me, book.contacts, bytes, server, saveFails); Kept(book, r.contacts, r.saves && !saveFails)
    case AddEvent(username, server, saveFails) =>
      var r := Add(book.contacts, username, server, saveFails); Kept(book, r.contacts, r.saves && !saveFails)
    case Reload => Book(book.saved, book.saved)
  }

  function Books(p: Crypto.Suite, me: Session, start: Book, run: seq<Event>): Book {
    if run == [] then start else Next(p, me, Books(p, me, start, run[..|run| - 1]), run[|run| - 1])
  }

  function Displayed(p: Crypto.Suite, me: Session, book: Book, e: Event): Option<Shown> {
    if e.ReceiveEvent? then Receive(p, me, book.contacts, e.bytes, e.server, e.saveFails).shown else None
  }

  /** The entry that the server gives for the name an event looks up, if it looks one up. */
  function Fetched(p: Crypto.Suite, me: Session, contacts: map<string, Entry>, e: Event): Option<Entry> {
    match e
    case SendEvent(rest, server, _, _) =>
      (match Addressed(rest)
       case None => None
       case Some((recipient, _)) => if recipient in contacts then None else Answer(Asked(recipient, server)))
    case ReceiveEvent(bytes, server, _) =>
      (match Opened(p, me, bytes)
       case None => None
       case Some((_, chat)) => if chat.from in contacts then None else Answer(Asked(chat.from, server)))
    case AddEvent(username, server, _) => if username == "" then None else Answer(Asked(username, server))
    case Reload => None
  }

  function Answer(reply: Reply): Option<Entry> {
    if reply.Known? then Some(reply.entry) else None
  }

  /** The server answers a lookup with an entry of the name it was asked for. */
  ghost predicate Named(server: Answers) {
    forall u :: server(u).Known? ==> server(u).entry.username == u
  }

  // ---------------------------------------------------------------- one event

  lemma NextContacts(p: Crypto.Suite, me: Session, book: Book, e: Event)
    requires !e.Reload?
    ensures var fetched := Fetched(p, me, book.contacts, e);
            Next(p, me, book, e).contacts == if fetched.None? then book.contacts else With(book.contacts, fetched.value)
    ensures Next(p, me, book, e).saved in {book.saved, Next(p, me, book, e).contacts}
  {
    hide Addressed, Opened, Asked, Composed;
  }

  /** An event changes the entry of a contact exactly when the answer to its lookup carries that
      contact's name with another entry. */
  lemma ChangesExactly(p: Crypto.Suite, me: Session, book: Book, e: Event, u: string)
    requires u in book.contacts && !e.Reload?
    ensures u in Next(p, me, book, e).contacts
    ensures var fetched := Fetched(p, me, book.contacts, e);
            Next(p, me, book, e).contacts[u] != book.contacts[u] <==>
              fetched.Some? && fetched.value.username == u && fetched.value != book.contacts[u]
  {
    hide Next, Fetched;
    NextContacts(p, me, book, e);
  }

  /** Without /add and /lookup, a server that keeps to the names it is asked for adds contacts and
      changes none. */
  lemma NamedAddsOnly(p: Crypto.Suite, me: Session, book: Book, e: Event)
    requires e.SendEvent? || e.ReceiveEvent?
    requires Named(e.server)
    ensures forall u :: u in book.contacts ==> u in Next(p, me, book, e).contacts && Next(p, me, book, e).contacts[u] == book.contacts[u]
  {
    hide Next, Addressed, Opened;
    NextContacts(p, me, book, e);
  }

  // ---------------------------------------------------------------- runs

  /** No /add, no /lookup, and an honest directory. Restarts are unrestricted. */
  ghost predicate Steady(e: Event) {
    match e
    case SendEvent(_, server, _, _) => Named(server)
    case ReceiveEvent(_, server, _) => Named(server)
    case AddEvent(_, _, _) => false
    case Reload => true
  }

  /** A restart that does not forget u. */
  predicate Remembers(book: Book, e: Event, u: string) {
    e.Reload? ==> u in book.saved
  }

  predicate SubMap(a: map<string, Entry>, b: map<string, Entry>) {
    forall u :: u in a ==> u in b && b[u] == a[u]
  }

  predicate SameEntry(a: map<string, Entry>, b: map<string, Entry>, u: string) {
    u in a ==> u in b && b[u] == a[u]
  }

  lemma PinStep(p: Crypto.Suite, me: Session, book: Book, e: Event, u: string)
    requires SubMap(book.saved, book.contacts) && Steady(e)
    ensures SubMap(Next(p, me, book, e).saved, Next(p, me, book, e).contacts)
    ensures SameEntry(book.saved, Next(p, me, book, e).saved, u)
    ensures Remembers(book, e, u) ==> SameEntry(book.contacts, Next(p, me, book, e).contacts, u)
  {
    hide Next;
    if e.Reload? {
      assert Next(p, me, book, e) == Book(book.saved, book.saved) by { ReloadBook(p, me, book); }
    } else {
      NamedAddsOnly(p, me, book, e);
      NextContacts(p, me, book, e);
    }
  }

  lemma ReloadBook(p: Crypto.Suite, me: Session, book: Book)
    ensures Next(p, me, book, Reload) == Book(book.saved, book.saved)
  {
  }

  lemma BooksSnoc(p: Crypto.Suite, me: Session, start: Book, run: seq<Event>, n: nat)
    requires n < |run|
    ensures Books(p, me, start, run[..n + 1]) == Next(p, me, Books(p, me, start, run[..n]), run[n])
  {
    hide Next;
    assert run[..n + 1][..n] == run[..n];
  }

  lemma {:induction false} SavedIsKnown(p: Crypto.Suite, me: Session, start: Book, run: seq<Event>, j: nat)
    requires j <= |run| && SubMap(start.saved, start.contacts) && forall n :: 0 <= n < j ==> Steady(run[n])
    ensures SubMap(Books(p, me, start, run[..j]).saved, Books(p, me, start, run[..j]).contacts)
  {
    hide Next, Steady, SubMap, Books;
    if j == 0 {
      assert run[..0] == [];
      NoEvents(p, me, start);
    } else {
      SavedIsKnown(p, me, start, run, j - 1);
      BooksSnoc(p, me, start, run, j - 1);
      PinStep(p, me, Books(p, me, start, run[..j - 1]), run[j - 1], "");
    }
  }

  /** A saved contact never changes again, whatever is restarted and whether or not saves fail. */
  lemma SavedForGood(p: Crypto.Suite, me: Session, start: Book, run: seq<Event>, i: nat, j: nat, u: string, a: Book, b: Book)
    requires i <= j <= |run| && SubMap(start.saved, start.contacts) && forall n :: 0 <= n < j ==> Steady(run[n])
    requires a == Books(p, me, start, run[..i]) && b == Books(p, me, start, run[..j])
    ensures SameEntry(a.saved, b.saved, u) && SameEntry(a.saved, b.contacts, u)
  {
    hide Books, Steady, Next;
    SavedOverRun(p, me, start, run, i, j, u);
    SavedIsKnown(p, me, start, run, j);
  }

  lemma {:induction false} SavedOverRun(p: Crypto.Suite, me: Session, start: Book, run: seq<Event>, i: nat, j: nat, u: string)
    requires i <= j <= |run| && SubMap(start.saved, start.contacts) && forall n :: 0 <= n < j ==> Steady(run[n])
    ensures SameEntry(Books(p, me, start, run[..i]).saved, Books(p, me, start, run[..j]).saved, u)
    decreases j
  {
    hide Next, Steady, SubMap, Books;
    if i < j {
      SavedOverRun(p, me, start, run, i, j - 1, u);
      SavedIsKnown(p, me, start, run, j - 1);
      BooksSnoc(p, me, start, run, j - 1);
      PinStep(p, me, Books(p, me, start, run[..j - 1]), run[j - 1], u);
    }
  }

  /** A known contact stays known and unchanged as long as it is saved at each restart; restarts
      before it was known do not matter. */
  lemma {:induction false} Pinned(p: Crypto.Suite, me: Session, start: Book, run: seq<Event>, i: nat, j: nat, u: string)
    requires i <= j <= |run| && SubMap(start.saved, start.contacts) && forall n :: 0 <= n < j ==> Steady(run[n])
    requires forall n :: i <= n < j ==> Remembers(Books(p, me, start, run[..n]), run[n], u)
    ensures SameEntry(Books(p, me, start, run[..i]).contacts, Books(p, me, start, run[..j]).contacts, u)
    decreases j
  {
    hide Next, Steady, SubMap, Books, Remembers;
    if i < j {
      Pinned(p, me, start, run, i, j - 1, u);
      SavedIsKnown(p, me, start, run, j - 1);
      BooksSnoc(p, me, start, run, j - 1);
      PinStep(p, me, Books(p, me, start, run[..j - 1]), run[j - 1], u);
    }
  }

  /** And that is needed: a restart forgets exactly the contacts that are not saved. */
  lemma RestartForgets(p: Crypto.Suite, me: Session, start: Book, run: seq<Event>, u: string)
    requires SubMap(start.saved, start.contacts) && (forall n :: 0 <= n < |run| ==> Steady(run[n])) && u in Books(p, me, start, run).contacts
    ensures SameEntry(Books(p, me, start, run).contacts, Books(p, me, start, run + [Reload]).contacts, u)
       <==> Remembers(Books(p, me, start, run), Reload, u)
  {
    hide Next, Steady, Books;
    SavedIsKnown(p, me, start, run, |run|);
    assert run[..|run|] == run && (run + [Reload])[..|run|] == run && (run + [Reload])[..|run| + 1] == run + [Reload];
    BooksSnoc(p, me, start, run + [Reload], |run|);
    ReloadBook(p, me, Books(p, me, start, run));
  }

  lemma NoEvents(p: Crypto.Suite, me: Session, start: Book)
    ensures Books(p, me, start, []) == start
  {
  }

  /** A displayed message carries the key that the contact book has for its sender afterwards. */
  lemma DisplayedKey(p: Crypto.Suite, me: Session, book: Book, e: Event)
    requires Displayed(p, me, book, e).Some? && Named(e.server)
    ensures var shown := Displayed(p, me, book, e).value;
            && shown.from in Next(p, me, book, e).contacts
            && Next(p, me, book, e).contacts[shown.from].encryptionKey == shown.senderKey
            && (shown.from in book.contacts ==> book.contacts[shown.from].encryptionKey == shown.senderKey)
  {
    hide Opened;
  }

  /** All messages displayed for one sender carry one key, as long as the sender is saved at each
      restart after the first of them. */
  lemma OneKeyPerSender(p: Crypto.Suite, me: Session, start: Book, run: seq<Event>, i: nat, j: nat)
    requires i < j < |run| && SubMap(start.saved, start.contacts) && forall n :: 0 <= n <= j ==> Steady(run[n])
    requires var first := Displayed(p, me, Books(p, me, start, run[..i]), run[i]);
             var second := Displayed(p, me, Books(p, me, start, run[..j]), run[j]);
             first.Some? && second.Some? && first.value.from == second.value.from
             && forall n :: i < n < j ==> Remembers(Books(p, me, start, run[..n]), run[n], first.value.from)
    ensures Displayed(p, me, Books(p, me, start, run[..i]), run[i]).value.senderKey
         == Displayed(p, me, Books(p, me, start, run[..j]), run[j]).value.senderKey
  {
    hide Next, Receive, Books;
    var a, b := Books(p, me, start, run[..i]), Books(p, me, start, run[..j]);
    var u := Displayed(p, me, a, run[i]).value.from;
    assert Steady(run[i]) && Steady(run[j]);
    DisplayedKey(p, me, a, run[i]);
    DisplayedKey(p, me, b, run[j]);
    BooksSnoc(p, me, start, run, i);
    Pinned(p, me, start, run, i + 1, j, u);
  }

  predicate KeyedByName(contacts: map<string, Entry>) {
    forall u :: u in contacts ==> contacts[u].username == u
  }

  /** Every contact is under its own username, whatever the server answers. */
  lemma {:induction false} KeyedByNameHolds(p: Crypto.Suite, me: Session, start: Book, run: seq<Event>)
    requires KeyedByName(start.contacts) && KeyedByName(start.saved)
    ensures KeyedByName(Books(p, me, start, run).contacts) && KeyedByName(Books(p, me, start, run).saved)
  {
    if run != [] {
      hide Next, Fetched;
      var before, e := run[..|run| - 1], run[|run| - 1];
      KeyedByNameHolds(p, me, start, before);
      if e.Reload? {
        ReloadBook(p, me, Books(p, me, start, before));
      } else {
        NextContacts(p, me, Books(p, me, start, before), e);
      }
    }
  }

  // ---------------------------------------------------------------- what the condition is for

  lemma CarolIsValid()
    ensures IsValidUsername("carol")
  {
  }

  /** A name that is not valid is never asked for: nothing is learned, and nothing goes on. */
  lemma InvalidNameNotAsked(contacts: map<string, Entry>, u: string, server: Answers, saveFails: bool)
    requires !IsValidUsername(u)
    ensures u !in contacts ==> Resolve(contacts, u, server, saveFails) == Resolution(contacts, None, false)
    ensures Add(contacts, u, server, saveFails) == Resolution(contacts, None, false)
  {
    hide IsValidUsername;
  }

  /** A server that answers a lookup of one name with an entry of another replaces that contact. */
  lemma MisnamedAnswerReplaces(p: Crypto.Suite, me: Session, was: Entry, now: Entry)
    returns (e: Event)
    requires was.username == now.username == "bob" && was != now
    ensures e.SendEvent? && !Named(e.server)
    ensures var book := Book(map["bob" := was], map["bob" := was]);
            "bob" in Next(p, me, book, e).contacts && Next(p, me, book, e).contacts["bob"] == now
  {
    hide Next, Composed, Addressed, Trim, IsValidUsername;
    var server: Answers := (u: string) => Known(now);
    assert server("carol").entry.username != "carol";
    e := SendEvent("carol hi", server, false, seq(24, i => 0));
    assert "carol hi" == "carol" + " " + "hi";
    AddressedExactly("carol", "hi");
    CarolIsValid();
    NextContacts(p, me, Book(map["bob" := was], map["bob" := was]), e);
  }
}
