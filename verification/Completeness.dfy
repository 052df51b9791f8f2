/** With one stable identity per name, every frame written to its addressee's socket is displayed. */
module Completeness {
  import opened Wrappers
  import Server
  import Relay
  import opened Wire
  import opened RelayInvariant
  import opened Crypto
  import opened CryptoProofs
  import opened Client
  import opened Network
  import opened Soundness

  /** One identity for every name. */
  datatype Identities = Identities(secret: string -> Key, identityKey: string -> string)

  function Own(p: Suite, ids: Identities, name: string): Session {
    Session(name, ids.secret(name), KeyText(p, ids.secret(name)))
  }

  function TrueEntry(p: Suite, ids: Identities, name: string): Entry {
    Entry(name, ids.identityKey(name), KeyText(p, ids.secret(name)))
  }

  /** The server's answer is what its directory holds, unless the lookup fails. */
  ghost predicate Honest(server: Answers, keys: ContactMap) {
    forall u :: server(u).Broken? || server(u) == if u in keys then Known(keys[u]) else Unknown
  }

  /** Clients keep their identities, lookups are answered from the directory, and for a received
      frame neither the lookup nor the contact file fails. */
  ghost predicate Faithful(p: Suite, ids: Identities, w: World, e: Event) {
    match e
    case Start(me, identityKey) => me == Own(p, ids, me.name) && identityKey == ids.identityKey(me.name)
    case Speak(_, _, server, _, _, _) => Honest(server, w.keys)
    case Refresh(_, _, server, _) => Honest(server, w.keys)
    case Hear(_, server, saveFails) => Honest(server, w.keys) && !saveFails && forall u :: !server(u).Broken?
    case _ => true
  }

  ghost predicate FaithfulRun(p: Suite, ids: Identities, run: seq<Event>) {
    run == []
    || (FaithfulRun(p, ids, run[..|run| - 1]) && Run(p, run[..|run| - 1]).Some?
        && Faithful(p, ids, Run(p, run[..|run| - 1]).value, run[|run| - 1]))
  }

  // ---------------------------------------------------------------- everyone knows true keys

  ghost predicate AllTrue(p: Suite, ids: Identities, entries: ContactMap) {
    forall u :: u in entries ==> entries[u] == TrueEntry(p, ids, u)
  }

  ghost predicate ClientTrue(p: Suite, ids: Identities, w: World, c: Instance) {
    && c.me == Own(p, ids, c.me.name) && c.identityKey == ids.identityKey(c.me.name) && IsValidUsername(c.me.name)
    && AllTrue(p, ids, c.contacts)
    && (c.registered ==> c.me.name in w.keys)
  }

  predicate LinkTrue(p: Suite, ids: Identities, w: World, link: Link) {
    && link.client < |w.clients| && w.clients[link.client].registered
    && forall n :: 0 <= n < |link.letters| ==> link.letters[n].key == KeyText(p, ids.secret(link.letters[n].to))
  }

  ghost predicate TrueInv(p: Suite, ids: Identities, w: World) {
    && AllTrue(p, ids, w.keys)
    && (forall u :: u in w.books ==> AllTrue(p, ids, w.books[u]))
    && (forall c :: 0 <= c < |w.clients| ==> ClientTrue(p, ids, w, w.clients[c]))
    && (forall k :: 0 <= k < |w.links| ==> LinkTrue(p, ids, w, w.links[k]))
  }

  lemma ResolveTrue(p: Suite, ids: Identities, contacts: ContactMap, u: string, server: Answers, saveFails: bool, keys: ContactMap)
    requires AllTrue(p, ids, contacts) && AllTrue(p, ids, keys) && Honest(server, keys)
    ensures var r := Resolve(contacts, u, server, saveFails);
            AllTrue(p, ids, r.contacts) && (r.entry.Some? ==> r.entry.value == TrueEntry(p, ids, u))
  {
    hide IsValidUsername;
  }

  lemma SendTrue(p: Suite, ids: Identities, me: Session, contacts: ContactMap, rest: string, server: Answers, saveFails: bool, nonce: Nonce, keys: ContactMap)
    requires AllTrue(p, ids, contacts) && AllTrue(p, ids, keys) && Honest(server, keys)
    ensures AllTrue(p, ids, Send(p, me, contacts, rest, server, saveFails, nonce).contacts)
    ensures var letter := LetterOf(contacts, rest, server, saveFails, nonce);
            letter.Some? ==> letter.value.key == KeyText(p, ids.secret(letter.value.to))
  {
    hide Addressed, Resolve, Composed, AllTrue;
    if Addressed(rest).Some? {
      ResolveTrue(p, ids, contacts, Addressed(rest).value.0, server, saveFails, keys);
    }
  }

  lemma ReceiveTrue(p: Suite, ids: Identities, me: Session, contacts: ContactMap, bytes: string, server: Answers, saveFails: bool, keys: ContactMap)
    requires AllTrue(p, ids, contacts) && AllTrue(p, ids, keys) && Honest(server, keys)
    ensures AllTrue(p, ids, Receive(p, me, contacts, bytes, server, saveFails).contacts)
  {
    hide Client.Opened, Resolve, AllTrue;
    if Client.Opened(p, me, bytes).Some? {
      ResolveTrue(p, ids, contacts, Client.Opened(p, me, bytes).value.1.from, server, saveFails, keys);
    }
  }

  lemma SameTruth(p: Suite, ids: Identities, w: World, w': World)
    requires TrueInv(p, ids, w) && w'.keys == w.keys && w'.books == w.books && w'.clients == w.clients
    requires forall k :: 0 <= k < |w'.links| ==> LinkTrue(p, ids, w, w'.links[k])
    ensures TrueInv(p, ids, w')
  {
    hide AllTrue;
    forall c | 0 <= c < |w'.clients| ensures ClientTrue(p, ids, w', w'.clients[c]) {
      assert ClientTrue(p, ids, w, w.clients[c]);
    }
    forall k | 0 <= k < |w'.links| ensures LinkTrue(p, ids, w', w'.links[k]) {
      assert LinkTrue(p, ids, w, w'.links[k]);
    }
  }

  lemma WithContactsTrue(p: Suite, ids: Identities, w: World, c: nat, contacts: ContactMap, saved: bool)
    requires TrueInv(p, ids, w) && c < |w.clients| && AllTrue(p, ids, contacts)
    ensures TrueInv(p, ids, WithContacts(w, c, contacts, saved))
  {
    hide AllTrue;
    var w' := WithContacts(w, c, contacts, saved);
    forall i | 0 <= i < |w'.clients| ensures ClientTrue(p, ids, w', w'.clients[i]) {
      assert ClientTrue(p, ids, w, w.clients[i]);
    }
    forall k | 0 <= k < |w'.links| ensures LinkTrue(p, ids, w', w'.links[k]) {
      assert LinkTrue(p, ids, w, w.links[k]);
    }
  }

  lemma StartTrue(p: Suite, ids: Identities, w: World, me: Session, identityKey: string)
    requires TrueInv(p, ids, w) && Faithful(p, ids, w, Start(me, identityKey)) && StepStart(w, me, identityKey).Some?
    ensures TrueInv(p, ids, StepStart(w, me, identityKey).value)
  {
    hide IsValidUsername, Own;
    var w' := StepStart(w, me, identityKey).value;
    forall i | 0 <= i < |w'.clients| ensures ClientTrue(p, ids, w', w'.clients[i]) {
      assert i < |w.clients| ==> ClientTrue(p, ids, w, w.clients[i]);
    }
    forall k | 0 <= k < |w'.links| ensures LinkTrue(p, ids, w', w'.links[k]) {
      assert LinkTrue(p, ids, w, w.links[k]);
    }
  }

  lemma EnrollTrue(p: Suite, ids: Identities, w: World, c: nat)
    requires TrueInv(p, ids, w) && StepEnroll(w, c).Some?
    ensures TrueInv(p, ids, StepEnroll(w, c).value)
  {
    hide IsValidUsername, Server.ValidRegistration;
    var w' := StepEnroll(w, c).value;
    assert ClientTrue(p, ids, w, w.clients[c]);
    forall i | 0 <= i < |w'.clients| ensures ClientTrue(p, ids, w', w'.clients[i]) {
      assert ClientTrue(p, ids, w, w.clients[i]);
    }
    forall k | 0 <= k < |w'.links| ensures LinkTrue(p, ids, w', w'.links[k]) {
      assert LinkTrue(p, ids, w, w.links[k]);
    }
  }

  /** A Speak step changes the contacts and adds at most the letter it composed. */
  lemma SpeakShape(p: Suite, w: World, e: Event)
    requires e.Speak? && Step(p, w, e).Some?
    ensures e.link < |w.links| && w.links[e.link].client < |w.clients|
    ensures var c := w.links[e.link].client;
            var r := Send(p, w.clients[c].me, w.clients[c].contacts, e.rest, e.server, e.saveFails, e.nonce);
            var letter := LetterOf(w.clients[c].contacts, e.rest, e.server, e.saveFails, e.nonce);
            var between := WithContacts(w, c, r.contacts, r.saves && !e.saveFails);
            var link := w.links[e.link];
            || Step(p, w, e).value == between
            || (letter.Some? && Step(p, w, e).value == between.(links := w.links[e.link := link.(letters := link.letters + [letter.value])]))
  {
    hide Send, LetterOf, WithContacts;
  }

  lemma SpeakTrue(p: Suite, ids: Identities, w: World, e: Event)
    requires e.Speak? && TrueInv(p, ids, w) && Faithful(p, ids, w, e) && Step(p, w, e).Some?
    ensures TrueInv(p, ids, Step(p, w, e).value)
  {
    hide Step, Send, LetterOf, AllTrue, Honest, LinkTrue;
    SpeakShape(p, w, e);
    var c := w.links[e.link].client;
    var me, contacts := w.clients[c].me, w.clients[c].contacts;
    assert ClientTrue(p, ids, w, w.clients[c]);
    SendTrue(p, ids, me, contacts, e.rest, e.server, e.saveFails, e.nonce, w.keys);
    var r := Send(p, me, contacts, e.rest, e.server, e.saveFails, e.nonce);
    var between := WithContacts(w, c, r.contacts, r.saves && !e.saveFails);
    WithContactsTrue(p, ids, w, c, r.contacts, r.saves && !e.saveFails);
    var letter := LetterOf(contacts, e.rest, e.server, e.saveFails, e.nonce);
    if letter.Some? {
      OneMoreLetter(p, ids, between, e.link, letter.value);
    }
  }

  lemma OneMoreLetter(p: Suite, ids: Identities, w: World, k: nat, letter: Letter)
    requires TrueInv(p, ids, w) && k < |w.links| && letter.key == KeyText(p, ids.secret(letter.to))
    ensures TrueInv(p, ids, w.(links := w.links[k := w.links[k].(letters := w.links[k].letters + [letter])]))
  {
    hide AllTrue, ClientTrue, KeyText;
    var link := w.links[k].(letters := w.links[k].letters + [letter]);
    assert LinkTrue(p, ids, w, w.links[k]);
    assert LinkTrue(p, ids, w, link);
    SameTruth(p, ids, w, w.(links := w.links[k := link]));
  }

  lemma AddTrue(p: Suite, ids: Identities, contacts: ContactMap, u: string, server: Answers, saveFails: bool, keys: ContactMap)
    requires AllTrue(p, ids, contacts) && AllTrue(p, ids, keys) && Honest(server, keys)
    ensures AllTrue(p, ids, Add(contacts, u, server, saveFails).contacts)
  {
    hide IsValidUsername;
  }

  lemma RefreshTrue(p: Suite, ids: Identities, w: World, e: Event)
    requires e.Refresh? && TrueInv(p, ids, w) && Faithful(p, ids, w, e) && Step(p, w, e).Some?
    ensures TrueInv(p, ids, Step(p, w, e).value)
  {
    hide Add, AllTrue, Honest, LinkTrue, WithContacts;
    assert ClientTrue(p, ids, w, w.clients[e.client]);
    AddTrue(p, ids, w.clients[e.client].contacts, e.username, e.server, e.saveFails, w.keys);
    var r := Add(w.clients[e.client].contacts, e.username, e.server, e.saveFails);
    WithContactsTrue(p, ids, w, e.client, r.contacts, r.saves && !e.saveFails);
  }

  lemma HearShape(p: Suite, w: World, e: Event)
    requires e.Hear? && Step(p, w, e).Some?
    ensures e.link < |w.links| && e.link < |w.relay.conns| && w.links[e.link].client < |w.clients|
    ensures w.links[e.link].taken < |w.relay.conns[e.link].pushed|
    ensures var c := w.clients[w.links[e.link].client];
            var r := Receive(p, c.me, c.contacts, Payload(w.relay, e.link, w.links[e.link].taken), e.server, e.saveFails);
            Step(p, w, e).value
            == WithContacts(w, w.links[e.link].client, r.contacts, r.saves && !e.saveFails).(
                 links := w.links[e.link := w.links[e.link].(taken := w.links[e.link].taken + 1)],
                 screen := if r.shown.None? then w.screen else w.screen + [Line(c.me.name, r.shown.value, e.link, w.links[e.link].taken)])
  {
    hide Receive, WithContacts;
  }

  lemma HearTrue(p: Suite, ids: Identities, w: World, e: Event)
    requires e.Hear? && TrueInv(p, ids, w) && Faithful(p, ids, w, e) && Step(p, w, e).Some?
    ensures TrueInv(p, ids, Step(p, w, e).value)
  {
    hide Step, Receive, AllTrue, Honest;
    HearShape(p, w, e);
    var w' := Step(p, w, e).value;
    var c := w.links[e.link].client;
    assert ClientTrue(p, ids, w, w.clients[c]);
    hide ClientTrue;
    var bytes := Payload(w.relay, e.link, w.links[e.link].taken);
    ReceiveTrue(p, ids, w.clients[c].me, w.clients[c].contacts, bytes, e.server, e.saveFails, w.keys);
    var r := Receive(p, w.clients[c].me, w.clients[c].contacts, bytes, e.server, e.saveFails);
    var between := WithContacts(w, c, r.contacts, r.saves && !e.saveFails);
    WithContactsTrue(p, ids, w, c, r.contacts, r.saves && !e.saveFails);
    forall k | 0 <= k < |w'.links| ensures LinkTrue(p, ids, between, w'.links[k]) {
      assert LinkTrue(p, ids, between, between.links[k]);
    }
    SameTruth(p, ids, between, w');
  }

  lemma PlumbingTrue(p: Suite, ids: Identities, w: World, e: Event)
    requires e.Dial? || e.Arrive? || e.Tick?
    requires TrueInv(p, ids, w) && Step(p, w, e).Some?
    ensures TrueInv(p, ids, Step(p, w, e).value)
  {
    hide Relay.Step, FrameOf, AllTrue, ClientTrue;
    var w' := Step(p, w, e).value;
    forall k | 0 <= k < |w'.links| ensures LinkTrue(p, ids, w, w'.links[k]) {
      assert k < |w.links| ==> LinkTrue(p, ids, w, w.links[k]);
    }
    SameTruth(p, ids, w, w');
  }

  lemma {:induction false} TrueInvHolds(p: Suite, ids: Identities, run: seq<Event>)
    requires Run(p, run).Some? && FaithfulRun(p, ids, run)
    ensures TrueInv(p, ids, Run(p, run).value)
  {
    hide Run, TrueInv, Faithful, StepStart, StepEnroll, StepDial, StepRefresh, StepSpeak, StepArrive, StepTick, StepHear;
    if run == [] {
      assert TrueInv(p, ids, Run(p, []).value) by { NoRun(p); NothingTrue(p, ids); }
    } else {
      var before, e := run[..|run| - 1], run[|run| - 1];
      LastStep(p, run);
      TrueInvHolds(p, ids, before);
      var w := Run(p, before).value;
      match e {
        case Start(me, identityKey) => StartTrue(p, ids, w, me, identityKey);
        case Enroll(c) => EnrollTrue(p, ids, w, c);
        case Speak(_, _, _, _, _, _) => SpeakTrue(p, ids, w, e);
        case Refresh(_, _, _, _) => RefreshTrue(p, ids, w, e);
        case Hear(_, _, _) => HearTrue(p, ids, w, e);
        case _ => PlumbingTrue(p, ids, w, e);
      }
    }
  }

  lemma NothingTrue(p: Suite, ids: Identities)
    ensures TrueInv(p, ids, BEGINNING)
  {
  }

  // ---------------------------------------------------------------- display

  /** An envelope between two stable identities opens and passes the name check. */
  lemma OpensForAddressee(p: Suite, ids: Identities, from: string, to: string, body: string, nonce: Nonce, payload: string)
    requires Lawful(p)
    requires var a, b := Own(p, ids, from), Own(p, ids, to);
             var e := Crypto.Encrypted(p, from, to, body, a.secret, a.ownKey, b.ownKey, nonce);
             e.Ok? && DecodeEncrypted(payload) == Some(e.value)
    ensures Client.Opened(p, Own(p, ids, to), payload).Some?
    ensures var (e, chat) := Client.Opened(p, Own(p, ids, to), payload).value;
            e.senderKey == Own(p, ids, from).ownKey && chat == Plaintext(from, to, body)
  {
    hide DecodeEncrypted, Decrypt, Crypto.Encrypted, KeyText;
    EncryptsToEnvelope(p, from, to, body, ids.secret(from), ids.secret(to), nonce);
    EnvelopeRoundTrip(p, from, to, body, ids.secret(from), ids.secret(to), nonce);
  }

  /** When an opened message is displayed, in a world where everyone knows true keys: a sender who
      is not yet a contact must have registered. */
  lemma DisplaysExactly(p: Suite, ids: Identities, me: Session, contacts: ContactMap, payload: string, server: Answers, saveFails: bool, keys: ContactMap)
    requires AllTrue(p, ids, contacts) && AllTrue(p, ids, keys) && Honest(server, keys)
    requires Client.Opened(p, me, payload).Some?
    requires var (e, chat) := Client.Opened(p, me, payload).value;
             e.senderKey == Own(p, ids, chat.from).ownKey && IsValidUsername(chat.from)
    ensures var (e, chat) := Client.Opened(p, me, payload).value;
            var shown := Receive(p, me, contacts, payload, server, saveFails).shown;
            && (shown.Some? <==> chat.from in contacts || (chat.from in keys && !server(chat.from).Broken? && !saveFails))
            && (shown.Some? ==> shown.value == Shown(chat.from, chat.body, e.senderKey))
  {
    hide Client.Opened, IsValidUsername, KeyText;
  }

  /** In every run of clients with one stable identity per name: the i-th frame that the relay
      sends on socket k was composed by a registered client, for the user of that socket; it
      decrypts and passes the name and key checks; and it is displayed exactly when its sender is
      a saved contact or the lookup and the contact file do not fail. */
  lemma DeliveredIsDisplayed(p: Suite, ids: Identities, run: seq<Event>, k: nat, i: nat, server: Answers, saveFails: bool)
    returns (from: string, body: string)
    requires Lawful(p) && Run(p, run).Some? && FaithfulRun(p, ids, run) && Honest(server, Run(p, run).value.keys)
    requires k < |Run(p, run).value.relay.conns| && i < |Run(p, run).value.relay.conns[k].pushed|
    ensures k < |Run(p, run).value.links| && Run(p, run).value.links[k].client < |Run(p, run).value.clients|
    ensures var w := Run(p, run).value; var c := w.clients[w.links[k].client];
            var shown := Receive(p, c.me, c.contacts, Payload(w.relay, k, i), server, saveFails).shown;
            && LetterIs(w, LetterBehind(w, k, i), from, c.me.name, body)
            && (shown.Some? <==> from in c.contacts || (!server(from).Broken? && !saveFails))
            && (shown.Some? ==> shown.value == Shown(from, body, KeyText(p, ids.secret(from))))
  {
    hide Run, Receive, Client.Opened, Crypto.Encrypted, DecodeEncrypted, KeyText, IsValidUsername, Inv, FramesInv, ScreenInv, AllTrue, Honest, FaithfulRun;
    WorldInvHolds(p, run);
    TrueInvHolds(p, ids, run);
    var w := Run(p, run).value;
    assert LinkOk(w, k);
    var c := w.clients[w.links[k].client];
    var payload := Payload(w.relay, k, i);
    Origin(p, w, k, i);
    var j := LetterBehind(w, k, i).link;
    var sender, l := w.clients[w.links[j].client], w.links[j].letters[LetterBehind(w, k, i).number];
    assert LinkTrue(p, ids, w, w.links[j]) && ClientTrue(p, ids, w, sender) && ClientTrue(p, ids, w, c);
    from, body := sender.me.name, l.body;
    OpensForAddressee(p, ids, from, c.me.name, body, l.nonce, payload);
    DisplaysExactly(p, ids, c.me, c.contacts, payload, server, saveFails, w.keys);
  }

  /** So in such a run every frame that a client reads is displayed, and nothing else is. */
  lemma NothingIsDiscarded(p: Suite, ids: Identities, run: seq<Event>, w: World, e: Event, w': World)
    requires Lawful(p) && Run(p, run) == Some(w) && FaithfulRun(p, ids, run)
    requires e.Hear? && Faithful(p, ids, w, e) && Step(p, w, e) == Some(w')
    ensures && |w'.links| == |w.links| && |w'.screen| == |w.screen| + 1 && w'.screen[..|w.screen|] == w.screen
            && e.link < |w.links| && w'.links[e.link].taken == w.links[e.link].taken + 1
            && w'.screen[|w.screen|].link == e.link && w'.screen[|w.screen|].index == w.links[e.link].taken
  {
    hide Run, Receive, KeyText, FaithfulRun, LetterBehind, LetterIs, WithContacts;
    HearShape(p, w, e);
    var from, body := DeliveredIsDisplayed(p, ids, run, e.link, w.links[e.link].taken, e.server, e.saveFails);
  }
}
