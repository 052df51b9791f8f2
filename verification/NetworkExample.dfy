/** The assumptions of completeness can all be met: alice greets bob, and bob sees it. */
module NetworkExample {
  import opened Wrappers
  import Relay
  import opened Wire
  import opened RelayInvariant
  import opened RelayScripts
  import RelayExamples
  import opened Base64Url
  import opened Crypto
  import opened CryptoProofs
  import opened Client
  import opened Network
  import opened Soundness
  import opened Completeness

  /** run is a faithful run that ends in w, and r is a run of the relay that ends in its relay. */
  ghost predicate At(p: Suite, ids: Identities, run: seq<Event>, w: World, r: seq<Relay.Event>) {
    Run(p, run) == Some(w) && FaithfulRun(p, ids, run) && Ends(r, w.relay)
  }

  lemma Then(p: Suite, ids: Identities, run: seq<Event>, w: World, r: seq<Relay.Event>, e: Event, w': World, r': seq<Relay.Event>)
    requires At(p, ids, run, w, r) && Faithful(p, ids, w, e) && Step(p, w, e) == Some(w') && Ends(r', w'.relay)
    ensures At(p, ids, run + [e], w', r')
  {
    hide Step, Faithful, Ends;
    assert (run + [e])[..|run|] == run;
  }

  lemma ThenTick(p: Suite, ids: Identities, run: seq<Event>, w: World, r: seq<Relay.Event>, x: Relay.Event, s: Relay.State)
    requires At(p, ids, run, w, r) && Ends(r + [x], s) && !x.Open? && !x.Frame?
    ensures At(p, ids, run + [Tick(x)], w.(relay := s), r + [x])
  {
    hide Run, FaithfulRun, Relay.Run, Relay.Step;
    RunSnoc(r, x);
    Then(p, ids, run, w, r, Tick(x), w.(relay := s), r + [x]);
  }

  const ALICE := "alice"
  const BOB := "bob"

  function Greeter(p: Suite, ids: Identities, name: string, registered: bool): Instance {
    Instance(Own(p, ids, name), ids.identityKey(name), map[], registered)
  }

  lemma NamesAreValid()
    ensures IsValidUsername(ALICE) && IsValidUsername(BOB)
  {
  }

  /** Two clients start and register. */
  lemma Registered(p: Suite, ids: Identities) returns (run: seq<Event>)
    requires IsValidKeyText(ids.identityKey(ALICE)) && IsValidKeyText(ids.identityKey(BOB))
    ensures At(p, ids, run,
               BEGINNING.(clients := [Greeter(p, ids, ALICE, true), Greeter(p, ids, BOB, true)],
                          keys := map[ALICE := TrueEntry(p, ids, ALICE), BOB := TrueEntry(p, ids, BOB)]), [])
  {
    hide Run, FaithfulRun, Ends, Own, KeyText, IsValidKeyText, IsValidUsername;
    NamesAreValid();
    KeysAreValid(p, ids, ALICE);
    KeysAreValid(p, ids, BOB);
    var w0 := BEGINNING;
    Nothing(p, ids);
    var w1 := w0.(clients := w0.clients + [Greeter(p, ids, ALICE, false)]);
    OwnNamed(p, ids, ALICE);
    Then(p, ids, [], w0, [], Start(Own(p, ids, ALICE), ids.identityKey(ALICE)), w1, []);
    run := [] + [Start(Own(p, ids, ALICE), ids.identityKey(ALICE))];
    var w2 := w1.(clients := w1.clients + [Greeter(p, ids, BOB, false)]);
    OwnNamed(p, ids, BOB);
    Then(p, ids, run, w1, [], Start(Own(p, ids, BOB), ids.identityKey(BOB)), w2, []);
    run := run + [Start(Own(p, ids, BOB), ids.identityKey(BOB))];
    var w3 := w2.(clients := w2.clients[0 := Greeter(p, ids, ALICE, true)], keys := map[ALICE := TrueEntry(p, ids, ALICE)]);
    Then(p, ids, run, w2, [], Enroll(0), w3, []);
    run := run + [Enroll(0)];
    var w4 := w3.(clients := w3.clients[1 := Greeter(p, ids, BOB, true)], keys := w3.keys[BOB := TrueEntry(p, ids, BOB)]);
    Then(p, ids, run, w3, [], Enroll(1), w4, []);
    run := run + [Enroll(1)];
    assert w4.clients == [Greeter(p, ids, ALICE, true), Greeter(p, ids, BOB, true)];
  }

  lemma Nothing(p: Suite, ids: Identities)
    ensures At(p, ids, [], BEGINNING, [])
  {
  }

  lemma OwnNamed(p: Suite, ids: Identities, name: string)
    ensures Own(p, ids, name).name == name && Own(p, ids, name).ownKey == KeyText(p, ids.secret(name))
  {
  }

  lemma KeysAreValid(p: Suite, ids: Identities, name: string)
    ensures IsValidKeyText(KeyText(p, ids.secret(name)))
  {
    hide IsValidKeyText, DecodeKey;
    KeyRoundTrip(p.publicKey(ids.secret(name)));
  }

  // ---------------------------------------------------------------- the sockets

  function Fresh(id: nat, name: string): Relay.Connection { Relay.NewConnection(id, name) }

  function Ready(id: nat, name: string): Relay.Connection {
    Fresh(id, name).(phase := Relay.Running, receiving := true)
  }

  function Clients(p: Suite, ids: Identities): World {
    BEGINNING.(clients := [Greeter(p, ids, ALICE, true), Greeter(p, ids, BOB, true)],
               keys := map[ALICE := TrueEntry(p, ids, ALICE), BOB := TrueEntry(p, ids, BOB)])
  }

  const BOTH_FRESH := Relay.INITIAL.(conns := [Fresh(1, ALICE), Fresh(2, BOB)], nextConnectionId := 3)
  const BOTH_READY :=
    BOTH_FRESH.(conns := [Ready(1, ALICE), Ready(2, BOB)],
                active := map[ALICE := Relay.ActiveClient(1, 0), BOB := Relay.ActiveClient(2, 1)])

  /** Both dial. */
  lemma Dialled(p: Suite, ids: Identities, run0: seq<Event>) returns (run: seq<Event>, r: seq<Relay.Event>)
    requires At(p, ids, run0, Clients(p, ids), [])
    ensures At(p, ids, run, Clients(p, ids).(relay := BOTH_FRESH, links := [Link(0, [], 0, [], 0), Link(1, [], 0, [], 0)]), r)
  {
    hide Run, FaithfulRun, Relay.Run, Relay.Step, Own, KeyText, IsValidUsername;
    NamesAreValid();
    var w0 := Clients(p, ids);
    var s1 := w0.relay.(conns := w0.relay.conns + [Fresh(1, ALICE)], nextConnectionId := 2);
    var s2 := s1.(conns := s1.conns + [Fresh(2, BOB)], nextConnectionId := 3);
    var w1 := w0.(relay := s1, links := w0.links + [Link(0, [], 0, [], 0)]);
    var w2 := w1.(relay := s2, links := w1.links + [Link(1, [], 0, [], 0)]);
    OpenStep([], w0.relay, ALICE, s1);
    RunSnoc([], Relay.Open(ALICE));
    OwnNamed(p, ids, ALICE);
    Then(p, ids, run0, w0, [], Dial(0), w1, [] + [Relay.Open(ALICE)]);
    run, r := run0 + [Dial(0)], [] + [Relay.Open(ALICE)];
    OpenStep(r, s1, BOB, s2);
    RunSnoc(r, Relay.Open(BOB));
    OwnNamed(p, ids, BOB);
    Then(p, ids, run, w1, r, Dial(1), w2, r + [Relay.Open(BOB)]);
    run, r := run + [Dial(1)], r + [Relay.Open(BOB)];
    assert s2 == BOTH_FRESH && w2.links == [Link(0, [], 0, [], 0), Link(1, [], 0, [], 0)];
  }

  /** A fresh connection registers, its (failing) drain is over, and its tasks start. */
  lemma Starts(p: Suite, ids: Identities, run0: seq<Event>, w: World, r0: seq<Relay.Event>, k: nat) returns (run: seq<Event>, r: seq<Relay.Event>)
    requires At(p, ids, run0, w, r0) && k < |w.relay.conns| && w.relay.conns[k].phase == Relay.Opened
    ensures var c := w.relay.conns[k];
            At(p, ids, run,
               w.(relay := w.relay.(conns := w.relay.conns[k := c.(phase := Relay.Running, receiving := true)],
                                    active := w.relay.active[c.username := Relay.ActiveClient(c.id, k)])), r)
  {
    hide At, Relay.Run;
    var s, c := w.relay, w.relay.conns[k];
    RelayOf(p, ids, run0, w, r0);
    var s1 := s.(conns := s.conns[k := c.(phase := Relay.Registered)], active := s.active[c.username := Relay.ActiveClient(c.id, k)]);
    RegisterStep(r0, s, k, s1);
    ThenTick(p, ids, run0, w, r0, Relay.Register(k), s1);
    run, r := run0 + [Tick(Relay.Register(k))], r0 + [Relay.Register(k)];
    var s2 := s1.(conns := s1.conns[k := c.(phase := Relay.DrainOver)]);
    LoadFailStep(r, s1, k, s2);
    ThenTick(p, ids, run, w.(relay := s1), r, Relay.LoadFail(k), s2);
    run, r := run + [Tick(Relay.LoadFail(k))], r + [Relay.LoadFail(k)];
    var s3 := s2.(conns := s2.conns[k := c.(phase := Relay.Running, receiving := true)]);
    SpawnStep(r, s2, k, s3);
    ThenTick(p, ids, run, w.(relay := s2), r, Relay.Spawn(k), s3);
    run, r := run + [Tick(Relay.Spawn(k))], r + [Relay.Spawn(k)];
    assert s3.conns == s.conns[k := c.(phase := Relay.Running, receiving := true)];
  }

  lemma RelayOf(p: Suite, ids: Identities, run: seq<Event>, w: World, r: seq<Relay.Event>)
    requires At(p, ids, run, w, r)
    ensures Ends(r, w.relay)
  {
  }

  // ---------------------------------------------------------------- the message

  const LINKS := [Link(0, [], 0, [], 0), Link(1, [], 0, [], 0)]

  function Online(p: Suite, ids: Identities): World {
    Clients(p, ids).(relay := BOTH_READY, links := LINKS)
  }

  lemma BothOnline(p: Suite, ids: Identities) returns (run: seq<Event>, r: seq<Relay.Event>)
    requires IsValidKeyText(ids.identityKey(ALICE)) && IsValidKeyText(ids.identityKey(BOB))
    ensures At(p, ids, run, Online(p, ids), r)
  {
    hide At, IsValidKeyText, Own, KeyText;
    run := Registered(p, ids);
    run, r := Dialled(p, ids, run);
    var w := Clients(p, ids).(relay := BOTH_FRESH, links := LINKS);
    run, r := Starts(p, ids, run, w, r, 0);
    var s := BOTH_FRESH.(conns := BOTH_FRESH.conns[0 := Ready(1, ALICE)], active := map[][ALICE := Relay.ActiveClient(1, 0)]);
    run, r := Starts(p, ids, run, w.(relay := s), r, 1);
    assert s.conns[1 := Ready(2, BOB)] == BOTH_READY.conns;
    assert s.active[BOB := Relay.ActiveClient(2, 1)] == BOTH_READY.active;
  }

  function Directory(keys: ContactMap): Answers {
    u => if u in keys then Known(keys[u]) else Unknown
  }

  function Greeting(p: Suite, ids: Identities, nonce: Nonce): Letter {
    Letter(BOB, "hello", KeyText(p, ids.secret(BOB)), nonce)
  }

  /** alice's client asks for bob's key, saves it and composes the greeting. */
  lemma Composes(p: Suite, ids: Identities, nonce: Nonce) returns (frame: string, e: Encrypted)
    ensures FrameOf(p, Own(p, ids, ALICE), Greeting(p, ids, nonce)) == Some(frame)
    ensures frame == EncodeRouted(Routed(ALICE, BOB, e))
    ensures var keys := Clients(p, ids).keys;
            && LetterOf(map[], "bob hello", Directory(keys), false, nonce) == Some(Greeting(p, ids, nonce))
            && Send(p, Own(p, ids, ALICE), map[], "bob hello", Directory(keys), false, nonce)
               == Sending(map[BOB := TrueEntry(p, ids, BOB)], Some(frame), true)
  {
    hide Crypto.Encrypted, EncodeRouted, KeyText, Trim, Addressed, IsValidUsername, Envelope;
    EncryptsToEnvelope(p, ALICE, BOB, "hello", ids.secret(ALICE), ids.secret(BOB), nonce);
    e := Envelope(p, ALICE, BOB, "hello", ids.secret(ALICE), ids.secret(BOB), nonce);
    frame := EncodeRouted(Routed(ALICE, BOB, e));
    assert "bob hello" == BOB + " " + "hello";
    AddressedExactly(BOB, "hello");
    NamesAreValid();
    assert Asked(BOB, Directory(Clients(p, ids).keys)) == Known(TrueEntry(p, ids, BOB));
  }

  function Spoken(p: Suite, ids: Identities, nonce: Nonce): World {
    WithContacts(Online(p, ids), 0, map[BOB := TrueEntry(p, ids, BOB)], true).(
      links := LINKS[0 := LINKS[0].(letters := [Greeting(p, ids, nonce)])])
  }

  lemma SpeakStep(p: Suite, w: World, e: Event, letter: Letter)
    requires e.Speak? && !e.socketFails && e.link < |w.links| && w.links[e.link].client < |w.clients|
    requires var c := w.clients[w.links[e.link].client];
             && Send(p, c.me, c.contacts, e.rest, e.server, e.saveFails, e.nonce).frame.Some?
             && LetterOf(c.contacts, e.rest, e.server, e.saveFails, e.nonce) == Some(letter)
    ensures var k, c := w.links[e.link].client, w.clients[w.links[e.link].client];
            var r := Send(p, c.me, c.contacts, e.rest, e.server, e.saveFails, e.nonce);
            Step(p, w, e) == Some(WithContacts(w, k, r.contacts, r.saves && !e.saveFails).(
                                    links := w.links[e.link := w.links[e.link].(letters := w.links[e.link].letters + [letter])]))
  {
    hide Send, LetterOf, WithContacts;
  }

  lemma SpeakIsFaithful(p: Suite, ids: Identities, e: Event)
    requires e.Speak? && e.server == Directory(Clients(p, ids).keys)
    ensures Faithful(p, ids, Online(p, ids), e)
  {
    hide TrueEntry;
  }

  lemma OnlineShape(p: Suite, ids: Identities)
    ensures var w := Online(p, ids);
            && w.relay == BOTH_READY && w.links == LINKS && |w.clients| == 2
            && w.clients[0].me == Own(p, ids, ALICE) && w.clients[0].contacts == map[]
  {
    hide Own, TrueEntry;
  }

  lemma SpokenRelay(p: Suite, ids: Identities, nonce: Nonce)
    ensures Spoken(p, ids, nonce).relay == BOTH_READY
  {
    hide Greeting, TrueEntry, Own;
  }

  lemma Speaks(p: Suite, ids: Identities, run: seq<Event>, r: seq<Relay.Event>, nonce: Nonce) returns (e: Event)
    requires At(p, ids, run, Online(p, ids), r)
    ensures At(p, ids, run + [e], Spoken(p, ids, nonce), r)
  {
    hide At, Send, LetterOf, FrameOf, EncodeRouted, Greeting, Own, TrueEntry, Ends, Step, WithContacts, Faithful, Online;
    var w := Online(p, ids);
    RelayOf(p, ids, run, w, r);
    var frame, x := Composes(p, ids, nonce);
    e := Speak(0, "bob hello", Directory(Clients(p, ids).keys), false, nonce, false);
    SpeakIsFaithful(p, ids, e);
    OnlineShape(p, ids);
    SpeakStep(p, w, e, Greeting(p, ids, nonce));
    assert [] + [Greeting(p, ids, nonce)] == [Greeting(p, ids, nonce)];
    SpokenRelay(p, ids, nonce);
    Then(p, ids, run, w, r, e, Spoken(p, ids, nonce), r);
  }

  function Accepted(x: Encrypted, frame: string): Relay.Message {
    Relay.Message(0, 0, BOB, EncodeEncrypted(x), frame)
  }

  /** The relay after it has admitted a frame of alice's to bob. */
  function Admitted(m: Relay.Message): Relay.State {
    BOTH_READY.(conns := BOTH_READY.conns[0 := Ready(1, ALICE).(handler := Relay.Routing(m), accepted := [m])])
  }

  lemma AdmitsGreeting(r: seq<Relay.Event>, x: Encrypted)
    requires Ends(r, BOTH_READY)
    ensures var frame := EncodeRouted(Routed(ALICE, BOB, x));
            Ends(r + [Relay.Frame(0, frame)], Admitted(Accepted(x, frame)))
            && Relay.Step(BOTH_READY, Relay.Frame(0, frame)) == Some(Admitted(Accepted(x, frame)))
  {
    hide Relay.Admit, Relay.Run, Relay.Step, EncodeRouted, EncodeEncrypted, DecodeRouted, IsValidUsername;
    var frame := EncodeRouted(Routed(ALICE, BOB, x));
    NamesAreValid();
    RelayExamples.FrameIsAdmitted(ALICE, BOB, x);
    var m := Accepted(x, frame);
    assert [] + [m] == [m];
    FrameStep(r, BOTH_READY, 0, frame, m, Admitted(m));
    RunSnoc(r, Relay.Frame(0, frame));
  }

  function Arrived(p: Suite, ids: Identities, nonce: Nonce, m: Relay.Message): World {
    Spoken(p, ids, nonce).(relay := Admitted(m), links := [Link(0, [Greeting(p, ids, nonce)], 1, [0], 0), Link(1, [], 0, [], 0)])
  }

  lemma ArriveStep(p: Suite, w: World, k: nat, frame: string, s: Relay.State)
    requires k < |w.links| && w.links[k].client < |w.clients| && w.links[k].arrived < |w.links[k].letters|
    requires FrameOf(p, w.clients[w.links[k].client].me, w.links[k].letters[w.links[k].arrived]) == Some(frame)
    requires Relay.Step(w.relay, Relay.Frame(k, frame)) == Some(s)
    ensures var accepted := AcceptedCount(s, k) > AcceptedCount(w.relay, k);
            Step(p, w, Arrive(k)) == Some(w.(relay := s, links := w.links[k := ReadFrom(w.links[k], accepted)]))
  {
    hide FrameOf, Relay.Step, AcceptedCount, ReadFrom;
  }

  lemma ArriveIsFaithful(p: Suite, ids: Identities, w: World, k: nat)
    ensures Faithful(p, ids, w, Arrive(k))
  {
  }

  lemma SpokenShape(p: Suite, ids: Identities, nonce: Nonce)
    ensures var w := Spoken(p, ids, nonce);
            && w.relay == BOTH_READY && |w.clients| == 2 && w.clients[0].me == Own(p, ids, ALICE)
            && w.links == [Link(0, [Greeting(p, ids, nonce)], 0, [], 0), Link(1, [], 0, [], 0)]
    ensures ReadFrom(Link(0, [Greeting(p, ids, nonce)], 0, [], 0), true) == Link(0, [Greeting(p, ids, nonce)], 1, [0], 0)
  {
    hide Greeting;
    assert [] + [0] == [0];
  }

  lemma AcceptedOne(x: Encrypted, frame: string)
    ensures var m := Accepted(x, frame);
            m.conn == 0 && m.no == 0 && m.to == BOB && AcceptedCount(Admitted(m), 0) == 1 && AcceptedCount(BOTH_READY, 0) == 0
  {
  }

  lemma Arrives(p: Suite, ids: Identities, run0: seq<Event>, r0: seq<Relay.Event>, nonce: Nonce)
    returns (r: seq<Relay.Event>, m: Relay.Message)
    requires At(p, ids, run0, Spoken(p, ids, nonce), r0)
    ensures At(p, ids, run0 + [Arrive(0)], Arrived(p, ids, nonce, m), r) && m.conn == 0 && m.no == 0 && m.to == BOB
  {
    hide At, FrameOf, Greeting, Own, Step, Faithful, Send, LetterOf, TrueEntry, Relay.Step, EncodeRouted, Ends, Spoken, Admitted, Accepted, AcceptedCount, ReadFrom;
    var frame, x := Composes(p, ids, nonce);
    SpokenShape(p, ids, nonce);
    RelayOf(p, ids, run0, Spoken(p, ids, nonce), r0);
    AdmitsGreeting(r0, x);
    m, r := Accepted(x, frame), r0 + [Relay.Frame(0, frame)];
    AcceptedOne(x, frame);
    ArriveStep(p, Spoken(p, ids, nonce), 0, frame, Admitted(m));
    ArriveIsFaithful(p, ids, Spoken(p, ids, nonce), 0);
    assert Spoken(p, ids, nonce).links[0 := Link(0, [Greeting(p, ids, nonce)], 1, [0], 0)] == Arrived(p, ids, nonce, m).links;
    Then(p, ids, run0, Spoken(p, ids, nonce), r0, Arrive(0), Arrived(p, ids, nonce, m), r);
  }

  function Delivered(m: Relay.Message): Relay.State {
    BOTH_READY.(conns := [Ready(1, ALICE).(accepted := [m]), Ready(2, BOB).(pushed := [Relay.Live(m)], written := 1)])
  }

  /** The relay finds bob's channel, sends, and writes to bob's socket. */
  lemma Passes(p: Suite, ids: Identities, run0: seq<Event>, r0: seq<Relay.Event>, w: World, m: Relay.Message)
    returns (run: seq<Event>, r: seq<Relay.Event>)
    requires At(p, ids, run0, w, r0) && w.relay == Admitted(m) && m.to == BOB
    ensures At(p, ids, run, w.(relay := Delivered(m)), r)
  {
    hide At, Relay.Run;
    var a, b := Ready(1, ALICE).(accepted := [m]), Ready(2, BOB);
    RelayOf(p, ids, run0, w, r0);
    var s1 := w.relay;
    var s2 := s1.(conns := s1.conns[0 := a.(handler := Relay.Found(m, 1))]);
    LookupStep(r0, s1, 0, s2);
    ThenTick(p, ids, run0, w, r0, Relay.Lookup(0), s2);
    run, r := run0 + [Tick(Relay.Lookup(0))], r0 + [Relay.Lookup(0)];
    var s3 := s2.(conns := s2.conns[0 := a][1 := b.(pushed := b.pushed + [Relay.Live(m)])]);
    SendStep(r, s2, 0, 1, s3);
    ThenTick(p, ids, run, w.(relay := s2), r, Relay.Send(0), s3);
    run, r := run + [Tick(Relay.Send(0))], r + [Relay.Send(0)];
    var s4 := s3.(conns := s3.conns[1 := s3.conns[1].(written := 1)]);
    WriteStep(r, s3, 1, s4);
    ThenTick(p, ids, run, w.(relay := s3), r, Relay.Write(1), s4);
    run, r := run + [Tick(Relay.Write(1))], r + [Relay.Write(1)];
    assert b.pushed + [Relay.Live(m)] == [Relay.Live(m)];
    assert s4.conns == Delivered(m).conns;
  }

  function Waiting(p: Suite, ids: Identities, nonce: Nonce, m: Relay.Message): World {
    Arrived(p, ids, nonce, m).(relay := Delivered(m))
  }

  /** bob's client reads the frame, and can only show alice's greeting. */
  lemma Hears(p: Suite, ids: Identities, run: seq<Event>, r: seq<Relay.Event>, nonce: Nonce, m: Relay.Message) returns (e: Event, w: World)
    requires Lawful(p) && At(p, ids, run, Waiting(p, ids, nonce, m), r) && m.conn == 0 && m.no == 0
    ensures At(p, ids, run + [e], w, r) && |w.screen| == 1 && LetterBehind(w, 1, 0) == Sent(0, 0) && w.screen[0].link == 1 && w.screen[0].index == 0
    ensures |w.links| == 2 && w.links[0] == Link(0, [Greeting(p, ids, nonce)], 1, [0], 0) && |w.clients| == 2 && w.clients[0].me.name == ALICE
    ensures |w.relay.conns| == 2 && |w.relay.conns[1].pushed| == 1
  {
    hide Receive, KeyText, Greeting, Relay.Run, FaithfulRun, Run;
    var w1 := Waiting(p, ids, nonce, m);
    e := Hear(1, Directory(w1.keys), false);
    OwnNamed(p, ids, ALICE);
    w := Step(p, w1, e).value;
    NothingIsDiscarded(p, ids, run, w1, e, w);
    Then(p, ids, run, w1, r, e, w, r);
  }

  /** A faithful run in which bob's screen shows alice's greeting: the assumptions of
      completeness are met, and the steps they speak of can happen. */
  lemma AliceGreetsBob(p: Suite, ids: Identities, nonce: Nonce) returns (run: seq<Event>, w: World)
    requires Lawful(p) && IsValidKeyText(ids.identityKey(ALICE)) && IsValidKeyText(ids.identityKey(BOB))
    ensures Run(p, run) == Some(w) && FaithfulRun(p, ids, run) && |w.screen| == 1
    ensures w.screen[0].user == BOB && w.screen[0].shown.from == ALICE && w.screen[0].shown.body == "hello"
  {
    hide IsValidKeyText, KeyText, Arrived, Spoken, Online, Run, FaithfulRun, Ends, Admitted, Delivered;
    var run0, r0 := BothOnline(p, ids);
    var spoken := Speaks(p, ids, run0, r0, nonce);
    var r1, m := Arrives(p, ids, run0 + [spoken], r0, nonce);
    AdmittedRelay(p, ids, nonce, m);
    var run2, r2 := Passes(p, ids, run0 + [spoken] + [Arrive(0)], r1, Arrived(p, ids, nonce, m), m);
    var e, w' := Hears(p, ids, run2, r2, nonce, m);
    run, w := run2 + [e], w';
    EverythingShownWasSent(p, run, w, 0);
  }

  lemma AdmittedRelay(p: Suite, ids: Identities, nonce: Nonce, m: Relay.Message)
    ensures Arrived(p, ids, nonce, m).relay == Admitted(m)
  {
  }
}
