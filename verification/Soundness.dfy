/** Whatever a client displays was sent to it, earlier, by the user it names. */
module Soundness {
  import opened Wrappers
  import Relay
  import opened Wire
  import opened WireProofs
  import opened RelayInvariant
  import opened RelayDelivery
  import opened RelayFresh
  import opened RelayOnce
  import opened RelayOvertaking
  import opened Crypto
  import opened CryptoProofs
  import opened Client
  import opened Network

  // ---------------------------------------------------------------- letters

  /** A frame that the relay admits from an honest client forwards exactly that client's envelope. */
  lemma LetterForwarded(p: Suite, me: Session, l: Letter, frame: string, username: string, to: string, payload: string)
    requires FrameOf(p, me, l) == Some(frame) && Relay.Admit(username, frame) == Relay.Admitted(to, payload)
    ensures Crypto.Encrypted(p, me.name, l.to, l.body, me.secret, me.ownKey, l.key, l.nonce).Ok?
    ensures to == l.to && username == me.name
    ensures DecodeEncrypted(payload) == Some(Crypto.Encrypted(p, me.name, l.to, l.body, me.secret, me.ownKey, l.key, l.nonce).value)
  {
    hide DecodeRouted, EncodeRouted, DecodeEncrypted, EncodeEncrypted, Crypto.Encrypted, Relay.Admit, IsValidUsername;
    var e := Crypto.Encrypted(p, me.name, l.to, l.body, me.secret, me.ownKey, l.key, l.nonce);
    AdmittedMeans(username, frame, to, payload);
    RoutedRoundTrip(Routed(me.name, l.to, e.value));
    EncryptedRoundTrip(e.value);
  }

  /** What is displayed for such an envelope names its sender and carries its body. */
  lemma DisplayedAsSent(p: Suite, sender: Session, l: Letter, me: Session, contacts: ContactMap, payload: string, server: Answers, saveFails: bool)
    requires Lawful(p)
    requires Crypto.Encrypted(p, sender.name, l.to, l.body, sender.secret, sender.ownKey, l.key, l.nonce).Ok?
    requires DecodeEncrypted(payload) == Some(Crypto.Encrypted(p, sender.name, l.to, l.body, sender.secret, sender.ownKey, l.key, l.nonce).value)
    requires Receive(p, me, contacts, payload, server, saveFails).shown.Some?
    ensures var shown := Receive(p, me, contacts, payload, server, saveFails).shown.value;
            shown.from == sender.name && shown.body == l.body && me.name == l.to
  {
    hide DecodeEncrypted, Crypto.Encrypted, Decrypt, Resolve;
    OpensAsSealed(p, sender.name, l.to, l.body, sender.secret, sender.ownKey, l.key, l.nonce, me.secret, me.ownKey);
  }

  // ---------------------------------------------------------------- the world grows

  predicate Extends(w: World, w': World) {
    && |w.clients| <= |w'.clients| && (forall c :: 0 <= c < |w.clients| ==> w'.clients[c].me == w.clients[c].me)
    && |w.links| <= |w'.links|
    && (forall k :: 0 <= k < |w.links| ==> LinkExtends(w.links[k], w'.links[k]))
  }

  predicate LinkExtends(l: Link, l': Link) {
    l'.client == l.client && l.letters <= l'.letters && l.origins <= l'.origins && l.taken <= l'.taken
  }

  lemma StepExtends(p: Suite, w: World, e: Event)
    requires Step(p, w, e).Some?
    ensures Extends(w, Step(p, w, e).value)
  {
    hide Relay.Step, Send, Receive, Add, LetterOf, FrameOf, AcceptedCount;
  }

  /** The step of the relay that a step of the world contains. */
  function RelayEvent(p: Suite, w: World, e: Event): Option<Relay.Event> {
    match e
    case Dial(c) => if c < |w.clients| then Some(Relay.Open(w.clients[c].me.name)) else None
    case Tick(x) => Some(x)
    case Arrive(k) =>
      if k < |w.links| && w.links[k].client < |w.clients| && w.links[k].arrived < |w.links[k].letters| then
        match FrameOf(p, w.clients[w.links[k].client].me, w.links[k].letters[w.links[k].arrived])
        case None => None
        case Some(frame) => Some(Relay.Frame(k, frame))
      else None
    case _ => None
  }

  lemma RelayMoves(p: Suite, w: World, e: Event)
    requires Step(p, w, e).Some?
    ensures var r := RelayEvent(p, w, e);
            if r.None? then Step(p, w, e).value.relay == w.relay
            else Relay.Step(w.relay, r.value) == Some(Step(p, w, e).value.relay)
  {
    hide Relay.Step, Send, Receive, Add, LetterOf, FrameOf, AcceptedCount;
  }

  /** Connections of the relay are never forgotten. */
  lemma RelayGrows(p: Suite, w: World, e: Event)
    requires Step(p, w, e).Some?
    ensures var s, s' := w.relay, Step(p, w, e).value.relay;
            |s.conns| <= |s'.conns| && forall k :: 0 <= k < |s.conns| ==> Continues(s.conns[k], s'.conns[k])
  {
    hide Step, Relay.Step, RelayEvent;
    RelayMoves(p, w, e);
    if RelayEvent(p, w, e).Some? {
      StepGrows(w.relay, RelayEvent(p, w, e).value);
    }
  }

  // ---------------------------------------------------------------- links and connections

  predicate LinkOk(w: World, k: nat)
    requires k < |w.links| && k < |w.relay.conns|
  {
    && w.links[k].client < |w.clients|
    && w.relay.conns[k].username == w.clients[w.links[k].client].me.name
  }

  predicate LinksInv(w: World) {
    |w.links| == |w.relay.conns| && forall k :: 0 <= k < |w.links| ==> LinkOk(w, k)
  }

  lemma RelayInvStep(p: Suite, w: World, e: Event)
    requires Inv(w.relay) && Step(p, w, e).Some?
    ensures Inv(Step(p, w, e).value.relay)
  {
    hide Step, Relay.Step, Inv, RelayEvent;
    RelayMoves(p, w, e);
    var r := RelayEvent(p, w, e);
    if r.Some? {
      InvStep(w.relay, r.value);
    }
  }

  lemma DialMoves(p: Suite, w: World, e: Event)
    requires Step(p, w, e).Some?
    ensures |Step(p, w, e).value.links| == |w.links| + (if e.Dial? then 1 else 0)
    ensures e.Dial? <==> RelayEvent(p, w, e).Some? && RelayEvent(p, w, e).value.Open?
    ensures e.Dial? ==>
              && e.client < |w.clients| && RelayEvent(p, w, e).value.username == w.clients[e.client].me.name
              && Step(p, w, e).value.links[|w.links|] == Link(e.client, [], 0, [], 0) && Step(p, w, e).value.clients == w.clients
  {
    hide Relay.Step, Send, Receive, Add, LetterOf, FrameOf, AcceptedCount;
  }

  lemma LinksInvStep(p: Suite, w: World, e: Event)
    requires LinksInv(w) && Step(p, w, e).Some?
    ensures LinksInv(Step(p, w, e).value)
  {
    hide Step, Relay.Step, RelayEvent;
    var w' := Step(p, w, e).value;
    RelayMoves(p, w, e);
    RelayGrows(p, w, e);
    DialMoves(p, w, e);
    StepExtends(p, w, e);
    var r := RelayEvent(p, w, e);
    if r.Some? {
      StepLength(w.relay, r.value);
    }
    forall k | 0 <= k < |w'.links| ensures LinkOk(w', k) {
      if k < |w.links| {
        assert LinkOk(w, k) && LinkExtends(w.links[k], w'.links[k]) && Continues(w.relay.conns[k], w'.relay.conns[k]);
      }
    }
  }

  // ---------------------------------------------------------------- accepted frames and letters

  /** The relay read the letters in order, and what it accepted are frames of some of them. */
  predicate OriginsOk(p: Suite, w: World, k: nat)
    requires k < |w.links| && k < |w.relay.conns|
  {
    var link, accepted := w.links[k], w.relay.conns[k].accepted;
    && link.arrived <= |link.letters| && |link.origins| == |accepted|
    && (forall i :: 0 <= i < |accepted| ==> OriginOk(p, w, link, i, accepted[i].frame))
    && (forall i, j :: 0 <= i < j < |link.origins| ==> link.origins[i] < link.origins[j])
  }

  predicate OriginOk(p: Suite, w: World, link: Link, i: nat, frame: string)
    requires i < |link.origins|
  {
    && link.origins[i] < link.arrived <= |link.letters| && link.client < |w.clients|
    && FrameOf(p, w.clients[link.client].me, link.letters[link.origins[i]]) == Some(frame)
  }

  predicate FramesInv(p: Suite, w: World) {
    forall k :: 0 <= k < |w.links| && k < |w.relay.conns| ==> OriginsOk(p, w, k)
  }

  /** A step of the relay accepts at most the frame that arrives. */
  lemma AcceptedMoves(s: Relay.State, x: Relay.Event, k: nat)
    requires Relay.Step(s, x).Some? && k < |Relay.Step(s, x).value.conns|
    ensures var before := if k < |s.conns| then s.conns[k].accepted else [];
            var after := Relay.Step(s, x).value.conns[k].accepted;
            after == before || (x.Frame? && x.conn == k && |after| == |before| + 1 && before <= after && after[|before|].frame == x.frame)
  {
    hide Relay.Step, Relay.OwnStep, Relay.Admit;
    StepLength(s, x);
    if k < |s.conns| {
      StepShape(s, x, k);
      if Owns(x, k) {
        OwnStepAccepted(s, x, s.conns[k]);
      }
    }
  }

  /** What an Arrive step does to its link, and that no other step touches what the relay read. */
  lemma ArriveMoves(p: Suite, w: World, e: Event, k: nat)
    requires Step(p, w, e).Some? && k < |w.links|
    ensures k < |Step(p, w, e).value.links|
    ensures e == Arrive(k) ==>
              && w.links[k].arrived < |w.links[k].letters| && w.links[k].client < |w.clients|
              && RelayEvent(p, w, e).Some? && RelayEvent(p, w, e).value.Frame?
              && FrameOf(p, w.clients[w.links[k].client].me, w.links[k].letters[w.links[k].arrived]) == Some(RelayEvent(p, w, e).value.frame)
              && Step(p, w, e).value.links[k]
                 == ReadFrom(w.links[k], AcceptedCount(Step(p, w, e).value.relay, k) > AcceptedCount(w.relay, k))
    ensures e != Arrive(k) ==>
              && Step(p, w, e).value.links[k].arrived == w.links[k].arrived && Step(p, w, e).value.links[k].origins == w.links[k].origins
              && !(RelayEvent(p, w, e).Some? && RelayEvent(p, w, e).value.Frame? && RelayEvent(p, w, e).value.conn == k)
  {
    hide Relay.Step, Send, Receive, Add, LetterOf, FrameOf, AcceptedCount;
  }

  lemma OriginKept(p: Suite, w: World, w': World, k: nat, i: nat, frame: string)
    requires Extends(w, w') && k < |w.links| && i < |w.links[k].origins| && OriginOk(p, w, w.links[k], i, frame)
    requires w.links[k].arrived <= w'.links[k].arrived <= |w'.links[k].letters|
    ensures i < |w'.links[k].origins| && OriginOk(p, w', w'.links[k], i, frame)
  {
    hide FrameOf;
    var link, link' := w.links[k], w'.links[k];
    assert LinkExtends(link, link');
    assert link'.origins[i] == link.origins[i] && link'.letters[link.origins[i]] == link.letters[link.origins[i]];
  }

  lemma OriginsStep(p: Suite, w: World, e: Event, k: nat)
    requires LinksInv(w) && FramesInv(p, w) && Step(p, w, e).Some? && k < |w.links| && k < |w.relay.conns|
    ensures k < |Step(p, w, e).value.links| && k < |Step(p, w, e).value.relay.conns| && OriginsOk(p, Step(p, w, e).value, k)
  {
    hide Step, Relay.Step, RelayEvent, FrameOf, Extends;
    var w' := Step(p, w, e).value;
    RelayMoves(p, w, e);
    RelayGrows(p, w, e);
    StepExtends(p, w, e);
    ArriveMoves(p, w, e, k);
    assert OriginsOk(p, w, k);
    var r := RelayEvent(p, w, e);
    if r.Some? {
      AcceptedMoves(w.relay, r.value, k);
    }
    LinkOf(w, w', k);
    var accepted, accepted' := w.relay.conns[k].accepted, w'.relay.conns[k].accepted;
    forall i | 0 <= i < |accepted'| ensures i < |w'.links[k].origins| && OriginOk(p, w', w'.links[k], i, accepted'[i].frame) {
      if i < |accepted| {
        OriginKept(p, w, w', k, i, accepted[i].frame);
      }
    }
    forall i, j | 0 <= i < j < |w'.links[k].origins| ensures w'.links[k].origins[i] < w'.links[k].origins[j] {
      assert OriginOk(p, w, w.links[k], i, accepted[i].frame);
    }
  }

  lemma LinkOf(w: World, w': World, k: nat)
    requires Extends(w, w') && k < |w.links|
    ensures k < |w'.links| && LinkExtends(w.links[k], w'.links[k])
    ensures w.links[k].client < |w.clients| ==>
              w.links[k].client < |w'.clients| && w'.clients[w.links[k].client].me == w.clients[w.links[k].client].me
    ensures forall n :: 0 <= n < |w.links[k].letters| ==> w'.links[k].letters[n] == w.links[k].letters[n]
  {
  }

  lemma FramesInvStep(p: Suite, w: World, e: Event)
    requires LinksInv(w) && FramesInv(p, w) && Step(p, w, e).Some?
    ensures FramesInv(p, Step(p, w, e).value)
  {
    hide Step, Relay.Step, RelayEvent, OriginOk, LinkOk;
    var w' := Step(p, w, e).value;
    DialMoves(p, w, e);
    RelayMoves(p, w, e);
    forall k | 0 <= k < |w'.links| && k < |w'.relay.conns| ensures OriginsOk(p, w', k) {
      if k < |w.links| {
        OriginsStep(p, w, e, k);
      } else {
        AcceptedMoves(w.relay, RelayEvent(p, w, e).value, k);
      }
    }
  }

  // ---------------------------------------------------------------- display

  /** A letter, by its link and its number there. */
  datatype Sent = Sent(link: nat, number: nat)

  /** The letter that the i-th frame of socket k goes back to. */
  function LetterBehind(w: World, k: nat, i: nat): Sent
    requires k < |w.relay.conns| && i < |w.relay.conns[k].pushed|
  {
    var m := ItemMessage(w.relay.conns[k].pushed[i]);
    if m.conn < |w.links| && m.no < |w.links[m.conn].origins| then Sent(m.conn, w.links[m.conn].origins[m.no]) else Sent(0, 0)
  }

  /** This letter is from one user to another, with this body. */
  predicate LetterIs(w: World, l: Sent, from: string, to: string, body: string) {
    && l.link < |w.links| && l.number < |w.links[l.link].letters| && w.links[l.link].client < |w.clients|
    && w.clients[w.links[l.link].client].me.name == from
    && w.links[l.link].letters[l.number].to == to && w.links[l.link].letters[l.number].body == body
  }

  /** The connection that carried the i-th frame of socket k to the relay, and its letter. */
  lemma Origin(p: Suite, w: World, k: nat, i: nat)
    requires Inv(w.relay) && LinksInv(w) && FramesInv(p, w) && k < |w.relay.conns| && i < |w.relay.conns[k].pushed|
    ensures var m, l := ItemMessage(w.relay.conns[k].pushed[i]), LetterBehind(w, k, i);
            && l.link == m.conn < |w.links| && m.no < |w.links[m.conn].origins| && l.number == w.links[m.conn].origins[m.no]
            && l.number < |w.links[l.link].letters| && w.links[l.link].client < |w.clients| && l.link < |w.relay.conns|
            && var sender, letter := w.clients[w.links[l.link].client].me, w.links[l.link].letters[l.number];
               && LetterIs(w, l, sender.name, w.relay.conns[k].username, letter.body)
               && sender.name == w.relay.conns[l.link].username
               && Crypto.Encrypted(p, sender.name, letter.to, letter.body, sender.secret, sender.ownKey, letter.key, letter.nonce).Ok?
               && DecodeEncrypted(Payload(w.relay, k, i))
                  == Some(Crypto.Encrypted(p, sender.name, letter.to, letter.body, sender.secret, sender.ownKey, letter.key, letter.nonce).value)
  {
    hide Inv, FrameOf, Relay.Admit, DecodeEncrypted, Crypto.Encrypted;
    InvProvenance(w.relay, k, i);
    var m := ItemMessage(w.relay.conns[k].pushed[i]);
    assert Authentic(w.relay, m, w.relay.conns[k].username);
    assert m.payload == Payload(w.relay, k, i);
    assert LinkOk(w, m.conn) && OriginsOk(p, w, m.conn);
    assert OriginOk(p, w, w.links[m.conn], m.no, m.frame);
    var link := w.links[m.conn];
    LetterForwarded(p, w.clients[link.client].me, link.letters[link.origins[m.no]], m.frame, w.relay.conns[m.conn].username, w.relay.conns[k].username, m.payload);
  }

  /** The line was read from a frame of its socket, and shows the letter behind that frame. */
  predicate ShowsItsLetter(w: World, line: Line) {
    && line.link < |w.links| && line.index < w.links[line.link].taken
    && line.link < |w.relay.conns| && line.index < |w.relay.conns[line.link].pushed|
    && LetterIs(w, LetterBehind(w, line.link, line.index), line.shown.from, line.user, line.shown.body)
  }

  predicate ScreenInv(w: World) {
    && (forall i :: 0 <= i < |w.screen| ==> ShowsItsLetter(w, w.screen[i]))
    && (forall i, j :: 0 <= i < j < |w.screen| && w.screen[i].link == w.screen[j].link ==> w.screen[i].index < w.screen[j].index)
  }

  lemma LineKept(w: World, w': World, line: Line)
    requires ShowsItsLetter(w, line) && Extends(w, w') && |w.relay.conns| <= |w'.relay.conns|
    requires forall k :: 0 <= k < |w.relay.conns| ==> Continues(w.relay.conns[k], w'.relay.conns[k])
    requires LetterBehindKnown(w, line.link, line.index)
    ensures ShowsItsLetter(w', line)
  {
    hide Extends;
    LinkOf(w, w', line.link);
    var l := LetterBehind(w, line.link, line.index);
    LinkOf(w, w', l.link);
    assert Continues(w.relay.conns[line.link], w'.relay.conns[line.link]);
    assert w'.relay.conns[line.link].pushed[line.index] == w.relay.conns[line.link].pushed[line.index];
    var m := ItemMessage(w.relay.conns[line.link].pushed[line.index]);
    assert w'.links[m.conn].origins[m.no] == w.links[m.conn].origins[m.no];
  }

  predicate LetterBehindKnown(w: World, k: nat, i: nat)
    requires k < |w.relay.conns| && i < |w.relay.conns[k].pushed|
  {
    var m := ItemMessage(w.relay.conns[k].pushed[i]);
    m.conn < |w.links| && m.no < |w.links[m.conn].origins|
  }

  lemma ScreenMoves(p: Suite, w: World, e: Event)
    requires Step(p, w, e).Some?
    ensures var w' := Step(p, w, e).value;
            || w'.screen == w.screen
            || (e.Hear? && e.link < |w.links| && w.links[e.link].client < |w.clients| && e.link < |w.relay.conns|
                && w.links[e.link].taken < |w.relay.conns[e.link].pushed|
                && w'.links[e.link].taken == w.links[e.link].taken + 1 && w'.relay == w.relay
                && var c := w.clients[w.links[e.link].client];
                   var shown := Receive(p, c.me, c.contacts, Payload(w.relay, e.link, w.links[e.link].taken), e.server, e.saveFails).shown;
                   shown.Some? && w'.screen == w.screen + [Line(c.me.name, shown.value, e.link, w.links[e.link].taken)])
  {
    hide Relay.Step, Send, Receive, Add, LetterOf, FrameOf, AcceptedCount;
  }

  /** A line that a client adds shows the letter behind the frame it read. */
  lemma HeardIsLetter(p: Suite, w: World, k: nat, i: nat, contacts: ContactMap, server: Answers, saveFails: bool)
    requires Lawful(p) && Inv(w.relay) && LinksInv(w) && FramesInv(p, w) && k < |w.relay.conns| && i < |w.relay.conns[k].pushed|
    ensures k < |w.links| && w.links[k].client < |w.clients| && LetterBehindKnown(w, k, i)
    ensures var me := w.clients[w.links[k].client].me;
            var shown := Receive(p, me, contacts, Payload(w.relay, k, i), server, saveFails).shown;
            shown.Some? ==> LetterIs(w, LetterBehind(w, k, i), shown.value.from, me.name, shown.value.body)
  {
    hide Inv, FrameOf, DecodeEncrypted, Crypto.Encrypted, Receive, OriginsOk, Payload;
    assert LinkOk(w, k);
    Origin(p, w, k, i);
    var me := w.clients[w.links[k].client].me;
    var l := LetterBehind(w, k, i);
    if Receive(p, me, contacts, Payload(w.relay, k, i), server, saveFails).shown.Some? {
      DisplayedAsSent(p, w.clients[w.links[l.link].client].me, w.links[l.link].letters[l.number], me, contacts, Payload(w.relay, k, i), server, saveFails);
    }
  }

  lemma ScreenInvStep(p: Suite, w: World, e: Event)
    requires Lawful(p) && WorldInv(p, w) && Step(p, w, e).Some?
    ensures ScreenInv(Step(p, w, e).value)
  {
    hide Step, Relay.Step, Inv, FramesInv, Receive, LinksInv, Extends, ShowsItsLetter;
    var w' := Step(p, w, e).value;
    ScreenMoves(p, w, e);
    StepExtends(p, w, e);
    RelayGrows(p, w, e);
    forall i | 0 <= i < |w'.screen|
      ensures ShowsItsLetter(w', w'.screen[i])
      ensures forall j :: 0 <= j < i && w'.screen[j].link == w'.screen[i].link ==> w'.screen[j].index < w'.screen[i].index
    {
      if i < |w.screen| {
        OldLine(p, w, w', w.screen[i]);
      } else {
        NewLine(p, w, e, w');
        forall j | 0 <= j < i && w'.screen[j].link == e.link ensures w'.screen[j].index < w'.screen[i].index {
          LineTaken(w, w.screen[j]);
        }
      }
    }
  }

  lemma LineTaken(w: World, line: Line)
    requires ShowsItsLetter(w, line)
    ensures line.link < |w.links| && line.index < w.links[line.link].taken
  {
  }

  lemma OldLine(p: Suite, w: World, w': World, line: Line)
    requires Inv(w.relay) && LinksInv(w) && FramesInv(p, w) && ShowsItsLetter(w, line) && Extends(w, w') && |w.relay.conns| <= |w'.relay.conns|
    requires forall k :: 0 <= k < |w.relay.conns| ==> Continues(w.relay.conns[k], w'.relay.conns[k])
    ensures ShowsItsLetter(w', line)
  {
    hide Inv, FramesInv, LinksInv, Extends, Crypto.Encrypted, DecodeEncrypted, Payload, Continues;
    Origin(p, w, line.link, line.index);
    LineKept(w, w', line);
  }

  lemma NewLine(p: Suite, w: World, e: Event, w': World)
    requires Lawful(p) && Inv(w.relay) && LinksInv(w) && FramesInv(p, w) && Step(p, w, e) == Some(w') && |w'.screen| > |w.screen|
    ensures |w'.screen| == |w.screen| + 1 && ShowsItsLetter(w', w'.screen[|w.screen|])
    ensures e.Hear? && e.link < |w.links| && w'.screen[|w.screen|].link == e.link && w'.screen[|w.screen|].index == w.links[e.link].taken
  {
    hide Step, Inv, FramesInv, LinksInv, Receive, Extends, Payload;
    ScreenMoves(p, w, e);
    var k, i := e.link, w.links[e.link].taken;
    var c := w.clients[w.links[k].client];
    HeardIsLetter(p, w, k, i, c.contacts, e.server, e.saveFails);
    StepExtends(p, w, e);
    LinkOf(w, w', k);
    LinkOf(w, w', LetterBehind(w, k, i).link);
  }

  // ---------------------------------------------------------------- every run

  ghost predicate WorldInv(p: Suite, w: World) {
    Inv(w.relay) && LinksInv(w) && FramesInv(p, w) && ScreenInv(w)
  }

  lemma BeginningInv(p: Suite)
    ensures WorldInv(p, BEGINNING)
  {
    InitialInv();
  }

  lemma {:induction false} WorldInvHolds(p: Suite, run: seq<Event>)
    requires Lawful(p) && Run(p, run).Some?
    ensures WorldInv(p, Run(p, run).value)
  {
    hide Run, Step, Inv, LinksInv, FramesInv, ScreenInv;
    BeginningInv(p);
    if run != [] {
      var before, e := run[..|run| - 1], run[|run| - 1];
      LastStep(p, run);
      WorldInvHolds(p, before);
      var w := Run(p, before).value;
      RelayInvStep(p, w, e);
      LinksInvStep(p, w, e);
      FramesInvStep(p, w, e);
      ScreenInvStep(p, w, e);
    } else {
      NoRun(p);
    }
  }

  lemma NoRun(p: Suite)
    ensures Run(p, []) == Some(BEGINNING)
  {
  }

  /** In every run, for every displayed line: the letter behind it was sent by a client of the
      displayed sender's name, to exactly this user, with exactly that body; through the live
      path, the queue, duplicates, reconnections and restarts, and whatever keys the directory
      or the contact books hold. */
  lemma EverythingShownWasSent(p: Suite, run: seq<Event>, w: World, i: nat)
    requires Lawful(p) && Run(p, run) == Some(w) && i < |w.screen|
    ensures ShowsItsLetter(w, w.screen[i])
  {
    hide Run, Inv, LinksInv, FramesInv, LetterIs;
    WorldInvHolds(p, run);
  }

  // ---------------------------------------------------------------- at most once

  /** The steps of the relay in a run of the world. */
  function RelayPart(p: Suite, run: seq<Event>): seq<Relay.Event> {
    if run == [] then []
    else
      match Run(p, run[..|run| - 1])
      case None => []
      case Some(w) =>
        RelayPart(p, run[..|run| - 1]) + (match RelayEvent(p, w, run[|run| - 1]) case None => [] case Some(x) => [x])
  }

  /** A run of the world contains a run of the relay, so everything proved of those holds here. */
  lemma {:induction false} RelayPartRuns(p: Suite, run: seq<Event>)
    requires Run(p, run).Some?
    ensures Relay.Run(RelayPart(p, run)) == Some(Run(p, run).value.relay)
  {
    hide Relay.Run, Run, Step, Relay.Step, RelayEvent;
    if run == [] {
      NoRun(p);
      InitialInv();
    } else {
      LastStep(p, run);
      var before, e := run[..|run| - 1], run[|run| - 1];
      RelayPartRuns(p, before);
      var w := Run(p, before).value;
      RelayMoves(p, w, e);
      if RelayEvent(p, w, e).Some? {
        RunSnoc(RelayPart(p, before), RelayEvent(p, w, e).value);
      } else {
        assert RelayPart(p, before) + [] == RelayPart(p, before);
      }
    }
  }

  /** While every load of the relay is fresh, no letter is displayed twice. */
  lemma NothingShownTwice(p: Suite, run: seq<Event>, w: World, i: nat, j: nat)
    requires Lawful(p) && Run(p, run) == Some(w) && FreshRun(RelayPart(p, run)) && i < j < |w.screen|
    ensures var a, b := w.screen[i], w.screen[j];
            && a.link < |w.relay.conns| && a.index < |w.relay.conns[a.link].pushed|
            && b.link < |w.relay.conns| && b.index < |w.relay.conns[b.link].pushed|
            && LetterBehind(w, a.link, a.index) != LetterBehind(w, b.link, b.index)
  {
    hide Run, Relay.Run, FreshRun, RelayPart, Inv, LinksInv, FramesInv, LetterIs, Crypto.Encrypted, DecodeEncrypted, Payload, LetterBehind;
    WorldInvHolds(p, run);
    RelayPartRuns(p, run);
    var a, b := w.screen[i], w.screen[j];
    assert ShowsItsLetter(w, a) && ShowsItsLetter(w, b);
    PushedOnce(RelayPart(p, run), w.relay, a.link, a.index, b.link, b.index);
    var m, n := ItemMessage(w.relay.conns[a.link].pushed[a.index]), ItemMessage(w.relay.conns[b.link].pushed[b.index]);
    Origin(p, w, a.link, a.index);
    Origin(p, w, b.link, b.index);
    DifferentMessages(p, w, a.link, a.index, b.link, b.index);
  }

  lemma DifferentMessages(p: Suite, w: World, k: nat, i: nat, k': nat, i': nat)
    requires Inv(w.relay) && LinksInv(w) && FramesInv(p, w)
    requires k < |w.relay.conns| && i < |w.relay.conns[k].pushed| && k' < |w.relay.conns| && i' < |w.relay.conns[k'].pushed|
    requires ItemMessage(w.relay.conns[k].pushed[i]) != ItemMessage(w.relay.conns[k'].pushed[i'])
    ensures LetterBehind(w, k, i) != LetterBehind(w, k', i')
  {
    hide Inv, Crypto.Encrypted, DecodeEncrypted, Payload, Authentic, OriginOk, LetterIs;
    InvProvenance(w.relay, k, i);
    InvProvenance(w.relay, k', i');
    Origin(p, w, k, i);
    Origin(p, w, k', i');
    var m, n := ItemMessage(w.relay.conns[k].pushed[i]), ItemMessage(w.relay.conns[k'].pushed[i']);
    MessagesNamed(w.relay, m, n, w.relay.conns[k].username, w.relay.conns[k'].username);
    assert OriginsOk(p, w, m.conn);
  }

  lemma MessagesNamed(s: Relay.State, m: Relay.Message, n: Relay.Message, u: string, v: string)
    requires Authentic(s, m, u) && Authentic(s, n, v) && m != n
    ensures m.conn != n.conn || m.no != n.no
  {
    hide Relay.Admit;
  }

  // ---------------------------------------------------------------- in order

  lemma LaterMessageLaterLetter(p: Suite, w: World, k: nat, i: nat, j: nat)
    requires Inv(w.relay) && LinksInv(w) && FramesInv(p, w) && k < |w.relay.conns| && i < |w.relay.conns[k].pushed| && j < |w.relay.conns[k].pushed|
    requires ItemMessage(w.relay.conns[k].pushed[i]).conn == ItemMessage(w.relay.conns[k].pushed[j]).conn
    requires ItemMessage(w.relay.conns[k].pushed[i]).no < ItemMessage(w.relay.conns[k].pushed[j]).no
    ensures LetterBehind(w, k, i).number < LetterBehind(w, k, j).number
  {
    hide Inv, Crypto.Encrypted, DecodeEncrypted, Payload, OriginOk, LetterIs;
    Origin(p, w, k, i);
    Origin(p, w, k, j);
    assert OriginsOk(p, w, ItemMessage(w.relay.conns[k].pushed[i]).conn);
  }

  /** Two lines that a client read from one socket, of letters that one other client wrote to one
      socket, show those letters in the order they were written; unless the first came live and
      the second from the queue. */
  lemma LinesInOrder(p: Suite, run: seq<Event>, w: World, i: nat, j: nat)
    requires Lawful(p) && Run(p, run) == Some(w) && i < j < |w.screen| && w.screen[i].link == w.screen[j].link
    ensures ShowsItsLetter(w, w.screen[i]) && ShowsItsLetter(w, w.screen[j])
    ensures var k, a, b := w.screen[i].link, w.screen[i].index, w.screen[j].index;
            LetterBehind(w, k, a).link == LetterBehind(w, k, b).link ==>
              || LetterBehind(w, k, a).number < LetterBehind(w, k, b).number
              || (w.relay.conns[k].pushed[a].Live? && w.relay.conns[k].pushed[b].Drained?)
  {
    hide Run, Relay.Run, RelayPart, Inv, LinksInv, FramesInv, LetterIs, Crypto.Encrypted, DecodeEncrypted, Payload, LetterBehind;
    WorldInvHolds(p, run);
    RelayPartRuns(p, run);
    var k, a, b := w.screen[i].link, w.screen[i].index, w.screen[j].index;
    assert ShowsItsLetter(w, w.screen[i]) && ShowsItsLetter(w, w.screen[j]);
    Origin(p, w, k, a);
    Origin(p, w, k, b);
    if LetterBehind(w, k, a).link == LetterBehind(w, k, b).link {
      OnlyLiveOvertakes(RelayPart(p, run), w.relay, k, a, b);
      if ItemMessage(w.relay.conns[k].pushed[a]).no < ItemMessage(w.relay.conns[k].pushed[b]).no {
        LaterMessageLaterLetter(p, w, k, a, b);
      }
    }
  }
}
