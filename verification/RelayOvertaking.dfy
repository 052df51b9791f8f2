/** Frame order across the two paths: a live message can overtake queued ones, and nothing else can
    break it. A Send can do so exactly when a row of its sender is still due in that channel. */
module RelayOvertaking {
  import opened Wrappers
  import opened Relay
  import opened RelayInvariant
  import opened RelayDelivery
  import opened RelayConservation
  import opened RelayDrains
  import opened RelayFresh
  import opened RelayOrder
  import opened RelayScripts

  // ---------------------------------------------------------------- a queued message never overtakes

  /** No drained row stands before a live message of an earlier frame of the same connection. */
  predicate CrossOrder(pushed: seq<Item>) {
    forall i, j :: 0 <= i < j < |pushed| && pushed[i].Drained? && pushed[j].Live? && pushed[i].row.message.conn == pushed[j].message.conn ==>
      pushed[i].row.message.no < pushed[j].message.no
  }

  lemma CrossStep(s: State, e: Event, k: nat)
    requires ConnectionsInv(s) && AcceptedInv(s) && TableInv(s) && OrderInv(s) && Step(s, e).Some? && k < |s.conns| && CrossOrder(s.conns[k].pushed)
    ensures k < |Step(s, e).value.conns| && CrossOrder(Step(s, e).value.conns[k].pushed)
  {
    hide Step, ConnectionsInv, AcceptedInv, TableInv, LiveMessages, Known;
    PushesChange(s, e, k);
    var pushed, pushed' := s.conns[k].pushed, Step(s, e).value.conns[k].pushed;
    if pushed' != pushed && e.Send? {
      HandlerKnown(s, e.conn);
      forall i | 0 <= i < |pushed| && pushed[i].Drained? && pushed[i].row.message.conn == e.conn
        ensures pushed[i].row.message.no < s.conns[e.conn].handler.message.no
      {
        DrainedOk(s, k, i);
        assert Settled(s, RowMessages(s.inserted)[pushed[i].row.id - 1]);
      }
    }
  }

  lemma {:induction false} CrossHolds(run: seq<Event>, k: nat)
    requires Run(run).Some? && k < |Run(run).value.conns|
    ensures CrossOrder(Run(run).value.conns[k].pushed)
  {
    hide Run, Step, ConnectionsInv, AcceptedInv, TableInv, AddressInv, CoverageInv, RegistryInv, OrderInv, CrossOrder;
    InitialInv();
    if run != [] {
      RunLast(run);
      var s, e := Run(run[..|run| - 1]).value, run[|run| - 1];
      StepLength(s, e);
      if k < |s.conns| {
        CrossHolds(run[..|run| - 1], k);
        InvHolds(run[..|run| - 1]);
        OrderHolds(run[..|run| - 1]);
        CrossStep(s, e, k);
      } else {
        assert CrossOrder([]) by { NoItems(); }
      }
    }
  }

  lemma NoItems()
    ensures CrossOrder([])
  {
  }

  /** Two messages of one sender connection in one channel are in frame order, unless the first
      came live and the second from the queue. */
  lemma OnlyLiveOvertakes(run: seq<Event>, s: State, k: nat, i: nat, j: nat)
    requires Run(run) == Some(s) && k < |s.conns| && i < j < |s.conns[k].pushed|
    requires ItemMessage(s.conns[k].pushed[i]).conn == ItemMessage(s.conns[k].pushed[j]).conn
    ensures ItemMessage(s.conns[k].pushed[i]).no < ItemMessage(s.conns[k].pushed[j]).no
            || (s.conns[k].pushed[i].Live? && s.conns[k].pushed[j].Drained?)
  {
    hide Run;
    CrossHolds(run, k);
    SamePathOrder(run, s, k, i, j);
  }

  // ---------------------------------------------------------------- rows that are due

  /** The row is still to come into channel k: its drain has it ahead, or is yet to load it. */
  predicate Due(s: State, k: nat, r: Row)
    requires k < |s.conns|
  {
    (s.conns[k].phase == Registered && r in s.rows && r.recipient == s.conns[k].username) || ToPush(s.conns[k], r)
  }

  /** No row of connection n from before its frame `limit` is due in channel k, or will be. */
  ghost predicate Clear(s: State, k: nat, n: nat, limit: nat) {
    && k < |s.conns| && n < |s.conns| && s.conns[k].phase != Opened && limit <= SettledCount(s.conns[n])
    && forall r :: Due(s, k, r) && r.message.conn == n ==> limit <= r.message.no
  }

  lemma ClearSettled(s: State, e: Event, n: nat)
    requires ConnectionsInv(s) && Step(s, e).Some? && n < |s.conns|
    ensures n < |Step(s, e).value.conns| && SettledCount(s.conns[n]) <= SettledCount(Step(s, e).value.conns[n])
  {
    hide Step, OwnStep, ConnectionInv;
    StepLength(s, e);
    StepShape(s, e, n);
    assert ConnectionInv(s.conns[n]);
    if Owns(e, n) {
      OwnStepSettled(s, e, s.conns[n]);
    }
    if e.Restart? {
      CrashedSettled(s.conns[n]);
    }
  }

  lemma CrashedSettled(c: Connection)
    ensures SettledCount(c) <= SettledCount(Crashed(c))
  {
  }

  /** Rows in the table after a step were there before, or are the row of the frame just settled. */
  lemma RowBefore(s: State, e: Event, r: Row)
    requires ConnectionsInv(s) && AcceptedInv(s) && TableInv(s) && Step(s, e).Some? && r in Step(s, e).value.rows
    ensures r in s.rows || (e.Insert? && r.message.conn < |s.conns| && r.message.no == SettledCount(s.conns[r.message.conn]))
  {
    hide Step, ConnectionsInv, AcceptedInv, WithoutRow;
    TableChanges(s, e);
    if e.Insert? {
      HandlerKnown(s, e.conn);
    } else if e.Delete? {
      DeleteKeeps(s, s.conns[e.conn].drain.snapshot[s.conns[e.conn].drain.gone].id);
    }
  }

  /** What is due after a step was due before, or is the row of the frame just settled. */
  lemma DueBefore(s: State, e: Event, k: nat, r: Row)
    requires ConnectionsInv(s) && AcceptedInv(s) && TableInv(s) && Step(s, e).Some? && k < |s.conns| && s.conns[k].phase != Opened
    requires k < |Step(s, e).value.conns| && Due(Step(s, e).value, k, r)
    ensures Due(s, k, r) || (e.Insert? && r.message.conn < |s.conns| && r.message.no == SettledCount(s.conns[r.message.conn]))
  {
    hide Step, ConnectionsInv, AcceptedInv, TableInv, ToPush;
    if ToPush(Step(s, e).value.conns[k], r) {
      ToPushBefore(s, e, k, r);
    } else {
      RegisteredBefore(s, e, k);
      RowBefore(s, e, r);
    }
  }

  lemma RegisteredBefore(s: State, e: Event, k: nat)
    requires Step(s, e).Some? && k < |s.conns| && s.conns[k].phase != Opened
    ensures k < |Step(s, e).value.conns|
    ensures Step(s, e).value.conns[k].phase == Registered ==> s.conns[k].phase == Registered
    ensures Step(s, e).value.conns[k].phase != Opened && Step(s, e).value.conns[k].username == s.conns[k].username
  {
    hide Step, Admit, RowsFor;
    StepShape(s, e, k);
  }

  lemma ClearStep(s: State, e: Event, k: nat, n: nat, limit: nat)
    requires ConnectionsInv(s) && AcceptedInv(s) && TableInv(s) && Clear(s, k, n, limit) && Step(s, e).Some?
    ensures Clear(Step(s, e).value, k, n, limit)
  {
    hide Step, ConnectionsInv, AcceptedInv, TableInv, Due, SettledCount;
    var s' := Step(s, e).value;
    ClearSettled(s, e, n);
    RegisteredBefore(s, e, k);
    forall r | Due(s', k, r) && r.message.conn == n ensures limit <= r.message.no {
      DueBefore(s, e, k, r);
    }
  }

  /** While nothing before `limit` is due, nothing before it is pushed by the drain. */
  lemma ClearPushes(s: State, e: Event, k: nat, n: nat, limit: nat, i: nat)
    requires Clear(s, k, n, limit) && Step(s, e).Some? && k < |Step(s, e).value.conns|
    requires |s.conns[k].pushed| <= i < |Step(s, e).value.conns[k].pushed|
    requires var x := Step(s, e).value.conns[k].pushed[i]; x.Drained? && x.row.message.conn == n
    ensures limit <= Step(s, e).value.conns[k].pushed[i].row.message.no
  {
    hide Step, SettledCount;
    PushesChange(s, e, k);
    if e == Push(k) {
      NextIsToPush(s.conns[k]);
      assert Due(s, k, s.conns[k].drain.snapshot[s.conns[k].drain.sent]);
    }
  }

  // ---------------------------------------------------------------- channels that handlers find

  /** A found channel belongs to a connection that has registered. */
  predicate FoundRegistered(s: State) {
    forall n :: 0 <= n < |s.conns| && s.conns[n].handler.Found? ==> IsRegistered(s, s.conns[n].handler.channel)
  }

  predicate IsRegistered(s: State, k: nat) {
    k < |s.conns| && s.conns[k].phase != Opened
  }

  lemma FoundRegisteredStep(s: State, e: Event)
    requires RegistryInv(s) && FoundRegistered(s) && Step(s, e).Some?
    ensures FoundRegistered(Step(s, e).value)
  {
    hide Step;
    var s' := Step(s, e).value;
    StepLength(s, e);
    forall n | 0 <= n < |s'.conns| && s'.conns[n].handler.Found? ensures IsRegistered(s', s'.conns[n].handler.channel) {
      if n < |s.conns| {
        HandlersChange(s, e, n);
        var h := s.conns[n].handler;
        if h.Routing? && h.message.to in s.active {
          assert EntryOk(s, h.message.to);
        }
        RegisteredBefore(s, e, s'.conns[n].handler.channel);
      }
    }
  }

  lemma RegistryOf(s: State)
    requires Inv(s)
    ensures ConnectionsInv(s) && AcceptedInv(s) && TableInv(s) && RegistryInv(s)
  {
  }

  lemma {:induction false} FoundRegisteredHolds(run: seq<Event>)
    requires Run(run).Some?
    ensures FoundRegistered(Run(run).value)
  {
    hide Run, Step, Inv;
    InitialInv();
    if run != [] {
      hide FoundRegistered;
      RunLast(run);
      FoundRegisteredHolds(run[..|run| - 1]);
      InvHolds(run[..|run| - 1]);
      RegistryOf(Run(run[..|run| - 1]).value);
      FoundRegisteredStep(Run(run[..|run| - 1]).value, run[|run| - 1]);
    }
  }

  // ---------------------------------------------------------------- one send

  /** A row of connection n is due in channel k. */
  ghost predicate MayOvertake(s: State, k: nat, n: nat)
    requires k < |s.conns|
  {
    exists r :: DueOf(s, k, n, r)
  }

  predicate DueOf(s: State, k: nat, n: nat, r: Row)
    requires k < |s.conns|
  {
    Due(s, k, r) && r.message.conn == n
  }

  /** Connection n is about to send a live message into the open channel k. */
  predicate SendsInto(s: State, n: nat, k: nat) {
    n < |s.conns| && s.conns[n].handler.Found? && s.conns[n].handler.channel == k && SendsTo(s, s.conns[n], k)
  }

  /** What the send does: the message enters the channel, and its sender is done with it. */
  lemma SendEffect(run: seq<Event>, s: State, n: nat, k: nat) returns (s': State)
    requires Run(run) == Some(s) && SendsInto(s, n, k)
    ensures Run(run + [Send(n)]) == Some(s') && Step(s, Send(n)) == Some(s') && |s'.conns| == |s.conns|
    ensures s'.conns[k].pushed == s.conns[k].pushed + [Live(s.conns[n].handler.message)]
    ensures s'.conns[k].phase == s.conns[k].phase && s'.conns[k].drain == s.conns[k].drain && s'.conns[k].username == s.conns[k].username
    ensures s'.rows == s.rows
  {
    hide Run, LocalStep;
    RunSnoc(run, Send(n));
    s' := Step(s, Send(n)).value;
    SendOutcome(s, n);
    TableChanges(s, Send(n));
  }

  /** Somewhere after position i of channel k, the drain pushes an earlier message of connection n. */
  predicate Overtaken(conns: seq<Connection>, k: nat, i: nat, n: nat, no: nat) {
    k < |conns| && exists j :: i < j < |conns[k].pushed| && EarlierDrained(conns[k].pushed[j], n, no)
  }

  predicate EarlierDrained(x: Item, n: nat, no: nat) {
    x.Drained? && x.row.message.conn == n && x.row.message.no < no
  }

  /** A run that goes on from here to such a place. */
  ghost predicate CanBeOvertaken(run: seq<Event>, k: nat, i: nat, n: nat, no: nat) {
    exists more: seq<Event> :: EndsOvertaken(run + more, k, i, n, no)
  }

  predicate EndsOvertaken(run: seq<Event>, k: nat, i: nat, n: nat, no: nat) {
    Run(run).Some? && Overtaken(Run(run).value.conns, k, i, n, no)
  }

  /** No earlier message of connection n stands in the channel from this position on. */
  predicate CleanFrom(pushed: seq<Item>, from: nat, n: nat, no: nat) {
    from <= |pushed| && forall i :: from <= i < |pushed| ==> !EarlierDrained(pushed[i], n, no)
  }

  lemma CleanStep(s: State, e: Event, k: nat, n: nat, limit: nat, from: nat)
    requires Clear(s, k, n, limit) && Step(s, e).Some? && CleanFrom(s.conns[k].pushed, from, n, limit)
    ensures k < |Step(s, e).value.conns| && CleanFrom(Step(s, e).value.conns[k].pushed, from, n, limit)
  {
    hide Step, SettledCount, Due;
    StepContinues(s, e, k);
    var pushed, pushed' := s.conns[k].pushed, Step(s, e).value.conns[k].pushed;
    forall i | from <= i < |pushed'| ensures !EarlierDrained(pushed'[i], n, limit) {
      if i < |pushed| {
        assert pushed'[i] == pushed[i];
      } else if pushed'[i].Drained? && pushed'[i].row.message.conn == n {
        ClearPushes(s, e, k, n, limit, i);
      }
    }
  }

  lemma {:induction false} ClearForGood(run: seq<Event>, more: seq<Event>, k: nat, n: nat, limit: nat)
    requires Run(run).Some? && Run(run + more).Some? && Clear(Run(run).value, k, n, limit)
    ensures Clear(Run(run + more).value, k, n, limit)
    ensures CleanFrom(Run(run + more).value.conns[k].pushed, |Run(run).value.conns[k].pushed|, n, limit)
  {
    hide Run, Step, Inv, Due, SettledCount;
    if more == [] {
      assert run + more == run;
    } else {
      hide Clear, CleanFrom;
      var before, e := run + more[..|more| - 1], more[|more| - 1];
      assert (run + more)[..|run + more| - 1] == before;
      RunLast(run + more);
      ClearForGood(run, more[..|more| - 1], k, n, limit);
      InvHolds(before);
      RegistryOf(Run(before).value);
      ClearStep(Run(before).value, e, k, n, limit);
      CleanStep(Run(before).value, e, k, n, limit, |Run(run).value.conns[k].pushed|);
    }
  }

  /** A row due in a channel can be pushed there, by a load, if that is to come, and the drain. */
  lemma DuePushed(run: seq<Event>, s: State, k: nat, r: Row) returns (more: seq<Event>, s': State)
    requires Ends(run, s) && k < |s.conns| && Due(s, k, r)
    ensures Ends(run + more, s') && |s'.conns| == |s.conns| && |s.conns[k].pushed| < |s'.conns[k].pushed|
    ensures s'.conns[k].pushed[|s'.conns[k].pushed| - 1] == Drained(r)
  {
    hide Ends, ToPush;
    if ToPush(s.conns[k], r) {
      more, s' := Drive(run, s, k, r);
    } else {
      var s1 := LoadedToPush(run, s, k, r);
      more, s' := Drive(run + [Load(k)], s1, k, r);
      assert run + [Load(k)] + more == run + ([Load(k)] + more);
      more := [Load(k)] + more;
    }
  }

  /** A due row is of an accepted message whose handler is done with it. */
  lemma DueIsSettled(run: seq<Event>, s: State, k: nat, r: Row)
    requires Run(run) == Some(s) && k < |s.conns| && Due(s, k, r)
    ensures Settled(s, r.message)
  {
    hide Run, Step, ToPush, AcceptedInv, RegistryInv, AddressInv, CoverageInv, LiveMessages, DrainedRows;
    InvHolds(run);
    OrderHolds(run);
    if ToPush(s.conns[k], r) {
      ToPushInserted(s, k, r);
    }
    assert EverInserted(s, r);
    assert RowMessages(s.inserted)[r.id - 1] == r.message;
  }

  lemma SenderStanding(run: seq<Event>, s: State, n: nat)
    requires Run(run) == Some(s) && n < |s.conns| && !s.conns[n].handler.Idle?
    ensures SettledCount(s.conns[n]) == s.conns[n].handler.message.no && s.conns[n].handler.message.conn == n
  {
    hide Run, AddressInv, TableInv, RegistryInv, CoverageInv, Admit;
    InvHolds(run);
    HandlerKnown(s, n);
  }

  /** A live send can be overtaken by an earlier message of its own connection, in its channel and
      in some continuation of the run, exactly when a row of that connection is due there: in the
      table, if the channel's drain is yet to load, or ahead of the drain in what it loaded. */
  lemma SendOvertakesExactly(run: seq<Event>, s: State, n: nat, k: nat)
    requires Run(run) == Some(s) && SendsInto(s, n, k)
    ensures MayOvertake(s, k, n) <==>
            CanBeOvertaken(run + [Send(n)], k, |s.conns[k].pushed|, n, s.conns[n].handler.message.no)
  {
    hide Run, Step, Due, Inv, FoundRegistered, SettledCount;
    var sent, i, no := run + [Send(n)], |s.conns[k].pushed|, s.conns[n].handler.message.no;
    var s' := SendEffect(run, s, n, k);
    SenderStanding(run, s, n);
    if MayOvertake(s, k, n) {
      var r :| DueOf(s, k, n, r);
      DueIsSettled(run, s, k, r);
      DueStays(s, s', k, r);
      var more, s2 := DuePushed(sent, s', k, r);
      assert EarlierDrained(s2.conns[k].pushed[|s2.conns[k].pushed| - 1], n, no);
      assert EndsOvertaken(sent + more, k, i, n, no);
    } else {
      InvHolds(run);
      RegistryOf(s);
      FoundRegisteredHolds(run);
      FoundIs(s, n);
      NothingDue(s, k, n);
      assert Clear(s, k, n, no);
      ClearStep(s, Send(n), k, n, no);
      forall more: seq<Event> ensures !EndsOvertaken(sent + more, k, i, n, no) {
        if Run(sent + more).Some? {
          ClearForGood(sent, more, k, n, no);
        }
      }
    }
  }

  lemma NothingDue(s: State, k: nat, n: nat)
    requires k < |s.conns| && !MayOvertake(s, k, n)
    ensures forall r :: Due(s, k, r) ==> r.message.conn != n
  {
    hide Due;
    forall r | Due(s, k, r) ensures r.message.conn != n {
      assert !DueOf(s, k, n, r);
    }
  }

  lemma FoundIs(s: State, n: nat)
    requires FoundRegistered(s) && n < |s.conns| && s.conns[n].handler.Found?
    ensures IsRegistered(s, s.conns[n].handler.channel)
  {
  }

  lemma DueStays(s: State, s': State, k: nat, r: Row)
    requires k < |s.conns| && k < |s'.conns| && Due(s, k, r) && s'.rows == s.rows
    requires s'.conns[k].phase == s.conns[k].phase && s'.conns[k].drain == s.conns[k].drain && s'.conns[k].username == s.conns[k].username
    ensures Due(s', k, r)
  {
  }

  // ---------------------------------------------------------------- runs whose sends overtake nothing

  /** No live send of the run is made while a row of its sender is due in its channel. */
  ghost predicate OrderlyEvent(s: State, e: Event) {
    e.Send? && e.conn < |s.conns| && s.conns[e.conn].handler.Found? && SendsInto(s, e.conn, s.conns[e.conn].handler.channel) ==>
      !MayOvertake(s, s.conns[e.conn].handler.channel, e.conn)
  }

  ghost predicate OrderlyRun(run: seq<Event>) {
    run == []
    || (OrderlyRun(run[..|run| - 1]) && Run(run[..|run| - 1]).Some? && OrderlyEvent(Run(run[..|run| - 1]).value, run[|run| - 1]))
  }

  /** Every live message has passed all that was queued before it, and nothing of that comes later. */
  ghost predicate PassedBy(s: State) {
    forall k, i :: 0 <= k < |s.conns| && 0 <= i < |s.conns[k].pushed| && s.conns[k].pushed[i].Live? ==>
      LiveClear(s, k, i, s.conns[k].pushed[i].message)
  }

  ghost predicate LiveClear(s: State, k: nat, i: nat, m: Message)
    requires k < |s.conns| && i < |s.conns[k].pushed|
  {
    Clear(s, k, m.conn, m.no + 1) && CleanFrom(s.conns[k].pushed, i + 1, m.conn, m.no + 1)
  }

  /** A send while nothing of its sender is due leaves nothing earlier to come. */
  lemma SendLeavesClear(run: seq<Event>, s: State, n: nat, k: nat)
    requires Run(run) == Some(s) && SendsInto(s, n, k) && !MayOvertake(s, k, n) && Step(s, Send(n)).Some?
    ensures Clear(Step(s, Send(n)).value, k, n, s.conns[n].handler.message.no + 1)
  {
    hide Run, Step, Due, Inv, FoundRegistered, SettledCount;
    var s' := SendEffect(run, s, n, k);
    InvHolds(run);
    RegistryOf(s);
    FoundRegisteredHolds(run);
    FoundIs(s, n);
    NothingDue(s, k, n);
    RegisteredBefore(s, Send(n), k);
    SendSettles(run, s, n, k);
    forall r | Due(s', k, r) ensures r.message.conn != n {
      DueBefore(s, Send(n), k, r);
    }
  }

  lemma SendSettles(run: seq<Event>, s: State, n: nat, k: nat)
    requires Run(run) == Some(s) && SendsInto(s, n, k) && Step(s, Send(n)).Some?
    ensures n < |Step(s, Send(n)).value.conns| && SettledCount(Step(s, Send(n)).value.conns[n]) == s.conns[n].handler.message.no + 1
  {
    hide Run, Step, OwnStep, Inv;
    InvHolds(run);
    RegistryOf(s);
    SenderStanding(run, s, n);
    StepShape(s, Send(n), n);
    assert ConnectionInv(s.conns[n]);
    hide ConnectionInv;
    OwnStepSettled(s, Send(n), s.conns[n]);
    SentAccepted(s, n);
  }

  lemma SentAccepted(s: State, n: nat)
    requires n < |s.conns| && OwnStep(s, Send(n), s.conns[n]).Some?
    ensures OwnStep(s, Send(n), s.conns[n]).value.accepted == s.conns[n].accepted
  {
    hide LocalStep;
  }

  lemma LiveKept(s: State, e: Event, k: nat, i: nat, m: Message)
    requires ConnectionsInv(s) && AcceptedInv(s) && TableInv(s) && Step(s, e).Some?
    requires k < |s.conns| && i < |s.conns[k].pushed| && LiveClear(s, k, i, m)
    ensures k < |Step(s, e).value.conns| && i < |Step(s, e).value.conns[k].pushed| && LiveClear(Step(s, e).value, k, i, m)
  {
    hide Step, ConnectionsInv, AcceptedInv, TableInv, Clear, CleanFrom;
    ClearStep(s, e, k, m.conn, m.no + 1);
    ClearConns(s, k, m.conn, m.no + 1);
    CleanStep(s, e, k, m.conn, m.no + 1, i + 1);
    StepContinues(s, e, k);
  }

  lemma ClearConns(s: State, k: nat, n: nat, limit: nat)
    requires Clear(s, k, n, limit)
    ensures k < |s.conns| && n < |s.conns|
  {
  }

  lemma LiveSent(run: seq<Event>, s: State, n: nat, k: nat)
    requires Run(run) == Some(s) && SendsInto(s, n, k) && !MayOvertake(s, k, n) && Step(s, Send(n)).Some?
    requires k < |Step(s, Send(n)).value.conns| && |Step(s, Send(n)).value.conns[k].pushed| == |s.conns[k].pushed| + 1
    ensures LiveClear(Step(s, Send(n)).value, k, |s.conns[k].pushed|, s.conns[n].handler.message)
  {
    hide Run, Step, Clear, MayOvertake;
    SenderStanding(run, s, n);
    SendLeavesClear(run, s, n, k);
  }

  lemma PassedByStep(run: seq<Event>, s: State, e: Event, k: nat, i: nat)
    requires Run(run) == Some(s) && PassedBy(s) && Step(s, e).Some? && OrderlyEvent(s, e)
    requires k < |Step(s, e).value.conns| && i < |Step(s, e).value.conns[k].pushed| && Step(s, e).value.conns[k].pushed[i].Live?
    ensures LiveClear(Step(s, e).value, k, i, Step(s, e).value.conns[k].pushed[i].message)
  {
    hide Run, Step, Inv, LiveClear, MayOvertake;
    var s' := Step(s, e).value;
    StepLength(s, e);
    if k < |s.conns| {
      PushesChange(s, e, k);
      if i < |s.conns[k].pushed| {
        InvHolds(run);
        RegistryOf(s);
        assert s'.conns[k].pushed[i] == s.conns[k].pushed[i];
        LiveKept(s, e, k, i, s.conns[k].pushed[i].message);
      } else {
        LiveSent(run, s, e.conn, k);
      }
    }
  }

  lemma {:induction false} PassedByHolds(run: seq<Event>)
    requires Run(run).Some? && OrderlyRun(run)
    ensures PassedBy(Run(run).value)
  {
    hide Run, Step, LiveClear, OrderlyEvent;
    InitialInv();
    if run != [] {
      RunLast(run);
      var before, e := run[..|run| - 1], run[|run| - 1];
      PassedByHolds(before);
      var s' := Run(run).value;
      forall k, i | 0 <= k < |s'.conns| && 0 <= i < |s'.conns[k].pushed| && s'.conns[k].pushed[i].Live?
        ensures LiveClear(s', k, i, s'.conns[k].pushed[i].message)
      {
        PassedByStep(before, Run(before).value, e, k, i);
      }
    }
  }

  /** When no send of a run is made while a row of its sender is due in its channel, all messages of
      one sender connection in one channel are in frame order, whichever path they took. */
  lemma OrderlyRunKeepsOrder(run: seq<Event>, s: State, k: nat, i: nat, j: nat)
    requires Run(run) == Some(s) && OrderlyRun(run) && k < |s.conns| && i < j < |s.conns[k].pushed|
    requires ItemMessage(s.conns[k].pushed[i]).conn == ItemMessage(s.conns[k].pushed[j]).conn
    ensures ItemMessage(s.conns[k].pushed[i]).no < ItemMessage(s.conns[k].pushed[j]).no
  {
    hide Run, OrderlyRun, Clear;
    OnlyLiveOvertakes(run, s, k, i, j);
    if s.conns[k].pushed[i].Live? && s.conns[k].pushed[j].Drained? {
      PassedByHolds(run);
      assert LiveClear(s, k, i, s.conns[k].pushed[i].message);
      assert !EarlierDrained(s.conns[k].pushed[j], s.conns[k].pushed[i].message.conn, s.conns[k].pushed[i].message.no + 1);
    }
  }
}
