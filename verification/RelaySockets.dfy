/** How a socket ends: that it can, that its channel is then closed for good, and where the messages
    for its user go from then on. */
module RelaySockets {
  import opened Wrappers
  import opened Relay
  import opened RelayInvariant
  import opened RelayScripts

  // ---------------------------------------------------------------- closed for good

  /** The receiving half of the channel is gone, and these are the items that were ever pushed. */
  predicate Dead(c: Connection, pushed: seq<Item>, written: nat) {
    !c.open && c.pushed == pushed && c.written == written
  }

  lemma OwnStepDead(s: State, e: Event, c: Connection)
    requires OwnStep(s, e, c).Some? && !c.open
    ensures Dead(OwnStep(s, e, c).value, c.pushed, c.written)
  {
    hide Admit, RowsFor;
  }

  lemma StaysDead(s: State, e: Event, k: nat)
    requires Step(s, e).Some? && k < |s.conns| && !s.conns[k].open
    ensures k < |Step(s, e).value.conns| && Dead(Step(s, e).value.conns[k], s.conns[k].pushed, s.conns[k].written)
  {
    hide Step, OwnStep;
    StepShape(s, e, k);
    if Owns(e, k) {
      OwnStepDead(s, e, s.conns[k]);
    }
  }

  /** Once a channel is closed it stays closed: nothing is pushed into it or written from it again,
      whatever happens. */
  lemma {:induction false} ClosedForGood(run: seq<Event>, s: State, more: seq<Event>, k: nat)
    requires Run(run) == Some(s) && k < |s.conns| && !s.conns[k].open && Run(run + more).Some?
    ensures k < |Run(run + more).value.conns| && Dead(Run(run + more).value.conns[k], s.conns[k].pushed, s.conns[k].written)
  {
    hide Run, Step;
    if more == [] {
      assert run + more == run;
    } else {
      var before := run + more[..|more| - 1];
      assert (run + more)[..|run + more| - 1] == before;
      RunLast(run + more);
      ClosedForGood(run, s, more[..|more| - 1], k);
      StaysDead(Run(before).value, more[|more| - 1], k);
    }
  }

  // ---------------------------------------------------------------- a socket can end

  /** Whenever the send task has an item to write, the write may succeed, and it may fail; a write
      that fails closes the channel and changes nothing else. */
  lemma WriteMayFail(run: seq<Event>, s: State, k: nat)
    requires Run(run) == Some(s) && k < |s.conns| && s.conns[k].phase in {Running, Closed} && s.conns[k].open
    requires s.conns[k].written < |s.conns[k].pushed|
    ensures Run(run + [Write(k)]) == Some(s.(conns := s.conns[k := s.conns[k].(written := s.conns[k].written + 1)]))
    ensures Run(run + [WriteFail(k)]) == Some(s.(conns := s.conns[k := s.conns[k].(open := false)]))
  {
    hide Run, Step;
    WriteStep(run, s, k, s.(conns := s.conns[k := s.conns[k].(written := s.conns[k].written + 1)]));
    WriteFailStep(run, s, k, s.(conns := s.conns[k := s.conns[k].(open := false)]));
  }

  /** The end of the receive task, and the abort that follows it, close the channel. */
  lemma ReceiveMayEnd(run: seq<Event>, s: State, k: nat)
    requires Run(run) == Some(s) && k < |s.conns| && s.conns[k].phase == Running && s.conns[k].receiving && s.conns[k].handler.Idle?
    requires s.conns[k].open
    ensures Run(run + [Hangup(k)] + [CloseChannel(k)]) == Some(s.(conns := s.conns[k := s.conns[k].(receiving := false, open := false)]))
  {
    hide Run, Step;
    var s1 := s.(conns := s.conns[k := s.conns[k].(receiving := false)]);
    var s2 := s1.(conns := s1.conns[k := s1.conns[k].(open := false)]);
    HangupStep(run, s, k, s1);
    CloseChannelStep(run + [Hangup(k)], s1, k, s2);
    assert s2.conns == s.conns[k := s.conns[k].(receiving := false, open := false)];
  }

  /** After a failed write the receive task is dropped at its next await, with what it had pending;
      and then the connection can be cleaned up. */
  lemma AbortFollows(run: seq<Event>, s: State, k: nat) returns (s': State)
    requires Run(run) == Some(s) && k < |s.conns| && s.conns[k].phase == Running && s.conns[k].receiving && !s.conns[k].open
    requires !s.conns[k].handler.Found?
    ensures Run(run + [Abort(k)] + [Unregister(k)]) == Some(s') && |s'.conns| == |s.conns|
    ensures s'.conns[k].phase == Closed && !s'.conns[k].receiving && s'.conns[k].handler == Idle
    ensures s'.conns[k].lost == s.conns[k].lost + Pending(s.conns[k].handler)
    ensures s'.active == Unregistered(s.active, s.conns[k].username, s.conns[k].id)
  {
    hide Run, Step, Unregistered;
    var c := s.conns[k];
    var s1 := s.(conns := s.conns[k := c.(receiving := false, handler := Idle, lost := c.lost + Pending(c.handler))]);
    AbortStep(run, s, k, s1);
    s' := s1.(conns := s1.conns[k := s1.conns[k].(phase := Closed)], active := Unregistered(s.active, c.username, c.id));
    UnregisterStep(run + [Abort(k)], s1, k, s');
  }

  lemma OwnFound(s: State, e: Event, c: Connection)
    requires OwnStep(s, e, c).Some? && c.handler.Found? && !e.Send?
    ensures OwnStep(s, e, c).value.handler == c.handler
  {
    hide Admit, RowsFor;
  }

  /** There is no await between the lookup and the send: nothing but that send, or the end of the
      process, changes a handler that holds a channel. */
  lemma FoundGoesOn(s: State, e: Event, n: nat)
    requires Step(s, e).Some? && n < |s.conns| && s.conns[n].handler.Found? && e != Send(n) && e != Restart
    ensures n < |Step(s, e).value.conns| && Step(s, e).value.conns[n].handler == s.conns[n].handler
  {
    hide Step, OwnStep;
    StepShape(s, e, n);
    if Owns(e, n) {
      OwnFound(s, e, s.conns[n]);
    }
  }

  // ---------------------------------------------------------------- a failed socket's messages

  /** alice's admitted frame to bob, while bob's registered connection has a write that fails first:
      it ends as a row for bob, and nothing more enters the dead channel. */
  lemma FailedSocketQueues(run: seq<Event>, s: State, n: nat, j: nat, frame: string, to: string, payload: string) returns (s': State)
    requires Run(run) == Some(s) && n < |s.conns| && s.conns[n].receiving && s.conns[n].handler.Idle?
    requires Admit(s.conns[n].username, frame) == Admitted(to, payload)
    requires to in s.active && s.active[to].channel == j < |s.conns|
    requires s.conns[j].phase in {Running, Closed} && s.conns[j].open && s.conns[j].written < |s.conns[j].pushed|
    requires s.lastRowId < MAX_ROW_ID
    ensures Run(run + [WriteFail(j)] + [Frame(n, frame)] + [Lookup(n)] + [Send(n)] + [Insert(n)]) == Some(s') && |s'.conns| == |s.conns|
    ensures s'.rows == s.rows + [Row(s.lastRowId + 1, to, Message(n, |s.conns[n].accepted|, to, payload, frame))]
    ensures !s'.conns[j].open && s'.conns[j].pushed == s.conns[j].pushed
    ensures s'.conns[n].handler == Idle && s'.conns[n].accepted == s.conns[n].accepted + [Message(n, |s.conns[n].accepted|, to, payload, frame)]
  {
    hide Run, Step, Admit;
    var m := Message(n, |s.conns[n].accepted|, to, payload, frame);
    var s1 := s.(conns := s.conns[j := s.conns[j].(open := false)]);
    WriteFailStep(run, s, j, s1);
    var run1 := run + [WriteFail(j)];
    var s2 := s1.(conns := s1.conns[n := s1.conns[n].(handler := Routing(m), accepted := s1.conns[n].accepted + [m])]);
    FrameStep(run1, s1, n, frame, m, s2);
    var run2 := run1 + [Frame(n, frame)];
    var s3 := s2.(conns := s2.conns[n := s2.conns[n].(handler := Found(m, j))]);
    LookupStep(run2, s2, n, s3);
    var run3 := run2 + [Lookup(n)];
    var s4 := s3.(conns := s3.conns[n := s3.conns[n].(handler := Queueing(m))]);
    SendClosedStep(run3, s3, n, s4);
    var run4 := run3 + [Send(n)];
    var row := Row(s.lastRowId + 1, to, m);
    s' := s4.(conns := s4.conns[n := s4.conns[n].(handler := Idle)], rows := s4.rows + [row], lastRowId := row.id, inserted := s4.inserted + [row]);
    InsertStep(run4, s4, n, row, s');
  }

  // ---------------------------------------------------------------- the tasks start after the drain

  /** Both tasks run only once the drain has returned: it pushed and deleted all it loaded, or its
      load failed, or its last delete failed. */
  predicate DrainReturned(c: Connection) {
    c.phase == Running || c.phase == DrainOver || (c.phase == Closed && c.open) || c.receiving || c.written > 0 ==>
      c.drain.NotLoaded? || c.drain.gone == |c.drain.snapshot| || (c.drain.sent == c.drain.gone + 1)
  }

  lemma OwnStepReturned(s: State, e: Event, c: Connection)
    requires ConnectionInv(c) && DrainReturned(c) && OwnStep(s, e, c).Some?
    ensures DrainReturned(OwnStep(s, e, c).value)
  {
    hide Admit, RowsFor, DrainedRows;
  }

  lemma CrashReturned(c: Connection, id: nat, username: string)
    ensures DrainReturned(c) ==> DrainReturned(Crashed(c))
    ensures DrainReturned(NewConnection(id, username))
  {
  }

  lemma ReturnedStep(s: State, e: Event, k: nat)
    requires ConnectionsInv(s) && Step(s, e).Some? && k < |Step(s, e).value.conns| && (k < |s.conns| ==> DrainReturned(s.conns[k]))
    ensures DrainReturned(Step(s, e).value.conns[k])
  {
    hide Step, OwnStep, ConnectionInv;
    StepLength(s, e);
    CrashReturned(if k < |s.conns| then s.conns[k] else NewConnection(0, ""), s.nextConnectionId, if e.Open? then e.username else "");
    if k < |s.conns| {
      StepShape(s, e, k);
      assert ConnectionInv(s.conns[k]);
      if Owns(e, k) {
        OwnStepReturned(s, e, s.conns[k]);
      }
    }
  }

  lemma {:induction false} TasksAfterDrain(run: seq<Event>, k: nat)
    requires Run(run).Some? && k < |Run(run).value.conns|
    ensures DrainReturned(Run(run).value.conns[k])
  {
    hide Run, Step, ConnectionsInv, AcceptedInv, RegistryInv, TableInv, AddressInv, CoverageInv, DrainReturned;
    InitialInv();
    if run != [] {
      RunLast(run);
      var s, e := Run(run[..|run| - 1]).value, run[|run| - 1];
      InvHolds(run[..|run| - 1]);
      if k < |s.conns| {
        TasksAfterDrain(run[..|run| - 1], k);
      }
      ReturnedStep(s, e, k);
    }
  }
}
