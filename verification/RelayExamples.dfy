/** Concrete runs that show what the relay does not promise. */
module RelayExamples {
  import Wire
  import opened Relay
  import opened RelayInvariant
  import opened RelayDelivery
  import opened WireProofs
  import opened RelayDuplication
  import opened RelayScripts

  /** alice's first frame to bob, who is offline. */
  function FirstMessage(bob: string, payload: string, frame: string): Message {
    Message(0, 0, bob, payload, frame)
  }

  function AfterQueueing(alice: string, m: Message): State {
    var c := NewConnection(1, alice).(phase := Running, receiving := true, drain := Loaded([], 0, 0, 0), accepted := [m]);
    State(2, 0, [c], map[alice := ActiveClient(1, 0)], [Row(1, m.to, m)], 1, [Row(1, m.to, m)], {})
  }

  /** Any envelope that alice routes to bob is admitted. */
  lemma FrameIsAdmitted(alice: string, bob: string, e: Wire.Encrypted)
    requires Wire.IsValidUsername(bob)
    ensures Admit(alice, Wire.EncodeRouted(Wire.Routed(alice, bob, e))) == Admitted(bob, Wire.EncodeEncrypted(e))
  {
    hide Wire.EncodeRouted, Wire.DecodeRouted, Wire.EncodeEncrypted, Wire.IsValidUsername;
    RoutedRoundTrip(Wire.Routed(alice, bob, e));
    AdmittedMeans(alice, Wire.EncodeRouted(Wire.Routed(alice, bob, e)), bob, Wire.EncodeEncrypted(e));
  }

  /** alice connects and sends one message to bob, who is offline: it is queued. */
  lemma QueueOne(alice: string, bob: string, frame: string, payload: string) returns (run: seq<Event>)
    requires Wire.IsValidUsername(alice) && alice != bob && Admit(alice, frame) == Admitted(bob, payload)
    ensures Ends(run, AfterQueueing(alice, FirstMessage(bob, payload, frame)))
  {
    hide Run, Step, Wire.IsValidUsername, Admit, Ends;
    var m := FirstMessage(bob, payload, frame);
    var c0 := NewConnection(1, alice);
    var s1 := INITIAL.(conns := INITIAL.conns + [c0], nextConnectionId := 2);
    var s2 := s1.(conns := s1.conns[0 := c0.(phase := Registered)], active := s1.active[alice := ActiveClient(1, 0)]);
    var c3 := c0.(phase := Draining, drain := Loaded([], 0, 0, 0));
    var s3 := s2.(conns := s2.conns[0 := c3]);
    var c4 := c3.(phase := Running, receiving := true);
    var s4 := s3.(conns := s3.conns[0 := c4]);
    var c5 := c4.(handler := Routing(m), accepted := [] + [m]);
    var s5 := s4.(conns := s4.conns[0 := c5]);
    var c6 := c5.(handler := Queueing(m));
    var s6 := s5.(conns := s5.conns[0 := c6]);
    var row := Row(1, bob, m);
    var s7 := s6.(conns := s6.conns[0 := c6.(handler := Idle)], rows := s6.rows + [row], lastRowId := 1, inserted := s6.inserted + [row]);
    Start();
    run := [];
    OpenStep(run, INITIAL, alice, s1);
    run := run + [Open(alice)];
    RegisterStep(run, s1, 0, s2);
    run := run + [Register(0)];
    LoadStep(run, s2, 0, [], s3);
    run := run + [Load(0)];
    SpawnStep(run, s3, 0, s4);
    run := run + [Spawn(0)];
    FrameStep(run, s4, 0, frame, m, s5);
    run := run + [Frame(0, frame)];
    LookupStep(run, s5, 0, s6);
    run := run + [Lookup(0)];
    InsertStep(run, s6, 0, row, s7);
    run := run + [Insert(0)];
    assert [] + [m] == [m] && c6.(handler := Idle) == AfterQueueing(alice, m).conns[0];
    assert s7.conns == AfterQueueing(alice, m).conns;
    assert s7.rows == [row] && s7.inserted == [row];
    assert s7.active == AfterQueueing(alice, m).active && s7 == AfterQueueing(alice, m);
  }

  /** Exactly-once delivery is false: two connections of one user whose drains overlap both push
      the same queued row. */
  lemma OverlapDuplicates(alice: string, bob: string, e: Wire.Encrypted) returns (run: seq<Event>, row: Row)
    requires Wire.IsValidUsername(alice) && Wire.IsValidUsername(bob) && alice != bob
    ensures Run(run).Some? && PushCount(Run(run).value.conns, row) == 2
  {
    hide Step, Run, Wire.IsValidUsername, Admit;
    var frame, payload := Wire.EncodeRouted(Wire.Routed(alice, bob, e)), Wire.EncodeEncrypted(e);
    FrameIsAdmitted(alice, bob, e);
    hide Wire.EncodeRouted, Wire.EncodeEncrypted;
    var m := FirstMessage(bob, payload, frame);
    row := Row(1, bob, m);
    var s0 := AfterQueueing(alice, m);
    run := QueueOne(alice, bob, frame, payload);
    var b1, b2 := NewConnection(2, bob), NewConnection(3, bob);
    var loaded := Loaded([row], 1, 0, 0);
    var s1 := s0.(conns := s0.conns + [b1], nextConnectionId := 3);
    var s2 := s1.(conns := s1.conns[1 := b1.(phase := Registered)], active := s1.active[bob := ActiveClient(2, 1)]);
    var s3 := s2.(conns := s2.conns[1 := b1.(phase := Draining, drain := loaded)]);
    var s4 := s3.(conns := s3.conns + [b2], nextConnectionId := 4);
    var s5 := s4.(conns := s4.conns[2 := b2.(phase := Registered)], active := s4.active[bob := ActiveClient(3, 2)]);
    var s6 := s5.(conns := s5.conns[2 := b2.(phase := Draining, drain := loaded)]);
    var p1 := b1.(phase := Draining, drain := loaded.(sent := 1), pushed := [] + [Drained(row)]);
    var p2 := b2.(phase := Draining, drain := loaded.(sent := 1), pushed := [] + [Drained(row)]);
    var s7 := s6.(conns := s6.conns[1 := p1], drained := s6.drained + {1});
    var s8 := s7.(conns := s7.conns[2 := p2], drained := s7.drained + {1});
    OneRow(row);
    {
      hide Ends;
      OpenStep(run, s0, bob, s1);
      run := run + [Open(bob)];
      RegisterStep(run, s1, 1, s2);
      run := run + [Register(1)];
      LoadStep(run, s2, 1, [row], s3);
      run := run + [Load(1)];
      OpenStep(run, s3, bob, s4);
      run := run + [Open(bob)];
      RegisterStep(run, s4, 2, s5);
      run := run + [Register(2)];
      LoadStep(run, s5, 2, [row], s6);
      run := run + [Load(2)];
      PushStep(run, s6, 1, row, s7);
      run := run + [Push(1)];
      PushStep(run, s7, 2, row, s8);
      run := run + [Push(2)];
    }
    assert Ends(run, s8);
    CountTwo(s8.conns, row);
  }

  lemma OneRow(row: Row)
    ensures RowsFor([row], row.recipient) == [row]
  {
  }

  lemma CountTwo(conns: seq<Connection>, row: Row)
    requires |conns| == 3 && conns[0].pushed == [] && conns[1].pushed == [Drained(row)] && conns[2].pushed == [Drained(row)]
    ensures PushCount(conns, row) == 2
  {
    assert DrainedRows([Drained(row)]) == [row];
    assert conns[..2][..1] == conns[..1] && conns[..1][..0] == [];
    assert PushCount(conns[..1], row) == 0;
    assert PushCount(conns[..2], row) == 1;
  }

  /** Order across the two paths is false: a live message overtakes an earlier queued one. */
  lemma LiveOvertakesQueued(alice: string, bob: string, e: Wire.Encrypted) returns (run: seq<Event>)
    requires Wire.IsValidUsername(alice) && Wire.IsValidUsername(bob) && alice != bob
    ensures Run(run).Some? && |Run(run).value.conns| == 2
    ensures var pushed := Run(run).value.conns[1].pushed;
            |pushed| == 2 && ItemMessage(pushed[0]).conn == ItemMessage(pushed[1]).conn && ItemMessage(pushed[0]).no > ItemMessage(pushed[1]).no
  {
    hide Step, Run, Wire.IsValidUsername, Admit;
    var frame, payload := Wire.EncodeRouted(Wire.Routed(alice, bob, e)), Wire.EncodeEncrypted(e);
    FrameIsAdmitted(alice, bob, e);
    hide Wire.EncodeRouted, Wire.EncodeEncrypted;
    var m := FirstMessage(bob, payload, frame);
    var m2 := Message(0, 1, bob, payload, frame);
    var row := Row(1, bob, m);
    var s0 := AfterQueueing(alice, m);
    run := QueueOne(alice, bob, frame, payload);
    var a, b := s0.conns[0], NewConnection(2, bob);
    var loaded := Loaded([row], 1, 0, 0);
    var s1 := s0.(conns := s0.conns + [b], nextConnectionId := 3);
    var s2 := s1.(conns := s1.conns[1 := b.(phase := Registered)], active := s1.active[bob := ActiveClient(2, 1)]);
    var a3 := a.(handler := Routing(m2), accepted := a.accepted + [m2]);
    var s3 := s2.(conns := s2.conns[0 := a3]);
    var s4 := s3.(conns := s3.conns[0 := a3.(handler := Found(m2, 1))]);
    var b5 := b.(phase := Registered, pushed := [] + [Live(m2)]);
    var s5 := s4.(conns := s4.conns[0 := a3.(handler := Idle)][1 := b5]);
    var s6 := s5.(conns := s5.conns[1 := b5.(phase := Draining, drain := loaded)]);
    var b7 := b5.(phase := Draining, drain := loaded.(sent := 1), pushed := b5.pushed + [Drained(row)]);
    var s7 := s6.(conns := s6.conns[1 := b7], drained := s6.drained + {1});
    OneRow(row);
    {
      hide Ends;
      OpenStep(run, s0, bob, s1);
      run := run + [Open(bob)];
      RegisterStep(run, s1, 1, s2);
      run := run + [Register(1)];
      FrameStep(run, s2, 0, frame, m2, s3);
      run := run + [Frame(0, frame)];
      LookupStep(run, s3, 0, s4);
      run := run + [Lookup(0)];
      SendStep(run, s4, 0, 1, s5);
      run := run + [Send(0)];
      LoadStep(run, s5, 1, [row], s6);
      run := run + [Load(1)];
      PushStep(run, s6, 1, row, s7);
      run := run + [Push(1)];
    }
    assert Ends(run, s7);
  }
}
