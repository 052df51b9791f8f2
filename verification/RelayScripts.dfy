/** Single steps spelled out, for building concrete runs. */
module RelayScripts {
  import opened Wrappers
  import Wire
  import opened Relay
  import opened RelayInvariant

  /** run ends in s. */
  ghost predicate Ends(run: seq<Event>, s: State) {
    Run(run) == Some(s)
  }

  lemma Start()
    ensures Ends([], INITIAL)
  {
  }

  lemma Extend(run: seq<Event>, s: State, e: Event, s': State)
    requires Ends(run, s) && Step(s, e) == Some(s')
    ensures Ends(run + [e], s')
  {
    hide Run, Step;
    RunSnoc(run, e);
  }

  lemma NoNewRows(s: State)
    ensures s.rows + [] == s.rows && s.inserted + [] == s.inserted
  {
  }

  lemma OpenStep(run: seq<Event>, s: State, u: string, s': State)
    requires Ends(run, s) && Wire.IsValidUsername(u)
    requires s' == s.(conns := s.conns + [NewConnection(s.nextConnectionId, u)], nextConnectionId := (s.nextConnectionId + 1) % ID_SPACE)
    ensures Ends(run + [Open(u)], s')
  {
    hide Wire.IsValidUsername;
    Extend(run, s, Open(u), s');
  }

  lemma RegisterStep(run: seq<Event>, s: State, k: nat, s': State)
    requires Ends(run, s) && k < |s.conns| && s.conns[k].phase == Opened
    requires s' == s.(conns := s.conns[k := s.conns[k].(phase := Registered)],
                      active := s.active[s.conns[k].username := ActiveClient(s.conns[k].id, k)])
    ensures Ends(run + [Register(k)], s')
  {
    hide LocalStep;
    NoNewRows(s);
    Extend(run, s, Register(k), s');
  }

  lemma LoadStep(run: seq<Event>, s: State, k: nat, snapshot: seq<Row>, s': State)
    requires Ends(run, s) && k < |s.conns| && s.conns[k].phase == Registered && RowsFor(s.rows, s.conns[k].username) == snapshot
    requires s' == s.(conns := s.conns[k := s.conns[k].(phase := Draining, drain := Loaded(snapshot, s.lastRowId, 0, 0))])
    ensures Ends(run + [Load(k)], s')
  {
    hide LocalStep, RowsFor;
    NoNewRows(s);
    Extend(run, s, Load(k), s');
  }

  lemma PushStep(run: seq<Event>, s: State, k: nat, row: Row, s': State)
    requires Ends(run, s) && k < |s.conns| && CanPush(s.conns[k]) && s.conns[k].open
    requires row == s.conns[k].drain.snapshot[s.conns[k].drain.sent]
    requires s' == s.(conns := s.conns[k := s.conns[k].(pushed := s.conns[k].pushed + [Drained(row)],
                                                       drain := s.conns[k].drain.(sent := s.conns[k].drain.sent + 1))],
                      drained := s.drained + {row.id})
    ensures Ends(run + [Push(k)], s')
  {
    hide LocalStep;
    NoNewRows(s);
    Extend(run, s, Push(k), s');
  }

  lemma SpawnStep(run: seq<Event>, s: State, k: nat, s': State)
    requires Ends(run, s) && k < |s.conns| && DrainReturns(s.conns[k])
    requires s' == s.(conns := s.conns[k := s.conns[k].(phase := Running, receiving := true)])
    ensures Ends(run + [Spawn(k)], s')
  {
    hide Admit;
    NoNewRows(s);
    Extend(run, s, Spawn(k), s');
  }

  lemma HangupStep(run: seq<Event>, s: State, k: nat, s': State)
    requires Ends(run, s) && k < |s.conns| && s.conns[k].receiving && s.conns[k].handler.Idle?
    requires s' == s.(conns := s.conns[k := s.conns[k].(receiving := false)])
    ensures Ends(run + [Hangup(k)], s')
  {
    hide Admit;
    NoNewRows(s);
    Extend(run, s, Hangup(k), s');
  }

  lemma FrameStep(run: seq<Event>, s: State, k: nat, frame: string, m: Message, s': State)
    requires Ends(run, s) && k < |s.conns| && s.conns[k].receiving && s.conns[k].handler.Idle?
    requires Admit(s.conns[k].username, frame) == Admitted(m.to, m.payload)
    requires m.conn == k && m.no == |s.conns[k].accepted| && m.frame == frame
    requires s' == s.(conns := s.conns[k := s.conns[k].(handler := Routing(m), accepted := s.conns[k].accepted + [m])])
    ensures Ends(run + [Frame(k, frame)], s')
  {
    hide Admit;
    NoNewRows(s);
    Extend(run, s, Frame(k, frame), s');
  }

  lemma LookupStep(run: seq<Event>, s: State, k: nat, s': State)
    requires Ends(run, s) && k < |s.conns| && s.conns[k].handler.Routing?
    requires var m := s.conns[k].handler.message;
             s' == s.(conns := s.conns[k := s.conns[k].(handler := if m.to in s.active then Found(m, s.active[m.to].channel) else Queueing(m))])
    ensures Ends(run + [Lookup(k)], s')
  {
    hide LocalStep;
    NoNewRows(s);
    Extend(run, s, Lookup(k), s');
  }

  lemma SendStep(run: seq<Event>, s: State, k: nat, j: nat, s': State)
    requires Ends(run, s) && k < |s.conns| && j < |s.conns| && j != k
    requires s.conns[k].handler.Found? && s.conns[k].handler.channel == j && s.conns[j].open
    requires s' == s.(conns := s.conns[k := s.conns[k].(handler := Idle)]
                                      [j := s.conns[j].(pushed := s.conns[j].pushed + [Live(s.conns[k].handler.message)])])
    ensures Ends(run + [Send(k)], s')
  {
    hide LocalStep;
    NoNewRows(s);
    Extend(run, s, Send(k), s');
  }

  lemma SendSelfStep(run: seq<Event>, s: State, k: nat, s': State)
    requires Ends(run, s) && k < |s.conns|
    requires s.conns[k].handler.Found? && s.conns[k].handler.channel == k && s.conns[k].open
    requires s' == s.(conns := s.conns[k := s.conns[k].(handler := Idle, pushed := s.conns[k].pushed + [Live(s.conns[k].handler.message)])])
    ensures Ends(run + [Send(k)], s')
  {
    hide LocalStep;
    NoNewRows(s);
    var c := s.conns[k].(handler := Idle);
    assert s.conns[k := c][k := c.(pushed := c.pushed + [Live(s.conns[k].handler.message)])]
        == s.conns[k := c.(pushed := c.pushed + [Live(s.conns[k].handler.message)])];
    Extend(run, s, Send(k), s');
  }

  lemma SendClosedStep(run: seq<Event>, s: State, k: nat, s': State)
    requires Ends(run, s) && k < |s.conns| && s.conns[k].handler.Found?
    requires s.conns[k].handler.channel < |s.conns| && !s.conns[s.conns[k].handler.channel].open
    requires s' == s.(conns := s.conns[k := s.conns[k].(handler := Queueing(s.conns[k].handler.message))])
    ensures Ends(run + [Send(k)], s')
  {
    hide LocalStep;
    NoNewRows(s);
    Extend(run, s, Send(k), s');
  }

  lemma InsertStep(run: seq<Event>, s: State, k: nat, row: Row, s': State)
    requires Ends(run, s) && k < |s.conns| && s.conns[k].handler.Queueing? && s.lastRowId < MAX_ROW_ID
    requires row == Row(s.lastRowId + 1, s.conns[k].handler.message.to, s.conns[k].handler.message)
    requires s' == s.(conns := s.conns[k := s.conns[k].(handler := Idle)],
                      rows := s.rows + [row], lastRowId := row.id, inserted := s.inserted + [row])
    ensures Ends(run + [Insert(k)], s')
  {
    hide LocalStep;
    Extend(run, s, Insert(k), s');
  }

  lemma LoadFailStep(run: seq<Event>, s: State, k: nat, s': State)
    requires Ends(run, s) && k < |s.conns| && s.conns[k].phase == Registered
    requires s' == s.(conns := s.conns[k := s.conns[k].(phase := DrainOver)])
    ensures Ends(run + [LoadFail(k)], s')
  {
    hide Admit;
    NoNewRows(s);
    Extend(run, s, LoadFail(k), s');
  }

  lemma InsertFailStep(run: seq<Event>, s: State, k: nat, s': State)
    requires Ends(run, s) && k < |s.conns| && s.conns[k].handler.Queueing?
    requires s' == s.(conns := s.conns[k := s.conns[k].(handler := Idle, lost := s.conns[k].lost + [s.conns[k].handler.message])])
    ensures Ends(run + [InsertFail(k)], s')
  {
    hide Admit;
    NoNewRows(s);
    Extend(run, s, InsertFail(k), s');
  }

  lemma RejectedFrameStep(run: seq<Event>, s: State, k: nat, frame: string)
    requires Ends(run, s) && k < |s.conns| && s.conns[k].receiving && s.conns[k].handler.Idle?
    requires !Admit(s.conns[k].username, frame).Admitted?
    ensures Ends(run + [Frame(k, frame)], s)
  {
    hide Admit;
    NoNewRows(s);
    assert s.conns[k := s.conns[k]] == s.conns;
    Extend(run, s, Frame(k, frame), s);
  }

  lemma DeleteStep(run: seq<Event>, s: State, k: nat, s': State)
    requires Ends(run, s) && k < |s.conns| && AwaitsDelete(s.conns[k])
    requires s' == s.(conns := s.conns[k := s.conns[k].(drain := s.conns[k].drain.(gone := s.conns[k].drain.gone + 1))],
                      rows := WithoutRow(s.rows, s.conns[k].drain.snapshot[s.conns[k].drain.gone].id))
    ensures Ends(run + [Delete(k)], s')
  {
    hide LocalStep, WithoutRow;
    NoNewRows(s);
    Extend(run, s, Delete(k), s');
  }

  lemma DeleteFailStep(run: seq<Event>, s: State, k: nat, s': State)
    requires Ends(run, s) && k < |s.conns| && AwaitsDelete(s.conns[k])
    requires s' == s.(conns := s.conns[k := s.conns[k].(phase := DrainOver)])
    ensures Ends(run + [DeleteFail(k)], s')
  {
    hide Admit;
    NoNewRows(s);
    Extend(run, s, DeleteFail(k), s');
  }

  lemma UnregisterStep(run: seq<Event>, s: State, k: nat, s': State)
    requires Ends(run, s) && k < |s.conns| && s.conns[k].phase == Running && !(s.conns[k].open && s.conns[k].receiving)
    requires s' == s.(conns := s.conns[k := s.conns[k].(phase := Closed)],
                      active := Unregistered(s.active, s.conns[k].username, s.conns[k].id))
    ensures Ends(run + [Unregister(k)], s')
  {
    hide LocalStep;
    NoNewRows(s);
    Extend(run, s, Unregister(k), s');
  }

  lemma WriteStep(run: seq<Event>, s: State, k: nat, s': State)
    requires Ends(run, s) && k < |s.conns| && s.conns[k].phase in {Running, Closed} && s.conns[k].open && s.conns[k].written < |s.conns[k].pushed|
    requires s' == s.(conns := s.conns[k := s.conns[k].(written := s.conns[k].written + 1)])
    ensures Ends(run + [Write(k)], s')
  {
    hide Admit;
    NoNewRows(s);
    Extend(run, s, Write(k), s');
  }

  lemma AbortStep(run: seq<Event>, s: State, k: nat, s': State)
    requires Ends(run, s) && k < |s.conns| && s.conns[k].receiving && !s.conns[k].open && !s.conns[k].handler.Found?
    requires s' == s.(conns := s.conns[k := s.conns[k].(receiving := false, handler := Idle, lost := s.conns[k].lost + Pending(s.conns[k].handler))])
    ensures Ends(run + [Abort(k)], s')
  {
    hide Admit;
    NoNewRows(s);
    Extend(run, s, Abort(k), s');
  }

  lemma WriteFailStep(run: seq<Event>, s: State, k: nat, s': State)
    requires Ends(run, s) && k < |s.conns| && s.conns[k].phase in {Running, Closed} && s.conns[k].open && s.conns[k].written < |s.conns[k].pushed|
    requires s' == s.(conns := s.conns[k := s.conns[k].(open := false)])
    ensures Ends(run + [WriteFail(k)], s')
  {
    hide Admit;
    NoNewRows(s);
    Extend(run, s, WriteFail(k), s');
  }

  lemma CloseChannelStep(run: seq<Event>, s: State, k: nat, s': State)
    requires Ends(run, s) && k < |s.conns| && s.conns[k].phase in {Running, Closed} && s.conns[k].open && !s.conns[k].receiving
    requires s' == s.(conns := s.conns[k := s.conns[k].(open := false)])
    ensures Ends(run + [CloseChannel(k)], s')
  {
    hide Admit;
    NoNewRows(s);
    Extend(run, s, CloseChannel(k), s');
  }
}
