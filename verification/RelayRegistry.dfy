/** active_clients against a reference definition over the run itself, and its one exception. */
module RelayRegistry {
  import opened Wrappers
  import Wire
  import opened Relay
  import opened RelayInvariant
  import opened RelayScripts

  /** The connection of u that registered last since the last restart, read off the run. */
  function LastRegistered(run: seq<Event>, u: string): Option<nat> {
    if run == [] then None
    else
      var before, e := run[..|run| - 1], run[|run| - 1];
      if e.Restart? then None
      else if e.Register? && Run(run).Some? && e.conn < |Run(run).value.conns| && Run(run).value.conns[e.conn].username == u
      then Some(e.conn)
      else LastRegistered(before, u)
  }

  /** No server process has started more connections than there are ids. */
  ghost predicate IdsFit(run: seq<Event>) {
    forall n :: 0 <= n <= |run| && Run(run[..n]).Some? ==>
      |Run(run[..n]).value.conns| - Run(run[..n]).value.firstLive <= ID_SPACE
  }

  lemma IdsFitPrefix(run: seq<Event>)
    requires run != [] && IdsFit(run)
    ensures IdsFit(run[..|run| - 1])
  {
    hide Run;
    var before := run[..|run| - 1];
    forall n | 0 <= n <= |before| && Run(before[..n]).Some?
      ensures |Run(before[..n]).value.conns| - Run(before[..n]).value.firstLive <= ID_SPACE
    {
      assert before[..n] == run[..n];
    }
  }

  lemma SameId(s: State, j: nat, k: nat)
    requires RegistryInv(s) && s.firstLive <= j < |s.conns| && s.firstLive <= k < |s.conns|
    ensures s.conns[j].id == s.conns[k].id <==> (j - k) % ID_SPACE == 0
    ensures |s.conns| - s.firstLive <= ID_SPACE ==> (s.conns[j].id == s.conns[k].id <==> j == k)
  {
    Congruent(j - s.firstLive + 1, k - s.firstLive + 1);
  }

  lemma Congruent(a: nat, b: nat)
    ensures a % ID_SPACE == b % ID_SPACE <==> (a - b) % ID_SPACE == 0
    ensures 0 - ID_SPACE < a - b < ID_SPACE ==> (a % ID_SPACE == b % ID_SPACE <==> a == b)
  {
  }

  /** The registered connection of u, by the reference definition. */
  ghost predicate RegistryMatches(run: seq<Event>, u: string)
    requires Run(run).Some?
  {
    EntryMatches(Run(run).value, LastRegistered(run, u), u)
  }

  predicate EntryMatches(s: State, last: Option<nat>, u: string) {
    match last
    case None => u !in s.active
    case Some(k) =>
      k < |s.conns| && s.conns[k].username == u
      && if s.conns[k].phase == Closed then u !in s.active else u in s.active && s.active[u] == ActiveClient(s.conns[k].id, k)
  }

  lemma PhaseClosesByUnregister(s: State, e: Event, k: nat)
    requires Step(s, e).Some? && k < |s.conns| && s.conns[k].phase != Closed && Step(s, e).value.conns[k].phase == Closed
    ensures k < |Step(s, e).value.conns|
    ensures e.Restart? || e == Unregister(k)
  {
    hide Step, Admit, RowsFor;
    StepShape(s, e, k);
  }

  lemma UnregisterCloses(s: State, k: nat)
    requires Step(s, Unregister(k)).Some?
    ensures k < |s.conns| && s.conns[k].phase == Running && Step(s, Unregister(k)).value.conns[k].phase == Closed
  {
  }

  lemma RegistryStep(run: seq<Event>, e: Event, u: string)
    requires Run(run).Some? && Run(run + [e]).Some? && Step(Run(run).value, e) == Run(run + [e])
    requires RegistryMatches(run, u) && RegistryInv(Run(run).value)
    requires |Run(run).value.conns| - Run(run).value.firstLive <= ID_SPACE
    ensures RegistryMatches(run + [e], u)
  {
    hide Step, Run, NewConnection;
    var s, s' := Run(run).value, Run(run + [e]).value;
    assert (run + [e])[..|run|] == run;
    RegistryChanges(s, e);
    var last := LastRegistered(run, u);
    assert LastRegistered(run + [e], u)
        == if e.Restart? then None else if e.Register? && s'.conns[e.conn].username == u then Some(e.conn) else last;
    if last.Some? {
      PhasesChange(s, e, last.value);
      if s.conns[last.value].phase != Closed && s'.conns[last.value].phase == Closed {
        PhaseClosesByUnregister(s, e, last.value);
      }
    }
    if !e.Open? && !e.Restart? {
      PhasesChange(s, e, e.conn);
      if e.Unregister? {
        UnregisterCloses(s, e.conn);
        if last.Some? && last.value >= s.firstLive {
          SameId(s, e.conn, last.value);
        }
      }
    }
  }

  /** At any moment of any run, active_clients[u] is the connection that registered last for u if
      that one has not unregistered, and absent otherwise. */
  lemma RegistryExact(run: seq<Event>, s: State, u: string)
    requires Run(run) == Some(s) && IdsFit(run)
    ensures EntryMatches(s, LastRegistered(run, u), u)
  {
    hide Run, IdsFit, EntryMatches, LastRegistered;
    RegistryHolds(run, u);
  }

  lemma {:induction false} RegistryHolds(run: seq<Event>, u: string)
    requires Run(run).Some? && IdsFit(run)
    ensures RegistryMatches(run, u)
  {
    hide Run, Step, Inv;
    InitialInv();
    if run != [] {
      hide RegistryMatches, LastRegistered;
      var before, e := run[..|run| - 1], run[|run| - 1];
      IdsFitPrefix(run);
      RunLast(run);
      RegistryHolds(before, u);
      assert RegistryInv(Run(before).value) by { InvHolds(before); RegistryOfInv(Run(before).value); }
      assert run == before + [e] && run[..|before|] == before;
      RegistryStep(before, e, u);
    }
  }

  lemma RegistryOfInv(s: State)
    requires Inv(s)
    ensures RegistryInv(s)
  {
  }

  predicate EvictsOther(s: State, k: nat) {
    && k < |s.conns| && s.conns[k].username in s.active && s.active[s.conns[k].username].channel != k
    && Step(s, Unregister(k)).Some?
    && s.conns[k].username !in Step(s, Unregister(k)).value.active
  }

  lemma UnregisterEffect(s: State, k: nat)
    requires RegistryInv(s) && Step(s, Unregister(k)).Some?
    ensures k < |s.conns|
    ensures var u := s.conns[k].username;
            EvictsOther(s, k) <==> u in s.active && s.active[u].channel != k && (s.active[u].channel - k) % ID_SPACE == 0
  {
    hide Step;
    RegistryChanges(s, Unregister(k));
    UnregisterCloses(s, k);
    var u := s.conns[k].username;
    if u in s.active {
      assert EntryOk(s, u);
      SameId(s, s.active[u].channel, k);
    }
  }

  /** Unregistering k evicts the entry of another connection exactly when that connection's
      position differs from k by a multiple of 2^64. */
  lemma UnregisterEvicts(run: seq<Event>, s: State, k: nat)
    requires Run(run) == Some(s) && Step(s, Unregister(k)).Some?
    ensures k < |s.conns|
    ensures var u := s.conns[k].username;
            EvictsOther(s, k) <==> u in s.active && s.active[u].channel != k && (s.active[u].channel - k) % 18446744073709551616 == 0
  {
    hide Run, Step, EvictsOther, Inv;
    InvHolds(run);
    RegistryOfInv(s);
    UnregisterEffect(s, k);
  }

  // ---------------------------------------------------------------- the counter does wrap

  lemma {:induction false} ManyOpens(run: seq<Event>, u: string, n: nat) returns (more: seq<Event>)
    requires Wire.IsValidUsername(u) && Run(run).Some? && RegistryInv(Run(run).value)
    ensures Run(more).Some?
    ensures var s, s' := Run(run).value, Run(more).value;
            s' == s.(conns := s'.conns, nextConnectionId := s'.nextConnectionId)
            && |s'.conns| == |s.conns| + n && s'.conns[..|s.conns|] == s.conns
            && RegistryInv(s')
            && forall i :: |s.conns| <= i < |s'.conns| ==> s'.conns[i].username == u && s'.conns[i].phase == Opened
  {
    if n == 0 {
      more := run;
      assert Run(run).value.conns[..|Run(run).value.conns|] == Run(run).value.conns;
    } else {
      var most := ManyOpens(run, u, n - 1);
      var s, s1 := Run(run).value, Run(most).value;
      more := most + [Open(u)];
      RunSnoc(most, Open(u));
      RegistryChanges(s1, Open(u));
      RegistryInvStep(s1, Open(u));
      assert Run(more).value.conns[..|s.conns|] == s1.conns[..|s.conns|];
    }
  }

  /** The first connection of a user runs and loses its client. */
  lemma FirstConnection(u: string) returns (run: seq<Event>)
    requires Wire.IsValidUsername(u)
    ensures Run(run).Some? && |Run(run).value.conns| == 1 && Run(run).value.firstLive == 0
    ensures var c := Run(run).value.conns[0]; c.username == u && c.phase == Running && !c.receiving && c.id == 1
  {
    hide Run, Step, Wire.IsValidUsername;
    var c := NewConnection(1, u);
    var s1 := INITIAL.(conns := INITIAL.conns + [c], nextConnectionId := 2);
    var s2 := s1.(conns := s1.conns[0 := c.(phase := Registered)], active := s1.active[u := ActiveClient(1, 0)]);
    var s3 := s2.(conns := s2.conns[0 := c.(phase := DrainOver)]);
    var s4 := s3.(conns := s3.conns[0 := c.(phase := Running, receiving := true)]);
    var s5 := s4.(conns := s4.conns[0 := c.(phase := Running)]);
    Start();
    run := [];
    OpenStep(run, INITIAL, u, s1);
    run := run + [Open(u)];
    RegisterStep(run, s1, 0, s2);
    run := run + [Register(0)];
    LoadFailStep(run, s2, 0, s3);
    run := run + [LoadFail(0)];
    SpawnStep(run, s3, 0, s4);
    run := run + [Spawn(0)];
    HangupStep(run, s4, 0, s5);
    run := run + [Hangup(0)];
  }

  lemma LastTwoSteps(many: seq<Event>, u: string, n: nat)
    requires Run(many).Some? && n < |Run(many).value.conns| && 0 < n
    requires var s := Run(many).value;
             && s.conns[0].username == u && s.conns[0].phase == Running && !s.conns[0].receiving
             && s.conns[n].username == u && s.conns[n].phase == Opened && s.conns[n].id == s.conns[0].id
    ensures var run := many + [Register(n), Unregister(0)];
            && Run(run).Some? && LastRegistered(run, u) == Some(n) && n < |Run(run).value.conns|
            && Run(run).value.conns[n].phase == Registered && u !in Run(run).value.active
  {
    var registered, run := many + [Register(n)], many + [Register(n), Unregister(0)];
    var s := Run(many).value;
    var s1 := s.(conns := s.conns[n := s.conns[n].(phase := Registered)], active := s.active[u := ActiveClient(s.conns[n].id, n)]);
    var s2 := s1.(conns := s1.conns[0 := s1.conns[0].(phase := Closed)], active := Unregistered(s1.active, u, s1.conns[0].id));
    RegisterStep(many, s, n, s1);
    UnregisterStep(registered, s1, 0, s2);
    hide Run;
    assert run == registered + [Unregister(0)];
    assert registered[..|many|] == many && run[..|registered|] == registered;
    assert LastRegistered(registered, u) == Some(n);
  }

  /** With 2^64 further connections the registry is wrong: the first connection's cleanup evicts
      the live replacement that carries the same id. */
  lemma WrapAroundEvicts(u: string) returns (run: seq<Event>)
    requires Wire.IsValidUsername(u)
    ensures Run(run).Some? && LastRegistered(run, u) == Some(ID_SPACE) && ID_SPACE < |Run(run).value.conns|
    ensures Run(run).value.conns[ID_SPACE].phase == Registered && u !in Run(run).value.active
    ensures !RegistryMatches(run, u)
  {
    hide Run, Step, LastRegistered;
    var first := FirstConnection(u);
    InvHolds(first);
    var many := ManyOpens(first, u, ID_SPACE);
    var s := Run(many).value;
    assert s.conns[0] == Run(first).value.conns[0] by { assert s.conns[..1][0] == s.conns[0]; }
    SameId(s, ID_SPACE, 0);
    LastTwoSteps(many, u, ID_SPACE);
    run := many + [Register(ID_SPACE), Unregister(0)];
  }
}
