/**
 * server/src/main.rs as code: the shared state of the server and the code of one connection,
 * interleaved at every await with any steps of everything else. Valid says that the state is one
 * the step system reaches, so that everything proved about runs holds of this code.
 */
module Server {
  import opened Wrappers
  import Wire
  import opened Relay
  import opened RelayInvariant
  import opened RelayDelivery
  import opened RelayRegistry
  import opened RelayScripts
  import opened RelaySockets
  import opened Directory

  /** The code of one connection that is under way: its drain, its frame handler, or its send task. */
  datatype Task = DrainOf(conn: nat) | HandlerOf(conn: nat) | SenderOf(conn: nat)

  /** The events that everything else can produce while a task waits. */
  predicate Foreign(e: Event, task: Task) {
    && !e.Restart?
    && (e.Open? || e.conn != task.conn
        || match task
           case DrainOf(_) => false
           case HandlerOf(_) => e.Write? || e.WriteFail? || e.CloseChannel? || e.Unregister?
           case SenderOf(_) => !e.Write? && !e.WriteFail? && !e.CloseChannel?)
  }

  /** What becomes of the state while a task waits: of these events, those that something else
      produces and that are possible when their turn comes. */
  function Foreigns(s: State, others: seq<Event>, task: Task): State {
    if others == [] then s
    else
      var before, e := Foreigns(s, others[..|others| - 1], task), others[|others| - 1];
      if Foreign(e, task) && Step(before, e).Some? then Step(before, e).value else before
  }

  lemma ForeignsSnoc(s: State, others: seq<Event>, n: nat, task: Task)
    requires n < |others|
    ensures var before := Foreigns(s, others[..n], task);
            Foreigns(s, others[..n + 1], task) == if Foreign(others[n], task) && Step(before, others[n]).Some? then Step(before, others[n]).value else before
  {
    hide Step, Foreign;
    assert others[..n + 1][..n] == others[..n];
  }

  /** While any task of k waits, every possible event of another connection happens when its turn
      comes; and while k handles a frame, its own socket can be written to, fail and be cleaned up. */
  lemma OthersRun(s: State, e: Event, k: nat)
    requires Step(s, e).Some? && e != Restart
    ensures e.Open? || e.conn != k ==>
              Foreigns(s, [e], DrainOf(k)) == Step(s, e).value && Foreigns(s, [e], HandlerOf(k)) == Step(s, e).value
              && Foreigns(s, [e], SenderOf(k)) == Step(s, e).value
    ensures e in {Write(k), WriteFail(k), Unregister(k)} ==> Foreigns(s, [e], HandlerOf(k)) == Step(s, e).value
    ensures e.Frame? || e in {Lookup(k), Send(k), Insert(k), InsertFail(k), Hangup(k), Abort(k), Unregister(k)} ==>
              Foreigns(s, [e], SenderOf(k)) == Step(s, e).value
  {
    hide Step;
    assert [e][..0] == [];
    assert Foreigns(s, [], DrainOf(k)) == s && Foreigns(s, [], HandlerOf(k)) == s && Foreigns(s, [], SenderOf(k)) == s;
  }

  /** A closed channel stays closed, whatever else runs. */
  lemma {:induction false} ForeignsClosed(s: State, others: seq<Event>, task: Task, j: nat)
    requires j < |s.conns| && !s.conns[j].open
    ensures j < |Foreigns(s, others, task).conns| && !Foreigns(s, others, task).conns[j].open
  {
    hide Step, Foreign;
    if others != [] {
      ForeignsClosed(s, others[..|others| - 1], task, j);
      var before, e := Foreigns(s, others[..|others| - 1], task), others[|others| - 1];
      if Step(before, e).Some? {
        StaysDead(before, e, j);
      }
    }
  }

  predicate TasksRun(c: Connection) { c.phase == Running || c.phase == Closed }

  /** What a waiting task relies on: nothing else touches its own local variables. */
  predicate Undisturbed(task: Task, s: State, s': State) {
    var k := task.conn;
    && k < |s.conns| <= |s'.conns| && s.lastRowId <= s'.lastRowId
    && s'.conns[k].username == s.conns[k].username && s'.conns[k].id == s.conns[k].id
    && s.conns[k].pushed <= s'.conns[k].pushed
    && (!task.SenderOf? ==>
          s'.conns[k].handler == s.conns[k].handler && s'.conns[k].receiving == s.conns[k].receiving
          && s'.conns[k].accepted == s.conns[k].accepted && s'.conns[k].lost == s.conns[k].lost)
    && (task.DrainOf? ==> s'.conns[k].phase == s.conns[k].phase && s'.conns[k].drain == s.conns[k].drain)
    && (task.SenderOf? && TasksRun(s.conns[k]) ==>
          TasksRun(s'.conns[k]) && s'.conns[k].open == s.conns[k].open && s'.conns[k].written == s.conns[k].written)
  }

  lemma OwnUndisturbed(task: Task, s: State, e: Event, c: Connection)
    requires Foreign(e, task) && Owns(e, task.conn) && OwnStep(s, e, c).Some?
    ensures var c' := OwnStep(s, e, c).value;
            && !task.DrainOf? && c'.username == c.username && c'.id == c.id && c.pushed <= c'.pushed
            && (task.HandlerOf? ==>
                  c'.handler == c.handler && c'.receiving == c.receiving && c'.accepted == c.accepted && c'.lost == c.lost)
            && (task.SenderOf? && TasksRun(c) ==> TasksRun(c') && c'.open == c.open && c'.written == c.written)
  {
    hide Admit, RowsFor;
  }

  lemma NothingElse(s: State, task: Task, others: seq<Event>)
    ensures Foreigns(s, [], task) == s && Foreigns(s, others[..0], task) == s
  {
    assert others[..0] == [];
  }

  lemma ForeignStep(task: Task, s: State, e: Event)
    requires Foreign(e, task) && task.conn < |s.conns| && Step(s, e).Some?
    ensures Undisturbed(task, s, Step(s, e).value)
  {
    hide Step, OwnStep;
    StepShape(s, e, task.conn);
    StepLength(s, e);
    TableChanges(s, e);
    if Owns(e, task.conn) {
      OwnUndisturbed(task, s, e, s.conns[task.conn]);
    }
  }

  /** With fewer connections than ids, the entry of another connection has another id. */
  lemma NoOtherEvicted(run: seq<Event>, s: State, k: nat)
    requires Ends(run, s) && k < |s.conns| && s.conns[k].phase != Closed && |s.conns| - s.firstLive <= ID_SPACE
    ensures s.conns[k].username in s.active && s.active[s.conns[k].username].channel != k ==>
              s.active[s.conns[k].username].connectionId != s.conns[k].id
  {
    hide Run, ConnectionsInv, AcceptedInv, TableInv, AddressInv, CoverageInv;
    InvHolds(run);
    var u := s.conns[k].username;
    if u in s.active {
      assert EntryOk(s, u);
      SameId(s, s.active[u].channel, k);
    }
  }

  /** Every row k's user had in s was pushed into k's channel and is gone in s', and the rows its
      user has in s' were all inserted after s. */
  ghost predicate DrainedSince(s: State, s': State, k: nat)
    requires k < |s'.conns|
  {
    var c := s'.conns[k];
    && (forall r :: r in s.rows && r.recipient == c.username ==> Drained(r) in c.pushed && r !in s'.rows)
    && (forall r :: r in s'.rows && r.recipient == c.username ==> s.lastRowId < r.id)
  }

  lemma DrainSettles(run: seq<Event>, s: State, s': State, k: nat)
    requires Ends(run, s') && k < |s'.conns|
    requires var rows := RowsFor(s.rows, s'.conns[k].username); s'.conns[k].drain == Loaded(rows, s.lastRowId, |rows|, |rows|)
    ensures DrainedSince(s, s', k)
  {
    hide Run;
    DrainCompleteness(run, s', k);
    forall r ensures r in RowsFor(s.rows, s'.conns[k].username) <==> r in s.rows && r.recipient == s'.conns[k].username {
      RowsForMember(s.rows, s'.conns[k].username, r);
    }
  }

  lemma RegisteredChannel(run: seq<Event>, s: State, u: string)
    requires Ends(run, s)
    ensures u in s.active ==> s.active[u].channel < |s.conns|
  {
    hide Run, ConnectionsInv, AcceptedInv, TableInv, AddressInv, CoverageInv;
    InvHolds(run);
    assert u in s.active ==> EntryOk(s, u);
  }

  /** How a frame ends: ignored, sent live into a channel, queued as a row, given up because the
      INSERT failed, or dropped with its task. */
  datatype Routing = Rejected | Relayed(channel: nat) | Queued(row: Row) | Failed | Cancelled

  /** The user is registered, with a channel whose receiving half still exists. */
  predicate HasOpenChannel(s: State, user: string) {
    user in s.active && s.active[user].channel < |s.conns| && s.conns[s.active[user].channel].open
  }

  datatype Reply<T> = BadRequest | NotFound | InternalError | Done(value: T)

  predicate ValidRegistration(r: Wire.Entry) {
    Wire.IsValidUsername(r.username) && Wire.IsValidKeyText(r.identityKey) && Wire.IsValidKeyText(r.encryptionKey)
  }

  /** Every stored key is under its own user's name and has passed validate_registration. */
  predicate KeysInv(keys: map<string, Wire.Entry>) {
    forall u :: u in keys ==> keys[u].username == u && ValidRegistration(keys[u])
  }

  class AppState {
    const directory: Database
    var activeClients: map<string, ActiveClient>
    var nextConnectionId: nat
    var conns: seq<Connection>  // the tasks and channels of every connection
    var firstLive: nat
    var drained: set<nat>
    ghost var history: seq<Event>

    function View(): State
      reads this, directory
    {
      State(nextConnectionId, firstLive, conns, activeClients, directory.queuedMessages, directory.lastRowId, directory.inserted, drained)
    }

    ghost predicate Valid()
      reads this, directory
    {
      Ends(history, View()) && KeysInv(directory.publicKeys)
    }

    constructor ()
      ensures Valid() && fresh(directory) && View() == INITIAL && history == [] && directory.publicKeys == map[]
    {
      directory := new Database();
      activeClients := map[];
      nextConnectionId := 1;
      conns := [];
      firstLive := 0;
      drained := {};
      history := [];
    }

    /** The process ends and starts again: the database stays, everything else is new, and every
        channel and task of the old process is gone. */
    method Restart()
      requires Valid()
      modifies this
      ensures Valid() && history == old(history) + [Event.Restart]
      ensures activeClients == map[] && nextConnectionId == 1 && firstLive == |conns| == old(|conns|)
      ensures forall k :: 0 <= k < |conns| ==>
                conns[k] == old(conns)[k].(phase := Closed, open := false, receiving := false, handler := Idle,
                                           lost := old(conns)[k].lost + Pending(old(conns)[k].handler))
    {
      hide Run;
      var before := View();
      activeClients := map[];
      nextConnectionId := 1;
      firstLive := |conns|;
      conns := AllCrashed(conns);
      Extend(history, before, Event.Restart, View());
      history := history + [Event.Restart];
    }

    /** Another task takes a step. */
    method Happens(e: Event)
      requires Valid() && Step(View(), e).Some?
      modifies this, directory
      ensures Valid() && history == old(history) + [e] && directory.publicKeys == old(directory.publicKeys)
      ensures Step(old(View()), e) == Some(View())
    {
      hide Run, Ends, Step;
      var before := View();
      var s := Step(before, e).value;
      activeClients, nextConnectionId, conns, firstLive, drained := s.active, s.nextConnectionId, s.conns, s.firstLive, s.drained;
      directory.queuedMessages, directory.lastRowId, directory.inserted := s.rows, s.lastRowId, s.inserted;
      Extend(history, before, e, View());
      history := history + [e];
    }

    /** Everything else runs: any of these events that are possible when their turn comes. */
    method Interleave(others: seq<Event>, task: Task)
      requires Valid() && task.conn < |conns|
      modifies this, directory
      ensures Valid() && old(history) <= history && directory.publicKeys == old(directory.publicKeys)
      ensures View() == Foreigns(old(View()), others, task)
      ensures Undisturbed(task, old(View()), View())
    {
      hide Run, Ends, Step, Foreign, Foreigns;
      NothingElse(old(View()), task, others);
      var i := 0;
      while i < |others|
        invariant 0 <= i <= |others| && Valid() && old(history) <= history
        invariant directory.publicKeys == old(directory.publicKeys)
        invariant Undisturbed(task, old(View()), View())
        invariant View() == Foreigns(old(View()), others[..i], task)
      {
        ForeignsSnoc(old(View()), others, i, task);
        if Foreign(others[i], task) && Step(View(), others[i]).Some? {
          ForeignStep(task, View(), others[i]);
          Happens(others[i]);
        }
        i := i + 1;
      }
      assert others[..|others|] == others;
    }

    // -------------------------------------------------------------- the life of a connection

    /** The start of handle_socket: an id from the counter, a channel, and the registration. */
    method Connect(username: string, others: seq<Event>) returns (k: nat)
      requires Valid() && Wire.IsValidUsername(username)
      modifies this, directory
      ensures Valid() && old(history) <= history && directory.publicKeys == old(directory.publicKeys)
      ensures k == old(|conns|) < |conns| && conns[k].username == username && conns[k].phase == Registered
      ensures conns[k].id == old(nextConnectionId)
      ensures username in activeClients && activeClients[username] == ActiveClient(conns[k].id, k)
    {
      hide Run, Wire.IsValidUsername;
      var before := View();
      k := |conns|;
      var id := nextConnectionId;
      nextConnectionId := (nextConnectionId + 1) % ID_SPACE;
      conns := conns + [NewConnection(id, username)];
      OpenStep(history, before, username, View());
      history := history + [Open(username)];

      Interleave(others, DrainOf(k));

      before := View();
      activeClients := activeClients[username := ActiveClient(conns[k].id, k)];
      conns := conns[k := conns[k].(phase := Registered)];
      RegisterStep(history, before, k, View());
      history := history + [Register(k)];
    }

    /** The SELECT of deliver_queued_messages. */
    method LoadQueue(k: nat, fails: bool) returns (loaded: Option<seq<Row>>)
      requires Valid() && k < |conns| && conns[k].phase == Registered
      modifies this
      ensures Valid() && old(history) <= history && |conns| == old(|conns|)
      ensures fails ==> loaded.None? && conns[k] == old(conns[k]).(phase := DrainOver)
      ensures !fails ==>
                loaded == Some(RowsFor(directory.queuedMessages, conns[k].username))
                && conns[k] == old(conns[k]).(phase := Draining, drain := Loaded(loaded.value, directory.lastRowId, 0, 0))
    {
      hide Run, RowsFor;
      var before := View();
      if fails {
        conns := conns[k := conns[k].(phase := DrainOver)];
        LoadFailStep(history, before, k, View());
        history := history + [LoadFail(k)];
        return None;
      }
      var rows := directory.QueuedMessagesFor(conns[k].username);
      conns := conns[k := conns[k].(phase := Draining, drain := Loaded(rows, directory.lastRowId, 0, 0))];
      LoadStep(history, before, k, rows, View());
      history := history + [Load(k)];
      loaded := Some(rows);
    }

    /** sender.send in the drain loop. */
    method PushRow(k: nat, row: Row)
      requires Valid() && k < |conns| && CanPush(conns[k]) && conns[k].open && row == conns[k].drain.snapshot[conns[k].drain.sent]
      modifies this
      ensures Valid() && old(history) <= history && |conns| == old(|conns|)
      ensures conns[k] == old(conns[k]).(pushed := old(conns[k].pushed) + [Drained(row)], drain := old(conns[k].drain).(sent := old(conns[k].drain.sent) + 1))
    {
      hide Run;
      var before := View();
      conns := conns[k := conns[k].(pushed := conns[k].pushed + [Drained(row)], drain := conns[k].drain.(sent := conns[k].drain.sent + 1))];
      drained := drained + {row.id};
      PushStep(history, before, k, row, View());
      history := history + [Push(k)];
    }

    /** The delete that follows a push. */
    method DeleteRow(k: nat, row: Row, fails: bool) returns (ok: bool)
      requires Valid() && k < |conns| && AwaitsDelete(conns[k]) && row == conns[k].drain.snapshot[conns[k].drain.gone]
      modifies this, directory
      ensures Valid() && old(history) <= history && |conns| == old(|conns|) && directory.publicKeys == old(directory.publicKeys)
      ensures ok <==> !fails
      ensures conns[k] == if ok then old(conns[k]).(drain := old(conns[k].drain).(gone := old(conns[k].drain.gone) + 1))
                          else old(conns[k]).(phase := DrainOver)
      ensures ok ==> row !in directory.queuedMessages
    {
      hide Run, WithoutRow;
      WithoutRowMember(directory.queuedMessages, row.id, row);
      var before := View();
      ok := directory.DeleteQueuedMessage(row.id, fails);
      if ok {
        conns := conns[k := conns[k].(drain := conns[k].drain.(gone := conns[k].drain.gone + 1))];
        DeleteStep(history, before, k, View());
        history := history + [Delete(k)];
      } else {
        conns := conns[k := conns[k].(phase := DrainOver)];
        DeleteFailStep(history, before, k, View());
        history := history + [DeleteFail(k)];
      }
    }

    /** One turn of the drain loop, with everything else running before the push and the delete: the
        row enters the channel, and then leaves the table unless the delete fails. */
    method DeliverRow(k: nat, row: Row, deleteFails: bool, beforePush: seq<Event>, beforeDelete: seq<Event>) returns (ok: bool)
      requires Valid() && k < |conns| && CanPush(conns[k]) && row == conns[k].drain.snapshot[conns[k].drain.sent]
      modifies this, directory
      ensures Valid() && old(history) <= history && directory.publicKeys == old(directory.publicKeys)
      ensures k < |conns| && conns[k].username == old(conns[k].username)
      ensures ok <==> !deleteFails
      ensures Drained(row) in conns[k].pushed && old(conns[k].pushed) <= conns[k].pushed
      ensures ok ==> row !in directory.queuedMessages
      ensures var sent := old(conns[k].drain).(sent := old(conns[k].drain.sent) + 1);
              if ok then conns[k].phase == Draining && conns[k].drain == sent.(gone := sent.sent)
              else conns[k].phase == DrainOver && conns[k].drain == sent
    {
      hide Run;
      Interleave(beforePush, DrainOf(k));
      DrainChannelOpen(history, View(), k);
      PushRow(k, row);
      assert conns[k].pushed[|conns[k].pushed| - 1] == Drained(row);
      ghost var at := |conns[k].pushed| - 1;
      Interleave(beforeDelete, DrainOf(k));
      ok := DeleteRow(k, row, deleteFails);
      assert conns[k].pushed[at] == Drained(row);
    }

    /**
     * deliver_queued_messages. Its channel never closes under it. When no statement fails, every
     * row its user had at the load was pushed here and is gone, and every row its user has now
     * was inserted since, whatever else ran.
     */
    method DeliverQueuedMessages(k: nat, loadFails: bool, deleteFails: nat -> bool, others: nat -> seq<Event>) returns (ok: bool)
      requires Valid() && k < |conns| && conns[k].phase == Registered
      modifies this, directory
      ensures Valid() && old(history) <= history && directory.publicKeys == old(directory.publicKeys)
      ensures k < |conns| && conns[k].username == old(conns[k].username) && DrainReturns(conns[k])
      ensures !loadFails && (forall i :: !deleteFails(i)) ==> ok
      ensures ok ==> DrainedSince(old(View()), View(), k)
    {
      hide Run, RowsFor, DrainedSince;
      var loaded := LoadQueue(k, loadFails);
      if loaded.None? {
        return false;
      }
      var rows := loaded.value;
      ghost var user, horizon := conns[k].username, directory.lastRowId;
      var i := 0;
      while i < |rows|
        invariant 0 <= i <= |rows| && Valid() && old(history) <= history && directory.publicKeys == old(directory.publicKeys)
        invariant k < |conns| && conns[k].username == user && conns[k].phase == Draining
        invariant conns[k].drain == Loaded(rows, horizon, i, i)
      {
        var deleted := DeliverRow(k, rows[i], deleteFails(i), others(2 * i), others(2 * i + 1));
        if !deleted {
          return false;
        }
        i := i + 1;
      }
      ok := true;
      DrainSettles(history, old(View()), View(), k);
    }

    method SpawnTasks(k: nat)
      requires Valid() && k < |conns| && DrainReturns(conns[k])
      modifies this
      ensures Valid() && old(history) <= history && |conns| == old(|conns|)
      ensures conns[k] == old(conns[k]).(phase := Running, receiving := true)
    {
      hide Run;
      var before := View();
      conns := conns[k := conns[k].(phase := Running, receiving := true)];
      SpawnStep(history, before, k, View());
      history := history + [Spawn(k)];
    }

    // -------------------------------------------------------------- the two tasks and their end

    /** One turn of the send task: the next payload of the channel goes to the socket. When that
        fails, the task ends and drops the receiving half of the channel. */
    method WriteNext(k: nat, fails: bool)
      requires Valid() && k < |conns| && TasksRun(conns[k]) && conns[k].open && conns[k].written < |conns[k].pushed|
      modifies this
      ensures Valid() && old(history) <= history
      ensures fails ==> View() == old(View()).(conns := old(conns)[k := old(conns[k]).(open := false)])
      ensures !fails ==> View() == old(View()).(conns := old(conns)[k := old(conns[k]).(written := old(conns[k].written) + 1)])
    {
      hide Run;
      var before := View();
      if fails {
        conns := conns[k := conns[k].(open := false)];
        WriteFailStep(history, before, k, View());
        history := history + [WriteFail(k)];
      } else {
        conns := conns[k := conns[k].(written := conns[k].written + 1)];
        WriteStep(history, before, k, View());
        history := history + [Write(k)];
      }
    }

    /** The send task, for so many turns, with everything else running before each. Payloads are
        written in the order they were pushed; the first write that fails closes the channel. */
    method SendTask(k: nat, turns: nat, fails: nat -> bool, others: nat -> seq<Event>)
      requires Valid() && k < |conns| && TasksRun(conns[k]) && conns[k].open && conns[k].written <= |conns[k].pushed|
      modifies this, directory
      ensures Valid() && old(history) <= history && directory.publicKeys == old(directory.publicKeys)
      ensures k < |conns| && old(conns[k].pushed) <= conns[k].pushed
      ensures old(conns[k].written) <= conns[k].written <= |conns[k].pushed|
      ensures (forall i :: 0 <= i < turns ==> !fails(i)) ==> conns[k].open
      ensures turns > 0 && fails(0) && old(conns[k].written) < |old(conns[k].pushed)| ==> !conns[k].open && conns[k].written == old(conns[k].written)
    {
      hide Run, Ends, Foreigns, Foreign;
      var i := 0;
      while i < turns && conns[k].open
        invariant i <= turns && Valid() && old(history) <= history && directory.publicKeys == old(directory.publicKeys)
        invariant k < |conns| && TasksRun(conns[k]) && old(conns[k].pushed) <= conns[k].pushed
        invariant old(conns[k].written) <= conns[k].written <= |conns[k].pushed|
        invariant i == 0 ==> conns[k].open && conns[k].written == old(conns[k].written)
        invariant (forall n :: 0 <= n < i ==> !fails(n)) ==> conns[k].open
        invariant i > 0 && fails(0) && old(conns[k].written) < |old(conns[k].pushed)| ==> !conns[k].open && conns[k].written == old(conns[k].written)
      {
        Interleave(others(i), SenderOf(k));
        if conns[k].written < |conns[k].pushed| {
          WriteNext(k, fails(i));
        }
        i := i + 1;
      }
    }

    /** The receive loop ends: the peer closed the socket, or reading failed. */
    method EndReceiveTask(k: nat)
      requires Valid() && k < |conns| && conns[k].receiving && conns[k].handler.Idle?
      modifies this
      ensures Valid() && old(history) <= history
      ensures View() == old(View()).(conns := old(conns)[k := old(conns[k]).(receiving := false)])
    {
      hide Run;
      var before := View();
      conns := conns[k := conns[k].(receiving := false)];
      HangupStep(history, before, k, View());
      history := history + [Hangup(k)];
    }

    /** send_task.abort() has taken effect: the task is dropped, with the receiving half. */
    method AbortSendTask(k: nat)
      requires Valid() && k < |conns| && TasksRun(conns[k]) && conns[k].open && !conns[k].receiving
      modifies this
      ensures Valid() && old(history) <= history
      ensures View() == old(View()).(conns := old(conns)[k := old(conns[k]).(open := false)])
    {
      hide Run;
      var before := View();
      conns := conns[k := conns[k].(open := false)];
      CloseChannelStep(history, before, k, View());
      history := history + [CloseChannel(k)];
    }

    /** receive_task.abort() has taken effect, at an await of the loop or of the frame it handles. */
    method AbortReceiveTask(k: nat)
      requires Valid() && k < |conns| && conns[k].receiving && !conns[k].open && !conns[k].handler.Found?
      modifies this
      ensures Valid() && old(history) <= history
      ensures View() == old(View()).(conns := old(conns)[k := old(conns[k]).(receiving := false, handler := Idle, lost := old(conns[k].lost) + Pending(old(conns[k].handler)))])
    {
      hide Run;
      var before := View();
      conns := conns[k := conns[k].(receiving := false, handler := Idle, lost := conns[k].lost + Pending(conns[k].handler))];
      AbortStep(history, before, k, View());
      history := history + [Abort(k)];
    }

    /** The select of handle_socket and what follows it: whichever task ends first, in the end both
        are gone, the channel is closed, and the registration is cleaned up. */
    method EndSocket(k: nat, writeFails: bool)
      requires Valid() && k < |conns| && conns[k].phase == Running && conns[k].receiving && conns[k].open && conns[k].handler.Idle?
      requires writeFails ==> conns[k].written < |conns[k].pushed|
      modifies this
      ensures Valid() && old(history) <= history && |conns| == old(|conns|)
      ensures conns == old(conns)[k := old(conns[k]).(phase := Closed, receiving := false, open := false)]
      ensures activeClients == Unregistered(old(activeClients), conns[k].username, conns[k].id)
    {
      hide Run, Ends;
      ghost var c := conns[k];
      if writeFails {
        WriteNext(k, true);
        AbortReceiveTask(k);
        assert c.lost + [] == c.lost;
      } else {
        EndReceiveTask(k);
        AbortSendTask(k);
      }
      Disconnect(k);
    }

    /** The end of handle_socket, after one of the two tasks ended. */
    method Disconnect(k: nat)
      requires Valid() && k < |conns| && conns[k].phase == Running && !(conns[k].open && conns[k].receiving)
      modifies this
      ensures Valid() && old(history) <= history && conns == old(conns)[k := old(conns[k]).(phase := Closed)]
      ensures directory.queuedMessages == old(directory.queuedMessages)
      ensures activeClients == if conns[k].username in old(activeClients) && old(activeClients)[conns[k].username].connectionId == conns[k].id
                               then old(activeClients) - {conns[k].username} else old(activeClients)
      ensures |conns| - firstLive <= ID_SPACE ==>
                forall u :: u in old(activeClients) && old(activeClients)[u].channel != k ==>
                  u in activeClients && activeClients[u] == old(activeClients)[u]
    {
      hide Run, Ends;
      var before := View();
      if |conns| - firstLive <= ID_SPACE {
        NoOtherEvicted(history, before, k);
      }
      var username := conns[k].username;
      var shouldRemove := username in activeClients && activeClients[username].connectionId == conns[k].id;
      if shouldRemove {
        activeClients := activeClients - {username};
      }
      conns := conns[k := conns[k].(phase := Closed)];
      UnregisterStep(history, before, k, View());
      history := history + [Unregister(k)];
    }

    // -------------------------------------------------------------- one frame

    method CheckFrame(k: nat, frame: string) returns (accepted: Option<Message>)
      requires Valid() && k < |conns| && conns[k].receiving && conns[k].handler.Idle?
      modifies this
      ensures Valid() && old(history) <= history && |conns| == old(|conns|)
      ensures activeClients == old(activeClients) && forall j :: 0 <= j < |conns| ==> conns[j].open == old(conns[j]).open
      ensures Step(old(View()), Frame(k, frame)) == Some(View())
      ensures accepted.Some? <==> Admit(old(conns[k].username), frame).Admitted?
      ensures accepted.Some? ==>
                var m := accepted.value;
                m.conn == k && m.no == |old(conns[k].accepted)| && m.frame == frame
                && Admit(old(conns[k].username), frame) == Admitted(m.to, m.payload)
                && conns[k] == old(conns[k]).(handler := Routing(m), accepted := old(conns[k].accepted) + [m])
      ensures accepted.None? ==> conns == old(conns)
    {
      hide Run, Wire.DecodeRouted, Wire.EncodeEncrypted, Wire.IsValidUsername;
      var before := View();
      var routed := Wire.DecodeRouted(frame);
      if routed.Some? {
        var payload := Wire.EncodeEncrypted(routed.value.encrypted);
        if routed.value.from == conns[k].username && Wire.IsValidUsername(routed.value.to) {
          var m := Message(k, |conns[k].accepted|, routed.value.to, payload, frame);
          conns := conns[k := conns[k].(handler := Routing(m), accepted := conns[k].accepted + [m])];
          FrameStep(history, before, k, frame, m, View());
          RunSnoc(history, Frame(k, frame));
          history := history + [Frame(k, frame)];
          return Some(m);
        }
      }
      RejectedFrameStep(history, before, k, frame);
      RunSnoc(history, Frame(k, frame));
      history := history + [Frame(k, frame)];
      accepted := None;
    }

    /** active_clients.get(&routed.to).cloned() */
    method FindRecipient(k: nat, m: Message) returns (recipient: Option<ActiveClient>)
      requires Valid() && k < |conns| && conns[k].handler == Routing(m)
      modifies this
      ensures Valid() && old(history) <= history && |conns| == old(|conns|) && activeClients == old(activeClients)
      ensures recipient == if m.to in activeClients then Some(activeClients[m.to]) else None
      ensures recipient.Some? ==> recipient.value.channel < |conns|
      ensures conns[k] == old(conns[k]).(handler := if recipient.Some? then Found(m, recipient.value.channel) else Queueing(m))
      ensures forall j :: 0 <= j < |conns| ==> conns[j].open == old(conns[j]).open
    {
      hide Run;
      var before := View();
      recipient := if m.to in activeClients then Some(activeClients[m.to]) else None;
      RegisteredChannel(history, before, m.to);
      conns := conns[k := conns[k].(handler := if recipient.Some? then Found(m, recipient.value.channel) else Queueing(m))];
      LookupStep(history, before, k, View());
      history := history + [Lookup(k)];
    }

    /** recipient.sender.send: it fails exactly when the receiving half is gone. */
    method SendLive(k: nat, m: Message, channel: nat) returns (ok: bool)
      requires Valid() && k < |conns| && conns[k].handler == Found(m, channel)
      modifies this
      ensures Valid() && old(history) <= history && |conns| == old(|conns|)
      ensures channel < |conns| && conns[channel].username == m.to && (ok <==> old(conns)[channel].open)
      ensures conns[k].handler == (if ok then Idle else Queueing(m)) && conns[k].username == old(conns[k].username)
      ensures conns[k].accepted == old(conns[k].accepted) && conns[k].receiving == old(conns[k].receiving)
      ensures conns[channel].pushed == if ok then old(conns)[channel].pushed + [Live(m)] else old(conns)[channel].pushed
    {
      hide Run, AcceptedInv, ConnectionsInv, TableInv, CoverageInv;
      InvHolds(history);
      var before := View();
      assert FoundOk(before, before.conns[k]);
      ok := conns[channel].open;
      if !ok {
        conns := conns[k := conns[k].(handler := Queueing(m))];
        SendClosedStep(history, before, k, View());
      } else if channel == k {
        conns := conns[k := conns[k].(handler := Idle, pushed := conns[k].pushed + [Live(m)])];
        SendSelfStep(history, before, k, View());
      } else {
        conns := conns[k := conns[k].(handler := Idle)][channel := conns[channel].(pushed := conns[channel].pushed + [Live(m)])];
        SendStep(history, before, k, channel, View());
      }
      history := history + [Send(k)];
    }

    method Queue(k: nat, m: Message, fails: bool) returns (routing: Routing)
      requires Valid() && k < |conns| && conns[k].handler == Queueing(m)
      modifies this, directory
      ensures Valid() && old(history) <= history && |conns| == old(|conns|) && directory.publicKeys == old(directory.publicKeys)
      ensures conns[k].accepted == old(conns[k].accepted) && conns[k].handler == Idle
      ensures if fails || old(directory.lastRowId) >= MAX_ROW_ID then routing == Failed && m in conns[k].lost && directory.lastRowId == old(directory.lastRowId)
              else routing == Queued(Row(old(directory.lastRowId) + 1, m.to, m)) && routing.row in directory.queuedMessages
    {
      hide Run;
      var before := View();
      var ok := directory.QueueMessage(m.to, m, fails);
      if ok {
        var row := Row(directory.lastRowId, m.to, m);
        conns := conns[k := conns[k].(handler := Idle)];
        InsertStep(history, before, k, row, View());
        history := history + [Insert(k)];
        assert directory.queuedMessages[|directory.queuedMessages| - 1] == row;
        return Queued(row);
      }
      conns := conns[k := conns[k].(handler := Idle, lost := conns[k].lost + [m])];
      InsertFailStep(history, before, k, View());
      history := history + [InsertFail(k)];
      routing := Failed;
    }

    /** The send, with everything else running before it. */
    method TrySend(k: nat, m: Message, channel: nat, beforeSend: seq<Event>) returns (ok: bool)
      requires Valid() && k < |conns| && conns[k].receiving && conns[k].handler == Found(m, channel) && channel < |conns|
      modifies this, directory
      ensures Valid() && old(history) <= history && directory.publicKeys == old(directory.publicKeys)
      ensures k < |conns| && conns[k].handler == (if ok then Idle else Queueing(m)) && conns[k].receiving == old(conns[k].receiving)
      ensures conns[k].accepted == old(conns[k].accepted)
      ensures ok ==> channel < |conns| && conns[channel].username == m.to && Live(m) in conns[channel].pushed
      ensures (ok ==> old(conns)[channel].open) && (old(conns)[channel].open && beforeSend == [] ==> ok)
    {
      hide Run, Ends, Foreign, Foreigns;
      NothingElse(View(), HandlerOf(k), beforeSend);
      if !conns[channel].open {
        ForeignsClosed(View(), beforeSend, HandlerOf(k), channel);
      }
      Interleave(beforeSend, HandlerOf(k));
      ok := SendLive(k, m, channel);
    }

    method QueueUnlessCancelled(k: nat, m: Message, beforeInsert: seq<Event>, insertFails: bool, cancel: bool) returns (routing: Routing)
      requires Valid() && k < |conns| && conns[k].receiving && conns[k].handler == Queueing(m)
      modifies this, directory
      ensures Valid() && old(history) <= history && directory.publicKeys == old(directory.publicKeys)
      ensures k < |conns| && conns[k].handler == Idle && conns[k].accepted == old(conns[k].accepted)
      ensures match routing
              case Queued(row) => row.message == m && row.recipient == m.to && row in directory.queuedMessages
              case Failed => m in conns[k].lost && (insertFails || directory.lastRowId >= MAX_ROW_ID)
              case Cancelled => m in conns[k].lost && !conns[k].receiving && !conns[k].open && cancel
              case _ => false
    {
      hide Run, Ends, Foreign;
      Interleave(beforeInsert, HandlerOf(k));
      if cancel && !conns[k].open {
        AbortReceiveTask(k);
        return Cancelled;
      }
      routing := Queue(k, m, insertFails);
    }

    /** From the lookup on: a live send into the channel found, or else a row. */
    method Route(k: nat, m: Message, beforeLookup: seq<Event>, beforeSend: seq<Event>, beforeInsert: seq<Event>,
                 insertFails: bool, cancelAtLock: bool, cancelAtInsert: bool)
      returns (routing: Routing)
      requires Valid() && k < |conns| && conns[k].receiving && conns[k].handler == Routing(m)
      modifies this, directory
      ensures Valid() && old(history) <= history && directory.publicKeys == old(directory.publicKeys)
      ensures k < |conns| && conns[k].handler == Idle && conns[k].accepted == old(conns[k].accepted)
      ensures match routing
              case Relayed(j) => j < |conns| && conns[j].username == m.to && Live(m) in conns[j].pushed
              case Queued(row) => row.message == m && row.recipient == m.to && row in directory.queuedMessages
              case Failed => m in conns[k].lost && (insertFails || directory.lastRowId >= MAX_ROW_ID)
              case Cancelled => m in conns[k].lost && !conns[k].receiving && !conns[k].open && (cancelAtLock || cancelAtInsert)
              case Rejected => false
      ensures var s := Foreigns(old(View()), beforeLookup, HandlerOf(k));
              && (routing.Relayed? ==> HasOpenChannel(s, m.to))
              && (HasOpenChannel(s, m.to) && beforeSend == [] && !cancelAtLock ==> routing.Relayed?)
    {
      hide Run, Ends, Foreign, Foreigns, Step;
      Interleave(beforeLookup, HandlerOf(k));
      if cancelAtLock && !conns[k].open {
        AbortReceiveTask(k);
        return Cancelled;
      }
      var recipient := FindRecipient(k, m);
      if recipient.Some? {
        var sent := TrySend(k, m, recipient.value.channel, beforeSend);
        if sent {
          return Relayed(recipient.value.channel);
        }
      }
      routing := QueueUnlessCancelled(k, m, beforeInsert, insertFails, cancelAtInsert);
    }

    /**
     * handle_encrypted_payload, with everything else running before the lock, before the send
     * and before the INSERT, and cancelled, once its own channel is gone, at either await. An
     * admitted frame takes one of four ways. It is relayed only if its addressee's registered channel
     * was open when the lock was taken, and then unless that channel closes before the send.
     */
    method HandleEncryptedPayload(k: nat, frame: string, beforeLookup: seq<Event>, beforeSend: seq<Event>, beforeInsert: seq<Event>,
                                insertFails: bool, cancelAtLock: bool, cancelAtInsert: bool)
      returns (routing: Routing)
      requires Valid() && k < |conns| && conns[k].receiving && conns[k].handler.Idle?
      modifies this, directory
      ensures Valid() && old(history) <= history && directory.publicKeys == old(directory.publicKeys)
      ensures k < |conns| && conns[k].handler == Idle
      ensures routing.Rejected? <==> !Admit(old(conns[k].username), frame).Admitted?
      ensures routing.Rejected? ==> conns == old(conns) && directory.queuedMessages == old(directory.queuedMessages)
      ensures !routing.Rejected? ==>
                var m := Message(k, |old(conns[k].accepted)|, Admit(old(conns[k].username), frame).to, Admit(old(conns[k].username), frame).payload, frame);
                conns[k].accepted == old(conns[k].accepted) + [m]
                && match routing
                   case Relayed(j) => j < |conns| && conns[j].username == m.to && Live(m) in conns[j].pushed
                   case Queued(row) => row.message == m && row.recipient == m.to && row in directory.queuedMessages
                   case Failed => m in conns[k].lost && (insertFails || directory.lastRowId >= MAX_ROW_ID)
                   case Cancelled => m in conns[k].lost && !conns[k].receiving && !conns[k].open && (cancelAtLock || cancelAtInsert)
                   case Rejected => false
      ensures !routing.Rejected? && !routing.Relayed? && !insertFails && !cancelAtLock && !cancelAtInsert && directory.lastRowId < MAX_ROW_ID ==>
                routing.Queued?
      ensures Step(old(View()), Frame(k, frame)).Some?
      ensures !routing.Rejected? ==>
                var to := Admit(old(conns[k].username), frame).to;
                var s := Foreigns(Step(old(View()), Frame(k, frame)).value, beforeLookup, HandlerOf(k));
                && (routing.Relayed? ==> HasOpenChannel(s, to))
                && (HasOpenChannel(s, to) && beforeSend == [] && !cancelAtLock ==> routing.Relayed?)
    {
      hide Run, Ends, Admit, Step, Foreigns;
      var accepted := CheckFrame(k, frame);
      if accepted.None? {
        return Rejected;
      }
      routing := Route(k, accepted.value, beforeLookup, beforeSend, beforeInsert, insertFails, cancelAtLock, cancelAtInsert);
    }

    // -------------------------------------------------------------- the key directory

    method RegisterPublicKey(registration: Wire.Entry, fails: bool) returns (reply: Reply<Wire.Entry>)
      requires Valid()
      modifies directory
      ensures Valid() && View() == old(View())
      ensures var valid := Wire.IsValidUsername(registration.username) && Wire.IsValidKeyText(registration.identityKey)
                           && Wire.IsValidKeyText(registration.encryptionKey);
              reply == if !valid then BadRequest else if fails then InternalError else Done(registration)
      ensures directory.publicKeys ==
              if reply.Done? then old(directory.publicKeys)[registration.username := registration] else old(directory.publicKeys)
    {
      hide Run, Wire.IsValidUsername, Wire.IsValidKeyText;
      if !Wire.IsValidUsername(registration.username) {
        return BadRequest;
      }
      if !Wire.IsValidKeyText(registration.identityKey) {
        return BadRequest;
      }
      if !Wire.IsValidKeyText(registration.encryptionKey) {
        return BadRequest;
      }
      var entry := directory.RegisterPublicKey(registration, fails);
      return if entry.Some? then Done(entry.value) else InternalError;
    }

    /** The reply to a lookup: only ever an entry of the name that was asked for. */
    method LookupPublicKey(username: string, fails: bool) returns (reply: Reply<Wire.Entry>)
      requires Valid()
      ensures reply == if !Wire.IsValidUsername(username) then BadRequest
                       else if fails then InternalError
                       else if username in directory.publicKeys then Done(directory.publicKeys[username]) else NotFound
      ensures reply.Done? ==>
                reply.value.username == username && Wire.IsValidKeyText(reply.value.identityKey) && Wire.IsValidKeyText(reply.value.encryptionKey)
    {
      hide Run, Wire.IsValidUsername, Wire.IsValidKeyText;
      if !Wire.IsValidUsername(username) {
        return BadRequest;
      }
      if fails {
        return InternalError;
      }
      var entry := directory.LookupPublicKey(username);
      return if entry.Some? then Done(entry.value) else NotFound;
    }
  }
}
