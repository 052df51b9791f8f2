/**
 * server/src/main.rs and server/src/directory.rs as one interleaved step system.
 *
 * A connection is identified by its position in `conns`; its AtomicU64 id is a separate field,
 * because that counter wraps around. A step is one lock section, one channel operation, one SQL
 * statement, or one event of a socket; any interleaving of steps of any connections is a run.
 * `accepted`, `lost`, `pushed`, `inserted`, `drained` and `firstLive` are history: no step reads
 * them, except that the channel's buffer is the part of `pushed` not yet written.
 */
module Relay {
  import opened Wrappers
  import Wire

  const ID_SPACE: nat := 0x1_0000_0000_0000_0000
  const MAX_ROW_ID: nat := 0x7FFF_FFFF_FFFF_FFFF

  /** An accepted frame: the no-th accepted frame of connection conn. */
  datatype Message = Message(conn: nat, no: nat, to: string, payload: string, frame: string)

  /** A row of queued_messages; its payload column is message.payload. */
  datatype Row = Row(id: nat, recipient: string, message: Message)

  /** What was pushed into an outbound channel: by a frame handler or by a drain. */
  datatype Item = Live(message: Message) | Drained(row: Row)

  datatype ActiveClient = ActiveClient(connectionId: nat, channel: nat)

  /** The local variables of deliver_queued_messages: the loaded rows, the row counter at the
      load, how many rows were pushed and how many of them deleted. */
  datatype Drain = NotLoaded | Loaded(snapshot: seq<Row>, horizon: nat, sent: nat, gone: nat)

  datatype Phase = Opened | Registered | Draining | DrainOver | Running | Closed

  /** Where handle_encrypted_payload stands: before the lock, holding a found channel, or at the INSERT. */
  datatype Handler = Idle | Routing(message: Message) | Found(message: Message, channel: nat) | Queueing(message: Message)

  datatype Connection = Connection(
    id: nat,
    username: string,
    phase: Phase,
    drain: Drain,
    handler: Handler,
    open: bool,       // the receiving half of the outbound channel still exists
    receiving: bool,  // receive_task has been spawned and not ended
    written: nat,     // how many pushed items were written to the socket
    pushed: seq<Item>,
    accepted: seq<Message>,
    lost: seq<Message>)

  datatype State = State(
    nextConnectionId: nat,
    firstLive: nat,   // connections before this one belong to earlier server processes
    conns: seq<Connection>,
    active: map<string, ActiveClient>,
    rows: seq<Row>,   // queued_messages in id order
    lastRowId: nat,   // the AUTOINCREMENT counter
    inserted: seq<Row>,
    drained: set<nat>)

  datatype Event =
    | Open(username: string)              // handle_socket starts and takes an id
    | Register(conn: nat)                 // active_clients.insert
    | Load(conn: nat) | LoadFail(conn: nat)
    | Push(conn: nat)                     // the drain sends its next row
    | Delete(conn: nat) | DeleteFail(conn: nat)
    | Spawn(conn: nat)                    // the drain returned; both tasks are spawned
    | Frame(conn: nat, frame: string)     // a binary frame arrives
    | Lookup(conn: nat)                   // active_clients.get
    | Send(conn: nat)                     // recipient.sender.send
    | Insert(conn: nat) | InsertFail(conn: nat)
    | Write(conn: nat) | WriteFail(conn: nat)
    | Hangup(conn: nat)                   // receive_task ends
    | CloseChannel(conn: nat)             // the aborted send_task is dropped
    | Abort(conn: nat)                    // the aborted receive_task is dropped
    | Unregister(conn: nat)
    | Restart                             // the server process ends and starts again

  const INITIAL := State(1, 0, [], map[], [], 0, [], {})

  // ---------------------------------------------------------------- pieces of steps

  datatype Admission = Malformed | WrongSender | BadRecipient | Admitted(to: string, payload: string)

  /** The checks of handle_encrypted_payload, in order. */
  function Admit(username: string, frame: string): Admission {
    match Wire.DecodeRouted(frame)
    case None => Malformed
    case Some(routed) =>
      var payload := Wire.EncodeEncrypted(routed.encrypted);
      if routed.from != username then WrongSender
      else if !Wire.IsValidUsername(routed.to) then BadRecipient
      else Admitted(routed.to, payload)
  }

  function NewConnection(id: nat, username: string): Connection {
    Connection(id, username, Opened, NotLoaded, Idle, true, false, 0, [], [], [])
  }

  /** SELECT ... WHERE recipient = ? ORDER BY id, on rows kept in id order. */
  function RowsFor(rows: seq<Row>, recipient: string): seq<Row> {
    if rows == [] then []
    else (if rows[0].recipient == recipient then [rows[0]] else []) + RowsFor(rows[1..], recipient)
  }

  /** DELETE ... WHERE id = ? */
  function WithoutRow(rows: seq<Row>, id: nat): seq<Row> {
    if rows == [] then []
    else (if rows[0].id == id then [] else [rows[0]]) + WithoutRow(rows[1..], id)
  }

  function Pending(h: Handler): seq<Message> {
    if h.Idle? then [] else [h.message]
  }

  /** Everything of a connection's tasks goes away when the process ends. */
  function Crashed(c: Connection): Connection {
    c.(phase := Closed, open := false, receiving := false, handler := Idle, lost := c.lost + Pending(c.handler))
  }

  function AllCrashed(conns: seq<Connection>): (r: seq<Connection>)
    ensures |r| == |conns|
    ensures forall i :: 0 <= i < |conns| ==> r[i] == Crashed(conns[i])
  {
    seq(|conns|, i requires 0 <= i < |conns| => Crashed(conns[i]))
  }

  /** active_clients without username, if the entry still carries this connection id. */
  function Unregistered(active: map<string, ActiveClient>, username: string, id: nat): map<string, ActiveClient> {
    if username in active && active[username].connectionId == id then active - {username} else active
  }

  /** The next step of the drain, when there is a row to push. */
  predicate CanPush(c: Connection) {
    c.phase == Draining && c.drain.Loaded? && c.drain.sent == c.drain.gone < |c.drain.snapshot|
  }

  /** The last pushed row of a drain has not been deleted yet. */
  predicate AwaitsDelete(c: Connection) {
    c.phase == Draining && c.drain.Loaded? && 0 < c.drain.sent <= |c.drain.snapshot| && c.drain.sent == c.drain.gone + 1
  }

  predicate DrainReturns(c: Connection) {
    c.phase == DrainOver || (c.phase == Draining && c.drain.Loaded? && c.drain.sent == c.drain.gone == |c.drain.snapshot|)
  }

  // ---------------------------------------------------------------- steps of one connection

  /** Steps that read and change nothing but their own connection. */
  function LocalStep(c: Connection, e: Event): Option<Connection> {
    match e
    case LoadFail(_) => if c.phase == Registered then Some(c.(phase := DrainOver)) else None
    case DeleteFail(_) => if AwaitsDelete(c) then Some(c.(phase := DrainOver)) else None
    case Spawn(_) => if DrainReturns(c) then Some(c.(phase := Running, receiving := true)) else None
    case Frame(k, frame) =>
      if !c.receiving || !c.handler.Idle? then None
      else
        (match Admit(c.username, frame)
         case Admitted(to, payload) =>
           var m := Message(k, |c.accepted|, to, payload, frame);
           Some(c.(handler := Routing(m), accepted := c.accepted + [m]))
         case _ => Some(c))
    case InsertFail(_) =>
      if c.handler.Queueing? then Some(c.(handler := Idle, lost := c.lost + [c.handler.message])) else None
    case Write(_) =>
      if c.phase in {Running, Closed} && c.open && c.written < |c.pushed| then Some(c.(written := c.written + 1)) else None
    case WriteFail(_) =>
      if c.phase in {Running, Closed} && c.open && c.written < |c.pushed| then Some(c.(open := false)) else None
    case Hangup(_) => if c.receiving && c.handler.Idle? then Some(c.(receiving := false)) else None
    case CloseChannel(_) => if c.phase in {Running, Closed} && c.open && !c.receiving then Some(c.(open := false)) else None
    case Abort(_) =>
      // tokio drops an aborted task at an await, and there is none between the lookup and the send
      if c.receiving && !c.open && !c.handler.Found? then
        Some(c.(receiving := false, handler := Idle, lost := c.lost + Pending(c.handler)))
      else None
    case _ => None
  }

  // ---------------------------------------------------------------- steps that touch shared state

  predicate SendsTo(s: State, c: Connection, j: nat) {
    c.handler.Found? && c.handler.channel == j < |s.conns| && s.conns[j].open
  }

  /** What a step of a connection does to that connection; None when it is not possible. */
  function OwnStep(s: State, e: Event, c: Connection): Option<Connection> {
    match e
    case Register(_) => if c.phase == Opened then Some(c.(phase := Registered)) else None
    case Load(_) =>
      if c.phase == Registered then
        Some(c.(phase := Draining, drain := Loaded(RowsFor(s.rows, c.username), s.lastRowId, 0, 0)))
      else None
    case Push(_) =>
      if !CanPush(c) then None
      else if !c.open then Some(c.(phase := DrainOver))
      else Some(c.(pushed := c.pushed + [Drained(c.drain.snapshot[c.drain.sent])], drain := c.drain.(sent := c.drain.sent + 1)))
    case Delete(_) => if AwaitsDelete(c) then Some(c.(drain := c.drain.(gone := c.drain.gone + 1))) else None
    case Lookup(_) =>
      if !c.handler.Routing? then None
      else
        var m := c.handler.message;
        Some(c.(handler := if m.to in s.active then Found(m, s.active[m.to].channel) else Queueing(m)))
    case Send(_) =>
      if !c.handler.Found? || c.handler.channel >= |s.conns| then None
      else Some(c.(handler := if SendsTo(s, c, c.handler.channel) then Idle else Queueing(c.handler.message)))
    case Insert(_) => if c.handler.Queueing? && s.lastRowId < MAX_ROW_ID then Some(c.(handler := Idle)) else None
    case Unregister(_) => if c.phase == Running && !(c.open && c.receiving) then Some(c.(phase := Closed)) else None
    case _ => LocalStep(c, e)
  }

  /** The channels after a step: a Send to an open channel appends to it. */
  function ChannelsAfter(s: State, e: Event, c: Connection, conns: seq<Connection>): seq<Connection>
    requires |conns| == |s.conns|
  {
    if e.Send? && c.handler.Found? && SendsTo(s, c, c.handler.channel) then
      var j := c.handler.channel;
      conns[j := conns[j].(pushed := conns[j].pushed + [Live(c.handler.message)])]
    else conns
  }

  function ActiveAfter(s: State, e: Event, c: Connection): map<string, ActiveClient> {
    match e
    case Register(k) => s.active[c.username := ActiveClient(c.id, k)]
    case Unregister(_) => Unregistered(s.active, c.username, c.id)
    case _ => s.active
  }

  /** The row a Insert step appends. */
  function NewRows(s: State, e: Event, c: Connection): seq<Row> {
    if e.Insert? && c.handler.Queueing? then [Row(s.lastRowId + 1, c.handler.message.to, c.handler.message)] else []
  }

  function RowsAfter(s: State, e: Event, c: Connection): seq<Row> {
    if e.Delete? && AwaitsDelete(c) then WithoutRow(s.rows, c.drain.snapshot[c.drain.gone].id)
    else s.rows + NewRows(s, e, c)
  }

  function DrainedAfter(s: State, e: Event, c: Connection): set<nat> {
    if e.Push? && CanPush(c) && c.open then s.drained + {c.drain.snapshot[c.drain.sent].id} else s.drained
  }

  /** One step of connection k. */
  function ConnectionStep(s: State, e: Event, k: nat): Option<State>
    requires k < |s.conns|
  {
    var c := s.conns[k];
    match OwnStep(s, e, c)
    case None => None
    case Some(c') =>
      Some(s.(conns := ChannelsAfter(s, e, c, s.conns[k := c']),
              active := ActiveAfter(s, e, c),
              rows := RowsAfter(s, e, c),
              lastRowId := s.lastRowId + |NewRows(s, e, c)|,
              inserted := s.inserted + NewRows(s, e, c),
              drained := DrainedAfter(s, e, c)))
  }

  /** One step of the relay; None when the step is not possible in s. */
  function Step(s: State, e: Event): Option<State> {
    match e
    case Open(username) =>
      if !Wire.IsValidUsername(username) then None
      else Some(s.(conns := s.conns + [NewConnection(s.nextConnectionId, username)],
                   nextConnectionId := (s.nextConnectionId + 1) % ID_SPACE))
    case Restart =>
      Some(s.(nextConnectionId := 1, firstLive := |s.conns|, conns := AllCrashed(s.conns), active := map[]))
    case _ => if e.conn < |s.conns| then ConnectionStep(s, e, e.conn) else None
  }

  /** The state after a run, or None if some event was not possible when its turn came. */
  function Run(run: seq<Event>): Option<State> {
    if run == [] then Some(INITIAL)
    else
      match Run(run[..|run| - 1])
      case None => None
      case Some(s) => Step(s, run[|run| - 1])
  }
}
