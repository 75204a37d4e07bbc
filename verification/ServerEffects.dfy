/** What each operation of the server does to every field, whether or not the invariant holds. */
module ServerEffects {
  import opened Sequences
  import opened Epoll
  import opened Server
  import T = TcpConnection

  /** The messages that the acts send to connection id, and the functors that they queue. */
  function MessagesTo(acts: seq<Act>, id: nat): seq<string> {
    if acts == [] then []
    else (if acts[0].Send? && acts[0].conn == id then [acts[0].message] else []) + MessagesTo(acts[1..], id)
  }

  function QueuedBy(acts: seq<Act>): seq<Task> {
    if acts == [] then [] else (if acts[0].QueueFunctor? then [User] else []) + QueuedBy(acts[1..])
  }

  lemma SetChannelTouches(s: State, id: nat, call: Call)
    requires id in s.conns && !call.Remove? && SetChannel(s, id, call).Ok?
    ensures var t := SetChannel(s, id, call).s;
            && SameBookkeeping(s, t) && t.conns.Keys == s.conns.Keys
            && (forall j <- s.conns :: j != id ==> t.conns[j] == s.conns[j])
            && t.conns[id] == s.conns[id].(index := t.conns[id].index, events := t.conns[id].events)
  {
  }

  /** `sendInLoop` passes on its message, takes from it what `write` takes when nothing waits, and buffers the rest. */
  lemma SendEffect(s: State, id: nat, message: string, answer: int)
    requires id in s.conns && Flows(s.conns[id]) && SendInLoop(s, id, message, answer).Ok?
    ensures var t := SendInLoop(s, id, message, answer).s;
            var c, d := s.conns[id].stream, t.conns[id].stream;
            var n := if c.output != "" || answer < 0 then 0 else if answer < |message| then answer else |message|;
            && SameBookkeeping(s, t) && t.conns.Keys == s.conns.Keys
            && (forall j <- s.conns :: j != id ==> t.conns[j] == s.conns[j])
            && t.conns[id].state == s.conns[id].state
            && d.passed == c.passed + message && d.accepted == c.accepted + message[..n]
            && d.output == c.output + message[n..] && d.shutdowns == c.shutdowns
  {
    T.SentLeaves(s.conns[id].stream, message, answer);
    hide T.Sent;
    var sent := T.Sent(s.conns[id].stream, message, answer);
    if sent.writing && !s.conns[id].events.write {
      SetChannelTouches(WithStream(s, id, sent), id, EnableWriting);
    }
    hide SetChannel;
  }

  /** `handleWrite` offers the whole output to `write` and drops what it takes. */
  lemma WriteEffect(s: State, id: nat, answer: int)
    requires id in s.conns && Flows(s.conns[id]) && HandleWrite(s, id, answer).Ok?
    ensures var t := HandleWrite(s, id, answer).s;
            var c, d := s.conns[id].stream, t.conns[id].stream;
            var n := if !s.conns[id].events.write || answer < 0 then 0
                     else if answer < |c.output| then answer else |c.output|;
            && SameBookkeeping(s, t) && t.conns.Keys == s.conns.Keys
            && (forall j <- s.conns :: j != id ==> t.conns[j] == s.conns[j])
            && t.conns[id].state == s.conns[id].state
            && d.passed == c.passed && d.accepted == c.accepted + c.output[..n] && d.output == c.output[n..]
            && d.shutdowns == c.shutdowns
  {
    var c := s.conns[id].stream;
    T.WrittenLeaves(c, answer);
    hide T.Written;
    var written := T.Written(c, answer);
    assert c.accepted + c.output[..0] == c.accepted && c.output[0..] == c.output;
    if s.conns[id].events.write && !written.writing {
      SetChannelTouches(WithStream(s, id, written), id, DisableWriting);
    }
    hide SetChannel;
  }

  /** `shutdownInLoop` issues the shutdown, with the output still unsent, exactly when the channel is not writing. */
  lemma ShutdownEffect(s: State, id: nat)
    requires id in s.conns && Flows(s.conns[id])
    ensures var t := ShutdownInLoop(s, id);
            var c, d := s.conns[id].stream, t.conns[id].stream;
            && t == s.(conns := t.conns) && t.conns == s.conns[id := s.conns[id].(stream := d)]
            && d == c.(shutdowns := c.shutdowns + if s.conns[id].events.write then [] else [c.output])
  {
    var c := s.conns[id].stream;
    assert c.shutdowns + [] == c.shutdowns;
  }

  /** The acts' messages are passed on to the connections that are Connected, and their functors are queued. */
  ghost predicate Delivered(s: State, t: State, acts: seq<Act>) {
    && SameBookkeeping(s.(pending := s.pending + QueuedBy(acts)), t) && t.conns.Keys == s.conns.Keys
    && (forall j <- s.conns :: t.conns[j].state == s.conns[j].state)
    && (forall j <- s.conns :: t.conns[j].stream.passed == s.conns[j].stream.passed
                               + if s.conns[j].state.Connected? then Concat(MessagesTo(acts, j)) else "")
  }

  ghost predicate DeliveredOne(s: State, t: State, act: Act) {
    && SameBookkeeping(s.(pending := s.pending + if act.QueueFunctor? then [User] else []), t)
    && t.conns.Keys == s.conns.Keys
    && (forall j <- s.conns :: t.conns[j].state == s.conns[j].state)
    && (forall j <- s.conns :: t.conns[j].stream.passed == s.conns[j].stream.passed
          + if act.Send? && act.conn == j && s.conns[j].state.Connected? then act.message else "")
  }

  lemma ActDelivers(s: State, act: Act)
    requires RunAct(s, act).Ok?
    ensures DeliveredOne(s, RunAct(s, act).s, act)
  {
    assert s.pending + [] == s.pending;
    if act.Send? && act.conn in s.conns && s.conns[act.conn].state.Connected? {
      var sent := T.Sent(s.conns[act.conn].stream, act.message, act.answer);
      if sent.writing && !s.conns[act.conn].events.write {
        SetChannelTouches(WithStream(s, act.conn, sent), act.conn, EnableWriting);
      }
    }
    hide SetChannel;
  }

  /** User code on the loop thread delivers every message that it sends to a Connected connection, in order, and
      queues every functor, in order. */
  lemma {:induction false} ActsDeliver(s: State, acts: seq<Act>)
    requires RunActs(s, acts).Ok?
    ensures Delivered(s, RunActs(s, acts).s, acts)
    decreases |acts|
  {
    if acts == [] {
      assert s.pending + [] == s.pending;
    } else {
      hide Delivered, DeliveredOne, RunAct;
      var t := RunAct(s, acts[0]).s;
      ActDelivers(s, acts[0]);
      ActsDeliver(t, acts[1..]);
      DeliveredThen(s, t, RunActs(t, acts[1..]).s, acts);
    }
  }

  lemma DeliveredThen(s: State, t: State, u: State, acts: seq<Act>)
    requires acts != [] && DeliveredOne(s, t, acts[0]) && Delivered(t, u, acts[1..])
    ensures Delivered(s, u, acts)
  {
    hide Concat, MessagesTo, QueuedBy;
    var first, rest := if acts[0].QueueFunctor? then [User] else [], QueuedBy(acts[1..]);
    QueuedStep(acts);
    assert s.pending + first + rest == s.pending + (first + rest);
    forall j <- s.conns
      ensures u.conns[j].stream.passed == s.conns[j].stream.passed
              + if s.conns[j].state.Connected? then Concat(MessagesTo(acts, j)) else ""
    {
      var connected, mine := s.conns[j].state.Connected?, acts[0].Send? && acts[0].conn == j;
      MessagesStep(acts, j);
      Passed(s.conns[j].stream.passed, connected, mine, if mine then acts[0].message else "",
             t.conns[j].stream.passed, Concat(MessagesTo(acts[1..], j)), u.conns[j].stream.passed);
    }
  }

  lemma Passed(before: string, connected: bool, mine: bool, message: string,
               between: string, rest: string, after: string)
    requires !mine ==> message == ""
    requires between == before + if mine && connected then message else ""
    requires after == between + if connected then rest else ""
    ensures after == before + if connected then message + rest else ""
  {
    if connected {
      assert before + message + rest == before + (message + rest);
    }
  }

  lemma QueuedStep(acts: seq<Act>)
    requires acts != []
    ensures QueuedBy(acts) == (if acts[0].QueueFunctor? then [User] else []) + QueuedBy(acts[1..])
  {
  }

  lemma MessagesStep(acts: seq<Act>, j: nat)
    requires acts != []
    ensures Concat(MessagesTo(acts, j)) ==
            (if acts[0].Send? && acts[0].conn == j then acts[0].message else "") + Concat(MessagesTo(acts[1..], j))
  {
    var mine := if acts[0].Send? && acts[0].conn == j then [acts[0].message] else [];
    ConcatAppend(mine, MessagesTo(acts[1..], j));
    if mine != [] {
      ConcatSnoc([], acts[0].message);
      assert [] + [acts[0].message] == mine;
    }
  }

  /** `handleClose` records the close, drops the connection from the server's list and queues its `connectDestroyed`
      last; its interest is gone and nothing else of any connection moves. */
  lemma CloseEffect(s: State, id: nat)
    requires id in s.conns && HandleClose(s, id).Ok?
    ensures var t := HandleClose(s, id).s;
            && t == s.(closed := s.closed + [id], connections := s.connections - {s.conns[id].name},
                       pending := s.pending + [Destroy(id)],
                       conns := t.conns, channelMap := t.channelMap, kernel := t.kernel)
            && t.conns.Keys == s.conns.Keys && (forall j <- s.conns :: j != id ==> t.conns[j] == s.conns[j])
            && t.conns[id].events == NOTHING && t.conns[id].state.Connected?
            && t.conns[id].stream == s.conns[id].stream.(writing := false, closed := true)
            && s.conns[id].name in s.connections
  {
  }

  /** `handleRead` by what it reads: nothing at all on an error, a close at the end of file, and with data exactly what
      the message callback does. */
  lemma ReadEffect(s: State, id: nat, read: ReadResult)
    requires id in s.conns && HandleRead(s, id, read).Ok?
    ensures var t := HandleRead(s, id, read).s;
            match read
            case ReadError => t == s
            case Eof =>
              && t.closed == s.closed + [id] && t.connections == s.connections - {s.conns[id].name}
              && s.conns[id].name in s.connections && t.pending == s.pending + [Destroy(id)]
              && t.conns[id].events == NOTHING
              && (forall j <- s.conns :: j in t.conns && t.conns[j].stream.passed == s.conns[j].stream.passed)
            case Data(acts) =>
              && t.closed == s.closed && t.connections == s.connections && t.pending == s.pending + QueuedBy(acts)
              && forall j <- s.conns :: j in t.conns && t.conns[j].stream.passed == s.conns[j].stream.passed
                   + if s.conns[j].state.Connected? then Concat(MessagesTo(acts, j)) else ""
  {
    match read
    case ReadError =>
    case Eof => CloseEffect(s, id); hide HandleClose;
    case Data(acts) => ActsDeliver(s, acts); hide RunActs, MessagesTo;
  }

  // ---- A whole report.

  /** Connection id was closed or not, and then the acts were done; no other record and no state differs. */
  ghost predicate Moved(s: State, t: State, id: nat, closed: bool, acts: seq<Act>) {
    && id in s.conns && t.conns.Keys == s.conns.Keys
    && t == s.(closed := t.closed, connections := t.connections, pending := t.pending,
               conns := t.conns, channelMap := t.channelMap, kernel := t.kernel)
    && t.closed == s.closed + (if closed then [id] else [])
    && t.connections == (if closed then s.connections - {s.conns[id].name} else s.connections)
    && t.pending == s.pending + (if closed then [Destroy(id)] else []) + QueuedBy(acts)
    && (forall j <- s.conns :: t.conns[j].state == s.conns[j].state)
    && t.conns[id].name == s.conns[id].name
    && (forall j <- s.conns :: t.conns[j].stream.passed == s.conns[j].stream.passed
                               + if s.conns[j].state.Connected? then Concat(MessagesTo(acts, j)) else "")
  }

  lemma NoActsQueueNothing(id: nat)
    ensures QueuedBy([]) == [] && Concat(MessagesTo([], id)) == ""
  {
  }

  lemma NothingMoves(s: State, id: nat)
    requires id in s.conns
    ensures Moved(s, s, id, false, [])
  {
    assert s.pending + [] + [] == s.pending && s.closed + [] == s.closed;
  }

  lemma CloseMoves(s: State, id: nat)
    requires id in s.conns && HandleClose(s, id).Ok?
    ensures Moved(s, HandleClose(s, id).s, id, true, [])
  {
    CloseEffect(s, id);
    var t := HandleClose(s, id).s;
    assert s.pending + [Destroy(id)] + [] == s.pending + [Destroy(id)];
    forall j <- s.conns
      ensures Concat(MessagesTo([], j)) == ""
    {
    }
    assert t.conns[id].name == s.conns[id].name;
    hide HandleClose;
  }

  lemma ActsMove(s: State, id: nat, acts: seq<Act>)
    requires id in s.conns && RunActs(s, acts).Ok?
    ensures Moved(s, RunActs(s, acts).s, id, false, acts)
  {
    hide RunActs, Concat, MessagesTo, QueuedBy;
    ActsDeliver(s, acts);
    ActsKeepIdentity(s, id, acts);
    NothingBetween(s.pending, QueuedBy(acts), s.closed);
  }

  lemma NothingBetween(pending: seq<Task>, queued: seq<Task>, closed: seq<nat>)
    ensures pending + [] + queued == pending + queued && closed + [] == closed
  {
  }

  lemma ActKeepsIdentity(s: State, id: nat, act: Act)
    requires id in s.conns && RunAct(s, act).Ok?
    ensures var c := RunAct(s, act).s.conns[id]; c.name == s.conns[id].name && c.fd == s.conns[id].fd
  {
    if act.Send? && act.conn in s.conns && s.conns[act.conn].state.Connected? {
      var sent := T.Sent(s.conns[act.conn].stream, act.message, act.answer);
      if sent.writing && !s.conns[act.conn].events.write {
        SetChannelTouches(WithStream(s, act.conn, sent), act.conn, EnableWriting);
      }
    }
    hide SetChannel;
  }

  lemma {:induction false} ActsKeepIdentity(s: State, id: nat, acts: seq<Act>)
    requires id in s.conns && RunActs(s, acts).Ok?
    ensures var c := RunActs(s, acts).s.conns[id]; c.name == s.conns[id].name && c.fd == s.conns[id].fd
    decreases |acts|
  {
    if acts != [] {
      hide RunAct;
      ActKeepsIdentity(s, id, acts[0]);
      ActsKeepIdentity(RunAct(s, acts[0]).s, id, acts[1..]);
    }
  }

  lemma ReadMoves(s: State, id: nat, read: ReadResult)
    requires id in s.conns && HandleRead(s, id, read).Ok?
    ensures Moved(s, HandleRead(s, id, read).s, id, read.Eof?, if read.Data? then read.acts else [])
  {
    hide Moved, HandleClose, RunActs;
    match read
    case ReadError => NothingMoves(s, id);
    case Eof => CloseMoves(s, id);
    case Data(acts) => ActsMove(s, id, acts);
  }

  lemma WriteMoves(s: State, id: nat, answer: int)
    requires id in s.conns && Flows(s.conns[id]) && HandleWrite(s, id, answer).Ok?
    ensures Moved(s, HandleWrite(s, id, answer).s, id, false, [])
  {
    WriteEffect(s, id, answer);
    NothingMoves(s, id);
    assert HandleWrite(s, id, answer).s.conns[id].name == s.conns[id].name;
    hide HandleWrite;
  }

  lemma MovedThenRead(s: State, t: State, u: State, id: nat, first: bool, second: bool, acts: seq<Act>)
    requires Moved(s, t, id, first, []) && Moved(t, u, id, second, acts) && !(first && second)
    ensures Moved(s, u, id, first || second, acts)
  {
    NoActsQueueNothing(id);
    hide Concat, QueuedBy;
    assert s.pending + (if first then [Destroy(id)] else []) + [] + (if second then [Destroy(id)] else [])
        == s.pending + (if first || second then [Destroy(id)] else []);
    forall j <- s.conns
      ensures t.conns[j].stream.passed == s.conns[j].stream.passed
    {
      NoActsQueueNothing(j);
    }
  }

  lemma MovedThenWritten(s: State, t: State, u: State, id: nat, closed: bool, acts: seq<Act>)
    requires Moved(s, t, id, closed, acts) && Moved(t, u, id, false, [])
    ensures Moved(s, u, id, closed, acts)
  {
    NoActsQueueNothing(id);
    hide Concat, QueuedBy;
    assert t.pending + [] + [] == t.pending && t.closed + [] == t.closed;
    forall j <- s.conns
      ensures u.conns[j].stream.passed == t.conns[j].stream.passed
    {
      NoActsQueueNothing(j);
    }
  }

  lemma ReportMoves(s: State, id: nat, r: Revents, read: ReadResult, written: int)
    requires Sound(s, -1) && Serving(s, id) && InHandler(s, id) && HandleReport(s, id, r, read, written).Ok?
    ensures var reading := r.input || r.pri || r.rdhup;
            Moved(s, HandleReport(s, id, r, read, written).s, id, (r.hup && !r.input) || (reading && read.Eof?),
                  if reading && read.Data? then read.acts else [])
  {
    hide Sound, Moved, HandleClose, HandleRead, HandleWrite, InHandler, Continues, Serving, Closing;
    var hangup, reading := r.hup && !r.input, r.input || r.pri || r.rdhup;
    StagesApart(s, id);
    HangupKeeps(s, id, hangup);
    NothingMoves(s, id);
    if hangup { CloseMoves(s, id); }
    var closed := if hangup then HandleClose(s, id).s else s;
    StagesApart(closed, id);
    var acts := if reading && read.Data? then read.acts else [];
    if reading {
      HandleReadKeeps(closed, id, read);
      ReadMoves(closed, id, read);
    } else {
      NothingMoves(closed, id);
    }
    var after := if reading then HandleRead(closed, id, read).s else closed;
    MovedThenRead(s, closed, after, id, hangup, reading && read.Eof?, acts);
    if r.output {
      FlowsIn(after, id);
      WriteMoves(after, id, written);
      MovedThenWritten(s, after, HandleWrite(after, id, written).s, id, hangup || (reading && read.Eof?), acts);
    }
  }

  lemma FlowsIn(s: State, id: nat)
    requires Sound(s, -1) && id in s.conns
    ensures Flows(s.conns[id])
  {
    hide Core, Staged, Records, Phased;
    FlowsAt(s.conns, id);
  }

  /** One report of a serving connection, whole. The connection is closed exactly when the report hangs up without input
      or is readable and reads 0; then and only then it is off the server's list, and its `connectDestroyed` is queued,
      before whatever the message callback queues. The callback runs exactly when data was read, and all its messages
      are passed on. */
  lemma ReportEffect(s: State, id: nat, r: Revents, read: ReadResult, written: int)
    requires Sound(s, -1) && Serving(s, id) && InHandler(s, id) && HandleReport(s, id, r, read, written).Ok?
    ensures var t := HandleReport(s, id, r, read, written).s;
            var closes := (r.hup && !r.input) || ((r.input || r.pri || r.rdhup) && read.Eof?);
            var acts := if (r.input || r.pri || r.rdhup) && read.Data? then read.acts else [];
            && id in s.conns && (id in t.closed <==> closes) && t.closed == s.closed + (if closes then [id] else [])
            && t.connections == (if closes then s.connections - {s.conns[id].name} else s.connections)
            && t.pending == s.pending + (if closes then [Destroy(id)] else []) + QueuedBy(acts)
            && (if closes then Closing(t, id) else Serving(t, id))
            && t.conns.Keys == s.conns.Keys && t.nextConnId == s.nextConnId && t.destroyed == s.destroyed
            && t.phase == s.phase
            && forall j <- s.conns :: t.conns[j].stream.passed == s.conns[j].stream.passed
                 + if s.conns[j].state.Connected? then Concat(MessagesTo(acts, j)) else ""
  {
    HandleReportFailsIff(s, id, r, read, written);
    ReportMoves(s, id, r, read, written);
    hide Sound, InHandler, Continues, HandleReport, Concat, MessagesTo, QueuedBy, Closing;
  }

  /** With nothing for the callbacks to do, a report that asks for output ends in exactly one `write` of all that is
      buffered, and any other report writes nothing. */
  lemma ReportWrites(s: State, id: nat, r: Revents, written: int)
    requires Sound(s, -1) && Serving(s, id) && InHandler(s, id) && !(r.hup && !r.input)
    requires HandleReport(s, id, r, ReadError, written).Ok?
    ensures var t := HandleReport(s, id, r, ReadError, written).s;
            && id in s.conns && id in t.conns
            && var c, d := s.conns[id].stream, t.conns[id].stream;
               var n := if !r.output || written < 0 then 0 else if written < |c.output| then written else |c.output|;
               d.accepted == c.accepted + c.output[..n] && d.output == c.output[n..]
  {
    hide Core, Staged, Records, Phased, HandleWrite;
    FlowsIn(s, id);
    StagesApart(s, id);
    var c := s.conns[id].stream;
    assert c.accepted + c.output[..0] == c.accepted && c.output[0..] == c.output;
    if r.output {
      WriteEffect(s, id, written);
    }
  }

  // ---- Opening and destroying.

  /** The server with its new connection established, before the connection callback. */
  function Prepared(s: State, fd: int): State
    requires SetChannel(WithNew(s, fd), s.nextConnId, EnableReading).Ok?
  {
    SetChannel(WithNew(s, fd), s.nextConnId, EnableReading).s
  }

  function WithNew(s: State, fd: int): (t: State)
    ensures s.nextConnId in t.conns
  {
    var id := s.nextConnId;
    s.(nextConnId := id + 1, openFds := s.openFds + {fd}, connections := s.connections[ConnName(id) := id],
       conns := s.conns[id := Conn(ConnName(id), fd, T.Connected, -1, NOTHING, T.NEW_STREAM)])
  }

  lemma OpenPrepares(s: State, fd: int, acts: seq<Act>)
    requires Sound(s, -1) && fd !in s.openFds
    ensures SetChannel(WithNew(s, fd), s.nextConnId, EnableReading).Ok?
    ensures var u, id := Prepared(s, fd), s.nextConnId;
            && NewConnection(s, fd, acts) == RunActs(u, acts)
            && SameBookkeeping(WithNew(s, fd), u) && u.conns.Keys == s.conns.Keys + {id} && id !in s.conns
            && (forall j <- s.conns :: u.conns[j] == s.conns[j])
            && u.conns[id].fd == fd && u.conns[id].state.Connected? && u.conns[id].stream.passed == ""
  {
    var t := WithNew(s, fd);
    assert Opened(s, t, fd);
    NewIsUnused(s);
    OpenKeepsCoreOf(s, t, fd);
    hide Sound, SetChannel;
    SetChannelTouches(t, s.nextConnId, EnableReading);
    EstablishUnfolds(s, fd, acts, t);
    hide NewConnection;
  }

  /** `newConnection` takes the next number, lists the connection under it and runs the connection callback once. */
  lemma OpenEffect(s: State, fd: int, acts: seq<Act>)
    requires Sound(s, -1) && fd !in s.openFds
    ensures NewConnection(s, fd, acts).Ok?
    ensures var t, id := NewConnection(s, fd, acts).s, s.nextConnId;
            && t.nextConnId == id + 1 && t.openFds == s.openFds + {fd} && t.phase == s.phase
            && t.closed == s.closed && t.destroyed == s.destroyed && t.pending == s.pending + QueuedBy(acts)
            && id in t.conns && t.conns[id].fd == fd && t.conns[id].state.Connected?
            && t.connections == s.connections[T.ConnectionName("", id) := id]
            && t.conns[id].stream.passed == Concat(MessagesTo(acts, id))
            && fd in t.kernel && t.kernel[fd].conn == id && t.kernel[fd].mask.read
            && t.conns.Keys == s.conns.Keys + {id} && id !in s.conns
            && forall j <- s.conns :: t.conns[j].stream.passed == s.conns[j].stream.passed
                 + if s.conns[j].state.Connected? then Concat(MessagesTo(acts, j)) else ""
  {
    hide Sound, Serving, NewConnection, SetChannel, RunActs, Concat, MessagesTo, QueuedBy, Continues, Prepared;
    NewConnectionKeeps(s, fd, acts);
    OpenPrepares(s, fd, acts);
    var id, u := s.nextConnId, Prepared(s, fd);
    ActsDeliver(u, acts);
    ServingIsRegistered(NewConnection(s, fd, acts).s, id);
    ActsKeepIdentity(u, id, acts);
  }

  lemma NewIsUnused(s: State)
    requires Sound(s, -1)
    ensures s.nextConnId !in s.conns
  {
    hide Core, Staged, Phased, Flowing;
  }

  lemma OpenKeepsCoreOf(s: State, t: State, fd: int)
    requires Sound(s, -1) && Opened(s, t, fd)
    ensures SetChannel(t, s.nextConnId, EnableReading).Ok?
  {
    hide Staged, Phased, Flowing, SetChannel;
    OpenKeepsCore(s, t, fd);
    SetChannelWorks(t, s.nextConnId, EnableReading);
  }

  lemma ServingIsRegistered(s: State, id: nat)
    requires Sound(s, -1) && Serving(s, id)
    ensures id in s.conns && s.conns[id].fd in s.kernel
    ensures s.kernel[s.conns[id].fd].conn == id && s.kernel[s.conns[id].fd].mask.read
  {
    hide Staged, Records, Phased, Flowing;
    AgreesAt(s, id);
  }

  /** The state in which the connection callback runs for the last time. */
  lemma DestroyPrepares(s: State, id: nat, acts: seq<Act>)
    requires Sound(s, id) && Destroying(s, id) && s.phase.RunningTasks?
    ensures SetChannel(MarkedDestroyed(s, id), id, DisableAll).Ok?
    ensures var u := SetChannel(MarkedDestroyed(s, id), id, DisableAll).s;
            && u.destroyed == s.destroyed + [id] && u.closed == s.closed && u.connections == s.connections
            && u.phase == s.phase && u.pending == s.pending && u.nextConnId == s.nextConnId
            && u.conns.Keys == s.conns.Keys && u.conns[id].state.Disconnected?
            && (forall j <- s.conns :: u.conns[j].stream.passed == s.conns[j].stream.passed)
            && (forall j <- s.conns :: j != id ==> u.conns[j].state == s.conns[j].state)
            && (RunActs(u, acts).Ok? ==> ConnectDestroyed(s, id, acts) == RemoveChannel(RunActs(u, acts).s, id))
  {
    hide Sound, SetChannel, RunActs, RemoveChannel;
    DisconnectWorks(s, id);
  }

  /** `connectDestroyed` is recorded, leaves the server's list alone and runs the connection callback once, when the
      connection is already Disconnected, so that a message to it goes nowhere. */
  lemma DestroyEffect(s: State, id: nat, acts: seq<Act>)
    requires Sound(s, id) && Destroying(s, id) && s.phase.RunningTasks?
    ensures ConnectDestroyed(s, id, acts).Ok?
    ensures var t := ConnectDestroyed(s, id, acts).s;
            && t.destroyed == s.destroyed + [id] && t.closed == s.closed && t.connections == s.connections
            && t.phase == s.phase && t.pending == s.pending + QueuedBy(acts) && t.nextConnId == s.nextConnId
            && id in t.conns && t.conns[id].state.Disconnected? && t.conns[id].index == -1
            && t.conns[id].stream.passed == s.conns[id].stream.passed
            && t.conns.Keys == s.conns.Keys
            && forall j <- s.conns :: (j != id ==>
                 t.conns[j].stream.passed == s.conns[j].stream.passed
                 + if s.conns[j].state.Connected? then Concat(MessagesTo(acts, j)) else "")
  {
    hide Sound, Destroying, Dead, DestroyedBy, SetChannel, ConnectDestroyed, RunActs, RemoveChannel;
    hide Concat, MessagesTo, QueuedBy;
    ConnectDestroyedWorks(s, id, acts);
    DestroyPrepares(s, id, acts);
    var u := SetChannel(MarkedDestroyed(s, id), id, DisableAll).s;
    DisconnectedRuns(s, id, acts);
    ActsDeliver(u, acts);
    RemovalTouches(RunActs(u, acts).s, id);
  }

  lemma DisconnectedRuns(s: State, id: nat, acts: seq<Act>)
    requires Sound(s, id) && Destroying(s, id) && s.phase.RunningTasks?
    ensures SetChannel(MarkedDestroyed(s, id), id, DisableAll).Ok?
    ensures RunActs(SetChannel(MarkedDestroyed(s, id), id, DisableAll).s, acts).Ok?
  {
    hide Sound, SetChannel, RunActs, Acted;
    DisconnectWorks(s, id);
    RunActsKeep(SetChannel(MarkedDestroyed(s, id), id, DisableAll).s, acts, id);
  }

  lemma RemovalTouches(s: State, id: nat)
    requires id in s.conns && RemoveChannel(s, id).Ok?
    ensures var t := RemoveChannel(s, id).s;
            && SameBookkeeping(s, t) && t.conns.Keys == s.conns.Keys
            && t.conns == s.conns[id := s.conns[id].(index := -1, events := NOTHING)]
  {
  }
}
