/** The life of connections in a single-loop server: net/TcpServer.cc with the loop (net/EventLoop.cc), the dispatch
    of one report (net/Channel.cc) and the epoller's bookkeeping (module Epoll), as one state machine. */
module Server {
  import opened Sequences
  import opened Epoll
  import T = TcpConnection

  /** A live TcpConnection with its channel and its output. */
  datatype Conn = Conn(name: string, fd: int, state: T.ConnState, index: int, events: Interest, stream: T.Stream)

  /** What a call from another thread leaves for the loop: `sendInLoop` or `shutdownInLoop`. */
  datatype Work = SendWork(message: string) | ShutdownWork

  /** A functor that the loop will run: a `connectDestroyed` that holds its connection, work bound to the bare address
      of a connection, or user code. */
  datatype Task = Destroy(conn: nat) | Raw(conn: nat, work: Work) | User

  /** An entry of `activeChannels_`. */
  datatype Active = ConnChannel(conn: nat, revents: Revents) | AcceptorChannel | OtherChannel

  datatype Phase = Polling | Dispatching(active: seq<Active>) | RunningTasks(batch: seq<Task>)

  datatype Entry = Entry(mask: Interest, conn: nat)

  /** `conns` are the TcpConnection objects not destructed, by identity; `connections` is `connections_`; `openFds`
      are the descriptors in use in the process. `sending` are the functors that other threads have made and not yet
      queued. `closed` and `destroyed` are the histories of `handleClose` and `connectDestroyed`. */
  datatype State = State(
    phase: Phase, conns: map<nat, Conn>, connections: map<string, nat>,
    channelMap: map<int, nat>, kernel: map<int, Entry>, pending: seq<Task>, sending: multiset<Task>, nextConnId: nat,
    openFds: set<int>, closed: seq<nat>, destroyed: seq<nat>)

  /** The asserts of the source that these operations can meet, and the two ways to follow a dead pointer. */
  datatype Assertion = FdAlreadyMapped | NotMapped | StillInterested | NotConnecting | NotConnected | EraseNotOne
                     | DanglingChannel | DanglingConnection

  datatype Result = Ok(s: State) | Failed(assertion: Assertion) {
    predicate IsFailure() {
      Failed?
    }

    function PropagateFailure(): Result
      requires Failed?
    {
      this
    }

    function Extract(): State
      requires Ok?
    {
      s
    }
  }

  function Need(condition: bool, assertion: Assertion, s: State): Result {
    if condition then Ok(s) else Failed(assertion)
  }

  // ---- The channel of a connection, through the view of module Epoll.

  function ViewOf(s: State, id: nat): View
    requires id in s.conns
  {
    var c := s.conns[id];
    View(c.index, c.events, c.fd in s.channelMap && s.channelMap[c.fd] == id,
         if c.fd in s.kernel && s.kernel[c.fd].conn == id then Some(s.kernel[c.fd].mask) else None)
  }

  function Install(s: State, id: nat, v: View): (t: State)
    requires id in s.conns
    ensures t.conns.Keys == s.conns.Keys
  {
    var c := s.conns[id];
    s.(conns := s.conns[id := c.(index := v.index, events := v.events)],
       channelMap := if v.mapped then s.channelMap[c.fd := id] else s.channelMap - {c.fd},
       kernel := if v.kernel.Some? then s.kernel[c.fd := Entry(v.kernel.value, id)] else s.kernel - {c.fd})
  }

  /** A setter of the channel followed by `updateChannel`. */
  function SetChannel(s: State, id: nat, call: Call): (r: Result)
    requires id in s.conns && !call.Remove?
    ensures r.Ok? ==> r.s.conns.Keys == s.conns.Keys
  {
    var v := ViewOf(s, id);
    var t :- Need(v.index != -1 || s.conns[id].fd !in s.channelMap, FdAlreadyMapped, s);
    Ok(Install(t, id, Applied(v, call)))
  }

  /** `removeChannel`. */
  function RemoveChannel(s: State, id: nat): (r: Result)
    requires id in s.conns
    ensures r.Ok? ==> r.s.conns.Keys == s.conns.Keys
  {
    var v := ViewOf(s, id);
    var t :- Need(v.mapped, NotMapped, s);
    var u :- Need(v.events == NOTHING, StillInterested, t);
    Ok(Install(u, id, Removed(v)))
  }

  // ---- TcpConnection and TcpServer. The output moves as the methods of class TcpConnection promise.

  /** What user code on the loop thread does with a connection it holds: send (`answer` is what a direct write
      returns), shut down; or it queues a functor. */
  datatype Act = Send(conn: nat, message: string, answer: int) | Shutdown(conn: nat) | QueueFunctor

  function WithStream(s: State, id: nat, stream: T.Stream): State
    requires id in s.conns
  {
    s.(conns := s.conns[id := s.conns[id].(stream := stream)])
  }

  /** It tests no state. */
  function SendInLoop(s: State, id: nat, message: string, answer: int): (r: Result)
    requires id in s.conns
    ensures r.Ok? ==> r.s.conns.Keys == s.conns.Keys
  {
    var c := s.conns[id];
    var sent := T.Sent(c.stream, message, answer);
    var t := WithStream(s, id, sent);
    if sent.writing && !c.events.write then SetChannel(t, id, EnableWriting) else Ok(t)
  }

  /** Nor does it. */
  function ShutdownInLoop(s: State, id: nat): (t: State)
    requires id in s.conns
    ensures t.conns.Keys == s.conns.Keys
  {
    WithStream(s, id, T.StreamStep(s.conns[id].stream, T.Shutdown))
  }

  function RunActs(s: State, acts: seq<Act>): (r: Result)
    ensures r.Ok? ==> r.s.conns.Keys == s.conns.Keys
    decreases |acts|
  {
    if acts == [] then Ok(s)
    else
      var t :- RunAct(s, acts[0]);
      RunActs(t, acts[1..])
  }

  /** `send` does nothing unless the connection is Connected. */
  function RunAct(s: State, act: Act): (r: Result)
    ensures r.Ok? ==> r.s.conns.Keys == s.conns.Keys
  {
    match act
    case QueueFunctor => Ok(s.(pending := s.pending + [User]))
    case Send(id, message, answer) =>
      if id in s.conns && s.conns[id].state.Connected? then SendInLoop(s, id, message, answer) else Ok(s)
    case Shutdown(id) => if id in s.conns then Ok(ShutdownInLoop(s, id)) else Ok(s)
  }

  /** `removeConnection`, which on the loop thread runs `removeConnectionInLoop` at once. */
  function RemoveConnection(s: State, id: nat): (r: Result)
    requires id in s.conns
    ensures r.Ok? ==> r.s.conns.Keys == s.conns.Keys
  {
    var t :- Need(s.conns[id].name in s.connections, EraseNotOne, s);
    Ok(t.(connections := t.connections - {s.conns[id].name}, pending := t.pending + [Destroy(id)]))
  }

  function HandleClose(s: State, id: nat): (r: Result)
    requires id in s.conns
    ensures r.Ok? ==> r.s.conns.Keys == s.conns.Keys
  {
    var t :- Need(s.conns[id].state.Connected?, NotConnected, s.(closed := s.closed + [id]));
    var u :- SetChannel(WithStream(t, id, T.StreamStep(t.conns[id].stream, T.Close)), id, DisableAll);
    RemoveConnection(u, id)
  }

  /** What `readFd` answered, and what the message callback does with data. */
  datatype ReadResult = ReadError | Eof | Data(acts: seq<Act>)

  function HandleRead(s: State, id: nat, read: ReadResult): (r: Result)
    requires id in s.conns
    ensures r.Ok? ==> r.s.conns.Keys == s.conns.Keys
  {
    match read
    case ReadError => Ok(s)
    case Eof => HandleClose(s, id)
    case Data(acts) => RunActs(s, acts)
  }

  function HandleWrite(s: State, id: nat, answer: int): (r: Result)
    requires id in s.conns
    ensures r.Ok? ==> r.s.conns.Keys == s.conns.Keys
  {
    var c := s.conns[id];
    var written := T.Written(c.stream, answer);
    var t := WithStream(s, id, written);
    if c.events.write && !written.writing then SetChannel(t, id, DisableWriting) else Ok(t)
  }

  /** `Channel::handler`: close, error, read, write, in this order. */
  function HandleReport(s: State, id: nat, r: Revents, read: ReadResult, written: int): (t: Result)
    requires id in s.conns
    ensures t.Ok? ==> t.s.conns.Keys == s.conns.Keys
  {
    var afterClose :- if r.hup && !r.input then HandleClose(s, id) else Ok(s);
    var afterRead :- if r.input || r.pri || r.rdhup then HandleRead(afterClose, id, read) else Ok(afterClose);
    if r.output then HandleWrite(afterRead, id, written) else Ok(afterRead)
  }

  /** The names of one server share its prefix, which is left out. */
  function ConnName(id: nat): string {
    T.ConnectionName("", id)
  }

  /** `newConnection` and the `connectEstablished` it runs at once on the loop thread. */
  function NewConnection(s: State, fd: int, acts: seq<Act>): Result {
    var id := s.nextConnId;
    var conn := Conn(ConnName(id), fd, T.Connecting, -1, NOTHING, T.NEW_STREAM);
    var t := s.(nextConnId := id + 1, conns := s.conns[id := conn], connections := s.connections[conn.name := id],
                openFds := s.openFds + {fd});
    ConnectEstablished(t, id, acts)
  }

  function ConnectEstablished(s: State, id: nat, acts: seq<Act>): (r: Result)
    requires id in s.conns
    ensures r.Ok? ==> r.s.conns.Keys == s.conns.Keys
  {
    var t :- Need(s.conns[id].state.Connecting?, NotConnecting,
                  s.(conns := s.conns[id := s.conns[id].(state := T.Connected)]));
    var u :- SetChannel(t, id, EnableReading);
    RunActs(u, acts)
  }

  function Disconnected(c: Conn): Conn {
    c.(state := T.Disconnected, stream := c.stream.(writing := false))
  }

  /** `connectDestroyed`: disconnected, no interest, the connection callback, then off the epoller. */
  function ConnectDestroyed(s: State, id: nat, acts: seq<Act>): (r: Result)
    requires id in s.conns
    ensures r.Ok? ==> r.s.conns.Keys == s.conns.Keys
  {
    var t :- Need(s.conns[id].state.Connected?, NotConnected,
                  s.(conns := s.conns[id := Disconnected(s.conns[id])], destroyed := s.destroyed + [id]));
    var u :- SetChannel(t, id, DisableAll);
    var w :- RunActs(u, acts);
    RemoveChannel(w, id)
  }

  // ---- The invariant.

  function Tasks(s: State): seq<Task> {
    (if s.phase.RunningTasks? then s.phase.batch else []) + s.pending
  }

  /** Every channel agrees with the epoller and the kernel; no two live connections share a descriptor; the epoller,
      the kernel and the server refer to live connections only. */
  ghost predicate Core(s: State) {
    && (forall id <- s.conns :: Agrees(ViewOf(s, id)))
    && (forall i, j | i in s.conns && j in s.conns && i != j :: s.conns[i].fd != s.conns[j].fd)
    && (forall fd <- s.channelMap :: s.channelMap[fd] in s.conns && s.conns[s.channelMap[fd]].fd == fd)
    && (forall fd <- s.kernel :: s.kernel[fd].conn in s.conns && s.conns[s.kernel[fd].conn].fd == fd)
  }

  predicate SameBookkeeping(s: State, t: State) {
    t == s.(conns := t.conns, channelMap := t.channelMap, kernel := t.kernel)
  }

  /** A connection's output is exact, and its stream writes exactly while its channel asks for write events. */
  ghost predicate Flows(c: Conn) {
    T.StreamOK(c.stream) && c.stream.writing == c.events.write
  }

  ghost predicate Flowing(conns: map<nat, Conn>) {
    forall id <- conns :: Flows(conns[id])
  }

  lemma FlowsAt(conns: map<nat, Conn>, id: nat)
    requires Flowing(conns) && id in conns
    ensures Flows(conns[id])
  {
  }

  lemma FlowKept(conns: map<nat, Conn>, id: nat, c: Conn)
    requires Flowing(conns) && Flows(c)
    ensures Flowing(conns[id := c])
  {
  }

  lemma InstallKeepsOthers(s: State, id: nat, v: View)
    requires Core(s) && id in s.conns && Agrees(v)
    ensures Core(Install(s, id, v)) && ViewOf(Install(s, id, v), id) == v
    ensures Install(s, id, v).conns == s.conns[id := s.conns[id].(index := v.index, events := v.events)]
  {
    var t := Install(s, id, v);
    forall j <- s.conns | j != id
      ensures ViewOf(t, j) == ViewOf(s, j)
    {
    }
  }

  lemma SetChannelWorks(s: State, id: nat, call: Call)
    requires Core(s) && id in s.conns && !call.Remove?
    ensures var v := Applied(ViewOf(s, id), call);
            && SetChannel(s, id, call).Ok?
            && var t := SetChannel(s, id, call).s;
            && Core(t) && SameBookkeeping(s, t) && ViewOf(t, id) == v
            && t.conns == s.conns[id := s.conns[id].(index := v.index, events := v.events)]
  {
    CallAgrees(ViewOf(s, id), call);
    InstallKeepsOthers(s, id, Applied(ViewOf(s, id), call));
  }

  lemma RemoveChannelWorks(s: State, id: nat)
    requires Core(s) && id in s.conns && s.conns[id].index != -1 && s.conns[id].events == NOTHING
    ensures && RemoveChannel(s, id).Ok?
            && var t := RemoveChannel(s, id).s;
            && Core(t) && SameBookkeeping(s, t)
            && t.conns == s.conns[id := s.conns[id].(index := -1, events := NOTHING)]
            && s.conns[id].fd !in t.channelMap && s.conns[id].fd !in t.kernel
  {
    CallAgrees(ViewOf(s, id), Call.Remove);
    InstallKeepsOthers(s, id, UNREGISTERED);
  }

  predicate ListensAsServing(c: Conn) {
    c.index == 1 && c.events.read && !c.stream.closed
  }

  /** Serving: listed by the server, connected, reading, never closed, no `connectDestroyed` queued. With its flow this
      makes it ask for write events exactly while output is unsent. */
  ghost predicate Serving(s: State, id: nat) {
    && id in s.conns && s.conns[id].name in s.connections && s.conns[id].state.Connected?
    && ListensAsServing(s.conns[id])
    && Destroy(id) !in Tasks(s) && id !in s.closed && id !in s.destroyed
  }

  /** Closing: closed once, off the server's list, exactly one `connectDestroyed` queued; still Connected. */
  ghost predicate Closing(s: State, id: nat) {
    && id in s.conns && s.conns[id].name !in s.connections && s.conns[id].state.Connected?
    && s.conns[id].index != -1 && s.conns[id].stream.closed
    && multiset(Tasks(s))[Destroy(id)] == 1 && id in s.closed && id !in s.destroyed
  }

  /** Dead: closed and destroyed once each, off the epoller; kept alive by references only. */
  ghost predicate Dead(s: State, id: nat) {
    && id in s.conns && s.conns[id].name !in s.connections && s.conns[id].state.Disconnected?
    && s.conns[id].index == -1 && s.conns[id].events == NOTHING
    && Destroy(id) !in Tasks(s) && id in s.closed && id in s.destroyed
  }

  /** Every live connection but `except` is in one of the three stages. */
  ghost predicate Staged(s: State, except: int) {
    forall id <- s.conns :: id == except || Serving(s, id) || Closing(s, id) || Dead(s, id)
  }

  ghost predicate NoDuplicates(ids: seq<nat>) {
    forall i, j | 0 <= i < j < |ids| :: ids[i] != ids[j]
  }

  /** Names are the numbers connections got, numbers are never used again, tasks and descriptors are accounted for. */
  ghost predicate Records(s: State) {
    && (forall id <- s.conns :: id < s.nextConnId && s.conns[id].name == ConnName(id) && s.conns[id].fd in s.openFds)
    && (forall n <- s.connections :: s.connections[n] in s.conns && s.conns[s.connections[n]].name == n)
    && (forall id: nat :: Destroy(id) in Tasks(s) ==> id in s.conns && s.conns[id].state.Connected?)
    && NoDuplicates(s.closed) && NoDuplicates(s.destroyed)
    && (forall id <- s.closed :: id < s.nextConnId && (id in s.conns || id in s.destroyed))
    && (forall id <- s.destroyed :: id in s.closed)
  }

  /** No channel is closed between the poll that reported it and its handler; closings end with the pass. */
  ghost predicate Phased(s: State) {
    match s.phase
    case Polling => forall id: nat :: Destroy(id) !in s.pending
    case Dispatching(active) =>
      && (forall i | 0 <= i < |active| && active[i].ConnChannel? :: Serving(s, active[i].conn))
      && (forall i, j | 0 <= i < j < |active| && active[i].ConnChannel? && active[j].ConnChannel? ::
            active[i].conn != active[j].conn)
    case RunningTasks(_) => forall id: nat :: Destroy(id) !in s.pending
  }

  ghost predicate Invariant(s: State) {
    Sound(s, -1)
  }

  /** The step changed at most the channel and the output of one connection. */
  ghost predicate Touched(s: State, t: State, id: nat) {
    && id in s.conns && SameBookkeeping(s, t)
    && t.conns.Keys == s.conns.Keys
    && (forall j <- s.conns :: j != id ==> t.conns[j] == s.conns[j])
    && t.conns[id] == s.conns[id].(index := t.conns[id].index, events := t.conns[id].events,
                                   stream := t.conns[id].stream)
  }

  /** The connection still is what its stage asks of its channel. */
  ghost predicate FitsStage(s: State, t: State, id: nat)
    requires id in t.conns
  {
    && (Serving(s, id) ==> ListensAsServing(t.conns[id]))
    && (Closing(s, id) ==> t.conns[id].index != -1 && t.conns[id].stream.closed)
    && (Dead(s, id) ==> t.conns[id].index == -1 && t.conns[id].events == NOTHING)
  }

  lemma TouchKeepsStage(s: State, t: State, id: nat, j: nat)
    requires Touched(s, t, id) && FitsStage(s, t, id) && j in s.conns
    ensures Serving(s, j) ==> Serving(t, j)
    ensures Closing(s, j) ==> Closing(t, j)
    ensures Dead(s, j) ==> Dead(t, j)
  {
    assert Tasks(t) == Tasks(s);
    hide Tasks;
  }

  lemma TouchKeepsRecords(s: State, t: State, id: nat)
    requires Touched(s, t, id) && Records(s)
    ensures Records(t)
  {
    assert Tasks(t) == Tasks(s);
    hide Tasks;
  }

  lemma TouchKeepsStages(s: State, t: State, id: nat, except: int)
    requires Touched(s, t, id) && Staged(s, except) && Records(s) && Phased(s) && FitsStage(s, t, id)
    ensures Staged(t, except) && Records(t) && Phased(t)
  {
    hide Records, Phased, FitsStage, Serving, Closing, Dead;
    TouchKeepsRecords(s, t, id);
    forall j <- s.conns
      ensures Serving(s, j) ==> Serving(t, j)
      ensures Closing(s, j) ==> Closing(t, j)
      ensures Dead(s, j) ==> Dead(t, j)
    {
      TouchKeepsStage(s, t, id, j);
    }
    forall j: nat | Serving(s, j)
      ensures Serving(t, j)
    {
      ServingIsLive(s, j);
    }
    PhaseFollowsStages(s, t);
  }

  lemma SameChannelFits(s: State, id: nat, stream: T.Stream)
    requires id in s.conns && stream.closed == s.conns[id].stream.closed
    ensures FitsStage(s, WithStream(s, id, stream), id) && Touched(s, WithStream(s, id, stream), id)
  {
  }

  lemma QueueKeepsStage(s: State, task: Task, j: nat)
    requires j in s.conns && !task.Destroy?
    ensures var t := s.(pending := s.pending + [task]);
            && (Serving(s, j) ==> Serving(t, j)) && (Closing(s, j) ==> Closing(t, j)) && (Dead(s, j) ==> Dead(t, j))
  {
    assert Tasks(s.(pending := s.pending + [task])) == Tasks(s) + [task];
  }

  lemma QueueKeepsRecords(s: State, task: Task)
    requires Records(s) && !task.Destroy?
    ensures Records(s.(pending := s.pending + [task]))
  {
    assert Tasks(s.(pending := s.pending + [task])) == Tasks(s) + [task];
  }

  /** Queueing anything but a `connectDestroyed` disturbs no connection. */
  lemma QueueKeeps(s: State, task: Task, except: int)
    requires Sound(s, except) && !task.Destroy?
    ensures var t := s.(pending := s.pending + [task]); Sound(t, except) && (task.User? ==> Acted(s, t))
  {
    var t := s.(pending := s.pending + [task]);
    CoreIgnores(s, t);
    QueueKeepsRecords(s, task);
    hide Core, Records, Flowing, Serving, Closing, Dead;
    forall j <- s.conns
      ensures Serving(s, j) ==> Serving(t, j)
      ensures Closing(s, j) ==> Closing(t, j)
      ensures Dead(s, j) ==> Dead(t, j)
    {
      QueueKeepsStage(s, task, j);
    }
    if s.phase.Dispatching? {
      forall i | 0 <= i < |s.phase.active| && s.phase.active[i].ConnChannel?
        ensures Serving(t, s.phase.active[i].conn)
      {
        ServingIsLive(s, s.phase.active[i].conn);
      }
    }
  }

  /** All of the invariant, the stage of `except` aside. */
  ghost predicate Sound(s: State, except: int) {
    Core(s) && Staged(s, except) && Records(s) && Phased(s) && Flowing(s.conns)
  }

  /** `longer` is `shorter` with user functors added. */
  ghost predicate GrowsByUsers(shorter: seq<Task>, longer: seq<Task>) {
    shorter <= longer && forall k | |shorter| <= k < |longer| :: longer[k] == User
  }

  /** What user code leaves as it was. */
  ghost predicate Acted(s: State, t: State) {
    && SameBookkeeping(s.(pending := t.pending), t) && GrowsByUsers(s.pending, t.pending)
    && t.conns.Keys == s.conns.Keys
    && (forall j <- s.conns :: !s.conns[j].state.Connected? ==>
          t.conns[j] == s.conns[j].(stream := t.conns[j].stream))
    && (forall j <- s.conns :: t.conns[j].state == s.conns[j].state)
    && (forall j <- s.conns :: Serving(s, j) ==> Serving(t, j))
    && (forall j <- s.conns :: Closing(s, j) ==> Closing(t, j))
  }

  lemma ActedTransitive(s: State, t: State, u: State)
    requires Acted(s, t) && Acted(t, u)
    ensures Acted(s, u)
  {
    hide Serving, Closing;
  }

  lemma StreamKeepsCore(s: State, id: nat, stream: T.Stream)
    requires Core(s) && id in s.conns
    ensures Core(WithStream(s, id, stream)) && ViewOf(WithStream(s, id, stream), id) == ViewOf(s, id)
  {
    var t := WithStream(s, id, stream);
    forall j <- s.conns
      ensures ViewOf(t, j) == ViewOf(s, j)
    {
    }
  }

  /** Some change of one connection's channel and output that its stage and its flow allow. */
  ghost predicate Harmless(s: State, t: State, id: nat) {
    && Core(t) && Touched(s, t, id) && FitsStage(s, t, id) && Flows(t.conns[id])
    && t.conns == s.conns[id := t.conns[id]]
  }

  lemma HarmlessKeeps(s: State, t: State, id: nat, except: int)
    requires Sound(s, except) && Harmless(s, t, id)
    requires s.conns[id].state.Connected? || t.conns[id] == s.conns[id].(stream := t.conns[id].stream)
    ensures Sound(t, except) && Acted(s, t)
  {
    hide Core, Staged, Records, Phased, Flowing, FitsStage, Flows, Acted;
    FlowKept(s.conns, id, t.conns[id]);
    TouchKeepsStages(s, t, id, except);
    TouchedActs(s, t, id);
  }

  /** A Connected connection's output grows or shrinks and its write interest follows; its stage stays. */
  lemma OutputKeeps(s: State, id: nat, stream: T.Stream, call: Call, except: int)
    requires Sound(s, except) && id in s.conns && s.conns[id].state.Connected?
    requires call.EnableWriting? || (call.DisableWriting? && s.conns[id].events.write)
    requires T.StreamOK(stream) && stream.closed == s.conns[id].stream.closed
    requires stream.writing <==> call.EnableWriting?
    ensures var r := SetChannel(WithStream(s, id, stream), id, call);
            r.Ok? && Sound(r.s, except) && Acted(s, r.s)
  {
    hide Core, Staged, Records, Phased, Flowing, FitsStage, Acted, T.StreamOK, SetChannel;
    var t := WithStream(s, id, stream);
    StreamKeepsCore(s, id, stream);
    AgreesAt(s, id);
    SetChannelWorks(t, id, call);
    var u := SetChannel(t, id, call).s;
    InterestFits(s, u, id, call);
    assert u.conns == s.conns[id := u.conns[id]];
    HarmlessKeeps(s, u, id, except);
  }

  lemma InterestFits(s: State, t: State, id: nat, call: Call)
    requires Touched(s, t, id) && s.conns[id].state.Connected? && Agrees(ViewOf(s, id))
    requires call.EnableWriting? || (call.DisableWriting? && s.conns[id].events.write)
    requires t.conns[id].index == Applied(ViewOf(s, id), call).index
    requires t.conns[id].events == Applied(ViewOf(s, id), call).events
    requires t.conns[id].stream.closed == s.conns[id].stream.closed
    ensures FitsStage(s, t, id)
  {
    hide Tasks;
  }

  lemma AgreesAt(s: State, id: nat)
    requires Core(s) && id in s.conns
    ensures Agrees(ViewOf(s, id))
  {
  }

  lemma TouchedActs(s: State, t: State, id: nat)
    requires Touched(s, t, id) && FitsStage(s, t, id)
    requires s.conns[id].state.Connected? || t.conns[id] == s.conns[id].(stream := t.conns[id].stream)
    ensures Acted(s, t)
  {
    assert Tasks(t) == Tasks(s);
  }

  lemma NoActs(s: State)
    ensures RunActs(s, []) == Ok(s)
  {
  }

  lemma NothingActs(s: State)
    ensures Acted(s, s)
  {
  }

  /** A send on a Connected connection, serving or closing. */
  lemma SendKeeps(s: State, id: nat, message: string, answer: int, except: int)
    requires Sound(s, except) && id in s.conns && id != except && s.conns[id].state.Connected?
    ensures var r := SendInLoop(s, id, message, answer); r.Ok? && Sound(r.s, except) && Acted(s, r.s)
  {
    var c := s.conns[id];
    FlowsAt(s.conns, id);
    T.SendKeepsStream(c.stream, message, answer);
    var sent := T.Sent(c.stream, message, answer);
    assert sent.closed == c.stream.closed && (c.stream.writing ==> sent.writing);
    hide Sound, Acted, SetChannel, T.StreamOK, T.Sent;
    if sent.writing && !c.events.write {
      OutputKeeps(s, id, sent, EnableWriting, except);
    } else {
      StreamAloneKeeps(s, id, sent, except);
    }
  }

  /** Output that moves without a change of interest disturbs no stage, that of a destroyed connection included. */
  lemma StreamAloneKeeps(s: State, id: nat, stream: T.Stream, except: int)
    requires Sound(s, except) && id in s.conns && T.StreamOK(stream)
    requires stream.writing == s.conns[id].stream.writing && stream.closed == s.conns[id].stream.closed
    ensures Sound(WithStream(s, id, stream), except) && Acted(s, WithStream(s, id, stream))
  {
    FlowsAt(s.conns, id);
    hide Core, Staged, Records, Phased, Flowing, FitsStage, T.StreamOK, Acted;
    StreamKeepsCore(s, id, stream);
    SameChannelFits(s, id, stream);
    HarmlessKeeps(s, WithStream(s, id, stream), id, except);
  }

  /** A shutdown on any connection. */
  lemma ShutdownKeeps(s: State, id: nat, except: int)
    requires Sound(s, except) && id in s.conns
    ensures Sound(ShutdownInLoop(s, id), except) && Acted(s, ShutdownInLoop(s, id))
  {
    FlowsAt(s.conns, id);
    hide Core, Staged, Records, Phased, Flowing, Acted, T.StreamOK;
    T.ShutdownKeepsStream(s.conns[id].stream);
    StreamAloneKeeps(s, id, T.StreamStep(s.conns[id].stream, T.Shutdown), except);
  }

  lemma RunActKeeps(s: State, act: Act, except: int)
    requires Sound(s, except) && (except in s.conns ==> !s.conns[except].state.Connected?)
    ensures RunAct(s, act).Ok? && Sound(RunAct(s, act).s, except) && Acted(s, RunAct(s, act).s)
  {
    hide Sound, Acted, SendInLoop, ShutdownInLoop;
    NothingActs(s);
    match act
    case QueueFunctor => QueueKeeps(s, User, except);
    case Send(id, message, answer) =>
      if id in s.conns && s.conns[id].state.Connected? {
        SendKeeps(s, id, message, answer, except);
      }
    case Shutdown(id) =>
      if id in s.conns {
        ShutdownKeeps(s, id, except);
      }
  }

  lemma {:induction false} RunActsKeep(s: State, acts: seq<Act>, except: int)
    requires Sound(s, except) && (except in s.conns ==> !s.conns[except].state.Connected?)
    ensures RunActs(s, acts).Ok? && Sound(RunActs(s, acts).s, except) && Acted(s, RunActs(s, acts).s)
    decreases |acts|
  {
    if acts != [] {
      RunActKeeps(s, acts[0], except);
      var t := RunAct(s, acts[0]).s;
      RunActsKeep(t, acts[1..], except);
      ActedTransitive(s, t, RunActs(t, acts[1..]).s);
    } else {
      NothingActs(s);
    }
  }

  lemma HandleWriteKeeps(s: State, id: nat, answer: int, except: int)
    requires Sound(s, except) && id in s.conns && id != except && s.conns[id].state.Connected?
    ensures var r := HandleWrite(s, id, answer); r.Ok? && Sound(r.s, except) && Acted(s, r.s)
  {
    var c := s.conns[id];
    FlowsAt(s.conns, id);
    T.WriteKeepsStream(c.stream, answer);
    var written := T.Written(c.stream, answer);
    assert written.closed == c.stream.closed && (written.writing ==> c.stream.writing);
    hide Sound, Acted, SetChannel, T.StreamOK, T.Written;
    if c.events.write && !written.writing {
      OutputKeeps(s, id, written, DisableWriting, except);
    } else {
      StreamAloneKeeps(s, id, written, except);
    }
  }

  // ---- Closing.

  /** The report being handled is this connection's: no other entry of the active list names it. */
  ghost predicate InHandler(s: State, id: nat) {
    s.phase.Dispatching? && forall e <- s.phase.active :: e.ConnChannel? ==> e.conn != id
  }

  lemma CoreIgnores(s: State, t: State)
    requires Core(s) && t.conns == s.conns && t.channelMap == s.channelMap && t.kernel == s.kernel
    ensures Core(t)
  {
    forall id <- t.conns
      ensures ViewOf(t, id) == ViewOf(s, id)
    {
    }
  }

  function Closed(c: Conn): Conn {
    c.(index := 2, events := NOTHING, stream := T.StreamStep(c.stream, T.Close))
  }

  /** The effect of `handleClose` on everything but the epoller's maps. */
  ghost predicate ClosedBy(s: State, t: State, id: nat) {
    && Serving(s, id)
    && t == s.(conns := s.conns[id := Closed(s.conns[id])],
               channelMap := t.channelMap, kernel := t.kernel,
               connections := s.connections - {s.conns[id].name}, pending := s.pending + [Destroy(id)],
               closed := s.closed + [id])
  }

  lemma OnlyOneNamed(s: State, id: nat, j: nat)
    requires Records(s) && id in s.conns && j in s.conns && id != j
    ensures s.conns[id].name != s.conns[j].name
  {
    T.NamesDiffer("", id, j);
  }

  /** Nothing that the stage of connection j depends on differs. */
  ghost predicate Spared(s: State, t: State, j: nat) {
    && j in s.conns && j in t.conns && t.conns[j] == s.conns[j]
    && (s.conns[j].name in t.connections <==> s.conns[j].name in s.connections)
    && (Destroy(j) in Tasks(t) <==> Destroy(j) in Tasks(s))
    && multiset(Tasks(t))[Destroy(j)] == multiset(Tasks(s))[Destroy(j)]
    && (j in t.closed <==> j in s.closed) && (j in t.destroyed <==> j in s.destroyed)
  }

  lemma SparedKeepsStage(s: State, t: State, j: nat)
    requires Spared(s, t, j)
    ensures Serving(s, j) ==> Serving(t, j)
    ensures Closing(s, j) ==> Closing(t, j)
    ensures Dead(s, j) ==> Dead(t, j)
  {
    hide Tasks;
  }

  lemma CloseKeepsStageOf(s: State, t: State, id: nat, j: nat)
    requires ClosedBy(s, t, id) && Records(s) && j in s.conns && j != id
    ensures Serving(s, j) ==> Serving(t, j)
    ensures Closing(s, j) ==> Closing(t, j)
    ensures Dead(s, j) ==> Dead(t, j)
  {
    OnlyOneNamed(s, id, j);
    hide Records, Serving, Closing, Dead;
    ServingIsLive(s, id);
    CloseSpares(s, t, id, j);
    SparedKeepsStage(s, t, j);
  }

  lemma CloseSpares(s: State, t: State, id: nat, j: nat)
    requires ClosedBy(s, t, id) && id in s.conns && j in s.conns && j != id && s.conns[id].name != s.conns[j].name
    ensures Spared(s, t, j)
  {
    hide Serving, Tasks;
    CloseAddsTask(s, t, id, j);
  }

  lemma CloseAddsTask(s: State, t: State, id: nat, j: nat)
    requires t.pending == s.pending + [Destroy(id)] && t.phase == s.phase && j != id
    ensures Destroy(j) in Tasks(t) <==> Destroy(j) in Tasks(s)
    ensures multiset(Tasks(t))[Destroy(j)] == multiset(Tasks(s))[Destroy(j)]
  {
    assert Tasks(t) == Tasks(s) + [Destroy(id)];
    hide Tasks;
    assert multiset(Tasks(t)) == multiset(Tasks(s)) + multiset{Destroy(id)};
  }

  lemma ClosesNow(s: State, t: State, id: nat)
    requires ClosedBy(s, t, id)
    ensures Closing(t, id)
  {
    assert Tasks(t) == Tasks(s) + [Destroy(id)];
    assert multiset(Tasks(t)) == multiset(Tasks(s)) + multiset{Destroy(id)};
    assert multiset(Tasks(s))[Destroy(id)] == 0;
  }

  lemma CloseKeepsStages(s: State, t: State, id: nat)
    requires ClosedBy(s, t, id) && Staged(s, -1) && Records(s)
    ensures Staged(t, -1) && Closing(t, id)
    ensures forall j <- s.conns :: j != id ==> (Serving(s, j) ==> Serving(t, j))
  {
    hide Serving, Closing, Dead, Records;
    ClosesNow(s, t, id);
    forall j <- s.conns | j != id
      ensures Serving(s, j) ==> Serving(t, j)
      ensures Closing(s, j) ==> Closing(t, j)
      ensures Dead(s, j) ==> Dead(t, j)
    {
      CloseKeepsStageOf(s, t, id, j);
    }
  }

  lemma CloseKeepsRecords(s: State, t: State, id: nat)
    requires ClosedBy(s, t, id) && Records(s)
    ensures Records(t)
  {
    assert Tasks(t) == Tasks(s) + [Destroy(id)];
  }

  lemma CloseKeepsPhase(s: State, t: State, id: nat)
    requires ClosedBy(s, t, id) && Phased(s) && InHandler(s, id)
    requires forall j <- s.conns :: j != id ==> (Serving(s, j) ==> Serving(t, j))
    ensures Phased(t)
  {
  }

  lemma CloseDisables(s: State, id: nat)
    requires Core(s) && id in s.conns && ListensAsServing(s.conns[id])
    ensures var w := WithStream(s, id, T.StreamStep(s.conns[id].stream, T.Close));
            && SetChannel(w, id, DisableAll).Ok?
            && var u := SetChannel(w, id, DisableAll).s;
            && Core(u) && SameBookkeeping(s, u) && u.conns == s.conns[id := Closed(s.conns[id])]
  {
    var w := WithStream(s, id, T.StreamStep(s.conns[id].stream, T.Close));
    StreamKeepsCore(s, id, w.conns[id].stream);
    SetChannelWorks(w, id, DisableAll);
    AgreesAt(w, id);
    SetterEffect(ViewOf(w, id), DisableAll);
    hide Core, Tasks, SetChannel, Applied, Agrees;
  }

  lemma CloseTakesEffect(s: State, id: nat)
    requires Core(s) && Serving(s, id)
    ensures HandleClose(s, id).Ok? && Core(HandleClose(s, id).s) && ClosedBy(s, HandleClose(s, id).s, id)
  {
    hide Core, Tasks, SetChannel;
    var t := s.(closed := s.closed + [id]);
    CoreIgnores(s, t);
    CloseDisables(t, id);
    CoreIgnores(SetChannel(WithStream(t, id, T.StreamStep(t.conns[id].stream, T.Close)), id, DisableAll).s,
                HandleClose(s, id).s);
  }

  lemma CloseKeepsFlow(s: State, t: State, id: nat)
    requires ClosedBy(s, t, id) && Flowing(s.conns)
    ensures Flowing(t.conns)
  {
    FlowsAt(s.conns, id);
    T.CloseKeepsStream(s.conns[id].stream);
    FlowKept(s.conns, id, Closed(s.conns[id]));
  }

  /** From the serving stage `handleClose` passes all its asserts and starts the closing stage. */
  lemma HandleCloseWorks(s: State, id: nat)
    requires Sound(s, -1) && Serving(s, id) && InHandler(s, id)
    ensures var r := HandleClose(s, id);
            && r.Ok? && Sound(r.s, -1) && Closing(r.s, id) && ClosedBy(s, r.s, id) && InHandler(r.s, id)
  {
    hide Core, Staged, Records, Phased, Flowing, HandleClose;
    CloseTakesEffect(s, id);
    var r := HandleClose(s, id).s;
    CloseKeepsFlow(s, r, id);
    CloseKeepsStages(s, r, id);
    CloseKeepsRecords(s, r, id);
    CloseKeepsPhase(s, r, id);
  }

  /** A second `handleClose` in the same handler passes the first assert and fails the last. */
  lemma SecondCloseFails(s: State, id: nat)
    requires Sound(s, -1) && Closing(s, id)
    ensures HandleClose(s, id) == Failed(EraseNotOne)
  {
    var t := s.(closed := s.closed + [id]);
    var w := WithStream(t, id, T.StreamStep(s.conns[id].stream, T.Close));
    CoreIgnores(s, t);
    StreamKeepsCore(t, id, w.conns[id].stream);
    SetChannelWorks(w, id, DisableAll);
    hide Core, Staged, Records, Phased, Flowing, SetChannel;
  }

  /** The tasks of s are those of t, first and in order, and t has no further raw work; the connections of s are in t
      with their state. */
  ghost predicate Continues(s: State, t: State) {
    && Tasks(s) <= Tasks(t) && (forall k | |Tasks(s)| <= k < |Tasks(t)| :: !Tasks(t)[k].Raw?)
    && forall j <- s.conns :: j in t.conns && t.conns[j].state == s.conns[j].state
  }

  lemma ActedContinues(s: State, t: State)
    requires Acted(s, t)
    ensures Continues(s, t)
  {
    var before := if s.phase.RunningTasks? then s.phase.batch else [];
    assert Tasks(s) == before + s.pending && Tasks(t) == before + t.pending;
    hide Serving, Closing;
  }

  lemma ClosedContinues(s: State, t: State, id: nat)
    requires ClosedBy(s, t, id)
    ensures Continues(s, t)
  {
    assert Tasks(t) == Tasks(s) + [Destroy(id)];
  }

  lemma ContinuesTransitive(s: State, t: State, u: State)
    requires Continues(s, t) && Continues(t, u)
    ensures Continues(s, u)
  {
  }

  lemma ContinuesItself(s: State)
    ensures Continues(s, s)
  {
  }

  /** The first half of a dispatched report: `handleClose` when it hangs up. */
  lemma HangupKeeps(s: State, id: nat, hangup: bool)
    requires Sound(s, -1) && Serving(s, id) && InHandler(s, id)
    ensures hangup ==> HandleClose(s, id).Ok?
    ensures var t := if hangup then HandleClose(s, id).s else s;
            && Sound(t, -1) && Continues(s, t) && InHandler(t, id)
            && if hangup then Closing(t, id) else Serving(t, id)
  {
    ContinuesItself(s);
    if hangup {
      HandleCloseWorks(s, id);
      ClosedContinues(s, HandleClose(s, id).s, id);
    }
  }

  /** `handleRead` fails exactly at the end of file of a connection already closed. */
  lemma HandleReadKeeps(s: State, id: nat, read: ReadResult)
    requires Sound(s, -1) && InHandler(s, id) && (Serving(s, id) || Closing(s, id))
    ensures HandleRead(s, id, read).Failed? <==> read.Eof? && Closing(s, id)
    ensures HandleRead(s, id, read).Ok? ==>
              var t := HandleRead(s, id, read).s;
              && Sound(t, -1) && Continues(s, t) && t.conns[id].state.Connected?
              && if read.Eof? || Closing(s, id) then Closing(t, id) else Serving(t, id)
  {
    hide Sound, HandleClose, RunActs, Acted, Continues;
    ContinuesItself(s);
    match read
    case ReadError =>
    case Eof =>
      if Closing(s, id) {
        SecondCloseFails(s, id);
      } else {
        HandleCloseWorks(s, id);
        ClosedContinues(s, HandleClose(s, id).s, id);
      }
    case Data(acts) =>
      RunActsKeep(s, acts, -1);
      ActedContinues(s, RunActs(s, acts).s);
      ContinuesKeepState(s, RunActs(s, acts).s, id);
      StagesApart(s, id);
      ActedKeepsStage(s, RunActs(s, acts).s, id);
  }

  lemma ActedKeepsStage(s: State, t: State, id: nat)
    requires Acted(s, t) && id in s.conns
    ensures (Serving(s, id) ==> Serving(t, id)) && (Closing(s, id) ==> Closing(t, id))
  {
    hide Serving, Closing;
  }

  lemma ContinuesKeepState(s: State, t: State, id: nat)
    requires Continues(s, t) && id in s.conns
    ensures id in t.conns && t.conns[id].state == s.conns[id].state
  {
  }

  /** A dispatched report of a serving connection fails an assert exactly at an urgent hang-up whose read returns 0. */
  lemma HandleReportFailsIff(s: State, id: nat, r: Revents, read: ReadResult, written: int)
    requires Sound(s, -1) && Serving(s, id) && InHandler(s, id)
    ensures HandleReport(s, id, r, read, written).Failed? <==> r.hup && !r.input && (r.pri || r.rdhup) && read.Eof?
    ensures HandleReport(s, id, r, read, written).Ok? ==>
              var t := HandleReport(s, id, r, read, written).s;
              && Sound(t, -1) && Continues(s, t)
              && if (r.hup && !r.input) || ((r.input || r.pri || r.rdhup) && read.Eof?) then Closing(t, id)
                 else Serving(t, id)
  {
    hide Sound, HandleClose, HandleRead, HandleWrite, InHandler, Acted, Continues, Serving, Closing;
    var reading := r.input || r.pri || r.rdhup;
    HangupKeeps(s, id, r.hup && !r.input);
    var closed := if r.hup && !r.input then HandleClose(s, id).s else s;
    StagesApart(closed, id);
    if reading {
      HandleReadKeeps(closed, id, read);
    }
    var after := if reading then HandleRead(closed, id, read) else Ok(closed);
    if after.Ok? {
      ContinuesTransitiveWhen(reading, s, closed, after.s);
      if r.output {
        HandleWriteKeeps(after.s, id, written, -1);
        ActedContinues(after.s, HandleWrite(after.s, id, written).s);
        ContinuesTransitive(s, after.s, HandleWrite(after.s, id, written).s);
        ActedKeepsStage(after.s, HandleWrite(after.s, id, written).s, id);
      }
    }
  }

  lemma ContinuesTransitiveWhen(second: bool, s: State, t: State, u: State)
    requires Continues(s, t) && (if second then Continues(t, u) else u == t)
    ensures Continues(s, u)
  {
    if second { ContinuesTransitive(s, t, u); }
  }

  lemma StagesApart(s: State, id: nat)
    ensures !(Serving(s, id) && Closing(s, id))
    ensures Serving(s, id) || Closing(s, id) ==> id in s.conns && s.conns[id].state.Connected?
  {
  }

  // ---- Opening.

  /** A connection object made for a descriptor no one uses. */
  ghost predicate Opened(s: State, t: State, fd: int) {
    var id := s.nextConnId;
    && fd !in s.openFds
    && t == s.(nextConnId := id + 1, openFds := s.openFds + {fd}, connections := s.connections[ConnName(id) := id],
               conns := s.conns[id := Conn(ConnName(id), fd, T.Connected, -1, NOTHING, T.NEW_STREAM)])
  }

  lemma OpenKeepsCore(s: State, t: State, fd: int)
    requires Core(s) && Records(s) && Opened(s, t, fd)
    ensures Core(t) && ViewOf(t, s.nextConnId) == UNREGISTERED
  {
    assert s.nextConnId !in s.conns;
    forall j <- s.conns
      ensures t.conns[j] == s.conns[j] && ViewOf(t, j) == ViewOf(s, j)
    {
    }
  }

  lemma NewName(s: State, j: nat)
    requires Records(s) && j in s.conns
    ensures s.conns[j].name != ConnName(s.nextConnId)
  {
    T.NamesDiffer("", s.nextConnId, j);
  }

  /** Interest in reading has been added to the new connection. */
  ghost predicate Established(s: State, t: State, fd: int, u: State) {
    && Opened(s, t, fd) && SameBookkeeping(t, u)
    && u.conns == t.conns[s.nextConnId := t.conns[s.nextConnId].(index := 1, events := Interest(true, false))]
  }

  lemma OpenKeepsStageOf(s: State, t: State, fd: int, u: State, j: nat)
    requires Records(s) && Established(s, t, fd, u) && j in s.conns
    ensures Serving(s, j) ==> Serving(u, j)
    ensures Closing(s, j) ==> Closing(u, j)
    ensures Dead(s, j) ==> Dead(u, j)
  {
    NewName(s, j);
    assert Tasks(u) == Tasks(s);
  }

  lemma ServesNow(s: State, t: State, fd: int, u: State)
    requires Records(s) && Established(s, t, fd, u)
    ensures Serving(u, s.nextConnId)
  {
    assert Tasks(u) == Tasks(s);
  }

  lemma OpenKeepsRecords(s: State, t: State, fd: int, u: State)
    requires Records(s) && Established(s, t, fd, u)
    ensures Records(u)
  {
    assert Tasks(u) == Tasks(s);
  }

  /** The new connection is serving; the others stay in their stages. */
  lemma OpenKeepsStages(s: State, t: State, fd: int, u: State)
    requires Staged(s, -1) && Records(s) && Phased(s) && Established(s, t, fd, u)
    ensures Staged(u, -1) && Records(u) && Phased(u) && Serving(u, s.nextConnId)
  {
    hide Serving, Closing, Dead, Records;
    ServesNow(s, t, fd, u);
    OpenKeepsRecords(s, t, fd, u);
    forall j <- s.conns
      ensures Serving(s, j) ==> Serving(u, j)
      ensures Closing(s, j) ==> Closing(u, j)
      ensures Dead(s, j) ==> Dead(u, j)
    {
      OpenKeepsStageOf(s, t, fd, u, j);
    }
    forall j: nat | Serving(s, j)
      ensures Serving(u, j)
    {
      ServingIsLive(s, j);
    }
    PhaseFollowsStages(s, u);
  }

  lemma OpenKeepsFlow(s: State, t: State, fd: int, u: State)
    requires Flowing(s.conns) && Established(s, t, fd, u)
    ensures Flowing(u.conns)
  {
    FlowKept(s.conns, s.nextConnId, u.conns[s.nextConnId]);
    assert u.conns == s.conns[s.nextConnId := u.conns[s.nextConnId]];
  }

  lemma OpenContinues(s: State, t: State, fd: int, u: State)
    requires Records(s) && Established(s, t, fd, u)
    ensures Continues(s, u)
  {
    assert Tasks(u) == Tasks(s);
  }

  lemma ServingIsLive(s: State, j: nat)
    requires Serving(s, j)
    ensures j in s.conns
  {
  }

  /** The phase part carries over when the phase and the queue are the same and serving connections still serve. */
  lemma PhaseFollowsStages(s: State, u: State)
    requires Phased(s) && u.phase == s.phase && u.pending == s.pending
    requires forall j: nat :: Serving(s, j) ==> Serving(u, j)
    ensures Phased(u)
  {
  }

  lemma NewConnectionKeeps(s: State, fd: int, acts: seq<Act>)
    requires Sound(s, -1) && fd !in s.openFds
    ensures NewConnection(s, fd, acts).Ok? && Sound(NewConnection(s, fd, acts).s, -1)
    ensures Serving(NewConnection(s, fd, acts).s, s.nextConnId) && Continues(s, NewConnection(s, fd, acts).s)
    ensures NewConnection(s, fd, acts).s.phase == s.phase
    ensures acts == [] ==> NewConnection(s, fd, acts).s.pending == s.pending
  {
    var id := s.nextConnId;
    var t := s.(nextConnId := id + 1, openFds := s.openFds + {fd}, connections := s.connections[ConnName(id) := id],
                conns := s.conns[id := Conn(ConnName(id), fd, T.Connected, -1, NOTHING, T.NEW_STREAM)]);
    assert Opened(s, t, fd);
    OpenKeepsCore(s, t, fd);
    SetChannelWorks(t, id, EnableReading);
    var u := SetChannel(t, id, EnableReading).s;
    hide Core, Staged, Records, Phased, Flowing, RunActs;
    OpenKeepsStages(s, t, fd, u);
    OpenKeepsFlow(s, t, fd, u);
    OpenContinues(s, t, fd, u);
    RunActsKeep(u, acts, -1);
    EstablishUnfolds(s, fd, acts, t);
    NoActs(u);
    ActedContinues(u, RunActs(u, acts).s);
    ContinuesTransitive(s, u, RunActs(u, acts).s);
  }

  lemma EstablishUnfolds(s: State, fd: int, acts: seq<Act>, t: State)
    requires Opened(s, t, fd) && s.nextConnId !in s.conns && SetChannel(t, s.nextConnId, EnableReading).Ok?
    ensures NewConnection(s, fd, acts) == RunActs(SetChannel(t, s.nextConnId, EnableReading).s, acts)
  {
    hide SetChannel, RunActs;
    var id := s.nextConnId;
    var conn := Conn(ConnName(id), fd, T.Connecting, -1, NOTHING, T.NEW_STREAM);
    assert s.conns[id := conn][id := conn.(state := T.Connected)] == s.conns[id := conn.(state := T.Connected)];
  }

  // ---- Destroying.

  /** A closing connection whose `connectDestroyed` has been taken off the queue. */
  ghost predicate Destroying(s: State, id: nat) {
    && id in s.conns && s.conns[id].name !in s.connections && s.conns[id].state.Connected?
    && s.conns[id].index != -1 && s.conns[id].stream.closed
    && Destroy(id) !in Tasks(s) && id in s.closed && id !in s.destroyed
  }

  lemma DestroyKeepsStages(s: State, t: State, id: nat)
    requires Staged(s, id) && Records(s) && Phased(s) && Destroying(s, id) && s.phase.RunningTasks?
    requires t == s.(conns := t.conns, channelMap := t.channelMap, kernel := t.kernel, destroyed := s.destroyed + [id])
    requires t.conns.Keys == s.conns.Keys && forall j <- s.conns :: j != id ==> t.conns[j] == s.conns[j]
    requires t.conns[id] == Disconnected(s.conns[id]).(index := t.conns[id].index, events := t.conns[id].events)
    ensures Staged(t, id) && Records(t) && Phased(t)
  {
    assert Tasks(t) == Tasks(s);
    forall j <- s.conns | j != id
      ensures Serving(s, j) ==> Serving(t, j)
      ensures Closing(s, j) ==> Closing(t, j)
      ensures Dead(s, j) ==> Dead(t, j)
    {
    }
  }

  lemma OtherStages(w: State, t: State, id: nat, j: nat)
    requires SameBookkeeping(w, t) && j in w.conns && j in t.conns && t.conns[j] == w.conns[j]
    ensures Serving(w, j) ==> Serving(t, j)
    ensures Closing(w, j) ==> Closing(t, j)
    ensures Dead(w, j) ==> Dead(t, j)
  {
  }

  lemma DestroyFinishes(w: State, t: State, id: nat)
    requires Staged(w, id) && Records(w) && Phased(w) && SameBookkeeping(w, t) && w.phase.RunningTasks?
    requires id in w.conns && w.conns[id].state.Disconnected? && w.conns[id].name !in w.connections
    requires Destroy(id) !in Tasks(w) && id in w.closed && id in w.destroyed
    requires t.conns == w.conns[id := w.conns[id].(index := -1, events := NOTHING)]
    ensures Staged(t, -1) && Records(t) && Phased(t) && Dead(t, id)
  {
    hide Serving, Closing, Dead;
    DiesNow(w, t, id);
    forall j <- w.conns | j != id
      ensures Serving(w, j) ==> Serving(t, j)
      ensures Closing(w, j) ==> Closing(t, j)
      ensures Dead(w, j) ==> Dead(t, j)
    {
      OtherStages(w, t, id, j);
    }
  }

  lemma DiesNow(w: State, t: State, id: nat)
    requires SameBookkeeping(w, t) && id in w.conns && Tasks(t) == Tasks(w)
    requires w.conns[id].state.Disconnected? && w.conns[id].name !in w.connections
    requires Destroy(id) !in Tasks(w) && id in w.closed && id in w.destroyed
    requires t.conns == w.conns[id := w.conns[id].(index := -1, events := NOTHING)]
    ensures Dead(t, id)
  {
  }

  lemma QueueGrowsByUsers(s: State, t: State, id: nat)
    requires Acted(s, t) && Destroy(id) !in Tasks(s)
    ensures Destroy(id) !in Tasks(t)
  {
    ActedContinues(s, t);
    forall k | 0 <= k < |Tasks(t)|
      ensures Tasks(t)[k] != Destroy(id)
    {
      var before := if s.phase.RunningTasks? then s.phase.batch else [];
      assert Tasks(t) == before + t.pending && Tasks(s) == before + s.pending;
      if k < |Tasks(s)| {
        assert Tasks(t)[k] == Tasks(s)[k];
      } else {
        assert Tasks(t)[k] == t.pending[k - |before|];
      }
    }
    hide Serving, Closing;
  }

  function MarkedDestroyed(s: State, id: nat): State
    requires id in s.conns
  {
    s.(conns := s.conns[id := Disconnected(s.conns[id])], destroyed := s.destroyed + [id])
  }

  lemma DisconnectKeepsFlow(s: State, id: nat, c: Conn)
    requires Flowing(s.conns) && id in s.conns && s.conns[id].stream.closed
    requires c == Disconnected(s.conns[id]).(index := c.index, events := NOTHING)
    ensures Flowing(s.conns[id := c])
  {
    FlowsAt(s.conns, id);
  }

  /** The first half of `connectDestroyed`: disconnected, no interest, still registered. */
  lemma DisconnectWorks(s: State, id: nat)
    requires Sound(s, id) && Destroying(s, id) && s.phase.RunningTasks?
    ensures var t := MarkedDestroyed(s, id);
            && SetChannel(t, id, DisableAll).Ok?
            && var u := SetChannel(t, id, DisableAll).s;
            && Sound(u, id) && SameBookkeeping(t, u) && Tasks(u) == Tasks(s) && u.conns.Keys == s.conns.Keys
            && (forall j <- s.conns :: j != id ==> u.conns[j] == s.conns[j])
            && u.conns[id].index != -1
            && u.conns[id] == t.conns[id].(index := u.conns[id].index, events := NOTHING)
  {
    hide Core, Staged, Records, Phased, Flowing, SetChannel;
    var t := MarkedDestroyed(s, id);
    StateKeepsCore(s, t, id);
    SetChannelWorks(t, id, DisableAll);
    AgreesAt(t, id);
    var u := SetChannel(t, id, DisableAll).s;
    DestroyKeepsStages(s, u, id);
    DisconnectKeepsFlow(s, id, u.conns[id]);
    assert u.conns == s.conns[id := u.conns[id]];
  }

  lemma RemovedFlows(conns: map<nat, Conn>, id: nat)
    requires Flowing(conns) && id in conns && conns[id].events == NOTHING
    ensures Flowing(conns[id := conns[id].(index := -1, events := NOTHING)])
  {
    FlowsAt(conns, id);
  }

  /** What `connectDestroyed` does to the states and the tasks. */
  ghost predicate DestroyedBy(s: State, t: State, id: nat) {
    && t.conns.Keys == s.conns.Keys
    && (forall j <- s.conns :: j != id ==> t.conns[j].state == s.conns[j].state)
    && t.phase == s.phase && GrowsByUsers(s.pending, t.pending)
  }

  /** `connectDestroyed` on a closing connection passes all its asserts; the connection ends off the epoller, its
      descriptor absent from the map and from the kernel. */
  lemma ConnectDestroyedWorks(s: State, id: nat, acts: seq<Act>)
    requires Sound(s, id) && Destroying(s, id) && s.phase.RunningTasks?
    ensures var r := ConnectDestroyed(s, id, acts);
            && r.Ok? && Sound(r.s, -1) && Dead(r.s, id) && DestroyedBy(s, r.s, id)
            && s.conns[id].fd !in r.s.channelMap && s.conns[id].fd !in r.s.kernel
  {
    hide Core, Staged, Records, Phased, Flowing, RunActs, SetChannel, RemoveChannel, Serving, Closing, Dead;
    DisconnectWorks(s, id);
    var u := SetChannel(MarkedDestroyed(s, id), id, DisableAll).s;
    RunActsKeep(u, acts, id);
    QueueGrowsByUsers(u, RunActs(u, acts).s, id);
    var w := RunActs(u, acts).s;
    RemoveChannelWorks(w, id);
    RemovedFlows(w.conns, id);
    DestroyFinishes(w, RemoveChannel(w, id).s, id);
  }

  lemma StateKeepsCore(s: State, t: State, id: nat)
    requires Core(s) && id in s.conns && id in t.conns
    requires t.conns == s.conns[id := s.conns[id].(state := t.conns[id].state, stream := t.conns[id].stream)]
    requires t.channelMap == s.channelMap && t.kernel == s.kernel
    ensures Core(t)
  {
    forall j <- s.conns
      ensures ViewOf(t, j) == ViewOf(s, j)
    {
    }
  }
}
