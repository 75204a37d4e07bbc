/** Whole runs of the server: the loop's passes, the work of other threads, and what every run keeps. */
module ServerRuns {
  import opened Sequences
  import opened Epoll
  import opened Server
  import T = TcpConnection

  // ---- Work that other threads queue under the bare address of a connection.

  function RunWork(s: State, id: nat, work: Work, answer: int): Result
    requires id in s.conns
  {
    match work
    case SendWork(message) => SendInLoop(s, id, message, answer)
    case ShutdownWork => Ok(ShutdownInLoop(s, id))
  }

  /** The work is a send that comes after the connection was destroyed and that `write` does not take whole. */
  predicate Late(c: Conn, work: Work, answer: int) {
    && c.state.Disconnected? && work.SendWork?
    && (if c.stream.output == "" then T.Taken(answer, |work.message|) else 0) < |work.message|
  }

  /** A destroyed connection that is back in the epoller's map and in the kernel. */
  ghost predicate Revived(s: State, id: nat) {
    && id in s.conns && s.conns[id].state.Disconnected? && s.conns[id].index == 1
    && s.conns[id].fd in s.channelMap && s.channelMap[s.conns[id].fd] == id
    && s.conns[id].fd in s.kernel && s.kernel[s.conns[id].fd].conn == id
  }

  /** On a destroyed connection whose output is not all taken, `enableWriting` registers the channel again. */
  lemma LateSendRevives(s: State, id: nat, work: Work, answer: int)
    requires Sound(s, -1) && Dead(s, id) && Late(s.conns[id], work, answer)
    ensures var r := RunWork(s, id, work, answer); r.Ok? && Revived(r.s, id) && SameBookkeeping(s, r.s)
  {
    var c := s.conns[id];
    FlowsAt(s.conns, id);
    var t := WithStream(s, id, T.Sent(c.stream, work.message, answer));
    StreamKeepsCore(s, id, t.conns[id].stream);
    AgreesAt(s, id);
    hide T.StreamOK;
    SetChannelWorks(t, id, EnableWriting);
  }

  lemma RevivedHasNoStage(s: State, id: nat)
    requires Revived(s, id)
    ensures !Invariant(s)
  {
    assert !Serving(s, id) && !Closing(s, id) && !Dead(s, id);
  }

  /** Other work on a destroyed connection changes nothing but its output. */
  lemma PromptWorkKeeps(s: State, id: nat, work: Work, answer: int)
    requires Sound(s, -1) && Dead(s, id) && !Late(s.conns[id], work, answer)
    ensures var r := RunWork(s, id, work, answer); r.Ok? && Sound(r.s, -1) && Acted(s, r.s)
  {
    var c := s.conns[id];
    FlowsAt(s.conns, id);
    hide Core, Staged, Records, Phased, Flowing, Acted, T.StreamOK;
    if work.ShutdownWork? {
      ShutdownKeeps(s, id, -1);
    } else {
      T.SendKeepsStream(c.stream, work.message, answer);
      var sent := T.Sent(c.stream, work.message, answer);
      assert sent.writing == c.stream.writing;
      StreamAloneKeeps(s, id, sent, -1);
    }
  }

  /** Whatever its stage, work on a live connection passes all asserts, and it keeps the invariant unless it is late. */
  lemma WorkKeepsUnlessLate(s: State, id: nat, work: Work, answer: int)
    requires Sound(s, -1) && id in s.conns
    ensures var r := RunWork(s, id, work, answer);
            && r.Ok?
            && (Sound(r.s, -1) <==> !Late(s.conns[id], work, answer))
            && (!Late(s.conns[id], work, answer) ==> Continues(s, r.s))
  {
    StageFound(s, id);
    hide Sound, Serving, Closing, Dead, SendInLoop, ShutdownInLoop, Acted, Continues, Revived, T.Taken;
    var t := RunWork(s, id, work, answer);
    if Late(s.conns[id], work, answer) {
      LateSendRevives(s, id, work, answer);
      RevivedHasNoStage(t.s, id);
    } else {
      if Dead(s, id) {
        PromptWorkKeeps(s, id, work, answer);
      } else if work.SendWork? {
        SendKeeps(s, id, work.message, answer, -1);
      } else {
        ShutdownKeeps(s, id, -1);
      }
      ActedContinues(s, t.s);
    }
  }

  lemma StageFound(s: State, id: nat)
    requires Sound(s, -1) && id in s.conns
    ensures Dead(s, id) <==> s.conns[id].state.Disconnected?
    ensures !Dead(s, id) ==> s.conns[id].state.Connected?
  {
    hide Core, Records, Phased, Flowing;
  }

  // ---- Runs.

  /** What the handlers of one report meet: the answers of `readFd` and `write`, the accepted descriptor, and what the
      user callbacks do. */
  datatype Outcome = Outcome(read: ReadResult, written: int, accepted: Option<int>, acts: seq<Act>)

  /** `OtherThreadCalls` is a `send` up to its test of the state, or a `shutdown`, on a thread that is not the loop's;
      `OtherThreadQueues` is the push of the functor it made, or of user code. A task runs with the answer that `write`
      would give and with what its callbacks do. */
  datatype Event =
    | Poll(active: seq<Active>) | Handle(outcome: Outcome)
    | StartTasks | RunTask(answer: int, acts: seq<Act>) | EndTasks
    | Release(conn: nat) | OtherThreadCalls(callee: nat, work: Work) | OtherThreadQueues(task: Task)

  /** The connections whose channels the kernel's entries point to. */
  function PointedTo(s: State): set<nat> {
    set fd <- s.kernel :: s.kernel[fd].conn
  }

  /** The kernel reports registered channels, each once; it hands out descriptors that are not in use; a connection
      object goes when nothing that counts references refers to it. */
  ghost predicate Enabled(s: State, e: Event) {
    match e
    case Poll(active) =>
      && s.phase.Polling?
      && (forall a <- active :: a.ConnChannel? ==> a.conn in PointedTo(s))
      && (forall i, j | 0 <= i < j < |active| && active[i].ConnChannel? && active[j].ConnChannel? ::
            active[i].conn != active[j].conn)
    case Handle(outcome) =>
      && s.phase.Dispatching? && s.phase.active != []
      && (s.phase.active[0].AcceptorChannel? && outcome.accepted.Some? ==> outcome.accepted.value !in s.openFds)
    case StartTasks => s.phase == Dispatching([])
    case RunTask(_, _) => s.phase.RunningTasks? && s.phase.batch != []
    case EndTasks => s.phase == RunningTasks([])
    case Release(id) =>
      && id in s.conns && s.conns[id].name !in s.connections && Destroy(id) !in Tasks(s)
    case OtherThreadCalls(id, work) => id in s.conns && (work.SendWork? ==> s.conns[id].state.Connected?)
    case OtherThreadQueues(task) => task.User? || (task.Raw? && task in s.sending)
  }

  /** `setRevents` on every reported channel. */
  function PollStep(s: State, active: seq<Active>): Result {
    Need(forall a <- active :: a.ConnChannel? ==> a.conn in s.conns, DanglingChannel, s.(phase := Dispatching(active)))
  }

  /** One channel's `handler`. */
  function Dispatched(s: State, head: Active, outcome: Outcome): Result {
    match head
    case ConnChannel(id, r) =>
      if id in s.conns then HandleReport(s, id, r, outcome.read, outcome.written) else Failed(DanglingChannel)
    case AcceptorChannel =>
      if outcome.accepted.Some? then NewConnection(s, outcome.accepted.value, outcome.acts) else Ok(s)
    case OtherChannel => RunActs(s, outcome.acts)
  }

  function HandleStep(s: State, outcome: Outcome): Result
    requires s.phase.Dispatching? && s.phase.active != []
  {
    Dispatched(s.(phase := Dispatching(s.phase.active[1..])), s.phase.active[0], outcome)
  }

  function TaskStep(s: State, answer: int, acts: seq<Act>): Result
    requires s.phase.RunningTasks? && s.phase.batch != []
  {
    var t := s.(phase := RunningTasks(s.phase.batch[1..]));
    match s.phase.batch[0]
    case Destroy(id) => if id in t.conns then ConnectDestroyed(t, id, acts) else Failed(DanglingConnection)
    case Raw(id, work) => if id in t.conns then RunWork(t, id, work, answer) else Failed(DanglingConnection)
    case User => RunActs(t, acts)
  }

  /** The destructor closes the descriptor, which takes it out of the kernel's set, but not out of `ChannelMap_`. */
  function Released(s: State, id: nat): State
    requires id in s.conns
  {
    var fd := s.conns[id].fd;
    s.(conns := s.conns - {id}, openFds := s.openFds - {fd}, kernel := s.kernel - {fd})
  }

  function Step(s: State, e: Event): Result
    requires e.Handle? ==> s.phase.Dispatching? && s.phase.active != []
    requires e.RunTask? ==> s.phase.RunningTasks? && s.phase.batch != []
    requires e.Release? ==> e.conn in s.conns
  {
    match e
    case Poll(active) => PollStep(s, active)
    case Handle(outcome) => HandleStep(s, outcome)
    case StartTasks => Ok(s.(phase := RunningTasks(s.pending), pending := []))
    case RunTask(answer, acts) => TaskStep(s, answer, acts)
    case EndTasks => Ok(s.(phase := Polling))
    case Release(id) => Ok(Released(s, id))
    case OtherThreadCalls(id, work) => Ok(s.(sending := s.sending + multiset{Raw(id, work)}))
    case OtherThreadQueues(task) => Ok(s.(pending := s.pending + [task], sending := s.sending - multiset{task}))
  }

  /** The plain steps, field by field: a poll hands its report on; a pass takes the whole queue; a released connection
      gives back its descriptor; another thread's functor is made once, pushed once, and pushed last. */
  lemma PlainSteps(s: State, e: Event)
    requires Enabled(s, e) && !e.Handle? && !e.RunTask? && Step(s, e).Ok?
    ensures var t := Step(s, e).s;
            && t.connections == s.connections && t.channelMap == s.channelMap && t.nextConnId == s.nextConnId
            && t.closed == s.closed && t.destroyed == s.destroyed
            && (e.Poll? ==> t.phase == Dispatching(e.active))
            && (e.StartTasks? ==> t.phase == RunningTasks(s.pending) && t.pending == [])
            && (e.EndTasks? ==> t.phase == Polling)
            && (e.Release? || e.OtherThreadCalls? || e.OtherThreadQueues? ==> t.phase == s.phase)
            && (if e.Release? then
                  && t.conns == s.conns - {e.conn} && t.openFds == s.openFds - {s.conns[e.conn].fd}
                  && t.kernel == s.kernel - {s.conns[e.conn].fd}
                else t.conns == s.conns && t.openFds == s.openFds && t.kernel == s.kernel)
            && (if e.OtherThreadCalls? then t.sending == s.sending + multiset{Raw(e.callee, e.work)}
                else if e.OtherThreadQueues? then t.sending == s.sending - multiset{e.task}
                else t.sending == s.sending)
            && (if e.OtherThreadQueues? then t.pending == s.pending + [e.task]
                else e.StartTasks? || t.pending == s.pending)
  {
  }

  /** A hang-up without input, but with urgent or half-close readiness, whose read returns 0. */
  predicate UrgentHangup(s: State, e: Event) {
    && e.Handle? && s.phase.Dispatching? && s.phase.active != [] && s.phase.active[0].ConnChannel?
    && e.outcome.read.Eof?
    && var r := s.phase.active[0].revents; r.hup && !r.input && (r.pri || r.rdhup)
  }

  predicate RunsWork(s: State, e: Event) {
    e.RunTask? && s.phase.RunningTasks? && s.phase.batch != [] && s.phase.batch[0].Raw?
  }

  /** Work for a connection object that is gone. */
  predicate Dangles(s: State, e: Event) {
    RunsWork(s, e) && s.phase.batch[0].conn !in s.conns
  }

  /** Late work for a connection object that is still there. */
  predicate Revives(s: State, e: Event) {
    && RunsWork(s, e) && s.phase.batch[0].conn in s.conns
    && Late(s.conns[s.phase.batch[0].conn], s.phase.batch[0].work, e.answer)
  }

  lemma PollKeeps(s: State, active: seq<Active>)
    requires Invariant(s) && Enabled(s, Poll(active))
    ensures PollStep(s, active) == Ok(s.(phase := Dispatching(active)))
    ensures Invariant(PollStep(s, active).s) && Continues(s, PollStep(s, active).s)
  {
    var t := s.(phase := Dispatching(active));
    CoreIgnores(s, t);
    assert Tasks(t) == Tasks(s);
    forall j <- s.conns
      ensures Serving(s, j) ==> Serving(t, j)
      ensures Closing(s, j) ==> false
      ensures Dead(s, j) ==> Dead(t, j)
    {
    }
    forall a <- active | a.ConnChannel?
      ensures a.conn in s.conns && Serving(t, a.conn)
    {
      var fd :| fd in s.kernel && s.kernel[fd].conn == a.conn;
      AgreesAt(s, a.conn);
    }
  }

  lemma HandleKeeps(s: State, outcome: Outcome)
    requires Invariant(s) && Enabled(s, Handle(outcome))
    ensures HandleStep(s, outcome).Failed? <==> UrgentHangup(s, Handle(outcome))
    ensures HandleStep(s, outcome).Ok? ==>
              Invariant(HandleStep(s, outcome).s) && Continues(s, HandleStep(s, outcome).s)
  {
    hide Sound, Serving, Closing, InHandler, HandleReport, NewConnection, RunActs, Acted, Continues, Tasks;
    var t := s.(phase := Dispatching(s.phase.active[1..]));
    PopActiveKeeps(s, t);
    DispatchKeeps(t, s.phase.active[0], outcome);
    if HandleStep(s, outcome).Ok? {
      SameContinues(s, t, HandleStep(s, outcome).s);
    }
  }

  /** The report taken off the list is handled. */
  lemma DispatchKeeps(t: State, head: Active, outcome: Outcome)
    requires Sound(t, -1) && (head.ConnChannel? ==> Serving(t, head.conn) && InHandler(t, head.conn))
    requires head.AcceptorChannel? && outcome.accepted.Some? ==> outcome.accepted.value !in t.openFds
    ensures var r := Dispatched(t, head, outcome);
            && (r.Failed? <==>
                  head.ConnChannel? && outcome.read.Eof?
                  && head.revents.hup && !head.revents.input && (head.revents.pri || head.revents.rdhup))
            && (r.Ok? ==> Invariant(r.s) && Continues(t, r.s))
  {
    hide Sound, Serving, Closing, InHandler, HandleReport, NewConnection, RunActs, Acted, Continues;
    ContinuesItself(t);
    match head
    case ConnChannel(id, r) =>
      StagesApart(t, id);
      HandleReportFailsIff(t, id, r, outcome.read, outcome.written);
    case AcceptorChannel =>
      if outcome.accepted.Some? { NewConnectionKeeps(t, outcome.accepted.value, outcome.acts); }
    case OtherChannel =>
      RunActsKeep(t, outcome.acts, -1);
      ActedContinues(t, RunActs(t, outcome.acts).s);
  }

  lemma SameContinues(s: State, t: State, u: State)
    requires Tasks(t) == Tasks(s) && t.conns == s.conns && Continues(t, u)
    ensures Continues(s, u)
  {
  }

  lemma SameStages(s: State, t: State, j: nat)
    requires t.conns == s.conns && t.connections == s.connections && t.closed == s.closed && t.destroyed == s.destroyed
    requires j in s.conns && Tasks(t) == Tasks(s)
    ensures Serving(s, j) ==> Serving(t, j)
    ensures Closing(s, j) ==> Closing(t, j)
    ensures Dead(s, j) ==> Dead(t, j)
  {
  }

  lemma PopActiveKeeps(s: State, t: State)
    requires Invariant(s) && s.phase.Dispatching? && s.phase.active != []
    requires t == s.(phase := Dispatching(s.phase.active[1..]))
    ensures Sound(t, -1) && Tasks(t) == Tasks(s)
    ensures s.phase.active[0].ConnChannel? ==>
              var id := s.phase.active[0].conn; Serving(t, id) && InHandler(t, id)
  {
    hide Core, Flowing, Serving, Closing, Dead;
    var active := s.phase.active;
    CoreIgnores(s, t);
    forall j <- s.conns
      ensures Serving(s, j) ==> Serving(t, j)
      ensures Closing(s, j) ==> Closing(t, j)
      ensures Dead(s, j) ==> Dead(t, j)
    {
      SameStages(s, t, j);
    }
    if active[0].ConnChannel? {
      ServingIsLive(s, active[0].conn);
    }
    forall i | 0 <= i < |t.phase.active| && t.phase.active[i].ConnChannel?
      ensures Serving(t, t.phase.active[i].conn)
    {
      assert t.phase.active[i] == active[i + 1];
      ServingIsLive(s, active[i + 1].conn);
    }
  }

  /** A step that only moves on to the next phase, or notes what another thread is about to queue. */
  lemma PhaseStepKeeps(s: State, t: State)
    requires Invariant(s) && t == s.(phase := t.phase, pending := t.pending, sending := t.sending)
    requires Tasks(t) == Tasks(s) && Phased(t)
    ensures Invariant(t) && Continues(s, t)
  {
    CoreIgnores(s, t);
    forall j <- s.conns
      ensures Serving(s, j) ==> Serving(t, j)
      ensures Closing(s, j) ==> Closing(t, j)
      ensures Dead(s, j) ==> Dead(t, j)
    {
      SameStages(s, t, j);
    }
    hide Core, Phased, Flowing, Serving, Closing, Dead;
  }

  lemma StartTasksKeeps(s: State)
    requires Invariant(s) && s.phase == Dispatching([])
    ensures var t := s.(phase := RunningTasks(s.pending), pending := []); Invariant(t) && Continues(s, t)
  {
    var t := s.(phase := RunningTasks(s.pending), pending := []);
    assert Tasks(t) == Tasks(s);
    hide Core, Flowing, Staged, Records;
    PhaseStepKeeps(s, t);
  }

  lemma EndTasksKeeps(s: State)
    requires Invariant(s) && s.phase == RunningTasks([])
    ensures Invariant(s.(phase := Polling)) && Continues(s, s.(phase := Polling))
  {
    var t := s.(phase := Polling);
    assert Tasks(t) == Tasks(s);
    hide Core, Flowing, Staged, Records;
    PhaseStepKeeps(s, t);
  }

  lemma SendingKeeps(s: State, sending: multiset<Task>)
    requires Invariant(s)
    ensures Invariant(s.(sending := sending)) && Continues(s, s.(sending := sending))
  {
    var t := s.(sending := sending);
    assert Tasks(t) == Tasks(s);
    if s.phase.Dispatching? {
      forall i | 0 <= i < |s.phase.active| && s.phase.active[i].ConnChannel?
        ensures Serving(t, s.phase.active[i].conn)
      {
        ServingIsLive(s, s.phase.active[i].conn);
        SameStages(s, t, s.phase.active[i].conn);
      }
    }
    hide Core, Flowing, Staged, Records, Serving;
    PhaseStepKeeps(s, t);
  }

  lemma OtherThreadQueuesKeeps(s: State, task: Task)
    requires Invariant(s) && !task.Destroy?
    ensures Invariant(s.(pending := s.pending + [task], sending := s.sending - multiset{task}))
  {
    hide Sound;
    QueueKeeps(s, task, -1);
    SendingKeeps(s.(pending := s.pending + [task]), s.sending - multiset{task});
  }

  /** A task fails exactly when it is work for an object that is gone, and breaks the invariant exactly when it is late
      work for one that is not. */
  lemma TaskKeeps(s: State, answer: int, acts: seq<Act>)
    requires Invariant(s) && Enabled(s, RunTask(answer, acts))
    ensures TaskStep(s, answer, acts).Failed? <==> Dangles(s, RunTask(answer, acts))
    ensures TaskStep(s, answer, acts).Ok? ==>
              (Invariant(TaskStep(s, answer, acts).s) <==> !Revives(s, RunTask(answer, acts)))
  {
    var t := s.(phase := RunningTasks(s.phase.batch[1..]));
    var head := s.phase.batch[0];
    PopTaskKeeps(s, t);
    hide Core, Staged, Records, Phased, Flowing, RunActs, RunWork, Late, ConnectDestroyed;
    match head
    case Destroy(id) => ConnectDestroyedWorks(t, id, acts);
    case Raw(id, work) => if id in t.conns { WorkKeepsUnlessLate(t, id, work, answer); }
    case User => RunActsKeep(t, acts, -1);
  }

  /** Taking a task off the batch: a `connectDestroyed` leaves its connection without a stage, nothing else changes. */
  lemma PopTaskKeeps(s: State, t: State)
    requires Invariant(s) && Popped(s, t)
    ensures Sound(t, if s.phase.batch[0].Destroy? then s.phase.batch[0].conn else -1)
    ensures s.phase.batch[0].Destroy? ==> Destroying(t, s.phase.batch[0].conn)
    ensures Tasks(s) == [s.phase.batch[0]] + Tasks(t)
  {
    var head := s.phase.batch[0];
    hide Core, Records, Phased, Flowing, Serving, Closing, Dead, Destroying, Tasks;
    PopTasks(s, t);
    PopKeepsRecords(s, t);
    PopKeepsPhase(s, t);
    CoreIgnores(s, t);
    forall j <- s.conns | head != Destroy(j)
      ensures Serving(s, j) ==> Serving(t, j)
      ensures Closing(s, j) ==> Closing(t, j)
      ensures Dead(s, j) ==> Dead(t, j)
    {
      PopKeepsStage(s, t, j);
    }
    if head.Destroy? {
      PopStartsDestroying(s, t, head.conn);
    }
  }

  ghost predicate Popped(s: State, t: State) {
    s.phase.RunningTasks? && s.phase.batch != [] && t == s.(phase := RunningTasks(s.phase.batch[1..]))
  }

  lemma PopTasks(s: State, t: State)
    requires Popped(s, t)
    ensures Tasks(s) == [s.phase.batch[0]] + Tasks(t)
  {
  }

  lemma PopKeepsRecords(s: State, t: State)
    requires Popped(s, t) && Records(s)
    ensures Records(t)
  {
    PopTasks(s, t);
    hide Tasks;
  }

  lemma PopKeepsPhase(s: State, t: State)
    requires Popped(s, t) && Phased(s)
    ensures Phased(t)
  {
  }

  lemma PopKeepsStage(s: State, t: State, j: nat)
    requires Popped(s, t) && j in s.conns && s.phase.batch[0] != Destroy(j)
    ensures Serving(s, j) ==> Serving(t, j)
    ensures Closing(s, j) ==> Closing(t, j)
    ensures Dead(s, j) ==> Dead(t, j)
  {
    PopTasks(s, t);
    hide Tasks;
  }

  lemma QueuedIsClosing(s: State, id: nat)
    requires Staged(s, -1) && Records(s) && Destroy(id) in Tasks(s)
    ensures Closing(s, id)
  {
  }

  lemma PopStartsDestroying(s: State, t: State, id: nat)
    requires Popped(s, t) && Staged(s, -1) && Records(s) && s.phase.batch[0] == Destroy(id)
    ensures Destroying(t, id)
  {
    hide Staged, Records, Tasks;
    PopTasks(s, t);
    assert Tasks(s)[0] == Destroy(id);
    QueuedIsClosing(s, id);
    OnlyOnce(Destroy(id), Tasks(t));
  }

  lemma OnlyOnce<A>(x: A, rest: seq<A>)
    requires multiset([x] + rest)[x] == 1
    ensures x !in rest
  {
    assert multiset([x] + rest) == multiset{x} + multiset(rest);
  }

  lemma UnreferencedIsDead(s: State, id: nat)
    requires Staged(s, -1) && Enabled(s, Release(id))
    ensures Dead(s, id)
  {
  }

  lemma ReleaseKeepsCore(s: State, id: nat)
    requires Core(s) && Dead(s, id)
    ensures Core(Released(s, id)) && Released(s, id).kernel == s.kernel
  {
    AgreesAt(s, id);
    var t := Released(s, id);
    assert s.conns[id].fd !in s.kernel;
    forall j <- t.conns
      ensures ViewOf(t, j) == ViewOf(s, j)
    {
    }
  }

  lemma ReleaseKeepsStage(s: State, id: nat, j: nat)
    requires id in s.conns && j in s.conns && j != id
    ensures Serving(s, j) ==> Serving(Released(s, id), j)
    ensures Closing(s, j) ==> Closing(Released(s, id), j)
    ensures Dead(s, j) ==> Dead(Released(s, id), j)
  {
    assert Tasks(Released(s, id)) == Tasks(s);
  }

  lemma ReleaseKeepsRecords(s: State, id: nat)
    requires Core(s) && Records(s) && Dead(s, id)
    ensures Records(Released(s, id))
  {
    var t := Released(s, id);
    assert Tasks(t) == Tasks(s);
    forall j <- t.conns
      ensures t.conns[j].fd in t.openFds
    {
    }
  }

  /** Dropping the last counted reference to a connection leaves no channel, map entry or kernel entry of it. */
  lemma ReleaseKeeps(s: State, id: nat)
    requires Invariant(s) && Enabled(s, Release(id))
    ensures Dead(s, id) && Invariant(Released(s, id))
  {
    hide Core, Records, Serving, Closing, Dead;
    var t := Released(s, id);
    UnreferencedIsDead(s, id);
    ReleaseKeepsCore(s, id);
    ReleaseKeepsRecords(s, id);
    forall j <- t.conns
      ensures Serving(s, j) ==> Serving(t, j)
      ensures Closing(s, j) ==> Closing(t, j)
      ensures Dead(s, j) ==> Dead(t, j)
    {
      ReleaseKeepsStage(s, id, j);
    }
    ReleasedNotActive(s, id);
  }

  lemma ReleasedNotActive(s: State, id: nat)
    requires Phased(s) && Dead(s, id)
    ensures s.phase.Dispatching? ==> forall a <- s.phase.active :: a.ConnChannel? ==> a.conn != id && a.conn in s.conns
  {
  }

  /** One event in an invariant state. An assert fails, or a dead pointer is followed, exactly on an urgent hang-up or
      on work for an object that is gone; otherwise the invariant is kept exactly unless the work is late. */
  lemma StepKeeps(s: State, e: Event)
    requires Invariant(s) && Enabled(s, e)
    ensures Step(s, e).Failed? <==> UrgentHangup(s, e) || Dangles(s, e)
    ensures Step(s, e).Ok? ==> (Invariant(Step(s, e).s) <==> !Revives(s, e))
  {
    hide Sound, PollStep, HandleStep, TaskStep, Late, Continues;
    match e
    case Poll(active) => PollKeeps(s, active);
    case Handle(outcome) => HandleKeeps(s, outcome);
    case StartTasks => StartTasksKeeps(s);
    case RunTask(answer, acts) => TaskKeeps(s, answer, acts);
    case EndTasks => EndTasksKeeps(s);
    case Release(id) => ReleaseKeeps(s, id);
    case OtherThreadCalls(id, work) => SendingKeeps(s, s.sending + multiset{Raw(id, work)});
    case OtherThreadQueues(task) => OtherThreadQueuesKeeps(s, task);
  }

  // ---- Timely work.

  /** Queued work of a connection stands in front of its `connectDestroyed`, which therefore keeps it alive. */
  ghost predicate InOrder(tasks: seq<Task>, conns: map<nat, Conn>) {
    forall i | 0 <= i < |tasks| && tasks[i].Raw? ::
      var id := tasks[i].conn; id in conns && conns[id].state.Connected? && Destroy(id) !in tasks[..i]
  }

  ghost predicate Ordered(s: State) {
    InOrder(Tasks(s), s.conns)
  }

  /** Another thread that pushes work does so while the connection is connected and its `connectDestroyed` is not
      queued. */
  ghost predicate Timely(s: State, e: Event) {
    e.OtherThreadQueues? && e.task.Raw? ==>
      var id := e.task.conn; id in s.conns && s.conns[id].state.Connected? && Destroy(id) !in Tasks(s)
  }

  lemma ContinuingKeepsOrder(s: State, t: State)
    requires Ordered(s) && Continues(s, t)
    ensures Ordered(t)
  {
    forall i | 0 <= i < |Tasks(t)| && Tasks(t)[i].Raw?
      ensures i < |Tasks(s)| && Tasks(t)[i] == Tasks(s)[i] && Tasks(t)[..i] == Tasks(s)[..i]
    {
    }
  }

  lemma PushKeepsOrder(s: State, t: State, task: Task)
    requires Ordered(s) && Tasks(t) == Tasks(s) + [task] && t.conns == s.conns
    requires task.Raw? ==>
               var id := task.conn; id in s.conns && s.conns[id].state.Connected? && Destroy(id) !in Tasks(s)
    ensures Ordered(t)
  {
    forall i | 0 <= i < |Tasks(t)|
      ensures Tasks(t)[..i] == Tasks(s)[..i]
    {
    }
    assert Tasks(s)[..|Tasks(s)|] == Tasks(s);
  }

  lemma PopKeepsOrder(s: State, t: State)
    requires Ordered(s) && Tasks(s) != [] && Tasks(s) == [Tasks(s)[0]] + Tasks(t) && t.conns == s.conns
    ensures Ordered(t)
    ensures Tasks(s)[0].Raw? ==>
              Tasks(s)[0].conn in s.conns && s.conns[Tasks(s)[0].conn].state.Connected?
    ensures Tasks(s)[0].Destroy? ==>
              forall i | 0 <= i < |Tasks(t)| && Tasks(t)[i].Raw? :: Tasks(t)[i].conn != Tasks(s)[0].conn
  {
    forall i | 0 <= i < |Tasks(t)|
      ensures Tasks(t)[i] == Tasks(s)[i + 1] && Tasks(s)[..i + 1] == [Tasks(s)[0]] + Tasks(t)[..i]
    {
    }
  }

  lemma DestroyKeepsOrder(s: State, t: State, id: nat)
    requires Ordered(s) && DestroyedBy(s, t, id) && s.phase.RunningTasks?
    requires forall i | 0 <= i < |Tasks(s)| && Tasks(s)[i].Raw? :: Tasks(s)[i].conn != id
    ensures Ordered(t)
  {
    assert Tasks(s) == s.phase.batch + s.pending && Tasks(t) == s.phase.batch + t.pending;
    forall i | 0 <= i < |Tasks(t)| && Tasks(t)[i].Raw?
      ensures i < |Tasks(s)| && Tasks(t)[i] == Tasks(s)[i] && Tasks(t)[..i] == Tasks(s)[..i]
    {
      assert i >= |s.phase.batch| ==> Tasks(t)[i] == t.pending[i - |s.phase.batch|];
    }
  }

  lemma TaskKeepsOrder(s: State, answer: int, acts: seq<Act>)
    requires Invariant(s) && Ordered(s) && Enabled(s, RunTask(answer, acts))
    ensures !Dangles(s, RunTask(answer, acts)) && !Revives(s, RunTask(answer, acts))
    ensures TaskStep(s, answer, acts).Ok? && Ordered(TaskStep(s, answer, acts).s)
  {
    var t := s.(phase := RunningTasks(s.phase.batch[1..]));
    var head := s.phase.batch[0];
    PopTaskKeeps(s, t);
    PopKeepsOrder(s, t);
    hide Core, Staged, Records, Phased, Flowing, RunActs, RunWork, ConnectDestroyed, Acted, Continues, Ordered;
    match head
    case Destroy(id) =>
      ConnectDestroyedWorks(t, id, acts);
      DestroyKeepsOrder(t, ConnectDestroyed(t, id, acts).s, id);
    case Raw(id, work) =>
      WorkKeepsUnlessLate(t, id, work, answer);
      ContinuingKeepsOrder(t, RunWork(t, id, work, answer).s);
    case User =>
      RunActsKeep(t, acts, -1);
      ActedContinues(t, RunActs(t, acts).s);
      ContinuingKeepsOrder(t, RunActs(t, acts).s);
  }

  lemma ReleaseKeepsOrder(s: State, id: nat)
    requires Ordered(s) && Dead(s, id)
    ensures Ordered(Released(s, id))
  {
    assert Tasks(Released(s, id)) == Tasks(s);
  }

  /** Timely pushes keep the order, and in order no work dangles or is late. */
  lemma TimelyStepKeepsOrder(s: State, e: Event)
    requires Invariant(s) && Ordered(s) && Enabled(s, e) && Timely(s, e)
    ensures !Dangles(s, e) && !Revives(s, e)
    ensures Step(s, e).Ok? ==> Ordered(Step(s, e).s)
  {
    hide Sound, PollStep, HandleStep, TaskStep, Late, Ordered, Continues;
    match e
    case Poll(active) => PollKeeps(s, active); ContinuingKeepsOrder(s, Step(s, e).s);
    case Handle(outcome) =>
      HandleKeeps(s, outcome);
      if Step(s, e).Ok? { ContinuingKeepsOrder(s, Step(s, e).s); }
    case StartTasks => StartTasksKeeps(s); ContinuingKeepsOrder(s, Step(s, e).s);
    case RunTask(answer, acts) => TaskKeepsOrder(s, answer, acts);
    case EndTasks => EndTasksKeeps(s); ContinuingKeepsOrder(s, Step(s, e).s);
    case Release(id) => ReleaseKeeps(s, id); ReleaseKeepsOrder(s, id);
    case OtherThreadCalls(id, work) =>
      SendingKeeps(s, s.sending + multiset{Raw(id, work)});
      ContinuingKeepsOrder(s, Step(s, e).s);
    case OtherThreadQueues(task) =>
      assert Tasks(Step(s, e).s) == Tasks(s) + [task];
      PushKeepsOrder(s, Step(s, e).s, task);
  }

  /** The server before its first poll; `used` are the descriptors of the listener, the eventfd and the like. */
  function Initial(used: set<int>): State {
    State(Polling, map[], map[], map[], map[], [], multiset{}, 1, used, [], [])
  }

  datatype Run = Blocked | Aborted(last: State, e: Event) | At(s: State)

  ghost function Exec(used: set<int>, es: seq<Event>): Run {
    if es == [] then At(Initial(used))
    else
      var before, e := Exec(used, es[..|es| - 1]), es[|es| - 1];
      if !before.At? then before
      else if !Enabled(before.s, e) then Blocked
      else if Step(before.s, e).Failed? then Aborted(before.s, e)
      else At(Step(before.s, e).s)
  }

  /** No step of the run was late work. */
  ghost predicate Unrevived(used: set<int>, es: seq<Event>) {
    es == [] ||
    var before, e := Exec(used, es[..|es| - 1]), es[|es| - 1];
    Unrevived(used, es[..|es| - 1]) && (before.At? && Enabled(before.s, e) ==> !Revives(before.s, e))
  }

  /** Every push of work by another thread was timely. */
  ghost predicate AllTimely(used: set<int>, es: seq<Event>) {
    es == [] ||
    var before, e := Exec(used, es[..|es| - 1]), es[|es| - 1];
    AllTimely(used, es[..|es| - 1]) && (before.At? && Enabled(before.s, e) ==> Timely(before.s, e))
  }

  /** Over every run without late work the invariant holds throughout, and a step fails exactly when it is an urgent
      hang-up whose read returns 0, or work for an object that is gone. */
  lemma {:induction false} RunsAreSafe(used: set<int>, es: seq<Event>)
    requires Unrevived(used, es)
    ensures Exec(used, es).At? ==> Invariant(Exec(used, es).s)
    ensures Exec(used, es).Aborted? ==>
              UrgentHangup(Exec(used, es).last, Exec(used, es).e) || Dangles(Exec(used, es).last, Exec(used, es).e)
    ensures es != [] && Exec(used, es[..|es| - 1]).At? && Enabled(Exec(used, es[..|es| - 1]).s, es[|es| - 1]) ==>
              var before, e := Exec(used, es[..|es| - 1]).s, es[|es| - 1];
              Exec(used, es).Aborted? <==> UrgentHangup(before, e) || Dangles(before, e)
  {
    hide Invariant, UrgentHangup, Dangles, Revives, Step, Enabled;
    if es != [] {
      RunsAreSafe(used, es[..|es| - 1]);
      var before, e := Exec(used, es[..|es| - 1]), es[|es| - 1];
      if before.At? && Enabled(before.s, e) {
        StepKeeps(before.s, e);
      }
    } else {
      InitialIsSound(used);
    }
  }

  lemma InitialIsSound(used: set<int>)
    ensures Invariant(Initial(used)) && Ordered(Initial(used))
  {
  }

  /** The invariant holds at every state of a run exactly when the run has no late work. */
  lemma {:induction false} SafeExactlyUnrevived(used: set<int>, es: seq<Event>)
    requires Exec(used, es).At?
    ensures Unrevived(used, es) <==> forall k | 0 <= k <= |es| :: SafeAt(used, es[..k])
  {
    hide Invariant, Revives, Step, Enabled;
    assert es[..|es|] == es;
    if es == [] {
      RunsAreSafe(used, es);
      assert forall k | 0 <= k <= |es| :: es[..k] == es;
    } else {
      var shorter := es[..|es| - 1];
      SafeExactlyUnrevived(used, shorter);
      forall k | 0 <= k <= |shorter|
        ensures shorter[..k] == es[..k]
      {
      }
      if Unrevived(used, shorter) {
        RunsAreSafe(used, shorter);
        StepKeeps(Exec(used, shorter).s, es[|es| - 1]);
      }
    }
  }

  ghost predicate SafeAt(used: set<int>, es: seq<Event>) {
    Exec(used, es).At? ==> Invariant(Exec(used, es).s)
  }

  /** When every other thread pushes its work in time, no work dangles and none is late: the only failure left is the
      urgent hang-up. */
  lemma {:induction false} TimelyRunsAreSafe(used: set<int>, es: seq<Event>)
    requires AllTimely(used, es)
    ensures Unrevived(used, es)
    ensures Exec(used, es).At? ==> Invariant(Exec(used, es).s) && Ordered(Exec(used, es).s)
    ensures Exec(used, es).Aborted? ==> UrgentHangup(Exec(used, es).last, Exec(used, es).e)
  {
    hide Invariant, UrgentHangup, Dangles, Revives, Step, Enabled, Timely, Ordered;
    if es != [] {
      TimelyRunsAreSafe(used, es[..|es| - 1]);
      var before, e := Exec(used, es[..|es| - 1]), es[|es| - 1];
      if before.At? && Enabled(before.s, e) {
        StepKeeps(before.s, e);
        TimelyStepKeepsOrder(before.s, e);
      }
    } else {
      InitialIsSound(used);
    }
  }

  /** `handleClose` runs at most once per connection, `connectDestroyed` at most once and only after it, and at every
      poll each closed connection has been destroyed. */
  lemma ClosedOnceDestroyedOnce(used: set<int>, es: seq<Event>)
    requires Unrevived(used, es) && Exec(used, es).At?
    ensures var s := Exec(used, es).s;
            && NoDuplicates(s.closed) && NoDuplicates(s.destroyed) && (forall id <- s.destroyed :: id in s.closed)
            && (s.phase.Polling? ==> forall id <- s.closed :: id in s.destroyed)
  {
    RunsAreSafe(used, es);
    hide Exec, Unrevived;
    var s := Exec(used, es).s;
    forall id <- s.closed | s.phase.Polling?
      ensures id in s.destroyed
    {
      if id in s.conns {
        assert !Serving(s, id) && !Closing(s, id);
      }
    }
  }

  /** While reports are being dispatched, every channel still to be handled belongs to a live, registered, serving
      connection that has not been closed. */
  lemma ActiveChannelsAlive(used: set<int>, es: seq<Event>, i: nat)
    requires Unrevived(used, es) && Exec(used, es).At? && Exec(used, es).s.phase.Dispatching?
    requires i < |Exec(used, es).s.phase.active| && Exec(used, es).s.phase.active[i].ConnChannel?
    ensures var s := Exec(used, es).s;
            var id := s.phase.active[i].conn;
            && id in s.conns && s.conns[id].fd in s.kernel && s.kernel[s.conns[id].fd] == Entry(s.conns[id].events, id)
            && s.conns[id].state.Connected? && id !in s.closed && id !in s.destroyed
  {
    RunsAreSafe(used, es);
    hide Exec, Unrevived;
    var s := Exec(used, es).s;
    AgreesAt(s, s.phase.active[i].conn);
  }

  /** No two live connections hold the same descriptor, and the map and the kernel lead from a descriptor to its one
      live holder, with the holder's mask. */
  lemma DescriptorsExclusive(used: set<int>, es: seq<Event>, i: nat, j: nat)
    requires Unrevived(used, es) && Exec(used, es).At?
    requires i in Exec(used, es).s.conns && j in Exec(used, es).s.conns
    ensures var s := Exec(used, es).s;
            && (s.conns[i].fd == s.conns[j].fd ==> i == j)
            && (s.conns[i].fd in s.channelMap ==> s.channelMap[s.conns[i].fd] == i)
            && (s.conns[i].fd in s.kernel ==> s.kernel[s.conns[i].fd] == Entry(s.conns[i].events, i))
  {
    RunsAreSafe(used, es);
    hide Exec, Unrevived;
    AgreesAt(Exec(used, es).s, i);
  }

  /** Over every run of the server, each connection's output is exact: what the socket accepted and what is buffered is
      what was passed to `sendInLoop`, in order; until `handleClose` a serving connection asks for write events exactly
      while output is buffered, and no shutdown has cut any off. */
  lemma ServerOutputIsExact(used: set<int>, es: seq<Event>, id: nat)
    requires Unrevived(used, es) && Exec(used, es).At? && id in Exec(used, es).s.conns
    ensures var s := Exec(used, es).s;
            var c := s.conns[id];
            && c.stream.accepted + c.stream.output == c.stream.passed
            && (id !in s.closed ==> (c.events.write <==> c.stream.output != ""))
            && (id !in s.closed ==> forall left <- c.stream.shutdowns :: left == "")
  {
    RunsAreSafe(used, es);
    hide Exec, Unrevived;
    var s := Exec(used, es).s;
    FlowsAt(s.conns, id);
    assert id !in s.closed ==> Serving(s, id);
  }

  lemma ExecSnoc(used: set<int>, es: seq<Event>, e: Event)
    requires Exec(used, es).At? && Enabled(Exec(used, es).s, e)
    ensures Exec(used, es + [e]) ==
            if Step(Exec(used, es).s, e).Failed? then Aborted(Exec(used, es).s, e) else At(Step(Exec(used, es).s, e).s)
    ensures Unrevived(used, es + [e]) <==> Unrevived(used, es) && !Revives(Exec(used, es).s, e)
    ensures AllTimely(used, es + [e]) <==> AllTimely(used, es) && Timely(Exec(used, es).s, e)
  {
    assert (es + [e])[..|es|] == es;
  }

  // ---- The runs that fail.

  const URGENT := Revents(false, true, false, false, true, false, false)
  const HANGUP := Revents(false, false, false, false, true, false, false)

  /** From any poll with a serving connection, one urgent hang-up of it aborts the server. */
  lemma UrgentHangupAborts(used: set<int>, es: seq<Event>, id: nat)
    requires Unrevived(used, es) && Exec(used, es).At? && Exec(used, es).s.phase.Polling?
    requires id in Exec(used, es).s.conns && Serving(Exec(used, es).s, id)
    ensures Exec(used, es + [Poll([ConnChannel(id, URGENT)])] + [Handle(Outcome(Eof, 0, None, []))]).Aborted?
  {
    var poll, handle := Poll([ConnChannel(id, URGENT)]), Handle(Outcome(Eof, 0, None, []));
    hide Exec, Unrevived, AllTimely, Timely, Sound, Serving, PollStep, HandleStep;
    RunsAreSafe(used, es);
    var s := Exec(used, es).s;
    ServingIsReported(s, id, URGENT);
    PollKeeps(s, [ConnChannel(id, URGENT)]);
    ExecSnoc(used, es, poll);
    StepKeeps(Exec(used, es + [poll]).s, handle);
    ExecSnoc(used, es + [poll], handle);
  }

  lemma ServingIsReported(s: State, id: nat, revents: Revents)
    requires Invariant(s) && Serving(s, id) && s.phase.Polling?
    ensures Enabled(s, Poll([ConnChannel(id, revents)]))
  {
    AgreesAt(s, id);
    assert s.kernel[s.conns[id].fd].conn in PointedTo(s);
  }

  const QUIET := Handle(Outcome(ReadError, 0, None, []))

  function FirstAccept(fd: int): Event {
    Handle(Outcome(ReadError, 0, Some(fd), []))
  }

  /** The first accept leads to a poll with a serving connection, so that the lemmas below speak of real runs. */
  lemma FirstConnectionServes(used: set<int>, fd: int)
    requires fd !in used
    ensures var es := [] + [Poll([AcceptorChannel])] + [FirstAccept(fd)] + [StartTasks] + [EndTasks];
            && AllTimely(used, es) && Unrevived(used, es) && Exec(used, es).At?
            && var s := Exec(used, es).s; s.phase.Polling? && s.pending == [] && Serving(s, 1)
  {
    var s := Initial(used);
    InitialIsSound(used);
    hide Sound, Serving, PollStep, NewConnection, Timely;
    PollKeeps(s, [AcceptorChannel]);
    ExecSnoc(used, [], Poll([AcceptorChannel]));
    var es := [] + [Poll([AcceptorChannel])];
    assert Exec(used, es).s.phase.active[1..] == [];
    PopActiveKeeps(Exec(used, es).s, Exec(used, es).s.(phase := Dispatching([])));
    NewConnectionKeeps(s.(phase := Dispatching([])), fd, []);
    ExecSnoc(used, es, FirstAccept(fd));
    es := es + [FirstAccept(fd)];
    ServingStays(Exec(used, es).s, 1);
    ExecSnoc(used, es, StartTasks);
    ExecSnoc(used, es + [StartTasks], EndTasks);
    PushesAreTimely();
  }

  lemma ServingStays(s: State, id: nat)
    requires Serving(s, id) && s.phase == Dispatching([]) && s.pending == []
    ensures Serving(s.(phase := Polling), id)
  {
    assert Tasks(s.(phase := Polling)) == Tasks(s);
  }

  lemma PushesAreTimely()
    ensures forall s: State, e: Event :: !e.OtherThreadQueues? ==> Timely(s, e)
  {
  }

  /** The handler of a plain hang-up closes the connection. */
  lemma HangupHandled(s: State, id: nat)
    requires Invariant(s) && s.phase == Dispatching([ConnChannel(id, HANGUP)]) && s.pending == []
    ensures var r := HandleStep(s, QUIET.outcome);
            && r.Ok? && r.s.phase == Dispatching([]) && r.s.pending == [Destroy(id)]
            && id in r.s.conns && r.s.conns[id].state.Connected?
  {
    var u := s.(phase := Dispatching([]));
    hide Sound, Serving, Closing, HandleClose;
    assert s.phase.active[1..] == [];
    PopActiveKeeps(s, u);
    HandleCloseWorks(u, id);
    StagesApart(HandleClose(u, id).s, id);
  }

  /** A plain hang-up closes a serving connection, and the pass is about to begin. */
  lemma HangupCloses(used: set<int>, es: seq<Event>, id: nat)
    requires Unrevived(used, es) && Exec(used, es).At? && Exec(used, es).s.phase.Polling?
    requires Exec(used, es).s.pending == [] && Serving(Exec(used, es).s, id)
    ensures var later := es + [Poll([ConnChannel(id, HANGUP)])] + [QUIET];
            && Unrevived(used, later) && Exec(used, later).At?
            && var s := Exec(used, later).s;
               s.phase == Dispatching([]) && s.pending == [Destroy(id)] && id in s.conns && s.conns[id].state.Connected?
  {
    var poll := Poll([ConnChannel(id, HANGUP)]);
    hide Exec, Unrevived, AllTimely, Timely, Sound, Serving, PollStep, HandleStep;
    RunsAreSafe(used, es);
    var s := Exec(used, es).s;
    ServingIsReported(s, id, HANGUP);
    PollKeeps(s, [ConnChannel(id, HANGUP)]);
    ExecSnoc(used, es, poll);
    HangupHandled(s.(phase := Dispatching([ConnChannel(id, HANGUP)])), id);
    ExecSnoc(used, es + [poll], QUIET);
  }

  /** Another thread sends while the connection is closing: its work stands behind the `connectDestroyed`. */
  lemma SendWhileClosing(used: set<int>, es: seq<Event>, id: nat)
    requires Unrevived(used, es) && Exec(used, es).At?
    requires var s := Exec(used, es).s;
             s.phase == Dispatching([]) && s.pending == [Destroy(id)] && id in s.conns && s.conns[id].state.Connected?
    ensures var work := SendWork("x");
            var later := es + [OtherThreadCalls(id, work)] + [OtherThreadQueues(Raw(id, work))] + [StartTasks];
            && Unrevived(used, later) && Exec(used, later).At?
            && Exec(used, later).s.phase == RunningTasks([Destroy(id), Raw(id, work)])
  {
    var work := SendWork("x");
    var calls, queues := OtherThreadCalls(id, work), OtherThreadQueues(Raw(id, work));
    hide Exec, Unrevived, AllTimely, Timely, PollStep, HandleStep, TaskStep;
    ExecSnoc(used, es, calls);
    ExecSnoc(used, es + [calls], queues);
    ExecSnoc(used, es + [calls] + [queues], StartTasks);
  }

  /** The first task of the pass destroys the connection. */
  lemma PassDestroys(s: State, id: nat, work: Work)
    requires Invariant(s) && s.phase == RunningTasks([Destroy(id), Raw(id, work)])
    ensures var r := TaskStep(s, 0, []);
            && r.Ok? && r.s.phase == RunningTasks([Raw(id, work)])
            && Invariant(r.s) && id in r.s.conns && r.s.conns[id].state.Disconnected?
  {
    var t := s.(phase := RunningTasks([Raw(id, work)]));
    assert s.phase.batch[1..] == [Raw(id, work)];
    hide Sound, Dead, ConnectDestroyed, RunWork;
    PopTaskKeeps(s, t);
    ConnectDestroyedWorks(t, id, []);
    StageFound(ConnectDestroyed(t, id, []).s, id);
  }

  /** The second registers it again. */
  lemma PassRevives(s: State, id: nat)
    requires Invariant(s) && s.phase == RunningTasks([Raw(id, SendWork("x"))])
    requires id in s.conns && s.conns[id].state.Disconnected?
    ensures Revives(s, RunTask(0, []))
    ensures var r := TaskStep(s, 0, []); r.Ok? && r.s.phase == RunningTasks([]) && Revived(r.s, id)
  {
    var t := s.(phase := RunningTasks([]));
    assert s.phase.batch[1..] == [];
    assert TaskStep(s, 0, []) == RunWork(t, id, SendWork("x"), 0);
    hide Sound, Dead, RunWork, TaskStep, Revived, Tasks;
    PopTaskKeeps(s, t);
    StageFound(t, id);
    LateSendRevives(t, id, SendWork("x"), 0);
  }

  /** Or its last reference goes first, and the second follows a dead pointer. */
  lemma PassDangles(s: State, id: nat, work: Work)
    requires Invariant(s) && s.phase == RunningTasks([Raw(id, work)])
    requires id in s.conns && s.conns[id].state.Disconnected?
    ensures Enabled(s, Release(id))
    ensures Dangles(Released(s, id), RunTask(0, []))
    ensures TaskStep(Released(s, id), 0, []) == Failed(DanglingConnection)
  {
    StageFound(s, id);
    hide Sound;
  }

  lemma LateSendRuns(used: set<int>, es: seq<Event>, id: nat)
    requires Unrevived(used, es) && Exec(used, es).At?
    requires Exec(used, es).s.phase == RunningTasks([Destroy(id), Raw(id, SendWork("x"))])
    ensures var later := es + [RunTask(0, [])] + [RunTask(0, [])] + [EndTasks];
            && !Unrevived(used, later) && Exec(used, later).At?
            && Exec(used, later).s.phase.Polling? && Revived(Exec(used, later).s, id)
  {
    hide Exec, Unrevived, AllTimely, Timely, Sound, TaskStep, Revived, Revives;
    RunsAreSafe(used, es);
    PassDestroys(Exec(used, es).s, id, SendWork("x"));
    ExecSnoc(used, es, RunTask(0, []));
    PassRevives(Exec(used, es + [RunTask(0, [])]).s, id);
    ExecSnoc(used, es + [RunTask(0, [])], RunTask(0, []));
    RevivedIgnoresPhase(Exec(used, es + [RunTask(0, [])] + [RunTask(0, [])]).s, id);
    ExecSnoc(used, es + [RunTask(0, [])] + [RunTask(0, [])], EndTasks);
  }

  lemma RevivedIgnoresPhase(s: State, id: nat)
    requires Revived(s, id)
    ensures Revived(s.(phase := Polling), id)
  {
  }

  /** A plain hang-up report of a revived connection fails the assert of `handleClose`. */
  lemma RevivedHangupAborts(used: set<int>, es: seq<Event>, id: nat)
    requires Exec(used, es).At? && Exec(used, es).s.phase.Polling? && Revived(Exec(used, es).s, id)
    ensures var r := Exec(used, es + [Poll([ConnChannel(id, HANGUP)])] + [QUIET]);
            r.Aborted? && !UrgentHangup(r.last, r.e) && !Dangles(r.last, r.e)
  {
    var s := Exec(used, es).s;
    var poll := Poll([ConnChannel(id, HANGUP)]);
    assert s.kernel[s.conns[id].fd].conn in PointedTo(s);
    ExecSnoc(used, es, poll);
    ExecSnoc(used, es + [poll], QUIET);
  }

  /** And once a revived connection is released, its stale map entry makes the next accept of its descriptor fail. */
  lemma RevivedBlocksAccept(s: State, id: nat, acts: seq<Act>)
    requires Revived(s, id)
    ensures NewConnection(Released(s, id), s.conns[id].fd, acts) == Failed(FdAlreadyMapped)
  {
  }

  /** The failure is real: a plain hang-up, one send from another thread in the window before the pass, a write that
      takes nothing, and a second plain hang-up abort the server. */
  lemma LateSendAborts(used: set<int>, es: seq<Event>, id: nat)
    requires Unrevived(used, es) && Exec(used, es).At? && Exec(used, es).s.phase.Polling?
    requires Exec(used, es).s.pending == [] && Serving(Exec(used, es).s, id)
    ensures exists later ::
              var r := Exec(used, es + later); r.Aborted? && !UrgentHangup(r.last, r.e) && !Dangles(r.last, r.e)
  {
    var work := SendWork("x");
    var hangup := [Poll([ConnChannel(id, HANGUP)])] + [QUIET];
    var send := [OtherThreadCalls(id, work)] + [OtherThreadQueues(Raw(id, work))] + [StartTasks];
    var pass := [RunTask(0, [])] + [RunTask(0, [])] + [EndTasks];
    hide Exec, Unrevived, Serving, Revived, UrgentHangup, Dangles;
    HangupCloses(used, es, id);
    var es1 := es + [Poll([ConnChannel(id, HANGUP)])] + [QUIET];
    SendWhileClosing(used, es1, id);
    var es2 := es1 + [OtherThreadCalls(id, work)] + [OtherThreadQueues(Raw(id, work))] + [StartTasks];
    LateSendRuns(used, es2, id);
    var es3 := es2 + [RunTask(0, [])] + [RunTask(0, [])] + [EndTasks];
    RevivedHangupAborts(used, es3, id);
    assert es3 + [Poll([ConnChannel(id, HANGUP)])] + [QUIET] == es + (hangup + send + pass + hangup);
  }
}
