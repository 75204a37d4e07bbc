/** The records of a server's runs: which reports close, in which order connections are destroyed, what is sent. */
module ServerHistory {
  import opened Sequences
  import opened Server
  import opened ServerEffects
  import opened ServerRuns
  import T = TcpConnection

  /** The connections that the tasks will destroy, in order. */
  function DestroyIds(tasks: seq<Task>): seq<nat> {
    if tasks == [] then []
    else (if tasks[0].Destroy? then [tasks[0].conn] else []) + DestroyIds(tasks[1..])
  }

  lemma {:induction false} DestroyIdsAppend(left: seq<Task>, right: seq<Task>)
    ensures DestroyIds(left + right) == DestroyIds(left) + DestroyIds(right)
  {
    if left == [] {
      assert left + right == right;
    } else {
      DestroyIdsAppend(left[1..], right);
      assert (left + right)[1..] == left[1..] + right;
      var first := if left[0].Destroy? then [left[0].conn] else [];
      assert first + (DestroyIds(left[1..]) + DestroyIds(right)) == first + DestroyIds(left[1..]) + DestroyIds(right);
    }
  }

  lemma {:induction false} QueuedDestroyNone(acts: seq<Act>)
    ensures DestroyIds(QueuedBy(acts)) == []
  {
    if acts != [] {
      QueuedDestroyNone(acts[1..]);
      DestroyIdsAppend(if acts[0].QueueFunctor? then [User] else [], QueuedBy(acts[1..]));
    }
  }

  lemma {:induction false} DestroyIdsEmpty(tasks: seq<Task>)
    requires forall id: nat :: Destroy(id) !in tasks
    ensures DestroyIds(tasks) == []
  {
    if tasks != [] {
      assert tasks[0] in tasks;
      DestroyIdsEmpty(tasks[1..]);
    }
  }

  /** The connection that the event closes: its report hangs up without input, or is readable and reads 0. */
  function ClosedNow(s: State, e: Event): seq<nat> {
    if e.Handle? && s.phase.Dispatching? && s.phase.active != [] && s.phase.active[0].ConnChannel? then
      var r := s.phase.active[0].revents;
      if (r.hup && !r.input) || ((r.input || r.pri || r.rdhup) && e.outcome.read.Eof?) then [s.phase.active[0].conn]
      else []
    else []
  }

  /** The connection that the event destroys. */
  function DestroyedNow(s: State, e: Event): seq<nat> {
    if e.RunTask? && s.phase.RunningTasks? && s.phase.batch != [] && s.phase.batch[0].Destroy? then
      [s.phase.batch[0].conn]
    else []
  }

  /** The acts of user code that run in the event. */
  function ActsNow(s: State, e: Event): seq<Act> {
    match e
    case Handle(outcome) =>
      if !s.phase.Dispatching? || s.phase.active == [] then []
      else
        (match s.phase.active[0]
         case ConnChannel(_, r) => if (r.input || r.pri || r.rdhup) && outcome.read.Data? then outcome.read.acts else []
         case AcceptorChannel => if outcome.accepted.Some? then outcome.acts else []
         case OtherChannel => outcome.acts)
    case RunTask(_, acts) =>
      if s.phase.RunningTasks? && s.phase.batch != [] && !s.phase.batch[0].Raw? then acts else []
    case _ => []
  }

  /** The event makes a connection. */
  predicate Accepts(s: State, e: Event) {
    && e.Handle? && s.phase.Dispatching? && s.phase.active != [] && s.phase.active[0].AcceptorChannel?
    && e.outcome.accepted.Some?
  }

  /** The messages that reach `sendInLoop` of connection id in the event: those that user code sends while the
      connection is Connected (made by this event or before), and one that another thread had queued. */
  function MessagesNow(s: State, e: Event, id: nat): seq<string> {
    var connected := if id in s.conns then s.conns[id].state.Connected? else id == s.nextConnId && Accepts(s, e);
    if RunsWork(s, e) then
      var task := s.phase.batch[0];
      if task.conn == id && task.work.SendWork? then [task.work.message] else []
    else if connected && DestroyedNow(s, e) != [id] then MessagesTo(ActsNow(s, e), id)
    else []
  }

  /** The tasks that wait after the event, by what they destroy. */
  ghost predicate HistoryMoves(s: State, t: State, e: Event) {
    && t.closed == s.closed + ClosedNow(s, e) && t.destroyed == s.destroyed + DestroyedNow(s, e)
    && DestroyIds(Tasks(s)) + ClosedNow(s, e) == DestroyedNow(s, e) + DestroyIds(Tasks(t))
  }

  ghost predicate MessagesMove(s: State, t: State, e: Event) {
    forall id <- t.conns ::
      && (id in s.conns || id == s.nextConnId)
      && t.conns[id].stream.passed
         == (if id in s.conns then s.conns[id].stream.passed else "") + Concat(MessagesNow(s, e, id))
  }

  lemma SameTasksMove(s: State, t: State, e: Event, queued: seq<Task>)
    requires Tasks(t) == Tasks(s) + queued && DestroyIds(queued) == ClosedNow(s, e) && DestroyedNow(s, e) == []
    requires t.closed == s.closed + ClosedNow(s, e) && t.destroyed == s.destroyed
    ensures HistoryMoves(s, t, e)
  {
    DestroyIdsAppend(Tasks(s), queued);
  }

  /** The state in which the first report of the list is handled. */
  function Handling(s: State): State
    requires s.phase.Dispatching? && s.phase.active != []
  {
    s.(phase := Dispatching(s.phase.active[1..]))
  }

  /** The acts' messages are passed to the connections that are Connected and not being destroyed. */
  ghost predicate PassedOn(s: State, t: State, acts: seq<Act>, destroyed: seq<nat>) {
    && t.conns.Keys == s.conns.Keys
    && forall j <- s.conns :: t.conns[j].stream.passed == s.conns[j].stream.passed
         + if s.conns[j].state.Connected? && destroyed != [j] then Concat(MessagesTo(acts, j)) else ""
  }

  lemma ActsPass(s: State, t: State, e: Event)
    requires !RunsWork(s, e) && PassedOn(s, t, ActsNow(s, e), DestroyedNow(s, e))
    ensures MessagesMove(s, t, e)
  {
    NoMessages();
    hide Concat, MessagesTo, ActsNow, DestroyedNow, RunsWork;
  }

  /** What the report of a connection queues. */
  function QueuedNow(s: State, e: Event): seq<Task> {
    (if ClosedNow(s, e) != [] then [Destroy(ClosedNow(s, e)[0])] else []) + QueuedBy(ActsNow(s, e))
  }

  lemma QueuedNowDestroys(s: State, e: Event)
    requires |ClosedNow(s, e)| <= 1
    ensures DestroyIds(QueuedNow(s, e)) == ClosedNow(s, e)
  {
    var closed := ClosedNow(s, e);
    QueuedDestroyNone(ActsNow(s, e));
    DestroyIdsAppend(if closed != [] then [Destroy(closed[0])] else [], QueuedBy(ActsNow(s, e)));
    assert closed != [] ==> [Destroy(closed[0])][1..] == [] && closed == [closed[0]];
    hide ClosedNow, ActsNow, QueuedBy;
  }

  lemma Regroup(before: seq<Task>, first: seq<Task>, second: seq<Task>)
    ensures before + first + second == before + (first + second)
  {
  }

  /** `ReportEffect` for the event. */
  lemma ReportFacts(s: State, outcome: Outcome)
    requires Invariant(s) && Enabled(s, Handle(outcome)) && s.phase.active[0].ConnChannel?
    requires HandleStep(s, outcome).Ok?
    ensures var t, e := HandleStep(s, outcome).s, Handle(outcome);
            && t.closed == s.closed + ClosedNow(s, e) && t.destroyed == s.destroyed && t.phase.Dispatching?
            && t.pending == s.pending + QueuedNow(s, e)
            && t.nextConnId == s.nextConnId && PassedOn(s, t, ActsNow(s, e), [])
  {
    hide Sound, Serving, Closing, InHandler, HandleReport, Concat, MessagesTo, QueuedBy, Tasks;
    var h, id := Handling(s), s.phase.active[0].conn;
    PopActiveKeeps(s, h);
    StagesApart(h, id);
    ReportEffect(h, id, s.phase.active[0].revents, outcome.read, outcome.written);
    var e := Handle(outcome);
    Regroup(s.pending, if ClosedNow(s, e) != [] then [Destroy(id)] else [], QueuedBy(ActsNow(s, e)));
  }

  lemma ReportKind(s: State, outcome: Outcome)
    requires s.phase.Dispatching? && s.phase.active != [] && s.phase.active[0].ConnChannel?
    ensures var e := Handle(outcome);
            && !RunsWork(s, e) && DestroyedNow(s, e) == []
            && ClosedNow(s, e) == if ClosedNow(s, e) != [] then [s.phase.active[0].conn] else []
  {
  }

  lemma ReportHistory(s: State, outcome: Outcome)
    requires Invariant(s) && Enabled(s, Handle(outcome)) && s.phase.active[0].ConnChannel?
    requires HandleStep(s, outcome).Ok?
    ensures var t, e := HandleStep(s, outcome).s, Handle(outcome);
            HistoryMoves(s, t, e) && MessagesMove(s, t, e) && t.nextConnId == s.nextConnId
  {
    ReportFacts(s, outcome);
    ReportKind(s, outcome);
    hide Sound, HandleStep, Concat, MessagesTo, QueuedBy, ActsNow, HistoryMoves, MessagesMove, PassedOn;
    hide ClosedNow, DestroyedNow, RunsWork, Enabled;
    hide QueuedNow, DestroyIds;
    var t, e := HandleStep(s, outcome).s, Handle(outcome);
    ActsPass(s, t, e);
    QueuedNowDestroys(s, e);
    DispatchingTasks(s, t, QueuedNow(s, e));
    SameTasksMove(s, t, e, QueuedNow(s, e));
  }

  lemma DispatchingTasks(s: State, t: State, queued: seq<Task>)
    requires s.phase.Dispatching? && t.phase.Dispatching? && t.pending == s.pending + queued
    ensures Tasks(t) == Tasks(s) + queued
  {
  }

  lemma NoMessages()
    ensures Concat<char>([]) == ""
  {
  }

  lemma AcceptMessages(s: State, outcome: Outcome)
    requires Invariant(s) && Enabled(s, Handle(outcome)) && s.phase.active[0].AcceptorChannel?
    requires outcome.accepted.Some? && HandleStep(s, outcome).Ok?
    ensures MessagesMove(s, HandleStep(s, outcome).s, Handle(outcome))
  {
    hide Sound, Serving, InHandler, NewConnection, Concat, MessagesTo, QueuedBy, Tasks;
    PopActiveKeeps(s, Handling(s));
    hide Invariant;
    NoMessages();
    OpenEffect(Handling(s), outcome.accepted.value, outcome.acts);
  }

  lemma AcceptMade(s: State, outcome: Outcome)
    requires Invariant(s) && Enabled(s, Handle(outcome)) && s.phase.active[0].AcceptorChannel?
    requires outcome.accepted.Some? && HandleStep(s, outcome).Ok?
    ensures var t, e := HandleStep(s, outcome).s, Handle(outcome);
            HistoryMoves(s, t, e) && MessagesMove(s, t, e) && t.nextConnId == s.nextConnId + 1
  {
    hide Sound, Serving, InHandler, NewConnection, Concat, MessagesTo, QueuedBy, Tasks, HistoryMoves, MessagesMove;
    hide DestroyIds;
    AcceptMessages(s, outcome);
    var e, h, t := Handle(outcome), Handling(s), HandleStep(s, outcome).s;
    PopActiveKeeps(s, h);
    hide Invariant;
    OpenEffect(h, outcome.accepted.value, outcome.acts);
    QueuedDestroyNone(outcome.acts);
    DispatchingTasks(s, t, QueuedBy(outcome.acts));
    NothingAdded(s.closed);
    SameTasksMove(s, t, e, QueuedBy(outcome.acts));
  }

  lemma AcceptHistory(s: State, outcome: Outcome)
    requires Invariant(s) && Enabled(s, Handle(outcome)) && s.phase.active[0].AcceptorChannel?
    requires HandleStep(s, outcome).Ok?
    ensures var t, e := HandleStep(s, outcome).s, Handle(outcome);
            && HistoryMoves(s, t, e) && MessagesMove(s, t, e)
            && t.nextConnId == s.nextConnId + if outcome.accepted.Some? then 1 else 0
  {
    hide Sound, Tasks, HistoryMoves, MessagesMove, DestroyIds;
    if outcome.accepted.Some? {
      AcceptMade(s, outcome);
    } else {
      var t, e := HandleStep(s, outcome).s, Handle(outcome);
      assert s.pending + [] == s.pending;
      DispatchingTasks(s, t, []);
      NothingDestroyed();
      SameTasksMove(s, t, e, []);
      NothingSent(s, t, e);
    }
  }

  lemma NothingDestroyed()
    ensures DestroyIds([]) == []
  {
  }

  /** Without acts and without queued work nothing is passed to anyone. */
  lemma NothingSent(s: State, t: State, e: Event)
    requires ActsNow(s, e) == [] && !RunsWork(s, e) && t.conns.Keys <= s.conns.Keys
    requires forall id <- t.conns :: t.conns[id].stream == s.conns[id].stream
    ensures MessagesMove(s, t, e)
  {
  }

  lemma DeliveredPasses(s: State, h: State, t: State, acts: seq<Act>)
    requires h.conns == s.conns && Delivered(h, t, acts)
    ensures PassedOn(s, t, acts, [])
  {
    hide Concat, MessagesTo, QueuedBy;
  }

  lemma OtherKind(s: State, outcome: Outcome)
    requires s.phase.Dispatching? && s.phase.active != [] && s.phase.active[0].OtherChannel?
    ensures var e := Handle(outcome);
            && !RunsWork(s, e) && DestroyedNow(s, e) == [] && ClosedNow(s, e) == [] && ActsNow(s, e) == outcome.acts
  {
  }

  lemma OtherHistory(s: State, outcome: Outcome)
    requires Invariant(s) && Enabled(s, Handle(outcome)) && s.phase.active[0].OtherChannel?
    requires HandleStep(s, outcome).Ok?
    ensures var t, e := HandleStep(s, outcome).s, Handle(outcome);
            HistoryMoves(s, t, e) && MessagesMove(s, t, e) && t.nextConnId == s.nextConnId
  {
    var e, h, t := Handle(outcome), Handling(s), HandleStep(s, outcome).s;
    hide Invariant, RunActs, QueuedBy, Tasks, HistoryMoves, MessagesMove, DestroyIds;
    ActsDeliver(h, outcome.acts);
    OtherKind(s, outcome);
    QueuedDestroyNone(outcome.acts);
    DispatchingTasks(s, t, QueuedBy(outcome.acts));
    DeliveredPasses(s, h, t, outcome.acts);
    hide Delivered, PassedOn, ActsNow, ClosedNow, DestroyedNow, RunsWork;
    NothingAdded(s.closed);
    ActsPass(s, t, e);
    SameTasksMove(s, t, e, QueuedBy(outcome.acts));
  }

  lemma PoppedTasksMove(s: State, p: State, t: State, e: Event, queued: seq<Task>)
    requires e.RunTask? && Popped(s, p) && Tasks(t) == Tasks(p) + queued && DestroyIds(queued) == []
    requires t.closed == s.closed && t.destroyed == s.destroyed + DestroyedNow(s, e)
    ensures HistoryMoves(s, t, e)
  {
    PopTasks(s, p);
    hide Tasks;
    DestroyIdsAppend([s.phase.batch[0]], Tasks(p));
    DestroyIdsAppend(Tasks(p), queued);
    assert DestroyIds([s.phase.batch[0]]) == DestroyedNow(s, e) by {
      assert [s.phase.batch[0]][1..] == [];
    }
  }

  lemma QueuedTasks(p: State, t: State, queued: seq<Task>)
    requires t.phase == p.phase && t.pending == p.pending + queued
    ensures Tasks(t) == Tasks(p) + queued
  {
  }

  lemma DestroyFacts(s: State, answer: int, acts: seq<Act>)
    requires Invariant(s) && Enabled(s, RunTask(answer, acts)) && s.phase.batch[0].Destroy?
    requires TaskStep(s, answer, acts).Ok?
    ensures var t, id := TaskStep(s, answer, acts).s, s.phase.batch[0].conn;
            var p := s.(phase := RunningTasks(s.phase.batch[1..]));
            && t.destroyed == s.destroyed + [id] && t.closed == s.closed && t.nextConnId == s.nextConnId
            && t.phase == p.phase && t.pending == s.pending + QueuedBy(acts) && PassedOn(s, t, acts, [id])
  {
    hide Sound, Destroying, Tasks, Dead, ConnectDestroyed, Concat, MessagesTo, QueuedBy;
    var p, id := s.(phase := RunningTasks(s.phase.batch[1..])), s.phase.batch[0].conn;
    PopTaskKeeps(s, p);
    DestroyEffect(p, id, acts);
    assert forall j: nat :: j != id ==> [id][0] != [j][0];
  }

  lemma DestroyKind(s: State, answer: int, acts: seq<Act>)
    requires s.phase.RunningTasks? && s.phase.batch != [] && s.phase.batch[0].Destroy?
    ensures var e := RunTask(answer, acts);
            && !RunsWork(s, e) && ClosedNow(s, e) == [] && ActsNow(s, e) == acts
            && DestroyedNow(s, e) == [s.phase.batch[0].conn]
  {
  }

  lemma DestroyMessages(s: State, answer: int, acts: seq<Act>)
    requires Invariant(s) && Enabled(s, RunTask(answer, acts)) && s.phase.batch[0].Destroy?
    requires TaskStep(s, answer, acts).Ok?
    ensures MessagesMove(s, TaskStep(s, answer, acts).s, RunTask(answer, acts))
  {
    hide Sound, Invariant, TaskStep, MessagesMove, PassedOn, DestroyedNow, ClosedNow, ActsNow, RunsWork, QueuedBy;
    DestroyFacts(s, answer, acts);
    DestroyKind(s, answer, acts);
    hide Enabled;
    ActsPass(s, TaskStep(s, answer, acts).s, RunTask(answer, acts));
  }

  lemma DestroyHistory(s: State, answer: int, acts: seq<Act>)
    requires Invariant(s) && Enabled(s, RunTask(answer, acts)) && s.phase.batch[0].Destroy?
    requires TaskStep(s, answer, acts).Ok?
    ensures var t, e := TaskStep(s, answer, acts).s, RunTask(answer, acts);
            && HistoryMoves(s, t, e) && MessagesMove(s, t, e) && t.nextConnId == s.nextConnId
  {
    hide Sound, Invariant, TaskStep, Tasks, QueuedBy, HistoryMoves, MessagesMove, DestroyIds, PassedOn;
    hide ClosedNow, DestroyedNow, ActsNow, RunsWork;
    DestroyMessages(s, answer, acts);
    DestroyFacts(s, answer, acts);
    DestroyKind(s, answer, acts);
    hide Enabled;
    var e, p := RunTask(answer, acts), s.(phase := RunningTasks(s.phase.batch[1..]));
    var t := TaskStep(s, answer, acts).s;
    QueuedDestroyNone(acts);
    QueuedTasks(p, t, QueuedBy(acts));
    NothingAdded(s.closed);
    PoppedTasksMove(s, p, t, e, QueuedBy(acts));
  }

  lemma NothingAdded(s: seq<nat>)
    ensures s + [] == s
  {
  }

  lemma UserHistory(s: State, answer: int, acts: seq<Act>)
    requires Invariant(s) && Enabled(s, RunTask(answer, acts)) && s.phase.batch[0].User?
    requires TaskStep(s, answer, acts).Ok?
    ensures var t, e := TaskStep(s, answer, acts).s, RunTask(answer, acts);
            HistoryMoves(s, t, e) && MessagesMove(s, t, e) && t.nextConnId == s.nextConnId
  {
    var e, p := RunTask(answer, acts), s.(phase := RunningTasks(s.phase.batch[1..]));
    hide Sound, Tasks, RunActs, Concat, MessagesTo, QueuedBy;
    NoMessages();
    ActsDeliver(p, acts);
    QueuedDestroyNone(acts);
    var t := TaskStep(s, answer, acts).s;
    QueuedTasks(p, t, QueuedBy(acts));
    PoppedTasksMove(s, p, t, e, QueuedBy(acts));
  }

  lemma WorkFacts(s: State, answer: int, acts: seq<Act>)
    requires Invariant(s) && Enabled(s, RunTask(answer, acts)) && s.phase.batch[0].Raw?
    requires TaskStep(s, answer, acts).Ok?
    ensures var t, task := TaskStep(s, answer, acts).s, s.phase.batch[0];
            && SameBookkeeping(s.(phase := RunningTasks(s.phase.batch[1..])), t) && t.conns.Keys == s.conns.Keys
            && task.conn in s.conns
            && (forall j <- s.conns :: j != task.conn ==> t.conns[j] == s.conns[j])
            && t.conns[task.conn].stream.passed == s.conns[task.conn].stream.passed
               + if task.work.SendWork? then task.work.message else ""
  {
    hide Sound, Tasks, SendInLoop, ShutdownInLoop, Flows;
    var p := s.(phase := RunningTasks(s.phase.batch[1..]));
    var id, work := s.phase.batch[0].conn, s.phase.batch[0].work;
    FlowsIn(s, id);
    if work.SendWork? {
      SendEffect(p, id, work.message, answer);
    } else {
      ShutdownEffect(p, id);
    }
  }

  lemma WorkHistory(s: State, answer: int, acts: seq<Act>)
    requires Invariant(s) && Enabled(s, RunTask(answer, acts)) && s.phase.batch[0].Raw?
    requires TaskStep(s, answer, acts).Ok?
    ensures var t, e := TaskStep(s, answer, acts).s, RunTask(answer, acts);
            HistoryMoves(s, t, e) && MessagesMove(s, t, e) && t.nextConnId == s.nextConnId
  {
    hide Invariant;
    WorkFacts(s, answer, acts);
    hide Enabled, TaskStep, Tasks, Concat, MessagesTo, HistoryMoves, DestroyIds;
    var e, p := RunTask(answer, acts), s.(phase := RunningTasks(s.phase.batch[1..]));
    var t, work := TaskStep(s, answer, acts).s, s.phase.batch[0].work;
    NoMessages();
    if work.SendWork? { OneMessage(work.message); }
    NothingDestroyed();
    assert p.pending + [] == p.pending;
    QueuedTasks(p, t, []);
    PoppedTasksMove(s, p, t, e, []);
  }

  lemma OneMessage(message: string)
    ensures Concat([message]) == message
  {
    ConcatSnoc([], message);
    assert [] + [message] == [message];
  }

  /** The steps in which no user code, no queued work and no close happens. */
  lemma QuietHistory(s: State, e: Event)
    requires Invariant(s) && Enabled(s, e) && Step(s, e).Ok? && !e.Handle? && !e.RunTask?
    ensures var t := Step(s, e).s;
            && HistoryMoves(s, t, e) && MessagesMove(s, t, e) && t.nextConnId == s.nextConnId && !Accepts(s, e)
  {
    hide Sound, HistoryMoves, DestroyIds;
    var t := Step(s, e).s;
    NothingSent(s, t, e);
    hide MessagesMove;
    if e.OtherThreadQueues? {
      assert Tasks(t) == Tasks(s) + [e.task];
      OtherTaskDestroysNone(e.task);
      SameTasksMove(s, t, e, [e.task]);
    } else {
      assert Tasks(t) == Tasks(s) + [];
      NothingDestroyed();
      SameTasksMove(s, t, e, []);
    }
  }

  lemma OtherTaskDestroysNone(task: Task)
    requires !task.Destroy?
    ensures DestroyIds([task]) == []
  {
    assert [task][1..] == [];
  }

  /** One event: what it closes, what it destroys, what it passes to `sendInLoop` of whom, and the tasks it leaves. */
  lemma StepHistory(s: State, e: Event)
    requires Invariant(s) && Enabled(s, e) && Step(s, e).Ok?
    ensures var t := Step(s, e).s;
            && HistoryMoves(s, t, e) && MessagesMove(s, t, e)
            && t.nextConnId == s.nextConnId + if Accepts(s, e) then 1 else 0
  {
    hide Sound, HandleStep, TaskStep, HistoryMoves, MessagesMove;
    match e
    case Handle(outcome) =>
      if s.phase.active[0].ConnChannel? {
        ReportHistory(s, outcome);
      } else if s.phase.active[0].AcceptorChannel? {
        AcceptHistory(s, outcome);
      } else {
        OtherHistory(s, outcome);
      }
    case RunTask(answer, acts) =>
      if s.phase.batch[0].Destroy? {
        DestroyHistory(s, answer, acts);
      } else if s.phase.batch[0].Raw? {
        WorkHistory(s, answer, acts);
      } else {
        UserHistory(s, answer, acts);
      }
    case _ => QuietHistory(s, e);
  }

  // ---- Whole runs.

  /** The connections that the reports of a run close, in order. */
  ghost function ClosedByReports(used: set<int>, es: seq<Event>): seq<nat> {
    if es == [] then []
    else
      var before, e := Exec(used, es[..|es| - 1]), es[|es| - 1];
      ClosedByReports(used, es[..|es| - 1]) + if before.At? then ClosedNow(before.s, e) else []
  }

  /** The messages that a run passes to connection id, in order. */
  ghost function MessagesOf(used: set<int>, es: seq<Event>, id: nat): seq<string> {
    if es == [] then []
    else
      var before, e := Exec(used, es[..|es| - 1]), es[|es| - 1];
      MessagesOf(used, es[..|es| - 1], id) + if before.At? then MessagesNow(before.s, e, id) else []
  }

  lemma RunBefore(used: set<int>, es: seq<Event>)
    requires es != [] && Unrevived(used, es) && Exec(used, es).At?
    ensures var before, e := Exec(used, es[..|es| - 1]), es[|es| - 1];
            && Unrevived(used, es[..|es| - 1]) && before.At? && Enabled(before.s, e) && Invariant(before.s)
            && Step(before.s, e).Ok? && Exec(used, es).s == Step(before.s, e).s
  {
    RunsAreSafe(used, es[..|es| - 1]);
    hide Invariant;
  }

  lemma Regrouped(destroyed: seq<nat>, waiting: seq<nat>, closedNow: seq<nat>, destroyedNow: seq<nat>, left: seq<nat>)
    requires waiting + closedNow == destroyedNow + left
    ensures destroyed + waiting + closedNow == destroyed + destroyedNow + left
  {
    assert destroyed + waiting + closedNow == destroyed + (waiting + closedNow);
    assert destroyed + destroyedNow + left == destroyed + (destroyedNow + left);
  }

  lemma StepKeepsCloseOrder(s: State, e: Event)
    requires Invariant(s) && Enabled(s, e) && Step(s, e).Ok?
    requires s.closed == s.destroyed + DestroyIds(Tasks(s))
    ensures var t := Step(s, e).s;
            t.closed == s.closed + ClosedNow(s, e) && t.closed == t.destroyed + DestroyIds(Tasks(t))
  {
    StepHistory(s, e);
    hide Invariant, Enabled, Step, Tasks, ClosedNow, DestroyedNow, DestroyIds, MessagesMove;
    var t := Step(s, e).s;
    Regrouped(s.destroyed, DestroyIds(Tasks(s)), ClosedNow(s, e), DestroyedNow(s, e), DestroyIds(Tasks(t)));
  }

  /** Connections are closed by exactly the reports that hang up without input or are readable and read 0, in that
      order; and they are destroyed in the order in which they were closed, those still to come being queued in it. */
  lemma {:induction false} DestroyedInCloseOrder(used: set<int>, es: seq<Event>)
    requires Unrevived(used, es) && Exec(used, es).At?
    ensures var s := Exec(used, es).s;
            && s.closed == ClosedByReports(used, es)
            && s.closed == s.destroyed + DestroyIds(Tasks(s))
            && (s.phase.Polling? ==> s.destroyed == s.closed)
  {
    hide Invariant, Enabled, Step, Tasks, ClosedNow, DestroyIds;
    if es != [] {
      RunBefore(used, es);
      DestroyedInCloseOrder(used, es[..|es| - 1]);
      StepKeepsCloseOrder(Exec(used, es[..|es| - 1]).s, es[|es| - 1]);
    } else {
      NothingWaits(used);
    }
    RunsAreSafe(used, es);
    NoneLeftAtPoll(Exec(used, es).s);
  }

  lemma NothingWaits(used: set<int>)
    ensures DestroyIds(Tasks(Initial(used))) == []
  {
    assert Tasks(Initial(used)) == [];
  }

  lemma NoneLeftAtPoll(s: State)
    requires Invariant(s)
    ensures s.phase.Polling? ==> DestroyIds(Tasks(s)) == []
  {
    if s.phase.Polling? {
      assert Tasks(s) == [] + s.pending;
      DestroyIdsEmpty(Tasks(s));
    }
  }

  lemma NumbersAreGiven(s: State)
    requires Invariant(s)
    ensures forall id <- s.conns :: id < s.nextConnId
  {
    hide Core, Staged, Phased, Flowing;
  }

  /** `sent` is what has been passed to connection id, and nothing to a number not yet given out. */
  ghost predicate PassedSoFar(s: State, id: nat, sent: seq<string>) {
    && (id in s.conns ==> s.conns[id].stream.passed == Concat(sent))
    && (id >= s.nextConnId ==> sent == [])
  }

  lemma StepPasses(s: State, e: Event, id: nat, sent: seq<string>)
    requires Invariant(s) && Enabled(s, e) && Step(s, e).Ok? && PassedSoFar(s, id, sent)
    ensures PassedSoFar(Step(s, e).s, id, sent + MessagesNow(s, e, id))
  {
    StepHistory(s, e);
    NumbersAreGiven(s);
    NoMessages();
    ConcatAppend(sent, MessagesNow(s, e, id));
    if id >= Step(s, e).s.nextConnId { UnknownGetsNothing(s, e, id); }
    hide Invariant, Enabled, Step, HistoryMoves, Concat, MessagesNow;
  }

  lemma UnknownGetsNothing(s: State, e: Event, id: nat)
    requires Invariant(s) && Enabled(s, e) && Step(s, e).Ok? && id !in s.conns
    requires id == s.nextConnId ==> !Accepts(s, e)
    ensures MessagesNow(s, e, id) == []
  {
  }

  /** What was passed to a connection is the messages that the run passed to it, in order; a number not yet given out
      has been passed none. */
  lemma {:induction false} PassedIsSent(used: set<int>, es: seq<Event>, id: nat)
    requires Unrevived(used, es) && Exec(used, es).At?
    ensures PassedSoFar(Exec(used, es).s, id, MessagesOf(used, es, id))
  {
    if es == [] {
      return;
    }
    RunBefore(used, es);
    PassedIsSent(used, es[..|es| - 1], id);
    hide Invariant, Enabled, Step, MessagesNow, PassedSoFar;
    StepPasses(Exec(used, es[..|es| - 1]).s, es[|es| - 1], id, MessagesOf(used, es[..|es| - 1], id));
  }

  /** Over every run of the server: what the socket of a connection has taken and what is buffered for it are, in order,
      the messages that the run has passed to it, each once. */
  lemma ServerOutputIsMessages(used: set<int>, es: seq<Event>, id: nat)
    requires Unrevived(used, es) && Exec(used, es).At? && id in Exec(used, es).s.conns
    ensures var c := Exec(used, es).s.conns[id];
            c.stream.accepted + c.stream.output == Concat(MessagesOf(used, es, id))
  {
    ServerOutputIsExact(used, es, id);
    PassedIsSent(used, es, id);
  }
}
