/** net/EventLoop.cc: the loop, the functor queue shared with other threads, and the eventfd that wakes the loop. */
module EventLoop {
  import opened Sequences

  const EVENTFD_MAX := 0xFFFF_FFFF_FFFF_FFFE

  /** Where the loop thread is: outside `loop()`, at the `while (!quit_)` test, at `epoll_wait`, in the handlers (with
      the wake-up channel still to be handled or not), before the swap of `doPendingFunctors`, or running functors. */
  datatype Place = Outside | AtTest | AtPoll | Handling(wakeup: bool) | BeforeSwap | Running

  /** `waking` are the other threads between their push (or their write of `quit_`) and their `wakeUp`; `owesWakeup`
      says so of the loop thread. `early` says of each pending functor whether the loop thread queued it outside
      `loop()` without a wake-up. `queued` and `executed` are histories. */
  datatype Loop<F> = Loop(
    place: Place, quit: bool, runningFunctors: bool, pending: seq<F>, batch: seq<F>, counter: nat,
    waking: set<nat>, owesWakeup: bool, early: seq<bool>, queued: seq<F>, executed: seq<F>)

  datatype Event<F> =
    | OtherPush(thread: nat, f: F) | OtherQuit(thread: nat) | OtherWake(thread: nat)
    | OwnPush(f: F) | OwnWake | OwnQuit
    | Enter | Test | PollReturns(wakeup: bool) | Drain | EndHandling | Swap | RunFunctor | EndPass

  /** `runingPendingFunctors_` is not initialised by the constructor, so it is arbitrary here. */
  function Initial<F>(flag: bool): Loop<F> {
    Loop(Outside, false, flag, [], [], 0, {}, false, [], [], [])
  }

  /** User code of the loop thread runs before `loop()`, in handlers and in functors. */
  predicate UserCode<F>(s: Loop<F>) {
    !s.owesWakeup && (s.place.Outside? || s.place.Handling? || s.place.Running?)
  }

  /** `epoll_wait` reports the eventfd only when it is readable. */
  predicate Enabled<F>(s: Loop<F>, e: Event<F>) {
    match e
    case OtherPush(thread, _) => thread !in s.waking
    case OtherQuit(thread) => thread !in s.waking
    case OtherWake(thread) => thread in s.waking
    case OwnPush(_) => UserCode(s)
    case OwnWake => s.owesWakeup
    case OwnQuit => UserCode(s)
    case Enter => !s.owesWakeup && s.place.Outside?
    case Test => s.place.AtTest?
    case PollReturns(wakeup) => s.place.AtPoll? && (wakeup ==> s.counter > 0)
    case Drain => !s.owesWakeup && s.place == Handling(true)
    case EndHandling => !s.owesWakeup && s.place == Handling(false)
    case Swap => s.place.BeforeSwap?
    case RunFunctor => !s.owesWakeup && s.place.Running? && |s.batch| > 0
    case EndPass => !s.owesWakeup && s.place.Running? && |s.batch| == 0
  }

  /** A write of 1 to the eventfd; at the maximum it fails and leaves the counter there. */
  function Bumped(counter: nat): nat {
    if counter < EVENTFD_MAX then counter + 1 else counter
  }

  function Pushed<F>(s: Loop<F>, f: F, early: bool): Loop<F> {
    s.(pending := s.pending + [f], early := s.early + [early], queued := s.queued + [f])
  }

  function Step<F>(s: Loop<F>, e: Event<F>): Loop<F>
    requires Enabled(s, e)
  {
    match e
    case OtherPush(thread, f) => Pushed(s, f, false).(waking := s.waking + {thread})
    case OtherQuit(thread) => s.(quit := true, waking := s.waking + {thread})
    case OtherWake(thread) => s.(counter := Bumped(s.counter), waking := s.waking - {thread})
    case OwnPush(f) =>
      Pushed(s, f, s.place.Outside? && !s.runningFunctors).(owesWakeup := s.runningFunctors)
    case OwnWake => s.(counter := Bumped(s.counter), owesWakeup := false)
    case OwnQuit => s.(quit := true)
    case Enter => s.(place := AtTest, quit := false)
    case Test => s.(place := if s.quit then Outside else AtPoll)
    case PollReturns(wakeup) => s.(place := Handling(wakeup))
    case Drain => s.(place := Handling(false), counter := 0)
    case EndHandling => s.(place := BeforeSwap, runningFunctors := true)
    case Swap => s.(place := Running, batch := s.pending, pending := [], early := [])
    case RunFunctor => s.(executed := s.executed + [s.batch[0]], batch := s.batch[1..])
    case EndPass => s.(place := AtTest, runningFunctors := false)
  }

  /** The state after a run; None when some event was not enabled. */
  function Exec<F>(s: Loop<F>, es: seq<Event<F>>): Option<Loop<F>> {
    if |es| == 0 then Some(s)
    else
      var before := Exec(s, es[..|es| - 1]);
      if before.None? || !Enabled(before.value, es[|es| - 1]) then None
      else Some(Step(before.value, es[|es| - 1]))
  }

  /** Something will end the next poll: the eventfd is readable, or a thread is about to make it so. */
  predicate Notified<F>(s: Loop<F>) {
    s.counter > 0 || s.waking != {} || s.owesWakeup
  }

  ghost predicate Invariant<F>(s: Loop<F>) {
    && s.queued == s.executed + s.batch + s.pending
    && (|s.batch| > 0 ==> s.place.Running?)
    && (s.place.BeforeSwap? || s.place.Running? ==> s.runningFunctors)
    && (s.owesWakeup ==> s.place.Outside? || s.place.Handling? || s.place.Running?)
    && |s.early| == |s.pending|
    && (false in s.early && !s.place.Handling? && !s.place.BeforeSwap? ==> Notified(s))
    && (s.quit && s.place.AtPoll? ==> s.counter > 0 || s.waking != {})
  }

  lemma OtherThreadKeeps<F>(s: Loop<F>, e: Event<F>)
    requires Invariant(s) && Enabled(s, e) && (e.OtherPush? || e.OtherQuit? || e.OtherWake?)
    ensures Invariant(Step(s, e))
  {
    assert !e.OtherWake? ==> e.thread in Step(s, e).waking;
  }

  lemma UserCodeKeeps<F>(s: Loop<F>, e: Event<F>)
    requires Invariant(s) && Enabled(s, e) && (e.OwnPush? || e.OwnWake? || e.OwnQuit?)
    ensures Invariant(Step(s, e))
  {
  }

  lemma FunctorKeeps<F>(s: Loop<F>)
    requires Invariant(s) && Enabled(s, RunFunctor)
    ensures Invariant(Step(s, RunFunctor))
  {
    assert s.batch == [s.batch[0]] + s.batch[1..];
  }

  lemma LoopKeeps<F>(s: Loop<F>, e: Event<F>)
    requires Invariant(s) && Enabled(s, e)
    requires e.Enter? || e.Test? || e.PollReturns? || e.Drain? || e.EndHandling? || e.Swap? || e.EndPass?
    ensures Invariant(Step(s, e))
  {
  }

  lemma StepKeepsInvariant<F>(s: Loop<F>, e: Event<F>)
    requires Invariant(s) && Enabled(s, e)
    ensures Invariant(Step(s, e))
  {
    hide Invariant, Enabled, Step;
    match e
    case OtherPush(_, _) | OtherQuit(_) | OtherWake(_) => OtherThreadKeeps(s, e);
    case OwnPush(_) | OwnWake | OwnQuit => UserCodeKeeps(s, e);
    case RunFunctor => FunctorKeeps(s);
    case _ => LoopKeeps(s, e);
  }

  lemma {:induction false} RunKeepsInvariant<F>(flag: bool, es: seq<Event<F>>)
    requires Exec(Initial<F>(flag), es).Some?
    ensures Invariant(Exec(Initial<F>(flag), es).value)
  {
    if |es| > 0 {
      RunKeepsInvariant(flag, es[..|es| - 1]);
      StepKeepsInvariant(Exec(Initial<F>(flag), es[..|es| - 1]).value, es[|es| - 1]);
    }
  }

  /** In every interleaving: a loop at its poll with a quit request or a functor waiting is, or is about to be, woken
      by another thread's write; the only functors that do not count are those that the loop thread itself queued
      before it entered `loop()`. */
  lemma NoLostWakeup<F>(flag: bool, es: seq<Event<F>>)
    requires Exec(Initial<F>(flag), es).Some?
    ensures var s := Exec(Initial<F>(flag), es).value;
            && |s.early| == |s.pending|
            && (s.place.AtPoll? && (s.quit || exists i :: 0 <= i < |s.pending| && !s.early[i]) ==>
                s.counter > 0 || s.waking != {})
  {
    RunKeepsInvariant(flag, es);
  }

  /** Every functor ever queued is executed once, in queueing order: the executed ones, the rest of the batch and the
      pending ones are, in this order, all that were queued. */
  lemma {:induction false} FifoExactlyOnce<F>(flag: bool, es: seq<Event<F>>)
    requires Exec(Initial<F>(flag), es).Some?
    ensures var s := Exec(Initial<F>(flag), es).value;
            s.queued == s.executed + s.batch + s.pending && (|s.batch| > 0 ==> s.place.Running?)
  {
    RunKeepsInvariant(flag, es);
  }

  lemma ExecAppend<F>(s: Loop<F>, left: seq<Event<F>>, right: seq<Event<F>>)
    requires Exec(s, left).Some?
    ensures Exec(s, left + right) == Exec(Exec(s, left).value, right)
  {
    if |right| == 0 {
      assert left + right == left;
    } else {
      assert (left + right)[..|left + right| - 1] == left + right[..|right| - 1];
      ExecAppend(s, left, right[..|right| - 1]);
    }
  }

  /** What a loop that has passed a poll owes to the functors queued until then. */
  ghost predicate Caught<F>(upTo: seq<F>, s: Loop<F>) {
    && upTo <= s.queued
    && (!s.place.Handling? && !s.place.BeforeSwap? ==> upTo <= s.executed + s.batch)
  }

  lemma StepCatches<F>(upTo: seq<F>, s: Loop<F>, e: Event<F>)
    requires Invariant(s) && Enabled(s, e) && Caught(upTo, s)
    ensures Caught(upTo, Step(s, e))
  {
    if e.RunFunctor? {
      assert s.executed + s.batch == (s.executed + [s.batch[0]]) + s.batch[1..];
    }
  }

  lemma {:induction false} RunCatches<F>(s: Loop<F>, es: seq<Event<F>>)
    requires Invariant(s) && s.place.Handling? && Exec(s, es).Some?
    ensures Invariant(Exec(s, es).value) && Caught(s.queued, Exec(s, es).value)
  {
    if |es| > 0 {
      RunCatches(s, es[..|es| - 1]);
      StepKeepsInvariant(Exec(s, es[..|es| - 1]).value, es[|es| - 1]);
      StepCatches(s.queued, Exec(s, es[..|es| - 1]).value, es[|es| - 1]);
    }
  }

  /** Every functor queued before a poll returned has been executed, in queueing order, by the time the loop is
      back at a poll, whatever all threads did in between. */
  lemma ExecutedByNextPoll<F>(flag: bool, before: seq<Event<F>>, wakeup: bool, after: seq<Event<F>>)
    requires Exec(Initial<F>(flag), before + [PollReturns(wakeup)] + after).Some?
    requires Exec(Initial<F>(flag), before + [PollReturns(wakeup)] + after).value.place.AtPoll?
    ensures Exec(Initial<F>(flag), before).Some?
    ensures Exec(Initial<F>(flag), before).value.queued
         <= Exec(Initial<F>(flag), before + [PollReturns(wakeup)] + after).value.executed
  {
    var first := before + [PollReturns(wakeup)];
    PrefixRuns(Initial<F>(flag), first, after);
    assert first[..|before|] == before;
    ExecAppend(Initial<F>(flag), first, after);
    RunKeepsInvariant(flag, first);
    RunCatches(Exec(Initial<F>(flag), first).value, after);
  }

  lemma PrefixRuns<F>(s: Loop<F>, left: seq<Event<F>>, right: seq<Event<F>>)
    requires Exec(s, left + right).Some?
    ensures Exec(s, left).Some?
  {
    if |right| == 0 {
      assert left + right == left;
    } else {
      assert (left + right)[..|left + right| - 1] == left + right[..|right| - 1];
      PrefixRuns(s, left, right[..|right| - 1]);
    }
  }

  /** `queueInLoop`: push under the lock, then wake when the caller is another thread or functors are running. The
      caller None is the loop thread. */
  function QueueEvents<F>(s: Loop<F>, f: F, caller: Option<nat>): seq<Event<F>> {
    match caller
    case Some(thread) => [OtherPush(thread, f), OtherWake(thread)]
    case None => if s.runningFunctors then [OwnPush(f), OwnWake] else [OwnPush(f)]
  }

  lemma ExecNone<F>(s: Loop<F>)
    ensures Exec(s, []) == Some(s)
  {
  }

  lemma ExecOne<F>(s: Loop<F>, e: Event<F>)
    ensures Exec(s, [e]) == if Enabled(s, e) then Some(Step(s, e)) else None
  {
    assert [e][..0] == [];
    assert Exec(s, [e][..0]) == Some(s);
  }

  lemma ExecTwo<F>(s: Loop<F>, e: Event<F>, d: Event<F>)
    requires Enabled(s, e) && Enabled(Step(s, e), d)
    ensures Exec(s, [e, d]) == Some(Step(Step(s, e), d))
  {
    ExecOne(s, e);
    assert [e, d][..1] == [e];
  }

  /** The one gap: work queued by the loop thread before `loop()` wakes the first poll exactly when the uninitialised
      flag happened to be set, or someone else has written or is about to write the eventfd. */
  lemma EarlyFunctorGap<F>(s: Loop<F>, f: F)
    requires s.place.Outside? && !s.owesWakeup
    ensures var es := QueueEvents(s, f, None) + [Enter, Test];
            && Exec(s, es).Some?
            && var t := Exec(s, es).value;
            && t.place.AtPoll? && f in t.pending
            && (Notified(t) <==> s.runningFunctors || s.counter > 0 || s.waking != {})
  {
    var pushed := Step(s, OwnPush(f));
    ExecOne(s, OwnPush(f));
    if s.runningFunctors { ExecTwo(s, OwnPush(f), OwnWake); }
    var queued := Exec(s, QueueEvents(s, f, None)).value;
    ExecTwo(queued, Enter, Test);
    ExecAppend(s, QueueEvents(s, f, None), [Enter, Test]);
    assert pushed.pending[|s.pending|] == f;
  }

  /** `queueInLoop(f)` as some thread calls it. */
  datatype Call<F> = Call(f: F, caller: Option<nat>)

  function Functors<F>(calls: seq<Call<F>>): seq<F> {
    seq(|calls|, i requires 0 <= i < |calls| => calls[i].f)
  }

  /** What one turn of the loop meets: whether the eventfd is among the reports (when readable), the calls made while
      the handlers run, a `quit` by the loop thread or another, the calls made while each functor runs. */
  datatype Round<F> = Round(
    wakeup: bool, handlers: seq<Call<F>>, quit: Option<Option<nat>>, during: nat -> seq<Call<F>>)

  /** The functors queued while the first n functors of a batch run. */
  function QueuedDuring<F>(during: nat -> seq<Call<F>>, n: nat): seq<F> {
    if n == 0 then [] else QueuedDuring(during, n - 1) + Functors(during(n - 1))
  }

  /** `t` is `s` with `added` queued; only the eventfd and the record of early work may differ besides. */
  ghost predicate Grown<F>(s: Loop<F>, t: Loop<F>, added: seq<F>) {
    t == s.(pending := s.pending + added, queued := s.queued + added, counter := t.counter, early := t.early)
  }

  lemma GrownTwice<F>(s: Loop<F>, t: Loop<F>, u: Loop<F>, first: seq<F>, second: seq<F>)
    requires Grown(s, t, first) && Grown(t, u, second)
    ensures Grown(s, u, first + second)
  {
    assert s.pending + first + second == s.pending + (first + second);
    assert s.queued + first + second == s.queued + (first + second);
  }

  /** The eventfd after `count` writes: it grows by as many, up to its maximum. */
  function Woken(counter: nat, count: nat): nat {
    if counter >= EVENTFD_MAX then counter
    else if counter + count < EVENTFD_MAX then counter + count else EVENTFD_MAX
  }

  /** Which of the calls wake the loop: all while functors run, else those of other threads. */
  function Wakes<F>(calls: seq<Call<F>>, running: bool): nat {
    if |calls| == 0 then 0
    else Wakes(calls[..|calls| - 1], running) + if running || calls[|calls| - 1].caller.Some? then 1 else 0
  }

  lemma {:induction false} AllWake<F>(calls: seq<Call<F>>)
    ensures Wakes(calls, true) == |calls|
  {
    if |calls| > 0 { AllWake(calls[..|calls| - 1]); }
  }

  lemma NoneDuring<F>(during: nat -> seq<Call<F>>, counter: nat)
    ensures QueuedDuring(during, 0) == [] && Woken(counter, 0) == counter
  {
  }

  lemma DuringStep<F>(during: nat -> seq<Call<F>>, i: nat, counter: nat)
    ensures QueuedDuring(during, i + 1) == QueuedDuring(during, i) + Functors(during(i))
    ensures Woken(Woken(counter, |QueuedDuring(during, i)|), Wakes(during(i), true))
         == Woken(counter, |QueuedDuring(during, i + 1)|)
  {
    AllWake(during(i));
  }

  lemma WokenIsPositive(counter: nat, count: nat)
    ensures count > 0 ==> Woken(counter, count) > 0
  {
  }

  /** The functors pending after n turns, when `first` are pending before them. */
  function PendingAfter<F>(rounds: seq<Round<F>>, n: nat, first: seq<F>): seq<F>
    requires n <= |rounds|
  {
    if n == 0 then first
    else QueuedDuring(rounds[n - 1].during, |PendingAfter(rounds, n - 1, first)| + |rounds[n - 1].handlers|)
  }

  /** The functors that n turns execute. */
  function ExecutedIn<F>(rounds: seq<Round<F>>, n: nat, first: seq<F>): seq<F>
    requires n <= |rounds|
  {
    if n == 0 then []
    else ExecutedIn(rounds, n - 1, first) + PendingAfter(rounds, n - 1, first) + Functors(rounds[n - 1].handlers)
  }

  lemma NoTurns<F>(rounds: seq<Round<F>>, executed: seq<F>, first: seq<F>)
    ensures PendingAfter(rounds, 0, first) == first && executed == executed + ExecutedIn(rounds, 0, first)
  {
  }

  lemma TurnAdds<F>(rounds: seq<Round<F>>, n: nat, executed: seq<F>, first: seq<F>)
    requires n < |rounds|
    ensures var pending, round := PendingAfter(rounds, n, first), rounds[n];
            && PendingAfter(rounds, n + 1, first) == QueuedDuring(round.during, |pending| + |round.handlers|)
            && executed + ExecutedIn(rounds, n, first) + pending + Functors(round.handlers)
               == executed + ExecutedIn(rounds, n + 1, first)
  {
    var e, p, h := ExecutedIn(rounds, n, first), PendingAfter(rounds, n, first), Functors(rounds[n].handlers);
    assert executed + e + p + h == executed + (e + p + h);
  }

  class EventLoop<F> {
    var quit: bool
    var runningPendingFunctors: bool
    var pendingFunctors: seq<F>
    /** The eventfd behind `wakeupFd_`. */
    var counter: nat
    ghost var state: Loop<F>

    /** Between whole calls: no thread is inside `queueInLoop` or `quit`. */
    ghost predicate Valid()
      reads this
    {
      && state.quit == quit && state.runningFunctors == runningPendingFunctors
      && state.pending == pendingFunctors && state.counter == counter
      && state.waking == {} && !state.owesWakeup
    }

    constructor (flag: bool)
      ensures Valid() && state == Initial(flag)
    {
      quit, runningPendingFunctors, pendingFunctors, counter := false, flag, [], 0;
      state := Initial(flag);
    }

    method WakeUp()
      modifies this`counter
      ensures counter == Woken(old(counter), 1) == Bumped(old(counter))
      ensures counter == if old(counter) < 0xFFFF_FFFF_FFFF_FFFE then old(counter) + 1 else old(counter)
    {
      if counter < EVENTFD_MAX {
        counter := counter + 1;
      }
    }

    method QueueInLoop(f: F, caller: Option<nat>)
      requires Valid() && (caller.None? ==> UserCode(state))
      modifies this
      ensures Valid() && Exec(old(state), QueueEvents(old(state), f, caller)) == Some(state)
      ensures Grown(old(state), state, [f])
      ensures counter == Woken(old(counter), if caller.Some? || old(runningPendingFunctors) then 1 else 0)
    {
      ghost var s := state;
      pendingFunctors := pendingFunctors + [f];
      if caller.Some? || runningPendingFunctors {
        WakeUp();
      }
      if caller.Some? {
        state := Step(Step(s, OtherPush(caller.value, f)), OtherWake(caller.value));
        ExecTwo(s, OtherPush(caller.value, f), OtherWake(caller.value));
      } else if s.runningFunctors {
        state := Step(Step(s, OwnPush(f)), OwnWake);
        ExecTwo(s, OwnPush(f), OwnWake);
      } else {
        state := Step(s, OwnPush(f));
        ExecOne(s, OwnPush(f));
      }
    }

    /** `runInLoop`: on the loop thread the functor runs at once, otherwise it is queued. */
    method RunInLoop(f: F, caller: Option<nat>) returns (ranNow: bool)
      requires Valid() && (caller.None? ==> UserCode(state))
      modifies this
      ensures Valid() && ranNow == caller.None?
      ensures ranNow ==> state == old(state)
      ensures !ranNow ==> Exec(old(state), QueueEvents(old(state), f, caller)) == Some(state)
    {
      ranNow := caller.None?;
      if !ranNow {
        QueueInLoop(f, caller);
      }
    }

    method Quit(caller: Option<nat>)
      requires Valid() && (caller.None? ==> UserCode(state))
      modifies this
      ensures Valid() && state == old(state).(quit := true, counter := counter) && quit
      ensures counter == Woken(old(counter), if caller.Some? then 1 else 0)
      ensures Exec(old(state), if caller.Some? then [OtherQuit(caller.value), OtherWake(caller.value)] else [OwnQuit])
           == Some(state)
    {
      ghost var s := state;
      quit := true;
      if caller.Some? {
        WakeUp();
        state := Step(Step(s, OtherQuit(caller.value)), OtherWake(caller.value));
        ExecTwo(s, OtherQuit(caller.value), OtherWake(caller.value));
      } else {
        state := Step(s, OwnQuit);
        ExecOne(s, OwnQuit);
      }
    }

    /** The wake-up channel's read handler. */
    method HandleRead()
      requires Valid() && state.place == Handling(true)
      modifies this
      ensures Valid() && counter == 0 && state == Step(old(state), Drain)
    {
      counter := 0;
      state := Step(state, Drain);
    }

    /** The `queueInLoop` calls made, by whatever threads, while one piece of user code runs. */
    method QueueAll(calls: seq<Call<F>>) returns (ghost es: seq<Event<F>>)
      requires Valid() && UserCode(state)
      modifies this
      ensures Valid() && Exec(old(state), es) == Some(state)
      ensures Grown(old(state), state, Functors(calls))
      ensures counter == Woken(old(counter), Wakes(calls, old(runningPendingFunctors)))
    {
      hide Exec;
      es := [];
      ghost var s := state;
      ExecNone(s);
      for i := 0 to |calls|
        invariant Valid() && Exec(s, es) == Some(state)
        invariant Grown(s, state, Functors(calls[..i]))
        invariant counter == Woken(s.counter, Wakes(calls[..i], s.runningFunctors))
      {
        ghost var before := state;
        ghost var more := QueueEvents(state, calls[i].f, calls[i].caller);
        ExecAppend(s, es, more);
        QueueInLoop(calls[i].f, calls[i].caller);
        es := es + more;
        GrownTwice(s, before, state, Functors(calls[..i]), [calls[i].f]);
        assert Functors(calls[..i + 1]) == Functors(calls[..i]) + [calls[i].f];
        assert calls[..i + 1][..i] == calls[..i];
      }
      assert calls[..|calls|] == calls;
    }

    /** `tempFunctors[i]()`, with the calls made while it runs. */
    method RunNext(calls: seq<Call<F>>) returns (ghost es: seq<Event<F>>)
      requires Valid() && Enabled(state, RunFunctor)
      modifies this
      ensures Valid() && Exec(old(state), es) == Some(state)
      ensures Grown(Step(old(state), RunFunctor), state, Functors(calls))
      ensures counter == Woken(old(counter), Wakes(calls, old(runningPendingFunctors)))
    {
      ghost var s := state;
      ExecOne(s, RunFunctor);
      state := Step(s, RunFunctor);
      es := QueueAll(calls);
      ExecAppend(s, [RunFunctor], es);
      es := [RunFunctor] + es;
    }

    /** The flag, and the swap under the lock. */
    method TakeBatch() returns (tempFunctors: seq<F>, ghost es: seq<Event<F>>)
      requires Valid() && state.place == Handling(false)
      modifies this
      ensures Valid() && Exec(old(state), es) == Some(state)
      ensures tempFunctors == old(pendingFunctors) && pendingFunctors == [] && runningPendingFunctors
      ensures counter == old(counter) && quit == old(quit)
      ensures state == Step(Step(old(state), EndHandling), Swap)
    {
      tempFunctors := pendingFunctors;
      runningPendingFunctors := true;
      pendingFunctors := [];
      es := [EndHandling, Swap];
      ExecTwo(state, EndHandling, Swap);
      state := Step(Step(state, EndHandling), Swap);
    }

    method EndBatch() returns (ghost es: seq<Event<F>>)
      requires Valid() && Enabled(state, EndPass)
      modifies this
      ensures Valid() && Exec(old(state), es) == Some(state)
      ensures state == Step(old(state), EndPass) && !runningPendingFunctors
      ensures pendingFunctors == old(pendingFunctors) && counter == old(counter) && quit == old(quit)
    {
      runningPendingFunctors := false;
      es := [EndPass];
      ExecOne(state, EndPass);
      state := Step(state, EndPass);
    }

    /** `doPendingFunctors`. `during(i)` are the calls made while the i-th functor of the batch runs. Exactly the
        functors pending at the swap are executed, in order; what they and other threads queue meanwhile stays
        queued, and the next poll is already woken for it. */
    method DoPendingFunctors(during: nat -> seq<Call<F>>) returns (ghost es: seq<Event<F>>)
      requires Valid() && state.place == Handling(false)
      modifies this
      ensures Valid() && Exec(old(state), es) == Some(state) && state.place.AtTest?
      ensures state.executed == old(state).executed + old(pendingFunctors) && |state.batch| == 0
      ensures pendingFunctors == QueuedDuring(during, |old(pendingFunctors)|)
      ensures counter == Woken(old(counter), |pendingFunctors|) && (|pendingFunctors| > 0 ==> counter > 0)
      ensures !runningPendingFunctors && quit == old(quit)
    {
      hide Exec, QueuedDuring, Functors, Wakes, Woken;
      ghost var s := state;
      NoneDuring(during, counter);
      var tempFunctors;
      tempFunctors, es := TakeBatch();
      for i := 0 to |tempFunctors|
        invariant Valid() && Exec(s, es) == Some(state) && state.place.Running?
        invariant state.executed == s.executed + tempFunctors[..i] && state.batch == tempFunctors[i..]
        invariant runningPendingFunctors && quit == old(quit)
        invariant counter == Woken(old(counter), |pendingFunctors|)
        invariant pendingFunctors == QueuedDuring(during, i)
      {
        DuringStep(during, i, s.counter);
        ghost var more := RunNext(during(i));
        ExecAppend(s, es, more);
        es := es + more;
      }
      assert tempFunctors[..|tempFunctors|] == tempFunctors;
      WokenIsPositive(s.counter, |pendingFunctors|);
      ghost var last := EndBatch();
      ExecAppend(s, es, last);
      es := es + last;
    }

    /** The handlers of one poll: the wake-up channel's when it is reported, and the others with the calls that they and
        other threads make meanwhile. */
    method HandleReports(wakeup: bool, calls: seq<Call<F>>) returns (ghost es: seq<Event<F>>)
      requires Valid() && state.place == Handling(wakeup)
      modifies this
      ensures Valid() && Exec(old(state), es) == Some(state) && state.place == Handling(false)
      ensures counter == Woken(if wakeup then 0 else old(counter), Wakes(calls, old(runningPendingFunctors)))
      ensures pendingFunctors == old(pendingFunctors) + Functors(calls) && quit == old(quit)
      ensures |pendingFunctors| == |old(pendingFunctors)| + |calls|
      ensures runningPendingFunctors == old(runningPendingFunctors)
      ensures state.executed == old(state).executed && state.batch == old(state).batch
    {
      hide Exec;
      ghost var s := state;
      es := [];
      ExecNone(s);
      if wakeup {
        es := [Drain];
        ExecOne(state, Drain);
        HandleRead();
      }
      ghost var handled := QueueAll(calls);
      ExecAppend(s, es, handled);
      es := es + handled;
    }

    /** One turn of `while (!quit_)`: the poll, the wake-up handler when it is reported, the other handlers, a possible
        `quit`, and the pending functors, which are those of before and those that the handlers queued. */
    method Turn(round: Round<F>) returns (ghost es: seq<Event<F>>)
      requires Valid() && state.place.AtPoll?
      modifies this
      ensures Valid() && Exec(old(state), es) == Some(state) && state.place.AtTest?
      ensures |es| > 0 && es[0] == PollReturns(round.wakeup && old(counter) > 0)
      ensures state.executed == old(state).executed + old(pendingFunctors) + Functors(round.handlers)
      ensures pendingFunctors == QueuedDuring(round.during, |old(pendingFunctors)| + |round.handlers|)
      ensures quit <==> old(quit) || round.quit.Some?
      ensures !runningPendingFunctors
      ensures var drained := if round.wakeup then 0 else old(counter);
              var others := Wakes(round.handlers, old(runningPendingFunctors))
                            + if round.quit.Some? && round.quit.value.Some? then 1 else 0;
              counter == Woken(drained, others + |pendingFunctors|)
    {
      hide Exec, QueuedDuring, Functors, Wakes;
      ghost var s := state;
      var wakeup := round.wakeup && counter > 0;
      es := [PollReturns(wakeup)];
      ExecOne(s, PollReturns(wakeup));
      state := Step(s, PollReturns(wakeup));
      ghost var handled := HandleReports(wakeup, round.handlers);
      ExecAppend(s, es, handled);
      es := es + handled;
      if round.quit.Some? {
        var caller := round.quit.value;
        ghost var quitting := if caller.Some? then [OtherQuit(caller.value), OtherWake(caller.value)] else [OwnQuit];
        ExecAppend(s, es, quitting);
        Quit(caller);
        es := es + quitting;
      }
      ghost var ran := DoPendingFunctors(round.during);
      ExecAppend(s, es, ran);
      es := es + ran;
    }

    /** `loop()`, up to the end of its first |rounds| turns or to the test that sees `quit_`. It stops at the first turn
        in which someone quits and not before, and its turns execute the functors of the queue in order. */
    method RunLoop(rounds: seq<Round<F>>) returns (turns: nat, ghost es: seq<Event<F>>)
      requires Valid() && state.place.Outside?
      modifies this
      ensures Valid() && Exec(old(state), es) == Some(state)
      ensures turns <= |rounds| && (forall i | 0 <= i < turns - 1 :: rounds[i].quit.None?)
      ensures turns < |rounds| ==> turns > 0 && rounds[turns - 1].quit.Some? && state.place.Outside? && quit
      ensures turns == |rounds| ==> state.place.AtTest?
      ensures state.executed == old(state).executed + ExecutedIn(rounds, turns, old(pendingFunctors))
      ensures pendingFunctors == PendingAfter(rounds, turns, old(pendingFunctors))
    {
      hide Exec, PendingAfter, ExecutedIn, QueuedDuring, Functors;
      ghost var s := state;
      NoTurns(rounds, s.executed, s.pending);
      quit := false;
      es := [Enter];
      ExecOne(s, Enter);
      state := Step(s, Enter);
      turns := 0;
      while turns < |rounds|
        invariant turns <= |rounds|
        invariant forall i | 0 <= i < turns - 1 :: rounds[i].quit.None?
        invariant quit <==> turns > 0 && rounds[turns - 1].quit.Some?
        invariant state.executed == s.executed + ExecutedIn(rounds, turns, s.pending)
        invariant pendingFunctors == PendingAfter(rounds, turns, s.pending)
        invariant Valid() && Exec(s, es) == Some(state) && state.place.AtTest?
      {
        ExecOne(state, Test);
        ExecAppend(s, es, [Test]);
        state := Step(state, Test);
        es := es + [Test];
        if quit {
          return;
        }
        TurnAdds(rounds, turns, s.executed, s.pending);
        ghost var turn := Turn(rounds[turns]);
        ExecAppend(s, es, turn);
        es := es + turn;
        turns := turns + 1;
      }
    }
  }
}
