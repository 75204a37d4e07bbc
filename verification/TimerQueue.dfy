/** net/Timer.cc and net/TimerQueue.cc: timers ordered by expiration over one timerfd. Times are in microseconds. */
module TimerQueue {
  import opened Sequences

  const MICROSECONDS_PER_SECOND := 1_000_000

  datatype Timespec = Timespec(seconds: int, nanoseconds: int)

  /** `howMuchTimeFromNow`. */
  function HowMuchTimeFromNow(when: int, now: int): Timespec {
    var microseconds := if when - now < 100 then 100 else when - now;
    Timespec(microseconds / MICROSECONDS_PER_SECOND, (microseconds % MICROSECONDS_PER_SECOND) * 1000)
  }

  /** The delay is a well-formed timespec for max(100, when - now) microseconds; never zero, which would disarm. */
  lemma DelayIsExact(when: int, now: int)
    ensures var t := HowMuchTimeFromNow(when, now);
            && 0 <= t.nanoseconds < 1_000_000_000 && t != Timespec(0, 0)
            && t.seconds * 1_000_000_000 + t.nanoseconds == 1000 * (if when - now < 100 then 100 else when - now)
  {
  }

  /** What the kernel got at the last `timerfd_settime`: the delay, and the reading of the clock it was made from. */
  datatype Setting = Setting(delay: Timespec, clock: int) {
    /** The time, in nanoseconds, at which the timerfd fires. */
    function Deadline(): int {
      clock * 1000 + delay.seconds * 1_000_000_000 + delay.nanoseconds
    }
  }

  /** The timerfd fires when the expiration is reached, but not sooner than 100 microseconds after it was set. */
  predicate ArmedFor(setting: Setting, expiration: int) {
    && 0 <= setting.delay.nanoseconds < 1_000_000_000 && setting.delay != Timespec(0, 0)
    && setting.Deadline() ==
       1000 * if expiration - setting.clock < 100 then setting.clock + 100 else expiration
  }

  lemma SettingIsExact(expiration: int, clock: int)
    ensures ArmedFor(Setting(HowMuchTimeFromNow(expiration, clock), clock), expiration)
  {
    DelayIsExact(expiration, clock);
  }

  /** Where a timer is: made but not yet added on the loop thread, in `timerLists_`, in the batch that `handler`
      took, or deleted. */
  datatype Place = Waiting | Listed | Expired | Deleted

  /** A timer: when it was asked to fire first, its interval (0 for one-shot), `expirationDate_`, and the times at
      which `handler` has run it. */
  datatype Record = Record(first: int, interval: nat, expiration: int, fired: seq<int>, place: Place)

  datatype Entry<T> = Entry(when: int, timer: T)

  datatype Phase = Idle | Running(i: nat) | Resetting(i: nat)

  /** `timerfd` is its last setting, until it fires; `ticks` counts its unread expirations.
      `batch` is the vector `expired` of the handler in progress, `now` its time. */
  datatype Queue<T(==)> = Queue(
    list: seq<Entry<T>>, batch: seq<Entry<T>>, book: map<T, Record>,
    timerfd: Option<Setting>, ticks: nat, phase: Phase, now: int)

  function Initial<T>(): Queue<T> {
    Queue([], [], map[], None, 0, Idle, 0)
  }

  /** Loop-thread steps, the timerfd firing, and timers made by any thread. Among entries of equal time the set's
      order is the order of addresses, so the place k is arbitrary there. */
  datatype Event<T> =
    | Create(timer: T, first: int, interval: nat)
    | AddInLoop(timer: T, k: nat, clock: int)
    | TimerfdFires
    | Begin(now: int) | RunNext | StartReset | ResetNext(k: nat)
    | EndReset(clock: int)

  predicate TiePlace<T>(list: seq<Entry<T>>, when: int, k: nat) {
    && k <= |list|
    && (forall j | 0 <= j < k :: list[j].when <= when)
    && (forall j | k <= j < |list| :: when <= list[j].when)
  }

  function InsertedAt<T>(list: seq<Entry<T>>, k: nat, entry: Entry<T>): seq<Entry<T>>
    requires k <= |list|
  {
    list[..k] + [entry] + list[k..]
  }

  /** `lower_bound` of the sentry: past the leading entries with when <= now. */
  function SplitPoint<T>(list: seq<Entry<T>>, now: int): (k: nat)
    ensures k <= |list|
    ensures forall j | 0 <= j < k :: list[j].when <= now
    ensures k < |list| ==> now < list[k].when
  {
    if list == [] || now < list[0].when then 0 else 1 + SplitPoint(list[1..], now)
  }

  predicate Enabled<T>(q: Queue<T>, e: Event<T>) {
    match e
    case Create(t, _, _) => t !in q.book
    case AddInLoop(t, k, _) =>
      t in q.book && q.book[t].place.Waiting? && !q.phase.Resetting? && TiePlace(q.list, q.book[t].expiration, k)
    case TimerfdFires => q.timerfd.Some?
    case Begin(now) => q.phase.Idle? && now >= 0
    case RunNext => q.phase.Running? && q.phase.i < |q.batch|
    case StartReset => q.phase == Running(|q.batch|)
    case ResetNext(k) =>
      && q.phase.Resetting? && q.phase.i < |q.batch|
      && (var t := q.batch[q.phase.i].timer; t in q.book ==> TiePlace(q.list, q.now + q.book[t].interval, k))
    case EndReset(_) => q.phase == Resetting(|q.batch|)
  }

  ghost function Timers<T>(entries: seq<Entry<T>>): set<T> {
    set e <- entries :: e.timer
  }

  /** No pointer to a missing timer is followed, and `insert` finds no equal entry. */
  ghost predicate Asserts<T>(q: Queue<T>, e: Event<T>)
    requires Enabled(q, e)
  {
    match e
    case AddInLoop(t, _, _) => t !in Timers(q.list)
    case RunNext => q.batch[q.phase.i].timer in q.book && q.book[q.batch[q.phase.i].timer].place.Expired?
    case ResetNext(_) =>
      var t := q.batch[q.phase.i].timer;
      t in q.book && q.book[t].place.Expired? && t !in Timers(q.list)
    case EndReset(_) => q.list != [] ==> q.list[0].timer in q.book
    case _ => true
  }

  /** `resetTimerfd`. Setting the timerfd drops its unread expirations. */
  function Armed<T>(q: Queue<T>, expiration: int, clock: int): Queue<T> {
    q.(timerfd := Some(Setting(HowMuchTimeFromNow(expiration, clock), clock)), ticks := 0)
  }

  /** `insert`, arming when the timer is earlier than all others. */
  function AddStep<T>(q: Queue<T>, t: T, k: nat, clock: int): Queue<T>
    requires t in q.book && k <= |q.list|
  {
    var when := q.book[t].expiration;
    var added := q.(list := InsertedAt(q.list, k, Entry(when, t)), book := q.book[t := q.book[t].(place := Listed)]);
    if q.list == [] || when < q.list[0].when then Armed(added, when, clock) else added
  }

  /** `readTimerfd` and `getExpired`. */
  ghost function BeginStep<T>(q: Queue<T>, now: int): Queue<T> {
    var k := SplitPoint(q.list, now);
    var taken := Timers(q.list[..k]);
    q.(list := q.list[k..], batch := q.list[..k], ticks := 0, phase := Running(0), now := now,
       book := map t <- q.book :: if t in taken then q.book[t].(place := Expired) else q.book[t])
  }

  function RunStep<T>(q: Queue<T>): Queue<T>
    requires q.phase.Running? && q.phase.i < |q.batch| && q.batch[q.phase.i].timer in q.book
  {
    var t := q.batch[q.phase.i].timer;
    q.(book := q.book[t := q.book[t].(fired := q.book[t].fired + [q.now])], phase := Running(q.phase.i + 1))
  }

  /** One turn of the loop of `reset`: restart from `now` and insert, or delete. */
  function ResetStep<T>(q: Queue<T>, k: nat): Queue<T>
    requires q.phase.Resetting? && q.phase.i < |q.batch| && q.batch[q.phase.i].timer in q.book && k <= |q.list|
  {
    var t := q.batch[q.phase.i].timer;
    var next := q.(phase := Resetting(q.phase.i + 1));
    if q.book[t].interval > 0 then
      var when := q.now + q.book[t].interval;
      next.(list := InsertedAt(q.list, k, Entry(when, t)),
            book := q.book[t := q.book[t].(expiration := when, place := Listed)])
    else
      next.(book := q.book[t := q.book[t].(place := Deleted)])
  }

  /** The end of `reset`: arm for the first timer of the set when its expiration is valid. */
  function EndStep<T>(q: Queue<T>, clock: int): Queue<T>
    requires q.list != [] ==> q.list[0].timer in q.book
  {
    var done := q.(batch := [], phase := Idle);
    if q.list != [] && q.book[q.list[0].timer].expiration > 0 then
      Armed(done, q.book[q.list[0].timer].expiration, clock)
    else done
  }

  ghost function Step<T>(q: Queue<T>, e: Event<T>): Queue<T>
    requires Enabled(q, e) && Asserts(q, e)
  {
    match e
    case Create(t, first, interval) => q.(book := q.book[t := Record(first, interval, first, [], Waiting)])
    case AddInLoop(t, k, clock) => AddStep(q, t, k, clock)
    case TimerfdFires => q.(timerfd := None, ticks := q.ticks + 1)
    case Begin(now) => BeginStep(q, now)
    case RunNext => RunStep(q)
    case StartReset => q.(phase := Resetting(0))
    case ResetNext(k) => ResetStep(q, k)
    case EndReset(clock) => EndStep(q, clock)
  }

  // ---- The invariant, in four parts.

  /** The first batch index whose timer still belongs to the batch. */
  function Held<T>(q: Queue<T>): nat {
    if q.phase.Resetting? then q.phase.i else 0
  }

  ghost predicate Distinct<T>(entries: seq<Entry<T>>) {
    forall i, j | 0 <= i < j < |entries| :: entries[i].timer != entries[j].timer
  }

  ghost predicate Sorted<T>(list: seq<Entry<T>>) {
    forall i, j | 0 <= i < j < |list| :: list[i].when <= list[j].when
  }

  /** The set is sorted, holds exactly the listed timers, each once and under its own expiration. */
  ghost predicate ListOK<T>(list: seq<Entry<T>>, book: map<T, Record>) {
    && Sorted(list) && Distinct(list)
    && (forall i | 0 <= i < |list| :: list[i].timer in book && book[list[i].timer].place.Listed?
                                      && book[list[i].timer].expiration == list[i].when)
    && (forall t <- book :: book[t].place.Listed? ==> t in Timers(list))
  }

  /** The batch holds exactly the expired timers, each once; all were due. */
  ghost predicate BatchOK<T>(batch: seq<Entry<T>>, held: nat, now: int, book: map<T, Record>) {
    && held <= |batch| && Distinct(batch)
    && (forall j | held <= j < |batch| :: batch[j].timer in book && book[batch[j].timer].place.Expired?
                                          && book[batch[j].timer].expiration == batch[j].when <= now)
    && (forall t <- book :: book[t].place.Expired? ==> t in Timers(batch[held..]))
  }

  /** No firing before its time: the first at or after `first`, each next an interval later at least. */
  ghost predicate Spaced(r: Record) {
    && (r.fired != [] ==> r.first <= r.fired[0])
    && (forall k | 0 <= k < |r.fired| - 1 :: r.fired[k] + r.interval <= r.fired[k + 1])
    && (r.interval == 0 ==> |r.fired| <= 1)
  }

  /** The expiration of a timer that is waiting for its next run. */
  predicate Due(r: Record) {
    if r.fired == [] then r.expiration == r.first
    else r.interval > 0 && r.expiration == r.fired[|r.fired| - 1] + r.interval
  }

  predicate JustRan(r: Record, now: int) {
    r.fired != [] && r.fired[|r.fired| - 1] == now
  }

  ghost predicate RecordOK(r: Record) {
    && Spaced(r)
    && (r.place.Waiting? ==> r.fired == [])
    && (r.place.Waiting? || r.place.Listed? ==> Due(r))
    && (r.place.Deleted? ==> r.interval == 0 && |r.fired| == 1)
  }

  /** The callbacks of the first entries of the batch have run at `now`, those of the rest are due. */
  ghost predicate RunsOK<T>(q: Queue<T>) {
    && (forall t <- q.book :: RecordOK(q.book[t]))
    && (q.phase.Idle? ==> q.batch == [])
    && (q.phase.Running? ==> q.phase.i <= |q.batch|)
    && forall j | Held(q) <= j < |q.batch| && q.batch[j].timer in q.book ::
         if q.phase.Running? && j >= q.phase.i then Due(q.book[q.batch[j].timer])
         else JustRan(q.book[q.batch[j].timer], q.now)
  }

  predicate Ready<T>(q: Queue<T>) {
    q.ticks > 0 || (q.list != [] && q.timerfd.Some? && ArmedFor(q.timerfd.value, q.list[0].when))
  }

  /** The timerfd stands for the earliest timer; while `handler` runs, only non-positive times need it to. */
  predicate ArmingOK<T>(q: Queue<T>) {
    && q.now >= 0
    && (q.list != [] && (q.phase.Idle? || q.list[0].when <= 0) ==> Ready(q))
  }

  ghost predicate Invariant<T>(q: Queue<T>) {
    && ListOK(q.list, q.book) && BatchOK(q.batch, Held(q), q.now, q.book) && RunsOK(q) && ArmingOK(q)
  }

  lemma InsertKeepsOrder<T>(list: seq<Entry<T>>, k: nat, entry: Entry<T>)
    requires Sorted(list) && TiePlace(list, entry.when, k)
    ensures Sorted(InsertedAt(list, k, entry))
  {
  }

  lemma InsertKeepsDistinct<T>(list: seq<Entry<T>>, k: nat, entry: Entry<T>)
    requires Distinct(list) && k <= |list| && entry.timer !in Timers(list)
    ensures Distinct(InsertedAt(list, k, entry))
    ensures Timers(InsertedAt(list, k, entry)) == Timers(list) + {entry.timer}
  {
    var inserted := InsertedAt(list, k, entry);
    assert forall e <- list :: e in inserted;
    assert inserted[k] == entry;
  }

  lemma InsertKeepsList<T>(list: seq<Entry<T>>, book: map<T, Record>, t: T, r: Record, k: nat)
    requires ListOK(list, book) && t in book && !book[t].place.Listed?
    requires r.place.Listed? && TiePlace(list, r.expiration, k)
    ensures t !in Timers(list)
    ensures ListOK(InsertedAt(list, k, Entry(r.expiration, t)), book[t := r])
  {
    hide Sorted, Distinct;
    InsertKeepsOrder(list, k, Entry(r.expiration, t));
    InsertKeepsDistinct(list, k, Entry(r.expiration, t));
  }

  lemma RecordKeepsList<T>(list: seq<Entry<T>>, book: map<T, Record>, t: T, r: Record)
    requires ListOK(list, book) && !r.place.Listed? && (t in book ==> !book[t].place.Listed?)
    ensures ListOK(list, book[t := r])
  {
  }

  lemma RecordKeepsBatch<T>(batch: seq<Entry<T>>, held: nat, now: int, book: map<T, Record>, t: T, r: Record)
    requires BatchOK(batch, held, now, book) && !r.place.Expired? && (t in book ==> !book[t].place.Expired?)
    ensures BatchOK(batch, held, now, book[t := r])
  {
  }

  /** The split is exact: the batch is every entry with when <= now, in order, and the rest is later. */
  lemma SplitIsExact<T>(list: seq<Entry<T>>, now: int)
    requires Sorted(list)
    ensures var k := SplitPoint(list, now);
            && list == list[..k] + list[k..]
            && (forall e <- list[..k] :: e.when <= now) && (forall e <- list[k..] :: now < e.when)
  {
  }

  lemma SplitSeparates<T>(list: seq<Entry<T>>, k: nat)
    requires Distinct(list) && k <= |list|
    ensures forall e <- list[k..] :: e.timer !in Timers(list[..k])
    ensures Timers(list) == Timers(list[..k]) + Timers(list[k..])
  {
    assert list == list[..k] + list[k..];
    forall i | 0 <= i < |list| - k
      ensures list[k..][i].timer !in Timers(list[..k])
    {
      assert list[k..][i] == list[k + i];
    }
  }

  /** A suffix of the list is still a list, for a book that agrees on its timers and expires the others. */
  lemma SuffixKeepsList<T>(list: seq<Entry<T>>, k: nat, book: map<T, Record>, after: map<T, Record>)
    requires ListOK(list, book) && k <= |list| && after.Keys == book.Keys
    requires forall t <- book :: after[t] == if t in Timers(list[..k]) then book[t].(place := Expired) else book[t]
    ensures ListOK(list[k..], after)
  {
    SplitSeparates(list, k);
    var rest := list[k..];
    forall i | 0 <= i < |rest|
      ensures rest[i] == list[k + i] && rest[i].timer !in Timers(list[..k])
    {
      assert rest[i] in rest;
    }
    hide Timers;
  }

  lemma BeginKeepsList<T>(q: Queue<T>, now: int)
    requires ListOK(q.list, q.book)
    ensures ListOK(BeginStep(q, now).list, BeginStep(q, now).book)
  {
    hide ListOK;
    SuffixKeepsList(q.list, SplitPoint(q.list, now), q.book, BeginStep(q, now).book);
  }

  lemma BeginTakesBatch<T>(q: Queue<T>, now: int)
    requires ListOK(q.list, q.book) && BatchOK([], 0, q.now, q.book)
    ensures BatchOK(BeginStep(q, now).batch, 0, now, BeginStep(q, now).book)
  {
    var batch := BeginStep(q, now).batch;
    assert batch[0..] == batch;
    forall j | 0 <= j < |batch|
      ensures batch[j].timer in Timers(batch)
    {
      assert batch[j] in batch;
    }
  }

  lemma FiringKeepsSpacing(r: Record, now: int)
    requires Spaced(r) && Due(r) && r.expiration <= now
    ensures Spaced(r.(fired := r.fired + [now]))
  {
  }

  lemma CreateKeeps<T>(q: Queue<T>, t: T, first: int, interval: nat)
    requires Invariant(q) && t !in q.book
    ensures Invariant(q.(book := q.book[t := Record(first, interval, first, [], Waiting)]))
  {
    var r := Record(first, interval, first, [], Waiting);
    RecordKeepsList(q.list, q.book, t, r);
    RecordKeepsBatch(q.batch, Held(q), q.now, q.book, t, r);
    hide ListOK, BatchOK;
  }

  lemma AddKeepsRuns<T>(q: Queue<T>, t: T, k: nat, clock: int)
    requires RunsOK(q) && t in q.book && q.book[t].place.Waiting? && k <= |q.list|
    requires BatchOK(q.batch, Held(q), q.now, q.book)
    ensures RunsOK(AddStep(q, t, k, clock))
  {
    assert q.book[t].fired == [];
    assert RecordOK(q.book[t].(place := Listed));
    var r := AddStep(q, t, k, clock);
    forall j | Held(r) <= j < |r.batch| && r.batch[j].timer in r.book
      ensures r.batch[j].timer != t
    {
    }
  }

  lemma AddKeepsArming<T>(q: Queue<T>, t: T, k: nat, clock: int)
    requires ArmingOK(q) && t in q.book && TiePlace(q.list, q.book[t].expiration, k)
    ensures ArmingOK(AddStep(q, t, k, clock))
  {
    SettingIsExact(q.book[t].expiration, clock);
    hide HowMuchTimeFromNow, ArmedFor;
  }

  lemma AddKeeps<T>(q: Queue<T>, t: T, k: nat, clock: int)
    requires Invariant(q) && Enabled(q, AddInLoop(t, k, clock))
    ensures t !in Timers(q.list) && Invariant(AddStep(q, t, k, clock))
  {
    hide ListOK, BatchOK, RunsOK, ArmingOK;
    var r := q.book[t].(place := Listed);
    InsertKeepsList(q.list, q.book, t, r, k);
    RecordKeepsBatch(q.batch, Held(q), q.now, q.book, t, r);
    AddKeepsRuns(q, t, k, clock);
    AddKeepsArming(q, t, k, clock);
  }

  lemma BeginKeepsRuns<T>(q: Queue<T>, now: int)
    requires ListOK(q.list, q.book) && RunsOK(q) && q.phase.Idle?
    ensures RunsOK(BeginStep(q, now))
  {
    var b := BeginStep(q, now);
    forall t <- b.book
      ensures RecordOK(b.book[t])
    {
      assert RecordOK(q.book[t]);
    }
    forall j | 0 <= j < |b.batch| && b.batch[j].timer in b.book
      ensures Due(b.book[b.batch[j].timer])
    {
      assert RecordOK(q.book[q.list[j].timer]);
    }
  }

  lemma BeginKeeps<T>(q: Queue<T>, now: int)
    requires Invariant(q) && Enabled(q, Begin(now))
    ensures Invariant(BeginStep(q, now))
  {
    BeginKeepsRuns(q, now);
    BeginKeepsList(q, now);
    BeginTakesBatch(q, now);
    hide ListOK, BatchOK, RunsOK;
  }

  lemma RunKeepsRuns<T>(q: Queue<T>)
    requires RunsOK(q) && BatchOK(q.batch, 0, q.now, q.book) && Enabled(q, RunNext)
    ensures RunsOK(RunStep(q))
  {
    var t := q.batch[q.phase.i].timer;
    FiringKeepsSpacing(q.book[t], q.now);
    assert RecordOK(RunStep(q).book[t]);
    hide RecordOK;
  }

  lemma FiringKeepsBatch<T>(batch: seq<Entry<T>>, now: int, book: map<T, Record>, i: nat, fired: seq<int>)
    requires BatchOK(batch, 0, now, book) && i < |batch|
    ensures batch[i].timer in book
    ensures BatchOK(batch, 0, now, book[batch[i].timer := book[batch[i].timer].(fired := fired)])
  {
  }

  lemma RunKeeps<T>(q: Queue<T>)
    requires Invariant(q) && Enabled(q, RunNext)
    ensures Asserts(q, RunNext) && Invariant(RunStep(q))
  {
    hide ListOK, BatchOK, RunsOK;
    var t := q.batch[q.phase.i].timer;
    HeldTimer(q.batch, 0, q.now, q.book, q.phase.i);
    RunKeepsRuns(q);
    FiringKeepsBatch(q.batch, q.now, q.book, q.phase.i, q.book[t].fired + [q.now]);
    RecordKeepsList(q.list, q.book, t, RunStep(q).book[t]);
  }

  lemma ReleaseKeepsBatch<T>(batch: seq<Entry<T>>, held: nat, now: int, book: map<T, Record>, r: Record)
    requires BatchOK(batch, held, now, book) && held < |batch| && !r.place.Expired?
    ensures BatchOK(batch, held + 1, now, book[batch[held].timer := r])
  {
    var rest := batch[held..];
    assert rest[1..] == batch[held + 1..];
    forall t <- book | book[t].place.Expired? && t != rest[0].timer
      ensures t in Timers(rest[1..])
    {
      var e :| e in rest && e.timer == t;
      assert rest == [rest[0]] + rest[1..];
    }
  }

  lemma ResetKeepsRuns<T>(q: Queue<T>, k: nat)
    requires RunsOK(q) && BatchOK(q.batch, Held(q), q.now, q.book) && Enabled(q, ResetNext(k))
    ensures RunsOK(ResetStep(q, k))
  {
    var t := q.batch[q.phase.i].timer;
    assert RecordOK(ResetStep(q, k).book[t]);
    forall j | q.phase.i < j < |q.batch|
      ensures q.batch[j].timer != t
    {
    }
  }

  lemma ResetKeepsArming<T>(q: Queue<T>, k: nat)
    requires ArmingOK(q) && Enabled(q, ResetNext(k)) && q.batch[q.phase.i].timer in q.book
    ensures ArmingOK(ResetStep(q, k))
  {
  }

  lemma ResetKeeps<T>(q: Queue<T>, k: nat)
    requires Invariant(q) && Enabled(q, ResetNext(k))
    ensures Asserts(q, ResetNext(k)) && Invariant(ResetStep(q, k))
  {
    hide ListOK, BatchOK, RunsOK, ArmingOK;
    var t := q.batch[q.phase.i].timer;
    HeldTimer(q.batch, q.phase.i, q.now, q.book, q.phase.i);
    var r := ResetStep(q, k).book[t];
    ResetKeepsRuns(q, k);
    ResetKeepsArming(q, k);
    ReleaseKeepsBatch(q.batch, q.phase.i, q.now, q.book, r);
    if r.place.Listed? {
      InsertKeepsList(q.list, q.book, t, r, k);
    } else {
      RecordKeepsList(q.list, q.book, t, r);
      NotListed(q.list, q.book, t);
    }
  }

  lemma HeldTimer<T>(batch: seq<Entry<T>>, held: nat, now: int, book: map<T, Record>, i: nat)
    requires BatchOK(batch, held, now, book) && held <= i < |batch|
    ensures batch[i].timer in book && book[batch[i].timer].place.Expired?
  {
  }

  lemma NotListed<T>(list: seq<Entry<T>>, book: map<T, Record>, t: T)
    requires ListOK(list, book) && (t in book ==> !book[t].place.Listed?)
    ensures t !in Timers(list)
  {
  }

  lemma EndKeeps<T>(q: Queue<T>, clock: int)
    requires Invariant(q) && Enabled(q, EndReset(clock))
    ensures Asserts(q, EndReset(clock)) && Invariant(EndStep(q, clock))
  {
    if q.list != [] { SettingIsExact(q.list[0].when, clock); }
    hide HowMuchTimeFromNow, ArmedFor;
  }

  lemma StepKeeps<T>(q: Queue<T>, e: Event<T>)
    requires Invariant(q) && Enabled(q, e)
    ensures Asserts(q, e) && Invariant(Step(q, e))
  {
    match e
    case Create(t, first, interval) => CreateKeeps(q, t, first, interval);
    case AddInLoop(t, k, clock) => AddKeeps(q, t, k, clock);
    case TimerfdFires =>
    case Begin(now) => BeginKeeps(q, now);
    case RunNext => RunKeeps(q);
    case StartReset => StartResetKeeps(q);
    case ResetNext(k) => ResetKeeps(q, k);
    case EndReset(clock) => EndKeeps(q, clock);
  }

  lemma StartResetKeeps<T>(q: Queue<T>)
    requires Invariant(q) && Enabled(q, StartReset)
    ensures Invariant(q.(phase := Resetting(0)))
  {
  }

  /** A run from q: blocked when an event was not enabled, aborted when an assert failed. */
  datatype Outcome<T(==)> = Blocked | Aborted | At(q: Queue<T>)

  ghost function Exec<T>(q: Queue<T>, es: seq<Event<T>>): Outcome<T> {
    if |es| == 0 then At(q)
    else
      var before, e := Exec(q, es[..|es| - 1]), es[|es| - 1];
      if !before.At? then before
      else if !Enabled(before.q, e) then Blocked
      else if !Asserts(before.q, e) then Aborted
      else At(Step(before.q, e))
  }

  /** Over every run: no assert fails and no deleted timer is used, the set and the batch hold exactly the timers
      they should, and no timer has fired early. */
  lemma {:induction false} RunsAreSafe<T>(es: seq<Event<T>>)
    ensures !Exec(Initial<T>(), es).Aborted?
    ensures Exec(Initial<T>(), es).At? ==> Invariant(Exec(Initial<T>(), es).q)
  {
    if |es| > 0 {
      RunsAreSafe(es[..|es| - 1]);
      var before := Exec(Initial<T>(), es[..|es| - 1]);
      if before.At? && Enabled(before.q, es[|es| - 1]) {
        StepKeeps(before.q, es[|es| - 1]);
      }
    }
  }

  /** Each timer ever made is in exactly one place. */
  lemma OnePlaceEach<T>(es: seq<Event<T>>, t: T)
    requires Exec(Initial<T>(), es).At? && t in Exec(Initial<T>(), es).q.book
    ensures var q := Exec(Initial<T>(), es).q;
            && (t in Timers(q.list) <==> q.book[t].place.Listed?)
            && (Held(q) <= |q.batch| && (t in Timers(q.batch[Held(q)..]) <==> q.book[t].place.Expired?))
  {
    RunsAreSafe(es);
    hide Exec, ListOK, BatchOK, RunsOK, ArmingOK, Timers;
    var q := Exec(Initial<T>(), es).q;
    ListHolds(q.list, q.book, t);
    BatchHolds(q.batch, Held(q), q.now, q.book, t);
  }

  lemma ListHolds<T>(list: seq<Entry<T>>, book: map<T, Record>, t: T)
    requires ListOK(list, book) && t in book
    ensures t in Timers(list) <==> book[t].place.Listed?
  {
  }

  lemma BatchHolds<T>(batch: seq<Entry<T>>, held: nat, now: int, book: map<T, Record>, t: T)
    requires BatchOK(batch, held, now, book) && t in book
    ensures held <= |batch| && (t in Timers(batch[held..]) <==> book[t].place.Expired?)
  {
    forall e <- batch[held..]
      ensures e.timer in book && book[e.timer].place.Expired?
    {
      var j :| 0 <= j < |batch| - held && batch[held..][j] == e;
      assert batch[held + j] == e;
    }
  }

  lemma {:induction false} SpacedFromFirst(r: Record, k: nat)
    requires Spaced(r) && k < |r.fired|
    ensures r.first + k * r.interval <= r.fired[k]
  {
    if k > 0 {
      SpacedFromFirst(r, k - 1);
      assert r.fired[k - 1] + r.interval <= r.fired[k];
      assert k * r.interval == (k - 1) * r.interval + r.interval;
    }
  }

  /** In every run and with any clock, a timer's firing number k (from 0) is not before first + k * interval, and a
      one-shot timer fires at most once, exactly once when it is deleted. */
  lemma FiringTimes<T>(es: seq<Event<T>>, t: T, k: nat)
    requires Exec(Initial<T>(), es).At? && t in Exec(Initial<T>(), es).q.book
    ensures var r := Exec(Initial<T>(), es).q.book[t];
            && (k < |r.fired| ==> r.first + k * r.interval <= r.fired[k])
            && (r.interval == 0 ==> |r.fired| <= 1)
            && (r.place.Deleted? ==> r.interval == 0 && |r.fired| == 1)
  {
    RunsAreSafe(es);
    var r := Exec(Initial<T>(), es).q.book[t];
    assert RecordOK(r);
    if k < |r.fired| { SpacedFromFirst(r, k); }
  }

  /** Between handlers a non-empty set has an unread expiration, or its timerfd will fire exactly when the earliest
      timer is due (100 microseconds after the setting if that was already sooner). */
  lemma EarliestIsArmed<T>(es: seq<Event<T>>)
    requires Exec(Initial<T>(), es).At?
    ensures var q := Exec(Initial<T>(), es).q;
            q.phase.Idle? && q.list != [] && q.ticks == 0 ==>
              && q.timerfd.Some? && (forall e <- q.list :: q.list[0].when <= e.when)
              && var soonest := q.timerfd.value.clock + 100;
                 q.timerfd.value.Deadline() == 1000 * if q.list[0].when < soonest then soonest else q.list[0].when
  {
    RunsAreSafe(es);
  }

  /** Adding a timer sets the timerfd, for that timer, exactly when it is earlier than all others. */
  lemma AddArms<T>(q: Queue<T>, t: T, k: nat, clock: int)
    requires t in q.book && k <= |q.list|
    ensures var r, when := AddStep(q, t, k, clock), q.book[t].expiration;
            && (if q.list == [] || when < q.list[0].when then
                  && r.ticks == 0 && r.timerfd.Some? && r.timerfd.value.clock == clock
                  && ArmedFor(r.timerfd.value, when)
                else r.ticks == q.ticks && r.timerfd == q.timerfd)
            && r.list == q.list[..k] + [Entry(when, t)] + q.list[k..]
            && r.phase == q.phase && r.batch == q.batch && r.now == q.now
  {
    SettingIsExact(q.book[t].expiration, clock);
  }

  /** The end of `reset` sets the timerfd, for the first timer of the set, exactly when its time is positive. */
  lemma EndArms<T>(q: Queue<T>, clock: int)
    requires q.list != [] ==>
               q.list[0].timer in q.book && q.book[q.list[0].timer].expiration == q.list[0].when
    ensures var r := EndStep(q, clock);
            && (if q.list != [] && q.list[0].when > 0 then
                  && r.ticks == 0 && r.timerfd.Some? && r.timerfd.value.clock == clock
                  && ArmedFor(r.timerfd.value, q.list[0].when)
                else r.ticks == q.ticks && r.timerfd == q.timerfd)
            && r.list == q.list && r.book == q.book && r.phase.Idle?
  {
    if q.list != [] { SettingIsExact(q.list[0].when, clock); }
  }

  lemma ExecSnoc<T>(q: Queue<T>, es: seq<Event<T>>, e: Event<T>)
    requires Exec(q, es).At? && Enabled(Exec(q, es).q, e) && Asserts(Exec(q, es).q, e)
    ensures Exec(q, es + [e]) == At(Step(Exec(q, es).q, e))
  {
    assert (es + [e])[..|es|] == es;
  }

  lemma InvariantSorts<T>(q: Queue<T>)
    requires Invariant(q)
    ensures Sorted(q.list) && Held(q) <= |q.batch|
    ensures forall j | Held(q) <= j < |q.batch| :: q.batch[j].timer in q.book
    ensures q.list != [] ==> q.list[0].timer in q.book && q.book[q.list[0].timer].expiration == q.list[0].when
  {
  }

  /** Nothing has been run between p and q. */
  ghost predicate NothingRun<T>(p: Queue<T>, q: Queue<T>) {
    && q.phase == p.phase && q.batch == p.batch && q.now == p.now
    && forall t <- p.book :: t in q.book && q.book[t].fired == p.book[t].fired
  }

  lemma OnlyHandlerRuns<T>(q: Queue<T>, e: Event<T>)
    requires Enabled(q, e) && Asserts(q, e) && (e.Create? || e.AddInLoop? || e.TimerfdFires?)
    ensures NothingRun(q, Step(q, e))
  {
  }

  lemma BeginKeepsTimers<T>(q: Queue<T>, now: int)
    requires Sorted(q.list)
    ensures var p, k := BeginStep(q, now), SplitPoint(q.list, now);
            && p.list == q.list[k..] && p.batch == q.list[..k] && p.batch + p.list == q.list
            && p.phase == Running(0) && p.now == now && p.ticks == 0 && p.timerfd == q.timerfd
            && p.book.Keys == q.book.Keys
            && (forall t <- q.book :: p.book[t] == q.book[t].(place := p.book[t].place))
  {
  }

  lemma DueIsBatch<T>(list: seq<Entry<T>>, batch: seq<Entry<T>>, rest: seq<Entry<T>>, now: int, t: T)
    requires list == batch + rest
    requires (forall e <- batch :: e.when <= now) && (forall e <- rest :: now < e.when)
    ensures DueAt(list, t, now) <==> t in Timers(batch)
  {
    if DueAt(list, t, now) {
      var e :| e in list && e.timer == t && e.when <= now;
      assert e in batch;
    }
  }

  /** One turn of `reset` moves one timer, to the set or out of existence, and runs none. */
  lemma ResetEffect<T>(q: Queue<T>, k: nat)
    requires Enabled(q, ResetNext(k)) && Asserts(q, ResetNext(k))
    ensures var r, t := Step(q, ResetNext(k)), q.batch[q.phase.i].timer;
            && r.phase == Resetting(q.phase.i + 1) && r.batch == q.batch && r.now == q.now
            && r.timerfd == q.timerfd && r.ticks == q.ticks
            && r.book.Keys == q.book.Keys && (forall u <- q.book :: r.book[u].fired == q.book[u].fired)
            && (forall u <- q.book :: r.book[u].interval == q.book[u].interval)
            && (forall u <- q.book :: u != t ==> r.book[u].expiration == q.book[u].expiration)
            && (if q.book[t].interval > 0 then
                  k <= |q.list| && r.list == InsertedAt(q.list, k, Entry(q.now + q.book[t].interval, t))
                  && r.book[t].expiration == q.now + q.book[t].interval
                else r.list == q.list && r.book[t].expiration == q.book[t].expiration)
  {
  }

  /** The timer is in the set with an expiration no later than `now`. */
  ghost predicate DueAt<T>(list: seq<Entry<T>>, t: T, now: int) {
    exists e :: e in list && e.timer == t && e.when <= now
  }

  lemma NoTimers<T>()
    ensures Timers<T>([]) == {}
  {
  }

  lemma BatchPrefix<T>(q: Queue<T>, i: nat)
    requires Invariant(q) && i < |q.batch|
    ensures q.batch[i].timer !in Timers(q.batch[..i])
    ensures Timers(q.batch[..i + 1]) == Timers(q.batch[..i]) + {q.batch[i].timer}
  {
    assert q.batch[..i + 1] == q.batch[..i] + [q.batch[i]];
  }

  /** A timer that the finished handler ran is listed again an interval from its time, or deleted. */
  lemma RanIsSettled<T>(q: Queue<T>, t: T, now: int)
    requires Invariant(q) && q.phase.Idle? && t in q.book && JustRan(q.book[t], now)
    ensures var r := q.book[t];
            if r.interval > 0 then r.place.Listed? && r.expiration == now + r.interval else r.place.Deleted?
  {
    assert q.batch[Held(q)..] == [];
    assert RecordOK(q.book[t]);
  }

  lemma InvariantReady<T>(q: Queue<T>)
    requires Invariant(q) && q.phase.Idle? && q.list != []
    ensures Ready(q)
  {
  }

  class Timer {
    const interval: nat
    var expiration: int

    constructor (when: int, interval: nat)
      ensures expiration == when && this.interval == interval
    {
      expiration := when;
      this.interval := interval;
    }

    predicate IsRepeat() {
      interval > 0
    }

    method Restart(now: int)
      modifies this
      ensures expiration == if interval > 0 then now + interval else 0
    {
      expiration := if IsRepeat() then now + interval else 0;
    }
  }

  /** What happens while a callback runs: it (on the loop thread) or another thread adds a timer, the timerfd fires. */
  datatype Action = Add(when: int, interval: nat, clock: int) | AddFromOther(when: int, interval: nat) | Fire

  class TimerQueue {
    var timerLists: seq<Entry<Timer>>
    /** The timerfd: its setting until it fires, and the expirations not read yet. */
    var timerfd: Option<Setting>
    var ticks: nat
    ghost var q: Queue<Timer>
    ghost var trace: seq<Event<Timer>>

    ghost predicate TimersHold()
      reads this, q.book.Keys
    {
      forall t <- q.book :: t.expiration == q.book[t].expiration && t.interval == q.book[t].interval
    }

    /** The object is in a state of the protocol, reached by the run `trace`. */
    ghost predicate Valid()
      reads this, q.book.Keys
    {
      && q.list == timerLists && q.timerfd == timerfd && q.ticks == ticks && TimersHold()
      && Exec(Initial(), trace) == At(q) && Invariant(q)
    }

    constructor ()
      ensures Valid() && q == Initial()
    {
      timerLists, timerfd, ticks := [], None, 0;
      q, trace := Initial(), [];
    }

    /** `timerfd_settime`, when the clock reads `clock`: unread expirations are dropped. */
    method SetTime(delay: Timespec, clock: int)
      modifies this`timerfd, this`ticks
      ensures timerfd == Some(Setting(delay, clock)) && ticks == 0
    {
      timerfd, ticks := Some(Setting(delay, clock)), 0;
    }

    /** `resetTimerfd`: the delay, in nanoseconds, is what is left until the expiration, 100 microseconds at least. */
    method ResetTimerfd(expiration: int, clock: int)
      modifies this`timerfd, this`ticks
      ensures timerfd == Some(Setting(HowMuchTimeFromNow(expiration, clock), clock)) && ticks == 0
      ensures var delay := timerfd.value.delay;
              && 0 <= delay.nanoseconds < 1_000_000_000
              && delay.seconds * 1_000_000_000 + delay.nanoseconds
                 == 1000 * if expiration - clock < 100 then 100 else expiration - clock
    {
      DelayIsExact(expiration, clock);
      var newValue := HowMuchTimeFromNow(expiration, clock);
      SetTime(newValue, clock);
    }

    ghost method Advance(e: Event<Timer>)
      requires Exec(Initial(), trace) == At(q) && Invariant(q) && Enabled(q, e)
      modifies this`q, this`trace
      ensures old(Asserts(q, e)) && q == Step(old(q), e) && Invariant(q)
      ensures trace == old(trace) + [e] && Exec(Initial(), trace) == At(q)
    {
      StepKeeps(q, e);
      ExecSnoc(Initial<Timer>(), trace, e);
      q, trace := Step(q, e), trace + [e];
    }

    /** The kernel's part. */
    method Fires()
      requires Valid() && timerfd.Some?
      modifies this
      ensures Valid() && q == Step(old(q), TimerfdFires) && NothingRun(old(q), q)
    {
      hide Exec, Invariant, NothingRun;
      ghost var before := q;
      Advance(TimerfdFires);
      OnlyHandlerRuns(before, TimerfdFires);
      timerfd, ticks := None, ticks + 1;
    }

    /** `new Timer` in `addTimer`, on any thread. */
    method NewTimer(when: int, interval: nat) returns (t: Timer)
      requires Valid()
      modifies this`q, this`trace
      ensures fresh(t) && Valid() && q == Step(old(q), Create(t, when, interval)) && NothingRun(old(q), q)
    {
      hide Exec, Invariant, NothingRun;
      ghost var before := q;
      t := new Timer(when, interval);
      Advance(Create(t, when, interval));
      OnlyHandlerRuns(before, Create(t, when, interval));
    }

    /** `addTimerInLoop`; the place among entries of equal time is the allocator's choice. */
    method AddTimerInLoop(t: Timer, clock: int)
      requires Valid() && t in q.book && q.book[t].place.Waiting? && !q.phase.Resetting?
      modifies this
      ensures Valid()
      ensures exists k :: Enabled(old(q), AddInLoop(t, k, clock)) && q == Step(old(q), AddInLoop(t, k, clock))
      ensures NothingRun(old(q), q) && t in q.book && q.book[t] == old(q).book[t].(place := Listed)
      ensures if old(timerLists) == [] || t.expiration < old(timerLists)[0].when then
                timerfd.Some? && timerfd.value.clock == clock && ArmedFor(timerfd.value, t.expiration) && ticks == 0
              else timerfd == old(timerfd) && ticks == old(ticks)
    {
      hide Exec, Invariant, NothingRun, ArmedFor, HowMuchTimeFromNow;
      InvariantSorts(q);
      ghost var before := q;
      var when := t.expiration;
      var k := ChoosePlace(when);
      Advance(AddInLoop(t, k, clock));
      OnlyHandlerRuns(before, AddInLoop(t, k, clock));
      AddArms(before, t, k, clock);
      var isEarliestTimer := timerLists == [] || when < timerLists[0].when;
      timerLists := InsertedAt(timerLists, k, Entry(when, t));
      if isEarliestTimer {
        ResetTimerfd(when, clock);
      }
    }

    method ChoosePlace(when: int) returns (k: nat)
      requires Sorted(timerLists)
      ensures TiePlace(timerLists, when, k)
    {
      assert TiePlace(timerLists, when, SplitPoint(timerLists, when));
      k :| 0 <= k <= |timerLists| && TiePlace(timerLists, when, k);
    }

    ghost method AdvanceToBatch(now: int)
      requires Exec(Initial(), trace) == At(q) && Invariant(q) && q.phase.Idle? && now >= 0
      modifies this`q, this`trace
      ensures Exec(Initial(), trace) == At(q) && Invariant(q)
      ensures q == Step(old(q), Begin(now)) && q.phase == Running(0) && q.now == now
      ensures var k := SplitPoint(old(q.list), now);
              q.list == old(q.list)[k..] && q.batch == old(q.list)[..k] && q.ticks == 0 && q.timerfd == old(q.timerfd)
      ensures q.book.Keys == old(q.book).Keys
      ensures forall t <- q.book :: q.book[t] == old(q.book)[t].(place := q.book[t].place)
      ensures forall t :: t in Timers(q.batch) <==> DueAt(old(q.list), t, now)
    {
      hide Exec, Invariant, BeginStep, DueAt, Timers;
      InvariantSorts(q);
      BeginKeepsTimers(q, now);
      SplitIsExact(q.list, now);
      ghost var list := q.list;
      Advance(Begin(now));
      forall t: Timer
        ensures t in Timers(q.batch) <==> DueAt(list, t, now)
      {
        DueIsBatch(list, q.batch, q.list, now, t);
      }
    }

    /** `readTimerfd` and `getExpired`. */
    method GetExpired(now: int) returns (expired: seq<Entry<Timer>>)
      requires Valid() && q.phase.Idle? && now >= 0
      modifies this
      ensures Valid() && q == Step(old(q), Begin(now)) && q.phase == Running(0) && q.now == now && q.batch == expired
      ensures expired + timerLists == old(timerLists)
      ensures q.book.Keys == old(q.book).Keys && forall t <- q.book :: q.book[t].fired == old(q.book)[t].fired
      ensures forall t :: t in Timers(expired) <==> DueAt(old(timerLists), t, now)
    {
      hide Exec, Invariant, BeginStep, DueAt, Timers;
      AdvanceToBatch(now);
      ticks := 0;
      var it := SplitPoint(timerLists, now);
      expired := timerLists[..it];
      timerLists := timerLists[it..];
    }

    /** One callback: it runs at `now`, and actions happen meanwhile. */
    method RunTimer(during: seq<Action>)
      requires Valid() && Enabled(q, RunNext)
      modifies this
      ensures Valid() && q.phase == Running(old(q.phase.i) + 1) && q.batch == old(q.batch) && q.now == old(q.now)
      ensures old(q.batch[q.phase.i]).timer in old(q.book)
      ensures forall t <- old(q.book) :: t in q.book && q.book[t].fired ==
                old(q.book)[t].fired + if t == old(q.batch[q.phase.i]).timer then [q.now] else []
    {
      hide Exec, Invariant;
      InvariantSorts(q);
      Advance(RunNext);
      ghost var ran := q;
      for i := 0 to |during|
        invariant Valid() && NothingRun(ran, q)
      {
        var t := Perform(during[i]);
      }
    }

    /** One action: the loop thread's new timer is in the set at once, another thread's is waiting for the loop. */
    method Perform(action: Action) returns (t: Timer?)
      requires Valid() && !q.phase.Resetting?
      modifies this
      ensures Valid() && NothingRun(old(q), q)
      ensures action.Fire? ==> t == null && q.book == old(q).book
      ensures action.Add? || action.AddFromOther? ==>
                && t != null && fresh(t) && q.book.Keys == old(q.book).Keys + {t}
                && q.book[t] == Record(action.when, action.interval, action.when, [],
                                       if action.Add? then Listed else Waiting)
    {
      hide Exec, Invariant;
      match action
      case Add(when, interval, clock) =>
        t := NewTimer(when, interval);
        AddTimerInLoop(t, clock);
      case AddFromOther(when, interval) =>
        t := NewTimer(when, interval);
      case Fire =>
        t := null;
        if timerfd.Some? {
          Fires();
        }
    }

    /** One turn of the loop of `reset`. */
    method ResetOne(timer: Timer, now: int)
      requires Valid() && q.now == now && q.phase.Resetting?
      requires q.phase.i < |q.batch| && q.batch[q.phase.i].timer == timer
      modifies this, timer
      ensures Valid() && q.phase == Resetting(old(q.phase.i) + 1) && q.batch == old(q.batch) && q.now == old(q.now)
      ensures q.book.Keys == old(q.book).Keys && forall t <- q.book :: q.book[t].fired == old(q.book)[t].fired
    {
      hide Exec, Invariant, Step, Asserts;
      InvariantSorts(q);
      if timer.IsRepeat() {
        RestartAndInsert(timer, now);
      } else {
        ghost var before, k := q, SplitPoint(timerLists, now);
        Advance(ResetNext(k));
        ResetEffect(before, k);
      }
    }

    /** `restart` and `insert` of a periodic timer. */
    method RestartAndInsert(timer: Timer, now: int)
      requires Valid() && q.now == now && q.phase.Resetting? && timer.interval > 0
      requires q.phase.i < |q.batch| && q.batch[q.phase.i].timer == timer
      modifies this, timer
      ensures Valid() && q.phase == Resetting(old(q.phase.i) + 1) && q.batch == old(q.batch) && q.now == old(q.now)
      ensures q.book.Keys == old(q.book).Keys && forall t <- q.book :: q.book[t].fired == old(q.book)[t].fired
    {
      hide Exec, Invariant, Step, Asserts;
      InvariantSorts(q);
      ghost var before := q;
      var k := ChoosePlace(now + timer.interval);
      Advance(ResetNext(k));
      ResetEffect(before, k);
      timer.Restart(now);
      timerLists := InsertedAt(timerLists, k, Entry(timer.expiration, timer));
    }

    /** `reset`. */
    method Reset(expired: seq<Entry<Timer>>, now: int, clock: int)
      requires Valid() && q.phase == Resetting(0) && q.batch == expired && q.now == now
      modifies this, Timers(expired)
      ensures Valid() && q.phase.Idle?
      ensures timerLists != [] && timerLists[0].when > 0 ==>
                && timerfd.Some? && timerfd.value.clock == clock && ticks == 0
                && ArmedFor(timerfd.value, timerLists[0].when)
      ensures q.book.Keys == old(q.book).Keys && forall t <- q.book :: q.book[t].fired == old(q.book)[t].fired
    {
      hide Exec, Invariant, ArmedFor, HowMuchTimeFromNow;
      for i := 0 to |expired|
        invariant Valid() && q.phase == Resetting(i) && q.batch == expired && q.now == now
        invariant q.book.Keys == old(q.book).Keys && forall t <- q.book :: q.book[t].fired == old(q.book)[t].fired
      {
        assert expired[i] in expired;
        ResetOne(expired[i].timer, now);
      }
      InvariantSorts(q);
      EndArms(q, clock);
      Advance(EndReset(clock));
      if timerLists != [] {
        var nextExpire := timerLists[0].timer.expiration;
        if nextExpire > 0 {
          ResetTimerfd(nextExpire, clock);
        }
      }
    }

    /** The loop of callbacks. */
    method RunExpired(expired: seq<Entry<Timer>>, during: nat -> seq<Action>)
      requires Valid() && q.phase == Running(0) && q.batch == expired
      modifies this
      ensures Valid() && q.phase == Running(|expired|) && q.batch == expired && q.now == old(q.now)
      ensures forall t <- old(q.book) :: t in q.book && q.book[t].fired ==
                old(q.book)[t].fired + if t in Timers(expired) then [q.now] else []
    {
      hide Exec, Invariant, Timers;
      ghost var now := q.now;
      assert expired[..0] == [];
      NoTimers<Timer>();
      for i := 0 to |expired|
        invariant Valid() && q.phase == Running(i) && q.batch == expired && q.now == now
        invariant forall t <- old(q.book) :: t in q.book && q.book[t].fired ==
                    old(q.book)[t].fired + if t in Timers(expired[..i]) then [now] else []
      {
        BatchPrefix(q, i);
        RunTimer(during(i));
      }
      assert expired[..|expired|] == expired;
    }

    /** `handler`, whatever happens while the callbacks run. Exactly the listed timers that are due at `now` are run,
        once each; the periodic ones are listed again, an interval from `now`, and the one-shots deleted. `clock` is
        read when the timerfd is set again, for the earliest timer. */
    method Handler(now: int, clock: int, during: nat -> seq<Action>)
      requires Valid() && q.phase.Idle? && now >= 0
      modifies this, Timers(timerLists)
      ensures Valid() && q.phase.Idle? && (timerLists != [] ==> Ready(q))
      ensures timerLists != [] && timerLists[0].when > 0 ==>
                && timerfd.Some? && timerfd.value.clock == clock && ticks == 0
                && ArmedFor(timerfd.value, timerLists[0].when)
      ensures forall t <- old(q.book) :: t in q.book && q.book[t].fired ==
                old(q.book)[t].fired + if DueAt(old(timerLists), t, now) then [now] else []
      ensures forall t <- old(q.book) | DueAt(old(timerLists), t, now) ::
                t in q.book && if q.book[t].interval > 0 then
                                 q.book[t].place.Listed? && q.book[t].expiration == now + q.book[t].interval
                               else q.book[t].place.Deleted?
    {
      hide Exec, Invariant, DueAt, ArmedFor;
      var expired := GetExpired(now);
      RunExpired(expired, during);
      Advance(StartReset);
      Reset(expired, now, clock);
      if timerLists != [] {
        InvariantReady(q);
      }
      forall t <- old(q.book) | DueAt(old(timerLists), t, now)
        ensures t in q.book && if q.book[t].interval > 0 then
                                 q.book[t].place.Listed? && q.book[t].expiration == now + q.book[t].interval
                               else q.book[t].place.Deleted?
      {
        RanIsSettled(q, t, now);
      }
    }
  }
}
