/** base/AsyncLogging.cc: the double-buffered log. Producers call `append`; one writer thread runs `threadFunc`. */
module AsyncLogging {
  import opened Sequences
  import opened LogStream
  import Fileutil

  /** Where the writer is: at the top of its loop, or about to write buffer `done` of the batch it took. */
  datatype Phase = AtTop | Writing(done: nat)

  /** The log by the contents of its buffers; None is a null pointer. `waiting` says that the writer is asleep in
      `cond_.wait()`. */
  datatype Log = Log(
    file: string, batch: seq<string>, queued: seq<string>, current: Option<string>,
    next: Option<string>, new1: Option<string>, new2: Option<string>, phase: Phase, waiting: bool)

  const INITIAL := Log("", [], [], Some(""), Some(""), Some(""), Some(""), AtTop, false)

  /** The atomic steps of any number of producers and of the writer. `Write(n)` is one `output.append` that
      gets the first n bytes of the buffer into the file. */
  datatype Event = Append(message: string) | Wait | Swap | Write(n: nat) | Recycle

  /** `FixedBuffer::append` on contents. */
  function Stored(content: string, message: string): string {
    if SMALL_BUFFER - |content| > |message| then content + message else content
  }

  predicate Enabled(v: Log, e: Event) {
    match e
    case Append(_) => v.current.Some?
    case Wait => v.phase.AtTop? && v.queued == []
    case Swap => v.phase.AtTop? && v.queued != [] && !v.waiting
    case Write(n) => v.phase.Writing? && v.phase.done < |v.batch| && n <= |v.batch[v.phase.done]|
    case Recycle => v.phase == Writing(|v.batch|)
  }

  function AppendStep(v: Log, message: string): Log
    requires v.current.Some?
  {
    if SMALL_BUFFER - |v.current.value| > |message| then
      v.(current := Some(Stored(v.current.value, message)))
    else
      var taken := if v.next.Some? then v.next.value else "";
      v.(queued := v.queued + [v.current.value], current := Some(Stored(taken, message)), next := None,
         waiting := false)
  }

  function SwapStep(v: Log): Log
    requires v.current.Some?
  {
    v.(batch := v.queued + [v.current.value], queued := [], current := v.new1, new1 := None,
       next := if v.next.None? then v.new2 else v.next,
       new2 := if v.next.None? then None else v.new2,
       phase := Writing(0))
  }

  function WriteStep(v: Log, n: nat): Log
    requires Enabled(v, Write(n))
  {
    v.(file := v.file + v.batch[v.phase.done][..n], phase := Writing(v.phase.done + 1))
  }

  /** Both refills take the last remaining buffer, reset; what is left over is freed. */
  function RecycleStep(v: Log): Log {
    v.(batch := [], phase := AtTop,
       new1 := if v.new1.None? then Some("") else v.new1,
       new2 := if v.new2.None? then Some("") else v.new2)
  }

  /** The asserts of `threadFunc`, and every unique_ptr being non-null where it is dereferenced. */
  predicate Asserts(v: Log, e: Event) {
    match e
    case Append(_) => v.current.Some?
    case Swap => v.new1 == Some("") && v.new2 == Some("") && v.batch == [] && v.current.Some?
    case Wait => true
    case Write(_) => v.batch != []
    case Recycle => |v.batch| >= (if v.new1.None? then 1 else 0) + (if v.new2.None? then 1 else 0)
  }

  function Step(v: Log, e: Event): Log
    requires Enabled(v, e) && Asserts(v, e)
  {
    match e
    case Append(message) => AppendStep(v, message)
    case Wait => v.(waiting := true)
    case Swap => SwapStep(v)
    case Write(n) => WriteStep(v, n)
    case Recycle => RecycleStep(v)
  }

  predicate IsEmpty(buffer: Option<string>) {
    buffer.Some? ==> buffer.value == ""
  }

  /** The ownership invariant: which of the buffers exist and which are empty in each phase of the writer; and the
      writer sleeps only while nothing is queued. */
  predicate Owned(v: Log) {
    && v.current.Some? && IsEmpty(v.next) && IsEmpty(v.new2)
    && (v.waiting ==> v.phase.AtTop? && v.queued == [])
    && match v.phase
       case AtTop => v.batch == [] && v.new1 == Some("") && v.new2.Some?
       case Writing(done) => |v.batch| >= 2 && done <= |v.batch| && v.new1.None?
  }

  function Count(buffer: Option<string>): nat {
    if buffer.Some? then 1 else 0
  }

  function LiveBuffers(v: Log): nat {
    |v.batch| + |v.queued| + Count(v.current) + Count(v.next) + Count(v.new1) + Count(v.new2)
  }

  /** The file with the unwritten part of the batch. */
  function Taken(v: Log): string
    requires Owned(v)
  {
    v.file + Concat(if v.phase.AtTop? then [] else v.batch[v.phase.done..])
  }

  /** Everything accepted and not lost: file, unwritten part of the batch, queue, current buffer. */
  function Content(v: Log): string
    requires Owned(v)
  {
    Taken(v) + Concat(v.queued) + v.current.value
  }

  /** A message of 4000 bytes or more does not fit even an empty buffer and is dropped. */
  function Kept(message: string): string {
    if |message| < SMALL_BUFFER then message else ""
  }

  lemma AppendKeeps(v: Log, message: string)
    requires Owned(v)
    ensures Owned(AppendStep(v, message))
    ensures Content(AppendStep(v, message)) == Content(v) + Kept(message)
  {
    ConcatSnoc(v.queued, v.current.value);
  }

  /** Where an append puts its message. With room to spare it goes to the current buffer and nothing else moves;
      otherwise the current buffer is queued as it is, the message starts the next one, and the writer is woken. */
  lemma AppendMoves(v: Log, message: string)
    requires Owned(v)
    ensures var w, current := AppendStep(v, message), v.current.value;
            && (if |current| + |message| < 4000 then
                  && w.current == Some(current + message) && w.queued == v.queued && w.next == v.next
                  && w.waiting == v.waiting
                else
                  && w.current == Some(if |message| < 4000 then message else "")
                  && w.queued == v.queued + [current] && w.next == None && !w.waiting)
            && w.file == v.file && w.batch == v.batch && w.new1 == v.new1 && w.new2 == v.new2 && w.phase == v.phase
  {
    assert "" + message == message;
  }

  /** What the writer's critical section moves: all queued buffers and the current one become the batch, and two empty
      buffers take the places of the current and, if it was used, of the next. */
  lemma SwapMoves(v: Log)
    requires Owned(v) && Enabled(v, Swap)
    ensures var w := SwapStep(v);
            && w.batch == v.queued + [v.current.value] && w.queued == []
            && w.current == Some("") && w.next == Some("") && w.new1 == None
            && w.new2 == (if v.next.None? then None else v.new2)
            && w.file == v.file && w.phase == Writing(0) && !w.waiting
  {
  }

  /** What ends a cycle: the batch is gone, both spares are there and empty, and nothing else differs. */
  lemma RecycleMoves(v: Log)
    requires Owned(v) && Enabled(v, Recycle)
    ensures var w := RecycleStep(v);
            && w.batch == [] && w.new1 == Some("") && w.new2 == Some("") && w.phase.AtTop?
            && w.file == v.file && w.queued == v.queued && w.current == v.current && w.next == v.next
  {
  }

  /** A write adds the first n bytes of the next buffer of the batch to the file. */
  lemma WriteMoves(v: Log, n: nat)
    requires Owned(v) && Enabled(v, Write(n))
    ensures var w, next := WriteStep(v, n), v.phase.done;
            && w.file == v.file + v.batch[next][..n] && w.phase == Writing(next + 1) && w.batch == v.batch
            && w.queued == v.queued && w.current == v.current && w.next == v.next
  {
  }

  lemma SwapKeeps(v: Log)
    requires Owned(v) && Enabled(v, Swap)
    ensures Owned(SwapStep(v)) && Content(SwapStep(v)) == Content(v) == Taken(SwapStep(v))
  {
    ConcatSnoc(v.queued, v.current.value);
    var batch := SwapStep(v).batch;
    assert batch[0..] == batch;
  }

  lemma WriteKeeps(v: Log, n: nat)
    requires Owned(v) && Enabled(v, Write(n))
    ensures Owned(WriteStep(v, n))
    ensures n == |v.batch[v.phase.done]| ==> Taken(WriteStep(v, n)) == Taken(v)
  {
    if n == |v.batch[v.phase.done]| {
      var rest := v.batch[v.phase.done..];
      assert rest[1..] == v.batch[v.phase.done + 1..];
      assert rest[0][..n] == rest[0];
      var tail := Concat(rest[1..]);
      assert v.file + (rest[0] + tail) == (v.file + rest[0]) + tail;
    }
  }

  lemma RecycleKeeps(v: Log)
    requires Owned(v) && Enabled(v, Recycle)
    ensures Owned(RecycleStep(v)) && Taken(RecycleStep(v)) == Taken(v)
  {
  }

  /** A run: blocked when some step was not enabled, aborted when an assert of the source failed. */
  datatype Outcome = Blocked | Aborted | At(log: Log)

  function Run(es: seq<Event>): Outcome {
    if es == [] then At(INITIAL)
    else
      var before, e := Run(es[..|es| - 1]), es[|es| - 1];
      if !before.At? then before
      else if !Enabled(before.log, e) then Blocked
      else if !Asserts(before.log, e) then Aborted
      else At(Step(before.log, e))
  }

  /** Every write of the run got its whole buffer into the file. */
  predicate Lossless(es: seq<Event>) {
    es == [] ||
    var before, e := Run(es[..|es| - 1]), es[|es| - 1];
    && Lossless(es[..|es| - 1])
    && (before.At? && Enabled(before.log, e) && e.Write? ==> e.n == |before.log.batch[before.log.phase.done]|)
  }

  /** The kept messages of the run, in the order in which the appenders held the lock. */
  function Messages(es: seq<Event>): string {
    if es == [] then ""
    else Messages(es[..|es| - 1]) + if es[|es| - 1].Append? then Kept(es[|es| - 1].message) else ""
  }

  lemma StepKeeps(v: Log, e: Event)
    requires Owned(v) && Enabled(v, e)
    ensures Asserts(v, e) && Owned(Step(v, e))
    ensures e.Write? && e.n == |v.batch[v.phase.done]| ==> Content(Step(v, e)) == Content(v)
    ensures !e.Write? ==> Content(Step(v, e)) == Content(v) + if e.Append? then Kept(e.message) else ""
    ensures (e.Write? ==> e.n == |v.batch[v.phase.done]|) ==>
            Taken(Step(v, e)) == if e.Swap? then Content(v) else Taken(v)
  {
    match e
    case Append(message) => AppendKeeps(v, message);
    case Wait =>
    case Swap => SwapKeeps(v);
    case Write(n) => WriteKeeps(v, n);
    case Recycle => RecycleKeeps(v);
  }

  /** In every interleaving: no assert fails, no null buffer is used, the ownership invariant holds, and (unless a
      write stalled) nothing short of 4000 bytes is lost, duplicated or reordered. */
  lemma {:induction false} NothingLost(es: seq<Event>)
    ensures !Run(es).Aborted?
    ensures Run(es).At? ==> Owned(Run(es).log)
    ensures Run(es).At? && Lossless(es) ==> Content(Run(es).log) == Messages(es)
  {
    if es != [] {
      var before, e := Run(es[..|es| - 1]), es[|es| - 1];
      NothingLost(es[..|es| - 1]);
      if before.At? && Enabled(before.log, e) {
        StepKeeps(before.log, e);
      }
    }
  }

  function Appended(es: seq<Event>): string {
    if es == [] then ""
    else Appended(es[..|es| - 1]) + if es[|es| - 1].Append? then es[|es| - 1].message else ""
  }

  /** With messages of fewer than 4000 bytes, nothing at all is dropped. */
  lemma {:induction false} ShortMessagesKept(es: seq<Event>)
    requires forall e <- es :: e.Append? ==> |e.message| < SMALL_BUFFER
    ensures Messages(es) == Appended(es)
  {
    if es != [] {
      ShortMessagesKept(es[..|es| - 1]);
      assert es[|es| - 1] in es;
    }
  }

  /** Of two buffers in a row the second holds what did not fit the first. */
  predicate Full(chain: seq<string>) {
    forall i | 0 <= i < |chain| - 1 :: |chain[i]| + |chain[i + 1]| >= 4000
  }

  predicate AllFull(v: Log) {
    v.current.Some? && Full(v.batch) && Full(v.queued + [v.current.value])
  }

  lemma StepKeepsFull(v: Log, e: Event)
    requires Owned(v) && Enabled(v, e) && Asserts(v, e) && AllFull(v)
    requires e.Append? ==> |e.message| < 4000
    ensures AllFull(Step(v, e))
  {
    if e.Append? {
      AppendMoves(v, e.message);
      var chain, after := v.queued + [v.current.value], Step(v, e);
      forall i | 0 <= i < |after.queued|
        ensures |(after.queued + [after.current.value])[i]| + |(after.queued + [after.current.value])[i + 1]| >= 4000
      {
        if i < |v.queued| { assert |chain[i]| + |chain[i + 1]| >= 4000; }
      }
    }
  }

  /** A buffer is queued only when the next message no longer fits: in every run, any two buffers that follow each other
      in the batch, or in the queue with the current one, hold 4000 bytes or more together. */
  lemma {:induction false} BuffersAreUsed(es: seq<Event>)
    requires forall e <- es :: e.Append? ==> |e.message| < 4000
    ensures Run(es).At? ==> AllFull(Run(es).log)
  {
    if es != [] {
      var before, e := Run(es[..|es| - 1]), es[|es| - 1];
      assert e in es;
      BuffersAreUsed(es[..|es| - 1]);
      NothingLost(es[..|es| - 1]);
      if before.At? && Enabled(before.log, e) && Asserts(before.log, e) {
        StepKeepsFull(before.log, e);
      }
    }
  }

  /** The writer is never left asleep with something to write. */
  lemma NoLostNotify(es: seq<Event>)
    requires Run(es).At? && Run(es).log.waiting
    ensures Run(es).log.phase.AtTop? && Run(es).log.queued == []
  {
    NothingLost(es);
  }

  /** Whatever a `Logger` statement inserts, its message is one that the log keeps. */
  lemma LoggerMessagesKept(time: string, items: seq<Item>, file: string, line: int)
    requires Typed(Integer(line)) && forall item <- items :: Typed(item)
    ensures var message := InsertedAll("", LoggerItems(time, items, file, line)); Kept(message) == message
  {
    LoggerMessageFits(time, items, file, line);
  }

  /** At the loop top there are at most four buffers beside the queue. */
  lemma {:induction false} LiveBuffersBounded(es: seq<Event>)
    requires Run(es).At? && Run(es).log.phase.AtTop?
    ensures LiveBuffers(Run(es).log) <= 4 + |Run(es).log.queued|
  {
    NothingLost(es);
  }

  lemma LastStep(es: seq<Event>)
    requires es != [] && Run(es).At? && Lossless(es)
    ensures var prefix, e := es[..|es| - 1], es[|es| - 1];
            && Run(prefix).At? && Lossless(prefix) && Enabled(Run(prefix).log, e) && Asserts(Run(prefix).log, e)
            && Run(es).log == Step(Run(prefix).log, e)
            && (e.Write? ==> e.n == |Run(prefix).log.batch[Run(prefix).log.phase.done]|)
  {
  }

  lemma {:induction false} BatchHeadsForFile(before: seq<Event>, after: seq<Event>)
    requires var es := before + [Swap] + after; Run(es).At? && Lossless(es) && Swap !in after
    ensures Owned(Run(before + [Swap] + after).log)
    ensures Taken(Run(before + [Swap] + after).log) == Messages(before)
  {
    var es := before + [Swap] + after;
    var prefix, last := es[..|es| - 1], es[|es| - 1];
    LastStep(es);
    hide Run, Lossless, Messages, Enabled, Asserts, Step, Owned, Taken, Content;
    NothingLost(prefix);
    StepKeeps(Run(prefix).log, last);
    if after == [] {
      assert prefix == before;
    } else {
      assert prefix == before + [Swap] + after[..|after| - 1];
      assert last == after[|after| - 1];
      BatchHeadsForFile(before, after[..|after| - 1]);
    }
  }

  /** A finished cycle has written every message appended before its swap: the file is exactly those messages. */
  lemma CycleFlushes(before: seq<Event>, after: seq<Event>)
    requires var es := before + [Swap] + after;
             Run(es).At? && Run(es).log.phase.AtTop? && Lossless(es) && Swap !in after
    ensures Run(before + [Swap] + after).log.file == Messages(before)
  {
    BatchHeadsForFile(before, after);
  }

  /** A scheduler's choice: some producer appends, or the writer moves (its file answering as given). */
  datatype Turn = Producer(message: string) | Writer(answers: nat -> nat)

  function Produced(turns: seq<Turn>): string {
    if turns == [] then ""
    else
      var last := turns[|turns| - 1];
      Produced(turns[..|turns| - 1]) + if last.Producer? then Kept(last.message) else ""
  }

  ghost predicate NeverStalls(turns: seq<Turn>) {
    forall turn <- turns :: turn.Writer? ==> Fileutil.RetriesSucceed(turn.answers)
  }

  lemma RunSnoc(es: seq<Event>, e: Event)
    requires Run(es).At?
    ensures var before := Run(es).log;
            && Run(es + [e]) == (if !Enabled(before, e) then Blocked
                                 else if !Asserts(before, e) then Aborted else At(Step(before, e)))
            && Messages(es + [e]) == Messages(es) + (if e.Append? then Kept(e.message) else "")
            && (Lossless(es + [e]) <==>
                (Lossless(es) && (Enabled(before, e) && e.Write? ==> e.n == |before.batch[before.phase.done]|)))
  {
    assert (es + [e])[..|es|] == es;
  }

  /** The unique_ptr (or vector element) that owns a buffer. */
  datatype Slot = Batch | Queue | Current | Next | New1 | New2

  /** Who owns a live buffer and what it holds. */
  datatype Entry = Entry(slot: Slot, text: string)

  type Ledger = map<FixedBuffer, Entry>

  /** The owning pointers of the logger. */
  datatype Pointers = Pointers(
    batch: seq<FixedBuffer>, queue: seq<FixedBuffer>, current: FixedBuffer?,
    next: FixedBuffer?, new1: FixedBuffer?, new2: FixedBuffer?)

  ghost predicate NoDuplicates(bs: seq<FixedBuffer>) {
    forall i, j | 0 <= i < j < |bs| :: bs[i] != bs[j]
  }

  /** Each buffer of `bs` is owned by `slot`, once, and holds the text in the same place of `texts`. */
  ghost predicate OwnsAll(slot: Slot, bs: seq<FixedBuffer>, texts: seq<string>, ledger: Ledger) {
    && NoDuplicates(bs) && |texts| == |bs|
    && forall i | 0 <= i < |bs| :: bs[i] in ledger && ledger[bs[i]] == Entry(slot, texts[i])
  }

  ghost predicate OwnsOne(slot: Slot, b: FixedBuffer?, content: Option<string>, ledger: Ledger) {
    if b == null then content.None? else content.Some? && b in ledger && ledger[b] == Entry(slot, content.value)
  }

  /** Each live buffer has one owner, so pointers of different owners never alias. */
  ghost predicate UniquelyOwned(p: Pointers, log: Log, ledger: Ledger) {
    && OwnsAll(Batch, p.batch, log.batch, ledger) && OwnsAll(Queue, p.queue, log.queued, ledger)
    && OwnsOne(Current, p.current, log.current, ledger) && OwnsOne(Next, p.next, log.next, ledger)
    && OwnsOne(New1, p.new1, log.new1, ledger) && OwnsOne(New2, p.new2, log.new2, ledger)
  }

  lemma InitialOwners(current: FixedBuffer, next: FixedBuffer, new1: FixedBuffer, new2: FixedBuffer)
    requires current != next && current != new1 && current != new2 && next != new1 && next != new2 && new1 != new2
    ensures UniquelyOwned(
      Pointers([], [], current, next, new1, new2), INITIAL,
      map[current := Entry(Current, "")][next := Entry(Next, "")][new1 := Entry(New1, "")][new2 := Entry(New2, "")])
  {
  }

  lemma OwnersIgnoreWriter(p: Pointers, log: Log, ledger: Ledger, file: string, phase: Phase, waiting: bool)
    ensures UniquelyOwned(p, log, ledger) <==>
            UniquelyOwned(p, log.(file := file, phase := phase, waiting := waiting), ledger)
  {
  }

  lemma OwnersMatch(p: Pointers, log: Log, ledger: Ledger)
    requires UniquelyOwned(p, log, ledger)
    ensures |p.batch| == |log.batch| && |p.queue| == |log.queued|
    ensures p.current == null <==> log.current.None?
    ensures p.next == null <==> log.next.None?
    ensures p.new1 == null <==> log.new1.None?
    ensures p.new2 == null <==> log.new2.None?
  {
  }

  lemma StoringKeepsOwners(p: Pointers, log: Log, ledger: Ledger, text: string)
    requires UniquelyOwned(p, log, ledger) && p.current != null
    ensures log.current.Some? && p.current in ledger && ledger[p.current].text == log.current.value
    ensures UniquelyOwned(p, log.(current := Some(text)), ledger[p.current := Entry(Current, text)])
  {
  }

  /** `buffers_.push_back(move(currentBuffer_))`, then `spare` (the next buffer, or a new one) takes its place. */
  lemma RotationKeepsOwners(p: Pointers, log: Log, ledger: Ledger, spare: FixedBuffer)
    requires UniquelyOwned(p, log, ledger) && log.current.Some? && IsEmpty(log.next)
    requires if p.next != null then spare == p.next else spare !in ledger
    ensures p.current != null && p.current != spare && p.current in ledger
    ensures ledger[p.current].text == log.current.value
    ensures UniquelyOwned(p.(queue := p.queue + [p.current], current := spare, next := null),
                          log.(queued := log.queued + [log.current.value], current := Some(""), next := None,
                               waiting := false),
                          ledger[spare := Entry(Current, "")][p.current := Entry(Queue, log.current.value)])
  {
  }

  ghost predicate BuffersHold(ledger: Ledger)
    reads ledger.Keys, set b <- ledger :: b.data
  {
    && (forall b <- ledger :: b.Valid() && b.data.Length == SMALL_BUFFER && b.Contents() == ledger[b].text)
    && (forall b, c | b in ledger && c in ledger && b != c :: b.data != c.data)
  }

  /** `buffers_` with the current buffer becomes the batch; the writer's spare buffers take their places. */
  function SwapSlot(slot: Slot, nextMissing: bool): Slot {
    match slot
    case Queue | Current => Batch
    case New1 => Current
    case New2 => if nextMissing then Next else New2
    case _ => slot
  }

  function Moved(ledger: Ledger, nextMissing: bool): Ledger {
    map b <- ledger :: Entry(SwapSlot(ledger[b].slot, nextMissing), ledger[b].text)
  }

  lemma SwapKeepsOwners(p: Pointers, log: Log, ledger: Ledger)
    requires UniquelyOwned(p, log, ledger) && Owned(log) && Enabled(log, Swap)
    ensures p.current != null && p.new1 != null
    ensures UniquelyOwned(
      Pointers(p.queue + [p.current], [], p.new1, if p.next == null then p.new2 else p.next, null,
               if p.next == null then null else p.new2),
      SwapStep(log), Moved(ledger, p.next == null))
  {
  }

  /** `newBuffer = move(buffersToWrite.back()); pop_back(); reset()`. */
  lemma RefillKeepsOwners(p: Pointers, log: Log, ledger: Ledger, q: Pointers, after: Log, slot: Slot)
    requires UniquelyOwned(p, log, ledger) && log.batch != []
    requires slot.New1? || slot.New2?
    requires if slot.New1? then p.new1 == null else p.new2 == null
    requires var k := |p.batch| - 1;
             k >= 0 && if slot.New1? then q == p.(batch := p.batch[..k], new1 := p.batch[k])
                                     else q == p.(batch := p.batch[..k], new2 := p.batch[k])
    requires var batch := log.batch[..|log.batch| - 1];
             after == if slot.New1? then log.(batch := batch, new1 := Some(""))
                                    else log.(batch := batch, new2 := Some(""))
    ensures p.batch[|p.batch| - 1] in ledger
    ensures UniquelyOwned(q, after, ledger[p.batch[|p.batch| - 1] := Entry(slot, "")])
  {
  }

  lemma NoBuffersHold()
    ensures BuffersHold(map[])
  {
  }

  lemma MovedBufferHolds(ledger: Ledger, b: FixedBuffer, slot: Slot)
    requires b in ledger && BuffersHold(ledger)
    ensures BuffersHold(ledger[b := Entry(slot, ledger[b].text)])
  {
  }

  lemma MovedBuffersHold(ledger: Ledger, nextMissing: bool)
    requires BuffersHold(ledger)
    ensures BuffersHold(Moved(ledger, nextMissing))
  {
  }

  /** `new Buffer`, owned by `slot`. */
  method NewBuffer(ghost ledger: Ledger, ghost slot: Slot) returns (b: FixedBuffer)
    requires BuffersHold(ledger)
    ensures fresh(b) && fresh(b.data) && b !in ledger
    ensures BuffersHold(ledger[b := Entry(slot, "")])
  {
    b := new FixedBuffer(SMALL_BUFFER);
  }

  /** `buffer->reset()`, with `slot` as its new owner. */
  method ResetBuffer(b: FixedBuffer, ghost ledger: Ledger, ghost slot: Slot)
    requires b in ledger && BuffersHold(ledger)
    modifies b
    ensures BuffersHold(ledger[b := Entry(slot, "")])
  {
    b.Reset();
  }

  /** `AsyncLogging` with the locals of `threadFunc`, which no one else can reach. */
  class AsyncLogging {
    var currentBuffer: FixedBuffer?
    var nextBuffer: FixedBuffer?
    var buffers: seq<FixedBuffer>
    var newBuffer1: FixedBuffer?
    var newBuffer2: FixedBuffer?
    var buffersToWrite: seq<FixedBuffer>
    var phase: Phase
    /** Asleep in `cond_.wait()`. */
    var waiting: bool
    const output: Fileutil.AppendFile

    ghost var log: Log
    ghost var ledger: Ledger

    ghost function Owners(): Pointers
      reads this
    {
      Pointers(buffersToWrite, buffers, currentBuffer, nextBuffer, newBuffer1, newBuffer2)
    }

    ghost predicate Valid()
      reads this, output, ledger.Keys, set b <- ledger :: b.data
    {
      UniquelyOwned(Owners(), log, ledger) && BuffersHold(ledger) && log.file == output.bytes
      && log.phase == phase && log.waiting == waiting
    }

    /** The constructor, `start` and the prologue of `threadFunc`. */
    constructor ()
      ensures Valid() && log == INITIAL
    {
      hide UniquelyOwned, BuffersHold;
      NoBuffersHold();
      var current := NewBuffer(map[], Current);
      ghost var owned := map[current := Entry(Current, "")];
      var next := NewBuffer(owned, Next);
      owned := owned[next := Entry(Next, "")];
      var new1 := NewBuffer(owned, New1);
      owned := owned[new1 := Entry(New1, "")];
      var new2 := NewBuffer(owned, New2);
      currentBuffer, nextBuffer, newBuffer1, newBuffer2 := current, next, new1, new2;
      buffers, buffersToWrite, phase, waiting := [], [], AtTop, false;
      var file := new Fileutil.AppendFile();
      output := file;
      log := INITIAL;
      ledger := owned[new2 := Entry(New2, "")];
      InitialOwners(current, next, new1, new2);
    }

    method Append(message: string)
      requires Valid() && Owned(log)
      modifies this, ledger.Keys, set b <- ledger :: b.data
      ensures Valid() && log == AppendStep(old(log), message)
      ensures var current := old(log).current.value;
              if |current| + |message| < 4000 then
                && log.current == Some(current + message) && currentBuffer == old(currentBuffer)
                && buffers == old(buffers) && nextBuffer == old(nextBuffer) && waiting == old(waiting)
              else
                && log.current == Some(if |message| < 4000 then message else "")
                && buffers == old(buffers + [currentBuffer]) && nextBuffer == null && !waiting
                && (if old(nextBuffer) == null then fresh(currentBuffer) else currentBuffer == old(nextBuffer))
      ensures buffersToWrite == old(buffersToWrite) && newBuffer1 == old(newBuffer1) && newBuffer2 == old(newBuffer2)
      ensures forall b <- ledger :: b in old(ledger) || (fresh(b) && fresh(b.data))
    {
      hide UniquelyOwned, BuffersHold;
      AppendMoves(log, message);
      OwnersMatch(Owners(), log, ledger);
      CurrentHolds();
      if currentBuffer.Avail() <= |message| {
        RotateCurrent();
      }
      StoreInCurrent(message);
    }

    lemma CurrentHolds()
      requires Valid() && currentBuffer != null && log.current.Some?
      ensures currentBuffer.Avail() == SMALL_BUFFER - |log.current.value| && currentBuffer in ledger
    {
    }

    method StoreInCurrent(message: string)
      requires Valid() && currentBuffer != null
      modifies this`log, this`ledger, currentBuffer, currentBuffer.data
      ensures Valid() && log == old(log).(current := Some(Stored(old(log).current.value, message)))
      ensures ledger.Keys == old(ledger).Keys
    {
      hide UniquelyOwned;
      OwnersMatch(Owners(), log, ledger);
      ghost var stored := Stored(log.current.value, message);
      StoringKeepsOwners(Owners(), log, ledger, stored);
      currentBuffer.Append(message);
      ledger := ledger[currentBuffer := Entry(Current, stored)];
      log := log.(current := Some(stored));
    }

    method RotateCurrent()
      requires Valid() && Owned(log)
      modifies this
      ensures Valid() && currentBuffer != null
      ensures log == old(log.(queued := log.queued + [log.current.value], current := Some(""), next := None,
                              waiting := false))
      ensures buffers == old(buffers + [currentBuffer]) && nextBuffer == null && !waiting
      ensures currentBuffer in ledger
      ensures if old(nextBuffer) == null then fresh(currentBuffer) else currentBuffer == old(nextBuffer)
      ensures buffersToWrite == old(buffersToWrite) && newBuffer1 == old(newBuffer1) && newBuffer2 == old(newBuffer2)
      ensures forall b <- ledger :: b in old(ledger) || (fresh(b) && fresh(b.data))
    {
      var spare := nextBuffer;
      if spare == null {
        spare := NewBuffer(ledger, Current);
      }
      PushCurrent(spare);
    }

    /** `buffers_.push_back(move(currentBuffer_))`, and `spare` becomes the current buffer; `cond_.notify()`. */
    method PushCurrent(spare: FixedBuffer)
      requires Valid() && Owned(log)
      requires if nextBuffer != null then spare == nextBuffer else spare !in ledger
      requires BuffersHold(ledger[spare := Entry(Current, "")])
      modifies this
      ensures Valid() && currentBuffer == spare
      ensures log == old(log.(queued := log.queued + [log.current.value], current := Some(""), next := None,
                              waiting := false))
      ensures buffers == old(buffers + [currentBuffer]) && nextBuffer == null && !waiting
      ensures buffersToWrite == old(buffersToWrite) && newBuffer1 == old(newBuffer1) && newBuffer2 == old(newBuffer2)
      ensures ledger.Keys == old(ledger).Keys + {spare}
    {
      hide UniquelyOwned, BuffersHold;
      RotationKeepsOwners(Owners(), log, ledger, spare);
      var full: FixedBuffer := currentBuffer;
      MovedBufferHolds(ledger[spare := Entry(Current, "")], full, Queue);
      ledger := ledger[spare := Entry(Current, "")][full := Entry(Queue, log.current.value)];
      log := log.(queued := log.queued + [log.current.value], current := Some(""), next := None, waiting := false);
      buffers := buffers + [full];
      currentBuffer := spare;
      nextBuffer := null;
      waiting := false;
    }

    /** The critical section of `threadFunc`, once `buffers_` is not empty. */
    method SwapBuffers()
      requires Valid() && Owned(log) && Enabled(log, Swap)
      modifies this
      ensures Valid() && log == SwapStep(old(log)) && ledger.Keys == old(ledger).Keys
    {
      hide UniquelyOwned, BuffersHold;
      SwapKeepsOwners(Owners(), log, ledger);
      OwnersMatch(Owners(), log, ledger);
      MovedBuffersHold(ledger, nextBuffer == null);
      ledger := Moved(ledger, nextBuffer == null);
      log := SwapStep(log);
      var last: FixedBuffer := currentBuffer;
      currentBuffer := newBuffer1;
      newBuffer1 := null;
      buffersToWrite := buffers + [last];
      buffers := [];
      if nextBuffer == null {
        nextBuffer, newBuffer2 := newBuffer2, null;
      }
      phase := Writing(0);
    }

    /** One `output.append(buffer->data(), buffer->length())` of the write loop. */
    method WriteNext(answers: nat -> nat) returns (n: nat)
      requires Valid() && Owned(log) && phase.Writing? && phase.done < |buffersToWrite|
      modifies this`phase, this`log, output
      ensures Valid() && Enabled(old(log), Write(n)) && log == WriteStep(old(log), n)
      ensures Fileutil.RetriesSucceed(answers) ==> n == |old(log).batch[old(phase).done]|
    {
      OwnersMatch(Owners(), log, ledger);
      var buffer := buffersToWrite[phase.done];
      n := output.Append(buffer.Contents(), answers);
      log := WriteStep(log, n);
      phase := Writing(phase.done + 1);
    }

    /** The rest of the loop body: keep at most two written buffers, refill the spares, free what is left. */
    method Recycle()
      requires Valid() && Owned(log) && phase == Writing(|buffersToWrite|)
      modifies this, buffersToWrite
      ensures Valid() && log == RecycleStep(old(log)) && ledger.Keys == old(ledger).Keys
    {
      hide UniquelyOwned, BuffersHold;
      OwnersMatch(Owners(), log, ledger);
      if |buffersToWrite| > 2 {
        Truncate(2);
      }
      RefillSpares();
      Truncate(0);
      OwnersIgnoreWriter(Owners(), log, ledger, log.file, AtTop, log.waiting);
      phase := AtTop;
      log := log.(phase := AtTop);
    }

    method RefillSpares()
      requires Valid() && |log.batch| == 2
      modifies this, buffersToWrite
      ensures Valid() && ledger.Keys == old(ledger).Keys
      ensures log == old(log).(batch := log.batch, new1 := log.new1, new2 := log.new2)
      ensures log.new1 == (if old(log).new1.None? then Some("") else old(log).new1)
      ensures log.new2 == (if old(log).new2.None? then Some("") else old(log).new2)
    {
      hide UniquelyOwned, BuffersHold;
      OwnersMatch(Owners(), log, ledger);
      if newBuffer1 == null {
        Refill(New1, true);
      }
      if newBuffer2 == null {
        Refill(New2, false);
      }
    }

    method Truncate(size: nat)
      requires Valid() && size <= |buffersToWrite|
      modifies this`buffersToWrite, this`log
      ensures Valid() && buffersToWrite == old(buffersToWrite[..size])
      ensures log == old(log).(batch := old(log).batch[..size])
    {
      buffersToWrite := buffersToWrite[..size];
      log := log.(batch := log.batch[..size]);
    }

    method Refill(ghost slot: Slot, first: bool)
      requires Valid() && buffersToWrite != []
      requires if first then slot.New1? && newBuffer1 == null else slot.New2? && newBuffer2 == null
      modifies this`buffersToWrite, this`newBuffer1, this`newBuffer2, this`log, this`ledger, buffersToWrite
      ensures Valid() && buffersToWrite == old(buffersToWrite[..|buffersToWrite| - 1])
      ensures var batch := old(log.batch[..|log.batch| - 1]);
              log == if first then old(log).(batch := batch, new1 := Some(""))
                     else old(log).(batch := batch, new2 := Some(""))
      ensures first ==> newBuffer2 == old(newBuffer2)
      ensures ledger.Keys == old(ledger).Keys
    {
      hide UniquelyOwned, BuffersHold;
      ghost var was, before := Owners(), log;
      OwnersMatch(was, log, ledger);
      var back := buffersToWrite[|buffersToWrite| - 1];
      buffersToWrite := buffersToWrite[..|buffersToWrite| - 1];
      ghost var batch := log.batch[..|log.batch| - 1];
      if first {
        newBuffer1 := back;
        log := log.(batch := batch, new1 := Some(""));
      } else {
        newBuffer2 := back;
        log := log.(batch := batch, new2 := Some(""));
      }
      RefillKeepsOwners(was, before, ledger, Owners(), log, slot);
      ResetBuffer(back, ledger, slot);
      ledger := ledger[back := Entry(slot, "")];
    }

    /** `cond_.wait()`. */
    method FallAsleep()
      requires Valid()
      modifies this`waiting, this`log
      ensures Valid() && waiting && log == old(log).(waiting := true)
    {
      hide UniquelyOwned, BuffersHold;
      OwnersIgnoreWriter(Owners(), log, ledger, log.file, log.phase, true);
      waiting := true;
      log := log.(waiting := true);
    }

    /** The writer's next move; none while it is asleep. */
    method WriterMoves(answers: nat -> nat) returns (ghost e: Option<Event>)
      requires Valid() && Owned(log)
      modifies this, output, ledger.Keys
      ensures Valid() && ledger.Keys == old(ledger).Keys
      ensures e.None? <==> old(waiting)
      ensures if e.None? then log == old(log) && buffers == []
              else !e.value.Append? && Enabled(old(log), e.value) && Asserts(old(log), e.value)
                   && log == Step(old(log), e.value)
      ensures Fileutil.RetriesSucceed(answers) && e.Some? && e.value.Write? ==>
              e.value.n == |old(log).batch[old(log).phase.done]|
    {
      OwnersMatch(Owners(), log, ledger);
      hide UniquelyOwned, BuffersHold;
      if waiting {
        return None;
      }
      if phase.AtTop? {
        if buffers == [] {
          FallAsleep();
          return Some(Wait);
        }
        SwapBuffers();
        e := Some(Swap);
      } else {
        ghost var next := WriteOrRecycle(answers);
        e := Some(next);
      }
    }

    /** The writer's move outside the lock. */
    method WriteOrRecycle(answers: nat -> nat) returns (ghost e: Event)
      requires Valid() && Owned(log) && phase.Writing? && phase.done <= |buffersToWrite|
      modifies this, output, buffersToWrite
      ensures Valid() && ledger.Keys == old(ledger).Keys
      ensures (e.Write? || e.Recycle?) && Enabled(old(log), e) && Asserts(old(log), e) && log == Step(old(log), e)
      ensures Fileutil.RetriesSucceed(answers) && e.Write? ==> e.n == |old(log).batch[old(log).phase.done]|
    {
      OwnersMatch(Owners(), log, ledger);
      hide UniquelyOwned, BuffersHold, Owned, Asserts;
      if phase.done == |buffersToWrite| { StepKeeps(log, Event.Recycle); }
      if phase.done < |buffersToWrite| {
        var n := WriteNext(answers);
        StepKeeps(old(log), Write(n));
        e := Write(n);
      } else {
        Recycle();
        e := Event.Recycle;
      }
    }

    /** One turn, as the next events of the run so far. */
    method TakeTurn(turn: Turn, ghost es: seq<Event>) returns (ghost longer: seq<Event>)
      requires Valid() && Run(es) == At(log)
      modifies this, output, ledger.Keys, set b <- ledger :: b.data
      ensures Valid() && Run(longer) == At(log)
      ensures Messages(longer) == Messages(es) + if turn.Producer? then Kept(turn.message) else ""
      ensures Lossless(es) && (turn.Writer? ==> Fileutil.RetriesSucceed(turn.answers)) ==> Lossless(longer)
      ensures forall b <- ledger :: b in old(ledger) || (fresh(b) && fresh(b.data))
    {
      NothingLost(es);
      hide UniquelyOwned, BuffersHold, Run, Lossless, Messages, Owned, Kept;
      match turn
      case Producer(message) =>
        RunSnoc(es, Event.Append(message));
        Append(message);
        longer := es + [Event.Append(message)];
      case Writer(answers) =>
        ghost var e := WriterMoves(answers);
        longer := es;
        if e.Some? {
          RunSnoc(es, e.value);
          longer := es + [e.value];
        }
    }

    /** Any interleaving of producers with the writer is a run of the protocol. */
    method Interleave(turns: seq<Turn>) returns (ghost es: seq<Event>)
      requires Valid() && log == INITIAL
      modifies this, output, ledger.Keys, set b <- ledger :: b.data
      ensures Valid() && Run(es) == At(log)
      ensures Messages(es) == Produced(turns)
      ensures NeverStalls(turns) ==> Lossless(es)
    {
      hide UniquelyOwned, BuffersHold;
      es := [];
      for i := 0 to |turns|
        invariant Valid() && Run(es) == At(log)
        invariant Messages(es) == Produced(turns[..i])
        invariant NeverStalls(turns) ==> Lossless(es)
        invariant forall b <- ledger :: b in old(ledger) || (fresh(b) && fresh(b.data))
      {
        hide Run, Messages, Lossless;
        assert turns[..i + 1][..i] == turns[..i];
        es := TakeTurn(turns[i], es);
      }
      assert turns[..|turns|] == turns;
    }
  }
}
