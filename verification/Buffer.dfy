/** net/Buffer.h and net/Buffer.cc: a movable window over a growing array, as a byte queue. */
module Buffer {
  import opened Sequences

  const CHEAP_PREPEND := 8
  const INITIAL_SIZE := 1024
  const EXTRA_SIZE := 65536

  function Max(a: nat, b: nat): nat {
    if a < b then b else a
  }

  predicate CRLFAt(s: string, k: nat) {
    k + 2 <= |s| && s[k] == '\r' && s[k + 1] == '\n'
  }

  /** `std::copy(a + from, a + from + len, a + to)` within one array, front to back. */
  method CopyForward(a: array<char>, from: nat, to: nat, len: nat)
    requires to <= from && from + len <= a.Length
    modifies a
    ensures a[to..to + len] == old(a[from..from + len])
    ensures forall k | 0 <= k < a.Length && !(to <= k < to + len) :: a[k] == old(a[k])
  {
    ghost var source := a[from..from + len];
    for i := 0 to len
      invariant a[to..to + i] == source[..i]
      invariant forall k | 0 <= k < to || to + i <= k < a.Length :: a[k] == old(a[k])
    {
      a[to + i] := a[from + i];
    }
  }

  datatype Operation = Append(data: string) | Read(answer: Option<string>) | Retrieve(len: nat) | RetrieveAll
                     | Prepend(data: string)

  /** The byte queue a client sees. */
  function Queued(text: string, op: Operation): string
    requires op.Retrieve? ==> op.len <= |text|
  {
    match op
    case Append(data) => text + data
    case Read(answer) => if answer.Some? then text + answer.value else text
    case Retrieve(len) => text[len..]
    case RetrieveAll => ""
    case Prepend(data) => data + text
  }

  /** The queue with its place in the storage: `reader` bytes in front of it, `size` bytes in all. */
  datatype Window = Window(text: string, reader: nat, size: nat) {
    predicate Fits() {
      reader + |text| <= size && CHEAP_PREPEND <= size
    }

    function Free(): int {
      size - reader - |text|
    }
  }

  const NEW_WINDOW := Window("", CHEAP_PREPEND, CHEAP_PREPEND + INITIAL_SIZE)

  /** A sound window, the source's asserts, and the kernel's promise that `readv` fills no more than it was given. */
  predicate Legal(w: Window, op: Operation) {
    && w.Fits()
    && (op.Retrieve? ==> op.len <= |w.text|)
    && (op.Prepend? ==> |op.data| <= w.reader)
    && (op.Read? && op.answer.Some? ==> |op.answer.value| <= w.Free() + EXTRA_SIZE)
  }

  /** Room for `len` more bytes: none needed, or new storage, or the window moved to the front. */
  function Ensured(w: Window, len: nat): Window {
    if w.Free() >= len then w
    else if w.Free() + w.reader < len + CHEAP_PREPEND then w.(size := w.reader + |w.text| + len)
    else w.(reader := CHEAP_PREPEND)
  }

  /** `makeSpace` gives the room asked for, keeps the queue, and is frugal; its assert holds. */
  lemma EnsuredFits(w: Window, len: nat)
    requires w.Fits()
    ensures var e := Ensured(w, len);
            && e.Fits() && e.Free() >= len && e.text == w.text
            && w.size <= e.size <= Max(w.size, |w.text| + 2 * len + 7)
            && (w.Free() >= len ==> e == w)
            && (e.size > w.size <==> w.Free() < len && w.size < CHEAP_PREPEND + |w.text| + len)
            && (e.size > w.size ==> e.reader == w.reader && e.Free() == len)
            && (e.reader == w.reader || e.reader == CHEAP_PREPEND < w.reader)
  {
  }

  function Appended(w: Window, data: string): Window {
    var e := Ensured(w, |data|);
    e.(text := e.text + data)
  }

  function Moved(w: Window, op: Operation): Window
    requires Legal(w, op)
  {
    match op
    case Append(data) => Appended(w, data)
    case Read(answer) =>
      if answer.None? then w
      else if |answer.value| <= w.Free() then w.(text := w.text + answer.value)
      else Appended(w.(text := w.text + answer.value[..w.Free()]), answer.value[w.Free()..])
    case Retrieve(len) => Window(w.text[len..], w.reader + len, w.size)
    case RetrieveAll => Window("", CHEAP_PREPEND, w.size)
    case Prepend(data) => Window(data + w.text, w.reader - |data|, w.size)
  }

  /** Whatever the geometry does, the text moves as a queue: in particular a read is one append, whichever branch. */
  lemma MovesAsQueue(w: Window, op: Operation)
    requires Legal(w, op)
    ensures Moved(w, op).Fits() && Moved(w, op).text == Queued(w.text, op) && Moved(w, op).size >= w.size
  {
    match op
    case Append(data) => EnsuredFits(w, |data|);
    case Read(answer) =>
      if answer.Some? && |answer.value| > w.Free() {
        var k := w.Free();
        EnsuredFits(w.(text := w.text + answer.value[..k]), |answer.value| - k);
        assert answer.value == answer.value[..k] + answer.value[k..];
        assert w.text + answer.value[..k] + answer.value[k..] == w.text + answer.value;
      }
    case _ =>
  }

  /** The window after a run; None once a caller failed an assert. */
  function Run(ops: seq<Operation>): Option<Window> {
    if ops == [] then Some(NEW_WINDOW)
    else
      var w, op := Run(ops[..|ops| - 1]), ops[|ops| - 1];
      if w.None? || !Legal(w.value, op) then None else Some(Moved(w.value, op))
  }

  /** The same run on a plain queue. */
  function QueueRun(ops: seq<Operation>): Option<string> {
    if ops == [] then Some("")
    else
      var text, op := QueueRun(ops[..|ops| - 1]), ops[|ops| - 1];
      if text.None? || (op.Retrieve? && op.len > |text.value|) then None else Some(Queued(text.value, op))
  }

  /** Every run of the window, whatever moves and grows it made on the way, is the run of the plain queue. */
  lemma {:induction false} RunRefinesQueue(ops: seq<Operation>)
    requires Run(ops).Some?
    ensures Run(ops).value.Fits() && QueueRun(ops) == Some(Run(ops).value.text)
  {
    if ops != [] {
      RunRefinesQueue(ops[..|ops| - 1]);
      MovesAsQueue(Run(ops[..|ops| - 1]).value, ops[|ops| - 1]);
    }
  }

  lemma {:induction false} RunPrefix(ops: seq<Operation>, k: nat)
    requires k <= |ops| && Run(ops).Some?
    ensures Run(ops[..k]).Some?
  {
    if k < |ops| {
      RunPrefix(ops[..|ops| - 1], k);
      assert ops[..|ops| - 1][..k] == ops[..k];
    } else {
      assert ops[..k] == ops;
    }
  }

  class Buffer {
    var buffer: array<char>
    var readerIndex: nat
    var writerIndex: nat

    ghost predicate Valid()
      reads this
    {
      readerIndex <= writerIndex <= buffer.Length && CHEAP_PREPEND <= buffer.Length
    }

    /** The queue: what `peek()` and `readableBytes()` delimit. */
    function Readable(): string
      requires Valid()
      reads this, buffer
    {
      buffer[readerIndex..writerIndex]
    }

    /** The queue with its geometry. */
    function Shape(): Window
      requires Valid()
      reads this, buffer
    {
      Window(Readable(), readerIndex, buffer.Length)
    }

    function ReadableBytes(): nat
      requires Valid()
      reads this
    {
      writerIndex - readerIndex
    }

    function WritableBytes(): nat
      requires Valid()
      reads this
    {
      buffer.Length - writerIndex
    }

    constructor ()
      ensures Valid() && fresh(buffer) && Shape() == NEW_WINDOW
    {
      buffer := new char[CHEAP_PREPEND + INITIAL_SIZE];
      readerIndex, writerIndex := CHEAP_PREPEND, CHEAP_PREPEND;
    }

    /** `findCRLF`: the first CRLF of the queue, if there is one. */
    method FindCRLF() returns (at: Option<nat>)
      requires Valid()
      ensures at.Some? ==> CRLFAt(Readable(), at.value) && forall k: nat | k < at.value :: !CRLFAt(Readable(), k)
      ensures at.None? ==> forall k: nat :: !CRLFAt(Readable(), k)
    {
      var s := Readable();
      var i := 0;
      while i + 2 <= |s|
        invariant forall k: nat | k < i :: !CRLFAt(s, k)
      {
        if s[i] == '\r' && s[i + 1] == '\n' {
          return Some(i);
        }
        i := i + 1;
      }
      at := None;
    }

    method Retrieve(len: nat)
      requires Valid() && len <= ReadableBytes()
      modifies this`readerIndex
      ensures Valid() && Shape() == old(Moved(Shape(), Operation.Retrieve(len)))
      ensures Readable() == old(Readable())[len..] && readerIndex == old(readerIndex) + len
    {
      readerIndex := readerIndex + len;
    }

    method RetrieveAll()
      requires Valid()
      modifies this`readerIndex, this`writerIndex
      ensures Valid() && Shape() == old(Moved(Shape(), Operation.RetrieveAll))
      ensures Readable() == "" && readerIndex == CHEAP_PREPEND
    {
      readerIndex, writerIndex := CHEAP_PREPEND, CHEAP_PREPEND;
    }

    method RetrieveAsString() returns (s: string)
      requires Valid()
      modifies this`readerIndex, this`writerIndex
      ensures Valid() && s == old(Readable()) && Readable() == ""
      ensures Shape() == old(Moved(Shape(), Operation.RetrieveAll))
    {
      s := Readable();
      RetrieveAll();
    }

    /** `buffer_.resize(size)` to a larger size. */
    method Resize(size: nat)
      requires Valid() && size >= buffer.Length
      modifies this`buffer
      ensures Valid() && fresh(buffer) && buffer.Length == size && Readable() == old(Readable())
    {
      var bigger := new char[size];
      forall k | 0 <= k < buffer.Length { bigger[k] := buffer[k]; }
      buffer := bigger;
    }

    /** `makeSpace`: grow, or slide the window back to the front. The assert of the second branch always holds. */
    method MakeSpace(len: nat)
      requires Valid() && WritableBytes() < len
      modifies this, buffer
      ensures Valid() && Shape() == Ensured(old(Shape()), len)
      ensures buffer == old(buffer) || fresh(buffer)
    {
      if WritableBytes() + readerIndex < len + CHEAP_PREPEND {
        Resize(writerIndex + len);
      } else {
        assert CHEAP_PREPEND < readerIndex;
        var readable := ReadableBytes();
        CopyForward(buffer, readerIndex, CHEAP_PREPEND, readable);
        readerIndex := CHEAP_PREPEND;
        writerIndex := readerIndex + readable;
      }
    }

    method EnsureWritableBytes(len: nat)
      requires Valid()
      modifies this, buffer
      ensures Valid() && Shape() == Ensured(old(Shape()), len) && WritableBytes() >= len
      ensures buffer == old(buffer) || fresh(buffer)
    {
      EnsuredFits(Shape(), len);
      if WritableBytes() < len {
        MakeSpace(len);
      }
    }

    /** `append`: enqueue, growing to at most the size that the bytes to hold and twice the new ones need. */
    method Append(data: string)
      requires Valid()
      modifies this, buffer
      ensures Valid() && Shape() == Appended(old(Shape()), data) && Readable() == old(Readable()) + data
      ensures buffer == old(buffer) || fresh(buffer)
      ensures old(buffer.Length) <= buffer.Length
           <= Max(old(buffer.Length), |old(Readable())| + 2 * |data| + 7)
    {
      EnsuredFits(Shape(), |data|);
      EnsureWritableBytes(|data|);
      WriteAt(data);
      HasWritten(|data|, data);
    }

    /** `std::copy(data, data + len, beginWrite())`. */
    method WriteAt(data: string)
      requires Valid() && |data| <= WritableBytes()
      modifies buffer
      ensures buffer[writerIndex..writerIndex + |data|] == data
      ensures Shape() == old(Shape())
    {
      forall k | 0 <= k < |data| { buffer[writerIndex + k] := data[k]; }
    }

    method HasWritten(len: nat, ghost data: string)
      requires Valid() && |data| == len <= WritableBytes() && buffer[writerIndex..writerIndex + len] == data
      modifies this`writerIndex
      ensures Valid() && Shape() == old(Shape()).(text := old(Readable()) + data)
    {
      writerIndex := writerIndex + len;
    }

    /** `prepend`: push at the front, within the space before the window. */
    method Prepend(data: string)
      requires Valid() && |data| <= readerIndex
      modifies this`readerIndex, buffer
      ensures Valid() && Shape() == old(Moved(Shape(), Operation.Prepend(data)))
      ensures Readable() == data + old(Readable()) && readerIndex == old(readerIndex) - |data|
    {
      ghost var rest := Readable();
      readerIndex := readerIndex - |data|;
      forall k | 0 <= k < |data| { buffer[readerIndex + k] := data[k]; }
      assert buffer[readerIndex..readerIndex + |data|] == data;
      assert buffer[readerIndex + |data|..writerIndex] == rest;
      assert Readable() == buffer[readerIndex..readerIndex + |data|] + buffer[readerIndex + |data|..writerIndex];
    }

    /** `readFd`, for what `readv` answers: an error, or the bytes it scattered over the free part of the buffer and
        the 64 KiB overflow area. Either way they are enqueued whole. */
    method ReadFd(answer: Option<string>) returns (n: int)
      requires Valid()
      requires answer.Some? ==> |answer.value| <= WritableBytes() + EXTRA_SIZE
      modifies this, buffer
      ensures Valid() && Shape() == old(Moved(Shape(), Read(answer)))
      ensures answer.None? ==> n < 0 && Readable() == old(Readable())
      ensures answer.Some? ==> n == |answer.value| && Readable() == old(Readable()) + answer.value
      ensures buffer == old(buffer) || fresh(buffer)
    {
      MovesAsQueue(Shape(), Read(answer));
      hide Appended, Queued;
      if answer.None? {
        return -1;
      }
      var data := answer.value;
      var writable := WritableBytes();
      n := |data|;
      if n <= writable {
        WriteAt(data);
        HasWritten(n, data);
      } else {
        WriteAt(data[..writable]);
        var extrabuf := data[writable..];
        HasWritten(writable, data[..writable]);
        Append(extrabuf);
      }
    }

    method Execute(op: Operation)
      requires Valid() && Legal(Shape(), op)
      modifies this, buffer
      ensures Valid() && Shape() == old(Moved(Shape(), op))
      ensures buffer == old(buffer) || fresh(buffer)
    {
      match op
      case Append(data) => Append(data);
      case Read(answer) => var n := ReadFd(answer);
      case Retrieve(len) => Retrieve(len);
      case RetrieveAll => RetrieveAll();
      case Prepend(data) => Prepend(data);
    }

    /** Any sequence of operations on a new buffer in which callers respect the asserts leaves exactly the bytes that a
        plain queue would hold. */
    method ExecuteAll(ops: seq<Operation>)
      requires Valid() && Shape() == NEW_WINDOW && Run(ops).Some?
      modifies this, buffer
      ensures Valid() && Run(ops) == Some(Shape()) && QueueRun(ops) == Some(Readable())
    {
      hide Moved, Legal;
      for i := 0 to |ops|
        invariant Valid() && Run(ops[..i]) == Some(Shape())
        invariant buffer == old(buffer) || fresh(buffer)
      {
        RunPrefix(ops, i + 1);
        assert ops[..i + 1][..i] == ops[..i];
        Execute(ops[i]);
      }
      assert ops[..|ops|] == ops;
      RunRefinesQueue(ops);
    }
  }
}
