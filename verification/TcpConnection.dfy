/** TcpConnection of net/TcpServer.cc: its channel, its output stream and the callbacks the loop runs. */
module TcpConnection {
  import opened Sequences
  import opened Epoll
  import Buffer
  import Numerals

  // ---- The output stream.

  /** What was passed to `sendInLoop`, what the socket has accepted, what is buffered, whether the channel asks for
      write events, whether `handleClose` has run, and the output left unsent at each `shutdown(SHUT_WR)`. */
  datatype Stream = Stream(
    passed: string, accepted: string, output: string, writing: bool, closed: bool, shutdowns: seq<string>)

  const NEW_STREAM := Stream("", "", "", false, false, [])

  /** `answer` is the result of `write`: negative for an error, else the number of bytes taken. */
  datatype StreamEvent = Send(message: string, answer: int) | WriteReady(answer: int) | Shutdown | Close

  function Taken(answer: int, len: nat): nat {
    if answer < 0 then 0 else if answer < len then answer else len
  }

  function Sent(s: Stream, message: string, answer: int): Stream {
    var n := if !s.writing && s.output == "" then Taken(answer, |message|) else 0;
    s.(passed := s.passed + message, accepted := s.accepted + message[..n], output := s.output + message[n..],
       writing := s.writing || n < |message|)
  }

  function Written(s: Stream, answer: int): Stream {
    var n := Taken(answer, |s.output|);
    if !s.writing || n == 0 then s
    else s.(accepted := s.accepted + s.output[..n], output := s.output[n..], writing := n < |s.output|)
  }

  function StreamStep(s: Stream, e: StreamEvent): Stream {
    match e
    case Send(message, answer) => Sent(s, message, answer)
    case WriteReady(answer) => Written(s, answer)
    case Shutdown => if s.writing then s else s.(shutdowns := s.shutdowns + [s.output])
    case Close => s.(writing := false, closed := true)
  }

  /** Several sends in a row, each with the answer of its write. */
  function SentAll(s: Stream, messages: seq<(string, int)>): Stream {
    if messages == [] then s
    else
      var last := messages[|messages| - 1];
      Sent(SentAll(s, messages[..|messages| - 1]), last.0, last.1)
  }

  function StreamRun(es: seq<StreamEvent>): Stream {
    if es == [] then NEW_STREAM else StreamStep(StreamRun(es[..|es| - 1]), es[|es| - 1])
  }

  /** No byte is lost, repeated or reordered; before the close the channel asks for write events exactly while output
      is buffered, and no shutdown cuts output off. */
  ghost predicate StreamOK(s: Stream) {
    && s.accepted + s.output == s.passed
    && (!s.closed ==> (s.writing <==> s.output != "") && forall left <- s.shutdowns :: left == "")
    && (s.writing ==> s.output != "")
  }

  lemma SendKeepsStream(s: Stream, message: string, answer: int)
    requires StreamOK(s)
    ensures StreamOK(Sent(s, message, answer))
  {
    var n := if !s.writing && s.output == "" then Taken(answer, |message|) else 0;
    assert message == message[..n] + message[n..];
    if n > 0 {
      assert s.accepted + message[..n] + ("" + message[n..]) == s.accepted + message;
    } else {
      assert s.accepted + message[..0] + (s.output + message[0..]) == (s.accepted + s.output) + message;
    }
  }

  /** What a send does to every field. With output waiting, `write` is not even tried. */
  lemma SentLeaves(s: Stream, message: string, answer: int)
    requires StreamOK(s)
    ensures StreamOK(Sent(s, message, answer))
    ensures var n := if s.output != "" || answer < 0 then 0 else if answer < |message| then answer else |message|;
            var t := Sent(s, message, answer);
            && t.passed == s.passed + message
            && t.accepted == s.accepted + message[..n] && t.output == s.output + message[n..]
            && (t.writing <==> s.writing || n < |message|)
            && t.closed == s.closed && t.shutdowns == s.shutdowns
  {
    SendKeepsStream(s, message, answer);
  }

  /** What a write event does to every field: `write` is offered the whole output and its first n bytes go. */
  lemma WrittenLeaves(s: Stream, answer: int)
    requires StreamOK(s)
    ensures !s.writing ==> Written(s, answer) == s
    ensures s.writing ==>
              var n := if answer < 0 then 0 else if answer < |s.output| then answer else |s.output|;
              var t := Written(s, answer);
              && t.accepted == s.accepted + s.output[..n] && t.output == s.output[n..]
              && (t.writing <==> t.output != "")
              && t.passed == s.passed && t.closed == s.closed && t.shutdowns == s.shutdowns
  {
    assert s.accepted + s.output[..0] == s.accepted;
  }

  lemma WritingHasOutput(s: Stream)
    requires StreamOK(s)
    ensures s.writing ==> s.output != ""
  {
  }

  lemma WriteKeepsStream(s: Stream, answer: int)
    requires StreamOK(s)
    ensures StreamOK(Written(s, answer))
  {
    var n := Taken(answer, |s.output|);
    assert s.output == s.output[..n] + s.output[n..];
    assert s.accepted + s.output[..n] + s.output[n..] == s.accepted + s.output;
  }

  lemma ShutdownKeepsStream(s: Stream)
    requires StreamOK(s)
    ensures StreamOK(StreamStep(s, Shutdown))
  {
  }

  lemma CloseKeepsStream(s: Stream)
    requires StreamOK(s)
    ensures StreamOK(StreamStep(s, Close))
  {
  }

  /** Over every sequence of sends, write events, failed and partial writes, shutdowns and a close. */
  lemma {:induction false} OutputIsExact(es: seq<StreamEvent>)
    ensures StreamOK(StreamRun(es))
  {
    if es != [] {
      OutputIsExact(es[..|es| - 1]);
      var s, e := StreamRun(es[..|es| - 1]), es[|es| - 1];
      if e.Send? { SendKeepsStream(s, e.message, e.answer); }
      if e.WriteReady? { WriteKeepsStream(s, e.answer); }
    }
  }

  function SentMessages(es: seq<StreamEvent>): seq<string> {
    if es == [] then []
    else
      var last := es[|es| - 1];
      SentMessages(es[..|es| - 1]) + if last.Send? then [last.message] else []
  }

  /** What was passed is the messages sent, in order, and nothing else. */
  lemma {:induction false} PassedIsSent(es: seq<StreamEvent>)
    ensures StreamRun(es).passed == Concat(SentMessages(es))
  {
    if es != [] {
      PassedIsSent(es[..|es| - 1]);
      var last := es[|es| - 1];
      if last.Send? { ConcatSnoc(SentMessages(es[..|es| - 1]), last.message); }
      assert SentMessages(es[..|es| - 1]) + [] == SentMessages(es[..|es| - 1]);
    }
  }

  /** A shutdown cuts off buffered output exactly when it comes after a close that left some. */
  lemma {:induction false} ShutdownCutsOffIff(es: seq<StreamEvent>)
    ensures var s := StreamRun(es);
            var t := StreamStep(s, Shutdown);
            (t.shutdowns != s.shutdowns && t.shutdowns[|s.shutdowns|] != "")
            <==> s.closed && !s.writing && s.output != ""
  {
    OutputIsExact(es);
  }

  lemma {:induction false} OnlyShutdownExtends(es: seq<StreamEvent>, later: seq<StreamEvent>)
    requires Shutdown !in later
    ensures StreamRun(es + later).shutdowns == StreamRun(es).shutdowns
  {
    if later == [] {
      assert es + later == es;
    } else {
      var shorter := later[..|later| - 1];
      assert (es + later)[..|es + later| - 1] == es + shorter;
      OnlyShutdownExtends(es, shorter);
    }
  }

  /** A shutdown asked for while output is waiting is dropped for good: no later write event, send or close makes up
      for it. Asked for otherwise, it is issued at once, and once. */
  lemma ShutdownIsNotRetried(es: seq<StreamEvent>, later: seq<StreamEvent>)
    requires Shutdown !in later
    ensures var before := StreamRun(es);
            StreamRun(es + [Shutdown] + later).shutdowns
            == before.shutdowns + if before.writing then [] else [before.output]
  {
    OnlyShutdownExtends(es + [Shutdown], later);
    assert (es + [Shutdown])[..|es|] == es;
  }

  // ---- The object.

  datatype ConnState = Connecting | Connected | Disconnecting | Disconnected

  /** What a handler hands over to: the server's close callback, or the message callback with the input so far. */
  datatype Callback = Nothing | CloseCallback | MessageCallback

  /** `newConnection` prints the server's name and the connection's number. */
  function ConnectionName(server: string, number: nat): string {
    server + "#" + Numerals.Numeral(number)
  }

  lemma NamesDiffer(server: string, i: nat, j: nat)
    ensures ConnectionName(server, i) == ConnectionName(server, j) ==> i == j
  {
    if ConnectionName(server, i) == ConnectionName(server, j) {
      assert ConnectionName(server, i)[|server| + 1..] == Numerals.Numeral(i);
      assert ConnectionName(server, j)[|server| + 1..] == Numerals.Numeral(j);
      Numerals.NumeralInjective(i, j);
    }
  }

  lemma NamesAreNumbered(server: string)
    ensures ConnectionName(server, 1) == server + "#1" && ConnectionName(server, 20) == server + "#20"
  {
    assert Numerals.NatNumeral(2, Numerals.Decimal) == "2";
  }

  /** The peer's side of a socket: the bytes that `write` has taken, and the calls of `shutdown(SHUT_WR)`. */
  class Socket {
    var taken: string
    var shutdowns: nat

    constructor ()
      ensures taken == "" && shutdowns == 0
    {
      taken, shutdowns := "", 0;
    }

    /** `::write`: `answer` is negative for an error, else how many bytes the socket is willing to take. */
    method Write(data: string, answer: int) returns (n: int)
      modifies this`taken
      ensures answer < 0 ==> n < 0 && taken == old(taken)
      ensures answer >= 0 ==>
                n == (if answer < |data| then answer else |data|) && taken == old(taken) + data[..n]
    {
      if answer < 0 {
        return -1;
      }
      n := if answer < |data| then answer else |data|;
      taken := taken + data[..n];
    }

    method ShutdownWrite()
      modifies this`shutdowns
      ensures shutdowns == old(shutdowns) + 1
    {
      shutdowns := shutdowns + 1;
    }
  }

  class TcpServer {
    const name: string
    var connections: map<string, TcpConnection>
    var nextConnId: nat
    /** The `connectDestroyed` functors this server has queued in its loop, in order. */
    var queued: seq<TcpConnection>

    /** Each listed connection is listed under its own name, and its number has been given out. */
    ghost predicate Valid()
      reads this
    {
      forall n <- connections ::
        n == connections[n].name == ConnectionName(name, connections[n].number) && connections[n].number < nextConnId
    }

    constructor (name: string)
      ensures Valid() && this.name == name && connections == map[] && nextConnId == 1 && queued == []
    {
      this.name, connections, nextConnId, queued := name, map[], 1, [];
    }

    /** `newConnection`: a name never used before, and the connection established at once. */
    method NewConnection(epoller: Epoller, fd: int) returns (conn: TcpConnection)
      requires Valid() && epoller.Valid() && fd !in epoller.channelMap
      modifies this, epoller
      ensures Valid() && fresh(conn) && conn.Valid() && conn.state == Connected && conn.epoller == epoller
      ensures conn.name !in old(connections) && connections == old(connections)[conn.name := conn]
      ensures nextConnId == old(nextConnId) + 1 && queued == old(queued)
      ensures conn.name == ConnectionName(name, old(nextConnId))
      ensures fd in epoller.kernel && epoller.kernel[fd] == Registration(Interest(true, false), conn.channel)
    {
      hide StreamOK, ConnectionName;
      var number := nextConnId;
      nextConnId := nextConnId + 1;
      conn := new TcpConnection(epoller, fd, name, number);
      forall n <- connections
        ensures n != conn.name
      {
        NamesDiffer(name, number, connections[n].number);
      }
      connections := connections[conn.name := conn];
      conn.ConnectEstablished();
    }

    /** `removeConnection` and `removeConnectionInLoop`, on the loop thread; `erase` removes exactly one. */
    method RemoveConnection(conn: TcpConnection)
      requires Valid() && conn.name in connections
      modifies this`connections, this`queued
      ensures Valid() && connections == old(connections) - {conn.name} && |connections| == |old(connections)| - 1
      ensures queued == old(queued) + [conn]
    {
      ghost var before := connections;
      connections := connections - {conn.name};
      queued := queued + [conn];
      assert connections.Keys == before.Keys - {conn.name};
      assert |connections.Keys| == |before.Keys| - 1;
    }
  }

  class TcpConnection {
    const name: string
    const number: nat
    const channel: Channel
    const epoller: Epoller
    const socket: Socket
    const inputBuffer: Buffer.Buffer
    const outputBuffer: Buffer.Buffer
    var state: ConnState
    ghost var stream: Stream

    /** Separate objects, sound parts, and the socket, the output and the write interest as the stream says. */
    ghost predicate Valid()
      reads this, channel, epoller, epoller.channelMap.Values, socket, inputBuffer, outputBuffer,
            inputBuffer.buffer, outputBuffer.buffer
    {
      Sound() && socket.taken == stream.accepted
    }

    /** Validity but for the bytes that the socket has taken. */
    ghost predicate Sound()
      reads this, channel, epoller, epoller.channelMap.Values, socket, inputBuffer, outputBuffer,
            inputBuffer.buffer, outputBuffer.buffer
    {
      && channel.epoller == epoller && epoller.Valid() && Agrees(epoller.ViewOf(channel))
      && (channel.index == -1 ==> channel.fd !in epoller.channelMap)
      && inputBuffer != outputBuffer && inputBuffer.buffer != outputBuffer.buffer
      && inputBuffer.Valid() && outputBuffer.Valid()
      && socket.shutdowns == |stream.shutdowns|
      && outputBuffer.Readable() == stream.output && channel.events.write == stream.writing && StreamOK(stream)
    }

    /** The channel as its parties see it. */
    ghost function ChannelView(): View
      reads this, channel, epoller
    {
      epoller.ViewOf(channel)
    }

    constructor (epoller: Epoller, fd: int, server: string, number: nat)
      requires epoller.Valid() && fd !in epoller.channelMap
      ensures Valid() && state == Connecting && stream == NEW_STREAM && ChannelView() == UNREGISTERED
      ensures this.epoller == epoller && channel.fd == fd && fresh(channel)
      ensures name == ConnectionName(server, number) && this.number == number
    {
      this.name, this.number := ConnectionName(server, number), number;
      this.epoller := epoller;
      channel := new Channel(epoller, fd);
      socket := new Socket();
      inputBuffer := new Buffer.Buffer();
      outputBuffer := new Buffer.Buffer();
      state := Connecting;
      stream := NEW_STREAM;
    }

    method ConnectEstablished()
      requires Valid() && state == Connecting && !stream.writing
      modifies this`state, channel, epoller
      ensures Valid() && state == Connected && ChannelView() == old(Applied(ChannelView(), EnableReading))
      ensures channel.events == old(channel.events).(read := true)
    {
      state := Connected;
      channel.Set(EnableReading);
    }

    /** A setter of `channel_`. */
    method SetInterest(call: Call)
      requires channel.epoller == epoller && epoller.Valid() && Agrees(ChannelView()) && !call.Remove?
      requires channel.index == -1 ==> channel.fd !in epoller.channelMap
      modifies channel, epoller
      ensures epoller.Valid() && Agrees(ChannelView()) && channel.index != -1
      ensures channel.events == Masked(old(channel.events), call)
      ensures ChannelView() == old(Applied(ChannelView(), call))
    {
      CallAgrees(ChannelView(), call);
      channel.Set(call);
    }

    /** What `write` did not take goes to the output buffer, and the channel asks for write events. */
    method BufferOutput(rest: string, ghost sent: Stream)
      requires Sound() && socket.taken == sent.accepted
      requires StreamOK(sent) && sent.writing && sent.output == stream.output + rest
      requires sent.shutdowns == stream.shutdowns
      modifies this`stream, channel, epoller, outputBuffer, outputBuffer.buffer
      ensures Valid() && stream == sent
      ensures outputBuffer.Readable() == old(outputBuffer.Readable()) + rest && channel.events.write
      ensures ChannelView() == if old(stream).writing then old(ChannelView())
                             else old(Applied(ChannelView(), Call.EnableWriting))
      ensures outputBuffer.buffer == old(outputBuffer.buffer) || fresh(outputBuffer.buffer)
    {
      hide StreamOK, Epoller.Valid, Agrees, Applied, Buffer.Appended, Buffer.Buffer.Shape;
      outputBuffer.Append(rest);
      if !channel.IsWriting() {
        SetInterest(Call.EnableWriting);
      }
      stream := sent;
    }

    /** `sendInLoop`; `answer` is what `write` returns when it is tried. */
    method SendInLoop(message: string, answer: int)
      requires Valid()
      modifies this`stream, socket`taken, channel, epoller, outputBuffer, outputBuffer.buffer
      ensures Valid() && stream == Sent(old(stream), message, answer)
      ensures var n := if old(outputBuffer.Readable()) != "" || answer < 0 then 0
                       else if answer < |message| then answer else |message|;
              && socket.taken == old(socket.taken) + message[..n]
              && outputBuffer.Readable() == old(outputBuffer.Readable()) + message[n..]
              && (channel.events.write <==> old(channel.events.write) || n < |message|)
      ensures ChannelView() == if old(stream).writing || !stream.writing then old(ChannelView())
                             else old(Applied(ChannelView(), Call.EnableWriting))
      ensures outputBuffer.buffer == old(outputBuffer.buffer) || fresh(outputBuffer.buffer)
    {
      hide StreamOK, Sent, Epoller.Valid, Agrees, Applied;
      SentLeaves(stream, message, answer);
      WritingHasOutput(stream);
      ghost var sent := Sent(stream, message, answer);
      var nWrote := 0;
      if !channel.IsWriting() && outputBuffer.ReadableBytes() == 0 {
        nWrote := socket.Write(message, answer);
        if nWrote < 0 {
          nWrote := 0;
        }
      }
      if nWrote < |message| {
        BufferOutput(message[nWrote..], sent);
      } else {
        stream := sent;
      }
    }

    /** What a message callback may do: any number of sends. */
    method SendAll(messages: seq<(string, int)>)
      requires Valid()
      modifies this`stream, socket`taken, channel, epoller, outputBuffer, outputBuffer.buffer
      ensures Valid() && stream == SentAll(old(stream), messages)
      ensures outputBuffer.buffer == old(outputBuffer.buffer) || fresh(outputBuffer.buffer)
    {
      hide StreamOK, Epoller.Valid, Agrees, Applied, Sent;
      for i := 0 to |messages|
        invariant Valid() && stream == SentAll(old(stream), messages[..i])
        invariant outputBuffer.buffer == old(outputBuffer.buffer) || fresh(outputBuffer.buffer)
      {
        assert messages[..i + 1][..i] == messages[..i];
        SendInLoop(messages[i].0, messages[i].1);
      }
      assert messages[..|messages|] == messages;
    }

    /** `handleWrite`; `answer` is what `write` returns. */
    method HandleWrite(answer: int)
      requires Valid()
      modifies this`stream, socket`taken, channel, epoller, outputBuffer, outputBuffer.buffer
      ensures Valid() && stream == Written(old(stream), answer)
      ensures var output := old(outputBuffer.Readable());
              var n := if !old(channel.events.write) || answer < 0 then 0
                       else if answer < |output| then answer else |output|;
              && socket.taken == old(socket.taken) + output[..n] && outputBuffer.Readable() == output[n..]
              && (channel.events.write <==> old(channel.events.write) && n < |output|)
      ensures ChannelView() == if stream.writing || !old(stream).writing then old(ChannelView())
                             else old(Applied(ChannelView(), DisableWriting))
    {
      WriteKeepsStream(stream, answer);
      WrittenLeaves(stream, answer);
      WritingHasOutput(stream);
      hide StreamOK, Written, Epoller.Valid, Agrees, Applied;
      ghost var written := Written(stream, answer);
      if channel.IsWriting() {
        var nWrote := socket.Write(outputBuffer.Readable(), answer);
        if nWrote > 0 {
          DropOutput(nWrote, written);
        }
      }
      stream := written;
    }

    /** What `write` took leaves the output buffer, and with the last of it the interest in write events goes. */
    method DropOutput(n: nat, ghost written: Stream)
      requires Sound() && socket.taken == written.accepted && stream.writing && n <= outputBuffer.ReadableBytes()
      requires StreamOK(written) && written.output == stream.output[n..] && written.shutdowns == stream.shutdowns
      requires written.writing <==> n < |stream.output|
      modifies this`stream, channel, epoller, outputBuffer`readerIndex
      ensures Valid() && stream == written
      ensures outputBuffer.Readable() == old(outputBuffer.Readable())[n..]
      ensures channel.events.write <==> written.writing
      ensures ChannelView() == if written.writing then old(ChannelView())
                             else old(Applied(ChannelView(), DisableWriting))
    {
      hide StreamOK, Epoller.Valid, Agrees, Applied, Buffer.Buffer.Shape;
      outputBuffer.Retrieve(n);
      if outputBuffer.ReadableBytes() == 0 {
        SetInterest(DisableWriting);
      }
      stream := written;
    }

    /** `shutdownInLoop`. */
    method ShutdownInLoop()
      requires Valid()
      modifies this`stream, socket`shutdowns
      ensures Valid() && stream == StreamStep(old(stream), Shutdown)
      ensures socket.shutdowns == old(socket.shutdowns) + if channel.events.write then 0 else 1
      ensures socket.shutdowns > old(socket.shutdowns) && !stream.closed ==> socket.taken == stream.passed
    {
      if !channel.IsWriting() {
        socket.ShutdownWrite();
        stream := stream.(shutdowns := stream.shutdowns + [stream.output]);
      }
    }

    /** `handleClose`: no interest any more, off the server's list, `connectDestroyed` queued. */
    method HandleClose(server: TcpServer)
      requires Valid() && server.Valid() && state == Connected
      requires name in server.connections && server.connections[name] == this
      modifies this`stream, channel, epoller, server
      ensures Valid() && server.Valid() && stream == StreamStep(old(stream), Close)
      ensures ChannelView() == old(Applied(ChannelView(), DisableAll)) && channel.events == NOTHING
      ensures server.connections == old(server.connections) - {name} && server.queued == old(server.queued) + [this]
      ensures server.nextConnId == old(server.nextConnId)
    {
      StopInterest();
      hide StreamOK, Epoller.Valid, Agrees, Applied;
      server.RemoveConnection(this);
    }

    /** `disableAll`, which ends the stream's writing. */
    method StopInterest()
      requires Valid()
      modifies this`stream, channel, epoller
      ensures Valid() && stream == StreamStep(old(stream), Close) && stream.closed
      ensures ChannelView() == old(Applied(ChannelView(), DisableAll)) && channel.events == NOTHING
    {
      CloseKeepsStream(stream);
      hide StreamOK, Epoller.Valid, Agrees, Applied;
      SetInterest(DisableAll);
      stream := stream.(writing := false, closed := true);
    }

    /** `handleRead`, by what `readv` answers: data goes to the message callback, 0 bytes close, an error is logged. */
    method HandleRead(answer: Option<string>, server: TcpServer) returns (callback: Callback)
      requires Valid() && server.Valid()
      requires answer.Some? ==> |answer.value| <= inputBuffer.WritableBytes() + Buffer.EXTRA_SIZE
      requires answer == Some("") ==>
                 state == Connected && name in server.connections && server.connections[name] == this
      modifies this`stream, channel, epoller, server, inputBuffer, inputBuffer.buffer
      ensures Valid() && server.Valid()
      ensures callback == (if answer.None? then Nothing
                           else if answer.value == "" then CloseCallback else MessageCallback)
      ensures inputBuffer.Readable() == old(inputBuffer.Readable()) + (if answer.Some? then answer.value else "")
      ensures if callback.CloseCallback? then
                && stream == StreamStep(old(stream), Close) && channel.events == NOTHING
                && ChannelView() == old(Applied(ChannelView(), DisableAll))
                && server.connections == old(server.connections) - {name}
                && server.queued == old(server.queued) + [this]
              else
                && stream == old(stream) && ChannelView() == old(ChannelView())
                && server.connections == old(server.connections) && server.queued == old(server.queued)
    {
      var n := inputBuffer.ReadFd(answer);
      if n > 0 {
        callback := MessageCallback;
      } else if n == 0 {
        HandleClose(server);
        callback := CloseCallback;
      } else {
        callback := Nothing;
      }
    }

    /** `connectDestroyed`, from either index: the channel ends unknown to the epoller and to the kernel. */
    method ConnectDestroyed()
      requires Valid() && state == Connected && stream.closed && channel.index != -1
      modifies this`state, this`stream, channel, epoller
      ensures Valid() && state == Disconnected && ChannelView() == UNREGISTERED
      ensures channel.fd !in epoller.channelMap && channel.fd !in epoller.kernel
      ensures stream == old(stream).(writing := false)
    {
      state := Disconnected;
      channel.Set(DisableAll);
      stream := stream.(writing := false);
      epoller.RemoveChannel(channel);
    }

    /** `Channel::handler` with this connection's callbacks: close, error (which only logs), read, write, in this
        order; the message callback sends `replies`. Not for an urgent hang-up whose read returns 0, which would close
        twice. */
    method Handler(r: Revents, read: Option<string>, replies: seq<(string, int)>, written: int, server: TcpServer)
        returns (message: bool)
      requires Valid() && server.Valid() && state == Connected
      requires name in server.connections && server.connections[name] == this
      requires read.Some? ==> |read.value| <= inputBuffer.WritableBytes() + Buffer.EXTRA_SIZE
      requires !(r.hup && !r.input && (r.pri || r.rdhup) && read == Some(""))
      modifies this`stream, socket`taken, channel, epoller, server
      modifies inputBuffer, inputBuffer.buffer, outputBuffer, outputBuffer.buffer
      ensures Valid() && server.Valid()
      ensures var reading := r.input || r.pri || r.rdhup;
              var closes := (r.hup && !r.input) || (reading && read == Some(""));
              var s := if closes then StreamStep(old(stream), Close) else old(stream);
              var t := if message then SentAll(s, replies) else s;
              && stream == (if r.output then Written(t, written) else t)
              && server.queued == old(server.queued) + (if closes then [this] else [])
              && server.connections == (if closes then old(server.connections) - {name} else old(server.connections))
              && message == (reading && read.Some? && read.value != "")
              && inputBuffer.Readable()
                 == old(inputBuffer.Readable()) + if reading && read.Some? then read.value else ""
    {
      hide StreamOK, Epoller.Valid, Agrees, Applied, Written, SentAll, Buffer.Buffer.Shape;
      message := false;
      if r.hup && !r.input {
        HandleClose(server);
      }
      if r.input || r.pri || r.rdhup {
        var callback := HandleRead(read, server);
        message := callback.MessageCallback?;
        if message {
          SendAll(replies);
        }
      }
      if r.output {
        HandleWrite(written);
      }
    }
  }
}
