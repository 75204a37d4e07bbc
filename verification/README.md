# nutServer, verified

A model of the in-memory protocols of nutServer, a reactor-style TCP/HTTP server, and proofs of what they keep over
every run. The kernel (epoll set, eventfd, timerfd, `readv`, `write`, `fwrite`) is a small state with arbitrary answers;
critical sections are atomic steps, so that an arbitrary sequence of steps is an arbitrary interleaving of threads.

| file | models |
|---|---|
| `Numerals.dfy`, `LogStream.dfy` | the integer printers, the fixed buffer and the stream inserters |
| `Fileutil.dfy`, `AsyncLogging.dfy` | the file with its partial-write loop; the double-buffered log shared by producers and one writer |
| `Epoll.dfy` | channels, the three-valued index, the descriptor map and the kernel's interest set |
| `EventLoop.dfy` | the functor queue, the eventfd wake-up and the loop |
| `TimerQueue.dfy` | timers, the ordered set and the armed timerfd |
| `Buffer.dfy`, `Poller.dfy` | the movable byte window; the dense pollfd array with swap-remove |
| `TcpConnection.dfy` | a connection's objects and its output stream |
| `Server.dfy`, `ServerRuns.dfy` | the life cycle and the output of all connections of a server; its whole runs, other threads included |
| `ServerEffects.dfy`, `ServerHistory.dfy` | what each operation of the server does to every field; what a run closes, destroys and sends, and in which order |
| `HttpRequest.dfy`, `HttpResponse.dfy` | the request-line parser; the response serialiser with an independent decoder |
| `Sequences.dfy` | shared sequence vocabulary |

Most modules have two layers, and lemmas that state the effect of each step on the fields, in the values of before. Steps on values carry the invariants and the theorems over whole runs; classes with the
source's fields carry methods whose postconditions say that they take exactly those steps. `AsyncLogging.Interleave`,
`EventLoop.RunLoop`, `TimerQueue.Handler` and `Buffer.ExecuteAll` join the layers: what the objects do is a run of the
protocol.

What the proofs found, each stated as an exact condition:

* A message of 4000 bytes or more does not fit even an empty log buffer and is dropped (`AsyncLogging.Kept`); no
  message made through the logging stream is that long.
* Work queued on the loop thread before `loop()` starts does not wake the first poll, unless the flag that the
  constructor leaves uninitialised happens to be set or the eventfd is written for another reason
  (`EventLoop.EarlyFunctorGap`).
* A hang-up report without input but with urgent or half-close readiness, whose read returns 0, closes a connection
  twice and fails an assert (`Server.HandleReportFailsIff`).
* `send` on another thread tests the state when it is called, but the `sendInLoop` it queues, bound to the bare address
  of the connection, tests nothing when it runs. Behind the `connectDestroyed` of its connection it follows a dead
  pointer, or, when `write` leaves some of the output, registers the dead channel again, and the next plain hang-up
  fails the assert of `handleClose` (`ServerRuns.LateSendAborts`). The life-cycle invariant holds throughout a run
  exactly when no such late send happens (`ServerRuns.SafeExactlyUnrevived`), and none does when every such functor is
  pushed before the `connectDestroyed` is queued (`ServerRuns.TimelyRunsAreSafe`). Nothing but these two makes the life
  cycle fail.
* A shutdown asked for while output is waiting is dropped and never issued later (`TcpConnection.ShutdownIsNotRetried`).
* `Poller::updateChannel` hides the slot of a channel without interest and never shows it again
  (`Poller.HiddenIsIdle`).
* An unknown method of 3 to 7 characters makes `parseReqLine` loop forever (`HttpRequest.LoopEndsIff`).
* `shutdown(SHUT_WR)` can cut off buffered output only after a close (`TcpConnection.ShutdownCutsOffIff`).
* The timer proofs need no positive expirations and no monotonic clock, only a clock that is not negative.

The repository's own README promises that accepted connections are spread over I/O threads; the code gives every
connection the server's own loop (net/TcpServer.cc:252) and never starts the pool (net/TcpServer.cc:219-231). The model
follows the code.

## Model

| member | source | states |
|---|---|---|
| AsyncLogging.NothingLost | base/AsyncLogging.cc:24-136 | In every interleaving of appends with the writer no assert fails and no null buffer is used, the ownership invariant holds, and (no write having stalled) file, unwritten batch, queue and current buffer together are the kept messages in lock order |
| AsyncLogging.CycleFlushes | base/AsyncLogging.cc:62-134 | After a full writer cycle the file is exactly the messages appended before the cycle's swap |
| AsyncLogging.BatchHeadsForFile | base/AsyncLogging.cc:67-109 | Between the swap and the end of the cycle, file plus unwritten batch stay equal to the messages appended before the swap, whatever is appended meanwhile |
| AsyncLogging.StepKeeps | base/AsyncLogging.cc:24-134 | Each step from an owned state passes the asserts, keeps ownership, and changes the content by the appended message only |
| AsyncLogging.AppendKeeps | base/AsyncLogging.cc:25-49 | Appending adds the message at the end of the content, or nothing if it has 4000 bytes or more, and keeps ownership, with or without a rotation |
| AsyncLogging.AppendMoves | base/AsyncLogging.cc:29-48 | With room to spare the message goes to the current buffer and nothing else moves; otherwise exactly the current buffer is queued, the message starts an empty one, the spare is used up and the writer is woken |
| AsyncLogging.SwapMoves | base/AsyncLogging.cc:80-86 | The batch is the queue and the current buffer; an empty buffer is current, an empty one is next, and the spares used are gone |
| AsyncLogging.WriteMoves | base/AsyncLogging.cc:106-109 | The file grows by the first n bytes of the next buffer, and nothing else but the writer's place moves |
| AsyncLogging.RecycleMoves | base/AsyncLogging.cc:111-132 | Both spares are there and empty, the batch is gone, and producers see no difference |
| AsyncLogging.SwapKeeps | base/AsyncLogging.cc:67-89 | The swap moves the whole content into the batch, in order, and leaves current and next buffers as the producers need them |
| AsyncLogging.WriteKeeps | base/AsyncLogging.cc:106-109 | A full write moves bytes from the batch to the file without changing their concatenation |
| AsyncLogging.RecycleKeeps | base/AsyncLogging.cc:111-132 | Refilling the spares restores what the loop top requires and touches nothing unwritten |
| AsyncLogging.ShortMessagesKept | base/AsyncLogging.cc:25-49 | With messages shorter than 4000 bytes nothing is dropped |
| AsyncLogging.BuffersAreUsed | base/AsyncLogging.cc:29-46 | In every run of messages shorter than 4000 bytes any two consecutive buffers of the batch, or of the queue with the current one, hold 4000 bytes or more together |
| AsyncLogging.NoLostNotify | base/AsyncLogging.cc:47-78 | In every interleaving a writer asleep on the condition has an empty queue |
| AsyncLogging.LoggerMessagesKept | base/Logging.cc:42-64 | A message made by any logging statement is one the log keeps |
| AsyncLogging.LiveBuffersBounded | base/AsyncLogging.cc:62-66 | At the loop top there are at most four buffers beside the queued ones |
| AsyncLogging.RotationKeepsOwners | base/AsyncLogging.cc:36-45 | Rotating the current buffer leaves every buffer with exactly one owning pointer |
| AsyncLogging.SwapKeepsOwners | base/AsyncLogging.cc:80-86 | So does the swap, over five pointers and two vectors |
| AsyncLogging.RefillKeepsOwners | base/AsyncLogging.cc:116-130 | So does taking a spare from the back of the batch |
| AsyncLogging.AsyncLogging.constructor | base/AsyncLogging.cc:8-22 | Four distinct empty buffers, each with its owner |
| AsyncLogging.AsyncLogging.Append | base/AsyncLogging.cc:25-49 | The object takes exactly the append step: with room to spare the buffers stay where they are; otherwise the very buffer that was current is queued last, the spare or a new one takes its place, and the writer is woken |
| AsyncLogging.AsyncLogging.RotateCurrent | base/AsyncLogging.cc:36-45 | The full buffer goes to the end of the queue and the spare or a new buffer takes its place, empty |
| AsyncLogging.AsyncLogging.SwapBuffers | base/AsyncLogging.cc:80-87 | The critical section takes exactly the swap step |
| AsyncLogging.AsyncLogging.WriteNext | base/AsyncLogging.cc:106-109 | One buffer of the batch goes to the file, whole unless a retry of the write stalls |
| AsyncLogging.AsyncLogging.Recycle | base/AsyncLogging.cc:111-132 | The resize, both refills and the clear take exactly the recycle step; every `back` and `pop_back` has a buffer |
| AsyncLogging.AsyncLogging.Refill | base/AsyncLogging.cc:116-130 | The last buffer of the batch becomes the spare, empty, and leaves the batch |
| AsyncLogging.AsyncLogging.WriterMoves | base/AsyncLogging.cc:62-134 | Whatever its phase, an awake writer takes one enabled step whose asserts hold, falling asleep exactly when nothing is queued; an asleep one has nothing to write |
| AsyncLogging.AsyncLogging.Interleave | base/AsyncLogging.cc:24-134 | Any scheduling of producers and the writer on the object is a run of the protocol with those messages |
| Fileutil.LeftOverIff | base/Fileutil.cc:21-36 | Bytes are left over exactly when a retry is answered with zero before the answers add up to the length |
| Fileutil.StalledAt | base/Fileutil.cc:21-36 | What gets through before the first zero answer is what the answers before it add up to |
| Fileutil.FirstWriteCounts | base/Fileutil.cc:20-21 | The first write counts like any other but may take nothing |
| Fileutil.AllUnlessStalled | base/Fileutil.cc:18-37 | The whole message is written if no retry takes nothing, even when the first write takes nothing |
| Fileutil.AppendFile.Append | base/Fileutil.cc:18-37 | The file grows by exactly the prefix that the answers allow, without gaps or repeats |
| Numerals.NumeralSpellsValue | base/LogStream.cc:12-32 | A string is the printed numeral of a value if and only if it has no leading zero and reads back as the value |
| Numerals.DecimalExample | base/LogStream.cc:12-32 | -907 prints as its four characters |
| Numerals.HexExample | base/LogStream.cc:34-51 | Hexadecimal digits above nine are capital letters |
| Numerals.NumeralInjective | base/LogStream.cc:12-32 | Different values print differently |
| Numerals.NatNumeralRoundTrip | base/LogStream.cc:34-51 | Decimal and hexadecimal numerals read back as their value |
| Numerals.NatNumeralHead | base/LogStream.cc:34-51 | A numeral starts with 0 only for the value zero, which prints as one character |
| Numerals.NatNumeralUnique | base/LogStream.cc:34-51 | A digit string without leading zero is the numeral of what it reads as |
| Numerals.NumeralFits | base/LogStream.cc:55-63 | A value of any integer type prints in 1 to 20 characters |
| Numerals.HexNumeralFits | base/LogStream.cc:133-145 | An address prints in 1 to 16 hexadecimal digits |
| LogStream.NextDigit | base/LogStream.cc:19-23 | With truncating division the digit-table index is in range for either sign and picks the magnitude's last digit |
| LogStream.ReverseRange | base/LogStream.cc:29 | The range is reversed in place, the rest untouched |
| LogStream.EmitDigits | base/LogStream.cc:16-23 | The do-while loop leaves the magnitude's digits least significant first, for the most negative value too |
| LogStream.Convert | base/LogStream.cc:14-32 | In place: the numeral of the value and a NUL, at most 21 characters, nothing else written |
| LogStream.EmitHexDigits | base/LogStream.cc:37-45 | The hexadecimal digits least significant first |
| LogStream.ConvertHex | base/LogStream.cc:35-51 | The hexadecimal numeral and a NUL, at most 17 characters, nothing else written |
| LogStream.PrintPointer | base/LogStream.cc:133-145 | `0x` and the address, at most 19 characters with the NUL |
| LogStream.FixedBuffer.Append | base/LogStream.h:20-27 | The whole message is added when strictly shorter than the free space, otherwise nothing |
| LogStream.FixedBuffer.Reset | base/LogStream.h:36 | The buffer is empty again |
| LogStream.Stream.InsertInteger | base/LogStream.cc:55-63 | The numeral is added when 32 bytes are free, otherwise nothing |
| LogStream.Stream.InsertPointer | base/LogStream.cc:133-145 | The address is added when 32 bytes are free, otherwise nothing |
| LogStream.Stream.InsertFloating | base/LogStream.cc:113-131 | The rendering is added when 32 bytes are free, otherwise nothing |
| LogStream.Stream.InsertText | base/LogStream.h:53-106 | Booleans, characters, strings and null strings are added whole or not at all |
| LogStream.Stream.Insert | base/LogStream.h:53-106 | Every inserter moves the contents as the specification of its argument says |
| LogStream.RenderingReads | base/LogStream.cc:55-145 | Booleans, characters, strings and null strings have their fixed renderings; integers and addresses read back as their values |
| LogStream.InsertedWholeOrNot | base/LogStream.h:20-27 | Text goes in whole when it leaves a byte free, numbers when 32 bytes are free, and otherwise nothing does |
| LogStream.RoomSuffices | base/LogStream.cc:55-145 | What an inserter writes is shorter than the space it checks for |
| LogStream.StreamNeverFull | base/LogStream.h:48-121 | After any inserters the stream holds at most 3999 bytes and has only grown |
| LogStream.LoggerMessageFits | base/Logging.cc:42-64 | So does a whole logger message, with time, file and line |
| Epoll.CallAgrees | net/Epoller.cc:60-118 | Every setter and `removeChannel` keeps index, map, kernel entry and mask in agreement through legal `epoll_ctl` calls only; removal ends unregistered |
| Epoll.HistoryAgrees | net/Epoller.cc:60-118 | Over every history of a channel: agreement after each call, and no `epoll_ctl` that the kernel would refuse |
| Epoll.SetterEffect | net/Epoller.cc:60-87 | A setter's mask, index, map and kernel entry, from any agreeing state |
| Epoll.MasksAre | net/Channel.h:27-30 | Each setter changes its own bits and keeps the others |
| Epoll.DisableAllToggles | net/Channel.h:30 | An update without interest toggles between the two registered indices |
| Epoll.RemoveNeedsDisableFirst | net/Epoller.cc:89-94 | The asserts of `removeChannel` hold exactly for a registered channel whose last call left no interest |
| Epoll.Channel.Set | net/Channel.h:27-30 | The object's setters change mask, index, map and kernel as specified, and no other descriptor |
| Epoll.Epoller.Control | net/Epoller.cc:106-118 | The kernel set changes at one descriptor; only legal operations are asked of it |
| Epoll.Epoller.Poll | net/Epoller.cc:23-58 | The active channels are the registered channels of the reported descriptors, once each, in order, with their events; the array stays longer than the report |
| Epoll.Epoller.AddChannel | net/Epoller.cc:64-74 | A channel unknown to the kernel is entered with its mask, legally, and no other is touched |
| Epoll.Epoller.UpdateChannel | net/Epoller.cc:60-87 | The channel's view moves as specified and agreement is restored for all channels |
| Epoll.Epoller.RemoveChannel | net/Epoller.cc:89-104 | Through the re-entrant `disableAll`, from either index, the channel ends with index -1 and absent from map and kernel |
| EventLoop.NoLostWakeup | net/EventLoop.cc:58-172 | In every interleaving, at the poll with a quit request or a functor waiting, the eventfd is readable or another thread is about to write it; of all functors only those that the loop thread itself queued before `loop()` do not count |
| EventLoop.FifoExactlyOnce | net/EventLoop.cc:157-194 | Executed, rest of the batch and pending functors are, in order, all functors ever queued |
| EventLoop.ExecutedByNextPoll | net/EventLoop.cc:65-75 | Whatever was queued before a poll returned has been executed by the next poll |
| EventLoop.StepKeepsInvariant | net/EventLoop.cc:58-194 | Each step of each thread keeps the queue and wake-up invariant |
| EventLoop.RunKeepsInvariant | net/EventLoop.cc:58-194 | So does every run, whatever the uninitialised flag is |
| EventLoop.EarlyFunctorGap | net/EventLoop.cc:168-171 | Work queued on the loop thread before `loop()` reaches the first poll notified exactly when the flag was set or the eventfd is or will be written anyway |
| EventLoop.EventLoop.QueueInLoop | net/EventLoop.cc:157-172 | The functor is last in the queue, nothing else moves, and the eventfd is written once exactly when the caller is another thread or functors are running |
| EventLoop.EventLoop.RunInLoop | net/EventLoop.cc:120-130 | Runs at once exactly on the loop thread, otherwise queues |
| EventLoop.EventLoop.Quit | net/EventLoop.cc:94-101 | Sets the flag and writes the eventfd exactly when called from another thread |
| EventLoop.EventLoop.HandleRead | net/EventLoop.cc:143-151 | Drains the eventfd |
| EventLoop.EventLoop.TakeBatch | net/EventLoop.cc:179-186 | The batch is the whole queue at the swap, and the queue is empty |
| EventLoop.EventLoop.DoPendingFunctors | net/EventLoop.cc:177-194 | Terminates having executed exactly the functors pending at the swap, in order; those queued meanwhile stay, in order, the eventfd written once for each |
| EventLoop.EventLoop.HandleReports | net/EventLoop.cc:69-73 | A wake-up report resets the eventfd, and then the handlers' calls queue and wake |
| EventLoop.EventLoop.Turn | net/EventLoop.cc:67-74 | A turn polls as reported, drains the eventfd exactly when it is reported readable, executes the functors of before and of its handlers, leaves those queued by functors, quits exactly when asked, and leaves the eventfd at exactly the writes made since |
| EventLoop.EventLoop.RunLoop | net/EventLoop.cc:58-79 | The loop forgets an earlier quit, takes every turn up to the first in which someone quits and none after, and its turns execute the queue in order |
| ServerRuns.RunsAreSafe | net/EventLoop.cc:65-75 | Over every run without late work the life-cycle invariant holds, and a step fails exactly at an urgent hang-up whose read returns 0 or at work for an object that is gone |
| ServerRuns.SafeExactlyUnrevived | net/TcpServer.cc:109-155 | The invariant holds at every state of a run if and only if no send ran on a destroyed connection with output left over by `write` |
| ServerRuns.TimelyRunsAreSafe | net/TcpServer.cc:109-168 | When other threads push their work before the `connectDestroyed` of its connection is queued, no work dangles or is late, and an urgent hang-up is the only failure |
| ServerRuns.StepKeeps | net/EventLoop.cc:65-75 | One event in an invariant state fails if and only if it is an urgent hang-up or dangling work, and otherwise keeps the invariant if and only if it is not late work |
| ServerRuns.TimelyStepKeepsOrder | net/EventLoop.cc:157-194 | With timely pushes every step keeps queued work in front of its connection's `connectDestroyed` |
| ServerRuns.WorkKeepsUnlessLate | net/TcpServer.cc:125-180 | Queued `sendInLoop` and `shutdownInLoop` pass all asserts on any live connection, and keep the invariant if and only if they are not late |
| ServerRuns.LateSendRevives | net/TcpServer.cc:143-154 | A late send puts the destroyed connection's channel back into the map and the kernel's set |
| ServerRuns.LateSendAborts | net/TcpServer.cc:93-155 | From any quiet poll with a serving connection, a plain hang-up, one send from another thread in the window before the pass, and a second plain hang-up abort the server |
| ServerRuns.RevivedHangupAborts | net/TcpServer.cc:93-98 | Any later plain hang-up report of a re-registered connection fails the state assert |
| ServerRuns.RevivedBlocksAccept | net/Epoller.cc:64-71 | Once such a connection is released, accepting its descriptor again fails the assert of `updateChannel` |
| ServerRuns.PassDangles | net/TcpServer.cc:120-165 | Work behind a `connectDestroyed` follows a dead pointer when the last counted reference goes first |
| ServerRuns.FirstConnectionServes | net/TcpServer.cc:238-259 | From the initial state the first accept leads to a quiet poll with a serving connection |
| ServerRuns.UrgentHangupAborts | net/Channel.cc:42-51 | From any poll with a serving connection an urgent hang-up whose read returns 0 aborts the server |
| ServerRuns.ClosedOnceDestroyedOnce | net/TcpServer.cc:47-100 | Without late work `handleClose` runs at most once per connection, `connectDestroyed` at most once and only after it, and by the next poll every closed connection has been destroyed |
| ServerRuns.ActiveChannelsAlive | net/EventLoop.cc:69-73 | Without late work a channel waiting for its handler belongs to a live, registered, connected, not yet closed connection |
| ServerRuns.DescriptorsExclusive | net/TcpServer.cc:238-276 | Without late work no descriptor is registered while another live connection holds it; map and kernel lead to the holder |
| ServerRuns.ServerOutputIsExact | net/TcpServer.cc:75-180 | Without late work, over every run of the server, each connection's accepted and buffered bytes are the bytes passed to it, in order; until its close write interest means buffered output, and no shutdown cut any off |
| ServerRuns.TaskKeeps | net/EventLoop.cc:188-191 | A task of the pass fails exactly when it is work for an object that is gone, and breaks the invariant exactly when it is late |
| ServerRuns.ReleaseKeeps | net/TcpServer.cc:34-36 | Dropping the last counted reference happens to destroyed connections only, and leaves no channel, map entry or kernel entry of theirs |
| ServerRuns.PlainSteps | net/EventLoop.cc:65-75 | The poll hands on its whole report, the pass takes the whole queue, a release gives back one descriptor, another thread's functor is made, pushed once and pushed last; nothing else moves |
| ServerHistory.DestroyedInCloseOrder | net/TcpServer.cc:47-100 | Without late work, over every run: the connections closed are exactly those whose reports hang up without input or are readable and read 0, in that order; they are destroyed in the same order, and all by the next poll |
| ServerHistory.ServerOutputIsMessages | net/TcpServer.cc:75-155 | Without late work, over every run: what a connection's socket has taken and what is buffered are, in order and once each, the messages that the run passed to it |
| ServerHistory.PassedIsSent | net/TcpServer.cc:109-155 | What is passed to a connection are the messages that user code sends while it is Connected and those queued by other threads |
| ServerHistory.StepHistory | net/EventLoop.cc:65-75 | Each event closes, destroys, passes on and queues exactly what its report or task says |
| ServerEffects.ReportEffect | net/Channel.cc:35-56 | One report closes its connection if and only if it hangs up without input or is readable and reads 0; then and only then the server forgets it and its `connectDestroyed` is queued, before what the message callback queues; all messages of the callback are passed on |
| ServerEffects.ReportWrites | net/Channel.cc:52-54 | A report that asks for output offers all that is buffered to one `write`, and any other report writes nothing |
| ServerEffects.ReadEffect | net/TcpServer.cc:59-73 | An error changes nothing; the end of file closes: recorded, off the list, without interest, `connectDestroyed` last; data does what the callback does and no more |
| ServerEffects.CloseEffect | net/TcpServer.cc:93-100 | The close is recorded, the name leaves the list, interest is gone, `connectDestroyed` is queued last, and no other connection moves |
| ServerEffects.SendEffect | net/TcpServer.cc:125-155 | With nothing waiting `write` takes a prefix of the message and the rest is buffered; otherwise all is buffered |
| ServerEffects.WriteEffect | net/TcpServer.cc:75-90 | What `write` takes leaves the front of the output |
| ServerEffects.ShutdownEffect | net/TcpServer.cc:170-180 | The shutdown is issued exactly when no write interest is set |
| ServerEffects.ActsDeliver | net/TcpServer.cc:109-116 | User code on the loop thread passes on every message to a Connected connection, in order, and queues every functor, in order |
| ServerEffects.OpenEffect | net/TcpServer.cc:238-259 | The next number, its name, the descriptor, read interest, and one run of the connection callback |
| ServerEffects.DestroyEffect | net/TcpServer.cc:47-56 | The destruction is recorded, the connection Disconnected and off the epoller, the callback run once with messages to it going nowhere |
| Server.HandleReportFailsIff | net/Channel.cc:35-56 | Dispatching a report of a serving connection fails an assert if and only if it hangs up without input, is urgent or half-closed, and reads 0 |
| Server.HandleCloseWorks | net/TcpServer.cc:93-100 | From the serving stage `handleClose` passes every assert, `erase` removes one, and exactly one `connectDestroyed` is queued |
| Server.SecondCloseFails | net/TcpServer.cc:271-272 | A second close passes the state assert and fails the `erase` assert |
| Server.HandleReadKeeps | net/TcpServer.cc:59-73 | `handleRead` fails exactly at the end of file of a connection already closed, whatever the message callback does |
| Server.ConnectDestroyedWorks | net/TcpServer.cc:47-56 | On a closing connection `connectDestroyed` passes every assert, whatever its callback does, and its descriptor leaves map and kernel |
| Server.NewConnectionKeeps | net/TcpServer.cc:238-259 | A new connection gets a name never used, is registered and serving, and disturbs no other |
| Server.SetChannelWorks | net/Epoller.cc:60-87 | A setter never meets a foreign channel in the map, and changes one channel's bookkeeping only |
| Server.RemoveChannelWorks | net/Epoller.cc:89-104 | Removal of a registered channel without interest passes its asserts and clears both tables |
| Server.SendKeeps | net/TcpServer.cc:112-116 | A send that finds its connection Connected keeps every stage and every stream, during closing too |
| Server.ShutdownKeeps | net/TcpServer.cc:157-180 | A shutdown, which tests no state, keeps every stage and every stream, on destroyed connections too |
| Server.HandleWriteKeeps | net/TcpServer.cc:75-90 | So does a write event of a Connected connection |
| Server.RunActsKeep | net/TcpServer.cc:109-116 | User code on the loop thread that sends, shuts down and queues functors never fails and keeps the life cycle |
| TcpConnection.OutputIsExact | net/TcpServer.cc:75-155 | Over all sends, partial and failed writes, write events, shutdowns and a close: accepted bytes and buffered output are the bytes passed, in order; before the close write interest means buffered output, and no shutdown cuts any off |
| TcpConnection.SendKeepsStream | net/TcpServer.cc:125-155 | A send, for any answer of `write`, keeps the stream exact |
| TcpConnection.SentLeaves | net/TcpServer.cc:129-154 | After a send, by field: `write` took a prefix if nothing was waiting, the rest is buffered, and write events are asked for when something was left |
| TcpConnection.WriteKeepsStream | net/TcpServer.cc:75-90 | A write event, for any answer of `write`, keeps the stream exact |
| TcpConnection.WrittenLeaves | net/TcpServer.cc:78-89 | After a write event, by field: what `write` took of the output has moved from its front to the socket, and write interest ends exactly when nothing is left |
| TcpConnection.PassedIsSent | net/TcpServer.cc:125-155 | What was passed is the concatenation of the messages sent |
| TcpConnection.NamesAreNumbered | net/TcpServer.cc:242-245 | Names are the server's name, a hash sign and the number |
| TcpConnection.ShutdownCutsOffIff | net/TcpServer.cc:170-180 | A shutdown cuts off output exactly after a close that left some |
| TcpConnection.ShutdownIsNotRetried | net/TcpServer.cc:75-90 | A shutdown asked for while output waits is never issued by any later write event, send or close; asked for otherwise it is issued at once |
| TcpConnection.NamesDiffer | net/TcpServer.cc:242-245 | Connections of one server with different numbers have different names |
| TcpConnection.TcpServer.NewConnection | net/TcpServer.cc:238-259 | The connection is listed under a new name, connected, and registered for reading alone |
| TcpConnection.TcpServer.RemoveConnection | net/TcpServer.cc:261-276 | Exactly one entry leaves the list and one `connectDestroyed` is queued |
| TcpConnection.TcpConnection.ConnectEstablished | net/TcpServer.cc:38-45 | Connected, with read interest |
| TcpConnection.TcpConnection.SendInLoop | net/TcpServer.cc:125-155 | The socket has taken a prefix of the message, if nothing was waiting, and the output buffer has grown by the rest; write interest is set exactly when something was left or it was set before |
| TcpConnection.TcpConnection.BufferOutput | net/TcpServer.cc:143-154 | The rest is enqueued, and write events are asked for if they were not already |
| TcpConnection.TcpConnection.HandleWrite | net/TcpServer.cc:75-90 | With write interest the socket has taken a prefix of the output buffer and the buffer holds exactly the rest; interest stays exactly when something is left |
| TcpConnection.TcpConnection.DropOutput | net/TcpServer.cc:83-87 | Exactly the bytes taken leave the buffer, and the interest goes with the last of them |
| TcpConnection.TcpConnection.ShutdownInLoop | net/TcpServer.cc:170-180 | The socket is shut down exactly when no write interest is set; before the close, only when it has taken every byte passed |
| TcpConnection.TcpConnection.HandleClose | net/TcpServer.cc:93-100 | No interest is left, the server forgets the connection, `connectDestroyed` is queued once |
| TcpConnection.TcpConnection.HandleRead | net/TcpServer.cc:59-73 | Input grows by what was read; end of file closes, an error does nothing, data goes to the message callback |
| TcpConnection.TcpConnection.ConnectDestroyed | net/TcpServer.cc:47-56 | Disconnected, channel and descriptor unknown to epoller and kernel |
| TcpConnection.TcpConnection.Handler | net/Channel.cc:35-56 | One report closes at most once and moves the stream in the order close, read with replies, write |
| TimerQueue.RunsAreSafe | net/TimerQueue.cc:94-178 | Over every run, with any non-negative clock readings and any insertions by callbacks, no assert fails and no deleted timer is used |
| TimerQueue.StepKeeps | net/TimerQueue.cc:94-178 | Each step passes its asserts and keeps the four parts of the invariant |
| TimerQueue.OnePlaceEach | net/TimerQueue.cc:105-163 | A timer is in the set, in the batch, waiting or deleted, and in exactly one of them |
| TimerQueue.FiringTimes | net/TimerQueue.cc:105-163 | A timer's k-th firing (from 0) is not before first + k * interval; a one-shot fires at most once, exactly once when deleted |
| TimerQueue.EarliestIsArmed | net/TimerQueue.cc:94-163 | Outside `handler` a non-empty set without unread expiration has its timerfd set to fire exactly when its earliest timer is due, or 100 microseconds after the setting if that is later |
| TimerQueue.AddArms | net/TimerQueue.cc:94-103 | Adding a timer sets the timerfd, for that timer, exactly when it is earlier than all others |
| TimerQueue.EndArms | net/TimerQueue.cc:154-162 | `reset` sets the timerfd, for the first timer of the set, exactly when there is one with a positive time |
| TimerQueue.RanIsSettled | net/TimerQueue.cc:139-152 | After `handler` a timer that ran is listed an interval later, or deleted if it was a one-shot |
| TimerQueue.SpacedFromFirst | net/Timer.cc:18-28 | Restarting from the observed time spaces all firings by the interval |
| TimerQueue.SplitIsExact | net/TimerQueue.cc:123-133 | The batch is every entry with when <= now, in order; the rest is later |
| TimerQueue.DelayIsExact | net/TimerQueue.cc:21-35 | The delay is a well-formed timespec of max(100, when - now) microseconds, never the zero that disarms |
| TimerQueue.AddKeeps | net/TimerQueue.cc:165-178 | `insert` never finds its entry present, and arming the earliest keeps the invariant |
| TimerQueue.BeginKeeps | net/TimerQueue.cc:105-133 | Taking the expired timers keeps the invariant, whatever the clock says |
| TimerQueue.ResetKeeps | net/TimerQueue.cc:139-152 | Re-inserting a periodic timer meets no equal entry; deleting a one-shot leaves no entry behind |
| TimerQueue.EndKeeps | net/TimerQueue.cc:154-162 | The final arming restores what holds between handlers |
| TimerQueue.TimerQueue.AddTimerInLoop | net/TimerQueue.cc:94-103 | Inserted in order; the timerfd is set, for this timer, exactly when it is the earliest |
| TimerQueue.TimerQueue.ResetTimerfd | net/TimerQueue.cc:21-60 | The kernel gets a delay of exactly max(100, expiration - clock) microseconds, and unread expirations are dropped |
| TimerQueue.TimerQueue.GetExpired | net/TimerQueue.cc:123-133 | Exactly the listed timers due at `now` leave the set, in order |
| TimerQueue.TimerQueue.RunTimer | net/TimerQueue.cc:114-118 | One timer fires once, whatever is added meanwhile |
| TimerQueue.TimerQueue.Reset | net/TimerQueue.cc:135-163 | Fires nothing, ends idle, and sets the timerfd for the earliest timer, if its time is positive |
| TimerQueue.TimerQueue.Handler | net/TimerQueue.cc:105-121 | Exactly the timers due at `now` have fired, once each; periodic ones are listed an interval from `now`, one-shots deleted; the timerfd is set for the earliest left |
| Buffer.RunRefinesQueue | net/Buffer.h:68-176 | Over every run in which the asserts hold, the window's text is what a plain byte queue holds, whatever was moved or grown |
| Buffer.MovesAsQueue | net/Buffer.h:68-135 | Each operation acts on the text as on a queue; a read is one append in either branch |
| Buffer.EnsuredFits | net/Buffer.h:111-176 | Room is made only when missing, by growing only when moving cannot make it; the text is kept, the assert holds, and the storage is at most max(old, readable + 2 * len + 7) |
| Buffer.CopyForward | net/Buffer.h:169-171 | The overlapping forward copy moves the old contents intact |
| Buffer.Buffer.FindCRLF | net/Buffer.h:49-54 | The first CRLF of the text, or none if there is none |
| Buffer.Buffer.Retrieve | net/Buffer.h:68-72 | Dequeues a prefix |
| Buffer.Buffer.RetrieveAsString | net/Buffer.h:87-92 | Returns the whole text and empties the queue |
| Buffer.Buffer.MakeSpace | net/Buffer.h:158-176 | The window moves or the storage grows exactly as specified, the text kept |
| Buffer.Buffer.EnsureWritableBytes | net/Buffer.h:111-118 | At least the room asked for, moved or grown only when needed |
| Buffer.Buffer.Append | net/Buffer.h:94-104 | Enqueues, within the bound on the storage |
| Buffer.Buffer.Prepend | net/Buffer.h:129-135 | Pushes at the front |
| Buffer.Buffer.ReadFd | net/Buffer.cc:12-31 | An error changes nothing; n bytes read are enqueued whole, in either branch |
| Buffer.Buffer.ExecuteAll | net/Buffer.h:68-176 | Any sequence of operations on a new object that respects the asserts ends with the plain queue's bytes |
| Poller.HiddenIsIdle | net/Poller.cc:54-84 | Ignored means idle, and idle means ignored, exactly when an idle channel lost its interest by an update and an interested one was never updated without interest |
| Poller.RegisterKeepsLayout | net/Poller.cc:58-68 | A new slot keeps descriptors and slots in bijection |
| Poller.RefreshKeepsLayout | net/Poller.cc:69-83 | An update keeps it, negated descriptors included |
| Poller.SwapRemoveKeepsLayout | net/Poller.cc:96-111 | Swap-remove keeps it, also when the last slot is negative or is the removed one |
| Poller.ReadySelects | net/Poller.cc:38-51 | The ready slots are exactly those with events, in slot order |
| Poller.Poller.UpdateChannel | net/Poller.cc:54-84 | Map, slots and indices stay tied; the channel's slot has the new mask and no events, and the others are as before |
| Poller.Poller.RemoveChannel | net/Poller.cc:86-112 | Exactly one channel leaves, the last slot takes its place, its channel's index follows, and the others are as before |
| Poller.Poller.FillActiveChannels | net/Poller.cc:35-52 | The channels of the first `numEvents` slots with events, once each, in slot order; none missed when the count is right, despite the early exit |
| HttpRequest.LoopEndsIff | net/HttpData.cc:20-139 | The loop ends exactly when it is not waiting for a method before an unknown token of 3 to 7 characters, and then within four passes |
| HttpRequest.UnknownMethodIsFixedPoint | net/HttpData.cc:37-95 | Otherwise no number of passes changes anything |
| HttpRequest.WellFormedLineParses | net/HttpData.cc:20-139 | On "method URI rest" with a known method and a URI without spaces: true, with exactly that method and URI and the version at the front of the rest |
| HttpRequest.ParsedLineIsWellFormed | net/HttpData.cc:20-139 | When it returns true the line is the request line of what it stored |
| HttpRequest.AcceptsExactlyRequestLines | net/HttpData.cc:20-139 | A loop that ends returns true if and only if the line is a request line |
| HttpRequest.RefusedAtOnce | net/HttpData.cc:31-36 | A line without a space, or with a first token shorter than 3 or longer than 7, is refused in one pass with nothing changed |
| HttpRequest.KnownMethodNames | net/HttpData.cc:37-94 | The switch recognises exactly the seven method names |
| HttpRequest.MethodsAreSpelled | net/HttpData.cc:37-94 | The seven names, in capitals, and no other |
| HttpRequest.VersionIsPrefix | net/HttpData.cc:113-131 | The first eight characters tell 1.0 and 1.1, and anything else is 0.9 |
| HttpRequest.VersionIgnoresLineEnd | net/HttpData.cc:113-131 | The comparison may read past the line's end, but the CRLF keeps it from mattering |
| HttpRequest.HttpRequest.OnePass | net/HttpData.cc:27-136 | The object takes exactly one pass of the specification |
| HttpRequest.HttpRequest.ParseReqLine | net/HttpData.cc:20-139 | From any state in which the loop ends, the result and all fields are those of the specification |
| HttpResponse.SerialisationRoundTrip | net/HttpData.cc:293-307 | A decoder that knows only the format recovers status line, headers in order and body |
| HttpResponse.SerialisationInjective | net/HttpData.cc:293-307 | Different responses are different bytes |
| HttpResponse.RestRoundTrip | net/HttpData.cc:298-306 | Header lines and body decode, for any number of headers |
| HttpResponse.FieldRoundTrip | net/HttpData.cc:300-302 | A header line splits at its first colon into the key and value written |
| HttpResponse.AddHeaderUpdatesMap | net/HttpData.h:96-97 | The header map changes at one key and stays in key order |
| HttpResponse.LessIsFirstDifference | net/HttpData.h:108 | The map's order is that of the first differing character, a prefix coming first |
| HttpResponse.StatusLines | net/HttpData.cc:255-273 | The three status lines, spelled |
| HttpResponse.ResponseFields | net/HttpData.cc:275-289 | The whole header map: what was there, with the content type, and either the close header or the length and keep-alive headers |
| HttpResponse.ResponseIsDecodable | net/HttpData.cc:253-291 | What `setResponse` builds can be decoded |
| HttpResponse.ClientReadsResponse | net/HttpData.cc:253-307 | The client decodes exactly the response; for keep-alive, Content-Length reads back as the length of the decoded body |
| HttpResponse.ContentLength | net/HttpData.cc:284-289 | A keep-alive response carries the body's length, not overwritten by the later header |
| HttpResponse.HttpResponse.SetResponse | net/HttpData.cc:253-291 | Line, headers, body and the close flag for each version and Connection header |
| HttpResponse.HttpResponse.AppendHeaders | net/HttpData.cc:298-304 | The buffer grows by all header lines, in order |
| HttpResponse.HttpResponse.AppendToBuffer | net/HttpData.cc:293-307 | The buffer grows by exactly the serialised response |

## Left out

- System calls: their results are arbitrary answers; `strftime` is an arbitrary string and the decimal rendering of doubles by `snprintf` an arbitrary string of fewer than 32 characters.
- `MutexLock`, `Condition`, `Thread`, `CountDownLatch`: a critical section is one step. `cond_.wait()` is a step that puts the writer to sleep until an append wakes it.
- `AsyncLogging::stop` and what the current buffer still holds when the log ends: the source promises nothing about it. Also the flush counter of `Logfile`.
- LogStream.FixedBuffer.Append: does not model messages of 2 GiB or more, whose length the casts to `int` would wrap.
- Buffer.Buffer.Append: sizes are unbounded; `size_t` overflow and allocation failure are not modelled. `Buffer::shrink` swaps storage without moving the indices and is left out.
- TcpConnection.TcpServer.NewConnection: the connection number is unbounded; the wrap-around of `nextConnId_` after 2^31 connections is not modelled. Log lines, addresses and callbacks set up there are left out.
- TcpConnection.NamesDiffer: the truncation of the number to a 32-byte array never applies to an `int` and is not modelled.
- TimerQueue.DelayIsExact: the 64-bit range of time stamps is not modelled. Intervals are whole microseconds, where the source has floating-point seconds.
- TimerQueue.TimerQueue.AddTimerInLoop: among timers of equal expiration the set orders by address; the model takes any order. Timers still in the set when the queue is destructed are left out.
- HttpRequest.HttpRequest.ParseReqLine: requires that the loop ends, because for other lines the source does not return; `LoopEndsIff` says exactly which lines these are. It also requires a line with its CRLF: without one `findCRLF` returns NULL (net/Buffer.h:53), `parseRequest` passes that NULL as the end (net/HttpData.cc:189-190), and the search from `start` to it has no meaning in C++ that a model could state.
- `parseReqHeaders` and incremental parsing: a header value runs to the end of the buffer instead of its line, and a partly parsed line restarts at its beginning in a later state, so neither supports a correctness claim. Routing in `HttpServer` is left out too.
- ServerRuns.RunsAreSafe: the life cycle of many connections is proved on values, by identity numbers, so aliasing of connection objects is not captured there; the objects of one connection are in `TcpConnection`, and a connection's output in `Server` moves as the methods there promise. A task's own reference may end before the pass does, which allows more releases than the source. After late work nothing is claimed but what `LateSendRevives`, `RevivedHangupAborts` and `RevivedBlocksAccept` say.
- Server.RunActsKeep: user code on the loop thread is assumed to hold the connections it uses; it does nothing with one that is gone. The test of the state in `send` on another thread is one atomic read.
- `closeConnection` and the Disconnetcing state, including the `shutdownInLoop` inside `sendInLoop`: `handleClose` asserts the Connected state, so this path cannot be used as written.
- `EventLoopThreadPool` and `EventLoopThread`: the pool is never started, so one loop serves all connections.
- Epoll.Epoller.Control: `epoll_ctl` failing for lack of resources is not modelled; only its refusal of ill-timed operations is.
- Address helpers, `Socket`, and the inside of `Acceptor`: an accepted descriptor is one that is not in use.
