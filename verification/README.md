# A verified model of Swoole's PHP-facing protocols

This project models, in Dafny, the parts of Swoole in which many coroutines, peers or
network pieces interleave over shared state, and proves what each of them guarantees over
every run: switching one set of PHP executor globals between coroutines, single-flight class
loading, `Coroutine::join`, HTTP/2 sending and receiving on both sides, the cURL multi
handle, end-of-packet framing, and the HTTP/1 client's multipart bodies and header search.

Objects that the source updates in place are classes. Their state as a value is a datatype,
and what one operation or a whole run does to that value is a function; methods are proved
equal to those functions, and the invariants and theorems are lemmas about them. What a step
means for its caller (which stack a new coroutine runs on, who leads a load, when a join returns
true, what `end()` delivers) is stated a second time, without those functions, by predicates
named `...Law` or in the contracts themselves. Searching, packet framing and multipart bodies
are specified only that way, by what their results are in terms of the octets.

What the code cannot see (the event loop, libcurl, a peer, the parser, the user's code) enters
as a script: a sequence of events that a method consumes, so that "for all scripts" is "for all
interleavings". A method that suspends returns when its script ends, and its contract says what
holds in that state.

| file | source | about |
|---|---|---|
| CoroutineSwitch.dfy | ext-src/swoole_coroutine.cc | save and restore at create, yield, resume, close; fiber mirror |
| Autoload.dfy | ext-src/swoole_coroutine.cc | one leader per class name, waiters behind it |
| JoinRegistry.dfy | ext-src/swoole_coroutine.cc | `join`, its callbacks and its deferred resume |
| Http2Server.dfy | ext-src/swoole_http2_server.cc | flow-controlled sending, response shape, content-length, files |
| Http2Receive.dfy | ext-src/swoole_http2_server.cc | receive windows of the server |
| Http2Client.dfy | ext-src/swoole_http2_client_coro.cc | receive windows and response delivery of the client |
| Http2Outbox.dfy | ext-src/swoole_http2_client_coro.cc | the client's write queue |
| CurlMulti.dfy | ext-src/swoole_curl.cc | socket objects and wake-ups of a multi handle |
| EofClient.dfy, Search.dfy | ext-src/swoole_client.cc, include/swoole.h | packets ended by a marker |
| Multipart.dfy | ext-src/swoole_http_client_coro.cc | the announced and the sent length of a form |
| HttpResponse.dfy | ext-src/swoole_http_client_coro.cc | the resumed search for the end of a header |
| Prelude.dfy | | octets, 32-bit wrap-around, concatenation |

## Where a property does not hold as one would expect

The code is modelled as it is. Each of these has a lemma or a contract with the exact
condition, and most have a concrete case beside it.

- A coroutine that closes with output handlers still installed (a destructor started
  buffering) leaves them to an origin that had none. That is the only way in which what others
  do changes what a coroutine sees: `ViewIsolationIff`, `TakeFrameIff`,
  `DestructorOutputLeaks`. Output handlers present when the main context is set up are taken
  away from it, and the next time it is saved they are gone: `Scheduler.constructor`.
- Coroutines that load classes can wait for each other in a circle, and then wait forever; a
  waiter that is in no circle, and does not wait for one, can always be answered: `StuckIff`,
  `MutualWait`.
- A self-join returns false, and is resumed all the same, exactly when live contexts were
  listed before the own id and all of them closed while the warning was handled:
  `RefusedJoin`, over whole runs `RunKeeps`; `SelfJoinCanResumeTwice`.
- A WINDOW_UPDATE that carries a send window past 32 bits loses the grant: `UsedUpIff`,
  `GrantCanVanish`.
- `end()` violates the frame order when an empty body gets a non-empty encoding, and when a
  `write()` failed on its header block and an empty `end()` follows: `Response.End` with
  `EndsWell`, `EmptyEndContinues`. It declares a wrong length when an earlier `end()`
  compressed its body and then failed to send the header block: `DeclaredIsDeliveredIff`,
  `RetryDeclaresWrongly`.
- The connection receive window is counted from the configured initial window, but a peer
  starts from 65535 whatever the settings say, and DATA that is refused or unknown is not
  counted at all. Let the skew be the initial window minus 65535 plus what was not counted.
  A frame that uses up the peer's window brings no update exactly when the skew is negative or
  at least a quarter of the initial window: `UnsafeStalls`. Over runs in which nothing is
  refused, a peer that keeps to its windows can be left with nothing to send exactly when the
  initial window exceeds 65535 by a quarter of itself, or is below 65535 (and not zero) and a
  body may be longer than a quarter of it: `StallsIff`. In the second case the count itself
  wraps: `CountedIff`, `SmallWindowWraps`; in the first the peer just sends what it may:
  `LargeWindowStalls`. A single stream can be left like that only with an initial window below
  four octets: `StreamStallsIff`, `TinyWindowStalls`.
- The write queue keeps buffers in order, not frames: the header and the payload of a DATA
  frame are separated exactly when another buffer was accepted in between: `ContiguousIff`,
  `SplitDataFrame`. After a failed write the next buffer and then all that is still queued, a
  partly written buffer from its start, go out in the place of the octets that did not. The
  wire is still a prefix of what was accepted exactly when these happen to continue it:
  `FailureDisplacesIff`. Octets can be displaced and can go out twice: `FailureDisplaces`,
  `FailureRepeats`.
- Removing a cURL socket outside a pass leaves the selector with a freed object exactly when
  an event of that socket is pending: `RemoveLiveIff`. A transfer cancelled with an event
  pending gets there: `CancelLeavesFreed`.
- The packet buffer is doubled in 32 bits, which fails from two gibibytes on: `GrowsIff`. So the
  packets of a stream are all received, in whatever pieces it arrives, exactly when no stretch
  without a marker reaches the limit or two gibibytes: `ChunkingIsIrrelevant`, `RecvTwice`.
- The announced multipart length is wrong exactly when a part header is cut off by its
  2048-octet buffer or contains a NUL: `LengthAgrees`, `LongKeyIsShort`.

## Model

| member | source | states |
|---|---|---|
| CoroutineSwitch.TakeKeepsWellFormed | ext-src/swoole_coroutine.cc:645-674 | in the machine where every coroutine owns its globals, every step keeps the stack of resumes duplicate-free and populated |
| CoroutineSwitch.TakeKeepsExclusive | ext-src/swoole_coroutine.cc:302-350 | the same for one step |
| CoroutineSwitch.CreateIs | ext-src/swoole_coroutine.cc:302-350 | a created coroutine starts on top, on its own VM stack page, without pending exception, error handling or output handlers whatever its creator had, and inherits the rest; nobody else notices |
| CoroutineSwitch.SwitchIs | ext-src/swoole_coroutine.cc:645-674 | a yield or resume changes no view |
| CoroutineSwitch.CloseBegins | ext-src/swoole_coroutine.cc:684-705 | the start of a close touches only the view of the closing coroutine |
| CoroutineSwitch.CloseIs | ext-src/swoole_coroutine.cc:718-747 | at a close the view is gone, and the origin goes on with its own VM globals and its own handlers, or those left if it has none |
| CoroutineSwitch.ExecKeepsExclusive | ext-src/swoole_coroutine.cc:302-350 | over every run, if new pages are new and user code does not move onto another stack, no two live coroutines have the same VM stack |
| CoroutineSwitch.VmIsolation | ext-src/swoole_coroutine.cc:533-674 | over every run during which a coroutine is not on top, whatever others do, the VM globals it will see again are those it had when switched out |
| CoroutineSwitch.ViewIsolationIff | ext-src/swoole_coroutine.cc:533-747 | over every run during which a coroutine is not on top, its whole view, output handlers included, stays the same if and only if the last step is not a close that leaves handlers to it while it has none |
| CoroutineSwitch.TakeFrameIff | ext-src/swoole_coroutine.cc:633-747 | one step changes the view of a coroutine that does not run if and only if it is a close that leaves handlers to it while it has none; that puts it on top |
| CoroutineSwitch.DestructorOutputLeaks | ext-src/swoole_coroutine.cc:695-746 | a four-step run in which buffering started by a destructor ends up in the main context |
| CoroutineSwitch.SaveVmStack | ext-src/swoole_coroutine.cc:533-551 | the save area holds exactly the preserved globals, and neither output nor fiber state changes |
| CoroutineSwitch.RestoreVmStack | ext-src/swoole_coroutine.cc:553-571 | the preserved globals become what the save area holds, everything else stays |
| CoroutineSwitch.Scheduler.constructor | ext-src/php_swoole_coroutine.h:260-266 | the fresh scheduler stands for one main context with the present globals and no output handlers: those present are in its save area |
| CoroutineSwitch.Scheduler.SaveOg | ext-src/swoole_coroutine.cc:573-581 | what is saved is what was visible, and no handler stays installed |
| CoroutineSwitch.Scheduler.RestoreOg | ext-src/swoole_coroutine.cc:583-589 | saved output is reinstalled once and consumed, absent output leaves the globals alone |
| CoroutineSwitch.Scheduler.SaveContext | ext-src/swoole_coroutine.cc:633-637 | the whole view of the running context is in its save area, others untouched |
| CoroutineSwitch.Scheduler.RestoreContext | ext-src/swoole_coroutine.cc:639-643 | the globals are what the save area held, others untouched |
| CoroutineSwitch.Scheduler.SwitchTryNotify | ext-src/swoole_coroutine.cc:888-910 | the fiber that runs becomes suspended (a dead one stays dead), the target runs, and observers are told once |
| CoroutineSwitch.Scheduler.SwitchContext | ext-src/swoole_coroutine.cc:645-674 | notify, save, restore in this order swap the two contexts |
| CoroutineSwitch.Scheduler.Yield | ext-src/swoole_coroutine.cc:645-658 | the conditional save and restore acts as popping a stack of private globals, no view changes; all invariants kept |
| CoroutineSwitch.Scheduler.Resume | ext-src/swoole_coroutine.cc:660-674 | likewise as pushing the target |
| CoroutineSwitch.Scheduler.Enter | src/coroutine/base.cc:158-173 | the kernel's half: active, switched to, resumed by the one that ran |
| CoroutineSwitch.Scheduler.UserCode | ext-src/swoole_coroutine.cc:786-789 | arbitrary changes of the globals are changes of the running coroutine's own view |
| CoroutineSwitch.Scheduler.Create | ext-src/swoole_coroutine.cc:826-853 | refused exactly at the limit, without effect; else the law of creation: fresh stack page, clean error state and no handlers on top, every other view kept |
| CoroutineSwitch.Scheduler.Spawn | ext-src/swoole_coroutine.cc:749-784 | the steps of creation up to the first user code: who is current, what is saved, the fiber switch, and that the new globals start fresh |
| CoroutineSwitch.Scheduler.StartMain | ext-src/swoole_coroutine.cc:766-784 | context and fiber of the new coroutine, whose globals start fresh; the creator's save area keeps everything but its fiber's status |
| CoroutineSwitch.Scheduler.CreateContext | ext-src/swoole_coroutine.cc:302-350 | the VM stack, its top, end and first frame lie on the page allocated for it, exception, error handling and JIT state are cleared, the rest is the creator's, and the new save area agrees |
| CoroutineSwitch.Scheduler.BeginClose | ext-src/swoole_coroutine.cc:684-705 | ends the coroutine's output buffering and nothing else |
| CoroutineSwitch.Scheduler.FinishClose | ext-src/swoole_coroutine.cc:718-747 | the view of the coroutine is gone, its origin runs again with what the law of closing gives it, children lose their origin |
| CoroutineSwitch.Scheduler.Unlink | src/coroutine/base.cc:197-211 | exactly the children of the closed coroutine get the main context as origin |
| CoroutineSwitch.Scheduler.Reap | ext-src/swoole_coroutine.cc:735-746 | the fiber dies before its last switch notification, then the origin's globals return |
| CoroutineSwitch.Scheduler.TakeStep | ext-src/swoole_coroutine.cc:533-853 | every step of the real scheduler is that step of the private-globals machine, and obeys the law stated for its kind |
| CoroutineSwitch.Scheduler.Run | ext-src/swoole_coroutine.cc:533-853 | every run of the real scheduler refines the run of the private-globals machine, and keeps VM stacks unshared |
| CoroutineSwitch.Scheduler.RunOthers | ext-src/swoole_coroutine.cc:533-853 | a run of the real scheduler without a coroutine leaves it its VM globals, and its whole view under the exact condition |
| CoroutineSwitch.SwitchKeepsViews | ext-src/swoole_coroutine.cc:645-674 | a switch leaves every coroutine's view as it was |
| CoroutineSwitch.SwitchKeepsMirror | ext-src/swoole_coroutine.cc:888-910 | a switch keeps exactly the current fiber running, all others suspended, and the notification trail unbroken |
| CoroutineSwitch.YieldCorrect | ext-src/swoole_coroutine.cc:645-658 | the state after a yield is valid and abstracts to the popped stack |
| CoroutineSwitch.ResumeCorrect | ext-src/swoole_coroutine.cc:660-674 | the state after a resume is valid and abstracts to the pushed stack |
| CoroutineSwitch.CreateCorrect | ext-src/swoole_coroutine.cc:749-853 | the state after a create is valid and abstracts to the new coroutine on top |
| CoroutineSwitch.SpawnKeepsMirror | ext-src/swoole_coroutine.cc:766-784 | a created coroutine's fiber is the running one |
| CoroutineSwitch.CloseCorrect | ext-src/swoole_coroutine.cc:684-747 | the state after a close is valid and abstracts to the closed coroutine gone |
| CoroutineSwitch.ReapKeepsMirror | ext-src/swoole_coroutine.cc:875-886 | a closed coroutine's fiber is destroyed and the origin's is the running one |
| CoroutineSwitch.BeginCloseAbs | ext-src/swoole_coroutine.cc:695-705 | the first half of a close abstracts to a coroutine without buffering |
| CoroutineSwitch.UserCodeCorrect | ext-src/swoole_coroutine.cc:786-789 | user code keeps every invariant of the scheduler |
| CoroutineSwitch.LiveCount | ext-src/swoole_coroutine.cc:826-830 | the coroutines counted for the limit are the views without the main one |
| Autoload.AtMostOneLoader | ext-src/swoole_coroutine.cc:975-995 | two calls that load the same name are the same call |
| Autoload.EveryWaiterServed | ext-src/swoole_coroutine.cc:981-1004 | once a leader returned, everyone who ever queued behind it was answered once, in order, with the leader's class; who cannot get there is `StuckIff` |
| Autoload.ServedIsAnswered | ext-src/swoole_coroutine.cc:997-1003 | each served waiter has an answer recorded |
| Autoload.AutoloadHub.constructor | ext-src/swoole_coroutine.cc:971-974 | no name is being loaded |
| Autoload.EnterIs | ext-src/swoole_coroutine.cc:975-994 | leads if and only if nobody loads the name, goes on at once if and only if the loader itself asks again, else queues last behind it; nothing else changes |
| Autoload.AutoloadHub.Enter | ext-src/swoole_coroutine.cc:962-994 | that law, stated outright for the hub; never waits on itself |
| Autoload.AutoloadHub.LeadOrQueue | ext-src/swoole_coroutine.cc:975-993 | the branches of it |
| Autoload.AutoloadHub.FinishLoad | ext-src/swoole_coroutine.cc:994-995 | the entry is gone before the drain, so nobody can join the queue any more |
| Autoload.AutoloadHub.DeliverNext | ext-src/swoole_coroutine.cc:998-1003 | the front waiter, and no other, is resumed with the class |
| Autoload.AutoloadHub.FinishCall | ext-src/swoole_coroutine.cc:1004-1004 | a call returns only with an empty queue |
| Autoload.AutoloadHub.TakeStep | ext-src/swoole_coroutine.cc:962-1005 | each step does what the specification's step does, as spelled out case by case with the cases in which nothing happens, and keeps the invariants |
| Autoload.AutoloadHub.Run | ext-src/swoole_coroutine.cc:962-1005 | every interleaving is the run of the specification, and keeps the invariants |
| Autoload.StepKeepsValid | ext-src/swoole_coroutine.cc:962-1005 | any step of any coroutine keeps every invariant |
| Autoload.RunKeepsValid | ext-src/swoole_coroutine.cc:962-1005 | so does every interleaving |
| Autoload.StepElsewhere | ext-src/swoole_coroutine.cc:962-1005 | a step of others does not touch the queue or the answers of a call that finished loading |
| Autoload.RunElsewhere | ext-src/swoole_coroutine.cc:1002-1002 | whatever runs inside a resume leaves the draining call's queue and answers as they were |
| Autoload.StepAnswers | ext-src/swoole_coroutine.cc:981-1003 | a waiter stays where it is or gets exactly one answer; none while its leader waits itself |
| Autoload.RunKeepsClosed | ext-src/swoole_coroutine.cc:962-1005 | coroutines that wait for each other only are still waiting after every run |
| Autoload.FreeLeader | ext-src/swoole_coroutine.cc:994-1003 | behind a leader that is free to run, every waiter can be answered |
| Autoload.FreeAlong | ext-src/swoole_coroutine.cc:994-1003 | so can a waiter whose chain of leaders ends with a free one |
| Autoload.StuckIff | ext-src/swoole_coroutine.cc:962-1005 | a waiter is never answered, whatever happens, if and only if following who waits for whom from it comes round in a circle |
| Autoload.MutualWait | ext-src/swoole_coroutine.cc:962-986 | two leaders that need each other's class are such a circle |
| Autoload.AutoloadHub.FinishAndDrain | ext-src/swoole_coroutine.cc:994-1004 | the drain terminates under any interference, and exactly those who queued while loading are answered, in order |
| Autoload.EnqueueKeepsValid | ext-src/swoole_coroutine.cc:981-986 | queueing keeps every invariant |
| Autoload.LeadKeepsValid | ext-src/swoole_coroutine.cc:988-993 | becoming leader keeps every invariant |
| Autoload.LoadedKeepsValid | ext-src/swoole_coroutine.cc:994-995 | removing the entry keeps every invariant |
| Autoload.DeliverKeepsValid | ext-src/swoole_coroutine.cc:998-1003 | answering a waiter keeps every invariant |
| Autoload.FinishKeepsValid | ext-src/swoole_coroutine.cc:1004-1004 | returning keeps every invariant |
| JoinRegistry.CallbackIffExpected | ext-src/swoole_coroutine.cc:1327-1360 | a context's `on_close` points at a join if and only if it is in that join's set, and never at one that returned |
| JoinRegistry.TrueMeansAllClosed | ext-src/swoole_coroutine.cc:1327-1376 | a join that returned true has seen every registered context close |
| JoinRegistry.RunSettles | ext-src/swoole_coroutine.cc:1302-1377 | over every run, a waiting join returns false if and only if it is interrupted, and a returned one keeps its result |
| JoinRegistry.JoinCompletes | ext-src/swoole_coroutine.cc:1327-1376 | a join that is not interrupted has returned true once its contexts closed and its resume is not queued any more |
| JoinRegistry.StepSettles | ext-src/swoole_coroutine.cc:1302-1377 | the same for one step, with all that runs inside it |
| JoinRegistry.DeferredSettles | ext-src/swoole_coroutine.cc:1332-1376 | the deferred resume of a waiting join makes it return true, and settles no other |
| JoinRegistry.RefusedJoin | ext-src/swoole_coroutine.cc:1344-1357 | a refused join leaves nothing behind; one refused for the own id is resumed all the same if and only if live contexts were listed before it and all closed during the warning |
| JoinRegistry.SelfRefusal | ext-src/swoole_coroutine.cc:1327-1348 | why: the resume is queued or made exactly when the last callback has run |
| JoinRegistry.ParkedIff | ext-src/swoole_coroutine.cc:1341-1368 | `join` waits if and only if nobody listed is the caller, is being joined or occurs twice, and somebody listed is alive |
| JoinRegistry.ParkIs | ext-src/swoole_coroutine.cc:1359-1368 | a join that waits hangs on exactly the live contexts listed, and nothing else changed |
| JoinRegistry.StepKeeps | ext-src/swoole_coroutine.cc:1302-1377 | any step keeps the registry consistent, and leaves nothing stale if and only if nothing was and it is no such self-join |
| JoinRegistry.RunKeeps | ext-src/swoole_coroutine.cc:1302-1377 | over every interleaving, also of what happens inside warnings: consistent, and no join that returned false is or will be resumed if and only if no self-join in it is of that kind |
| JoinRegistry.CleanHasNoStrays | ext-src/swoole_coroutine.cc:1332-1338 | then every resume made reached a joiner that was waiting |
| JoinRegistry.StopIndexHangable | ext-src/swoole_coroutine.cc:1341-1361 | the registration loop gets through if and only if everything listed can be hung |
| JoinRegistry.SelfJoinCanResumeTwice | ext-src/swoole_coroutine.cc:1344-1348 | a run from the start whose self-join returns false with its resume queued, or made already |
| JoinRegistry.JoinTable.constructor | ext-src/swoole_coroutine.cc:302-317 | no context has a callback |
| JoinRegistry.JoinTable.Close | ext-src/swoole_coroutine.cc:676-682 | the context leaves the set of its join, and the last one queues exactly one resume |
| JoinRegistry.JoinTable.Interrupt | ext-src/swoole_coroutine.cc:1368-1374 | a timeout or cancellation makes the join return false, takes every callback back and disarms the resume, and changes nothing else |
| JoinRegistry.JoinTable.CleanJoinCallbacks | ext-src/swoole_coroutine.cc:1320-1325 | exactly the callbacks of this join are cleared, in any order |
| JoinRegistry.JoinTable.RunDeferred | ext-src/swoole_coroutine.cc:1332-1338 | a resume makes a waiting joiner return true, reaches nobody if disarmed, and is the only thing that changes |
| JoinRegistry.JoinTable.StartJoin | ext-src/swoole_coroutine.cc:1302-1368 | waits exactly when a caller can see that it will, and then hangs on exactly those contexts; what a refusal leaves behind, the own id included |
| JoinRegistry.JoinTable.HangCallbacks | ext-src/swoole_coroutine.cc:1341-1361 | how far the registration loop comes and what it has hung by then |
| JoinRegistry.JoinTable.Refuse | ext-src/swoole_coroutine.cc:1344-1357 | the callbacks hung so far are taken back |
| JoinRegistry.JoinTable.TakeStep | ext-src/swoole_coroutine.cc:1302-1377 | each step is the specification's step, with its effect on the joins spelled out |
| JoinRegistry.JoinTable.Run | ext-src/swoole_coroutine.cc:1302-1377 | every interleaving is the run of the specification |
| JoinRegistry.JoinTable.Warn | ext-src/swoole_coroutine.cc:1344-1348 | the self-join's warning, in which anything can run, and the refusal after it |
| JoinRegistry.InterruptKeepsValid | ext-src/swoole_coroutine.cc:1368-1374 | taking a join back keeps every invariant |
| JoinRegistry.CloseKeepsValid | ext-src/swoole_coroutine.cc:676-682 | closing a context keeps every invariant |
| JoinRegistry.DeferredKeepsValid | ext-src/swoole_coroutine.cc:1332-1338 | running a deferred callback keeps every invariant |
| JoinRegistry.HalfwayValid | ext-src/swoole_coroutine.cc:1341-1361 | a half-done registration is consistent too |
| JoinRegistry.HalfwayUndone | ext-src/swoole_coroutine.cc:1320-1325 | taking a half-done registration back restores what was there |
| JoinRegistry.ParkKeepsValid | ext-src/swoole_coroutine.cc:1363-1368 | starting to wait keeps every invariant |
| Http2Server.HeardLaw | ext-src/swoole_http2_server.cc:1341-1356 | of everything the session receives only a WINDOW_UPDATE for this stream changes its window and credit, by the increment, and the two stay balanced |
| Http2Server.AwaitedLaw | ext-src/swoole_http2_server.cc:650-659 | a send is over exactly at the first completion or failure in the schedule, which decides which of the two it is; meanwhile only windows change, in balance with the credit |
| Http2Server.UnparkedLaw | ext-src/swoole_http2_server.cc:631-635 | a parked sender goes on exactly when a WINDOW_UPDATE for its stream is in the schedule, else the window is still zero |
| Http2Server.PlainOutLaw | ext-src/swoole_http2_server.cc:589-601 | a frame without payload uses no window and goes out exactly if its send completes |
| Http2Server.DebitedOk | ext-src/swoole_http2_server.cc:668-669 | the debit keeps the balance, is exact if the frame fits the window, takes the same from the session window and puts the frame on the wire |
| Http2Server.DataOutLaw | ext-src/swoole_http2_server.cc:643-669 | a DATA frame goes out whole or not at all, with at most two completions, and only then is the window debited |
| Http2Server.SendsIs | ext-src/swoole_http2_server.cc:643-666 | a frame below the page size takes one send, else two, and is torn exactly when the first of two is made and the second is not |
| Http2Server.BodyOutLaw | ext-src/swoole_http2_server.cc:603-673 | what is out is always a prefix of the body, in frames the windows allow, END_STREAM on the last; it fails only over a failed send, suspends only for want of events, parks only at zero, and finishes when sends complete and the window suffices |
| Http2Server.SendingLaw | ext-src/swoole_http2_server.cc:603-673 | on finishing or parking the prefix has length min(body, credit) if and only if the credit left fits 32 bits |
| Http2Server.Stream.constructor | ext-src/swoole_http2_server.cc:47-56 | nothing sent, the credit is the peer's initial window |
| Http2Server.Stream.OnWindowUpdate | ext-src/swoole_http2_server.cc:1341-1356 | the credit of exactly this stream grows, and a sender is resumed if and only if it was parked, which is at zero |
| Http2Server.Stream.OnEvent | ext-src/swoole_http2_server.cc:1208-1211 | each event moves the windows as specified, and resumes the sender if and only if it is parked and the event is for its stream |
| Http2Server.Stream.AwaitSend | ext-src/swoole_http2_server.cc:650-659 | the suspension in a send is that of the specification, over exactly when a completion or failure arrives |
| Http2Server.Stream.AwaitWindow | ext-src/swoole_http2_server.cc:631-635 | a parked sender goes on exactly at the first WINDOW_UPDATE for its stream |
| Http2Server.Stream.SendLast | ext-src/swoole_http2_server.cc:655-669 | the last send of a frame; the windows are debited exactly if it completes |
| Http2Server.Stream.SendDataFrame | ext-src/swoole_http2_server.cc:643-669 | one send or two by the size of the frame, torn as stated; a frame goes out whole or not at all |
| Http2Server.Stream.SendSome | ext-src/swoole_http2_server.cc:613-670 | each turn is that of the specified loop: parks at zero or sends as many of the next octets as window and frame size allow, END_STREAM exactly on the last ones |
| Http2Server.Stream.SendBody | ext-src/swoole_http2_server.cc:603-673 | the loop is that of the specification for every schedule, with its prefix and credit laws |
| Http2Server.Stream.SendPlain | ext-src/swoole_http2_server.cc:589-601 | a frame without payload, as specified |
| Http2Server.CreditGrows | ext-src/swoole_http2_server.cc:1347-1348 | a wrapped addition keeps window and credit in balance |
| Http2Server.CreditUsed | ext-src/swoole_http2_server.cc:668-668 | a wrapped debit keeps them in balance; it does not underflow if and only if the frame fits the window, as it does while the credit left fits 32 bits |
| Http2Server.UsedUpIff | ext-src/swoole_http2_server.cc:631-635 | a zero window means the credit is used up if and only if the credit left fits 32 bits |
| Http2Server.GrantCanVanish | ext-src/swoole_http2_server.cc:1347-1348 | a window of 2^32-1 incremented by one is zero with 2^32 octets granted |
| Http2Server.ProgressStep | ext-src/swoole_http2_server.cc:613-670 | one more frame extends the prefix that is out |
| Http2Server.BodyExtends | ext-src/swoole_http2_server.cc:603-673 | a sent body appends its octets, and ends an open response if it is to |
| Http2Server.OpenThenTrailer | ext-src/swoole_http2_server.cc:597-601 | an open response is made well-shaped by a trailer block or an empty last DATA frame, and is not so before |
| Http2Server.EndedAtHeader | ext-src/swoole_http2_server.cc:578-581 | after a header block with END_STREAM the response is well-shaped if and only if nothing follows |
| Http2Server.EndShape | ext-src/swoole_http2_server.cc:736-777 | a finished response is HEADERS DATA* [HEADERS] with END_STREAM on the last frame only if and only if `EndsWell` |
| Http2Server.DeclaredIsDeliveredIff | ext-src/swoole_http2_server.cc:449-484 | the synthesized content-length is that of the octets sent if and only if this body was compressed, or no earlier one was, or the lengths agree |
| Http2Server.RetryDeclaresWrongly | ext-src/swoole_http_response.cc:516-525 | a family of retried responses that declare one length and deliver another |
| Http2Server.EndLength | ext-src/swoole_http2_server.cc:449-484 | the same for the frames on the wire |
| Http2Server.FileShape | ext-src/swoole_http2_server.cc:935-986 | header block, file content and trailer make a well-shaped response |
| Http2Server.RunOfDataIsOne | ext-src/swoole_http2_server.cc:945-980 | bodies sent piece by piece, the last maybe in part, are one body |
| Http2Server.HeaderIs | ext-src/swoole_http2_server.cc:553-595 | one header block with END_STREAM exactly for an empty last body; a failed send allows a retry but keeps the coding |
| Http2Server.OpenedIs | ext-src/swoole_http2_server.cc:725-727 | the header block of a streamed response goes out once and leaves it open |
| Http2Server.WrittenIs | ext-src/swoole_http2_server.cc:711-734 | empty pieces and ended responses are refused; otherwise the piece is appended and the response stays open |
| Http2Server.TrailedIs | ext-src/swoole_http2_server.cc:675-697 | a trailer block ends the stream and adds no body octets |
| Http2Server.ContentIs | ext-src/swoole_http2_server.cc:763-772 | body, or the empty frame that ends a streamed response: when that is well-shaped |
| Http2Server.RestIs | ext-src/swoole_http2_server.cc:763-777 | with the trailer: when the response is well-shaped, and that all octets went out |
| Http2Server.EndHeaderIs | ext-src/swoole_http2_server.cc:748-750 | the header block of a whole response, with the length it declares |
| Http2Server.DeliveryIs | ext-src/swoole_http_response.cc:516-525 | what is sent and declared, in terms of the request alone: a body is encoded if and only if the client accepts it, it is long enough and the encoder succeeds; else it goes out as it is, unless an earlier call left an encoded one |
| Http2Server.RespondedIs | ext-src/swoole_http2_server.cc:736-790 | what is delivered and declared as just said, the exact condition for the shape, the exact condition for the declared length, when it counts as ended, and that it finishes when sends complete and the window suffices |
| Http2Server.FileOutIs | ext-src/swoole_http2_server.cc:945-980 | the reading loop sends a prefix of the content in order, all of it exactly when it finishes, and when parked all the credit allows, for any positive short reads |
| Http2Server.FileRestIs | ext-src/swoole_http2_server.cc:942-986 | content and trailer after the header block; how much of the content is out however it ends |
| Http2Server.FileReplyIs | ext-src/swoole_http2_server.cc:935-986 | a finished file response is well-shaped, delivers exactly the content and declares its length |
| Http2Server.FileSentIs | ext-src/swoole_http2_server.cc:908-995 | the same of `sendfile()`, which is refused for ended and streamed responses without effect |
| Http2Server.WrittenAllIs | ext-src/swoole_http2_server.cc:711-734 | pieces written one after the other are their concatenation, empty ones refused without effect |
| Http2Server.WrittenAndEndedIs | ext-src/swoole_http2_server.cc:711-790 | a streamed response that ends delivers all its pieces and the last body, and is well-shaped if anything was written |
| Http2Server.Response.constructor | ext-src/swoole_http2_server.cc:47-56 | nothing sent, nothing coded |
| Http2Server.Response.SendHeader | ext-src/swoole_http2_server.cc:553-595 | the header block of the specification, with its law |
| Http2Server.Response.SendBlock | ext-src/swoole_http2_server.cc:584-594 | a built block counts as sent unless the send failed |
| Http2Server.Response.SendStreamed | ext-src/swoole_http2_server.cc:725-731 | the header block unless it is out, and then the piece |
| Http2Server.Response.Write | ext-src/swoole_http2_server.cc:711-734 | `write()` is that of the specification, with its law |
| Http2Server.Response.SendTrailer | ext-src/swoole_http2_server.cc:675-697 | the trailer block of the specification |
| Http2Server.Response.SendContent | ext-src/swoole_http2_server.cc:763-772 | the content of the specification |
| Http2Server.Response.SendRest | ext-src/swoole_http2_server.cc:763-777 | content and then trailer |
| Http2Server.Response.Respond | ext-src/swoole_http2_server.cc:736-790 | `http2_server_respond` is that of the specification, with its laws |
| Http2Server.Response.End | ext-src/swoole_http_response.cc:93-100 | refused exactly after the end, else what is delivered and declared for this body and request, with the shape, length and completion laws |
| Http2Server.Response.SendFile | ext-src/swoole_http2_server.cc:908-995 | `sendfile()` is that of the specification, with its law |
| Http2Server.Response.SendFileReply | ext-src/swoole_http2_server.cc:935-986 | header block, content and trailer of a file that is open |
| Http2Server.Response.SendFileRest | ext-src/swoole_http2_server.cc:942-986 | content and trailer of the specification |
| Http2Server.Response.SendFileContent | ext-src/swoole_http2_server.cc:945-980 | the reading loop is that of the specification |
| Http2Server.Response.SendRead | ext-src/swoole_http2_server.cc:969-979 | one turn of it: the next octets of the file, as many as were read |
| Http2Server.Response.WriteAll | ext-src/swoole_http2_server.cc:711-734 | a sequence of writes, as specified |
| Http2Server.Response.WriteAndEnd | ext-src/swoole_http2_server.cc:711-790 | a sequence of writes and an end, as specified, with the law of streamed responses |
| Http2Server.EmptyEndContinues | ext-src/swoole_http2_server.cc:553-581 | a fresh response whose `end("")` sends the encoder's octets after a header block that ended the stream |
| Http2Receive.AfterBalanced | ext-src/swoole_http2_server.cc:1294-1308 | whatever a frame brings, the field differs from what the peer has left by the skew and the turns it wrapped, and it wraps exactly for a frame it cannot hold |
| Http2Receive.Consume | ext-src/swoole_http2_server.cc:1294-1308 | the debit and the refill below a quarter are that step of the window |
| Http2Receive.RefilledIs | ext-src/swoole_http2_server.cc:1294-1307 | an update is due exactly when less than a quarter is left; it is what is missing, and the field is full again |
| Http2Receive.DataIs | ext-src/swoole_http2_server.cc:1272-1308 | DATA is a connection error exactly on a stream that is not there, rejected exactly if it is not empty and the body would get too long or the response has ended; what is appended, what is lost, which stream goes |
| Http2Receive.Session.constructor | ext-src/swoole_http2_server.cc:75-82 | the fields start from the configured window, the peer from 65535 |
| Http2Receive.StepValid | ext-src/swoole_http2_server.cc:1233-1308 | every event keeps the balance of all windows |
| Http2Receive.RunValid | ext-src/swoole_http2_server.cc:1233-1308 | so does every run |
| Http2Receive.StepSums | ext-src/swoole_http2_server.cc:1272-1308 | the peer's window changes by what it sent and what it was granted |
| Http2Receive.RunSums | ext-src/swoole_http2_server.cc:1233-1308 | conservation over every run: the peer has 65535 minus all DATA plus all updates for the connection |
| Http2Receive.StreamStep | ext-src/swoole_http2_server.cc:1272-1308 | an event changes a stream that stays by exactly the DATA on it and the update for it |
| Http2Receive.StreamSums | ext-src/swoole_http2_server.cc:1233-1308 | conservation for each stream that lives through a run: its body grows by what arrived on it, and the peer has what it had, minus that, plus the updates for the stream |
| Http2Receive.StreamBound | ext-src/swoole_http2_server.cc:1298-1307 | while the peer keeps to its windows, a stream's field is what it has left, between a quarter of the initial window and all of it |
| Http2Receive.Session.Refuse | ext-src/swoole_http2_server.cc:1275-1290 | refused DATA uses up the peer's window without being counted |
| Http2Receive.Session.DebitConnection | ext-src/swoole_http2_server.cc:1294-1300 | the connection's field is refilled exactly below a quarter, by what is missing |
| Http2Receive.Session.DebitStream | ext-src/swoole_http2_server.cc:1292-1307 | likewise for the stream, whose body grows |
| Http2Receive.Session.Accept | ext-src/swoole_http2_server.cc:1292-1307 | both windows are debited and each refilled exactly below a quarter; the updates sent are recorded |
| Http2Receive.Session.Judge | ext-src/swoole_http2_server.cc:1272-1308 | the verdict and the new account are those of the specification |
| Http2Receive.Session.OnData | ext-src/swoole_http2_server.cc:1272-1308 | that law of DATA, stated outright for the session |
| Http2Receive.Session.TakeStep | ext-src/swoole_http2_server.cc:1233-1308 | each event is that step of the account, with its effect spelled out |
| Http2Receive.Session.Run | ext-src/swoole_http2_server.cc:1233-1308 | every run is the run of the account, with the sums of the connection and of every stream |
| Http2Receive.StallsIff | ext-src/swoole_http2_server.cc:1298-1302 | for all settings: some run of a peer within its windows, nothing refused, ends with nothing to send and no update to come, if and only if `CanStall`: the excess over 65535 is at least a quarter, or the window is below 65535 and a body may exceed a quarter of it |
| Http2Receive.StreamStallsIff | ext-src/swoole_http2_server.cc:1303-1307 | the same for a single stream: if and only if the initial window is below four octets and a body can use it up |
| Http2Receive.TinyWindowStalls | ext-src/swoole_http2_server.cc:1303-1307 | a frame that does |
| Http2Receive.SafeNeverStalls | ext-src/swoole_http2_server.cc:1298-1302 | with a skew from zero to below a quarter the peer always has something left |
| Http2Receive.UnsafeStalls | ext-src/swoole_http2_server.cc:1298-1302 | a frame that uses up the peer's window brings no update if and only if the skew is outside that range |
| Http2Receive.CountedIff | ext-src/swoole_http2_server.cc:1294-1296 | the field never wraps for peers within their windows if and only if the initial window is zero or at least 65535, or no body can exceed a quarter of it |
| Http2Receive.SmallWindowWraps | ext-src/swoole_http2_server.cc:1294-1296 | otherwise, a run that wraps the field |
| Http2Receive.Spend | ext-src/swoole_http2_server.cc:1294-1302 | while the field is high enough, the peer can use up its window in pieces of any allowed size and is given nothing |
| Http2Receive.LargeWindowStalls | ext-src/swoole_http2_server.cc:1298-1302 | a run after which a well-behaved peer has nothing to send and no update due |
| Http2Client.StepAccounted | ext-src/swoole_http2_client_coro.cc:660-744 | after every frame, what a stream received is what was handed out followed by what is buffered or was dropped |
| Http2Client.StepStory | ext-src/swoole_http2_client_coro.cc:660-744 | a frame adds its octets, and an answer its data, to the story of its own stream only; RST and END end the stream |
| Http2Client.FailsIs | ext-src/swoole_http2_client_coro.cc:660-707 | a frame is an error if and only if its stream is there and the header block or encoding is bad, or a window falls below a quarter and its update cannot be sent |
| Http2Client.AnswerIs | ext-src/swoole_http2_client_coro.cc:660-744 | the application is answered at the end of a stream, and for every piece when it asked for that and the response comes in pieces, with exactly what was not handed out so far; a reset drops the stream |
| Http2Client.StoryRunStep | ext-src/swoole_http2_client_coro.cc:660-744 | stories compose along a run |
| Http2Client.RunDelivers | ext-src/swoole_http2_client_coro.cc:670-744 | over every frame sequence and every mix of `recv` and `read`, the concatenated data handed out plus what is pending is the concatenation of the octets received |
| Http2Client.FlowSums | ext-src/swoole_http2_client_coro.cc:660-706 | conservation over every run: the server has 65535 minus all DATA, known or not, plus all updates for the connection |
| Http2Client.FlowStreamSums | ext-src/swoole_http2_client_coro.cc:693-706 | conservation for each stream that lives through a run |
| Http2Client.FlowsBalanced | ext-src/swoole_http2_client_coro.cc:660-706 | both together |
| Http2Client.Flow.constructor | ext-src/swoole_http2_client_coro.cc:110-112 | the windows start from the configured initial window |
| Http2Client.Flow.Open | ext-src/swoole_http2_client_coro.cc:1089-1090 | a new stream starts with a full window |
| Http2Client.Flow.Close | ext-src/swoole_http2_client_coro.cc:163-173 | a deleted stream has no window |
| Http2Client.Flow.Lose | ext-src/swoole_http2_client_coro.cc:660-665 | DATA for an unknown stream uses up the peer's window without being counted |
| Http2Client.Flow.DebitConnection | ext-src/swoole_http2_client_coro.cc:693-700 | refilled exactly below a quarter, by what is missing; the result is an error exactly when that update is due and cannot be sent |
| Http2Client.Flow.DebitStream | ext-src/swoole_http2_client_coro.cc:694-706 | likewise for the stream |
| Http2Client.Flow.Debit | ext-src/swoole_http2_client_coro.cc:693-706 | both windows debited, refilled below a quarter; fails if and only if a due update cannot be sent |
| Http2Client.Client.constructor | ext-src/swoole_http2_client_coro.cc:101-112 | no streams |
| Http2Client.Client.CreateStream | ext-src/swoole_http2_client_coro.cc:1083-1098 | an id still in the table keeps its old record |
| Http2Client.Client.Absorb | ext-src/swoole_http2_client_coro.cc:666-707 | the octets (inflated if need be) join the buffer of their stream; fails if and only if the header block or the encoding is bad or a due update cannot be sent |
| Http2Client.Client.Answer | ext-src/swoole_http2_client_coro.cc:710-744 | when and with what the application is answered; at the end the stream and its window go |
| Http2Client.Client.Respond | ext-src/swoole_http2_client_coro.cc:666-744 | a frame for a stream that is there: absorbed and answered, or an error exactly as above |
| Http2Client.Client.ParseFrame | ext-src/swoole_http2_client_coro.cc:507-745 | both of these laws, stated outright for the client, and all windows are those of the specification |
| Http2Client.Client.Run | ext-src/swoole_http2_client_coro.cc:507-745 | a run of frames fails if and only if one of them is an error, and otherwise is the run of the specification, with the sums of the connection and of every stream |
| Http2Outbox.Outbox.constructor | ext-src/swoole_http2_client_coro.cc:93-93 | empty |
| Http2Outbox.DrivenKeeps | ext-src/swoole_http2_client_coro.cc:215-231 | driving loses, duplicates and reorders nothing; a failure leaves a proper prefix on the wire |
| Http2Outbox.DrivenProgress | ext-src/swoole_http2_client_coro.cc:215-231 | every attempt that finds room makes that much progress |
| Http2Outbox.StepOrderly | ext-src/swoole_http2_client_coro.cc:204-232 | one operation that does not fail keeps wire and pending octets the accepted buffers in order |
| Http2Outbox.RunOrderly | ext-src/swoole_http2_client_coro.cc:204-232 | in every failure-free interleaving they are, with the queue empty when nobody writes |
| Http2Outbox.SendEnough | ext-src/swoole_http2_client_coro.cc:204-232 | with room for it, a buffer sent while nobody writes is on the wire |
| Http2Outbox.ContiguousIff | ext-src/swoole_http2_client_coro.cc:1110-1133 | two buffers touch on the wire if and only if nothing but empty buffers was accepted between them |
| Http2Outbox.BufferOnWire | ext-src/swoole_http2_client_coro.cc:204-232 | an idle queue's wire holds every accepted buffer, where it begins |
| Http2Outbox.FailedStep | ext-src/swoole_http2_client_coro.cc:215-227 | a step that fails, with any queue, leaves nobody writing and a proper prefix of what was accepted on the wire |
| Http2Outbox.FailureDisplacesIff | ext-src/swoole_http2_client_coro.cc:215-227 | after it the next buffer and then the whole queue go out; the wire is still a prefix of what was accepted if and only if these continue the octets that are not out |
| Http2Outbox.FailureRepeats | ext-src/swoole_http2_client_coro.cc:219-227 | a run in which an octet of a queued buffer goes out twice, with another buffer in between |
| Http2Outbox.SendingLaw | ext-src/swoole_http2_client_coro.cc:204-232 | what `send` promises as long as no write failed |
| Http2Outbox.Outbox.Settle | ext-src/swoole_http2_client_coro.cc:219-230 | the front of the queue is removed once it is out, and empty buffers do not hold up the rest |
| Http2Outbox.Outbox.Drive | ext-src/swoole_http2_client_coro.cc:215-231 | the writing loop is that of the specification |
| Http2Outbox.Outbox.Send | ext-src/swoole_http2_client_coro.cc:204-232 | behind a writer it is queued last, or refused without effect, exactly as the queue is within its limit or over it; else written, and when it returns the wire is the concatenation of everything accepted |
| Http2Outbox.Outbox.Writable | ext-src/swoole_http2_client_coro.cc:215-231 | the bound coroutine goes on where it stopped |
| Http2Outbox.Outbox.RunOps | ext-src/swoole_http2_client_coro.cc:204-232 | every interleaving is the run of the specification, with what it accepted and whether a write failed |
| Http2Outbox.FailureDisplaces | ext-src/swoole_http2_client_coro.cc:215-227 | a failed send and the next one: a run after which the wire is not a prefix of what was accepted |
| Http2Outbox.SplitDataFrame | ext-src/swoole_http2_client_coro.cc:1110-1133 | a run in which a DATA header that has to wait is followed by another coroutine's buffer before its payload |
| CurlMulti.AllocateOk | ext-src/swoole_curl.cc:530-545 | a new socket object is live, in the table and known to libcurl |
| CurlMulti.StillbornOk | ext-src/swoole_curl.cc:530-534 | an object libcurl refuses is freed at once |
| CurlMulti.UpdateOk | ext-src/swoole_curl.cc:547-562 | changing events keeps every invariant |
| CurlMulti.SelectOk | ext-src/swoole_curl.cc:735-751 | moving sockets between the selector's sets keeps the object invariants |
| CurlMulti.RemoveOk | ext-src/swoole_curl.cc:486-513 | a removed object was live and is freed at most once |
| CurlMulti.RemoveLiveIff | ext-src/swoole_curl.cc:486-513 | the selector keeps only live objects if and only if this is in a pass or the socket is not active |
| CurlMulti.ReleaseOk | ext-src/swoole_curl.cc:766-774 | the end of a pass frees exactly what was set aside, none of it freed before |
| CurlMulti.NothingLeaks | ext-src/swoole_curl.cc:486-513 | once libcurl uses no socket, every object ever allocated has been freed |
| CurlMulti.CalledCalm | ext-src/swoole_curl.cc:306-328 | a callback of libcurl while nobody is bound keeps every invariant and loses no collected flag; in a pass it frees nothing |
| CurlMulti.ScriptedCalm | ext-src/swoole_curl.cc:306-328 | so do all callbacks inside one call of libcurl |
| CurlMulti.PreparedLaw | ext-src/swoole_curl.cc:596-618 | afterwards every socket in the table is watched, and nothing else changed |
| CurlMulti.HeardBound | ext-src/swoole_curl.cc:806-844 | an event for a bound coroutine is noted with its flag, and one resume is queued; only that resume wakes it |
| CurlMulti.WaitedLaw | ext-src/swoole_curl.cc:641-654 | while a coroutine waits, a non-empty active set always has its one resume queued; no socket leaves it and no flag is lost |
| CurlMulti.WaitedBy | ext-src/swoole_curl.cc:641-654 | a wait ends at the first resume or cancellation among the events, which says how it ends, and goes on if there is none |
| CurlMulti.HeardStays | ext-src/swoole_curl.cc:806-844 | an event heard in a wait is among the socket's flags when the coroutine wakes up |
| CurlMulti.ActedLaw | ext-src/swoole_curl.cc:752-761 | libcurl is given a socket with its collected flags; the flags of the others only grow |
| CurlMulti.SweptLaw | ext-src/swoole_curl.cc:739-763 | in any order of enumeration, every socket of a pass is given to libcurl once, with its collected flags, or was removed meanwhile, and no other is |
| CurlMulti.DrainedLaw | ext-src/swoole_curl.cc:735-764 | one sweep is enough, since nothing becomes active in a pass |
| CurlMulti.FinishedLaw | ext-src/swoole_curl.cc:723-775 | libcurl is told of a timeout first, exactly if one fired, then of every active socket once; a pass drops no event and frees what was removed in it; afterwards nothing is active or set aside |
| CurlMulti.PassTimer | ext-src/swoole_curl.cc:723-775 | a pass takes the timer off first, and leaves it as libcurl last asked for in the calls it made, in order, while told of the timeout and of each socket handled |
| CurlMulti.PolledLaw | ext-src/swoole_curl.cc:638-654 | a coroutine is bound only with every socket watched, and wakes up in a state in which a pass can start |
| CurlMulti.TurnLaw | ext-src/swoole_curl.cc:633-667 | a turn of `exec` ends with nothing to handle, with the coroutine bound, or cancelled |
| CurlMulti.TurnReports | ext-src/swoole_curl.cc:633-667 | a turn is the last one only if libcurl reports no running transfer, and goes on only if it reports one |
| CurlMulti.EventReachesLibcurl | ext-src/swoole_curl.cc:633-844 | an event heard while bound, on a watched socket, is given to libcurl with its flag in the same turn, or the socket is freed, unless the turn is still suspended or was cancelled |
| CurlMulti.ExecutedLaw | ext-src/swoole_curl.cc:620-679 | `exec` ends likewise; only a cancellation can leave events pending |
| CurlMulti.TurnsReport | ext-src/swoole_curl.cc:633-667 | `exec` is done exactly at the first report of no running transfer, and else ended where its wait was cancelled or not over |
| CurlMulti.TurnsStop | ext-src/swoole_curl.cc:663-665 | nothing after that report is looked at |
| CurlMulti.SelectedLaw | ext-src/swoole_curl.cc:777-804 | `select` counts the sockets active at wake-up, each of which was handled with its flags or removed |
| CurlMulti.RunLaw | ext-src/swoole_curl.cc:620-844 | all of this over every sequence of uses, up to a suspension nothing ended, which is over live objects, or a cancellation that left events pending |
| CurlMulti.CancelLeavesFreed | ext-src/swoole_curl.cc:641-679 | a run from the start in which a cancelled transfer leaves the selector with a freed object |
| CurlMulti.Multi.constructor | ext-src/swoole_curl.cc:272-279 | no objects, nobody bound |
| CurlMulti.Multi.SetEvent | ext-src/swoole_curl.cc:515-564 | one object per descriptor libcurl uses |
| CurlMulti.Multi.DelEvent | ext-src/swoole_curl.cc:486-513 | out of the tables, freed now or set aside during a pass |
| CurlMulti.Multi.Defer | ext-src/swoole_curl.cc:832-843 | a resume is queued unless one is |
| CurlMulti.Multi.OnSocket | ext-src/swoole_curl.cc:806-844 | an event reaches the active set exactly when a coroutine is bound, else the descriptor is watched no more |
| CurlMulti.Multi.OnTimer | ext-src/swoole_curl.cc:806-844 | a firing timer wakes a bound coroutine |
| CurlMulti.Multi.OnDeferred | ext-src/swoole_curl.cc:836-843 | the queued resume reaches the bound coroutine |
| CurlMulti.Multi.RunScript | ext-src/swoole_curl.cc:306-328 | the callbacks libcurl makes, one after the other |
| CurlMulti.Multi.Prepare | ext-src/swoole_curl.cc:596-618 | the loop over the table watches every socket in it |
| CurlMulti.Multi.Suspend | ext-src/swoole_curl.cc:641-654 | what happens to a bound coroutine until it wakes up |
| CurlMulti.Multi.SocketAction | ext-src/swoole_curl.cc:752-761 | libcurl is only given live sockets that are not deleted, with their collected flags, which is logged |
| CurlMulti.Multi.HandlePass | ext-src/swoole_curl.cc:739-763 | the loop over a pass is the sweep |
| CurlMulti.Multi.Drain | ext-src/swoole_curl.cc:735-764 | the loop until nothing is active is one sweep |
| CurlMulti.Multi.Finish | ext-src/swoole_curl.cc:723-775 | `selector_finish` is the pass of the specification |
| CurlMulti.Multi.Turn | ext-src/swoole_curl.cc:633-667 | one turn of `exec`: done only if nothing is running, going on only if something is |
| CurlMulti.Multi.RunRounds | ext-src/swoole_curl.cc:633-667 | the loop of turns |
| CurlMulti.Multi.Exec | ext-src/swoole_curl.cc:620-679 | done exactly at the first turn that reports nothing running, else cancelled or suspended where its wait was; then the timer is off and libcurl makes its closing calls |
| CurlMulti.Multi.Select | ext-src/swoole_curl.cc:777-804 | the sockets active at wake-up are counted before the pass |
| CurlMulti.Multi.Run | ext-src/swoole_curl.cc:620-844 | every sequence of uses is the run of the specification |
| Search.StrnPos | include/swoole.h:347-391 | the leftmost occurrence, or -1 exactly when there is none |
| EofClient.FirstPacketUnique | ext-src/swoole_client.cc:880-883 | a stream has at most one first packet |
| EofClient.SplitsUnique | ext-src/swoole_client.cc:841-914 | two ways of receiving the same stream that leave no marker over yield the same packets and the same rest |
| EofClient.SplitsConserves | ext-src/swoole_client.cc:841-914 | packets and rest make up the stream |
| EofClient.FirstPacketOfPrefix | ext-src/swoole_client.cc:880-883 | what has not arrived yet cannot change the first packet |
| EofClient.MatchEndsInNews | ext-src/swoole_client.cc:880-888 | a marker found only now ends in what came last, so less than one receive is left over |
| EofClient.ShortPacketIsFound | ext-src/swoole_client.cc:900-903 | "no package eof" is only said of packets over the limit |
| EofClient.GrowsIff | ext-src/swoole_client.cc:904-911 | the doubled size is larger if and only if the old one is below two gibibytes |
| EofClient.GrownFits | ext-src/swoole_client.cc:904-911 | every size reached by growing is at most the limit and at most two gibibytes |
| EofClient.SplitsAllFits | ext-src/swoole_client.cc:841-914 | a stream split to its end has no stretch without a marker that reaches the limit |
| EofClient.OversizedUnique | ext-src/swoole_client.cc:900-911 | two runs that stop at such a stretch have returned the same packets |
| EofClient.EndsIff | ext-src/swoole_client.cc:841-914 | when nothing fails, a run gets to the end of the stream if and only if there is no such stretch |
| EofClient.ChunkingIsIrrelevant | ext-src/swoole_client.cc:841-914 | two such runs over one stream, in whatever pieces, return the same packets, end alike and leave the same |
| EofClient.AmpleStep | ext-src/swoole_client.cc:854-874 | with all of the input offered nothing fails, a call waits only once everything came in, and what is to come stays offered |
| EofClient.Client.constructor | ext-src/swoole_client.cc:271-283 | nothing buffered |
| EofClient.Client.Store | ext-src/swoole_client.cc:855-874 | received octets are appended to the array in place |
| EofClient.Client.Cut | ext-src/swoole_client.cc:883-898 | the packet is the front of the array, the rest is copied to a fresh array of fixed size, where it fits |
| EofClient.Client.Grow | ext-src/swoole_client.cc:904-911 | a larger array with the same contents, or the failed assertion of `extend` |
| EofClient.Client.FindEof | ext-src/swoole_client.cc:880-898 | the first packet of the buffer, if it has one |
| EofClient.Client.Fill | ext-src/swoole_client.cc:854-874 | at most one buffer size is received; error and end of stream discard the buffer |
| EofClient.Client.Examine | ext-src/swoole_client.cc:880-913 | the search half of a turn, with its error cases |
| EofClient.Client.Turn | ext-src/swoole_client.cc:854-914 | less than SW_BUFFER_SIZE_BIG is left after any packet, however large the buffer grew |
| EofClient.Client.Recv | ext-src/swoole_client.cc:841-914 | the next packet of leftover plus input, or why not, for every chunking; how many receives it took, each of which brought something, and which one ended it |
| EofClient.Client.RecvPackets | ext-src/swoole_client.cc:841-914 | successive calls return the leftmost packets in order, none over the limit, the rest retained |
| EofClient.Client.RecvAll | ext-src/swoole_client.cc:841-914 | when all of the input is offered, it is split to its end, nothing left over with a marker, if and only if no stretch without a marker reaches the limit |
| EofClient.RecvTwice | ext-src/swoole_client.cc:841-914 | two clients that get one stream in different pieces return the same packets and end alike |
| Multipart.Printed | src/core/base.cc:699-715 | an argument is printed whole if and only if it has no NUL |
| Multipart.PrintedWhole | ext-src/swoole_http_client_coro.cc:1266-1272 | then it is printed as it is |
| Multipart.FittedIs | ext-src/swoole_http_client_coro.cc:1266-1272 | a part header is cut to 2047 octets exactly when it has 2048 or more |
| Multipart.FieldAgrees | ext-src/swoole_http_client_coro.cc:1204-1213 | a field is sent with the counted length if and only if its header fits and has no NUL, else shorter |
| Multipart.UploadAgrees | ext-src/swoole_http_client_coro.cc:1245-1250 | likewise an upload |
| Multipart.FormAgrees | ext-src/swoole_http_client_coro.cc:1203-1214 | likewise a whole form |
| Multipart.UploadsAgree | ext-src/swoole_http_client_coro.cc:1228-1252 | likewise all uploads |
| Multipart.LengthAgrees | ext-src/swoole_http_client_coro.cc:1199-1368 | Content-Length is the length of the body if and only if every part header fits and has no NUL |
| Multipart.LongKeyIsShort | ext-src/swoole_http_client_coro.cc:1204-1275 | a form with a key of 2048 octets, or with a NUL in it, sends less than it announces |
| Multipart.FittingFieldIsWhole | ext-src/swoole_http_client_coro.cc:1265-1275 | a fitting part carries the name and value given, and a field without one of them is skipped |
| Multipart.FittingUploadIsWhole | ext-src/swoole_http_client_coro.cc:1287-1360 | a fitting upload carries name, filename, type and exactly the content, or the stretch of the file, of its entry |
| Multipart.AddData | ext-src/swoole_http_client_coro.cc:2055-2092 | its entry is complete, states its true size, and carries the data and names given; the filename defaults to the name |
| Multipart.AddFile | ext-src/swoole_http_client_coro.cc:1998-2052 | refused exactly for a bad range or missing file, else the entry names exactly the stretch asked for, or all from the offset on, and defaults to the file's base name |
| Multipart.BaseName | ext-src/swoole_http_client_coro.cc:2030-2039 | what follows the last slash |
| Multipart.Client.CountLength | ext-src/swoole_http_client_coro.cc:1199-1252 | the counting pass, refused exactly for entries that are not arrays |
| Multipart.Client.EmitField | ext-src/swoole_http_client_coro.cc:1262-1275 | one field of the body |
| Multipart.Client.EmitForm | ext-src/swoole_http_client_coro.cc:1259-1278 | the form goes to the write buffer in order |
| Multipart.Client.SendThree | ext-src/swoole_http_client_coro.cc:1350-1359 | an upload from disk goes out as header, stretch of the file and line end, if all three sends succeed |
| Multipart.Client.EmitUpload | ext-src/swoole_http_client_coro.cc:1287-1360 | one upload, from memory or from disk; refused exactly when it is no array, its file is not there, or a send fails |
| Multipart.Client.EmitUploads | ext-src/swoole_http_client_coro.cc:1284-1363 | the uploads go out in order, if and only if each can |
| Multipart.Client.SendMultipart | ext-src/swoole_http_client_coro.cc:1184-1370 | both passes agree: what is announced is what is sent after the head if and only if all part headers fit; exactly when the whole request goes out |
| HttpResponse.ResumedSearch | ext-src/swoole_http_client_coro.cc:1505-1514 | searching from four octets before the news finds a terminator if and only if searching everything does |
| HttpResponse.MatchStays | ext-src/swoole_http_client_coro.cc:1515-1520 | a terminator stays found |
| HttpResponse.CourseAdvances | ext-src/swoole_http_client_coro.cc:1491-1555 | every event up to the one that ends a call brought octets, and a call waits only with no input or no event left |
| HttpResponse.CourseGoesOn | ext-src/swoole_http_client_coro.cc:1491-1555 | a call ends at the first timeout, end of connection or, behind a complete header, verdict of the parser not to go on, and succeeds exactly on a complete message or a close without keep-alive |
| HttpResponse.Receiver.constructor | ext-src/swoole_http_client_coro.cc:1475-1480 | an empty buffer |
| HttpResponse.Receiver.Fill | ext-src/swoole_http_client_coro.cc:1491-1491 | octets are written behind what is there, in place |
| HttpResponse.Receiver.CollectHeader | ext-src/swoole_http_client_coro.cc:1504-1520 | the header is complete exactly when everything received holds a terminator, and too large exactly when the buffer is full without one |
| HttpResponse.Receiver.TakePiece | ext-src/swoole_http_client_coro.cc:1491-1524 | a piece before or after the end of the header |
| HttpResponse.Receiver.Arrive | ext-src/swoole_http_client_coro.cc:1491-1524 | a receive takes as much as the event, the free buffer and the input allow |
| HttpResponse.Receiver.Receive | ext-src/swoole_http_client_coro.cc:1491-1555 | the receiving loop |
| HttpResponse.Receiver.RecvResponse | ext-src/swoole_http_client_coro.cc:1469-1555 | for every chunking it takes exactly the octets, and stops at exactly the event, that this law says, with that outcome; the parser is fed all of them, once and in order, and nothing before the header is complete |

## Left out

- Output globals beyond the handler stack are compared only while handlers are installed, since the code does not save them otherwise.
- `save_bg` and `restore_bg`, bailouts and exceptions that leave a coroutine, preemption, hooks, and coroutines without a PHP context.
- The kernel's sibling lists: which children a closing coroutine has is taken from their origins, not from the intrusive list.
- Http2Server.Stream.SendBody: one sender per stream; other streams of the session appear only through the session window they use, which nothing consults. The connection-level send window, RST_STREAM while a sender is parked and the sending of coroutine servers without flow control are not modelled.
- Range files through `StaticHandler`, HPACK, header contents other than content-length, and the closing of the connection after an error.
- A frame whose header was sent and whose payload was not is recorded as `torn`; no claim is made about a response after that.
- Http2Receive.Session.TakeStep: the opening of a stream 0 is a no-op; the protocol has no such stream.
- Http2Receive.Session.Accept: the result of sending a WINDOW_UPDATE is ignored by the server, and assumed good here.
- Client settings, PING, GOAWAY and PUSH_PROMISE frames, header parsing and inflating (verdicts are inputs).
- The loop of `send_data`, which only repeats what `SplitDataFrame` shows for one frame; the queue limit is fixed for a run, though SETTINGS may change it.
- libcurl itself (its callbacks are inputs), the IOCP build, and the outcome of adding a descriptor to the reactor in `selector_prepare`.
- CurlMulti.RunLaw: a run stops at a cancellation that left events pending; from there the selector may hold freed objects (`CancelLeavesFreed`), and the behaviour of the code is undefined.
- Calls on a multi handle from another coroutine while one is bound to it.
- EofClient.RecvTwice: with a limit below the initial buffer size the result depends on the chunking, since "no package eof" is said only at exactly the limit; only the packets and the residue are then specified. The `open_length_check` branch is not modelled.
- Requests other than multipart, the request head, DNS, proxies, retries and the parser (its verdicts are inputs); what a protocol upgrade leaves in the read buffer.
- Zend reference counting, parameter parsing, properties, logging, and the wrappers around databases, SSH2, FTP, locks and channels.
