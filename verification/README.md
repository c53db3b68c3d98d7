# Verified model of the WebRTC SDK's concurrent, parsing and arithmetic core

This project models the hardest parts of the ESP WebRTC solution's C sources in Dafny and proves what
they are for. One module stands beside one source file (three files for `jsmn.h`, two each
for `message_queue.c` and `app_webrtc.c`); `Common.dfy` holds what they share.

Three kinds of model are used.

* **Protocols** (`ThreadPool`, `Lifecycle`, `MessageQueueWake`, `WorkQueue`, `BlockingQueue`) are state
  machines: a program counter per thread, locks, flags and counters, and one step per statement that
  touches shared state. `IsRun` is any finite interleaving of any number of threads. The invariants
  are proved step by step and the main theorems are about every state of every run. Locks are owned
  explicitly, a condition wait releases its lock in the same step, and flags are sequentially
  consistent.
* **Objects** (`Jsmn.Parser`, `Sessions.Context`, `MessageQueue.Queue`, `Backoff.RetryState`,
  `WorkQueue.Ring`, `DoubleList.List`) are classes with the source's fields. Every method is proved
  against a specification function of the old state, and the lemmas about those functions carry the
  properties over whole runs.
* **Algorithms** (`Crc32`, `AwsSigner`, `Base64`, `Timegm`) keep the source's loops and buffers and are
  proved against an independent definition: the bit-serial CRC of section 8 of RFC 1952, the fields of
  a query percent-encoded (section 2.1 of RFC 3986) and sorted, the 24-bit groups of section 4 of
  RFC 4648, the day count of the Gregorian calendar (section 4.16 of the Base Definitions of
  POSIX.1-2017).

What the surroundings decide is a parameter: the time and the random source (`Backoff`), the answers
of `create_session`, `send_message`, `calloc` and `hashTablePut` (`Sessions.Env`), whether a waiting
reader's time has run out (`giveUp`), whether a pass reconnects or the cleanup loop's period ends, and
which locks a client or a callback takes on the run task (`Lifecycle.Choice`).

`dafny verify dfyconfig.toml` checks the whole project.

## Assumptions

* `jsmn.h`: the default build (neither `JSMN_STRICT` nor `JSMN_PARENT_LINKS`), a fresh parser, a length
  that fits in `int`.
* `ThreadPool.c`: no push or `threadpoolTryAdd` races `threadpoolFree`; allocations and thread creation
  succeed; user tasks end; the task queue stays under its 1024 permits. The semaphore of the
  termination task is modelled with its limit, and with releases that are refused unnoticed.
* `app_webrtc.c`: `peer_connection_if` is set, and the allocations behind a queue that was found or
  made succeed. In `app_webrtc_trigger_offer`, which lists a session before it puts it in the table,
  `hashTablePut` succeeds. The terminate protocol is that of the chip build, without the 30 s and 45 s
  caps and without a concurrent `app_webrtc_run` or init; the signaling client's `abort`, which is called
  under `gRunTaskLock`, neither blocks nor itself calls `app_webrtc_terminate`. Where the run task calls
  its clients or a callback (to connect, disconnect, free sessions or clients, or report an event) these
  may take any locks one after the other on its thread, which keeps them to the end of that call and does
  not wait for one that it has itself; the context's lock and the session list's are free again at the
  ends the source gives. Any other thread may take any locks in any order, hold them in a callback, and
  call `app_webrtc_terminate` with them in its hands; while it neither waits for a lock nor for such a
  call it can give back what it has. Before the run task was started there is no client and no session,
  so nobody comes to wait with one of the context's two locks.
* `message_queue.c`: the chip build, where the wake token is a binary semaphore.
* `esp_work_queue.c`: one control thread starts, stops and deinitialises.
* `aws_signer_v4.c`: `uriEncode` is set; the URL is passed whole and has at most `MAX_URI_CHAR_LEN`
  characters; `char` is unsigned, as on the chips.
* `base64.c`: lengths for which the 32-bit size computation does not wrap around.
* `lws_timegm.c`: field values for which `int` does not overflow.

## Five places where the code does not do what one would expect

* A query parameter with an empty value that is not the last one is encoded together with everything
  behind it, because a source length of 0 means "up to the terminator"
  (`AwsSigner.EmptyValueExample`). `AwsSigner.CanonicalIfAndOnlyIf` shows that the result is the join of
  the correctly encoded parameters, in order of `strcmp`, exactly when every parameter but the last has a
  value.
* That order is by whole "name=value" strings. AWS Signature Version 4 orders by name, and of the names
  "a" and "a1" puts "a" first, where the code puts "a1=..." in front of "a=...", because '1' is below '='
  (`AwsSigner.ContinuedNameExample`). `AwsSigner.OrdersAgree` shows that the two orders agree exactly when
  no name is another one continued by a character below '=': a digit, '-', '.' or '%'.
* A negative month that is a multiple of 12 is normalised to month 12, behind the end of the table of
  months (`Timegm.NegativeMultipleExample`). `Timegm.AdjustedIfAndOnlyIf` shows that every other month
  is normalised correctly.
* `esp_work_queue_sync` with a timeout of 0 waits for its barrier for ever, also when a deinit has thrown
  the barrier away (`WorkQueue.LostBarrierExample`). `WorkQueue.ReturnsIfAndOnlyIf` shows that such a call
  can return exactly as long as its barrier has been given, is about to be, or is queued with no deinit
  under way that a worker will not come before.
* A callback off the run task that calls `app_webrtc_terminate` with a lock in its thread's hands that the
  run task still needs waits for a run task that waits for that lock, and neither comes to an end before
  the 45 s cap. There are three such locks in `app_webrtc.c`: `gEventCallbackLock`, in every event callback
  (the signaling client reports on the run task's thread that it is disconnected:
  `Lifecycle.CallbackExample`), `sampleConfigurationObjLock`, in a callback of a client that is called
  under it, and in bridge mode `streamingSessionListReadLock` (both `Lifecycle.LockedCallExample`); a lock
  of a client's own is a fourth. `Lifecycle.TerminatesIfAndOnlyIf` shows that the termination can be
  completed whatever the surroundings choose exactly when no such call was made, if no other thread asks
  for a lock while it has one. `Lifecycle.SettlesIfAndOnlyIf` drops that premise: then the termination can
  be completed exactly when there are no threads that wait for each other and the run task in a circle
  (`Lifecycle.Hung`). Calls on the run task itself are safe wherever they are made, and that is what the
  try-lock of `wakeCleanupLoop` is for (`Lifecycle.TryLockExample`).

## Model

| member | source | states |
|---|---|---|
| Jsmn.Parser.Parse | components/kvs_utils/include/jsmn.h:255-438 | With a token array the call fills exactly the tokens of the definition with an explicit stack of open containers, returns their number, which is toknext, leaves the rest of the array alone, and all tokens are closed and nest; otherwise it returns that definition's error code. Without an array it returns the number of values or the first scan error. |
| Jsmn.TokenizeNests | components/kvs_utils/include/jsmn.h:255-438 | In every complete tokenisation starts strictly increase, every token is delimited as its kind demands within the text, and of two tokens the later is disjoint from the earlier or strictly inside it, and then the earlier is a container. |
| Jsmn.StepKeepsShape | components/kvs_utils/include/jsmn.h:262-426 | Each character, string or primitive consumed keeps the nesting of the tokens so far and keeps the stack equal to the open tokens in order. |
| Jsmn.OpenKeepsShape | components/kvs_utils/include/jsmn.h:268-294 | An opening bracket keeps the nesting and goes on top of the stack. |
| Jsmn.CloseKeepsShape | components/kvs_utils/include/jsmn.h:295-347 | A closing bracket of the innermost container's type keeps the nesting and takes it off the stack. |
| Jsmn.LeafKeepsShape | components/kvs_utils/include/jsmn.h:348-418 | A string or a primitive keeps the nesting and the stack. |
| Jsmn.CountMatchesFill | components/kvs_utils/include/jsmn.h:255-438 | A successful filling call finds as many values as a counting call on the same text, and with that much room it never fails for lack of tokens. |
| Jsmn.FoundInnermost | components/kvs_utils/include/jsmn.h:324-345 | A backward search for a token with a start and no end finds the innermost open container. |
| Jsmn.Parser.constructor | components/kvs_utils/include/jsmn.h:444-449 | A fresh parser. |
| Jsmn.Parser.AllocToken | components/kvs_utils/include/jsmn.h:99-112 | The next token of the array, reset, and nothing when there is none left. |
| Jsmn.Parser.ParsePrimitive | components/kvs_utils/include/jsmn.h:128-177 | One primitive token ending at the first delimiter; on any error the position and the tokens are as before. |
| Jsmn.Parser.SkipHex | components/kvs_utils/include/jsmn.h:227-240 | At most four hexadecimal digits are skipped; another character is an error. |
| Jsmn.Parser.ParseString | components/kvs_utils/include/jsmn.h:184-250 | A string ends at its closing quote; an unknown escape is invalid, a missing end partial, and both put the position back. JsmnRoundTrip.QuotedIfAndOnlyIf says which strings these are. |
| Jsmn.Parser.FindOpen | components/kvs_utils/include/jsmn.h:324-345 | The last token at or before a position that has a start and no end. |
| Jsmn.Parser.Open | components/kvs_utils/include/jsmn.h:268-294 | An opening bracket adds an open container, counts it towards the current super token and becomes the super token. |
| Jsmn.Parser.Close | components/kvs_utils/include/jsmn.h:295-347 | A closing bracket closes the innermost open container if it has its type, and is an error otherwise; the super token becomes the next one out. |
| Jsmn.Parser.Comma | components/kvs_utils/include/jsmn.h:366-382 | A comma moves the super token from a key back to the innermost open container. |
| Jsmn.Parser.FillStep | components/kvs_utils/include/jsmn.h:262-426 | One pass of the loop with a token array does what one step of the definition does. |
| Jsmn.Parser.CountStep | components/kvs_utils/include/jsmn.h:262-426 | One pass of the loop without a token array counts at most one value. |
| JsmnRoundTrip.PrintedValueTokenizes | components/kvs_utils/include/jsmn.h:255-438 | Every JSON value, its strings spelled by the grammar of QuotedIfAndOnlyIf and its unquoted values by that of BareIfAndOnlyIf, printed with any white space between its tokens and around it, tokenises to its tokens in preorder, with their extents and child counts, and these nest. |
| JsmnRoundTrip.PrintedValueCounts | components/kvs_utils/include/jsmn.h:255-438 | A counting call on such a text returns the number of its tokens. |
| JsmnRoundTrip.QuotedIfAndOnlyIf | components/kvs_utils/include/jsmn.h:184-250 | The parser takes a string for the contents of a string literal if and only if it is a sequence of characters that stand for themselves, the eight two-character escapes and the four-digit escapes of section 7 of RFC 8259. |
| JsmnRoundTrip.BareIfAndOnlyIf | components/kvs_utils/include/jsmn.h:128-176 | It takes a string for one unquoted value if and only if all its characters are visible ASCII and none is a delimiter. |
| JsmnRoundTrip.LiteralsAreBare | components/kvs_utils/include/jsmn.h:128-176 | Every number of section 6 of RFC 8259, true, false and null are such values. |
| JsmnErrors.PartIfAndOnlyIf | components/kvs_utils/include/jsmn.h:50-54 | A text without NUL, given room, tokenises or fails with JSMN_ERROR_PART if and only if something can be put behind it so that it tokenises; otherwise, and only then, it fails with JSMN_ERROR_INVAL. |
| JsmnErrors.InvalidStays | components/kvs_utils/include/jsmn.h:51-52 | A text that is invalid at some point stays so whatever follows it. |
| JsmnErrors.Completes | components/kvs_utils/include/jsmn.h:53-54 | What a partial text lacks: the rest of an escape, the closing quote, and the closing brackets of what is open, innermost first. |
| JsmnErrors.NulExample | components/kvs_utils/include/jsmn.h:262 | Behind a NUL it is otherwise: the text "[" and a NUL is partial for ever. |
| JsmnRoundTrip.BlankStep | components/kvs_utils/include/jsmn.h:358-362 | White space, however long, changes nothing but the position. |
| JsmnRoundTrip.ValueStep | components/kvs_utils/include/jsmn.h:262-426 | Wherever a printed value stands in a text, tokenising goes on behind it with its tokens added and the open containers as before. |
| ThreadPool.ReleasedUntouched | components/kvs_utils/src/ThreadPool.c:47-159 | In every run, once threadpoolFree has seen the thread list empty no actor's next statement touches the pool and no push is under way; once it stops waiting none touches the termination task on its stack and the queue is empty; the thread data it locks, marks or removes has not been freed. |
| ThreadPool.FreedOnce | components/kvs_utils/src/ThreadPool.c:150-158 | In every run the data of a thread is freed by at most one step. |
| ThreadPool.StepKeepsGone | components/kvs_utils/src/ThreadPool.c:150-158 | Only the thread itself frees its data. |
| ThreadPool.FreeFinishes | components/kvs_utils/src/ThreadPool.c:310-461 | In every run, while threadpoolFree is under way, finitely many steps of it and of the actors take it to its end, whichever thread stands at the head of the list each time, although the two take the mutexes in opposite orders and releases of a full semaphore are refused. |
| ThreadPool.ListLeadsOn | components/kvs_utils/src/ThreadPool.c:350-417 | While the list is not known to be empty some step brings the end nearer: a try that fails sends every listed thread a permit, with which each can give its dataMutex back before the next round. |
| ThreadPool.DrainLeadsOn | components/kvs_utils/src/ThreadPool.c:419-436 | So it is while the destructor waits for its termination tasks. |
| ThreadPool.EveryThreadLeaves | components/kvs_utils/src/ThreadPool.c:82-159 | After threadpoolFree has returned every remaining thread can step, each step brings it nearer to freeing its data, and nothing else can happen. |
| ThreadPool.StepKeepsInvariant | components/kvs_utils/src/ThreadPool.c:33-461 | Every step of an actor, the destructor or a push keeps the owners of the locks, the flags and the list consistent, and the numbers of termination tasks sent, carried and counted in balance. |
| ThreadPool.RunKeepsInvariant | components/kvs_utils/src/ThreadPool.c:33-461 | So it holds in every state of every run. |
| ThreadPool.OthersIgnorePool | components/kvs_utils/src/ThreadPool.c:85-149 | An actor that is not at one of the statements counted as touching the pool does the same whatever the pool, its list and its queue hold. |
| ThreadPool.OthersIgnoreTask | components/kvs_utils/src/ThreadPool.c:33-45 | An actor that is not inside the termination task does the same whatever the task's mutex, semaphore and counter hold. |
| ThreadPool.ActKeepsLocks | components/kvs_utils/src/ThreadPool.c:47-159 | A step of an actor keeps locks, flags and list consistent for all threads. |
| ThreadPool.DestroyKeepsLocks | components/kvs_utils/src/ThreadPool.c:310-461 | So does a step of the destructor. |
| ThreadPool.PushKeepsLocks | components/kvs_utils/src/ThreadPool.c:203-274 | So does creating a thread or queueing a task. |
| ThreadPool.CarrierWhileWaiting | components/kvs_utils/src/ThreadPool.c:419-436 | While the destructor waits for the semaphore without a permit, some actor still holds a termination task and can go on. |
| ThreadPool.TakenIsRun | components/kvs_utils/src/ThreadPool.c:97-103 | In every run each actor calls the function of every task it takes from the queue, once and in the order in which it took them, but for one it has in hand. |
| ThreadPool.TakenInOrder | components/kvs_utils/src/ThreadPool.c:252-274 | In every run tasks are taken in the order in which they were pushed: those taken, those queued and those a destructor has cleared away spell those pushed. |
| ThreadPool.RunConserves | components/kvs_utils/src/ThreadPool.c:47-159 | In every run as many tasks have been pushed as are queued, are in an actor's hands, have been run, and were cleared away. |
| ThreadPool.KeepsMinimum | components/kvs_utils/src/ThreadPool.c:134-143 | In every run a pool that has its minimum of threads keeps it until it is freed, though its threads may leave. |
| ThreadPool.LeavesIfAndOnlyIf | components/kvs_utils/src/ThreadPool.c:117-147 | An actor that comes to the list, and nobody else in between, leaves if and only if the pool is not being freed, nothing is queued and there are more threads than the minimum. |
| ThreadPool.OnlyDestructorUnlists | components/kvs_utils/src/ThreadPool.c:121-128 | In every run, once the destructor has had the thread list no actor takes itself off it. |
| ThreadPool.RoundSends | components/kvs_utils/src/ThreadPool.c:399-406 | In every run, where the destructor finds a thread's mutex taken it sends one termination task for each thread listed before it lets go of the list. |
| Sessions.Context.OnOffer | components/app_webrtc/src/app_webrtc.c:1215-1399 | Whatever check fails, the tables end up valid and mean exactly what the specification of an offer says: renegotiation with a live session, replacement of a terminated one, the limit, and the session published last with the offer and then the waiting candidates; every session that is not published is freed. |
| Sessions.Context.StartSession | components/app_webrtc/src/app_webrtc.c:1293-1399 | The part of it for a client without a session, with the limit on sessions. |
| Sessions.Context.Admit | components/app_webrtc/src/app_webrtc.c:1339-1397 | From the allocation of the session to its publication, with the clean-up of 1533-1539. |
| Sessions.Context.Introduce | components/app_webrtc/src/app_webrtc.c:1369-1388 | The new session is sent the offer and then the candidates waiting for its client, oldest first. |
| Sessions.Context.Submit | components/app_webrtc/src/app_webrtc.c:1087-1138 | All candidates of a queue are handed over in order unless one is refused. |
| Sessions.Context.OnCandidate | components/app_webrtc/src/app_webrtc.c:1446-1510 | A candidate goes to the client's session or to the end of its one queue, which is made if there is none; an oversized one changes nothing. |
| Sessions.Context.Deliver | components/app_webrtc/src/app_webrtc.c:1493-1509 | The session found by its key gets the message; no other session changes. |
| Sessions.Context.TriggerOffer | components/app_webrtc/src/app_webrtc.c:2437-2528 | An offer of our own reuses the client's session or lists and publishes a new one, within the limit. |
| Sessions.Context.CleanupPass | components/app_webrtc/src/app_webrtc.c:858-887 | One pass gives up one terminated session if there is any, from table and array alike, and hashTableRemove never fails, so that the loop never aborts. |
| Sessions.Context.Reap | components/app_webrtc/src/app_webrtc.c:863-886 | The session is out of the table and the array and has been freed once. |
| Sessions.Context.Replace | components/app_webrtc/src/app_webrtc.c:1260-1283 | So it is when a new offer replaces it, with the last entry moved into its place. |
| Sessions.Context.TableRemove | components/app_webrtc/src/app_webrtc.c:868 | hashTableRemove fails exactly when the key is missing. |
| Sessions.Context.RemoveBySwap | components/app_webrtc/src/app_webrtc.c:1269-1278 | The array keeps exactly the other sessions. |
| Sessions.Context.RemoveByShift | components/app_webrtc/src/app_webrtc.c:873-878 | The array keeps exactly the other sessions, in order. |
| Sessions.Context.Publish | components/app_webrtc/src/app_webrtc.c:1390-1397 | Table and array gain the same session. |
| Sessions.Context.FreeSession | components/app_webrtc/src/app_webrtc.c:560-600 | A session is freed only while it has not been freed. |
| Sessions.Context.FreeAll | components/app_webrtc/src/app_webrtc.c:713-746 | Nothing is published or listed any more and every session ever made has been freed. |
| Sessions.Context.CloseAll | components/app_webrtc/src/app_webrtc.c:2166-2174 | Every session is marked and nothing else changes. |
| Sessions.Context.TakePending | components/app_webrtc/src/app_webrtc.c:1593-1625 | The client's queue is found wherever it is and taken out; the others stay in order. |
| Sessions.Context.FindPending | components/app_webrtc/src/app_webrtc.c:1603-1620 | The search finds the client's queue. |
| Sessions.Context.DropPending | components/app_webrtc/src/app_webrtc.c:1296-1302 | At the limit the client's queue is given up. |
| Sessions.Context.RemoveExpired | components/app_webrtc/src/app_webrtc.c:1627-1657 | Dequeueing every queue once and putting the live ones back leaves the unexpired ones in their order. |
| Sessions.UnexpiredIs | components/app_webrtc/src/app_webrtc.c:1640-1652 | A queue survives the pass exactly if it has not expired. |
| Sessions.UnexpiredKeeps | components/app_webrtc/src/app_webrtc.c:1640-1652 | The pass keeps one queue for a client, with that client's candidates. |
| Sessions.AgreeCount | components/app_webrtc/src/app_webrtc.c:1293-1303 | Where table and array hold the same sessions the count is the number of clients, so the limit on the array is one on the table. |
| Sessions.AgreeWithout | components/app_webrtc/src/app_webrtc.c:863-878 | Taking a session out of both keeps them equal. |
| Sessions.Delivered | components/app_webrtc/src/app_webrtc.c:1369-1510 | In every run, whatever other clients do and as long as nothing gives up what there is for a client, each message taken from it is kept exactly once: its session has the first accepted offer, then the candidates that came before it, then everything since, in order of arrival; without a session they wait in that order, offers that fail before the queue is taken included. |
| Sessions.OfferKeeps | components/app_webrtc/src/app_webrtc.c:1231-1399 | An offer, of this client or another, keeps that. |
| Sessions.CandidateKeeps | components/app_webrtc/src/app_webrtc.c:1446-1510 | So does a candidate. |
| Sessions.ExpiryKeeps | components/app_webrtc/src/app_webrtc.c:1627-1657 | So does the expiry of other clients' queues. |
| Sessions.RunKeepsTables | components/app_webrtc/src/app_webrtc.c:856-887 | In every run the sessions never outgrow the array, each is under the key of its own peer id, and no client has two queues. |
| Sessions.OfferAccepted | components/app_webrtc/src/app_webrtc.c:1231-1399 | An offer succeeds and leaves its client with a live session if and only if the client has one that takes it, or other clients' sessions leave room in the array and all calls succeed; the session has then been handed the offer behind what it had, or first with the waiting candidates behind it, and no other client is affected. |
| Sessions.OfferAtLimit | components/app_webrtc/src/app_webrtc.c:1292-1306 | An offer that finds the array full of other clients' sessions makes none, drops its client's candidates and what was left of an ended session, and reports no error. |
| Sessions.TriggerAccepted | components/app_webrtc/src/app_webrtc.c:2437-2528 | An offer of our own succeeds if and only if the client has a session, or there is room and one can be made; else nothing changes. |
| Sessions.CandidateAccepted | components/app_webrtc/src/app_webrtc.c:1446-1480 | A candidate is taken if and only if it has at most 24 KB and its session takes it or its client has a queue or gets one; it is then the last there, and else nothing changes. |
| Sessions.ExpiryIs | components/app_webrtc/src/app_webrtc.c:1627-1655 | A queue is given up if and only if it is more than 20 seconds old. |
| Sessions.LiveStays | components/app_webrtc/src/app_webrtc.c:856-1069 | In every run a live session stays, with what it has been handed, until its connection ends or all sessions are closed. |
| Lifecycle.NeverSleepsAgain | components/app_webrtc/src/app_webrtc.c:2199-2219 | In every run, once wakeCleanupLoop has returned TRUE to a call that raised the flag, the cleanup loop is not asleep and never will be again, mid-reconnect included. |
| Lifecycle.StepStaysAwake | components/app_webrtc/src/app_webrtc.c:1056-1068 | With the flag up no step of any thread takes the loop back to sleep. |
| Lifecycle.OneTeardown | components/app_webrtc/src/app_webrtc.c:2305-2412 | In every run at most one thread is inside app_webrtc_teardown, the context is freed at most once, and a teardown finds no reconnect in flight. |
| Lifecycle.UsesLiveContext | components/app_webrtc/src/app_webrtc.c:2250-2301 | In every run a terminate call that is about to use the context finds it there, before the run task's teardown has begun and with no other under way. |
| Lifecycle.OthersIgnoreContext | components/app_webrtc/src/app_webrtc.c:2226-2301 | A terminate call that is not at one of those statements does the same whatever the context's flags and lock hold. |
| Lifecycle.AwaitedIsGone | components/app_webrtc/src/app_webrtc.c:2271-2288 | In every run, when a call that has waited for the run task returns, the task has torn everything down, is suspended and deleted, the context has been freed once and the application is no longer initialised. |
| Lifecycle.DeletedWhenParked | components/app_webrtc/src/app_webrtc.c:2049-2063 | The run task is deleted only by a call that holds gRunTaskLock, and only when it is suspended for good. |
| Lifecycle.FinishedIsDeleted | components/app_webrtc/src/app_webrtc.c:2235-2238 | A call that looks for a finished run task, on its way in or out, has deleted it when it goes on. |
| Lifecycle.TornDownByCall | components/app_webrtc/src/app_webrtc.c:2292-2300 | In every run, when a call that tears down itself returns, the context has been freed once and the application is no longer initialised. |
| Lifecycle.RefusedBeside | components/app_webrtc/src/app_webrtc.c:2241-2245 | In every run a call is turned away only while another one is tearing down. |
| Lifecycle.TearsInOrder | components/app_webrtc/src/app_webrtc.c:2305-2412 | In every run the run task does the steps of its teardown in this order and each once: disconnect, unpublish and detach the sessions, free the clients, a last chance at the lock for everyone, free the context, reset. |
| Lifecycle.CallTearsInOrder | components/app_webrtc/src/app_webrtc.c:2305-2412 | So does a call that tears down, unless it finds no context. |
| Lifecycle.NothingBegunAgain | components/app_webrtc/src/app_webrtc.c:856-1069 | In every run, with the flag up and no pass or connect begun, the run task begins none again. |
| Lifecycle.RunNearsEnd | components/app_webrtc/src/app_webrtc.c:856-1069 | With the flag up every step of the run task, and of its surroundings when it calls them, brings it nearer the end of its teardown, whatever they choose and whichever locks they take, and it does not fall asleep again. |
| Lifecycle.RunNeeds | components/app_webrtc/src/app_webrtc.c:713-745 | A lock that the run task is through with it never comes to need again; one that another thread has, and that the surroundings take where they are called, it goes on to need. |
| Lifecycle.SettlesIfAndOnlyIf | components/app_webrtc/src/app_webrtc.c:2199-2301 | In every run, once termination has been asked for: the run task can be parked and every terminate call returned (AwaitedIsGone says with what), whatever its surroundings choose and whatever locks other threads have or wait for, if and only if there are no threads stuck with it, that is, which have a lock that it may still need and each wait for the run task in a terminate call, for each other's locks, or for a lock that it has while they hold it up. |
| Lifecycle.Settles | components/app_webrtc/src/app_webrtc.c:2199-2301 | That continuation takes only steps of the run task, of the calls, and of other threads getting a lock they wait for or giving one back; it exists for every sequence of choices of the surroundings, without any period or cap running out. |
| Lifecycle.SomeStepLeadsOn | components/app_webrtc/src/app_webrtc.c:2199-2301 | In a state that does not hang some step lowers what is left of the run task, then the locks its surroundings are to take, then what is left of the calls and the other threads. |
| Lifecycle.StaysSafe | components/app_webrtc/src/app_webrtc.c:2199-2301 | Such steps never lead to a state that hangs. |
| Lifecycle.StaysStuck | components/app_webrtc/src/app_webrtc.c:2271-2280 | While its surroundings take the lock wherever they are called, no step of any thread frees threads that are stuck with the run task. |
| Lifecycle.HolderLeadsOn | components/app_webrtc/src/app_webrtc.c:2205-2219 | Whoever holds gRunTaskLock comes to give it back, because it only tries the context's lock. |
| Lifecycle.HungIfAndOnlyIf | components/app_webrtc/src/app_webrtc.c:121-137 | In every run in which no other thread asks for a lock while it has one, there are threads stuck with the run task if and only if a terminate call was made off the run task by a thread with a lock in its hands, the event callbacks', the session list's, the context's or another, that the run task may still need. |
| Lifecycle.TerminatesIfAndOnlyIf | components/app_webrtc/src/app_webrtc.c:2226-2301 | So in such a run the termination can be completed in all surroundings if and only if no such call was made. |
| Lifecycle.HoldingCallHangs | components/app_webrtc/src/app_webrtc.c:354-366 | In every run, with no premise on other threads, such a call hangs the state as long as the run task may need its lock. |
| Lifecycle.RunRouses | components/app_webrtc/src/app_webrtc.c:2271-2280 | In every run, while the loop sleeps with the flag up, some call is still to wake it. |
| Lifecycle.LockedCallExample | components/app_webrtc/src/app_webrtc.c:722-739 | A run that such a call leaves without a single step but further calls and requests for locks: the run task waits for the context's lock, or for the session list's, on its way through the teardown. |
| Lifecycle.CallbackExample | components/app_webrtc/src/app_webrtc.c:2337-2343 | The same for any lock, that of the event callbacks in particular, with the context's free: the run task waits for it inside the signaling client's disconnect. |
| Lifecycle.TryLockExample | components/app_webrtc/src/app_webrtc.c:2202-2212 | A run in which the run task holds the context's lock inside a terminate call that waits for gRunTaskLock, and only the failing try of the lock's holder gets on. |
| Lifecycle.FailedStartExample | components/app_webrtc/src/app_webrtc.c:2015-2040 | A run in which the clients cannot be made: the run task reports it, tears down and parks, with no call made. |
| Lifecycle.ReconnectExample | components/app_webrtc/src/app_webrtc.c:2271-2290 | A run with a sleep, a reconnect and a terminate call during it, which waits, deletes the run task and returns. |
| Lifecycle.StepKeeps | components/app_webrtc/src/app_webrtc.c:2015-2063 | Every step keeps the ownership of both locks, the meaning of the flags, and who may tear down. |
| Lifecycle.RunKeepsInvariant | components/app_webrtc/src/app_webrtc.c:2015-2063 | So it holds in every state of every run. |
| Lifecycle.RunOnKeeps | components/app_webrtc/src/app_webrtc.c:856-1069 | The part of it for the run task. |
| Lifecycle.GoKeeps | components/app_webrtc/src/app_webrtc.c:2226-2301 | The part of it for a terminate call; AwaitedIsGone and TornDownByCall say what a call leaves. |
| MessageQueue.Queue.Add | components/esp_webrtc_utils/src/message_queue.c:328-363 | The message is behind the others in the sequence, after room was made for it, or the call changes nothing and says why. |
| MessageQueue.Queue.AddFront | components/esp_webrtc_utils/src/message_queue.c:306-326 | The message is in front of the others, after room was made for it, or nothing changes. |
| MessageQueue.Queue.MakeRoom | components/esp_webrtc_utils/src/message_queue.c:283-304 | A full queue refuses, or frees its victim and keeps the rest in order. |
| MessageQueue.Queue.ShiftDown | components/esp_webrtc_utils/src/message_queue.c:298-301 | The messages behind the victim move down by one slot, the others stay. |
| MessageQueue.Queue.ShiftUp | components/esp_webrtc_utils/src/message_queue.c:317-319 | Every message moves up by one slot. |
| MessageQueue.Queue.DropIndex | components/esp_webrtc_utils/src/message_queue.c:162-172 | The victim is the oldest droppable message, else the oldest. |
| MessageQueue.Queue.TakeHead | components/esp_webrtc_utils/src/message_queue.c:366-385 | The oldest message, which leaves the rest in order. |
| MessageQueue.Queue.GetNext | components/esp_webrtc_utils/src/message_queue.c:387-415 | The same for a caller, with an error and no change if the queue is empty or was never initialised. |
| MessageQueue.Queue.Cleanup | components/esp_webrtc_utils/src/message_queue.c:242-263 | Every queued message is freed once, in order. |
| MessageQueue.Queue.Init | components/esp_webrtc_utils/src/message_queue.c:196-235 | A first call makes an empty queue, or changes nothing if an allocation fails; a repeat only purges and keeps the configuration. |
| MessageQueue.FullAddDropsOldest | components/esp_webrtc_utils/src/message_queue.c:160-172 | Adding to a full queue frees one message, a droppable one with none before it or, only if none is, the oldest, and keeps the order of the rest. |
| MessageQueue.AddedIfAndOnlyIf | components/esp_webrtc_utils/src/message_queue.c:283-363 | A message is added if and only if there is room or the policy lets an old one go; where there is room none goes, and where it is refused nothing changes. |
| MessageQueueWake.NoReaderSleepsBesideMessage | components/esp_webrtc_utils/src/message_queue.c:138-157 | In every run, when the lock is free, a message is queued and a reader waits, that reader can take the token or another has taken it and not looked yet, and its own next steps, which nobody holds up, hand it the oldest message. |
| MessageQueueWake.StepKeeps | components/esp_webrtc_utils/src/message_queue.c:138-157 | Every step of writers, polling and waiting readers keeps: one thread holds the lock, and a queued message means a set token or a thread that will see it. |
| MessageQueueWake.RunCovered | components/esp_webrtc_utils/src/message_queue.c:138-157 | So it holds in every state of every run. |
| MessageQueueWake.RunConserves | components/esp_webrtc_utils/src/message_queue.c:306-445 | In every run the messages accepted are exactly those queued, handed to a reader and freed together. |
| MessageQueueWake.RunFifo | components/esp_webrtc_utils/src/message_queue.c:328-445 | In a queue that refuses new messages when full, and without additions in front, the messages are handed out in the order they were accepted, by however many threads. |
| MessageQueueWake.RunInOrder | components/esp_webrtc_utils/src/message_queue.c:283-445 | In every run, with either policy, with messages dropped and purged, and without additions in front, those handed out, followed by those queued, are some of those accepted in the order in which they were. |
| MessageQueueWake.AddedConserves | components/esp_webrtc_utils/src/message_queue.c:283-363 | An addition changes what is queued and freed together by the one new message, or not at all. |
| MessageQueueWake.CallsAreDone | components/esp_webrtc_utils/src/message_queue.c:283-445 | In every run each thread does all its calls under the lock, once and in order, but for one it is at; a waiting reader gives up only with its time run out beside an empty queue. |
| MessageQueueWake.BodyDoes | components/esp_webrtc_utils/src/message_queue.c:283-445 | Under the lock a valid message gets in if there is room or an old one may go, at its end of the queue; a reader gets the oldest message if there is one, and signals if more are left; a purge frees all. |
| Crc32.UpdateCrc32 | components/kvs_utils/src/crc32.c:43-54 | The table-driven loop returns the bit-serial CRC for every buffer and start value; a NULL buffer is an empty one. |
| Crc32.TableIsByteStep | components/kvs_utils/src/crc32.c:19-41 | Each of the 256 table entries is eight bit steps of its index. |
| Crc32.TableStepIsFeedByte | components/kvs_utils/src/crc32.c:51 | One table step is eight bit-serial steps, for every register and byte. |
| Crc32.CrcInChunks | components/kvs_utils/src/crc32.c:43-54 | Updating in chunks is updating once. |
| Crc32.RegisterInjective | components/kvs_utils/src/crc32.c:50-52 | Two different registers stay different over any message. |
| Crc32.WindowErrorDetected | components/kvs_utils/src/crc32.c:43-54 | Two messages that differ within a window of at most four bytes, and only there, never have the same CRC. |
| Crc32.OneByteErrorDetected | components/kvs_utils/src/crc32.c:43-54 | Nor do two equal-length buffers that differ in exactly one byte. |
| AwsSigner.GetCanonicalQueryParams | components/credential/src/aws_signer_v4.c:353-516 | For a whole URL the call returns the join of its encoded parameters in order of strcmp, NUL-terminated and with its exact length, or the error of the first parameter that has no '=' or does not fit. |
| AwsSigner.CollectParams | components/credential/src/aws_signer_v4.c:384-465 | The loop over the parameters builds the sorted list and the size of its buffer. |
| AwsSigner.EncodeParam | components/credential/src/aws_signer_v4.c:393-431 | One parameter is its name, '=' and its encoded value; where the buffer is capped the call fails. |
| AwsSigner.InsertParam | components/credential/src/aws_signer_v4.c:433-461 | The new parameter goes in front of the first that is not before it. |
| AwsSigner.JoinParams | components/credential/src/aws_signer_v4.c:467-497 | The join fits the computed buffer, never trips its own size check, and is exactly the parameters with '&' between them. |
| AwsSigner.InsertAllSorts | components/credential/src/aws_signer_v4.c:433-461 | The list is a permutation of what was inserted, in order of strcmp. |
| AwsSigner.EncodedIsCanonical | components/credential/src/aws_signer_v4.c:384-431 | If every field but the last has a value the parameters are exactly the canonical fields, errors included; if one has none and the call succeeds they are longer. |
| AwsSigner.CanonicalIfAndOnlyIf | components/credential/src/aws_signer_v4.c:353-516 | A successful result is the join of the canonical fields in order of strcmp if and only if every field but the last has a value. |
| AwsSigner.EmptyValueExample | components/credential/src/aws_signer_v4.c:998 | In "a=&b=1" the value of a becomes "&b=1". |
| AwsSigner.OrdersAgree | components/credential/src/aws_signer_v4.c:433-461 | The parameters of a successful result are in order of their names, those of one name in order of their values, if and only if no name among them is another one continued by a character below '='. |
| AwsSigner.ContinuedNameExample | components/credential/src/aws_signer_v4.c:441 | "a=2&a1=1" comes out as "a1=1&a=2". |
| AwsSigner.UriEncodeString | components/credential/src/aws_signer_v4.c:989-1052 | The size pass reports what the write pass writes; the write pass succeeds exactly when there is that much room and writes the encoding, its terminator and nothing outside its room. EncodeIsPercentEncoded says what the encoding is. |
| AwsSigner.WriteByte | components/credential/src/aws_signer_v4.c:1006-1033 | One character's encoding is written, the slash by its own branch. |
| AwsSigner.EncodeDecodes | components/credential/src/aws_signer_v4.c:1005-1034 | Percent-decoding the encoding gives the string back, so no two strings have the same encoding. |
| AwsSigner.EncodeIsPercentEncoded | components/credential/src/aws_signer_v4.c:1006-1033 | The encoding leaves the unreserved characters of section 2.3 of RFC 3986, spelled out, and turns every other byte into '%' and its two digits of "0123456789ABCDEF". |
| AwsSigner.UnreservedStands | components/credential/src/aws_signer_v4.c:1006-1012 | A string is its own encoding if and only if all its characters are unreserved. |
| AwsSigner.GetCanonicalUri | components/credential/src/aws_signer_v4.c:927-987 | The path starts at the first slash behind the scheme if it comes before any '?', and ends at the first '?', or at the end of the URL. |
| AwsSigner.FindScheme | components/credential/src/aws_signer_v4.c:940-944 | The first scheme delimiter, advanced past it. |
| AwsSigner.AfterSchemeIs | components/credential/src/aws_signer_v4.c:940-944 | That is the place behind the first "://". |
| AwsSigner.StrNChr | components/credential/src/aws_signer_v4.c:385-394 | The first occurrence of a character within a range. |
| Backoff.RetryState.GetWaitTime | components/kvs_utils/src/backoff.c:219-298 | For every jitter type, clock and random source the wait is exactly that of the closed form for the number of retries since the last reset, with its jitter; exhaustion resets the state; a terminated state is an error. |
| Backoff.RetryState.NextWait | components/kvs_utils/src/backoff.c:255-277 | The shortcut on the previous wait gives the closed form, and the 32-bit count may wrap around. |
| Backoff.RetryState.CalculateWaitTime | components/kvs_utils/src/backoff.c:173-189 | Where it is called the power is accepted and the 64-bit product does not wrap around. |
| Backoff.RetryState.RandomJitter | components/kvs_utils/src/backoff.c:154-171 | The jitter is the random number within the limit of its type. |
| Backoff.RetryState.UpdateStatus | components/kvs_utils/src/backoff.c:191-217 | A terminated state stays and is refused, any other is in progress. |
| Backoff.RetryState.Reset | components/kvs_utils/src/backoff.c:34-53 | No retries, no last wait, not started. |
| Backoff.Create | components/kvs_utils/src/backoff.c:116-152 | A configuration out of range is refused; otherwise a fresh state with its times normalised. |
| Backoff.ShortcutAgrees | components/kvs_utils/src/backoff.c:258-260 | If a wait with its jitter reached the largest, the next wait is the largest by the closed form as well. |
| Backoff.ProductFits | components/kvs_utils/src/backoff.c:181-182 | If the last wait did not reach the largest there were at most nine retries and the product is below twice the largest. |
| Backoff.JitteredWait | components/kvs_utils/src/backoff.c:269-277 | Every wait lies between its closed form and twice the largest. |
| Backoff.JitterIs | components/kvs_utils/src/backoff.c:154-171 | A wait can have any value from its closed form to less than twice it with full jitter, to less than the jitter factor in milliseconds more with fixed jitter, and only the closed form without, and no other value. |
| Backoff.BaseIs | components/kvs_utils/src/backoff.c:255-265 | The waits of the closed form are positive and double until they reach the largest. |
| Backoff.ComputePower | components/kvs_utils/src/math.c:5-42 | Squaring in 64 bits gives the exact power for every base and exponent it accepts, although the last square may wrap around. |
| WorkQueue.SyncMeansFinished | components/esp_webrtc_utils/src/esp_work_queue.c:206-248 | In every run, when a sync has returned ESP_OK everything accepted before its barrier was posted, less what an earlier deinit threw away, has finished, however the queue was stopped, restarted or re-created. |
| WorkQueue.ReturnsIfAndOnlyIf | components/esp_webrtc_utils/src/esp_work_queue.c:211-248 | In every run a sync whose barrier is posted can return without its time running out, which with timeout 0 it never does, if and only if the barrier has given its semaphore, is about to, or is queued and no deinit is under way that throws it away before a worker takes it. |
| WorkQueue.LostBarrierExample | components/esp_webrtc_utils/src/esp_work_queue.c:279-303 | A run in which a deinit throws the barrier away and the sync never returns. |
| WorkQueue.OneWorkerInOrder | components/esp_webrtc_utils/src/esp_work_queue.c:120-168 | In every run the entries accepted, less those a deinit threw away, are those finished, then the one running, then the queue, in order, and at most one worker is alive. |
| WorkQueue.StepKeeps | components/esp_webrtc_utils/src/esp_work_queue.c:157-373 | Every step of the worker, the control thread, posters and syncs keeps that and what each barrier stands for. |
| WorkQueue.RunKeepsInvariant | components/esp_webrtc_utils/src/esp_work_queue.c:157-373 | So it holds in every state of every run. |
| WorkQueue.WorkerServes | components/esp_webrtc_utils/src/esp_work_queue.c:206-209 | When a barrier gives its semaphore everything accepted before it has finished. |
| WorkQueue.StartAlone | components/esp_webrtc_utils/src/esp_work_queue.c:308-354 | A worker is created only while none is alive. |
| WorkQueue.PostedIfAndOnlyIf | components/esp_webrtc_utils/src/esp_work_queue.c:170-196 | In every run a task is accepted if and only if the queue is initialised, whether a worker runs or not, and has room. |
| WorkQueue.KeptIsAccepted | components/esp_webrtc_utils/src/esp_work_queue.c:170-202 | In every run, between deinits, what is kept grows by exactly the tasks posted and the barriers of syncs, in that order. |
| WorkQueue.AcceptedIsKeptOrThrown | components/esp_webrtc_utils/src/esp_work_queue.c:279-306 | In every run what was accepted is kept or was in the queue when a deinit threw it away. |
| WorkQueue.CalledIsFinished | components/esp_webrtc_utils/src/esp_work_queue.c:120-146 | In every run the functions called are those of the entries finished, each once and in order, and of the one being run. |
| WorkQueue.StopIsObeyed | components/esp_webrtc_utils/src/esp_work_queue.c:157-168 | In every run, when a stop is requested the worker can come to its end by its own steps: with all that is queued finished if it has begun on the queue, and else with nothing more. |
| WorkQueue.FailsWithoutQueue | components/esp_webrtc_utils/src/esp_work_queue.c:211-232 | In every run a sync that does not run out of time fails only where it finds no queue: it waits for room for its barrier. |
| WorkQueue.Ring.TrySend | components/esp_webrtc_utils/src/esp_work_queue.c:70-81 | The entry is behind the others, read around the ring, if there is room; else nothing changes. |
| WorkQueue.Ring.Receive | components/esp_webrtc_utils/src/esp_work_queue.c:98-110 | The oldest entry, which leaves the others in order. |
| WorkQueue.Ring.Create | components/esp_webrtc_utils/src/esp_work_queue.c:52-58 | An empty ring, or none if the allocation fails. |
| WorkQueue.Ring.Delete | components/esp_webrtc_utils/src/esp_work_queue.c:60-68 | No ring; what it held is gone. |
| WorkQueue.Ring.Pending | components/esp_webrtc_utils/src/esp_work_queue.c:112-118 | How many entries are queued. |
| BlockingQueue.RunBalances | components/kvs_utils/src/ThreadSafeBlockingQueue.c:202-277 | In every run the items in the queue are the permits, the dequeuers with a permit that have not popped, the enqueuers that have stored and not released, and the permits refused at the limit, together; items leave in the order they were stored; one thread holds the lock. |
| BlockingQueue.PermitMeansItem | components/kvs_utils/src/ThreadSafeBlockingQueue.c:250-266 | A dequeuer that has a permit pops the oldest item that has not been popped. |
| BlockingQueue.ItemMeansPermit | components/kvs_utils/src/ThreadSafeBlockingQueue.c:224-229 | Without refused permits a queued item means a permit, or an enqueuer about to release one, or a dequeuer on its way. |
| BlockingQueue.RefusedStays | components/kvs_utils/src/ThreadSafeBlockingQueue.c:224-229 | A refused permit leaves an item behind for good. |
| BlockingQueue.StoredInOrder | components/kvs_utils/src/ThreadSafeBlockingQueue.c:202-237 | In every run what is stored is what the calls asked for, in the order in which their threads got the mutex, nothing left out and nothing twice. |
| BlockingQueue.NoneRefused | components/kvs_utils/src/ThreadSafeBlockingQueue.c:224-229 | While there are never more than 1024 items in the queue no permit is refused. |
| DoubleList.List.LinksSpell | components/kvs_utils/src/double_linked_list.c:457-654 | The next links from the head spell the list, the prev links from the tail spell its reverse, in count nodes. |
| DoubleList.List.InsertNodeHead | components/kvs_utils/src/double_linked_list.c:457-485 | The node is in front of the others. |
| DoubleList.List.InsertNodeTail | components/kvs_utils/src/double_linked_list.c:487-515 | The node is behind the others. |
| DoubleList.List.InsertNodeBefore | components/kvs_utils/src/double_linked_list.c:517-545 | The node is in front of the given one. |
| DoubleList.List.InsertNodeAfter | components/kvs_utils/src/double_linked_list.c:547-575 | The node is behind the given one. |
| DoubleList.List.RemoveNode | components/kvs_utils/src/double_linked_list.c:577-609 | The others stay in order, and the node has no links. |
| DoubleList.List.Bypass | components/kvs_utils/src/double_linked_list.c:581-598 | The node's neighbours point to each other. |
| DoubleList.List.DeleteHead | components/kvs_utils/src/double_linked_list.c:238-256 | The first node goes, if there is one. |
| DoubleList.List.DeleteTail | components/kvs_utils/src/double_linked_list.c:261-279 | The last node goes, if there is one. |
| DoubleList.List.GetNodeAt | components/kvs_utils/src/double_linked_list.c:347-359 | The node at an index, an error behind the end. |
| DoubleList.List.Clear | components/kvs_utils/src/double_linked_list.c:67-97 | Every node is given back once, in order, and the list is empty. |
| DoubleList.List.AppendList | components/kvs_utils/src/double_linked_list.c:630-654 | The list becomes the two lists one after the other, and the other's structure is consumed. |
| Base64.Encode | components/kvs_utils/src/base64.c:72-142 | The call writes the padded encoding in 24-bit groups and its terminator, nothing behind it, and its size; a size-only call reports that size; too little room changes nothing. |
| Base64.EncodeInto | components/kvs_utils/src/base64.c:108-133 | The loop over full groups and the padded last one write the encoding. |
| Base64.Decode | components/kvs_utils/src/base64.c:149-234 | The call strips up to two '=', refuses a length that no encoding has, and writes what the digits stand for; a size-only call reports that size. |
| Base64.DecodeInto | components/kvs_utils/src/base64.c:201-228 | The loop over full groups and what is left of the last one write the bytes. |
| Base64.RoundTrip | components/kvs_utils/src/base64.c:72-234 | Decoding the encoding of any non-empty bytes gives exactly them back; the encoding has no NUL and the decoder accepts it. |
| Base64.EncodedInjective | components/kvs_utils/src/base64.c:72-142 | No two byte strings have the same encoding. |
| Base64.EncodeShifts | components/kvs_utils/src/base64.c:115-118 | The shifts and masks pick the four sextets of the 24 bits. |
| Base64.OctetsAreOrs | components/kvs_utils/src/base64.c:209-211 | The shifts and ors of the bytes put the three octets of the 24 bits together. |
| Base64.OrIsSum | components/kvs_utils/src/base64.c:209-211 | For values of digits the bit vector's shifts and or are a sum of a remainder and a quotient, because no bits overlap. |
| Base64.AlphabetIsDigits | components/kvs_utils/src/base64.c:23 | The alphabet string is the digits of table 1 of RFC 4648. |
| Base64.DecodeDigit | components/kvs_utils/src/base64.c:29-56 | The decoding table gives back the value of every digit. |
| Timegm.Timegm | components/libwebsockets/lws_timegm.c:25-53 | For every month but the negative multiples of 12 the loops give the closed form for the normalised month, on both sides of 1970; for those the table is read behind its end. |
| Timegm.AdjustedIfAndOnlyIf | components/libwebsockets/lws_timegm.c:29-37 | The month and year are normalised correctly if and only if the month is not a negative multiple of 12, which becomes month 12. |
| Timegm.NegativeMultipleExample | components/libwebsockets/lws_timegm.c:31-33 | Month -12 of 1970 becomes month 12 of 1969. |
| Timegm.PosixFormula | components/libwebsockets/lws_timegm.c:39-52 | From 1970 on the closed form is the formula of POSIX.1-2017. |
| Timegm.CountsDays | components/libwebsockets/lws_timegm.c:39-47 | The first of January 1970 is day 0 and every day of the calendar is one more than the day before it. |
| Timegm.TimeGrows | components/libwebsockets/lws_timegm.c:25-53 | Over the times of the calendar the result grows strictly. |
| Timegm.TimeInjective | components/libwebsockets/lws_timegm.c:25-53 | Different times have different results. |
| Timegm.TableIsMonths | components/libwebsockets/lws_timegm.c:27 | The table with its leap day is the lengths of the months summed up. |
| Timegm.NextYear | components/libwebsockets/lws_timegm.c:40-43 | In the closed form each year is 365 days and its leap day longer, on both sides of 1970. |

## Left out

- Sessions.Context.OnCandidate: an allocation that fails after a queue was found or made is not modelled; the source then frees a queue that is still registered.
- Sessions.Context.TriggerOffer: a failing hashTablePut is not modelled, because the session has been listed before; creating and sending the offer itself is left out.
- Sessions.Context.CleanupPass: the reconnect part of the pass is in Lifecycle, without its retry times.
- Lifecycle.NeverSleepsAgain: the caps on waiting and what happens behind them are not modelled; the Linux build, where the task deletes itself, is left out.
- Lifecycle.SettlesIfAndOnlyIf: it says that the end can always be reached, not that a scheduler which never runs some thread reaches it; a call of the surroundings that gives a lock back before it takes the next is modelled as keeping it; a callback in the middle of using the context while a call with no run task tears it down is not followed further.
- ThreadPool.FreeFinishes: likewise for schedulers.
- ThreadPool.PushKeepsLocks: the ceiling of maxThreads is not claimed; the check and the creation are separate critical sections.
- MessageQueueWake.NoReaderSleepsBesideMessage: timeouts are choices of the surroundings; the Linux condition variable is left out.
- AwsSigner.GetCanonicalQueryParams: the call with uriEncode off and URLs longer than MAX_URI_CHAR_LEN are left out.
- AwsSigner.CollectParams: queries of such URLs are left out.
- AwsSigner.EncodeParam: queries of such URLs are left out.
- Base64.Encode: lengths whose 32-bit size computation wraps around are left out.
- Base64.Decode: lengths whose 32-bit size computation wraps around are left out.
- Sessions.Context.FreeAll: the two critical sections of the source are one step.
- WorkQueue.SyncMeansFinished: what an expired sync leaves behind (its semaphore) is not modelled.
- JsmnErrors.PartIfAndOnlyIf: texts with a NUL are left out, because the parser stops there (JsmnErrors.NulExample).
- The ANSWER message of app_webrtc.c, which uses the first slot of the session array.
- safeBlockingQueueClear and safeBlockingQueueFree on their own; their part in threadpoolFree is in ThreadPool.
- SHA-256, HMAC, HTTP, TLS, SNTP, Wi-Fi, flash and file access: foreign calls.
- Logging, statistics, CLI commands, and what events carry; the lock they are raised under is in Lifecycle.
- state_machine.c, message_utils.c, endianness.c and the credential packing of auth.c: they would only add easy members.
