# Verification of the lifecycle protocol of mod_quickjs

mod_quickjs embeds a JavaScript engine in FreeSWITCH. What it owns, beside glue, is a protocol that
keeps scripts, sessions, HTTP objects and detached threads alive as long as somebody uses them:
four counters (`script->sem`, `jss->wlock`, `js_curl->active_jobs`, `globals.active_threads`), the
flags that stop new uses, and four loops that wait for the counters to drain. This project models
that protocol and the sequential code around it, and proves what it guarantees over whole runs,
where its guarantees end, and exactly under which condition they hold.

`dafny verify dfyconfig.toml` checks everything.

## How the model is built

Each concurrent component is a step system: one action per critical section or per unsynchronised
access, any number of threads, an invariant kept by every action, and theorems over all runs.

- `Playback.dfy`: background playback of one session. `JsSession.dfy` is the session object itself,
  its C functions as methods that are interrupted by other threads between any two sections and
  are proved to follow the step system. `PlaybackControl.dfy` is the control call.
- `CurlJobs.dfy`, `JsCurl.dfy`: background requests of one CURL object, in the same two forms.
- `ChatInbox.dfy`, `ScriptInbox.dfy`: the inbox of a script and its senders; `ChatMessages.dfy`: the
  memory of a message.
- `Registry.dfy`, `ModuleObject.dfy`: scripts, the commands that reach them, the map of scripts and
  the shutdown; `RegistryProgress.dfy`: how they advance; `MapSweep.dfy`: what a sweep over the map
  achieves; `MapLifetime.dfy`: who can use the map after its destruction; `InboxLifetime.dfy`: the
  inbox composed with the life of its script.
- `Objects.dfy`, `WholeSystem.dfy`, `FairRuns.dfy`: scripts, clients and objects composed: the thread
  counter, absence of deadlock, and the end of every fair run.
- `Requests.dfy`: building, owning, freeing and uploading a request. `SpeechDetect.dfy`: speech
  detection. `SocketReader.dfy`: the line reader. `JsList.dfy`: the list of loaded modules.
- `Sums.dfy`, `Queues.dfy`, `CStrings.dfy`, `Resources.dfy`: counting, the bounded queue, C strings,
  memory.

In the object modules `Interfere` stands for any finite number of steps of the other threads: its
callers know nothing but its contract, which is what `OthersLeaveMine` proves of every such stretch.
`Yield` stands for `switch_yield` in a wait loop: the same, but as some other thread can go on, at
least one step is taken. The objects carry the positions of the threads that run on them for this.

Assumptions:

- The queue of the host is a bounded FIFO: a push fails when it is full or terminated, a pop when it
  is empty or terminated.
- Thread creation succeeds, memory is sequentially consistent, foreign calls and scripts take
  finitely many steps.
- `script->sem` is incremented by lookups under the map mutex and otherwise changed under the
  script's own mutex (sources/utils.c:70-75 and 97-101); each change is taken to be atomic.
- A thread that yields while another one can go on lets at least one step happen; scripts launch
  finitely many playback threads and workers.
- Counters stay below 2^32; the exactness theorems bound each of them by the number of threads or
  clients. The job id, which does wrap, is modelled with its wrap.
- Only the map mutex is held while another mutex is taken, so it is explicit; sections under the
  other mutexes are single steps.

## What the code does not guarantee

Each of these is stated with its exact condition, and with a run or an input that shows it.

- A lookup between a script's last reading of `sem` and its deletion from the map can leave its
  caller with a freed script: `Registry.DanglingIff`, `Registry.LateLookupInWindow`,
  `Registry.LateLookupTouchesFreed`.
- The map can be used after the shutdown destroyed it: `MapLifetime.MapUsedAfterDestroyIff`, with
  runs by a foreground script (`Registry.ForegroundOutlivesMap`), by a message
  (`MapLifetime.MessageAfterShutdown`) and by a launch (`MapLifetime.LaunchAfterShutdown`).
- Two streams of one session can play together: `Playback.SecondClaimIff`, `Playback.OneStreamIff`,
  with the runs `Playback.OverlapPlaysTwoStreams`, `Playback.ShutdownPlaysTwoStreams` and
  `Playback.UnreadyPlaysTwoStreams`.
- A stream paused for a foreground playback is not always resumed:
  `Playback.PausedStreamResumesIff`, `Playback.OvertakenStaysPaused`.
- Results pushed between the cleaning and the termination of a CURL queue are leaked:
  `CurlJobs.TeardownAccounting`, `CurlJobs.ResultLeftBehind`. So are messages accepted between
  draining and detaching an inbox: `ChatInbox.TeardownAccounting`, `ChatInbox.MessageLeftBehind`; but
  only for a Chat that goes while its script is running: `InboxLifetime.LeaksOnlyWhileRunning`.
- The title of a chat message is never freed: `ChatMessages.SendAndFree`.
- The 2^32nd job gets id 0, which scripts read as a failure: `CurlJobs.JobIdsUsableIff`,
  `CurlJobs.IdsRunOut`.
- Growing the line buffer is right only when it is exactly full:
  `SocketReader.JsSocket.ReadString`, `SocketReader.StraddlingChunk`.
- A bare `-` raises a playback level, and a text without a sign is an offset, not a level:
  `Playback.TextLowersIff`.
- Starting a stream reports success although nothing was started exactly if its parameters cannot be
  allocated: `SessionObject.JsSession.StreamStart`.
- The wait for recognized speech can end too early: `SpeechDetect.NeverEarlyIff`,
  `SpeechDetect.EarlyWait`.

## Model

| member | source | states |
|---|---|---|
| `Playback.CountersExact` | sources/js_session_misc.c:24-45 | In every reachable state `wlock` equals the references the playback threads still owe (start hold and nested hold) plus the one just taken for a launch, `bg_streams` equals the threads between install and uninstall, a published handle belongs to such a thread, and whoever may touch the session keeps it from being freed; so neither guarded decrement ever saturates |
| `Playback.DrainedStaysDrained` | sources/js_session.c:1950-1973 | Once the finalizer has cleared `fl_ready` and read zero, `wlock` stays 0, no handle is published, no thread may touch the session, and the only steps left are threads reporting themselves finished |
| `Playback.AfterClearOnlyReleases` | sources/js_session.c:1950 | From the clearing of `fl_ready` on, references are only given back and no playback thread is added |
| `Playback.HandleIsItsControls` | sources/js_session.c:684-743 | In every reachable state the settings of a playback handle are what exactly those controls made of a fresh handle, in order, that were issued while it was the installed one, the pause and resume around foreground playbacks included |
| `Playback.ControlsReachPlaying` | sources/js_session_bgs.c:81-125 | A handle changes only by a control of the script, while it is installed and its thread is playing |
| `Playback.PausedStreamResumesIff` | sources/js_session.c:516-545 | A stream playing when a foreground playback begins is paused in every state of it, and afterwards runs again if and only if its handle is still the installed one |
| `Playback.OvertakenStaysPaused` | sources/js_session.c:539-545 | A run in which a paused stream is overtaken by another one and stays paused while it plays on |
| `Playback.TextLowersIff` | sources/js_session.c:701-713 | A level given as text is always an offset; a bare sign of either kind adds one, so a text lowers the level if and only if its number is negative |
| `Playback.SecondClaimIff` | sources/js_session_bgs.c:74-84 | With at most one thread playing or about to, a step leads to two if and only if a thread stops waiting beside a running stream for a shutdown or an unready session, or sees no stream while another is between that look and its install |
| `Playback.OneStreamIff` | sources/js_session_bgs.c:74-84 | Throughout a run at most one thread plays or is about to if and only if no step of the run is such a step |
| `Playback.ClaimsCanPlay` | sources/js_session_bgs.c:81-84 | All threads that play or are about to can be brought to play at once |
| `Playback.OverlapPlaysTwoStreams` | sources/js_session_bgs.c:74-84 | Two threads that both see no stream play together, and only the second handle stays reachable |
| `Playback.ShutdownPlaysTwoStreams` | sources/js_session_bgs.c:179-181 | A thread that stops waiting because the module shuts down plays beside a stream that is still installed |
| `Playback.UnreadyPlaysTwoStreams` | sources/js_session_bgs.c:179-181 | The same through the clearing of `fl_ready` |
| `Playback.StopFailedNeverInstalls` | sources/js_session_bgs.c:75-78 | A thread whose stop timed out never had and never will have its handle installed |
| `Playback.RankFalls` | sources/js_session_bgs.c:34-133 | A playback thread only moves forward; the wait of at most 500 turns included, its remaining steps are bounded |
| `Playback.PotentialStep` | sources/js_session_bgs.c:171-192 | Every step that does not begin a script call uses up some of a bound on the steps of the session, and a call adds a fixed amount |
| `PlaybackControl.StepsCancelIff` | sources/js_session.c:701-706 | A signed step and its opposite cancel if and only if the number is not zero |
| `PlaybackControl.CallAll` | sources/js_session.c:672-747 | For any sequence of calls on one installed handle the stream is left paused as the last pause or resume says, and speed and volume each are the last number given for them plus the offsets given since, whatever else was called between |
| `PlaybackControl.LastNumberAndOffsets` | sources/js_session.c:693-713 | Adjusting a level by any sequence of numbers and texts leaves the last number plus the sum of the offsets after it |
| `PlaybackControl.PrintedOffset` | sources/js_session.c:701-710 | A printed number read back moves the level by what it says, with or without a plus sign, and a signed zero moves it up by one |
| `SessionObject.OthersLeaveMine` | sources/js_session_bgs.c:34-133 | Any number of steps of the other threads leaves a thread's position alone, and for the script thread also the ready flag, the number of threads and their handles |
| `SessionObject.OthersLower` | sources/js_session_bgs.c:34-133 | The playback threads have only so many steps left, which is what ends the drain loop |
| `SessionObject.HolderKeepsSession` | sources/js_session_misc.c:24-37 | A thread that owes a reference keeps the session unfreed |
| `SessionObject.NoneTouches` | sources/js_session.c:1956-1973 | After the finalizer no thread stands where it could touch the session |
| `SessionObject.JsSession.Take` | sources/js_session_misc.c:24-37 | A reference is taken exactly if the session is ready |
| `SessionObject.JsSession.Release` | sources/js_session_misc.c:39-45 | A reference is given back |
| `SessionObject.JsSession.StreamStop` | sources/js_session_bgs.c:171-192 | The wait for a running stream ends within 500 yields under any interference; it fails only after all 500, and only success leads on to installing |
| `SessionObject.JsSession.InstallHandle` | sources/js_session_bgs.c:81-84 | Counts the stream and publishes the handle of this thread's frame, as the step system says |
| `SessionObject.JsSession.UninstallHandle` | sources/js_session_bgs.c:122-125 | Takes the stream off the count and withdraws the handle |
| `SessionObject.JsSession.SessionPlaybackPerform` | sources/js_session_bgs.c:51-133 | Every path through a playback ends owing only the start reference, and an empty path never plays |
| `SessionObject.JsSession.BgPlaybackThread` | sources/js_session_bgs.c:34-49 | The thread body ends with both references given back and the thread reported finished |
| `SessionObject.JsSession.StreamStart` | sources/js_session_bgs.c:138-169 | Success is reported unless the pool fails; a thread is launched exactly if neither the pool nor the parameters fail and the session is ready, and otherwise nothing changes |
| `SessionObject.JsSession.PauseBackground` | sources/js_session.c:516-523 | Exactly the installed stream is paused |
| `SessionObject.JsSession.FgPlayback` | sources/js_session.c:516-545 | The stream installed at the start runs at the end if and only if it is still the installed one, what is installed at the end of a playback that paused something runs, and other streams' handles are untouched |
| `SessionObject.JsSession.DrainReferences` | sources/js_session.c:1957-1972 | The drain loop ends, with no reference out and no thread left that could touch the session |
| `SessionObject.JsSession.Finalizer` | sources/js_session.c:1941-1973 | The finalizer ends with the session freed, no reference out and no thread left that could touch it |
| `CurlJobs.JobsAreConserved` | sources/js_curl.c:65-96 | In every reachable state each started job is at exactly one of the places running, queued, delivered, cleaned and dropped; at most 128 results are queued; results are delivered in push order |
| `CurlJobs.JobIdsUsableIff` | sources/js_curl_misc.c:24-33 | The ids of the started jobs are nonzero and distinct if and only if fewer than 2^32 jobs were started |
| `CurlJobs.IdsRunOut` | sources/js_curl_misc.c:24-33 | A run with 2^32 started jobs, the last of which has id 0 |
| `CurlJobs.ActiveJobsExact` | sources/js_curl_misc.c:110-126 | `active_jobs` equals the workers that have not reported their job finished plus the job being launched, so its guarded decrement never saturates |
| `CurlJobs.DrainedStaysDrained` | sources/js_curl.c:619-633 | Once the finalizer read zero no job becomes active, and every step left is a worker reporting its thread finished |
| `CurlJobs.TeardownAccounting` | sources/js_curl.c:614-617 | When the object is freed each result was delivered, cleaned or dropped, or is one of at most 128 left in the queue; these are exactly the ones pushed after the cleaning saw the queue empty, so nothing is left if and only if nothing was pushed since |
| `CurlJobs.LeftoversPushedInWindow` | sources/js_curl.c:614-617 | A result left behind was pushed while the finalizer stood between cleaning and terminating the queue |
| `CurlJobs.ResultLeftBehind` | sources/js_curl.c:71-77 | A run in which a result pushed in that window is neither delivered nor freed |
| `CurlJobs.PotentialStep` | sources/js_curl.c:65-96 | Every step that does not begin a script call uses up some of a bound on the steps of the object |
| `CurlObject.OthersLeaveMine` | sources/js_curl.c:65-85 | The workers leave the script thread's fields and what it has popped alone, and can refill the queue only at the cost of workers |
| `CurlObject.OthersLower` | sources/js_curl.c:65-85 | The workers have only so many steps left, which is what ends the drain loop |
| `CurlObject.WorkerKeepsObject` | sources/js_curl_misc.c:120-126 | A worker that has not reported its job finished keeps the object unfreed |
| `CurlObject.JsCurl.JobNextId` | sources/js_curl_misc.c:24-33 | The next id, wrapping at 32 bits |
| `CurlObject.JsCurl.RequestExecAsync` | sources/js_curl.c:87-96 | A worker is always launched, with the returned id |
| `CurlObject.JsCurl.GetBgRequestResult` | sources/js_curl.c:550-574 | The oldest result not yet taken, or nothing exactly if none is queued |
| `CurlObject.JsCurl.PushResult` | sources/js_curl.c:71-77 | The result is queued exactly if the queue has room and is not terminated, and otherwise dropped, on an object that is not freed |
| `CurlObject.JsCurl.RequestExecThread` | sources/js_curl.c:65-85 | A worker runs from launch to its end under interference, with its result pushed or dropped |
| `CurlObject.JsCurl.JobFinished` | sources/js_curl_misc.c:120-126 | Exactly one active job less, on an object that is not freed: the worker's last access to it |
| `CurlObject.JsCurl.QueueClean` | sources/js_curl_misc.c:128-136 | The cleaning loop ends although workers go on pushing, with the queue empty at its last look |
| `CurlObject.JsCurl.DrainJobs` | sources/js_curl.c:619-633 | The drain loop ends, with no active job |
| `CurlObject.JsCurl.Finalizer` | sources/js_curl.c:603-633 | The finalizer ends with the object freed and no active job; at most 128 results stay in the terminated queue |
| `Requests.BodyIsFirst` | sources/js_curl.c:379-400 | The body is that of the first string or non-empty buffer argument |
| `Requests.CurlConf.FieldAdd` | sources/curl_hlp.c:179-201 | The chain of fields stays acyclic with the tail last and grows by exactly this field at its end, or not at all without memory |
| `Requests.CurlConf.WalkFields` | sources/curl_hlp.c:138-149 | The walk visits every field once in chain order |
| `Requests.CurlConf.TakeArguments` | sources/js_curl.c:377-421 | For any arguments of perform the request gets the first body and the fields in argument order, and fails exactly if a field finds no memory |
| `Requests.CurlConf.TakeBgArguments` | sources/js_curl.c:477-521 | The separate loop of performBg comes to the same |
| `Requests.CurlConf.ReadCallback` | sources/curl_hlp.c:37-49 | Each call continues where the last one stopped, fills the room offered unless the body ends, and returns nothing only for no room or at the end |
| `Requests.CurlConf.Upload` | sources/curl_hlp.c:37-49 | For any sequence of sizes the chunks concatenate to a prefix of the body, and to all of it once a call with room returned nothing |
| `Requests.SendBuffer.ReadCallback` | sources/js_jsonrpc_curl.c:42-52 | What is returned and what remains make up what was there; less than the room is returned only at the end |
| `Requests.CurlConfigAlloc` | sources/curl_hlp.c:203-252 | Exactly the asked-for pool and buffer are acquired, or nothing when any allocation fails |
| `Requests.CurlConfigFree` | sources/curl_hlp.c:254-267 | Gives back the buffer and, if it is its own, the pool |
| `Requests.CreqConfAlloc` | sources/js_curl_misc.c:60-93 | A request owns one pool and one buffer, or nothing stays acquired |
| `Requests.CreqConfFree` | sources/js_curl_misc.c:95-108 | Gives back exactly what the request owns, and tolerates a missing one |
| `Requests.SetUpForeground` | sources/js_curl.c:368-438 | The setup of perform: complete exactly if nothing is refused, and owning what was acquired otherwise too |
| `Requests.SetUpBackground` | sources/js_curl.c:468-538 | The same for performBg |
| `Requests.BothWays` | sources/js_curl.c:358-548 | The same call in the foreground and in the background is refused in the same cases and otherwise comes to the same body, fields and settings |
| `Requests.PerformRequest` | sources/js_curl.c:358-453 | Whatever fails, everything acquired is destroyed exactly once |
| `Requests.PerformBgRequest` | sources/js_curl.c:458-548 | Either refused with nothing left acquired, or launched with a complete request owned by the worker; the script is told the job id, but not of a job with id 0 |
| `Requests.ExecRequest` | sources/js_curl.c:65-85 | The worker destroys the request and leaves only an accepted result |
| `Requests.BackgroundRoundTrip` | sources/js_curl.c:458-548 | From call to completion a background request leaves behind exactly an accepted result |
| `Registry.RegistryIsSafe` | sources/mod_quickjs.c:878-891 | Every script in the map has a live pool in every reachable state, and a sweep holding the map mutex works only on a counted script in the map, with no hypothesis on lookups |
| `Registry.ReferencesOfFreedScript` | sources/utils.c:63-102 | `sem` equals the references out; when a script's pool is gone every reference still out was taken after the drain loop's zero reading, and the freed script was touched only if a lookup came late |
| `Registry.LateLookupInWindow` | sources/mod_quickjs.c:827-839 | A late reference comes from a lookup between the zero reading and the deletion from the map |
| `Registry.DanglingIff` | sources/mod_quickjs.c:824-846 | When every command has ended, a script was accessed after its pool was destroyed if and only if `sem` was not zero at the destruction |
| `Registry.FreedScriptTouchedIff` | sources/mod_quickjs.c:841-846 | The same reckoned from any later state in which the script is still untouched |
| `Registry.LateLookupTouchesFreed` | sources/mod_quickjs.c:920-932 | A run in which an `int` command looks a script up in that window and then works on freed memory |
| `Registry.ActiveThreadsExact` | sources/utils.c:26-46 | `active_threads` equals the background scripts between launch and `thread_finished` plus the other live detached threads; foreground scripts are not counted |
| `Registry.ForegroundOutlivesMap` | sources/mod_quickjs.c:837-839 | A run in which a foreground script deletes itself from the map after shutdown destroyed it |
| `MapLifetime.MapUsedAfterDestroyIff` | sources/mod_quickjs.c:1121-1137 | Once shutdown has read zero, the map can still be used after its destruction if and only if a script is in it or a client can still reach it: a message not begun, or a command past its look at the shutdown flag |
| `MapLifetime.ZeroReadingLeaves` | sources/mod_quickjs.c:1121-1133 | At the zero reading itself a script is in the map exactly if a foreground script has not deleted itself or a launch stands behind its insertion |
| `MapLifetime.MessageAfterShutdown` | sources/mod_quickjs.c:974-1000 | A run without any script in which a message looks into the destroyed map |
| `MapLifetime.LaunchAfterShutdown` | sources/mod_quickjs.c:872 | A run in which `run-bg` inserts into the destroyed map and starts its script after shutdown has returned |
| `MapSweep.ShutdownTellsReady` | sources/mod_quickjs.c:1108-1119 | Over whole runs: when shutdown goes on to wait, every script that stayed in the map and ready throughout its sweep has its interrupt flag set |
| `ModuleObject.OthersLeaveMine` | sources/utils.c:63-120 | Whatever the other threads do, a thread's position, requested interrupts and, under the map mutex, the map stay as they are |
| `ModuleObject.OthersUseUp` | sources/utils.c:104-120 | The others have only so many steps left, which is what ends the waits |
| `ModuleObject.QuickjsModule.AwaitMap` | sources/utils.c:70-75 | Waiting for the map mutex ends with the mutex free |
| `ModuleObject.HolderCounted` | sources/utils.c:94-102 | A client that owes a reference is counted in the script's semaphore |
| `ModuleObject.QuickjsModule.ScriptLookup` | sources/utils.c:63-78 | Finds exactly a script in the map and takes a reference to it |
| `ModuleObject.QuickjsModule.ScriptSemTake` | sources/utils.c:80-92 | Takes a reference exactly if the script is in the map and ready |
| `ModuleObject.QuickjsModule.ScriptSemRelease` | sources/utils.c:94-102 | Gives back exactly one reference; the guard of the decrement never fails |
| `ModuleObject.QuickjsModule.ScriptWaitUnlock` | sources/utils.c:104-120 | The wait ends, at a zero semaphore |
| `ModuleObject.QuickjsModule.UseFound` | sources/mod_quickjs.c:925-930 | `int` succeeds exactly for a ready script not on its way out and then sets its interrupt flag and nothing else |
| `ModuleObject.QuickjsModule.LookupCommand` | sources/mod_quickjs.c:920-936 | A lookup command ends with its reference given back; an `int` it reported began before shutdown, and the interrupt is still requested at its end |
| `ModuleObject.QuickjsModule.SweepMap` | sources/mod_quickjs.c:879-891 | Every script that was in the map and ready since the sweep began is visited, none twice, and all visited are alive and in the map until the mutex is released, a shutdown having told each to stop |
| `ModuleObject.QuickjsModule.ListScripts` | sources/mod_quickjs.c:875-893 | The command ends without the mutex; the scripts it shows are alive then, each shown once, and all that were ready throughout are among them; it shows nothing once shutdown began |
| `ModuleObject.QuickjsModule.ModuleShutdown` | sources/mod_quickjs.c:1100-1140 | It ends with the map destroyed; on the way there is a state in which every script that stayed ready through the sweep is told to stop, and after it, still waiting, one in which no thread is active |
| `ModuleObject.QuickjsModule.AwaitThreads` | sources/mod_quickjs.c:1121-1133 | The wait ends, at a state with no active thread |
| `ModuleObject.QuickjsModule.InsertScript` | sources/mod_quickjs.c:655-663 | A launch leaves the script in the map with its pool, and a failing one leaves neither |
| `ModuleObject.QuickjsModule.StartScript` | sources/mod_quickjs.c:665-669 | The thread counter goes up exactly for a background script |
| `ModuleObject.QuickjsModule.ScriptLaunch` | sources/mod_quickjs.c:599-683 | A script is started exactly if the command began before shutdown and the launch did not fail |
| `ModuleObject.QuickjsModule.StartCheck` | sources/mod_quickjs.c:695-707 | The script goes on exactly if it is not destroyed, the module does not shut down and its runtime could be created |
| `ModuleObject.QuickjsModule.RunToEnd` | sources/mod_quickjs.c:685-826 | Every path reaches the teardown with `fl_destroyed` set |
| `ModuleObject.QuickjsModule.DeleteScript` | sources/mod_quickjs.c:837-839 | The script leaves the map while its pool is still live |
| `ModuleObject.QuickjsModule.ThreadFinished` | sources/utils.c:42-46 | The counter goes down by exactly one; the guard of the decrement never fails |
| `ModuleObject.QuickjsModule.ScriptThreadBody` | sources/mod_quickjs.c:685-852 | A script's thread ends, with the script out of the map and its pool destroyed |
| `ModuleList.Add` | sources/utils-list.c:86-110 | Appends exactly the given item, and refuses a missing list or missing data |
| `ModuleList.ForEach` | sources/utils-list.c:66-84 | The callback gets each index with its datum in order of insertion |
| `ModuleList.Destroy` | sources/utils-list.c:47-64 | Runs each destructor once in order of insertion and frees each node once, after its successor was read |
| `ModuleList.DestroyedAsOftenAsAdded` | sources/utils-list.c:47-64 | Each datum is destroyed as often as it was added with a destructor |
| `ModuleList.LoadAndClose` | sources/mod_quickjs.c:841-843 | Every module handle registered with a script is closed exactly once, in order of registration |
| `ChatInbox.RefNamesLiveQueue` | sources/js_chat.c:183-186 | A published queue reference names a live queue, no push reaches a queue that is gone, and a script has at most one live Chat |
| `ChatInbox.DeliveredInOrder` | sources/js_chat.c:66-86 | While a Chat lives and is not being finalized, delivered followed by queued messages equal the accepted ones in order; a message is on an inbox's log exactly if its sender was told so |
| `ChatInbox.LogGrows` | sources/js_chat.c:66-86 | Accepted and delivered messages only grow, and an inbox that is gone never changes |
| `ChatInbox.TeardownAccounting` | sources/js_chat.c:175-194 | When an inbox is gone every accepted message was delivered, freed or left in its queue; the leftovers are exactly those accepted after the finalizer saw the queue empty, so none is left if and only if none was accepted since |
| `ChatInbox.LeftoversAcceptedInWindow` | sources/js_chat.c:177-186 | A message left behind was accepted while the finalizer stood between draining and detaching |
| `ChatInbox.MessageLeftBehind` | sources/mod_quickjs.c:1005-1009 | A run in which a message reported as accepted is neither delivered nor freed |
| `InboxLifetime.LeaksOnlyWhileRunning` | sources/mod_quickjs.c:1000-1001 | Over whole runs of inbox, senders and script: a message left behind was accepted while the script itself was running and its Chat stood between drain and detach |
| `InboxLifetime.RuntimeFreesAll` | sources/mod_quickjs.c:827-831 | A Chat finalized while the runtime is freed leaves no message behind |
| `InboxObject.OthersLeaveMine` | sources/mod_quickjs.c:1000-1019 | Senders only append to the queue and its log, and each push uses up a sender |
| `InboxObject.DrainLowers` | sources/js_chat.c:175-180 | Popping in the drain loop lowers what can still come, senders included |
| `InboxObject.ScriptInbox.NewChatObject` | sources/js_chat.c:197-249 | Refused exactly if a queue is published or anything the constructor needs fails, with everything given back and nothing published; otherwise a new live inbox is published |
| `InboxObject.ScriptInbox.GetMessage` | sources/js_chat.c:66-86 | The oldest message not yet received, or nothing exactly if none is queued; other inboxes stay as they are |
| `InboxObject.ScriptInbox.Drain` | sources/js_chat.c:175-180 | The drain loop ends although senders go on pushing, with the queue empty at its last look |
| `InboxObject.ScriptInbox.Finalizer` | sources/js_chat.c:165-194 | Ends with the reference cleared, the inbox gone and exactly the messages accepted after the drain left in it |
| `InboxObject.ScriptInbox.SendMessage` | sources/mod_quickjs.c:1000-1019 | Success is reported exactly if the message went into an inbox, otherwise the sender is refused |
| `ChatMessages.Alloc` | sources/js_chat.c:329-344 | The copies hold what was sent, an empty text counting as missing |
| `ChatMessages.Free` | sources/js_chat.c:316-327 | Gives back everything but the title of the sender |
| `ChatMessages.SendAndFree` | sources/js_chat.c:316-344 | A message sent and freed leaves nothing behind if and only if it carried no title |
| `SpeechDetect.NothingAfterFinish` | sources/js_session_asr.c:44 | Once detection has ended, no further inputs change the state, the result or what the caller's callback was shown |
| `SpeechDetect.TextIffDetectedFirst` | sources/js_session_asr.c:57-75 | A text is the result exactly if the first input that ends detection is detected speech with that body |
| `SpeechDetect.Detection.InputCallback` | sources/js_session_asr.c:41-104 | For any inputs the state is determined by the first one that ends detection, the caller sees exactly the typed speech events and digits up to it, and the callback breaks off exactly there and at a start of speech before it |
| `SpeechDetect.SleptUnique` | sources/js_session_asr.c:166-185 | How often the wait loop sleeps is determined by what happens around it |
| `SpeechDetect.TimeoutBounds` | sources/js_session_asr.c:159-174 | With a timeout and a clock advancing at least a second per sleep the loop sleeps at most twice the timeout as reckoned in 32 bits, and at most once if that is 0 |
| `SpeechDetect.NeverEarlyIff` | sources/js_session_asr.c:159 | No wait is left for its deadline before twice the timeout is over if and only if the timeout is below 2^31 |
| `SpeechDetect.DeadlineInTimeIff` | sources/js_session_asr.c:159 | The deadline itself lies at twice the timeout exactly below 2^31 |
| `SpeechDetect.EarlyWait` | sources/js_session_asr.c:159-174 | For every timeout from 2^31 on, a wait that ends after a single sleep, 2^32 - 1 seconds before twice the timeout is over |
| `SpeechDetect.SteadySleeps` | sources/js_session_asr.c:166-174 | On a clock advancing exactly a second per sleep, a wait that its deadline ends sleeps exactly twice the timeout as reckoned in 32 bits, or once |
| `SpeechDetect.SmallTimeout` | sources/js_session_asr.c:159-174 | Below 2^31 that is at most twice the timeout |
| `SpeechDetect.WaitForResult` | sources/js_session_asr.c:166-185 | The loop sleeps exactly as often as specified, feeds every input to the callback and ends with the specified status |
| `SpeechDetect.PlayAndDetectSpeech` | sources/js_session_asr.c:107-211 | On every path the status, the text, exactly one pause after recognition started, and success whenever detection ended |
| `SocketReader.RestIsLost` | sources/js_socket.c:378-383 | What was sent is the text, the delimiter, the rest of its chunk, which is lost, and what the next call can read |
| `SocketReader.Misfit` | sources/js_socket.c:387-390 | A piece that begins before the buffer is full and ends behind it makes the text fit nowhere |
| `SocketReader.FullChunksFit` | sources/js_socket.c:359-395 | Four full chunks of 1024 bytes fill the first buffer, after which a line of any length is read |
| `SocketReader.StraddlingChunk` | sources/js_socket.c:387-392 | Chunks of 1000 bytes are a stream for which growing the buffer writes past the new allocation |
| `SocketReader.JsSocket.FindDelimiter` | sources/js_socket.c:378-383 | The place of the first delimiter of a chunk, or its length |
| `SocketReader.JsSocket.Store` | sources/js_socket.c:385-396 | Storing a piece works exactly if it fits or the buffer is full, and then appends it |
| `SocketReader.JsSocket.ReadString` | sources/js_socket.c:347-409 | For any stream the call keeps to its buffer if and only if the text fits or some chunk ends where the buffer does, and then returns exactly the bytes before the first delimiter, or what came before a well-ended stream; the buffer never shrinks |
| `Objects.LiveThreadsStep` | sources/utils.c:26-46 | `launch_thread` and `thread_finished` are called exactly where a detached thread of an object comes or goes |
| `Objects.LiveThreadMoves` | sources/js_session_bgs.c:34-49 | A live playback thread or worker can always take its next step |
| `Objects.ScriptMovesWhenAlone` | sources/js_curl.c:619-633 | Without live threads the counter a finalizer waits for is zero, so the script inside an operation can move |
| `WholeSystem.ThreadCountExact` | sources/utils.c:26-46 | Over whole runs of scripts, clients and objects together, `active_threads` is exactly the background scripts, playback threads and workers that have not called `thread_finished` |
| `WholeSystem.TouchingThreadKeepsScript` | sources/mod_quickjs.c:824-846 | As long as a detached thread may touch its object, the object, its script's runtime and the script's pool are live |
| `WholeSystem.StepLowers` | sources/mod_quickjs.c:1121-1133 | Every step of the whole module uses up some of a bound that no step can outweigh |
| `WholeSystem.SomebodyMoves` | sources/mod_quickjs.c:1100-1133 | No deadlock: in every reachable state with anything unfinished some thread can take a step that is not a yield |
| `FairRuns.EveryFairRunEnds` | sources/mod_quickjs.c:1121-1133 | Every fair run reaches a state from which nothing changes: all commands answered, `active_threads` zero, all objects finalized, every launched script gone with no reference out |
| `FairRuns.MovesAreBounded` | sources/utils.c:104-120 | Any run, fair or not, has at most as many moves as its first state has potential |
| `FairRuns.NothingAfterRest` | sources/mod_quickjs.c:1121-1140 | When everything has ended no step is possible |

## Left out

- JS argument conversion, property accessors, class registration and the JSON printing of js_jsonrpc.c: glue without an invariant across functions.
- libcurl options, media, codecs, speech engines and the host's channel calls: foreign code, each a step with an arbitrary result.
- Database, XML, Event, File and FileHandle classes: thin wrappers that would add only easy members.
- js_eventhandler.c: nothing in the repository delivers events by what it stores.
- sources/llist.c: the same list code, not part of the build.
- Logging, configuration reading, path handling and the examples: no protocol.
- Nested foreground runs through `apiExecute`, hangup hooks, and JavaScript callbacks that run during a foreground playback or inside the Chat constructor (a `prototype` getter could construct a second Chat there): they depend on host threading or re-entrance that is not modelled.
- The CF_BREAK channel flag that asks a running stream to stop: only its effect, that a stream may end at any time, is modelled.
- The uninitialised global object on an early exit of `script_thread`, the failure paths of the session constructor, and the memory pool that a `js_session_bgs_stream_start` without a thread leaves behind.
- `curl_method2id` and `curl_method2name`: plain table lookups.
- The recursion-check macros around speech detection: they belong to the host.
- Integer overflow of `atoi` and of playback levels: undefined in C, unbounded here.
- ModuleObject.QuickjsModule.LookupCommand: for a message it states only that the reference is given back; the push is `InboxObject.ScriptInbox.SendMessage`.
- SocketReader.JsSocket.ReadString: stops where the original would write past its allocation; what happens then is undefined.
- SpeechDetect.PlayAndDetectSpeech: what happens around it is a given sequence that ends with the channel going down, so a channel that never hangs up and has no timeout is not covered.
- The inbox is composed with its script (`InboxLifetime.dfy`) but is not part of the composition with objects: apart from the drain loop, which ends by itself, nothing in it waits.
- FairRuns.EveryFairRunEnds: assumes finitely many scripts and commands, and a bound on the operations each script performs.
