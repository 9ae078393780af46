# Clock synchronisation in the video latency toolkit, in Dafny

The toolkit measures the latency of a video pipeline: a generator paints a
timestamp (and optionally a timeserver URL) into the picture, and an interpreter
reads it back and compares it with "true time". This project models the part that
establishes true time and turns payloads into latencies, and the small buffer and
arithmetic routines around it:

- `SignalInterpreter` (signal_interpreter.dfy): the interpreter of the pipe tool.
  Each payload's URL is checked; the interpreter then reuses the current
  synchronisation attempt or switches target, which mints a new generation
  ("cookie"), hands the installed sources to disposal, clears them and starts a new
  attempt. An attempt commits only under the generation it was started with, and a
  payload raises a latency only if the generation it captured is still current.
  The cookie is a `nat` that grows by one per switch. Every critical section under
  the lock (`Update`, `Commit`, `Resume`), and the teardown, which takes no lock
  (`Teardown`), is a pure step over `Session` and a method of class `Interpreter`
  that updates the fields in place and is proved equal to that step. `Run` interleaves Add calls, attempt completions and
  payload continuations in any order, which is how the concurrency is modelled.
  The event log records `Error` and `Latency` events.
- `TrueTimePanel` (true_time_panel.dfy): the GUI panel's version of the same
  machine, with no lock. It starts no attempt for a cleared URL and remembers the
  error text. It also has the pure choice of the status text.
- `NtpTimeSource` (ntp_time_source.dfy): the background refresh loop. One loop pass
  is a step with an abstract outcome (no address, an exception, a correction),
  cancellation is a flag, and the reported time is the local clock plus the offset.
- `FpsCounter` (fps_counter.dfy): a queue of timestamps pruned from the front by a
  one-second window.
- `Nv12LuminanceSource` (nv12_luminance_source.dfy): copying one row of luminance
  into the caller's array or a fresh one.
- `InterpreterPipe` (program.dfy): the NV12 sample size in unchecked 32-bit
  arithmetic, and the checks made on the parsed command line.
- `TimeSources` (time_sources.dfy): the values these share (URL, installed source,
  attempt outcome, disposal order).

Behaviours of the code that the model keeps as written:

- Before the first switch the stored task is unset. A payload without a URL then
  takes the "same target" branch, awaits the unset task (which throws inside the
  detached task) and raises nothing (`FirstNullPayloadIsDropped`), although the
  source's comment on the URL field (Interpreter.Pipe/SignalInterpreter.cs:66-67)
  says that no URL means external synchronisation, which would give
  `now - ticks`.
- Switching to no URL still starts an attempt. That attempt reads the scheme of the
  null URL, so it fails at once under the current generation. It raises an error
  and stores `false`. Only the payload that caused the switch proceeds; later
  payloads without a URL reuse the `false` and are dropped (`SwitchToNoUrl`).
- After a failed attempt the target is stuck: payloads with the same URL reuse the
  failed result until the URL changes (`FailedTargetIsStuck`).
- A payload whose ticks are outside the `DateTimeOffset` range makes the latency
  computation throw, so nothing is raised for it.
- The NTP loop signals "first sync" with `SetResult`. On every later successful
  refresh that call throws. The offset has already been updated, but the pass is
  logged as a failure (`CorrectionSetsOffset`).
- An attempt on an NTP server (scheme `ntp`) only waits, under the 10-second
  deadline, for the new source's first sync. The source's loop catches every DNS
  and exchange error and completes the signal only with a result, so such an
  attempt installs the source or times out; it never reports the exception
  (`NtpTimeSource.FirstSyncWait`, `NtpAttemptNeverRaisesFailure`). An unreachable
  NTP server therefore shows as a timeout after 10 seconds.
- The sample size is computed in unchecked `int` arithmetic. A 65536 x 65536 frame
  passes the argument checks and its size wraps to 0 (`LargeFrameSampleSizeWraps`).

## Model

| member | source | states |
|---|---|---|
| `TimeSources.SourceFor` | Interpreter.Pipe/SignalInterpreter.cs:170-198 | the scheme `ntp` selects the NTP source, every other scheme the DASH clock, for the same object |
| `TimeSources.Disposals` | Interpreter.Pipe/SignalInterpreter.cs:141-146 | exactly the set DASH and NTP sources are handed to disposal, at most two, DASH first |
| `SignalInterpreter.AdmitUrl` | Interpreter.Pipe/SignalInterpreter.cs:95-102 | a payload is rejected iff its URL is present, non-empty and not an absolute URI; a missing or empty URL means no target; otherwise the target is the parsed URL |
| `SignalInterpreter.Interpreter.constructor` | Interpreter.Pipe/SignalInterpreter.cs:30-33 | a new interpreter has no target, generation 0, no sources, no task and no events, and is coherent |
| `SignalInterpreter.Interpreter.Admit` | Interpreter.Pipe/SignalInterpreter.cs:97-102 | a rejected URL raises exactly one format error and changes nothing else; an admitted one changes nothing |
| `SignalInterpreter.Interpreter.UpdateSynchronizedTime` | Interpreter.Pipe/SignalInterpreter.cs:129-161 | the fields, the returned generation and the awaited task are those of the `Update` step; the returned generation is the current one; the same URL changes nothing; another URL raises the generation and clears the source |
| `SignalInterpreter.UpdateCoherent` | Interpreter.Pipe/SignalInterpreter.cs:129-161 | the target decision keeps the session invariant (task belongs to the current generation, sources agree with the scheme, an installed source iff the current attempt succeeded) |
| `SignalInterpreter.SameTargetChangesNothing` | Interpreter.Pipe/SignalInterpreter.cs:133-137 | the same URL returns the current generation and the stored task (the unset task before any switch) and changes no field |
| `SignalInterpreter.SwitchMintsFreshGeneration` | Interpreter.Pipe/SignalInterpreter.cs:139-160 | a different URL mints a generation above every earlier one, sets the target, clears the three sources, hands the old ones to disposal, returns the new generation; a URL awaits its attempt, no URL raises the null-target error, stores false and lets the triggering payload proceed |
| `SignalInterpreter.Interpreter.CompleteSync` | Interpreter.Pipe/SignalInterpreter.cs:164-225 | the fields and the result are those of the `Commit` step; a superseded generation returns false and raises nothing and installs nothing |
| `SignalInterpreter.CommitCoherent` | Interpreter.Pipe/SignalInterpreter.cs:164-225 | the end of an attempt keeps the session invariant |
| `SignalInterpreter.StaleCommitChangesNothing` | Interpreter.Pipe/SignalInterpreter.cs:176-218 | on success, timeout or failure alike, a completion under a superseded generation returns false and changes nothing but its own task's result |
| `SignalInterpreter.CurrentSuccessInstalls` | Interpreter.Pipe/SignalInterpreter.cs:170-198 | a success under the current generation installs exactly one source, NTP or DASH by the scheme, and returns true, raising nothing |
| `SignalInterpreter.NtpAttemptNeverRaisesFailure` | Interpreter.Pipe/SignalInterpreter.cs:170-211 | under the current generation an attempt on an NTP server installs its source exactly when some pass of the source's loop before the deadline got a correction, and otherwise raises the timeout error, never another exception |
| `SignalInterpreter.CurrentFailureRaisesOneError` | Interpreter.Pipe/SignalInterpreter.cs:201-223 | a timeout or failure under the current generation raises exactly one error (timeout or the exception) and returns false, with no source |
| `SignalInterpreter.Interpreter.Continue` | Interpreter.Pipe/SignalInterpreter.cs:104-124 | the continuation after the await is the `Resume` step, raising at most one event |
| `SignalInterpreter.ResumeCoherent` | Interpreter.Pipe/SignalInterpreter.cs:104-124 | the continuation keeps the session invariant |
| `SignalInterpreter.ResumeRaisesAtMostOneLatency` | Interpreter.Pipe/SignalInterpreter.cs:109-123 | a payload changes nothing or, only under the current generation, raises one latency equal to the installed source's reading (or the wall clock without a source) minus its ticks |
| `SignalInterpreter.FailedTargetIsStuck` | Interpreter.Pipe/SignalInterpreter.cs:133-136 | after the current attempt failed, a payload with the same URL starts nothing and raises nothing |
| `SignalInterpreter.FirstNullPayloadIsDropped` | Interpreter.Pipe/SignalInterpreter.cs:129-137 | before any switch, a payload without a URL awaits the unset task and raises nothing |
| `SignalInterpreter.SwitchToNoUrl` | Interpreter.Pipe/SignalInterpreter.cs:148-160 | switching from a URL to none raises the null-target error, the triggering payload raises `wall - ticks`, and a later payload without a URL is dropped |
| `SignalInterpreter.Interpreter.Dispose` | Interpreter.Pipe/SignalInterpreter.cs:35-42 | teardown disposes the DASH clock then the NTP source and changes no other field |
| `SignalInterpreter.StepCoherent` | Interpreter.Pipe/SignalInterpreter.cs:91-126 | any step of any interleaving keeps the invariant, and every waiting payload's generation is at most the current one |
| `SignalInterpreter.StepLatencyBudget` | Interpreter.Pipe/SignalInterpreter.cs:91-126 | a step raises at most one latency and only by ending a waiting payload; an Add creates at most one waiting payload |
| `SignalInterpreter.LatenciesNeverExceedAdds` | Interpreter.Pipe/SignalInterpreter.cs:91-126 | over any interleaving, latencies raised plus payloads still waiting never exceed those before plus the number of Add calls |
| `SignalInterpreter.AtMostOneLatencyPerAdd` | Interpreter.Pipe/SignalInterpreter.cs:91-126 | from a new interpreter, N calls to Add raise at most N latencies |
| `SignalInterpreter.GenerationNeverDecreases` | Interpreter.Pipe/SignalInterpreter.cs:70-72 | no interleaving lowers the current generation |
| `TrueTimePanel.StatusText` | Common.Gui/TrueTimePanel.xaml.cs:149-167 | the label shows the error message for an error status and the formatted time for a time status |
| `TrueTimePanel.Panel.constructor` | Common.Gui/TrueTimePanel.xaml.cs:62-77 | a new panel has no URL, no cookie, no sources, no error and no attempt |
| `TrueTimePanel.Panel.SetTimeserverUrl` | Common.Gui/TrueTimePanel.xaml.cs:33-54 | the same URL changes nothing; another URL mints a generation above every running attempt's, clears the error and the three sources, hands the old sources to disposal, and starts an attempt only for a set URL |
| `TrueTimePanel.Panel.CompleteSync` | Common.Gui/TrueTimePanel.xaml.cs:79-122 | a superseded attempt changes no field; under the current one success installs the source by scheme, a timeout sets "Clock sync timeout", another failure its message; the invariant (error and source exclusive) is kept |
| `TrueTimePanel.SwitchToNtpServer` | Common.Gui/TrueTimePanel.xaml.cs:79-122 | after a switch to an NTP server, a late success of the previous attempt installs nothing; the panel then shows the NTP source's time exactly when some pass before the deadline got a correction, and otherwise "Clock sync timeout", never another error |
| `TrueTimePanel.Panel.TrueTime` | Common.Gui/TrueTimePanel.xaml.cs:60 | true time is unknown exactly when no source is installed, and otherwise that source's reading |
| `TrueTimePanel.Panel.Status` | Common.Gui/TrueTimePanel.xaml.cs:149-167 | priority no URL, then error, then synchronising, then the time; the time is shown only with no error and an installed source, and equals `TrueTime` |
| `NtpTimeSource.CurrentTime` | Common/NtpTimeSource.cs:82-84 | the reported time minus the local clock is the offset |
| `NtpTimeSource.NtpSource.constructor` | Common/NtpTimeSource.cs:23-29 | a new source has offset zero, no first sync, no cancellation, and a running loop |
| `NtpTimeSource.NtpSource.GetCurrentTime` | Common/NtpTimeSource.cs:84 | the local clock plus the current offset |
| `NtpTimeSource.NtpSource.Iterate` | Common/NtpTimeSource.cs:45-73 | one check of the loop condition and one pass of the body are the `Iteration` step |
| `NtpTimeSource.NtpSource.PerformBackgroundUpdates` | Common/NtpTimeSource.cs:43-77 | the loop over the outcomes of successive passes ends in the state `Iterations` gives |
| `NtpTimeSource.NtpSource.Cancel` | Common/NtpTimeSource.cs:35 | cancellation sets the stop flag and nothing else |
| `NtpTimeSource.NtpSource.DisposeAsync` | Common/NtpTimeSource.cs:33-38 | after disposal the flag is set and the loop has ended |
| `NtpTimeSource.ErrorsKeepLoopAndOffset` | Common/NtpTimeSource.cs:49-64 | no address or an exception logs one failure, keeps the offset and the first-sync flag, and the loop goes on |
| `NtpTimeSource.CorrectionSetsOffset` | Common/NtpTimeSource.cs:55-64 | a correction completes the first-sync flag and makes the reported time local clock plus the correction; after the first sync the pass is logged as failed |
| `NtpTimeSource.OffsetIsLastCorrection` | Common/NtpTimeSource.cs:45-64 | while uncancelled, the loop keeps running and its offset is the last correction, or the earlier offset without one |
| `NtpTimeSource.FirstSyncStays` | Common/NtpTimeSource.cs:89-91 | once completed, FirstSyncPerformed stays completed |
| `NtpTimeSource.EndedLoopIsFinal` | Common/NtpTimeSource.cs:45-77 | once the loop has ended, no further pass changes anything |
| `NtpTimeSource.CancelledLoopKeepsOffset` | Common/NtpTimeSource.cs:45-73 | after cancellation no pass runs: the offset and log never change and the next check ends the loop |
| `NtpTimeSource.DisposedOffsetIsFrozen` | Common/NtpTimeSource.cs:33-38 | after disposal the reported time is the local clock plus the offset at disposal, however many passes follow |
| `NtpTimeSource.FirstSyncIffCorrection` | Common/NtpTimeSource.cs:45-64 | while the loop runs uncancelled, FirstSyncPerformed is completed after a run of passes exactly when it was before or one of the passes got a correction |
| `NtpTimeSource.FirstSyncWait` | Interpreter.Pipe/SignalInterpreter.cs:172-174 | waiting on FirstSyncPerformed under a deadline ends in success or a timeout, never in another exception |
| `NtpTimeSource.FirstSyncWaitSucceedsIffCorrection` | Common/NtpTimeSource.cs:45-64 | the wait succeeds with the new source exactly when some pass before the deadline got a correction, and times out otherwise |
| `NtpTimeSource.IterationsSplit` | Common/NtpTimeSource.cs:45-73 | running two sequences of passes in turn is running their concatenation |
| `FpsCounter.PrunedIsSuffix` | Common/FpsCounter.cs:36-40 | pruning removes a prefix: the result is a suffix no longer than the queue |
| `FpsCounter.PrunedRemovesExactlyExpiredPrefix` | Common/FpsCounter.cs:36-40 | every removed entry had expired and the oldest kept entry, if any, satisfies oldest + 1 s >= now |
| `FpsCounter.PruneStopsAtFirstLive` | Common/FpsCounter.cs:38-39 | a queue whose oldest entry has not expired is kept whole, expired entries behind it included |
| `FpsCounter.PruneIdempotent` | Common/FpsCounter.cs:38-39 | for a fixed `now`, pruning twice is pruning once |
| `FpsCounter.PrunedOrderedQueueIsLive` | Common/FpsCounter.cs:29-40 | for timestamps in clock order, no entry left after pruning has expired |
| `FpsCounter.Counter.constructor` | Common/FpsCounter.cs:34 | a new counter's queue is empty |
| `FpsCounter.Counter.AddEvent` | Common/FpsCounter.cs:29-32 | exactly one timestamp is appended at the back |
| `FpsCounter.Counter.Prune` | Common/FpsCounter.cs:36-40 | the queue becomes `Pruned` of the old queue |
| `FpsCounter.Counter.MovingAverageFps` | Common/FpsCounter.cs:19-27 | the rate is the queue length after pruning, at most the length before |
| `Nv12LuminanceSource.Nv12LuminanceSource.constructor` | Interpreter.Pipe/Nv12LuminanceSource.cs:25-29 | the source keeps the caller's sample buffer and the dimensions |
| `Nv12LuminanceSource.Nv12LuminanceSource.Matrix` | Interpreter.Pipe/Nv12LuminanceSource.cs:12 | the matrix is the sample buffer itself |
| `Nv12LuminanceSource.Nv12LuminanceSource.GetRow` | Interpreter.Pipe/Nv12LuminanceSource.cs:14-21 | a short row is replaced by a fresh array of exactly `width`, a long one is reused; the first `width` bytes are the row's luminance, bytes beyond are unchanged, the sample is not written |
| `InterpreterPipe.Wrap32` | Interpreter.Pipe/Program.cs:28-35 | 32-bit results lie in the `int` range, agree with the exact result modulo 2^32, and equal it when it fits |
| `InterpreterPipe.Half` | Interpreter.Pipe/Program.cs:34 | integer halving truncates toward zero |
| `InterpreterPipe.AdjustedHeightIsEven` | Interpreter.Pipe/Program.cs:32 | the adjusted height is even, the height or the next number below the largest `int`, and wraps at it |
| `InterpreterPipe.SampleSizeExact` | Interpreter.Pipe/Program.cs:28-35 | within the no-overflow bound the luminance is width*height, the rest width*ceil(height/2), the sample their sum, at least the luminance, and 3*width*height/2 for even heights |
| `InterpreterPipe.RowsFitInSample` | Interpreter.Pipe/Program.cs:28-35 | within the bound, every row `0 <= y < height` lies within the sample, as the row copy demands |
| `InterpreterPipe.LargeFrameSampleSizeWraps` | Interpreter.Pipe/Program.cs:28-35 | a 65536 x 65536 frame is accepted and its sample size wraps to 0 |
| `InterpreterPipe.ValidateArguments` | Interpreter.Pipe/Program.cs:160-184 | the arguments are accepted iff parsing succeeded, there are arguments, no help was asked for, width and height are positive and nothing is left over; usage iff no arguments or help; an option error iff parsing failed or, past usage, a size is not positive, the width checked first; unknown parameters iff everything else holds but arguments are left over |

## Left out

- Threads, `Task.Run`, the lock and `await`: each critical section is one atomic step, and an interleaving is a sequence of steps (`Run`). Disposal handed to a detached task is recorded in `disposed`; it is never awaited.
- `Uri.TryCreate` is a parameter `tryCreate`. URL equality is equality of the parsed value (text and scheme); `System.Uri` normalisation is not modelled.
- `SynchronizedTimeSource.CreateAsync` is an abstract outcome: `Synced`, `TimedOut` (the 10-second deadline) or `Failed`. For an NTP server the outcome is `FirstSyncWait` of the passes the new source's loop runs before the deadline, and each pass's DNS lookup and exchange is an abstract `Outcome`. The 60-second refresh wait is the gap between loop steps.
- `SignalInterpreter.Commit`, `SignalInterpreter.Run` and `TrueTimePanel.Panel.CompleteSync` accept any `SyncOutcome`, including `Failed` for an NTP server, which the code cannot produce; the lemmas proved over them therefore also cover outcomes that do not occur.
- Clocks are parameters: the wall clock, and the reading of the installed source, which for a DASH clock is the library's time.
- The NTP source that an attempt creates before its first sync is not tracked. The code never disposes it when the attempt is superseded or times out, and the model does not show that leak.
- `TrueTimePanel.Panel.CompleteSync`: the code's task reads `_cookie` and `_timeserverUrl` when it runs, not when the URL is assigned, and the panel has no lock. The model assumes each attempt belongs to the assignment that started it. Races between the UI thread and the tasks are not modelled.
- The panel's timer, label, gauge and timestamp formatting are left out; formatting is the `format` parameter of `StatusText`.
- `NtpTimeSource.NtpSource.Iterate`: log messages are kinds, not text. A cancellation during the DNS lookup appears as a `Fault` pass followed by the stop.
- `FpsCounter.Counter.MovingAverageFps`: the rate is a `nat` count, not a `double`. The code reads the clock again on every pruning step; the model reads it once.
- `Nv12LuminanceSource.Nv12LuminanceSource.GetRow`: the model covers only calls whose row lies within the sample and a non-null `row` other than the sample buffer. The code throws for a null `row` and for a row outside the sample (the block copy), and it computes `y * Width` in 32-bit `int` arithmetic, which can wrap; these paths are not modelled. `RowsFitInSample` shows the pipe tool's own frames stay inside only under `FitsInt32`; larger frames pass the argument checks (`LargeFrameSampleSizeWraps`) and reach the throwing path.
- `FpsCounter.Counter.Prune`: each prune runs alone. The code's queue is concurrent, but peeking at the oldest entry and dequeuing are two separate operations, so two prunes at once can both see the same expired entry, and the second dequeue then removes the next entry, which may still be live. `PrunedRemovesExactlyExpiredPrefix` holds for one prune at a time. The caller in the generator reads the rate from one thread.
- The payload's JSON codec and the `DashTimeSource` forwarder are not modelled; the payload is a datatype of ticks and an optional URL text. The shown `SignalPayload` class has no `TimeserverUrl` property, although the interpreter reads one.
- `Main`'s stdin loop, barcode decoding, JSON output, the option parser's mechanics and the debugger flag are left out; `ValidateArguments` starts from the parser's result.
- Tick values are integers; the clock readings are assumed to be valid `DateTimeOffset` values.
