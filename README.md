# Picoscope sample pipeline in Dafny

This project models the sample-handling core of the Picoscope firmware. Picoscope is a Raspberry Pi Pico W
oscilloscope that captures 12-bit ADC samples by DMA and streams them to a browser over a WebSocket.
The model covers:

- **The triple-buffer DMA pool** (`AdcPool`, src/drivers/adc_dma.c). Three 1024-sample buffers, each tagged
  EMPTY/FILLING/FULL/PROCESSING. The model covers the write index, the last-completed index, the per-buffer
  timestamps, the overrun counter and the running flag. It also covers the completion interrupt, initialisation,
  start and stop, the zero-copy "take latest" operation and release.
- **The zero-copy handoff** (`ScopeData`, src/core/scope_data.c). A "ready" slot and an "in use" slot sit between
  the acquisition task and the web-server task. Statistics are computed lazily, and a stale-pointer guard decides
  whether they are committed.
- **The trigger/resample framer** (`Trigger`, src/core/trigger.c). It covers Q16 linear interpolation and the
  fixed-length resampler. It also covers the first-edge search with a hysteresis band, the span and search-window
  arithmetic, and the result record.
- **The earlier double-buffer driver** (`DoubleBuffer`, src/adc_dma.c). A two-buffer ring with separate read and
  write indices and a copying reader.
- **The command handler** (`CommandHandler`, src/core/command_handler.c). It holds the trigger configuration,
  sample rate and running flag, updated by browser commands, and echoes a status back.
- **The stream side of the web server** (`WebServer`, `Packet`, `MgHandler`; src/net/web_server.c and
  src/net/mg_handler.c). It covers the min/max decimator and the four-slot WebSocket connection table. It also
  covers URI matching, the capture age, the packed 536-byte frame the browser decodes, and event routing.

How the model is built:

- **Value plus class.** Each stateful C file is modelled twice.
  - A value datatype (`PoolState`, `Scope`, `Ring`, `Config`) has pure step functions. Their contracts state what
    the firmware promises, and the lemmas relate several steps.
  - A class holds the firmware's own arrays and fields (`Pool`, `Arbiter`, `RingDriver`, `Handler`, `Registry`).
    Its methods are proved to perform exactly those steps (`ensures Abs() == Step(old(Abs()), ...)`).
- **Buffer pointers** are buffer indices:
  - `None` is NULL;
  - `Some(i)` with `i < 3` is `xBuffers[i].usData`;
  - any larger index is a pointer into no pool buffer.
- **Connections** are natural-number identities.
- **Integer widths** are explicit (`IsU16`, `IsU32`, `% U32`). The firmware's single-precision floats are exact
  `real`s.

The ownership claim of src/core/scope_data.h:13-22 is the predicate `ScopeData.Inv`. It says every buffer named by a
slot is PROCESSING, the two slots name different buffers, and at most the write buffer is FILLING. It is proved to
hold across the acquisition cycle, reads, DMA completions and start. It fails across a stop taken while a slot holds
a buffer: stop resets every tag to EMPTY (src/drivers/adc_dma.c:197-205).
`StopKeepsInvIffNothingHeld` and `StopStartOverwritesInUse` show this. After a stop and a restart, the next
completion overwrites the samples the consumer is streaming.
It also fails across a start while capture already runs: a run command with the flag set calls the start
function with no running guard (src/core/command_handler.c:76-79, src/drivers/adc_dma.c:160-166). Start makes
buffer 0 FILLING even when the consumer holds it, and the old write buffer stays FILLING too.
`RestartWhileRunningBreaksInv` shows this; `StartKeepsInv` covers only a start from the stopped state.

Some behaviour of the code worth knowing:

- **Trigger window.** A rising ramp that crosses 2048 at index 512 of a 1024-sample capture does not trigger at
  the default 30 % pretrigger with 256 points: the code limits the search to indices 231..485
  (`RampMissedAtDefaultPretrigger`). With a 50 % pretrigger it triggers at 512, crossing at 512.0
  (`RampFoundAtHalfPretrigger`).
- **Rate clamp.** The timebase command clamps the sample rate to [1 kHz, 500 kHz] (src/core/command_handler.c:59).
- **Wire frame.** The packed `ScopePacket_t` carries the timestamp, age, sample count, three statistics and 256
  points, and no sample-rate field (src/net/web_server.c:22-30).

## Model

| member | source | states |
|---|---|---|
| Fixed.SumBounds | src/core/scope_data.c:30-35 | a sum of 16-bit samples lies in [0, n*65535], so the 32-bit sum over 1024 samples never wraps |
| Fixed.FoldBounds | src/core/scope_data.c:31-38 | the scan minimum (from 4095) is below every sample and the maximum (from 0) above it; each is its start value or a sample; over a non-empty capture min <= max |
| AdcPool.PowerOn | src/drivers/adc_dma.c:13-21 | static initial state: every buffer EMPTY, stopped, no buffer FILLING |
| AdcPool.Completed | src/drivers/adc_dma.c:27-64 | completion marks the write buffer FULL, stamps it and records it as last completed; DMA data lands only there; overruns grows by exactly 1 iff the next buffer is PROCESSING; while running the write index moves to the next buffer (or stays when that one is PROCESSING) and the new write buffer becomes FILLING; stopped, the index stays; PROCESSING buffers keep their tag; "only the write buffer is FILLING" is preserved |
| AdcPool.Initialized | src/drivers/adc_dma.c:150-157 | initialisation leaves every buffer EMPTY with timestamp 0, both indices 0, overruns 0, stopped; sample memory untouched |
| AdcPool.Started | src/drivers/adc_dma.c:160-176 | start sets running, write index 0 and buffer 0 FILLING whatever it held; other tags unchanged |
| AdcPool.Stopped | src/drivers/adc_dma.c:178-206 | stop is a no-op when not running; otherwise every tag EMPTY (held buffers included), timestamps 0, indices 0, stopped |
| AdcPool.Taken | src/drivers/adc_dma.c:209-227 | take succeeds iff both out-parameters are present and the last completed buffer is FULL; it then becomes PROCESSING and its index and timestamp are returned; otherwise nothing changes |
| AdcPool.Released | src/drivers/adc_dma.c:230-242 | release turns the PROCESSING buffer it is given EMPTY; NULL, foreign pointers and non-PROCESSING buffers change nothing |
| AdcPool.ReleaseIdempotent | src/drivers/adc_dma.c:230-242 | releasing twice equals releasing once |
| AdcPool.OverrunBlocksTake | src/drivers/adc_dma.c:40-53 | after an overrun while running, the last completed buffer is FILLING again and take fails |
| AdcPool.CompletionThenTake | src/drivers/adc_dma.c:32-53 | without an overrun, the next take returns exactly the completed buffer, its samples and its timestamp |
| AdcPool.Pool.constructor | src/drivers/adc_dma.c:13-21 | the static arrays start as PowerOn |
| AdcPool.Pool.DmaHandler | src/drivers/adc_dma.c:27-64 | the interrupt handler performs Completed on the driver's arrays |
| AdcPool.Pool.Init | src/drivers/adc_dma.c:71-158 | stops a running capture, then performs Initialized |
| AdcPool.Pool.ResetBuffers | src/drivers/adc_dma.c:150-153 | the reset loop leaves every tag EMPTY and every timestamp 0 |
| AdcPool.Pool.StartContinuous | src/drivers/adc_dma.c:160-176 | performs Started |
| AdcPool.Pool.Stop | src/drivers/adc_dma.c:178-206 | performs Stopped |
| AdcPool.Pool.GetLatestBufferPtr | src/drivers/adc_dma.c:209-227 | returns and performs Taken |
| AdcPool.Pool.ReleaseBuffer | src/drivers/adc_dma.c:230-242 | the search loop performs Released |
| ScopeData.CalculateStatistics | src/core/scope_data.c:27-45 | a NULL slot or one with valid statistics is returned unchanged; otherwise the slot gets the average, minimum and maximum in volts of its samples and is marked valid; min <= max |
| ScopeData.ScopeInit | src/core/scope_data.c:13-19 | both slots empty (NULL, statistics invalid); the pool is untouched |
| ScopeData.Published | src/core/scope_data.c:52-69 | exactly the previous ready buffer, if any, goes back to the driver; ready then holds the new pointer and timestamp with statistics invalid; in use is untouched |
| ScopeData.Promoted | src/core/scope_data.c:86-98 | with a ready buffer, the old in-use buffer is released and ready moves to in use, emptying ready; without one nothing changes |
| ScopeData.Committed | src/core/scope_data.c:114-126 | computed statistics are committed only if in use still names the buffer they were computed for |
| ScopeData.Got | src/core/scope_data.c:79-132 | NULL output: false, no change; otherwise promotion happens, and the result is true iff in use then holds a buffer; the snapshot is that slot with its timestamp, carrying statistics computed from its own buffer when requested and not yet valid, the cached ones otherwise |
| ScopeData.Acquired | src/core/scope_data.h:13-15 | the producer cycle: a FULL last-completed buffer becomes PROCESSING and is published with its timestamp; otherwise nothing changes |
| ScopeData.ReadTwiceSameBuffer | src/core/scope_data.c:88-104 | two reads with no publish between them return the same buffer and release nothing the second time |
| ScopeData.PublishTwiceDropsFirst | src/core/scope_data.c:55-62 | of two publishes only the second stays ready; the first buffer is EMPTY again in the pool |
| ScopeData.AcquiredKeepsInv | src/core/scope_data.h:13-22 | the acquisition cycle keeps the ownership invariant |
| ScopeData.GotKeepsInv | src/core/scope_data.h:17-22 | a read keeps the ownership invariant |
| ScopeData.CompletionKeepsInv | src/core/scope_data.h:19-22 | DMA completions keep the invariant and never change the samples of a buffer a slot names |
| ScopeData.StartKeepsInv | src/drivers/adc_dma.c:160-166 | starting a stopped capture keeps the invariant |
| ScopeData.RestartWhileRunningBreaksInv | src/drivers/adc_dma.c:160-166 | a start while running with buffer 0 in use breaks the invariant, and the old write buffer stays FILLING |
| ScopeData.StopKeepsInvIffNothingHeld | src/drivers/adc_dma.c:197-205 | stop keeps the invariant exactly when neither slot holds a buffer |
| ScopeData.StopStartOverwritesInUse | src/drivers/adc_dma.c:197-205 | a buffer in use across stop and start can be handed back to DMA, and the next completion overwrites it |
| ScopeData.Arbiter.constructor | src/core/scope_data.c:7-11 | both static slots start empty |
| ScopeData.Arbiter.Init | src/core/scope_data.c:13-19 | performs ScopeInit and clears the task handle |
| ScopeData.Arbiter.SetWebServerHandle | src/core/scope_data.c:22-24 | records the handle only |
| ScopeData.Arbiter.PublishBuffer | src/core/scope_data.c:52-69 | performs Published on the pool and slots; wakes the web task iff a handle is set |
| ScopeData.Arbiter.GetLatestScopeData | src/core/scope_data.c:79-132 | returns and performs Got |
| ScopeData.Arbiter.CommitStats | src/core/scope_data.c:114-126 | performs Committed and returns the in-use slot |
| Trigger.DefaultConfig | src/core/trigger.c:58-67 | the defaults are well formed, with a 12-bit level and a pretrigger in [0, 0.9] |
| Trigger.InitDefault | src/core/trigger.c:58-67 | a present configuration becomes the defaults; NULL is a no-op |
| Trigger.LerpU16 | src/core/trigger.c:13-16 | the 32-bit Q16 blend is a 16-bit value; frac 0 gives a exactly; frac <= 1.0 gives a value between a and b |
| Trigger.LerpInRange | src/core/trigger.c:13-16 | for frac in [0, 1.0] the weighted sum plus rounding does not wrap in 32 bits, the blend lies between a and b, and frac 0 gives a |
| Trigger.ReadLerpQ16 | src/core/trigger.c:19-24 | at or past index n-1 the last sample is returned; every read lies between the smallest and largest of the n samples |
| Trigger.Resampled | src/core/trigger.c:27-34 | exactly dstLen outputs, each between the smallest and largest source sample |
| Trigger.ResampledBy | src/core/trigger.c:30-33 | for a given Q16 step: exactly dstLen outputs, each between the smallest and largest source sample |
| Trigger.DecimateResampleLinear | src/core/trigger.c:27-34 | NULL pointers or a zero span or length write nothing; otherwise dst[..dstLen] is Resampled and the rest of dst is unchanged |
| Trigger.ResampleInto | src/core/trigger.c:30-33 | the loop starting half a step in and advancing one wrapping step per output leaves dst[..dstLen] equal to ResampledBy, the rest of dst unchanged |
| Trigger.BandLo | src/core/trigger.c:41 | the lower band edge is level - hysteresis, floored at 0 |
| Trigger.BandHi | src/core/trigger.c:42 | the upper band edge is level + hysteresis, capped at 4095 |
| Trigger.FirstCrossing | src/core/trigger.c:43-54 | the result is -1 or a crossing index in the range, and no earlier index crosses |
| Trigger.FindTriggerSpec | src/core/trigger.c:39-55 | -1 when end <= begin+1; otherwise the smallest crossing index strictly between begin and end; -1 iff there is none |
| Trigger.CrossFrac | src/core/trigger.c:47-50 | the crossing fraction is clamped to [0, 1] (0 for a flat pair) |
| Trigger.CrossPos | src/core/trigger.c:51 | the sub-sample crossing lies between i-1 and i |
| Trigger.FindTrigger | src/core/trigger.c:39-55 | returns FindTriggerSpec, and the crossing position exactly on a hit; NULL source gives -1 |
| Trigger.ScanEdges | src/core/trigger.c:43-54 | the scanning loop returns the first crossing from begin+1 (FirstCrossing), with CrossPos on a hit and no position otherwise |
| Trigger.Span | src/core/trigger.c:81-86 | 1 <= span <= srcLen; span == srcLen for short input; otherwise a whole multiple of dstLen, at least dstLen, leaving room for one more step when srcLen >= 2*dstLen |
| Trigger.ClampPretrigger | src/core/trigger.c:88-90 | the fraction is clamped to [0, 0.9] and unchanged inside it |
| Trigger.PlanFor | src/core/trigger.c:88-98 | pre in [0, span]; startMax = srcLen - span; begin = max(pre, 1); end = min(srcLen-1, startMax + pre) |
| Trigger.FoundIndex | src/core/trigger.c:100-107 | a hit only when the mode is not NONE and the range is non-empty, strictly inside it, at a band crossing |
| Trigger.StartF | src/core/trigger.c:109-117 | the window start lies in [0, startMax] and is 0 without a trigger |
| Trigger.StartQ16 | src/core/trigger.c:119 | the Q16 start is a 32-bit value and, below 2^32, x * 65536 rounded to nearest with halves up |
| Trigger.FrameResult | src/core/trigger.c:78-123 | len = span, outCount = dstLen, the window fits the capture, triggered iff the index is non-negative; no trigger gives index -1 and start 0; a trigger needs mode not NONE |
| Trigger.FrameSamples | src/core/trigger.c:125 | exactly dstLen points, each between the capture's minimum and maximum |
| Trigger.PlaceWindow | src/core/trigger.c:88-117 | the search and clamping compute FoundIndex and StartF |
| Trigger.BuildFrame | src/core/trigger.c:75-129 | false, nothing written, on NULL (either or both arrays) or zero-length arguments; otherwise the result is FrameResult and dst holds FrameSamples |
| Trigger.NoneModeFreeRuns | src/core/trigger.c:101 | with mode NONE the frame is untriggered and starts at 0 |
| Trigger.AutoIsNormal | src/core/trigger.c:101 | AUTO and NORMAL produce identical frames |
| Trigger.PretriggerClamped | src/core/trigger.c:88-90 | any pretrigger fraction >= 0.9 gives the same frame as 0.9 |
| Trigger.PlanClamped | src/core/trigger.c:88-98 | any pretrigger fraction >= 0.9 gives the same plan as 0.9 |
| Trigger.PretriggerHonoured | src/core/trigger.c:94-114 | a crossing at least the pretrigger length into the capture puts the window start exactly that length before it |
| Trigger.RampMissedAtDefaultPretrigger | src/core/trigger.c:94-101 | with the defaults the ramp crossing at 512 lies outside the search range: untriggered, start 0, span 768 |
| Trigger.RampFoundAtHalfPretrigger | src/core/trigger.c:94-121 | with a 50 % pretrigger the ramp triggers at 512, crossing at 512.0, window start 128 |
| DoubleBuffer.RingPowerOn | src/adc_dma.c:15-19 | static initial state: both buffers EMPTY, indices 0, stopped |
| DoubleBuffer.RingInitialized | src/adc_dma.c:121-123 | initialisation marks every buffer EMPTY and changes nothing else |
| DoubleBuffer.RingStarted | src/adc_dma.c:126-133 | running, both indices 0, buffer 0 FILLING |
| DoubleBuffer.RingStopped | src/adc_dma.c:145-148 | only the running flag is cleared |
| DoubleBuffer.RingCompleted | src/adc_dma.c:25-49 | the write buffer becomes FULL with the samples and timestamp; the write index advances mod 2; while running the new write buffer is FILLING whatever it held |
| DoubleBuffer.RingGot | src/adc_dma.c:150-166 | succeeds iff the read buffer is FULL; then returns its samples and timestamp, marks it EMPTY and advances the read index, with data, stamps, write index and running unchanged; otherwise nothing changes |
| DoubleBuffer.CompletionThenGot | src/adc_dma.c:30-34 | a completion into the buffer the reader waits on is returned by the next read |
| DoubleBuffer.UnreadFrameOverwritten | src/adc_dma.c:34-38 | two completions without a read lose the first frame: its buffer is FILLING again and the read fails |
| DoubleBuffer.RestartLeavesStaleFilling | src/adc_dma.c:126-148 | start, completion, stop and start leave both buffers FILLING |
| DoubleBuffer.RingDriver.constructor | src/adc_dma.c:15-19 | the static arrays start as RingPowerOn |
| DoubleBuffer.RingDriver.DmaHandler | src/adc_dma.c:25-49 | performs RingCompleted |
| DoubleBuffer.RingDriver.Init | src/adc_dma.c:121-123 | the reset loop performs RingInitialized |
| DoubleBuffer.RingDriver.StartContinuous | src/adc_dma.c:126-143 | performs RingStarted |
| DoubleBuffer.RingDriver.Stop | src/adc_dma.c:145-148 | performs RingStopped |
| DoubleBuffer.RingDriver.GetLatestBuffer | src/adc_dma.c:150-166 | performs RingGot; on success dest[..1024] holds the buffer's samples; the rest of dest is untouched, and all of it on failure |
| CommandHandler.Initialized | src/core/command_handler.c:11-17 | trigger defaults with level 1638 and hysteresis 200, 100 kHz, not running |
| CommandHandler.ClampRate | src/core/command_handler.c:57-59 | the rate is clamped into [1000, 500000] and unchanged inside it |
| CommandHandler.Executed | src/core/command_handler.c:19-103 | NULL arguments: false, nothing written or changed; unhandled type: false with a zeroed status, success false; handled type: true with the state echoed; the level stays a 12-bit code |
| CommandHandler.Apply | src/core/command_handler.c:25-90 | each handled command keeps the state well formed and the level a 12-bit code; only the timebase, sample-rate and run/stop commands call the driver; only the trigger commands change the trigger configuration, only the two rate commands the rate, only run/stop the running flag |
| CommandHandler.StatusOf | src/core/command_handler.c:105-113 | a present status gets success, the configuration and rate, and the driver's running flag; NULL is a no-op |
| CommandHandler.ModeAndEdgeAreLocal | src/core/command_handler.c:26-37 | the mode and edge commands change only that field, make no driver call, succeed and echo the new state |
| CommandHandler.LevelClamped | src/core/command_handler.c:39-46 | the stored level is min(count, 4095); no other field changes, the driver is not called, and the new state is echoed |
| CommandHandler.TimebaseRateClamped | src/core/command_handler.c:48-67 | the timebase command stores the time per division in ms and ClampRate of the needed rate, sends that rate to the driver and changes nothing else; an in-range rate is kept, 999 Hz gives 1000, 10 MHz gives 500000 |
| CommandHandler.SampleRateUnclamped | src/core/command_handler.c:69-74 | the sample-rate command stores and sends its value unclamped |
| CommandHandler.RunStopMatchesDriver | src/core/command_handler.c:76-85 | run/stop records the flag and starts or stops capture to match; the trigger configuration and rate are unchanged and the new state is echoed |
| CommandHandler.QueryStatusChangesNothing | src/core/command_handler.c:87-89 | the status command succeeds, echoes the state, calls no driver function and changes nothing |
| CommandHandler.VerticalScaleRejected | src/core/command_handler.c:91-94 | the vertical-scale command fails like an unknown type, leaving the state alone |
| CommandHandler.Handler.constructor | src/core/command_handler.c:7-9 | static state: zeroed trigger configuration, 100 kHz, stopped |
| CommandHandler.Handler.Init | src/core/command_handler.c:11-17 | performs Initialized |
| CommandHandler.Handler.Execute | src/core/command_handler.c:19-103 | returns and performs Executed |
| CommandHandler.Handler.GetStatus | src/core/command_handler.c:105-113 | returns StatusOf |
| WebServer.DecimationStep | src/net/web_server.c:129 | step = max(1, srcLen / dstLen) |
| WebServer.Decimated | src/net/web_server.c:125-136 | exactly dstLen points |
| WebServer.DecimatedBrackets | src/net/web_server.c:132-134 | an even point is at most every sample of its bin and is 4095 or one of them; an odd point is at least every sample of its bin and is 0 or one of them |
| WebServer.DecimatedU16 | src/net/web_server.c:131-134 | decimating 16-bit samples gives 16-bit points |
| WebServer.BinsTile | src/net/web_server.c:129-131 | with srcLen >= dstLen the bins are consecutive runs of exactly step samples |
| WebServer.ShortInputPadded | src/net/web_server.c:129-134 | with fewer samples than points each sample is its own bin, and empty bins give 4095 at even and 0 at odd points |
| WebServer.DecimateMinmax | src/net/web_server.c:125-136 | zero lengths write nothing; otherwise dst[..dstLen] is Decimated and the rest of dst is untouched |
| WebServer.DecimateInto | src/net/web_server.c:129-135 | the bin loop leaves dst[..dstLen] equal to Decimated and the rest of dst untouched |
| WebServer.BinExtremes | src/net/web_server.c:131-133 | the clipped bounds of bin i and the scan give the minimum and maximum of that bin |
| WebServer.ScanBin | src/net/web_server.c:132-133 | the inner scan yields the minimum and maximum of src[start..end), or 4095 and 0 when the range is empty |
| WebServer.BinIsRange | src/net/web_server.c:131 | bin i of the first n samples is exactly the range [i*step, min(i*step + step, n)) the scan visits |
| WebServer.SpikeLost | src/net/web_server.c:124-136 | a single 4000-count spike at index 0 shows in none of the 256 points |
| WebServer.SpikePointZero | src/net/web_server.c:129-134 | for that spike, each single point is 0 |
| WebServer.DecimatedPairs | src/net/web_server.c:124 | with min/max pairs, every sample of a bin with both points lies between that bin's pair |
| WebServer.SpikeKeptInPairs | src/net/web_server.c:124 | with pairs the spike is point 1 |
| WebServer.Added | src/net/web_server.c:103-108 | appends when fewer than 4 are registered, otherwise no change |
| WebServer.Removed | src/net/web_server.c:110-119 | deletes the first occurrence and keeps the order of the rest (multiset minus one); an unknown connection changes nothing |
| WebServer.AddThenRemove | src/net/web_server.c:103-119 | registering a new connection and removing it restores the table |
| WebServer.DuplicateSurvivesOneRemove | src/net/web_server.c:110-119 | a connection registered twice is still registered after one removal |
| WebServer.Registry.constructor | src/net/web_server.c:34-35 | every slot NULL, count 0 |
| WebServer.Registry.Add | src/net/web_server.c:103-108 | performs Added on the slot array, keeping the table a prefix of live entries followed by NULLs |
| WebServer.Registry.Remove | src/net/web_server.c:110-119 | the search and shift perform Removed: the first occurrence goes, the rest keep their order; an unknown connection changes nothing |
| WebServer.Registry.CloseGap | src/net/web_server.c:113-114 | shifting down from slot i and clearing the last live slot removes exactly entry i, keeping the table well formed |
| WebServer.Strlen | src/net/web_server.c:140 | the index of the first NUL |
| WebServer.UriEquals | src/net/web_server.c:139-142 | true iff the URI equals the string's characters before its NUL |
| WebServer.UriEqualsLiteral | src/net/web_server.c:139-142 | for a literal without NULs the match is plain equality |
| WebServer.Age | src/net/web_server.c:242 | now - stamp when stamp <= now, else 0; always a 32-bit value no larger than now |
| WebServer.AgeAcrossClockWrap | src/net/web_server.c:242 | across a 32-bit clock wrap the age is 0, not the 15 ms the wrapped difference gives |
| Packet.BuildPacket | src/net/web_server.c:239-249 | the frame carries the capture timestamp, its Age at now, 1024 as the sample count, the three statistics as given, and the capture decimated by Decimated to 256 points |
| Packet.Encode | src/net/web_server.c:22-30 | 536 bytes; sample i is the little-endian 16-bit value at offset 24 + 2i |
| Packet.Decode | src/net/web_server.c:88-90 | the browser's reads: a buffer shorter than 536 bytes gives nothing |
| Packet.DecodeEncode | src/net/web_server.c:22-30 | the browser decodes every well-formed frame field for field |
| Packet.EncodeDecode | src/net/web_server.c:88-90 | every 536-byte buffer re-encodes from its decoding: the layout has no padding or unused byte |
| MgHandler.Route | src/net/mg_handler.c:50-56 | "/" serves the page (200), "/ws" upgrades, anything else is 404, each iff |
| MgHandler.Respond | src/net/mg_handler.c:45-76 | an HTTP request gets Route of its URI; WebSocket messages are echoed with the same data; other events send nothing |
| MgHandler.TableAfter | src/net/mg_handler.c:59-73 | open registers; close unregisters only a WebSocket; all else leaves the table |
| MgHandler.OpenThenCloseRestores | src/net/mg_handler.c:14-30 | a WebSocket that opens and closes with room in the table leaves it as it was |
| MgHandler.FifthOpenDropped | src/net/mg_handler.c:14-19 | with four connections open a fifth is not recorded |
| MgHandler.EventHandler | src/net/mg_handler.c:42-77 | the handler's reply is Respond and the table update is TableAfter |

## Left out

- Hardware: the ADC, DMA, IRQ and FIFO programming (clock divider, channel claim, FIFO drain, DMA abort) is left
  out, and so is the DMA re-arm after a completion. A transfer is modelled as `DmaHandler(now, capture)`, where
  `capture` is the 1024 samples it wrote and `now` the millisecond clock.
- AdcPool.Pool.DmaHandler: the check of the DMA interrupt status flag is not modelled. Every call is a completed
  transfer.
- Concurrency: FreeRTOS critical sections, task notifications and interrupt preemption are left out. Each guarded
  block is one atomic step.
- ScopeData.Arbiter.PublishBuffer: the task notification is returned as a flag, not sent.
- Floating point: volts, the pretrigger fraction, the crossing fraction, `llroundf` and the float-to-int casts are
  exact `real` arithmetic, so single-precision rounding is not modelled.
- CommandHandler.Executed: the level and timebase float conversions are not computed. The command carries their
  integer results (`counts`, `neededRate`).
- CommandHandler.Executed: the status message text (`snprintf`) is not modelled.
- CommandHandler.Handler.GetStatus: `bAdcDmaIsRunning` has no body in the source, so its answer is a parameter.
- CommandHandler: `vAdcDmaSetSampleRate`, `vAdcDmaStartContinous` and `vAdcDmaStop`, called from the handler,
  become returned `Effect` values.
- CommandHandler: `pxCommandHandlerGetTriggerConfig` returns a pointer to the static configuration. The aliasing
  it creates is not modelled.
- CommandHandler.Handler.Init: `trigger_init_default` is not defined in the source files. It is modelled as the
  shown `vTriggerInitDefault`.
- `vScopeDataReleaseBuffer`, `ulAdcDmaGetSampleRate` and `ulAdcDmaGetMeasuredSampleRate` are declared without a
  body and are not part of this model.
- Trigger.BuildFrame: the sample rate argument and the smoothing policy are carried but never read, as in the
  source.
- Trigger.BuildFrame: the `(int)` cast of the 32-bit hit index is the identity for captures shorter than 2^31.
- Packet.BuildPacket: the three statistics are carried as their 32-bit float bit patterns. The conversion of
  volts to single precision is not modelled.
- Networking: Wi-Fi, lwIP, Mongoose, the `vWebServerTask` loop (polling, rate limiting, sending to every
  connection) and the embedded HTML/JavaScript page are left out. The page's little-endian reads are modelled
  only as `Packet.Decode`.
- `mg_calloc` and `mg_free` are allocator wrappers and are left out.
- The add, remove and URI functions of src/net/mg_handler.c are copies of those in src/net/web_server.c and are
  modelled once, in `WebServer`. The HTTP reply headers and page body are reduced to a status code and a flag.
- src/web_server.c, src/picoscope.c, picoscope.c and src/drivers/test_signal.c are bring-up code, not part of this
  model.

## Findings

| source | as written | input that shows it | evidently intended | confidence | as-written member | corrected member |
|---|---|---|---|---|---|---|
| src/net/web_server.c:130-134 | point i is bin i's minimum at even i and bin i's maximum at odd i, so an even bin reports only its minimum and an odd bin only its maximum | 1024 samples with 4000 at index 0 and 0 elsewhere, decimated to 256 points: every point is 0, and the spike is lost | "min/max-aware decimation: preserves peaks" (line 124): each bin contributes its minimum and its maximum as adjacent points, so every sample lies between its bin's pair | medium; not executed | WebServer.SpikeLost | WebServer.DecimatedPairs |

`WebServer.DecimateMinmax` keeps the behaviour as written, because the firmware runs it. `WebServer.DecimatedPairs`
is the corrected decimator, and `WebServer.SpikeKeptInPairs` shows the same spike surviving it.
