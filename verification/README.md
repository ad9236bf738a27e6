# Verified models of the Open Interface gateway and its devices

A Dafny model of the engines that carry speech, text and control between the gateway, the
handheld, the stick and the dashboard, with proofs of what each engine promises over every input
and every run. `dafny verify dfyconfig.toml` checks everything.

Code that only computes is modelled by functions. Code that updates fields or loops is modelled by
classes and methods of the same shape; each method is proved equal to a step of a specification, and
the promises are then proved about that specification by lemmas over unbounded runs.

## What is modelled

| modules | engine |
|---|---|
| `Segmenter`, `SegmenterTheorems`, `SegmenterCuts`, `SpeechRouting` | streamed reply text becomes speech units |
| `Handheld`, `Delivery`, `DeliveryInvariant`, `DeliveryTheorems` | delivery tasks, two stages of locks, one command channel per device, the handheld's chunk list |
| `Lines`, `Circle` | two line rasterisers and a circle |
| `Attention`, `AttentionTheorems`, `AttentionOrder` | who holds the attention, and who waits for it |
| `Sse`, `SseStandard`, `PiStream`, `PiRuns`, `ResponseCard` | event-stream parsing, reconciling deltas with snapshots, the card that shows the reply |
| `Wav`, `WavTheorems`, `Accumulator`, `Silence`, `SilenceTheorems`, `Loudness` | WAV files, chunking, down-mix and reassembly, silence |
| `Button`, `Firmware`, `FirmwareTheorems`, `FirmwareTaps`, `AudioCache`, `AudioStorage` | the stick: button, recording, audio cache and playback |
| `Dashboard`, `DashboardSync`, `Transcripts`, `TranscriptTheorems` | the projection, the poller and the browser's copy |
| `EndToEnd` | streamed reply to spoken units in order, synthesized speech to the handheld's file, microphone to speech recognition |
| `Arithmetic`, `Bytes`, `Common`, `Text` | shared definitions |

## Assumptions

- A device's command channel keeps its order; a command in it may be lost at any time. An answer
  "ok" means the device handled the command with success; any other outcome means nothing is known,
  so the task gives up while its last command may still arrive.
- A lock is handed to its waiters first come, first served, and tasks first run in the order of
  their creation, as `asyncio` documents. A step of the model runs a task between two suspensions.
- Stream ids are fresh: the stick makes one from its mode and the second, and two recordings with one
  id share a stream (`EndToEnd.SameIdIsShared`); with different ids they stay apart
  (`RecordingsStayApart`).
- Response ids are fresh; the number of the task that generated an id stands for it.
- The dictionary of the stick's audio cache lists its ids in the order they were put in. A plain
  dictionary of MicroPython, on which the stick runs, does not promise that; without it, playing
  without an id may choose any entry.
- Base64 (section 4 of RFC 4648) is an inverse pair, so payloads are byte strings.
- JSON decoding is a parameter (`loads`). Time is a parameter. Pixels are a trace.

## What the proofs found

The promises below hold on a condition only. Each "if and only if" and each "exactly" is a proved
equivalence, in the lemma that is named with it.

- **Empty device id.** `acquire_attention` tests the holder's id for truth, so a holder whose id is
  empty is not seen and a second device becomes active. An acquire keeps the invariant if and only
  if it does not take the attention from a holder with an empty id (`AttentionTheorems.AcquireKeeps`,
  `EmptyIdBreaksIt`), and a run keeps it all along if and only if none of its requests does
  (`WhenARunIsSound`).
- **Unknown waiters.** At a release a waiter gets the attention or goes on waiting if and only if
  it, or somebody before it in the queue, is known to the policy
  (`AttentionOrder.UnknownWaiterIsForgotten`). A denied request of a device the policy has no state
  for is queued as unknown (`UnknownRequestIsQueued`).
- **Requests at another priority.** A waiter is inserted by the requested priority and compared by
  the stored one. Queueing keeps the order exactly when the device is known and no other waiter is
  between the two priorities (`AttentionOrder.EnqueueInOrder`); a grant keeps it exactly when the
  device is not in the queue or its new priority passes no other waiter (`GrantInOrder`); a run
  keeps it exactly when each of its requests does (`EveryRunIsInOrder`). `OtherPriorityBreaksOrder`
  is a run that does not.
- **Holders that wait.** A grant leaves the device in the queue if it waited there
  (`AttentionOrder.WhenTheHolderWaits`), and a release then gives the attention back to it exactly
  when it is the first known waiter (`HolderComesBack`).
- **Lost time limits.** Over every run a holder's limit is the one its last request asked for when
  that was granted at once, and none when the attention was handed over to it from the queue
  (`AttentionTheorems.LimitIsTheGrantedOne`, `HandoverHasNoLimit`). A device none of whose requests
  is granted at once with a limit is never released by `check_timeouts` (`WaitersAreNeverTimedOut`).
- **Unused length.** `auto_release_timeout` is documented as the time before attention is released.
  Two settings make the same runs when both are zero or neither is, and a different run exists
  otherwise: it only switches the check on (`AttentionTheorems.LengthIsNotUsed`,
  `ZeroSwitchesChecksOff`). The model follows the code.
- **Another sample rate.** A begin is sent before anything is synthesized, and always says 22050.
  The samples are stored whole whatever their rate is, but the file the handheld saves is the
  synthesized one if and only if no header value hides the samples and its rate is 22050
  (`EndToEnd.SpeechArrivesWhole`); speech at 16000 is saved under another rate
  (`OtherRatesAreLost`).
- **Hidden "data".** `_extract_pcm_from_wav` searches for the first `data` from the start of the
  file. For mono 16-bit files it inverts `pcm_to_wav` if and only if 36 plus the size is not
  0x61746164 and the rate is none of 0x61746164, 0x30BA30B2, 0x616430BA, 0x6164B0BA
  (`WavTheorems.ExtractInvertsWrite`). The sample rate is misread when the RIFF size spells `fmt `
  (`SampleRateIsReadBack`).
- **Halfway columns.** The two rasterisers differ exactly where they walk in opposite directions
  and the ideal line is halfway between two pixels (`Lines.RasterisersAgree`).
- **Snapshots that do not continue.** The deltas of a Pi run are its final text if and only if each
  snapshot continues what was sent (`PiStream.DeltasAreTheText`). A run that no
  event stops sends all its text a second time (`EndOfOutputRepeats`), so its deltas are its text
  if and only if there is no text at all and nothing was abandoned (`WithoutAnEnd`).
- **Old cards and notes.** Notes apart, a reply becomes the body of the handheld's card if and only
  if the screen is ready for it; an earlier reply is appended to. With celebrations on, as by
  default, the body of a ready screen begins with the reply when no text comes after the first
  final chunk, and is the reply alone if and only if no note is added to it
  (`ResponseCard.CardShowsTheText`, `ANoteIsAdded`). A Pi run whose snapshots continue sends no text
  after its first final chunk (`TextOfRunEnds`), so its final text is shown before any note
  (`RunEndsUpOnTheCard`).
- **The last sample.** `trim_silence` is documented to remove silence, but no window it looks at
  from the end holds the last sample. That sample is dropped if and only if some window of the scan
  is loud, wherever it is (`SilenceTheorems.LastSampleIsDropped`), and only it is dropped at the end
  if and only if the first window it looks at is (`LoudEndLosesASample`). Only silence is removed if and only if
  no window of the scan is loud or the last sample ends a silent stretch of at most a window
  (`WhenOnlySilenceGoes`); `SilentEndLosesALoudSample` is a clip that loses more.
- **Quiet clips.** A clip that is quiet all through is not trimmed at all: trimming goes to the first
  loud window from either end (`Loudness.TrimsToTheLoudWindow`), and there is none
  (`QuietClipIsKept`).
- **Room in the cache.** A begin on the stick succeeds if and only if the other entries have fewer
  than 262144 bytes (`AudioStorage.BeginNeedsRoom`); the chunks that follow are not limited.
- **Speech lost before a hold.** From every READY state, what is uploaded is what was said since
  the press if and only if what was collected is what was said before the hold
  (`FirmwareTheorems.NothingSpokenIsLost`). All that can be said is collected exactly when no
  pre-roll is left over and the microphone is not already running for nobody
  (`ExactlyFreshSticksListen`). Both failures occur: after a hold from READY there is left-over
  pre-roll exactly when the hold began offline and some was collected
  (`OfflineRecordingLeavesPreroll`); after a hold during which no mode is requested, and no
  press starts a microphone that the hold could not start, the microphone is on exactly when no recording was ended and it was on or started while muted, or was on in another
  mode and no release stopped it (`MutedHoldLeavesTheMicOn`). From there speech is lost although no pre-roll was left
  (`DeafStickLosesSpeech`). Taps lose nothing and leave nothing (`FirmwareTaps.TapsAreForgotten`).
- **Online events.** An online event keeps the browser and the server together if and only if its
  payload names its own device, by an id that is not empty, or nothing changes on either side
  (`DashboardSync.OnlineKeepsSync`, `EmptyIdBreaksSync`). The two are together all along a run if and
  only if each operation keeps them together when it is made (`BrowserKeepsUp`).
- **Long listings.** A second poll of the same listing is silent if and only if the listing fits
  (`TranscriptTheorems.SecondPollIsSilent`).
- **Event streams.** The parser is compared with sections 9.2.5 and 9.2.6 of the WHATWG HTML
  Standard, from decoded text on (a byte order mark belongs to the decoding); the model follows the
  code. Both cut a text into the same lines if and only if every carriage return is followed by its
  line feed (`SseStandard.LinesAgree`). Both do the same with a line if and only if it conforms
  (`LineAgrees`): a blank line does not when a name was set without data (the parser dispatches it),
  a value does not when it begins with more than one blank or other white space, or a name ends with
  it (the parser strips all of it), the field `data`, or `event` after a name, does not when it has
  no colon, and `id` and `retry` do not when they set something (the parser ignores all of these).
  Cut and lines agree all along if and only if both conditions hold (`TextsAgree`). On such texts
  only an event left unfinished at the end of the stream is added, which the standard discards
  (`StreamsAgree`).
- **Segment size.** Each pass of the cutting loop shortens the buffer, except exactly when
  `max_buffer_chars` is 0, no boundary is ready and the buffer does not begin with white space: then
  it changes nothing, and would repeat for ever (`Segmenter.PassesShorten`). The segmenter requires
  at least 1.

## Model

| member | source | states |
|---|---|---|
| `Segmenter.FirstBoundary` | src/oi-gateway/src/audio/delivery.py:21 | the first end of a white-space run after a stop character at or after a position: it is a boundary, no earlier one qualifies, and none is missed |
| `Segmenter.LastIndex` | src/oi-gateway/src/audio/delivery.py:68 | the last occurrence of a character, or -1 when there is none |
| `Segmenter.Fallback` | src/oi-gateway/src/audio/delivery.py:66-71 | the cut of an overlong buffer is never beyond the maximum, and is 0 exactly when the maximum is 0 |
| `Segmenter.PassesShorten` | src/oi-gateway/src/audio/delivery.py:45-57 | each pass of the loop shortens the buffer, except exactly when the maximum is 0, no boundary is ready and the buffer does not begin with white space: then it changes nothing |
| `Segmenter.PopReady` | src/oi-gateway/src/audio/delivery.py:45-57 | what is left in the buffer has no ready boundary and is not over the maximum |
| `Segmenter.ResponseTextSegmenter.Push` | src/oi-gateway/src/audio/delivery.py:32-37 | a push cuts off exactly the ready segments and leaves a settled buffer |
| `Segmenter.ResponseTextSegmenter.Flush` | src/oi-gateway/src/audio/delivery.py:39-43 | a flush returns the trimmed rest and empties the buffer |
| `Segmenter.ResponseTextSegmenter.PopReadySegments` | src/oi-gateway/src/audio/delivery.py:45-57 | the loop terminates and computes the repeated cut at the first ready boundary, else at the fallback |
| `Segmenter.ResponseTextSegmenter.FindBoundary` | src/oi-gateway/src/audio/delivery.py:59-64 | the left-to-right scan of regular-expression matches finds the first boundary that is far enough, or none exists |
| `Segmenter.ResponseTextSegmenter.FallbackBoundary` | src/oi-gateway/src/audio/delivery.py:66-71 | the cut is after the last blank or newline of the window if that leaves enough, else at the end of the window |
| `SegmenterTheorems.PushSplits` | src/oi-gateway/src/audio/delivery.py:32-57 | buffer plus delta is the segments and the rest in order with only white space between; no segment is longer than the maximum plus the delta, empty, or has white space at an end |
| `SegmenterTheorems.StreamSplits` | src/oi-gateway/src/audio/delivery.py:32-57 | for every sequence of deltas, segments and buffer together are the text that arrived, up to white space around segments |
| `SegmenterTheorems.SplitsKeepsInk` | src/oi-gateway/src/audio/delivery.py:45-57 | such a split loses, adds and reorders no character that is not white space |
| `SegmenterTheorems.SpokenIsTheText` | src/oi-gateway/src/audio/delivery.py:32-57 | segments and flush of any stream are its text: every character that is not white space, in order |
| `SegmenterCuts.PushCuts` | src/oi-gateway/src/audio/delivery.py:32-71 | what a push cuts off is exactly, one after the other, the trimmed text up to the least end of white space after a stop character at or after the minimum; without one, and only over the maximum, up to and with the last blank or newline of the first `max` characters when it comes at or after the minimum, else those characters |
| `SegmenterCuts.CutIsUnique` | src/oi-gateway/src/audio/delivery.py:59-71 | a text has at most one such place to cut |
| `SegmenterCuts.HelloIsCut` | src/oi-gateway/src/audio/delivery.py:45-64 | "Hello. World" with a minimum of 5 gives "Hello." and keeps "World" |
| `SpeechRouting.SpeechRouter.HandleStreamDelta` | src/oi-gateway/src/audio/delivery.py:163-189 | a delta advances the segmenter of its own device and stream only; a final one flushes and forgets it |
| `SpeechRouting.StreamsAreIndependent` | src/oi-gateway/src/audio/delivery.py:163-189 | in any interleaving each stream is scheduled the segments it would get alone |
| `SpeechRouting.MixedStreamIsSpokenWhole` | src/oi-gateway/src/audio/delivery.py:163-189 | the units scheduled for a finished stream are the spoken units of its own text, whatever else was mixed in |
| `SpeechRouting.IdsTellApart` | src/oi-gateway/src/audio/delivery.py:163-189 | when every delta has a stream id, the deltas of a stream are those with its device and id, whatever their correlation ids |
| `SpeechRouting.OtherwiseCorrelation` | src/oi-gateway/src/audio/delivery.py:163-189 | without stream ids the correlation ids tell streams apart, and without either a device has one stream |
| `Handheld.CacheHandlers.PutBegin` | src/oi-clients/generic_sbc_handheld/oi_client/app.py:1233-1256 | begin clears the shared chunk list and takes the rate and channels it says, or 24000 and 1 |
| `Handheld.CacheHandlers.PutChunk` | src/oi-clients/generic_sbc_handheld/oi_client/app.py:1258-1277 | a chunk is appended whatever its response id; an empty one is refused and changes nothing |
| `Handheld.CacheHandlers.PutEnd` | src/oi-clients/generic_sbc_handheld/oi_client/app.py:1279-1318 | the end stores the joined chunks, with the format of the last begin, under its response id and clears the list; without chunks, or when no header fits, it is refused |
| `Handheld.SessionIsStored` | src/oi-clients/generic_sbc_handheld/oi_client/app.py:1233-1318 | a whole session, from any state of the cache, stores all its audio in the format of its begin, or 24000 and 1 where that names none or zero, exactly when it fits in a file |
| `DeliveryInvariant.StepKeeps` | src/oi-gateway/src/audio/delivery.py:191-347 | every step of any task, device or loss keeps the protocol invariant |
| `DeliveryInvariant.AckedIsNewest` | src/oi-gateway/src/audio/delivery.py:211-216 | when the lock holder's awaited command was handled, it is the newest the device saw and nothing is in flight |
| `DeliveryTheorems.StoredIsTheWholeReply` | src/oi-gateway/src/audio/delivery.py:191-347 | over every run, what a device has stored under a response id is all the PCM of that task, in order, with the format the begin said, and the task was for this device |
| `DeliveryTheorems.DeliveredIsStored` | src/oi-gateway/src/audio/delivery.py:312-347 | `audio_delivered` is only reported for audio the device has stored whole |
| `DeliveryTheorems.SessionsDoNotOverlap` | src/oi-gateway/src/audio/delivery.py:211-216 | the commands a device handled are a row of sessions, none inside another |
| `DeliveryTheorems.SessionsBeginInOrder` | src/oi-gateway/src/audio/delivery.py:160-216 | through both locks, sessions of a device begin in the order of scheduling, each after the earlier ones are over |
| `DeliveryTheorems.NoTaskIsStuck` | src/oi-gateway/src/audio/delivery.py:211-347 | from every reachable state all tasks can run to their end: no lock is lost by an aborted delivery |
| `DeliveryTheorems.AReplyCanArrive` | src/oi-gateway/src/audio/delivery.py:211-347 | audio of at least one chunk, without empty chunks and not too long for a file, can be delivered whole, whatever the device's chunk list held before |
| `DeliveryTheorems.StoredCouldBeSaved` | src/oi-clients/generic_sbc_handheld/oi_client/app.py:1258-1318 | over every run, only audio of at least one chunk, without empty chunks and not too long for a file, is ever stored: exactly the replies that can arrive |
| `Lines.DrawLine` | src/oi-clients/m5stack_stickS3/hw/display.py:193-213 | the loop ends after max(dx, dy) + 1 pixels, the k-th being the nearest-pixel line point of step k |
| `Lines.LineIsAccurate` | src/oi-clients/m5stack_stickS3/hw/display.py:193-213 | the line runs from end to end and stays within half a pixel of the ideal line at each step |
| `Lines.StickLine` | src/oi-clients/m5stack_stickS3/lib/st7789py.py:548-579 | the second rasteriser draws, after its swaps, its own nearest-pixel line, one pixel per major step |
| `Lines.BackwardSteps` | src/oi-clients/m5stack_stickS3/lib/st7789py.py:563-565 | walking a line from its other end gives the same pixel exactly when the line is not halfway there |
| `Lines.RasterisersAgree` | src/oi-clients/m5stack_stickS3/lib/st7789py.py:548-579 | both rasterisers pick the same pixel at a major step if and only if they do not walk in opposite directions at a halfway point |
| `Circle.DrawCircle` | src/oi-clients/m5stack_stickS3/hw/display.py:222-243 | the loop draws the eight images of exactly the arc points of the octant, one row after the other, x falling by at most one; a pixel is drawn if and only if its distances from the centre, the longer first, are an arc point; the error term at each is x²+y²+2y-r² and never positive |
| `Circle.DrawnIsOnArc` | src/oi-clients/m5stack_stickS3/hw/display.py:227-236 | the pixels are closed under the eight symmetries about the centre: each is drawn if and only if its sorted distances are on the arc |
| `Circle.ArcIsAccurate` | src/oi-clients/m5stack_stickS3/hw/display.py:222-243 | each arc point satisfies x²+y²+2y <= r² <= x²+y²+2x+2y |
| `Circle.ArcIsUnique` | src/oi-clients/m5stack_stickS3/hw/display.py:222-243 | a row has at most one arc point, so the arc determines the drawing |
| `Circle.NextRow` | src/oi-clients/m5stack_stickS3/hw/display.py:238-243 | the update of the error term moves from an arc point to the arc point of the next row |
| `Attention.AttentionPolicy.AcquireAttention` | src/oi-gateway/src/attention/policy.py:151-273 | the new state and the answer of a request: denied and queued, denied, or granted after releasing the holder |
| `Attention.AttentionPolicy.ReleaseAttention` | src/oi-gateway/src/attention/policy.py:275-301 | only the holder can release |
| `Attention.AttentionPolicy.ReleaseCurrentAttention` | src/oi-gateway/src/attention/policy.py:303-342 | the release, with the queue processed on request; the recursion into acquire terminates |
| `Attention.AttentionPolicy.QueueForAttention` | src/oi-gateway/src/attention/policy.py:344-360 | the waiter is removed and inserted before the first known waiter of lower priority |
| `Attention.AttentionPolicy.ProcessAttentionQueue` | src/oi-gateway/src/attention/policy.py:362-377 | the first known waiter is granted, unknown ones are dropped |
| `Attention.AttentionPolicy.RecordActivity` | src/oi-gateway/src/attention/policy.py:379-404 | only the activity time of a known device changes |
| `Attention.AttentionPolicy.ChangePriority` | src/oi-gateway/src/attention/policy.py:406-463 | the stored priority changes and a waiter is queued anew |
| `Attention.AttentionPolicy.HandleDeviceOffline` | src/oi-gateway/src/attention/policy.py:503-524 | a holder that goes offline lets go and the next waiter is granted; a waiter stays in the queue |
| `Attention.AttentionPolicy.CheckTimeouts` | src/oi-gateway/src/attention/policy.py:526-567 | the holder is released, and reported, exactly when time-outs are on and the limit of its own request has passed since its last activity |
| `AttentionTheorems.AcquireKeeps` | src/oi-gateway/src/attention/policy.py:182-241 | an acquire keeps the invariant if and only if it does not overlook a holder with an empty id |
| `AttentionTheorems.ProcessQueueKeeps` | src/oi-gateway/src/attention/policy.py:362-377 | processing the queue leaves no waiter behind a free attention |
| `AttentionTheorems.EveryRunIsSound` | src/oi-gateway/src/attention/policy.py:151-567 | over every run: at most one active device, the holder, with its times set; no stranded waiter; no duplicate waiter; the log replays to the holder with a release between two holders |
| `AttentionTheorems.WhenARunIsSound` | src/oi-gateway/src/attention/policy.py:151-567 | any run keeps the invariant all along if and only if no request of a device with an id is made while the holder's id is empty |
| `AttentionTheorems.EveryRunFromNobodyIsSound` | src/oi-gateway/src/attention/policy.py:98-125 | so every run of a new policy whose requests carry an id is sound |
| `AttentionTheorems.HandoverHasNoLimit` | src/oi-gateway/src/attention/policy.py:362-377 | a waiter granted from the queue holds without a time limit, whatever limit its request asked for |
| `AttentionTheorems.LimitIsTheGrantedOne` | src/oi-gateway/src/attention/policy.py:232-238 | over every run the holder's limit is that of its last request if it was granted at once and none after a hand-over; it counts from the last grant, hand-over or activity of that holder, and a check releases the holder exactly when checks are on and that limit is over |
| `AttentionTheorems.WaitersAreNeverTimedOut` | src/oi-gateway/src/attention/policy.py:526-550 | over every run no check releases a device none of whose requests is granted at once with a limit |
| `AttentionTheorems.LengthIsNotUsed` | src/oi-gateway/src/attention/policy.py:534-535 | the length of the configured time-out makes no difference to any run while it stays zero or not zero |
| `AttentionTheorems.ZeroSwitchesChecksOff` | src/oi-gateway/src/attention/policy.py:534-535 | zero does make a difference: a run that ends otherwise |
| `AttentionTheorems.TimeoutsSettle` | src/oi-gateway/src/attention/policy.py:526-567 | a check announces the release of an overdue holder first, changes nothing otherwise, and leaves nothing for a second check |
| `AttentionTheorems.EmptyIdBreaksIt` | src/oi-gateway/src/attention/policy.py:182-182 | with an empty id two devices end up active |
| `AttentionOrder.InsertInOrder` | src/oi-gateway/src/attention/policy.py:348-358 | inserting by the requested priority keeps falling priority, first come first served among equals, if and only if no waiter is between the requested and the stored priority |
| `AttentionOrder.EnqueueInOrder` | src/oi-gateway/src/attention/policy.py:344-360 | queueing keeps that order if and only if the device is known and no other waiter is between the two priorities |
| `AttentionOrder.GrantInOrder` | src/oi-gateway/src/attention/policy.py:222-240 | a grant keeps the order if and only if the device does not wait or its new priority passes no other waiter, by their positions and priorities, and among newly equal ones by who was queued first |
| `AttentionOrder.AcquireInOrder` | src/oi-gateway/src/attention/policy.py:151-273 | a request keeps the order if and only if, as it is queued, refused or granted, it is queued or granted in order |
| `AttentionOrder.EveryRunIsInOrder` | src/oi-gateway/src/attention/policy.py:151-567 | the order holds all along a run of any operations if and only if each request keeps it when it is made; nothing else breaks it |
| `AttentionOrder.StoredPriorityKeepsOrder` | src/oi-gateway/src/attention/policy.py:182-216 | a known device that asks at its stored priority keeps the order |
| `AttentionOrder.OtherPriorityBreaksOrder` | src/oi-gateway/src/attention/policy.py:344-360 | a run with a request at another priority that puts a waiter before a better one |
| `AttentionOrder.ReleaseHandsOver` | src/oi-gateway/src/attention/policy.py:303-377 | a release hands over to the waiter that goes before all others |
| `AttentionOrder.NobodyIsDisplacedByLess` | src/oi-gateway/src/attention/policy.py:182-216 | with priorities on, no holder is displaced by a lower request, nor at all when explicit release is required |
| `AttentionOrder.WhenAHolderIsDisplaced` | src/oi-gateway/src/attention/policy.py:182-241 | a request displaces another holder if and only if explicit release is not required and, with priorities on, the holder's is not higher; the holder is announced as interrupted exactly when it is lower, and a refusal announces nothing |
| `AttentionOrder.FreeAttentionIsGranted` | src/oi-gateway/src/attention/policy.py:222-252 | a request while nobody or the device itself holds is always granted, with its own limit, and its own priority where it names one or the device is new |
| `AttentionOrder.PriorityIsStored` | src/oi-gateway/src/attention/policy.py:406-463 | a changed priority is stored and announced, the holder stays, and a waiter goes on waiting if and only if its new priority is above zero |
| `AttentionOrder.UnknownWaiterIsForgotten` | src/oi-gateway/src/attention/policy.py:362-377 | for every queue, a waiter is granted or still waits after a release if and only if it, or somebody before it, is known |
| `AttentionOrder.UnknownRequestIsQueued` | src/oi-gateway/src/attention/policy.py:189-199 | a denied request of an unknown device makes an unknown waiter |
| `AttentionOrder.HolderComesBack` | src/oi-gateway/src/attention/policy.py:303-377 | a release gives the attention back to the same device if and only if it is the first known waiter |
| `AttentionOrder.WhenTheHolderWaits` | src/oi-gateway/src/attention/policy.py:151-463 | after each operation, exactly when a holder is in the queue itself |
| `Sse.IterSseEvents` | src/oi-gateway/src/channel/piclaw_backend.py:105-140 | the events depend on the text alone, not on how it was cut into chunks |
| `Sse.ParseInSteps` | src/oi-gateway/src/channel/piclaw_backend.py:110-136 | parsing may stop anywhere and go on with the buffer |
| `Sse.PrintParses` | src/oi-gateway/src/channel/piclaw_backend.py:105-153 | printed events, with keep-alive comments between, parse back to those events (the frame form of src/oi-dashboard/src/oi_dashboard/sse.py, lines 49 and 61) |
| `Sse.EndIsABlankLine` | src/oi-gateway/src/channel/piclaw_backend.py:105-153 | a stream that ends anywhere has the events it would have if its last line were ended and a blank line followed |
| `SseStandard.LinesAgree` | src/oi-gateway/src/channel/piclaw_backend.py:111-117 | the parser and the standard cut a text into the same lines if and only if every carriage return is followed by its line feed |
| `SseStandard.LineAgrees` | src/oi-gateway/src/channel/piclaw_backend.py:117-130 | the parser does with a line what the standard does if and only if the line conforms |
| `SseStandard.TextsAgree` | src/oi-gateway/src/channel/piclaw_backend.py:110-131 | the parser and the standard cut a text alike and do the same with every line, ids and reconnection times included, if and only if every carriage return has its line feed and every line conforms |
| `SseStandard.StreamsAgree` | src/oi-gateway/src/channel/piclaw_backend.py:105-140 | on conforming texts the events are those of the standard, and besides them only one left unfinished at the end, if any |
| `PiStream.PiReader.Consume` | src/oi-gateway/src/channel/pi_backend.py:241-258 | what a text adds to what was sent: all of an increment, the continuation of a snapshot, or the whole of one that does not continue |
| `PiStream.PiReader.Finalize` | src/oi-gateway/src/channel/pi_backend.py:260-266 | what the final text adds to what was sent |
| `PiStream.PiReader.BuildTextChunk` | src/oi-gateway/src/channel/pi_backend.py:175-190 | the chunk of a text event and the state after it |
| `PiStream.PiReader.BuildTerminalChunk` | src/oi-gateway/src/channel/pi_backend.py:192-217 | the final chunk of a terminal event and the state after it |
| `PiStream.PiReader.ReadEvents` | src/oi-gateway/src/channel/pi_backend.py:84-118 | the read loop sends the chunks of the events up to the first terminal one, or the closing chunk at the end of output |
| `PiStream.EventAbandons` | src/oi-gateway/src/channel/pi_backend.py:241-266 | one event loses nothing of what was sent if and only if its snapshots continue it |
| `PiStream.DeltasAreTheText` | src/oi-gateway/src/channel/pi_backend.py:175-266 | the deltas of a run add up to its final text if and only if every snapshot continues what was sent |
| `PiStream.FinalTextIsTheLastEvents` | src/oi-gateway/src/channel/pi_backend.py:192-217 | the final text is the text of the terminal event, when it has one |
| `PiStream.EndOfOutputRepeats` | src/oi-gateway/src/channel/pi_backend.py:86-118 | a run that no event stops sends its whole text twice, after what was abandoned; nothing was if and only if every snapshot continues |
| `PiStream.WithoutAnEnd` | src/oi-gateway/src/channel/pi_backend.py:86-118 | the deltas of such a run are its text if and only if it has none and every snapshot continues |
| `PiRuns.WhereARunEnds` | src/oi-gateway/src/channel/pi_backend.py:84-105 | a run is stopped if and only if some event is of a terminal type and has a text or comes after a text that is not blank; nothing after the first such event matters, the last chunk is then final and is empty when that event has no text, and the final text is the event's or what was sent before; a run that is not stopped has the text of all its events |
| `PiRuns.HelloIsSentOnce` | src/oi-gateway/src/channel/pi_backend.py:192-217 | "Hello" and an end without text give the text once and an empty final chunk |
| `PiRuns.ProgressIsReported` | src/oi-gateway/src/channel/pi_backend.py:106-111 | while no text comes each report of progress gives one chunk without text, and nothing else changes |
| `ResponseCard.Handheld.ShowResponseDelta` | src/oi-clients/generic_sbc_handheld/oi_client/app.py:1201-1219 | what a chunk does to the card: replace, append, note, mode |
| `ResponseCard.CardShowsTheText` | src/oi-clients/generic_sbc_handheld/oi_client/app.py:1201-1219 | notes apart, the body is the text of the reply if and only if the screen was ready for it; on a ready screen with celebrations on it is the text alone if and only if no note is added, and begins with it when no text comes after the first final chunk |
| `ResponseCard.TextThenNotes` | src/oi-clients/generic_sbc_handheld/oi_client/app.py:1207-1215 | with celebrations on, the body starts with the text and notes come after it |
| `ResponseCard.TextOfRunEnds` | src/oi-gateway/src/channel/pi_backend.py:84-105 | a run whose snapshots continue sends no text after its first final chunk |
| `ResponseCard.ANoteIsAdded` | src/oi-clients/generic_sbc_handheld/oi_client/app.py:1210-1215 | with celebrations on, a ready screen shows a reply with a note |
| `ResponseCard.FinalChunkHasANote` | src/oi-clients/generic_sbc_handheld/oi_client/app.py:1210-1215 | after a final chunk with celebrations on, the body has the note that its length chooses, added on lines of its own exactly when it was not there |
| `ResponseCard.RunEndsUpOnTheCard` | src/oi-clients/generic_sbc_handheld/oi_client/app.py:1201-1219 | from Pi to the card, on a ready screen: notes apart the body is the final text of the run if and only if its snapshots continued; with notes it then begins with the final text, and is that alone if and only if no note is added |
| `Wav.PcmToWav` | src/oi-gateway/src/audio/stt.py:341-396 | the field-by-field writer produces the common file layout, or fails when a field does not fit |
| `Wav.SaveWav` | src/oi-clients/generic_sbc_handheld/oi_client/audio.py:154-179 | the handheld's writer produces byte for byte the same file, with the same failures |
| `Wav.Pieces` | src/oi-gateway/src/audio/tts.py:432-437 | the pieces rejoin to the bytes, none is empty, all but the last have n bytes |
| `Wav.WavToPcmChunks` | src/oi-gateway/src/audio/tts.py:412-437 | the loop cuts the samples of a file into those pieces |
| `Wav.ReadWhatWasWritten` | src/oi-gateway/src/audio/tts.py:493-517 | reading a little-endian field gives back the written number |
| `WavTheorems.ExtractInvertsWrite` | src/oi-gateway/src/audio/tts.py:440-469 | for mono 16-bit files of any size and rate, extraction inverts the writer if and only if no header value spells "data" |
| `WavTheorems.SmallFilesRoundTrip` | src/oi-gateway/src/audio/tts.py:440-469 | in particular for sizes and rates below 2^24 |
| `WavTheorems.SampleRateIsReadBack` | src/oi-gateway/src/audio/tts.py:493-517 | the rate is read back, for any channel count, if and only if the RIFF size does not spell "fmt " or the rate is 16 |
| `WavTheorems.SizesAreReadBack` | src/oi-gateway/src/audio/stt.py:341-396 | the three size fields, of the samples among them, read back as the sizes of what follows them, for any channel count |
| `WavTheorems.FormatIsReadBack` | src/oi-gateway/src/audio/stt.py:341-396 | the format fields read back as the channels, rate and bits asked for, and the byte rate is the rate times the block size when samples are whole bytes |
| `WavTheorems.WithoutMarks` | src/oi-gateway/src/audio/tts.py:440-517 | a file without "data" has no samples, and the rate of one without "fmt " is taken to be 22050 |
| `Accumulator.Pcm16ToMono` | src/oi-gateway/src/audio/pipeline.py:66-80 | the loop keeps the first channel of every whole frame |
| `Accumulator.MonoOfAppend` | src/oi-gateway/src/audio/pipeline.py:66-80 | mono is a homomorphism on frame-aligned splits |
| `Accumulator.MonoIsTheFirstChannel` | src/oi-gateway/src/audio/pipeline.py:66-80 | the k-th mono sample is the two first bytes of the k-th frame; one channel is left as it is |
| `Accumulator.AudioStream.IsComplete` | src/oi-gateway/src/audio/pipeline.py:33-38 | complete means that the numbers from 0 to the largest are all there |
| `Accumulator.CompleteMeansNoGap` | src/oi-gateway/src/audio/pipeline.py:33-38 | complete means not empty and, with every number, all the numbers below it |
| `Accumulator.AudioStream.ReassemblePcm` | src/oi-gateway/src/audio/pipeline.py:40-44 | the chunks are joined by increasing number |
| `Accumulator.StreamAccumulator.BufferChunk` | src/oi-gateway/src/audio/pipeline.py:131-176 | a chunk message stores its mono audio under its number in its own stream; unusable ones change nothing |
| `Accumulator.StreamAccumulator.Take` | src/oi-gateway/src/audio/pipeline.py:223-229 | the finished stream is removed and its chunks joined by increasing number |
| `Accumulator.AnyOrderReassembles` | src/oi-gateway/src/audio/pipeline.py:33-44 | chunks in any order, repeats included: once all are there the stream is complete and is the mono audio of the whole recording |
| `Silence.DetectSilence` | src/oi-gateway/src/audio/tts.py:970-1016 | the loops compute the flags and report the specified regions, with the error and empty cases |
| `Silence.SilentRegions` | src/oi-gateway/src/audio/tts.py:995-1016 | the one-pass scan collects the runs that are long enough |
| `Silence.TrimSilence` | src/oi-gateway/src/audio/tts.py:1043-1082 | the result is one contiguous slice of whole samples, or the input when it cannot be scanned |
| `SilenceTheorems.FlagAt` | src/oi-gateway/src/audio/tts.py:986-994 | there is one flag for each window start, and it tells whether that window is silent |
| `SilenceTheorems.DetectionIsExact` | src/oi-gateway/src/audio/tts.py:986-1016 | exactly the maximal runs of silent windows that last long enough are reported, in order and disjoint, the last clipped to the sample count |
| `SilenceTheorems.TrimmingIsBounded` | src/oi-gateway/src/audio/tts.py:1056-1082 | something is kept, and fewer than `max_trim` samples go at each end |
| `SilenceTheorems.OnlySilenceIsTrimmed` | src/oi-gateway/src/audio/tts.py:1056-1082 | every dropped sample but the last lies in a silent window |
| `SilenceTheorems.LoudEndLosesASample` | src/oi-gateway/src/audio/tts.py:1071-1078 | exactly the last sample is dropped at the end if and only if the scan looks at the window before it and that is loud |
| `SilenceTheorems.LastSampleIsDropped` | src/oi-gateway/src/audio/tts.py:1071-1078 | the last sample is dropped if and only if some window of the scan from the end, above its limit, is loud |
| `SilenceTheorems.WhenOnlySilenceGoes` | src/oi-gateway/src/audio/tts.py:1056-1082 | every dropped sample lies in a silent window if and only if no window of that scan is loud or the last sample ends a silent stretch of at most a window |
| `SilenceTheorems.SilentEndLosesALoudSample` | src/oi-gateway/src/audio/tts.py:1071-1078 | a clip whose loud last sample is dropped though the window before it is silent |
| `Loudness.QuietIsSilent` | src/oi-gateway/src/audio/tts.py:992-993 | a window that is not empty and whose samples are all below the threshold is silent; one whose samples are all at or above it is not |
| `Loudness.TwiceIsTheSame` | src/oi-gateway/src/audio/tts.py:992-993 | a window twice over is silent if and only if it is |
| `Loudness.OrderDoesNotMatter` | src/oi-gateway/src/audio/tts.py:992-993 | windows with the same samples in any order are silent or not alike |
| `Loudness.SquaresMatter` | src/oi-gateway/src/audio/tts.py:992-993 | two samples may be exchanged for two with the same sum of squares |
| `Loudness.QuietClipIsOneRegion` | src/oi-gateway/src/audio/tts.py:970-1016 | a clip all of whose little-endian samples are below the threshold is one region from 0 to its end if it lasts the minimum, and none otherwise |
| `Loudness.LoudClipHasNoRegion` | src/oi-gateway/src/audio/tts.py:970-1016 | a clip all of whose samples are at or above the threshold has no silent region |
| `Loudness.RegionIsItsSamples` | src/oi-gateway/src/audio/tts.py:995-1016 | a region starts at the first sample of its first window and ends with its last window or the clip |
| `Loudness.TrimsToTheLoudWindow` | src/oi-gateway/src/audio/tts.py:1056-1078 | trimming goes, from each end, up to the first loud window within its limit, and takes all the windows before it |
| `Loudness.QuietClipIsKept` | src/oi-gateway/src/audio/tts.py:1056-1082 | a clip whose samples are all below the threshold is not trimmed at all |
| `Button.PushButton.Update` | src/oi-clients/m5stack_stickS3/hw/buttons.py:75-111 | the callbacks a sample fires and the state after it |
| `Button.CallbacksAreCycles` | src/oi-clients/m5stack_stickS3/hw/buttons.py:75-111 | for all samples and times the callbacks are a prefix of press cycles, each ended by a release or by a hold end, never both |
| `Button.CallbacksAreDue` | src/oi-clients/m5stack_stickS3/hw/buttons.py:75-111 | every sample of every run reports exactly what is due: a press when the pin goes down, a hold at the first later sample that finds it down for the threshold, and when it goes up the end of that hold or a release |
| `Firmware.DeviceState.ChangeMode` | src/oi-clients/m5stack_stickS3/datp/state.py:265-288 | the transition table and what entering and leaving a mode do to the stream id |
| `Firmware.StickFirmware.OnButtonPressed` | src/oi-clients/m5stack_stickS3/boot.py:162-174 | a press starts speculative capture when recording is possible |
| `Firmware.StickFirmware.OnButtonReleased` | src/oi-clients/m5stack_stickS3/boot.py:176-188 | a short press drops the speculative capture |
| `Firmware.StickFirmware.OnLongHoldStart` | src/oi-clients/m5stack_stickS3/boot.py:190-209 | a hold turns the capture into a recording and sends the pre-roll |
| `Firmware.StickFirmware.OnLongHoldEnd` | src/oi-clients/m5stack_stickS3/boot.py:211-233 | the end of a hold sends the last chunk and then the finished event |
| `Firmware.StickFirmware.StreamRecordingChunk` | src/oi-clients/m5stack_stickS3/boot.py:235-247 | a live chunk is sent while a recording is on |
| `Firmware.StickFirmware.CapturePrerollChunk` | src/oi-clients/m5stack_stickS3/boot.py:249-255 | a speculative chunk goes to the pre-roll |
| `Firmware.StickFirmware.FlushPrerollChunks` | src/oi-clients/m5stack_stickS3/boot.py:257-261 | the loop sends the pre-roll in order and empties it |
| `Firmware.StickFirmware.SendRecordingChunk` | src/oi-clients/m5stack_stickS3/boot.py:263-270 | a chunk is sent under the next number; a send that fails is dropped and its number used again |
| `Firmware.StickFirmware.Update` | src/oi-clients/m5stack_stickS3/boot.py:381-383 | one pass of the main loop: pre-roll first, then live audio |
| `FirmwareTheorems.RecordingIsUploaded` | src/oi-clients/m5stack_stickS3/boot.py:190-270 | a hold from READY sends the start, pre-roll and live chunks numbered 0, 1, 2, ... in capture order, then the end |
| `FirmwareTheorems.NothingSpokenIsLost` | src/oi-clients/m5stack_stickS3/boot.py:162-270 | from any READY state with the microphone running after the press: what was collected and captured live is uploaded; it is all that was said if and only if what was collected is what was said before the hold |
| `FirmwareTheorems.ExactlyFreshSticksListen` | src/oi-clients/m5stack_stickS3/boot.py:171-173 | all that may be said after a press is collected if and only if no pre-roll is left over and the microphone is off or collecting already |
| `FirmwareTheorems.DeafStickLosesSpeech` | src/oi-clients/m5stack_stickS3/boot.py:162-209 | a reachable READY state without old pre-roll from which speech is lost |
| `FirmwareTheorems.OfflineRecordingLeavesPreroll` | src/oi-clients/m5stack_stickS3/boot.py:190-233 | after a hold from READY, whatever happens during it, the pre-roll is empty if it began online and untouched otherwise |
| `FirmwareTheorems.MutedHoldLeavesTheMicOn` | src/oi-clients/m5stack_stickS3/boot.py:190-233 | after a hold without mode requests or presses that start a microphone the hold could not, from any mode, the microphone is on if and only if it was on or started while muted, or was on in a mode without recording and no release stopped it |
| `FirmwareTheorems.HoldRecordsOnlyFromReady` | src/oi-clients/m5stack_stickS3/datp/state.py:265-288 | a hold begins a recording exactly from READY |
| `FirmwareTaps.TapLeavesNothing` | src/oi-clients/m5stack_stickS3/boot.py:162-188 | from a READY stick without old pre-roll, after any presses, releases and passes of the loop a release leaves it READY, the microphone off, no pre-roll, and no recording message sent |
| `FirmwareTaps.TapsAreForgotten` | src/oi-clients/m5stack_stickS3/boot.py:162-233 | so after any number of taps a press and a hold upload exactly what was said since that last press |
| `FirmwareTaps.ButtonsAreReported` | src/oi-clients/m5stack_stickS3/boot.py:162-181 | over every run the button events on the wire are exactly the presses and releases made while connected, in order |
| `FirmwareTaps.IdIsThere` | src/oi-clients/m5stack_stickS3/datp/state.py:265-288 | over every run there is a stream id from a recording to the playing of its reply, and none when offline or failed |
| `FirmwareTaps.ReadyCanBeReached` | src/oi-clients/m5stack_stickS3/datp/state.py:265-288 | from every mode at most two mode changes lead to READY |
| `AudioCache.AudioManager.CacheAudioBegin` | src/oi-clients/m5stack_stickS3/hw/audio.py:246-279 | a begin drops an entry of the same id with its bytes, even when it is then refused because the cache is full |
| `AudioCache.AudioManager.CacheAudioChunk` | src/oi-clients/m5stack_stickS3/hw/audio.py:281-309 | a chunk extends an entry that is not finalized, with the player's buffer when it is the same, and is counted; else it is refused and nothing changes |
| `AudioCache.AudioManager.CacheAudioEnd` | src/oi-clients/m5stack_stickS3/hw/audio.py:311-332 | an end finalizes an entry without changing its bytes |
| `AudioCache.AudioManager.ClearCache` | src/oi-clients/m5stack_stickS3/hw/audio.py:338-350 | one entry or all of them go, with their bytes |
| `AudioCache.AudioManager.StartPlaying` | src/oi-clients/m5stack_stickS3/hw/audio.py:358-398 | playing starts from the first byte of the wanted entry, or the one begun last, when it has bytes and the speaker works; a growing entry is played from its own buffer |
| `AudioCache.AudioManager.StopPlaying` | src/oi-clients/m5stack_stickS3/hw/audio.py:400-413 | stopping ends playback and touches nothing else |
| `AudioCache.AudioManager.WriteAudioChunk` | src/oi-clients/m5stack_stickS3/hw/audio.py:415-446 | a write sends the next at most 1024 bytes, or stops at the end |
| `AudioCache.SizeIsTheTotal` | src/oi-clients/m5stack_stickS3/hw/audio.py:261-350 | over every run, refused operations included, the size equals the sum of the entries' lengths |
| `AudioCache.PlaybackIsWhole` | src/oi-clients/m5stack_stickS3/hw/audio.py:389-440 | with any cache operations in between, the writes send a finalized entry whole, in order, in pieces of at most 1024 bytes, and then stop |
| `AudioCache.PlaybackFollowsTheEntry` | src/oi-clients/m5stack_stickS3/hw/audio.py:281-440 | playing any entry, also one that still receives chunks: the pieces written are its bytes in order, and playback stops exactly when all there are at that time are written |
| `AudioCache.LatestIsPlayed` | src/oi-clients/m5stack_stickS3/hw/audio.py:368-398 | after any run, playing without an id starts exactly when the last begun entry still cached has bytes and the speaker works, and plays it |
| `AudioCache.BeginMakesLatest` | src/oi-clients/m5stack_stickS3/hw/audio.py:246-279 | a begin that succeeds makes its entry the latest |
| `AudioStorage.BeginNeedsRoom` | src/oi-clients/m5stack_stickS3/hw/audio.py:246-279 | after any run from empty a begin succeeds if and only if the other entries have fewer than 262144 bytes; it leaves the others and, if it succeeds, a new empty entry |
| `AudioStorage.SessionIsStored` | src/oi-clients/m5stack_stickS3/hw/audio.py:246-332 | then begin, chunks and end all succeed and leave the chunks in order under the id, finalized, as the latest entry |
| `AudioStorage.StoredStays` | src/oi-clients/m5stack_stickS3/hw/audio.py:246-350 | nothing but a new begin or a clear changes a finalized entry |
| `AudioStorage.StoredIsPlayed` | src/oi-clients/m5stack_stickS3/hw/audio.py:358-446 | playing it, by id or as the latest, starts if and only if it has bytes and the speaker works; then enough writes send all of it, 1024 bytes at a time but for the last piece, and playback stops |
| `AudioStorage.GrowingIsPlayed` | src/oi-clients/m5stack_stickS3/hw/audio.py:281-446 | an entry played before it has ended is played with the chunks that still come |
| `AudioStorage.ClearMakesRoom` | src/oi-clients/m5stack_stickS3/hw/audio.py:338-350 | clearing removes one entry alone or all of them; after all, every begin succeeds |
| `AudioStorage.StopSilences` | src/oi-clients/m5stack_stickS3/hw/audio.py:400-446 | a stop succeeds exactly while something plays, and nothing is written until the next play |
| `Dashboard.DashboardState.RecordDeviceOnline` | src/oi-dashboard/src/oi_dashboard/state.py:84-87 | the device becomes online; the broadcast names it unless the payload names another |
| `Dashboard.DashboardState.RecordDeviceOffline` | src/oi-dashboard/src/oi_dashboard/state.py:89-93 | a known device becomes offline; an unknown one stays unknown |
| `Dashboard.DashboardState.RecordStateUpdated` | src/oi-dashboard/src/oi_dashboard/state.py:95-100 | a state report makes an unknown device known, as offline, and changes no known flag |
| `Dashboard.DashboardState.ApplyPolledDevice` | src/oi-dashboard/src/oi_dashboard/state.py:164-173 | a polled entry sets the flag and announces a change of it |
| `Dashboard.DashboardState.MarkMissingDevicesOffline` | src/oi-dashboard/src/oi_dashboard/state.py:175-182 | exactly the online devices missing from the poll are switched off and announced |
| `Dashboard.DashboardPoller.PollOnce` | src/oi-dashboard/src/oi_dashboard/poller.py:23-41 | one poll: the entries in order, then the missing devices, then the transcripts; a failed device fetch changes nothing, a failed transcript fetch leaves the list |
| `DashboardSync.OnlineKeepsSync` | src/oi-dashboard/src/oi_dashboard/browser_reducer.py:60-84 | an online event keeps browser and server together if and only if it names its own device by an id, or changes nothing |
| `DashboardSync.EmptyIdBreaksSync` | src/oi-dashboard/src/oi_dashboard/browser_reducer.py:67-72 | an online event with an empty id makes the two differ |
| `DashboardSync.BrowserKeepsUp` | src/oi-dashboard/src/oi_dashboard/browser_reducer.py:21-84 | the browser's online set is the server's, and it knows no other device, all along a run of online, offline, state and poll steps if and only if each step keeps them together when it is made |
| `DashboardSync.ConnectedPageKeepsUp` | src/oi-dashboard/src/oi_dashboard/browser_reducer.py:60-84 | a page given the projection keeps up with every run of events that name their own device by an id |
| `DashboardSync.PollDecides` | src/oi-dashboard/src/oi_dashboard/poller.py:29-41 | right after a poll exactly the devices with an id are online whose last entry does not say otherwise; an empty id is not touched |
| `DashboardSync.TheLastWordHolds` | src/oi-dashboard/src/oi_dashboard/state.py:84-182 | after every run a device is online if and only if the last online, offline or poll step that says something about it says so |
| `DashboardSync.PageShowsTheLastWord` | src/oi-dashboard/src/oi_dashboard/browser_reducer.py:60-84 | and so does the page, after every run of well named events |
| `Transcripts.TranscriptLog.FindEntry` | src/oi-dashboard/src/oi_dashboard/state.py:255-268 | the newest entry of the device with that conversation or that stream, else none |
| `Transcripts.TranscriptLog.RecordTranscript` | src/oi-dashboard/src/oi_dashboard/state.py:102-127 | a transcript that is not empty is appended and announced, and the list is trimmed to the newest |
| `Transcripts.TranscriptLog.RecordAgentResponse` | src/oi-dashboard/src/oi_dashboard/state.py:129-155 | a response goes to the last entry of its conversation; without one it is only announced |
| `Transcripts.TranscriptLog.ApplyPolledTranscripts` | src/oi-dashboard/src/oi_dashboard/state.py:184-208 | the loop merges the items of a listing one by one |
| `TranscriptTheorems.PollFillsTheList` | src/oi-dashboard/src/oi_dashboard/state.py:184-208 | polling a listing from nothing makes the list the newest entries of it, in order, and announces each transcript and each stored response |
| `TranscriptTheorems.SecondPollIsSilent` | src/oi-dashboard/src/oi_dashboard/state.py:184-268 | polling the same listing again changes nothing and emits nothing if and only if the listing fits |
| `TranscriptTheorems.LaterResponsesAreShown` | src/oi-dashboard/src/oi_dashboard/state.py:184-268 | a later poll of a listing that fits, with any other responses: those that are not empty replace the earlier ones, nothing else changes, and just the changed ones are announced |
| `TranscriptTheorems.ResponseFindsItsTranscript` | src/oi-dashboard/src/oi_dashboard/state.py:102-155 | a recorded transcript gets a conversation, given or made up, and the response that names it goes to that entry |
| `EndToEnd.SpeechArrivesWhole` | src/oi-gateway/src/audio/delivery.py:270-347 | the samples the handheld stores are the synthesized ones if and only if no header value hides them; the file it saves is the synthesized one if and only if moreover its rate is the 22050 that every begin says |
| `EndToEnd.OtherRatesAreLost` | src/oi-clients/generic_sbc_handheld/oi_client/app.py:1297-1303 | speech at 16000 samples a second is stored whole and saved with another header, whose rate reads as 22050 |
| `EndToEnd.SameFileSameClip` | src/oi-clients/generic_sbc_handheld/oi_client/audio.py:154-179 | a mono 16-bit file determines its rate and its samples |
| `EndToEnd.SpeechReachesRecognition` | src/oi-gateway/src/audio/pipeline.py:131-229 | a press, hold and release from any READY state: when the chunk messages on the wire arrive in any order, with repeats and among those of other recordings, the accumulator has a complete stream of the first channel of what was sent, also when the last chunk ends inside a frame; from a fresh stick that is all that was said, and in general if and only if what was collected is what was said before the hold |
| `EndToEnd.RecordingsStayApart` | src/oi-gateway/src/audio/pipeline.py:131-176 | what is held about one stream id depends on the chunks with that id only |
| `EndToEnd.SameIdIsShared` | src/oi-gateway/src/audio/pipeline.py:156-176 | a chunk of another recording with the same id and number takes the place of the first |
| `EndToEnd.UploadReassembles` | src/oi-gateway/src/audio/pipeline.py:33-44 | the chunk messages of an upload, in any order, repeated and mixed with others, make a complete stream of the first channel |
| `EndToEnd.ReplyIsSpokenInOrder` | src/oi-gateway/src/audio/delivery.py:163-347 | at every moment of every run, also among whole replies and other streams, the tasks of a streamed reply are the spoken units of its text in order; what is stored for one is all its audio, and none begins before the earlier ones are over |

## Left out

- Sockets, HTTP, subprocesses, SDL, I2S, logging, clocks, environment, menus, fonts, command line: input and output.
- `datp/commands.py`, `datp/server.py`, the registry and routing: only their answer to a command is modelled, as ok or unknown.
- `GatewayAPI._send_audio_to_device`: it sends cache commands without the device lock, so it is outside the delivery guarantee.
- The chunk read of the stick's `main.py`: it takes audio from the upload; recording is driven through `Firmware.update`.
- `fill_rect` in `hw/display.py`: its pixel counting makes no coverage promise.
- UTF-8 decoding of characters split between chunks of an event stream: the model starts from decoded text.
- Cancelling a delivery task while it waits for a lock: `delivery.py` never cancels one.
- The `tasks` list of a speech stream: it is only appended to.
- Event loop shutdown and the `response_text` path of a whole reply: they schedule or drop one delivery.
- Timestamps of the dashboard within one poll: one time stands for all entries.
- Device state and metadata dictionaries of the dashboard, and transcripts in the browser: the reducer replaces where the server merges.
- Concurrent connects and event handlers inside a poll: connect and poll are atomic.
- The command table and queue of `datp/state.py`, brightness, volume, battery: they add only easy members.
- Partial transcripts and the speech-to-text call: the accumulator is modelled up to the audio handed over.
- The accumulated text of `send_prompt`: final chunks replace there.
- Decibel metrics and floating-point rounding of loudness: the energy of a window is compared with an integer threshold.
- Attention reasons, candidates and summaries; attention entries are values, so holding on to a returned entry is not modelled.
- `ButtonManager`: it forwards the callbacks of its buttons.
- FirmwareTheorems.RecordingIsUploaded: sends succeed; a failed send or a lost connection in the middle of a recording is not part of these runs.
- FirmwareTheorems.MutedHoldLeavesTheMicOn: mode requests during the hold, and presses that start a microphone the hold could not start, are not among its happenings.
- Handheld.CacheHandlers.PutBegin: the live playback of chunks and begins that announce a WAV container are not modelled; delivery sends neither that format nor a number of channels.
- Button.CallbacksAreCycles: the wrap-around of the tick counter is inside the elapsed-time parameter.
- Wav.WavToPcmChunks: a chunk size below 1 is excluded, because `range` rejects 0 and nothing passes a negative one.
- SpeechRouting.SpeechRouter.HandleStreamDelta: that no delivery is scheduled when the event loop is not running is not modelled.
- Silence.DetectSilence: the threshold arrives as an integer, its conversion from decibels is not modelled; sample rates are integers and the window is the rate divided by 20, rounded down.
