# Verified model of the voice-agent bridge

A Dafny model of a telephone agent that relays audio between a realtime speech model and
Twilio, together with the parts around it that must not go wrong: truncation of the
model's memory when the caller interrupts, text messages and bookings that must happen at
most once, escalation to a person, and the algorithms behind chunking, redaction, opening
hours, percentiles and the call budget. `dafny verify dfyconfig.toml` checks everything.

## How it is laid out

| file | what it models |
|---|---|
| `PlaybackLedger.dfy` | bytes handed to Twilio against bytes confirmed as played: the value, whole runs of it, and the object |
| `Base64.dfy` | the payload encoding of section 4 of RFC 4648 and the size shortcut |
| `MediaBridge.dfy` | the bridge cut at its await points: one state function per stretch that runs without yielding, and the object whose methods are those stretches |
| `MediaPlane.dfy` | the bridge running against Twilio: every interleaving of model events, writer steps, playback and mark echoes, with its invariants |
| `OtherItems.dfy` | audio the model sends for another item than the one taken to be current |
| `MediaTheorems.dfy` | what holds over every run of it |
| `CutOrder.dfy` | what a cut says and in which order, traced back to the moment it began |
| `Relay.dfy` | what reaches Twilio is what the model sent; the current item; the count of acknowledgements |
| `Truncation.dfy` | when the truncation figure is wrong, and by how much: runs that reach the bounds and the exact conditions |
| `Resilience.dfy`, `Sms.dfy` | the retry loop, its blocking twin, and any number of concurrent `send_sms` calls over the claim table |
| `Booking.dfy` | the per-key lock and result cache under concurrent dispatch, failure and cancellation |
| `Tools.dfy`, `CallSession.dfy`, `Text.dfy` | the tool runner, the escalation predicate, the streak counters, and whole calls |
| `WholeCall.dfy` | the media plane and the decisions of a call together, with the cut a safety escalation starts |
| `Chunker.dfy`, `Redaction.dfy`, `Hours.dfy`, `Metrics.dfy`, `Budget.dfy` | the algorithmic pieces |
| `Common.dfy` | `Option`, minima, maxima and ceilings |

An object that updates its fields is a class whose `View()` is a value, and each method is
tied to one function of the old value. The theorems are about those functions, over every
schedule: `Exec(steps)` replays any list of steps and skips one that cannot happen, so a
statement about `Exec(steps)` for all `steps` is a statement about every reachable state.

## What is assumed about the world

- Twilio is a FIFO buffer that receives what was written, in order. It may echo a mark once
  the audio before it was played or was dropped by a `clear`; echoes may come late, in any
  order, any number of times, or never.
- The message provider did not accept a send that failed while connecting or that it
  answered with 429 or 503. About every other failure nothing is assumed: it may have been
  accepted.
- The database enforces the unique key on `(client_id, dedupe_key)` and each statement
  is atomic.
- A mark's number stands for its name; `Bridge.MarkNamesDistinct` is why that loses nothing.
- A delta of the model's audio belongs to one item, which the bridge never looks at; what
  the caller has heard of an item counts its own audio queued since it started. Several
  items may be spoken side by side.
- A send that raises has written nothing.
- Audio payloads are padded encodings. Byte counts, delays, rates and percentages are exact.
- Opening hours are wall-clock days and microseconds of one local calendar.
- Paragraph and sentence splits are given as sequences; the words that signal a request for
  a person or a negative mood are a parameter, with the service's own lists as a constant.

## Where the code and its documentation disagree

- `apps/api/media/bridge.py:420-423` says the ledger keeps `audio_end_ms` a statement about
  what the caller heard. It can be too high in two ways: a new item's offset is the ledger's
  watermark, while frames of the item before it may still wait in the bridge's own queue;
  and any message item that is added becomes current, while deltas of another may go on
  arriving. `MediaTheorems.FigureBound` gives the exact slack,
  `Truncation.OverReportAttained` and `Truncation.WrongItemReported` a run of each kind for
  any payload. `Truncation.OverReportPossibleIff` says when an item spoken alone is at risk,
  `Truncation.OverReportWithOthersIff` that one spoken alongside others always is.
- `apps/api/observability/metrics.py:33-37` calls the unacknowledged audio the whole of the
  truncation error. After a drained start, with no other item's audio, it is that exactly
  when as many bytes of the item are written and unheard as are written and unrecorded, and
  it covers the error exactly when at least as many are
  (`Truncation.UnplayedIsWholeErrorIff`); `Truncation.UnplayedFallsShort` is a run in which
  it does not.
- `apps/api/telephony/sms.py:41` promises never to raise. It raises exactly when a send
  raised outside `httpx.HTTPError`, a retry was due by a `Retry-After` that cannot be used,
  the call was cancelled, the database failed, or the accepted response was not a JSON
  object (`Sms.RaisesIff`, `Sms.UntroubledRaisesIff`); `Sms.SendSmsCanRaise` gives such calls.
- `apps/api/resilience.py:142-148` says only a transport error propagates. A date in
  `Retry-After` that is out of range raises `OverflowError`, which lines 113-114 do not
  catch, and a delay that is not finite raises when line 131 rounds it for the log
  (`Resilience.RetryOutcome`, `Resilience.NotFiniteRaisesInBoth`).
- `apps/api/media/budget_guard.py:80` says the wrap-up flag is set once the instruction was
  delivered; `apps/api/media/bridge.py:632-635` sets it before sending. The flag stands for
  nothing delivered exactly when that one send raised (`Budget.WatchBudget`), as in
  `Budget.MarkedButNotDelivered`.
- `apps/api/domain/hours.py:81` promises an open instant. The configuration accepts a window
  that ends before it starts, and `next_open` offers it although it is never open. The
  promise holds, at every instant, exactly for configurations without such a window
  (`Hours.OffersOpenIff`).
- The two retry loops are called twins. They part exactly when an outcome that is slept on
  carries a negative `Retry-After` (`Resilience.TwinsAgree`, `Resilience.TwinsPart`).
- `apps/api/cli/kb_ingest.py:55-57` can push an empty chunk, exactly as
  `Chunker.EmptyChunkIff` says; the length filter removes it.
- `apps/api/media/bridge.py:648-656` is exact on padded encodings and negative on `"="`.

## Model

| member | source | states |
|---|---|---|
| MediaTheorems.FigureBound | apps/api/media/bridge.py:394-485 | in every reachable state with an item current, the figure a cut would report exceeds what the caller heard of the item's own audio by at most the earlier audio queued or in flight when it started plus the other items' audio heard since, which is at most what was queued of theirs; it never over-reports after a drained start with no other item's audio; and it falls short by at most the unacknowledged audio, one unrecorded frame and what a dead writer lost |
| MediaTheorems.CutReadsBoundedFigure | apps/api/media/barge_in.py:63-66 | on either interruption path the figure is the reported bytes to the millisecond, zero when there are none; its error against what was heard is bounded from above and from below; and the discarded figure is the unacknowledged bytes to the millisecond |
| MediaTheorems.TruncateMessageBounded | apps/api/media/barge_in.py:81-90 | every truncate the model is ever sent names the ledger's current item, is positive, and is not above the bound at the moment it is sent |
| CutOrder.TruncateCarriesFigure | apps/api/media/barge_in.py:63-90 | every truncate sent carries the item and the figure of the moment its cut began, to the millisecond and within the error bounds of that moment on both sides |
| CutOrder.CutTells | apps/api/media/barge_in.py:75-90 | once a cut has sent its messages, the model has been told to cancel and then to truncate, if and only if an item was current with at least eight bytes reported when the cut began; otherwise to cancel and nothing else |
| CutOrder.FlushComesFirst | apps/api/media/barge_in.py:68-83 | over every run each cancel is sent behind a flush of its own, and each truncate right behind a cancel |
| CutOrder.BargeInsAreTruncations | apps/api/media/bridge.py:480-482 | without safety cuts, the barge-ins counted are the truncates sent, up to the cut that has yet to return |
| CutOrder.RaisedCutIsLast | apps/api/media/bridge.py:329-339 | once a send inside a cut has raised, the model is told nothing more and no event of its is taken |
| Relay.PayloadsRelayed | apps/api/media/bridge.py:387-441 | over every run frames are numbered by the deltas that had a stream, and each frame queued, held or written carries the payload of its own delta unchanged |
| Relay.CurrentItemIsLast | apps/api/media/bridge.py:347-350 | the current item is the one that last really started, unless a cut has reset the ledger since |
| Relay.AcksCountOnce | apps/api/media/bridge.py:295-298 | however often Twilio echoes, no frame is counted as acknowledged twice |
| OtherItems.OthersHold | apps/api/media/bridge.py:335-350 | over every run no more of other items' audio is heard than was queued of it since the current item started |
| Truncation.SlackAttained | apps/api/media/playback_ledger.py:85-88 | from every reachable item start with earlier audio pending and a live writer, the bridge and Twilio merely going on reach a figure that claims all of that audio while none of the item has been heard |
| Truncation.OverReportPossibleIff | apps/api/media/playback_ledger.py:85-88 | for an item spoken alone, some continuation over-reports if and only if earlier audio was queued or in flight at its start and the writer was alive |
| Truncation.OverReportWithOthersIff | apps/api/media/bridge.py:347-350 | when other items may be spoken alongside, some continuation over-reports if and only if the writer was alive at the start |
| Truncation.OverReportAttained | apps/api/media/playback_ledger.py:85-88 | for every non-empty payload there is a run in which the over-report equals the slack and the caller has heard nothing of the item |
| Truncation.WrongItemReported | apps/api/media/bridge.py:347-350 | for every non-empty payload there is a run, drained at item start, in which an item without audio is reported as heard because another was being spoken |
| Truncation.UnplayedIsWholeErrorIff | apps/api/observability/metrics.py:33-37 | after a drained start with no other item's audio, at any instant of playback: heard and still unheard bytes equal the figure, the unacknowledged and the unrecorded; the unacknowledged audio is the whole error if and only if as much is unheard as is unrecorded, and covers it if and only if at least as much is |
| Truncation.UnplayedFallsShort | apps/api/observability/metrics.py:33-37 | for every non-empty payload there is a run in which the caller has heard more than the figure and the unacknowledged audio together |
| MediaTheorems.TruncatesSeparated | apps/api/media/barge_in.py:60-93 | over any run two truncates have an item that really started between them |
| MediaTheorems.SpentUntilItem | apps/api/media/playback_ledger.py:90-102 | once nothing of an item is left to truncate, nothing short of an item that really starts changes that |
| MediaTheorems.SilentWhileCutting | apps/api/media/bridge.py:472-484 | from the drain of an interruption until it returns the queue stays empty and at most one media write completes, and only if the writer already held a frame |
| MediaTheorems.QueueTheorem | apps/api/media/bridge.py:239-243 | frames enqueued are conserved across written, overflowed, discarded, queued, in flight and at most one lost; the queue is a contiguous block of the latest marks within the ceiling; the unfinished count is zero exactly when nothing is queued or held |
| Truncation.DrainCanFinish | apps/api/media/bridge.py:239-243 | from every reachable state with a live writer, mid-cut or not, the writer's own steps can bring the unfinished count to zero, and then every unfinished frame has gone to the caller |
| Truncation.DrainFinishesIff | apps/api/media/bridge.py:239-243 | the writer's and Twilio's progress can complete a drain if and only if the writer lives or nothing is queued |
| MediaTheorems.WireAlternates | apps/api/media/bridge.py:425-453 | leaving out clears, everything written alternates media and its own mark, in strictly increasing order |
| MediaTheorems.BridgeLedgerIsARun | apps/api/media/bridge.py:442 | inside the bridge the ledger only ever sees fresh marks and positive sizes, so every outstanding mark is the last reset's baseline plus what was recorded since, up to it |
| Plane.InvHolds | apps/api/media/bridge.py:394-485 | every schedule keeps the whole invariant: queue, wire, playback, echoes and ledger accounting |
| Plane.QueueInvStep | apps/api/media/bridge.py:403-415 | each step keeps the queue's block of marks, its ceiling, frame conservation and the unfinished count |
| Plane.PushedShape | apps/api/media/bridge.py:403-415 | below two hundred frames a new one is added, at two hundred it takes the place of the oldest, and only then is a drop counted |
| Plane.LogInvStep | apps/api/media/bridge.py:425-442 | each step keeps written marks strictly increasing and below everything still queued |
| Plane.TwilioInvStep | apps/api/media/playback_ledger.py:3-6 | each step keeps playback behind what was received, and no clear between the two |
| Plane.EchoedInvStep | apps/api/media/playback_ledger.py:62-70 | each step keeps every echo Twilio may return a mark that was written |
| Plane.HeardInvStep | apps/api/media/barge_in.py:68-70 | each step keeps what was heard since the item started equal to the bytes queued since that lie before Twilio's playback position, and an echoed mark of them behind that position, until a clear goes out |
| Plane.AccountedStep | apps/api/media/playback_ledger.py:57-76 | each step keeps every outstanding mark's total within the slack of the audio in front of it, the queued watermark within the slack of what was recorded, and the played watermark within the slack of what was heard |
| Plane.AccountedItem | apps/api/media/bridge.py:347-350 | an item start, with frames still queued or held, re-establishes the accounting with exactly those bytes as slack |
| Bridge.MediaBridge.TaskDone | apps/api/media/bridge.py:453 | finishing a task needs an unfinished one; every caller is shown to have it, so the count never underflows |
| Bridge.MediaBridge.SendAudio | apps/api/media/bridge.py:387-415 | enqueues the newest frame, dropping the oldest and only the oldest when full, and keeps the count balanced |
| Bridge.MediaBridge.GetFrame | apps/api/media/bridge.py:426 | the writer holds the oldest queued frame, which stays unfinished |
| Bridge.MediaBridge.WriteMedia | apps/api/media/bridge.py:428-434 | the held frame's payload, and nothing else, is appended to the wire |
| Bridge.MediaBridge.WriteMark | apps/api/media/bridge.py:435-441 | the held frame's mark is appended after its media |
| Bridge.MediaBridge.RecordFrame | apps/api/media/bridge.py:442-453 | only now does the frame enter the ledger, and the count stays balanced |
| Bridge.MediaBridge.PumpFrame | apps/api/media/bridge.py:425-453 | one uninterrupted turn of the writer is its four stretches in order |
| Bridge.MediaBridge.OnMark | apps/api/media/bridge.py:295-298 | an echo moves the ledger and counts exactly when the mark was outstanding |
| Bridge.MediaBridge.OnItemAdded | apps/api/media/bridge.py:347-350 | a new item starts at the ledger's queued watermark and keeps outstanding marks |
| Bridge.MediaBridge.DiscardQueuedAudio | apps/api/media/bridge.py:455-469 | empties the queue, reports how many frames went, finishes one task for each and touches nothing else |
| Bridge.MediaBridge.StartCut | apps/api/media/bridge.py:472-480 | the queue is emptied first and both figures taken from the ledger's byte counts with nothing awaited in between; the safety path reads without emptying |
| Bridge.MediaBridge.AdvanceCut | apps/api/media/barge_in.py:68-93 | each stage of the cut sends exactly its message, and the ledger is reset only after the last |
| Bridge.MediaBridge.OnBargeIn | apps/api/media/barge_in.py:60-93 | an uninterrupted cut sends clear, then cancel, then a truncate exactly when part of an item was played, carrying the figure read beforehand, and leaves no item, no marks and equal watermarks |
| Bridge.UninterruptedMeans | apps/api/media/bridge.py:472-484 | run without interruption the cut flushes, cancels, truncates exactly when a whole millisecond of an item was played, counts exactly then, and leaves nothing queued or current |
| Bridge.MarkNamesDistinct | apps/api/media/bridge.py:396-398 | different sequence numbers never share a mark name |
| Base64.DecodedSizeExact | apps/api/media/bridge.py:648-661 | on every padded encoding the shortcut equals the length of the real decode, and is positive unless the payload is empty |
| Base64.RoundTrip | apps/api/media/bridge.py:659-661 | every byte string has a padded encoding that decodes to it, so the reference decode is a real one |
| Base64.KnownVectors | apps/api/media/bridge.py:659-661 | the encoding gives the published vectors of section 10 of RFC 4648 |
| Base64.LastLetters | apps/api/media/bridge.py:659-661 | the last two letters of the alphabet stand in their order |
| Base64.StrayPaddingIsNegative | apps/api/media/bridge.py:655-656 | the exactness needs a padded encoding: on a lone padding character the shortcut is negative |
| Ledger.AckConfluence | apps/api/media/playback_ledger.py:62-82 | any acknowledgements, with repeats and unknown names, leave played at the high water of the named marks and exactly the marks above it outstanding, with all watermarks ordered |
| Ledger.AckOrderIrrelevant | apps/api/media/playback_ledger.py:62-76 | acknowledging the same names in another order or more often ends in the same ledger |
| Ledger.LedgerRun | apps/api/media/playback_ledger.py:49-102 | over every run with fresh marks and positive sizes, watermarks stay ordered and each mark is the last reset's baseline plus the chunks sent since, up to it |
| Ledger.BytesToMs | apps/api/media/playback_ledger.py:28-29 | the largest whole number of milliseconds that fits in the bytes, zero for a negative count |
| Ledger.PlaybackLedger.OnChunkSent | apps/api/media/playback_ledger.py:57-60 | the new mark carries the cumulative total including its chunk |
| Ledger.PlaybackLedger.OnMarkAck | apps/api/media/playback_ledger.py:62-76 | never walks played backwards, and counts exactly when the mark was outstanding |
| Ledger.PlaybackLedger.Prune | apps/api/media/playback_ledger.py:78-82 | the loop removes exactly the marks at or below played, whatever order it visits them in |
| Ledger.PlaybackLedger.OnItemStarted | apps/api/media/playback_ledger.py:85-88 | the item begins at the queued watermark, and marks stay live |
| Ledger.PlaybackLedger.BeginNewItem | apps/api/media/playback_ledger.py:90-102 | all marks forgotten, both baselines on the played count |
| Resilience.RequestWithRetry | apps/api/resilience.py:136-171 | the loop gives the result, number of sends and total sleep of the recursive specification for every outcome and jitter sequence |
| Resilience.RequestWithRetrySync | apps/api/resilience.py:174-207 | likewise for the blocking loop, including its refusal of a negative sleep |
| Resilience.RetryOutcome | apps/api/resilience.py:150-169 | sends are one more than the leading outcomes the loop goes on past, capped at the attempts; the outcome is that of the last send, or an exception exactly when a retry was due by an unusable `Retry-After`; sleep is bounded by the cap per retry |
| Resilience.RequestHonoured | apps/api/resilience.py:158-169 | before each retry either loop waits exactly what was asked: the seconds as milliseconds, or until the date, at most the cap and at least nothing; without a usable request, the draw's share of the window |
| Resilience.WaitsAsAsked | apps/api/resilience.py:97-108 | over the whole run the sleep is at least the seconds the first answer asked for, or the cap when it asked for more |
| Resilience.WindowDoubles | apps/api/resilience.py:73-76 | the window is the base on the first retry and doubles from one to the next, up to the cap |
| Resilience.JitterIsUniform | apps/api/resilience.py:73-76 | the draw moves the delay evenly from nothing to the whole window |
| Resilience.SentAgain | apps/api/resilience.py:46-59 | which outcomes are sent again: an unsafe write after 429, 503 or a connection never made and nothing else; the other profiles after those and the named transient ones; a verdict never |
| Resilience.TotalSleepBounded | apps/api/resilience.py:73-76 | total sleep never exceeds the cap times one less than the attempts |
| Resilience.DelayBounds | apps/api/resilience.py:166-168 | a delay is at most the cap, negative exactly when the provider asked for a negative one, and missing exactly when the header cannot be used |
| Resilience.HintBounds | apps/api/resilience.py:97-118 | a usable `Retry-After` is at most the cap, and only the delay-seconds form can go negative; a number that is not finite passes the clamp and an out-of-range date raises |
| Resilience.UnreachableIffNoAttempts | apps/api/resilience.py:171 | the closing assertion is reached exactly by a policy with no attempts |
| Resilience.TwinsAgree | apps/api/resilience.py:160-205 | the two loops give the same run if and only if no attempt in the leading run of outcomes gone past, short of the last attempt allowed, asks for a negative delay |
| Resilience.TwinsPart | apps/api/resilience.py:166-169 | an answer of 503 asking for minus one second: one loop tries again and returns 200, the other raises |
| Resilience.NotFiniteRaisesInBoth | apps/api/resilience.py:125-133 | a not-a-number delay or an out-of-range date on the first answer raises out of both loops, before either sleeps |
| Resilience.ShippedSleeps | apps/api/resilience.py:85-94 | a live call sleeps at most the 100 ms of the tightest tool budget in all, the workers at most eight seconds, an unsafe write at most one |
| Resilience.UnsafeRetriesArePreDelivery | apps/api/resilience.py:53-94 | under the unsafe-write policy every send followed by another proved the message was not taken |
| Sms.AtMostOnce | apps/api/telephony/sms.py:57-99 | for one client and dedupe key, over all interleavings, crashes and ambiguous failures, at most one message was ever accepted and at most one call returns True, and they are the same call |
| Sms.TrueMeansAnswered | apps/api/telephony/sms.py:85-99 | over every run a call returns True, or is about to, only if its last send was answered below 400; and one so answered never returns False, and returns True unless trouble from outside hits it |
| Sms.FalseHasGround | apps/api/telephony/sms.py:49-92 | a call that returned False without sending had a reason: nothing configured, the number opted out, or the key held by another call; one that returned False after sending had its last send refused or failed |
| Sms.DeliveredIffTrue | apps/api/telephony/sms.py:94-99 | a claim row is marked delivered if and only if the call that holds it returned True |
| Sms.UnconfiguredTouchesNothing | apps/api/telephony/sms.py:49-55 | unconfigured, no call ever claims a key or reaches the provider |
| Sms.ReportReturnsTrue | apps/api/telephony/sms.py:94-99 | a reporting call returns True at its next step and marks its own row |
| Sms.InvHolds | apps/api/telephony/sms.py:33-99 | every schedule keeps claims unique, at most one acceptance per call, and a claim held by every guarded call past the claim |
| Sms.RaisesIff | apps/api/telephony/sms.py:81-97 | a call raises if and only if a send of its raised outside `httpx.HTTPError` or asked for a retry by an unusable header, or it was cancelled, or the database failed it, or the accepted response was not a JSON object |
| Sms.UntroubledRaisesIff | apps/api/telephony/sms.py:81-92 | without cancellation, database failure or a bad body, it raises if and only if its last send raised outside `httpx.HTTPError` or asked for a retry by an unusable header |
| Sms.SendSmsCanRaise | apps/api/telephony/sms.py:41 | three outcomes of a single send with which a call raises, although documented never to |
| Sms.SendsFollowTheLoop | apps/api/telephony/sms.py:81-92 | the machine's one-attempt-a-step sending is the retry loop followed by what the caller does with its outcome |
| Sms.OptOutRespected | apps/api/telephony/sms.py:57-61 | once a number has opted out, no call that has yet to check ever reaches the provider, however the run goes on |
| Sms.Database.ClaimSmsSend | apps/api/db/repository.py:220-237 | a fresh id exactly when the key was free, nothing changed otherwise, unique keys kept |
| Sms.Database.MarkSmsDelivered | apps/api/db/repository.py:240-253 | changes the delivered flag of that row only, and never releases the claim |
| Sms.Database.IsSuppressed | apps/api/db/repository.py:256-264 | true exactly for a number that opted out from this client |
| Sms.Database.MarkOptedOut | apps/api/db/repository.py:201-217 | adds that number for that client and changes no claim |
| Booking.OneBookingPerKey | apps/api/tools/booking.py:93-118 | over every interleaving, failure and cancellation, dispatches of one key are never both creating, at most one creation ever returns, all ok results carry that booking, and at most one is not marked as deduplicated |
| Booking.EveryBookingWasCreated | apps/api/tools/booking.py:99-118 | a booking anyone is told about was returned by `create_booking` to a dispatch of that same key |
| Booking.LockNeverLeaks | apps/api/tools/booking.py:99-115 | a key is locked exactly while a live dispatch of it is creating, so a failure or cancellation always frees it |
| Booking.CreatorIsToldNew | apps/api/tools/booking.py:115-118 | the dispatch to which the creation returned, and no other, is told its booking is new |
| Booking.EntryDecides | apps/api/tools/booking.py:99-106 | in every reachable state a dispatch that gets its turn waits if and only if another is creating for its key, is told the booking if one was created, and otherwise creates |
| Booking.EndsTold | apps/api/tools/booking.py:99-118 | a dispatch ends as new if and only if its own creation really returned that booking, and as failed if and only if that raised or it was cancelled |
| Booking.InvHolds | apps/api/tools/booking.py:93-118 | every schedule keeps each cached booking traced to its one creator and each held lock to its one live holder |
| Booking.BookingGuard.LockFor | apps/api/tools/booking.py:64-65 | one lock per key, made on first use and never replaced |
| Booking.BookingGuard.Enter | apps/api/tools/booking.py:99-104 | waits, hits the cache and releases, or takes the lock to create |
| Booking.BookingGuard.Store | apps/api/tools/booking.py:115 | the result is cached before the lock is free |
| Booking.BookingGuard.Release | apps/api/tools/booking.py:99 | leaving without a result frees the lock and caches nothing |
| Tools.RunTool | apps/api/tools/registry.py:136-188 | the loop makes the attempts of the specification, stops at the first ok, reports whether any timed out, and spends exactly the budgets of the attempts made |
| Tools.RunMeans | apps/api/tools/registry.py:149-200 | a second attempt if and only if the first was not ok and the policy gives one; the last attempt's own result, or unavailable with an offer of a person or a callback by policy; whether any attempt timed out; and the exact time allowed |
| Tools.OkComesFromTheHandler | apps/api/tools/registry.py:159-178 | ok if and only if a permitted attempt of the handler itself returned ok, and the result is that attempt's |
| Tools.AttemptsAndBudgets | apps/api/tools/registry.py:155-160 | one or two attempts, one when the policy escalates, with total budget within the timeout plus half of it or 100 ms |
| Tools.FailuresCarryHints | apps/api/tools/registry.py:46-52 | with well-formed handlers every result that is not ok tells the model what to say |
| CallSession.CountersAreTrailingRuns | apps/api/domain/state.py:55-65 | in every call the counters are the lengths of the trailing failing and negative runs of what was recorded, the call escalates and transfers at most once, and it interrupts playback at most once and for safety only |
| CallSession.EscalatesIffTriggered | apps/api/media/bridge.py:551-558 | a call is escalated exactly when some event brought the predicate to hold at a check |
| CallSession.EscalatesIffWarranted | apps/api/domain/escalation.py:71-94 | a call has escalated if and only if, at some event that came to a check, the last words held a safety keyword or request phrase in any letter case, or the recorded failures or moods ended in a run as long as the limit |
| CallSession.ReasonMeans | apps/api/domain/escalation.py:58-94 | each reason holds exactly when the words said, or the trailing run of the recorded history, warrant it |
| CallSession.NothingWarrantedLeft | apps/api/media/bridge.py:551-558 | right after an event that came to a check, a call that has not escalated warrants nothing |
| CallSession.StreakEscalates | apps/api/domain/escalation.py:82-92 | a trailing run of failures or of bad moods as long as its limit never goes unanswered |
| CallSession.WordsEscalate | apps/api/domain/escalation.py:58-80 | nor does a transcript that says a safety keyword or a request phrase in any letter case |
| CallSession.RunRemembers | apps/api/media/bridge.py:486-613 | what a call goes by is what its events said and did: the last words, the turns, every recognised mood, every tool outcome in order, and the last service-area answer |
| CallSession.FirstTriggerDecides | apps/api/media/bridge.py:551-580 | it escalates at the first such event, for that event's highest-priority reason and no other ever; playback is interrupted once if that reason is safety and the stream had started, and otherwise never |
| CallSession.LatchStays | apps/api/media/bridge.py:552-558 | once escalated, nothing later un-escalates the call or adds a reason |
| WholeCall.BothHalvesRun | apps/api/media/bridge.py:329-385 | every run of the whole call is a run of the media plane and a run of the decisions, so the theorems about either hold of it |
| WholeCall.SafetyCutBegins | apps/api/media/bridge.py:568-570 | in every whole call an event starts a cut if and only if it is the first to escalate, for safety, on a started stream; the cut names the current item, reads the reported bytes to the millisecond within the error bounds on both sides, and leaves the queue as it is |
| WholeCall.SafetyCutsOnce | apps/api/media/bridge.py:551-570 | over a whole call playback is cut for safety at most once, and only when safety was the reason of the one escalation |
| WholeCall.SafetyCutKeepsQueue | apps/api/media/bridge.py:568-570 | run to its end the safety cut sends what the caller's interruption sends and resets the ledger alike, but every queued frame is still there to be written behind the flush |
| CallSession.InvHolds | apps/api/media/bridge.py:551-613 | every run of events keeps both counters equal to trailing runs and the latch, reason and transfer counts in step |
| CallSession.DecisionIsHighestPriority | apps/api/domain/escalation.py:71-94 | the decision is a reason exactly when it holds and nothing of higher priority does |
| CallSession.DecisionIsWarranted | apps/api/domain/escalation.py:71-94 | safety before request before failures before frustration: the decision is the first of these that is warranted, and none only when none is |
| CallSession.CheckEffect | apps/api/media/bridge.py:551-580 | the mutual recursion of check and dispatch ends after one automatic transfer, and that transfer cannot confirm a booking |
| CallSession.BookedMeansBooked | apps/api/media/gateway.py:183-242 | a call is classified as booked if and only if a permitted attempt of the booking handler returned ok in some event of it |
| CallSession.EscalatedOutcome | apps/api/media/gateway.py:183-193 | a call is classified as escalated if and only if some event triggered and no booking attempt returned ok |
| CallSession.OutcomeMeans | apps/api/media/gateway.py:183-193 | which of the five outcomes a call gets, told from its events alone |
| CallSession.CallState.RecordTool | apps/api/domain/state.py:55-59 | history grows by the outcome; the streak is cleared by ok and only by ok |
| CallSession.CallState.RecordSentiment | apps/api/domain/state.py:61-65 | the negative streak grows on a listed mood and is cleared by any other |
| CallSession.CallState.OnInvocation | apps/api/media/gateway.py:226-242 | only an ok of the two named tools changes the booking and service-area flags |
| CallSession.CallState.Decide | apps/api/domain/escalation.py:71-94 | the decision over the live state, without changing it |
| CallSession.Session.CheckEscalation | apps/api/media/bridge.py:551-580 | latches, interrupts playback on a safety reason once the stream has started, and only then dispatches, so the recursion stops |
| CallSession.Session.OnStreamStart | apps/api/media/bridge.py:305-315 | from here on playback can be interrupted |
| CallSession.Session.DispatchCall | apps/api/media/bridge.py:585-613 | runs the tool or denies an unknown one, runs the hook, records the outcome, then checks |
| CallSession.Session.OnCallerTranscript | apps/api/media/bridge.py:486-493 | a blank transcript changes nothing; any other is recorded and then checked |
| CallSession.Session.OnSentimentVerdict | apps/api/media/bridge.py:517-530 | an unknown mood changes nothing; any other is recorded and then checked |
| CallSession.VerdictMeans | apps/api/media/bridge.py:518-519 | a mood is recognised in any letter case, with dots behind it and blanks around |
| Text.ContainsMeansSays | apps/api/domain/escalation.py:58-68 | the keyword test finds the keyword in either case of each letter, anywhere in the text, and nothing else |
| Text.StripsToNothing | apps/api/media/bridge.py:487-488 | a transcript is ignored exactly when it is blank throughout |
| CallSession.Session.OnFunctionCall | apps/api/media/bridge.py:582-583 | the model's call goes through the same dispatch as the automatic transfer |
| Chunker.ChunkText | apps/api/cli/kb_ingest.py:41-62 | the string-building loop gives the texts of the grouping specification, short ones dropped |
| Chunker.SplitLong | apps/api/cli/kb_ingest.py:65-76 | the sentence loop, stripping included, gives the texts of the same filling |
| Chunker.ProcessParagraph | apps/api/cli/kb_ingest.py:46-59 | one turn of the paragraph loop pushes and buffers what the specification says, and never buffers a blank piece |
| Chunker.DropShort | apps/api/cli/kb_ingest.py:62 | the filter over the pushed chunks, in order |
| Chunker.NothingLost | apps/api/cli/kb_ingest.py:41-62 | before short chunks are dropped, the chunks hold exactly the document's pieces, once each and in order |
| Chunker.OnlyShortDropped | apps/api/cli/kb_ingest.py:62 | the final filter removes every copy of a short chunk and keeps every copy of any other |
| Chunker.KeepLongMeans | apps/api/cli/kb_ingest.py:62 | the filter keeps, in order, exactly the chunks of sixty characters or more |
| Chunker.JoinMeans | apps/api/cli/kb_ingest.py:59 | a chunk's text is its pieces in order with one separator between |
| Chunker.PackIsGreedy | apps/api/cli/kb_ingest.py:55-59 | no chunk is closed while the next piece would still have fitted |
| Chunker.CeilingHolds | apps/api/cli/kb_ingest.py:41-76 | every chunk is within the ceiling or is one single sentence over it |
| Chunker.PackingOptimal | apps/api/cli/kb_ingest.py:55-59 | no order-preserving grouping of the same pieces under the same ceiling has fewer non-empty chunks |
| Chunker.RunIsPacked | apps/api/cli/kb_ingest.py:45-61 | each maximal run of paragraphs that fit is filled by itself, so the optimality applies to it |
| Chunker.LongParagraphIsPacked | apps/api/cli/kb_ingest.py:49-54 | each over-long paragraph is filled by itself over its sentences |
| Chunker.DocumentIsFilled | apps/api/cli/kb_ingest.py:41-76 | the whole loop is filling, segment by segment: each maximal run of fitting paragraphs and the sentences of each over-long one |
| Chunker.DocumentOptimal | apps/api/cli/kb_ingest.py:41-76 | of a whole document, no plan that groups each segment in order under the same ceiling has fewer chunks than the loop's non-empty ones |
| Chunker.SegmentsCover | apps/api/cli/kb_ingest.py:45-54 | the segments put together are the document's pieces in order |
| Chunker.EmptyChunkIff | apps/api/cli/kb_ingest.py:55-57 | a document pushes an empty chunk if and only if some paragraph that fits with fewer than two characters to spare stands, blank ones aside, at its start or behind an over-long paragraph; the filter always drops it |
| Redaction.NoCardRemains | apps/api/security/redaction.py:16 | after the numeric pass no run of 13 to 19 digits with single separators and no digit on either side is left anywhere, across replaced parts too |
| Redaction.ScanKeepsText | apps/api/security/redaction.py:34-49 | the pieces kept and the pieces replaced, put together, are the text; everything replaced is card-shaped |
| Redaction.LeftmostLongest | apps/api/security/redaction.py:16 | piece after piece, what is replaced is the longest card beginning where the text in front of it ends, and no card begins at a kept character |
| Redaction.RightAt | apps/api/security/redaction.py:49 | the same of the piece at any position, by its place in the text |
| Redaction.CardMeans | apps/api/security/redaction.py:16 | card-shaped is what the pattern says: thirteen to nineteen digits, single spaces or dashes between neighbours, and no digit on either side |
| Redaction.NoCardText | apps/api/security/redaction.py:16 | no such stretch of text is left in the output |
| Redaction.LoneNumber | apps/api/security/redaction.py:34-49 | a number on its own is replaced whole from thirteen digits to nineteen and otherwise left alone |
| Redaction.RedactFixesClean | apps/api/security/redaction.py:54-55 | a text is unchanged if and only if it holds no card, and a second pass changes nothing |
| Redaction.LaterPassesKeepClean | apps/api/security/redaction.py:49-51 | whatever the later passes replace, in any number and order, as long as it is whole digit groups by digit-free text, no card-shaped sequence comes back |
| Redaction.StructureRedacted | apps/api/security/redaction.py:58-74 | every string and key of a structure, at any depth, comes out clean |
| Redaction.StructureFixesClean | apps/api/security/redaction.py:58-74 | a structure with nothing to redact comes back whole, and redacting twice is redacting once |
| Redaction.StructureMeans | apps/api/security/redaction.py:68-74 | level by level: strings redacted, lists item by item, other values as they were, and each key of a dictionary with the redacted value of the last entry whose redacted key it is |
| Hours.NothingOpenSkipped | apps/api/domain/hours.py:80-95 | the answer is at or after now and within the horizon, with no open moment before it; no answer means none in the horizon |
| Hours.OpenIffWindowIsForward | apps/api/domain/hours.py:31-32 | the answer is open if and only if that day's window starts before it ends |
| Hours.OffersOpenIff | apps/api/domain/hours.py:80-95 | whatever is offered, at whatever instant it is asked for, is open if and only if every range of the configuration that is not closed starts before it ends |
| Hours.FirstOpenMoment | apps/api/domain/hours.py:80-95 | with forward windows the answer is the first open moment of the horizon whenever there is one |
| Hours.WeekdayRanges | apps/api/domain/hours.py:17-45 | Monday to Friday, Saturday and Sunday each keep their own range, closed from its end on |
| Hours.OvernightWindowNeverOpens | apps/api/domain/hours.py:31-45 | a window across midnight is offered as an opening although no moment is ever open |
| Hours.NoneIffNeverOpens | apps/api/domain/hours.py:83-95 | with a week's horizon or more, no answer if and only if every range is closed |
| Metrics.NearestRank | apps/api/observability/metrics.py:40-53 | the percentile is a sample with at least its share at or below it and less than its share strictly below it |
| Metrics.NearestRankUnique | apps/api/observability/metrics.py:43-45 | those two counts single out one value, so they are a full specification |
| Metrics.PermutationInvariant | apps/api/observability/metrics.py:49 | the order of the samples does not matter |
| Metrics.PercentileMonotone | apps/api/observability/metrics.py:50-53 | a larger share never gives a smaller value, outside (0, 1] too |
| Metrics.SummaryOrdered | apps/api/observability/metrics.py:79-88 | p50, p95 and max are observed and in order, and missing exactly when nothing was measured |
| Metrics.SummaryMeans | apps/api/observability/metrics.py:79-88 | at least half, and at least nineteen twentieths, of the samples are at or below p50 and p95, and less than that strictly below; max is the largest |
| Metrics.PresentMeans | apps/api/observability/metrics.py:80 | missing samples are left out and nothing else is |
| Metrics.NoShareIsMinimum | apps/api/observability/metrics.py:50-51 | a share of nothing or less is the smallest sample |
| Metrics.FullShareIsMaximum | apps/api/observability/metrics.py:52-53 | the whole share or more is the largest |
| Metrics.Group | apps/api/observability/metrics.py:212-214 | each tool's list is its rows in order, no tool is missing and none is empty |
| Metrics.RollupConserves | apps/api/observability/metrics.py:216-225 | calls, failures and retries of the tools, listed in any order, add up to those of the rows |
| Metrics.Rollup | apps/api/observability/metrics.py:212-225 | the report has one entry for each tool, in the order of the names, with the counts and the latency distribution of exactly that tool's rows, and the entries add up to the rows |
| Metrics.CountsMean | apps/api/observability/metrics.py:220-221 | a failure is a row whose tool was unavailable or denied, a retry one on a later attempt |
| Metrics.OfMeans | apps/api/observability/metrics.py:212-214 | a tool's rows are, part by part and in order, exactly those with its name |
| Metrics.LatenciesMean | apps/api/observability/metrics.py:222 | a tool's latencies are those of its rows, one for one |
| Metrics.LeqMeans | apps/api/observability/metrics.py:224 | the order of names: the first difference decides, and a name comes before its extensions |
| Budget.PhaseByThreshold | apps/api/media/budget_guard.py:83-97 | the phase as elapsed-time thresholds: expired from the smaller of the seconds ceiling and the time the cost ceiling takes, wrap-up from the configured share of the same |
| Budget.PhasesAdvance | apps/api/media/budget_guard.py:92-97 | along non-decreasing time the phase never goes back |
| Budget.CostOfAMinute | apps/api/media/budget_guard.py:60-62 | the estimate for a call of no time and of one minute |
| Budget.LastTickIsLeast | apps/api/media/bridge.py:616-630 | the number of ticks within which the loop ends is the fewest that will do |
| Budget.BudgetGuard.Check | apps/api/media/budget_guard.py:83-97 | the phase at that elapsed time |
| Budget.BudgetGuard.NeedsWrapUpNow | apps/api/media/budget_guard.py:108-113 | wrap-up is due exactly in its phase and before it was marked |
| Budget.BudgetGuard.MarkWrapUpSent | apps/api/media/budget_guard.py:79-81 | the mark is set, and nothing clears it |
| Budget.WatchBudget | apps/api/media/bridge.py:616-641 | the loop ends at the first tick that finds the call stopped or expired, or when sending the instruction raises, within a number of ticks fixed by the ceilings; the instruction is tried at most once, at the first tick it is due, never at or after expiry is seen; and it is marked sent without having been delivered if and only if that send raised |
| Budget.MarkedButNotDelivered | apps/api/media/bridge.py:632-640 | a call whose socket is gone when the instruction is due: marked as sent, nothing delivered |

## Left out

- Sockets, HTTP, routing, background workers, the database engine, vector search and configuration loading: I/O.
- The dashboard, call markup, prompts, session payloads, fixture replay and evaluation scenarios.
- Stopping and shutting down: the drain's timeout and the closing of sockets.
- The first-audio latency clock, transcripts, live events and log lines.
- Payloads that are not padded encodings: for those the shortcut is only shown to be able to go wrong.
- A send that raises inside an interruption ends the model's event loop; the shutdown of the other three pumps that follows is not modelled.
- WholeCall.SafetyCutBegins: takes the transfer that follows a safety escalation together with the escalation; in the source it is dispatched once the cut has returned, and not at all when the cut raised.
- Any claim that the safety path silences queued audio: it does not drain the bridge's queue.
- A claim that the provider can never hold two bookings: a cancelled create may have been accepted.
- The handler's arguments and data, except the service-area answer; filler phrases and the return of results to the model.
- Failures of the persistence hooks during a call, which would end the event loop.
- `live_sentiment` and the request for a mood label: a verdict is an event that may or may not arrive.
- Hashing of the idempotency key: distinct call and slot pairs are taken to have distinct keys.
- Redaction.NoCardRemains: is about ASCII digits and the numeric pass; the two passes after it enter through `Redaction.LaterPassesKeepClean`, by the shape of what they replace.
- Redaction.ScanKeepsText: is about the numeric pass over ASCII digits; what the spoken-digit and security-code patterns match is not modelled.
- Redaction.RedactFixesClean: is about the numeric pass; a text without a card may still lose spoken digits or a security code to the later passes.
- Redaction.StructureRedacted: gives each string the numeric pass alone.
- Redaction.StructureFixesClean: gives each string the numeric pass alone.
- The phone-masking helpers, emergency fees, `dispatch_decision` and `celery_countdown`.
- Time zones and daylight saving: local wall-clock moments only.
- Rounded percentages and costs in the budget status, and which ceiling is named as binding.
- Breach flags of the gate report.
- Hints are modelled by what they tell the model to offer, not by their wording.
- Metrics.NearestRank: takes the share over exact reals; rounding of the product in floating point can move the rank by one.
- Metrics.NearestRankUnique: takes the share over exact reals, likewise.
- Ledger.BytesToMs: is the exact floor; the source divides in floating point and can land a millisecond off.
- Text.Strip: covers ASCII whitespace only, as `ToLower` covers ASCII letters only.
