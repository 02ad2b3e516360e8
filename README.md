# VRChat fishing bot — a Dafny model of its detection and state machine

The bot plays the fishing minigame of VRChat. It casts by holding the E key,
listens to the game's audio until a splash says a fish bites, then holds E to
reel while the reel music plays, and releases once the music has stopped. Three
threads share one FIFO, `audio_queue`:

- the **sampler** reads the game's peak level every 50 ms, smooths it and
  enqueues a `volume_update` for every reading and a `sound_detected` for every
  spike that is outside the spike cooldown;
- the **state machine** (`fishing_cycle`) casts, waits for a bite and reels;
- the **display consumer** (`process_audio_queue`) takes `volume_update`
  entries for the chart and puts the other entries back.

The model is split by concern:

- `events.dfy` (`Events`) holds the shared vocabulary: queue entries, key
  events, the tunables, and the `Tick` one polling iteration observes.
- `sampler.dfy` (`Sampler`) holds the smoothing step `Smooth` (lines
  510-513), the debounce `Fires` (518-525), and the monitoring loop as the
  function `SamplerRun` (504-525).
- `bite.dfy` (`BiteWait`) holds `wait_for_bite` (558-608) as the functions
  `WaitEnd` (where the wait ends), `BiteFound` (what it returns) and
  `WaitLeftover` (what it leaves on the queue).
- `reel.dfy` (`Reel`) holds `reel_in_fish` (629-681) as the function
  `ReelRun`, summarised by `Reeling`.
- `display.dfy` (`Display`) holds the bounded chart history `AppendBounded`
  (303-305) and one call of the display consumer as `DrainForDisplay`
  (793-805).
- `cycle.dfy` (`Cycle`) holds the outer loop (708-742) as `CycleStep` for one
  iteration and `CyclesFrom` for the whole loop.
- `bot.dfy` (`Bot`) holds the class `FishingBot`. Its fields are the queue,
  the chart history and the trace of key events. Its methods run the loops of
  the source on those fields, and each `ensures` ties the new state to the
  functions above.

Concurrency is flattened:

- A polling loop of the state machine receives one `Tick(now, running,
  paused, arrived)` per iteration. `arrived` is the net change the other two
  threads made to the queue since the previous poll: what the sampler enqueued,
  less what the display consumer took in the meantime. The method appends it
  to the queue field.
- The monitoring loop receives one `Sample(now, running, peak)` per reading.
- The end of a finite trace counts as a stop request, so no trace is refused.
- Clock readings are inputs. `time.sleep` is left out, since it only spaces the
  iterations.

The first `time.time()` of each loop is modelled as its `start`. In
`reel_in_fish`, `last_sound_time` starts at that same `start` (lines 622-623).
All the readings taken later in one iteration are one `now`: `elapsed` (630),
`last_sound_time` for a loud `sound_detected` (652) and for a loud current
volume (658), and `time_since_last_sound` (664).

## Model

| member | source | states |
|---|---|---|
| Sampler.SmoothBetween | vrchat_fishing_bot.py:510-511 | With the coefficient in [0, 1] and a reading above the silence threshold, the new smoothed value lies between the previous value and the reading |
| Sampler.SmoothInUnit | vrchat_fishing_bot.py:510-513 | Previous value and reading in [0, 1] give a smoothed value in [0, 1] |
| Sampler.SilentStepDecays | vrchat_fishing_bot.py:512-513 | A reading at or below 0.001 multiplies the smoothed value by 0.95; a positive value strictly decreases and stays positive |
| Sampler.RunEventShape | vrchat_fishing_bot.py:504-525 | The sampler's first event is a `volume_update`; every `sound_detected` comes right after the `volume_update` of the same value, and that value exceeds `audio_threshold` |
| Sampler.RunEventCounts | vrchat_fishing_bot.py:518-525 | Exactly one `volume_update` per reading taken before the stop; one `sound_detected` per recorded spike |
| Sampler.RunSpikesSpaced | vrchat_fishing_bot.py:521-525 | Consecutive spikes, and the first spike after `last_spike_time`, are more than `spike_cooldown` apart; `last_spike_time` ends at the last spike |
| Sampler.SpikesPairwiseApart | vrchat_fishing_bot.py:521-525 | With a non-negative cooldown, any two emitted spikes are more than `spike_cooldown` apart |
| Sampler.RunVolumesInUnit | vrchat_fishing_bot.py:504-525 | Readings in [0, 1] keep every queued value and the final smoothed value in [0, 1] |
| Sampler.SilentRunDecays | vrchat_fishing_bot.py:512-518 | Over a silent stretch, the k-th queued volume is the start value decayed k+1 times |
| Sampler.DecayedIsPower | vrchat_fishing_bot.py:513 | Decaying n times multiplies by 0.95 to the power n |
| Sampler.DecayedDecreasing | vrchat_fishing_bot.py:513 | Each further silent reading strictly lowers a positive smoothed value, which stays positive |
| Sampler.DecayBound | vrchat_fishing_bot.py:513 | 0.95^n is positive and at most 1/(1 + 0.05 n) |
| Sampler.SilenceFades | vrchat_fishing_bot.py:512-513 | Silence drives the smoothed value below any positive bound after finitely many readings |
| Sampler.TwoBurstsEmitNothing | vrchat_fishing_bot.py:510-525 | Readings 0, 0, 0.9, 0, 0, 0.9 at 50 ms on the wall clock, with threshold 0.5 and coefficient 0.3, end at a smoothed value of 0.4405725 and emit no `sound_detected` |
| Sampler.SteadyLoudFires | vrchat_fishing_bot.py:510-525 | On the same clock and settings, two readings of 1.0 emit exactly one `sound_detected`, at the second reading |
| BiteWait.WaitEndIsFirstStop | vrchat_fishing_bot.py:558-600 | The wait ends on the first iteration that is stopped or paused, finds a bite or passes 300 s; every earlier iteration went on |
| BiteWait.BiteFoundIff | vrchat_fishing_bot.py:558-608 | `wait_for_bite` returns True iff some iteration is running and not paused, is past the cooldown, and drains a `sound_detected`, with every earlier iteration going on |
| BiteWait.WaitTimeoutBound | vrchat_fishing_bot.py:598-600 | No iteration after one past 300 s is reached |
| BiteWait.StopMeansNoBite | vrchat_fishing_bot.py:558-608 | A stop or pause on the iteration the wait ends on gives False |
| BiteWait.LeftoverOnlyOnStop | vrchat_fishing_bot.py:558-608 | A True result leaves the queue empty; entries are left behind only by a False result on a stop or pause, and they are exactly what arrived for that poll, after every earlier iteration went on |
| BiteWait.CooldownArrivalsDiscarded | vrchat_fishing_bot.py:563-590 | What arrives on an iteration inside the cooldown changes neither where the wait ends nor whether that iteration is a bite |
| BiteWait.CooldownSoundIgnored | vrchat_fishing_bot.py:586-590 | The result of the wait does not depend on what arrives during the cooldown |
| BiteWait.FindSound | vrchat_fishing_bot.py:574-583 | The scan of a drained batch reports True iff the batch holds a `sound_detected` |
| Reel.CatchConditions | vrchat_fishing_bot.py:629-669 | A catch happens on a running, unpaused iteration at or after `min_reel_time`, with music heard and quiet for more than `additional_wait` |
| Reel.MusicOnlyAfterGrace | vrchat_fishing_bot.py:633-660 | `music_playing` becomes true only on an iteration at or after `min_reel_time` |
| Reel.QuietBatchNoMusic | vrchat_fishing_bot.py:646-660 | A batch whose values are all at or below the music threshold shows no music |
| Reel.QuietNeverCatches | vrchat_fishing_bot.py:629-681 | If nothing above the music threshold is queued or arrives, the reel never hears music and never catches |
| Reel.ReelTimeoutBound | vrchat_fishing_bot.py:679-681 | The reel ends no later than the first iteration past 120 s |
| Reel.CaughtAtEightPointSix | vrchat_fishing_bot.py:629-669 | With volume 0.2 from 6 s to 7 s and silence otherwise, the catch happens on the iteration at 8.6 s with the last sound at 7 s |
| Reel.ScanBatch | vrchat_fishing_bot.py:635-654 | The scan of a drained batch yields the last `volume_update` value (0.0 if none); it sets the music flag and last-sound time iff a `sound_detected` is above the threshold |
| Display.AppendBounded | vrchat_fishing_bot.py:303-305 | An update appends the value and drops the oldest entry once past 100; a history of at most 100 grows by one up to 100 and ends with the new value |
| Display.AppendAllBounded | vrchat_fishing_bot.py:303-305 | Any sequence of updates keeps the history at or below 100 entries, ending with the latest value |
| Display.DrainTakesLeadingVolumes | vrchat_fishing_bot.py:793-805 | One call takes the leading `volume_update` values, no more than 10; it stops at the budget, at an empty queue, or at the first other entry, which it moves to the tail |
| Display.DrainConserves | vrchat_fishing_bot.py:793-805 | One call loses and duplicates nothing: the old queue's multiset is what is left plus the entries taken |
| Display.DrainKeepsSounds | vrchat_fishing_bot.py:801-805 | The `sound_detected` entries on the queue are the same before and after a call |
| Display.DrainKeepsBite | vrchat_fishing_bot.py:801-805 | The queue holds a `sound_detected` after a call exactly when it held one before |
| Display.PutBackReorders | vrchat_fishing_bot.py:801-805 | The put-back reorders: `[sound 0.5, volume 0.2]` becomes `[volume 0.2, sound 0.5]` |
| Cycle.CyclesPointwise | vrchat_fishing_bot.py:708-738 | The outer loop makes one iteration per input up to the first stop, each as `CycleStep` describes |
| Cycle.SessionKeysMatched | vrchat_fishing_bot.py:457-466 | Every key-down of a session is followed by its key-up before the next key-down, so the key is released at the end |
| Cycle.ReelOnlyAfterBite | vrchat_fishing_bot.py:717-731 | The reel runs only in an unpaused iteration whose cast succeeded and whose wait found a bite; a catch needs the reel's key press and the reel's catch |
| Cycle.MissedLeavesStopArrivals | vrchat_fishing_bot.py:709-727 | An iteration without a bite leaves entries on the queue only when its wait ended on a stop or pause, and they are what arrived for that poll |
| Cycle.CatchesBounded | vrchat_fishing_bot.py:714 | Catches are at most the started cycles, which are at most the iterations |
| Bot.FishingBot.constructor | vrchat_fishing_bot.py:211-212 | The queue, chart history and key trace start empty |
| Bot.FishingBot.ClearQueue | vrchat_fishing_bot.py:549-553 | The queue is empty afterwards; nothing else changes |
| Bot.FishingBot.DrainAll | vrchat_fishing_bot.py:566-571 | The batch is the whole queue in order, and the queue is empty afterwards |
| Bot.FishingBot.MonitorAudio | vrchat_fishing_bot.py:487-533 | Without a session the queue is unchanged; otherwise the queue gains exactly the events of `SamplerRun` |
| Bot.FishingBot.CastLine | vrchat_fishing_bot.py:449-485 | When the window activates, one press and one release; the result says whether the cast was sent |
| Bot.FishingBot.WaitForBite | vrchat_fishing_bot.py:541-608 | The result is `BiteFound`; the queue is left as `WaitLeftover` says: a stop or pause keeps that poll's arrivals, and every other exit leaves it empty |
| Bot.FishingBot.ReelInFish | vrchat_fishing_bot.py:610-700 | If the window does not activate, nothing changes and the result is False. Otherwise one press and one release, the result is the catch of `Reeling`, and the queue ends empty |
| Bot.FishingBot.UpdateVolumeHistory | vrchat_fishing_bot.py:303-305 | The history becomes `AppendBounded` of the old history |
| Bot.FishingBot.DisplayStep | vrchat_fishing_bot.py:795-805 | One pass takes a head `volume_update` to the chart, or moves the head to the tail and stops, as `DrainForDisplay` does |
| Bot.FishingBot.ProcessAudioQueue | vrchat_fishing_bot.py:785-810 | The queue becomes the rest of `DrainForDisplay` and the history gets its volumes, with at most 10 per call |
| Bot.FishingBot.CycleIteration | vrchat_fishing_bot.py:709-735 | One outer iteration's keys and queue are those of `CycleStep`: a pause or failed cast leaves the queue alone, a miss leaves what its wait left, a reel leaves it empty |
| Bot.FishingBot.FishingCycle | vrchat_fishing_bot.py:702-742 | Over the whole loop, the cycle count, key trace and queue are those of `CyclesFrom`; the history bound and key pairing hold throughout |

## Left out

- GUI, logging, status labels and the chart drawing (lines 293-371 apart from the history): no effect on the logic.
- `find_vrchat_window`, `activate_vrchat_window`, `find_vrchat_audio_session`: Win32 and pycaw calls. Window activation enters as a boolean, the audio session as `hasSession`, and the peak meter as the `Sample` sequence.
- `press_key`'s hold time and every `time.sleep` / `root.after`: timing only.
- Threads, locks and races: the interleaving becomes the per-iteration `arrived` batches and the outer loop's input sequence.
- `load_settings` / `save_settings` and the tunable editors: file and GUI I/O. `Config` is any value, including values the GUI would refuse.
- `start_bot` / `stop_bot`: apart from what the lines above and below cover (copying and saving the tunables, 747-757; the window check, 760-762; starting the threads and the display consumer, 768-776; joining the threads, 823-827), they set `running` and `paused`, which are inputs here. `start_bot` does not clear the queue, and neither does the model.
- Exceptions. A failed peak read ends monitoring like a stop, so it becomes `running` false in that `Sample`. An exception in `wait_for_bite` returns False like a stop. An exception in the outer loop restarts the iteration, and this is not modelled.
- Bot.FishingBot.ReelInFish: before `min_reel_time` the reel does not drain the queue (633), while the display consumer keeps taking `volume_update`s off its front (793-800, 814-815). Those removals can reach entries that were already there at an earlier poll, which no appended `arrived` can express. During the grace period `arrived` therefore records only what survives to the first draining poll, and `ReelInFish` called on a non-empty queue assumes the display removes none of it. The outer cycle always starts the reel on an empty queue.
- Bot.FishingBot.ReelInFish: `reel_in_fish` has no `try`/`finally`. An exception between the key-down (620) and the key-up (686), such as a failing Tk call from the worker thread (654, 661, 667, 674), reaches the outer handler (738) with E still held. `Events.KeysMatched` and `Bot.FishingBot.Valid` therefore hold only for runs without exceptions.
- Tunables are fixed for a session: `cfg` is a constant of the bot object. The source re-reads `audio_threshold`, `smoothing_alpha` and the other settings on every use, and the GUI can change them while the bot runs (the threshold trace, lines 140 and 263-267, and the save button, 271-282).
- The display consumer runs every 50 ms beside the state machine (776, 814-815). Its removals are folded into each poll's `arrived`, which is the net change to the queue since the previous poll; the model does not interleave the two on the queue. In the bite wait every poll that goes on empties the queue, so this is exact there; for the reel's grace period see the `Bot.FishingBot.ReelInFish` line.
- Floating point: reals stand in for Python floats, so rounding is not modelled.
- `process_audio_queue`'s rescheduling through `root.after`: each call is modelled once.
- Bot.FishingBot.ReelInFish: the four `time.time()` calls of one iteration (630, 652, 658, 664) are one reading, and `last_sound_time` (623) starts at `start_time` (622) exactly.

## Notes on behaviour

These points describe the code as it is written; the model follows the code.

- With coefficient 0.3 and threshold 0.5, the readings 0, 0, 0.9, 0, 0, 0.9 taken 50 ms apart on the wall clock peak at a smoothed value of 0.4405725, so nothing is emitted although two of the readings are well above the threshold (`Sampler.TwoBurstsEmitNothing`). Two full-scale readings in a row do fire on the second (`Sampler.SteadyLoudFires`), so it is the smoothing that swallows short bursts, not the cooldown.
- The display consumer's put-back goes to the tail of the queue. A `sound_detected` can therefore end up behind newer `volume_update` entries, so the order is not preserved. Only the multiset of entries is conserved (`Display.DrainConserves`, `Display.PutBackReorders`). The bite wait still sees the entry, because it drains the whole queue.
- The history limit uses a single `pop(0)` after each append, not a loop. It stays within 100 entries only because each update adds one value (`Display.AppendAllBounded`).
- `last_spike_time` starts at 0 on the wall clock, so the first spike of a session is never suppressed in practice. The model's `InitialState` states this start explicitly.
