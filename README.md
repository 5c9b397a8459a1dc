# flutter_pcm_sound, Linux plugin: sample queue and feed notification

This project models the core of the Linux implementation of the
`flutter_pcm_sound` plugin. The application feeds 16-bit PCM bytes through a
method channel. The plugin appends them to a byte queue. A drain thread takes
the queue apart chunk by chunk and writes each chunk to the ALSA device. When
the frames left in the queue fall to the feed threshold, the thread raises one
`OnFeedSamples` event, carrying the remaining frame count, to ask for more
data. The next feed re-arms that event.

Files:

- `cints.dfy`, module `CInts`: the C integer conversions the plugin relies on.
  One stores a 64-bit method-channel integer into an `int` field. The other
  compares a `size_t` frame count with the `int` threshold.
- `plugin_model.dfy`, module `PluginModel`: the plugin's fields as one value
  (`PluginState`). Each operation is an atomic transition: `Setup`, `Feed`,
  `Release`, `SetFeedThreshold`, and `DrainStep`, one iteration of the drain
  loop. These functions are the specification.
- `session.dfy`, module `Session`: arbitrary interleavings of calls and drain
  iterations (`Run`). It holds the lemmas that relate many steps: at most one
  notification between feeds, and first-in first-out order of the bytes.
- `plugin.dfy`, module `Plugin`: the class `FlutterPcmSoundPlugin`. It has the
  fields of `_FlutterPcmSoundPlugin` and methods that update them in place.
  Each method is proved against the matching `PluginModel` function.
  `DrainLoop` is the thread's `while (!should_stop)` loop.

How the model reads the source:

- The queue is the unbounded `std::vector<uint8_t>`, modelled as a `seq<bv8>`.
  Feeding appends to it. Draining erases a prefix. Release clears it.
- The ALSA handle is reduced to the flag `initialized`. The outcome of each
  device call is a parameter: `DeviceSetup` for setup and `WriteOutcome` for
  one drain write. A write is written at once, recovered then written again, or
  its recovery fails.
- The drain thread is `DrainContext`: `NoThread`, or `Running(chunkBytes)`. The
  thread computes its chunk size (`200 * channels * 2`) once, when it starts.
  The remaining-frames count uses the channel count current at each iteration.
  The model keeps both.
- Each feed, setup, release, threshold change and drain iteration is one atomic
  step. In the source, `samples_mutex` covers only the append and flag clear of
  a feed, the take, erase and frame count of a drain iteration, and the
  `samples.clear()` of a release. The flag
  test and set after the device write, and the `feed_threshold` and `channels`
  fields, are not under the lock (see "## Left out").
- The thread states are: idle (no thread, stop flag clear), running (thread,
  stop flag clear) and stopped (no thread, stop flag set after a release).
  `Wf` states that a running thread is never asked to stop and that the
  threshold lies in the C `int` range. Every transition preserves `Wf`. Its
  first half is what lets the thread kept by a feed go on draining; its second
  half is what makes a negative threshold notify at the first iteration.
- A thread started while the channel count was zero has a chunk size of zero.
  If a later setup makes the channel count positive, each of its iterations
  takes nothing, counts the remaining frames, writes zero frames and may
  notify; the queue is never drained. The model keeps this.

Behaviour of the Linux code that the model keeps:

- The queue is an unbounded vector. Feed never drops bytes.
- No sample-rate conversion or channel adaptation happens. The bytes fed are
  the bytes queued.
- Setup does not release first. The queue, the flag and a running drain thread
  survive it. A failed hardware configuration clears the handle and leaves the
  thread running.
- `setFeedThreshold` is accepted at any time, before setup too.
- Remaining frames are bytes divided by `channels * 2`, rounded down.
- A failed recovery drops the chunk and the loop goes on. The result of the
  retried write is not looked at.
- The device is given `chunk.size() / (channels * 2)` frames, so a trailing
  partial frame of a chunk is removed from the queue but never written.
- Release keeps the notification flag. Only an accepted feed clears it.

## Model

| member | source | states |
|---|---|---|
| CInts.ToCInt | linux/flutter_pcm_sound_plugin.cc:138 | storing the method-channel integer into the `int` field gives a value in the 32-bit range, congruent to the argument modulo 2^32, and equal to it when it already fits |
| CInts.SizeAtMostInt | linux/flutter_pcm_sound_plugin.cc:195 | `remaining_frames <= feed_threshold` with the `int` converted to `size_t`: the plain comparison for a non-negative threshold; for a negative one the bound is 2^64 plus the threshold, so any realistic count passes |
| PluginModel.WholeFrames | linux/flutter_pcm_sound_plugin.cc:185 | the frame count is the largest number of whole `channels * 2`-byte frames that fit in the byte count (division rounding down) |
| PluginModel.Setup | linux/flutter_pcm_sound_plugin.cc:39-80 | missing sample rate or channel count fails with nothing changed; otherwise both are stored as C ints; success exactly when the device is configured; a failed open keeps the initialized state, a failed hardware configuration clears it; queue, flag and thread untouched |
| PluginModel.Feed | linux/flutter_pcm_sound_plugin.cc:82-101 | before setup: NOT_INITIALIZED and the state unchanged; otherwise success, the bytes appended after the pending ones in order, the flag cleared, an existing thread kept, and a new thread (stop flag cleared, chunk of 200 frames) only when none existed; preserves `Wf` |
| PluginModel.Release | linux/flutter_pcm_sound_plugin.cc:103-122 | always success; on an initialized plugin the thread is stopped and gone, the queue is empty and the plugin uninitialized, so a later feed gets NOT_INITIALIZED; on an uninitialized plugin nothing changes; the flag is kept |
| PluginModel.SetFeedThreshold | linux/flutter_pcm_sound_plugin.cc:133-140 | no argument: INVALID_ARGS and the state unchanged; otherwise success and only the threshold changes, to the argument as a C int |
| PluginModel.DrainStep | linux/flutter_pcm_sound_plugin.cc:170-206 | taken chunk followed by the new queue equals the old queue; the chunk is min(chunk size, queue length) bytes; an empty queue changes nothing and raises nothing; frames written are the whole frames of the chunk; a notification is raised exactly when the queue was non-empty, recovery did not fail, the flag was clear and the remaining whole frames are at or below the threshold; it carries those remaining frames and sets the flag; nothing else changes |
| Session.Apply | linux/flutter_pcm_sound_plugin.cc:124-152 | one call or drain iteration: only a feed clears the flag, and a refused feed changes nothing; a notification comes only from a drain iteration with the flag clear and sets it; only a feed accepts bytes, all of them or none; apart from release, bytes taken plus bytes pending equal bytes pending before plus bytes accepted |
| Session.Run | linux/flutter_pcm_sound_plugin.cc:95-110 | any session from a well-formed state ends in a well-formed state (a running drain thread is never marked to stop, and the threshold stays in the C `int` range) |
| Session.AtMostOneNotificationBetweenFeeds | linux/flutter_pcm_sound_plugin.cc:195-196 | in any session where every feed call is refused (the plugin is not set up when it comes), at most one notification is raised, none if the flag was already set, and once set the flag stays set: at most one notification between two accepted feeds |
| Session.QueueIsFifo | linux/flutter_pcm_sound_plugin.cc:181-183 | in any session without release, the bytes taken by drain iterations followed by the bytes pending equal the bytes pending at the start followed by every byte accepted by feeds: nothing lost, duplicated or reordered, and the bytes taken from the queue are a prefix of that stream |
| PluginModel.FeedLeavesDrainableThread | linux/flutter_pcm_sound_plugin.cc:89-98 | from a well-formed, set-up state with a positive channel count (and a chunk size that is not negative for an existing thread), an accepted feed leaves a thread that can run a drain iteration, with the data queued behind the pending bytes |
| Session.DrainProgress | linux/flutter_pcm_sound_plugin.cc:181-183 | n drain iterations of a running thread, whatever the write outcomes, leave max(0, pending - n * chunk size) bytes, keep the thread and keep it able to drain |
| Session.DrainEmptiesQueue | linux/flutter_pcm_sound_plugin.cc:170-186 | with a positive chunk size, ceil(pending / chunk size) drain iterations empty the queue |
| Session.ZeroChunkNeverDrains | linux/flutter_pcm_sound_plugin.cc:168-183 | a thread whose chunk size is zero (started while the channel count was zero) leaves the queue length unchanged however many iterations it runs, and stays able to run |
| PluginModel.NegativeThresholdNotifiesAtOnce | linux/flutter_pcm_sound_plugin.cc:195-196 | with a negative threshold (in the C `int` range), the first non-dropped iteration on a non-empty queue of at most 2^63 bytes with the flag clear raises OnFeedSamples, carrying the remaining whole frames |
| Session.FedBytesAreDrained | linux/flutter_pcm_sound_plugin.cc:89-98 | after an accepted feed on a set-up plugin with a positive channel count whose thread, if any, has a positive chunk size, ceil(queued / chunk size) drain iterations empty the queue: every accepted byte is eventually taken |
| Plugin.FlutterPcmSoundPlugin.constructor | linux/flutter_pcm_sound_plugin.cc:209-215 | a new plugin has no device, threshold 8000, the flag clear, no stop request, no thread and an empty queue |
| Plugin.FlutterPcmSoundPlugin.Setup | linux/flutter_pcm_sound_plugin.cc:39-80 | updates the fields exactly as `PluginModel.Setup` and returns its response |
| Plugin.FlutterPcmSoundPlugin.Feed | linux/flutter_pcm_sound_plugin.cc:82-101 | updates the fields exactly as `PluginModel.Feed`; on success the queue is the old queue followed by the data and the flag is clear; an existing thread is kept |
| Plugin.FlutterPcmSoundPlugin.Release | linux/flutter_pcm_sound_plugin.cc:103-122 | updates the fields exactly as `PluginModel.Release`; an initialized plugin ends uninitialized, with no thread and an empty queue; an uninitialized one is unchanged |
| Plugin.FlutterPcmSoundPlugin.SetFeedThreshold | linux/flutter_pcm_sound_plugin.cc:133-140 | updates the threshold exactly as `PluginModel.SetFeedThreshold`; without an argument nothing changes |
| Plugin.FlutterPcmSoundPlugin.DrainIteration | linux/flutter_pcm_sound_plugin.cc:171-205 | one loop iteration on the fields agrees with `PluginModel.DrainStep`; the chunk taken followed by the new queue is the old queue |
| Plugin.FlutterPcmSoundPlugin.DrainLoop | linux/flutter_pcm_sound_plugin.cc:167-207 | the loop run for a sequence of write outcomes agrees with `Session.Run` over drain ticks; the bytes taken followed by the new queue are the old queue; at most one notification, none if the flag was already set |

## Left out

- ALSA device calls (`snd_pcm_open`, the hardware parameter calls, `snd_pcm_writei`, `snd_pcm_recover`, `snd_pcm_drain`, `snd_pcm_close`): foreign I/O, reduced to the `initialized` flag and the `DeviceSetup` and `WriteOutcome` parameters. The number of frames the device accepts is not modelled.
- PluginModel.Setup: after a failed `snd_pcm_open` the model keeps the previous initialized state; what alsa-lib leaves in the handle then is not part of this model. Configuring an already initialized plugin overwrites the handle; the leaked old handle is not modelled.
- Threads, the mutex, the 10 ms sleep and the join: each feed, call and drain iteration is one atomic step. Interleavings inside a step, and the data race on `should_stop`, are not modelled.
- Session.AtMostOneNotificationBetweenFeeds: the flag test and set (:195-196) run outside the lock, after the device write. A feed that arrives during that write clears the flag; the drain thread then sets it again and raises `OnFeedSamples` with the `remaining_frames` it counted before that feed, a stale count, and no further notification comes until the next feed. The model's atomic drain step does not contain this interleaving: a notification always carries the queue's count at the moment of the step. Unlocked writes of `feed_threshold` (:138) and `channels` (:57-58) read by the drain thread are likewise taken as atomic.
- PluginModel.DrainStep: requires a positive channel count and a chunk size that is not negative. With zero channels the source divides by zero (:185). A negative chunk size (a thread started while the channel count was negative) makes `std::min` return a negative `int` that becomes a huge `size_t`, so the iterator arithmetic at :182-183 is undefined. A chunk size of zero is modelled: the iteration takes nothing and may notify.
- Session.Apply: a drain tick when the drain step cannot run is a no-op. This differs from the source when a later setup gives a negative channel count while a thread with a chunk size of zero or more runs. The source then takes the chunk, its `size_t` division gives 0 remaining frames and it may notify; the model does nothing. With zero channels or a negative chunk size the source divides by zero or has undefined behaviour, and the model does nothing either.
- Session.Apply: after a failed hardware configuration while the thread runs, the handle is NULL (:74-75) and the source's next non-empty iteration calls `snd_pcm_writei` on it (:188). The model drains normally, with the write outcome as given; what ALSA does with a NULL handle is not modelled.
- PluginModel.DrainStep: the trailing partial frame of a chunk (:188 writes `chunk.size() / (channels * 2)` frames) is removed from the queue and never written, and a chunk whose recovery fails (:191) is removed and never written. The model reports the bytes taken and the frames written, not the bytes that reach the device. In stereo, a feed with an odd number of samples shifts the channels of the audio queued after it, until a chunk ending in the partial frame is taken.
- Integer widths: `channels * 2` and `200 * channels * 2` are computed in unbounded integers. The source's `int` overflows for channel counts above 5,368,709. The cast `(int)samples.size()` is taken as exact; it wraps for queues above 2^31 - 1 bytes.
- The method-channel plumbing: decoding of calls and arguments, the `setLogLevel` and not-implemented replies, `g_idle_add` delivery, registration and dispose. The notification is modelled as an emitted value carrying the remaining frames. The delivery closure in the source names a local it does not capture; the model carries the value the source evidently means.
- The Windows implementation (a WinRT AudioGraph wrapper with a floating-point sample conversion) and the public header: no queue or state machine of their own.
- Resampling, channel adaptation and a bounded ring buffer: the Linux code has none of them.
