/**
 * The state of the Linux plugin object (`_FlutterPcmSoundPlugin`) as a value,
 * and each operation on it as one atomic transition. These functions are the
 * specification that the imperative class in module Plugin is proved against.
 *
 * The ALSA device is reduced to an "initialized" flag (the `handle` pointer is
 * non-null) plus the outcome of each device call, given as a parameter.
 */
module PluginModel {
  import opened CInts

  type Byte = bv8

  /** `feed_threshold` right after the plugin object is created. */
  const DEFAULT_FEED_THRESHOLD: int := 8000
  /** The drain context takes at most this many frames from the queue per iteration. */
  const FRAMES_PER_CHUNK: int := 200
  /** Samples are signed 16-bit little-endian: two bytes per sample. */
  const BYTES_PER_SAMPLE: int := 2

  datatype Option<T> = None | Some(value: T)

  /** The error codes of the method-channel replies. */
  datatype ErrorCode =
    | MissingSetupArgs   // "DEBUG": setup without sample_rate or num_channels
    | AlsaError          // "ALSA_ERROR": the device refused to open or to be configured
    | NotInitialized     // "NOT_INITIALIZED": feed before a successful setup
    | InvalidArgs        // "INVALID_ARGS": setFeedThreshold without feed_threshold

  datatype Response = Success | Failure(code: ErrorCode)

  /**
   * The drain thread: absent, or running with the chunk size (in bytes) it
   * computed once, from the channel count at the moment it was started.
   */
  datatype DrainContext = NoThread | Running(chunkBytes: int)

  /** How the device calls made by setup ended. */
  datatype DeviceSetup = OpenFailed | HwParamsFailed | Configured

  /**
   * How the write of one chunk ended: written at once; failed, recovered and
   * written again (the second write's result is not looked at); or failed
   * and the recovery failed too.
   */
  datatype WriteOutcome = Written | Recovered | RecoverFailed

  datatype PluginState = PluginState(
    initialized: bool,       // handle != NULL
    sampleRate: int,
    channels: int,
    feedThreshold: int,      // in frames
    notified: bool,          // did_invoke_feed_callback
    samples: seq<Byte>,      // the pending bytes, oldest first
    shouldStop: bool,
    thread: DrainContext)

  /** A reply together with the state after the call. */
  datatype Reply = Reply(state: PluginState, response: Response)

  /**
   * One drain iteration: the new state, the bytes taken from the front of
   * the queue, the number of frames handed to the device, and the
   * OnFeedSamples event raised, carrying the remaining frames.
   */
  datatype Step = Step(state: PluginState, taken: seq<Byte>, frames: nat, notification: Option<nat>)

  /**
   * What every reachable state satisfies: a running drain thread has not
   * been asked to stop, and the threshold fits in a C `int`.
   */
  ghost predicate Wf(s: PluginState) {
    (s.thread.Running? ==> !s.shouldStop) &&
    INT_MIN <= s.feedThreshold <= INT_MAX
  }

  /** Bytes in one frame (one 16-bit sample per channel). */
  function FrameBytes(channels: int): int {
    channels * BYTES_PER_SAMPLE
  }

  /**
   * The whole frames in a byte count: integer division rounds down, so a
   * trailing partial frame is not counted.
   */
  function WholeFrames(bytes: nat, channels: int): (n: nat)
    requires channels > 0
    ensures n * FrameBytes(channels) <= bytes < (n + 1) * FrameBytes(channels)
  {
    bytes / FrameBytes(channels)
  }

  /** The state of a freshly created plugin object. */
  function Initial(): PluginState {
    PluginState(false, 0, 0, DEFAULT_FEED_THRESHOLD, false, [], false, NoThread)
  }

  /**
   * setup: the sample rate and channel count are required; they are stored
   * (as C ints) before the device is opened, so they stay changed even when
   * the device then fails. A failed hardware configuration closes the handle.
   * Setup never touches the queue, the flag or the drain thread.
   */
  function Setup(s: PluginState, sampleRate: Option<int>, numChannels: Option<int>, device: DeviceSetup): (r: Reply)
    ensures (sampleRate.None? || numChannels.None?) ==> r == Reply(s, Failure(MissingSetupArgs))
    ensures r.response == Success <==> sampleRate.Some? && numChannels.Some? && device == Configured
    ensures sampleRate.Some? && numChannels.Some? ==>
      r.state.sampleRate == ToCInt(sampleRate.value) && r.state.channels == ToCInt(numChannels.value) &&
      (r.response == Success || r.response == Failure(AlsaError)) &&
      r.state.initialized == (device == Configured || (device == OpenFailed && s.initialized))
    ensures r.state.samples == s.samples && r.state.notified == s.notified &&
            r.state.thread == s.thread && r.state.shouldStop == s.shouldStop &&
            r.state.feedThreshold == s.feedThreshold
    ensures Wf(s) ==> Wf(r.state)
  {
    if sampleRate.None? || numChannels.None? then
      Reply(s, Failure(MissingSetupArgs))
    else
      var t := s.(sampleRate := ToCInt(sampleRate.value), channels := ToCInt(numChannels.value));
      match device
      case OpenFailed => Reply(t, Failure(AlsaError))
      case HwParamsFailed => Reply(t.(initialized := false), Failure(AlsaError))
      case Configured => Reply(t.(initialized := true), Success)
  }

  /**
   * feed: refused before setup, with nothing changed. Otherwise the bytes
   * are appended behind the pending ones, the notification flag is cleared,
   * and a drain thread is started (with the stop flag cleared) only when
   * none exists.
   */
  function Feed(s: PluginState, data: seq<Byte>): (r: Reply)
    ensures !s.initialized ==> r == Reply(s, Failure(NotInitialized))
    ensures s.initialized ==> r.response == Success
    ensures s.initialized ==> r.state.samples == s.samples + data && !r.state.notified
    ensures s.initialized && s.thread.Running? ==>
      r.state.thread == s.thread && r.state.shouldStop == s.shouldStop
    ensures s.initialized && s.thread.NoThread? ==>
      r.state.thread == Running(FRAMES_PER_CHUNK * FrameBytes(s.channels)) && !r.state.shouldStop
    ensures r.state.initialized == s.initialized && r.state.sampleRate == s.sampleRate &&
            r.state.channels == s.channels && r.state.feedThreshold == s.feedThreshold
    ensures Wf(s) ==> Wf(r.state)
  {
    if !s.initialized then
      Reply(s, Failure(NotInitialized))
    else
      var t := s.(samples := s.samples + data, notified := false);
      if t.thread.NoThread? then
        Reply(t.(shouldStop := false, thread := Running(FRAMES_PER_CHUNK * FrameBytes(s.channels))), Success)
      else
        Reply(t, Success)
  }

  /**
   * release: always succeeds. On an initialized plugin it stops and joins
   * the drain thread, closes the device and empties the queue, so a later
   * feed is refused; on an uninitialized one it changes nothing. The
   * notification flag is left as it was.
   */
  function Release(s: PluginState): (r: Reply)
    ensures r.response == Success
    ensures !s.initialized ==> r.state == s
    ensures s.initialized ==>
      !r.state.initialized && r.state.samples == [] && r.state.thread == NoThread &&
      r.state.shouldStop == (s.shouldStop || s.thread.Running?)
    ensures s.initialized ==> Feed(r.state, []).response == Failure(NotInitialized)
    ensures r.state.notified == s.notified && r.state.feedThreshold == s.feedThreshold &&
            r.state.channels == s.channels && r.state.sampleRate == s.sampleRate
    ensures Wf(s) ==> Wf(r.state)
  {
    if !s.initialized then
      Reply(s, Success)
    else
      var stopped := if s.thread.Running? then s.(shouldStop := true, thread := NoThread) else s;
      Reply(stopped.(initialized := false, samples := []), Success)
  }

  /**
   * setFeedThreshold: the argument is required; it is stored as a C int.
   * The call is accepted whether or not the plugin is set up.
   */
  function SetFeedThreshold(s: PluginState, threshold: Option<int>): (r: Reply)
    ensures threshold.None? ==> r == Reply(s, Failure(InvalidArgs))
    ensures threshold.Some? ==>
      r.response == Success && r.state.feedThreshold == ToCInt(threshold.value) &&
      r.state == s.(feedThreshold := r.state.feedThreshold)
    ensures Wf(s) ==> Wf(r.state)
  {
    if threshold.None? then
      Reply(s, Failure(InvalidArgs))
    else
      Reply(s.(feedThreshold := ToCInt(threshold.value)), Success)
  }

  /**
   * A drain iteration can run: the thread exists and has not been asked to
   * stop, the frame size it divides by is positive (with zero channels the
   * source divides by zero) and its chunk size is not negative (a negative
   * one becomes a huge `size_t` in the erase). A chunk size of zero, from a
   * thread started while the channel count was zero, takes nothing.
   */
  predicate CanDrain(s: PluginState) {
    s.thread.Running? && !s.shouldStop && s.channels > 0 && s.thread.chunkBytes >= 0
  }

  /**
   * The body of the drain loop. An empty queue is left alone. Otherwise up to
   * one chunk is taken from the front of the queue and the remaining whole
   * frames are counted. If the write fails and cannot be recovered, the chunk
   * is dropped and the iteration ends there; otherwise OnFeedSamples is raised
   * when the remaining frames are at or below the threshold and no
   * notification was raised since the last feed.
   */
  function DrainStep(s: PluginState, outcome: WriteOutcome): (r: Step)
    requires CanDrain(s)
    ensures r.taken + r.state.samples == s.samples
    ensures |r.taken| == if |s.samples| < s.thread.chunkBytes then |s.samples| else s.thread.chunkBytes
    ensures s.samples == [] ==> r.state == s && r.notification == None && r.frames == 0
    ensures s.samples != [] ==> r.frames == WholeFrames(|r.taken|, s.channels)
    ensures r.notification.Some? <==>
      s.samples != [] && outcome != RecoverFailed && !s.notified &&
      SizeAtMostInt(WholeFrames(|r.state.samples|, s.channels), s.feedThreshold)
    ensures r.notification.Some? ==> r.notification.value == WholeFrames(|r.state.samples|, s.channels)
    ensures r.state.notified == (s.notified || r.notification.Some?)
    ensures r.state == s.(samples := r.state.samples, notified := r.state.notified)
    ensures CanDrain(r.state)
    ensures Wf(s) ==> Wf(r.state)
  {
    if s.samples == [] then
      Step(s, [], 0, None)
    else
      var take := if |s.samples| < s.thread.chunkBytes then |s.samples| else s.thread.chunkBytes;
      var rest := s.samples[take..];
      var remaining := WholeFrames(|rest|, s.channels);
      var frames := WholeFrames(take, s.channels);
      var t := s.(samples := rest);
      if outcome == RecoverFailed then
        Step(t, s.samples[..take], frames, None)
      else if SizeAtMostInt(remaining, s.feedThreshold) && !s.notified then
        Step(t.(notified := true), s.samples[..take], frames, Some(remaining))
      else
        Step(t, s.samples[..take], frames, None)
  }

  /**
   * What `Wf` buys: the thread an accepted feed starts or keeps can always
   * run a drain iteration. A thread that already exists has not been asked
   * to stop, because only release sets the stop flag and release also ends
   * the thread.
   */
  lemma FeedLeavesDrainableThread(s: PluginState, data: seq<Byte>)
    requires Wf(s) && s.initialized && s.channels > 0
    requires s.thread.Running? ==> s.thread.chunkBytes >= 0
    ensures CanDrain(Feed(s, data).state)
    ensures Feed(s, data).state.samples == s.samples + data
  {
  }

  /**
   * What the threshold's range in `Wf` buys: a negative threshold, converted
   * to `size_t` in the comparison, lies above every frame count a queue of at
   * most 2^63 bytes can hold, so the first iteration after a feed that takes
   * a chunk and is not dropped raises OnFeedSamples, however much is left.
   */
  lemma NegativeThresholdNotifiesAtOnce(s: PluginState, outcome: WriteOutcome)
    requires Wf(s) && CanDrain(s) && s.feedThreshold < 0
    requires s.samples != [] && outcome != RecoverFailed && !s.notified
    requires |s.samples| <= SIZE_MODULUS / 2
    ensures DrainStep(s, outcome).notification == Some(WholeFrames(|DrainStep(s, outcome).state.samples|, s.channels))
  {
    var r := DrainStep(s, outcome);
    var rest := |r.state.samples|;
    assert rest <= |s.samples| by {
      assert |r.taken + r.state.samples| == |s.samples|;
    }
    var n := WholeFrames(rest, s.channels);
    FramesAtMostBytes(n, rest, FrameBytes(s.channels));
    assert SizeAtMostInt(n, s.feedThreshold);
  }

  /** A count of frames of at least one byte each is at most the byte count. */
  lemma FramesAtMostBytes(n: nat, bytes: nat, frameBytes: int)
    requires frameBytes >= 1 && n * frameBytes <= bytes
    ensures n <= bytes
  {
    assert n * frameBytes >= n * 1;
  }
}
