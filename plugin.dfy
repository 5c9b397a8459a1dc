/**
 * The plugin object of the Linux implementation: the fields of
 * `_FlutterPcmSoundPlugin` that the method-channel handlers and the drain
 * thread update in place. Each method is one atomic step and is proved
 * against the matching transition of module PluginModel.
 */
module Plugin {
  import opened CInts
  import opened PluginModel
  import opened Session

  class FlutterPcmSoundPlugin {
    var initialized: bool               // handle != NULL
    var sampleRate: int
    var channels: int
    var feedThreshold: int
    var didInvokeFeedCallback: bool
    var samples: seq<Byte>
    var shouldStop: bool
    var playbackThread: DrainContext

    /** The object's fields as a value of the specification. */
    ghost function State(): PluginState
      reads this
    {
      PluginState(initialized, sampleRate, channels, feedThreshold,
                  didInvokeFeedCallback, samples, shouldStop, playbackThread)
    }

    ghost predicate Valid()
      reads this
    {
      Wf(State())
    }

    /**
     * A new plugin object: no device, the default threshold, no pending
     * bytes and no drain thread. The GObject allocator zero-fills the
     * remaining fields.
     */
    constructor ()
      ensures Valid()
      ensures State() == Initial()
    {
      initialized := false;
      sampleRate := 0;
      channels := 0;
      feedThreshold := DEFAULT_FEED_THRESHOLD;
      didInvokeFeedCallback := false;
      samples := [];
      shouldStop := false;
      playbackThread := NoThread;
    }

    /** setup, with the ALSA calls reduced to their outcome. */
    method Setup(rate: Option<int>, numChannels: Option<int>, device: DeviceSetup) returns (response: Response)
      requires Valid()
      modifies this
      ensures Valid()
      ensures Reply(State(), response) == PluginModel.Setup(old(State()), rate, numChannels, device)
    {
      if rate.None? || numChannels.None? {
        return Failure(MissingSetupArgs);
      }
      sampleRate := ToCInt(rate.value);
      channels := ToCInt(numChannels.value);
      match device
      case OpenFailed =>
        response := Failure(AlsaError);
      case HwParamsFailed =>
        initialized := false;
        response := Failure(AlsaError);
      case Configured =>
        initialized := true;
        response := Success;
    }

    /** feed: append the bytes, re-arm the notification, start the drain thread once. */
    method Feed(data: seq<Byte>) returns (response: Response)
      requires Valid()
      modifies this
      ensures Valid()
      ensures Reply(State(), response) == PluginModel.Feed(old(State()), data)
      ensures response == Success ==> samples == old(samples) + data && !didInvokeFeedCallback
      ensures old(playbackThread).Running? ==> playbackThread == old(playbackThread)
    {
      if !initialized {
        return Failure(NotInitialized);
      }
      samples := samples + data;
      didInvokeFeedCallback := false;
      if playbackThread.NoThread? {
        shouldStop := false;
        playbackThread := Running(FRAMES_PER_CHUNK * FrameBytes(channels));
      }
      response := Success;
    }

    /** release: stop and join the drain thread, close the device, empty the queue. */
    method Release() returns (response: Response)
      requires Valid()
      modifies this
      ensures Valid()
      ensures Reply(State(), response) == PluginModel.Release(old(State()))
      ensures old(initialized) ==> !initialized && samples == [] && playbackThread == NoThread
      ensures !old(initialized) ==> unchanged(this)
    {
      if initialized {
        if playbackThread.Running? {
          shouldStop := true;
          // the thread observes shouldStop after its current iteration and is joined
          playbackThread := NoThread;
        }
        initialized := false;
        samples := [];
      }
      response := Success;
    }

    /** The setFeedThreshold branch of the method-call handler. */
    method SetFeedThreshold(threshold: Option<int>) returns (response: Response)
      requires Valid()
      modifies this
      ensures Valid()
      ensures Reply(State(), response) == PluginModel.SetFeedThreshold(old(State()), threshold)
      ensures threshold.None? ==> unchanged(this)
    {
      if threshold.None? {
        return Failure(InvalidArgs);
      }
      feedThreshold := ToCInt(threshold.value);
      response := Success;
    }

    /**
     * One iteration of the drain thread's loop: under the queue's lock, take
     * up to one chunk from the front and count the remaining whole frames;
     * then hand the chunk to the device, and raise OnFeedSamples at most once
     * per feed.
     */
    method DrainIteration(outcome: WriteOutcome) returns (taken: seq<Byte>, frames: nat, notification: Option<nat>)
      requires Valid() && CanDrain(State())
      modifies this
      ensures Valid() && CanDrain(State())
      ensures Step(State(), taken, frames, notification) == DrainStep(old(State()), outcome)
      ensures taken + samples == old(samples)
    {
      taken, frames, notification := [], 0, None;
      if |samples| == 0 {
        // the source sleeps for 10 ms and tries again
        return;
      }
      var chunkBytes := playbackThread.chunkBytes;
      var take := if |samples| < chunkBytes then |samples| else chunkBytes;
      taken := samples[..take];
      samples := samples[take..];
      var remaining := WholeFrames(|samples|, channels);
      frames := WholeFrames(|taken|, channels);
      if outcome == RecoverFailed {
        // the chunk is dropped and the threshold is not looked at
        return;
      }
      if SizeAtMostInt(remaining, feedThreshold) && !didInvokeFeedCallback {
        didInvokeFeedCallback := true;
        notification := Some(remaining);
      }
    }

    /**
     * The drain thread's loop, run for as many iterations as the scheduler
     * gives it (one write outcome each) while no stop is requested. Between
     * feeds it raises at most one notification, and the bytes it takes from
     * the queue are its front, in order.
     */
    method DrainLoop(outcomes: seq<WriteOutcome>) returns (taken: seq<Byte>, notifications: seq<nat>)
      requires Valid() && CanDrain(State())
      modifies this
      ensures Valid() && CanDrain(State())
      ensures State() == Run(old(State()), Ticks(outcomes)).state
      ensures taken == Run(old(State()), Ticks(outcomes)).taken
      ensures notifications == Run(old(State()), Ticks(outcomes)).notifications
      ensures taken + samples == old(samples)
      ensures |notifications| <= 1
      ensures old(didInvokeFeedCallback) ==> notifications == []
    {
      ghost var start := State();
      ghost var ticks := Ticks(outcomes);
      taken, notifications := [], [];
      var i := 0;
      while !shouldStop && i < |outcomes|
        invariant 0 <= i <= |outcomes|
        invariant Valid() && CanDrain(State())
        invariant State() == Run(start, ticks[..i]).state
        invariant taken == Run(start, ticks[..i]).taken
        invariant notifications == Run(start, ticks[..i]).notifications
        invariant taken + samples == start.samples
      {
        ghost var before := samples;
        var chunk, frames, note := DrainIteration(outcomes[i]);
        assert ticks[..i + 1][..i] == ticks[..i];
        ConcatStep(taken, before, start.samples, [], chunk, samples, []);
        taken := taken + chunk;
        if note.Some? {
          notifications := notifications + [note.value];
        }
        i := i + 1;
      }
      assert ticks[..i] == ticks;
      AtMostOneNotificationBetweenFeeds(start, ticks);
    }
  }
}
