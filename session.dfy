/**
 * Sessions: any interleaving of method-channel calls from the Flutter side and
 * iterations of the drain thread, each taken as one atomic step. (The source
 * holds `samples_mutex` only around the queue updates; the flag test after
 * the device write, and the threshold and channel fields, are not under the
 * lock.) The lemmas here relate many calls: between two accepted feeds at most
 * one OnFeedSamples event is raised, the bytes leave the queue in the order
 * they were fed, and enough drain iterations empty the queue.
 */
module Session {
  import opened PluginModel

  /** One atomic step of a session. */
  datatype Event =
    | SetupCall(sampleRate: Option<int>, numChannels: Option<int>, device: DeviceSetup)
    | FeedCall(data: seq<Byte>)
    | SetFeedThresholdCall(threshold: Option<int>)
    | ReleaseCall
    | DrainTick(outcome: WriteOutcome)

  /**
   * What one event did: the new state, the bytes a feed appended to the
   * queue, the bytes a drain iteration took from it, and the event raised.
   */
  datatype Effect = Effect(state: PluginState, accepted: seq<Byte>, taken: seq<Byte>, notification: Option<nat>)

  /** What a whole session did, the effects of its events accumulated in order. */
  datatype Trace = Trace(state: PluginState, accepted: seq<Byte>, taken: seq<Byte>, notifications: seq<nat>)

  /**
   * Applies one event. A drain tick when no drain iteration can run (there is
   * no thread, or it divides by a zero frame size, or its chunk size is
   * negative) changes nothing.
   */
  function Apply(s: PluginState, e: Event): (r: Effect)
    ensures !e.FeedCall? && s.notified ==> r.state.notified
    ensures e.FeedCall? && !s.initialized ==> r.state == s && r.accepted == []
    ensures r.notification.Some? ==> e.DrainTick? && !s.notified && r.state.notified
    ensures !e.FeedCall? ==> r.accepted == []
    ensures e.FeedCall? ==> r.taken == [] && (r.accepted == [] || r.accepted == e.data)
    ensures !e.ReleaseCall? ==> r.taken + r.state.samples == s.samples + r.accepted
    ensures Wf(s) ==> Wf(r.state)
  {
    match e
    case SetupCall(rate, channels, device) =>
      Effect(Setup(s, rate, channels, device).state, [], [], None)
    case FeedCall(data) =>
      var reply := Feed(s, data);
      Effect(reply.state, if reply.response == Success then data else [], [], None)
    case SetFeedThresholdCall(threshold) =>
      Effect(SetFeedThreshold(s, threshold).state, [], [], None)
    case ReleaseCall =>
      Effect(Release(s).state, [], [], None)
    case DrainTick(outcome) =>
      if CanDrain(s) then
        var step := DrainStep(s, outcome);
        Effect(step.state, [], step.taken, step.notification)
      else
        Effect(s, [], [], None)
  }

  /** Runs a session from state s, one event at a time, oldest event first. */
  function Run(s: PluginState, events: seq<Event>): (r: Trace)
    ensures Wf(s) ==> Wf(r.state)
    decreases |events|
  {
    if events == [] then
      Trace(s, [], [], [])
    else
      var prev := Run(s, events[..|events| - 1]);
      var eff := Apply(prev.state, events[|events| - 1]);
      Trace(eff.state, prev.accepted + eff.accepted, prev.taken + eff.taken,
            prev.notifications + if eff.notification.Some? then [eff.notification.value] else [])
  }

  /** A drain thread left to itself: one tick per write outcome. */
  function Ticks(outcomes: seq<WriteOutcome>): seq<Event> {
    seq(|outcomes|, i requires 0 <= i < |outcomes| => DrainTick(outcomes[i]))
  }

  /**
   * At most one notification between accepted feeds: in a session where
   * every feed call is refused (it comes while the plugin is not set up),
   * whatever else happens (drain iterations, threshold changes, setup,
   * release), at most one OnFeedSamples event is raised, none at all if one
   * was already raised since the last accepted feed, and once raised the
   * flag stays set.
   */
  lemma {:induction false} AtMostOneNotificationBetweenFeeds(s: PluginState, events: seq<Event>)
    requires forall i :: 0 <= i < |events| && events[i].FeedCall? ==> !Run(s, events[..i]).state.initialized
    ensures |Run(s, events).notifications| <= 1
    ensures s.notified ==> Run(s, events).notifications == []
    ensures Run(s, events).notifications != [] ==> Run(s, events).state.notified
    ensures s.notified ==> Run(s, events).state.notified
    decreases |events|
  {
    if events != [] {
      var init := events[..|events| - 1];
      forall i | 0 <= i < |init| && init[i].FeedCall?
        ensures !Run(s, init[..i]).state.initialized
      {
        assert init[..i] == events[..i];
      }
      AtMostOneNotificationBetweenFeeds(s, init);
      assert events[..|events| - 1] == init;
    }
  }

  /**
   * The queue is first in, first out: as long as the plugin is not released,
   * the bytes taken by the drain iterations followed by the bytes still
   * pending are exactly the bytes pending at the start followed by every byte
   * a feed accepted. No byte is lost, duplicated or reordered, and the bytes
   * taken from the queue are a prefix of that stream.
   */
  lemma {:induction false} QueueIsFifo(s: PluginState, events: seq<Event>)
    requires forall i :: 0 <= i < |events| ==> !events[i].ReleaseCall?
    ensures Run(s, events).taken + Run(s, events).state.samples == s.samples + Run(s, events).accepted
    ensures Run(s, events).taken <= s.samples + Run(s, events).accepted
    decreases |events|
  {
    if events != [] {
      var init := events[..|events| - 1];
      assert forall i :: 0 <= i < |init| ==> init[i] == events[i];
      QueueIsFifo(s, init);
      var prev := Run(s, init);
      var last := events[|events| - 1];
      assert !last.ReleaseCall?;
      var eff := Apply(prev.state, last);
      assert eff.taken + eff.state.samples == prev.state.samples + eff.accepted;
      var r := Run(s, events);
      assert r.taken == prev.taken + eff.taken && r.accepted == prev.accepted + eff.accepted;
      assert r.state == eff.state;
      ConcatStep(prev.taken, prev.state.samples, s.samples, prev.accepted, eff.taken, eff.state.samples, eff.accepted);
    }
  }

  /** One more step of a first-in, first-out account keeps it balanced. */
  lemma ConcatStep<T>(taken: seq<T>, pending: seq<T>, start: seq<T>, accepted: seq<T>,
                      taken': seq<T>, pending': seq<T>, accepted': seq<T>)
    requires taken + pending == start + accepted
    requires taken' + pending' == pending + accepted'
    ensures (taken + taken') + pending' == start + (accepted + accepted')
  {
    calc {
      (taken + taken') + pending';
      taken + (pending + accepted');
      (start + accepted) + accepted';
    }
  }

  /**
   * Progress: a running drain thread left to itself removes a whole chunk per
   * iteration until the queue is empty, so n iterations leave
   * max(0, |samples| - n * chunkBytes) bytes, whatever the write outcomes.
   */
  lemma {:induction false} DrainProgress(s: PluginState, outcomes: seq<WriteOutcome>)
    requires CanDrain(s)
    ensures CanDrain(Run(s, Ticks(outcomes)).state)
    ensures Run(s, Ticks(outcomes)).state.thread == s.thread
    ensures |Run(s, Ticks(outcomes)).state.samples| ==
      if |s.samples| <= |outcomes| * s.thread.chunkBytes then 0
      else |s.samples| - |outcomes| * s.thread.chunkBytes
    decreases |outcomes|
  {
    if outcomes != [] {
      var n := |outcomes| - 1;
      var init := outcomes[..n];
      DrainProgress(s, init);
      var events := Ticks(outcomes);
      assert events[..n] == Ticks(init);
      assert events[n] == DrainTick(outcomes[n]);
      MulSucc(n, s.thread.chunkBytes);
    }
  }

  /**
   * The queue is emptied: after ceil(|samples| / chunkBytes) iterations of a
   * running drain thread nothing is pending.
   */
  lemma DrainEmptiesQueue(s: PluginState, outcomes: seq<WriteOutcome>)
    requires CanDrain(s) && s.thread.chunkBytes > 0
    requires |outcomes| >= (|s.samples| + s.thread.chunkBytes - 1) / s.thread.chunkBytes
    ensures Run(s, Ticks(outcomes)).state.samples == []
  {
    DrainProgress(s, outcomes);
    CeilingChunks(|s.samples|, s.thread.chunkBytes, |outcomes|);
  }

  /**
   * A thread started while the channel count was zero has a chunk size of
   * zero: however many iterations it runs, it takes nothing from the queue.
   */
  lemma ZeroChunkNeverDrains(s: PluginState, outcomes: seq<WriteOutcome>)
    requires CanDrain(s) && s.thread.chunkBytes == 0
    ensures |Run(s, Ticks(outcomes)).state.samples| == |s.samples|
    ensures CanDrain(Run(s, Ticks(outcomes)).state)
  {
    DrainProgress(s, outcomes);
  }

  lemma MulSucc(n: nat, c: int)
    ensures (n + 1) * c == n * c + c
  {
  }

  /** ceil(len / c) chunks of c bytes cover len bytes, and so do more chunks. */
  lemma CeilingChunks(len: nat, c: int, m: nat)
    requires c > 0
    requires m >= (len + c - 1) / c
    ensures len <= m * c
  {
    var k := (len + c - 1) / c;
    assert k * c + (len + c - 1) % c == len + c - 1;
    assert k * c >= len;
    assert m * c == k * c + (m - k) * c;
  }

  /**
   * Every accepted byte is eventually taken: after a feed on a set-up plugin
   * whose thread (if any) can drain, ceil(pending / chunkBytes) drain
   * iterations empty the queue.
   */
  lemma FedBytesAreDrained(s: PluginState, data: seq<Byte>, outcomes: seq<WriteOutcome>)
    requires Wf(s) && s.initialized && s.channels > 0
    requires s.thread.Running? ==> s.thread.chunkBytes > 0
    requires |outcomes| >= (|s.samples| + |data| + Feed(s, data).state.thread.chunkBytes - 1) / Feed(s, data).state.thread.chunkBytes
    ensures Run(Feed(s, data).state, Ticks(outcomes)).state.samples == []
  {
    FeedLeavesDrainableThread(s, data);
    DrainEmptiesQueue(Feed(s, data).state, outcomes);
  }
}
