/** The stream is never left asleep on an old snapshot, and the engine believes
    the snapshot it was last sent. */
module Wakeups {
  import opened PeerStores
  import opened Streaming
  import opened Pipeline
  import opened Footprints

  /** The signal has one slot and is dropped when full; still, a store that
      moved on since the last snapshot always has a wake-up on its way. */
  ghost predicate NoLostWakeup(m: Machine, h: History) {
    m.stream.StreamOff? || m.store == h.snap || m.peerSignal || m.cons.ConsSignal? || m.stream.StreamTook?
  }

  /** Between responses the known IDs and the engine's view are those of the
      last snapshot; a response being written moves the engine there. */
  ghost predicate ViewCurrent(m: Machine, h: History) {
    match m.stream
    case StreamOff => true
    case StreamIdle(known) => known == m.engine == StoreIds(h.snap)
    case StreamTook(known) => known == m.engine == StoreIds(h.snap)
    case StreamWrite(res, known) => known == Believe(m.engine, res) == StoreIds(h.snap)
  }

  ghost predicate SameStream(s: State, t: State) {
    && t.m.store == s.m.store && t.h.snap == s.h.snap && t.m.stream == s.m.stream && t.m.engine == s.m.engine
    && (s.m.peerSignal || s.m.cons.ConsSignal? ==> t.m.peerSignal || t.m.cons.ConsSignal?)
  }

  lemma StreamFrame(s: State, a: Action)
    requires Enabled(s.m, a) && !InStream(a) && !a.ApplyTaken?
    ensures SameStream(s, Apply(s, a))
  {
    hide Next, Note, Enabled;
    if InReceiveLoop(a) {
      ReceiveLoopFootprint(s.m, a);
      ReceiveLoopNotes(s.m, s.h, a);
    } else if InSweep(a) {
      SweepFootprint(s.m, a);
      SweepNotes(s.m, s.h, a);
    } else {
      QuietNotes(s.m, s.h, a);
      if InFanOut(a) {
        FanOutFootprint(s.m, a);
      } else if InConsumer(a) {
        ConsumerFootprint(s.m, a);
      } else {
        ControlFootprint(s.m, a);
      }
    }
  }

  /** A stream ends exactly when it is cancelled or a response cannot be written,
      and otherwise goes on. */
  lemma StreamEndsIff(m: Machine, a: Action)
    requires Enabled(m, a) && InStream(a) && (m.stream.StreamOff? ==> a.OpenStream?)
    ensures Next(m, a).stream.StreamOff? <==>
            a.StopStream? || (a.FinishWrite? && !a.written) || (a.StreamKeepAlive? && !a.written)
  {
    hide IsSnapshot, IsUpdate, Believe, Ids;
  }

  lemma SnapshotView(s: State, a: Action)
    requires ViewCurrent(s.m, s.h) && Enabled(s.m, a) && (a.OpenStream? || a.SnapshotStore?)
    ensures ViewCurrent(Apply(s, a).m, Apply(s, a).h)
  {
    SnapshotIds(s.m.store, a.peers);
    if a.SnapshotStore? {
      UpdateConverges(a.res, s.m.stream.known, a.peers);
    }
  }

  lemma StreamedView(s: State, a: Action)
    requires ViewCurrent(s.m, s.h) && Enabled(s.m, a)
    requires a.TakePeerSignal? || a.FinishWrite? || a.StreamKeepAlive? || a.StopStream? || a.ApplyTaken?
    ensures ViewCurrent(Apply(s, a).m, Apply(s, a).h)
  {
    KeepAliveNeutral(s.m.engine);
    hide IsUpdate, IsSnapshot;
  }

  lemma ViewCurrentKept(s: State, a: Action)
    requires ViewCurrent(s.m, s.h) && Enabled(s.m, a)
    ensures ViewCurrent(Apply(s, a).m, Apply(s, a).h)
  {
    hide Next, Note, Enabled;
    if a.OpenStream? || a.SnapshotStore? {
      SnapshotView(s, a);
    } else if InStream(a) || a.ApplyTaken? {
      StreamedView(s, a);
    } else {
      StreamFrame(s, a);
    }
  }

  /** The consumer raises the signal after it applies; the stream takes the
      signal before it looks. */
  lemma WakeupPassedOn(s: State, a: Action)
    requires NoLostWakeup(s.m, s.h) && Enabled(s.m, a) && (InStream(a) || a.ApplyTaken?)
    ensures NoLostWakeup(Apply(s, a).m, Apply(s, a).h)
  {
    hide IsUpdate, IsSnapshot, Believe, Ids, ApplyUpdate;
  }

  lemma NoLostWakeupKept(s: State, a: Action)
    requires NoLostWakeup(s.m, s.h) && Enabled(s.m, a)
    ensures NoLostWakeup(Apply(s, a).m, Apply(s, a).h)
  {
    hide Next, Note, Enabled;
    if InStream(a) || a.ApplyTaken? {
      WakeupPassedOn(s, a);
    } else {
      StreamFrame(s, a);
    }
  }
}
