/** When the host's goroutines can all be stuck on each other. */
module Progress {
  import opened Wrappers
  import opened Overlay
  import opened Pipeline
  import opened Footprints
  import opened Replays
  import opened HostTheorems
  import U = UdpLeases

  /** A step one of the four goroutines takes by itself, without a packet, a
      tick, a control request or the stream. */
  ghost predicate Internal(a: Action) {
    || a.TrackMessage? || a.LockGone? || a.EnqueueNode? || a.LoadLastNode? || a.OpenPort? || a.SendReply? || a.NotifyRecv?
    || a.RemoveVictim? || a.SendRemoval? || a.EndSweep?
    || a.LockExpiry? || a.NotifyReap?
    || a.TakeOut? || a.StoreLast? || a.SnapshotPeers? || a.SendNode? || a.EndFanOut?
    || a.TakeUpdate? || a.ApplyTaken? || a.RaisePeerSignal? || a.TakeNodeSignal? || a.LoadSelf? || a.SendOut?
  }

  /** Some goroutine is in the middle of something. */
  ghost predicate Busy(m: Machine) {
    !(m.recv.RecvIdle? || m.recv.RecvStopped?) || !m.reaper.ReapIdle? || !m.fan.FanIdle? || !m.cons.ConsIdle?
  }

  /** The cycle: the consumer waits for room in `out`, the fan-out that would
      drain it waits for the mutex, and the mutex is held by a removal that waits
      for room in `in`, which only the consumer drains. */
  ghost predicate Deadlocked(m: Machine) {
    && m.cons.ConsSend? && |m.outbox| == 8
    && m.fan.FanSnapshot?
    && m.lock.Some? && m.lock.value.sending.Some? && |m.inbox| == 8
    && (m.recv.RecvIdle? || m.recv.RecvStopped? || m.recv.RecvGot? || m.recv.RecvGone? || m.recv.RecvSweep? || m.recv.RecvEnqueue?)
    && (m.reaper.ReapIdle? || m.reaper.ReapTick? || m.reaper.ReapSweep?)
  }

  /** A step the receive loop or the reaper can take on its own. */
  ghost function OwnStep(m: Machine): Option<Action> {
    if m.recv.RecvLoad? then Some(LoadLastNode)
    else if m.recv.RecvOpen? then Some(OpenPort(true, true, true))
    else if m.recv.RecvReply? then Some(SendReply(true))
    else if m.recv.RecvNotify? then Some(NotifyRecv)
    else if m.reaper.ReapNotify? then Some(NotifyReap)
    else if m.recv.RecvEnqueue? && |m.inbox| < CAPACITY then Some(EnqueueNode)
    else None
  }

  ghost function LockStep(m: Machine): Option<Action> {
    if m.lock.None? then
      if m.recv.RecvGot? then Some(TrackMessage)
      else if m.recv.RecvGone? then Some(LockGone)
      else if m.reaper.ReapTick? then Some(LockExpiry)
      else if m.fan.FanSnapshot? then Some(SnapshotPeers)
      else None
    else if m.lock.value.sending.Some? then
      if |m.inbox| < CAPACITY then Some(SendRemoval) else None
    else if m.lock.value.victims == {} then Some(EndSweep)
    else
      var sid :| sid in m.lock.value.victims;
      Some(RemoveVictim(sid))
  }

  ghost function FanStep(m: Machine): Option<Action> {
    match m.fan
    case FanIdle => if m.outbox != [] then Some(TakeOut) else None
    case FanStore(_) => Some(StoreLast)
    case FanSnapshot(_) => None
    case FanSend(_, targets) =>
      if targets == map[] then Some(EndFanOut)
      else
        var sid :| sid in targets;
        Some(SendNode(sid))
  }

  ghost function ConsumerStep(m: Machine): Option<Action> {
    match m.cons
    case ConsIdle => if m.inbox != [] then Some(TakeUpdate) else if m.nodeSignal then Some(TakeNodeSignal) else None
    case ConsApply(_) => Some(ApplyTaken)
    case ConsSignal => Some(RaisePeerSignal)
    case ConsLoad => Some(LoadSelf)
    case ConsSend(_) => if |m.outbox| < CAPACITY then Some(SendOut) else None
  }

  lemma StepsEnabled(m: Machine)
    requires Locking(m)
    ensures OwnStep(m).Some? ==> Enabled(m, OwnStep(m).value) && Internal(OwnStep(m).value)
    ensures LockStep(m).Some? ==> Enabled(m, LockStep(m).value) && Internal(LockStep(m).value)
  {
  }

  lemma OtherStepsEnabled(m: Machine)
    ensures FanStep(m).Some? ==> Enabled(m, FanStep(m).value) && Internal(FanStep(m).value)
    ensures ConsumerStep(m).Some? ==> Enabled(m, ConsumerStep(m).value) && Internal(ConsumerStep(m).value)
  {
  }

  lemma DeadlockedHasNoStep(m: Machine, a: Action)
    requires Locking(m) && Deadlocked(m) && Internal(a)
    ensures !Enabled(m, a)
  {
  }

  /** Work in progress can go on exactly if the host is not in that cycle. In
      particular it can whenever there is room in either channel. */
  lemma ProgressUnlessDeadlocked(m: Machine)
    requires Locking(m) && Busy(m)
    ensures (exists a :: Internal(a) && Enabled(m, a)) <==> !Deadlocked(m)
  {
    if Deadlocked(m) {
      forall a | Internal(a) ensures !Enabled(m, a) {
        DeadlockedHasNoStep(m, a);
      }
    } else {
      StepsEnabled(m);
      OtherStepsEnabled(m);
      hide Enabled, Internal;
      assert OwnStep(m).Some? || LockStep(m).Some? || FanStep(m).Some? || ConsumerStep(m).Some?;
    }
  }

  lemma RoomMeansProgress(run: seq<Action>)
    requires Possible(run) && Busy(After(run).m)
    requires |After(run).m.inbox| < 8 || |After(run).m.outbox| < 8
    ensures exists a :: Internal(a) && Enabled(After(run).m, a)
  {
    InvariantHolds(run);
    hide Enabled, After;
    ProgressUnlessDeadlocked(After(run).m);
  }

  /** Nothing that can still happen resolves the cycle. */
  lemma DeadlockIsForever(m: Machine, a: Action)
    requires Locking(m) && Deadlocked(m) && Enabled(m, a)
    ensures Deadlocked(Next(m, a))
  {
    if Internal(a) {
      DeadlockedHasNoStep(m, a);
    }
  }

  // ----- left alone, the host comes to rest -----

  /** The work the goroutines have before them, most pressing first: decisions to
      take under the mutex, removals and nodes to send, updates to apply, own nodes
      to fetch, nodes to fan out, sessions to send them to, replies and
      notifications to make. */
  datatype Work = Work(decisions: nat, removals: nat, updates: nat, own: nat, fanOuts: nat, targets: nat, answers: nat)

  ghost predicate Less(a: Work, b: Work) {
    a.decisions < b.decisions || (a.decisions == b.decisions && (
    a.removals < b.removals || (a.removals == b.removals && (
    a.updates < b.updates || (a.updates == b.updates && (
    a.own < b.own || (a.own == b.own && (
    a.fanOuts < b.fanOuts || (a.fanOuts == b.fanOuts && (
    a.targets < b.targets || (a.targets == b.targets && a.answers < b.answers)))))))))))
  }

  function One(condition: bool): nat {
    if condition then 1 else 0
  }

  ghost function Answers(m: Machine): nat {
    (match m.recv
     case RecvLoad(_, _) => 2
     case RecvOpen(_, _, _, _) => 2
     case RecvReply(_, _) => 1
     case RecvNotify(ids) => |ids|
     case _ => 0)
    + (match m.reaper case ReapNotify(ids) => |ids| case _ => 0)
  }

  ghost function RemovalWork(m: Machine): nat {
    (match m.lock
     case None => 0
     case Some(sweep) => 2 * |sweep.victims| + One(sweep.sending.Some?) + 1)
    + One(m.recv.RecvEnqueue?)
  }

  ghost function WorkOf(m: Machine): Work {
    Work(One(m.recv.RecvGot?) + One(m.recv.RecvGone?) + One(m.reaper.ReapTick?),
         RemovalWork(m),
         3 * |m.inbox| + 2 * One(m.cons.ConsApply?) + One(m.cons.ConsSignal?),
         3 * One(m.nodeSignal) + 2 * One(m.cons.ConsLoad?) + One(m.cons.ConsSend?),
         4 * |m.outbox| + (match m.fan case FanIdle => 0 case FanStore(_) => 3 case FanSnapshot(_) => 2 case FanSend(_, _) => 1),
         if m.fan.FanSend? then |m.fan.targets.Keys| else 0,
         Answers(m))
  }

  lemma ReceiveLoopWorks(m: Machine, a: Action)
    requires Locking(m) && Enabled(m, a) && Internal(a) && InReceiveLoop(a)
    ensures Less(WorkOf(Next(m, a)), WorkOf(m))
  {
    hide Next, Enabled, WorkOf, Less, Locking;
    if a.TrackMessage? {
      TrackWorks(m);
    } else if a.NotifyRecv? || a.NotifyReap? {
      NotifyWorks(m, a);
    } else if a.LockGone? || a.EnqueueNode? {
      SendWorks(m, a);
    } else {
      AnswerWorks(m, a);
    }
  }

  lemma AnswerWorks(m: Machine, a: Action)
    requires Enabled(m, a) && (a.LoadLastNode? || a.OpenPort? || a.SendReply?)
    ensures Less(WorkOf(Next(m, a)), WorkOf(m))
  {
    ReceiveLoopFootprint(m, a);
    var n := Next(m, a);
    assert n.lock == m.lock && !n.recv.RecvGot? && !n.recv.RecvGone? && Answers(n) < Answers(m);
    hide Next, Enabled, Answers;
  }

  lemma SendWorks(m: Machine, a: Action)
    requires Enabled(m, a) && (a.LockGone? || a.EnqueueNode?)
    ensures Less(WorkOf(Next(m, a)), WorkOf(m))
  {
    hide Answers;
    if a.EnqueueNode? {
      assert RemovalWork(Next(m, a)) < RemovalWork(m);
    }
    hide RemovalWork;
  }

  lemma TrackWorks(m: Machine)
    requires Locking(m) && Enabled(m, TrackMessage)
    ensures Less(WorkOf(Next(m, TrackMessage)), WorkOf(m))
  {
    TrackShapes(m);
    var n := Next(m, TrackMessage);
    assert !n.recv.RecvGot? && !n.recv.RecvGone? && n.reaper == m.reaper;
    hide Next, RemovalWork, Answers, TrackedInto, Locking;
  }

  lemma NotifyWorks(m: Machine, a: Action)
    requires Enabled(m, a) && (a.NotifyRecv? || a.NotifyReap?)
    ensures Less(WorkOf(Next(m, a)), WorkOf(m))
  {
    hide U.CloseSession;
    var n := Next(m, a);
    assert n == m.(udp := n.udp, recv := n.recv, reaper := n.reaper);
    assert n.recv == m.recv || n.recv.RecvNotify? || n.recv.RecvIdle?;
    assert n.reaper.ReapTick? <==> m.reaper.ReapTick?;
    assert Answers(n) < Answers(m) && RemovalWork(n) == RemovalWork(m);
    hide Next, Enabled, Answers, RemovalWork;
  }

  lemma SweepWorks(m: Machine, a: Action)
    requires Locking(m) && Enabled(m, a) && Internal(a) && InSweep(a)
    ensures Less(WorkOf(Next(m, a)), WorkOf(m))
  {
    hide Next, WorkOf, Less, Locking;
    if a.RemoveVictim? {
      RemovalWorks(m, a.sid);
    } else if a.EndSweep? {
      SweepEndWorks(m);
    } else if a.NotifyReap? {
      NotifyWorks(m, a);
    } else {
      LockedWorks(m, a);
    }
  }

  lemma LockedWorks(m: Machine, a: Action)
    requires Enabled(m, a) && (a.SendRemoval? || a.LockExpiry?)
    ensures Less(WorkOf(Next(m, a)), WorkOf(m))
  {
    hide Answers;
  }

  lemma RemovalWorks(m: Machine, sid: SessionId)
    requires Enabled(m, RemoveVictim(sid))
    ensures Less(WorkOf(Next(m, RemoveVictim(sid))), WorkOf(m))
  {
    hide Answers;
    assert |m.lock.value.victims - {sid}| == |m.lock.value.victims| - 1;
  }

  lemma SweepEndWorks(m: Machine)
    requires Locking(m) && Enabled(m, EndSweep)
    ensures Less(WorkOf(Next(m, EndSweep)), WorkOf(m))
  {
    var n := Next(m, EndSweep);
    assert RemovalWork(n) < RemovalWork(m);
    hide RemovalWork;
  }

  lemma FanOutWorks(m: Machine, a: Action)
    requires Enabled(m, a) && InFanOut(a)
    ensures Less(WorkOf(Next(m, a)), WorkOf(m))
  {
    if a.SendNode? {
      assert Next(m, a).fan.targets.Keys == m.fan.targets.Keys - {a.sid};
    }
  }

  lemma ConsumerWorks(m: Machine, a: Action)
    requires Enabled(m, a) && InConsumer(a)
    ensures Less(WorkOf(Next(m, a)), WorkOf(m))
  {
  }

  /** Every step the goroutines take by themselves gets work done: they cannot run
      on forever without a packet, a tick, a request or the stream. */
  lemma EveryStepWorks(m: Machine, a: Action)
    requires Locking(m) && Enabled(m, a) && Internal(a)
    ensures Less(WorkOf(Next(m, a)), WorkOf(m))
  {
    hide Next, Enabled, Less, WorkOf, Locking;
    if InReceiveLoop(a) {
      ReceiveLoopWorks(m, a);
    } else if InSweep(a) {
      SweepWorks(m, a);
    } else if InFanOut(a) {
      FanOutWorks(m, a);
    } else {
      ConsumerWorks(m, a);
    }
  }

  ghost predicate RunsAlone(m: Machine, actions: seq<Action>, n: Machine)
    decreases |actions|
  {
    if actions == [] then n == m
    else Internal(actions[0]) && Enabled(m, actions[0]) && RunsAlone(Next(m, actions[0]), actions[1..], n)
  }

  /** Nobody is in the middle of anything and nothing waits to be done. */
  ghost predicate Resting(m: Machine) {
    !Busy(m) && m.lock.None? && m.inbox == [] && m.outbox == [] && !m.nodeSignal
  }

  lemma StuckMeans(m: Machine)
    requires Locking(m) && forall a :: Internal(a) ==> !Enabled(m, a)
    ensures Resting(m) || Deadlocked(m)
  {
    if Busy(m) {
      hide Internal, Enabled, Deadlocked;
      ProgressUnlessDeadlocked(m);
    } else {
      assert Internal(TakeUpdate) && Internal(TakeNodeSignal) && Internal(TakeOut);
      assert !Enabled(m, TakeUpdate) && !Enabled(m, TakeNodeSignal) && !Enabled(m, TakeOut);
    }
  }

  /** Left alone, the host comes to rest or ends in the cycle: no way of going on by
      itself avoids both. */
  lemma ComesToRest(m: Machine) returns (actions: seq<Action>, n: Machine)
    requires Locking(m)
    ensures RunsAlone(m, actions, n) && (Resting(n) || Deadlocked(n))
    decreases WorkOf(m).decisions, WorkOf(m).removals, WorkOf(m).updates, WorkOf(m).own,
              WorkOf(m).fanOuts, WorkOf(m).targets, WorkOf(m).answers
  {
    hide Next, Enabled, WorkOf, Locking, Internal, Deadlocked, Resting;
    if a :| Internal(a) && Enabled(m, a) {
      EveryStepWorks(m, a);
      LockingKept(m, a);
      var rest;
      rest, n := ComesToRest(Next(m, a));
      actions := [a] + rest;
      assert actions[1..] == rest;
    } else {
      actions, n := [], m;
      StuckMeans(m);
    }
  }
}
