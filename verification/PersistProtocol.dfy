/** Any number of `serve` processes share one state file. Each may load it,
    create it, or, when rotating, replace it; each may crash or fail at any step.
    The file system is abstract: a name points to a file, linking and renaming are
    atomic. */
module PersistProtocol {
  import opened Wrappers
  import opened Keys
  import opened PersistCodec

  type Pid = nat
  type FileId = nat

  datatype Content = Partial | Whole(record: Persisted)

  datatype Pc =
    | Start
    | Inspected(file: FileId)
    | Opened(file: FileId)
    | Loaded(state: ReceiveState)
    | Generating
    | Saving
    | TempCreated(file: FileId)
    | TempWritten(file: FileId)
    | Linked(file: FileId)
    | Published(file: FileId)
    | Serving
    | Exited
    | Crashed

  /** A process and the identity its host runs with, once it has one. */
  datatype Process = Process(rotating: bool, pc: Pc, identity: Option<ReceiveState>)

  datatype State = State(
    procs: map<Pid, Process>,
    files: map<FileId, Content>,
    path: Option<FileId>,
    // the temporary names still in the directory
    temps: map<Pid, FileId>,
    // who made the path point to which file, oldest first
    history: seq<(Pid, FileId)>)

  datatype Action =
    | Lstat(pid: Pid)
    | SkipLoad(pid: Pid)
    | Open(pid: Pid)
    | Read(pid: Pid)
    | StartLoaded(pid: Pid, ok: bool)
    | Generate(pid: Pid, state: ReceiveState, ok: bool)
    | CreateTemp(pid: Pid, file: FileId, ok: bool)
    | WriteTemp(pid: Pid, ok: bool)
    | Publish(pid: Pid, ok: bool)
    | RemoveTemp(pid: Pid, ok: bool)
    | SyncDirectory(pid: Pid, ok: bool)
    | Crash(pid: Pid)

  ghost predicate Enabled(s: State, a: Action) {
    a.pid in s.procs &&
    var p := s.procs[a.pid];
    match a
    case Lstat(_) => p.pc.Start? && !p.rotating
    case SkipLoad(_) => p.pc.Start? && p.rotating
    case Open(_) => p.pc.Inspected?
    case Read(_) => p.pc.Opened? && p.pc.file in s.files
    case StartLoaded(_, _) => p.pc.Loaded?
    case Generate(_, _, _) => p.pc.Generating?
    case CreateTemp(_, file, _) => p.pc.Saving? && p.identity.Some? && file !in s.files
    case WriteTemp(_, _) => p.pc.TempCreated? && p.identity.Some? && Encode(p.identity.value).Ok?
    case Publish(_, _) => p.pc.TempWritten?
    case RemoveTemp(_, _) => p.pc.Linked?
    case SyncDirectory(_, _) => p.pc.Published?
    case Crash(_) => !p.pc.Exited? && !p.pc.Crashed?
  }

  function Goto(s: State, pid: Pid, pc: Pc): State
    requires pid in s.procs
  {
    s.(procs := s.procs[pid := s.procs[pid].(pc := pc)])
  }

  /** An error return: the deferred cleanup removes the temporary name. */
  function Exit(s: State, pid: Pid): State
    requires pid in s.procs
  {
    Goto(s, pid, Exited).(temps := s.temps - {pid})
  }

  ghost function Next(s: State, a: Action): State
    requires Enabled(s, a)
  {
    var p := s.procs[a.pid];
    match a
    case Lstat(pid) => if s.path.None? then Goto(s, pid, Generating) else Goto(s, pid, Inspected(s.path.value))
    case SkipLoad(pid) => Goto(s, pid, Generating)
    case Open(pid) => if s.path == Some(p.pc.file) then Goto(s, pid, Opened(p.pc.file)) else Exit(s, pid)
    case Read(pid) =>
      var content := s.files[p.pc.file];
      if content.Whole? && Decode(content.record).Ok? then Goto(s, pid, Loaded(Decode(content.record).value)) else Exit(s, pid)
    case StartLoaded(pid, ok) =>
      if ok then s.(procs := s.procs[pid := Process(p.rotating, Serving, Some(p.pc.state))]) else Exit(s, pid)
    case Generate(pid, state, ok) =>
      if ok then s.(procs := s.procs[pid := Process(p.rotating, Saving, Some(state))]) else Exit(s, pid)
    case CreateTemp(pid, file, ok) =>
      if ok && Encode(p.identity.value).Ok?
      then Goto(s, pid, TempCreated(file)).(files := s.files[file := Partial], temps := s.temps[pid := file])
      else Exit(s, pid)
    case WriteTemp(pid, ok) =>
      if ok then Goto(s, pid, TempWritten(p.pc.file)).(files := s.files[p.pc.file := Whole(Encode(p.identity.value).value)])
      else Exit(s, pid)
    case Publish(pid, ok) =>
      if !ok then Exit(s, pid)
      else if p.rotating then
        Goto(s, pid, Published(p.pc.file)).(path := Some(p.pc.file), temps := s.temps - {pid}, history := s.history + [(pid, p.pc.file)])
      else if s.path.None? then
        Goto(s, pid, Linked(p.pc.file)).(path := Some(p.pc.file), history := s.history + [(pid, p.pc.file)])
      else Exit(s, pid)
    case RemoveTemp(pid, ok) => if ok then Goto(s, pid, Published(p.pc.file)).(temps := s.temps - {pid}) else Exit(s, pid)
    case SyncDirectory(pid, ok) => if ok then Goto(s, pid, Serving) else Exit(s, pid)
    case Crash(pid) => Goto(s, pid, Crashed)
  }

  ghost predicate InHistory(s: State, file: FileId) {
    exists k :: 0 <= k < |s.history| && s.history[k].1 == file
  }

  /** The file holds one complete identity. */
  ghost predicate HoldsState(s: State, file: FileId, state: ReceiveState) {
    file in s.files && s.files[file].Whole? && Decode(s.files[file].record) == Ok(state)
  }

  /** The file a process is still preparing under a temporary name. */
  predicate Preparing(pc: Pc) {
    pc.TempCreated? || pc.TempWritten?
  }

  /** The path is absent or names the file published last; every published file
      is complete and nobody writes to it any more; files in preparation belong
      to one process each. */
  ghost predicate FilesSound(s: State) {
    && s.path == (if s.history == [] then None else Some(s.history[|s.history| - 1].1))
    && (forall k :: 0 <= k < |s.history| ==> Complete(s, s.history[k].1))
    && (forall p :: p in s.procs && Preparing(s.procs[p].pc) ==>
          s.procs[p].pc.file in s.files && !InHistory(s, s.procs[p].pc.file))
    && (forall p :: p in s.procs && s.procs[p].pc.TempCreated? ==> s.files[s.procs[p].pc.file] == Partial)
    && (forall p, q :: p in s.procs && q in s.procs && p != q && Preparing(s.procs[p].pc) && Preparing(s.procs[q].pc) ==>
          s.procs[p].pc.file != s.procs[q].pc.file)
  }

  ghost predicate Complete(s: State, file: FileId) {
    exists state :: HoldsState(s, file, state)
  }

  /** The identity was published: some file the path named holds it. */
  ghost predicate WasPublished(s: State, state: ReceiveState) {
    exists file :: InHistory(s, file) && HoldsState(s, file, state)
  }

  /** Where a process has its identity from. */
  ghost predicate Sourced(s: State, p: Process) {
    match p.pc
    case Inspected(file) => InHistory(s, file)
    case Opened(file) => InHistory(s, file)
    case Loaded(state) => WasPublished(s, state)
    case TempWritten(file) => p.identity.Some? && HoldsState(s, file, p.identity.value)
    case Linked(file) => p.identity.Some? && WasPublished(s, p.identity.value)
    case Published(file) => p.identity.Some? && WasPublished(s, p.identity.value)
    case Serving => p.identity.Some? && WasPublished(s, p.identity.value)
    case _ => true
  }

  /** Temporary names belong to processes at work, or to crashed ones. */
  ghost predicate TempsOwned(s: State) {
    forall p :: p in s.temps ==> p in s.procs && (Preparing(s.procs[p].pc) || s.procs[p].pc.Linked? || s.procs[p].pc.Crashed?)
  }

  ghost predicate Invariant(s: State) {
    && FilesSound(s)
    && TempsOwned(s)
    && forall p :: p in s.procs ==> Sourced(s, s.procs[p])
  }

  /** A complete file stays as it is, and what was published stays published. */
  lemma StepPersists(s: State, a: Action)
    requires FilesSound(s) && Enabled(s, a)
    ensures forall file, state :: HoldsState(s, file, state) ==> HoldsState(Next(s, a), file, state)
    ensures forall file :: InHistory(s, file) ==> InHistory(Next(s, a), file)
  {
    var t := Next(s, a);
    assert s.history <= t.history;
    assert forall file :: file in s.files && s.files[file].Whole? && !(a.WriteTemp? && file == s.procs[a.pid].pc.file) ==>
             file in t.files && t.files[file] == s.files[file];
    hide Next, Decode, Encode;
    forall file | InHistory(s, file) ensures InHistory(t, file) {
      var k :| 0 <= k < |s.history| && s.history[k].1 == file;
      assert t.history[k].1 == file;
    }
  }

  lemma OtherStepFrame(s: State, a: Action)
    requires Enabled(s, a) && !a.Publish? && !a.CreateTemp? && !a.WriteTemp?
    ensures var t := Next(s, a);
            && t.history == s.history && t.files == s.files && t.path == s.path
            && forall p :: p in t.procs ==> p in s.procs && (Preparing(t.procs[p].pc) ==> t.procs[p].pc == s.procs[p].pc)
  {
    hide Decode, Encode;
  }

  /** Steps that neither create nor publish a file. */
  lemma FilesSoundByOtherStep(s: State, a: Action)
    requires FilesSound(s) && Enabled(s, a) && !a.Publish? && !a.CreateTemp? && !a.WriteTemp?
    ensures FilesSound(Next(s, a))
  {
    hide Next, Enabled;
    var t := Next(s, a);
    OtherStepFrame(s, a);
    assert forall file :: InHistory(t, file) <==> InHistory(s, file);
    hide HoldsState, Complete, InHistory;
    forall k | 0 <= k < |t.history| ensures Complete(t, t.history[k].1) {
      CompleteInSameFiles(s, t, t.history[k].1);
    }
  }

  lemma CompleteInSameFiles(s: State, t: State, file: FileId)
    requires Complete(s, file) && t.files == s.files
    ensures Complete(t, file)
  {
    var state :| HoldsState(s, file, state);
    assert HoldsState(t, file, state);
  }

  lemma CompleteFrame(s: State, t: State, file: FileId)
    requires Complete(s, file)
    requires forall state :: HoldsState(s, file, state) ==> HoldsState(t, file, state)
    ensures Complete(t, file)
  {
    var state :| HoldsState(s, file, state);
    assert HoldsState(t, file, state);
  }

  lemma PublishedFilesComplete(s: State, a: Action)
    requires FilesSound(s) && Enabled(s, a) && (a.CreateTemp? || a.WriteTemp?)
    ensures var t := Next(s, a);
            && t.history == s.history && t.path == s.path
            && (forall k :: 0 <= k < |t.history| ==> Complete(t, t.history[k].1))
            && (forall file :: InHistory(t, file) <==> InHistory(s, file))
            && (forall file :: InHistory(s, file) ==> file in s.files)
  {
    StepPersists(s, a);
    var t := Next(s, a);
    hide Decode, Encode;
    assert t.history == s.history && t.path == s.path;
    hide Next, Enabled;
    forall k | 0 <= k < |t.history| ensures Complete(t, t.history[k].1) && t.history[k].1 in s.files {
      assert Complete(s, s.history[k].1);
      CompleteFrame(s, t, t.history[k].1);
    }
    assert forall file :: InHistory(t, file) <==> InHistory(s, file);
  }

  lemma FilesSoundByTemp(s: State, a: Action)
    requires FilesSound(s) && Enabled(s, a) && (a.CreateTemp? || a.WriteTemp?)
    ensures FilesSound(Next(s, a))
  {
    hide Decode, Encode, Complete, HoldsState, InHistory;
    PublishedFilesComplete(s, a);
  }

  lemma FilesSoundByPublish(s: State, a: Action)
    requires FilesSound(s) && Enabled(s, a) && a.Publish? && Sourced(s, s.procs[a.pid])
    ensures FilesSound(Next(s, a))
  {
    StepPersists(s, a);
    var t := Next(s, a);
    hide Decode, Encode;
    var file := s.procs[a.pid].pc.file;
    assert Complete(s, file);
    forall k | 0 <= k < |t.history| ensures Complete(t, t.history[k].1) {
      CompleteFrame(s, t, t.history[k].1);
    }
    forall f | InHistory(t, f) ensures InHistory(s, f) || f == file {
      var k :| 0 <= k < |t.history| && t.history[k].1 == f;
      assert k < |s.history| ==> s.history[k].1 == f;
    }
    hide Complete, HoldsState, InHistory;
  }

  lemma FilesSoundKept(s: State, a: Action)
    requires Invariant(s) && Enabled(s, a)
    ensures FilesSound(Next(s, a))
  {
    hide Next, FilesSound, Sourced;
    if a.Publish? {
      FilesSoundByPublish(s, a);
    } else if a.CreateTemp? || a.WriteTemp? {
      FilesSoundByTemp(s, a);
    } else {
      FilesSoundByOtherStep(s, a);
    }
  }

  lemma SourcedFrame(s: State, t: State, p: Process)
    requires Sourced(s, p)
    requires forall file, state :: HoldsState(s, file, state) ==> HoldsState(t, file, state)
    requires forall file :: InHistory(s, file) ==> InHistory(t, file)
    ensures Sourced(t, p)
  {
    hide HoldsState, InHistory;
  }

  lemma SourcedBySaving(s: State, a: Action)
    requires Invariant(s) && Enabled(s, a) && (a.WriteTemp? || a.Publish?)
    ensures Sourced(Next(s, a), Next(s, a).procs[a.pid])
  {
    StepPersists(s, a);
    var t := Next(s, a);
    var p := s.procs[a.pid];
    assert Sourced(s, p);
    hide FilesSound, TempsOwned;
    if a.WriteTemp? && t.procs[a.pid].pc.TempWritten? {
      var state := p.identity.value;
      CodecInverts(state, Encode(state).value);
    } else if t.history != s.history {
      assert t.history[|s.history|].1 == p.pc.file;
      assert InHistory(t, p.pc.file) && HoldsState(t, p.pc.file, p.identity.value);
    }
  }

  lemma SourcedByRead(s: State, a: Action)
    requires Invariant(s) && Enabled(s, a) && a.Read?
    ensures Sourced(Next(s, a), Next(s, a).procs[a.pid])
  {
    hide FilesSound, TempsOwned, Encode;
    var t := Next(s, a);
    var p := s.procs[a.pid];
    assert Sourced(s, p);
    if t.procs[a.pid].pc.Loaded? {
      assert InHistory(t, p.pc.file) && HoldsState(t, p.pc.file, t.procs[a.pid].pc.state);
    }
  }

  lemma SourcedByLookup(s: State, a: Action)
    requires Invariant(s) && Enabled(s, a) && (a.Lstat? || a.Open?)
    ensures Sourced(Next(s, a), Next(s, a).procs[a.pid])
  {
    StepPersists(s, a);
    hide Decode, Encode;
    assert Sourced(s, s.procs[a.pid]);
    assert s.path.Some? ==> InHistory(s, s.path.value);
    hide FilesSound, TempsOwned, HoldsState, InHistory;
  }

  /** The identity is carried along. */
  lemma SourcedByProgress(s: State, a: Action)
    requires Enabled(s, a) && Sourced(s, s.procs[a.pid]) && FilesSound(s)
    requires a.StartLoaded? || a.RemoveTemp? || a.SyncDirectory?
    ensures Sourced(Next(s, a), Next(s, a).procs[a.pid])
  {
    StepPersists(s, a);
    hide Decode, FilesSound, HoldsState, InHistory;
  }

  lemma NothingToSource(s: State, a: Action)
    requires Enabled(s, a) && (a.SkipLoad? || a.Generate? || a.CreateTemp? || a.Crash?)
    ensures Sourced(Next(s, a), Next(s, a).procs[a.pid])
  {
    hide Decode, Encode, HoldsState, InHistory, WasPublished;
  }

  /** The step's own process. */
  lemma SourcedByOwnStep(s: State, a: Action)
    requires Invariant(s) && Enabled(s, a)
    ensures Sourced(Next(s, a), Next(s, a).procs[a.pid])
  {
    hide Next, FilesSound, TempsOwned, HoldsState, InHistory;
    if a.WriteTemp? || a.Publish? {
      SourcedBySaving(s, a);
    } else if a.Read? {
      SourcedByRead(s, a);
    } else if a.Lstat? || a.Open? {
      SourcedByLookup(s, a);
    } else if a.StartLoaded? || a.RemoveTemp? || a.SyncDirectory? {
      SourcedByProgress(s, a);
    } else {
      NothingToSource(s, a);
    }
  }

  lemma TempsOwnedKept(s: State, a: Action)
    requires TempsOwned(s) && Enabled(s, a)
    ensures TempsOwned(Next(s, a))
  {
    hide Decode, Encode;
  }

  lemma OthersUntouched(s: State, a: Action)
    requires Enabled(s, a)
    ensures Next(s, a).procs.Keys == s.procs.Keys && Next(s, a).procs[a.pid].rotating == s.procs[a.pid].rotating
    ensures forall p :: p in s.procs && p != a.pid ==> Next(s, a).procs[p] == s.procs[p]
  {
    hide Decode, Encode;
  }

  lemma HistoryGrows(s: State, a: Action)
    requires Enabled(s, a)
    ensures s.history <= Next(s, a).history && |Next(s, a).history| <= |s.history| + 1
  {
    hide Decode, Encode;
  }

  lemma InvariantKept(s: State, a: Action)
    requires Invariant(s) && Enabled(s, a)
    ensures Invariant(Next(s, a))
  {
    var t := Next(s, a);
    FilesSoundKept(s, a);
    TempsOwnedKept(s, a);
    SourcedByOwnStep(s, a);
    StepPersists(s, a);
    OthersUntouched(s, a);
    hide Next, Enabled, FilesSound, TempsOwned, Sourced, HoldsState, InHistory;
    forall p | p in t.procs ensures Sourced(t, t.procs[p]) {
      if p != a.pid {
        SourcedFrame(s, t, s.procs[p]);
      }
    }
  }

  /** Nothing exists yet and no process has begun. */
  ghost predicate Initial(s: State) {
    && s.files == map[] && s.path.None? && s.temps == map[] && s.history == []
    && forall p :: p in s.procs ==> s.procs[p].pc.Start? && s.procs[p].identity.None?
  }

  ghost function Exec(initial: State, run: seq<Action>): Option<State> {
    if run == [] then Some(initial)
    else
      var before := Exec(initial, run[..|run| - 1]);
      if before.Some? && Enabled(before.value, run[|run| - 1]) then Some(Next(before.value, run[|run| - 1])) else None
  }

  lemma {:induction false} InvariantHolds(initial: State, run: seq<Action>)
    requires Initial(initial) && Exec(initial, run).Some?
    ensures Invariant(Exec(initial, run).value)
    ensures Exec(initial, run).value.procs.Keys == initial.procs.Keys
    ensures forall p :: p in initial.procs ==> Exec(initial, run).value.procs[p].rotating == initial.procs[p].rotating
    decreases |run|
  {
    if run != [] {
      var (before, a) := (run[..|run| - 1], run[|run| - 1]);
      InvariantHolds(initial, before);
      var s := Exec(initial, before).value;
      InvariantKept(s, a);
      RotatingKept(s, a);
      hide Next, Enabled, Invariant;
    }
  }

  lemma RotatingKept(s: State, a: Action)
    requires Enabled(s, a)
    ensures Next(s, a).procs.Keys == s.procs.Keys
    ensures forall p :: p in s.procs ==> Next(s, a).procs[p].rotating == s.procs[p].rotating
  {
    OthersUntouched(s, a);
    hide Next, Enabled;
  }

  lemma {:induction false} OnePublication(initial: State, run: seq<Action>)
    requires Initial(initial) && Exec(initial, run).Some?
    requires forall p :: p in initial.procs ==> !initial.procs[p].rotating
    ensures |Exec(initial, run).value.history| <= 1
    decreases |run|
  {
    if run != [] {
      var (before, a) := (run[..|run| - 1], run[|run| - 1]);
      OnePublication(initial, before);
      InvariantHolds(initial, before);
      PublishesOnlyWhenAbsent(Exec(initial, before).value, a);
      hide Next, Enabled, Invariant;
    }
  }

  lemma PublishesOnlyWhenAbsent(s: State, a: Action)
    requires Enabled(s, a) && !s.procs[a.pid].rotating
    ensures |Next(s, a).history| == |s.history| || (s.path.None? && |Next(s, a).history| == |s.history| + 1)
  {
    hide Decode, Encode;
  }

  /** Without rotation, whatever the interleaving and wherever processes crash or
      fail: at most one process creates the file, the path is absent or names one
      complete identity, and every process that serves has exactly that identity. */
  lemma SingleCreatorOneIdentity(initial: State, run: seq<Action>)
    requires Initial(initial) && Exec(initial, run).Some?
    requires forall p :: p in initial.procs ==> !initial.procs[p].rotating
    ensures var s := Exec(initial, run).value;
            && |s.history| <= 1
            && (s.path.None? <==> s.history == [])
            && (s.path.Some? ==> Complete(s, s.path.value))
            && forall p :: p in s.procs && s.procs[p].pc.Serving? ==>
                 s.path.Some? && s.procs[p].identity.Some? && HoldsState(s, s.path.value, s.procs[p].identity.value)
  {
    InvariantHolds(initial, run);
    OnePublication(initial, run);
    var s := Exec(initial, run).value;
    hide Exec, Invariant, HoldsState;
    OnlyFile(s);
  }

  lemma OnlyFile(s: State)
    requires Invariant(s) && |s.history| <= 1
    ensures s.path.None? <==> s.history == []
    ensures s.path.Some? ==> Complete(s, s.path.value)
    ensures forall p :: p in s.procs && s.procs[p].pc.Serving? ==>
              s.path.Some? && s.procs[p].identity.Some? && HoldsState(s, s.path.value, s.procs[p].identity.value)
  {
    hide HoldsState, TempsOwned, Complete;
    forall p | p in s.procs && s.procs[p].pc.Serving?
      ensures s.path.Some? && s.procs[p].identity.Some? && HoldsState(s, s.path.value, s.procs[p].identity.value)
    {
      assert Sourced(s, s.procs[p]);
      var file :| InHistory(s, file) && HoldsState(s, file, s.procs[p].identity.value);
    }
  }

  /** The path named a file with exactly this identity after some prefix of the run. */
  ghost predicate WasCurrent(initial: State, run: seq<Action>, k: nat, state: ReceiveState) {
    k <= |run| && Exec(initial, run[..k]).Some? &&
    var s := Exec(initial, run[..k]).value;
    s.path.Some? && HoldsState(s, s.path.value, state)
  }

  /** Also with rotation: the path is absent or names a complete identity, and an
      identity a process loaded or serves was at some moment, in full, what the
      path named. Only crashed processes leave temporary names behind. */
  lemma ReadersSeeWholeStates(initial: State, run: seq<Action>)
    requires Initial(initial) && Exec(initial, run).Some?
    ensures var s := Exec(initial, run).value;
            && (s.path.Some? ==> Complete(s, s.path.value))
            && (forall p :: p in s.procs && s.procs[p].pc.Loaded? ==> exists k :: WasCurrent(initial, run, k, s.procs[p].pc.state))
            && (forall p :: p in s.procs && s.procs[p].pc.Serving? ==>
                  s.procs[p].identity.Some? && exists k :: WasCurrent(initial, run, k, s.procs[p].identity.value))
            && (forall p :: p in s.temps ==> p in s.procs && !s.procs[p].pc.Serving? && !s.procs[p].pc.Exited?)
  {
    InvariantHolds(initial, run);
    var s := Exec(initial, run).value;
    hide HoldsState, WasCurrent;
    forall p | p in s.procs && s.procs[p].pc.Loaded? ensures exists k :: WasCurrent(initial, run, k, s.procs[p].pc.state) {
      assert Sourced(s, s.procs[p]);
      var k := PublishedWasCurrent(initial, run, s.procs[p].pc.state);
    }
    forall p | p in s.procs && s.procs[p].pc.Serving?
      ensures s.procs[p].identity.Some? && exists k :: WasCurrent(initial, run, k, s.procs[p].identity.value)
    {
      assert Sourced(s, s.procs[p]);
      var k := PublishedWasCurrent(initial, run, s.procs[p].identity.value);
    }
  }

  lemma PublishedWasCurrent(initial: State, run: seq<Action>, state: ReceiveState) returns (k: nat)
    requires Initial(initial) && Exec(initial, run).Some? && WasPublished(Exec(initial, run).value, state)
    ensures WasCurrent(initial, run, k, state)
  {
    var s := Exec(initial, run).value;
    var file :| InHistory(s, file) && HoldsState(s, file, state);
    k := NamedAt(initial, run, file, state);
  }

  lemma {:induction false} NamedAt(initial: State, run: seq<Action>, file: FileId, state: ReceiveState) returns (k: nat)
    requires Initial(initial) && Exec(initial, run).Some?
    requires InHistory(Exec(initial, run).value, file) && HoldsState(Exec(initial, run).value, file, state)
    ensures WasCurrent(initial, run, k, state)
    decreases |run|
  {
    var t := Exec(initial, run).value;
    assert run[..|run|] == run;
    InvariantHolds(initial, run);
    if t.path == Some(file) {
      k := |run|;
    } else {
      assert run != [];
      var (before, a) := (run[..|run| - 1], run[|run| - 1]);
      InvariantHolds(initial, before);
      var s := Exec(initial, before).value;
      assert Next(s, a) == t;
      EarlierFile(s, a, file, state);
      k := NamedAt(initial, before, file, state);
      assert before[..k] == run[..k];
    }
  }

  /** A file that is no longer current was published before, with the same
      identity in it. */
  lemma EarlierFile(s: State, a: Action, file: FileId, state: ReceiveState)
    requires FilesSound(s) && Enabled(s, a) && FilesSound(Next(s, a))
    requires InHistory(Next(s, a), file) && HoldsState(Next(s, a), file, state) && Next(s, a).path != Some(file)
    ensures InHistory(s, file) && HoldsState(s, file, state)
  {
    var t := Next(s, a);
    HistoryGrows(s, a);
    StepPersists(s, a);
    hide Next, Enabled;
    var i :| 0 <= i < |t.history| && t.history[i].1 == file;
    assert i < |s.history|;
    assert s.history[i].1 == file;
    assert Complete(s, file);
    var old_ :| HoldsState(s, file, old_);
    assert HoldsState(t, file, old_);
  }

  // ----- who generates, who loads, and that both get to serve -----

  /** The process has an identity it drew itself, or is about to draw one. */
  predicate Creating(pc: Pc) {
    pc.Generating? || pc.Saving? || pc.TempCreated? || pc.TempWritten? || pc.Linked? || pc.Published?
  }

  lemma BeginsCreating(s: State, a: Action, pid: Pid)
    requires Enabled(s, a) && pid in s.procs && !s.procs[pid].rotating
    requires Creating(Next(s, a).procs[pid].pc) && !Creating(s.procs[pid].pc)
    ensures a == Lstat(pid) && s.path.None?
  {
    hide Decode, Encode;
  }

  /** Without rotation a process draws an identity of its own only if it looked at
      the path before and found nothing there. */
  lemma {:induction false} CreatesOnlyIfAbsent(initial: State, run: seq<Action>, pid: Pid) returns (k: nat)
    requires Initial(initial) && Exec(initial, run).Some? && pid in initial.procs && !initial.procs[pid].rotating
    requires pid in Exec(initial, run).value.procs && Creating(Exec(initial, run).value.procs[pid].pc)
    ensures k < |run| && run[k] == Lstat(pid)
    ensures Exec(initial, run[..k]).Some? && Exec(initial, run[..k]).value.path.None?
    decreases |run|
  {
    hide Next, Enabled, Invariant;
    assert run != [];
    var (before, a) := (run[..|run| - 1], run[|run| - 1]);
    InvariantHolds(initial, before);
    var s := Exec(initial, before).value;
    assert Exec(initial, run).value == Next(s, a) && Enabled(s, a);
    if Creating(s.procs[pid].pc) {
      k := CreatesOnlyIfAbsent(initial, before, pid);
      assert before[..k] == run[..k];
    } else {
      k := |run| - 1;
      BeginsCreating(s, a, pid);
    }
  }

  lemma Go(s: State, run: seq<Action>, u: State, a: Action) returns (longer: seq<Action>, v: State)
    requires Exec(s, run) == Some(u) && Enabled(u, a)
    ensures longer == run + [a] && v == Next(u, a) && Exec(s, longer) == Some(v)
  {
    hide Enabled, Next;
    longer, v := run + [a], Next(u, a);
    assert longer[..|run|] == run;
  }

  lemma NotYet(s: State)
    ensures Exec(s, []) == Some(s)
  {
  }

  /** The process serves with this identity. */
  predicate Serves(s: State, pid: Pid, state: ReceiveState) {
    pid in s.procs && s.procs[pid].pc == Serving && s.procs[pid].identity == Some(state)
  }

  /** Where the path names an identity, a process without rotation that takes its
      own four steps, none failing, serves with exactly that, and leaves the files
      alone. */
  lemma LoadsAndServes(s: State, pid: Pid, state: ReceiveState)
    requires pid in s.procs && !s.procs[pid].rotating && s.procs[pid].pc.Start?
    requires s.path.Some? && HoldsState(s, s.path.value, state)
    ensures var t := Exec(s, [Lstat(pid), Open(pid), Read(pid), StartLoaded(pid, true)]);
            t.Some? && Serves(t.value, pid, state) && t.value.path == s.path && t.value.files == s.files
  {
    NotYet(s);
    hide Exec, Encode;
    var run, u := Go(s, [], s, Lstat(pid));
    run, u := Go(s, run, u, Open(pid));
    run, u := Go(s, run, u, Read(pid));
    run, u := Go(s, run, u, StartLoaded(pid, true));
    hide Next, Enabled, HoldsState;
    assert run == [Lstat(pid), Open(pid), Read(pid), StartLoaded(pid, true)];
  }

  /** The identity is in place, under the path and served. */
  ghost predicate Established(s: State, pid: Pid, state: ReceiveState) {
    Serves(s, pid, state) && s.path.Some? && HoldsState(s, s.path.value, state) && pid !in s.temps
  }

  /** A process that has drawn a usable identity writes it under a temporary name. */
  lemma WritesTemp(s: State, pid: Pid, state: ReceiveState, file: FileId, start: State, run: seq<Action>)
    returns (longer: seq<Action>, t: State)
    requires pid in s.procs && s.procs[pid].pc.Generating? && Usable(state) && file !in s.files
    requires Exec(start, run) == Some(s)
    ensures longer == run + [Generate(pid, state, true), CreateTemp(pid, file, true), WriteTemp(pid, true)]
    ensures Exec(start, longer) == Some(t) && t.path == s.path
    ensures pid in t.procs && t.procs[pid] == Process(s.procs[pid].rotating, TempWritten(file), Some(state)) && HoldsState(t, file, state)
  {
    CodecInverts(state, Persisted(0, None, None, 0));
    CodecInverts(state, Encode(state).value);
    hide Exec, Encode, Decode;
    longer, t := Go(start, run, s, Generate(pid, state, true));
    longer, t := Go(start, longer, t, CreateTemp(pid, file, true));
    longer, t := Go(start, longer, t, WriteTemp(pid, true));
  }

  /** Where the path is absent, a process without rotation that takes its own steps,
      none failing, establishes the identity it drew. */
  lemma CreatesAndServes(s: State, pid: Pid, state: ReceiveState, file: FileId)
    requires pid in s.procs && !s.procs[pid].rotating && s.procs[pid].pc.Start?
    requires s.path.None? && Usable(state) && file !in s.files
    ensures var t := Exec(s, [Lstat(pid)] + [Generate(pid, state, true), CreateTemp(pid, file, true), WriteTemp(pid, true)]
                             + [Publish(pid, true), RemoveTemp(pid, true), SyncDirectory(pid, true)]);
            t.Some? && Established(t.value, pid, state)
  {
    NotYet(s);
    hide Exec, Encode, Decode;
    var run, u := Go(s, [], s, Lstat(pid));
    run, u := WritesTemp(u, pid, state, file, s, run);
    run, u := PublishesNew(s, run, u, pid, state, file);
    assert [] + [Lstat(pid)] == [Lstat(pid)];
  }

  lemma PublishesNew(start: State, run: seq<Action>, s: State, pid: Pid, state: ReceiveState, file: FileId)
    returns (longer: seq<Action>, t: State)
    requires Exec(start, run) == Some(s) && s.path.None?
    requires pid in s.procs && s.procs[pid] == Process(false, TempWritten(file), Some(state)) && HoldsState(s, file, state)
    ensures longer == run + [Publish(pid, true), RemoveTemp(pid, true), SyncDirectory(pid, true)]
    ensures Exec(start, longer) == Some(t) && Established(t, pid, state)
  {
    hide Exec, Encode, Decode;
    longer, t := Go(start, run, s, Publish(pid, true));
    longer, t := Go(start, longer, t, RemoveTemp(pid, true));
    longer, t := Go(start, longer, t, SyncDirectory(pid, true));
  }

  /** A rotating process that takes its own steps, none failing, establishes the
      identity it drew, whatever the path named before. */
  lemma RotatesAndServes(s: State, pid: Pid, state: ReceiveState, file: FileId)
    requires pid in s.procs && s.procs[pid].rotating && s.procs[pid].pc.Start?
    requires Usable(state) && file !in s.files
    ensures var t := Exec(s, [SkipLoad(pid)] + [Generate(pid, state, true), CreateTemp(pid, file, true), WriteTemp(pid, true)]
                             + [Publish(pid, true), SyncDirectory(pid, true)]);
            t.Some? && Established(t.value, pid, state)
  {
    NotYet(s);
    hide Exec, Encode, Decode;
    var run, u := Go(s, [], s, SkipLoad(pid));
    run, u := WritesTemp(u, pid, state, file, s, run);
    run, u := Go(s, run, u, Publish(pid, true));
    run, u := Go(s, run, u, SyncDirectory(pid, true));
    hide HoldsState;
    assert run == [SkipLoad(pid)] + [Generate(pid, state, true), CreateTemp(pid, file, true), WriteTemp(pid, true)]
                  + [Publish(pid, true), SyncDirectory(pid, true)];
  }

  /** A process that drew an identity but finds the path taken when it links exits,
      and the path stays what it was. */
  lemma LoserExits(s: State, pid: Pid)
    requires pid in s.procs && !s.procs[pid].rotating && s.procs[pid].pc.TempWritten? && s.path.Some?
    ensures Enabled(s, Publish(pid, true))
    ensures var t := Next(s, Publish(pid, true));
            pid in t.procs && t.procs[pid].pc == Exited && t.path == s.path && t.files == s.files && pid !in t.temps
  {
  }

  predicate Failing(a: Action) {
    match a
    case StartLoaded(_, ok) => !ok
    case Generate(_, _, ok) => !ok
    case CreateTemp(_, _, ok) => !ok
    case WriteTemp(_, ok) => !ok
    case Publish(_, ok) => !ok
    case RemoveTemp(_, ok) => !ok
    case SyncDirectory(_, ok) => !ok
    case _ => false
  }

  /** A step that fails ends the process, takes its temporary name along and leaves
      the path alone. */
  lemma FailureExits(s: State, a: Action)
    requires Enabled(s, a) && Failing(a)
    ensures var t := Next(s, a);
            a.pid in t.procs && t.procs[a.pid].pc == Exited && a.pid !in t.temps && t.path == s.path && t.history == s.history
  {
    hide Decode, Encode;
  }

  /** A crash leaves the directory as it is. */
  lemma CrashLeavesFiles(s: State, pid: Pid)
    requires Enabled(s, Crash(pid))
    ensures var t := Next(s, Crash(pid));
            && t == s.(procs := t.procs) && pid in t.procs && t.procs[pid].pc == Crashed
            && forall a: Action :: a.pid == pid ==> !Enabled(t, a)
  {
  }
}
