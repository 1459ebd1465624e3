/** The commit protocol of packages/crew/src/loops/maintenanceLane.ts: any number of workers
    select and persist a lane under an exclusively created lock file, with bounded retries and
    reclaim of stale locks. Each worker is one call of `commitMaintenanceChoice`; the actions
    below are its file operations, freely interleaved with those of the other workers. */
module MaintenanceCommit {
  import opened Prelude
  import opened MaintenanceLane

  const COMMIT_MAX_ATTEMPTS: nat := 8
  const COMMIT_LOCK_STALE_MS: nat := 5000

  /** The lock file; `owner` is the worker whose create call reported success, `None` when
      writing the pid failed after the file had been created. */
  datatype LockFile = LockFile(owner: Option<nat>, takenAt: nat)

  datatype Pc =
    | Trying                      // about to create the lock file
    | Contended                   // creation failed, about to stat the lock
    | SawStale                    // the stat said stale, about to remove the lock file
    | Holding                     // lock created, about to read the cursor
    | Loaded(cursor: Cursor)
    | Chosen(choice: Choice)      // about to rename the temp file over the cursor
    | Persisted(choice: Choice)   // renamed, about to release
    | Unwinding                   // the save threw, about to release
    | Returned(choice: Choice)
    | GaveUp(cursor: Cursor)      // attempts exhausted: lane null
    | Failed                      // the save error was rethrown
    | Crashed

  datatype Worker = Worker(flags: LoopFlags, attempt: nat, pc: Pc)

  /** One rename of a cursor file into place: a history variable. */
  datatype Commit = Commit(worker: nat, flags: LoopFlags, choice: Choice)

  datatype State = State(now: nat, lock: Option<LockFile>, file: CursorFile, workers: map<nat, Worker>, log: seq<Commit>)

  datatype Action =
    | Elapse(ms: nat)
    | Start(w: nat, flags: LoopFlags)
    | Acquire(w: nat)       // O_EXCL create succeeds
    | AcquireTorn(w: nat)   // create succeeds, writing the pid fails
    | AcquireFails(w: nat)  // the file exists, or another error
    | StatLock(w: nat)
    | RemoveStale(w: nat)
    | ReadCursor(w: nat)
    | Select(w: nat)
    | Rename(w: nat)
    | SaveFails(w: nat)
    | Release(w: nat)
    | Exhaust(w: nat)
    | Crash(w: nat)

  function Initial(file: CursorFile): State {
    State(0, None, file, map[], [])
  }

  predicate Critical(pc: Pc) {
    pc.Holding? || pc.Loaded? || pc.Chosen? || pc.Persisted? || pc.Unwinding?
  }

  predicate Running(pc: Pc) {
    pc.Trying? || pc.Contended? || pc.SawStale? || Critical(pc)
  }

  predicate IsStale(s: State) {
    s.lock.Some? && s.now - s.lock.value.takenAt > COMMIT_LOCK_STALE_MS
  }

  predicate CanStep(s: State, a: Action) {
    match a
    case Elapse(_) => true
    case Start(w, _) => w !in s.workers
    case Acquire(w) => At(s, w).Trying? && s.workers[w].attempt < COMMIT_MAX_ATTEMPTS && s.lock.None?
    case AcquireTorn(w) => At(s, w).Trying? && s.workers[w].attempt < COMMIT_MAX_ATTEMPTS && s.lock.None?
    case AcquireFails(w) => At(s, w).Trying? && s.workers[w].attempt < COMMIT_MAX_ATTEMPTS
    case StatLock(w) => At(s, w).Contended?
    case RemoveStale(w) => At(s, w).SawStale?
    case ReadCursor(w) => At(s, w).Holding?
    case Select(w) => At(s, w).Loaded?
    case Rename(w) => At(s, w).Chosen?
    case SaveFails(w) => At(s, w).Chosen?
    case Release(w) => At(s, w).Persisted? || At(s, w).Unwinding?
    case Exhaust(w) => At(s, w).Trying? && s.workers[w].attempt >= COMMIT_MAX_ATTEMPTS
    case Crash(w) => Running(At(s, w))
  }

  /** The program counter of `w`; a worker that never started can do nothing. */
  function At(s: State, w: nat): Pc {
    if w in s.workers then s.workers[w].pc else Failed
  }

  function Move(s: State, w: nat, pc: Pc): State
    requires w in s.workers
  {
    s.(workers := s.workers[w := s.workers[w].(pc := pc)])
  }

  function NextAttempt(s: State, w: nat): State
    requires w in s.workers
  {
    s.(workers := s.workers[w := s.workers[w].(pc := Trying, attempt := s.workers[w].attempt + 1)])
  }

  function Step(s: State, a: Action): State
    requires CanStep(s, a)
  {
    match a
    case Elapse(ms) => s.(now := s.now + ms)
    case Start(w, flags) => s.(workers := s.workers[w := Worker(flags, 0, Trying)])
    case Acquire(w) => Move(s, w, Holding).(lock := Some(LockFile(Some(w), s.now)))
    case AcquireTorn(w) => Move(s, w, Contended).(lock := Some(LockFile(None, s.now)))
    case AcquireFails(w) => Move(s, w, Contended)
    case StatLock(w) => if IsStale(s) then Move(s, w, SawStale) else NextAttempt(s, w)
    case RemoveStale(w) => NextAttempt(s, w).(lock := None)
    case ReadCursor(w) => Move(s, w, Loaded(Load(s.file)))
    case Select(w) => Move(s, w, Chosen(Choose(s.workers[w].flags, s.workers[w].pc.cursor)))
    case Rename(w) =>
      var choice := s.workers[w].pc.choice;
      Move(s, w, Persisted(choice)).(file := Stored(choice.next), log := s.log + [Commit(w, s.workers[w].flags, choice)])
    case SaveFails(w) => Move(s, w, Unwinding)
    case Release(w) =>
      var pc := s.workers[w].pc;
      Move(s, w, if pc.Persisted? then Returned(pc.choice) else Failed).(lock := None)
    case Exhaust(w) => Move(s, w, GaveUp(Load(s.file)))
    case Crash(w) => Move(s, w, Crashed)
  }

  /** The hypothesis on reclaim: whenever the lock file is removed as stale, the worker that
      created it has crashed (or never took possession). The code does not enforce it. */
  predicate ReclaimIsSafe(s: State, a: Action) {
    a.RemoveStale? && s.lock.Some? && s.lock.value.owner.Some? ==> At(s, s.lock.value.owner.value).Crashed?
  }

  predicate ValidRun(s: State, run: seq<Action>)
    decreases run
  {
    run == [] || (CanStep(s, run[0]) && ValidRun(Step(s, run[0]), run[1..]))
  }

  function Reached(s: State, run: seq<Action>): State
    requires ValidRun(s, run)
    decreases run
  {
    if run == [] then s else Reached(Step(s, run[0]), run[1..])
  }

  predicate SafeRun(s: State, run: seq<Action>)
    requires ValidRun(s, run)
    decreases run
  {
    run == [] || (ReclaimIsSafe(s, run[0]) && SafeRun(Step(s, run[0]), run[1..]))
  }

  // ----- The invariant -----

  predicate LockGuards(s: State) {
    && (forall w :: w in s.workers && Critical(s.workers[w].pc) ==> s.lock.Some? && s.lock.value.owner == Some(w))
    && (s.lock.Some? && s.lock.value.owner.Some? ==>
          var owner := s.lock.value.owner.value;
          owner in s.workers && (Critical(s.workers[owner].pc) || s.workers[owner].pc.Crashed?))
  }

  /** The cursor file as the commits so far left it. */
  function Committed(start: CursorFile, log: seq<Commit>): CursorFile {
    if log == [] then start else Stored(log[|log| - 1].choice.next)
  }

  /** The commit was chosen from the cursor that the log left in the file. */
  predicate Follows(start: CursorFile, log: seq<Commit>, commit: Commit) {
    commit.choice == Choose(commit.flags, Load(Committed(start, log)))
  }

  predicate LogIsChained(start: CursorFile, log: seq<Commit>)
    decreases |log|
  {
    log == [] || (LogIsChained(start, log[..|log| - 1]) && Follows(start, log[..|log| - 1], log[|log| - 1]))
  }

  predicate WorkersAreCurrent(s: State) {
    forall w :: w in s.workers ==>
      match s.workers[w].pc
      case Loaded(cursor) => cursor == Load(s.file)
      case Chosen(choice) => choice == Choose(s.workers[w].flags, Load(s.file))
      case _ => true
  }

  predicate HasCommit(log: seq<Commit>, w: nat, choice: Choice) {
    exists i :: 0 <= i < |log| && log[i].worker == w && log[i].choice == choice
  }

  /** Which workers have an entry in the log: those past the rename, and possibly crashed ones. */
  predicate LogIsSigned(s: State) {
    && (forall i :: 0 <= i < |s.log| ==>
          s.log[i].worker in s.workers &&
          var pc := s.workers[s.log[i].worker].pc;
          pc == Persisted(s.log[i].choice) || pc == Returned(s.log[i].choice) || pc.Crashed?)
    && (forall i, j :: 0 <= i < j < |s.log| ==> s.log[i].worker != s.log[j].worker)
    && (forall w :: w in s.workers && (s.workers[w].pc.Persisted? || s.workers[w].pc.Returned?) ==>
          HasCommit(s.log, w, s.workers[w].pc.choice))
  }

  predicate AttemptsAreBounded(s: State) {
    forall w :: w in s.workers ==>
      && s.workers[w].attempt <= COMMIT_MAX_ATTEMPTS
      && (Running(s.workers[w].pc) && !s.workers[w].pc.Trying? ==> s.workers[w].attempt < COMMIT_MAX_ATTEMPTS)
      && (s.workers[w].pc.GaveUp? ==> s.workers[w].attempt == COMMIT_MAX_ATTEMPTS)
  }

  predicate Invariant(start: CursorFile, s: State) {
    && LockGuards(s)
    && s.file == Committed(start, s.log)
    && LogIsChained(start, s.log)
    && WorkersAreCurrent(s)
    && LogIsSigned(s)
    && AttemptsAreBounded(s)
  }

  lemma LogSurvivesMove(s: State, w: nat, pc: Pc)
    requires LogIsSigned(s) && w in s.workers
    requires s.workers[w].pc.Persisted? ==> pc.Crashed? || pc == Returned(s.workers[w].pc.choice)
    requires !s.workers[w].pc.Returned? && !s.workers[w].pc.Crashed?
    requires !s.workers[w].pc.Persisted? ==> !pc.Persisted? && !pc.Returned?
    ensures LogIsSigned(Move(s, w, pc))
  {
    assert s.log == Move(s, w, pc).log;
  }

  lemma LogSurvivesRename(s: State, w: nat)
    requires LogIsSigned(s) && At(s, w).Chosen?
    ensures LogIsSigned(Step(s, Rename(w)))
  {
    var s' := Step(s, Rename(w));
    assert forall i :: 0 <= i < |s.log| ==> s'.log[i] == s.log[i];
    forall v | v in s'.workers && (s'.workers[v].pc.Persisted? || s'.workers[v].pc.Returned?)
      ensures HasCommit(s'.log, v, s'.workers[v].pc.choice)
    {
      if v == w {
        assert s'.log[|s.log|].worker == w;
      } else {
        var i :| 0 <= i < |s.log| && s.log[i].worker == v && s.log[i].choice == s.workers[v].pc.choice;
        assert s'.log[i] == s.log[i];
      }
    }
  }

  lemma LogSurvives(s: State, a: Action)
    requires CanStep(s, a) && LogIsSigned(s)
    ensures LogIsSigned(Step(s, a))
  {
    match a
    case Elapse(_) =>
    case Start(_, _) =>
    case Rename(w) => LogSurvivesRename(s, w);
    case _ => LogSurvivesMove(s, a.w, Step(s, a).workers[a.w].pc);
  }

  lemma LockSurvives(s: State, a: Action)
    requires CanStep(s, a) && ReclaimIsSafe(s, a) && LockGuards(s)
    ensures LockGuards(Step(s, a))
  {
    match a
    case RemoveStale(w) => assert !Critical(s.workers[w].pc);
    case _ =>
  }

  lemma CurrencySurvives(s: State, a: Action)
    requires CanStep(s, a) && LockGuards(s) && WorkersAreCurrent(s)
    ensures WorkersAreCurrent(Step(s, a))
  {
    if a.Rename? {
      RenameKeepsCurrency(s, a.w);
    } else {
      assert Step(s, a).file == s.file;
    }
  }

  /** Only the lock's owner holds a cursor or a choice, so a rename makes nobody else's stale. */
  lemma RenameKeepsCurrency(s: State, w: nat)
    requires CanStep(s, Rename(w)) && LockGuards(s)
    ensures WorkersAreCurrent(Step(s, Rename(w)))
  {
    forall v | v in s.workers && v != w ensures !Critical(s.workers[v].pc) {}
  }

  lemma BoundsSurvive(s: State, a: Action)
    requires CanStep(s, a) && AttemptsAreBounded(s)
    ensures AttemptsAreBounded(Step(s, a))
  {
  }

  lemma FileSurvives(start: CursorFile, s: State, a: Action)
    requires CanStep(s, a) && WorkersAreCurrent(s)
    requires s.file == Committed(start, s.log) && LogIsChained(start, s.log)
    ensures Step(s, a).file == Committed(start, Step(s, a).log) && LogIsChained(start, Step(s, a).log)
  {
    if a.Rename? {
      assert Step(s, a).log[..|s.log|] == s.log;
    }
  }

  lemma StepKeepsInvariant(start: CursorFile, s: State, a: Action)
    requires Invariant(start, s) && CanStep(s, a) && ReclaimIsSafe(s, a)
    ensures Invariant(start, Step(s, a))
  {
    LogSurvives(s, a);
    LockSurvives(s, a);
    CurrencySurvives(s, a);
    BoundsSurvive(s, a);
    FileSurvives(start, s, a);
  }

  lemma {:induction false} RunKeepsInvariant(start: CursorFile, s: State, run: seq<Action>)
    requires Invariant(start, s) && ValidRun(s, run) && SafeRun(s, run)
    ensures Invariant(start, Reached(s, run))
    decreases run
  {
    if run != [] {
      StepKeepsInvariant(start, s, run[0]);
      RunKeepsInvariant(start, Step(s, run[0]), run[1..]);
    }
  }

  predicate MutuallyExclusive(s: State) {
    forall v, w :: v in s.workers && w in s.workers && Critical(s.workers[v].pc) && Critical(s.workers[w].pc) ==> v == w
  }

  // ----- Main results, for every safe interleaving from an unlocked file -----

  /** At most one worker is between acquiring and releasing the lock. */
  lemma MutualExclusion(start: CursorFile, run: seq<Action>)
    requires ValidRun(Initial(start), run) && SafeRun(Initial(start), run)
    ensures MutuallyExclusive(Reached(Initial(start), run))
  {
    RunKeepsInvariant(start, Initial(start), run);
  }

  // ----- Runs that need no hypothesis -----

  /** Nobody has seen a stale lock, and the lock there is was taken since `start`. */
  predicate Young(s: State, start: nat) {
    && start <= s.now && (forall w :: w in s.workers ==> !s.workers[w].pc.SawStale?)
    && (s.lock.Some? ==> start <= s.lock.value.takenAt <= s.now)
  }

  lemma {:induction false} TimePasses(s: State, run: seq<Action>)
    requires ValidRun(s, run)
    ensures s.now <= Reached(s, run).now
    decreases run
  {
    if run != [] { TimePasses(Step(s, run[0]), run[1..]); }
  }

  lemma {:induction false} YoungRunsAreSafe(s: State, run: seq<Action>, start: nat)
    requires ValidRun(s, run) && Young(s, start) && Reached(s, run).now <= start + 5000
    ensures SafeRun(s, run)
    decreases run
  {
    if run != [] {
      TimePasses(s, run);
      TimePasses(Step(s, run[0]), run[1..]);
      YoungStep(s, run[0], start);
      YoungRunsAreSafe(Step(s, run[0]), run[1..], start);
    }
  }

  lemma YoungStep(s: State, a: Action, start: nat)
    requires CanStep(s, a) && Young(s, start) && Step(s, a).now <= start + 5000
    ensures ReclaimIsSafe(s, a) && Young(Step(s, a), start)
  {
    match a
    case StatLock(w) => assert !IsStale(s);
    case _ =>
  }

  /** Within five seconds of any unlocked moment no lock is old enough to be reclaimed: whatever the
      workers do, however many crash, at most one is between acquiring and releasing, and the
      commits are one sequential run. */
  lemma FiveSecondsAreSafe(start: CursorFile, now: nat, run: seq<Action>)
    requires ValidRun(Initial(start).(now := now), run) && Reached(Initial(start).(now := now), run).now <= now + 5000
    ensures var s := Reached(Initial(start).(now := now), run);
      MutuallyExclusive(s) && LanesOf(s.log) == Selections(Load(start), FlagsOf(s.log)) && Load(s.file) == After(Load(start), FlagsOf(s.log))
  {
    var s := Initial(start).(now := now);
    YoungRunsAreSafe(s, run, now);
    RunKeepsInvariant(start, s, run);
    ChainIsARun(start, Reached(s, run).log);
  }

  // ----- Old locks do not wedge the lane -----

  /** A worker that stats the lock may remove it exactly when it is more than five seconds old; then
      the lock is gone, and either way one of the eight attempts is used up. */
  lemma StatDecides(s: State, w: nat)
    requires CanStep(s, StatLock(w))
    ensures var seen := Step(s, StatLock(w));
      && (CanStep(seen, RemoveStale(w)) <==> s.lock.Some? && s.now > s.lock.value.takenAt + 5000)
      && (CanStep(seen, RemoveStale(w)) ==>
            var after := Step(seen, RemoveStale(w));
            after.lock.None? && after.workers[w] == Worker(s.workers[w].flags, s.workers[w].attempt + 1, Trying))
      && (!CanStep(seen, RemoveStale(w)) ==>
            seen.lock == s.lock && seen.workers[w] == Worker(s.workers[w].flags, s.workers[w].attempt + 1, Trying))
  {
  }

  /** What a newcomer does that finds an old lock: it fails, reclaims and gets in. */
  function Recovery(w: nat, flags: LoopFlags): seq<Action> {
    [Start(w, flags), AcquireFails(w)] + ([StatLock(w), RemoveStale(w)] + [Acquire(w), ReadCursor(w)])
  }

  /** Whoever left a lock behind, once it is more than five seconds old a newcomer recovers it and
      reads the cursor, at its second attempt. */
  lemma OldLockIsRecovered(s: State, w: nat, flags: LoopFlags)
    requires s.lock.Some? && s.now > s.lock.value.takenAt + 5000 && w !in s.workers
    ensures ValidRun(s, Recovery(w, flags))
    ensures Reached(s, Recovery(w, flags)) == With(s, Some(LockFile(Some(w), s.now)), w, Worker(flags, 1, Loaded(Load(s.file))))
  {
    NewcomerFails(s, w, flags);
    var failed := With(s, s.lock, w, Worker(flags, 0, Contended));
    NewcomerReclaims(s, w, flags);
    NewcomerGetsIn(s, w, flags);
    RunsCompose(failed, [StatLock(w), RemoveStale(w)], [Acquire(w), ReadCursor(w)]);
    RunsCompose(s, [Start(w, flags), AcquireFails(w)], [StatLock(w), RemoveStale(w)] + [Acquire(w), ReadCursor(w)]);
  }

  /** `s` with this lock file and this worker. */
  function With(s: State, lock: Option<LockFile>, w: nat, worker: Worker): State {
    s.(lock := lock, workers := s.workers[w := worker])
  }

  lemma NewcomerFails(s: State, w: nat, flags: LoopFlags)
    requires w !in s.workers
    ensures ValidRun(s, [Start(w, flags), AcquireFails(w)])
    ensures Reached(s, [Start(w, flags), AcquireFails(w)]) == With(s, s.lock, w, Worker(flags, 0, Contended))
  {
    TwoSteps(s, Start(w, flags), AcquireFails(w));
  }

  lemma NewcomerReclaims(s: State, w: nat, flags: LoopFlags)
    requires s.lock.Some? && s.now > s.lock.value.takenAt + 5000
    ensures var failed := With(s, s.lock, w, Worker(flags, 0, Contended));
      ValidRun(failed, [StatLock(w), RemoveStale(w)]) &&
      Reached(failed, [StatLock(w), RemoveStale(w)]) == With(s, None, w, Worker(flags, 1, Trying))
  {
    TwoSteps(With(s, s.lock, w, Worker(flags, 0, Contended)), StatLock(w), RemoveStale(w));
  }

  lemma NewcomerGetsIn(s: State, w: nat, flags: LoopFlags)
    ensures var freed := With(s, None, w, Worker(flags, 1, Trying));
      ValidRun(freed, [Acquire(w), ReadCursor(w)]) &&
      Reached(freed, [Acquire(w), ReadCursor(w)]) == With(s, Some(LockFile(Some(w), s.now)), w, Worker(flags, 1, Loaded(Load(s.file))))
  {
    TwoSteps(With(s, None, w, Worker(flags, 1, Trying)), Acquire(w), ReadCursor(w));
  }

  // ----- Eight attempts -----

  predicate IsAttempt(a: Action, w: nat) {
    a == Acquire(w) || a == AcquireTorn(w) || a == AcquireFails(w)
  }

  /** How often `w` tried to create the lock file. */
  function Attempts(run: seq<Action>, w: nat): nat {
    if run == [] then 0 else (if IsAttempt(run[0], w) then 1 else 0) + Attempts(run[1..], w)
  }

  /** Attempts that are over or under way, of eight. */
  function Used(s: State, w: nat): nat {
    if w !in s.workers then 0
    else
      var used := s.workers[w].attempt + if s.workers[w].pc.Trying? || s.workers[w].pc.GaveUp? then 0 else 1;
      if used <= 8 then used else 8
  }

  lemma AttemptStep(s: State, a: Action, w: nat)
    requires CanStep(s, a) && AttemptsAreBounded(s)
    ensures Used(Step(s, a), w) >= Used(s, w) + if IsAttempt(a, w) then 1 else 0
  {
  }

  /** However the workers interleave, a call tries to create the lock file at most eight times. */
  lemma {:induction false} AtMostEightAttempts(s: State, run: seq<Action>, w: nat)
    requires ValidRun(s, run) && AttemptsAreBounded(s)
    ensures Used(s, w) + Attempts(run, w) <= 8
    decreases run
  {
    if run != [] {
      AttemptStep(s, run[0], w);
      BoundsSurvive(s, run[0]);
      AtMostEightAttempts(Step(s, run[0]), run[1..], w);
    }
  }

  // ----- Every call ends -----

  predicate IsBy(a: Action, w: nat) {
    !a.Elapse? && a.w == w
  }

  function OwnSteps(run: seq<Action>, w: nat): nat {
    if run == [] then 0 else (if IsBy(run[0], w) then 1 else 0) + OwnSteps(run[1..], w)
  }

  /** A bound on the file operations a call has left: three for every attempt, and six to commit. */
  function StepsLeft(s: State, w: nat): nat {
    if w !in s.workers then 31
    else
      var attempts := if s.workers[w].attempt <= 8 then 3 * (8 - s.workers[w].attempt) else 0;
      match s.workers[w].pc
      case Trying => attempts + 6
      case Contended => attempts + 5
      case SawStale => attempts + 4
      case Holding => 5
      case Loaded(_) => 4
      case Chosen(_) => 3
      case Persisted(_) => 2
      case Unwinding => 2
      case _ => 0
  }

  lemma OwnStepCounts(s: State, a: Action, w: nat)
    requires CanStep(s, a) && AttemptsAreBounded(s)
    ensures StepsLeft(Step(s, a), w) <= StepsLeft(s, w) - if IsBy(a, w) then 1 else 0
  {
  }

  /** Wait-freedom: whatever the other workers do, a call is over after at most 31 steps of its own. */
  lemma {:induction false} EveryCallEnds(s: State, run: seq<Action>, w: nat)
    requires ValidRun(s, run) && AttemptsAreBounded(s)
    ensures OwnSteps(run, w) + StepsLeft(Reached(s, run), w) <= StepsLeft(s, w) <= 31
    ensures OwnSteps(run, w) <= 31
    decreases run
  {
    if run != [] {
      OwnStepCounts(s, run[0], w);
      BoundsSurvive(s, run[0]);
      EveryCallEnds(Step(s, run[0]), run[1..], w);
    }
  }

  /** And no call is ever stuck: until it is over, some operation of its own, other than crashing, is
      possible; with all eight attempts used it is to give up. */
  lemma NobodyIsStuck(s: State, w: nat) returns (a: Action)
    requires w in s.workers && Running(s.workers[w].pc) && AttemptsAreBounded(s)
    ensures CanStep(s, a) && IsBy(a, w) && !a.Crash?
    ensures s.workers[w].attempt == 8 ==> Step(s, a).workers[w].pc == GaveUp(Load(s.file))
  {
    match s.workers[w].pc
    case Trying => a := if s.workers[w].attempt == 8 then Exhaust(w) else if s.lock.None? then Acquire(w) else AcquireFails(w);
    case Contended => a := StatLock(w);
    case SawStale => a := RemoveStale(w);
    case Holding => a := ReadCursor(w);
    case Loaded(_) => a := Select(w);
    case Chosen(_) => a := Rename(w);
    case _ => a := Release(w);
  }

  function FlagsOf(log: seq<Commit>): seq<LoopFlags> {
    seq(|log|, i requires 0 <= i < |log| => log[i].flags)
  }

  function LanesOf(log: seq<Commit>): seq<Option<Lane>> {
    seq(|log|, i requires 0 <= i < |log| => log[i].choice.lane)
  }

  lemma {:induction false} RunAppends(c: Cursor, run: seq<LoopFlags>, flags: LoopFlags)
    ensures After(c, run + [flags]) == Choose(flags, After(c, run)).next
    ensures Selections(c, run + [flags]) == Selections(c, run) + [Choose(flags, After(c, run)).lane]
    decreases run
  {
    if run == [] {
      assert run + [flags] == [flags];
    } else {
      RunAppends(Choose(run[0], c).next, run[1..], flags);
      assert (run + [flags])[1..] == run[1..] + [flags];
    }
  }

  lemma {:induction false} ChainPrefix(start: CursorFile, log: seq<Commit>, n: nat)
    requires LogIsChained(start, log) && n <= |log|
    ensures LogIsChained(start, log[..n])
    ensures n < |log| ==> Follows(start, log[..n], log[n])
    decreases |log|
  {
    if n == |log| {
      assert log[..n] == log;
    } else if n < |log| - 1 {
      ChainPrefix(start, log[..|log| - 1], n);
      assert log[..|log| - 1][..n] == log[..n];
    }
  }

  /** Saving a choice and loading it back gives the chosen cursor, one tick later. */
  lemma ChoiceRoundTrips(flags: LoopFlags, c: Cursor)
    ensures Load(Stored(Choose(flags, c).next)) == Choose(flags, c).next
    ensures Choose(flags, c).next.tick == c.tick + 1
  {
    ChooseKeepsSane(flags, c);
    SaneIsFixed(Choose(flags, c).next);
  }

  predicate ChainRuns(start: CursorFile, log: seq<Commit>) {
    && Selections(Load(start), FlagsOf(log)) == LanesOf(log)
    && After(Load(start), FlagsOf(log)) == Load(Committed(start, log))
    && Load(Committed(start, log)).tick == Load(start).tick + |log|
  }

  lemma ChainRunsOneMore(start: CursorFile, log: seq<Commit>, commit: Commit)
    requires ChainRuns(start, log) && Follows(start, log, commit)
    ensures ChainRuns(start, log + [commit])
  {
    RunAppends(Load(start), FlagsOf(log), commit.flags);
    LogGrows(start, log, commit);
    ChoiceRoundTrips(commit.flags, Load(Committed(start, log)));
  }

  lemma LogGrows(start: CursorFile, log: seq<Commit>, commit: Commit)
    ensures FlagsOf(log + [commit]) == FlagsOf(log) + [commit.flags]
    ensures LanesOf(log + [commit]) == LanesOf(log) + [commit.choice.lane]
    ensures Committed(start, log + [commit]) == Stored(commit.choice.next)
  {
  }

  lemma EmptyChainRuns(start: CursorFile)
    ensures ChainRuns(start, [])
  {
    assert FlagsOf([]) == [] && LanesOf([]) == [];
  }

  lemma {:induction false} ChainIsARun(start: CursorFile, log: seq<Commit>)
    requires LogIsChained(start, log)
    ensures ChainRuns(start, log)
    decreases |log|
  {
    if log == [] {
      EmptyChainRuns(start);
    } else {
      var n := |log| - 1;
      ChainIsARun(start, log[..n]);
      ChainRunsOneMore(start, log[..n], log[n]);
      assert log == log[..n] + [log[n]];
    }
  }

  /** Serialisability: the commits of all workers, in the order of their renames, are one
      sequential run of the scheduler from the starting file, and the file holds its last
      cursor. Hence no commit is lost. */
  lemma CommitsAreSerial(start: CursorFile, run: seq<Action>)
    requires ValidRun(Initial(start), run) && SafeRun(Initial(start), run)
    ensures var s := Reached(Initial(start), run);
      && LanesOf(s.log) == Selections(Load(start), FlagsOf(s.log))
      && Load(s.file) == After(Load(start), FlagsOf(s.log))
      && s.file == Committed(start, s.log)
  {
    RunKeepsInvariant(start, Initial(start), run);
    ChainIsARun(start, Reached(Initial(start), run).log);
  }

  /** No two commits share a tick: the i-th commit carries tick i + 1 past the start. */
  lemma CommitTicksAreDistinct(start: CursorFile, run: seq<Action>, i: nat)
    requires ValidRun(Initial(start), run) && SafeRun(Initial(start), run)
    requires i < |Reached(Initial(start), run).log|
    ensures Reached(Initial(start), run).log[i].choice.next.tick == Load(start).tick + i + 1
  {
    RunKeepsInvariant(start, Initial(start), run);
    var log := Reached(Initial(start), run).log;
    ChainPrefix(start, log, i);
    ChainIsARun(start, log[..i]);
    ChoiceRoundTrips(log[i].flags, Load(Committed(start, log[..i])));
  }

  function CommitsBy(log: seq<Commit>, w: nat): set<nat> {
    set i | 0 <= i < |log| && log[i].worker == w
  }

  lemma SignedCommits(s: State, w: nat)
    requires LogIsSigned(s) && w in s.workers
    ensures |CommitsBy(s.log, w)| <= 1
    ensures s.workers[w].pc.Returned? ==>
      exists i :: 0 <= i < |s.log| && CommitsBy(s.log, w) == {i} && s.log[i].choice == s.workers[w].pc.choice
    ensures s.workers[w].pc.GaveUp? || s.workers[w].pc.Failed? ==> CommitsBy(s.log, w) == {}
  {
    if i :| i in CommitsBy(s.log, w) {
      assert CommitsBy(s.log, w) == {i};
    } else {
      assert CommitsBy(s.log, w) == {};
      assert s.workers[w].pc.Returned? ==> HasCommit(s.log, w, s.workers[w].pc.choice);
      assert forall i :: 0 <= i < |s.log| && s.log[i].worker == w ==> i in CommitsBy(s.log, w);
    }
  }

  /** A call that returned a choice is exactly one commit, of that choice; a call that used up
      its eight attempts, or whose save failed, is none. */
  lemma EachCallCommitsOnce(start: CursorFile, run: seq<Action>, w: nat)
    requires ValidRun(Initial(start), run) && SafeRun(Initial(start), run)
    requires w in Reached(Initial(start), run).workers
    ensures var s := Reached(Initial(start), run); var worker := s.workers[w]; var mine := CommitsBy(s.log, w);
      && |mine| <= 1
      && worker.attempt <= 8
      && (worker.pc.Returned? ==>
            exists i :: 0 <= i < |s.log| && mine == {i} && s.log[i].choice == worker.pc.choice)
      && (worker.pc.GaveUp? ==> mine == {} && worker.attempt == 8)
      && (worker.pc.Failed? ==> mine == {})
  {
    RunKeepsInvariant(start, Initial(start), run);
    SignedCommits(Reached(Initial(start), run), w);
  }

  lemma SevenOfRun(c: Cursor, run: seq<LoopFlags>, lane: Lane, i: nat)
    requires i + 7 <= |run| && forall k :: i <= k < i + 7 ==> IsLaneEnabled(run[k], lane)
    ensures exists k :: i <= k < i + 7 && Selections(c, run)[k] == Some(lane)
  {
    var from, rest := After(c, run[..i]), run[i..];
    SelectionsOfSuffix(c, run, i);
    SelectionsOfPrefix(from, rest, 7);
    NoLaneStarves(from, rest[..7], lane);
    var k :| 0 <= k < 7 && Selections(from, rest[..7])[k] == Some(lane);
    assert Selections(from, rest)[k] == Some(lane);
    assert Selections(c, run)[i + k] == Some(lane);
  }

  /** Fairness carries over to the concurrent system: of any seven consecutive commits made by
      callers that all have a lane enabled, one runs that lane. */
  lemma CommittedLanesDoNotStarve(start: CursorFile, run: seq<Action>, lane: Lane, i: nat)
    requires ValidRun(Initial(start), run) && SafeRun(Initial(start), run)
    requires var log := Reached(Initial(start), run).log;
      i + 7 <= |log| && forall k :: i <= k < i + 7 ==> IsLaneEnabled(log[k].flags, lane)
    ensures var log := Reached(Initial(start), run).log;
      exists k :: i <= k < i + 7 && log[k].choice.lane == Some(lane)
  {
    RunKeepsInvariant(start, Initial(start), run);
    var log := Reached(Initial(start), run).log;
    ChainIsARun(start, log);
    SevenOfRun(Load(start), FlagsOf(log), lane, i);
    var k :| i <= k < i + 7 && Selections(Load(start), FlagsOf(log))[k] == Some(lane);
    assert LanesOf(log)[k] == Some(lane);
  }

  // ----- Without the hypothesis -----

  lemma {:induction false} RunsCompose(s: State, first: seq<Action>, second: seq<Action>)
    requires ValidRun(s, first) && ValidRun(Reached(s, first), second)
    ensures ValidRun(s, first + second)
    ensures Reached(s, first + second) == Reached(Reached(s, first), second)
    decreases first
  {
    if first == [] {
      assert first + second == second;
    } else {
      RunsCompose(Step(s, first[0]), first[1..], second);
      assert (first + second)[1..] == first[1..] + second;
    }
  }

  lemma TwoSteps(s: State, a: Action, b: Action)
    requires CanStep(s, a) && CanStep(Step(s, a), b)
    ensures ValidRun(s, [a, b]) && Reached(s, [a, b]) == Step(Step(s, a), b)
  {
    assert [a, b][1..] == [b] && [b][1..] == [];
    assert ValidRun(Step(s, a), [b]);
    assert Reached(Step(s, a), [b]) == Reached(Step(Step(s, a), b), [b][1..]);
  }

  function RaceScript(flags: LoopFlags): seq<Action> {
    CrashedHolder(flags) + BothSeeItStale() + BothAcquire() + BothCommit()
  }

  function CrashedHolder(flags: LoopFlags): seq<Action> {
    [Start(0, flags), Acquire(0)] + [Crash(0), Elapse(6000)] + [Start(1, flags), Start(2, flags)]
  }

  function BothSeeItStale(): seq<Action> {
    [AcquireFails(1), StatLock(1)] + [AcquireFails(2), StatLock(2)]
  }

  function BothAcquire(): seq<Action> {
    [RemoveStale(1), Acquire(1)] + [ReadCursor(1), RemoveStale(2)] + [Acquire(2), ReadCursor(2)]
  }

  function BothCommit(): seq<Action> {
    [Select(1), Select(2)] + [Rename(1), Rename(2)]
  }

  function RaceState(flags: LoopFlags, lock: Option<LockFile>, file: CursorFile, one: Worker, two: Worker, log: seq<Commit>): State {
    State(6000, lock, file, map[0 := Worker(flags, 0, Crashed), 1 := one, 2 := two], log)
  }

  lemma RaceStarts(flags: LoopFlags)
    ensures ValidRun(Initial(Missing), CrashedHolder(flags))
    ensures Reached(Initial(Missing), CrashedHolder(flags)) ==
            RaceState(flags, Some(LockFile(Some(0), 0)), Missing, Worker(flags, 0, Trying), Worker(flags, 0, Trying), [])
  {
    var s := Initial(Missing);
    TwoSteps(s, Start(0, flags), Acquire(0));
    var s2 := Step(Step(s, Start(0, flags)), Acquire(0));
    TwoSteps(s2, Crash(0), Elapse(6000));
    RunsCompose(s, [Start(0, flags), Acquire(0)], [Crash(0), Elapse(6000)]);
    var s4 := Step(Step(s2, Crash(0)), Elapse(6000));
    TwoSteps(s4, Start(1, flags), Start(2, flags));
    RunsCompose(s, [Start(0, flags), Acquire(0)] + [Crash(0), Elapse(6000)], [Start(1, flags), Start(2, flags)]);
  }

  lemma RaceSeesStale(flags: LoopFlags)
    ensures var s := RaceState(flags, Some(LockFile(Some(0), 0)), Missing, Worker(flags, 0, Trying), Worker(flags, 0, Trying), []);
      ValidRun(s, BothSeeItStale()) &&
      Reached(s, BothSeeItStale()) == RaceState(flags, Some(LockFile(Some(0), 0)), Missing, Worker(flags, 0, SawStale), Worker(flags, 0, SawStale), [])
  {
    var s := RaceState(flags, Some(LockFile(Some(0), 0)), Missing, Worker(flags, 0, Trying), Worker(flags, 0, Trying), []);
    TwoSteps(s, AcquireFails(1), StatLock(1));
    var s2 := Step(Step(s, AcquireFails(1)), StatLock(1));
    TwoSteps(s2, AcquireFails(2), StatLock(2));
    RunsCompose(s, [AcquireFails(1), StatLock(1)], [AcquireFails(2), StatLock(2)]);
  }

  lemma FirstReclaims(flags: LoopFlags)
    ensures var s := RaceState(flags, Some(LockFile(Some(0), 0)), Missing, Worker(flags, 0, SawStale), Worker(flags, 0, SawStale), []);
      ValidRun(s, [RemoveStale(1), Acquire(1)]) &&
      Reached(s, [RemoveStale(1), Acquire(1)]) ==
        RaceState(flags, Some(LockFile(Some(1), 6000)), Missing, Worker(flags, 1, Holding), Worker(flags, 0, SawStale), [])
  {
    TwoSteps(RaceState(flags, Some(LockFile(Some(0), 0)), Missing, Worker(flags, 0, SawStale), Worker(flags, 0, SawStale), []),
             RemoveStale(1), Acquire(1));
  }

  lemma SecondReclaims(flags: LoopFlags)
    ensures var s := RaceState(flags, Some(LockFile(Some(1), 6000)), Missing, Worker(flags, 1, Holding), Worker(flags, 0, SawStale), []);
      ValidRun(s, [ReadCursor(1), RemoveStale(2)]) &&
      Reached(s, [ReadCursor(1), RemoveStale(2)]) ==
        RaceState(flags, None, Missing, Worker(flags, 1, Loaded(EMPTY_CURSOR)), Worker(flags, 1, Trying), [])
  {
    TwoSteps(RaceState(flags, Some(LockFile(Some(1), 6000)), Missing, Worker(flags, 1, Holding), Worker(flags, 0, SawStale), []),
             ReadCursor(1), RemoveStale(2));
  }

  lemma SecondAcquires(flags: LoopFlags)
    ensures var s := RaceState(flags, None, Missing, Worker(flags, 1, Loaded(EMPTY_CURSOR)), Worker(flags, 1, Trying), []);
      ValidRun(s, [Acquire(2), ReadCursor(2)]) &&
      Reached(s, [Acquire(2), ReadCursor(2)]) ==
        RaceState(flags, Some(LockFile(Some(2), 6000)), Missing, Worker(flags, 1, Loaded(EMPTY_CURSOR)), Worker(flags, 1, Loaded(EMPTY_CURSOR)), [])
  {
    TwoSteps(RaceState(flags, None, Missing, Worker(flags, 1, Loaded(EMPTY_CURSOR)), Worker(flags, 1, Trying), []), Acquire(2), ReadCursor(2));
  }

  lemma RaceAcquiresTwice(flags: LoopFlags)
    ensures var s := RaceState(flags, Some(LockFile(Some(0), 0)), Missing, Worker(flags, 0, SawStale), Worker(flags, 0, SawStale), []);
      ValidRun(s, BothAcquire()) &&
      Reached(s, BothAcquire()) ==
        RaceState(flags, Some(LockFile(Some(2), 6000)), Missing, Worker(flags, 1, Loaded(EMPTY_CURSOR)), Worker(flags, 1, Loaded(EMPTY_CURSOR)), [])
  {
    var s := RaceState(flags, Some(LockFile(Some(0), 0)), Missing, Worker(flags, 0, SawStale), Worker(flags, 0, SawStale), []);
    FirstReclaims(flags);
    SecondReclaims(flags);
    RunsCompose(s, [RemoveStale(1), Acquire(1)], [ReadCursor(1), RemoveStale(2)]);
    SecondAcquires(flags);
    RunsCompose(s, [RemoveStale(1), Acquire(1)] + [ReadCursor(1), RemoveStale(2)], [Acquire(2), ReadCursor(2)]);
  }

  lemma RaceCommitsTwice(flags: LoopFlags)
    ensures var s := RaceState(flags, Some(LockFile(Some(2), 6000)), Missing, Worker(flags, 1, Loaded(EMPTY_CURSOR)), Worker(flags, 1, Loaded(EMPTY_CURSOR)), []);
      var choice := Choose(flags, EMPTY_CURSOR);
      ValidRun(s, BothCommit()) &&
      Reached(s, BothCommit()) ==
        RaceState(flags, Some(LockFile(Some(2), 6000)), Stored(choice.next), Worker(flags, 1, Persisted(choice)), Worker(flags, 1, Persisted(choice)),
                  [Commit(1, flags, choice), Commit(2, flags, choice)])
  {
    var s := RaceState(flags, Some(LockFile(Some(2), 6000)), Missing, Worker(flags, 1, Loaded(EMPTY_CURSOR)), Worker(flags, 1, Loaded(EMPTY_CURSOR)), []);
    TwoSteps(s, Select(1), Select(2));
    var s2 := Step(Step(s, Select(1)), Select(2));
    TwoSteps(s2, Rename(1), Rename(2));
    RunsCompose(s, [Select(1), Select(2)], [Rename(1), Rename(2)]);
  }

  /** `reclaimStaleLock` stats and removes in two operations. Two workers that both saw a
      crashed holder's lock as stale: the slower one removes the faster one's fresh lock. Both
      are then critical, commit the same choice with the same tick, and one commit is lost. */
  lemma ReclaimRace(flags: LoopFlags)
    ensures ValidRun(Initial(Missing), RaceScript(flags))
    ensures !SafeRun(Initial(Missing), RaceScript(flags))
    ensures var s := Reached(Initial(Missing), RaceScript(flags));
      && At(s, 1).Persisted? && At(s, 2).Persisted?
      && |s.log| == 2 && s.log[0].choice == s.log[1].choice
      && s.log[0].choice.next.tick == Load(s.file).tick == Load(Missing).tick + 1
  {
    var start := Initial(Missing);
    RaceStarts(flags);
    RaceSeesStale(flags);
    RunsCompose(start, CrashedHolder(flags), BothSeeItStale());
    RaceAcquiresTwice(flags);
    RunsCompose(start, CrashedHolder(flags) + BothSeeItStale(), BothAcquire());
    RaceCommitsTwice(flags);
    RunsCompose(start, CrashedHolder(flags) + BothSeeItStale() + BothAcquire(), BothCommit());
    ChooseKeepsSane(flags, EMPTY_CURSOR);
    SaneIsFixed(Choose(flags, EMPTY_CURSOR).next);
    var s := Reached(start, RaceScript(flags));
    assert Critical(s.workers[1].pc) && Critical(s.workers[2].pc);
    if SafeRun(start, RaceScript(flags)) {
      MutualExclusion(Missing, RaceScript(flags));
    }
  }

  lemma {:induction false} FreshNumber(used: set<nat>) returns (bound: nat)
    ensures forall x :: x in used ==> x < bound
  {
    if used == {} {
      bound := 0;
    } else {
      var x :| x in used;
      bound := FreshNumber(used - {x});
      assert forall y :: y in used ==> y == x || y in used - {x};
      if bound <= x { bound := x + 1; }
    }
  }

  /** Removing a live holder's lock lets a newcomer in beside it. */
  lemma UnsafeReclaimBreaksExclusion(s: State, w: nat, flags: LoopFlags) returns (v: nat)
    requires LockGuards(s) && CanStep(s, RemoveStale(w)) && !ReclaimIsSafe(s, RemoveStale(w))
    ensures var s' := Step(s, RemoveStale(w)); var newcomer := [Start(v, flags), Acquire(v)];
      ValidRun(s', newcomer) && SafeRun(s', newcomer) && !MutuallyExclusive(Reached(s', newcomer))
  {
    v := FreshNumber(s.workers.Keys);
    assert v !in s.workers;
    var s' := Step(s, RemoveStale(w));
    TwoSteps(s', Start(v, flags), Acquire(v));
    var end := Reached(s', [Start(v, flags), Acquire(v)]);
    var owner := s.lock.value.owner.value;
    assert Critical(end.workers[owner].pc) && Critical(end.workers[v].pc) && owner != v;
    assert SafeRun(Step(s', Start(v, flags)), [Acquire(v)]) by { assert [Acquire(v)][1..] == []; }
    assert [Start(v, flags), Acquire(v)][1..] == [Acquire(v)];
  }

  /** The hypothesis is exact: a reclaim in a reachable state keeps mutual exclusion in every
      otherwise safe continuation if and only if the lock it removes has no live holder. */
  lemma ReclaimSafetyIsExact(start: CursorFile, s: State, w: nat, flags: LoopFlags)
    requires Invariant(start, s) && CanStep(s, RemoveStale(w))
    ensures ReclaimIsSafe(s, RemoveStale(w)) <==>
      forall run :: ValidRun(Step(s, RemoveStale(w)), run) && SafeRun(Step(s, RemoveStale(w)), run) ==>
        MutuallyExclusive(Reached(Step(s, RemoveStale(w)), run))
  {
    var s' := Step(s, RemoveStale(w));
    if ReclaimIsSafe(s, RemoveStale(w)) {
      StepKeepsInvariant(start, s, RemoveStale(w));
      forall run | ValidRun(s', run) && SafeRun(s', run) ensures MutuallyExclusive(Reached(s', run)) {
        StaysExclusive(start, s', run);
      }
    } else {
      var v := UnsafeReclaimBreaksExclusion(s, w, flags);
      assert ValidRun(s', [Start(v, flags), Acquire(v)]);
    }
  }

  lemma StaysExclusive(start: CursorFile, s: State, run: seq<Action>)
    requires Invariant(start, s) && ValidRun(s, run) && SafeRun(s, run)
    ensures MutuallyExclusive(Reached(s, run))
  {
    RunKeepsInvariant(start, s, run);
  }

  // ----- One call, run on its own -----

  /** What the rest of the machine did to the files just before an attempt. */
  datatype Others = Quiet | Left(lock: Option<nat>, file: CursorFile)

  datatype Result = Done(choice: Choice) | Skipped(cursor: Cursor) | Threw

  /** The lock (its creation time) that attempt `i` finds, all earlier attempts having failed. */
  function LockAt(lock: Option<nat>, others: seq<Others>, clock: seq<nat>, i: nat): Option<nat>
    requires i < |others| && |others| == |clock|
  {
    match others[i]
    case Left(l, _) => l
    case Quiet =>
      if i == 0 then lock
      else
        var before := LockAt(lock, others, clock, i - 1);
        if before.Some? && clock[i - 1] - before.value > COMMIT_LOCK_STALE_MS then None else before
  }

  function FileAt(file: CursorFile, others: seq<Others>, i: nat): CursorFile
    requires i < |others|
  {
    match others[i]
    case Left(_, f) => f
    case Quiet => if i == 0 then file else FileAt(file, others, i - 1)
  }

  class CursorDirectory {
    var lock: Option<nat>
    var file: CursorFile

    method AcquireLock(now: nat) returns (ok: bool)
      modifies this`lock
      ensures ok <==> old(lock).None?
      ensures lock == if ok then Some(now) else old(lock)
    {
      ok := lock.None?;
      if ok { lock := Some(now); }
    }

    method ReleaseLock()
      modifies this`lock
      ensures lock == None
    {
      lock := None;
    }

    method ReclaimStaleLock(now: nat)
      modifies this`lock
      ensures lock == if old(lock).Some? && now - old(lock).value > COMMIT_LOCK_STALE_MS then None else old(lock)
    {
      if lock.Some? && now - lock.value > COMMIT_LOCK_STALE_MS { lock := None; }
    }

    /** `k` is the attempt that got the lock, or the attempt count when none did. */
    method CommitMaintenanceChoice(flags: LoopFlags, others: seq<Others>, clock: seq<nat>, saveOk: bool)
      returns (r: Result, k: nat)
      requires |others| == |clock| == COMMIT_MAX_ATTEMPTS
      modifies this
      ensures k <= COMMIT_MAX_ATTEMPTS
      ensures forall i :: 0 <= i < k ==> LockAt(old(lock), others, clock, i).Some?
      ensures k < COMMIT_MAX_ATTEMPTS ==>
        && LockAt(old(lock), others, clock, k).None? && lock.None?
        && var found := FileAt(old(file), others, k);
           if saveOk then r == Done(Choose(flags, Load(found))) && file == Stored(r.choice.next)
           else r == Threw && file == found
      ensures k == COMMIT_MAX_ATTEMPTS ==>
        && file == FileAt(old(file), others, COMMIT_MAX_ATTEMPTS - 1)
        && r == Skipped(Load(file))
    {
      k := 0;
      while k < COMMIT_MAX_ATTEMPTS
        invariant k <= COMMIT_MAX_ATTEMPTS
        invariant forall i :: 0 <= i < k ==> LockAt(old(lock), others, clock, i).Some?
        invariant k == 0 ==> lock == old(lock) && file == old(file)
        invariant k > 0 ==> file == FileAt(old(file), others, k - 1)
        invariant k > 0 ==> var before := LockAt(old(lock), others, clock, k - 1);
          lock == if before.Some? && clock[k - 1] - before.value > COMMIT_LOCK_STALE_MS then None else before
      {
        if others[k].Left? {
          lock, file := others[k].lock, others[k].file;
        }
        var ok := AcquireLock(clock[k]);
        if ok {
          var choice := Choose(flags, Load(file));
          if saveOk {
            file := Stored(choice.next);
          }
          ReleaseLock();
          return if saveOk then Done(choice) else Threw, k;
        }
        ReclaimStaleLock(clock[k]);
        k := k + 1;
      }
      r := Skipped(Load(file));
    }
  }

  /** A stale lock left by a crashed holder costs one attempt: with nobody else active, the
      first attempt reclaims it and the second gets the lock. */
  lemma StaleLockIsRecovered(lock: nat, others: seq<Others>, clock: seq<nat>)
    requires |others| == |clock| == COMMIT_MAX_ATTEMPTS
    requires others[0].Quiet? && others[1].Quiet?
    ensures LockAt(Some(lock), others, clock, 1).None? <==> clock[0] > lock + 5000
  {
    assert LockAt(Some(lock), others, clock, 0) == Some(lock);
  }
}
