/**
 The per-repository lock (server/src/github/repo_lock.rs) as program-counter steps of any
 number of tasks over any number of repositories. Every access to shared memory is one
 step: taking the map's mutex, the section under it, each atomic operation on a counter,
 each semaphore operation.
 */
module RepoLock {
  import opened Basics

  /** One `Lock`: its counter, its permit, and the repository it was made for. */
  datatype Lock = Lock(repo: int, count: int, free: bool)

  /**
   Where a task is. `lock` is the identity of the `Lock` object it registered on, and
   `permit` says whether the task that runs the drop of the counter holds the permit.
   */
  datatype Pc =
    | Idle
    | Locking(repo: int)                               // wants the mutex, in `lock`
    | Registering(repo: int)                           // has the mutex, in `lock`
    | Waiting(repo: int, lock: nat)                    // registered, awaits the permit
    | Holding(repo: int, lock: nat)                    // has a live `LockGuard`
    | Cleaning(repo: int, lock: nat, permit: bool)     // counted down to zero, wants the mutex
    | Checking(repo: int, lock: nat, permit: bool)     // has the mutex, will load the counter
    | Removing(repo: int, lock: nat, permit: bool)     // has the mutex, loaded zero
    | Releasing(repo: int, lock: nat)                  // will give the permit back

  /** The map, the `Lock` objects ever made, the tasks, and who has the mutex. */
  datatype State = State(entries: map<int, nat>, locks: seq<Lock>, pcs: map<nat, Pc>, mutex: Option<nat>)

  datatype Step =
    | Ask(task: nat, repo: int)      // call `lock`
    | EnterLock(task: nat)           // take the mutex in `lock`
    | Register(task: nat)            // entry-or-insert, count up, leave the mutex
    | Acquire(task: nat)             // the permit is granted
    | CountDown(task: nat)           // drop the guard: `fetch_sub`
    | EnterCleanup(task: nat)        // take the mutex in `drop`
    | Recheck(task: nat)             // load the counter again
    | Remove(task: nat)              // remove the entry, leave the mutex
    | Release(task: nat)             // drop the permit
    | Abandon(task: nat)             // a waiting `lock` future is dropped: `fetch_sub` without a permit

  predicate Enabled(s: State, step: Step) {
    && step.task in s.pcs
    && var pc := s.pcs[step.task];
       match step
       case Ask(_, _) => pc.Idle?
       case EnterLock(_) => pc.Locking? && s.mutex.None?
       case Register(_) => pc.Registering? && (pc.repo in s.entries ==> s.entries[pc.repo] < |s.locks|)
       case Acquire(_) => pc.Waiting? && pc.lock < |s.locks| && s.locks[pc.lock].free
       case CountDown(_) => pc.Holding? && pc.lock < |s.locks|
       case EnterCleanup(_) => pc.Cleaning? && s.mutex.None?
       case Recheck(_) => pc.Checking? && pc.lock < |s.locks|
       case Remove(_) => pc.Removing?
       case Release(_) => pc.Releasing? && pc.lock < |s.locks|
       case Abandon(_) => pc.Waiting? && pc.lock < |s.locks|
  }

  function Go(s: State, task: nat, pc: Pc): State {
    s.(pcs := s.pcs[task := pc])
  }

  /** What a task does once the counter's drop is over. */
  function AfterDrop(repo: int, lock: nat, permit: bool): Pc {
    if permit then Releasing(repo, lock) else Idle
  }

  /** `fetch_sub`, and what the returned value makes the task do next. */
  function Uncount(s: State, task: nat, repo: int, lock: nat, permit: bool): State
    requires lock < |s.locks|
  {
    var l := s.locks[lock];
    var s1 := s.(locks := s.locks[lock := l.(count := l.count - 1)]);
    Go(s1, task, if l.count == 1 then Cleaning(repo, lock, permit) else AfterDrop(repo, lock, permit))
  }

  function Apply(s: State, step: Step): State
    requires Enabled(s, step)
  {
    var t := step.task;
    var pc := s.pcs[t];
    match step
    case Ask(_, repo) => Go(s, t, Locking(repo))
    case EnterLock(_) => Go(s.(mutex := Some(t)), t, Registering(pc.repo))
    case Register(_) =>
      var vacant := pc.repo !in s.entries;
      var lock := if vacant then |s.locks| else s.entries[pc.repo];
      var locks := if vacant then s.locks + [Lock(pc.repo, 0, true)] else s.locks;
      Go(s.(entries := s.entries[pc.repo := lock],
            locks := locks[lock := locks[lock].(count := locks[lock].count + 1)],
            mutex := None),
         t, Waiting(pc.repo, lock))
    case Acquire(_) =>
      Go(s.(locks := s.locks[pc.lock := s.locks[pc.lock].(free := false)]), t, Holding(pc.repo, pc.lock))
    case CountDown(_) => Uncount(s, t, pc.repo, pc.lock, true)
    case EnterCleanup(_) => Go(s.(mutex := Some(t)), t, Checking(pc.repo, pc.lock, pc.permit))
    case Recheck(_) =>
      if s.locks[pc.lock].count == 0 then Go(s, t, Removing(pc.repo, pc.lock, pc.permit))
      else Go(s.(mutex := None), t, AfterDrop(pc.repo, pc.lock, pc.permit))
    case Remove(_) =>
      Go(s.(entries := s.entries - {pc.repo}, mutex := None), t, AfterDrop(pc.repo, pc.lock, pc.permit))
    case Release(_) =>
      Go(s.(locks := s.locks[pc.lock := s.locks[pc.lock].(free := true)]), t, Idle)
    case Abandon(_) => Uncount(s, t, pc.repo, pc.lock, false)
  }

  /** A new `RepoLock` and tasks that have not called it. */
  predicate Initial(s: State) {
    && s.entries == map[] && s.locks == [] && s.mutex == None
    && forall t :: t in s.pcs ==> s.pcs[t] == Idle
  }

  predicate ValidRun(s: State, steps: seq<Step>)
    decreases |steps|
  {
    steps == [] || (Enabled(s, steps[0]) && ValidRun(Apply(s, steps[0]), steps[1..]))
  }

  function Run(s: State, steps: seq<Step>): State
    requires ValidRun(s, steps)
    decreases |steps|
  {
    if steps == [] then s else Run(Apply(s, steps[0]), steps[1..])
  }

  /** A waiting future is only dropped while somebody else is counted on its lock. */
  predicate Patient(s: State, step: Step)
    requires Enabled(s, step)
  {
    step.Abandon? ==> s.locks[s.pcs[step.task].lock].count > 1
  }

  /** A run in which the last one counted on a lock never gives up waiting. */
  predicate PatientRun(s: State, steps: seq<Step>)
    requires ValidRun(s, steps)
    decreases |steps|
  {
    steps == [] || (Patient(s, steps[0]) && PatientRun(Apply(s, steps[0]), steps[1..]))
  }

  /**
   The lock table as the code keeps it: shared fields changed in place, one method for each
   step that touches them. Each method is tied to the step it takes.
   */
  class LockTable {
    var entries: map<int, nat>
    var locks: seq<Lock>
    var pcs: map<nat, Pc>
    var mutex: Option<nat>

    ghost function Now(): State
      reads this
    {
      State(entries, locks, pcs, mutex)
    }

    constructor (tasks: set<nat>)
      ensures Initial(Now()) && pcs.Keys == tasks
    {
      entries, locks, mutex := map[], [], None;
      pcs := map t | t in tasks :: Idle;
    }

    /** The section of `lock` under the mutex, ending with the mutex released. */
    method RegisterTask(t: nat)
      requires Enabled(Now(), Register(t))
      modifies this
      ensures Now() == Apply(old(Now()), Register(t))
    {
      var repo := pcs[t].repo;
      if repo !in entries {
        entries := entries[repo := |locks|];
        locks := locks + [Lock(repo, 0, true)];
      }
      var lock := entries[repo];
      var count := locks[lock].count;
      locks := locks[lock := locks[lock].(count := count + 1)];
      mutex := None;
      pcs := pcs[t := Waiting(repo, lock)];
      assert entries == old(entries)[repo := lock];
    }

    /** The semaphore grants its permit. */
    method TakePermit(t: nat)
      requires Enabled(Now(), Acquire(t))
      modifies this
      ensures Now() == Apply(old(Now()), Acquire(t))
    {
      var pc := pcs[t];
      locks := locks[pc.lock := locks[pc.lock].(free := false)];
      pcs := pcs[t := Holding(pc.repo, pc.lock)];
    }

    /** `drop` of the guard's counter, up to the point where it needs the mutex. */
    method DropCounter(t: nat)
      requires Enabled(Now(), CountDown(t))
      modifies this
      ensures Now() == Apply(old(Now()), CountDown(t))
    {
      var pc := pcs[t];
      var before := locks[pc.lock].count;
      locks := locks[pc.lock := locks[pc.lock].(count := before - 1)];
      if before == 1 {
        pcs := pcs[t := Cleaning(pc.repo, pc.lock, true)];
      } else {
        pcs := pcs[t := Releasing(pc.repo, pc.lock)];
      }
    }

    /** The section of `drop` under the mutex: the second load, then perhaps the removal. */
    method Cleanup(t: nat)
      requires Enabled(Now(), Recheck(t))
      modifies this
      ensures ValidRun(old(Now()), CleanupSteps(old(Now()), t))
      ensures Now() == Run(old(Now()), CleanupSteps(old(Now()), t))
    {
      var pc := pcs[t];
      ghost var s0 := Now();
      ghost var s1 := Apply(s0, Recheck(t));
      if locks[pc.lock].count == 0 {
        entries := entries - {pc.repo};
        assert [Remove(t)][1..] == [] && [Recheck(t), Remove(t)][1..] == [Remove(t)];
        assert Run(s1, [Remove(t)]) == Run(Apply(s1, Remove(t)), []) == Apply(s1, Remove(t));
      } else {
        assert [Recheck(t)][1..] == [];
      }
      mutex := None;
      pcs := pcs[t := AfterDrop(pc.repo, pc.lock, pc.permit)];
      assert locks[pc.lock].count == 0 ==> Now() == Apply(s1, Remove(t));
    }

    /** `drop` of the permit. */
    method GivePermit(t: nat)
      requires Enabled(Now(), Release(t))
      modifies this
      ensures Now() == Apply(old(Now()), Release(t))
    {
      var pc := pcs[t];
      locks := locks[pc.lock := locks[pc.lock].(free := true)];
      pcs := pcs[t := Idle];
    }
  }

  /** The steps of one cleanup section. */
  function CleanupSteps(s: State, t: nat): seq<Step>
    requires Enabled(s, Recheck(t))
  {
    if s.locks[s.pcs[t].lock].count == 0 then [Recheck(t), Remove(t)] else [Recheck(t)]
  }
}
