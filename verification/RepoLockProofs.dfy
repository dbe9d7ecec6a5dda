/**
 Exclusion, no leak and no stranding for the per-repository lock, over every run in which the
 last one counted on a lock does not give up waiting. The module DroppedWaiters shows that this
 premise is exactly what is needed.
 */
module RepoLockProofs {
  import opened Basics
  import opened RepoLock

  // ---- What a task is, seen from one lock ----

  /** Tasks whose registration is counted. */
  predicate Counted(pc: Pc, lock: nat) {
    (pc.Waiting? || pc.Holding?) && pc.lock == lock
  }

  /** Tasks that hold the permit: a live guard, or one being dropped. */
  predicate Owns(pc: Pc, lock: nat) {
    || ((pc.Holding? || pc.Releasing?) && pc.lock == lock)
    || ((pc.Cleaning? || pc.Checking? || pc.Removing?) && pc.lock == lock && pc.permit)
  }

  /** Tasks between the counter's last decrement and the end of the cleanup. */
  predicate InCleanup(pc: Pc, lock: nat) {
    (pc.Cleaning? || pc.Checking? || pc.Removing?) && pc.lock == lock
  }

  predicate HasMutex(pc: Pc) {
    pc.Registering? || pc.Checking? || pc.Removing?
  }

  ghost function Users(s: State, lock: nat): set<nat> {
    set t | t in s.pcs && Counted(s.pcs[t], lock)
  }

  // ---- The invariant ----

  ghost predicate EntriesOk(s: State) {
    forall r :: r in s.entries ==> s.entries[r] < |s.locks| && s.locks[s.entries[r]].repo == r
  }

  /** A registered task's lock exists, was made for its repository, and it drops with the permit. */
  predicate TaskOk(pc: Pc, locks: seq<Lock>) {
    && (pc.Idle? || pc.Locking? || pc.Registering? || (pc.lock < |locks| && locks[pc.lock].repo == pc.repo))
    && (pc.Cleaning? || pc.Checking? || pc.Removing? ==> pc.permit)
  }

  ghost predicate TasksOk(s: State) {
    forall t :: t in s.pcs ==> TaskOk(s.pcs[t], s.locks)
  }

  /** Each counter is the number of its waiters and holders. */
  ghost predicate Counts(s: State) {
    forall l :: 0 <= l < |s.locks| ==> s.locks[l].count == |Users(s, l)|
  }

  /** A permit that is out has an owner. */
  ghost predicate PermitsOwned(s: State) {
    forall l :: 0 <= l < |s.locks| && !s.locks[l].free ==> exists t :: t in s.pcs && Owns(s.pcs[t], l)
  }

  /** A permit with an owner is out. */
  ghost predicate PermitsOut(s: State) {
    forall l, t :: 0 <= l < |s.locks| && t in s.pcs && Owns(s.pcs[t], l) ==> !s.locks[l].free
  }

  ghost predicate OneOwner(s: State) {
    forall l, t, u :: t in s.pcs && u in s.pcs && Owns(s.pcs[t], l) && Owns(s.pcs[u], l) ==> t == u
  }

  /** Whoever is counted on a lock, or cleans it up, finds it still in the map. */
  ghost predicate Current(s: State) {
    forall l: nat, t :: t in s.pcs && (Counted(s.pcs[t], l) || InCleanup(s.pcs[t], l)) ==>
      s.pcs[t].repo in s.entries && s.entries[s.pcs[t].repo] == l
  }

  ghost predicate Mutex(s: State) {
    forall t :: t in s.pcs ==> (s.mutex == Some(t) <==> HasMutex(s.pcs[t]))
  }

  ghost predicate MutexTaken(s: State) {
    s.mutex.Some? ==> s.mutex.value in s.pcs
  }

  ghost predicate RemovingZero(s: State) {
    forall t :: t in s.pcs && s.pcs[t].Removing? && s.pcs[t].lock < |s.locks| ==> s.locks[s.pcs[t].lock].count == 0
  }

  /** An entry nobody is counted on has a task about to clean it up. */
  ghost predicate NoLeak(s: State) {
    forall r :: r in s.entries && s.entries[r] < |s.locks| && s.locks[s.entries[r]].count == 0 ==>
      exists t :: t in s.pcs && InCleanup(s.pcs[t], s.entries[r])
  }

  ghost predicate Inv(s: State) {
    && EntriesOk(s) && TasksOk(s) && Counts(s) && PermitsOwned(s) && PermitsOut(s) && OneOwner(s) && Current(s)
    && Mutex(s) && MutexTaken(s)
    && RemovingZero(s) && NoLeak(s)
  }

  // ---- Preservation, step by step ----

  lemma UsersSame(s: State, s2: State, t: nat, lock: nat)
    requires t in s.pcs && s2.pcs.Keys == s.pcs.Keys
    requires forall u :: u in s.pcs && u != t ==> s2.pcs[u] == s.pcs[u]
    requires Counted(s.pcs[t], lock) <==> Counted(s2.pcs[t], lock)
    ensures Users(s2, lock) == Users(s, lock)
  {
  }

  lemma UsersPlus(s: State, s2: State, t: nat, lock: nat)
    requires t in s.pcs && s2.pcs.Keys == s.pcs.Keys
    requires forall u :: u in s.pcs && u != t ==> s2.pcs[u] == s.pcs[u]
    requires !Counted(s.pcs[t], lock) && Counted(s2.pcs[t], lock)
    ensures |Users(s2, lock)| == |Users(s, lock)| + 1
  {
    assert Users(s2, lock) == Users(s, lock) + {t};
  }

  lemma CountsAfter(s: State, step: Step)
    requires Inv(s) && Enabled(s, step) && Patient(s, step)
    ensures Counts(Apply(s, step))
  {
    hide NoLeak, Current, RemovingZero, OneOwner, PermitsOut, PermitsOwned, Mutex, MutexTaken;
    var s2 := Apply(s, step);
    var t := step.task;
    assert s2.pcs.Keys == s.pcs.Keys;
    forall l | 0 <= l < |s2.locks|
      ensures s2.locks[l].count == |Users(s2, l)|
    {
      if l == |s.locks| {
        assert Users(s, l) == {};
      }
      if Counted(s.pcs[t], l) == Counted(s2.pcs[t], l) {
        UsersSame(s, s2, t, l);
      } else if Counted(s2.pcs[t], l) {
        UsersPlus(s, s2, t, l);
      } else {
        UsersPlus(s2, s, t, l);
      }
    }
  }

  lemma PermitsOwnedAfter(s: State, step: Step)
    requires Inv(s) && Enabled(s, step) && Patient(s, step)
    ensures PermitsOwned(Apply(s, step))
  {
    hide Counts, NoLeak, Current, RemovingZero, EntriesOk, OneOwner, PermitsOut, Mutex, MutexTaken;
    var s2 := Apply(s, step);
    var t := step.task;
    forall l | 0 <= l < |s2.locks| && !s2.locks[l].free
      ensures exists u :: u in s2.pcs && Owns(s2.pcs[u], l)
    {
      if !Owns(s2.pcs[t], l) {
        assert l < |s.locks| && !s.locks[l].free;
        var u :| u in s.pcs && Owns(s.pcs[u], l);
        assert u in s2.pcs && Owns(s2.pcs[u], l);
      }
    }
  }

  lemma PermitsOutAfter(s: State, step: Step)
    requires Inv(s) && Enabled(s, step) && Patient(s, step)
    ensures PermitsOut(Apply(s, step))
  {
    var s2 := Apply(s, step);
    forall l, u | 0 <= l < |s2.locks| && u in s2.pcs && Owns(s2.pcs[u], l)
      ensures !s2.locks[l].free
    {
      if u != step.task {
        assert u in s.pcs && Owns(s.pcs[u], l);
        assert l < |s.locks| && !s.locks[l].free;
        assert step.Release? ==> !(Owns(s.pcs[step.task], l));
      }
    }
  }

  lemma OneOwnerAfter(s: State, step: Step)
    requires Inv(s) && Enabled(s, step) && Patient(s, step)
    ensures OneOwner(Apply(s, step))
  {
    hide Counts, NoLeak, Current, RemovingZero, EntriesOk, PermitsOwned, Mutex, MutexTaken;
    var s2 := Apply(s, step);
    var t := step.task;
    forall l: nat, u | u in s2.pcs && u != t && Owns(s2.pcs[t], l)
      ensures !Owns(s2.pcs[u], l)
    {
      assert u in s.pcs && s2.pcs[u] == s.pcs[u];
      if step.Acquire? {
        assert s.locks[l].free;
      } else {
        assert Owns(s.pcs[t], l);
      }
    }
  }

  /** The task that removes an entry owns the permit of that entry's lock, and nobody is left on it. */
  lemma RemovalIsSafe(s: State, t: nat)
    requires Inv(s) && t in s.pcs && s.pcs[t].Removing?
    ensures s.pcs[t].permit && s.pcs[t].repo in s.entries && s.entries[s.pcs[t].repo] == s.pcs[t].lock
    ensures s.pcs[t].lock < |s.locks| && !s.locks[s.pcs[t].lock].free
    ensures forall l: nat, u :: u in s.pcs && u != t && (Counted(s.pcs[u], l) || InCleanup(s.pcs[u], l)) ==>
      s.pcs[u].repo != s.pcs[t].repo
  {
    var lock := s.pcs[t].lock;
    assert TaskOk(s.pcs[t], s.locks) && InCleanup(s.pcs[t], lock) && Owns(s.pcs[t], lock);
    assert Users(s, lock) == {};
    forall l: nat, u | u in s.pcs && u != t && (Counted(s.pcs[u], l) || InCleanup(s.pcs[u], l))
      ensures s.pcs[u].repo != s.pcs[t].repo
    {
      assert TaskOk(s.pcs[u], s.locks);
      assert u !in Users(s, lock) && !Owns(s.pcs[u], lock);
    }
  }

  lemma CurrentAfter(s: State, step: Step)
    requires Inv(s) && Enabled(s, step) && Patient(s, step)
    ensures Current(Apply(s, step))
  {
    var s2 := Apply(s, step);
    var t := step.task;
    if step.Remove? {
      RemovalIsSafe(s, t);
    }
    forall l: nat, u | u in s2.pcs && (Counted(s2.pcs[u], l) || InCleanup(s2.pcs[u], l))
      ensures s2.pcs[u].repo in s2.entries && s2.entries[s2.pcs[u].repo] == l
    {
      if u != t {
        assert s2.pcs[u] == s.pcs[u];
        assert s.entries[s.pcs[u].repo] == l;
      } else {
        assert !step.Register? ==> Counted(s.pcs[t], l) || InCleanup(s.pcs[t], l);
      }
    }
  }

  lemma EntriesOkAfter(s: State, step: Step)
    requires Inv(s) && Enabled(s, step) && Patient(s, step)
    ensures EntriesOk(Apply(s, step))
  {
  }

  lemma TasksOkAfter(s: State, step: Step)
    requires Inv(s) && Enabled(s, step) && Patient(s, step)
    ensures TasksOk(Apply(s, step))
  {
    hide Counts, NoLeak, RemovingZero, OneOwner, PermitsOut, PermitsOwned, Mutex, MutexTaken;
    var s2 := Apply(s, step);
    forall t | t in s2.pcs
      ensures TaskOk(s2.pcs[t], s2.locks)
    {
      assert TaskOk(s.pcs[t], s.locks);
    }
  }

  lemma MutexAfter(s: State, step: Step)
    requires Inv(s) && Enabled(s, step) && Patient(s, step)
    ensures Mutex(Apply(s, step)) && MutexTaken(Apply(s, step))
  {
  }

  lemma RemovingZeroAfter(s: State, step: Step)
    requires Inv(s) && Enabled(s, step) && Patient(s, step)
    ensures RemovingZero(Apply(s, step))
  {
    var s2 := Apply(s, step);
    var t := step.task;
    forall u | u in s2.pcs && s2.pcs[u].Removing? && s2.pcs[u].lock < |s2.locks|
      ensures s2.locks[s2.pcs[u].lock].count == 0
    {
      var l := s2.pcs[u].lock;
      if u != t {
        assert s.pcs[u].Removing? && s.mutex == Some(u);
        assert s.locks[l].count == 0 == |Users(s, l)|;
        assert Counted(s.pcs[t], l) ==> t in Users(s, l);
      }
    }
  }

  lemma NoLeakAfter(s: State, step: Step)
    requires Inv(s) && Enabled(s, step) && Patient(s, step)
    ensures NoLeak(Apply(s, step))
  {
    hide OneOwner, PermitsOut, PermitsOwned, Mutex, MutexTaken;
    var s2 := Apply(s, step);
    var t := step.task;
    forall r | r in s2.entries && s2.entries[r] < |s2.locks| && s2.locks[s2.entries[r]].count == 0
      ensures exists u :: u in s2.pcs && InCleanup(s2.pcs[u], s2.entries[r])
    {
      var l := s2.entries[r];
      if InCleanup(s2.pcs[t], l) {
      } else {
        assert r in s.entries && s.entries[r] == l && l < |s.locks|;
        assert s.locks[l].count == 0;
        var u :| u in s.pcs && InCleanup(s.pcs[u], l);
        assert u in s2.pcs && InCleanup(s2.pcs[u], l);
      }
    }
  }

  lemma StepKeepsInv(s: State, step: Step)
    requires Inv(s) && Enabled(s, step) && Patient(s, step)
    ensures Inv(Apply(s, step))
  {
    EntriesOkAfter(s, step);
    TasksOkAfter(s, step);
    CountsAfter(s, step);
    MutexAfter(s, step);
    RemovingZeroAfter(s, step);
    PermitsOwnedAfter(s, step);
    PermitsOutAfter(s, step);
    OneOwnerAfter(s, step);
    CurrentAfter(s, step);
    NoLeakAfter(s, step);
  }

  // ---- Main results ----

  lemma {:induction false} RunKeepsInv(s: State, steps: seq<Step>)
    requires Inv(s) && ValidRun(s, steps)
    requires PatientRun(s, steps)
    ensures Inv(Run(s, steps))
    ensures Run(s, steps).pcs.Keys == s.pcs.Keys
    decreases |steps|
  {
    if steps != [] {
      StepKeepsInv(s, steps[0]);
      RunKeepsInv(Apply(s, steps[0]), steps[1..]);
    }
  }

  lemma InitialInv(s: State)
    requires Initial(s)
    ensures Inv(s)
  {
  }

  /** At most one live guard per repository, after every run in which no last waiter is dropped. */
  lemma MutualExclusion(s: State, steps: seq<Step>, t: nat, u: nat)
    requires Initial(s) && ValidRun(s, steps)
    requires PatientRun(s, steps)
    requires t in Run(s, steps).pcs && u in Run(s, steps).pcs
    requires Run(s, steps).pcs[t].Holding? && Run(s, steps).pcs[u].Holding?
    requires Run(s, steps).pcs[t].repo == Run(s, steps).pcs[u].repo
    ensures t == u
  {
    InitialInv(s);
    RunKeepsInv(s, steps);
    GuardsMeet(Run(s, steps), t, u);
  }

  lemma GuardsMeet(e: State, t: nat, u: nat)
    requires Inv(e) && t in e.pcs && u in e.pcs && e.pcs[t].Holding? && e.pcs[u].Holding?
             && e.pcs[t].repo == e.pcs[u].repo
    ensures t == u
  {
    assert Counted(e.pcs[t], e.pcs[t].lock) && Counted(e.pcs[u], e.pcs[u].lock);
    assert Owns(e.pcs[t], e.pcs[t].lock) && Owns(e.pcs[u], e.pcs[t].lock);
  }

  /** The map does not leak: an entry without users has exactly one task about to remove it. */
  lemma UnusedEntryIsBeingRemoved(s: State, steps: seq<Step>, repo: int)
    requires Initial(s) && ValidRun(s, steps)
    requires PatientRun(s, steps)
    ensures var e := Run(s, steps);
            repo in e.entries && e.entries[repo] < |e.locks| && e.locks[e.entries[repo]].count == 0 ==>
              exists t :: t in e.pcs && InCleanup(e.pcs[t], e.entries[repo])
                && forall u :: u in e.pcs && InCleanup(e.pcs[u], e.entries[repo]) ==> u == t
  {
    InitialInv(s);
    RunKeepsInv(s, steps);
    var e := Run(s, steps);
    if repo in e.entries && e.locks[e.entries[repo]].count == 0 {
      var l := e.entries[repo];
      var t :| t in e.pcs && InCleanup(e.pcs[t], l);
      forall u | u in e.pcs && InCleanup(e.pcs[u], l)
        ensures u == t
      {
        assert TaskOk(e.pcs[u], e.locks) && TaskOk(e.pcs[t], e.locks);
        assert Owns(e.pcs[u], l) && Owns(e.pcs[t], l);
      }
    }
  }

  /** When every task is idle the map is empty and every permit is home. */
  lemma IdleMeansEmpty(s: State, steps: seq<Step>)
    requires Initial(s) && ValidRun(s, steps)
    requires PatientRun(s, steps)
    requires forall t :: t in Run(s, steps).pcs ==> Run(s, steps).pcs[t].Idle?
    ensures Run(s, steps).entries == map[] && Run(s, steps).mutex == None
    ensures forall l :: 0 <= l < |Run(s, steps).locks| ==> Run(s, steps).locks[l].free
  {
    InitialInv(s);
    RunKeepsInv(s, steps);
    var e := Run(s, steps);
    assert forall r :: r in e.entries ==> Users(e, e.entries[r]) == {};
    assert forall r :: r !in e.entries;
  }

  /** The step a task that is not waiting for anybody takes next. */
  function NextOf(pc: Pc, t: nat): Step {
    match pc
    case Idle => Ask(t, 0)
    case Locking(_) => EnterLock(t)
    case Registering(_) => Register(t)
    case Waiting(_, _) => Acquire(t)
    case Holding(_, _) => CountDown(t)
    case Cleaning(_, _, _) => EnterCleanup(t)
    case Checking(_, _, _) => Recheck(t)
    case Removing(_, _, _) => Remove(t)
    case Releasing(_, _) => Release(t)
  }

  /** Nobody is stranded: while some task is inside the lock, some such task can take its step. */
  lemma NoDeadlock(s: State, steps: seq<Step>, t: nat)
    requires Initial(s) && ValidRun(s, steps)
    requires PatientRun(s, steps)
    requires t in Run(s, steps).pcs && !Run(s, steps).pcs[t].Idle?
    ensures exists u :: u in Run(s, steps).pcs && !Run(s, steps).pcs[u].Idle?
              && Enabled(Run(s, steps), NextOf(Run(s, steps).pcs[u], u))
  {
    InitialInv(s);
    RunKeepsInv(s, steps);
    SomeoneMoves(Run(s, steps), t);
  }

  lemma SomeoneMoves(e: State, t: nat)
    requires Inv(e) && t in e.pcs && !e.pcs[t].Idle?
    ensures exists u :: u in e.pcs && !e.pcs[u].Idle? && Enabled(e, NextOf(e.pcs[u], u))
  {
    assert TaskOk(e.pcs[t], e.locks);
    if e.mutex.Some? {
      var u := e.mutex.value;
      assert HasMutex(e.pcs[u]) && TaskOk(e.pcs[u], e.locks);
      assert Enabled(e, NextOf(e.pcs[u], u));
    } else if e.pcs[t].Waiting? && !e.locks[e.pcs[t].lock].free {
      var u :| u in e.pcs && Owns(e.pcs[u], e.pcs[t].lock);
      assert TaskOk(e.pcs[u], e.locks);
      assert Enabled(e, NextOf(e.pcs[u], u));
    } else {
      assert Enabled(e, NextOf(e.pcs[t], t));
    }
  }
}
