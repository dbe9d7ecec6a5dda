/**
 What dropping a waiting `lock` future costs (server/src/github/repo_lock.rs): nothing while
 somebody else is counted on the lock, and mutual exclusion otherwise, in any state.
 */
module DroppedWaiters {
  import opened Basics
  import opened RepoLock
  import opened RepoLockProofs

  predicate NoDrop(steps: seq<Step>) {
    forall i :: 0 <= i < |steps| ==> !steps[i].Abandon?
  }

  /** No two tasks have a live guard of one repository. */
  ghost predicate Exclusive(s: State) {
    forall t, u :: t in s.pcs && u in s.pcs && s.pcs[t].Holding? && s.pcs[u].Holding? && s.pcs[t].repo == s.pcs[u].repo
      ==> t == u
  }

  // ---- Going on from a run ----

  lemma {:induction false} RunSnoc(s: State, steps: seq<Step>, step: Step)
    requires ValidRun(s, steps) && Enabled(Run(s, steps), step)
    ensures ValidRun(s, steps + [step]) && Run(s, steps + [step]) == Apply(Run(s, steps), step)
    decreases |steps|
  {
    if steps == [] {
      assert [step][1..] == [];
      assert steps + [step] == [step];
    } else {
      assert (steps + [step])[0] == steps[0] && (steps + [step])[1..] == steps[1..] + [step];
      RunSnoc(Apply(s, steps[0]), steps[1..], step);
    }
  }

  /** The run so far, and that nobody was dropped in it. */
  ghost predicate After(s0: State, steps: seq<Step>, s: State) {
    ValidRun(s0, steps) && NoDrop(steps) && Run(s0, steps) == s
  }

  lemma Do(s0: State, before: seq<Step>, s: State, step: Step) returns (steps: seq<Step>)
    requires After(s0, before, s) && Enabled(s, step) && !step.Abandon?
    ensures After(s0, steps, Apply(s, step))
  {
    RunSnoc(s0, before, step);
    steps := before + [step];
  }

  /** A task asks for a lock up to where it waits. */
  lemma Join(s0: State, before: seq<Step>, s: State, x: nat, r: int) returns (steps: seq<Step>)
    requires After(s0, before, s) && s.mutex.None? && x in s.pcs && s.pcs[x].Idle?
    requires r in s.entries ==> s.entries[r] < |s.locks|
    ensures var vacant := r !in s.entries;
            var l := if vacant then |s.locks| else s.entries[r];
            var locks := if vacant then s.locks + [Lock(r, 1, true)]
                         else s.locks[l := s.locks[l].(count := s.locks[l].count + 1)];
            After(s0, steps, State(s.entries[r := l], locks, s.pcs[x := Waiting(r, l)], None))
  {
    hide After;
    steps := Do(s0, before, s, Ask(x, r));
    var s1 := State(s.entries, s.locks, s.pcs[x := Locking(r)], None);
    steps := Do(s0, steps, s1, EnterLock(x));
    var s2 := State(s.entries, s.locks, s.pcs[x := Registering(r)], Some(x));
    assert Apply(s1, EnterLock(x)) == s2;
    steps := Do(s0, steps, s2, Register(x));
    assert Apply(s2, Register(x)).pcs == s.pcs[x := Apply(s2, Register(x)).pcs[x]];
    assert r !in s.entries ==> Apply(s2, Register(x)).locks == s.locks + [Lock(r, 1, true)];
  }

  /** A task takes the lock of a repository that has no entry. */
  lemma TakeFresh(s0: State, before: seq<Step>, s: State, x: nat, r: int) returns (steps: seq<Step>)
    requires After(s0, before, s) && s.mutex.None? && x in s.pcs && s.pcs[x].Idle? && r !in s.entries
    ensures After(s0, steps, State(s.entries[r := |s.locks|], s.locks + [Lock(r, 1, false)],
                                   s.pcs[x := Holding(r, |s.locks|)], None))
  {
    hide After;
    var l := |s.locks|;
    steps := Join(s0, before, s, x, r);
    var s1 := State(s.entries[r := l], s.locks + [Lock(r, 1, true)], s.pcs[x := Waiting(r, l)], None);
    steps := Do(s0, steps, s1, Acquire(x));
    assert Apply(s1, Acquire(x)) == State(s1.entries, s.locks + [Lock(r, 1, false)], s.pcs[x := Holding(r, l)], None);
  }

  /** A task that counted down to zero, and finds zero, removes the entry. */
  lemma CleanUp(s0: State, before: seq<Step>, s: State, u: nat) returns (steps: seq<Step>)
    requires After(s0, before, s) && s.mutex.None? && u in s.pcs && s.pcs[u].Cleaning?
    requires s.pcs[u].lock < |s.locks| && s.locks[s.pcs[u].lock].count == 0
    ensures var pc := s.pcs[u];
            After(s0, steps, State(s.entries - {pc.repo}, s.locks, s.pcs[u := AfterDrop(pc.repo, pc.lock, pc.permit)],
                                   None))
  {
    hide After;
    var pc := s.pcs[u];
    steps := Do(s0, before, s, EnterCleanup(u));
    var s1 := State(s.entries, s.locks, s.pcs[u := Checking(pc.repo, pc.lock, pc.permit)], Some(u));
    steps := Do(s0, steps, s1, Recheck(u));
    var s2 := State(s.entries, s.locks, s.pcs[u := Removing(pc.repo, pc.lock, pc.permit)], Some(u));
    assert Apply(s1, Recheck(u)) == s2;
    steps := Do(s0, steps, s2, Remove(u));
    assert Apply(s2, Remove(u)).pcs == s.pcs[u := AfterDrop(pc.repo, pc.lock, pc.permit)];
  }

  /** A task that counted down to zero finds somebody counted, and gives its permit back. */
  lemma LeaveEntry(s0: State, before: seq<Step>, s: State, u: nat) returns (steps: seq<Step>)
    requires After(s0, before, s) && s.mutex.None? && u in s.pcs && s.pcs[u].Cleaning? && s.pcs[u].permit
    requires s.pcs[u].lock < |s.locks| && s.locks[s.pcs[u].lock].count != 0
    ensures var l := s.pcs[u].lock;
            After(s0, steps, State(s.entries, s.locks[l := s.locks[l].(free := true)], s.pcs[u := Idle], None))
  {
    hide After;
    var pc := s.pcs[u];
    steps := Do(s0, before, s, EnterCleanup(u));
    var s1 := State(s.entries, s.locks, s.pcs[u := Checking(pc.repo, pc.lock, true)], Some(u));
    steps := Do(s0, steps, s1, Recheck(u));
    var s2 := State(s.entries, s.locks, s.pcs[u := Releasing(pc.repo, pc.lock)], None);
    assert Apply(s1, Recheck(u)) == s2;
    steps := Do(s0, steps, s2, Release(u));
    assert Apply(s2, Release(u)).pcs == s.pcs[u := Idle];
  }

  /** The only one counted takes its permit and drops its guard, up to where it wants the mutex. */
  lemma PassThrough(s0: State, before: seq<Step>, s: State, w: nat) returns (steps: seq<Step>)
    requires After(s0, before, s) && w in s.pcs && s.pcs[w].Waiting? && s.pcs[w].lock < |s.locks|
    requires s.locks[s.pcs[w].lock].free && s.locks[s.pcs[w].lock].count == 1
    ensures var pc := s.pcs[w];
            After(s0, steps, State(s.entries, s.locks[pc.lock := Lock(s.locks[pc.lock].repo, 0, false)],
                                   s.pcs[w := Cleaning(pc.repo, pc.lock, true)], s.mutex))
  {
    hide After;
    var pc := s.pcs[w];
    var l := pc.lock;
    steps := Do(s0, before, s, Acquire(w));
    var s1 := State(s.entries, s.locks[l := s.locks[l].(free := false)], s.pcs[w := Holding(pc.repo, l)], s.mutex);
    steps := Do(s0, steps, s1, CountDown(w));
    assert Apply(s1, CountDown(w)).pcs == s.pcs[w := Cleaning(pc.repo, l, true)];
    assert Apply(s1, CountDown(w)).locks == s.locks[l := Lock(s.locks[l].repo, 0, false)];
  }

  // ---- From a task that cleans up without the permit to two live guards ----

  /** Task `t` gave up last on lock `l` of repository `r` and wants the mutex; task `x` is idle. */
  predicate Gone(s: State, t: nat, x: nat, r: int, l: nat) {
    && t in s.pcs && x in s.pcs && s.pcs[t] == Cleaning(r, l, false) && s.pcs[x] == Idle
    && s.mutex == None && l < |s.locks|
  }

  ghost predicate TwoGuards(s: State, t: nat, x: nat) {
    && t != x && t in s.pcs && x in s.pcs && s.pcs[t].Holding? && s.pcs[x].Holding? && s.pcs[t].repo == s.pcs[x].repo
    && s.pcs[t].lock != s.pcs[x].lock
  }

  /** The entry is gone: a new lock is made, `t` removes its entry, and another one is made. */
  lemma OrphanBreaks(s0: State, before: seq<Step>, s: State, t: nat, x: nat, r: int, l: nat) returns (steps: seq<Step>)
    requires After(s0, before, s) && Gone(s, t, x, r, l) && r !in s.entries && s.locks[l].count == 0
    ensures ValidRun(s0, steps) && NoDrop(steps) && TwoGuards(Run(s0, steps), t, x)
  {
    var n := |s.locks|;
    steps := TakeFresh(s0, before, s, x, r);
    var s1 := State(s.entries[r := n], s.locks + [Lock(r, 1, false)], s.pcs[x := Holding(r, n)], None);
    steps := CleanUp(s0, steps, s1, t);
    var s2 := State(s1.entries - {r}, s1.locks, s1.pcs[t := Idle], None);
    steps := TakeFresh(s0, steps, s2, t, r);
  }

  /** Somebody passes through the lock, removes the entry and gives the permit back. */
  lemma WaiterBreaks(s0: State, before: seq<Step>, s: State, t: nat, x: nat, r: int, l: nat, w: nat)
    returns (steps: seq<Step>)
    requires After(s0, before, s) && Gone(s, t, x, r, l) && s.locks[l].free && s.locks[l].count == 1
    requires w in s.pcs && s.pcs[w] == Waiting(r, l)
    ensures ValidRun(s0, steps) && NoDrop(steps) && TwoGuards(Run(s0, steps), t, x)
  {
    steps := PassThrough(s0, before, s, w);
    var s1 := State(s.entries, s.locks[l := Lock(s.locks[l].repo, 0, false)], s.pcs[w := Cleaning(r, l, true)], None);
    steps := CleanUp(s0, steps, s1, w);
    var s2 := State(s.entries - {r}, s1.locks, s1.pcs[w := Releasing(r, l)], None);
    steps := OrphanBreaks(s0, steps, s2, t, x, r, l);
  }

  /** Nobody waits and the permit is home: `x` is the one who passes through. */
  lemma FreeBreaks(s0: State, before: seq<Step>, s: State, t: nat, x: nat, r: int, l: nat) returns (steps: seq<Step>)
    requires After(s0, before, s) && Gone(s, t, x, r, l) && s.locks[l].free && s.locks[l].count == 0
    requires r in s.entries && s.entries[r] == l
    ensures ValidRun(s0, steps) && NoDrop(steps) && TwoGuards(Run(s0, steps), t, x)
  {
    steps := Join(s0, before, s, x, r);
    var s1 := State(s.entries[r := l], s.locks[l := s.locks[l].(count := 1)], s.pcs[x := Waiting(r, l)], None);
    steps := PassThrough(s0, steps, s1, x);
    var s2 := State(s1.entries, s1.locks[l := Lock(s.locks[l].repo, 0, false)], s1.pcs[x := Cleaning(r, l, true)],
                    None);
    steps := CleanUp(s0, steps, s2, x);
    var s3 := State(s2.entries - {r}, s2.locks, s2.pcs[x := Releasing(r, l)], None);
    steps := Do(s0, steps, s3, Release(x));
    steps := OrphanBreaks(s0, steps, Apply(s3, Release(x)), t, x, r, l);
  }

  /** One task waits at most, and only then the counter is not zero. */
  ghost predicate FewWait(s: State, r: int, l: nat)
    requires l < |s.locks|
  {
    s.locks[l].count == 0 || (s.locks[l].count == 1 && exists w :: w in s.pcs && s.pcs[w] == Waiting(r, l))
  }

  lemma HomeBreaks(s0: State, before: seq<Step>, s: State, t: nat, x: nat, r: int, l: nat) returns (steps: seq<Step>)
    requires After(s0, before, s) && Gone(s, t, x, r, l) && s.locks[l].free && FewWait(s, r, l)
    requires r in s.entries && s.entries[r] == l
    ensures ValidRun(s0, steps) && NoDrop(steps) && TwoGuards(Run(s0, steps), t, x)
  {
    if s.locks[l].count == 0 {
      steps := FreeBreaks(s0, before, s, t, x, r, l);
    } else {
      var w :| w in s.pcs && s.pcs[w] == Waiting(r, l);
      steps := WaiterBreaks(s0, before, s, t, x, r, l, w);
    }
  }

  /** Somebody who is done with the lock has its permit. */
  ghost predicate OnItsWayOut(s: State, u: nat, r: int, l: nat) {
    u in s.pcs && (s.pcs[u] == Cleaning(r, l, true) || s.pcs[u] == Releasing(r, l))
  }

  lemma OwnerBreaks(s0: State, before: seq<Step>, s: State, t: nat, x: nat, r: int, l: nat, u: nat)
    returns (steps: seq<Step>)
    requires After(s0, before, s) && Gone(s, t, x, r, l) && FewWait(s, r, l) && OnItsWayOut(s, u, r, l)
    requires r in s.entries && s.entries[r] == l
    ensures ValidRun(s0, steps) && NoDrop(steps) && TwoGuards(Run(s0, steps), t, x)
  {
    if s.pcs[u].Cleaning? && s.locks[l].count == 0 {
      steps := CleanUp(s0, before, s, u);
      var s1 := State(s.entries - {r}, s.locks, s.pcs[u := Releasing(r, l)], None);
      steps := OrphanBreaks(s0, steps, s1, t, x, r, l);
    } else {
      var s1 := State(s.entries, s.locks[l := s.locks[l].(free := true)], s.pcs[u := Idle], None);
      assert FewWait(s1, r, l) by {
        if s.locks[l].count == 1 {
          var w :| w in s.pcs && s.pcs[w] == Waiting(r, l);
          assert s1.pcs[w] == Waiting(r, l);
        }
      }
      if s.pcs[u].Cleaning? {
        steps := LeaveEntry(s0, before, s, u);
      } else {
        steps := Do(s0, before, s, Release(u));
      }
      steps := HomeBreaks(s0, steps, s1, t, x, r, l);
    }
  }

  /** What is left to look at once the mutex is free. */
  ghost predicate Ready(s: State, t: nat, x: nat, r: int, l: nat) {
    && Gone(s, t, x, r, l)
    && if r in s.entries
       then s.entries[r] == l && FewWait(s, r, l) && (s.locks[l].free || exists u :: OnItsWayOut(s, u, r, l))
       else s.locks[l].count == 0
  }

  lemma ReadyBreaks(s0: State, before: seq<Step>, s: State, t: nat, x: nat, r: int, l: nat) returns (steps: seq<Step>)
    requires After(s0, before, s) && Ready(s, t, x, r, l)
    ensures ValidRun(s0, steps) && NoDrop(steps) && TwoGuards(Run(s0, steps), t, x)
  {
    if r !in s.entries {
      steps := OrphanBreaks(s0, before, s, t, x, r, l);
    } else if s.locks[l].free {
      steps := HomeBreaks(s0, before, s, t, x, r, l);
    } else {
      var u :| OnItsWayOut(s, u, r, l);
      steps := OwnerBreaks(s0, before, s, t, x, r, l, u);
    }
  }

  // ---- From any state to there ----

  /** Around the only task counted on a lock. */
  lemma OnlyOneCounted(s: State, t: nat)
    requires Inv(s) && t in s.pcs && s.pcs[t].Waiting? && s.locks[s.pcs[t].lock].count == 1
    ensures var l := s.pcs[t].lock;
            var r := s.pcs[t].repo;
            && l < |s.locks| && s.locks[l].repo == r && r in s.entries && s.entries[r] == l
            && (forall u :: u in s.pcs && u != t ==>
                  !Counted(s.pcs[u], l) && (Owns(s.pcs[u], l) || InCleanup(s.pcs[u], l) ==> s.pcs[u].repo == r))
            && (forall u :: u in s.pcs ==> !(s.pcs[u].Removing? && s.pcs[u].lock == l))
            && (!s.locks[l].free ==>
                  exists u :: OnItsWayOut(s, u, r, l) || (u in s.pcs && s.pcs[u] == Checking(r, l, true)))
  {
    var l := s.pcs[t].lock;
    assert TaskOk(s.pcs[t], s.locks) && Counted(s.pcs[t], l) && t in Users(s, l);
    assert |Users(s, l) - {t}| == 0 && Users(s, l) == (Users(s, l) - {t}) + {t};
    forall u | u in s.pcs && u != t
      ensures !Counted(s.pcs[u], l) && (Owns(s.pcs[u], l) || InCleanup(s.pcs[u], l) ==> s.pcs[u].repo == s.pcs[t].repo)
    {
      assert TaskOk(s.pcs[u], s.locks);
      assert u !in Users(s, l);
    }
    if !s.locks[l].free {
      var u :| u in s.pcs && Owns(s.pcs[u], l);
      assert TaskOk(s.pcs[u], s.locks);
    }
  }

  /** What the task with the mutex knows about the map. */
  lemma MutexHolder(s: State, w: nat)
    requires Inv(s) && s.mutex == Some(w)
    ensures w in s.pcs && (s.pcs[w].Registering? || s.pcs[w].Checking? || s.pcs[w].Removing?)
    ensures var q := s.pcs[w].repo;
            if s.pcs[w].Registering? then q in s.entries ==> s.entries[q] < |s.locks| && s.locks[s.entries[q]].repo == q
            else var m := s.pcs[w].lock;
                 s.pcs[w].permit && m < |s.locks| && s.locks[m].repo == q && q in s.entries && s.entries[q] == m
    ensures forall u :: u in s.pcs && u != w ==> !s.pcs[u].Checking?
  {
    assert HasMutex(s.pcs[w]) && TaskOk(s.pcs[w], s.locks);
    assert !s.pcs[w].Registering? ==> InCleanup(s.pcs[w], s.pcs[w].lock);
  }

  /** The state right after the last one counted gave up. */
  function Abandoned(s: State, t: nat): State
    requires t in s.pcs && s.pcs[t].Waiting? && s.pcs[t].lock < |s.locks|
  {
    var pc := s.pcs[t];
    State(s.entries, s.locks[pc.lock := s.locks[pc.lock].(count := 0)], s.pcs[t := Cleaning(pc.repo, pc.lock, false)],
          s.mutex)
  }

  /** Whoever has the mutex then registers and leaves it. */
  lemma RegistrarLeaves(s: State, t: nat, x: nat, w: nat) returns (steps: seq<Step>)
    requires Inv(s) && t in s.pcs && s.pcs[t].Waiting? && s.locks[s.pcs[t].lock].count == 1
    requires x in s.pcs && s.pcs[x].Idle? && s.mutex == Some(w) && w in s.pcs && s.pcs[w].Registering?
    ensures ValidRun(Abandoned(s, t), steps) && NoDrop(steps)
    ensures Ready(Run(Abandoned(s, t), steps), t, x, s.pcs[t].repo, s.pcs[t].lock)
  {
    hide Inv;
    var r, l, q := s.pcs[t].repo, s.pcs[t].lock, s.pcs[w].repo;
    OnlyOneCounted(s, t);
    MutexHolder(s, w);
    var s1 := Abandoned(s, t);
    steps := Do(s1, [], s1, Register(w));
    var s2 := Apply(s1, Register(w));
    if q == r {
      assert s2.pcs[w] == Waiting(r, l);
    }
    OwnerStays(s, s2, t, w, r, l);
  }

  /** An owner on its way out is where it was, if only `t` and `w` moved. */
  lemma OwnerStays(s: State, s2: State, t: nat, w: nat, r: int, l: nat)
    requires t in s.pcs && s.pcs[t].Waiting? && w in s.pcs && (w == t || HasMutex(s.pcs[w]))
    requires s2.pcs.Keys == s.pcs.Keys && forall u :: u in s.pcs && u != t && u != w ==> s2.pcs[u] == s.pcs[u]
    ensures forall u :: OnItsWayOut(s, u, r, l) ==> OnItsWayOut(s2, u, r, l)
  {
  }

  /** The cleanup section of the task with the mutex, from wherever it is. */
  lemma EndCleanup(s0: State, before: seq<Step>, s: State, w: nat) returns (steps: seq<Step>)
    requires After(s0, before, s) && s.mutex == Some(w) && w in s.pcs && (s.pcs[w].Checking? || s.pcs[w].Removing?)
    requires s.pcs[w].lock < |s.locks|
    ensures var pc := s.pcs[w];
            var removes := pc.Removing? || s.locks[pc.lock].count == 0;
            After(s0, steps, State(if removes then s.entries - {pc.repo} else s.entries, s.locks,
                                   s.pcs[w := AfterDrop(pc.repo, pc.lock, pc.permit)], None))
  {
    hide After;
    var pc := s.pcs[w];
    var end := s.pcs[w := AfterDrop(pc.repo, pc.lock, pc.permit)];
    if pc.Removing? {
      steps := Do(s0, before, s, Remove(w));
    } else {
      steps := Do(s0, before, s, Recheck(w));
      if s.locks[pc.lock].count == 0 {
        var s1 := State(s.entries, s.locks, s.pcs[w := Removing(pc.repo, pc.lock, pc.permit)], s.mutex);
        steps := Do(s0, steps, s1, Remove(w));
        assert Apply(s1, Remove(w)).pcs == end;
      }
    }
  }

  /** Whoever has the mutex then looks at a counter, may remove the entry, and leaves it. */
  lemma CleanerLeaves(s: State, t: nat, x: nat, w: nat) returns (steps: seq<Step>)
    requires Inv(s) && t in s.pcs && s.pcs[t].Waiting? && s.locks[s.pcs[t].lock].count == 1
    requires x in s.pcs && s.pcs[x].Idle? && s.mutex == Some(w) && w in s.pcs
    requires s.pcs[w].Checking? || s.pcs[w].Removing?
    ensures ValidRun(Abandoned(s, t), steps) && NoDrop(steps)
    ensures Ready(Run(Abandoned(s, t), steps), t, x, s.pcs[t].repo, s.pcs[t].lock)
  {
    hide Inv, ValidRun, Run, Enabled;
    var r, l, q, m := s.pcs[t].repo, s.pcs[t].lock, s.pcs[w].repo, s.pcs[w].lock;
    OnlyOneCounted(s, t);
    MutexHolder(s, w);
    assert q == r <==> m == l;
    var s1 := Abandoned(s, t);
    NothingYet(s1);
    steps := EndCleanup(s1, [], s1, w);
    var s2 := Run(s1, steps);
    OwnerStays(s, s2, t, w, r, l);
  }

  /**
   In any state in which the invariant holds: once the last one counted on a lock gives up
   waiting, an idle task and it can come to hold two live guards of one repository, and
   nobody else needs to give up for that.
   */
  lemma LastWaiterBreaks(s: State, t: nat, x: nat) returns (steps: seq<Step>)
    requires Inv(s) && t in s.pcs && s.pcs[t].Waiting? && s.locks[s.pcs[t].lock].count == 1
    requires x in s.pcs && s.pcs[x].Idle?
    ensures Enabled(s, Abandon(t)) && ValidRun(Apply(s, Abandon(t)), steps) && NoDrop(steps)
    ensures TwoGuards(Run(Apply(s, Abandon(t)), steps), t, x)
  {
    var r, l := s.pcs[t].repo, s.pcs[t].lock;
    OnlyOneCounted(s, t);
    var s1 := Abandoned(s, t);
    assert Apply(s, Abandon(t)) == s1;
    steps := [];
    if s.mutex.Some? {
      var w := s.mutex.value;
      assert HasMutex(s.pcs[w]);
      if s.pcs[w].Registering? {
        steps := RegistrarLeaves(s, t, x, w);
      } else {
        steps := CleanerLeaves(s, t, x, w);
      }
    } else {
      OwnerStays(s, s1, t, t, r, l);
      assert forall u :: u in s.pcs ==> !s.pcs[u].Checking?;
    }
    steps := ReadyBreaks(s1, steps, Run(s1, steps), t, x, r, l);
  }

  lemma {:induction false} NoDropIsPatient(s: State, steps: seq<Step>)
    requires ValidRun(s, steps) && NoDrop(steps)
    ensures PatientRun(s, steps)
    decreases |steps|
  {
    if steps != [] {
      assert !steps[0].Abandon?;
      assert NoDrop(steps[1..]);
      NoDropIsPatient(Apply(s, steps[0]), steps[1..]);
    }
  }

  /** Runs that stay exclusive whatever comes, as long as no further last waiter is dropped. */
  ghost predicate StaysExclusive(s: State) {
    forall steps :: ValidRun(s, steps) && PatientRun(s, steps) ==> Exclusive(Run(s, steps))
  }

  lemma InvStaysExclusive(s: State)
    requires Inv(s)
    ensures StaysExclusive(s)
  {
    forall steps | ValidRun(s, steps) && PatientRun(s, steps)
      ensures Exclusive(Run(s, steps))
    {
      RunKeepsInv(s, steps);
      var e := Run(s, steps);
      forall t, u | t in e.pcs && u in e.pcs && e.pcs[t].Holding? && e.pcs[u].Holding? && e.pcs[t].repo == e.pcs[u].repo
        ensures t == u
      {
        GuardsMeet(e, t, u);
      }
    }
  }

  /** With an idle task about, dropping a waiter keeps exclusion exactly when it is not the last one counted. */
  lemma DropIsSafeExactly(s: State, t: nat, x: nat)
    requires Inv(s) && Enabled(s, Abandon(t)) && x in s.pcs && s.pcs[x].Idle?
    ensures StaysExclusive(Apply(s, Abandon(t))) <==> s.locks[s.pcs[t].lock].count > 1
  {
    assert t in Users(s, s.pcs[t].lock);
    if s.locks[s.pcs[t].lock].count > 1 {
      StepKeepsInv(s, Abandon(t));
      InvStaysExclusive(Apply(s, Abandon(t)));
    } else {
      var steps := LastWaiterBreaks(s, t, x);
      NoDropIsPatient(Apply(s, Abandon(t)), steps);
      TwoGuardsClash(Run(Apply(s, Abandon(t)), steps), t, x);
    }
  }

  /** With one dropped waiter, two tasks are enough for two live guards of one repository. */
  lemma DroppedWaiterBreaksExclusion()
    ensures exists s, steps :: Initial(s) && ValidRun(s, steps) && !Exclusive(Run(s, steps))
  {
    hide ValidRun, Run, PatientRun, Inv, Exclusive;
    var s := State(map[], [], map[0 := Idle, 1 := Idle], None);
    assert s.pcs.Keys == {0, 1};
    assert After(s, [], s) by { NothingYet(s); }
    var steps := Join(s, [], s, 0, 7);
    var s1 := State(map[7 := 0], [Lock(7, 1, true)], map[0 := Waiting(7, 0), 1 := Idle], None);
    assert After(s, steps, s1);
    NoDropIsPatient(s, steps);
    InitialInv(s);
    RunKeepsInv(s, steps);
    RunSnoc(s, steps, Abandon(0));
    var more := LastWaiterBreaks(s1, 0, 1);
    RunAppend(s, steps + [Abandon(0)], more);
    TwoGuardsClash(Run(s, steps + [Abandon(0)] + more), 0, 1);
  }

  lemma NothingYet(s: State)
    ensures ValidRun(s, []) && Run(s, []) == s
  {
  }

  lemma TwoGuardsClash(s: State, t: nat, x: nat)
    requires TwoGuards(s, t, x)
    ensures !Exclusive(s)
  {
  }

  lemma {:induction false} RunAppend(s: State, a: seq<Step>, b: seq<Step>)
    requires ValidRun(s, a) && ValidRun(Run(s, a), b)
    ensures ValidRun(s, a + b) && Run(s, a + b) == Run(Run(s, a), b)
    decreases |a|
  {
    if a == [] {
      assert a + b == b;
    } else {
      assert (a + b)[0] == a[0] && (a + b)[1..] == a[1..] + b;
      RunAppend(Apply(s, a[0]), a[1..], b);
    }
  }
}
