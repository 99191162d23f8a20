/** What the thread pool promises, for every run and every interleaving. */
module PoolTheorems {
  import opened Prelude
  import opened PoolModel
  import opened PoolInv
  import opened PoolProof
  import opened PoolQueue
  import opened PoolLive
  import opened PoolSteps
  import opened PoolErrors

  // ----- Quiescence -----

  lemma QuietByMain(s: State, c: Choice, s': State)
    requires Quiet(s) && MainMoves(s, c, s') && !s'.main.Adding?
    ensures Quiet(s')
  {
    var m := MainMove(s.main, s.sh, |s.ws|, c);
    if s.main.Idle? {
      assert Grab(s.sh.jobs, MainThread, c).None? || m.sh.jobs == s.sh.jobs;
    }
    assert s'.sh.jobs == s.sh.jobs;
  }

  lemma QuietWoken(s: State, c: Choice)
    requires Quiet(s) && Signal2(s.ws, c).Some?
    ensures Quiet(s.(ws := Signal2(s.ws, c).value))
  {
  }

  lemma QuietByWorkerNext(s: State, w: nat, c: Choice)
    requires Inv(s) && Quiet(s) && WorkerNext(s, w, c).Some? && !WorkerNext(s, w, c).value.main.Adding?
    ensures Quiet(WorkerNext(s, w, c).value)
  {
    var m := WorkerMove(s.ws[w], s.sh, WorkerThread(w), c);
    if m.signal == Cond2 {
      QuietWoken(s, c);
      HeardAfter(s, c);
      QuietByWorker(s.(ws := Signal2(s.ws, c).value), w, c, WorkerNext(s, w, c).value);
    } else {
      QuietByWorker(s, w, c, State(s.main, s.ws[w := m.pc], m.sh));
    }
  }

  lemma QuietByMainNext(s: State, c: Choice)
    requires Quiet(s) && MainNext(s, c).Some? && !MainNext(s, c).value.main.Adding?
    ensures Quiet(MainNext(s, c).value)
  {
    if !s.main.Spawn? && !s.main.Join? {
      if MainMove(s.main, s.sh, |s.ws|, c).signal == Cond2 {
        QuietWoken(s, c);
        QuietByMain(s.(ws := Signal2(s.ws, c).value), c, MainNext(s, c).value);
      } else {
        QuietByMain(s, c, MainNext(s, c).value);
      }
    }
  }

  lemma QuietByStep(s: State, s': State)
    requires Inv(s) && Quiet(s) && Step(s, s') && !s'.main.Adding?
    ensures Quiet(s')
  {
    if t, c :| Next(s, t, c) == Some(s') {
      match t
      case MainThread => QuietByMainNext(s, c);
      case WorkerThread(w) => QuietByWorkerNext(s, w, c);
    }
  }

  // When `threadpool_wait` leaves its loop without an error, every job ever
  // inserted has been popped and its function has returned, nothing is queued
  // and no worker is inside a job; and that stays so until main adds again.
  lemma {:induction false} Quiescence(r: seq<State>, count: nat, i: nat, j: nat)
    requires Run(r, count) && i <= j < |r|
    requires r[i].main.Wait? && r[i].main.wait.WaitUnlock? && !r[i].sh.flags.err
    requires forall k | i <= k <= j :: !r[k].main.Adding?
    ensures Quiet(r[j])
    decreases j - i
  {
    if i == j {
      InvInRun(r, count, i);
      CleanMeansNoError(r, count, i);
    } else {
      var k := j - 1;
      Quiescence(r, count, i, k);
      InvInRun(r, count, k);
      assert Step(r[k], r[j]);
      QuietByStep(r[k], r[j]);
    }
  }

  // ----- No lost wake-up -----

  lemma SomebodyLooks(s: State)
    requires WakeOk(s) && |s.ws| > 0 && s.sh.flags.active && s.sh.jobs.head.Some?
    ensures (exists w :: 0 <= w < |s.ws| && s.ws[w] != Parked) || (exists t :: Announcing(s, t))
  {
    if w :| 0 <= w < |s.ws| && Awake(s.ws[w]) {
      assert s.ws[w] != Parked;
    }
  }

  lemma SomebodyWorks(s: State)
    requires CountsOk(s) && WaitOk(s) && s.main == Wait(WaitParked)
    ensures || (exists w :: 0 <= w < |s.ws| && Counted(s.ws[w]))
            || s.sh.jobs.head.Some?
            || (exists w :: 0 <= w < |s.ws| && (s.ws[w] == Leave(LeaveTest) || s.ws[w] == Leave(LeaveSignal)))
  {
    CountIfExtremes(s.ws, Counted);
    if SignalDue(s, {Leave(LeaveTest), Leave(LeaveSignal)}) {
      var w := s.sh.locks.one.value.id;
      assert s.ws[w] == Leave(LeaveTest) || s.ws[w] == Leave(LeaveSignal);
    }
  }

  lemma NoLostWakeUp(r: seq<State>, count: nat, i: nat)
    requires Run(r, count) && i < |r| && count > 0
    ensures var s := r[i];
            s.sh.flags.active && s.sh.jobs.head.Some? ==>
              || (exists w :: 0 <= w < |s.ws| && s.ws[w] != Parked)
              || (exists t :: Announcing(s, t))
    ensures var s := r[i];
            s.main == Wait(WaitParked) ==>
              || (exists w :: 0 <= w < |s.ws| && Counted(s.ws[w]))
              || s.sh.jobs.head.Some?
              || (exists w :: 0 <= w < |s.ws| && (s.ws[w] == Leave(LeaveTest) || s.ws[w] == Leave(LeaveSignal)))
  {
    InvInRun(r, count, i);
    if r[i].sh.flags.active && r[i].sh.jobs.head.Some? { SomebodyLooks(r[i]); }
    if r[i].main == Wait(WaitParked) { SomebodyWorks(r[i]); }
  }

  // ----- Passing on -----

  // A parked worker is woken, if there is one.
  ghost predicate Woken(s: State, s': State) {
    NoneParked(s.ws) ||
    exists v :: 0 <= v < |s.ws| && |s'.ws| == |s.ws| && s.ws[v] == Parked && s'.ws[v] == Look(Waking)
  }

  predicate Passing(pc: WorkerPc) { pc.Take? && (pc.take == TakeLock3 || pc.take == TakeSignal) }

  lemma TakeMoves(s: State, s': State, w: nat)
    requires PhaseOk(s) && Step(s, s') && w < |s.ws| == |s'.ws| && s.ws[w].Take? && s'.ws[w] != s.ws[w]
    ensures s.ws[w].take == TakeTail && s.sh.jobs.head.Some? ==> Passing(s'.ws[w])
    ensures Passing(s.ws[w]) ==> Passing(s'.ws[w]) || Woken(s, s')
  {
    if t, c :| Next(s, t, c) == Some(s') {
      match t
      case MainThread => MainLeavesTakers(s, c, w);
      case WorkerThread(v) =>
        if v == w {
          if s.ws[w].take == TakeSignal && c.Wake? { assert s'.ws[c.who] == Look(Waking); }
        } else {
          OthersLeaveTakers(s, v, c, w);
        }
    }
  }

  lemma MainLeavesTakers(s: State, c: Choice, w: nat)
    requires PhaseOk(s) && MainNext(s, c).Some? && w < |s.ws| && s.ws[w].Take?
    ensures MainNext(s, c).value.ws[w] == s.ws[w]
  {
  }

  lemma OthersLeaveTakers(s: State, v: nat, c: Choice, w: nat)
    requires WorkerNext(s, v, c).Some? && v != w && w < |s.ws| && s.ws[w].Take?
    ensures WorkerNext(s, v, c).value.ws[w] == s.ws[w]
  {
  }

  ghost predicate WakesAt(r: seq<State>, k: nat)
    requires k + 1 < |r|
  {
    Woken(r[k], r[k + 1])
  }

  lemma TakeStep(r: seq<State>, count: nat, k: nat, w: nat)
    requires Run(r, count) && k + 1 < |r| && PcOf(r[k], w).Take? && PcOf(r[k + 1], w) != PcOf(r[k], w)
    ensures PcOf(r[k], w).take == TakeTail && r[k].sh.jobs.head.Some? ==> Passing(PcOf(r[k + 1], w))
    ensures Passing(PcOf(r[k], w)) ==> Passing(PcOf(r[k + 1], w)) || WakesAt(r, k)
  {
    InvInRun(r, count, k);
    InvInRun(r, count, k + 1);
    TakeMoves(r[k], r[k + 1], w);
  }

  // A worker that leaves jobs behind when it takes one wakes another worker, if
  // any is parked, before it starts its own.
  lemma {:induction false} PassesOn(r: seq<State>, count: nat, i: nat, j: nat, w: nat)
    requires Run(r, count) && i < j < |r| && PcOf(r[i], w).Take? && PcOf(r[i], w).take == TakeTail
    requires r[i].sh.jobs.head.Some? && PcOf(r[i + 1], w) != PcOf(r[i], w)
    ensures Passing(PcOf(r[j], w)) || exists k :: i <= k < j && WakesAt(r, k)
    decreases j - i
  {
    var k := j - 1;
    if k == i {
      TakeStep(r, count, k, w);
    } else {
      PassesOn(r, count, i, k, w);
      if Passing(PcOf(r[k], w)) && PcOf(r[j], w) != PcOf(r[k], w) { TakeStep(r, count, k, w); }
    }
  }

  // ----- Conservation and order -----

  // Before deinit frees the queue, pops come out in insertion order and what
  // is left is the chain from `jobs`, with `jobs_tail` its last node whenever
  // lock2 is free; the counters count the workers in their regions.
  lemma FifoAndCounters(r: seq<State>, count: nat, i: nat)
    requires Run(r, count) && i < |r| && !Freeing(r[i].main)
    ensures var s := r[i];
            var q := s.sh.jobs;
            && Removed(q) <= |q.inserted|
            && q.inserted == q.popped + Queue(q)
            && Chain(q.head, q.next, Queue(q)) && NoDup(Queue(q))
            && (s.sh.locks.two.None? ==> q.tail == Last(Queue(q)))
            && s.sh.flags.working == CountIf(s.ws, Counted)
            && s.sh.flags.alive == CountIf(s.ws, Alive)
  {
    InvInRun(r, count, i);
    var q := r[i].sh.jobs;
    assert q.inserted == q.inserted[..Removed(q)] + q.inserted[Removed(q)..];
  }

  predicate HoldsNode(v: View, x: Node) {
    (v.ToInsert? || v.Detaching? || v.FixingTail? || v.Taken?) && v.x == x
  }

  lemma HeldApart(s: State, t: Tid, u: Tid, x: Node)
    requires JobsOk(s) && HoldsNode(ViewOf(s, t), x)
    ensures x in s.sh.jobs.place && x !in Queue(s.sh.jobs) && (HoldsNode(ViewOf(s, u), x) ==> u == t)
  {
    assert HandOk(s.sh.jobs, ViewOf(s, t), t) && HandOk(s.sh.jobs, ViewOf(s, u), u);
  }

  // A queued node is in nobody's hands, and no two threads hold the same node.
  lemma OnePlace(r: seq<State>, count: nat, i: nat, t: Tid, u: Tid)
    requires Run(r, count) && i < |r| && !Freeing(r[i].main)
    ensures Removed(r[i].sh.jobs) <= |r[i].sh.jobs.inserted|
    ensures var s := r[i];
            forall x | HoldsNode(ViewOf(s, t), x) ::
              && x in s.sh.jobs.place && x !in Queue(s.sh.jobs)
              && (HoldsNode(ViewOf(s, u), x) ==> u == t)
  {
    InvInRun(r, count, i);
    forall x | HoldsNode(ViewOf(r[i], t), x)
      ensures x in r[i].sh.jobs.place && x !in Queue(r[i].sh.jobs) && (HoldsNode(ViewOf(r[i], u), x) ==> u == t)
    {
      HeldApart(r[i], t, u, x);
    }
  }

  // ----- Freeing -----

  predicate SameHistory(q: Jobs, q': Jobs) { q'.inserted == q.inserted && q'.popped == q.popped }

  lemma EmptiedMove(pc: MainPc, sh: Shared, count: nat, c: Choice)
    requires MainMove(pc, sh, count, c).Move? && Emptied(pc)
    ensures Emptied(MainMove(pc, sh, count, c).pc) && SameHistory(sh.jobs, MainMove(pc, sh, count, c).sh.jobs)
  {
  }

  lemma EmptiedByWorker(s: State, w: nat, c: Choice)
    requires PhaseOk(s) && Emptied(s.main) && WorkerNext(s, w, c).Some?
    ensures Emptied(WorkerNext(s, w, c).value.main) && SameHistory(s.sh.jobs, WorkerNext(s, w, c).value.sh.jobs)
  {
    ExitSettles(s.ws[w], s.sh, WorkerThread(w), c);
  }

  lemma EmptiedByMain(s: State, c: Choice)
    requires Emptied(s.main) && MainNext(s, c).Some?
    ensures Emptied(MainNext(s, c).value.main) && SameHistory(s.sh.jobs, MainNext(s, c).value.sh.jobs)
  {
    if !s.main.Join? {
      EmptiedMove(s.main, s.sh, |s.ws|, c);
    }
  }

  lemma EmptiedStep(s: State, s': State)
    requires PhaseOk(s) && Step(s, s') && Emptied(s.main)
    ensures Emptied(s'.main) && SameHistory(s.sh.jobs, s'.sh.jobs)
  {
    if t, c :| Next(s, t, c) == Some(s') {
      match t
      case MainThread => EmptiedByMain(s, c);
      case WorkerThread(w) => EmptiedByWorker(s, w, c);
    }
  }

  lemma {:induction false} EmptiedRun(r: seq<State>, count: nat, i: nat, j: nat)
    requires Run(r, count) && i <= j < |r| && Emptied(r[i].main)
    ensures Emptied(r[j].main)
    ensures SameHistory(r[i].sh.jobs, r[j].sh.jobs)
    decreases j - i
  {
    if i < j {
      var k := j - 1;
      EmptiedRun(r, count, i, k);
      InvInRun(r, count, k);
      assert Step(r[k], r[j]);
      EmptiedStep(r[k], r[j]);
    }
  }

  lemma FreedSplit(q: Jobs)
    requires QueueOk(q)
    ensures q.freed + Queue(q) == q.inserted[|q.popped|..]
  {
    assert q.inserted[|q.popped|..Removed(q)] == q.inserted[..Removed(q)][|q.popped|..];
  }

  lemma FreedSoFar(s: State, s': State)
    requires Inv(s) && Inv(s') && s.main == Stop(StopUnlock1)
    requires SameHistory(s.sh.jobs, s'.sh.jobs)
    ensures s'.sh.jobs.freed + Queue(s'.sh.jobs) == Queue(s.sh.jobs) && NoDup(Queue(s.sh.jobs))
    ensures s'.main == Finished ==> Queue(s'.sh.jobs) == []
    ensures s'.main == Finished ==> forall w | 0 <= w < |s'.ws| :: s'.ws[w] == Done
  {
    FreedSplit(s.sh.jobs);
    FreedSplit(s'.sh.jobs);
  }

  // Between the last worker's exit and the end of deinit, the jobs that were
  // still queued are freed, each once and in queue order; when deinit ends,
  // all of them are freed and all workers have exited.
  lemma FreedOnce(r: seq<State>, count: nat, i: nat, j: nat)
    requires Run(r, count) && i <= j < |r| && r[i].main == Stop(StopUnlock1)
    ensures Removed(r[i].sh.jobs) <= |r[i].sh.jobs.inserted| && Removed(r[j].sh.jobs) <= |r[j].sh.jobs.inserted|
    ensures NoDup(Queue(r[i].sh.jobs))
    ensures r[j].sh.jobs.freed + Queue(r[j].sh.jobs) == Queue(r[i].sh.jobs)
    ensures r[j].main == Finished ==> Queue(r[j].sh.jobs) == []
    ensures r[j].main == Finished ==> forall w | 0 <= w < |r[j].ws| :: r[j].ws[w] == Done
  {
    InvInRun(r, count, i);
    InvInRun(r, count, j);
    EmptiedRun(r, count, i, j);
    FreedSoFar(r[i], r[j]);
  }
}
