/** The pool never gets stuck, and `threadpool_deinit` always completes. */
module PoolShutdown {
  import opened Prelude
  import opened PoolModel
  import opened PoolInv
  import opened PoolProof
  import opened PoolQueue
  import opened PoolLive
  import opened PoolSteps

  // A choice under which job functions only return and main only goes on.
  predicate Plain(c: Choice) { c.Go? || c.Wake? || c.Return? }

  ghost predicate Enabled(s: State, t: Tid) {
    exists c :: Plain(c) && Next(s, t, c).Some?
  }

  // ----- Some thread can always go on -----

  lemma SignalEnabled(ws: seq<WorkerPc>) returns (c: Choice)
    ensures Plain(c) && Signal2(ws, c).Some?
  {
    if NoneParked(ws) {
      c := Go;
    } else {
      var w :| 0 <= w < |ws| && ws[w] == Parked;
      c := Wake(w);
    }
  }

  // Points whose move does not depend on what a job function picks.
  lemma WorkerEnabled(s: State, w: nat, c: Choice)
    requires w < |s.ws| && Plain(c) && WorkerMove(s.ws[w], s.sh, WorkerThread(w), c).Move?
    requires s.ws[w].Job? && s.ws[w].fn.Running? ==> c.Return?
    ensures Enabled(s, WorkerThread(w))
  {
    var t := WorkerThread(w);
    if WorkerMove(s.ws[w], s.sh, t, c).signal == Cond2 {
      var d := SignalEnabled(s.ws);
      assert WorkerMove(s.ws[w], s.sh, t, d) == WorkerMove(s.ws[w], s.sh, t, c);
      assert Next(s, t, d).Some?;
    } else {
      assert Next(s, t, c).Some?;
    }
  }

  lemma MainEnabled(s: State)
    requires !s.main.Spawn? && !s.main.Join? && !s.main.Idle?
    requires MainMove(s.main, s.sh, |s.ws|, Go).Move?
    ensures Enabled(s, MainThread)
  {
    if MainMove(s.main, s.sh, |s.ws|, Go).signal == Cond2 {
      var d := SignalEnabled(s.ws);
      assert MainMove(s.main, s.sh, |s.ws|, d) == MainMove(s.main, s.sh, |s.ws|, Go);
      assert Next(s, MainThread, d).Some?;
    } else {
      assert Next(s, MainThread, Go).Some?;
    }
  }

  function PickOf(pc: WorkerPc): Choice { if pc.Job? && pc.fn.Running? then Return else Go }

  lemma LinksAreLive(q: Jobs, v: View, t: Tid)
    requires QueueOk(q) && q.freed == [] && HandOk(q, v, t) && TailOk(q, v)
    ensures v.ToInsert? ==> Link(q, v.x).Some?
    ensures v.MovingTail? ==> q.tail.Some? && q.tail.value in q.next
    ensures v.Advancing? ==> Pop(q, t, v.x).Some?
  {
    if v.ToInsert? {
      LinkKeeps(q, v.x, t);
    } else if v.Advancing? {
      PopKeeps(q, v.x, t);
    } else if v.MovingTail? {
      assert Queue(q)[|Queue(q)| - 2] in q.next;
    }
  }

  // The lock that a worker asks for next is free.
  predicate NextLocks(l: Locks, pc: WorkerPc) {
    && (Wants1(pc) ==> l.one.None?)
    && (Wants2(pc) ==> l.two.None?)
    && (Wants3(pc) ==> l.three.None?)
  }

  predicate Wants1(pc: WorkerPc) {
    pc == Boot(BootLock) || pc == Enter(EnterLock) || pc == Leave(LeaveLock) || pc == Exit(ExitLock) ||
    (pc.Job? && pc.fn.FailLock?)
  }

  predicate Wants2(pc: WorkerPc) {
    pc == Get(GetLock2) || (pc.Job? && pc.fn.Inserting? && pc.fn.ins.InsLock2?)
  }

  predicate Wants3(pc: WorkerPc) {
    pc == Look(LookLock) || pc == Look(Waking) || (pc.Take? && pc.take.TakeLock3?) ||
    (pc.Job? && pc.fn.Inserting? && pc.fn.ins.InsLock3?)
  }

  predicate NextQueue(q: Jobs, v: View, t: Tid) {
    && (v.ToInsert? ==> Link(q, v.x).Some?)
    && (v.MovingTail? ==> q.tail.Some? && q.tail.value in q.next)
    && (v.Advancing? ==> Pop(q, t, v.x).Some?)
  }

  lemma WorkerCanMove(pc: WorkerPc, sh: Shared, t: Tid)
    requires !pc.Unborn? && !pc.Parked? && !pc.Done?
    requires NextLocks(sh.locks, pc) && NextQueue(sh.jobs, WorkerView(pc), t)
    ensures WorkerMove(pc, sh, t, PickOf(pc)).Move?
  {
    match pc
    case Boot(b) =>
    case Look(b) =>
    case Enter(b) =>
    case Get(b) =>
    case Take(b, x, i) =>
    case Job(b, i) =>
    case Leave(b) =>
    case Exit(b) =>
  }

  lemma WorkerCanStep(s: State, w: nat)
    requires LocksOk(s) && JobsOk(s) && PhaseOk(s) && w < |s.ws|
    requires !s.ws[w].Unborn? && !s.ws[w].Parked? && !s.ws[w].Done?
    requires NextLocks(s.sh.locks, s.ws[w])
    ensures Enabled(s, WorkerThread(w))
  {
    var t, v := WorkerThread(w), WorkerView(s.ws[w]);
    assert HandOk(s.sh.jobs, ViewOf(s, t), t);
    if !v.Nothing? && !(v.ToInsert? && s.ws[w].fn.ins.InsLock2?) {
      assert s.sh.locks.two == Some(t);
      LinksAreLive(s.sh.jobs, v, t);
      WorkerCanMove(s.ws[w], s.sh, t);
    } else {
      assert WorkerMove(s.ws[w], s.sh, t, PickOf(s.ws[w])).Move?;
    }
    WorkerEnabled(s, w, PickOf(s.ws[w]));
  }

  lemma MainCanStep(s: State)
    requires LocksOk(s) && JobsOk(s) && !s.main.Spawn? && !s.main.Join? && !s.main.Idle? && !s.main.Finished?
    requires s.main != Init(InitParked) && s.main != Wait(WaitParked) && s.main != Stop(StopParked)
    requires s.sh.locks.three.None? || MainHolds3(s.main)
    requires s.sh.locks.two.None? || MainHolds2(s.main) || !s.main.Adding?
    requires s.sh.locks.one.None? || MainHolds1(s.main) || s.main.Adding? || s.main.FreeJobs?
    ensures Enabled(s, MainThread)
  {
    var q, v := s.sh.jobs, MainView(s.main);
    assert HandOk(q, ViewOf(s, MainThread), MainThread);
    if s.main.Adding? && !s.main.ins.InsLock2? {
      LinksAreLive(q, v, MainThread);
    } else if s.main.FreeJobs? && q.head.Some? {
      FreeKeeps(q);
    }
    MainEnabled(s);
  }

  // A thread that holds a lock and is not waiting for a held one can go on.
  lemma MainHolderCanStep(s: State)
    requires LocksOk(s) && JobsOk(s)
    requires s.sh.locks.three == Some(MainThread) ||
             (s.sh.locks.three.None? && (s.sh.locks.two == Some(MainThread) || s.sh.locks.one == Some(MainThread)))
    ensures Enabled(s, MainThread)
  {
    MainCanStep(s);
  }

  lemma WorkerHolderCanStep(s: State, w: nat)
    requires LocksOk(s) && JobsOk(s) && PhaseOk(s)
    requires var t := WorkerThread(w);
             s.sh.locks.three == Some(t) ||
             (s.sh.locks.three.None? && (s.sh.locks.two == Some(t) || s.sh.locks.one == Some(t)))
    ensures Enabled(s, WorkerThread(w))
  {
    WorkerCanStep(s, w);
  }

  lemma HolderCanStep(s: State, t: Tid)
    requires Inv(s)
    requires s.sh.locks.three == Some(t) ||
             (s.sh.locks.three.None? && (s.sh.locks.two == Some(t) || s.sh.locks.one == Some(t)))
    ensures Enabled(s, t)
  {
    match t
    case MainThread => MainHolderCanStep(s);
    case WorkerThread(w) => WorkerHolderCanStep(s, w);
  }

  predicate Resting(pc: WorkerPc) { pc.Unborn? || pc.Parked? || pc.Done? }

  // With all workers at rest, main is not parked.
  lemma RestingNotWaiting(s: State)
    requires CountsOk(s) && WakeOk(s) && WaitOk(s) && s.sh.flags.active && |s.ws| > 0
    requires s.sh.locks == Locks(None, None, None) && forall w | 0 <= w < |s.ws| :: Resting(s.ws[w])
    requires s.main.Wait? ==> forall w | 0 <= w < |s.ws| :: s.ws[w] == Parked
    ensures s.main != Wait(WaitParked)
  {
    CountIfExtremes(s.ws, Counted);
    forall t ensures s.main.Wait? ==> !Announcing(s, t) {}
  }

  lemma RestingNotStarting(s: State)
    requires CountsOk(s) && InitOk(s) && StopOk(s) && |s.ws| > 0 && s.sh.locks == Locks(None, None, None)
    requires forall w | 0 <= w < |s.ws| :: s.ws[w].Parked? || s.ws[w].Done?
    requires s.main.Init? ==> forall w | 0 <= w < |s.ws| :: s.ws[w] == Parked
    ensures s.main != Init(InitParked) && s.main != Stop(StopParked)
  {
    CountIfExtremes(s.ws, Alive);
  }

  lemma RestingSpawnOrJoin(s: State)
    requires PhaseOk(s) && (s.main.Spawn? || s.main.Join?) && forall w | 0 <= w < |s.ws| :: Resting(s.ws[w])
    ensures Enabled(s, MainThread)
  {
    assert s.main.Join? ==> forall w | 0 <= w < |s.ws| :: Gone(s.ws[w]) && s.ws[w].Done?;
    assert Next(s, MainThread, Go).Some?;
  }

  lemma RestingMain(s: State)
    requires Inv(s) && |s.ws| > 0 && !s.main.Idle? && !s.main.Finished?
    requires s.sh.locks == Locks(None, None, None)
    requires forall w | 0 <= w < |s.ws| :: Resting(s.ws[w])
    ensures Enabled(s, MainThread)
  {
    if s.main.Spawn? || s.main.Join? {
      RestingSpawnOrJoin(s);
    } else {
      RestingNotStarting(s);
      if s.main.Wait? { RestingNotWaiting(s); }
      MainCanStep(s);
    }
  }

  // In every reachable state of a pool with workers some thread can go on by
  // itself, with no spurious wake-up and no new job, unless main is in its own
  // code or has finished: the lock waits form no cycle and no wake-up is missing.
  lemma NoDeadlock(r: seq<State>, count: nat, i: nat)
    requires Run(r, count) && i < |r| && count > 0 && !r[i].main.Idle? && !r[i].main.Finished?
    ensures exists t :: Enabled(r[i], t)
  {
    InvInRun(r, count, i);
    SomeEnabled(r[i]);
  }

  lemma SomeEnabled(s: State)
    requires Inv(s) && |s.ws| > 0 && !s.main.Idle? && !s.main.Finished?
    ensures exists t :: Enabled(s, t)
  {
    var l := s.sh.locks;
    if l.three.Some? {
      HolderCanStep(s, l.three.value);
    } else if l.two.Some? {
      HolderCanStep(s, l.two.value);
    } else if l.one.Some? {
      HolderCanStep(s, l.one.value);
    } else if w :| 0 <= w < |s.ws| && !Resting(s.ws[w]) {
      WorkerCanStep(s, w);
    } else {
      RestingMain(s);
    }
  }

  predicate MainWants1(m: MainPc) {
    m in {Init(InitLock), Init(InitWaking), Wait(WaitLock), Wait(WaitWaking), Stop(StopLock1), Stop(StopWaking)}
  }

  // In every run, the thread that is inside `threadpool_insert` or
  // `threadpool_get` never dereferences NULL.
  lemma NoNull(r: seq<State>, count: nat, i: nat, t: Tid)
    requires Run(r, count) && i < |r| && !Freeing(r[i].main) && r[i].sh.locks.two == Some(t)
    ensures var v, q := ViewOf(r[i], t), r[i].sh.jobs;
            && (v.ToInsert? ==> Link(q, v.x).Some?)
            && (v.MovingTail? ==> q.tail.Some? && q.tail.value in q.next)
            && (v.Advancing? ==> Pop(q, t, v.x).Some?)
  {
    InvInRun(r, count, i);
    var s := r[i];
    assert HandOk(s.sh.jobs, ViewOf(s, t), t);
    LinksAreLive(s.sh.jobs, ViewOf(s, t), t);
  }

  ghost predicate WorkerInOrder(l: Locks, pc: WorkerPc, t: Tid) {
    && (Wants1(pc) || Wants2(pc) ==> l.one != Some(t) && l.two != Some(t) && l.three != Some(t))
    && (Wants3(pc) ==> l.three != Some(t))
  }

  ghost predicate MainInOrder(l: Locks, m: MainPc) {
    && (MainWants1(m) || (m.Adding? && m.ins == InsLock2) ==>
          l.one != Some(MainThread) && l.two != Some(MainThread) && l.three != Some(MainThread))
    && (m == Stop(StopLock3) || (m.Adding? && m.ins == InsLock3) ==> l.three != Some(MainThread))
  }

  lemma MainKeepsOrder(s: State)
    requires LocksOk(s)
    ensures MainInOrder(s.sh.locks, s.main)
  {
  }

  lemma WorkerKeepsOrder(s: State, w: nat)
    requires LocksOk(s) && w < |s.ws|
    ensures WorkerInOrder(s.sh.locks, s.ws[w], WorkerThread(w))
  {
  }

  // lock1 and lock2 each come before lock3: a thread asks for one of the first
  // two only while it holds no lock, and for lock3 only while it does not hold it.
  lemma LockOrder(r: seq<State>, count: nat, i: nat)
    requires Run(r, count) && i < |r|
    ensures forall w | 0 <= w < |r[i].ws| :: WorkerInOrder(r[i].sh.locks, r[i].ws[w], WorkerThread(w))
    ensures MainInOrder(r[i].sh.locks, r[i].main)
  {
    InvInRun(r, count, i);
    forall w | 0 <= w < |r[i].ws| ensures WorkerInOrder(r[i].sh.locks, r[i].ws[w], WorkerThread(w)) {
      WorkerKeepsOrder(r[i], w);
    }
    MainKeepsOrder(r[i]);
  }

  // ----- Shutdown terminates -----

  // How many steps a worker has left once `active` is false, when job
  // functions do nothing but return.
  function WorkerLeft(pc: WorkerPc): nat {
    match pc
    case Done => 0
    case Unborn => 0
    case Exit(ExitUnlock) => 1
    case Exit(ExitSignal) => 2
    case Exit(ExitCount) => 3
    case Exit(ExitLock) => 4
    case Look(LoopTest) => 5
    case Look(ActiveTest) => 5
    case Look(LookUnlock) => 6
    case Look(TestActive) => 7
    case Look(LookLock) => 8
    case Look(Waking) => 8
    case Parked => 9
    case Look(LookWait) => 10
    case Look(TestJobs) => 11
    case Boot(BootUnlock) => 6
    case Boot(BootSignal) => 7
    case Boot(BootCount) => 8
    case Boot(BootLock) => 9
    case Leave(LeaveUnlock) => 6
    case Leave(LeaveSignal) => 7
    case Leave(LeaveTest) => 8
    case Leave(LeaveCount) => 9
    case Leave(LeaveLock) => 10
    case Job(fn, _) => JobLeft(fn)
    case Take(take, _, _) => TakeLeft(take)
    case Get(GetNothing) => 11
    case Get(GetAdvance(_)) => 18
    case Get(GetHead) => 19
    case Get(GetLock2) => 20
    case Enter(EnterUnlock) => 21
    case Enter(EnterCount) => 22
    case Enter(EnterLock) => 23
  }

  function JobLeft(fn: JobPc): nat {
    match fn
    case Running => 11
    case FailUnlock => 12
    case FailSet => 13
    case FailLock => 14
    case Inserting(ins, _) =>
      match ins
      case InsUnlock2 => 12
      case InsUnlock3 => 13
      case InsSignal => 14
      case InsLock3 => 15
      case InsSetTail => 16
      case InsMoveTail => 16
      case InsLink => 17
      case InsLock2 => 18
  }

  function TakeLeft(take: TakePc): nat {
    match take
    case TakeUnlock2 => 12
    case TakeUnlock3 => 13
    case TakeSignal => 14
    case TakeLock3 => 15
    case TakeTail => 16
    case TakeDetach => 17
  }

  function MainLeft(m: MainPc): nat {
    match m
    case Stop(StopLock1) => 8
    case Stop(StopWaking) => 8
    case Stop(StopTest) => 7
    case Stop(StopLock3) => 6
    case Stop(StopSignal) => 5
    case Stop(StopUnlock3) => 4
    case Stop(StopWait) => 3
    case Stop(StopParked) => 2
    case Stop(StopUnlock1) => 3
    case FreeJobs => 2
    case Join => 1
    case _ => 0
  }

  function TotalLeft(ws: seq<WorkerPc>): nat {
    if |ws| == 0 then 0 else TotalLeft(ws[..|ws| - 1]) + WorkerLeft(ws[|ws| - 1])
  }

  lemma {:induction false} TotalUpdate(ws: seq<WorkerPc>, i: nat, pc: WorkerPc)
    requires i < |ws|
    ensures TotalLeft(ws[i := pc]) == TotalLeft(ws) - WorkerLeft(ws[i]) + WorkerLeft(pc)
  {
    var n := |ws| - 1;
    if i == n {
      assert ws[i := pc][..n] == ws[..n];
    } else {
      assert ws[i := pc][..n] == ws[..n][i := pc];
      TotalUpdate(ws[..n], i, pc);
    }
  }

  // An upper bound on the steps until deinit returns.
  function Left(s: State): int {
    10 * TotalLeft(s.ws) + MainLeft(s.main) + |s.sh.jobs.inserted| - Removed(s.sh.jobs)
  }

  predicate QueueLeft(q: Jobs, q': Jobs, links: bool) {
    && |q'.freed| == |q.freed|
    && (if links then |q'.inserted| == |q.inserted| + 1 && q'.popped == q.popped
        else q'.inserted == q.inserted && |q'.popped| >= |q.popped|)
  }

  predicate Links(pc: WorkerPc) { pc.Job? && pc.fn.Inserting? && pc.fn.ins == InsLink }

  // A job function that does anything but return.
  predicate Busy(pc: WorkerPc, c: Choice) { pc.Job? && pc.fn.Running? && !Plain(c) }

  lemma WorkerLessAtLoop(pc: WorkerPc, sh: Shared, t: Tid, c: Choice)
    requires AtLoop(pc) && WorkerMove(pc, sh, t, c).Move? && !Busy(pc, c) && !sh.flags.active
    ensures WorkerLeft(WorkerMove(pc, sh, t, c).pc) < WorkerLeft(pc)
  {
  }

  lemma WorkerLessAtQueue(pc: WorkerPc, sh: Shared, t: Tid, c: Choice)
    requires AtQueue(pc) && WorkerMove(pc, sh, t, c).Move? && !Busy(pc, c) && !sh.flags.active
    ensures WorkerLeft(WorkerMove(pc, sh, t, c).pc) < WorkerLeft(pc)
  {
  }

  lemma WorkerLessAtInsert(pc: WorkerPc, sh: Shared, t: Tid, c: Choice)
    requires AtInsert(pc) && WorkerMove(pc, sh, t, c).Move? && !Busy(pc, c) && !sh.flags.active
    ensures WorkerLeft(WorkerMove(pc, sh, t, c).pc) < WorkerLeft(pc)
  {
  }

  lemma WorkerLessAtRun(pc: WorkerPc, sh: Shared, t: Tid, c: Choice)
    requires AtRun(pc) && WorkerMove(pc, sh, t, c).Move? && !Busy(pc, c) && !sh.flags.active
    ensures WorkerLeft(WorkerMove(pc, sh, t, c).pc) < WorkerLeft(pc)
  {
  }

  lemma WorkerLessAtEnd(pc: WorkerPc, sh: Shared, t: Tid, c: Choice)
    requires AtEnd(pc) && WorkerMove(pc, sh, t, c).Move? && !Busy(pc, c) && !sh.flags.active
    ensures WorkerLeft(WorkerMove(pc, sh, t, c).pc) < WorkerLeft(pc)
  {
  }

  lemma WorkerLess(pc: WorkerPc, sh: Shared, t: Tid, c: Choice)
    requires WorkerMove(pc, sh, t, c).Move? && !Busy(pc, c) && !sh.flags.active
    ensures WorkerLeft(WorkerMove(pc, sh, t, c).pc) < WorkerLeft(pc)
  {
    if AtLoop(pc) {
      WorkerLessAtLoop(pc, sh, t, c);
    } else if AtQueue(pc) {
      WorkerLessAtQueue(pc, sh, t, c);
    } else if AtInsert(pc) {
      WorkerLessAtInsert(pc, sh, t, c);
    } else if AtRun(pc) {
      WorkerLessAtRun(pc, sh, t, c);
    } else {
      WorkerLessAtEnd(pc, sh, t, c);
    }
  }

  lemma WorkerQueueLeftAtLoop(pc: WorkerPc, sh: Shared, t: Tid, c: Choice)
    requires AtLoop(pc) && WorkerMove(pc, sh, t, c).Move?
    ensures QueueLeft(sh.jobs, WorkerMove(pc, sh, t, c).sh.jobs, Links(pc))
  {
  }

  lemma WorkerQueueLeftAtQueue(pc: WorkerPc, sh: Shared, t: Tid, c: Choice)
    requires AtQueue(pc) && WorkerMove(pc, sh, t, c).Move?
    ensures QueueLeft(sh.jobs, WorkerMove(pc, sh, t, c).sh.jobs, Links(pc))
  {
  }

  lemma WorkerQueueLeftAtInsert(pc: WorkerPc, sh: Shared, t: Tid, c: Choice)
    requires AtInsert(pc) && WorkerMove(pc, sh, t, c).Move?
    ensures QueueLeft(sh.jobs, WorkerMove(pc, sh, t, c).sh.jobs, Links(pc))
  {
  }

  lemma WorkerQueueLeftAtRun(pc: WorkerPc, sh: Shared, t: Tid, c: Choice)
    requires AtRun(pc) && WorkerMove(pc, sh, t, c).Move?
    ensures QueueLeft(sh.jobs, WorkerMove(pc, sh, t, c).sh.jobs, Links(pc))
  {
  }

  lemma WorkerQueueLeftAtEnd(pc: WorkerPc, sh: Shared, t: Tid, c: Choice)
    requires AtEnd(pc) && WorkerMove(pc, sh, t, c).Move?
    ensures QueueLeft(sh.jobs, WorkerMove(pc, sh, t, c).sh.jobs, Links(pc))
  {
  }

  lemma WorkerQueueLeft(pc: WorkerPc, sh: Shared, t: Tid, c: Choice)
    requires WorkerMove(pc, sh, t, c).Move?
    ensures QueueLeft(sh.jobs, WorkerMove(pc, sh, t, c).sh.jobs, Links(pc))
  {
    if AtLoop(pc) {
      WorkerQueueLeftAtLoop(pc, sh, t, c);
    } else if AtQueue(pc) {
      WorkerQueueLeftAtQueue(pc, sh, t, c);
    } else if AtInsert(pc) {
      WorkerQueueLeftAtInsert(pc, sh, t, c);
    } else if AtRun(pc) {
      WorkerQueueLeftAtRun(pc, sh, t, c);
    } else {
      WorkerQueueLeftAtEnd(pc, sh, t, c);
    }
  }

  // It has at most an insertion ahead of it.
  lemma WorkerBusy(pc: WorkerPc, sh: Shared, t: Tid, c: Choice)
    requires Busy(pc, c) && WorkerMove(pc, sh, t, c).Move?
    ensures var m := WorkerMove(pc, sh, t, c); WorkerLeft(m.pc) <= WorkerLeft(pc) + 7 && m.signal.Silent?
  {
  }

  lemma MainLess(pc: MainPc, sh: Shared, count: nat, c: Choice)
    requires Stopping(pc) && MainMove(pc, sh, count, c).Move?
    ensures var m := MainMove(pc, sh, count, c);
            && Stopping(m.pc)
            && m.sh.jobs.inserted == sh.jobs.inserted && m.sh.jobs.popped == sh.jobs.popped
            && MainLeft(m.pc) - |m.sh.jobs.freed| < MainLeft(pc) - |sh.jobs.freed|
  {
  }

  // Main's way from `StopParked` to `StopWaking` costs less than the
  // signalling worker's step gains.
  lemma SignalCost(m: MainPc)
    ensures MainLeft(Signal1(m)) <= MainLeft(m) + 6 && (Stopping(m) ==> Stopping(Signal1(m)))
  {
  }

  lemma WakeGains(ws: seq<WorkerPc>, c: Choice)
    requires Signal2(ws, c).Some?
    ensures |Signal2(ws, c).value| == |ws| && TotalLeft(Signal2(ws, c).value) <= TotalLeft(ws)
    ensures forall w | 0 <= w < |ws| && ws[w] != Parked :: Signal2(ws, c).value[w] == ws[w]
  {
    if c.Wake? {
      TotalUpdate(ws, c.who, Look(Waking));
    }
  }

  lemma WorkerNextLess(s: State, w: nat, c: Choice)
    requires Inv(s) && Stopping(s.main) && WorkerNext(s, w, c).Some? && !Busy(s.ws[w], c)
    ensures Stopping(WorkerNext(s, w, c).value.main)
    ensures Left(WorkerNext(s, w, c).value) < Left(s)
  {
    var m := WorkerMove(s.ws[w], s.sh, WorkerThread(w), c);
    WorkerLess(s.ws[w], s.sh, WorkerThread(w), c);
    WorkerQueueLeft(s.ws[w], s.sh, WorkerThread(w), c);
    SignalCost(s.main);
    if m.signal == Cond2 {
      WakeGains(s.ws, c);
      TotalUpdate(Signal2(s.ws, c).value, w, m.pc);
    } else {
      TotalUpdate(s.ws, w, m.pc);
    }
  }

  lemma MainNextLess(s: State, c: Choice)
    requires Inv(s) && Stopping(s.main) && MainNext(s, c).Some?
    ensures Stopping(MainNext(s, c).value.main)
    ensures Left(MainNext(s, c).value) < Left(s)
  {
    if !s.main.Join? {
      MainLess(s.main, s.sh, |s.ws|, c);
      if MainMove(s.main, s.sh, |s.ws|, c).signal == Cond2 {
        WakeGains(s.ws, c);
      }
    }
  }

  // Any run, from any state.
  ghost predicate Goes(r: seq<State>) {
    && |r| > 0
    && forall i, j | 0 <= i < |r| && j == i + 1 < |r| :: Step(r[i], r[j])
  }

  // How many of its steps are spurious wake-ups or job functions that do
  // something else than return.
  ghost function Extras(r: seq<State>): nat {
    if |r| < 2 then 0 else Extras(r[1..]) + if PlainStep(r[0], r[1]) then 0 else 1
  }

  // Threads only go on by themselves.
  ghost predicate PlainStep(s: State, s': State) {
    exists t, c :: Plain(c) && Next(s, t, c) == Some(s')
  }

  lemma PlainStepLess(s: State, s': State)
    requires Inv(s) && Stopping(s.main) && PlainStep(s, s')
    ensures Inv(s') && |s'.ws| == |s.ws| && Stopping(s'.main) && 0 <= Left(s') < Left(s)
  {
    var t, c :| Plain(c) && Next(s, t, c) == Some(s');
    InvByNext(s, t, c);
    match t
    case MainThread => MainNextLess(s, c);
    case WorkerThread(w) => WorkerNextLess(s, w, c);
  }

  // What any other step costs.
  const EXTRA := 70

  lemma BusyStepCosts(s: State, w: nat, c: Choice)
    requires Inv(s) && Stopping(s.main) && WorkerNext(s, w, c).Some? && Busy(s.ws[w], c)
    ensures Stopping(WorkerNext(s, w, c).value.main) && Left(WorkerNext(s, w, c).value) <= Left(s) + EXTRA
  {
    var m := WorkerMove(s.ws[w], s.sh, WorkerThread(w), c);
    WorkerBusy(s.ws[w], s.sh, WorkerThread(w), c);
    WorkerQueueLeft(s.ws[w], s.sh, WorkerThread(w), c);
    TotalUpdate(s.ws, w, m.pc);
  }

  lemma SpuriousCosts(s: State, t: Tid)
    requires Stopping(s.main)
    ensures Stopping(Spurious(s, t).main) && Left(Spurious(s, t)) <= Left(s) + EXTRA
  {
    match t
    case MainThread => SignalCost(s.main);
    case WorkerThread(w) => if w < |s.ws| { TotalUpdate(s.ws, w, Look(Waking)); }
  }

  lemma StepCosts(s: State, s': State)
    requires Inv(s) && Stopping(s.main) && Step(s, s')
    ensures Inv(s') && |s'.ws| == |s.ws| && Stopping(s'.main)
    ensures Left(s') <= Left(s) + if PlainStep(s, s') then -1 else EXTRA
  {
    InvByStep(s, s');
    if PlainStep(s, s') {
      PlainStepLess(s, s');
    } else if t, c :| Next(s, t, c) == Some(s') {
      match t
      case MainThread => MainNextLess(s, c);
      case WorkerThread(w) => if Busy(s.ws[w], c) { BusyStepCosts(s, w, c); } else { WorkerNextLess(s, w, c); }
    } else {
      var t :| s' == Spurious(s, t);
      SpuriousCosts(s, t);
    }
  }

  // `threadpool_deinit` always completes: once main has cleared `active`, a run
  // takes at most `Left` steps, and a bounded number more for every spurious
  // wake-up and everything job functions do but return; and the only state in
  // which nobody can go on is the one where deinit has returned.
  lemma {:induction false} ShutdownCompletes(r: seq<State>, count: nat, tail: seq<State>)
    requires Run(r, count) && count > 0 && Goes(tail) && tail[0] == r[|r| - 1] && Stopping(tail[0].main)
    ensures |tail| - 1 <= Left(tail[0]) + (EXTRA + 1) * Extras(tail)
    ensures var s := tail[|tail| - 1]; s.main.Finished? || exists s' :: PlainStep(s, s')
  {
    InvAtEnd(r, count);
    ShutdownFrom(tail);
  }

  lemma StepOrFinished(s: State)
    requires Inv(s) && |s.ws| > 0 && Stopping(s.main)
    ensures s.main.Finished? || exists s' :: PlainStep(s, s')
    ensures Left(s) >= 0
  {
    if !s.main.Finished? {
      SomeEnabled(s);
      var t :| Enabled(s, t);
      var c :| Plain(c) && Next(s, t, c).Some?;
      assert PlainStep(s, Next(s, t, c).value);
    }
  }

  lemma {:induction false} ShutdownFrom(tail: seq<State>)
    requires Goes(tail) && Inv(tail[0]) && |tail[0].ws| > 0 && Stopping(tail[0].main)
    ensures |tail| - 1 <= Left(tail[0]) + (EXTRA + 1) * Extras(tail)
    ensures var s := tail[|tail| - 1]; s.main.Finished? || exists s' :: PlainStep(s, s')
  {
    if |tail| == 1 {
      StepOrFinished(tail[0]);
    } else {
      assert Step(tail[0], tail[1]);
      StepCosts(tail[0], tail[1]);
      RestGoes(tail);
      ShutdownFrom(tail[1..]);
    }
  }

  lemma RestGoes(tail: seq<State>)
    requires Goes(tail) && |tail| > 1
    ensures Goes(tail[1..])
  {
    forall i, j | 0 <= i < |tail| - 1 && j == i + 1 < |tail| - 1
      ensures Step(tail[1..][i], tail[1..][j])
    {
      assert Step(tail[i + 1], tail[j + 1]);
    }
  }
}
