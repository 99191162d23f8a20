/** `threadpool_wait` always completes. */
module PoolWait {
  import opened Prelude
  import opened PoolModel
  import opened PoolInv
  import opened PoolProof
  import opened PoolSteps
  import opened PoolShutdown

  // ----- How far a worker is from parking, or from the next job -----

  // While a job is queued, a worker that goes through the loop comes to it;
  // `some` says whether one is.
  function LookAhead(pc: LookPc, some: bool): nat {
    match pc
    case LookWait => 1
    case ActiveTest => if some then 7 else 27
    case LookUnlock => if some then 8 else 28
    case TestJobs => if some then 9 else 2
    case TestActive => if some then 10 else 3
    case LookLock => if some then 11 else 4
    case Waking => if some then 11 else 4
    case LoopTest => if some then 12 else 5
  }

  function GetAhead(pc: GetPc, some: bool): nat {
    match pc
    case GetNothing => 21
    case GetAdvance(_) => if some then 1 else 0
    case GetHead => if some then 2 else 22
    case GetLock2 => if some then 3 else 23
  }

  function EnterAhead(pc: EnterPc, some: bool): nat {
    match pc
    case EnterUnlock => if some then 4 else 24
    case EnterCount => if some then 5 else 25
    case EnterLock => if some then 6 else 26
  }

  function LeaveAhead(pc: LeavePc): nat {
    match pc
    case LeaveUnlock => 13
    case LeaveSignal => 17
    case LeaveTest => 18
    case LeaveCount => 19
    case LeaveLock => 20
  }

  function TakeAhead(pc: TakePc): nat {
    match pc
    case TakeUnlock2 => 22
    case TakeUnlock3 => 23
    case TakeSignal => 36
    case TakeLock3 => 37
    case TakeTail => 38
    case TakeDetach => 39
  }

  // What an insertion sets off among `n` workers comes on top.
  function JobAhead(pc: JobPc, n: nat): nat {
    match pc
    case Running => 21
    case FailUnlock => 22
    case FailSet => 23
    case FailLock => 24
    case Inserting(ins, _) =>
      match ins
      case InsUnlock2 => 22
      case InsUnlock3 => 23
      case InsSignal => 36
      case InsLock3 => 37
      case InsSetTail => 38
      case InsMoveTail => 38
      case InsLink => 40 * n + 79
      case InsLock2 => 40 * n + 80
  }

  function Ahead(pc: WorkerPc, some: bool, n: nat): nat {
    match pc
    case Parked => 0
    case Look(look) => LookAhead(look, some)
    case Enter(enter) => EnterAhead(enter, some)
    case Get(get) => GetAhead(get, some)
    case Take(take, _, _) => TakeAhead(take)
    case Job(fn, _) => JobAhead(fn, n)
    case Leave(leave) => LeaveAhead(leave)
    case Boot(boot) => if boot == BootUnlock then 13 else 18
    case _ => 0
  }

  function MainAhead(m: MainPc): nat {
    if !m.Wait? then 0
    else
      match m.wait
      case WaitParked => 0
      case WaitWait => 1
      case WaitUnlock(_) => 1
      case WaitTest => 2
      case WaitLock => 3
      case WaitWaking => 3
  }

  function TotalAhead(ws: seq<WorkerPc>, some: bool, n: nat): nat {
    if |ws| == 0 then 0 else TotalAhead(ws[..|ws| - 1], some, n) + Ahead(ws[|ws| - 1], some, n)
  }

  function Waiting(q: Jobs): int { |q.inserted| - |q.popped| }

  // What `q` queued jobs have ahead of them.
  function QueueAhead(n: nat, q: int): nat {
    if q <= 0 then 0 else QueueAhead(n, q - 1) + 20 * n + 40
  }

  // An upper bound on the steps until `threadpool_wait` returns.
  function StepsAhead(s: State): nat {
    TotalAhead(s.ws, s.sh.jobs.head.Some?, |s.ws|) + QueueAhead(|s.ws|, Waiting(s.sh.jobs)) + MainAhead(s.main)
  }

  lemma {:induction false} AheadUpdate(ws: seq<WorkerPc>, i: nat, pc: WorkerPc, some: bool, n: nat)
    requires i < |ws|
    ensures TotalAhead(ws[i := pc], some, n) == TotalAhead(ws, some, n) - Ahead(ws[i], some, n) + Ahead(pc, some, n)
  {
    var k := |ws| - 1;
    if i == k {
      assert ws[i := pc][..k] == ws[..k];
    } else {
      assert ws[i := pc][..k] == ws[..k][i := pc];
      AheadUpdate(ws[..k], i, pc, some, n);
    }
  }

  // What it costs that the queue gets its first job or loses its last.
  lemma {:induction false} AheadTurns(ws: seq<WorkerPc>, some: bool, some': bool, n: nat)
    ensures TotalAhead(ws, some', n) <= TotalAhead(ws, some, n) + 20 * |ws|
  {
    if |ws| > 0 { AheadTurns(ws[..|ws| - 1], some, some', n); }
  }

  // ----- Every step brings the end nearer -----

  predicate Pops(pc: WorkerPc) { pc.Get? && pc.get.GetAdvance? }

  function SignalAhead(signal: Signal): nat {
    match signal
    case Silent => 0
    case Cond1 => 3
    case Cond2 => 11
  }

  lemma WorkerNearerAtLoop(pc: WorkerPc, sh: Shared, t: Tid, c: Choice, n: nat)
    requires AtLoop(pc) && WorkerMove(pc, sh, t, c).Move? && !Busy(pc, c) && sh.flags.active
    requires !Unstarted(pc) && !pc.Exit? && !Pops(pc) && !Links(pc)
    ensures Ahead(WorkerMove(pc, sh, t, c).pc, sh.jobs.head.Some?, n) + SignalAhead(WorkerMove(pc, sh, t, c).signal) <
            Ahead(pc, sh.jobs.head.Some?, n)
  {
  }

  lemma WorkerNearerAtQueue(pc: WorkerPc, sh: Shared, t: Tid, c: Choice, n: nat)
    requires AtQueue(pc) && WorkerMove(pc, sh, t, c).Move? && !Busy(pc, c) && sh.flags.active
    requires !Unstarted(pc) && !pc.Exit? && !Pops(pc) && !Links(pc)
    ensures Ahead(WorkerMove(pc, sh, t, c).pc, sh.jobs.head.Some?, n) + SignalAhead(WorkerMove(pc, sh, t, c).signal) <
            Ahead(pc, sh.jobs.head.Some?, n)
  {
  }

  lemma WorkerNearerAtInsert(pc: WorkerPc, sh: Shared, t: Tid, c: Choice, n: nat)
    requires AtInsert(pc) && WorkerMove(pc, sh, t, c).Move? && !Busy(pc, c) && sh.flags.active
    requires !Unstarted(pc) && !pc.Exit? && !Pops(pc) && !Links(pc)
    ensures Ahead(WorkerMove(pc, sh, t, c).pc, sh.jobs.head.Some?, n) + SignalAhead(WorkerMove(pc, sh, t, c).signal) <
            Ahead(pc, sh.jobs.head.Some?, n)
  {
  }

  lemma WorkerNearerAtRun(pc: WorkerPc, sh: Shared, t: Tid, c: Choice, n: nat)
    requires AtRun(pc) && WorkerMove(pc, sh, t, c).Move? && !Busy(pc, c) && sh.flags.active
    requires !Unstarted(pc) && !pc.Exit? && !Pops(pc) && !Links(pc)
    ensures Ahead(WorkerMove(pc, sh, t, c).pc, sh.jobs.head.Some?, n) + SignalAhead(WorkerMove(pc, sh, t, c).signal) <
            Ahead(pc, sh.jobs.head.Some?, n)
  {
  }

  lemma WorkerNearerAtEnd(pc: WorkerPc, sh: Shared, t: Tid, c: Choice, n: nat)
    requires AtEnd(pc) && WorkerMove(pc, sh, t, c).Move? && !Busy(pc, c) && sh.flags.active
    requires !Unstarted(pc) && !pc.Exit? && !Pops(pc) && !Links(pc)
    ensures Ahead(WorkerMove(pc, sh, t, c).pc, sh.jobs.head.Some?, n) + SignalAhead(WorkerMove(pc, sh, t, c).signal) <
            Ahead(pc, sh.jobs.head.Some?, n)
  {
  }

  // Any other step of a worker.
  lemma WorkerNearer(pc: WorkerPc, sh: Shared, t: Tid, c: Choice, n: nat)
    requires WorkerMove(pc, sh, t, c).Move? && !Busy(pc, c) && sh.flags.active
    requires !Unstarted(pc) && !pc.Exit? && !Pops(pc) && !Links(pc)
    ensures Ahead(WorkerMove(pc, sh, t, c).pc, sh.jobs.head.Some?, n) + SignalAhead(WorkerMove(pc, sh, t, c).signal) <
            Ahead(pc, sh.jobs.head.Some?, n)
  {
    if AtLoop(pc) {
      WorkerNearerAtLoop(pc, sh, t, c, n);
    } else if AtQueue(pc) {
      WorkerNearerAtQueue(pc, sh, t, c, n);
    } else if AtInsert(pc) {
      WorkerNearerAtInsert(pc, sh, t, c, n);
    } else if AtRun(pc) {
      WorkerNearerAtRun(pc, sh, t, c, n);
    } else {
      WorkerNearerAtEnd(pc, sh, t, c, n);
    }
  }

  lemma QueueStaysAtLoop(pc: WorkerPc, sh: Shared, t: Tid, c: Choice)
    requires AtLoop(pc) && WorkerMove(pc, sh, t, c).Move? && !Pops(pc) && !Links(pc)
    ensures WorkerMove(pc, sh, t, c).sh.jobs.head == sh.jobs.head &&
            Waiting(WorkerMove(pc, sh, t, c).sh.jobs) == Waiting(sh.jobs)
  {
  }

  lemma QueueStaysAtQueue(pc: WorkerPc, sh: Shared, t: Tid, c: Choice)
    requires AtQueue(pc) && WorkerMove(pc, sh, t, c).Move? && !Pops(pc) && !Links(pc)
    ensures WorkerMove(pc, sh, t, c).sh.jobs.head == sh.jobs.head &&
            Waiting(WorkerMove(pc, sh, t, c).sh.jobs) == Waiting(sh.jobs)
  {
  }

  lemma QueueStaysAtInsert(pc: WorkerPc, sh: Shared, t: Tid, c: Choice)
    requires AtInsert(pc) && WorkerMove(pc, sh, t, c).Move? && !Pops(pc) && !Links(pc)
    ensures WorkerMove(pc, sh, t, c).sh.jobs.head == sh.jobs.head &&
            Waiting(WorkerMove(pc, sh, t, c).sh.jobs) == Waiting(sh.jobs)
  {
  }

  lemma QueueStaysAtRun(pc: WorkerPc, sh: Shared, t: Tid, c: Choice)
    requires AtRun(pc) && WorkerMove(pc, sh, t, c).Move? && !Pops(pc) && !Links(pc)
    ensures WorkerMove(pc, sh, t, c).sh.jobs.head == sh.jobs.head &&
            Waiting(WorkerMove(pc, sh, t, c).sh.jobs) == Waiting(sh.jobs)
  {
  }

  lemma QueueStaysAtEnd(pc: WorkerPc, sh: Shared, t: Tid, c: Choice)
    requires AtEnd(pc) && WorkerMove(pc, sh, t, c).Move? && !Pops(pc) && !Links(pc)
    ensures WorkerMove(pc, sh, t, c).sh.jobs.head == sh.jobs.head &&
            Waiting(WorkerMove(pc, sh, t, c).sh.jobs) == Waiting(sh.jobs)
  {
  }

  lemma QueueStays(pc: WorkerPc, sh: Shared, t: Tid, c: Choice)
    requires WorkerMove(pc, sh, t, c).Move? && !Pops(pc) && !Links(pc)
    ensures WorkerMove(pc, sh, t, c).sh.jobs.head == sh.jobs.head &&
            Waiting(WorkerMove(pc, sh, t, c).sh.jobs) == Waiting(sh.jobs)
  {
    if AtLoop(pc) {
      QueueStaysAtLoop(pc, sh, t, c);
    } else if AtQueue(pc) {
      QueueStaysAtQueue(pc, sh, t, c);
    } else if AtInsert(pc) {
      QueueStaysAtInsert(pc, sh, t, c);
    } else if AtRun(pc) {
      QueueStaysAtRun(pc, sh, t, c);
    } else {
      QueueStaysAtEnd(pc, sh, t, c);
    }
  }

  lemma PopsOne(pc: WorkerPc, sh: Shared, t: Tid, c: Choice, n: nat)
    requires Pops(pc) && WorkerMove(pc, sh, t, c).Move?
    ensures
      var m := WorkerMove(pc, sh, t, c);
      && Waiting(m.sh.jobs) == Waiting(sh.jobs) - 1 && m.signal == Silent
      && forall some :: Ahead(m.pc, some, n) == 39
  {
  }

  lemma LinksOne(pc: WorkerPc, sh: Shared, t: Tid, c: Choice, n: nat)
    requires Links(pc) && WorkerMove(pc, sh, t, c).Move?
    ensures
      var m := WorkerMove(pc, sh, t, c);
      && Waiting(m.sh.jobs) == Waiting(sh.jobs) + 1 && m.signal == Silent
      && forall some :: Ahead(m.pc, some, n) == 38
  {
  }

  lemma WakeAhead(ws: seq<WorkerPc>, c: Choice, some: bool, n: nat)
    requires Signal2(ws, c).Some?
    ensures |Signal2(ws, c).value| == |ws|
    ensures TotalAhead(Signal2(ws, c).value, some, n) <= TotalAhead(ws, some, n) + SignalAhead(Cond2)
    ensures forall w | 0 <= w < |ws| && ws[w] != Parked :: Signal2(ws, c).value[w] == ws[w]
  {
    if c.Wake? { AheadUpdate(ws, c.who, Look(Waking), some, n); }
  }

  lemma WhileWaiting(s: State, w: nat)
    requires Inv(s) && s.main.Wait? && w < |s.ws|
    ensures s.sh.flags.active && !Unstarted(s.ws[w]) && !s.ws[w].Exit? && Waiting(s.sh.jobs) >= 0
  {
  }

  lemma QuietStepNearer(s: State, w: nat, c: Choice)
    requires WorkerNext(s, w, c).Some? && !Busy(s.ws[w], c) && !Pops(s.ws[w]) && !Links(s.ws[w])
    requires s.main.Wait? && s.sh.flags.active && !Unstarted(s.ws[w]) && !s.ws[w].Exit?
    ensures StepsAhead(WorkerNext(s, w, c).value) < StepsAhead(s)
  {
    var n, some := |s.ws|, s.sh.jobs.head.Some?;
    var m := WorkerMove(s.ws[w], s.sh, WorkerThread(w), c);
    WorkerNearer(s.ws[w], s.sh, WorkerThread(w), c, n);
    QueueStays(s.ws[w], s.sh, WorkerThread(w), c);
    if m.signal == Cond2 {
      WakeAhead(s.ws, c, some, n);
      AheadUpdate(Signal2(s.ws, c).value, w, m.pc, some, n);
    } else {
      AheadUpdate(s.ws, w, m.pc, some, n);
    }
  }

  lemma QueueStepNearer(s: State, w: nat, c: Choice)
    requires WorkerNext(s, w, c).Some? && Waiting(WorkerNext(s, w, c).value.sh.jobs) >= 0
    requires (Pops(s.ws[w]) && s.sh.jobs.head.Some?) || (Links(s.ws[w]) && Waiting(s.sh.jobs) >= 0)
    ensures StepsAhead(WorkerNext(s, w, c).value) < StepsAhead(s)
  {
    var n, some := |s.ws|, s.sh.jobs.head.Some?;
    var m := WorkerMove(s.ws[w], s.sh, WorkerThread(w), c);
    if Pops(s.ws[w]) {
      PopsOne(s.ws[w], s.sh, WorkerThread(w), c, n);
    } else {
      LinksOne(s.ws[w], s.sh, WorkerThread(w), c, n);
    }
    AheadUpdate(s.ws, w, m.pc, m.sh.jobs.head.Some?, n);
    AheadTurns(s.ws, some, m.sh.jobs.head.Some?, n);
    assert StepsAhead(s) == TotalAhead(s.ws, some, n) + QueueAhead(n, Waiting(s.sh.jobs)) + MainAhead(s.main);
  }

  lemma WorkerStepNearer(s: State, w: nat, c: Choice)
    requires Inv(s) && s.main.Wait? && WorkerNext(s, w, c).Some? && Inv(WorkerNext(s, w, c).value)
    requires !Busy(s.ws[w], c)
    ensures StepsAhead(WorkerNext(s, w, c).value) < StepsAhead(s)
  {
    WhileWaiting(s, w);
    if Pops(s.ws[w]) || Links(s.ws[w]) {
      assert HandOk(s.sh.jobs, ViewOf(s, WorkerThread(w)), WorkerThread(w));
      QueueStepNearer(s, w, c);
    } else {
      QuietStepNearer(s, w, c);
    }
  }

  lemma MainStepNearer(s: State, c: Choice)
    requires s.main.Wait? && MainNext(s, c).Some? && MainNext(s, c).value.main.Wait?
    ensures StepsAhead(MainNext(s, c).value) < StepsAhead(s)
  {
  }

  // ----- What the other steps cost -----

  function ExtraAhead(n: nat): nat { 40 * n + 60 }

  // What `x` of them add to the steps ahead, and take themselves.
  function ExtrasAhead(n: nat, x: nat): nat {
    if x == 0 then 0 else ExtrasAhead(n, x - 1) + ExtraAhead(n) + 1
  }

  lemma BusyAhead(pc: WorkerPc, sh: Shared, t: Tid, c: Choice, n: nat)
    requires Busy(pc, c) && WorkerMove(pc, sh, t, c).Move?
    ensures
      var m := WorkerMove(pc, sh, t, c);
      forall some :: Ahead(m.pc, some, n) <= Ahead(pc, some, n) + ExtraAhead(n) && m.signal == Silent
  {
  }

  lemma BusyStepAhead(s: State, w: nat, c: Choice)
    requires WorkerNext(s, w, c).Some? && Busy(s.ws[w], c)
    ensures StepsAhead(WorkerNext(s, w, c).value) <= StepsAhead(s) + ExtraAhead(|s.ws|)
  {
    var n, some := |s.ws|, s.sh.jobs.head.Some?;
    var m := WorkerMove(s.ws[w], s.sh, WorkerThread(w), c);
    BusyAhead(s.ws[w], s.sh, WorkerThread(w), c, n);
    QueueStays(s.ws[w], s.sh, WorkerThread(w), c);
    AheadUpdate(s.ws, w, m.pc, some, n);
  }

  lemma SpuriousAhead(s: State, t: Tid)
    ensures StepsAhead(Spurious(s, t)) <= StepsAhead(s) + ExtraAhead(|s.ws|)
  {
    if t.WorkerThread? && t.id < |s.ws| {
      AheadUpdate(s.ws, t.id, Look(Waking), s.sh.jobs.head.Some?, |s.ws|);
    }
  }

  lemma StepAhead(s: State, s': State)
    requires Inv(s) && s.main.Wait? && s'.main.Wait? && Step(s, s')
    ensures Inv(s') && |s'.ws| == |s.ws|
    ensures StepsAhead(s') <= StepsAhead(s) + if PlainStep(s, s') then -1 else ExtraAhead(|s.ws|)
  {
    InvByStep(s, s');
    if PlainStep(s, s') {
      var t, c :| Plain(c) && Next(s, t, c) == Some(s');
      NextAhead(s, t, c);
    } else if t, c :| Next(s, t, c) == Some(s') {
      NextAhead(s, t, c);
    } else {
      var t :| s' == Spurious(s, t);
      SpuriousAhead(s, t);
    }
  }

  lemma NextAhead(s: State, t: Tid, c: Choice)
    requires Inv(s) && s.main.Wait? && Next(s, t, c).Some?
    requires Inv(Next(s, t, c).value) && Next(s, t, c).value.main.Wait?
    ensures StepsAhead(Next(s, t, c).value) <= StepsAhead(s) + if Plain(c) then -1 else ExtraAhead(|s.ws|)
  {
    match t
    case MainThread => MainStepNearer(s, c);
    case WorkerThread(w) => if Busy(s.ws[w], c) { BusyStepAhead(s, w, c); } else { WorkerStepNearer(s, w, c); }
  }

  // A run during which main does not leave `threadpool_wait`.
  ghost predicate Waits(tail: seq<State>) {
    Goes(tail) && forall i | 0 <= i < |tail| :: tail[i].main.Wait?
  }

  lemma {:induction false} InvAlong(tail: seq<State>, i: nat)
    requires Goes(tail) && Inv(tail[0]) && i < |tail|
    ensures Inv(tail[i]) && |tail[i].ws| == |tail[0].ws|
  {
    if i > 0 {
      InvAlong(tail, i - 1);
      assert Step(tail[i - 1], tail[i]);
      InvByStep(tail[i - 1], tail[i]);
    }
  }

  // One step brings the end nearer, or is an extra one.
  ghost predicate Nearer(s: State, s': State, n: nat) {
    StepsAhead(s') <= StepsAhead(s) + if PlainStep(s, s') then -1 else ExtraAhead(n)
  }

  ghost predicate AllNearer(tail: seq<State>, n: nat) {
    |tail| > 0 && forall i, j | 0 <= i < |tail| && j == i + 1 < |tail| :: Nearer(tail[i], tail[j], n)
  }

  lemma {:induction false} StepsAreNearer(tail: seq<State>)
    requires Waits(tail) && Inv(tail[0])
    ensures AllNearer(tail, |tail[0].ws|)
  {
    forall i, j | 0 <= i < |tail| && j == i + 1 < |tail| ensures Nearer(tail[i], tail[j], |tail[0].ws|) {
      InvAlong(tail, i);
      assert Step(tail[i], tail[j]);
      StepAhead(tail[i], tail[j]);
    }
  }

  lemma {:induction false} NearerEnds(tail: seq<State>, n: nat)
    requires AllNearer(tail, n)
    ensures |tail| - 1 <= StepsAhead(tail[0]) + ExtrasAhead(n, Extras(tail))
  {
    if |tail| > 1 {
      assert Nearer(tail[0], tail[1], n);
      var rest := tail[1..];
      assert AllNearer(rest, n) by {
        forall i, j | 0 <= i < |rest| && j == i + 1 < |rest| ensures Nearer(rest[i], rest[j], n) {
          assert Nearer(tail[i + 1], tail[j + 1], n);
        }
      }
      NearerEnds(rest, n);
    }
  }

  lemma CanGoOn(s: State)
    requires Inv(s) && |s.ws| > 0 && s.main.Wait?
    ensures exists s' :: PlainStep(s, s')
  {
    SomeEnabled(s);
    var t :| Enabled(s, t);
    var c :| Plain(c) && Next(s, t, c).Some?;
    assert PlainStep(s, Next(s, t, c).value);
  }

  // `threadpool_wait` always completes: a run stays in it for at most
  // `StepsAhead` steps, and a bounded number more for every spurious wake-up and
  // everything job functions do but return; and as long as it has not returned
  // some thread can go on by itself.
  lemma {:induction false} WaitCompletes(r: seq<State>, count: nat, tail: seq<State>)
    requires Run(r, count) && count > 0 && Waits(tail) && tail[0] == r[|r| - 1]
    ensures |tail| - 1 <= StepsAhead(tail[0]) + ExtrasAhead(count, Extras(tail))
    ensures var s := tail[|tail| - 1]; exists s' :: PlainStep(s, s')
  {
    InvAtEnd(r, count);
    StepsAreNearer(tail);
    NearerEnds(tail, count);
    InvAlong(tail, |tail| - 1);
    CanGoOn(tail[|tail| - 1]);
  }
}
