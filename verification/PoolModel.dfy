/** The thread pool runtime that the code generator embeds in every async
    program: one main thread and a fixed number of workers around a linked job
    queue, three mutexes and two condition variables.

    Every access to a field that another thread may touch at the same time is
    one step.  A test and the write that follows it are one step only when the
    lock held across them keeps every other writer out.  Reads are sequentially
    consistent, a signal wakes one parked thread if there is one, and a parked
    thread may also wake spuriously at any moment. */
module PoolModel {
  import opened Prelude

  type Node = nat

  datatype Tid = MainThread | WorkerThread(id: nat)

  // ----- Program points -----

  // `threadpool_insert`, run by main and by job functions alike.
  datatype InsertPc =
    | InsLock2 | InsLink | InsSetTail | InsMoveTail | InsLock3 | InsSignal | InsUnlock3 | InsUnlock2

  datatype BootPc = BootLock | BootCount | BootSignal | BootUnlock

  // The loop head of `threadpool_worker`, up to `if (!self->active) break`.
  datatype LookPc =
    | LoopTest | LookLock | TestActive | TestJobs | LookWait | Waking | LookUnlock | ActiveTest

  datatype EnterPc = EnterLock | EnterCount | EnterUnlock

  // `threadpool_get` before and after it has taken a job off the queue.
  datatype GetPc = GetLock2 | GetHead | GetAdvance(job: Node) | GetNothing

  datatype TakePc = TakeDetach | TakeTail | TakeLock3 | TakeSignal | TakeUnlock3 | TakeUnlock2

  datatype JobPc = Running | Inserting(ins: InsertPc, node: Node) | FailLock | FailSet | FailUnlock

  datatype LeavePc = LeaveLock | LeaveCount | LeaveTest | LeaveSignal | LeaveUnlock

  datatype ExitPc = ExitLock | ExitCount | ExitSignal | ExitUnlock

  // `threadpool_worker`, with `threadpool_get` and the job function inlined.
  // A ticket is the position, among all pops so far, of the job in hand.
  datatype WorkerPc =
    | Unborn
    | Boot(boot: BootPc)
    | Look(look: LookPc)
    | Parked
    | Enter(enter: EnterPc)
    | Get(get: GetPc)
    | Take(take: TakePc, job: Node, ticket: nat)
    | Job(fn: JobPc, ticket: nat)
    | Leave(leave: LeavePc)
    | Exit(exit: ExitPc)
    | Done

  datatype InitPc = InitLock | InitTest | InitWait | InitParked | InitWaking | InitUnlock

  datatype WaitPc = WaitLock | WaitTest | WaitWait | WaitParked | WaitWaking | WaitUnlock(clean: bool)

  datatype StopPc =
    | StopFlag | StopLock1 | StopTest | StopLock3 | StopSignal | StopUnlock3
    | StopWait | StopParked | StopWaking | StopUnlock1

  // The program main runs: `threadpool_init`, any number of adds and waits,
  // then `threadpool_deinit`.
  datatype MainPc =
    | Spawn(born: nat)
    | Init(init: InitPc)
    | Idle
    | Adding(ins: InsertPc, node: Node)
    | Wait(wait: WaitPc)
    | Stop(stop: StopPc)
    | FreeJobs | Join | Finished

  // ----- Shared state -----

  // Who may touch a job node: the job code that owns it, the thread that is
  // moving it in or out of the queue, or the queue.
  datatype Place = Loose | Hand(owner: Tid) | Queued

  // The three mutexes: who holds each.
  datatype Locks = Locks(one: Option<Tid>, two: Option<Tid>, three: Option<Tid>)

  // The two counters, the `active` flag and `err_state.id != -1`.
  datatype Flags = Flags(working: int, alive: int, active: bool, err: bool)

  // The job queue: `jobs`, `jobs_tail`, the `next` field of every live node,
  // and histories that no thread reads.
  datatype Jobs = Jobs(
    head: Option<Node>, tail: Option<Node>, next: map<Node, Option<Node>>, place: map<Node, Place>,
    inserted: seq<Node>, popped: seq<Node>, returned: set<nat>, freed: seq<Node>)

  datatype Shared = Shared(locks: Locks, flags: Flags, jobs: Jobs)

  datatype State = State(main: MainPc, ws: seq<WorkerPc>, sh: Shared)

  function Initial(count: nat): State {
    State(Spawn(0), seq(count, _ => Unborn),
          Shared(Locks(None, None, None), Flags(0, 0, true, false), Jobs(None, None, map[], map[], [], [], {}, [])))
  }

  // What a nondeterministic step picks.
  datatype Choice =
    | Go
    | Wake(who: nat)
    | AddFresh(unborn: Node) | InsertLoose(loose: Node) | FreeLoose(dead: Node)
    | Fail | Return
    | CallWait | CallDeinit | SetErr(on: bool)

  // The condition variable that a step signals, if any.
  datatype Signal = Silent | Cond1 | Cond2

  // What one thread's step does: its next program point, the shared fields
  // afterwards, and the signal it sends.
  datatype Move<Pc> = Blocked | Move(pc: Pc, sh: Shared, signal: Signal)

  // ----- Locks and counters -----

  function Lock1<Pc>(sh: Shared, t: Tid, pc: Pc): Move<Pc> {
    if sh.locks.one.None? then Move(pc, sh.(locks := sh.locks.(one := Some(t))), Silent) else Blocked
  }

  function Lock2<Pc>(sh: Shared, t: Tid, pc: Pc): Move<Pc> {
    if sh.locks.two.None? then Move(pc, sh.(locks := sh.locks.(two := Some(t))), Silent) else Blocked
  }

  function Lock3<Pc>(sh: Shared, t: Tid, pc: Pc): Move<Pc> {
    if sh.locks.three.None? then Move(pc, sh.(locks := sh.locks.(three := Some(t))), Silent) else Blocked
  }

  function Unlock1<Pc>(sh: Shared, pc: Pc): Move<Pc> {
    Move(pc, sh.(locks := sh.locks.(one := None)), Silent)
  }

  function Unlock2<Pc>(sh: Shared, pc: Pc): Move<Pc> {
    Move(pc, sh.(locks := sh.locks.(two := None)), Silent)
  }

  function Unlock3<Pc>(sh: Shared, pc: Pc): Move<Pc> {
    Move(pc, sh.(locks := sh.locks.(three := None)), Silent)
  }

  function Goto<Pc>(sh: Shared, pc: Pc): Move<Pc> { Move(pc, sh, Silent) }

  function Count<Pc>(sh: Shared, pc: Pc, working: int, alive: int): Move<Pc> {
    Move(pc, sh.(flags := sh.flags.(working := sh.flags.working + working, alive := sh.flags.alive + alive)), Silent)
  }

  // ----- threadpool_insert -----

  // Taking hold of a node: a fresh one (`threadpool_add`), or one that job
  // code owns.
  function Grab(q: Jobs, t: Tid, c: Choice): Option<(Jobs, Node)> {
    match c
    case AddFresh(x) =>
      if x !in q.place
      then Some((q.(place := q.place[x := Hand(t)], next := q.next[x := None]), x)) else None
    case InsertLoose(x) =>
      if x in q.place && q.place[x] == Loose && t != MainThread
      then Some((q.(place := q.place[x := Hand(t)]), x)) else None
    case _ => None
  }

  // The first write of `threadpool_insert`: the job becomes the head, or is
  // linked behind the tail.
  function Link(q: Jobs, x: Node): Option<(Jobs, InsertPc)> {
    var q1 := q.(place := q.place[x := Queued], inserted := q.inserted + [x]);
    if q.head.None? then Some((q1.(head := Some(x)), InsSetTail))
    else if q.tail.Some? then Some((q1.(next := q.next[q.tail.value := Some(x)]), InsMoveTail))
    else None
  }

  // One step of `threadpool_insert(self, x)`; the result `None` as program
  // point means that the call has returned.
  function InsertMove(pc: InsertPc, x: Node, sh: Shared, t: Tid): Move<Option<InsertPc>> {
    match pc
    case InsLock2 => Lock2(sh, t, Some(InsLink))
    case InsLink =>
      var r := Link(sh.jobs, x);
      if r.Some? then Move(Some(r.value.1), sh.(jobs := r.value.0), Silent) else Blocked
    case InsSetTail => Move(Some(InsLock3), sh.(jobs := sh.jobs.(tail := Some(x))), Silent)
    case InsMoveTail =>
      if sh.jobs.tail.Some? && sh.jobs.tail.value in sh.jobs.next
      then Move(Some(InsLock3), sh.(jobs := sh.jobs.(tail := sh.jobs.next[sh.jobs.tail.value])), Silent)
      else Blocked
    case InsLock3 => Lock3(sh, t, Some(InsSignal))
    case InsSignal => Move(Some(InsUnlock3), sh, Cond2)
    case InsUnlock3 => Unlock3(sh, Some(InsUnlock2))
    case InsUnlock2 => Unlock2(sh, None)
  }

  // ----- threadpool_worker -----

  function BootMove(pc: BootPc, sh: Shared, t: Tid): Move<WorkerPc> {
    match pc
    case BootLock => Lock1(sh, t, Boot(BootCount))
    case BootCount => Count(sh, Boot(BootSignal), 0, 1)
    case BootSignal => Move(Boot(BootUnlock), sh, Cond1)
    case BootUnlock => Unlock1(sh, Look(LoopTest))
  }

  function LookMove(pc: LookPc, sh: Shared, t: Tid): Move<WorkerPc> {
    match pc
    case LoopTest => Goto(sh, if sh.flags.active then Look(LookLock) else Exit(ExitLock))
    case LookLock => Lock3(sh, t, Look(TestActive))
    case TestActive => Goto(sh, Look(if sh.flags.active then TestJobs else LookUnlock))
    case TestJobs => Goto(sh, Look(if sh.jobs.head.None? then LookWait else LookUnlock))
    case LookWait => Unlock3(sh, Parked)
    case Waking => Lock3(sh, t, Look(TestActive))
    case LookUnlock => Unlock3(sh, Look(ActiveTest))
    case ActiveTest => Goto(sh, if sh.flags.active then Enter(EnterLock) else Exit(ExitLock))
  }

  function EnterMove(pc: EnterPc, sh: Shared, t: Tid): Move<WorkerPc> {
    match pc
    case EnterLock => Lock1(sh, t, Enter(EnterCount))
    case EnterCount => Count(sh, Enter(EnterUnlock), 1, 0)
    case EnterUnlock => Unlock1(sh, Get(GetLock2))
  }

  // `self->jobs = self->jobs->next`.
  function Pop(q: Jobs, t: Tid, x: Node): Option<Jobs> {
    if x in q.next
    then Some(q.(head := q.next[x], popped := q.popped + [x], place := q.place[x := Hand(t)])) else None
  }

  function GetMove(pc: GetPc, sh: Shared, t: Tid): Move<WorkerPc> {
    match pc
    case GetLock2 => Lock2(sh, t, Get(GetHead))
    case GetHead => Goto(sh, Get(if sh.jobs.head.Some? then GetAdvance(sh.jobs.head.value) else GetNothing))
    case GetAdvance(x) =>
      var r := Pop(sh.jobs, t, x);
      if r.Some? then Move(Take(TakeDetach, x, |sh.jobs.popped|), sh.(jobs := r.value), Silent) else Blocked
    case GetNothing => Unlock2(sh, Leave(LeaveLock))
  }

  function TakeMove(pc: TakePc, x: Node, i: nat, sh: Shared, t: Tid): Move<WorkerPc> {
    var q := sh.jobs;
    match pc
    case TakeDetach => Move(Take(TakeTail, x, i), sh.(jobs := q.(next := q.next[x := None])), Silent)
    case TakeTail =>
      if q.head.None? then Move(Take(TakeUnlock2, x, i), sh.(jobs := q.(tail := None)), Silent)
      else Goto(sh, Take(TakeLock3, x, i))
    case TakeLock3 => Lock3(sh, t, Take(TakeSignal, x, i))
    case TakeSignal => Move(Take(TakeUnlock3, x, i), sh, Cond2)
    case TakeUnlock3 => Unlock3(sh, Take(TakeUnlock2, x, i))
    case TakeUnlock2 => Unlock2(sh.(jobs := q.(place := q.place[x := Loose])), Job(Running, i))
  }

  // The job function between its calls into the pool.  It may add new jobs,
  // insert or free nodes that job code owns, start to record an error, and
  // return, in any order.
  function RunMove(i: nat, sh: Shared, t: Tid, c: Choice): Move<WorkerPc> {
    var q := sh.jobs;
    if c.FreeLoose? then
      if c.dead in q.place && q.place[c.dead] == Loose
      then Move(Job(Running, i), sh.(jobs := q.(place := q.place - {c.dead}, next := q.next - {c.dead})), Silent)
      else Blocked
    else if c.Fail? then Goto(sh, Job(FailLock, i))
    else if c.Return? then Move(Leave(LeaveLock), sh.(jobs := q.(returned := q.returned + {i})), Silent)
    else
      var r := Grab(q, t, c);
      if r.Some? then Move(Job(Inserting(InsLock2, r.value.1), i), sh.(jobs := r.value.0), Silent) else Blocked
  }

  function JobMove(pc: JobPc, i: nat, sh: Shared, t: Tid, c: Choice): Move<WorkerPc> {
    match pc
    case Running => RunMove(i, sh, t, c)
    case Inserting(ins, x) =>
      var m := InsertMove(ins, x, sh, t);
      if m.Blocked? then Blocked
      else Move(Job(if m.pc.Some? then Inserting(m.pc.value, x) else Running, i), m.sh, m.signal)
    case FailLock => Lock1(sh, t, Job(FailSet, i))
    case FailSet => Move(Job(FailUnlock, i), sh.(flags := sh.flags.(err := true)), Silent)
    case FailUnlock => Unlock1(sh, Job(Running, i))
  }

  function LeaveMove(pc: LeavePc, sh: Shared, t: Tid): Move<WorkerPc> {
    match pc
    case LeaveLock => Lock1(sh, t, Leave(LeaveCount))
    case LeaveCount => Count(sh, Leave(LeaveTest), -1, 0)
    case LeaveTest =>
      Goto(sh, Leave(if (sh.flags.working == 0 && sh.jobs.head.None?) || sh.flags.err
                     then LeaveSignal else LeaveUnlock))
    case LeaveSignal => Move(Leave(LeaveUnlock), sh, Cond1)
    case LeaveUnlock => Unlock1(sh, Look(LoopTest))
  }

  function ExitMove(pc: ExitPc, sh: Shared, t: Tid): Move<WorkerPc> {
    match pc
    case ExitLock => Lock1(sh, t, Exit(ExitCount))
    case ExitCount => Count(sh, Exit(ExitSignal), 0, -1)
    case ExitSignal => Move(Exit(ExitUnlock), sh, Cond1)
    case ExitUnlock => Unlock1(sh, Done)
  }

  function WorkerMove(pc: WorkerPc, sh: Shared, t: Tid, c: Choice): Move<WorkerPc> {
    match pc
    case Boot(boot) => BootMove(boot, sh, t)
    case Look(look) => LookMove(look, sh, t)
    case Enter(enter) => EnterMove(enter, sh, t)
    case Get(get) => GetMove(get, sh, t)
    case Take(take, x, i) => TakeMove(take, x, i, sh, t)
    case Job(fn, i) => JobMove(fn, i, sh, t, c)
    case Leave(leave) => LeaveMove(leave, sh, t)
    case Exit(exit) => ExitMove(exit, sh, t)
    case Unborn => Blocked
    case Parked => Blocked
    case Done => Blocked
  }

  // ----- threadpool_init, threadpool_wait, threadpool_deinit -----

  function InitMove(pc: InitPc, sh: Shared, count: nat): Move<MainPc> {
    var t := MainThread;
    match pc
    case InitLock => Lock1(sh, t, Init(InitTest))
    case InitTest => Goto(sh, Init(if sh.flags.alive != count then InitWait else InitUnlock))
    case InitWait => Unlock1(sh, Init(InitParked))
    case InitParked => Blocked
    case InitWaking => Lock1(sh, t, Init(InitTest))
    case InitUnlock => Unlock1(sh, MainPc.Idle)
  }

  // Main's own code between calls into the pool.
  function OwnMove(sh: Shared, c: Choice): Move<MainPc> {
    if c.CallWait? then Goto(sh, Wait(WaitLock))
    else if c.CallDeinit? then Goto(sh, Stop(StopFlag))
    else if c.SetErr? then Move(Idle, sh.(flags := sh.flags.(err := c.on)), Silent)
    else
      var r := Grab(sh.jobs, MainThread, c);
      if r.Some? then Move(Adding(InsLock2, r.value.1), sh.(jobs := r.value.0), Silent) else Blocked
  }

  function AddMove(ins: InsertPc, x: Node, sh: Shared): Move<MainPc> {
    var m := InsertMove(ins, x, sh, MainThread);
    if m.Blocked? then Blocked
    else Move(if m.pc.Some? then Adding(m.pc.value, x) else Idle, m.sh, m.signal)
  }

  function WaitMove(pc: WaitPc, sh: Shared): Move<MainPc> {
    var t := MainThread;
    match pc
    case WaitLock => Lock1(sh, t, Wait(WaitTest))
    case WaitTest =>
      Goto(sh, Wait(if (sh.flags.working != 0 || sh.jobs.head.Some?) && !sh.flags.err
                    then WaitWait else WaitUnlock(!sh.flags.err)))
    case WaitWait => Unlock1(sh, Wait(WaitParked))
    case WaitParked => Blocked
    case WaitWaking => Lock1(sh, t, Wait(WaitTest))
    case WaitUnlock(_) => Unlock1(sh, MainPc.Idle)
  }

  function StopMove(pc: StopPc, sh: Shared): Move<MainPc> {
    var t := MainThread;
    match pc
    case StopFlag => Move(Stop(StopLock1), sh.(flags := sh.flags.(active := false)), Silent)
    case StopLock1 => Lock1(sh, t, Stop(StopTest))
    case StopTest => Goto(sh, Stop(if sh.flags.alive != 0 then StopLock3 else StopUnlock1))
    case StopLock3 => Lock3(sh, t, Stop(StopSignal))
    case StopSignal => Move(Stop(StopUnlock3), sh, Cond2)
    case StopUnlock3 => Unlock3(sh, Stop(StopWait))
    case StopWait => Unlock1(sh, Stop(StopParked))
    case StopParked => Blocked
    case StopWaking => Lock1(sh, t, Stop(StopTest))
    case StopUnlock1 => Unlock1(sh, FreeJobs)
  }

  // `next = self->jobs->next; threadpool_job_deinit(self->jobs); self->jobs = next`.
  function FreeHead(q: Jobs): Option<Jobs> {
    if q.head.None? || q.head.value !in q.next then None
    else
      var x := q.head.value;
      Some(q.(head := q.next[x], freed := q.freed + [x], place := q.place - {x}, next := q.next - {x}))
  }

  // The loop that frees what is left in the queue.
  function FreeMove(sh: Shared): Move<MainPc> {
    if sh.jobs.head.None? then Goto(sh, Join)
    else
      var r := FreeHead(sh.jobs);
      if r.Some? then Move(FreeJobs, sh.(jobs := r.value), Silent) else Blocked
  }

  function MainMove(pc: MainPc, sh: Shared, count: nat, c: Choice): Move<MainPc> {
    match pc
    case Init(init) => InitMove(init, sh, count)
    case Idle => OwnMove(sh, c)
    case Adding(ins, x) => AddMove(ins, x, sh)
    case Wait(wait) => WaitMove(wait, sh)
    case Stop(stop) => StopMove(stop, sh)
    case FreeJobs => FreeMove(sh)
    case Spawn(_) => Blocked
    case Join => Blocked
    case Finished => Blocked
  }

  // ----- Steps of the whole pool -----

  // `threadpool_cond_signal(&self->cond1)`: only main ever waits on cond1.
  function Signal1(m: MainPc): MainPc {
    if m == Init(InitParked) then Init(InitWaking)
    else if m == Wait(WaitParked) then Wait(WaitWaking)
    else if m == Stop(StopParked) then Stop(StopWaking)
    else m
  }

  predicate NoneParked(ws: seq<WorkerPc>) {
    forall i | 0 <= i < |ws| :: ws[i] != Parked
  }

  // `threadpool_cond_signal(&self->cond2)`: wakes the chosen parked worker, or
  // is lost when no worker is parked.
  function Signal2(ws: seq<WorkerPc>, c: Choice): Option<seq<WorkerPc>> {
    if c.Wake? then
      if c.who < |ws| && ws[c.who] == Parked then Some(ws[c.who := Look(Waking)]) else None
    else if c.Go? && NoneParked(ws) then Some(ws)
    else None
  }

  function WorkerNext(s: State, w: nat, c: Choice): Option<State> {
    if w >= |s.ws| then None
    else
      var m := WorkerMove(s.ws[w], s.sh, WorkerThread(w), c);
      if m.Blocked? then None
      else if m.signal == Cond2 then
        var ws := Signal2(s.ws, c);
        if ws.Some? then Some(State(s.main, ws.value[w := m.pc], m.sh)) else None
      else Some(State(if m.signal == Cond1 then Signal1(s.main) else s.main, s.ws[w := m.pc], m.sh))
  }

  function MainNext(s: State, c: Choice): Option<State> {
    if s.main.Spawn? then
      if s.main.born < |s.ws|
      then Some(s.(main := Spawn(s.main.born + 1), ws := s.ws[s.main.born := Boot(BootLock)]))
      else Some(s.(main := Init(InitLock)))
    else if s.main.Join? then
      if forall i | 0 <= i < |s.ws| :: s.ws[i] == Done then Some(s.(main := Finished)) else None
    else
      var m := MainMove(s.main, s.sh, |s.ws|, c);
      if m.Blocked? then None
      else if m.signal == Cond2 then
        var ws := Signal2(s.ws, c);
        if ws.Some? then Some(State(m.pc, ws.value, m.sh)) else None
      else Some(State(m.pc, s.ws, m.sh))
  }

  // A step that a thread takes by itself, without a spurious wake-up.
  function Next(s: State, t: Tid, c: Choice): Option<State> {
    match t
    case MainThread => MainNext(s, c)
    case WorkerThread(w) => WorkerNext(s, w, c)
  }

  function Spurious(s: State, t: Tid): State {
    match t
    case MainThread => s.(main := Signal1(s.main))
    case WorkerThread(w) =>
      if w < |s.ws| && s.ws[w] == Parked then s.(ws := s.ws[w := Look(Waking)]) else s
  }

  ghost predicate Step(s: State, s': State) {
    || (exists t, c :: Next(s, t, c) == Some(s'))
    || (exists t :: s' == Spurious(s, t))
  }

  // A finite run of a pool of `count` workers.
  ghost predicate Run(r: seq<State>, count: nat) {
    && |r| > 0
    && r[0] == Initial(count)
    && forall i, j | 0 <= i < |r| && j == i + 1 < |r| :: Step(r[i], r[j])
  }
}
