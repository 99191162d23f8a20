/** What every reachable state of the thread pool satisfies. */
module PoolInv {
  import opened Prelude
  import opened PoolModel

  // ----- Which locks a program point holds -----

  predicate Ins2(pc: InsertPc) { pc != InsLock2 }

  predicate Ins3(pc: InsertPc) { pc == InsSignal || pc == InsUnlock3 }

  predicate Holds1(pc: WorkerPc) {
    || (pc.Boot? && pc.boot != BootLock)
    || (pc.Enter? && pc.enter != EnterLock)
    || (pc.Job? && (pc.fn == FailSet || pc.fn == FailUnlock))
    || (pc.Leave? && pc.leave != LeaveLock)
    || (pc.Exit? && pc.exit != ExitLock)
  }

  predicate Holds2(pc: WorkerPc) {
    || (pc.Get? && pc.get != GetLock2)
    || pc.Take?
    || (pc.Job? && pc.fn.Inserting? && Ins2(pc.fn.ins))
  }

  predicate Holds3(pc: WorkerPc) {
    || (pc.Look? && pc.look in {TestActive, TestJobs, LookWait, LookUnlock})
    || (pc.Take? && (pc.take == TakeSignal || pc.take == TakeUnlock3))
    || (pc.Job? && pc.fn.Inserting? && Ins3(pc.fn.ins))
  }

  predicate MainHolds1(m: MainPc) {
    || (m.Init? && m.init in {InitTest, InitWait, InitUnlock})
    || (m.Wait? && (m.wait in {WaitTest, WaitWait} || m.wait.WaitUnlock?))
    || (m.Stop? && m.stop in {StopTest, StopLock3, StopSignal, StopUnlock3, StopWait, StopUnlock1})
  }

  predicate MainHolds2(m: MainPc) { m.Adding? && Ins2(m.ins) }

  predicate MainHolds3(m: MainPc) {
    || (m.Stop? && m.stop in {StopSignal, StopUnlock3})
    || (m.Adding? && Ins3(m.ins))
  }

  ghost predicate LocksOk(s: State) {
    var l := s.sh.locks;
    && (l.one.Some? && l.one.value.WorkerThread? ==> l.one.value.id < |s.ws|)
    && (l.two.Some? && l.two.value.WorkerThread? ==> l.two.value.id < |s.ws|)
    && (l.three.Some? && l.three.value.WorkerThread? ==> l.three.value.id < |s.ws|)
    && (MainHolds1(s.main) <==> l.one == Some(MainThread))
    && (MainHolds2(s.main) <==> l.two == Some(MainThread))
    && (MainHolds3(s.main) <==> l.three == Some(MainThread))
    && forall w | 0 <= w < |s.ws| ::
         && (Holds1(s.ws[w]) <==> l.one == Some(WorkerThread(w)))
         && (Holds2(s.ws[w]) <==> l.two == Some(WorkerThread(w)))
         && (Holds3(s.ws[w]) <==> l.three == Some(WorkerThread(w)))
  }

  // ----- The two counters -----

  // Between `working_threads++` and `working_threads--`.
  predicate Counted(pc: WorkerPc) {
    pc == Enter(EnterUnlock) || pc.Get? || pc.Take? || pc.Job? || pc == Leave(LeaveLock) || pc == Leave(LeaveCount)
  }

  predicate Gone(pc: WorkerPc) { pc == Exit(ExitSignal) || pc == Exit(ExitUnlock) || pc.Done? }

  predicate Unstarted(pc: WorkerPc) { pc.Unborn? || pc == Boot(BootLock) || pc == Boot(BootCount) }

  // Between `alive_threads++` and `alive_threads--`.
  predicate Alive(pc: WorkerPc) { !Unstarted(pc) && !Gone(pc) }

  function CountIf(ws: seq<WorkerPc>, p: WorkerPc -> bool): nat {
    if |ws| == 0 then 0
    else CountIf(ws[..|ws| - 1], p) + if p(ws[|ws| - 1]) then 1 else 0
  }

  ghost predicate CountsOk(s: State) {
    && s.sh.flags.working == CountIf(s.ws, Counted)
    && s.sh.flags.alive == CountIf(s.ws, Alive)
  }

  // ----- Phases of the program -----

  predicate Stopping(m: MainPc) { (m.Stop? && m.stop != StopFlag) || Freeing(m) }

  predicate Freeing(m: MainPc) { m.FreeJobs? || m.Join? || m.Finished? }

  predicate Booted(m: MainPc) { !m.Spawn? && (m.Init? ==> m.init == InitUnlock) }

  predicate Emptied(m: MainPc) { m == Stop(StopUnlock1) || Freeing(m) }

  ghost predicate PhaseOk(s: State) {
    && (s.main.Spawn? ==> s.main.born <= |s.ws|)
    && (s.sh.flags.active <==> !Stopping(s.main))
    && (forall w | 0 <= w < |s.ws| :: s.ws[w].Unborn? <==> s.main.Spawn? && s.main.born <= w)
    && (Booted(s.main) ==> forall w | 0 <= w < |s.ws| :: !Unstarted(s.ws[w]))
    && (s.sh.flags.active ==> forall w | 0 <= w < |s.ws| :: !s.ws[w].Exit? && !s.ws[w].Done?)
    && (Emptied(s.main) ==> forall w | 0 <= w < |s.ws| :: Gone(s.ws[w]))
    && (s.main.Finished? ==> forall w | 0 <= w < |s.ws| :: s.ws[w].Done?)
  }

  // ----- The queue -----

  // What a thread is doing to the queue or to a node it holds.
  datatype View =
    | Nothing
    | ToInsert(x: Node)
    | SettingTail(x: Node) | MovingTail(x: Node)
    | Advancing(x: Node) | Detaching(x: Node) | FixingTail(x: Node)
    | Taken(x: Node)

  function InsertView(pc: InsertPc, x: Node): View {
    match pc
    case InsLock2 => ToInsert(x)
    case InsLink => ToInsert(x)
    case InsSetTail => SettingTail(x)
    case InsMoveTail => MovingTail(x)
    case _ => Nothing
  }

  function WorkerView(pc: WorkerPc): View {
    if pc.Job? && pc.fn.Inserting? then InsertView(pc.fn.ins, pc.fn.node)
    else if pc.Get? && pc.get.GetAdvance? then Advancing(pc.get.job)
    else if pc.Take? then
      if pc.take == TakeDetach then Detaching(pc.job)
      else if pc.take == TakeTail then FixingTail(pc.job)
      else Taken(pc.job)
    else Nothing
  }

  function MainView(m: MainPc): View {
    if m.Adding? then InsertView(m.ins, m.node) else Nothing
  }

  function ViewOf(s: State, t: Tid): View {
    match t
    case MainThread => MainView(s.main)
    case WorkerThread(w) => if w < |s.ws| then WorkerView(s.ws[w]) else Nothing
  }

  // The view of the thread that holds lock2.
  function QueueView(s: State): View {
    if s.sh.locks.two.Some? then ViewOf(s, s.sh.locks.two.value) else Nothing
  }

  // A view that only the holder of lock2 has.
  predicate Exclusive(v: View) { !v.Nothing? && !v.ToInsert? }

  // A view under which `tail` may lag behind the chain.
  predicate Lagging(v: View) { v.SettingTail? || v.MovingTail? || v.Detaching? || v.FixingTail? }

  function Removed(q: Jobs): nat { |q.popped| + |q.freed| }

  // The jobs that were inserted and neither popped nor freed by deinit.
  function Queue(q: Jobs): seq<Node>
    requires Removed(q) <= |q.inserted|
  {
    q.inserted[Removed(q)..]
  }

  // The nodes reachable from `head` through `next` are exactly `nodes`.
  ghost predicate Chain(head: Option<Node>, next: map<Node, Option<Node>>, nodes: seq<Node>) {
    && head == (if nodes == [] then None else Some(nodes[0]))
    && forall i {:trigger next[nodes[i]]} {:trigger nodes[i] in next} | 0 <= i < |nodes| ::
         nodes[i] in next && next[nodes[i]] == (if i + 1 < |nodes| then Some(nodes[i + 1]) else None)
  }

  ghost predicate NoDup(nodes: seq<Node>) {
    forall i, j {:trigger Before(i, j)} | 0 <= i < j < |nodes| && Before(i, j) :: nodes[i] != nodes[j]
  }

  function Last(nodes: seq<Node>): Option<Node> {
    if nodes == [] then None else Some(nodes[|nodes| - 1])
  }

  // The list from `head` holds exactly the queued nodes, in the order `nodes`.
  ghost predicate Linked(
    head: Option<Node>, next: map<Node, Option<Node>>, place: map<Node, Place>, nodes: seq<Node>)
  {
    && Chain(head, next, nodes)
    && NoDup(nodes)
    && next.Keys == place.Keys
    && (forall x | x in place :: place[x] == Queued <==> x in nodes)
    && (forall x | x in place :: place[x] == Loose ==> next[x].None?)
  }

  ghost predicate QueueOk(q: Jobs) {
    && Removed(q) <= |q.inserted|
    && q.inserted[..Removed(q)] == q.popped + q.freed
    && Linked(q.head, q.next, q.place, Queue(q))
  }

  ghost predicate HandOk(q: Jobs, v: View, t: Tid) {
    match v
    case ToInsert(x) => x in q.place && q.place[x] == Hand(t) && x in q.next && q.next[x].None?
    case Advancing(x) => q.head == Some(x)
    case Detaching(x) => x in q.place && q.place[x] == Hand(t)
    case FixingTail(x) => x in q.place && q.place[x] == Hand(t) && x in q.next && q.next[x].None?
    case Taken(x) => x in q.place && q.place[x] == Hand(t) && x in q.next && q.next[x].None?
    case _ => true
  }

  ghost predicate TailOk(q: Jobs, v: View)
    requires Removed(q) <= |q.inserted|
  {
    var nodes := Queue(q);
    match v
    case SettingTail(x) => nodes == [x]
    case MovingTail(x) => |nodes| >= 2 && nodes[|nodes| - 1] == x && q.tail == Some(nodes[|nodes| - 2])
    case Detaching(_) => nodes == [] || q.tail == Last(nodes)
    case FixingTail(_) => nodes == [] || q.tail == Last(nodes)
    case _ => q.tail == Last(nodes)
  }

  ghost predicate JobsOk(s: State) {
    && QueueOk(s.sh.jobs)
    && (forall t :: HandOk(s.sh.jobs, ViewOf(s, t), t))
    && (Freeing(s.main) || (s.sh.jobs.freed == [] && TailOk(s.sh.jobs, QueueView(s))))
    && (s.main.Join? || s.main.Finished? ==> s.sh.jobs.head.None?)
  }

  // ----- Tickets -----

  predicate HasTicket(pc: WorkerPc) { pc.Take? || pc.Job? }

  // The job popped at position `i` is in some worker's hands.
  ghost predicate Held(ws: seq<WorkerPc>, i: nat) {
    exists w :: 0 <= w < |ws| && HasTicket(ws[w]) && ws[w].ticket == i
  }

  ghost predicate TicketsOk(ws: seq<WorkerPc>, q: Jobs) {
    && (forall i | i in q.returned :: i < |q.popped|)
    && (forall w | 0 <= w < |ws| && HasTicket(ws[w]) :: ws[w].ticket < |q.popped| && ws[w].ticket !in q.returned)
    && (forall v, w {:trigger Before(v, w)}
          | 0 <= v < w < |ws| && Before(v, w) && HasTicket(ws[v]) && HasTicket(ws[w]) ::
          ws[v].ticket != ws[w].ticket)
    && (forall i {:trigger Held(ws, i)} | 0 <= i < |q.popped| :: i in q.returned || Held(ws, i))
  }

  // ----- Wake-ups -----

  // Between linking a job in and signalling cond2.
  predicate Announces(pc: InsertPc) {
    pc == InsSetTail || pc == InsMoveTail || pc == InsLock3 || pc == InsSignal
  }

  predicate Announcing(s: State, t: Tid) {
    match t
    case MainThread => s.main.Adding? && Announces(s.main.ins)
    case WorkerThread(w) =>
      w < |s.ws| && s.ws[w].Job? && s.ws[w].fn.Inserting? && Announces(s.ws[w].fn.ins)
  }

  predicate Awake(pc: WorkerPc) { pc != Parked && pc != Look(LookWait) }

  // While the pool is active, a queued job is always about to be announced or
  // has a worker that is awake.
  ghost predicate WakeOk(s: State) {
    s.sh.flags.active && s.sh.jobs.head.Some? && |s.ws| > 0 ==>
      (exists t :: Announcing(s, t)) || (exists w :: 0 <= w < |s.ws| && Awake(s.ws[w]))
  }

  predicate SignalDue(s: State, due: set<WorkerPc>) {
    s.sh.locks.one.Some? && s.sh.locks.one.value.WorkerThread? && s.sh.locks.one.value.id < |s.ws| &&
    s.ws[s.sh.locks.one.value.id] in due
  }

  ghost predicate WaitOk(s: State) {
    s.main == Wait(WaitWait) || s.main == Wait(WaitParked) ==>
      s.sh.flags.working > 0 || s.sh.jobs.head.Some? || SignalDue(s, {Leave(LeaveTest), Leave(LeaveSignal)})
  }

  ghost predicate InitOk(s: State) {
    s.main == Init(InitWait) || s.main == Init(InitParked) ==>
      s.sh.flags.alive != |s.ws| || SignalDue(s, {Boot(BootSignal)})
  }

  // A worker that is awake and will still signal cond1 on its way out.
  predicate Coming(pc: WorkerPc) {
    pc != Parked && pc != Look(TestJobs) && pc != Look(LookWait) && pc != Exit(ExitUnlock) && pc != Done
  }

  ghost predicate StopOk(s: State) {
    && (s.main == Stop(StopLock3) || s.main == Stop(StopSignal) ==> s.sh.flags.alive != 0)
    && (s.main == Stop(StopUnlock3) || s.main == Stop(StopWait) || s.main == Stop(StopParked) ==>
          && (forall w | 0 <= w < |s.ws| :: s.ws[w] != Look(TestJobs) && s.ws[w] != Look(LookWait))
          && (exists w :: 0 <= w < |s.ws| && Coming(s.ws[w])))
  }

  // ----- Quiescence -----

  // Nothing is queued, nothing is in a worker's hands, and every job that was
  // ever inserted has been popped and its function has returned.
  ghost predicate Quiet(s: State) {
    var q := s.sh.jobs;
    && q.head.None?
    && q.popped == q.inserted
    && (forall i | 0 <= i < |q.inserted| :: i in q.returned)
    && (forall w | 0 <= w < |s.ws| :: !HasTicket(s.ws[w]))
    && !s.main.Adding?
  }

  ghost predicate Inv(s: State) {
    && LocksOk(s) && CountsOk(s) && PhaseOk(s)
    && JobsOk(s) && TicketsOk(s.ws, s.sh.jobs)
    && WakeOk(s) && WaitOk(s) && InitOk(s) && StopOk(s)
    && (s.main == Wait(WaitUnlock(true)) ==> Quiet(s))
  }
}
