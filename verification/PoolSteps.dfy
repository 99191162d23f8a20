/** Every reachable state of the pool satisfies the invariant. */
module PoolSteps {
  import opened Prelude
  import opened PoolModel
  import opened PoolInv
  import opened PoolProof
  import opened PoolQueue
  import opened PoolLive

  // ----- Worker steps -----

  lemma InvByWorker(s: State, w: nat, c: Choice, s': State)
    requires Inv(s) && WorkerMoves(s, w, c, s')
    requires Signals1(s.ws[w]) ==> Signal1(s.main) == s.main
    ensures Inv(s')
  {
    var t := WorkerThread(w);
    LocksByWorker(s, w, c, s');
    CountsByWorker(s, w, c, s');
    PhaseByWorker(s, w, c, s');
    JobsByWorker(s, w, c, s');
    WakeByWorker(s, w, c, s');
    if s.main == Wait(WaitUnlock(true)) {
      QuietByWorker(s, w, c, s');
    }
    TicketMoves(s.ws[w], s.sh, t, c);
    LocksMove(s.ws[w], s.sh, t, c);
    FlagsMove(s.ws[w], s.sh, t, c);
    WorkerSpur(s.ws[w], s.sh, t, c);
    WorkerCome(s.ws[w], s.sh, t, c);
    InvByShape(s, w, s'.ws[w], s'.sh);
  }

  lemma InvByShape(s: State, w: nat, pc: WorkerPc, sh: Shared)
    requires Inv(s) && Shape(s, w, pc, sh) && TicketMove(s.ws[w], pc, s.sh.jobs, sh.jobs)
    requires WorkerComes(s.ws[w], pc, s.sh.flags.active)
    ensures var s' := State(s.main, s.ws[w := pc], sh);
            TicketsOk(s'.ws, s'.sh.jobs) && WaitOk(s') && InitOk(s') && StopOk(s')
  {
    TicketsKept(s.ws, w, pc, s.sh.jobs, sh.jobs);
    WaitKept(s, w, pc, sh);
    InitKept(s, w, pc, sh);
    StopKept(s, w, pc, sh);
  }

  // ----- Main steps -----

  predicate MainTurns(pc: MainPc, pc': MainPc, sh: Shared, count: nat) {
    && (pc' == Wait(WaitWait) ==> pc == Wait(WaitTest) && (sh.flags.working != 0 || sh.jobs.head.Some?))
    && (pc' == Wait(WaitParked) ==> pc == Wait(WaitWait))
    && (pc' == Init(InitWait) ==> pc == Init(InitTest) && sh.flags.alive != count)
    && (pc' == Init(InitParked) ==> pc == Init(InitWait))
    && (pc' == Stop(StopLock3) ==> pc == Stop(StopTest) && sh.flags.alive != 0)
    && (pc' == Stop(StopSignal) ==> pc == Stop(StopLock3))
    && (pc' == Stop(StopUnlock3) ==> pc == Stop(StopSignal))
    && (pc' == Stop(StopWait) ==> pc == Stop(StopUnlock3))
    && (pc' == Stop(StopParked) ==> pc == Stop(StopWait))
    && (pc' == Wait(WaitUnlock(true)) ==>
          pc == Wait(WaitTest) && sh.flags.working == 0 && sh.jobs.head.None?)
  }

  predicate QuietPoint(m: MainPc) { m.Wait? || m.Stop? || m.Init? }

  lemma MainTurn(pc: MainPc, sh: Shared, count: nat, c: Choice)
    requires MainMove(pc, sh, count, c).Move?
    ensures var m := MainMove(pc, sh, count, c);
            && MainTurns(pc, m.pc, sh, count)
            && (QuietPoint(pc) ==> m.sh.jobs == sh.jobs)
            && (m.signal == Cond2 <==> pc == Stop(StopSignal) || (pc.Adding? && pc.ins == InsSignal))
  {
  }

  lemma StopSignalled(s: State)
    requires LocksOk(s) && CountsOk(s) && PhaseOk(s) && StopOk(s) && Heard(s.ws) && s.main == Stop(StopSignal)
    ensures forall w | 0 <= w < |s.ws| :: s.ws[w] != Look(TestJobs) && s.ws[w] != Look(LookWait)
    ensures exists w :: 0 <= w < |s.ws| && Coming(s.ws[w])
  {
    forall w | 0 <= w < |s.ws|
      ensures s.ws[w] != Look(TestJobs) && s.ws[w] != Look(LookWait)
    {
      assert !Holds3(s.ws[w]);
    }
    if NoneParked(s.ws) {
      CountIfExtremes(s.ws, Alive);
      var w :| 0 <= w < |s.ws| && Alive(s.ws[w]);
      assert Coming(s.ws[w]);
    } else {
      var w :| 0 <= w < |s.ws| && s.ws[w] == Look(Waking);
      assert Coming(s.ws[w]);
    }
  }

  lemma InvByMain(s: State, c: Choice, s': State)
    requires Inv(s) && MainMoves(s, c, s')
    requires MainMove(s.main, s.sh, |s.ws|, c).signal == Cond2 ==> Heard(s.ws)
    ensures Inv(s')
  {
    MainEffect(s.main, s.sh, |s.ws|, c);
    MainTurn(s.main, s.sh, |s.ws|, c);
    MainKeepsTickets(s.main, s.sh, |s.ws|, c);
    LocksByMain(s, c, s');
    PhaseByMain(s, c, s');
    JobsByMain(s, c, s');
    WakeByMain(s, c, s');
    WaitsByMain(s, s'.main, s'.sh);
    if s'.main == Wait(WaitUnlock(true)) {
      QuietFound(s);
    }
  }

  lemma WaitsByMain(s: State, pc: MainPc, sh: Shared)
    requires Inv(s) && MainTurns(s.main, pc, s.sh, |s.ws|)
    requires sh.flags.working == s.sh.flags.working && sh.flags.alive == s.sh.flags.alive
    requires QuietPoint(s.main) ==> sh.jobs == s.sh.jobs
    requires s.main == Stop(StopSignal) ==> Heard(s.ws)
    ensures var s' := State(pc, s.ws, sh); WaitOk(s') && InitOk(s') && StopOk(s')
  {
    if s.main == Stop(StopSignal) {
      StopSignalled(s);
    }
    CountIfExtremes(s.ws, Counted);
  }

  // ----- Wake-ups, thread creation, join -----

  // A worker moves between two points at which it holds and touches nothing.
  predicate IdlePc(pc: WorkerPc) {
    && !Holds1(pc) && !Holds2(pc) && !Holds3(pc) && !Counted(pc)
    && WorkerView(pc).Nothing? && !HasTicket(pc) && !PcAnnounces(pc)
  }

  lemma RelabelCounts(s: State, w: nat, pc: WorkerPc)
    requires LocksOk(s) && CountsOk(s) && w < |s.ws|
    requires IdlePc(s.ws[w]) && IdlePc(pc) && Alive(s.ws[w]) == Alive(pc)
    ensures LocksOk(s.(ws := s.ws[w := pc])) && CountsOk(s.(ws := s.ws[w := pc]))
  {
    CountIfUpdate(s.ws, w, pc, Counted);
    CountIfUpdate(s.ws, w, pc, Alive);
  }

  lemma RelabelJobs(s: State, w: nat, pc: WorkerPc)
    requires JobsOk(s) && w < |s.ws| && WorkerView(pc) == WorkerView(s.ws[w])
    ensures JobsOk(s.(ws := s.ws[w := pc]))
  {
    var s' := s.(ws := s.ws[w := pc]);
    forall t ensures HandOk(s'.sh.jobs, ViewOf(s', t), t) {
      assert ViewOf(s', t) == ViewOf(s, t);
      assert HandOk(s.sh.jobs, ViewOf(s, t), t);
    }
  }

  lemma Relabel(s: State, w: nat, pc: WorkerPc)
    requires Inv(s) && w < |s.ws| && IdlePc(s.ws[w]) && IdlePc(pc) && Alive(s.ws[w]) == Alive(pc)
    requires Awake(pc)
    ensures var s' := s.(ws := s.ws[w := pc]);
            LocksOk(s') && CountsOk(s') && JobsOk(s') && TicketsOk(s'.ws, s'.sh.jobs) && WakeOk(s')
  {
    RelabelCounts(s, w, pc);
    RelabelJobs(s, w, pc);
    TicketsKept(s.ws, w, pc, s.sh.jobs, s.sh.jobs);
    WakeKept(s, w, pc, s.sh);
  }

  lemma PhaseByWake(s: State, w: nat)
    requires PhaseOk(s) && w < |s.ws| && s.ws[w] == Parked
    ensures PhaseOk(s.(ws := s.ws[w := Look(Waking)]))
  {
  }

  lemma WaitsByWake(s: State, w: nat)
    requires LocksOk(s) && WaitOk(s) && InitOk(s) && StopOk(s) && w < |s.ws| && s.ws[w] == Parked
    ensures var s' := s.(ws := s.ws[w := Look(Waking)]); WaitOk(s') && InitOk(s') && StopOk(s')
  {
    var s' := s.(ws := s.ws[w := Look(Waking)]);
    assert !Holds1(s.ws[w]);
    if v :| 0 <= v < |s.ws| && Coming(s.ws[v]) {
      assert Coming(s'.ws[v]);
    }
  }

  lemma QuietByWake(s: State, w: nat)
    requires Quiet(s) && w < |s.ws| && s.ws[w] == Parked
    ensures Quiet(s.(ws := s.ws[w := Look(Waking)]))
  {
  }

  lemma InvByWorkerWake(s: State, w: nat)
    requires Inv(s) && w < |s.ws| && s.ws[w] == Parked
    ensures Inv(s.(ws := s.ws[w := Look(Waking)]))
  {
    Relabel(s, w, Look(Waking));
    PhaseByWake(s, w);
    WaitsByWake(s, w);
    if s.main == Wait(WaitUnlock(true)) { QuietByWake(s, w); }
  }

  // Main moves between two points at which it holds the same locks and
  // touches nothing.
  lemma RenameMain(s: State, m: MainPc)
    requires Inv(s) && MainView(s.main) == MainView(m) == Nothing && !s.main.Adding? && !m.Adding?
    requires Freeing(s.main) == Freeing(m) && (m.Finished? ==> s.main.Join?) && !m.Join?
    requires MainHolds1(s.main) == MainHolds1(m) && MainHolds3(s.main) == MainHolds3(m)
    ensures var s' := s.(main := m); LocksOk(s') && CountsOk(s') && JobsOk(s') && WakeOk(s')
  {
    var s' := s.(main := m);
    forall t ensures HandOk(s'.sh.jobs, ViewOf(s', t), t) {
      assert ViewOf(s', t) == ViewOf(s, t);
      assert HandOk(s.sh.jobs, ViewOf(s, t), t);
    }
    forall t ensures Announcing(s, t) == Announcing(s', t) {}
  }

  lemma PhaseByMainWake(s: State)
    requires PhaseOk(s) && Signal1(s.main) != s.main
    ensures PhaseOk(s.(main := Signal1(s.main)))
  {
  }

  lemma WaitsByMainWake(s: State)
    requires Signal1(s.main) != s.main
    ensures var s' := s.(main := Signal1(s.main)); WaitOk(s') && InitOk(s') && StopOk(s')
  {
  }

  lemma InvByMainWake(s: State)
    requires Inv(s)
    ensures Inv(s.(main := Signal1(s.main)))
  {
    if Signal1(s.main) != s.main {
      RenameMain(s, Signal1(s.main));
      PhaseByMainWake(s);
      WaitsByMainWake(s);
    }
  }

  lemma InvBySpurious(s: State, t: Tid)
    requires Inv(s)
    ensures Inv(Spurious(s, t)) && |Spurious(s, t).ws| == |s.ws|
  {
    match t
    case MainThread => InvByMainWake(s);
    case WorkerThread(w) =>
      if w < |s.ws| && s.ws[w] == Parked {
        InvByWorkerWake(s, w);
      }
  }

  lemma SpawnParts(s: State)
    requires Inv(s) && s.main.Spawn? && s.main.born < |s.ws|
    ensures var s' := State(Spawn(s.main.born + 1), s.ws[s.main.born := Boot(BootLock)], s.sh);
            LocksOk(s') && CountsOk(s') && JobsOk(s') && TicketsOk(s'.ws, s'.sh.jobs) && WakeOk(s')
  {
    var w, s1 := s.main.born, s.(main := Spawn(s.main.born + 1));
    RenameMain(s, s1.main);
    RelabelJobs(s1, w, Boot(BootLock));
    RelabelCounts(s1, w, Boot(BootLock));
    TicketsKept(s.ws, w, Boot(BootLock), s.sh.jobs, s.sh.jobs);
    WakeKept(s1, w, Boot(BootLock), s.sh);
  }

  lemma InvBySpawn(s: State)
    requires Inv(s) && s.main.Spawn? && s.main.born < |s.ws|
    ensures Inv(State(Spawn(s.main.born + 1), s.ws[s.main.born := Boot(BootLock)], s.sh))
  {
    SpawnParts(s);
  }

  lemma SpawnedPhase(s: State)
    requires PhaseOk(s) && s.main.Spawn? && s.main.born == |s.ws|
    ensures PhaseOk(s.(main := Init(InitLock)))
  {
  }

  lemma InvBySpawned(s: State)
    requires Inv(s) && s.main.Spawn? && s.main.born == |s.ws|
    ensures Inv(s.(main := Init(InitLock)))
  {
    RenameMain(s, Init(InitLock));
    SpawnedPhase(s);
  }

  lemma InvByJoin(s: State)
    requires Inv(s) && s.main.Join? && forall w | 0 <= w < |s.ws| :: s.ws[w] == Done
    ensures Inv(s.(main := Finished))
  {
    RenameMain(s, Finished);
  }

  // ----- Signals first, then the move -----

  lemma HeardAfter(s: State, c: Choice)
    requires Inv(s) && Signal2(s.ws, c).Some?
    ensures Inv(s.(ws := Signal2(s.ws, c).value)) && Heard(Signal2(s.ws, c).value)
    ensures |Signal2(s.ws, c).value| == |s.ws|
    ensures forall w | 0 <= w < |s.ws| && s.ws[w] != Parked :: Signal2(s.ws, c).value[w] == s.ws[w]
  {
    if c.Wake? {
      InvByWorkerWake(s, c.who);
      assert Signal2(s.ws, c).value[c.who] == Look(Waking);
    }
  }

  lemma InvByWorkerNext(s: State, w: nat, c: Choice)
    requires Inv(s) && WorkerNext(s, w, c).Some?
    ensures Inv(WorkerNext(s, w, c).value) && |WorkerNext(s, w, c).value.ws| == |s.ws|
  {
    var t, s' := WorkerThread(w), WorkerNext(s, w, c).value;
    var m := WorkerMove(s.ws[w], s.sh, t, c);
    WorkerSignals(s.ws[w], s.sh, t, c);
    if m.signal == Cond2 {
      HeardAfter(s, c);
      InvByWorker(s.(ws := Signal2(s.ws, c).value), w, c, s');
    } else if m.signal == Cond1 {
      InvByMainWake(s);
      InvByWorker(s.(main := Signal1(s.main)), w, c, s');
    } else {
      InvByWorker(s, w, c, s');
    }
  }

  lemma InvByMainMove(s: State, c: Choice)
    requires Inv(s) && MainNext(s, c).Some? && !s.main.Spawn? && !s.main.Join?
    ensures Inv(MainNext(s, c).value) && |MainNext(s, c).value.ws| == |s.ws|
  {
    var s', m := MainNext(s, c).value, MainMove(s.main, s.sh, |s.ws|, c);
    if m.signal == Cond2 {
      HeardAfter(s, c);
      InvByMain(s.(ws := Signal2(s.ws, c).value), c, s');
    } else {
      InvByMain(s, c, s');
    }
  }

  lemma InvByMainNext(s: State, c: Choice)
    requires Inv(s) && MainNext(s, c).Some?
    ensures Inv(MainNext(s, c).value) && |MainNext(s, c).value.ws| == |s.ws|
  {
    if s.main.Spawn? {
      if s.main.born < |s.ws| {
        InvBySpawn(s);
      } else {
        InvBySpawned(s);
      }
    } else if s.main.Join? {
      InvByJoin(s);
    } else {
      InvByMainMove(s, c);
    }
  }

  lemma InvByNext(s: State, t: Tid, c: Choice)
    requires Inv(s) && Next(s, t, c).Some?
    ensures Inv(Next(s, t, c).value) && |Next(s, t, c).value.ws| == |s.ws|
  {
    match t
    case MainThread => InvByMainNext(s, c);
    case WorkerThread(w) => InvByWorkerNext(s, w, c);
  }

  lemma InvByStep(s: State, s': State)
    requires Inv(s) && Step(s, s')
    ensures Inv(s') && |s'.ws| == |s.ws|
  {
    if t, c :| Next(s, t, c) == Some(s') {
      InvByNext(s, t, c);
    } else {
      var t :| s' == Spurious(s, t);
      InvBySpurious(s, t);
    }
  }

  lemma JobsAtStart(count: nat)
    ensures JobsOk(Initial(count)) && TicketsOk(Initial(count).ws, Initial(count).sh.jobs)
  {
    var s := Initial(count);
    forall t ensures ViewOf(s, t) == Nothing {}
  }

  lemma CountsAtStart(count: nat)
    ensures CountsOk(Initial(count))
  {
    CountIfExtremes(Initial(count).ws, Counted);
    CountIfExtremes(Initial(count).ws, Alive);
  }

  lemma PhaseAtStart(count: nat)
    ensures LocksOk(Initial(count)) && PhaseOk(Initial(count))
  {
  }

  lemma InvAtStart(count: nat)
    ensures Inv(Initial(count))
  {
    CountsAtStart(count);
    PhaseAtStart(count);
    JobsAtStart(count);
  }

  lemma RunPrefix(r: seq<State>, count: nat)
    requires Run(r, count) && |r| > 1
    ensures Run(r[..|r| - 1], count) && Step(r[|r| - 2], r[|r| - 1])
  {
    var i, j := |r| - 2, |r| - 1;
    assert Step(r[i], r[j]);
  }

  lemma {:induction false} InvAtEnd(r: seq<State>, count: nat)
    requires Run(r, count)
    ensures Inv(r[|r| - 1]) && |r[|r| - 1].ws| == count
  {
    if |r| == 1 {
      InvAtStart(count);
    } else {
      RunPrefix(r, count);
      InvAtEnd(r[..|r| - 1], count);
      InvByStep(r[|r| - 2], r[|r| - 1]);
    }
  }

  // Every state of every run, whatever the interleaving, satisfies `Inv`.
  lemma InvInRun(r: seq<State>, count: nat, i: nat)
    requires Run(r, count) && i < |r|
    ensures Inv(r[i]) && |r[i].ws| == count
  {
    InvAtEnd(r[..i + 1], count);
  }
}
