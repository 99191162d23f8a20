/** Tickets, wake-ups and quiescence are kept, and with them the whole
    invariant. */
module PoolLive {
  import opened Prelude
  import opened PoolModel
  import opened PoolInv
  import opened PoolProof
  import opened PoolQueue

  // ----- Tickets -----

  ghost predicate TicketMove(pc: WorkerPc, pc': WorkerPc, q: Jobs, q': Jobs) {
    if HasTicket(pc) then
      && q'.popped == q.popped
      && (if HasTicket(pc') then pc'.ticket == pc.ticket && q'.returned == q.returned
          else q'.returned == q.returned + {pc.ticket})
    else
      && q'.returned == q.returned
      && (if HasTicket(pc') then pc'.ticket == |q.popped| && |q'.popped| == |q.popped| + 1
          else q'.popped == q.popped)
  }

  lemma TicketMovesAtLoop(pc: WorkerPc, sh: Shared, t: Tid, c: Choice)
    requires AtLoop(pc) && WorkerMove(pc, sh, t, c).Move?
    ensures TicketMove(pc, WorkerMove(pc, sh, t, c).pc, sh.jobs, WorkerMove(pc, sh, t, c).sh.jobs)
  {
  }

  lemma TicketMovesAtQueue(pc: WorkerPc, sh: Shared, t: Tid, c: Choice)
    requires AtQueue(pc) && WorkerMove(pc, sh, t, c).Move?
    ensures TicketMove(pc, WorkerMove(pc, sh, t, c).pc, sh.jobs, WorkerMove(pc, sh, t, c).sh.jobs)
  {
  }

  lemma TicketMovesAtInsert(pc: WorkerPc, sh: Shared, t: Tid, c: Choice)
    requires AtInsert(pc) && WorkerMove(pc, sh, t, c).Move?
    ensures TicketMove(pc, WorkerMove(pc, sh, t, c).pc, sh.jobs, WorkerMove(pc, sh, t, c).sh.jobs)
  {
  }

  lemma TicketMovesAtRun(pc: WorkerPc, sh: Shared, t: Tid, c: Choice)
    requires AtRun(pc) && WorkerMove(pc, sh, t, c).Move?
    ensures TicketMove(pc, WorkerMove(pc, sh, t, c).pc, sh.jobs, WorkerMove(pc, sh, t, c).sh.jobs)
  {
  }

  lemma TicketMovesAtEnd(pc: WorkerPc, sh: Shared, t: Tid, c: Choice)
    requires AtEnd(pc) && WorkerMove(pc, sh, t, c).Move?
    ensures TicketMove(pc, WorkerMove(pc, sh, t, c).pc, sh.jobs, WorkerMove(pc, sh, t, c).sh.jobs)
  {
  }

  lemma TicketMoves(pc: WorkerPc, sh: Shared, t: Tid, c: Choice)
    requires WorkerMove(pc, sh, t, c).Move?
    ensures TicketMove(pc, WorkerMove(pc, sh, t, c).pc, sh.jobs, WorkerMove(pc, sh, t, c).sh.jobs)
  {
    if AtLoop(pc) {
      TicketMovesAtLoop(pc, sh, t, c);
    } else if AtQueue(pc) {
      TicketMovesAtQueue(pc, sh, t, c);
    } else if AtInsert(pc) {
      TicketMovesAtInsert(pc, sh, t, c);
    } else if AtRun(pc) {
      TicketMovesAtRun(pc, sh, t, c);
    } else {
      TicketMovesAtEnd(pc, sh, t, c);
    }
  }

  lemma TicketsKept(ws: seq<WorkerPc>, w: nat, pc: WorkerPc, q: Jobs, q': Jobs)
    requires w < |ws| && TicketsOk(ws, q) && TicketMove(ws[w], pc, q, q')
    ensures TicketsOk(ws[w := pc], q')
  {
    var ws' := ws[w := pc];
    forall v | 0 <= v < |ws| && v != w && HasTicket(ws[v]) && HasTicket(ws[w])
      ensures ws[v].ticket != ws[w].ticket
    {
      assert Before(v, w) || Before(w, v);
    }
    forall i | 0 <= i < |q'.popped|
      ensures i in q'.returned || Held(ws', i)
    {
      assert i < |q.popped| ==> i in q.returned || Held(ws, i);
      if i == |q.popped| {
        assert HasTicket(ws'[w]) && ws'[w].ticket == i;
      } else if i !in q'.returned {
        var v :| 0 <= v < |ws| && HasTicket(ws[v]) && ws[v].ticket == i;
        assert HasTicket(ws'[v]) && ws'[v].ticket == i;
      }
    }
  }

  lemma MainKeepsTickets(pc: MainPc, sh: Shared, count: nat, c: Choice)
    requires MainMove(pc, sh, count, c).Move?
    ensures var q, q' := sh.jobs, MainMove(pc, sh, count, c).sh.jobs;
            q'.popped == q.popped && q'.returned == q.returned
  {
  }

  // ----- Wake-ups on cond2 -----

  predicate PcAnnounces(pc: WorkerPc) { pc.Job? && pc.fn.Inserting? && Announces(pc.fn.ins) }

  predicate WorkerWake(pc: WorkerPc, pc': WorkerPc, head: Option<Node>, head': Option<Node>) {
    && (head'.Some? ==> head.Some? || PcAnnounces(pc'))
    && (head'.Some? && (Awake(pc) || PcAnnounces(pc)) ==> Awake(pc'))
  }

  lemma WorkerWakesAtLoop(pc: WorkerPc, sh: Shared, t: Tid, c: Choice)
    requires AtLoop(pc) && WorkerMove(pc, sh, t, c).Move? && HandOk(sh.jobs, WorkerView(pc), t)
    ensures WorkerWake(pc, WorkerMove(pc, sh, t, c).pc, sh.jobs.head, WorkerMove(pc, sh, t, c).sh.jobs.head)
  {
  }

  lemma WorkerWakesAtQueue(pc: WorkerPc, sh: Shared, t: Tid, c: Choice)
    requires AtQueue(pc) && WorkerMove(pc, sh, t, c).Move? && HandOk(sh.jobs, WorkerView(pc), t)
    ensures WorkerWake(pc, WorkerMove(pc, sh, t, c).pc, sh.jobs.head, WorkerMove(pc, sh, t, c).sh.jobs.head)
  {
  }

  lemma WorkerWakesAtInsert(pc: WorkerPc, sh: Shared, t: Tid, c: Choice)
    requires AtInsert(pc) && WorkerMove(pc, sh, t, c).Move? && HandOk(sh.jobs, WorkerView(pc), t)
    ensures WorkerWake(pc, WorkerMove(pc, sh, t, c).pc, sh.jobs.head, WorkerMove(pc, sh, t, c).sh.jobs.head)
  {
  }

  lemma WorkerWakesAtRun(pc: WorkerPc, sh: Shared, t: Tid, c: Choice)
    requires AtRun(pc) && WorkerMove(pc, sh, t, c).Move? && HandOk(sh.jobs, WorkerView(pc), t)
    ensures WorkerWake(pc, WorkerMove(pc, sh, t, c).pc, sh.jobs.head, WorkerMove(pc, sh, t, c).sh.jobs.head)
  {
  }

  lemma WorkerWakesAtEnd(pc: WorkerPc, sh: Shared, t: Tid, c: Choice)
    requires AtEnd(pc) && WorkerMove(pc, sh, t, c).Move? && HandOk(sh.jobs, WorkerView(pc), t)
    ensures WorkerWake(pc, WorkerMove(pc, sh, t, c).pc, sh.jobs.head, WorkerMove(pc, sh, t, c).sh.jobs.head)
  {
  }

  lemma WorkerWakes(pc: WorkerPc, sh: Shared, t: Tid, c: Choice)
    requires WorkerMove(pc, sh, t, c).Move? && HandOk(sh.jobs, WorkerView(pc), t)
    ensures WorkerWake(pc, WorkerMove(pc, sh, t, c).pc, sh.jobs.head, WorkerMove(pc, sh, t, c).sh.jobs.head)
  {
    if AtLoop(pc) {
      WorkerWakesAtLoop(pc, sh, t, c);
    } else if AtQueue(pc) {
      WorkerWakesAtQueue(pc, sh, t, c);
    } else if AtInsert(pc) {
      WorkerWakesAtInsert(pc, sh, t, c);
    } else if AtRun(pc) {
      WorkerWakesAtRun(pc, sh, t, c);
    } else {
      WorkerWakesAtEnd(pc, sh, t, c);
    }
  }

  lemma WakeByWorker(s: State, w: nat, c: Choice, s': State)
    requires JobsOk(s) && WakeOk(s) && WorkerMoves(s, w, c, s')
    ensures WakeOk(s')
  {
    assert HandOk(s.sh.jobs, ViewOf(s, WorkerThread(w)), WorkerThread(w));
    WorkerWakes(s.ws[w], s.sh, WorkerThread(w), c);
    FlagsMove(s.ws[w], s.sh, WorkerThread(w), c);
    WakeKept(s, w, s'.ws[w], s'.sh);
  }

  lemma WakeKept(s: State, w: nat, pc: WorkerPc, sh: Shared)
    requires WakeOk(s) && w < |s.ws| && sh.flags.active == s.sh.flags.active
    requires WorkerWake(s.ws[w], pc, s.sh.jobs.head, sh.jobs.head)
    ensures WakeOk(State(s.main, s.ws[w := pc], sh))
  {
    var s' := State(s.main, s.ws[w := pc], sh);
    if s'.sh.flags.active && s'.sh.jobs.head.Some? {
      if s.sh.jobs.head.None? {
        assert Announcing(s', WorkerThread(w));
      } else if t :| Announcing(s, t) {
        if t == WorkerThread(w) {
          assert Awake(s'.ws[w]);
        } else {
          assert Announcing(s', t);
        }
      } else {
        var v :| 0 <= v < |s.ws| && Awake(s.ws[v]);
        assert Awake(s'.ws[v]);
      }
    }
  }

  // Main's signal has reached a parked worker, or there was none.
  ghost predicate Heard(ws: seq<WorkerPc>) {
    NoneParked(ws) || exists w :: 0 <= w < |ws| && ws[w] == Look(Waking)
  }

  lemma MainWakes(pc: MainPc, sh: Shared, count: nat, c: Choice)
    requires MainMove(pc, sh, count, c).Move?
    ensures var m := MainMove(pc, sh, count, c);
            && (m.sh.jobs.head.Some? ==> sh.jobs.head.Some? || (m.pc.Adding? && Announces(m.pc.ins)) || pc.FreeJobs?)
            && (pc.Adding? && Announces(pc.ins) ==>
                  (m.pc.Adding? && Announces(m.pc.ins)) || (m.signal == Cond2 && MainHolds3(pc)))
  {
  }

  lemma WakeByMain(s: State, c: Choice, s': State)
    requires LocksOk(s) && PhaseOk(s) && WakeOk(s) && MainMoves(s, c, s')
    requires MainMove(s.main, s.sh, |s.ws|, c).signal == Cond2 ==> Heard(s.ws)
    ensures WakeOk(s')
  {
    MainWakes(s.main, s.sh, |s.ws|, c);
    MainEffect(s.main, s.sh, |s.ws|, c);
    if s'.sh.flags.active && s'.sh.jobs.head.Some? && |s.ws| > 0 {
      if s.sh.jobs.head.None? {
        assert Announcing(s', MainThread);
      } else if t :| Announcing(s, t) {
        if t != MainThread {
          assert Announcing(s', t);
        } else if s'.main.Adding? && Announces(s'.main.ins) {
          assert Announcing(s', MainThread);
        } else if NoneParked(s.ws) {
          assert !Holds3(s.ws[0]);
          assert Awake(s'.ws[0]);
        } else {
          var v :| 0 <= v < |s.ws| && s.ws[v] == Look(Waking);
          assert Awake(s'.ws[v]);
        }
      }
    }
  }

  // ----- Main waiting for quiescence -----

  predicate WorkerSpurs(pc: WorkerPc, pc': WorkerPc, sh: Shared, sh': Shared) {
    && (sh.jobs.head.Some? && sh'.jobs.head.None? ==> Counted(pc'))
    && (Counted(pc) && !Counted(pc') ==> pc' == Leave(LeaveTest))
    && (pc == Leave(LeaveTest) ==>
          sh' == sh && (pc' == Leave(LeaveSignal) || sh.flags.working != 0 || sh.jobs.head.Some?))
    && (pc == Boot(BootCount) ==> pc' == Boot(BootSignal))
    && (Alive(pc) != Alive(pc') ==> pc == Boot(BootCount) || pc == Exit(ExitCount))
  }

  lemma WorkerSpurAtLoop(pc: WorkerPc, sh: Shared, t: Tid, c: Choice)
    requires AtLoop(pc) && WorkerMove(pc, sh, t, c).Move?
    ensures WorkerSpurs(pc, WorkerMove(pc, sh, t, c).pc, sh, WorkerMove(pc, sh, t, c).sh)
  {
  }

  lemma WorkerSpurAtQueue(pc: WorkerPc, sh: Shared, t: Tid, c: Choice)
    requires AtQueue(pc) && WorkerMove(pc, sh, t, c).Move?
    ensures WorkerSpurs(pc, WorkerMove(pc, sh, t, c).pc, sh, WorkerMove(pc, sh, t, c).sh)
  {
  }

  lemma WorkerSpurAtInsert(pc: WorkerPc, sh: Shared, t: Tid, c: Choice)
    requires AtInsert(pc) && WorkerMove(pc, sh, t, c).Move?
    ensures WorkerSpurs(pc, WorkerMove(pc, sh, t, c).pc, sh, WorkerMove(pc, sh, t, c).sh)
  {
  }

  lemma WorkerSpurAtRun(pc: WorkerPc, sh: Shared, t: Tid, c: Choice)
    requires AtRun(pc) && WorkerMove(pc, sh, t, c).Move?
    ensures WorkerSpurs(pc, WorkerMove(pc, sh, t, c).pc, sh, WorkerMove(pc, sh, t, c).sh)
  {
  }

  lemma WorkerSpurAtEnd(pc: WorkerPc, sh: Shared, t: Tid, c: Choice)
    requires AtEnd(pc) && WorkerMove(pc, sh, t, c).Move?
    ensures WorkerSpurs(pc, WorkerMove(pc, sh, t, c).pc, sh, WorkerMove(pc, sh, t, c).sh)
  {
  }

  lemma WorkerSpur(pc: WorkerPc, sh: Shared, t: Tid, c: Choice)
    requires WorkerMove(pc, sh, t, c).Move?
    ensures WorkerSpurs(pc, WorkerMove(pc, sh, t, c).pc, sh, WorkerMove(pc, sh, t, c).sh)
  {
    if AtLoop(pc) {
      WorkerSpurAtLoop(pc, sh, t, c);
    } else if AtQueue(pc) {
      WorkerSpurAtQueue(pc, sh, t, c);
    } else if AtInsert(pc) {
      WorkerSpurAtInsert(pc, sh, t, c);
    } else if AtRun(pc) {
      WorkerSpurAtRun(pc, sh, t, c);
    } else {
      WorkerSpurAtEnd(pc, sh, t, c);
    }
  }

  predicate Signals1(pc: WorkerPc) {
    pc == Boot(BootSignal) || pc == Leave(LeaveSignal) || pc == Exit(ExitSignal)
  }

  lemma WorkerSignals(pc: WorkerPc, sh: Shared, t: Tid, c: Choice)
    requires WorkerMove(pc, sh, t, c).Move?
    ensures WorkerMove(pc, sh, t, c).signal == Cond1 <==> Signals1(pc)
  {
  }

  // The worker pcs, locks and flags of one worker's move, without its cause.
  predicate Shape(s: State, w: nat, pc: WorkerPc, sh: Shared) {
    && w < |s.ws|
    && WorkerLocks(s.sh.locks, sh.locks, WorkerThread(w), s.ws[w], pc)
    && WorkerFlags(s.sh.flags, sh.flags, s.ws[w], pc)
    && WorkerSpurs(s.ws[w], pc, s.sh, sh)
    && (Signals1(s.ws[w]) ==> Signal1(s.main) == s.main)
  }

  lemma WaitKept(s: State, w: nat, pc: WorkerPc, sh: Shared)
    requires LocksOk(s) && CountsOk(s) && WaitOk(s) && Shape(s, w, pc, sh)
    ensures WaitOk(State(s.main, s.ws[w := pc], sh))
  {
    CountIfUpdate(s.ws, w, pc, Counted);
    CountIfExtremes(s.ws[w := pc], Counted);
    assert s.ws[w := pc][w] == pc;
  }

  lemma InitKept(s: State, w: nat, pc: WorkerPc, sh: Shared)
    requires LocksOk(s) && PhaseOk(s) && InitOk(s) && Shape(s, w, pc, sh)
    ensures InitOk(State(s.main, s.ws[w := pc], sh))
  {
  }

  // ----- Main waiting for the workers to exit -----

  predicate WorkerComes(pc: WorkerPc, pc': WorkerPc, active: bool) {
    && (pc' == Look(TestJobs) ==> active)
    && (pc' == Look(LookWait) ==> pc == Look(TestJobs))
    && (Coming(pc) && !Coming(pc') ==> pc' == Look(TestJobs) || pc' == Look(LookWait) || pc == Exit(ExitSignal))
  }

  lemma WorkerCome(pc: WorkerPc, sh: Shared, t: Tid, c: Choice)
    requires WorkerMove(pc, sh, t, c).Move?
    ensures WorkerComes(pc, WorkerMove(pc, sh, t, c).pc, sh.flags.active)
  {
  }

  predicate StopSignalling(m: MainPc) { m == Stop(StopUnlock3) || m == Stop(StopWait) || m == Stop(StopParked) }

  lemma ComingKept(ws: seq<WorkerPc>, w: nat, pc: WorkerPc)
    requires w < |ws| && (Coming(ws[w]) ==> Coming(pc)) && exists v :: 0 <= v < |ws| && Coming(ws[v])
    ensures var ws' := ws[w := pc]; exists v :: 0 <= v < |ws| && Coming(ws'[v])
  {
    var v :| 0 <= v < |ws| && Coming(ws[v]);
    assert Coming(ws[w := pc][v]);
  }

  lemma StopAliveKept(s: State, w: nat, pc: WorkerPc, sh: Shared)
    requires LocksOk(s) && StopOk(s) && Shape(s, w, pc, sh)
    requires s.main == Stop(StopLock3) || s.main == Stop(StopSignal)
    ensures sh.flags.alive != 0
  {
  }

  lemma StopComingKept(s: State, w: nat, pc: WorkerPc)
    requires PhaseOk(s) && StopOk(s) && w < |s.ws| && WorkerComes(s.ws[w], pc, s.sh.flags.active)
    requires StopSignalling(s.main) && s.ws[w] != Exit(ExitSignal)
    ensures var ws' := s.ws[w := pc];
            && (forall v | 0 <= v < |ws'| :: ws'[v] != Look(TestJobs) && ws'[v] != Look(LookWait))
            && (exists v :: 0 <= v < |ws'| && Coming(ws'[v]))
  {
    ComingKept(s.ws, w, pc);
  }

  lemma NotSignalling(s: State, w: nat, pc: WorkerPc, sh: Shared)
    requires LocksOk(s) && Shape(s, w, pc, sh) && StopSignalling(s.main)
    ensures s.ws[w] != Exit(ExitSignal)
  {
  }

  lemma StopKept(s: State, w: nat, pc: WorkerPc, sh: Shared)
    requires LocksOk(s) && PhaseOk(s) && StopOk(s) && Shape(s, w, pc, sh)
    requires WorkerComes(s.ws[w], pc, s.sh.flags.active)
    ensures StopOk(State(s.main, s.ws[w := pc], sh))
  {
    if StopSignalling(s.main) {
      NotSignalling(s, w, pc, sh);
      StopComingKept(s, w, pc);
    } else if s.main == Stop(StopLock3) || s.main == Stop(StopSignal) {
      StopAliveKept(s, w, pc, sh);
    }
  }

  // ----- Quiescence -----

  predicate WorkerCalm(pc: WorkerPc, pc': WorkerPc, q: Jobs, q': Jobs) {
    !HasTicket(pc) && (pc.Get? ==> !pc.get.GetAdvance?) ==>
      !HasTicket(pc') && q'.head == q.head && q'.popped == q.popped && q'.inserted == q.inserted &&
      q'.returned == q.returned
  }

  lemma WorkerCalms(pc: WorkerPc, sh: Shared, t: Tid, c: Choice)
    requires WorkerMove(pc, sh, t, c).Move?
    ensures WorkerCalm(pc, WorkerMove(pc, sh, t, c).pc, sh.jobs, WorkerMove(pc, sh, t, c).sh.jobs)
  {
  }

  // A quiet pool stays quiet whatever its workers do.
  lemma QuietByWorker(s: State, w: nat, c: Choice, s': State)
    requires JobsOk(s) && Quiet(s) && WorkerMoves(s, w, c, s')
    ensures Quiet(s')
  {
    assert HandOk(s.sh.jobs, ViewOf(s, WorkerThread(w)), WorkerThread(w));
    WorkerCalms(s.ws[w], s.sh, WorkerThread(w), c);
  }

  // Holding lock1 with nobody counted as working and nothing queued means that
  // every job is done.
  lemma QuietFound(s: State)
    requires CountsOk(s) && JobsOk(s) && TicketsOk(s.ws, s.sh.jobs) && s.sh.jobs.freed == []
    requires s.sh.flags.working == 0 && s.sh.jobs.head.None? && !s.main.Adding?
    ensures Quiet(s)
  {
    CountIfExtremes(s.ws, Counted);
    assert forall w | 0 <= w < |s.ws| :: !HasTicket(s.ws[w]);
    assert Queue(s.sh.jobs) == [];
    forall i | 0 <= i < |s.sh.jobs.popped|
      ensures i in s.sh.jobs.returned
    {
      assert !Held(s.ws, i);
    }
  }
}
