/** Locks, counters and phases are kept by every step of the pool. */
module PoolProof {
  import opened Prelude
  import opened PoolModel
  import opened PoolInv

  // A worker's move with its signal already delivered.
  ghost predicate WorkerMoves(s: State, w: nat, c: Choice, s': State) {
    && w < |s.ws|
    && var m := WorkerMove(s.ws[w], s.sh, WorkerThread(w), c);
    && m.Move?
    && s' == State(s.main, s.ws[w := m.pc], m.sh)
  }

  ghost predicate MainMoves(s: State, c: Choice, s': State) {
    && var m := MainMove(s.main, s.sh, |s.ws|, c);
    && m.Move?
    && s' == State(m.pc, s.ws, m.sh)
  }

  // ----- What one move does to the locks and the counters -----

  predicate LockMove(l: Option<Tid>, l': Option<Tid>, t: Tid, h: bool, h': bool) {
    if h == h' then l' == l
    else if h' then l.None? && l' == Some(t)
    else l'.None?
  }

  predicate WorkerLocks(l: Locks, l': Locks, t: Tid, pc: WorkerPc, pc': WorkerPc) {
    && LockMove(l.one, l'.one, t, Holds1(pc), Holds1(pc'))
    && LockMove(l.two, l'.two, t, Holds2(pc), Holds2(pc'))
    && LockMove(l.three, l'.three, t, Holds3(pc), Holds3(pc'))
  }

  function One(b: bool): int { if b then 1 else 0 }

  predicate WorkerFlags(f: Flags, f': Flags, pc: WorkerPc, pc': WorkerPc) {
    && f'.active == f.active
    && f'.working == f.working - One(Counted(pc)) + One(Counted(pc'))
    && f'.alive == f.alive - One(Alive(pc)) + One(Alive(pc'))
  }

  predicate MainLocks(l: Locks, l': Locks, pc: MainPc, pc': MainPc) {
    && LockMove(l.one, l'.one, MainThread, MainHolds1(pc), MainHolds1(pc'))
    && LockMove(l.two, l'.two, MainThread, MainHolds2(pc), MainHolds2(pc'))
    && LockMove(l.three, l'.three, MainThread, MainHolds3(pc), MainHolds3(pc'))
  }

  // The parts of a worker's way.
  predicate AtLoop(pc: WorkerPc) { pc.Boot? || pc.Look? || pc.Enter? }

  predicate AtQueue(pc: WorkerPc) { pc.Get? || pc.Take? }

  predicate AtInsert(pc: WorkerPc) { pc.Job? && pc.fn.Inserting? }

  predicate AtRun(pc: WorkerPc) { pc.Job? && !pc.fn.Inserting? }

  predicate AtEnd(pc: WorkerPc) { pc.Leave? || pc.Exit? }

  lemma LocksMoveAtLoop(pc: WorkerPc, sh: Shared, t: Tid, c: Choice)
    requires AtLoop(pc) && WorkerMove(pc, sh, t, c).Move?
    ensures WorkerLocks(sh.locks, WorkerMove(pc, sh, t, c).sh.locks, t, pc, WorkerMove(pc, sh, t, c).pc)
  {
  }

  lemma LocksMoveAtQueue(pc: WorkerPc, sh: Shared, t: Tid, c: Choice)
    requires AtQueue(pc) && WorkerMove(pc, sh, t, c).Move?
    ensures WorkerLocks(sh.locks, WorkerMove(pc, sh, t, c).sh.locks, t, pc, WorkerMove(pc, sh, t, c).pc)
  {
  }

  lemma LocksMoveAtInsert(pc: WorkerPc, sh: Shared, t: Tid, c: Choice)
    requires AtInsert(pc) && WorkerMove(pc, sh, t, c).Move?
    ensures WorkerLocks(sh.locks, WorkerMove(pc, sh, t, c).sh.locks, t, pc, WorkerMove(pc, sh, t, c).pc)
  {
  }

  lemma LocksMoveAtRun(pc: WorkerPc, sh: Shared, t: Tid, c: Choice)
    requires AtRun(pc) && WorkerMove(pc, sh, t, c).Move?
    ensures WorkerLocks(sh.locks, WorkerMove(pc, sh, t, c).sh.locks, t, pc, WorkerMove(pc, sh, t, c).pc)
  {
  }

  lemma LocksMoveAtEnd(pc: WorkerPc, sh: Shared, t: Tid, c: Choice)
    requires AtEnd(pc) && WorkerMove(pc, sh, t, c).Move?
    ensures WorkerLocks(sh.locks, WorkerMove(pc, sh, t, c).sh.locks, t, pc, WorkerMove(pc, sh, t, c).pc)
  {
  }

  lemma LocksMove(pc: WorkerPc, sh: Shared, t: Tid, c: Choice)
    requires WorkerMove(pc, sh, t, c).Move?
    ensures WorkerLocks(sh.locks, WorkerMove(pc, sh, t, c).sh.locks, t, pc, WorkerMove(pc, sh, t, c).pc)
  {
    if AtLoop(pc) {
      LocksMoveAtLoop(pc, sh, t, c);
    } else if AtQueue(pc) {
      LocksMoveAtQueue(pc, sh, t, c);
    } else if AtInsert(pc) {
      LocksMoveAtInsert(pc, sh, t, c);
    } else if AtRun(pc) {
      LocksMoveAtRun(pc, sh, t, c);
    } else {
      LocksMoveAtEnd(pc, sh, t, c);
    }
  }

  lemma FlagsMoveAtLoop(pc: WorkerPc, sh: Shared, t: Tid, c: Choice)
    requires AtLoop(pc) && WorkerMove(pc, sh, t, c).Move?
    ensures WorkerFlags(sh.flags, WorkerMove(pc, sh, t, c).sh.flags, pc, WorkerMove(pc, sh, t, c).pc)
  {
  }

  lemma FlagsMoveAtQueue(pc: WorkerPc, sh: Shared, t: Tid, c: Choice)
    requires AtQueue(pc) && WorkerMove(pc, sh, t, c).Move?
    ensures WorkerFlags(sh.flags, WorkerMove(pc, sh, t, c).sh.flags, pc, WorkerMove(pc, sh, t, c).pc)
  {
  }

  lemma FlagsMoveAtInsert(pc: WorkerPc, sh: Shared, t: Tid, c: Choice)
    requires AtInsert(pc) && WorkerMove(pc, sh, t, c).Move?
    ensures WorkerFlags(sh.flags, WorkerMove(pc, sh, t, c).sh.flags, pc, WorkerMove(pc, sh, t, c).pc)
  {
  }

  lemma FlagsMoveAtRun(pc: WorkerPc, sh: Shared, t: Tid, c: Choice)
    requires AtRun(pc) && WorkerMove(pc, sh, t, c).Move?
    ensures WorkerFlags(sh.flags, WorkerMove(pc, sh, t, c).sh.flags, pc, WorkerMove(pc, sh, t, c).pc)
  {
  }

  lemma FlagsMoveAtEnd(pc: WorkerPc, sh: Shared, t: Tid, c: Choice)
    requires AtEnd(pc) && WorkerMove(pc, sh, t, c).Move?
    ensures WorkerFlags(sh.flags, WorkerMove(pc, sh, t, c).sh.flags, pc, WorkerMove(pc, sh, t, c).pc)
  {
  }

  lemma FlagsMove(pc: WorkerPc, sh: Shared, t: Tid, c: Choice)
    requires WorkerMove(pc, sh, t, c).Move?
    ensures WorkerFlags(sh.flags, WorkerMove(pc, sh, t, c).sh.flags, pc, WorkerMove(pc, sh, t, c).pc)
  {
    if AtLoop(pc) {
      FlagsMoveAtLoop(pc, sh, t, c);
    } else if AtQueue(pc) {
      FlagsMoveAtQueue(pc, sh, t, c);
    } else if AtInsert(pc) {
      FlagsMoveAtInsert(pc, sh, t, c);
    } else if AtRun(pc) {
      FlagsMoveAtRun(pc, sh, t, c);
    } else {
      FlagsMoveAtEnd(pc, sh, t, c);
    }
  }

  lemma MainEffect(pc: MainPc, sh: Shared, count: nat, c: Choice)
    requires MainMove(pc, sh, count, c).Move?
    ensures var m := MainMove(pc, sh, count, c);
            && MainLocks(sh.locks, m.sh.locks, pc, m.pc)
            && m.sh.flags.working == sh.flags.working && m.sh.flags.alive == sh.flags.alive
            && m.sh.flags.active == (sh.flags.active && pc != Stop(StopFlag))
  {
  }

  // ----- Locks -----

  lemma LocksByWorker(s: State, w: nat, c: Choice, s': State)
    requires LocksOk(s) && WorkerMoves(s, w, c, s')
    ensures LocksOk(s')
  {
    LocksMove(s.ws[w], s.sh, WorkerThread(w), c);
  }

  lemma LocksByMain(s: State, c: Choice, s': State)
    requires LocksOk(s) && MainMoves(s, c, s')
    ensures LocksOk(s')
  {
    MainEffect(s.main, s.sh, |s.ws|, c);
  }

  // ----- Counters -----

  lemma {:induction false} CountIfUpdate(ws: seq<WorkerPc>, i: nat, pc: WorkerPc, p: WorkerPc -> bool)
    requires i < |ws|
    ensures CountIf(ws[i := pc], p) == CountIf(ws, p) - One(p(ws[i])) + One(p(pc))
  {
    var n := |ws| - 1;
    if i == n {
      assert ws[i := pc][..n] == ws[..n];
    } else {
      assert ws[i := pc][..n] == ws[..n][i := pc];
      CountIfUpdate(ws[..n], i, pc, p);
    }
  }

  lemma {:induction false} CountIfExtremes(ws: seq<WorkerPc>, p: WorkerPc -> bool)
    ensures CountIf(ws, p) <= |ws|
    ensures CountIf(ws, p) == 0 <==> forall i | 0 <= i < |ws| :: !p(ws[i])
    ensures CountIf(ws, p) == |ws| <==> forall i | 0 <= i < |ws| :: p(ws[i])
  {
    if |ws| > 0 {
      var n := |ws| - 1;
      CountIfExtremes(ws[..n], p);
      assert forall i | 0 <= i < n :: ws[..n][i] == ws[i];
    }
  }

  lemma CountsByWorker(s: State, w: nat, c: Choice, s': State)
    requires CountsOk(s) && WorkerMoves(s, w, c, s')
    ensures CountsOk(s')
  {
    FlagsMove(s.ws[w], s.sh, WorkerThread(w), c);
    CountIfUpdate(s.ws, w, s'.ws[w], Counted);
    CountIfUpdate(s.ws, w, s'.ws[w], Alive);
  }

  // ----- Phases -----

  predicate WorkerPhase(f: Flags, pc: WorkerPc, pc': WorkerPc) {
    && !pc.Unborn? && !pc'.Unborn?
    && (Unstarted(pc') ==> Unstarted(pc))
    && (f.active && (pc'.Exit? || pc'.Done?) ==> pc.Exit? || pc.Done?)
    && (Gone(pc) ==> Gone(pc') && !pc.Done?)
  }

  lemma WorkerPhases(pc: WorkerPc, sh: Shared, t: Tid, c: Choice)
    requires WorkerMove(pc, sh, t, c).Move?
    ensures WorkerPhase(sh.flags, pc, WorkerMove(pc, sh, t, c).pc)
  {
    match pc
    case Boot(b) =>
    case Look(b) =>
    case Enter(b) =>
    case Get(b) =>
    case Take(b, x, i) =>
    case Job(b, i) =>
    case Leave(b) =>
    case Exit(b) =>
  }

  lemma PhaseByWorker(s: State, w: nat, c: Choice, s': State)
    requires PhaseOk(s) && WorkerMoves(s, w, c, s')
    ensures PhaseOk(s')
  {
    FlagsMove(s.ws[w], s.sh, WorkerThread(w), c);
    WorkerPhases(s.ws[w], s.sh, WorkerThread(w), c);
  }

  predicate MainPhase(pc: MainPc, sh: Shared, count: nat, pc': MainPc) {
    && !pc.Spawn? && !pc'.Spawn?
    && (Stopping(pc') <==> Stopping(pc) || pc == Stop(StopFlag))
    && (Booted(pc') ==> Booted(pc) || (sh.flags.alive == count && MainHolds1(pc)))
    && (Emptied(pc') ==> Emptied(pc) || (Stopping(pc) && Booted(pc) && sh.flags.alive == 0 && MainHolds1(pc)))
    && (pc'.Finished? ==> pc.Finished?)
  }

  lemma MainPhases(pc: MainPc, sh: Shared, count: nat, c: Choice)
    requires MainMove(pc, sh, count, c).Move?
    ensures MainPhase(pc, sh, count, MainMove(pc, sh, count, c).pc)
  {
  }

  lemma PhaseByMain(s: State, c: Choice, s': State)
    requires LocksOk(s) && CountsOk(s) && PhaseOk(s) && MainMoves(s, c, s')
    ensures PhaseOk(s')
  {
    MainEffect(s.main, s.sh, |s.ws|, c);
    MainPhases(s.main, s.sh, |s.ws|, c);
    CountIfExtremes(s.ws, Alive);
  }
}
