/** What an error does: it ends `threadpool_wait`, whatever is still queued. */
module PoolErrors {
  import opened Prelude
  import opened PoolModel
  import opened PoolInv
  import opened PoolProof
  import opened PoolSteps
  import opened PoolShutdown
  import opened PoolWait

  // A worker that will come to the end of a job, and has not yet signalled there.
  predicate Owes(pc: WorkerPc) {
    pc.Job? || (pc.Leave? && pc.leave != LeaveUnlock)
  }

  ghost predicate SomebodyOwes(ws: seq<WorkerPc>) { exists w :: 0 <= w < |ws| && Owes(ws[w]) }

  // Main does not start to wait with an error recorded; when it is parked and
  // an error is recorded, somebody will signal; and it knows when it leaves.
  ghost predicate ErrOk(s: State) {
    && (s.main == Wait(WaitWait) ==> !s.sh.flags.err)
    && (s.main == Wait(WaitParked) && s.sh.flags.err ==> SomebodyOwes(s.ws))
    && (s.main.Wait? && s.main.wait.WaitUnlock? ==> s.main.wait.clean == !s.sh.flags.err)
  }

  // ----- One step -----

  lemma OwesOn(pc: WorkerPc, sh: Shared, t: Tid, c: Choice)
    requires Owes(pc) && WorkerMove(pc, sh, t, c).Move? && sh.flags.err
    ensures Owes(WorkerMove(pc, sh, t, c).pc) || WorkerMove(pc, sh, t, c).signal == Cond1
  {
  }

  lemma ErrMove(pc: WorkerPc, sh: Shared, t: Tid, c: Choice)
    requires WorkerMove(pc, sh, t, c).Move?
    ensures
      var m := WorkerMove(pc, sh, t, c);
      && (sh.flags.err ==> m.sh.flags.err)
      && (pc.Job? && pc.fn.FailSet? ==> m.sh.flags.err && m.pc == Job(FailUnlock, pc.ticket))
      && (!(pc.Job? && pc.fn.FailSet?) ==> m.sh.flags.err == sh.flags.err)
  {
    if AtLoop(pc) { ErrMoveAtLoop(pc, sh, t, c); } else if AtQueue(pc) { ErrMoveAtQueue(pc, sh, t, c); }
    else if AtEnd(pc) { ErrMoveAtEnd(pc, sh, t, c); }
  }

  lemma ErrMoveAtLoop(pc: WorkerPc, sh: Shared, t: Tid, c: Choice)
    requires AtLoop(pc) && WorkerMove(pc, sh, t, c).Move?
    ensures WorkerMove(pc, sh, t, c).sh.flags.err == sh.flags.err
  {
  }

  lemma ErrMoveAtQueue(pc: WorkerPc, sh: Shared, t: Tid, c: Choice)
    requires AtQueue(pc) && WorkerMove(pc, sh, t, c).Move?
    ensures WorkerMove(pc, sh, t, c).sh.flags.err == sh.flags.err
  {
  }

  lemma ErrMoveAtEnd(pc: WorkerPc, sh: Shared, t: Tid, c: Choice)
    requires AtEnd(pc) && WorkerMove(pc, sh, t, c).Move?
    ensures WorkerMove(pc, sh, t, c).sh.flags.err == sh.flags.err
  {
  }

  lemma WorkerKeepsErr(s: State, w: nat, c: Choice)
    requires WorkerNext(s, w, c).Some?
    ensures s.sh.flags.err ==> WorkerNext(s, w, c).value.sh.flags.err
    ensures
      s.ws[w].Job? && s.ws[w].fn.FailSet? ==>
      WorkerNext(s, w, c).value.sh.flags.err && WorkerNext(s, w, c).value.ws[w] == Job(FailUnlock, s.ws[w].ticket)
  {
    ErrMove(s.ws[w], s.sh, WorkerThread(w), c);
  }

  // Nobody who owes a signal stops to without signalling.
  lemma OthersOwe(s: State, w: nat, c: Choice, v: nat)
    requires WorkerNext(s, w, c).Some? && v < |s.ws| && Owes(s.ws[v]) && s.sh.flags.err
    ensures Owes(WorkerNext(s, w, c).value.ws[v]) || WorkerNext(s, w, c).value.main == Signal1(s.main)
  {
    if v == w { OwesOn(s.ws[w], s.sh, WorkerThread(w), c); }
  }

  lemma ErrByWorker(s: State, w: nat, c: Choice)
    requires LocksOk(s) && ErrOk(s) && WorkerNext(s, w, c).Some?
    ensures ErrOk(WorkerNext(s, w, c).value)
  {
    var s' := WorkerNext(s, w, c).value;
    ErrMove(s.ws[w], s.sh, WorkerThread(w), c);
    if s'.main == Wait(WaitParked) && s'.sh.flags.err {
      if s.sh.flags.err {
        var v :| 0 <= v < |s.ws| && Owes(s.ws[v]);
        OthersOwe(s, w, c, v);
        assert Owes(s'.ws[v]);
      } else {
        assert Owes(s'.ws[w]);
      }
    }
  }

  lemma ErrByMain(s: State, c: Choice)
    requires ErrOk(s) && MainNext(s, c).Some?
    ensures ErrOk(MainNext(s, c).value)
    ensures s.main.Idle? || MainNext(s, c).value.sh.flags.err == s.sh.flags.err
  {
  }

  lemma ErrBySpurious(s: State, t: Tid)
    requires ErrOk(s)
    ensures ErrOk(Spurious(s, t)) && Spurious(s, t).sh == s.sh
  {
    if t.WorkerThread? && SomebodyOwes(s.ws) {
      var v :| 0 <= v < |s.ws| && Owes(s.ws[v]);
      assert Owes(Spurious(s, t).ws[v]);
    }
  }

  lemma ErrByStep(s: State, s': State)
    requires Inv(s) && ErrOk(s) && Step(s, s')
    ensures ErrOk(s')
    ensures s.sh.flags.err && !s.main.Idle? ==> s'.sh.flags.err
  {
    if t, c :| Next(s, t, c) == Some(s') {
      match t
      case MainThread => ErrByMain(s, c);
      case WorkerThread(w) =>
        ErrByWorker(s, w, c);
        WorkerKeepsErr(s, w, c);
    } else {
      var t :| s' == Spurious(s, t);
      ErrBySpurious(s, t);
    }
  }

  lemma {:induction false} ErrInRun(r: seq<State>, count: nat, i: nat)
    requires Run(r, count) && i < |r|
    ensures ErrOk(r[i])
  {
    if i > 0 {
      var k := i - 1;
      ErrInRun(r, count, k);
      InvInRun(r, count, k);
      assert Step(r[k], r[i]);
      ErrByStep(r[k], r[i]);
    }
  }

  // ----- What follows for runs -----

  function PcOf(s: State, w: nat): WorkerPc { if w < |s.ws| then s.ws[w] else Unborn }

  // Main is in `threadpool_wait` from `i` to `j`.
  ghost predicate WaitsFrom(r: seq<State>, i: nat, j: nat) {
    i <= j < |r| && forall k | i <= k <= j :: r[k].main.Wait?
  }

  // `threadpool_error_assign` records the error, and it stays recorded until
  // main is in its own code again.
  lemma ErrorIsRecorded(r: seq<State>, count: nat, i: nat, w: nat)
    requires Run(r, count) && i + 1 < |r| && PcOf(r[i], w).Job? && PcOf(r[i], w).fn.FailSet?
    requires PcOf(r[i + 1], w) != PcOf(r[i], w)
    ensures r[i + 1].sh.flags.err
  {
    InvInRun(r, count, i);
    InvInRun(r, count, i + 1);
    assert Step(r[i], r[i + 1]);
    FailSetRecords(r[i], r[i + 1], w);
  }

  lemma FailSetRecords(s: State, s': State, w: nat)
    requires PhaseOk(s) && Step(s, s') && w < |s.ws| == |s'.ws| && s.ws[w].Job? && s.ws[w].fn.FailSet?
    requires s'.ws[w] != s.ws[w]
    ensures s'.sh.flags.err
  {
    if t, c :| Next(s, t, c) == Some(s') {
      match t
      case MainThread => MainLeavesJobs(s, c, w);
      case WorkerThread(v) => if v == w { WorkerKeepsErr(s, w, c); } else { OtherMoves(s, v, c, w); }
    }
  }

  lemma MainLeavesJobs(s: State, c: Choice, w: nat)
    requires PhaseOk(s) && MainNext(s, c).Some? && w < |s.ws| && s.ws[w].Job?
    ensures |MainNext(s, c).value.ws| == |s.ws| && MainNext(s, c).value.ws[w] == s.ws[w]
  {
  }

  lemma {:induction false} ErrorStays(r: seq<State>, count: nat, i: nat, j: nat)
    requires Run(r, count) && i <= j < |r| && r[i].sh.flags.err && forall k | i <= k < j :: !r[k].main.Idle?
    ensures r[j].sh.flags.err
    decreases j - i
  {
    if i < j {
      var k := j - 1;
      ErrorStays(r, count, i, k);
      ErrInRun(r, count, k);
      InvInRun(r, count, k);
      assert Step(r[k], r[j]);
      ErrByStep(r[k], r[j]);
    }
  }

  // ----- With an error recorded, main does not wait again -----

  predicate Leaving(m: MainPc) {
    m == Wait(WaitLock) || m == Wait(WaitWaking) || m == Wait(WaitTest) || (m.Wait? && m.wait.WaitUnlock?)
  }

  // How often main changes its program point until it is at the end.
  function TurnsLeft(m: MainPc): nat {
    if m == Wait(WaitParked) then 3
    else if m == Wait(WaitLock) || m == Wait(WaitWaking) then 2
    else if m == Wait(WaitTest) then 1
    else 0
  }

  lemma MainTurnsOnce(s: State, s': State)
    requires ErrOk(s) && Step(s, s') && s.main.Wait? && s'.main.Wait? && s.sh.flags.err
    ensures s'.main == s.main || TurnsLeft(s'.main) < TurnsLeft(s.main)
    ensures Leaving(s.main) ==> Leaving(s'.main)
  {
    if t, c :| Next(s, t, c) == Some(s') {
      if t == MainThread { assert MainNext(s, c) == Some(s'); }
    }
  }

  // (a) Once main has tested with an error recorded, it is not parked again
  // before it is back in its own code.
  lemma {:induction false} NotParkedAgain(r: seq<State>, count: nat, i: nat, j: nat)
    requires Run(r, count) && WaitsFrom(r, i, j) && r[i].sh.flags.err && Leaving(r[i].main)
    ensures Leaving(r[j].main) && r[j].main != Wait(WaitParked) && r[j].main != Wait(WaitWait)
    decreases j - i
  {
    if i < j {
      var k := j - 1;
      NotParkedAgain(r, count, i, k);
      ErrorStays(r, count, i, k);
      ErrInRun(r, count, k);
      assert Step(r[k], r[j]);
      MainTurnsOnce(r[k], r[j]);
    }
  }

  // ----- and it is woken -----

  lemma OwesByStep(s: State, s': State, w: nat)
    requires Inv(s) && Step(s, s') && s.sh.flags.err && w < |s.ws| == |s'.ws| && Owes(s.ws[w])
    requires s.main == Wait(WaitParked) && s'.main == Wait(WaitParked)
    ensures Owes(s'.ws[w])
  {
    if t, c :| Next(s, t, c) == Some(s') {
      match t
      case MainThread =>
      case WorkerThread(v) => OthersOwe(s, v, c, w);
    }
  }

  // (b) A worker with a job or at its end does not come to its loop again while
  // main stays parked with an error recorded: it signals first.
  lemma {:induction false} SignalsFirst(r: seq<State>, count: nat, i: nat, j: nat, w: nat)
    requires Run(r, count) && i <= j < |r| && forall k | i <= k <= j :: r[k].main == Wait(WaitParked)
    requires r[i].sh.flags.err && w < |r[i].ws| && Owes(r[i].ws[w])
    ensures w < |r[j].ws| && Owes(r[j].ws[w])
    decreases j - i
  {
    if i < j {
      var k := j - 1;
      SignalsFirst(r, count, i, k, w);
      ErrorStays(r, count, i, k);
      InvInRun(r, count, k);
      InvInRun(r, count, j);
      assert Step(r[k], r[j]);
      OwesByStep(r[k], r[j], w);
    }
  }

  // Somebody owes the signal whenever main is parked with an error recorded.
  lemma ErrorIsAnnounced(r: seq<State>, count: nat, i: nat)
    requires Run(r, count) && i < |r| && r[i].main == Wait(WaitParked) && r[i].sh.flags.err
    ensures SomebodyOwes(r[i].ws)
  {
    ErrInRun(r, count, i);
  }

  // What main takes for a clean end is one.
  lemma CleanMeansNoError(r: seq<State>, count: nat, i: nat)
    requires Run(r, count) && i < |r| && r[i].main.Wait? && r[i].main.wait.WaitUnlock?
    ensures r[i].main == Wait(WaitUnlock(!r[i].sh.flags.err))
  {
    ErrInRun(r, count, i);
  }

  // ----- How long that takes -----

  // How often main, or worker `w`, has changed its program point.
  function Turns(tail: seq<State>): nat {
    var n := |tail|;
    if n < 2 then 0 else Turns(tail[..n - 1]) + if tail[n - 1].main == tail[n - 2].main then 0 else 1
  }

  predicate Moved(s: State, s': State, w: nat) {
    w < |s.ws| && w < |s'.ws| && s'.ws[w] != s.ws[w]
  }

  // A job function goes on to something else than its end.
  predicate Detour(s: State, s': State, w: nat) {
    Moved(s, s', w) && s.ws[w].Job? && s.ws[w].fn.Running? && !s'.ws[w].Leave?
  }

  function Moves(tail: seq<State>, w: nat): nat {
    var n := |tail|;
    if n < 2 then 0 else Moves(tail[..n - 1], w) + if Moved(tail[n - 2], tail[n - 1], w) then 1 else 0
  }

  function Detours(tail: seq<State>, w: nat): nat {
    var n := |tail|;
    if n < 2 then 0 else Detours(tail[..n - 1], w) + if Detour(tail[n - 2], tail[n - 1], w) then 1 else 0
  }

  // The moves of a worker until it signals.
  function OwedLeft(pc: WorkerPc): nat {
    if pc.Leave? then
      (match pc.leave
       case LeaveLock => 3
       case LeaveCount => 2
       case LeaveTest => 1
       case _ => 0)
    else if pc.Job? then
      (match pc.fn
       case Running => 4
       case FailUnlock => 5
       case FailSet => 6
       case FailLock => 7
       case Inserting(ins, _) =>
         match ins
         case InsUnlock2 => 5
         case InsUnlock3 => 6
         case InsSignal => 7
         case InsLock3 => 8
         case InsSetTail => 9
         case InsMoveTail => 9
         case InsLink => 10
         case InsLock2 => 11)
    else 0
  }

  lemma OwedMove(pc: WorkerPc, sh: Shared, t: Tid, c: Choice)
    requires Owes(pc) && WorkerMove(pc, sh, t, c).Move? && Owes(WorkerMove(pc, sh, t, c).pc)
    requires WorkerMove(pc, sh, t, c).pc != pc
    ensures
      OwedLeft(WorkerMove(pc, sh, t, c).pc) <=
      OwedLeft(pc) + if pc.Job? && pc.fn.Running? && !WorkerMove(pc, sh, t, c).pc.Leave? then 7 else -1
  {
  }

  lemma OwedByStep(s: State, s': State, w: nat)
    requires Inv(s) && Step(s, s') && w < |s.ws| == |s'.ws| && Owes(s.ws[w]) && Owes(s'.ws[w])
    requires s.main.Wait?
    ensures
      OwedLeft(s'.ws[w]) <=
      OwedLeft(s.ws[w]) + if Detour(s, s', w) then 7 else if Moved(s, s', w) then -1 else 0
  {
    if t, c :| Next(s, t, c) == Some(s') {
      match t
      case MainThread => MainLeavesJobsAndEnds(s, c, w);
      case WorkerThread(v) =>
        if v != w {
          OtherMoves(s, v, c, w);
        } else if Moved(s, s', w) {
          OwedMove(s.ws[w], s.sh, WorkerThread(w), c);
        }
    }
  }

  lemma OtherMoves(s: State, v: nat, c: Choice, w: nat)
    requires WorkerNext(s, v, c).Some? && v != w && w < |s.ws| && Owes(s.ws[w])
    ensures WorkerNext(s, v, c).value.ws[w] == s.ws[w]
  {
  }

  lemma MainLeavesJobsAndEnds(s: State, c: Choice, w: nat)
    requires s.main.Wait? && MainNext(s, c).Some? && w < |s.ws|
    ensures MainNext(s, c).value.ws == s.ws
  {
  }

  // All along, worker `w` owes the signal.
  ghost predicate OwesAllAlong(tail: seq<State>, w: nat) {
    forall k | 0 <= k < |tail| :: w < |tail[k].ws| && Owes(tail[k].ws[w])
  }

  // An error ends `threadpool_wait`, whatever is queued: main changes its
  // program point three times at most, and as long as it is parked some worker
  // owes it the signal and comes to it in a number of its own moves that grows
  // with nothing but what its own job function does.
  lemma {:induction false} ErrorEndsWait(r: seq<State>, count: nat, tail: seq<State>)
    requires Run(r, count) && count > 0 && Waits(tail) && tail[0] == r[|r| - 1] && tail[0].sh.flags.err
    ensures Turns(tail) <= 3
    ensures
      tail[|tail| - 1].main == Wait(WaitParked) ==>
      exists w: nat :: OwesAllAlong(tail, w) && w < |tail[0].ws| &&
                  Moves(tail, w) <= OwedLeft(tail[0].ws[w]) + 8 * Detours(tail, w)
  {
    InvAtEnd(r, count);
    assert |r| > 0;
    ErrInRun(r, count, |r| - 1);
    TurnsBounded(tail);
    if tail[|tail| - 1].main == Wait(WaitParked) {
      ParkedAllAlong(tail);
      var w: nat :| w < |tail[0].ws| && Owes(tail[0].ws[w]);
      MovesBounded(tail, w);
    }
  }

  // The invariants along a run that begins where they hold.
  lemma {:induction false} KeptAlong(tail: seq<State>, k: nat)
    requires Waits(tail) && k < |tail| && Inv(tail[0]) && ErrOk(tail[0]) && tail[0].sh.flags.err
    ensures Inv(tail[k]) && ErrOk(tail[k]) && tail[k].sh.flags.err && |tail[k].ws| == |tail[0].ws|
  {
    if k > 0 {
      var j := k - 1;
      KeptAlong(tail, j);
      assert Step(tail[j], tail[k]);
      InvByStep(tail[j], tail[k]);
      ErrByStep(tail[j], tail[k]);
    }
  }

  lemma FrontWaits(tail: seq<State>)
    requires Waits(tail) && |tail| > 1
    ensures Waits(tail[..|tail| - 1])
  {
    var front := tail[..|tail| - 1];
    forall i, j | 0 <= i < |front| && j == i + 1 < |front| ensures Step(front[i], front[j]) {
      assert Step(tail[i], tail[j]);
    }
  }

  lemma {:induction false} TurnsBounded(tail: seq<State>)
    requires Waits(tail) && Inv(tail[0]) && ErrOk(tail[0]) && tail[0].sh.flags.err
    ensures Turns(tail) + TurnsLeft(tail[|tail| - 1].main) <= TurnsLeft(tail[0].main)
  {
    if |tail| > 1 {
      var n := |tail|;
      FrontWaits(tail);
      TurnsBounded(tail[..n - 1]);
      KeptAlong(tail, n - 2);
      assert Step(tail[n - 2], tail[n - 1]);
      MainTurnsOnce(tail[n - 2], tail[n - 1]);
    }
  }

  lemma {:induction false} ParkedAllAlong(tail: seq<State>)
    requires Waits(tail) && Inv(tail[0]) && ErrOk(tail[0]) && tail[0].sh.flags.err
    requires tail[|tail| - 1].main == Wait(WaitParked)
    ensures forall k | 0 <= k < |tail| :: tail[k].main == Wait(WaitParked)
  {
    if |tail| > 1 {
      var n := |tail|;
      FrontWaits(tail);
      KeptAlong(tail, n - 2);
      assert Step(tail[n - 2], tail[n - 1]);
      MainTurnsOnce(tail[n - 2], tail[n - 1]);
      ParkedAllAlong(tail[..n - 1]);
      forall k | 0 <= k < n ensures tail[k].main == Wait(WaitParked) {
        if k < n - 1 { assert tail[..n - 1][k] == tail[k]; }
      }
    }
  }

  lemma {:induction false} MovesBounded(tail: seq<State>, w: nat)
    requires Waits(tail) && Inv(tail[0]) && ErrOk(tail[0]) && tail[0].sh.flags.err
    requires forall k | 0 <= k < |tail| :: tail[k].main == Wait(WaitParked)
    requires w < |tail[0].ws| && Owes(tail[0].ws[w])
    ensures OwesAllAlong(tail, w)
    ensures
      Moves(tail, w) + OwedLeft(tail[|tail| - 1].ws[w]) <= OwedLeft(tail[0].ws[w]) + 8 * Detours(tail, w)
  {
    if |tail| > 1 {
      var n := |tail|;
      var front := tail[..n - 1];
      FrontWaits(tail);
      MovesBounded(front, w);
      assert front[n - 2] == tail[n - 2];
      LastMove(tail, n - 2, w);
      forall k | 0 <= k < n ensures w < |tail[k].ws| && Owes(tail[k].ws[w]) {
        if k < n - 1 { assert front[k] == tail[k]; }
      }
    }
  }

  lemma LastMove(tail: seq<State>, k: nat, w: nat)
    requires Waits(tail) && Inv(tail[0]) && ErrOk(tail[0]) && tail[0].sh.flags.err && k + 1 < |tail|
    requires tail[k].main == Wait(WaitParked) && tail[k + 1].main == Wait(WaitParked)
    requires w < |tail[k].ws| && Owes(tail[k].ws[w])
    ensures w < |tail[k + 1].ws| && Owes(tail[k + 1].ws[w])
    ensures
      OwedLeft(tail[k + 1].ws[w]) <=
      OwedLeft(tail[k].ws[w]) +
      if Detour(tail[k], tail[k + 1], w) then 7 else if Moved(tail[k], tail[k + 1], w) then -1 else 0
  {
    KeptAlong(tail, k);
    KeptAlong(tail, k + 1);
    assert Step(tail[k], tail[k + 1]);
    OwesByStep(tail[k], tail[k + 1], w);
    OwedByStep(tail[k], tail[k + 1], w);
  }

  // ----- Signals to main -----

  // Main has a reason to look again: nobody works and nothing is queued, or a
  // job has recorded an error.
  predicate Ready(sh: Shared) { (sh.flags.working == 0 && sh.jobs.head.None?) || sh.flags.err }

  // The worker has tested for that at `i` and has stood at its signal since.
  ghost predicate TestedAt(r: seq<State>, w: nat, i: nat, j: nat)
    requires i < j < |r|
  {
    && PcOf(r[i], w) == Leave(LeaveTest) && Ready(r[i].sh)
    && forall k | i < k <= j :: PcOf(r[k], w) == Leave(LeaveSignal)
  }

  // A worker that finishes a job signals main only after it has found a reason.
  lemma {:induction false} SignalHasReason(r: seq<State>, count: nat, j: nat, w: nat)
    requires Run(r, count) && j < |r| && PcOf(r[j], w) == Leave(LeaveSignal)
    ensures exists i: nat :: i < j && TestedAt(r, w, i, j)
  {
    if j > 0 {
      var k := j - 1;
      InvInRun(r, count, k);
      InvInRun(r, count, j);
      assert Step(r[k], r[j]);
      ReasonStep(r[k], r[j], w);
      if PcOf(r[k], w) == Leave(LeaveSignal) {
        SignalHasReason(r, count, k, w);
        var i: nat :| i < k && TestedAt(r, w, i, k);
        assert TestedAt(r, w, i, j);
      } else {
        assert TestedAt(r, w, k, j);
      }
    }
  }

  lemma ReasonStep(s: State, s': State, w: nat)
    requires PhaseOk(s) && Step(s, s') && |s.ws| == |s'.ws| && w < |s.ws| && s'.ws[w] == Leave(LeaveSignal)
    ensures s.ws[w] == Leave(LeaveSignal) || (s.ws[w] == Leave(LeaveTest) && Ready(s.sh))
  {
    if s.ws[w] == Leave(LeaveSignal) { return; }
    if t, c :| Next(s, t, c) == Some(s') {
      match t
      case MainThread => MainMovesNobodyThere(s, c, w);
      case WorkerThread(v) =>
        if v == w { ToSignal(s.ws[w], s.sh, t, c); } else { OtherMoves(s, v, c, w); }
    }
  }

  lemma ToSignal(pc: WorkerPc, sh: Shared, t: Tid, c: Choice)
    requires WorkerMove(pc, sh, t, c).Move? && WorkerMove(pc, sh, t, c).pc == Leave(LeaveSignal)
    ensures pc == Leave(LeaveTest) && Ready(sh)
  {
  }

  lemma MainMovesNobodyThere(s: State, c: Choice, w: nat)
    requires MainNext(s, c).Some? && w < |s.ws| && w < |MainNext(s, c).value.ws|
    ensures MainNext(s, c).value.ws[w] == Leave(LeaveSignal) ==> s.ws[w] == Leave(LeaveSignal)
  {
  }
}
