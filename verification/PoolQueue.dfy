/** The linked queue: every step that touches it keeps it a FIFO chain. */
module PoolQueue {
  import opened Prelude
  import opened PoolModel
  import opened PoolInv
  import opened PoolProof

  // What one step of thread `t` does to the queue, by its views before and after.
  ghost predicate JobsMove(q: Jobs, q': Jobs, v: View, v': View, t: Tid, c: Choice) {
    match v
    case Nothing =>
      || (q' == q && (v'.Nothing? || (v'.Advancing? && q.head == Some(v'.x))))
      || (v'.ToInsert? && Grab(q, t, c) == Some((q', v'.x)))
      || (v'.Nothing? && Discards(q, q', c))
      || (v'.Nothing? && exists i :: q' == q.(returned := q.returned + {i}))
    case ToInsert(x) =>
      || (q' == q && v' == v)
      || (Link(q, x).Some? && q' == Link(q, x).value.0 && v' == InsertView(Link(q, x).value.1, x))
    case SettingTail(x) => v'.Nothing? && q' == q.(tail := Some(x))
    case MovingTail(x) =>
      v'.Nothing? && q.tail.Some? && q.tail.value in q.next && q' == q.(tail := q.next[q.tail.value])
    case Advancing(x) => v' == Detaching(x) && Pop(q, t, x) == Some(q')
    case Detaching(x) => v' == FixingTail(x) && q' == q.(next := q.next[x := None])
    case FixingTail(x) => v' == Taken(x) && q' == if q.head.None? then q.(tail := None) else q
    case Taken(x) => (q' == q && v' == v) || (v'.Nothing? && q' == q.(place := q.place[x := Loose]))
  }

  ghost predicate Discards(q: Jobs, q': Jobs, c: Choice) {
    && c.FreeLoose? && c.dead in q.place && q.place[c.dead] == Loose
    && q' == q.(place := q.place - {c.dead}, next := q.next - {c.dead})
  }

  lemma JobsMoveByInsert(ins: InsertPc, x: Node, sh: Shared, t: Tid, c: Choice)
    requires InsertMove(ins, x, sh, t).Move?
    ensures var m := InsertMove(ins, x, sh, t);
            JobsMove(sh.jobs, m.sh.jobs, InsertView(ins, x),
                     if m.pc.Some? then InsertView(m.pc.value, x) else Nothing, t, c)
  {
  }

  lemma JobsMoveByLoop(pc: WorkerPc, sh: Shared, t: Tid, c: Choice)
    requires (AtLoop(pc) || AtEnd(pc)) && WorkerMove(pc, sh, t, c).Move?
    ensures var m := WorkerMove(pc, sh, t, c);
            JobsMove(sh.jobs, m.sh.jobs, WorkerView(pc), WorkerView(m.pc), t, c)
  {
  }

  lemma JobsMoveByQueue(pc: WorkerPc, sh: Shared, t: Tid, c: Choice)
    requires AtQueue(pc) && WorkerMove(pc, sh, t, c).Move?
    ensures var m := WorkerMove(pc, sh, t, c);
            JobsMove(sh.jobs, m.sh.jobs, WorkerView(pc), WorkerView(m.pc), t, c)
  {
  }

  lemma JobsMoveByJob(pc: WorkerPc, sh: Shared, t: Tid, c: Choice)
    requires pc.Job? && WorkerMove(pc, sh, t, c).Move?
    ensures var m := WorkerMove(pc, sh, t, c);
            JobsMove(sh.jobs, m.sh.jobs, WorkerView(pc), WorkerView(m.pc), t, c)
  {
    if pc.fn.Inserting? { JobsMoveByInsert(pc.fn.ins, pc.fn.node, sh, t, c); }
  }

  lemma JobsMoveByWorker(pc: WorkerPc, sh: Shared, t: Tid, c: Choice)
    requires WorkerMove(pc, sh, t, c).Move?
    ensures var m := WorkerMove(pc, sh, t, c);
            JobsMove(sh.jobs, m.sh.jobs, WorkerView(pc), WorkerView(m.pc), t, c)
  {
    if pc.Job? {
      JobsMoveByJob(pc, sh, t, c);
    } else if AtQueue(pc) {
      JobsMoveByQueue(pc, sh, t, c);
    } else {
      JobsMoveByLoop(pc, sh, t, c);
    }
  }

  lemma JobsMoveByMain(pc: MainPc, sh: Shared, count: nat, c: Choice)
    requires MainMove(pc, sh, count, c).Move? && !pc.FreeJobs?
    ensures var m := MainMove(pc, sh, count, c);
            JobsMove(sh.jobs, m.sh.jobs, MainView(pc), MainView(m.pc), MainThread, c)
  {
    if pc.Adding? {
      JobsMoveByInsert(pc.ins, pc.node, sh, MainThread, c);
    }
  }

  // ----- Chains -----

  lemma ChainFrame(head: Option<Node>, next: map<Node, Option<Node>>, next': map<Node, Option<Node>>, nodes: seq<Node>)
    requires Chain(head, next, nodes)
    requires forall x | x in nodes && x in next :: x in next' && next'[x] == next[x]
    ensures Chain(head, next', nodes)
  {
    forall i | 0 <= i < |nodes|
      ensures nodes[i] in next' && next'[nodes[i]] == if i + 1 < |nodes| then Some(nodes[i + 1]) else None
    {
      assert nodes[i] in next;
    }
  }

  lemma ChainRest(head: Option<Node>, next: map<Node, Option<Node>>, nodes: seq<Node>)
    requires Chain(head, next, nodes) && nodes != []
    ensures nodes[0] in next && Chain(next[nodes[0]], next, nodes[1..])
  {
    var rest := nodes[1..];
    assert nodes[0] in next;
    forall i | 0 <= i < |rest|
      ensures rest[i] in next && next[rest[i]] == if i + 1 < |rest| then Some(rest[i + 1]) else None
    {
      assert rest[i] == nodes[i + 1] && nodes[i + 1] in next;
      assert i + 1 < |rest| ==> rest[i + 1] == nodes[i + 2];
    }
  }

  lemma ChainAppend(head: Option<Node>, next: map<Node, Option<Node>>, nodes: seq<Node>, x: Node)
    requires Chain(head, next, nodes) && NoDup(nodes) && nodes != []
    requires x !in nodes && x in next && next[x].None?
    ensures Chain(head, next[nodes[|nodes| - 1] := Some(x)], nodes + [x])
    ensures NoDup(nodes + [x])
  {
    var last := |nodes| - 1;
    var next' := next[nodes[last] := Some(x)];
    var longer := nodes + [x];
    assert forall i | 0 <= i <= last :: longer[i] == nodes[i];
    assert longer[last + 1] == x;
    forall i | 0 <= i <= last + 1
      ensures longer[i] in next'
      ensures next'[longer[i]] == if i <= last then Some(longer[i + 1]) else None
    {
      if i < last {
        assert nodes[i] in next && Before(i, last) && nodes[i] != nodes[last];
      }
    }
  }

  lemma NotLinked(
    head: Option<Node>, next: map<Node, Option<Node>>, place: map<Node, Place>, nodes: seq<Node>, x: Node)
    requires Linked(head, next, place, nodes) && (x in place ==> place[x] != Queued)
    ensures x !in nodes
  {
    forall i | 0 <= i < |nodes|
      ensures nodes[i] != x
    {
      assert nodes[i] in next.Keys;
      assert nodes[i] in nodes;
    }
  }

  // Linking `x` behind the last node, or as the only one.
  lemma LinkedMore(
    head: Option<Node>, next: map<Node, Option<Node>>, place: map<Node, Place>, nodes: seq<Node>, x: Node)
    requires Linked(head, next, place, nodes) && x in place && place[x] != Queued && next[x].None?
    ensures nodes == [] ==> Linked(Some(x), next, place[x := Queued], [x])
    ensures nodes != [] ==> nodes[|nodes| - 1] in next
    ensures nodes != [] ==> Linked(head, next[nodes[|nodes| - 1] := Some(x)], place[x := Queued], nodes + [x])
  {
    NotLinked(head, next, place, nodes, x);
    if nodes != [] {
      var last := nodes[|nodes| - 1];
      ChainAppend(head, next, nodes, x);
      assert last in nodes && last in next.Keys && last in place && place[last] == Queued;
      assert next[last := Some(x)].Keys == place[x := Queued].Keys;
    }
  }

  // Taking the first node off.
  lemma LinkedLess(
    head: Option<Node>, next: map<Node, Option<Node>>, place: map<Node, Place>, nodes: seq<Node>, t: Tid)
    requires Linked(head, next, place, nodes) && nodes != []
    ensures nodes[0] in next && nodes[0] in place
    ensures Linked(next[nodes[0]], next, place[nodes[0] := Hand(t)], nodes[1..])
    ensures Linked(next[nodes[0]], next - {nodes[0]}, place - {nodes[0]}, nodes[1..])
  {
    var x := nodes[0];
    var rest := nodes[1..];
    ChainRest(head, next, nodes);
    forall i | 0 <= i < |rest| ensures rest[i] != x { assert Before(0, i + 1) && rest[i] == nodes[i + 1]; }
    assert x in next.Keys && x !in rest;
    forall i, j | 0 <= i < j < |rest| ensures rest[i] != rest[j] {
      assert Before(i + 1, j + 1) && rest[i] == nodes[i + 1] && rest[j] == nodes[j + 1];
    }
    ChainFrame(next[x], next, next - {x}, rest);
    assert (next - {x}).Keys == (place - {x}).Keys;
    assert next.Keys == place[x := Hand(t)].Keys;
    assert forall y | y != x :: y in nodes <==> y in rest;
  }

  // ----- Each kind of step keeps the queue -----

  lemma NotQueued(q: Jobs, x: Node)
    requires QueueOk(q) && (x in q.place ==> q.place[x] != Queued)
    ensures x !in Queue(q)
  {
    NotLinked(q.head, q.next, q.place, Queue(q), x);
  }

  lemma LinkHistory(q: Jobs, x: Node)
    requires QueueOk(q) && Link(q, x).Some?
    ensures var q' := Link(q, x).value.0;
            && Removed(q') == Removed(q) && |q'.inserted| == |q.inserted| + 1
            && q'.inserted[..Removed(q')] == q'.popped + q'.freed
            && Queue(q') == Queue(q) + [x]
  {
    var q' := Link(q, x).value.0;
    assert q'.inserted[..Removed(q)] == q.inserted[..Removed(q)];
    assert Queue(q') == Queue(q) + [x];
  }

  lemma LinkFirst(q: Jobs, x: Node, t: Tid)
    requires QueueOk(q) && HandOk(q, ToInsert(x), t) && Queue(q) == []
    ensures Link(q, x).Some? && Link(q, x).value.1 == InsSetTail
    ensures QueueOk(Link(q, x).value.0) && Queue(Link(q, x).value.0) == [x]
  {
    LinkHistory(q, x);
    LinkedMore(q.head, q.next, q.place, [], x);
    assert [] + [x] == [x];
  }

  lemma LinkBehind(q: Jobs, x: Node, t: Tid)
    requires QueueOk(q) && HandOk(q, ToInsert(x), t) && Queue(q) != [] && q.tail == Last(Queue(q))
    ensures Link(q, x).Some? && Link(q, x).value.1 == InsMoveTail && Link(q, x).value.0.tail == q.tail
    ensures QueueOk(Link(q, x).value.0) && Queue(Link(q, x).value.0) == Queue(q) + [x]
  {
    LinkHistory(q, x);
    LinkedMore(q.head, q.next, q.place, Queue(q), x);
  }

  lemma LinkKeeps(q: Jobs, x: Node, t: Tid)
    requires QueueOk(q) && q.freed == [] && TailOk(q, Nothing) && HandOk(q, ToInsert(x), t)
    ensures Link(q, x).Some?
    ensures var r := Link(q, x).value;
            QueueOk(r.0) && r.0.freed == [] && TailOk(r.0, InsertView(r.1, x)) && Queue(r.0) == Queue(q) + [x]
  {
    if Queue(q) == [] {
      LinkFirst(q, x, t);
      assert [] + [x] == [x];
    } else {
      LinkBehind(q, x, t);
    }
  }

  lemma HeadRemoved(q: Jobs, q': Jobs)
    requires QueueOk(q) && q.head.Some? && q'.inserted == q.inserted && Removed(q') == Removed(q) + 1
    ensures Queue(q) != [] && Queue(q)[0] == q.head.value
    ensures Queue(q') == Queue(q)[1..]
    ensures q.inserted[..Removed(q')] == q.popped + q.freed + [q.head.value]
  {
    assert Queue(q') == Queue(q)[1..];
    assert q.inserted[..Removed(q')] == q.inserted[..Removed(q)] + [q.inserted[Removed(q)]];
  }

  lemma PopKeeps(q: Jobs, x: Node, t: Tid)
    requires QueueOk(q) && q.freed == [] && TailOk(q, Nothing) && q.head == Some(x)
    ensures Pop(q, t, x).Some?
    ensures var q' := Pop(q, t, x).value;
            && QueueOk(q') && q'.freed == [] && TailOk(q', Detaching(x)) && HandOk(q', Detaching(x), t)
            && Queue(q) == [x] + Queue(q')
  {
    LinkedLess(q.head, q.next, q.place, Queue(q), t);
    var q' := Pop(q, t, x).value;
    HeadRemoved(q, q');
    assert q.popped + q.freed + [x] == q'.popped + q'.freed;
  }

  lemma FreeKeeps(q: Jobs)
    requires QueueOk(q) && q.head.Some?
    ensures FreeHead(q).Some?
    ensures var q' := FreeHead(q).value;
            QueueOk(q') && Queue(q) == [q.head.value] + Queue(q')
  {
    LinkedLess(q.head, q.next, q.place, Queue(q), MainThread);
    var q' := FreeHead(q).value;
    HeadRemoved(q, q');
    assert q.popped + q.freed + [q.head.value] == q'.popped + q'.freed;
  }

  lemma DetachKeeps(q: Jobs, x: Node, t: Tid)
    requires QueueOk(q) && HandOk(q, Detaching(x), t)
    ensures var q' := q.(next := q.next[x := None]);
            QueueOk(q') && Queue(q') == Queue(q) && HandOk(q', FixingTail(x), t)
  {
    NotQueued(q, x);
    var q' := q.(next := q.next[x := None]);
    ChainFrame(q.head, q.next, q'.next, Queue(q));
    assert q'.next.Keys == q'.place.Keys;
  }

  lemma ReleaseKeeps(q: Jobs, x: Node, t: Tid)
    requires QueueOk(q) && HandOk(q, Taken(x), t)
    ensures QueueOk(q.(place := q.place[x := Loose]))
  {
    NotQueued(q, x);
    assert q.(place := q.place[x := Loose]).place.Keys == q.place.Keys;
  }

  lemma GrabKeeps(q: Jobs, t: Tid, c: Choice)
    requires QueueOk(q) && Grab(q, t, c).Some?
    ensures var r := Grab(q, t, c).value;
            QueueOk(r.0) && HandOk(r.0, ToInsert(r.1), t) && Queue(r.0) == Queue(q)
  {
    var r := Grab(q, t, c).value;
    NotQueued(q, r.1);
    ChainFrame(q.head, q.next, r.0.next, Queue(q));
    assert r.0.next.Keys == r.0.place.Keys;
  }

  lemma DiscardKeeps(q: Jobs, q': Jobs, c: Choice)
    requires QueueOk(q) && Discards(q, q', c)
    ensures QueueOk(q') && Queue(q') == Queue(q)
  {
    NotQueued(q, c.dead);
    ChainFrame(q.head, q.next, q'.next, Queue(q));
    assert q'.next.Keys == q'.place.Keys;
  }

  // ----- All kinds together -----

  lemma IdleJobsKept(q: Jobs, q': Jobs, v': View, t: Tid, c: Choice)
    requires QueueOk(q) && q.freed == [] && JobsMove(q, q', Nothing, v', t, c)
    ensures QueueOk(q') && q'.freed == [] && HandOk(q', v', t)
    ensures !Lagging(v') ==> q'.tail == q.tail && Queue(q') == Queue(q)
  {
    if v'.ToInsert? {
      GrabKeeps(q, t, c);
    } else if Discards(q, q', c) {
      DiscardKeeps(q, q', c);
    }
  }

  lemma InsertJobsKept(q: Jobs, q': Jobs, x: Node, v': View, t: Tid, c: Choice)
    requires QueueOk(q) && q.freed == [] && HandOk(q, ToInsert(x), t) && JobsMove(q, q', ToInsert(x), v', t, c)
    requires Exclusive(v') ==> TailOk(q, ToInsert(x))
    ensures QueueOk(q') && q'.freed == [] && HandOk(q', v', t)
    ensures !Lagging(v') ==> q'.tail == q.tail && Queue(q') == Queue(q)
  {
    if q' != q || v' != ToInsert(x) {
      assert Link(q, x).Some? && q' == Link(q, x).value.0 && v' == InsertView(Link(q, x).value.1, x);
      LinkKeeps(q, x, t);
      assert v'.SettingTail? || v'.MovingTail?;
    }
  }

  lemma LockedJobsKept(q: Jobs, q': Jobs, v: View, v': View, t: Tid, c: Choice)
    requires QueueOk(q) && q.freed == [] && HandOk(q, v, t) && JobsMove(q, q', v, v', t, c)
    requires Exclusive(v) && TailOk(q, v)
    ensures QueueOk(q') && q'.freed == [] && HandOk(q', v', t)
    ensures !Lagging(v) && !Lagging(v') ==> q'.tail == q.tail && Queue(q') == Queue(q)
  {
    match v
    case SettingTail(x) =>
    case MovingTail(x) =>
    case Advancing(x) => PopKeeps(q, x, t);
    case Detaching(x) => DetachKeeps(q, x, t);
    case FixingTail(x) =>
    case Taken(x) =>
      if v'.Nothing? {
        ReleaseKeeps(q, x, t);
      }
  }

  lemma JobsKept(q: Jobs, q': Jobs, v: View, v': View, t: Tid, c: Choice)
    requires QueueOk(q) && q.freed == [] && HandOk(q, v, t) && JobsMove(q, q', v, v', t, c)
    requires Exclusive(v) || Exclusive(v') ==> TailOk(q, v)
    ensures QueueOk(q') && q'.freed == [] && HandOk(q', v', t)
    ensures !Lagging(v) && !Lagging(v') ==> q'.tail == q.tail && Queue(q') == Queue(q)
  {
    if Exclusive(v) {
      LockedJobsKept(q, q', v, v', t, c);
    } else if v.Nothing? {
      IdleJobsKept(q, q', v', t, c);
    } else {
      InsertJobsKept(q, q', v.x, v', t, c);
    }
  }

  lemma TailFollows(q: Jobs, q': Jobs, v: View, v': View, t: Tid, c: Choice)
    requires QueueOk(q) && q.freed == [] && HandOk(q, v, t) && JobsMove(q, q', v, v', t, c)
    requires (Lagging(v) || Lagging(v')) && TailOk(q, v) && QueueOk(q')
    ensures TailOk(q', v')
  {
    match v
    case ToInsert(x) => LinkKeeps(q, x, t);
    case SettingTail(x) =>
    case MovingTail(x) =>
    case Advancing(x) => PopKeeps(q, x, t);
    case Detaching(x) => DetachKeeps(q, x, t);
    case FixingTail(x) =>
  }

  // A thread that holds no lock2 view keeps what it has in hand.
  lemma OtherHands(q: Jobs, q': Jobs, v: View, v': View, t: Tid, c: Choice, u: View, t': Tid)
    requires QueueOk(q) && JobsMove(q, q', v, v', t, c) && HandOk(q, v, t)
    requires t' != t && HandOk(q, u, t')
    requires Exclusive(v) || Exclusive(v') ==> !Exclusive(u)
    requires Exclusive(v) || Exclusive(v') ==> TailOk(q, v)
    ensures HandOk(q', u, t')
  {
    if v.ToInsert? && q.tail.Some? && q' != q {
      assert q.tail.value in Queue(q);
    }
  }

  // ----- The whole state -----

  lemma ExclusiveHolds(pc: WorkerPc, sh: Shared, t: Tid, c: Choice)
    requires WorkerMove(pc, sh, t, c).Move?
    ensures Exclusive(WorkerView(pc)) || Exclusive(WorkerView(WorkerMove(pc, sh, t, c).pc)) ==> Holds2(pc)
  {
  }

  lemma TailMoves(q: Jobs, q': Jobs, v: View, v': View)
    requires Removed(q) <= |q.inserted| && Removed(q') <= |q'.inserted|
    requires q'.tail == q.tail && Queue(q') == Queue(q) && TailOk(q, v)
    requires v' == v || (!Lagging(v) && !Lagging(v'))
    ensures TailOk(q', v')
  {
  }

  // Steps `s` to `s'` of thread `t`, as far as the queue is concerned.
  ghost predicate QueueStep(s: State, s': State, t: Tid, c: Choice) {
    var two, two' := s.sh.locks.two, s'.sh.locks.two;
    && JobsMove(s.sh.jobs, s'.sh.jobs, ViewOf(s, t), ViewOf(s', t), t, c)
    && (forall u | u != t :: ViewOf(s', u) == ViewOf(s, u))
    && (forall u | Exclusive(ViewOf(s, u)) :: two == Some(u))
    && (Exclusive(ViewOf(s', t)) ==> two == Some(t))
    && (two' == two || (two.None? && two' == Some(t)) || (two == Some(t) && two'.None? && !Exclusive(ViewOf(s', t))))
  }

  lemma HandsKept(s: State, s': State, t: Tid, c: Choice)
    requires JobsOk(s) && !Freeing(s.main) && QueueStep(s, s', t, c)
    ensures forall u :: HandOk(s'.sh.jobs, ViewOf(s', u), u)
  {
    var q, q', v, v' := s.sh.jobs, s'.sh.jobs, ViewOf(s, t), ViewOf(s', t);
    forall u
      ensures HandOk(q', ViewOf(s', u), u)
    {
      assert HandOk(q, ViewOf(s, u), u) && HandOk(q, v, t);
      if u == t {
        JobsKept(q, q', v, v', t, c);
      } else {
        OtherHands(q, q', v, v', t, c, ViewOf(s, u), u);
      }
    }
  }

  lemma TailKept(s: State, s': State, t: Tid, c: Choice)
    requires JobsOk(s) && !Freeing(s.main) && QueueStep(s, s', t, c)
    ensures QueueOk(s'.sh.jobs) && s'.sh.jobs.freed == [] && TailOk(s'.sh.jobs, QueueView(s'))
  {
    var q, q', v, v' := s.sh.jobs, s'.sh.jobs, ViewOf(s, t), ViewOf(s', t);
    assert HandOk(q, v, t);
    JobsKept(q, q', v, v', t, c);
    if Lagging(v) || Lagging(v') {
      TailFollows(q, q', v, v', t, c);
      TailMoves(q', q', v', QueueView(s'));
    } else {
      TailMoves(q, q', QueueView(s), QueueView(s'));
    }
  }

  lemma JobsStepKept(s: State, s': State, t: Tid, c: Choice)
    requires JobsOk(s) && !Freeing(s.main) && QueueStep(s, s', t, c) && (Freeing(s'.main) ==> s'.main.FreeJobs?)
    ensures JobsOk(s')
  {
    HandsKept(s, s', t, c);
    TailKept(s, s', t, c);
  }

  // Once main frees the queue, no worker touches it.
  lemma JobsSettled(s: State, w: nat, pc: WorkerPc, sh: Shared)
    requires JobsOk(s) && Freeing(s.main) && w < |s.ws| && sh.jobs == s.sh.jobs
    requires WorkerView(s.ws[w]) == WorkerView(pc)
    ensures JobsOk(State(s.main, s.ws[w := pc], sh))
  {
    var s' := State(s.main, s.ws[w := pc], sh);
    forall u ensures HandOk(s'.sh.jobs, ViewOf(s', u), u) {
      assert ViewOf(s', u) == ViewOf(s, u);
      assert HandOk(s.sh.jobs, ViewOf(s, u), u);
    }
  }

  lemma ExitSettles(pc: WorkerPc, sh: Shared, t: Tid, c: Choice)
    requires WorkerMove(pc, sh, t, c).Move? && Gone(pc)
    ensures var m := WorkerMove(pc, sh, t, c);
            m.sh.jobs == sh.jobs && WorkerView(pc) == WorkerView(m.pc) == Nothing
  {
  }

  lemma JobsByWorker(s: State, w: nat, c: Choice, s': State)
    requires LocksOk(s) && PhaseOk(s) && JobsOk(s) && WorkerMoves(s, w, c, s')
    ensures JobsOk(s')
  {
    if Freeing(s.main) {
      ExitSettles(s.ws[w], s.sh, WorkerThread(w), c);
      JobsSettled(s, w, s'.ws[w], s'.sh);
    } else {
      WorkerQueueStep(s, w, c, s');
      JobsStepKept(s, s', WorkerThread(w), c);
    }
  }

  lemma WorkerQueueStep(s: State, w: nat, c: Choice, s': State)
    requires LocksOk(s) && WorkerMoves(s, w, c, s')
    ensures QueueStep(s, s', WorkerThread(w), c)
  {
    var t := WorkerThread(w);
    JobsMoveByWorker(s.ws[w], s.sh, t, c);
    LocksMove(s.ws[w], s.sh, t, c);
    ExclusiveHolds(s.ws[w], s.sh, t, c);
    ViewsUnlocked(s);
    LocksByWorker(s, w, c, s');
    ViewsUnlocked(s');
  }

  // A view that needs lock2 belongs to the holder of lock2.
  lemma ViewsUnlocked(s: State)
    requires LocksOk(s)
    ensures forall u | Exclusive(ViewOf(s, u)) :: s.sh.locks.two == Some(u)
  {
  }

  lemma JobsFreed(s: State, c: Choice, s': State)
    requires PhaseOk(s) && JobsOk(s) && MainMoves(s, c, s') && Freeing(s.main)
    ensures JobsOk(s')
  {
    if s.sh.jobs.head.Some? {
      FreeKeeps(s.sh.jobs);
    }
    forall t
      ensures ViewOf(s', t) == Nothing
    {
      if t != MainThread && t.id < |s.ws| {
        assert Gone(s.ws[t.id]);
      }
    }
  }

  lemma JobsByMain(s: State, c: Choice, s': State)
    requires LocksOk(s) && PhaseOk(s) && JobsOk(s) && MainMoves(s, c, s')
    ensures JobsOk(s')
  {
    if Freeing(s.main) {
      JobsFreed(s, c, s');
    } else {
      MainQueueStep(s, c, s');
      JobsStepKept(s, s', MainThread, c);
    }
  }

  lemma MainExclusiveHolds(pc: MainPc, sh: Shared, count: nat, c: Choice)
    requires MainMove(pc, sh, count, c).Move?
    ensures var pc' := MainMove(pc, sh, count, c).pc;
            && (Exclusive(MainView(pc)) || Exclusive(MainView(pc')) ==> MainHolds2(pc))
            && (Freeing(pc') ==> Freeing(pc) || pc'.FreeJobs?)
  {
  }

  lemma MainQueueStep(s: State, c: Choice, s': State)
    requires LocksOk(s) && MainMoves(s, c, s') && !Freeing(s.main)
    ensures QueueStep(s, s', MainThread, c) && (Freeing(s'.main) ==> s'.main.FreeJobs?)
  {
    JobsMoveByMain(s.main, s.sh, |s.ws|, c);
    MainEffect(s.main, s.sh, |s.ws|, c);
    MainExclusiveHolds(s.main, s.sh, |s.ws|, c);
    ViewsUnlocked(s);
    LocksByMain(s, c, s');
    ViewsUnlocked(s');
  }
}
