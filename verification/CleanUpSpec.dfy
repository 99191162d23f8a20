/** Clean-up code as data: labelled groups of statements, newest first. */
module CleanUpSpec {
  import opened Prelude

  datatype Stmt = Null | Do(text: string) | Compound(body: seq<Stmt>)

  // What an async label resolves to: the number of a case.
  class Counter {
    var value: nat

    constructor (value: nat)
      ensures this.value == value
    {
      this.value := value;
    }
  }

  // One group; label `n` stands for the text "L" followed by `n`, and the
  // groups of an async level have none.
  datatype Item = Item(name: Option<nat>, content: seq<Stmt>, labelUsed: bool, asyncCounter: Counter)

  predicate EmptyVector(stmts: seq<Stmt>) { forall s :: s in stmts ==> s.Null? }

  // `CodegenCleanUp::empty`.
  predicate Empty(data: seq<Item>) { forall i :: 0 <= i < |data| ==> EmptyVector(data[i].content) }

  // The first `i` elements, the last one of them first.
  function ReversedTo<T>(s: seq<T>, i: nat): (r: seq<T>)
    requires i <= |s|
    ensures |r| == i
  {
    if i == 0 then [] else [s[i - 1]] + ReversedTo(s, i - 1)
  }

  function Reversed<T>(s: seq<T>): (r: seq<T>)
    ensures |r| == |s|
  {
    ReversedTo(s, |s|)
  }

  // The statements of the groups below `i`, from the last one to the first.
  function BodyTo(data: seq<Item>, i: nat): seq<Stmt>
    requires i <= |data|
  {
    if i == 0 then [] else data[i - 1].content + BodyTo(data, i - 1)
  }

  function Body(data: seq<Item>): seq<Stmt> { BodyTo(data, |data|) }

  // ----- Emitted code with labels -----

  datatype Line = Mark(name: Option<nat>) | Run(stmt: Stmt)

  function Runs(stmts: seq<Stmt>): seq<Line> { seq(|stmts|, i requires 0 <= i < |stmts| => Run(stmts[i])) }

  function EmitItem(item: Item): seq<Line> {
    (if item.labelUsed then [Mark(item.name)] else []) + Runs(item.content)
  }

  // `gen`, for the groups below `i`.
  function EmitTo(data: seq<Item>, i: nat): seq<Line>
    requires i <= |data|
  {
    if i == 0 then [] else EmitItem(data[i - 1]) + EmitTo(data, i - 1)
  }

  function Emit(data: seq<Item>): seq<Line> { EmitTo(data, |data|) }

  // What runs from the top of `code`, and from label `l` on.
  function FromTop(code: seq<Line>): seq<Stmt> {
    if code == [] then [] else (if code[0].Run? then [code[0].stmt] else []) + FromTop(code[1..])
  }

  function FromLabel(code: seq<Line>, l: nat): seq<Stmt> {
    if code == [] then []
    else if code[0] == Mark(Some(l)) then FromTop(code[1..])
    else FromLabel(code[1..], l)
  }

  // ----- Lemmas -----

  lemma {:induction false} SameReversed<T>(s: seq<T>, t: seq<T>, i: nat)
    requires i <= |s| && i <= |t| && forall k :: 0 <= k < i ==> s[k] == t[k]
    ensures ReversedTo(s, i) == ReversedTo(t, i)
  {
    if i > 0 { SameReversed(s, t, i - 1); }
  }

  lemma ReversedPush<T>(s: seq<T>, x: T)
    ensures Reversed(s + [x]) == [x] + Reversed(s)
  {
    SameReversed(s + [x], s, |s|);
  }

  // What was there first comes last.
  lemma {:induction false} ReversedEnds<T>(s: seq<T>, i: nat, n: nat)
    requires i <= n <= |s|
    ensures ReversedTo(s, i) == ReversedTo(s, n)[n - i..]
  {
    if i < n { ReversedEnds(s, i, n - 1); }
  }

  lemma {:induction false} FromTopAppend(a: seq<Line>, b: seq<Line>)
    ensures FromTop(a + b) == FromTop(a) + FromTop(b)
  {
    if a == [] {
      assert a + b == b;
    } else {
      assert (a + b)[1..] == a[1..] + b && (a + b)[0] == a[0];
      FromTopAppend(a[1..], b);
    }
  }

  lemma {:induction false} FromTopRuns(stmts: seq<Stmt>)
    ensures FromTop(Runs(stmts)) == stmts
  {
    if stmts != [] {
      FromTopRuns(stmts[1..]);
      assert Runs(stmts)[1..] == Runs(stmts[1..]);
    }
  }

  lemma FromTopItem(item: Item, rest: seq<Line>)
    ensures FromTop(EmitItem(item) + rest) == item.content + FromTop(rest)
  {
    var mark := if item.labelUsed then [Mark(item.name)] else [];
    FromTopAppend(EmitItem(item), rest);
    FromTopAppend(mark, Runs(item.content));
    FromTopRuns(item.content);
    assert FromTop(mark) == [];
  }

  lemma {:induction false} FromTopEmit(data: seq<Item>, i: nat)
    requires i <= |data|
    ensures FromTop(EmitTo(data, i)) == BodyTo(data, i)
  {
    if i > 0 {
      FromTopItem(data[i - 1], EmitTo(data, i - 1));
      FromTopEmit(data, i - 1);
    }
  }

  // Emitting one group more.
  lemma EmitNext(data: seq<Item>, i: nat, out: seq<Line>, code: seq<Line>)
    requires i < |data| && out + EmitTo(data, i + 1) == code + Emit(data)
    ensures (out + EmitItem(data[i])) + EmitTo(data, i) == code + Emit(data)
  {
    assert (out + EmitItem(data[i])) + EmitTo(data, i) == out + (EmitItem(data[i]) + EmitTo(data, i));
  }

  // Code without the label is skipped.
  lemma {:induction false} FromLabelSkips(a: seq<Line>, b: seq<Line>, l: nat)
    requires Mark(Some(l)) !in a
    ensures FromLabel(a + b, l) == FromLabel(b, l)
  {
    if a == [] {
      assert a + b == b;
    } else {
      assert a[0] in a;
      FromLabelSkips(a[1..], b, l);
      assert (a + b)[1..] == a[1..] + b;
    }
  }

  // Entering at the label of group `i` runs that group and the older ones.
  lemma {:induction false} FromLabelEmit(data: seq<Item>, i: nat, l: nat, n: nat)
    requires i < n <= |data| && data[i].labelUsed && data[i].name == Some(l)
    requires forall j :: i < j < n ==> data[j].name != Some(l)
    ensures FromLabel(EmitTo(data, n), l) == BodyTo(data, i + 1)
  {
    var item, rest := data[n - 1], EmitTo(data, n - 1);
    if i == n - 1 {
      FromTopEmit(data, n);
      assert EmitTo(data, n) == [Mark(Some(l))] + (Runs(item.content) + rest);
      FromTopAppend([Mark(Some(l))], Runs(item.content) + rest);
    } else {
      FromLabelSkips(EmitItem(item), rest, l);
      FromLabelEmit(data, i, l, n - 1);
    }
  }

  lemma {:induction false} SameBody(data: seq<Item>, data': seq<Item>, i: nat)
    requires i <= |data| && i <= |data'| && forall k :: 0 <= k < i ==> data'[k].content == data[k].content
    ensures BodyTo(data', i) == BodyTo(data, i)
  {
    if i > 0 { SameBody(data, data', i - 1); }
  }

  // The groups up to one of them hold the statements added first.
  lemma {:induction false} BodyEnds(data: seq<Item>, i: nat, n: nat)
    requires i <= n <= |data|
    ensures |BodyTo(data, i)| <= |BodyTo(data, n)|
    ensures BodyTo(data, i) == BodyTo(data, n)[|BodyTo(data, n)| - |BodyTo(data, i)|..]
  {
    if i < n { BodyEnds(data, i, n - 1); }
  }

  // The statements added before the group's label was handed out.
  lemma {:induction false} OldestOf(data: seq<Item>, i: nat, log: seq<Stmt>)
    requires i <= |data| && Body(data) == Reversed(log)
    ensures |BodyTo(data, i)| <= |log| && BodyTo(data, i) == Reversed(log[..|BodyTo(data, i)|])
  {
    BodyEnds(data, i, |data|);
    var k := |BodyTo(data, i)|;
    ReversedEnds(log, k, |log|);
    SameReversed(log, log[..k], k);
  }

  // ----- One level -----

  // The statements in the groups up to `i`.
  function Depth(data: seq<Item>, i: nat): nat
    requires i < |data|
  {
    |BodyTo(data, i + 1)|
  }

  // Label `l` was handed out when `k` statements had been added: it is that of
  // group `i`, to which nothing has been added since.
  predicate HandedAt(data: seq<Item>, i: nat, l: nat, k: nat) {
    i < |data| && data[i].name == Some(l) && data[i].labelUsed && k == Depth(data, i)
  }

  predicate HandedAsyncAt(data: seq<Item>, i: nat, c: Counter, k: nat) {
    i < |data| && data[i].asyncCounter == c && data[i].labelUsed && k == Depth(data, i)
  }

  // Labels go up, and no counter is shared.
  predicate Rising(isAsync: bool, data: seq<Item>) {
    && (forall i :: 0 <= i < |data| ==> isAsync == data[i].name.None?)
    && forall i, j {:trigger Before(i, j)} :: 0 <= i < j < |data| && Before(i, j) ==>
         data[i].asyncCounter != data[j].asyncCounter && (isAsync || data[i].name.value < data[j].name.value)
  }

  predicate Named(isAsync: bool, base: nat, labelIdx: nat, data: seq<Item>) {
    && base <= labelIdx && Rising(isAsync, data)
    && forall i :: 0 <= i < |data| && !isAsync ==> base <= data[i].name.value < labelIdx
  }

  lemma TwoGroups(isAsync: bool, data: seq<Item>, i: nat, j: nat)
    requires Rising(isAsync, data) && i < |data| && j < |data| && i != j
    ensures data[i].asyncCounter != data[j].asyncCounter
    ensures !isAsync ==> data[i].name != data[j].name && (data[i].name.value < data[j].name.value <==> i < j)
  {
    assert Before(i, j) || Before(j, i);
  }

  lemma NamedOpens(base: nat, labelIdx: nat, data: seq<Item>, counter: Counter)
    requires Named(false, base, labelIdx, data) && forall i :: 0 <= i < |data| ==> data[i].asyncCounter != counter
    ensures Named(false, base, labelIdx + 1, data + [Item(Some(labelIdx), [], false, counter)])
  {
  }

  ghost predicate HandedOk(data: seq<Item>, handed: map<nat, nat>, handedAsync: map<Counter, nat>) {
    && (forall l :: l in handed ==> exists i: nat :: HandedAt(data, i, l, handed[l]))
    && (forall c :: c in handedAsync ==> exists i: nat :: HandedAsyncAt(data, i, c, handedAsync[c]))
  }

  // Keeping what has been handed out as the groups change.
  lemma HandedStays(data: seq<Item>, data': seq<Item>, handed: map<nat, nat>, handedAsync: map<Counter, nat>)
    requires HandedOk(data, handed, handedAsync) && |data| <= |data'|
    requires forall i :: 0 <= i < |data| && data[i].labelUsed ==>
      && data'[i].name == data[i].name && data'[i].labelUsed && data'[i].asyncCounter == data[i].asyncCounter
      && Depth(data', i) == Depth(data, i)
    ensures HandedOk(data', handed, handedAsync)
  {
    forall l | l in handed ensures exists i: nat :: HandedAt(data', i, l, handed[l]) {
      var i: nat :| HandedAt(data, i, l, handed[l]);
      assert HandedAt(data', i, l, handed[l]);
    }
    forall c | c in handedAsync ensures exists i: nat :: HandedAsyncAt(data', i, c, handedAsync[c]) {
      var i: nat :| HandedAsyncAt(data, i, c, handedAsync[c]);
      assert HandedAsyncAt(data', i, c, handedAsync[c]);
    }
  }

  // A level is in order.
  // A level has nothing to run if and only if nothing but null statements was
  // added to it.
  lemma EmptyIsNull(data: seq<Item>, log: seq<Stmt>)
    requires Body(data) == Reversed(log)
    ensures Empty(data) <==> forall s :: s in log ==> s == Null
  {
    assert log[..|log|] == log;
    forall s | s in log && Empty(data) ensures s == Null {
      BodyHolds(data, |data|, s);
      ReversedHolds(log, |log|, s);
    }
    if forall s :: s in log ==> s == Null {
      forall i, s | 0 <= i < |data| && s in data[i].content ensures s == Null {
        BodyHolds(data, |data|, s);
        ReversedHolds(log, |log|, s);
      }
      forall i | 0 <= i < |data| ensures EmptyVector(data[i].content) {
      }
    }
  }

  lemma {:induction false} BodyHolds(data: seq<Item>, n: nat, s: Stmt)
    requires n <= |data|
    ensures s in BodyTo(data, n) <==> exists i :: 0 <= i < n && s in data[i].content
  {
    if n > 0 { BodyHolds(data, n - 1, s); }
  }

  lemma {:induction false} ReversedHolds(log: seq<Stmt>, n: nat, s: Stmt)
    requires n <= |log|
    ensures s in ReversedTo(log, n) <==> s in log[..n]
  {
    if n > 0 {
      ReversedHolds(log, n - 1, s);
      assert log[..n] == log[..n - 1] + [log[n - 1]];
    }
  }

  ghost predicate LevelOk(isAsync: bool, base: nat, labelIdx: nat, data: seq<Item>, log: seq<Stmt>,
                          handed: map<nat, nat>, handedAsync: map<Counter, nat>)
  {
    Named(isAsync, base, labelIdx, data) && Body(data) == Reversed(log) && HandedOk(data, handed, handedAsync)
  }

  function PutInto(data: seq<Item>, stmt: Stmt): seq<Item>
    requires |data| > 0
  {
    var last := data[|data| - 1];
    data[|data| - 1 := last.(content := [stmt] + last.content)]
  }

  // The next statement starts a new group.
  predicate Opens(data: seq<Item>) { Empty(data) || data[|data| - 1].labelUsed }

  predicate Opened(data: seq<Item>, data': seq<Item>, name: Option<nat>) {
    |data'| == |data| + 1 && data'[..|data|] == data && data'[|data|].content == [] && !data'[|data|].labelUsed &&
    data'[|data|].name == name
  }

  // What `add` does to the groups; `name` is the label of a new one.
  predicate Added(data: seq<Item>, data': seq<Item>, name: Option<nat>, stmt: Stmt) {
    if Opens(data) then
      |data'| == |data| + 1 && data'[..|data|] == data && data'[|data|].content == [stmt] &&
      !data'[|data|].labelUsed && data'[|data|].name == name
    else data' == PutInto(data, stmt)
  }

  lemma AddedIs(data: seq<Item>, data': seq<Item>, name: Option<nat>, stmt: Stmt)
    requires if Opens(data) then Opened(data, data', name) else data' == data
    requires |data'| > 0
    ensures Added(data, PutInto(data', stmt), name, stmt)
  {
  }

  lemma PutBody(data: seq<Item>, stmt: Stmt)
    requires |data| > 0
    ensures Body(PutInto(data, stmt)) == [stmt] + Body(data)
  {
    var last := |data| - 1;
    SameBody(data, PutInto(data, stmt), last);
    assert [stmt] + (data[last].content + BodyTo(data, last)) == ([stmt] + data[last].content) + BodyTo(data, last);
  }

  lemma PutHanded(data: seq<Item>, stmt: Stmt, handed: map<nat, nat>, handedAsync: map<Counter, nat>)
    requires |data| > 0 && !data[|data| - 1].labelUsed && HandedOk(data, handed, handedAsync)
    ensures HandedOk(PutInto(data, stmt), handed, handedAsync)
  {
    var data' := PutInto(data, stmt);
    forall i | 0 <= i < |data| && data[i].labelUsed ensures Depth(data', i) == Depth(data, i) {
      SameBody(data, data', i + 1);
    }
    HandedStays(data, data', handed, handedAsync);
  }

  lemma PutKeeps(data: seq<Item>, stmt: Stmt, log: seq<Stmt>, handed: map<nat, nat>, handedAsync: map<Counter, nat>)
    requires |data| > 0 && !data[|data| - 1].labelUsed
    requires Body(data) == Reversed(log) && HandedOk(data, handed, handedAsync)
    ensures Body(PutInto(data, stmt)) == Reversed(log + [stmt]) && HandedOk(PutInto(data, stmt), handed, handedAsync)
  {
    PutBody(data, stmt);
    ReversedPush(log, stmt);
    PutHanded(data, stmt, handed, handedAsync);
  }

  lemma OpenKeeps(data: seq<Item>, item: Item, handed: map<nat, nat>, handedAsync: map<Counter, nat>)
    requires item.content == [] && HandedOk(data, handed, handedAsync)
    ensures Body(data + [item]) == Body(data) && HandedOk(data + [item], handed, handedAsync)
  {
    SameBody(data, data + [item], |data|);
    forall i | 0 <= i < |data| ensures Depth(data + [item], i) == Depth(data, i) {
      SameBody(data, data + [item], i + 1);
    }
    HandedStays(data, data + [item], handed, handedAsync);
  }

  function UseLast(data: seq<Item>): seq<Item>
    requires |data| > 0
  {
    data[|data| - 1 := data[|data| - 1].(labelUsed := true)]
  }

  lemma UseKeepsNames(isAsync: bool, base: nat, labelIdx: nat, data: seq<Item>)
    requires |data| > 0 && Named(isAsync, base, labelIdx, data)
    ensures Named(isAsync, base, labelIdx, UseLast(data)) && Empty(UseLast(data)) == Empty(data)
    ensures forall i :: 0 <= i < |data| ==> UseLast(data)[i].name == data[i].name
  {
    assert forall i :: 0 <= i < |data| ==> UseLast(data)[i].content == data[i].content;
  }

  lemma UseKeeps(data: seq<Item>, handed: map<nat, nat>, handedAsync: map<Counter, nat>)
    requires |data| > 0 && HandedOk(data, handed, handedAsync)
    ensures Body(UseLast(data)) == Body(data) && HandedOk(UseLast(data), handed, handedAsync)
  {
    forall i | 0 <= i < |data| ensures Depth(UseLast(data), i) == Depth(data, i) {
      SameBody(data, UseLast(data), i + 1);
    }
    SameBody(data, UseLast(data), |data|);
    HandedStays(data, UseLast(data), handed, handedAsync);
  }

  // Handing out the label of the newest group.
  lemma HandOut(data: seq<Item>, handed: map<nat, nat>, handedAsync: map<Counter, nat>)
    requires |data| > 0 && data[|data| - 1].name.Some? && HandedOk(data, handed, handedAsync)
    ensures HandedOk(UseLast(data), handed[data[|data| - 1].name.value := |Body(data)|], handedAsync)
  {
    UseKeeps(data, handed, handedAsync);
    var data', l := UseLast(data), data[|data| - 1].name.value;
    var handed' := handed[l := |Body(data)|];
    forall m | m in handed' ensures exists i: nat :: HandedAt(data', i, m, handed'[m]) {
      if m == l {
        assert HandedAt(data', |data| - 1, l, |Body(data)|);
      } else {
        var i: nat :| HandedAt(data', i, m, handed[m]);
        assert HandedAt(data', i, m, handed'[m]);
      }
    }
  }

  lemma HandOutAsync(data: seq<Item>, handed: map<nat, nat>, handedAsync: map<Counter, nat>)
    requires |data| > 0 && HandedOk(data, handed, handedAsync)
    ensures HandedOk(UseLast(data), handed, handedAsync[data[|data| - 1].asyncCounter := |Body(data)|])
  {
    UseKeeps(data, handed, handedAsync);
    var data', c := UseLast(data), data[|data| - 1].asyncCounter;
    var handed' := handedAsync[c := |Body(data)|];
    forall m | m in handed' ensures exists i: nat :: HandedAsyncAt(data', i, m, handed'[m]) {
      if m == c {
        assert HandedAsyncAt(data', |data| - 1, c, |Body(data)|);
      } else {
        var i: nat :| HandedAsyncAt(data', i, m, handedAsync[m]);
        assert HandedAsyncAt(data', i, m, handed'[m]);
      }
    }
  }

  // What a map says stays said.
  predicate Keeps<K, V(==)>(m: map<K, V>, m': map<K, V>) { forall k :: k in m ==> k in m' && m'[k] == m[k] }

  // A label that was handed out before is that of the newest group only if
  // nothing has been added since.
  lemma LabelStands(isAsync: bool, base: nat, labelIdx: nat, data: seq<Item>, i: nat, n: nat, k: nat)
    requires Named(isAsync, base, labelIdx, data) && HandedAt(data, i, n, k) && data[|data| - 1].name == Some(n)
    ensures k == |Body(data)|
  {
    if i != |data| - 1 { TwoGroups(isAsync, data, i, |data| - 1); }
  }

  lemma CounterStands(isAsync: bool, base: nat, labelIdx: nat, data: seq<Item>, i: nat, c: Counter, k: nat)
    requires Named(isAsync, base, labelIdx, data) && HandedAsyncAt(data, i, c, k) && data[|data| - 1].asyncCounter == c
    ensures k == |Body(data)|
  {
    if i != |data| - 1 { TwoGroups(isAsync, data, i, |data| - 1); }
  }

  // Using the newest group of a level that has something to run.
  lemma UseKeepsLevel(isAsync: bool, base: nat, labelIdx: nat, data: seq<Item>, log: seq<Stmt>,
                      handed: map<nat, nat>, handedAsync: map<Counter, nat>)
    requires LevelOk(isAsync, base, labelIdx, data, log, handed, handedAsync) && !Empty(data)
    ensures !Empty(UseLast(data))
    ensures forall i :: 0 <= i < |data| ==> UseLast(data)[i].name == data[i].name
    ensures LevelOk(isAsync, base, labelIdx, UseLast(data), log, handed, handedAsync)
  {
    UseKeeps(data, handed, handedAsync);
    UseKeepsNames(isAsync, base, labelIdx, data);
  }

  lemma LevelUsesLabel(isAsync: bool, base: nat, labelIdx: nat, data: seq<Item>, log: seq<Stmt>,
                       handed: map<nat, nat>, handedAsync: map<Counter, nat>, n: nat)
    requires LevelOk(isAsync, base, labelIdx, data, log, handed, handedAsync) && !Empty(data)
    requires data[|data| - 1].name == Some(n)
    ensures LevelOk(isAsync, base, labelIdx, UseLast(data), log, handed[n := |log|], handedAsync)
    ensures Keeps(handed, handed[n := |log|])
  {
    UseKeepsLevel(isAsync, base, labelIdx, data, log, handed, handedAsync);
    HandOut(data, handed, handedAsync);
    if n in handed {
      var i: nat :| HandedAt(data, i, n, handed[n]);
      LabelStands(isAsync, base, labelIdx, data, i, n, handed[n]);
    }
  }

  lemma LevelUsesCounter(isAsync: bool, base: nat, labelIdx: nat, data: seq<Item>, log: seq<Stmt>,
                         handed: map<nat, nat>, handedAsync: map<Counter, nat>, c: Counter)
    requires LevelOk(isAsync, base, labelIdx, data, log, handed, handedAsync) && !Empty(data)
    requires data[|data| - 1].asyncCounter == c
    ensures LevelOk(isAsync, base, labelIdx, UseLast(data), log, handed, handedAsync[c := |log|])
    ensures Keeps(handedAsync, handedAsync[c := |log|])
  {
    UseKeepsLevel(isAsync, base, labelIdx, data, log, handed, handedAsync);
    HandOutAsync(data, handed, handedAsync);
    if c in handedAsync {
      var i: nat :| HandedAsyncAt(data, i, c, handedAsync[c]);
      CounterStands(isAsync, base, labelIdx, data, i, c, handedAsync[c]);
    }
  }

  // The deferred statements run newest first: all of them from the top, and
  // from a label those that had been added when it was handed out.
  lemma DeferStack(base: nat, labelIdx: nat, data: seq<Item>, log: seq<Stmt>, handed: map<nat, nat>,
                   handedAsync: map<Counter, nat>, l: nat)
    requires Named(false, base, labelIdx, data) && Body(data) == Reversed(log) && HandedOk(data, handed, handedAsync)
    ensures FromTop(Emit(data)) == Reversed(log)
    ensures l in handed ==> handed[l] <= |log| && FromLabel(Emit(data), l) == Reversed(log[..handed[l]])
  {
    FromTopEmit(data, |data|);
    if l in handed {
      var i: nat :| HandedAt(data, i, l, handed[l]);
      DeferStackAt(data, log, i, l, base, labelIdx);
    }
  }

  lemma DeferStackAt(data: seq<Item>, log: seq<Stmt>, i: nat, l: nat, base: nat, labelIdx: nat)
    requires i < |data| && HandedAt(data, i, l, Depth(data, i)) && Body(data) == Reversed(log)
    requires Named(false, base, labelIdx, data)
    ensures Depth(data, i) <= |log| && FromLabel(Emit(data), l) == Reversed(log[..Depth(data, i)])
  {
    forall j | i < j < |data| ensures data[j].name != Some(l) {
      TwoGroups(false, data, i, j);
    }
    FromLabelEmit(data, i, l, |data|);
    OldestOf(data, i + 1, log);
  }

  // ----- Emitted cases: an async function is a switch whose cases fall through -----

  datatype Case = Case(number: nat, body: seq<Stmt>)

  function AllOf(cases: seq<Case>): seq<Stmt> {
    if cases == [] then [] else cases[0].body + AllOf(cases[1..])
  }

  // What runs from case `n` on.
  function FromCase(cases: seq<Case>, n: nat): seq<Stmt> {
    if cases == [] then [] else if cases[0].number == n then AllOf(cases) else FromCase(cases[1..], n)
  }

  predicate HasCase(cases: seq<Case>, n: nat) { exists i :: 0 <= i < |cases| && cases[i].number == n }

  // The last case is the current one.
  predicate Numbered(cases: seq<Case>, counter: nat) {
    && |cases| > 0 && cases[|cases| - 1].number == counter
    && forall i :: 0 <= i < |cases| - 1 ==> cases[i].number < counter
  }

  // Null statements do nothing.
  function Real(stmts: seq<Stmt>): seq<Stmt> {
    if stmts == [] then [] else (if stmts[0].Null? then [] else [stmts[0]]) + Real(stmts[1..])
  }

  // `increaseAsyncCounter`: a new case, unless the current one has nothing to
  // run yet.
  function Increase(cases: seq<Case>, counter: nat): (r: (seq<Case>, nat))
    requires Numbered(cases, counter)
    ensures Numbered(r.0, r.1)
  {
    if EmptyVector(cases[|cases| - 1].body) then (cases, counter)
    else (cases + [Case(counter + 1, [])], counter + 1)
  }

  function MergeInto(cases: seq<Case>, stmts: seq<Stmt>): seq<Case>
    requires |cases| > 0
  {
    var last := cases[|cases| - 1];
    cases[|cases| - 1 := last.(body := last.body + stmts)]
  }

  lemma {:induction false} RealAppend(a: seq<Stmt>, b: seq<Stmt>)
    ensures Real(a + b) == Real(a) + Real(b)
  {
    if a == [] {
      assert a + b == b;
    } else {
      assert (a + b)[1..] == a[1..] + b && (a + b)[0] == a[0];
      RealAppend(a[1..], b);
    }
  }

  lemma {:induction false} RealOfEmpty(stmts: seq<Stmt>)
    requires EmptyVector(stmts)
    ensures Real(stmts) == []
  {
    if stmts != [] { RealOfEmpty(stmts[1..]); }
  }

  lemma {:induction false} AllOfAppend(a: seq<Case>, b: seq<Case>)
    ensures AllOf(a + b) == AllOf(a) + AllOf(b)
  {
    if a == [] {
      assert a + b == b;
    } else {
      assert (a + b)[1..] == a[1..] + b && (a + b)[0] == a[0];
      AllOfAppend(a[1..], b);
    }
  }

  // Statements merged into the last case run after everything before.
  lemma {:induction false} FromCaseMerges(cases: seq<Case>, stmts: seq<Stmt>, n: nat)
    requires HasCase(cases, n)
    ensures FromCase(MergeInto(cases, stmts), n) == FromCase(cases, n) + stmts
  {
    var rest := cases[1..];
    if |cases| == 1 {
      assert AllOf(cases) == cases[0].body;
      assert MergeInto(cases, stmts) == [cases[0].(body := cases[0].body + stmts)];
      assert AllOf(MergeInto(cases, stmts)) == cases[0].body + stmts;
    } else {
      assert MergeInto(cases, stmts)[1..] == MergeInto(rest, stmts);
      if cases[0].number == n {
        AllOfMerges(cases, stmts);
      } else {
        var i :| 0 <= i < |cases| && cases[i].number == n;
        assert rest[i - 1].number == n;
        FromCaseMerges(rest, stmts, n);
      }
    }
  }

  lemma {:induction false} AllOfMerges(cases: seq<Case>, stmts: seq<Stmt>)
    requires |cases| > 0
    ensures AllOf(MergeInto(cases, stmts)) == AllOf(cases) + stmts
  {
    if |cases| == 1 {
      assert MergeInto(cases, stmts) == [cases[0].(body := cases[0].body + stmts)];
    } else {
      assert MergeInto(cases, stmts)[1..] == MergeInto(cases[1..], stmts);
      AllOfMerges(cases[1..], stmts);
    }
  }

  // A new, empty case changes nothing for the others.
  lemma {:induction false} FromCaseOpens(cases: seq<Case>, m: nat, n: nat)
    requires HasCase(cases, n)
    ensures FromCase(cases + [Case(m, [])], n) == FromCase(cases, n) && HasCase(cases + [Case(m, [])], n)
  {
    var i :| 0 <= i < |cases| && cases[i].number == n;
    assert (cases + [Case(m, [])])[i].number == n;
    assert (cases + [Case(m, [])])[1..] == cases[1..] + [Case(m, [])];
    if cases[0].number == n {
      AllOfAppend(cases, [Case(m, [])]);
      assert AllOf([Case(m, [])]) == [];
    } else {
      assert cases[1..][i - 1].number == n;
      FromCaseOpens(cases[1..], m, n);
    }
  }

  lemma {:induction false} FromLastCase(cases: seq<Case>)
    requires |cases| > 0 && forall i :: 0 <= i < |cases| - 1 ==> cases[i].number != cases[|cases| - 1].number
    ensures FromCase(cases, cases[|cases| - 1].number) == cases[|cases| - 1].body
  {
    if |cases| > 1 { FromLastCase(cases[1..]); } else { assert AllOf(cases) == cases[0].body; }
  }

  // The statements of the groups below `m`, down to group `i`.
  function Between(data: seq<Item>, i: nat, m: nat): seq<Stmt>
    requires i <= m <= |data|
    decreases m - i
  {
    if i == m then [] else Between(data, i + 1, m) + data[i].content
  }

  lemma {:induction false} BetweenAndBelow(data: seq<Item>, i: nat, m: nat)
    requires i <= m <= |data|
    ensures Between(data, i, m) + BodyTo(data, i) == BodyTo(data, m)
    decreases m - i
  {
    if i < m {
      BetweenAndBelow(data, i + 1, m);
      assert Between(data, i, m) + BodyTo(data, i) == Between(data, i + 1, m) + (data[i].content + BodyTo(data, i));
    }
  }

  lemma AllIsBody(data: seq<Item>, m: nat)
    requires m <= |data|
    ensures Between(data, 0, m) == BodyTo(data, m)
  {
    BetweenAndBelow(data, 0, m);
    assert Between(data, 0, m) + [] == Between(data, 0, m);
  }

  // Whichever case one enters, `stmts` run in addition.
  ghost predicate ExtendsBy(cases: seq<Case>, cases': seq<Case>, stmts: seq<Stmt>) {
    forall n :: HasCase(cases, n) ==> HasCase(cases', n) && FromCase(cases', n) == FromCase(cases, n) + stmts
  }

  lemma ExtendsFurther(was: seq<Case>, cases: seq<Case>, cases': seq<Case>, data: seq<Item>, i: nat)
    requires i < |data| && ExtendsBy(was, cases, Between(data, i + 1, |data|))
    requires ExtendsBy(cases, cases', data[i].content)
    ensures ExtendsBy(was, cases', Between(data, i, |data|))
  {
    forall n | HasCase(was, n)
      ensures HasCase(cases', n) && FromCase(cases', n) == FromCase(was, n) + Between(data, i, |data|)
    {
      assert HasCase(cases, n);
    }
  }

  lemma MergeExtends(cases: seq<Case>, counter: nat, stmts: seq<Stmt>)
    requires Numbered(cases, counter)
    ensures ExtendsBy(cases, MergeInto(cases, stmts), stmts) && Numbered(MergeInto(cases, stmts), counter)
    ensures stmts == [] ==> ExtendsBy(cases, cases, stmts)
  {
    forall n | HasCase(cases, n)
      ensures HasCase(MergeInto(cases, stmts), n)
      ensures FromCase(MergeInto(cases, stmts), n) == FromCase(cases, n) + stmts
    {
      var i :| 0 <= i < |cases| && cases[i].number == n;
      assert MergeInto(cases, stmts)[i].number == n;
      FromCaseMerges(cases, stmts, n);
    }
  }

  // The current case has nothing to run, and the others run what they did.
  lemma IncreaseOpens(cases: seq<Case>, counter: nat)
    requires Numbered(cases, counter)
    ensures var r := Increase(cases, counter);
      && ExtendsBy(cases, r.0, []) && HasCase(r.0, r.1) && Real(FromCase(r.0, r.1)) == []
  {
    var r := Increase(cases, counter);
    assert r.0[|r.0| - 1].number == r.1;
    FromLastCase(r.0);
    RealOfEmpty(r.0[|r.0| - 1].body);
    forall n | HasCase(cases, n) ensures HasCase(r.0, n) && FromCase(r.0, n) == FromCase(cases, n) + [] {
      if r.0 != cases { FromCaseOpens(cases, counter + 1, n); }
    }
  }

  // The cases emitted for the groups from `i` on: from the case that
  // `values[m]` names, groups `m` down to `i` run.
  ghost predicate Emitted(data: seq<Item>, values: seq<nat>, cases: seq<Case>, i: nat)
    requires i <= |data| == |values|
  {
    forall m :: i <= m < |data| && data[m].labelUsed ==>
      HasCase(cases, values[m]) && Real(FromCase(cases, values[m])) == Real(Between(data, i, m + 1))
  }

  lemma RealExtends(before: seq<Case>, cases: seq<Case>, n: nat, body: seq<Stmt>, stmts: seq<Stmt>)
    requires HasCase(before, n) && Real(FromCase(before, n)) == Real(body) && ExtendsBy(before, cases, stmts)
    ensures HasCase(cases, n) && Real(FromCase(cases, n)) == Real(body + stmts)
  {
    RealAppend(FromCase(before, n), stmts);
    RealAppend(body, stmts);
  }

  lemma EmittedFurther(data: seq<Item>, values: seq<nat>, values': seq<nat>,
                       before: seq<Case>, cases: seq<Case>, i: nat)
    requires i < |data| == |values| == |values'| && Emitted(data, values, before, i + 1)
    requires forall m :: i < m < |data| ==> values'[m] == values[m]
    requires ExtendsBy(before, cases, data[i].content)
    requires
      data[i].labelUsed ==> HasCase(cases, values'[i]) && Real(FromCase(cases, values'[i])) == Real(data[i].content)
    ensures Emitted(data, values', cases, i)
  {
    forall m | i <= m < |data| && data[m].labelUsed
      ensures HasCase(cases, values'[m]) && Real(FromCase(cases, values'[m])) == Real(Between(data, i, m + 1))
    {
      if m == i {
        assert Between(data, i, m + 1) == data[i].content;
      } else {
        RealExtends(before, cases, values[m], Between(data, i + 1, m + 1), data[i].content);
      }
    }
  }

  // From the case of group `m` run the statements added first.
  lemma EmittedOldest(data: seq<Item>, log: seq<Stmt>, values: seq<nat>, cases: seq<Case>, m: nat)
    requires m < |data| == |values| && data[m].labelUsed
    requires Emitted(data, values, cases, 0) && Body(data) == Reversed(log)
    ensures Depth(data, m) <= |log| && HasCase(cases, values[m])
    ensures Real(FromCase(cases, values[m])) == Real(Reversed(log[..Depth(data, m)]))
  {
    OldestOf(data, m + 1, log);
    AllIsBody(data, m + 1);
  }
}
