/** What replacing occurrences in a string means. */
module ReplaceSpec {
  newtype Byte = x: int | 0 <= x < 256

  type Str = seq<Byte>

  // How many occurrences are replaced at most; a string has no more than its
  // length plus one.
  function Limit(s: Str, n: int): nat { if n <= 0 then |s| + 1 else n }

  // From left to right: at most `left` occurrences of `from` become `to`.  The
  // empty string occurs in front of every character and at the end.
  function Replaced(s: Str, from: Str, to: Str, left: nat): Str
    decreases |s|
  {
    if left == 0 then s
    else if from == [] then to + (if s == [] then [] else [s[0]] + Replaced(s[1..], from, to, left - 1))
    else if from <= s then to + Replaced(s[|from|..], from, to, left - 1)
    else if s == [] then []
    else [s[0]] + Replaced(s[1..], from, to, left)
  }

  // ----- The same by positions -----

  predicate OccursAt(s: Str, from: Str, p: nat) { p + |from| <= |s| && s[p..p + |from|] == from }

  // The first `left` leftmost occurrences that do not overlap, from `at` on:
  // between two of them, before the first, and behind the last if fewer than
  // `left` were found, there is no further one.
  ghost predicate Leftmost(s: Str, from: Str, ps: seq<nat>, left: nat, at: nat)
    decreases |ps|
  {
    if ps == [] then
      left > 0 ==> forall q :: at <= q ==> !OccursAt(s, from, q)
    else
      && left > 0 && at <= ps[0] && OccursAt(s, from, ps[0])
      && (forall q :: at <= q < ps[0] ==> !OccursAt(s, from, q))
      && Leftmost(s, from, ps[1..], left - 1, ps[0] + |from|)
  }

  // `s` from `at` on, with `to` in place of the `m` bytes at every position.
  function Splice(s: Str, ps: seq<nat>, m: nat, to: Str, at: nat): Str
    decreases |ps|
  {
    if ps == [] then (if at <= |s| then s[at..] else [])
    else if at <= ps[0] && ps[0] + m <= |s| then s[at..ps[0]] + to + Splice(s, ps[1..], m, to, ps[0] + m)
    else []
  }

  lemma PrefixOccurs(s: Str, from: Str, at: nat)
    requires at <= |s|
    ensures from <= s[at..] <==> OccursAt(s, from, at)
  {
    if from <= s[at..] { assert s[at..at + |from|] == s[at..][..|from|]; }
    if OccursAt(s, from, at) { assert s[at..][..|from|] == s[at..at + |from|]; }
  }

  // The positions where a scan from `at` on finds it.
  function Places(s: Str, from: Str, left: nat, at: nat): seq<nat>
    requires from != []
    decreases |s| - at
  {
    if left == 0 || at >= |s| then []
    else if OccursAt(s, from, at) then [at] + Places(s, from, left - 1, at + |from|)
    else Places(s, from, left, at + 1)
  }

  lemma {:induction false} PlacesAreLeftmost(s: Str, from: Str, left: nat, at: nat)
    requires from != []
    ensures Leftmost(s, from, Places(s, from, left, at), left, at)
    decreases |s| - at
  {
    if left > 0 && at < |s| {
      if OccursAt(s, from, at) {
        PlacesAreLeftmost(s, from, left - 1, at + |from|);
        LeftmostHere(s, from, Places(s, from, left - 1, at + |from|), left, at);
      } else {
        PlacesAreLeftmost(s, from, left, at + 1);
        LeftmostEarlier(s, from, Places(s, from, left, at + 1), left, at);
      }
    }
  }

  lemma {:induction false} PlacesInside(s: Str, from: Str, left: nat, at: nat)
    requires from != []
    ensures var ps := Places(s, from, left, at); ps != [] ==> at <= ps[0] && ps[0] + |from| <= |s|
    decreases |s| - at
  {
    if left > 0 && at < |s| && !OccursAt(s, from, at) { PlacesInside(s, from, left, at + 1); }
  }

  // From `at` on, replacing is splicing.
  predicate Agrees(s: Str, from: Str, to: Str, left: nat, at: nat)
    requires from != [] && at <= |s|
  {
    Replaced(s[at..], from, to, left) == Splice(s, Places(s, from, left, at), |from|, to, at)
  }

  lemma {:induction false} ReplacedAtPlaces(s: Str, from: Str, to: Str, left: nat, at: nat)
    requires from != [] && at <= |s|
    ensures Agrees(s, from, to, left, at)
    decreases |s| - at
  {
    if left == 0 || at == |s| {
      NothingReplaced(s, from, to, left, at);
    } else if OccursAt(s, from, at) {
      ReplacedAtPlaces(s, from, to, left - 1, at + |from|);
      AgreeHere(s, from, to, left, at);
    } else {
      ReplacedAtPlaces(s, from, to, left, at + 1);
      AgreeLater(s, from, to, left, at);
    }
  }

  lemma AgreeLater(s: Str, from: Str, to: Str, left: nat, at: nat)
    requires from != [] && left > 0 && at < |s| && !OccursAt(s, from, at)
    requires Agrees(s, from, to, left, at + 1)
    ensures Agrees(s, from, to, left, at)
  {
    ReplacedLater(s, from, to, left, at);
    PlacesInside(s, from, left, at + 1);
    SpliceLater(s, Places(s, from, left, at + 1), |from|, to, at);
  }

  lemma AgreeHere(s: Str, from: Str, to: Str, left: nat, at: nat)
    requires from != [] && left > 0 && OccursAt(s, from, at)
    requires Agrees(s, from, to, left - 1, at + |from|)
    ensures Agrees(s, from, to, left, at)
  {
    ReplacedHere(s, from, to, left, at);
    SpliceAtPlaces(s, from, to, left, at);
  }

  lemma SpliceAtPlaces(s: Str, from: Str, to: Str, left: nat, at: nat)
    requires from != [] && left > 0 && OccursAt(s, from, at)
    ensures
      Splice(s, Places(s, from, left, at), |from|, to, at) ==
      to + Splice(s, Places(s, from, left - 1, at + |from|), |from|, to, at + |from|)
  {
    SpliceHere(s, Places(s, from, left - 1, at + |from|), |from|, to, at);
  }

  lemma NothingReplaced(s: Str, from: Str, to: Str, left: nat, at: nat)
    requires from != [] && at <= |s| && (left == 0 || at == |s|)
    ensures Agrees(s, from, to, left, at)
  {
    if left > 0 { assert s[at..] == []; }
  }

  lemma ReplacedHere(s: Str, from: Str, to: Str, left: nat, at: nat)
    requires from != [] && left > 0 && OccursAt(s, from, at)
    ensures Replaced(s[at..], from, to, left) == to + Replaced(s[at + |from|..], from, to, left - 1)
  {
    PrefixOccurs(s, from, at);
    ReplacedStep(s[at..], from, to, left);
    assert s[at..][|from|..] == s[at + |from|..];
  }

  lemma ReplacedLater(s: Str, from: Str, to: Str, left: nat, at: nat)
    requires from != [] && left > 0 && at < |s| && !OccursAt(s, from, at)
    ensures Replaced(s[at..], from, to, left) == [s[at]] + Replaced(s[at + 1..], from, to, left)
  {
    PrefixOccurs(s, from, at);
    ReplacedStep(s[at..], from, to, left);
    assert s[at..][1..] == s[at + 1..];
  }

  lemma LeftmostHere(s: Str, from: Str, ps: seq<nat>, left: nat, at: nat)
    requires left > 0 && OccursAt(s, from, at) && Leftmost(s, from, ps, left - 1, at + |from|)
    ensures Leftmost(s, from, [at] + ps, left, at)
  {
    var qs := [at] + ps;
    assert qs[0] == at && qs[1..] == ps;
  }

  lemma SpliceHere(s: Str, ps: seq<nat>, m: nat, to: Str, at: nat)
    requires at + m <= |s|
    ensures Splice(s, [at] + ps, m, to, at) == to + Splice(s, ps, m, to, at + m)
  {
    var qs := [at] + ps;
    assert qs[0] == at && qs[1..] == ps;
    assert s[at..at] + to == to;
  }

  lemma ReplacedStep(t: Str, from: Str, to: Str, left: nat)
    requires from != [] && left > 0
    ensures from <= t ==> Replaced(t, from, to, left) == to + Replaced(t[|from|..], from, to, left - 1)
    ensures !(from <= t) && t != [] ==> Replaced(t, from, to, left) == [t[0]] + Replaced(t[1..], from, to, left)
  {
  }

  lemma SpliceLater(s: Str, ps: seq<nat>, m: nat, to: Str, at: nat)
    requires at < |s| && (ps != [] ==> at + 1 <= ps[0] && ps[0] + m <= |s|)
    ensures Splice(s, ps, m, to, at) == [s[at]] + Splice(s, ps, m, to, at + 1)
  {
    if ps == [] {
      assert s[at..] == [s[at]] + s[at + 1..];
    } else {
      var a, x := s[at + 1..ps[0]], Splice(s, ps[1..], m, to, ps[0] + m);
      assert s[at..ps[0]] == [s[at]] + a;
      PrependTwice([s[at]], a, to, x);
    }
  }

  lemma PrependTwice(a: Str, b: Str, c: Str, d: Str)
    ensures (a + b) + c + d == a + (b + c + d)
  {
  }

  lemma LeftmostEarlier(s: Str, from: Str, ps: seq<nat>, left: nat, at: nat)
    requires Leftmost(s, from, ps, left, at + 1) && !OccursAt(s, from, at)
    ensures Leftmost(s, from, ps, left, at)
  {
  }

  // There is only one such list of positions.
  lemma {:induction false} LeftmostUnique(s: Str, from: Str, ps: seq<nat>, qs: seq<nat>, left: nat, at: nat)
    requires Leftmost(s, from, ps, left, at) && Leftmost(s, from, qs, left, at)
    ensures ps == qs
    decreases |ps|
  {
    if ps != [] && qs != [] {
      assert ps[0] == qs[0];
      LeftmostUnique(s, from, ps[1..], qs[1..], left - 1, ps[0] + |from|);
      assert ps == [ps[0]] + ps[1..] && qs == [qs[0]] + qs[1..];
    }
  }

  // Replacing means splicing at the leftmost occurrences, whatever list of
  // positions describes them.
  lemma ReplacedIsSpliced(s: Str, from: Str, to: Str, left: nat, ps: seq<nat>)
    requires from != [] && Leftmost(s, from, ps, left, 0)
    ensures Replaced(s, from, to, left) == Splice(s, ps, |from|, to, 0)
  {
    PlacesAreLeftmost(s, from, left, 0);
    ReplacedAtPlaces(s, from, to, left, 0);
    LeftmostUnique(s, from, ps, Places(s, from, left, 0), left, 0);
    assert s[0..] == s;
  }

  // ----- The occurrences that are replaced -----

  // `q` lies in the occurrence at `p`; the empty string takes its own place.
  predicate Taken(from: Str, p: nat, q: nat) { p == q || p < q < p + |from| }

  ghost predicate InOne(from: Str, ps: seq<nat>, q: nat) { exists i :: 0 <= i < |ps| && Taken(from, ps[i], q) }

  predicate InOrder(from: Str, ps: seq<nat>) {
    forall i, j :: 0 <= i < j < |ps| ==> ps[i] < ps[j] && ps[i] + |from| <= ps[j]
  }

  predicate Behind(ps: seq<nat>, left: nat, q: nat) { left == |ps| && (ps != [] ==> ps[|ps| - 1] < q) }

  // `ps` are from left to right occurrences that do not overlap; any other one
  // lies in one of these, or behind the last if these are as many as asked for.
  // A count of zero or less asks for all.
  ghost predicate Chosen(s: Str, from: Str, ps: seq<nat>, n: int) {
    && (forall i :: 0 <= i < |ps| ==> OccursAt(s, from, ps[i]))
    && InOrder(from, ps)
    && (forall q: nat {:trigger InOne(from, ps, q)} ::
          OccursAt(s, from, q) ==> InOne(from, ps, q) || (n > 0 && Behind(ps, n, q)))
    && (n > 0 ==> |ps| <= n)
  }

  // `r` has `to` in place of the occurrences.
  ghost predicate ReplacedAs(s: Str, from: Str, to: Str, n: int, r: Str) {
    exists ps :: Chosen(s, from, ps, n) && r == Splice(s, ps, |from|, to, 0)
  }

  // The two lists begin alike.
  predicate Alike(ps: seq<nat>, qs: seq<nat>, k: nat) {
    k <= |ps| && k <= |qs| && forall i :: 0 <= i < k ==> ps[i] == qs[i]
  }

  lemma NotInOne(from: Str, ps: seq<nat>, qs: seq<nat>, k: nat)
    requires InOrder(from, ps) && Alike(ps, qs, k) && k < |ps| && (k < |qs| ==> ps[k] < qs[k]) && InOrder(from, qs)
    ensures !InOne(from, qs, ps[k])
  {
    forall j | 0 <= j < |qs| ensures !Taken(from, qs[j], ps[k]) {
      if j < k {
        assert qs[j] == ps[j];
      } else if j > k {
        assert qs[k] < qs[j];
      }
    }
  }

  lemma NotLess(s: Str, from: Str, ps: seq<nat>, qs: seq<nat>, n: int, k: nat)
    requires Chosen(s, from, ps, n) && Chosen(s, from, qs, n) && Alike(ps, qs, k) && k < |ps|
    ensures k < |qs| && ps[k] >= qs[k]
  {
    assert OccursAt(s, from, ps[k]);
    if k >= |qs| || ps[k] < qs[k] { NotInOne(from, ps, qs, k); }
  }

  lemma {:induction false} ChosenAlike(s: Str, from: Str, ps: seq<nat>, qs: seq<nat>, n: int, k: nat)
    requires Chosen(s, from, ps, n) && Chosen(s, from, qs, n) && k <= |ps|
    ensures Alike(ps, qs, k)
  {
    if k > 0 {
      ChosenAlike(s, from, ps, qs, n, k - 1);
      NotLess(s, from, ps, qs, n, k - 1);
      NotLess(s, from, qs, ps, n, k - 1);
    }
  }

  // There is only one such list.
  lemma ChosenUnique(s: Str, from: Str, ps: seq<nat>, qs: seq<nat>, n: int)
    requires Chosen(s, from, ps, n) && Chosen(s, from, qs, n)
    ensures ps == qs
  {
    ChosenAlike(s, from, ps, qs, n, |ps|);
    ChosenAlike(s, from, qs, ps, n, |qs|);
  }

  // The same from `at` on, with a limit.
  ghost predicate ChosenFrom(s: Str, from: Str, ps: seq<nat>, left: nat, at: nat) {
    && |ps| <= left
    && (forall i :: 0 <= i < |ps| ==> at + i <= ps[i] && OccursAt(s, from, ps[i]))
    && (forall i, j :: 0 <= i < j < |ps| ==> ps[i] + |from| <= ps[j])
    && forall q: nat {:trigger InOne(from, ps, q)} ::
         at <= q && OccursAt(s, from, q) ==> InOne(from, ps, q) || Behind(ps, left, q)
  }

  lemma {:induction false} LeftmostIsChosen(s: Str, from: Str, ps: seq<nat>, left: nat, at: nat)
    requires from != [] && Leftmost(s, from, ps, left, at)
    ensures ChosenFrom(s, from, ps, left, at)
    decreases |ps|
  {
    if ps != [] {
      LeftmostIsChosen(s, from, ps[1..], left - 1, ps[0] + |from|);
      assert ps == [ps[0]] + ps[1..];
      OneMoreInOrder(s, from, ps[0], ps[1..], left, at);
      forall q | at <= q && OccursAt(s, from, q) ensures InOne(from, ps, q) || Behind(ps, left, q) {
        OneMoreTaken(s, from, ps[0], ps[1..], left, at, q);
      }
    }
  }

  lemma OneMoreInOrder(s: Str, from: Str, p: nat, rest: seq<nat>, left: nat, at: nat)
    requires from != [] && left > 0 && at <= p && OccursAt(s, from, p)
    requires ChosenFrom(s, from, rest, left - 1, p + |from|)
    ensures var ps := [p] + rest;
      && (forall i :: 0 <= i < |ps| ==> at + i <= ps[i] && OccursAt(s, from, ps[i]))
      && forall i, j :: 0 <= i < j < |ps| ==> ps[i] + |from| <= ps[j]
  {
    var ps := [p] + rest;
    forall i | 0 <= i < |ps| ensures at + i <= ps[i] && OccursAt(s, from, ps[i]) {
      if i > 0 { assert ps[i] == rest[i - 1]; }
    }
    forall i, j | 0 <= i < j < |ps| ensures ps[i] + |from| <= ps[j] {
      assert ps[j] == rest[j - 1];
      if i > 0 { assert ps[i] == rest[i - 1]; }
    }
  }

  lemma OneMoreTaken(s: Str, from: Str, p: nat, rest: seq<nat>, left: nat, at: nat, q: nat)
    requires left > 0 && (at <= q < p ==> !OccursAt(s, from, q)) && at <= q && OccursAt(s, from, q)
    requires ChosenFrom(s, from, rest, left - 1, p + |from|)
    ensures InOne(from, [p] + rest, q) || Behind([p] + rest, left, q)
  {
    var ps := [p] + rest;
    if q < p + |from| {
      assert Taken(from, ps[0], q);
    } else if InOne(from, rest, q) {
      var i :| 0 <= i < |rest| && Taken(from, rest[i], q);
      assert Taken(from, ps[i + 1], q);
    } else {
      assert Behind(rest, left - 1, q);
      if |from| == 0 && rest == [] && p == q { assert Taken(from, ps[0], q); }
    }
  }

  lemma AllChosen(s: Str, from: Str, ps: seq<nat>, n: int)
    requires from != [] && ChosenFrom(s, from, ps, Limit(s, n), 0)
    ensures Chosen(s, from, ps, n)
  {
    if ps != [] {
      assert OccursAt(s, from, ps[|ps| - 1]);
      assert |ps| <= |s|;
    }
  }

  // The empty string occurs everywhere.
  function Upto(m: nat): seq<nat> { seq(m, i requires 0 <= i < m => i) }

  lemma EmptyChosen(s: Str, n: int)
    ensures Chosen(s, [], Upto(Min(Limit(s, n), |s| + 1)), n)
  {
    var ps := Upto(Min(Limit(s, n), |s| + 1));
    forall q: nat | OccursAt(s, [], q)
      ensures InOne([], ps, q) || (n > 0 && Behind(ps, n, q))
    {
      if q < |ps| { assert Taken([], ps[q], q); }
    }
  }

  function Further(at: nat, m: nat): seq<nat> { seq(m, i requires 0 <= i < m => at + i) }

  lemma {:induction false} EmptySpliced(s: Str, to: Str, left: nat, at: nat)
    requires at <= |s|
    ensures Replaced(s[at..], [], to, left) == Splice(s, Further(at, Min(left, |s| - at + 1)), 0, to, at)
    decreases |s| - at
  {
    var ps := Further(at, Min(left, |s| - at + 1));
    if left > 0 {
      assert s[at..at] + to == to;
      if at < |s| {
        EmptySpliced(s, to, left - 1, at + 1);
        assert s[at..][1..] == s[at + 1..];
        EmptyRound(s, to, left, at);
      } else {
        assert ps == [at];
      }
    }
  }

  lemma EmptyRound(s: Str, to: Str, left: nat, at: nat)
    requires at < |s| && left > 0
    ensures
      Splice(s, Further(at, Min(left, |s| - at + 1)), 0, to, at) ==
      to + ([s[at]] + Splice(s, Further(at + 1, Min(left - 1, |s| - at)), 0, to, at + 1))
  {
    var m := Min(left - 1, |s| - at);
    var rest := Further(at + 1, m);
    assert Further(at, m + 1) == [at] + rest;
    SpliceHere(s, rest, 0, to, at);
    SpliceLater(s, rest, 0, to, at);
  }

  // Replacing is putting `to` at these occurrences.
  lemma ReplacedIsChosen(s: Str, from: Str, to: Str, n: int)
    ensures ReplacedAs(s, from, to, n, Replaced(s, from, to, Limit(s, n)))
  {
    var left := Limit(s, n);
    if from == [] {
      var ps := Upto(Min(left, |s| + 1));
      EmptyChosen(s, n);
      EmptySpliced(s, to, left, 0);
      assert s[0..] == s && ps == Further(0, Min(left, |s| + 1));
      assert Replaced(s, from, to, left) == Splice(s, ps, |from|, to, 0);
    } else {
      var ps := Places(s, from, left, 0);
      PlacesAreLeftmost(s, from, left, 0);
      LeftmostIsChosen(s, from, ps, left, 0);
      AllChosen(s, from, ps, n);
      ReplacedIsSpliced(s, from, to, left, ps);
    }
  }

  // ----- Lengths -----

  function Min(a: nat, b: nat): nat { if a < b then a else b }

  lemma {:induction false} InsertedLength(s: Str, to: Str, left: nat)
    ensures |Replaced(s, [], to, left)| == |s| + Min(left, |s| + 1) * |to|
    decreases |s|
  {
    if left > 0 && s != [] {
      InsertedLength(s[1..], to, left - 1);
      OneMore(Min(left - 1, |s|), |to|);
      assert Min(left, |s| + 1) == Min(left - 1, |s|) + 1;
    }
  }

  lemma OneMore(m: nat, n: nat)
    ensures (m + 1) * n == m * n + n
  {
  }

  // More occurrences than there can be are no limit.
  lemma {:induction false} NoOccurrence(s: Str, from: Str, to: Str, left: nat)
    requires |s| < |from|
    ensures Replaced(s, from, to, left) == s
    decreases |s|
  {
    if s != [] {
      NoOccurrence(s[1..], from, to, left);
      assert s == [s[0]] + s[1..];
    }
  }

  lemma {:induction false} EmptyForEmpty(s: Str, left: nat)
    ensures Replaced(s, [], [], left) == s
    decreases |s|
  {
    if left > 0 && s != [] {
      EmptyForEmpty(s[1..], left - 1);
      assert s == [s[0]] + s[1..];
    }
  }

  // More occurrences than there can be are no limit.
  lemma {:induction false} EnoughLeft(s: Str, from: Str, to: Str, left: nat, left': nat)
    requires from != [] && left > |s| && left' > |s|
    ensures Replaced(s, from, to, left) == Replaced(s, from, to, left')
    decreases |s|
  {
    ReplacedStep(s, from, to, left);
    ReplacedStep(s, from, to, left');
    if from <= s {
      EnoughLeft(s[|from|..], from, to, left - 1, left' - 1);
    } else if s != [] {
      EnoughLeft(s[1..], from, to, left, left');
    }
  }

  // A pattern as long as the string.
  lemma ReplacedWhole(s: Str, to: Str, left: nat)
    requires s != [] && left > 0
    ensures Replaced(s, s, to, left) == to
  {
    ReplacedStep(s, s, to, left);
    assert s[|s|..] == [] && to + [] == to;
    assert Replaced([], s, to, left - 1) == [];
  }

  lemma ReplacedNot(s: Str, from: Str, to: Str, left: nat)
    requires |s| == |from| > 0 && s != from
    ensures Replaced(s, from, to, left) == s
  {
    if left > 0 {
      ReplacedStep(s, from, to, left);
      NoOccurrence(s[1..], from, to, left);
      assert s == [s[0]] + s[1..];
    }
  }

  // How many occurrences may still be replaced when `k` have been counted.
  function StillLeft(rest: Str, n3: int, k: nat): nat {
    if n3 <= 0 then |rest| + 1 else if k < n3 then n3 - k else 0
  }

  // What has been written, and what is still to be.
  predicate Copied(out: Str, self: Str, i: nat, from: Str, to: Str, n3: int, k: nat, whole: Str) {
    i <= |self| && out + Replaced(self[i..], from, to, StillLeft(self[i..], n3, k)) == whole
  }

  predicate Replaces(self: Str, i: nat, from: Str, n3: int, k: nat) {
    OccursAt(self, from, i) && (n3 <= 0 || k < n3)
  }

  // One round: an occurrence, or one byte; every occurrence counts.
  lemma CopyReplaces(out: Str, self: Str, i: nat, from: Str, to: Str, n3: int, k: nat, whole: Str)
    requires from != [] && i < |self| && Copied(out, self, i, from, to, n3, k, whole)
    requires Replaces(self, i, from, n3, k)
    ensures Copied(out + to, self, i + |from|, from, to, n3, if n3 <= 0 then k else k + 1, whole)
  {
    var left, rest := StillLeft(self[i..], n3, k), self[i + |from|..];
    ReplacedHere(self, from, to, left, i);
    assert (out + to) + Replaced(rest, from, to, left - 1) == whole;
    if n3 <= 0 { EnoughLeft(rest, from, to, left - 1, |rest| + 1); }
  }

  lemma CopyKeeps(out: Str, self: Str, i: nat, from: Str, to: Str, n3: int, k: nat, k': nat, whole: Str)
    requires from != [] && i < |self| && Copied(out, self, i, from, to, n3, k, whole)
    requires !Replaces(self, i, from, n3, k)
    requires k' == if n3 > 0 && OccursAt(self, from, i) then k + 1 else k
    ensures Copied(out + [self[i]], self, i + 1, from, to, n3, k', whole)
  {
    var s, rest := self[i..], self[i + 1..];
    var left := StillLeft(s, n3, k);
    assert s[1..] == rest && s == [self[i]] + rest;
    PrefixOccurs(self, from, i);
    if left > 0 { ReplacedStep(s, from, to, left); }
    assert (out + [self[i]]) + Replaced(rest, from, to, left) == whole;
    if n3 <= 0 { EnoughLeft(rest, from, to, left, |rest| + 1); }
  }

  // The counter after the test at `i`.
  function Counted(self: Str, i: nat, from: Str, n3: int, k: nat): nat {
    if n3 > 0 && OccursAt(self, from, i) then k + 1 else k
  }

  // What one round writes, and where the next one starts.
  function RoundOut(out: Str, self: Str, i: nat, from: Str, to: Str, replace: bool): Str
    requires i < |self|
  {
    if replace then out + to else out + [self[i]]
  }

  function RoundEnd(i: nat, from: Str, replace: bool): nat { if replace then i + |from| else i + 1 }

  lemma CopyRound(out: Str, self: Str, i: nat, from: Str, to: Str, n3: int, k: nat, whole: Str)
    requires from != [] && i < |self| && Copied(out, self, i, from, to, n3, k, whole)
    ensures
      var replace := Replaces(self, i, from, n3, k);
      Copied(RoundOut(out, self, i, from, to, replace), self, RoundEnd(i, from, replace), from, to, n3,
             Counted(self, i, from, n3, k), whole)
    ensures Replaces(self, i, from, n3, k) ==> i + |from| <= |self|
  {
    if Replaces(self, i, from, n3, k) {
      CopyReplaces(out, self, i, from, to, n3, k, whole);
    } else {
      CopyKeeps(out, self, i, from, to, n3, k, Counted(self, i, from, n3, k), whole);
    }
  }

  lemma CopyStarts(self: Str, from: Str, to: Str, n3: int)
    ensures Copied([], self, 0, from, to, n3, 0, Replaced(self, from, to, Limit(self, n3)))
  {
    assert self[0..] == self;
  }

  lemma CopyEnds(out: Str, self: Str, from: Str, to: Str, n3: int, k: nat, whole: Str)
    requires from != [] && Copied(out, self, |self|, from, to, n3, k, whole)
    ensures out == whole
  {
    assert self[|self|..] == [];
    var left := StillLeft([], n3, k);
    if left > 0 { assert Replaced([], from, to, left) == []; }
  }
}
