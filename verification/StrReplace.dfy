/** `str_replace` of the string runtime: several fast paths, each writing into a
    buffer of computed size. */
module StrReplace {
  import opened ReplaceSpec

  // `alloc`, `re_alloc` and `memcpy`.
  method Alloc(l: nat) returns (d: array<Byte>)
    ensures fresh(d) && d.Length == l
  {
    d := new Byte[l](i => 0);
  }

  method ReAlloc(d: array<Byte>, l: nat, ghost out: Str) returns (r: array<Byte>)
    requires |out| <= l && Holds(d, out)
    ensures fresh(r) && r.Length == l && Holds(r, out)
  {
    r := new Byte[l](i requires 0 <= i reads d => if i < d.Length then d[i] else 0);
  }

  // The buffer starts with `out`.
  predicate Holds(d: array<Byte>, out: Str)
    reads d
  {
    |out| <= d.Length && d[..|out|] == out
  }

  // `j` is where `d` has been written to, so far `out`.
  method MemCpy(d: array<Byte>, j: nat, src: Str, ghost out: Str)
    requires j == |out| && j + |src| <= d.Length && Holds(d, out)
    modifies d
    ensures Holds(d, out + src)
  {
    var i := 0;
    while i < |src|
      invariant 0 <= i <= |src|
      invariant d[..j] == out && d[j..j + i] == src[..i]
    {
      d[j + i] := src[i];
      i := i + 1;
    }
    assert src[..|src|] == src;
    assert d[..j + |src|] == d[..j] + d[j..j + |src|] == out + src;
  }

  method Write(d: array<Byte>, j: nat, b: Byte, ghost out: Str)
    requires j == |out| && j < d.Length && Holds(d, out)
    modifies d
    ensures Holds(d, out + [b])
  {
    d[j] := b;
    assert d[..j + 1] == d[..j] + [b];
  }

  // An empty pattern: in front of every character and at the end.
  method Insert(self: Str, n2: Str, n3: int) returns (d: array<Byte>, l: nat)
    requires n2 != []
    ensures fresh(d) && d.Length == l && d[..l] == Replaced(self, [], n2, Limit(self, n3))
  {
    ghost var whole := Replaced(self, [], n2, Limit(self, n3));
    l := InsertSize(self, n2, n3);
    InsertedWhole(self, n2, n3);
    d := Alloc(l);
    MemCpy(d, 0, n2, []);
    assert [] + n2 == n2;
    var j, k := |n2|, 0;
    ghost var out := n2;
    InsertStarts(self, n2, LeftAt(self, n3, 0), whole);
    var i := 0;
    while i < |self|
      invariant 0 <= i <= |self| && j == |out| && d.Length == l == |whole| && Holds(d, out)
      invariant n3 > 0 ==> k == i
      invariant Inserted(out, self, i, n2, LeftAt(self, n3, i), whole)
    {
      InsertNext(out, self, i, n2, n3, whole);
      j, k := InsertRound(d, j, self, i, n2, n3, k, out);
      out := Next(out, self, i, n2, n3);
      i := i + 1;
    }
    InsertEnds(out, self, n2, LeftAt(self, n3, i), whole);
  }

  // One round: a byte of the string and, while the limit allows, the new string.
  method InsertRound(d: array<Byte>, j: nat, self: Str, i: nat, n2: Str, n3: int, k: nat, ghost out: Str)
    returns (j': nat, k': nat)
    requires i < |self| && j == |out| && Holds(d, out) && (n3 > 0 ==> k == i)
    requires |out| < d.Length && |Next(out, self, i, n2, n3)| <= d.Length
    modifies d
    ensures Holds(d, Next(out, self, i, n2, n3)) && j' == |Next(out, self, i, n2, n3)|
    ensures n3 > 0 ==> k' == i + 1
  {
    j', k' := j, k;
    Write(d, j', self[i], out);
    j' := j' + 1;
    var more := n3 <= 0;
    if !more {
      k' := k' + 1;
      more := k' < n3;
    }
    assert more == (LeftAt(self, n3, i) > 0);
    if more {
      MemCpy(d, j', n2, out + [self[i]]);
      j' := j' + |n2|;
    } else {
      assert out + [self[i]] + [] == out + [self[i]];
    }
  }

  // The length of the buffer, before anything is written.
  method InsertSize(self: Str, n2: Str, n3: int) returns (l: nat)
    ensures l == |Replaced(self, [], n2, Limit(self, n3))|
  {
    InsertedLength(self, n2, Limit(self, n3));
    l := |self| + (if n3 > 0 && n3 <= |self| then n3 else |self| + 1) * |n2|;
  }

  lemma InsertedWhole(self: Str, to: Str, n3: int)
    ensures Replaced(self, [], to, Limit(self, n3)) == to + Rest(self, to, LeftAt(self, n3, 0))
  {
  }

  // The insertions still allowed when `i` characters have been copied.
  function LeftAt(self: Str, n3: int, i: nat): nat
    requires i <= |self|
  {
    if n3 <= 0 then |self| - i else if i + 1 <= n3 then n3 - (i + 1) else 0
  }

  // What one round of the loop writes.
  function Next(out: Str, self: Str, i: nat, to: Str, n3: int): Str
    requires i < |self|
  {
    out + [self[i]] + if LeftAt(self, n3, i) > 0 then to else []
  }

  lemma InsertNext(out: Str, self: Str, i: nat, to: Str, n3: int, whole: Str)
    requires i < |self| && Inserted(out, self, i, to, LeftAt(self, n3, i), whole)
    ensures Inserted(Next(out, self, i, to, n3), self, i + 1, to, LeftAt(self, n3, i + 1), whole)
    ensures |Next(out, self, i, to, n3)| <= |whole| && |out| < |whole|
  {
    InsertStep(out, self, i, to, LeftAt(self, n3, i), whole);
    assert out + [self[i]] + [] == out + [self[i]];
  }

  // What has been written, and what is still to be.
  predicate Inserted(out: Str, self: Str, i: nat, to: Str, left: nat, whole: Str) {
    i <= |self| && out + Rest(self[i..], to, left) == whole
  }

  // What follows an insertion.
  function Rest(s: Str, to: Str, left: nat): Str {
    if s == [] then [] else [s[0]] + Replaced(s[1..], [], to, left)
  }

  lemma InsertStep(written: Str, self: Str, i: nat, to: Str, left: nat, whole: Str)
    requires i < |self| && Inserted(written, self, i, to, left, whole)
    ensures |written| < |whole|
    ensures left == 0 ==> Inserted(written + [self[i]], self, i + 1, to, 0, whole)
    ensures left > 0 ==>
      Inserted((written + [self[i]]) + to, self, i + 1, to, left - 1, whole) && |written| + 1 + |to| <= |whole|
  {
    var rest := self[i + 1..];
    assert self[i..][1..] == rest;
    InsertedRest(rest, to, left);
    var tail := if left == 0 then Rest(rest, to, 0) else to + Rest(rest, to, left - 1);
    assert Rest(self[i..], to, left) == [self[i]] + tail;
    assert whole == (written + [self[i]]) + tail;
    if left > 0 { Regroup(written + [self[i]], to, Rest(rest, to, left - 1)); }
  }

  lemma InsertStarts(self: Str, to: Str, left: nat, whole: Str)
    requires whole == to + Rest(self, to, left)
    ensures Inserted(to, self, 0, to, left, whole)
  {
    assert self[0..] == self;
  }

  lemma InsertEnds(out: Str, self: Str, to: Str, left: nat, whole: Str)
    requires Inserted(out, self, |self|, to, left, whole)
    ensures out == whole
  {
  }

  lemma InsertedRest(rest: Str, to: Str, left: nat)
    ensures Replaced(rest, [], to, left) == if left == 0 then Rest(rest, to, 0) else to + Rest(rest, to, left - 1)
  {
    if left == 0 && rest != [] { assert rest == [rest[0]] + rest[1..]; }
  }

  lemma Regroup(a: Str, b: Str, c: Str)
    ensures (a + b) + c == a + (b + c)
  {
  }

  // A pattern as long as the string: `n3` does not matter.
  method ReplaceWhole(self: Str, n1: Str, n2: Str, n3: int) returns (d: array<Byte>, l: nat)
    requires |self| == |n1| > 0
    ensures fresh(d) && d.Length == l && d[..l] == Replaced(self, n1, n2, Limit(self, n3))
  {
    if self != n1 {
      ReplacedNot(self, n1, n2, Limit(self, n3));
      l := |self|;
      d := Alloc(l);
      MemCpy(d, 0, self, []);
      assert [] + self == self;
    } else {
      ReplacedWhole(self, n2, Limit(self, n3));
      l := |n2|;
      d := Alloc(l);
      MemCpy(d, 0, n2, []);
      assert [] + n2 == n2;
    }
  }

  // The test of both loops: an occurrence at `i` that is to be replaced.  Every
  // occurrence is counted if there is a limit.
  method Test(self: Str, n1: Str, n3: int, i: nat, k: nat) returns (replace: bool, k': nat)
    requires |n1| <= |self|
    ensures replace == Replaces(self, i, n1, n3, k) && k' == Counted(self, i, n1, n3, k)
  {
    replace, k' := false, k;
    if i <= |self| - |n1| && self[i..i + |n1|] == n1 {
      replace := n3 <= 0;
      if !replace {
        replace := k < n3;
        k' := k + 1;
      }
    }
  }

  // Nothing in place of the pattern.
  method Delete(self: Str, n1: Str, n3: int) returns (d: array<Byte>, l: nat)
    requires |self| > |n1| > 0
    ensures fresh(d) && d.Length == l && d[..l] == Replaced(self, n1, [], Limit(self, n3))
  {
    ghost var whole := Replaced(self, n1, [], Limit(self, n3));
    CopyStarts(self, n1, [], n3);
    l := 0;
    d := Alloc(|self|);
    var k := 0;
    ghost var out: Str := [];
    var i := 0;
    while i < |self|
      invariant 0 <= i <= |self| && l == |out| <= i && d.Length == |self| && Holds(d, out) && k >= 0
      invariant Copied(out, self, i, n1, [], n3, k, whole)
    {
      CopyRound(out, self, i, n1, [], n3, k, whole);
      var replace, k' := Test(self, n1, n3, i, k);
      ghost var next, end := RoundOut(out, self, i, n1, [], replace), RoundEnd(i, n1, replace);
      k := k';
      if replace {
        assert next == out;
        i := i + (|n1| - 1);
      } else {
        Write(d, l, self[i], out);
        l := l + 1;
      }
      out := next;
      i := i + 1;
      assert i == end;
    }
    CopyEnds(out, self, n1, [], n3, k, whole);
    if l != |self| { d := ReAlloc(d, l, out); }
  }

  // Another string in place of the pattern: the buffer grows with every
  // occurrence that does not fit.
  method Substitute(self: Str, n1: Str, n2: Str, n3: int) returns (d: array<Byte>, l: nat)
    requires |self| > |n1| > 0 && n2 != []
    ensures fresh(d) && d.Length == l && d[..l] == Replaced(self, n1, n2, Limit(self, n3))
  {
    ghost var whole := Replaced(self, n1, n2, Limit(self, n3));
    CopyStarts(self, n1, n2, n3);
    l := |self|;
    d := Alloc(l);
    var j, k := 0, 0;
    ghost var out: Str := [];
    var i := 0;
    while i < |self|
      invariant 0 <= i <= |self| && j == |out| && k >= 0 && fresh(d) && Holds(d, out)
      invariant l == j + (|self| - i)
      invariant if |n1| < |n2| then d.Length == l else d.Length == |self| && j <= i
      invariant Copied(out, self, i, n1, n2, n3, k, whole)
    {
      CopyRound(out, self, i, n1, n2, n3, k, whole);
      var replace, k' := Test(self, n1, n3, i, k);
      ghost var next, end := RoundOut(out, self, i, n1, n2, replace), RoundEnd(i, n1, replace);
      k := k';
      if replace {
        d, l := Fit(d, l, |n1|, |n2|, out);
        MemCpy(d, j, n2, out);
        j := j + |n2|;
        i := i + (|n1| - 1);
      } else {
        Write(d, j, self[i], out);
        j := j + 1;
      }
      out := next;
      i := i + 1;
      assert i == end;
    }
    CopyEnds(out, self, n1, n2, n3, k, whole);
    d := ReAlloc(d, l, out);
  }

  // The buffer with room for one more occurrence.
  method Fit(d: array<Byte>, l: nat, n1: nat, n2: nat, ghost out: Str) returns (d': array<Byte>, l': nat)
    requires Holds(d, out) && |out| + n1 <= l && (n1 < n2 ==> d.Length == l)
    ensures l' == l + n2 - n1 && Holds(d', out)
    ensures if n1 < n2 then fresh(d') && d'.Length == l' else d' == d
  {
    d', l' := d, l;
    if n1 < n2 {
      l' := l + (n2 - n1);
      d' := ReAlloc(d, l', out);
    } else if n1 > n2 {
      l' := l - (n1 - n2);
    }
  }

  // `str_replace`: the length it returns is that of the buffer, all of which
  // has been written.
  method Replace(self: Str, n1: Str, n2: Str, n3: int) returns (d: array<Byte>, l: nat)
    ensures fresh(d) && d.Length == l && d[..l] == Replaced(self, n1, n2, Limit(self, n3))
    ensures ReplacedAs(self, n1, n2, n3, d[..l])
  {
    ReplacedIsChosen(self, n1, n2, n3);
    if n1 == [] && n2 != [] {
      d, l := Insert(self, n2, n3);
    } else if |self| == |n1| && n1 != [] {
      d, l := ReplaceWhole(self, n1, n2, n3);
    } else if |self| > |n1| && n1 != [] && n2 == [] {
      d, l := Delete(self, n1, n3);
    } else if |self| > |n1| && n1 != [] {
      d, l := Substitute(self, n1, n2, n3);
    } else {
      if n1 == [] { EmptyForEmpty(self, Limit(self, n3)); } else { NoOccurrence(self, n1, n2, Limit(self, n3)); }
      l := |self|;
      d := Alloc(l);
      MemCpy(d, 0, self, []);
      assert [] + self == self;
    }
  }
}
