/** A text has at most one tiling, and its tiling gives it back. */
module LexerTiling {
  import opened LexerSpec

  // ----- Gaps -----

  lemma {:induction false} WhitespaceIsGap(s: string, keep: bool, i: nat, k: nat, j: nat)
    requires Run(s, Space, i, k) && k <= j && Gap(s, keep, k, j)
    ensures Gap(s, keep, i, j)
    decreases k - i
  {
    if i < k {
      assert In(s[i], Space);
      WhitespaceIsGap(s, keep, i + 1, k, j);
    }
  }

  lemma CommentIsGap(s: string, i: nat, e: nat, j: nat)
    requires CommentAt(s, i, e) && e <= j && Gap(s, false, e, j)
    ensures Gap(s, false, i, j)
  {
    assert i < e;
  }

  lemma CommentEndsOnce(s: string, i: nat, e: nat, f: nat)
    requires CommentAt(s, i, e) && CommentAt(s, i, f)
    ensures e == f
  {
  }

  // A block comment without an end comes after the gap at `p`.
  ghost predicate Stalled(s: string, keep: bool, p: nat) {
    exists i: nat :: Gap(s, keep, p, i) && Unclosed(s, i)
  }

  lemma StallsAtOnce(s: string, keep: bool, p: nat)
    requires Unclosed(s, p)
    ensures Stalled(s, keep, p)
  {
    assert Gap(s, keep, p, p);
  }

  lemma StallIsBroken(s: string, keep: bool, p: nat)
    requires Stalled(s, keep, p)
    ensures Broken(s, keep, p)
  {
    var i: nat :| Gap(s, keep, p, i) && Unclosed(s, i);
  }

  lemma NoTokenIsBroken(s: string, keep: bool, p: nat, i: nat)
    requires Gap(s, keep, p, i) && GapEnds(s, i) && NoToken(s, i)
    ensures Broken(s, keep, p)
  {
  }

  lemma StallsAfterSpace(s: string, keep: bool, p: nat, k: nat)
    requires Run(s, Space, p, k) && Stalled(s, keep, k)
    ensures Stalled(s, keep, p)
  {
    var i: nat :| Gap(s, keep, k, i) && Unclosed(s, i);
    GapGoesUp(s, keep, k, i);
    WhitespaceIsGap(s, keep, p, k, i);
  }

  lemma StallsAfterComment(s: string, p: nat, e: nat)
    requires CommentAt(s, p, e) && Stalled(s, false, e)
    ensures Stalled(s, false, p)
  {
    var i: nat :| Gap(s, false, e, i) && Unclosed(s, i);
    GapGoesUp(s, false, e, i);
    CommentIsGap(s, p, e, i);
  }

  lemma GapGoesUp(s: string, keep: bool, i: nat, j: nat)
    requires Gap(s, keep, i, j)
    ensures i <= j <= |s|
  {
  }

  // No gap goes on from `p`.
  ghost predicate Halt(s: string, keep: bool, p: nat) {
    p < |s| ==> !IsWhitespace(s[p]) && (!keep ==> forall e: nat :: !CommentAt(s, p, e))
  }

  lemma {:induction false} GapHaltsOnce(s: string, keep: bool, p: nat, i: nat, j: nat)
    requires Gap(s, keep, p, i) && Gap(s, keep, p, j) && Halt(s, keep, i) && Halt(s, keep, j)
    ensures i == j
    decreases i - p
  {
    if p == i || p == j {
    } else if IsWhitespace(s[p]) {
      assert forall e: nat :: !CommentAt(s, p, e);
      GapHaltsOnce(s, keep, p + 1, i, j);
    } else {
      var e: nat :| CommentAt(s, p, e) && p < e <= i && Gap(s, keep, e, i);
      var f: nat :| CommentAt(s, p, f) && p < f <= j && Gap(s, keep, f, j);
      CommentEndsOnce(s, p, e, f);
      GapHaltsOnce(s, keep, e, i, j);
    }
  }

  lemma GapEndHalts(s: string, keep: bool, p: nat)
    requires GapEnds(s, p)
    ensures Halt(s, keep, p)
  {
  }

  lemma UnclosedHalts(s: string, keep: bool, p: nat)
    requires Unclosed(s, p)
    ensures Halt(s, keep, p) && !GapEnds(s, p) && forall e: nat :: !CommentAt(s, p, e)
  {
  }

  lemma TileHalts(s: string, keep: bool, toks: seq<Token>, p: nat)
    requires Tiles(s, keep, toks, p)
    ensures Halt(s, keep, toks[0].start.pos)
  {
  }

  // ----- One token at a place -----

  // The kinds that may begin with a character.
  predicate Begins(kind: Kind, c: char) {
    match kind
    case Op(_) => IsOp1(c)
    case Kw(_) => IsIdStart(c)
    case Ident => IsIdStart(c)
    case IntBin | IntDec | IntHex | IntOct | FloatLit => IsDigit(c)
    case StrLit => c == '"'
    case CharLit => c == '\''
    case CommentLine | CommentBlock => c == '/'
    case Unknown => IsUnknown(c)
    case Eof => false
  }

  lemma FitBegins(s: string, kind: Kind, p: nat, q: nat)
    requires Fits(s, kind, p, q)
    ensures if kind.Eof? then p == |s| else p < q && Begins(kind, s[p])
  {
    if kind.FloatLit? {
      var n: nat :| n <= q && DecAt(s, p, n) && (ExpAt(s, n, q) || FractionAt(s, n, q));
      assert In(s[p], Digit);
    } else if kind.IntDec? {
      assert In(s[p], Digit);
    }
  }

  lemma RunEndsOnce(s: string, k: Class, i: nat, q: nat, r: nat)
    requires Run(s, k, i, q) && Stop(s, k, q) && Run(s, k, i, r) && Stop(s, k, r)
    ensures q == r
  {
  }

  lemma {:induction false} QuoteEndsOnce(s: string, i: nat, q: nat, r: nat)
    requires QuotedTo(s, i, q) && QuotedTo(s, i, r)
    ensures q == r
    decreases |s| - i
  {
    if s[i] == '"' {
    } else if s[i] == '\\' {
      QuoteEndsOnce(s, i + 2, q, r);
    } else {
      QuoteEndsOnce(s, i + 1, q, r);
    }
  }

  lemma ExpEndsOnce(s: string, i: nat, q: nat, r: nat)
    requires ExpAt(s, i, q) && ExpAt(s, i, r) && Stop(s, Digit, q) && Stop(s, Digit, r)
    ensures q == r
  {
    var from := if IsDigit(s[i + 1]) then i + 1 else i + 2;
    assert In(s[i + 1], Digit) <==> IsDigit(s[i + 1]);
    RunFrom(s, i + 1, q);
    RunFrom(s, i + 1, r);
    RunEndsOnce(s, Digit, from, q, r);
  }

  lemma RunFrom(s: string, i: nat, q: nat)
    requires i < q <= |s| && (Run(s, Digit, i, q) || (i + 1 < q && !IsDigit(s[i]) && Run(s, Digit, i + 1, q)))
    ensures Run(s, Digit, if IsDigit(s[i]) then i else i + 1, q)
  {
    if Run(s, Digit, i, q) { assert In(s[i], Digit); }
  }

  // Digits and an exponent, when one follows, with nothing left of either.
  predicate AllDigitsExp(s: string, i: nat, r: nat) {
    exists m: nat :: m <= r && Run(s, Digit, i, m) && Stop(s, Digit, m) && ExpOrEnd(s, m, r)
  }

  predicate ExpOrEnd(s: string, m: nat, r: nat) {
    if m < |s| && IsExp(s[m]) then ExpAt(s, m, r) && Stop(s, Digit, r) else m == r
  }

  // All that can be read as the rest of a float after its whole part.
  predicate AllTail(s: string, n: nat, r: nat) {
    && n + 1 < r <= |s|
    && ((ExpAt(s, n, r) && Stop(s, Digit, r)) ||
        (s[n] == '.' && ExpAt(s, n + 1, r) && Stop(s, Digit, r)) ||
        (s[n] == '.' && AfterPoint(s[n + 1]) && AllDigitsExp(s, n + 2, r)))
  }

  // The rest of a float that ends at `q`.
  predicate TailAt(s: string, n: nat, q: nat) {
    (ExpAt(s, n, q) || FractionAt(s, n, q)) && Stop(s, IdContinue, q)
  }

  lemma TailIsAll(s: string, n: nat, q: nat)
    requires TailAt(s, n, q)
    ensures AllTail(s, n, q)
  {
    if !ExpAt(s, n, q) && !ExpAt(s, n + 1, q) { DigitsExpIsAll(s, n + 2, q); }
  }

  lemma DigitsExpIsAll(s: string, i: nat, q: nat)
    requires DigitsExpAt(s, i, q) && Stop(s, IdContinue, q)
    ensures AllDigitsExp(s, i, q)
  {
    if Run(s, Digit, i, q) {
      assert ExpOrEnd(s, q, q);
    } else {
      var m: nat :| m <= q && Run(s, Digit, i, m) && ExpAt(s, m, q);
      assert ExpOrEnd(s, m, q);
    }
  }

  lemma AllIsTail(s: string, n: nat, r: nat)
    requires AllTail(s, n, r)
    ensures ExpAt(s, n, r) || FractionAt(s, n, r)
  {
    if !ExpAt(s, n, r) && !ExpAt(s, n + 1, r) {
      var m: nat :| m <= r && Run(s, Digit, n + 2, m) && Stop(s, Digit, m) && ExpOrEnd(s, m, r);
      assert DigitsExpAt(s, n + 2, r);
    }
  }

  lemma AllTailEndsOnce(s: string, n: nat, q: nat, r: nat)
    requires AllTail(s, n, q) && AllTail(s, n, r)
    ensures q == r
  {
    if ExpAt(s, n, q) {
      ExpEndsOnce(s, n, q, r);
    } else if ExpAt(s, n + 1, q) {
      ExpEndsOnce(s, n + 1, q, r);
    } else {
      var k: nat :| k <= q && Run(s, Digit, n + 2, k) && Stop(s, Digit, k) && ExpOrEnd(s, k, q);
      var m: nat :| m <= r && Run(s, Digit, n + 2, m) && Stop(s, Digit, m) && ExpOrEnd(s, m, r);
      RunEndsOnce(s, Digit, n + 2, k, m);
      if k < |s| && IsExp(s[k]) { ExpEndsOnce(s, k, q, r); }
    }
  }

  // Where the whole part of a float ends.
  lemma WholeEnd(s: string, p: nat, q: nat) returns (n: nat)
    requires FloatAt(s, p, q) && Stop(s, IdContinue, q)
    ensures n <= q && DecAt(s, p, n) && Stop(s, Digit, n) && TailAt(s, n, q)
  {
    n :| n <= q && DecAt(s, p, n) && (ExpAt(s, n, q) || FractionAt(s, n, q));
  }

  lemma FloatEndsOnce(s: string, p: nat, q: nat, r: nat)
    requires FloatAt(s, p, q) && FloatAt(s, p, r) && Stop(s, IdContinue, q) && Stop(s, IdContinue, r)
    ensures q == r
  {
    var m := WholeEnd(s, p, q);
    var n := WholeEnd(s, p, r);
    RunEndsOnce(s, Digit, p, m, n);
    TailIsAll(s, m, q);
    TailIsAll(s, m, r);
    AllTailEndsOnce(s, m, q, r);
  }

  predicate IsNumber(kind: Kind) {
    kind.IntBin? || kind.IntDec? || kind.IntHex? || kind.IntOct? || kind.FloatLit?
  }

  // The kind a number has shows in what follows its digits.
  predicate NumberKind(s: string, kind: Kind, p: nat, n: nat) {
    match kind
    case IntBin => PrefixEnds(s, Bin, p, n)
    case IntHex => PrefixEnds(s, Hex, p, n)
    case IntOct => PrefixEnds(s, Oct, p, n)
    case FloatLit => n < |s| && (IsExp(s[n]) || (s[n] == '.' && n + 1 < |s| && s[n + 1] != '.'))
    case _ => IntEnds(s, n)
  }

  predicate PrefixEnds(s: string, k: Class, p: nat, n: nat) {
    n == p + 1 && n < |s| && s[p] == '0' && IsPrefix(s[n], k)
  }

  lemma NumberShows(s: string, kind: Kind, p: nat, q: nat) returns (n: nat)
    requires Fits(s, kind, p, q) && IsNumber(kind)
    ensures Run(s, Digit, p, n) && Stop(s, Digit, n) && NumberKind(s, kind, p, n)
    ensures kind.IntDec? ==> q == n && DecAt(s, p, n)
    ensures kind.FloatLit? ==> DecAt(s, p, n) && TailAt(s, n, q)
  {
    if kind.FloatLit? {
      n := WholeEnd(s, p, q);
    } else if kind.IntDec? {
      n := q;
    } else {
      n := p + 1;
    }
  }

  lemma NumberShowsAt(s: string, kind: Kind, p: nat, q: nat, n: nat)
    requires Fits(s, kind, p, q) && p < n && Run(s, Digit, p, n) && Stop(s, Digit, n)
    ensures IsNumber(kind) && NumberKind(s, kind, p, n)
    ensures kind.IntDec? ==> q == n
    ensures kind.IntDec? || kind.FloatLit? ==> s[p] == '0' ==> n == p + 1
    ensures kind.FloatLit? ==> TailAt(s, n, q)
  {
    assert In(s[p], Digit);
    FitBegins(s, kind, p, q);
    var m := NumberShows(s, kind, p, q);
    RunEndsOnce(s, Digit, p, m, n);
  }

  lemma OneNumber(s: string, p: nat, k: Kind, q: nat, l: Kind, r: nat)
    requires Fits(s, k, p, q) && Fits(s, l, p, r) && IsNumber(k) && IsNumber(l)
    ensures k == l && q == r
  {
    var m := NumberShows(s, k, p, q);
    var n := NumberShows(s, l, p, r);
    RunEndsOnce(s, Digit, p, m, n);
    assert k == l;
    if k.FloatLit? {
      FloatEndsOnce(s, p, q, r);
    } else if k.IntDec? {
      RunEndsOnce(s, Digit, p, q, r);
    } else if k.IntBin? {
      RunEndsOnce(s, Bin, p + 2, q, r);
    } else if k.IntHex? {
      RunEndsOnce(s, Hex, p + 2, q, r);
    } else {
      RunEndsOnce(s, Oct, p + 2, q, r);
    }
  }

  // At most one token stands at a place where no gap goes on.
  lemma OneTokenPerPlace(s: string, p: nat, k: Kind, q: nat, l: Kind, r: nat)
    requires Fits(s, k, p, q) && Fits(s, l, p, r) && (IsComment(k) || IsComment(l) || GapEnds(s, p))
    requires IsComment(k) <==> IsComment(l)
    ensures k == l && q == r
  {
    FitBegins(s, k, p, q);
    FitBegins(s, l, p, r);
    if k.Eof? {
    } else if IsComment(k) {
      CommentEndsOnce(s, p, q, r);
    } else if IsNumber(k) {
      OneNumber(s, p, k, q, l, r);
    } else if k.StrLit? {
      QuoteEndsOnce(s, p + 1, q, r);
    } else if k.Kw? || k.Ident? {
      RunEndsOnce(s, IdContinue, p, q, r);
    }
  }

  // ----- One tiling of a text -----

  lemma {:induction false} OneTiling(s: string, keep: bool, a: seq<Token>, b: seq<Token>, p: nat)
    requires Tiles(s, keep, a, p) && Tiles(s, keep, b, p)
    ensures a == b
    decreases |a|
  {
    var t, u := a[0], b[0];
    TileHalts(s, keep, a, p);
    TileHalts(s, keep, b, p);
    GapHaltsOnce(s, keep, p, t.start.pos, u.start.pos);
    TilesAgree(s, t, u);
    if !t.kind.Eof? { OneTiling(s, keep, a[1..], b[1..], t.end.pos); }
    assert a == [t] + a[1..] && b == [u] + b[1..];
  }

  lemma TilesAgree(s: string, t: Token, u: Token)
    requires TokenOf(s, t) && TokenOf(s, u) && t.start.pos == u.start.pos
    requires IsComment(t.kind) || GapEnds(s, t.start.pos)
    requires IsComment(u.kind) || GapEnds(s, t.start.pos)
    ensures t == u
  {
    OneTokenPerPlace(s, t.start.pos, t.kind, t.end.pos, u.kind, u.end.pos);
  }

  lemma BrokenHasNoTiling(s: string, keep: bool, toks: seq<Token>, p: nat)
    requires Broken(s, keep, p)
    ensures !Tiles(s, keep, toks, p)
  {
    if Tiles(s, keep, toks, p) {
      var i: nat :| Gap(s, keep, p, i) && (Unclosed(s, i) || (GapEnds(s, i) && NoToken(s, i)));
      if Unclosed(s, i) { UnclosedHalts(s, keep, i); } else { GapEndHalts(s, keep, i); }
      TileHalts(s, keep, toks, p);
      GapHaltsOnce(s, keep, p, i, toks[0].start.pos);
      assert Fits(s, toks[0].kind, i, toks[0].end.pos);
      assert IsComment(toks[0].kind) ==> CommentAt(s, i, toks[0].end.pos);
    }
  }

  // A tiling of the text goes through the tokens found so far.
  ghost predicate Begun(s: string, keep: bool, p: nat, toks: seq<Token>, q: nat) {
    forall b: seq<Token> :: Tiles(s, keep, b, p) <==> Continues(s, keep, toks, q, b)
  }

  ghost predicate Continues(s: string, keep: bool, toks: seq<Token>, q: nat, b: seq<Token>) {
    |toks| <= |b| && b[..|toks|] == toks && Tiles(s, keep, b[|toks|..], q)
  }

  // `t` is the token after the gap at `p`.
  ghost predicate Leads(s: string, keep: bool, p: nat, t: Token) {
    TokenOf(s, t) && Gap(s, keep, p, t.start.pos) && if IsComment(t.kind) then keep else GapEnds(s, t.start.pos)
  }

  lemma BegunAtFirst(s: string, keep: bool, p: nat)
    ensures Begun(s, keep, p, [], p)
  {
    forall b: seq<Token> ensures Tiles(s, keep, b, p) <==> Continues(s, keep, [], p, b) {
      assert b[0..] == b;
    }
  }

  lemma LeadingTokenIsFirst(s: string, keep: bool, p: nat, t: Token, b: seq<Token>)
    requires Leads(s, keep, p, t) && Tiles(s, keep, b, p)
    ensures b[0] == t
  {
    TileHalts(s, keep, b, p);
    if !IsComment(t.kind) { GapEndHalts(s, keep, t.start.pos); }
    GapHaltsOnce(s, keep, p, t.start.pos, b[0].start.pos);
    TilesAgree(s, t, b[0]);
  }

  lemma BegunGoesOn(s: string, keep: bool, p: nat, toks: seq<Token>, q: nat, t: Token)
    requires Begun(s, keep, p, toks, q) && Leads(s, keep, q, t) && !t.kind.Eof?
    ensures Begun(s, keep, p, toks + [t], t.end.pos)
  {
    forall b: seq<Token> ensures Tiles(s, keep, b, p) <==> Continues(s, keep, toks + [t], t.end.pos, b) {
      ContinuesBehind(s, keep, toks, q, t, b);
    }
  }

  lemma ContinuesBehind(s: string, keep: bool, toks: seq<Token>, q: nat, t: Token, b: seq<Token>)
    requires Leads(s, keep, q, t) && !t.kind.Eof?
    ensures Continues(s, keep, toks, q, b) <==> Continues(s, keep, toks + [t], t.end.pos, b)
  {
    if Continues(s, keep, toks, q, b) {
      LeadingTokenIsFirst(s, keep, q, t, b[|toks|..]);
      ShiftCut(toks, t, b);
    }
    if Continues(s, keep, toks + [t], t.end.pos, b) {
      ShiftCut(toks, t, b);
      TilesBehind(s, keep, q, t, b[|toks|..]);
    }
  }

  lemma TilesBehind(s: string, keep: bool, p: nat, t: Token, b: seq<Token>)
    requires Leads(s, keep, p, t) && !t.kind.Eof? && b != [] && b[0] == t && Tiles(s, keep, b[1..], t.end.pos)
    ensures Tiles(s, keep, b, p)
  {
  }

  lemma ShiftCut(toks: seq<Token>, t: Token, b: seq<Token>)
    requires |toks| < |b| && b[|toks|] == t
    ensures b[|toks|..][1..] == b[|toks + [t]|..] && b[|toks|..][0] == t
    ensures b[..|toks|] == toks <==> b[..|toks + [t]|] == toks + [t]
  {
    assert b[..|toks| + 1] == b[..|toks|] + [t];
    assert (toks + [t])[..|toks|] == toks;
  }

  lemma BegunEnds(s: string, keep: bool, p: nat, toks: seq<Token>, q: nat, t: Token)
    requires Begun(s, keep, p, toks, q) && Leads(s, keep, q, t) && t.kind.Eof?
    ensures Tiles(s, keep, toks + [t], p)
  {
    var b := toks + [t];
    assert b[|toks|..] == [t] && b[..|toks|] == toks;
    assert Tiles(s, keep, [t], q);
    assert Continues(s, keep, toks, q, b);
  }

  lemma BegunBreaks(s: string, keep: bool, p: nat, toks: seq<Token>, q: nat)
    requires Begun(s, keep, p, toks, q) && Broken(s, keep, q)
    ensures forall b: seq<Token> :: !Tiles(s, keep, b, p)
  {
    forall b: seq<Token> ensures !Tiles(s, keep, b, p) {
      if Continues(s, keep, toks, q, b) { BrokenHasNoTiling(s, keep, b[|toks|..], q); }
    }
  }

  // ----- Losing nothing -----

  // The text put together again from the tokens and what lies between them.
  function Rebuilt(s: string, toks: seq<Token>, p: nat): string
    decreases |toks|
  {
    if toks == [] then ""
    else
      var t := toks[0];
      (if p <= t.start.pos <= |s| then s[p..t.start.pos] else "") + t.val + Rebuilt(s, toks[1..], t.end.pos)
  }

  lemma {:induction false} TilesRebuild(s: string, keep: bool, toks: seq<Token>, p: nat)
    requires Tiles(s, keep, toks, p)
    ensures p <= |s| && Rebuilt(s, toks, p) == s[p..]
    decreases |toks|
  {
    var t := toks[0];
    if t.kind.Eof? {
      EofRebuilds(s, toks, p);
    } else {
      TilesRebuild(s, keep, toks[1..], t.end.pos);
      Cut(s, p, t.start.pos, t.end.pos);
    }
  }

  lemma EofRebuilds(s: string, toks: seq<Token>, p: nat)
    requires |toks| == 1 && p <= |s| && toks[0].val == "" && toks[0].start.pos == |s|
    ensures Rebuilt(s, toks, p) == s[p..]
  {
    assert Rebuilt(s, toks[1..], toks[0].end.pos) == "";
    assert s[p..|s|] == s[p..];
  }

  lemma Cut(s: string, p: nat, a: nat, b: nat)
    requires p <= a <= b <= |s|
    ensures s[p..] == s[p..a] + s[a..b] + s[b..]
  {
  }

  // Behind a number and its point, a character that is neither a digit nor an
  // exponent is taken into the float, if and only if it cannot be in a name and
  // is no second point.
  lemma PointTakesNext(s: string, n: nat)
    requires n + 1 < |s| && s[n] == '.' && !IsDigit(s[n + 1]) && !IsExp(s[n + 1])
    ensures (exists q: nat :: FractionAt(s, n, q)) <==> !IsIdContinue(s[n + 1]) && s[n + 1] != '.'
    ensures forall q: nat :: FractionAt(s, n, q) ==> n + 2 <= q
  {
    if AfterPoint(s[n + 1]) {
      assert Run(s, Digit, n + 2, n + 2) && DigitsExpAt(s, n + 2, n + 2);
      assert FractionAt(s, n, n + 2);
    }
  }

  // With such a character, the token goes on to the end of the digits behind
  // it, and of their exponent.
  lemma FloatWithAnyCharacter(s: string, p: nat, n: nat, m: nat, q: nat)
    requires DecAt(s, p, n) && n + 1 < |s| && s[n] == '.' && !IsDigit(s[n + 1]) && !IsExp(s[n + 1])
    requires Run(s, Digit, n + 2, m) && Stop(s, Digit, m)
    ensures Fits(s, FloatLit, p, q) <==>
            !IsIdContinue(s[n + 1]) && s[n + 1] != '.' && Stop(s, IdContinue, q) && ExpOrEnd(s, m, q)
  {
    if Fits(s, FloatLit, p, q) { FloatGoesOn(s, p, n, m, q); }
    if AfterPoint(s[n + 1]) && Stop(s, IdContinue, q) && ExpOrEnd(s, m, q) { FloatStops(s, p, n, m, q); }
  }

  lemma FloatGoesOn(s: string, p: nat, n: nat, m: nat, q: nat)
    requires DecAt(s, p, n) && n + 1 < |s| && s[n] == '.' && !IsDigit(s[n + 1]) && !IsExp(s[n + 1])
    requires Run(s, Digit, n + 2, m) && Stop(s, Digit, m) && Fits(s, FloatLit, p, q)
    ensures AfterPoint(s[n + 1]) && ExpOrEnd(s, m, q)
  {
    var k := WholeEnd(s, p, q);
    RunEndsOnce(s, Digit, p, k, n);
    TailIsAll(s, n, q);
    var j: nat :| j <= q && Run(s, Digit, n + 2, j) && Stop(s, Digit, j) && ExpOrEnd(s, j, q);
    RunEndsOnce(s, Digit, n + 2, j, m);
  }

  lemma FloatStops(s: string, p: nat, n: nat, m: nat, q: nat)
    requires DecAt(s, p, n) && n + 1 < |s| && s[n] == '.' && AfterPoint(s[n + 1])
    requires Run(s, Digit, n + 2, m) && Stop(s, Digit, m) && Stop(s, IdContinue, q) && ExpOrEnd(s, m, q)
    ensures Fits(s, FloatLit, p, q)
  {
    assert m <= q && AllDigitsExp(s, n + 2, q);
    assert AllTail(s, n, q);
    AllIsTail(s, n, q);
    assert FloatAt(s, p, q);
  }
}
