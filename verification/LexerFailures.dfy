/** Where the lexer gives up, no token stands. */
module LexerFailures {
  import opened LexerSpec
  import opened LexerTiling

  // What an error says of the token that should have been at `p`; `q` is how
  // far the text has been read.
  predicate Blamed(s: string, p: nat, err: Err, q: nat) {
    && p < q <= |s|
    && match err
       case E0001 => false
       case E0002 => s[p] == '\'' && q == |s|
       case E0003 => s[p] == '"' && q == |s|
       case E0004 => p + 1 < |s| && s[p] == '\'' && s[p + 1] == '\''
       case E0005 => p + 2 < q && (s[p] == '"' || s[p] == '\'') && s[q - 2] == '\\' && !IsEscape(s[q - 1])
       case E0006 => p + 2 < |s| && s[p] == '\'' && s[p + 1] != '\'' && s[p + 1] != '\n'
       case E0007 => p + 1 < |s| && s[p] == '0' && IsDigit(s[p + 1])
       case E0008 | E0014 => PrefixEnds(s, Bin, p, p + 1)
       case E0009 | E0012 | E0013 => IsDigit(s[p])
       case E0010 | E0015 => PrefixEnds(s, Hex, p, p + 1)
       case E0011 | E0016 => PrefixEnds(s, Oct, p, p + 1)
       case E0017 => p + 1 < |s| && s[p] == '\'' && s[p + 1] == '\n'
  }

  // No token stands at `p`, for the reason `err` gives.
  ghost predicate Fails(s: string, p: nat, err: Err, q: nat) { NoToken(s, p) && Blamed(s, p, err, q) }

  // ----- Numbers -----

  function ClassOf(kind: Kind): Class
  {
    match kind
    case IntBin => Bin
    case IntHex => Hex
    case IntOct => Oct
    case _ => Digit
  }

  // All digits of a whole number from `p` to `r`.
  predicate NumBody(s: string, kind: Kind, p: nat, r: nat) {
    && Stop(s, ClassOf(kind), r)
    && if kind.IntDec? then
         && DecAt(s, p, r)
         && !PrefixEnds(s, Bin, p, r) && !PrefixEnds(s, Hex, p, r) && !PrefixEnds(s, Oct, p, r)
       else (kind.IntBin? || kind.IntHex? || kind.IntOct?) && RadixAt(s, ClassOf(kind), p, r)
  }

  function ErrCode(kind: Kind): Err {
    if kind.IntBin? then E0008 else if kind.IntDec? then E0009 else if kind.IntHex? then E0010 else E0011
  }

  lemma NumberBlamed(s: string, kind: Kind, p: nat, q: nat)
    requires p < q <= |s|
    requires if kind.IntDec? then IsDigit(s[p])
             else (kind.IntBin? || kind.IntHex? || kind.IntOct?) && PrefixEnds(s, ClassOf(kind), p, p + 1)
    ensures Blamed(s, p, ErrCode(kind), q) && Blamed(s, p, E0012, q) && Blamed(s, p, E0013, q)
  {
  }

  lemma BodyBegins(s: string, kind: Kind, p: nat, r: nat)
    requires NumBody(s, kind, p, r)
    ensures p < r <= |s|
    ensures if kind.IntDec? then IsDigit(s[p])
            else (kind.IntBin? || kind.IntHex? || kind.IntOct?) && PrefixEnds(s, ClassOf(kind), p, p + 1)
  {
    if kind.IntDec? { assert In(s[p], Digit); }
  }

  lemma BodyFits(s: string, kind: Kind, p: nat, r: nat)
    requires NumBody(s, kind, p, r) && IntEnds(s, r)
    ensures Fits(s, kind, p, r)
  {
  }

  ghost predicate NoTail(s: string, n: nat) { forall q: nat :: !TailAt(s, n, q) }

  ghost predicate NoExp(s: string, i: nat) { forall q: nat :: !ExpAt(s, i, q) }

  lemma NoDecimal(s: string, p: nat, r: nat)
    requires NumBody(s, IntDec, p, r) && !IntEnds(s, r) && NoTail(s, r)
    ensures NoToken(s, p)
  {
    forall kind, q: nat ensures !Fits(s, kind, p, q) {
      if Fits(s, kind, p, q) { NumberShowsAt(s, kind, p, q, r); }
    }
  }

  lemma RadixShows(s: string, kind: Kind, p: nat, r: nat, k: Kind, q: nat)
    requires kind.IntBin? || kind.IntHex? || kind.IntOct?
    requires p + 2 <= r && Run(s, ClassOf(kind), p + 2, r) && Stop(s, ClassOf(kind), r)
    requires s[p] == '0' && IsPrefix(s[p + 1], ClassOf(kind)) && Fits(s, k, p, q)
    ensures k == kind && q == r && p + 2 < q
  {
    NumberShowsAt(s, k, p, q, p + 1);
    RunEndsOnce(s, ClassOf(kind), p + 2, q, r);
  }

  lemma NoRadix(s: string, kind: Kind, p: nat, r: nat)
    requires kind.IntBin? || kind.IntHex? || kind.IntOct?
    requires p + 2 <= r && Run(s, ClassOf(kind), p + 2, r) && Stop(s, ClassOf(kind), r)
    requires s[p] == '0' && IsPrefix(s[p + 1], ClassOf(kind))
    requires r == p + 2 || !IntEnds(s, r)
    ensures NoToken(s, p)
  {
    forall k, q: nat ensures !Fits(s, k, p, q) {
      if Fits(s, k, p, q) { RadixShows(s, kind, p, r, k, q); }
    }
  }

  lemma NoInteger(s: string, kind: Kind, p: nat, r: nat)
    requires NumBody(s, kind, p, r) && !IntEnds(s, r) && (kind.IntDec? ==> NoTail(s, r))
    ensures NoToken(s, p)
  {
    if kind.IntDec? { NoDecimal(s, p, r); } else { NoRadix(s, kind, p, r); }
  }

  lemma IntegerFails(s: string, kind: Kind, p: nat, r: nat, err: Err, q: nat)
    requires NumBody(s, kind, p, r) && !IntEnds(s, r) && (kind.IntDec? ==> NoTail(s, r)) && p < q <= |s|
    requires err == ErrCode(kind) || err.E0012? || err.E0013?
    ensures Fails(s, p, err, q)
  {
    BodyBegins(s, kind, p, r);
    NoInteger(s, kind, p, r);
    NumberBlamed(s, kind, p, q);
  }

  lemma RadixFails(s: string, kind: Kind, p: nat, q: nat)
    requires kind.IntBin? || kind.IntHex? || kind.IntOct?
    requires p + 2 <= q <= |s| && s[p] == '0' && IsPrefix(s[p + 1], ClassOf(kind))
    requires Stop(s, ClassOf(kind), p + 2)
    ensures Fails(s, p, ErrCode(kind), q)
  {
    NoRadix(s, kind, p, p + 2);
    NumberBlamed(s, kind, p, q);
  }

  // A zero with a digit behind it.
  lemma NoLeadingZero(s: string, p: nat, n: nat)
    requires p + 1 < n && s != [] && Run(s, Digit, p, n) && Stop(s, Digit, n) && s[p] == '0'
    ensures NoToken(s, p)
  {
    forall kind, q: nat ensures !Fits(s, kind, p, q) {
      if Fits(s, kind, p, q) { NumberShowsAt(s, kind, p, q, n); }
    }
  }

  // A run of digits has an end.
  lemma {:induction false} DigitsGoOn(s: string, p: nat, i: nat) returns (n: nat)
    requires Run(s, Digit, p, i)
    ensures i <= n && Run(s, Digit, p, n) && Stop(s, Digit, n)
    decreases |s| - i
  {
    if i < |s| && IsDigit(s[i]) {
      n := DigitsGoOn(s, p, i + 1);
    } else {
      n := i;
    }
  }

  // ----- Floats -----

  lemma FloatFits(s: string, p: nat, n: nat, r: nat)
    requires DecAt(s, p, n) && AllTail(s, n, r) && Stop(s, IdContinue, r)
    ensures Fits(s, FloatLit, p, r)
  {
    AllIsTail(s, n, r);
    assert n <= r;
  }

  lemma TailGoesOn(s: string, n: nat, r: nat)
    requires AllTail(s, n, r) && !Stop(s, IdContinue, r)
    ensures NoTail(s, n)
  {
    forall q: nat ensures !TailAt(s, n, q) {
      if TailAt(s, n, q) {
        TailIsAll(s, n, q);
        AllTailEndsOnce(s, n, q, r);
      }
    }
  }

  lemma NoExpNoTail(s: string, n: nat)
    requires n < |s| && IsExp(s[n]) && NoExp(s, n)
    ensures NoTail(s, n)
  {
  }

  // `.` and what follows it cannot begin a fraction.
  lemma NoFraction(s: string, n: nat)
    requires n < |s| && s[n] == '.'
    requires n + 1 < |s| ==> !AfterPoint(s[n + 1]) && NoExp(s, n + 1)
    ensures NoTail(s, n)
  {
  }

  lemma NoExpAfterDigits(s: string, n: nat, m: nat)
    requires n + 1 < |s| && s[n] == '.' && AfterPoint(s[n + 1]) && Run(s, Digit, n + 2, m)
    requires m < |s| && IsExp(s[m]) && NoExp(s, m)
    ensures NoTail(s, n)
  {
    forall q: nat ensures !TailAt(s, n, q) {
      if TailAt(s, n, q) {
        TailIsAll(s, n, q);
        var k: nat :| k <= q && Run(s, Digit, n + 2, k) && Stop(s, Digit, k) && ExpOrEnd(s, k, q);
        RunEndsOnce(s, Digit, n + 2, k, m);
      }
    }
  }

  // ----- Quoted literals -----

  ghost predicate NoQuote(s: string, i: nat) { forall q: nat :: !QuotedTo(s, i, q) }

  lemma NoString(s: string, p: nat)
    requires p < |s| && s[p] == '"' && NoQuote(s, p + 1)
    ensures NoToken(s, p)
  {
    forall kind, q: nat ensures !Fits(s, kind, p, q) {
      if Fits(s, kind, p, q) { FitBegins(s, kind, p, q); }
    }
  }

  // Both positions are in the same string.
  ghost predicate SameQuote(s: string, i: nat, j: nat) {
    forall q: nat :: QuotedTo(s, i, q) <==> QuotedTo(s, j, q)
  }

  lemma QuoteStep(s: string, i: nat, j: nat, k: nat)
    requires SameQuote(s, i, j) && j < k <= |s| && s[j] != '"'
    requires if s[j] == '\\' then k == j + 2 && IsEscape(s[j + 1]) else k == j + 1
    ensures SameQuote(s, i, k)
  {
    forall q: nat ensures QuotedTo(s, j, q) <==> QuotedTo(s, k, q) { }
  }

  // The text ends within the string.
  lemma QuoteRunsOut(s: string, p: nat, j: nat)
    requires p < |s| && s[p] == '"' && SameQuote(s, p + 1, j) && j <= |s|
    requires j < |s| ==> s[j] == '\\' && j + 1 == |s|
    ensures Fails(s, p, E0003, |s|)
  {
    assert forall q: nat :: !QuotedTo(s, j, q);
    NoString(s, p);
  }

  lemma BadEscape(s: string, p: nat, j: nat)
    requires p < j && j + 1 < |s| && s[p] == '"' && SameQuote(s, p + 1, j) && s[j] == '\\' && !IsEscape(s[j + 1])
    ensures Fails(s, p, E0005, j + 2)
  {
    assert forall q: nat :: !QuotedTo(s, j, q);
    NoString(s, p);
  }

  lemma QuoteEnds(s: string, i: nat, q: nat)
    requires 0 < q <= |s| && s[q - 1] == '"' && SameQuote(s, i, q - 1)
    ensures QuotedTo(s, i, q)
  {
    assert QuotedTo(s, q - 1, q);
  }

  lemma NoCharacter(s: string, p: nat)
    requires p < |s| && s[p] == '\''
    requires !CharAt(s, p, p + 3) && !CharAt(s, p, p + 4)
    ensures NoToken(s, p)
  {
    forall kind, q: nat ensures !Fits(s, kind, p, q) {
      if Fits(s, kind, p, q) { FitBegins(s, kind, p, q); }
    }
  }

  lemma CharacterFails(s: string, p: nat, err: Err, q: nat)
    requires p < |s| && s[p] == '\'' && !CharAt(s, p, p + 3) && !CharAt(s, p, p + 4) && Blamed(s, p, err, q)
    ensures Fails(s, p, err, q)
  {
    NoCharacter(s, p);
  }
}
