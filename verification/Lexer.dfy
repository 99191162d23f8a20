/** The reader and the lexer as they run, with their seeks back.  `Reader.Next`
    must not be called at the end of the text; that it never is shows in every
    method here being verified. */
module LexerMethods {
  import opened Prelude
  import opened LexerFailures
  import opened LexerSpec
  import opened LexerTiling

  class Reader {
    const content: string
    var loc: Loc

    constructor (content: string)
      ensures this.content == content && Valid() && loc.pos == 0
    {
      this.content := content;
      loc := Loc(0, 1, 0);
    }

    ghost predicate Valid()
      reads this
    {
      loc.pos <= |content| && loc == LocAt(content, loc.pos)
    }

    predicate AtEnd()
      reads this
    {
      loc.pos >= |content|
    }

    method Next() returns (l: Loc, ch: char)
      requires Valid() && !AtEnd()
      modifies this
      ensures Valid() && l == old(loc) && ch == content[l.pos] && loc.pos == l.pos + 1
    {
      l, ch := loc, content[loc.pos];
      loc := if ch == '\n' then Loc(loc.pos + 1, loc.line + 1, 0) else Loc(loc.pos + 1, loc.line, loc.col + 1);
    }

    method Seek(l: Loc)
      requires l.pos <= |content| && l == LocAt(content, l.pos)
      modifies this
      ensures Valid() && loc == l
    {
      loc := l;
    }
  }

  lemma Grow(s: string, a: nat, b: nat)
    requires a <= b < |s|
    ensures s[a..b + 1] == s[a..b] + [s[b]]
  {
  }

  lemma ExpStarts(s: string, i: nat, q: nat)
    requires ExpAt(s, i, q)
    ensures IsDigit(s[i + 1]) || (i + 2 < |s| && (s[i + 1] == '+' || s[i + 1] == '-') && IsDigit(s[i + 2]))
  {
    assert Run(s, Digit, i + 1, q) ==> In(s[i + 1], Digit);
    assert i + 2 < q && Run(s, Digit, i + 2, q) ==> In(s[i + 2], Digit);
  }

  lemma ExpCannotStart(s: string, i: nat)
    requires i + 1 < |s| ==> !IsDigit(s[i + 1])
    requires i + 2 < |s| && (s[i + 1] == '+' || s[i + 1] == '-') ==> !IsDigit(s[i + 2])
    ensures NoExp(s, i)
  {
    forall q: nat ensures !ExpAt(s, i, q) {
      if ExpAt(s, i, q) { ExpStarts(s, i, q); }
    }
  }

  lemma RunJoins(s: string, k: Class, i: nat, j: nat)
    requires i < |s| && In(s[i], k) && Run(s, k, i + 1, j)
    ensures Run(s, k, i, j)
  {
  }

  lemma Joined(s: string, a: nat, b: nat, c: nat)
    requires a <= b <= c <= |s|
    ensures s[a..c] == s[a..b] + s[b..c]
  {
  }

  // After the gap at `p` something is no token, for the reason `err` gives.
  ghost predicate Misread(s: string, keep: bool, p: nat, err: Err, q: nat) {
    exists i: nat :: MisreadAt(s, keep, p, i, err, q)
  }

  ghost predicate MisreadAt(s: string, keep: bool, p: nat, i: nat, err: Err, q: nat) {
    Gap(s, keep, p, i) && GapEnds(s, i) && Fails(s, i, err, q)
  }

  lemma FirstOf(s: string, p: nat)
    requires p < |s|
    ensures s[p..p + 1] == [s[p]]
  {
  }

  lemma PlainFits(s: string, p: nat)
    requires p < |s| && TakesEq(s[p]) && (p + 1 < |s| ==> s[p + 1] != '=')
    ensures Fits(s, Op([s[p]]), p, p + 1)
  {
  }

  lemma MinusFits(s: string, p: nat)
    requires p < |s| && s[p] == '-'
    ensures
      if p + 1 < |s| && (s[p + 1] == '>' || s[p + 1] == '=' || s[p + 1] == '-')
      then Fits(s, Op(['-', s[p + 1]]), p, p + 2)
      else Fits(s, Op(['-']), p, p + 1)
  {
  }

  lemma OneFits(s: string, p: nat)
    requires p < |s| && Doubles(s[p]) && (p + 1 < |s| ==> s[p + 1] != '=' && s[p + 1] != s[p])
    ensures Fits(s, Op([s[p]]), p, p + 1)
  {
  }

  lemma EqFits(s: string, p: nat)
    requires p + 1 < |s| && (Doubles(s[p]) || TakesEq(s[p])) && s[p + 1] == '='
    ensures Fits(s, Op([s[p], '=']), p, p + 2)
  {
  }

  lemma TwoFits(s: string, p: nat)
    requires p + 1 < |s| && Doubles(s[p]) && s[p + 1] == s[p] && (p + 2 < |s| && s[p + 2] == '=' ==> s[p] == '+')
    ensures Fits(s, Op([s[p], s[p]]), p, p + 2)
  {
  }

  lemma ThreeFits(s: string, p: nat)
    requires p + 2 < |s| && Doubles(s[p]) && s[p] != '+' && s[p + 1] == s[p] && s[p + 2] == '='
    ensures Fits(s, Op([s[p], s[p], '=']), p, p + 3)
  {
  }

  lemma DotsFit(s: string, p: nat)
    requires p + 2 < |s| && s[p] == s[p + 1] == s[p + 2] == '.'
    ensures Fits(s, Op("..."), p, p + 3) && s[p..p + 3] == [s[p]] + [s[p + 1]] + [s[p + 2]]
  {
  }

  lemma DotFits(s: string, p: nat)
    requires p < |s| && s[p] == '.' && (p + 2 < |s| && s[p + 1] == '.' ==> s[p + 2] != '.')
    ensures Fits(s, Op("."), p, p + 1)
  {
  }

  class Lexer {
    const reader: Reader
    var loc: Loc
    var val: string

    constructor (reader: Reader)
      requires reader.Valid()
      ensures this.reader == reader
    {
      this.reader := reader;
      loc := reader.loc;
      val := "";
    }

    // The token being read starts at `loc`, and `val` is what has been read.
    ghost predicate Scanned()
      reads this, reader
    {
      && reader.Valid() && loc.pos <= reader.loc.pos && loc == LocAt(reader.content, loc.pos)
      && val == reader.content[loc.pos..reader.loc.pos]
    }

    ghost predicate Emitted(t: Token, start: Loc)
      reads this, reader
    {
      reader.Valid() && TokenOf(reader.content, t) && t.start == start && t.end == reader.loc == loc
    }

    // A token from `start` on, or an error where no token stands.
    ghost predicate Decided(o: Outcome<Token>, start: Loc)
      reads this, reader
    {
      reader.Valid() &&
      match o
      case Good(t) => Emitted(t, start)
      case Bad(e) => Fails(reader.content, start.pos, e, reader.loc.pos)
    }

    // `_tok`.
    method Tok(kind: Kind) returns (t: Token)
      requires Scanned() && Fits(reader.content, kind, loc.pos, reader.loc.pos)
      modifies this`loc
      ensures Emitted(t, old(loc)) && t.kind == kind
    {
      t := Token(kind, val, loc, reader.loc);
      loc := reader.loc;
    }

    // One more character of the token.
    method Append(ch: char)
      requires reader.Valid() && loc.pos < reader.loc.pos && loc == LocAt(reader.content, loc.pos)
      requires val == reader.content[loc.pos..reader.loc.pos - 1] && ch == reader.content[reader.loc.pos - 1]
      modifies this`val
      ensures Scanned()
    {
      val := val + [ch];
      Grow(reader.content, loc.pos, reader.loc.pos - 1);
    }

    // `_walk`.
    method Walk(k: Class)
      requires reader.Valid()
      modifies this`val, reader
      ensures reader.Valid() && Run(reader.content, k, old(reader.loc.pos), reader.loc.pos)
      ensures Stop(reader.content, k, reader.loc.pos)
      ensures val == old(val) + reader.content[old(reader.loc.pos)..reader.loc.pos]
    {
      ghost var p := reader.loc.pos;
      while !reader.AtEnd()
        invariant reader.Valid() && Run(reader.content, k, p, reader.loc.pos)
        invariant val == old(val) + reader.content[p..reader.loc.pos]
        decreases |reader.content| - reader.loc.pos
      {
        var loc1, ch1 := reader.Next();
        if !In(ch1, k) {
          reader.Seek(loc1);
          break;
        }
        val := val + [ch1];
        Grow(reader.content, p, loc1.pos);
      }
    }

    // `_opEq`: an operator that `=` may follow.
    method OpEq(c: char) returns (t: Token)
      requires Scanned() && val == [c] && TakesEq(c)
      modifies this`loc, this`val, reader
      ensures Emitted(t, old(loc))
    {
      ghost var s, p := reader.content, loc.pos;
      assert s[p] == val[0];
      if reader.AtEnd() {
        PlainFits(s, p);
        t := Tok(Op([c]));
        return;
      }
      var loc1, ch1 := reader.Next();
      if ch1 == '=' {
        Append(ch1);
        EqFits(s, p);
        t := Tok(Op([c, '=']));
        return;
      }
      reader.Seek(loc1);
      PlainFits(s, p);
      t := Tok(Op([c]));
    }

    // `_opEq2`: one that may also be doubled, and the double followed by `=`
    // unless it is `++`.
    method OpEq2(c: char) returns (t: Token)
      requires Scanned() && val == [c] && Doubles(c)
      modifies this`loc, this`val, reader
      ensures Emitted(t, old(loc))
    {
      ghost var s, p := reader.content, loc.pos;
      assert s[p] == val[0];
      if reader.AtEnd() {
        OneFits(s, p);
        t := Tok(Op([c]));
        return;
      }
      var loc1, ch1 := reader.Next();
      if ch1 != '=' && ch1 != c {
        reader.Seek(loc1);
        OneFits(s, p);
        t := Tok(Op([c]));
        return;
      } else if ch1 == '=' {
        Append(ch1);
        EqFits(s, p);
        t := Tok(Op([c, '=']));
        return;
      } else if reader.AtEnd() || c == '+' {
        Append(ch1);
        TwoFits(s, p);
        t := Tok(Op([c, c]));
        return;
      }
      var loc2, ch2 := reader.Next();
      Grow(s, p, p + 1);
      if ch2 == '=' {
        val := val + [ch1];
        val := val + [ch2];
        Grow(s, p, p + 2);
        ThreeFits(s, p);
        t := Tok(Op([c, c, '=']));
      } else {
        val := val + [ch1];
        reader.Seek(loc2);
        TwoFits(s, p);
        t := Tok(Op([c, c]));
      }
    }

    // The loop that ends `_walkLitFloatExp`.
    method ExpDigits(ghost from: nat)
      requires Scanned() && from < reader.loc.pos && Run(reader.content, Digit, from, reader.loc.pos)
      modifies this`val, reader
      ensures Scanned() && from < reader.loc.pos && Run(reader.content, Digit, from, reader.loc.pos)
      ensures Stop(reader.content, Digit, reader.loc.pos)
    {
      while !reader.AtEnd()
        invariant Scanned() && from < reader.loc.pos && Run(reader.content, Digit, from, reader.loc.pos)
        decreases |reader.content| - reader.loc.pos
      {
        var loc3, ch3 := reader.Next();
        if !IsDigit(ch3) {
          reader.Seek(loc3);
          break;
        }
        Append(ch3);
      }
    }

    // `_walkLitFloatExp`, behind the `e`.
    method WalkLitFloatExp() returns (err: Option<Err>)
      requires Scanned() && reader.loc.pos > 0 && IsExp(reader.content[reader.loc.pos - 1])
      modifies this`val, reader
      ensures reader.Valid()
      ensures err.None? ==>
        && Scanned() && ExpAt(reader.content, old(reader.loc.pos) - 1, reader.loc.pos)
        && Stop(reader.content, Digit, reader.loc.pos)
      ensures old(reader.loc.pos) <= reader.loc.pos
      ensures err.Some? ==> err.value.E0013? && NoExp(reader.content, old(reader.loc.pos) - 1)
    {
      ghost var s, i := reader.content, reader.loc.pos - 1;
      if reader.AtEnd() {
        ExpCannotStart(s, i);
        return Some(E0013);
      }
      var loc1, ch1 := reader.Next();
      if !IsDigit(ch1) && ch1 != '+' && ch1 != '-' {
        ExpCannotStart(s, i);
        if IsIdContinue(ch1) { Walk(IdContinue); } else { reader.Seek(loc1); }
        return Some(E0013);
      }
      Append(ch1);
      if ch1 == '+' || ch1 == '-' {
        err := SignedExp();
        return;
      }
      ExpDigits(loc1.pos);
      return None;
    }

    // The same behind a sign.
    method SignedExp() returns (err: Option<Err>)
      requires Scanned() && loc.pos < reader.loc.pos && reader.loc.pos > 1 && IsExp(reader.content[reader.loc.pos - 2])
      requires reader.content[reader.loc.pos - 1] == '+' || reader.content[reader.loc.pos - 1] == '-'
      modifies this`val, reader
      ensures reader.Valid()
      ensures err.None? ==>
        && Scanned() && ExpAt(reader.content, old(reader.loc.pos) - 2, reader.loc.pos)
        && Stop(reader.content, Digit, reader.loc.pos)
      ensures old(reader.loc.pos) <= reader.loc.pos
      ensures err.Some? ==> err.value.E0013? && NoExp(reader.content, old(reader.loc.pos) - 2)
    {
      ghost var s, i := reader.content, reader.loc.pos - 2;
      if reader.AtEnd() {
        ExpCannotStart(s, i);
        return Some(E0013);
      }
      var loc2, ch2 := reader.Next();
      if !IsDigit(ch2) {
        ExpCannotStart(s, i);
        if IsIdContinue(ch2) { Walk(IdContinue); } else { reader.Seek(loc2); }
        return Some(E0013);
      }
      Append(ch2);
      ExpDigits(loc2.pos);
      return None;
    }

    // `_litFloat`.
    method LitFloat(kind: Kind, ghost n: nat) returns (o: Outcome<Token>)
      requires Scanned() && loc.pos < reader.loc.pos
      requires if kind.IntDec? then
                 && NumBody(reader.content, IntDec, loc.pos, n) && !IntEnds(reader.content, n)
                 && AllTail(reader.content, n, reader.loc.pos)
               else
                 && (kind.IntBin? || kind.IntHex? || kind.IntOct?) && NoToken(reader.content, loc.pos)
                 && PrefixEnds(reader.content, ClassOf(kind), loc.pos, loc.pos + 1)
      modifies this`loc, this`val, reader
      ensures Decided(o, old(loc))
    {
      ghost var s, p, r := reader.content, loc.pos, reader.loc.pos;
      if kind.IntDec? { BodyBegins(s, kind, p, n); }
      if !reader.AtEnd() {
        var loc1, ch1 := reader.Next();
        if IsIdContinue(ch1) {
          if kind.IntDec? {
            TailGoesOn(s, n, r);
            NoDecimal(s, p, n);
          }
          Walk(IdContinue);
          NumberBlamed(s, kind, p, reader.loc.pos);
          return Bad(E0012);
        }
        reader.Seek(loc1);
      }
      if kind.IntBin? {
        return Bad(E0014);
      } else if kind.IntHex? {
        return Bad(E0015);
      } else if kind.IntOct? {
        return Bad(E0016);
      }
      FloatFits(s, p, n, r);
      var t := Tok(FloatLit);
      o := Good(t);
    }

    // The digits of a fraction and its exponent.
    method FractionDigits(ghost n: nat) returns (err: Option<Err>)
      requires Scanned() && reader.loc.pos == n + 2 && reader.content[n] == '.' && AfterPoint(reader.content[n + 1])
      modifies this`val, reader
      ensures reader.Valid()
      ensures old(reader.loc.pos) <= reader.loc.pos
      ensures if err.None? then Scanned() && AllTail(reader.content, n, reader.loc.pos)
              else err.value.E0013? && NoTail(reader.content, n)
    {
      ghost var s, m := reader.content, reader.loc.pos;
      while !reader.AtEnd()
        invariant Scanned() && m == reader.loc.pos && Run(s, Digit, n + 2, m)
        decreases |s| - reader.loc.pos
      {
        var loc4, ch4 := reader.Next();
        if !IsDigit(ch4) && !IsExp(ch4) {
          reader.Seek(loc4);
          break;
        }
        Append(ch4);
        if IsExp(ch4) {
          err := WalkLitFloatExp();
          if err.Some? {
            NoExpAfterDigits(s, n, m);
            return;
          }
          break;
        }
        m := reader.loc.pos;
      }
      assert ExpOrEnd(s, m, reader.loc.pos);
      return None;
    }

    // A whole number, read to its end.
    method Whole(kind: Kind) returns (o: Outcome<Token>)
      requires Scanned() && NumBody(reader.content, kind, loc.pos, reader.loc.pos)
      requires IntEnds(reader.content, reader.loc.pos)
      modifies this`loc
      ensures Decided(o, old(loc))
    {
      BodyFits(reader.content, kind, loc.pos, reader.loc.pos);
      var t := Tok(kind);
      return Good(t);
    }

    // An error in the rest of a float, or the float.
    method FloatOrError(kind: Kind, err: Option<Err>, ghost n: nat) returns (o: Outcome<Token>)
      requires reader.Valid() && loc.pos < reader.loc.pos
      requires NumBody(reader.content, kind, loc.pos, n) && !IntEnds(reader.content, n)
      requires if err.None? then Scanned() && AllTail(reader.content, n, reader.loc.pos)
               else err.value.E0013? && NoTail(reader.content, n)
      modifies this`loc, this`val, reader
      ensures Decided(o, old(loc))
    {
      BodyBegins(reader.content, kind, loc.pos, n);
      if err.Some? {
        IntegerFails(reader.content, kind, loc.pos, n, E0013, reader.loc.pos);
        return Bad(err.value);
      }
      if !kind.IntDec? { NoInteger(reader.content, kind, loc.pos, n); }
      o := LitFloat(kind, n);
    }

    // `_litNum` behind the `.` that `loc2` is at.
    method LitFraction(kind: Kind, loc2: Loc) returns (o: Outcome<Token>)
      requires reader.Valid() && loc.pos <= loc2.pos && loc2.pos + 1 == reader.loc.pos
      requires loc == LocAt(reader.content, loc.pos) && loc2 == LocAt(reader.content, loc2.pos)
      requires reader.content[loc2.pos] == '.' && val == reader.content[loc.pos..loc2.pos]
      requires NumBody(reader.content, kind, loc.pos, loc2.pos)
      modifies this`loc, this`val, reader
      ensures Decided(o, old(loc))
    {
      ghost var s, p, n := reader.content, loc.pos, loc2.pos;
      if reader.AtEnd() {
        NoFraction(s, n);
        IntegerFails(s, kind, p, n, E0012, reader.loc.pos);
        return Bad(E0012);
      }
      var loc3, ch3 := reader.Next();
      if IsIdContinue(ch3) && !IsDigit(ch3) && !IsExp(ch3) {
        NoFraction(s, n);
        Walk(IdContinue);
        IntegerFails(s, kind, p, n, E0012, reader.loc.pos);
        return Bad(E0012);
      }
      if ch3 == '.' {
        reader.Seek(loc2);
        o := Whole(kind);
        return;
      }
      val := val + ['.'];
      val := val + [ch3];
      Grow(s, p, n);
      Grow(s, p, n + 1);
      o := FractionTail(kind, ch3, n);
    }

    // Behind `.` and one more character of a fraction.
    method FractionTail(kind: Kind, ch3: char, ghost n: nat) returns (o: Outcome<Token>)
      requires Scanned() && reader.loc.pos == n + 2 && NumBody(reader.content, kind, loc.pos, n)
      requires reader.content[n] == '.' && reader.content[n + 1] == ch3 && (IsExp(ch3) || AfterPoint(ch3))
      modifies this`loc, this`val, reader
      ensures Decided(o, old(loc))
    {
      BodyBegins(reader.content, kind, loc.pos, n);
      var err;
      if IsExp(ch3) {
        err := WalkLitFloatExp();
        if err.Some? { NoFraction(reader.content, n); }
      } else {
        err := FractionDigits(n);
      }
      o := FloatOrError(kind, err, n);
    }

    // How `_litNum` begins behind a prefix: one digit at least.
    method RadixDigits(kind: Kind) returns (ok: bool)
      requires Scanned() && (kind.IntBin? || kind.IntHex? || kind.IntOct?) && reader.loc.pos == loc.pos + 2
      requires reader.content[loc.pos] == '0' && IsPrefix(reader.content[loc.pos + 1], ClassOf(kind))
      modifies this`val, reader
      ensures reader.Valid() && loc.pos < reader.loc.pos
      ensures if ok then Scanned() && NumBody(reader.content, kind, loc.pos, reader.loc.pos)
              else Fails(reader.content, loc.pos, ErrCode(kind), reader.loc.pos)
    {
      ghost var s, p := reader.content, loc.pos;
      if reader.AtEnd() {
        RadixFails(s, kind, p, reader.loc.pos);
        return false;
      }
      var loc1, ch1 := reader.Next();
      Append(ch1);
      if !In(ch1, ClassOf(kind)) {
        Walk(IdContinue);
        RadixFails(s, kind, p, reader.loc.pos);
        return false;
      }
      Walk(ClassOf(kind));
      RunJoins(s, ClassOf(kind), p + 2, reader.loc.pos);
      Joined(s, p, p + 3, reader.loc.pos);
      return true;
    }

    // `_litNum` behind the `e` at `n`.
    method LitExponent(kind: Kind, ghost n: nat) returns (o: Outcome<Token>)
      requires Scanned() && reader.loc.pos == n + 1 && NumBody(reader.content, kind, loc.pos, n)
      requires IsExp(reader.content[n])
      modifies this`loc, this`val, reader
      ensures Decided(o, old(loc))
    {
      var err := WalkLitFloatExp();
      if err.Some? { NoExpNoTail(reader.content, n); }
      o := FloatOrError(kind, err, n);
    }

    // `_litNum`: behind the first digits of a decimal number or the prefix of another.
    method LitNum(kind: Kind) returns (o: Outcome<Token>)
      requires Scanned()
      requires if kind.IntDec? then NumBody(reader.content, kind, loc.pos, reader.loc.pos)
               else
                 && (kind.IntBin? || kind.IntHex? || kind.IntOct?) && reader.loc.pos == loc.pos + 2
                 && reader.content[loc.pos] == '0' && IsPrefix(reader.content[loc.pos + 1], ClassOf(kind))
      modifies this`loc, this`val, reader
      ensures Decided(o, old(loc))
    {
      ghost var s, p := reader.content, loc.pos;
      var errCode := ErrCode(kind);
      if !kind.IntDec? {
        var ok := RadixDigits(kind);
        if !ok { return Bad(errCode); }
      }
      ghost var r := reader.loc.pos;
      if reader.AtEnd() {
        o := Whole(kind);
        return;
      }
      var loc2, ch2 := reader.Next();
      if IsIdContinue(ch2) && !IsExp(ch2) {
        Walk(IdContinue);
        IntegerFails(s, kind, p, r, errCode, reader.loc.pos);
        return Bad(errCode);
      }
      if IsExp(ch2) {
        Append(ch2);
        o := LitExponent(kind, r);
        return;
      } else if ch2 == '.' {
        o := LitFraction(kind, loc2);
        return;
      }
      reader.Seek(loc2);
      o := Whole(kind);
      return;
    }

    // ----- `_whitespace` -----

    ghost predicate Spaced(o: Outcome<Option<Token>>, keep: bool, p: nat)
      reads this, reader
    {
      reader.Valid() &&
      match o
      case Good(None) => Gap(reader.content, keep, p, reader.loc.pos) && GapEnds(reader.content, reader.loc.pos)
      case Good(Some(t)) => IsComment(t.kind) && Leads(reader.content, keep, p, t) && t.end == reader.loc == loc
      case Bad(e) => e.E0001? && Stalled(reader.content, keep, p)
    }

    method SkipLine(ghost i: nat)
      requires reader.Valid() && reader.loc.pos == i + 2 && reader.content[i] == reader.content[i + 1] == '/'
      modifies reader
      ensures reader.Valid() && LineComment(reader.content, i, reader.loc.pos)
    {
      while !reader.AtEnd()
        invariant reader.Valid() && i + 2 <= reader.loc.pos
        invariant forall k :: i + 2 <= k < reader.loc.pos ==> reader.content[k] != '\n'
        decreases |reader.content| - reader.loc.pos
      {
        var loc3, ch3 := reader.Next();
        if ch3 == '\n' {
          reader.Seek(loc3);
          break;
        }
      }
    }

    method SkipBlock(ghost i: nat) returns (ok: bool)
      requires reader.Valid() && reader.loc.pos == i + 2 && reader.content[i] == '/' && reader.content[i + 1] == '*'
      modifies reader
      ensures reader.Valid()
      ensures if ok then BlockComment(reader.content, i, reader.loc.pos) else Unclosed(reader.content, i)
    {
      if reader.AtEnd() { return false; }
      while true
        invariant reader.Valid() && !reader.AtEnd() && OpenBlock(reader.content, i, reader.loc.pos + 1)
        decreases |reader.content| - reader.loc.pos
      {
        var _, ch3 := reader.Next();
        if reader.AtEnd() { return false; }
        if ch3 == '*' {
          var loc4, ch4 := reader.Next();
          if ch4 == '/' { break; }
          reader.Seek(loc4);
        }
      }
      return true;
    }

    method Whitespace(keep: bool) returns (o: Outcome<Option<Token>>)
      requires reader.Valid()
      modifies this`loc, this`val, reader
      ensures Spaced(o, keep, old(reader.loc.pos))
      decreases |reader.content| - reader.loc.pos, 0
    {
      ghost var s, p := reader.content, reader.loc.pos;
      if reader.AtEnd() { return Good(None); }
      var loc1, ch1 := reader.Next();
      if IsWhitespace(ch1) {
        Walk(Space);
        RunJoins(s, Space, p, reader.loc.pos);
        ghost var k := reader.loc.pos;
        o := Whitespace(keep);
        AfterSpace(o, keep, p, k);
        return;
      } else if ch1 == '/' && !reader.AtEnd() {
        var _, ch2 := reader.Next();
        if ch2 == '/' {
          SkipLine(p);
          o := Commented(CommentLine, keep, loc1);
          return;
        } else if ch2 == '*' {
          var ok := SkipBlock(p);
          if !ok {
            StallsAtOnce(s, keep, p);
            return Bad(E0001);
          }
          o := Commented(CommentBlock, keep, loc1);
          return;
        }
      }
      reader.Seek(loc1);
      return Good(None);
    }

    // Behind a comment: a token when comments are kept, more of the gap when not.
    method Commented(kind: Kind, keep: bool, loc1: Loc) returns (o: Outcome<Option<Token>>)
      requires reader.Valid() && loc1.pos < reader.loc.pos && loc1 == LocAt(reader.content, loc1.pos)
      requires IsComment(kind) && Fits(reader.content, kind, loc1.pos, reader.loc.pos)
      modifies this`loc, this`val, reader
      ensures Spaced(o, keep, loc1.pos)
      decreases |reader.content| - reader.loc.pos, 1
    {
      if !keep {
        ghost var e := reader.loc.pos;
        o := Whitespace(false);
        AfterComment(o, loc1.pos, e);
        return;
      }
      loc := loc1;
      val := reader.content[loc.pos..reader.loc.pos];
      var t := Tok(kind);
      return Good(Some(t));
    }

    lemma AfterSpace(o: Outcome<Option<Token>>, keep: bool, p: nat, k: nat)
      requires Run(reader.content, Space, p, k) && Spaced(o, keep, k)
      ensures Spaced(o, keep, p)
    {
      match o
      case Good(None) =>
        GapGoesUp(reader.content, keep, k, reader.loc.pos);
        WhitespaceIsGap(reader.content, keep, p, k, reader.loc.pos);
      case Good(Some(t)) =>
        GapGoesUp(reader.content, keep, k, t.start.pos);
        WhitespaceIsGap(reader.content, keep, p, k, t.start.pos);
      case Bad(_) => StallsAfterSpace(reader.content, keep, p, k);
    }

    lemma AfterComment(o: Outcome<Option<Token>>, p: nat, e: nat)
      requires CommentAt(reader.content, p, e) && Spaced(o, false, e)
      ensures Spaced(o, false, p)
    {
      match o
      case Good(None) =>
        GapGoesUp(reader.content, false, e, reader.loc.pos);
        CommentIsGap(reader.content, p, e, reader.loc.pos);
      case Good(Some(t)) =>
      case Bad(_) => StallsAfterComment(reader.content, p, e);
    }

    // ----- `next` -----

    // The first character of a token has been read.
    ghost predicate Started()
      reads this, reader
    {
      Scanned() && reader.loc.pos == loc.pos + 1
    }

    method Minus() returns (t: Token)
      requires Started() && reader.content[loc.pos] == '-'
      modifies this`loc, this`val, reader
      ensures Emitted(t, old(loc))
    {
      MinusFits(reader.content, loc.pos);
      if reader.AtEnd() {
        t := Tok(Op("-"));
        return;
      }
      var loc1, ch1 := reader.Next();
      if ch1 == '>' {
        Append(ch1);
        t := Tok(Op("->"));
      } else if ch1 == '=' {
        Append(ch1);
        t := Tok(Op("-="));
      } else if ch1 == '-' {
        Append(ch1);
        t := Tok(Op("--"));
      } else {
        reader.Seek(loc1);
        t := Tok(Op("-"));
      }
    }

    method Dot() returns (t: Token)
      requires Started() && reader.content[loc.pos] == '.'
      modifies this`loc, this`val, reader
      ensures Emitted(t, old(loc))
    {
      ghost var s, p := reader.content, loc.pos;
      if reader.AtEnd() {
        DotFits(s, p);
        t := Tok(Op("."));
        return;
      }
      var loc1, ch1 := reader.Next();
      if ch1 == '.' && !reader.AtEnd() {
        var _, ch2 := reader.Next();
        if ch2 == '.' {
          val := val + [ch1];
          val := val + [ch2];
          DotsFit(s, p);
          t := Tok(Op("..."));
          return;
        }
      }
      reader.Seek(loc1);
      DotFits(s, p);
      t := Tok(Op("."));
    }

    method Word() returns (t: Token)
      requires Started() && IsIdStart(reader.content[loc.pos])
      modifies this`loc, this`val, reader
      ensures Emitted(t, old(loc))
    {
      ghost var s, p := reader.content, loc.pos;
      Walk(IdContinue);
      RunJoins(s, IdContinue, p, reader.loc.pos);
      Joined(s, p, p + 1, reader.loc.pos);
      if IsKeyword(val) {
        t := Tok(Kw(val));
      } else {
        t := Tok(Ident);
      }
    }

    method Number(ch0: char) returns (o: Outcome<Token>)
      requires Started() && IsDigit(ch0) && ch0 == reader.content[loc.pos]
      modifies this`loc, this`val, reader
      ensures Decided(o, old(loc))
    {
      ghost var s, p := reader.content, loc.pos;
      if ch0 == '0' {
        o := Zero();
        return;
      }
      Walk(Digit);
      RunJoins(s, Digit, p, reader.loc.pos);
      Joined(s, p, p + 1, reader.loc.pos);
      o := LitNum(IntDec);
    }

    // A number that begins with zero.
    method Zero() returns (o: Outcome<Token>)
      requires Started() && reader.content[loc.pos] == '0'
      modifies this`loc, this`val, reader
      ensures Decided(o, old(loc))
    {
      ghost var s, p := reader.content, loc.pos;
      if reader.AtEnd() {
        BodyFits(s, IntDec, p, p + 1);
        var t := Tok(IntDec);
        return Good(t);
      }
      var loc1, ch1 := reader.Next();
      if IsDigit(ch1) {
        ghost var n := DigitsGoOn(s, p, p + 2);
        NoLeadingZero(s, p, n);
        Walk(IdContinue);
        return Bad(E0007);
      }
      if ch1 == 'B' || ch1 == 'b' || ch1 == 'X' || ch1 == 'x' || ch1 == 'O' || ch1 == 'o' {
        Append(ch1);
        o := LitNum(
          if ch1 == 'B' || ch1 == 'b' then IntBin else if ch1 == 'X' || ch1 == 'x' then IntHex else IntOct);
        return;
      }
      reader.Seek(loc1);
      o := LitNum(IntDec);
    }

    method Str() returns (o: Outcome<Token>)
      requires Started() && reader.content[loc.pos] == '"'
      modifies this`loc, this`val, reader
      ensures Decided(o, old(loc))
    {
      ghost var s, p := reader.content, loc.pos;
      while true
        invariant loc == old(loc) && Scanned() && p < reader.loc.pos && SameQuote(s, p + 1, reader.loc.pos)
        decreases |s| - reader.loc.pos
      {
        if reader.AtEnd() {
          QuoteRunsOut(s, p, reader.loc.pos);
          return Bad(E0003);
        }
        var closed := StrChar();
        if closed.Bad? { return Bad(closed.err); }
        if closed.value { break; }
      }
      QuoteEnds(s, p + 1, reader.loc.pos);
      var t := Tok(StrLit);
      return Good(t);
    }

    // One character of a string or one escape; true at the closing quote.
    method StrChar() returns (o: Outcome<bool>)
      requires Scanned() && loc.pos < reader.loc.pos && !reader.AtEnd() && reader.content[loc.pos] == '"'
      requires SameQuote(reader.content, loc.pos + 1, reader.loc.pos)
      modifies this`val, reader
      ensures reader.Valid() && old(reader.loc.pos) < reader.loc.pos
      ensures
        match o
        case Good(true) =>
          && Scanned() && reader.content[reader.loc.pos - 1] == '"'
          && SameQuote(reader.content, loc.pos + 1, reader.loc.pos - 1)
        case Good(false) => Scanned() && SameQuote(reader.content, loc.pos + 1, reader.loc.pos)
        case Bad(err) => Fails(reader.content, loc.pos, err, reader.loc.pos)
    {
      ghost var s, p, i := reader.content, loc.pos, reader.loc.pos;
      var _, ch1 := reader.Next();
      Append(ch1);
      if ch1 == '"' {
        return Good(true);
      } else if ch1 != '\\' {
        QuoteStep(s, p + 1, i, i + 1);
        return Good(false);
      } else if reader.AtEnd() {
        QuoteRunsOut(s, p, i);
        return Bad(E0003);
      }
      var known := Escape();
      if !known {
        BadEscape(s, p, i);
        return Bad(E0005);
      }
      QuoteStep(s, p + 1, i, i + 2);
      return Good(false);
    }

    // Behind a backslash.
    method Escape() returns (known: bool)
      requires Scanned() && loc.pos < reader.loc.pos && !reader.AtEnd()
      modifies this`val, reader
      ensures Scanned() && reader.loc.pos == old(reader.loc.pos) + 1
      ensures known == IsEscape(reader.content[reader.loc.pos - 1])
    {
      var _, ch := reader.Next();
      Append(ch);
      known := IsEscape(ch);
    }

    method Chr() returns (o: Outcome<Token>)
      requires Started() && reader.content[loc.pos] == '\''
      modifies this`loc, this`val, reader
      ensures Decided(o, old(loc))
    {
      ghost var s, p := reader.content, loc.pos;
      if reader.AtEnd() {
        CharacterFails(s, p, E0002, reader.loc.pos);
        return Bad(E0002);
      }
      var _, ch1 := reader.Next();
      Append(ch1);
      if ch1 == '\n' {
        CharacterFails(s, p, E0017, reader.loc.pos);
        return Bad(E0017);
      } else if ch1 == '\'' {
        CharacterFails(s, p, E0004, reader.loc.pos);
        return Bad(E0004);
      } else if reader.AtEnd() {
        CharacterFails(s, p, E0002, reader.loc.pos);
        return Bad(E0002);
      } else if ch1 == '\\' {
        var known := Escape();
        if !known {
          CharacterFails(s, p, E0005, reader.loc.pos);
          return Bad(E0005);
        } else if reader.AtEnd() {
          CharacterFails(s, p, E0002, reader.loc.pos);
          return Bad(E0002);
        }
      }
      o := CloseChr();
    }

    // Behind the character of a literal.
    method CloseChr() returns (o: Outcome<Token>)
      requires Scanned() && !reader.AtEnd() && loc.pos + 1 < reader.loc.pos && reader.content[loc.pos] == '\''
      requires reader.content[loc.pos + 1] != '\'' && reader.content[loc.pos + 1] != '\n'
      requires if reader.content[loc.pos + 1] == '\\' then
                 reader.loc.pos == loc.pos + 3 && IsEscape(reader.content[loc.pos + 2])
               else reader.loc.pos == loc.pos + 2
      modifies this`loc, this`val, reader
      ensures Decided(o, old(loc))
    {
      ghost var s, p := reader.content, loc.pos;
      var _, ch3 := reader.Next();
      Append(ch3);
      if ch3 != '\'' {
        SkipToQuote();
        CharacterFails(s, p, E0006, reader.loc.pos);
        return Bad(E0006);
      }
      var t := Tok(CharLit);
      return Good(t);
    }

    method SkipToQuote()
      requires reader.Valid()
      modifies reader
      ensures reader.Valid() && old(reader.loc.pos) <= reader.loc.pos
    {
      while !reader.AtEnd()
        invariant reader.Valid() && old(reader.loc.pos) <= reader.loc.pos
        decreases |reader.content| - reader.loc.pos
      {
        var _, ch4 := reader.Next();
        if ch4 == '\'' { break; }
      }
    }

    // The token that begins with `ch0`.
    method Scan(ch0: char) returns (o: Outcome<Token>)
      requires Started() && ch0 == reader.content[loc.pos]
      modifies this`loc, this`val, reader
      ensures Decided(o, old(loc))
    {
      var t;
      if Doubles(ch0) {
        t := OpEq2(ch0);
      } else if TakesEq(ch0) {
        t := OpEq(ch0);
      } else if Single(ch0) {
        t := Tok(Op([ch0]));
      } else if ch0 == '-' {
        t := Minus();
      } else if ch0 == '.' {
        t := Dot();
      } else if IsIdStart(ch0) {
        t := Word();
      } else if IsDigit(ch0) {
        o := Number(ch0);
        return;
      } else if ch0 == '"' {
        o := Str();
        return;
      } else if ch0 == '\'' {
        o := Chr();
        return;
      } else {
        t := Tok(Unknown);
      }
      return Good(t);
    }

    // What `next` gives for a reader at `p`.
    ghost predicate Found(o: Outcome<Token>, keep: bool, p: nat)
      reads this, reader
    {
      reader.Valid() &&
      if o.Good? then Leads(reader.content, keep, p, o.value) && o.value.end == reader.loc == loc
      else if o.err.E0001? then Stalled(reader.content, keep, p)
      else Misread(reader.content, keep, p, o.err, reader.loc.pos)
    }

    method Next(keep: bool) returns (start: Loc, o: Outcome<Token>)
      requires reader.Valid()
      modifies this`loc, this`val, reader
      ensures start == old(reader.loc) && Found(o, keep, start.pos)
    {
      start := reader.loc;
      var w := Whitespace(keep);
      if w.Bad? {
        return start, Bad(w.err);
      } else if w.value.Some? {
        return start, Good(w.value.value);
      }
      loc := reader.loc;
      val := "";
      if reader.AtEnd() {
        var t := Tok(Eof);
        return start, Good(t);
      }
      var loc0, ch0 := reader.Next();
      loc := loc0;
      val := [ch0];
      FirstOf(reader.content, loc0.pos);
      o := Scan(ch0);
      if o.Bad? { assert MisreadAt(reader.content, keep, start.pos, loc0.pos, o.err, reader.loc.pos); }
    }

    method Seek(l: Loc)
      requires l.pos <= |reader.content| && l == LocAt(reader.content, l.pos)
      modifies this`loc, reader
      ensures reader.Valid() && reader.loc == loc == l
    {
      loc := l;
      reader.Seek(l);
    }

    lemma FoundNone(o: Outcome<Token>, keep: bool, p: nat)
      requires Found(o, keep, p) && o.Bad?
      ensures Broken(reader.content, keep, p)
    {
      if o.err.E0001? {
        StallIsBroken(reader.content, keep, p);
      } else {
        var i: nat :| MisreadAt(reader.content, keep, p, i, o.err, reader.loc.pos);
        NoTokenIsBroken(reader.content, keep, p, i);
      }
    }

    // What a caller gets that takes tokens up to the end of the text: the one
    // tiling of the text, or an error and then the text has none.
    method All(keep: bool) returns (o: Outcome<seq<Token>>)
      requires reader.Valid()
      modifies this`loc, this`val, reader
      ensures o.Good? ==> Tiles(reader.content, keep, o.value, old(reader.loc.pos))
      ensures o.Bad? ==> forall b: seq<Token> :: !Tiles(reader.content, keep, b, old(reader.loc.pos))
    {
      ghost var s, p := reader.content, reader.loc.pos;
      var toks: seq<Token> := [];
      BegunAtFirst(s, keep, p);
      while true
        invariant reader.Valid() && Begun(s, keep, p, toks, reader.loc.pos)
        decreases |s| - reader.loc.pos
      {
        var start, next := Next(keep);
        if next.Bad? {
          FoundNone(next, keep, start.pos);
          BegunBreaks(s, keep, p, toks, start.pos);
          return Bad(next.err);
        }
        var t := next.value;
        if t.kind.Eof? {
          BegunEnds(s, keep, p, toks, start.pos, t);
          return Good(toks + [t]);
        }
        BegunGoesOn(s, keep, p, toks, start.pos, t);
        FitBegins(s, t.kind, t.start.pos, t.end.pos);
        GapGoesUp(s, keep, start.pos, t.start.pos);
        toks := toks + [t];
      }
    }
  }
}
