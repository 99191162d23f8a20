/** Source positions and tokens: what may stand as a token at a place of a text,
    what may lie between two tokens, and how both tile the text. */
module LexerSpec {
  import opened Prelude

  datatype Loc = Loc(pos: nat, line: nat, col: nat)

  // The true line and column of a position.
  function LocAt(s: string, p: nat): (l: Loc)
    requires p <= |s|
    ensures l.pos == p
  {
    if p == 0 then Loc(0, 1, 0)
    else
      var l := LocAt(s, p - 1);
      if s[p - 1] == '\n' then Loc(p, l.line + 1, 0) else Loc(p, l.line, l.col + 1)
  }

  // That is one line more than there are line ends in front of it, and the
  // distance to the last one or to the start.
  lemma {:induction false} LocIsTrue(s: string, p: nat, l: Loc)
    requires p <= |s|
    ensures l == LocAt(s, p) <==>
      && l.pos == p
      && l.line == 1 + multiset(s[..p])['\n']
      && l.col <= p
      && (l.col < p ==> s[p - l.col - 1] == '\n')
      && forall i :: p - l.col <= i < p ==> s[i] != '\n'
  {
    LocCounts(s, p);
    var t := LocAt(s, p);
    if l.col < t.col && l.col < p { assert s[p - l.col - 1] != '\n'; }
  }

  lemma {:induction false} LocCounts(s: string, p: nat)
    requires p <= |s|
    ensures
      var l := LocAt(s, p);
      && l.line == 1 + multiset(s[..p])['\n']
      && l.col <= p
      && (l.col < p ==> s[p - l.col - 1] == '\n')
      && forall i :: p - l.col <= i < p ==> s[i] != '\n'
  {
    if p > 0 {
      LocCounts(s, p - 1);
      assert s[..p] == s[..p - 1] + [s[p - 1]];
    }
  }

  // Operators and keywords go with the text that is theirs.
  datatype Kind =
    | Op(lexeme: string)
    | Kw(word: string)
    | Ident
    | IntBin | IntDec | IntHex | IntOct | FloatLit | StrLit | CharLit
    | CommentLine | CommentBlock
    | Unknown
    | Eof

  datatype Token = Token(kind: Kind, val: string, start: Loc, end: Loc)

  datatype Err =
    | E0001 | E0002 | E0003 | E0004 | E0005 | E0006 | E0007 | E0008 | E0009 | E0010 | E0011 | E0012 | E0013
    | E0014 | E0015 | E0016 | E0017

  datatype Outcome<+T> = Good(value: T) | Bad(err: Err)

  // ----- Characters -----

  datatype Class = Space | Digit | Bin | Oct | Hex | IdContinue

  predicate In(c: char, k: Class) {
    match k
    case Space => IsWhitespace(c)
    case Digit => IsDigit(c)
    case Bin => c == '0' || c == '1'
    case Oct => '0' <= c <= '7'
    case Hex => IsDigit(c) || 'a' <= c <= 'f' || 'A' <= c <= 'F'
    case IdContinue => IsIdContinue(c)
  }

  predicate IsDigit(c: char) { '0' <= c <= '9' }

  predicate IsAlpha(c: char) { 'a' <= c <= 'z' || 'A' <= c <= 'Z' }

  predicate IsIdStart(c: char) { IsAlpha(c) || c == '_' }

  predicate IsIdContinue(c: char) { IsAlpha(c) || IsDigit(c) || c == '_' }

  predicate IsEscape(c: char) {
    c == '0' || c == 'f' || c == 'n' || c == 'r' || c == 't' || c == 'v' || c == '"' || c == '\'' || c == '\\'
  }

  predicate IsWhitespace(c: char) { c == ' ' || 9 <= c as int <= 13 }

  predicate IsExp(c: char) { c == 'E' || c == 'e' }

  // All characters from `i` to `j` are of a class.
  predicate Run(s: string, k: Class, i: nat, j: nat) {
    i <= j <= |s| && forall m :: i <= m < j ==> In(s[m], k)
  }

  // No character of the class stands at `q`.
  predicate Stop(s: string, k: Class, q: nat) { q < |s| ==> !In(s[q], k) }

  // ----- Operators and keywords -----

  // Operators that `=` may follow.
  predicate TakesEq(c: char) {
    c == '^' || c == ':' || c == '=' || c == '!' || c == '%' || c == '/' || c == '*'
  }

  // Operators that may also be doubled.
  predicate Doubles(c: char) { c == '&' || c == '>' || c == '<' || c == '|' || c == '+' }

  // Operators that stand for themselves only.
  predicate Single(c: char) {
    || c == '@' || c == '`' || c == '\\' || c == ',' || c == '$' || c == '#' || c == '{' || c == '[' || c == '('
    || c == '?' || c == '}' || c == ']' || c == ')' || c == ';' || c == '~'
  }

  predicate IsOp1(c: char) { TakesEq(c) || Doubles(c) || Single(c) || c == '-' || c == '.' }

  predicate IsOp2(c: char, d: char) {
    || (d == '=' && (TakesEq(c) || Doubles(c) || c == '-'))
    || (d == c && (Doubles(c) || c == '-'))
    || (c == '-' && d == '>')
  }

  predicate IsOp3(c: char, d: char, e: char) {
    c == d && ((e == '=' && Doubles(c) && c != '+') || (e == '.' && c == '.'))
  }

  // The longest operator at `p` ends at `q`.
  predicate OpAt(s: string, p: nat, q: nat) {
    && p < q <= |s|
    && ((q == p + 1 && IsOp1(s[p])) || (q == p + 2 && IsOp2(s[p], s[p + 1])) ||
        (q == p + 3 && IsOp3(s[p], s[p + 1], s[p + 2])))
    && (q < p + 2 <= |s| ==> !IsOp2(s[p], s[p + 1]))
    && (q < p + 3 <= |s| ==> !IsOp3(s[p], s[p + 1], s[p + 2]))
  }

  // All operators.
  predicate IsOperator(w: string) {
    || (|w| == 1 && w[0] in {
          '&', '@', '\\', '`', '^', ':', ',', '$', '.', '=', '!', '>', '#', '{', '[', '(', '<', '-', '%', '|', '+',
          '?', '}', ']', ')', ';', '/', '*', '~'})
    || (|w| == 2 && w in {
          "&=", "&&", "->", "^=", ":=", "==", "!=", ">=", ">>", "<=", "<<", "-=", "--", "%=", "|=", "||", "+=", "++",
          "/=", "*="})
    || (|w| == 3 && w in {"&&=", "...", "<<=", ">>=", "||="})
  }

  lemma OneChar(w: string)
    requires |w| == 1
    ensures IsOperator(w) <==> IsOp1(w[0])
  {
  }

  lemma TwoChars(w: string)
    requires |w| == 2
    ensures IsOperator(w) <==> IsOp2(w[0], w[1])
  {
    assert w == [w[0], w[1]];
  }

  lemma ThreeChars(w: string)
    requires |w| == 3
    ensures IsOperator(w) <==> IsOp3(w[0], w[1], w[2])
  {
    assert w == [w[0], w[1], w[2]];
  }

  // An operator token is the longest operator that stands at its place.
  lemma LongestOperator(s: string, p: nat, q: nat)
    requires p < q <= |s|
    ensures OpAt(s, p, q) <==> IsOperator(s[p..q]) && forall r :: q < r <= |s| ==> !IsOperator(s[p..r])
  {
    forall r | p < r <= |s|
      ensures IsOperator(s[p..r]) <==>
        || (r == p + 1 && IsOp1(s[p]))
        || (r == p + 2 && IsOp2(s[p], s[p + 1]))
        || (r == p + 3 && IsOp3(s[p], s[p + 1], s[p + 2]))
    {
      if r == p + 1 { OneChar(s[p..r]); }
      if r == p + 2 { TwoChars(s[p..r]); }
      if r == p + 3 { ThreeChars(s[p..r]); }
    }
    if q < p + 2 <= |s| { assert IsOp2(s[p], s[p + 1]) <==> IsOperator(s[p..p + 2]); }
    if q < p + 3 <= |s| { assert IsOp3(s[p], s[p + 1], s[p + 2]) <==> IsOperator(s[p..p + 3]); }
  }

  predicate IsKeyword(w: string) {
    w in {
      "as", "async", "await", "break", "catch", "const", "continue", "elif", "else", "enum", "export", "false",
      "finally", "fn", "from", "if", "import", "is", "loop", "main", "mut", "nil", "obj", "ref", "return", "throw",
      "true", "try", "type"}
  }

  predicate WordAt(s: string, p: nat, q: nat) {
    p < q <= |s| && IsIdStart(s[p]) && Run(s, IdContinue, p, q) && Stop(s, IdContinue, q)
  }

  // ----- Numbers -----

  predicate DecAt(s: string, p: nat, q: nat) {
    p < q && Run(s, Digit, p, q) && (s[p] == '0' ==> q == p + 1)
  }

  predicate IsPrefix(c: char, k: Class) {
    (k.Bin? && (c == 'B' || c == 'b')) || (k.Hex? && (c == 'X' || c == 'x')) || (k.Oct? && (c == 'O' || c == 'o'))
  }

  predicate RadixAt(s: string, k: Class, p: nat, q: nat) {
    p + 2 < q && Run(s, k, p + 2, q) && s[p] == '0' && IsPrefix(s[p + 1], k)
  }

  // After a whole number: no name, and no `.` unless it is doubled.
  predicate IntEnds(s: string, q: nat) {
    Stop(s, IdContinue, q) && (q < |s| && s[q] == '.' ==> q + 1 < |s| && s[q + 1] == '.')
  }

  predicate ExpAt(s: string, i: nat, q: nat) {
    && i + 1 < q <= |s| && IsExp(s[i])
    && (Run(s, Digit, i + 1, q) || (i + 2 < q && (s[i + 1] == '+' || s[i + 1] == '-') && Run(s, Digit, i + 2, q)))
  }

  // What may follow the point of a fraction, which is more than a digit: any
  // character that cannot be in a name, but for a second point.
  predicate AfterPoint(c: char) { c != '.' && (IsDigit(c) || !IsIdContinue(c)) }

  predicate DigitsExpAt(s: string, i: nat, q: nat) {
    Run(s, Digit, i, q) || exists m: nat :: m <= q && Run(s, Digit, i, m) && ExpAt(s, m, q)
  }

  // A fraction from its point on.
  predicate FractionAt(s: string, i: nat, q: nat) {
    && i + 1 < q <= |s| && s[i] == '.'
    && (ExpAt(s, i + 1, q) || (AfterPoint(s[i + 1]) && DigitsExpAt(s, i + 2, q)))
  }

  predicate FloatAt(s: string, p: nat, q: nat) {
    exists n: nat :: n <= q && DecAt(s, p, n) && (ExpAt(s, n, q) || FractionAt(s, n, q))
  }

  // ----- Quoted literals -----

  // From within a string: its first quote that is not escaped ends at `q`.
  predicate QuotedTo(s: string, i: nat, q: nat)
    decreases |s| - i
  {
    i < q <= |s| &&
    if s[i] == '"' then q == i + 1
    else if s[i] == '\\' then i + 1 < |s| && IsEscape(s[i + 1]) && QuotedTo(s, i + 2, q)
    else QuotedTo(s, i + 1, q)
  }

  predicate CharAt(s: string, p: nat, q: nat) {
    && p + 3 <= q <= |s| && s[p] == '\'' && s[q - 1] == '\''
    && if s[p + 1] == '\\' then q == p + 4 && IsEscape(s[p + 2])
       else q == p + 3 && s[p + 1] != '\n' && s[p + 1] != '\''
  }

  // ----- Comments -----

  // Up to the end of the line.
  predicate LineComment(s: string, i: nat, e: nat) {
    && i + 2 <= e <= |s| && s[i] == '/' && s[i + 1] == '/'
    && (forall k :: i + 2 <= k < e ==> s[k] != '\n') && (e < |s| ==> s[e] == '\n')
  }

  // A block opens at `i`, and up to `e` nothing has closed it.
  predicate OpenBlock(s: string, i: nat, e: nat) {
    && i + 2 <= e <= |s| && s[i] == '/' && s[i + 1] == '*'
    && forall k :: i + 2 <= k && k + 1 < e ==> !(s[k] == '*' && s[k + 1] == '/')
  }

  // Up to the first `*/`.
  predicate BlockComment(s: string, i: nat, e: nat) {
    i + 4 <= e && OpenBlock(s, i, e - 1) && e <= |s| && s[e - 2] == '*' && s[e - 1] == '/'
  }

  // ----- Tokens -----

  // A token of the kind stands from `p` to `q`.
  predicate Fits(s: string, kind: Kind, p: nat, q: nat) {
    p <= q <= |s| &&
    match kind
    case Op(x) => OpAt(s, p, q) && x == s[p..q]
    case Kw(w) => WordAt(s, p, q) && IsKeyword(w) && w == s[p..q]
    case Ident => WordAt(s, p, q) && !IsKeyword(s[p..q])
    case IntDec => DecAt(s, p, q) && IntEnds(s, q)
    case IntBin => RadixAt(s, Bin, p, q) && IntEnds(s, q)
    case IntHex => RadixAt(s, Hex, p, q) && IntEnds(s, q)
    case IntOct => RadixAt(s, Oct, p, q) && IntEnds(s, q)
    case FloatLit => FloatAt(s, p, q) && Stop(s, IdContinue, q)
    case StrLit => p < |s| && s[p] == '"' && QuotedTo(s, p + 1, q)
    case CharLit => CharAt(s, p, q)
    case CommentLine => LineComment(s, p, q)
    case CommentBlock => BlockComment(s, p, q)
    case Unknown => q == p + 1 && IsUnknown(s[p])
    case Eof => p == q == |s|
  }

  predicate IsUnknown(c: char) { !IsOp1(c) && !IsIdStart(c) && !IsDigit(c) && c != '"' && c != '\'' }

  predicate IsComment(kind: Kind) { kind.CommentLine? || kind.CommentBlock? }

  // No kind of token stands at `p`.
  ghost predicate NoToken(s: string, p: nat) {
    forall kind, q: nat :: !Fits(s, kind, p, q)
  }

  // A token of `s` with its true text and true locations.
  predicate TokenOf(s: string, t: Token) {
    && t.start.pos <= t.end.pos && Fits(s, t.kind, t.start.pos, t.end.pos)
    && t.val == s[t.start.pos..t.end.pos]
    && t.start == LocAt(s, t.start.pos) && t.end == LocAt(s, t.end.pos)
  }

  // ----- Gaps -----

  // Whitespace from `i` to `j`, and comments too when these are not kept.
  ghost predicate Gap(s: string, keep: bool, i: nat, j: nat)
    decreases j - i
  {
    i == j <= |s| ||
    (i < j <= |s| &&
     ((IsWhitespace(s[i]) && Gap(s, keep, i + 1, j)) ||
      (!keep && exists e: nat :: CommentAt(s, i, e) && i < e <= j && Gap(s, keep, e, j))))
  }

  predicate CommentAt(s: string, i: nat, e: nat) { LineComment(s, i, e) || BlockComment(s, i, e) }

  // Neither whitespace nor a comment begins at `p`.
  predicate GapEnds(s: string, p: nat) {
    p < |s| ==>
      !IsWhitespace(s[p]) && !(s[p] == '/' && p + 1 < |s| && (s[p + 1] == '/' || s[p + 1] == '*'))
  }

  // A block comment opens at `i` and nothing closes it.
  predicate Unclosed(s: string, i: nat) { OpenBlock(s, i, |s|) }

  // ----- Tilings -----

  // Tokens and gaps alternate from `p` to the end of the text.
  ghost predicate Tiles(s: string, keep: bool, toks: seq<Token>, p: nat)
    decreases |toks|
  {
    toks != [] &&
    var t := toks[0];
    && TokenOf(s, t) && Gap(s, keep, p, t.start.pos)
    && (if IsComment(t.kind) then keep else GapEnds(s, t.start.pos))
    && (if t.kind.Eof? then |toks| == 1 else Tiles(s, keep, toks[1..], t.end.pos))
  }

  // After the gap at `p` comes a block comment without an end, or something
  // that is no token.
  ghost predicate Broken(s: string, keep: bool, p: nat) {
    exists i: nat :: Gap(s, keep, p, i) && (Unclosed(s, i) || (GapEnds(s, i) && NoToken(s, i)))
  }
}
