/** Tokens as the lexer delivers them, and what parsing functions return. */
module Parsing {
  datatype Op =
    | Amp | AmpAmp | Caret | EqEq | ExclEq | Gt | GtEq | LShift | Lt | LtEq | Minus | Percent
    | Pipe | PipePipe | Plus | RShift | Slash | Star
    | AmpEq | AmpAmpEq | CaretEq | Eq | LShiftEq | MinusEq | PercentEq | PipeEq | PipePipeEq
    | PlusEq | RShiftEq | SlashEq | StarEq
    | Dot | LBrack | RBrack | LPar | RPar | Comma | Colon | Qn
    | Excl | Tilde | MinusMinus | PlusPlus | Await
    | Arrow | Ellipsis | Mut | Async | Ref
    | ColonEq | LBrace | As | Is
    | Other // any token that neither starts nor continues an expression or a type

  datatype Token = Id(name: string) | Lit(text: string) | Str(text: string) | Sym(op: Op)

  // What the lexer has still to deliver.
  datatype Tokens = Eof | Next(tok: Token, rest: Tokens)

  function Len(ts: Tokens): nat {
    match ts
    case Eof => 0
    case Next(_, rest) => 1 + Len(rest)
  }

  predicate Starts(ts: Tokens, op: Op) { ts.Next? && ts.tok == Sym(op) }

  // The parser's error codes; `Beyond` is where it goes on to something that is
  // not part of this model: a closure, a map or object literal, `ref`, `as`, `is`.
  datatype Err =
    | E0109 | E0110 | E0111 | E0118 | E0120 | E0127 | E0132 | E0133 | E0135 | E0136 | E0137 | E0138 | E0139
    | E0140 | E0142 | E0145 | E0146 | E0149 | E0150 | E0151 | E0152 | E0153 | E0159 | E0163 | E0171 | E0172
    | E0180 | E0181 | E0191 | E0192 | Beyond

  // A value and what the lexer delivers next; `Null` is `std::nullopt`, after
  // which the lexer is back where it was.
  datatype Result<+T> = Ok(value: T, rest: Tokens) | Null | Fail(err: Err)

  datatype Outcome<+T> = Good(value: T) | Bad(err: Err)

  function SkipComma(ts: Tokens): (r: Tokens)
    ensures Len(r) <= Len(ts)
  {
    if Starts(ts, Comma) then ts.rest else ts
  }

  // Lists as they may have been written: `commas` says behind which elements a
  // comma stands.
  function WithComma(commas: seq<bool>, k: Tokens): Tokens {
    if commas != [] && commas[0] then Next(Sym(Comma), k) else k
  }

  function Others(commas: seq<bool>): seq<bool> { if commas == [] then [] else commas[1..] }
}
