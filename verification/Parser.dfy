/** The operator-precedence parser for expressions, and what it accepts. */
module Parser {
  import opened Basics

  datatype BinOp = Add | Sub | Mul | Mod | Pow | Div | IDiv | BAnd | BOr | BXor | Shl | Shr | Concat
    | Eq | Lt | Le | Ne | Gt | Ge | And | Or

  datatype UnOp = Minus | BNot | Not | Len

  /** `Name` stands for every simple expression that is neither an operator nor parenthesized. */
  datatype Token = Name(id: nat) | LParen | RParen | Plus | Dash | Star | Percent | Caret | Slash | DoubleSlash
    | Ampersand | Bar | Tilde | ShiftLeft | ShiftRight | Dots | EqEq | Less | LessEq | TildeEq | Greater
    | GreaterEq | AndWord | OrWord | NotWord | Hash | Other

  datatype Expr = Var(id: nat) | Unary(uop: UnOp, arg: Expr) | Binary(op: BinOp, lhs: Expr, rhs: Expr)

  datatype Error = NestedTooDeep | UnexpectedSymbol | MissingParen

  function GetUnOp(t: Token): Option<UnOp> {
    match t
    case NotWord => Some(Not)
    case Dash => Some(Minus)
    case Tilde => Some(BNot)
    case Hash => Some(Len)
    case _ => None
  }

  function GetBinOp(t: Token): Option<BinOp> {
    match t
    case Plus => Some(Add)
    case Dash => Some(Sub)
    case Star => Some(Mul)
    case Percent => Some(Mod)
    case Caret => Some(Pow)
    case Slash => Some(Div)
    case DoubleSlash => Some(IDiv)
    case Ampersand => Some(BAnd)
    case Bar => Some(BOr)
    case Tilde => Some(BXor)
    case ShiftLeft => Some(Shl)
    case ShiftRight => Some(Shr)
    case Dots => Some(Concat)
    case TildeEq => Some(Ne)
    case EqEq => Some(Eq)
    case Less => Some(Lt)
    case LessEq => Some(Le)
    case Greater => Some(Gt)
    case GreaterEq => Some(Ge)
    case AndWord => Some(And)
    case OrWord => Some(Or)
    case _ => None
  }

  const UNARY_PRIORITY := 12
  const MAX_LEVEL := 200

  function Left(op: BinOp): nat {
    match op
    case Add | Sub => 10
    case Mul | Mod | Div | IDiv => 11
    case Pow => 14
    case BAnd => 6
    case BOr => 4
    case BXor => 5
    case Shl | Shr => 7
    case Concat => 9
    case Eq | Lt | Le | Ne | Gt | Ge => 3
    case And => 2
    case Or => 1
  }

  /** Lower than the left priority for the two operators that associate to the right. */
  function Right(op: BinOp): nat {
    if op == Pow then 13 else if op == Concat then 8 else Left(op)
  }

  // ---------------------------------------------------------------------- what may be written

  /** An expression as written: with its parentheses. */
  datatype Syntax = SName(id: nat) | SParen(inner: Syntax) | SUnary(uop: UnOp, arg: Syntax)
    | SBinary(op: BinOp, lhs: Syntax, rhs: Syntax)

  function Tree(s: Syntax): Expr {
    match s
    case SName(id) => Var(id)
    case SParen(t) => Tree(t)
    case SUnary(u, t) => Unary(u, Tree(t))
    case SBinary(op, a, b) => Binary(op, Tree(a), Tree(b))
  }

  function UnToken(u: UnOp): Token {
    match u
    case Not => NotWord
    case Minus => Dash
    case BNot => Tilde
    case Len => Hash
  }

  function BinToken(op: BinOp): Token {
    match op
    case Add => Plus
    case Sub => Dash
    case Mul => Star
    case Mod => Percent
    case Pow => Caret
    case Div => Slash
    case IDiv => DoubleSlash
    case BAnd => Ampersand
    case BOr => Bar
    case BXor => Tilde
    case Shl => ShiftLeft
    case Shr => ShiftRight
    case Concat => Dots
    case Ne => TildeEq
    case Eq => EqEq
    case Lt => Less
    case Le => LessEq
    case Gt => Greater
    case Ge => GreaterEq
    case And => AndWord
    case Or => OrWord
  }

  function Tokens(s: Syntax): (ts: seq<Token>)
    ensures ts != []
  {
    match s
    case SName(id) => [Name(id)]
    case SParen(t) => [LParen] + Tokens(t) + [RParen]
    case SUnary(u, t) => [UnToken(u)] + Tokens(t)
    case SBinary(op, a, b) => Tokens(a) + [BinToken(op)] + Tokens(b)
  }

  /** The left priority of the binary operator the tokens begin with; 0 if they begin with none. */
  function Priority(ts: seq<Token>): nat {
    if ts != [] && GetBinOp(ts[0]).Some? then Left(GetBinOp(ts[0]).value) else 0
  }

  /** The reading of section 3.4.8 of the Lua 5.4 Reference Manual: s may be read as one expression where
      operators must have a left priority above limit, and an operator of left priority next follows. An
      operand ends before an operator exactly if that binds no tighter than what the operand belongs to. */
  predicate Admissible(s: Syntax, limit: nat, next: nat) {
    match s
    case SName(_) => true
    case SParen(t) => Admissible(t, 0, 0)
    case SUnary(_, t) => next <= UNARY_PRIORITY && Admissible(t, UNARY_PRIORITY, next)
    case SBinary(op, a, b) =>
      && limit < Left(op) && next <= Right(op)
      && Admissible(a, limit, Left(op)) && Admissible(b, Right(op), next)
  }

  function Max(a: nat, b: nat): nat {
    if a < b then b else a
  }

  /** How deep calls of the parser nest below the one that reads s. */
  function Nesting(s: Syntax): nat {
    match s
    case SName(_) => 0
    case SParen(t) => 1 + Nesting(t)
    case SUnary(_, t) => 1 + Nesting(t)
    case SBinary(_, a, b) => Max(Nesting(a), 1 + Nesting(b))
  }

  // ---------------------------------------------------------------------- the parser as a function

  datatype Result = Ok(s: Syntax, rest: seq<Token>) | Err(error: Error)

  function SubExpr(ts: seq<Token>, limit: nat, level: nat): (r: Result)
    ensures r.Ok? ==> |r.rest| < |ts|
    decreases |ts|, 3
  {
    if level + 1 >= MAX_LEVEL then Err(NestedTooDeep)
    else
      match Operand(ts, level + 1)
      case Err(e) => Err(e)
      case Ok(s, rest) => Operators(s, rest, limit, level + 1)
  }

  function Operand(ts: seq<Token>, level: nat): (r: Result)
    ensures r.Ok? ==> |r.rest| < |ts|
    decreases |ts|, 2
  {
    if ts != [] && GetUnOp(ts[0]).Some? then
      match SubExpr(ts[1..], UNARY_PRIORITY, level)
      case Err(e) => Err(e)
      case Ok(s, rest) => Ok(SUnary(GetUnOp(ts[0]).value, s), rest)
    else Primary(ts, level)
  }

  function Primary(ts: seq<Token>, level: nat): (r: Result)
    ensures r.Ok? ==> |r.rest| < |ts|
    decreases |ts|, 1
  {
    if ts != [] && ts[0] == LParen then
      match SubExpr(ts[1..], 0, level)
      case Err(e) => Err(e)
      case Ok(s, rest) => if rest != [] && rest[0] == RParen then Ok(SParen(s), rest[1..]) else Err(MissingParen)
    else if ts != [] && ts[0].Name? then Ok(SName(ts[0].id), ts[1..])
    else Err(UnexpectedSymbol)
  }

  function Operators(lhs: Syntax, ts: seq<Token>, limit: nat, level: nat): (r: Result)
    ensures r.Ok? ==> |r.rest| <= |ts|
    decreases |ts|, 0
  {
    if Priority(ts) > limit then
      var op := GetBinOp(ts[0]).value;
      match SubExpr(ts[1..], Right(op), level)
      case Err(e) => Err(e)
      case Ok(rhs, rest) => Operators(SBinary(op, lhs, rhs), rest, limit, level)
    else Ok(lhs, ts)
  }

  // ---------------------------------------------------------------------- soundness

  /** What was read is admissible, and the rest begins with no operator that could continue it. */
  ghost predicate Read(ts: seq<Token>, limit: nat, s: Syntax, rest: seq<Token>) {
    ts == Tokens(s) + rest && Admissible(s, limit, Priority(rest)) && Priority(rest) <= limit
  }

  lemma {:induction false} Sound(ts: seq<Token>, limit: nat, level: nat)
    requires SubExpr(ts, limit, level).Ok?
    ensures var r := SubExpr(ts, limit, level); Read(ts, limit, r.s, r.rest) && level + 1 + Nesting(r.s) < MAX_LEVEL
    decreases |ts|, 3
  {
    var r := Operand(ts, level + 1);
    SoundOperand(ts, level + 1, limit);
    SoundOperators(r.s, r.rest, limit, level + 1);
  }

  lemma {:induction false} SoundOperand(ts: seq<Token>, level: nat, limit: nat)
    requires Operand(ts, level).Ok? && level < MAX_LEVEL
    ensures var r := Operand(ts, level);
      ts == Tokens(r.s) + r.rest && Admissible(r.s, limit, Priority(r.rest)) && level + Nesting(r.s) < MAX_LEVEL
    decreases |ts|, 2
  {
    if GetUnOp(ts[0]).Some? {
      Sound(ts[1..], UNARY_PRIORITY, level);
      assert ts == [ts[0]] + ts[1..];
      UnTokens(ts[0]);
    } else if ts[0] == LParen {
      Sound(ts[1..], 0, level);
      var r := SubExpr(ts[1..], 0, level);
      assert ts == [LParen] + Tokens(r.s) + [RParen] + r.rest[1..];
    } else {
      assert ts == [ts[0]] + ts[1..];
    }
  }

  lemma {:induction false} SoundOperators(lhs: Syntax, ts: seq<Token>, limit: nat, level: nat)
    requires Operators(lhs, ts, limit, level).Ok? && Admissible(lhs, limit, Priority(ts))
    requires level + Nesting(lhs) < MAX_LEVEL
    ensures var r := Operators(lhs, ts, limit, level);
      Read(Tokens(lhs) + ts, limit, r.s, r.rest) && level + Nesting(r.s) < MAX_LEVEL
    decreases |ts|, 0
  {
    hide SubExpr, Tokens, Admissible, Nesting, Left, Right;
    if Priority(ts) > limit {
      var op := GetBinOp(ts[0]).value;
      var r := SubExpr(ts[1..], Right(op), level);
      Sound(ts[1..], Right(op), level);
      Extend(lhs, ts, r.s, r.rest, limit, level);
      SoundOperators(SBinary(op, lhs, r.s), r.rest, limit, level);
    }
  }

  /** One more operator and its right operand. */
  lemma Extend(lhs: Syntax, ts: seq<Token>, rhs: Syntax, rest: seq<Token>, limit: nat, level: nat)
    requires Priority(ts) > limit && Admissible(lhs, limit, Priority(ts)) && level + Nesting(lhs) < MAX_LEVEL
    requires Read(ts[1..], Right(GetBinOp(ts[0]).value), rhs, rest) && level + 1 + Nesting(rhs) < MAX_LEVEL
    ensures var both := SBinary(GetBinOp(ts[0]).value, lhs, rhs);
      && Tokens(lhs) + ts == Tokens(both) + rest
      && Admissible(both, limit, Priority(rest)) && level + Nesting(both) < MAX_LEVEL
  {
    var both := SBinary(GetBinOp(ts[0]).value, lhs, rhs);
    BinTokens(ts[0]);
    assert ts == [ts[0]] + ts[1..];
    assert Tokens(lhs) + ts == Tokens(both) + rest;
  }

  lemma UnTokens(t: Token)
    ensures GetUnOp(t).Some? ==> UnToken(GetUnOp(t).value) == t
  {
  }

  lemma BinTokens(t: Token)
    ensures GetBinOp(t).Some? ==> BinToken(GetBinOp(t).value) == t
  {
  }

  // ---------------------------------------------------------------------- completeness

  /** Every admissible reading is found, if it does not nest too deep. */
  lemma {:induction false} Complete(s: Syntax, rest: seq<Token>, limit: nat, level: nat)
    requires Admissible(s, limit, Priority(rest)) && Priority(rest) <= limit
    requires level + 1 + Nesting(s) < MAX_LEVEL
    ensures SubExpr(Tokens(s) + rest, limit, level) == Ok(s, rest)
    decreases s, 1
  {
    CompleteFrom(s, rest, limit, level + 1);
  }

  lemma ParenEnds(rest: seq<Token>)
    ensures Priority([RParen] + rest) == 0
  {
  }

  lemma OperatorNext(op: BinOp, ts: seq<Token>)
    ensures GetBinOp(BinToken(op)) == Some(op) && Priority([BinToken(op)] + ts) == Left(op)
  {
  }

  /** One turn of the loop. */
  lemma GoOn(a: Syntax, op: BinOp, b: Syntax, rest: seq<Token>, limit: nat, level: nat)
    requires limit < Left(op) && SubExpr(Tokens(b) + rest, Right(op), level) == Ok(b, rest)
    ensures Operators(a, [BinToken(op)] + (Tokens(b) + rest), limit, level)
            == Operators(SBinary(op, a, b), rest, limit, level)
  {
    hide GetBinOp, BinToken, Left, Right, Priority;
    var after := [BinToken(op)] + (Tokens(b) + rest);
    OperatorNext(op, Tokens(b) + rest);
    assert after[1..] == Tokens(b) + rest;
  }

  lemma ParenFrom(t: Syntax, rest: seq<Token>, level: nat)
    requires SubExpr(Tokens(t) + ([RParen] + rest), 0, level) == Ok(t, [RParen] + rest)
    ensures Operand(Tokens(SParen(t)) + rest, level) == Ok(SParen(t), rest)
  {
    hide SubExpr, Operators, GetBinOp;
    assert (Tokens(SParen(t)) + rest)[1..] == Tokens(t) + ([RParen] + rest);
    assert ([RParen] + rest)[1..] == rest;
  }

  lemma UnaryFrom(u: UnOp, t: Syntax, rest: seq<Token>, level: nat)
    requires SubExpr(Tokens(t) + rest, UNARY_PRIORITY, level) == Ok(t, rest)
    ensures Operand(Tokens(SUnary(u, t)) + rest, level) == Ok(SUnary(u, t), rest)
  {
    hide SubExpr, Operators, GetBinOp;
    assert (Tokens(SUnary(u, t)) + rest)[1..] == Tokens(t) + rest;
  }

  /** Reading s comes down to going on with s as the left operand. */
  lemma {:induction false} CompleteFrom(s: Syntax, rest: seq<Token>, limit: nat, level: nat)
    requires Admissible(s, limit, Priority(rest)) && level + Nesting(s) < MAX_LEVEL
    ensures var r := Operand(Tokens(s) + rest, level);
      r.Ok? && Operators(r.s, r.rest, limit, level) == Operators(s, rest, limit, level)
    decreases s, 0
  {
    hide Priority, GetBinOp, Left, Right, BinToken, SubExpr, Operators;
    match s
    case SName(id) =>
      assert (Tokens(s) + rest)[1..] == rest;
    case SParen(t) =>
      ParenEnds(rest);
      Complete(t, [RParen] + rest, 0, level);
      ParenFrom(t, rest, level);
    case SUnary(u, t) =>
      Complete(t, rest, UNARY_PRIORITY, level);
      UnaryFrom(u, t, rest, level);
    case SBinary(op, a, b) =>
      var after := [BinToken(op)] + (Tokens(b) + rest);
      assert Tokens(s) + rest == Tokens(a) + after;
      OperatorNext(op, Tokens(b) + rest);
      CompleteFrom(a, after, limit, level);
      Complete(b, rest, Right(op), level);
      GoOn(a, op, b, rest, limit, level);
  }

  /** Within the nesting limit there is one reading. */
  lemma Unambiguous(s: Syntax, rest: seq<Token>, s': Syntax, rest': seq<Token>, limit: nat)
    requires Tokens(s) + rest == Tokens(s') + rest'
    requires Read(Tokens(s) + rest, limit, s, rest) && Read(Tokens(s) + rest, limit, s', rest')
    requires Nesting(s) < MAX_LEVEL - 1 && Nesting(s') < MAX_LEVEL - 1
    ensures s == s' && rest == rest'
  {
    Complete(s, rest, limit, 0);
    Complete(s', rest', limit, 0);
  }

  /** The parser takes the longest stretch: no expression that begins the tokens, taken by itself, is longer than what
      is read. */
  lemma {:induction false} Longest(s: Syntax, rest: seq<Token>, limit: nat, level: nat)
    requires Admissible(s, limit, 0) && level + 1 + Nesting(s) < MAX_LEVEL
    requires SubExpr(Tokens(s) + rest, limit, level).Ok?
    ensures var r := SubExpr(Tokens(s) + rest, limit, level); |r.rest| <= |rest| && |Tokens(s)| <= |Tokens(r.s)|
    decreases s, 1
  {
    LongestFrom(s, rest, limit, level + 1);
    Sound(Tokens(s) + rest, limit, level);
    var r := SubExpr(Tokens(s) + rest, limit, level);
    assert |Tokens(s) + rest| == |Tokens(r.s) + r.rest|;
  }

  lemma {:induction false} LongestFrom(s: Syntax, rest: seq<Token>, limit: nat, level: nat)
    requires Admissible(s, limit, 0) && level + Nesting(s) < MAX_LEVEL
    requires var r := Operand(Tokens(s) + rest, level); r.Ok? && Operators(r.s, r.rest, limit, level).Ok?
    ensures var r := Operand(Tokens(s) + rest, level); |Operators(r.s, r.rest, limit, level).rest| <= |rest|
    decreases s, 0
  {
    hide Priority, GetBinOp, Left, Right, BinToken;
    var ts := Tokens(s) + rest;
    match s
    case SName(id) =>
      assert ts[1..] == rest;
    case SParen(t) =>
      ParenEnds(rest);
      Complete(t, [RParen] + rest, 0, level);
      assert ts[1..] == Tokens(t) + ([RParen] + rest);
      assert ([RParen] + rest)[1..] == rest;
    case SUnary(u, t) =>
      assert ts[1..] == Tokens(t) + rest;
      Longest(t, rest, UNARY_PRIORITY, level);
    case SBinary(op, a, b) =>
      LongestBinary(op, a, b, rest, limit, level);
      Longest(b, rest, Right(op), level);
  }

  /** After the left operand comes the operator, and then whatever its right operand becomes. */
  lemma LongestBinary(op: BinOp, a: Syntax, b: Syntax, rest: seq<Token>, limit: nat, level: nat)
    requires limit < Left(op) && Admissible(a, limit, Left(op)) && level + Nesting(a) < MAX_LEVEL
    requires var r := Operand(Tokens(SBinary(op, a, b)) + rest, level);
      r.Ok? && Operators(r.s, r.rest, limit, level).Ok?
    ensures var r, q := Operand(Tokens(SBinary(op, a, b)) + rest, level), SubExpr(Tokens(b) + rest, Right(op), level);
      q.Ok? && |Operators(r.s, r.rest, limit, level).rest| <= |q.rest|
  {
    hide Priority, GetBinOp, Left, Right, BinToken;
    var after := [BinToken(op)] + (Tokens(b) + rest);
    assert Tokens(SBinary(op, a, b)) + rest == Tokens(a) + after;
    OperatorNext(op, Tokens(b) + rest);
    CompleteFrom(a, after, limit, level);
    assert after[1..] == Tokens(b) + rest;
  }

  // ---------------------------------------------------------------------- printing

  predicate NeedsNone(e: Expr, limit: nat, next: nat) {
    match e
    case Var(_) => true
    case Unary(_, _) => next <= UNARY_PRIORITY
    case Binary(op, _, _) => limit < Left(op) && next <= Right(op)
  }

  /** e with parentheses only where it could not be read otherwise. */
  function Show(e: Expr, limit: nat, next: nat): Syntax
    decreases e, if NeedsNone(e, limit, next) then 0 else 1
  {
    if !NeedsNone(e, limit, next) then
      assert NeedsNone(e, 0, 0);
      SParen(Show(e, 0, 0))
    else
      match e
      case Var(id) => SName(id)
      case Unary(u, x) => SUnary(u, Show(x, UNARY_PRIORITY, next))
      case Binary(op, a, b) => SBinary(op, Show(a, limit, Left(op)), Show(b, Right(op), next))
  }

  lemma {:induction false} ShowOk(e: Expr, limit: nat, next: nat)
    ensures Tree(Show(e, limit, next)) == e && Admissible(Show(e, limit, next), limit, next)
    decreases e, if NeedsNone(e, limit, next) then 0 else 1
  {
    if !NeedsNone(e, limit, next) {
      ShowOk(e, 0, 0);
    } else {
      match e
      case Var(id) =>
      case Unary(u, x) => ShowOk(x, UNARY_PRIORITY, next);
      case Binary(op, a, b) =>
        ShowOk(a, limit, Left(op));
        ShowOk(b, Right(op), next);
    }
  }

  /** Round trip: a printed tree is read back as itself, whatever follows that is no operator. */
  lemma RoundTrip(e: Expr, rest: seq<Token>, level: nat)
    requires Priority(rest) == 0 && level + 1 + Nesting(Show(e, 0, 0)) < MAX_LEVEL
    ensures var r := SubExpr(Tokens(Show(e, 0, 0)) + rest, 0, level); r.Ok? && Tree(r.s) == e && r.rest == rest
  {
    ShowOk(e, 0, 0);
    Complete(Show(e, 0, 0), rest, 0, level);
  }

  function Parens(s: Syntax): nat {
    match s
    case SName(_) => 0
    case SParen(t) => 1 + Parens(t)
    case SUnary(_, t) => Parens(t)
    case SBinary(_, a, b) => Parens(a) + Parens(b)
  }

  /** Left operands are not affected by a limit below their operator, right ones not by an operator that
      binds no tighter than theirs. */
  lemma {:induction false} SameLeft(e: Expr, limit: nat, op: BinOp)
    requires limit < Left(op)
    ensures Show(e, limit, Left(op)) == Show(e, 0, Left(op))
    decreases e
  {
    if e.Binary? && NeedsNone(e, 0, Left(op)) {
      SameLeft(e.lhs, limit, e.op);
    }
  }

  lemma {:induction false} SameRight(e: Expr, op: BinOp, next: BinOp)
    requires Left(next) <= Right(op)
    ensures Show(e, Right(op), Left(next)) == Show(e, Right(op), 0)
    decreases e
  {
    if e.Unary? {
      SameUnder(e.arg, next);
    } else if e.Binary? && NeedsNone(e, Right(op), 0) {
      SameRight(e.rhs, e.op, next);
    }
  }

  lemma {:induction false} SameUnder(e: Expr, next: BinOp)
    requires Left(next) <= UNARY_PRIORITY
    ensures Show(e, UNARY_PRIORITY, Left(next)) == Show(e, UNARY_PRIORITY, 0)
    decreases e
  {
    if e.Unary? {
      SameUnder(e.arg, next);
    } else if e.Binary? && NeedsNone(e, UNARY_PRIORITY, 0) {
      SameRight(e.rhs, e.op, next);
    }
  }

  /** What can follow an expression: an operator, or something that is none. */
  ghost predicate Follows(next: nat) {
    next == 0 || exists op: BinOp :: next == Left(op)
  }

  /** Being inside parentheses saves at most the pair around the whole. */
  lemma {:induction false} Inside(e: Expr, limit: nat, next: nat)
    requires Follows(next)
    ensures Parens(Show(e, limit, next)) <= 1 + Parens(Show(e, 0, 0))
    ensures NeedsNone(e, limit, next) ==> Parens(Show(e, limit, next)) == Parens(Show(e, 0, 0))
  {
    if NeedsNone(e, limit, next) && e.Binary? {
      SameLeft(e.lhs, limit, e.op);
      if next != 0 {
        var op: BinOp :| next == Left(op);
        SameRight(e.rhs, e.op, op);
      }
    } else if NeedsNone(e, limit, next) && e.Unary? && next != 0 {
      var op: BinOp :| next == Left(op);
      SameUnder(e.arg, op);
    }
  }

  /** No admissible way to write the tree has fewer parentheses. */
  lemma {:induction false} Fewest(s: Syntax, limit: nat, next: nat)
    requires Admissible(s, limit, next) && Follows(next)
    ensures Parens(Show(Tree(s), limit, next)) <= Parens(s)
    decreases s
  {
    match s
    case SName(id) =>
    case SParen(t) =>
      Fewest(t, 0, 0);
      Inside(Tree(t), limit, next);
    case SUnary(u, t) =>
      Fewest(t, UNARY_PRIORITY, next);
    case SBinary(op, a, b) =>
      Fewest(a, limit, Left(op));
      Fewest(b, Right(op), next);
  }

  // ---------------------------------------------------------------------- the parser

  datatype Status = Fine | Failed(error: Error)

  /** The state of the lexer and the tree that stands for the code generated. */
  class LexState {
    const tokens: seq<Token>
    var pos: nat
    var level: nat

    constructor (tokens: seq<Token>, level: nat)
      ensures this.tokens == tokens && pos == 0 && this.level == level
    {
      this.tokens := tokens;
      pos := 0;
      this.level := level;
    }

    ghost function Rest(): seq<Token>
      requires pos <= |tokens|
      reads this`pos
    {
      tokens[pos..]
    }

    function Current(): Token
      reads this`pos
    {
      if pos < |tokens| then tokens[pos] else Other
    }

    /** The state after a call agrees with what the parser as a function says. */
    ghost predicate Agrees(r: Result, st: Status, e: Expr, level0: nat)
      reads this`pos, this`level
    {
      match r
      case Ok(s, rest) => st == Fine && e == Tree(s) && pos <= |tokens| && Rest() == rest && level == level0
      case Err(why) => st == Failed(why)
    }

    /** `subexpr`; op is the operator it stopped before. */
    method ParseSubExpr(limit: nat) returns (st: Status, e: Expr, op: Option<BinOp>)
      requires pos <= |tokens|
      modifies this`pos, this`level
      ensures pos <= |tokens|
      ensures Agrees(SubExpr(old(Rest()), limit, old(level)), st, e, old(level))
      ensures st == Fine ==> op == GetBinOp(Current())
      decreases |tokens| - pos, 3
    {
      hide GetUnOp, GetBinOp, Left, Right, Operand;
      ghost var level0, start := level, Rest();
      op, e, st := None, Var(0), Fine;
      level := level + 1;
      if level >= MAX_LEVEL {
        return Failed(NestedTooDeep), e, op;
      }
      ghost var r := Operand(start, level);
      st, e := ParseOperand();
      if st != Fine {
        return;
      }
      op := GetBinOp(Current());
      ghost var lhs := r.s;
      while op.Some? && Left(op.value) > limit
        invariant pos <= |tokens| && |Rest()| < |start| && level == level0 + 1
        invariant st == Fine && e == Tree(lhs) && op == GetBinOp(Current())
        invariant Operators(r.s, r.rest, limit, level) == Operators(lhs, Rest(), limit, level)
        decreases |tokens| - pos
      {
        st, e, op, lhs := ParseOperator(e, op.value, limit, lhs);
        if st != Fine {
          return;
        }
      }
      EndIsNothing();
      level := level - 1;
    }

    /** The operand at the start of `subexpr`. */
    method ParseOperand() returns (st: Status, e: Expr)
      requires pos <= |tokens|
      modifies this`pos, this`level
      ensures pos <= |tokens|
      ensures Agrees(Operand(old(Rest()), old(level)), st, e, old(level))
      decreases |tokens| - pos, 2
    {
      hide GetUnOp, GetBinOp, Left, Right, Primary;
      var uop := GetUnOp(Current());
      EndIsNothing();
      if uop.Some? {
        NextRest();
        pos := pos + 1;
        var op;
        st, e, op := ParseSubExpr(UNARY_PRIORITY);
        if st == Fine {
          e := Unary(uop.value, e);
        }
      } else {
        st, e := ParseSimple();
      }
    }

    /** One turn of the loop of `subexpr`: the operator that is next and its right operand. */
    method ParseOperator(e0: Expr, op: BinOp, limit: nat, ghost lhs: Syntax)
      returns (st: Status, e: Expr, nextop: Option<BinOp>, ghost both: Syntax)
      requires pos <= |tokens| && GetBinOp(Current()) == Some(op) && Left(op) > limit && e0 == Tree(lhs)
      modifies this`pos, this`level
      ensures pos <= |tokens|
      ensures st.Failed? ==> Operators(lhs, old(Rest()), limit, old(level)) == Err(st.error)
      ensures st == Fine ==>
        && old(pos) < pos && level == old(level) && e == Tree(both) && nextop == GetBinOp(Current())
        && Operators(lhs, old(Rest()), limit, level) == Operators(both, Rest(), limit, level)
      decreases |tokens| - pos, 1
    {
      hide GetUnOp, GetBinOp, Left, Right;
      EndIsNothing();
      NextRest();
      ghost var rhs := SubExpr(Rest()[1..], Right(op), level);
      pos := pos + 1;
      var e2;
      both, e := lhs, e0;
      st, e2, nextop := ParseSubExpr(Right(op));
      if st == Fine {
        both := SBinary(op, lhs, rhs.s);
        e := Binary(op, e0, e2);
      }
    }

    lemma EndIsNothing()
      requires pos <= |tokens|
      ensures pos < |tokens| ==> Rest() != [] && Rest()[0] == Current()
      ensures pos == |tokens| ==> Rest() == [] && GetUnOp(Current()).None? && GetBinOp(Current()).None?
    {
    }

    lemma NextRest()
      requires pos < |tokens|
      ensures Rest()[1..] == tokens[pos + 1..]
    {
    }

    /** `simpleexp` on the kinds there are here: a name or a parenthesized expression. */
    method ParseSimple() returns (st: Status, e: Expr)
      requires pos <= |tokens|
      modifies this`pos, this`level
      ensures pos <= |tokens|
      ensures Agrees(Primary(old(Rest()), old(level)), st, e, old(level))
      decreases |tokens| - pos, 1
    {
      hide GetUnOp, GetBinOp, Left, Right;
      EndIsNothing();
      st, e := Fine, Var(0);
      if pos < |tokens| {
        NextRest();
      }
      match Current() {
        case LParen =>
          pos := pos + 1;
          var op;
          st, e, op := ParseSubExpr(0);
          if st == Fine {
            EndIsNothing();
            if Current() == RParen {
              NextRest();
              pos := pos + 1;
            } else {
              st := Failed(MissingParen);
            }
          }
        case Name(id) =>
          pos := pos + 1;
          e := Var(id);
        case _ => st := Failed(UnexpectedSymbol);
      }
    }
  }
}
