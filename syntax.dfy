/**
 * The language the generator accepts, as a syntax tree: its tokens, the
 * instruction lines each construct is meant to become (a syntax-directed
 * reference translation, independent of the character-level parser), and
 * the value of the additive sub-language that the interpreter can run.
 */
module Syntax {
  import opened Chars

  datatype AddOp = Plus | Minus
  datatype MulOp = Times | Over

  /** `factor`: a digit, a variable, a call `name()`, or a parenthesised expression. */
  datatype Factor = Num(digit: char) | Var(name: string) | Call(name: string) | Paren(e: Expr)
  /** `term` takes at most one multiplicative operator. */
  datatype MulPart = NoMul | Mul(op: MulOp, g: Factor)
  datatype Term = Term(f: Factor, mul: MulPart)
  /** An expression either starts with a term or with a sign (no first term). */
  datatype Lead = Sign | First(t: Term)
  datatype Tail = End | Then(op: AddOp, t: Term, next: Tail)
  datatype Expr = Expr(lead: Lead, tail: Tail)
  datatype Assign = Assign(name: string, e: Expr)

  predicate ValidName(n: string) {
    |n| > 0 && IsAlpha(n[0]) && forall i | 0 <= i < |n| :: IsAlphanum(n[i])
  }

  predicate ValidFactor(f: Factor) {
    match f
    case Num(c) => IsDigit(c)
    case Var(n) => ValidName(n)
    case Call(n) => ValidName(n)
    case Paren(e) => ValidExpr(e)
  }

  predicate ValidTerm(t: Term) {
    ValidFactor(t.f) && (t.mul.Mul? ==> ValidFactor(t.mul.g))
  }

  predicate ValidTail(tl: Tail) {
    tl.Then? ==> ValidTerm(tl.t) && ValidTail(tl.next)
  }

  predicate ValidExpr(e: Expr) {
    (e.lead.Sign? ==> e.tail.Then?) && (e.lead.First? ==> ValidTerm(e.lead.t)) && ValidTail(e.tail)
  }

  predicate ValidProgram(p: seq<Assign>) {
    forall i | 0 <= i < |p| :: ValidName(p[i].name) && ValidExpr(p[i].e)
  }

  function AddChar(op: AddOp): char {
    if op == Plus then '+' else '-'
  }

  function MulChar(op: MulOp): char {
    if op == Times then '*' else '/'
  }

  /* The tokens of each construct, in order. Any run of spaces and tabs may follow each token. */

  function FactorTokens(f: Factor): seq<string> {
    match f
    case Num(c) => [[c]]
    case Var(n) => [n]
    case Call(n) => [n, "(", ")"]
    case Paren(e) => ["("] + ExprTokens(e) + [")"]
  }

  function TermTokens(t: Term): seq<string> {
    FactorTokens(t.f) + (if t.mul.NoMul? then [] else [[MulChar(t.mul.op)]] + FactorTokens(t.mul.g))
  }

  function TailTokens(tl: Tail): seq<string> {
    if tl.End? then [] else [[AddChar(tl.op)]] + TermTokens(tl.t) + TailTokens(tl.next)
  }

  function ExprTokens(e: Expr): seq<string> {
    (if e.lead.Sign? then [] else TermTokens(e.lead.t)) + TailTokens(e.tail)
  }

  function AssignTokens(a: Assign): seq<string> {
    [a.name, "="] + ExprTokens(a.e)
  }

  function StatementsTokens(p: seq<Assign>): seq<string> {
    if p == [] then [] else AssignTokens(p[0]) + [";"] + StatementsTokens(p[1..])
  }

  function ProgramTokens(p: seq<Assign>): seq<string> {
    ["{"] + StatementsTokens(p) + ["}"]
  }

  /* The reference translation: the lines each construct stands for. */

  function FactorCode(f: Factor): seq<string> {
    match f
    case Num(c) => ["MOVE #" + [c] + ",D0"]
    case Var(n) => ["MOVE " + n + "(PC),D0"]
    case Call(n) => ["BSR " + n]
    case Paren(e) => ExprCode(e)
  }

  function TermCode(t: Term): seq<string> {
    match t.mul
    case NoMul => FactorCode(t.f)
    case Mul(Times, g) => FactorCode(t.f) + ["MOVE D0,-(SP)"] + FactorCode(g) + ["MULS (SP)+,D0"]
    case Mul(Over, g) => FactorCode(t.f) + ["MOVE D0,-(SP)"] + FactorCode(g) + ["MOVE (SP)+,D1", "DIVS D1,D0"]
  }

  function TailCode(tl: Tail): seq<string> {
    match tl
    case End => []
    case Then(Plus, t, next) => ["MOVE D0,-(SP)"] + TermCode(t) + ["ADD (SP)+,D0"] + TailCode(next)
    case Then(Minus, t, next) => ["MOVE D0,-(SP)"] + TermCode(t) + ["SUB (SP)+,D0", "NEG D0"] + TailCode(next)
  }

  function ExprCode(e: Expr): seq<string> {
    (if e.lead.Sign? then ["CLR D0"] else TermCode(e.lead.t)) + TailCode(e.tail)
  }

  function AssignCode(a: Assign): seq<string> {
    ExprCode(a.e) + ["LEA " + a.name + "(PC),A0", "MOVE D0,(A0)"]
  }

  function ProgramCode(p: seq<Assign>): seq<string> {
    if p == [] then [] else AssignCode(p[0]) + ProgramCode(p[1..])
  }

  /* The last term of an expression decides what may follow it. */

  function TailLast(tl: Tail): Term
    requires tl.Then?
  {
    if tl.next.End? then tl.t else TailLast(tl.next)
  }

  function LastTerm(e: Expr): Term
    requires e.lead.First? || e.tail.Then?
  {
    if e.tail.End? then e.lead.t else TailLast(e.tail)
  }

  /** The term's text ends with a variable name (so more name characters would extend it). */
  predicate EndsWithVar(t: Term) {
    if t.mul.NoMul? then t.f.Var? else t.mul.g.Var?
  }

  /* The additive sub-language: digits, `+` and parentheses. */

  predicate AdditiveFactor(f: Factor) {
    f.Num? || (f.Paren? && Additive(f.e))
  }

  predicate AdditiveTerm(t: Term) {
    t.mul.NoMul? && AdditiveFactor(t.f)
  }

  predicate AdditiveTail(tl: Tail) {
    tl.Then? ==> tl.op == Plus && AdditiveTerm(tl.t) && AdditiveTail(tl.next)
  }

  predicate Additive(e: Expr) {
    e.lead.First? && AdditiveTerm(e.lead.t) && AdditiveTail(e.tail)
  }

  function FactorValue(f: Factor): int
    requires ValidFactor(f) && AdditiveFactor(f)
  {
    if f.Num? then DigitValue(f.digit) else ExprValue(f.e)
  }

  function TailValue(tl: Tail): int
    requires ValidTail(tl) && AdditiveTail(tl)
  {
    if tl.End? then 0
    else
      assert ValidTerm(tl.t) && AdditiveTerm(tl.t);
      FactorValue(tl.t.f) + TailValue(tl.next)
  }

  /** The sum an additive expression denotes. */
  function ExprValue(e: Expr): int
    requires ValidExpr(e) && Additive(e)
  {
    assert ValidTerm(e.lead.t) && AdditiveTerm(e.lead.t);
    FactorValue(e.lead.t.f) + TailValue(e.tail)
  }
}
