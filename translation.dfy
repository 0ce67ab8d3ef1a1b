/**
 * The generator is a syntax-directed translator: on the tokens of any
 * syntax tree, laid out with any run of spaces and tabs after each token,
 * it emits exactly the tree's reference translation (module Syntax) and
 * stops right after the tokens. Proved by mutual induction on the tree,
 * construct by construct, from the cursor lemmas of module Cursor.
 */
module Translation {
  import opened Options
  import opened Chars
  import opened Lines
  import opened CodeGenSpec
  import opened Cursor
  import opened Syntax
  import opened Shapes

  /* What may follow a construct without being taken as part of it. */

  /** After a variable name: a character that neither extends the name nor opens a call. */
  predicate VarStop(s: string, q: nat) {
    q < |s| && !IsAlphanum(s[q]) && s[q] != '('
  }

  /** After a term: no `*` or `/` when it has none (`term` would take it), and a name's stop. */
  predicate TermStop(t: Term, s: string, q: nat) {
    q <= |s| &&
    (t.mul.NoMul? && q < |s| ==> !IsMulop(s[q])) &&
    (EndsWithVar(t) ==> VarStop(s, q))
  }

  /** After an expression: no `+` or `-` (the additive loop would take it), and its last term's stop. */
  predicate ExprStop(e: Expr, s: string, q: nat)
    requires e.lead.First? || e.tail.Then?
  {
    q <= |s| && (q < |s| ==> !IsAddop(s[q])) && TermStop(LastTerm(e), s, q)
  }

  /** A character that is neither a name character, `(`, `*` nor `/` stops any term. */
  lemma TermStopsAt(t: Term, s: string, q: nat)
    requires VarStop(s, q) && !IsMulop(s[q])
    ensures TermStop(t, s, q)
  {
  }

  /** ... and, when it is not `+` or `-` either, any expression. */
  lemma ExprStopsAt(e: Expr, s: string, q: nat)
    requires e.lead.First? || e.tail.Then?
    requires VarStop(s, q) && !IsMulop(s[q]) && !IsAddop(s[q])
    ensures ExprStop(e, s, q)
  {
    TermStopsAt(LastTerm(e), s, q);
  }

  /** Laid-out tokens start at `p` with their first character. */
  lemma ScanFirst(s: string, p: nat, toks: seq<string>)
    requires p <= |s| && |toks| > 0 && |toks[0]| > 0
    requires Scan(s, p, toks).Some?
    ensures p < |s| && s[p] == toks[0][0]
  {
    assert toks == [toks[0]] + toks[1..];
    ScanWord(s, p, toks[0], toks[1..]);
    assert s[p + 0] == toks[0][0];
  }

  /** Every factor, and so every term, starts with a digit, a letter or `(`. */
  lemma FactorStarts(f: Factor)
    requires ValidFactor(f)
    ensures |FactorTokens(f)| > 0 && |FactorTokens(f)[0]| > 0
    ensures var c := FactorTokens(f)[0][0]; (IsDigit(c) || IsAlpha(c) || c == '(') && !IsAddop(c) && !IsWhite(c)
  {
  }

  lemma TermStarts(t: Term)
    requires ValidTerm(t)
    ensures |TermTokens(t)| > 0 && TermTokens(t)[0] == FactorTokens(t.f)[0] && |TermTokens(t)[0]| > 0
    ensures var c := TermTokens(t)[0][0]; !IsAddop(c) && !IsWhite(c)
  {
    FactorStarts(t.f);
  }

  /** An operator token laid out at `q` stops a term or an expression before it. */
  lemma OperatorStops(s: string, q: nat, c: char, rest: seq<string>)
    requires q <= |s| && Scan(s, q, [[c]] + rest).Some?
    requires c in "+-*/);="
    ensures q < |s| && s[q] == c && VarStop(s, q)
  {
    ScanChar(s, q, c, rest);
  }

  /** A name token at `p` that is followed by a character that does not extend it. */
  lemma NameTokenAt(st: Gen, p: nat, n: string, q: nat)
    requires At(st, p) && ValidName(n)
    requires WordAt(st.source, p, n)
    requires q == SkipWhite(st.source, p + |n|) && q < |st.source| && !IsAlphanum(st.source[q])
    ensures At(GetName(st).0, q) && GetName(st).0.out == st.out && GetName(st).0.source == st.source
    ensures GetName(st).1 == n
  {
    WordEnds(st.source, p + |n|, q);
    NameAt(st, p, n);
  }

  lemma FactorVarEmits(st: Gen, p: nat, n: string, q: nat)
    requires ValidName(n) && At(st, p)
    requires Scan(st.source, p, [n]) == Some(q) && VarStop(st.source, q)
    ensures At(CodeGenSpec.Factor(st), q) && CodeGenSpec.Factor(st).source == st.source
    ensures CodeGenSpec.Factor(st).out == st.out + Emitted(["MOVE " + n + "(PC),D0"])
  {
    var s := st.source;
    assert [n] + [] == [n];
    var q0 := ScanHeadWord(s, p, n, [], q);
    assert s[p + 0] == n[0];
    NameTokenAt(st, p, n, q);
  }

  /**
   * A variable that runs to the very end of the source: `get_name` unwraps
   * the missing lookahead, so the factor, and the term it starts, panic.
   */
  lemma TrailingNamePanics(st: Gen, p: nat)
    requires At(st, p) && p < |st.source| && IsAlpha(st.source[p])
    requires forall i | p <= i < |st.source| :: IsAlphanum(st.source[i])
    ensures CodeGenSpec.Factor(st).fault == Some(UnwrapNone)
    ensures CodeGenSpec.Term(st).fault == Some(UnwrapNone)
  {
    NameAtEnd(st, p);
    assert CodeGenSpec.Factor(st) == Ident(st);
  }

  /** The layout of a call `n ( )`: where its parentheses are. */
  lemma CallLayout(s: string, p: nat, n: string, q: nat) returns (q1: nat, q2: nat)
    requires p <= |s| && Scan(s, p, [n, "(", ")"]) == Some(q)
    ensures WordAt(s, p, n) && q1 == SkipWhite(s, p + |n|)
    ensures q1 < |s| && s[q1] == '(' && q2 == SkipWhite(s, q1 + 1)
    ensures q2 < |s| && s[q2] == ')' && q == SkipWhite(s, q2 + 1)
  {
    assert [n, "(", ")"] == [n] + ([['(']] + [[')']]);
    q1 := ScanHeadWord(s, p, n, [['(']] + [[')']], q);
    q2 := ScanHead(s, q1, '(', [[')']], q);
    ScanOne(s, q2, ')');
  }

  lemma FactorCallEmits(st: Gen, p: nat, n: string, q: nat)
    requires ValidName(n) && At(st, p)
    requires Scan(st.source, p, [n, "(", ")"]) == Some(q)
    ensures At(CodeGenSpec.Factor(st), q) && CodeGenSpec.Factor(st).source == st.source
    ensures CodeGenSpec.Factor(st).out == st.out + Emitted(["BSR " + n])
  {
    var s := st.source;
    var q1, q2 := CallLayout(s, p, n, q);
    WordChars(s, p, n);
    NameTokenAt(st, p, n, q1);
    var s1 := GetName(st).0;
    StepCall(st);
    MatchAt(s1, q1, '(');
    MatchAt(MatchChar(s1, '('), q2, ')');
  }

  /** The layout of `( e )`: where the expression starts and ends. */
  lemma ParenLayout(s: string, p: nat, e: Expr, q: nat) returns (p1: nat, q1: nat)
    requires ValidExpr(e) && p <= |s| && Scan(s, p, FactorTokens(Paren(e))) == Some(q)
    ensures p < |s| && s[p] == '(' && p1 == SkipWhite(s, p + 1)
    ensures Scan(s, p1, ExprTokens(e)) == Some(q1) && ExprStop(e, s, q1)
    ensures q1 < |s| && s[q1] == ')' && q == SkipWhite(s, q1 + 1)
  {
    TokensParen(e);
    p1 := ScanHead(s, p, '(', ExprTokens(e) + [[')']], q);
    q1 := ScanSplit(s, p1, ExprTokens(e), [[')']], q);
    ScanOne(s, q1, ')');
    ExprStopsAt(e, s, q1);
  }

  lemma {:induction false} FactorParenEmits(st: Gen, p: nat, e: Expr, q: nat)
    requires ValidExpr(e) && At(st, p)
    requires Scan(st.source, p, FactorTokens(Paren(e))) == Some(q)
    ensures At(CodeGenSpec.Factor(st), q) && CodeGenSpec.Factor(st).source == st.source
    ensures CodeGenSpec.Factor(st).out == st.out + Emitted(ExprCode(e))
    decreases e, 2
  {
    var p1, q1 := ParenLayout(st.source, p, e, q);
    StepParen(st);
    MatchAt(st, p, '(');
    ExprEmits(MatchChar(st, '('), p1, e, q1);
    MatchAt(Expression(MatchChar(st, '(')), q1, ')');
  }

  /** `factor`, for each kind of factor. */
  lemma {:induction false} FactorEmits(st: Gen, p: nat, f: Factor, q: nat)
    requires ValidFactor(f) && At(st, p)
    requires Scan(st.source, p, FactorTokens(f)) == Some(q)
    requires f.Var? ==> VarStop(st.source, q)
    ensures At(CodeGenSpec.Factor(st), q) && CodeGenSpec.Factor(st).source == st.source
    ensures CodeGenSpec.Factor(st).out == st.out + Emitted(FactorCode(f))
    decreases f, 1
  {
    match f
    case Num(c) =>
      ScanOne(st.source, p, c);
      DigitFactorAt(st, p);
    case Var(n) =>
      FactorVarEmits(st, p, n, q);
    case Call(n) =>
      FactorCallEmits(st, p, n, q);
    case Paren(e) =>
      FactorParenEmits(st, p, e, q);
  }

  /** The layout of `f op g`: where the operator and the second factor are. */
  lemma MulLayout(s: string, p: nat, t: Term, q: nat) returns (q1: nat, q2: nat)
    requires t.mul.Mul? && p <= |s| && Scan(s, p, TermTokens(t)) == Some(q)
    ensures Scan(s, p, FactorTokens(t.f)) == Some(q1) && q1 < |s| && s[q1] == MulChar(t.mul.op)
    ensures VarStop(s, q1) && q2 == SkipWhite(s, q1 + 1) && Scan(s, q2, FactorTokens(t.mul.g)) == Some(q)
  {
    var c := MulChar(t.mul.op);
    TokensMul(t);
    q1 := ScanSplit(s, p, FactorTokens(t.f), [[c]] + FactorTokens(t.mul.g), q);
    q2 := ScanHead(s, q1, c, FactorTokens(t.mul.g), q);
    OperatorStops(s, q1, c, FactorTokens(t.mul.g));
  }

  /** The operands of a term with a multiplicative operator: the first factor, the push, the second factor. */
  lemma {:induction false} MulOperandsEmit(st: Gen, p: nat, t: Term, q: nat)
    requires ValidTerm(t) && t.mul.Mul? && At(st, p)
    requires Scan(st.source, p, TermTokens(t)) == Some(q)
    requires TermStop(t, st.source, q)
    ensures CodeGenSpec.Factor(st).fault.None? && CodeGenSpec.Factor(st).lookahead == Some(MulChar(t.mul.op))
    ensures At(MulOperands(st, MulChar(t.mul.op)), q) && MulOperands(st, MulChar(t.mul.op)).source == st.source
    ensures MulOperands(st, MulChar(t.mul.op)).out ==
            st.out + Emitted(FactorCode(t.f)) + Emitted(["MOVE D0,-(SP)"]) + Emitted(FactorCode(t.mul.g))
    decreases t, 0
  {
    var c := MulChar(t.mul.op);
    var q1, q2 := MulLayout(st.source, p, t, q);
    FactorEmits(st, p, t.f, q1);
    var s2 := EmitLine(CodeGenSpec.Factor(st), "MOVE D0,-(SP)");
    assert At(s2, q1);
    MatchAt(s2, q1, c);
    FactorEmits(MatchChar(s2, c), q2, t.mul.g, q);
  }

  /** A term `f * g`. */
  lemma {:induction false} TermTimesEmits(st: Gen, p: nat, t: Term, q: nat)
    requires ValidTerm(t) && t.mul.Mul? && t.mul.op == Times && At(st, p)
    requires Scan(st.source, p, TermTokens(t)) == Some(q)
    requires TermStop(t, st.source, q)
    ensures At(CodeGenSpec.Term(st), q) && CodeGenSpec.Term(st).source == st.source
    ensures CodeGenSpec.Term(st).out == st.out + Emitted(TermCode(t))
    decreases t, 1
  {
    MulOperandsEmit(st, p, t, q);
    StepTimes(st);
    CodeTimes(t);
    AppendFour(st.out, Emitted(FactorCode(t.f)), Emitted(["MOVE D0,-(SP)"]), Emitted(FactorCode(t.mul.g)),
           Emitted(["MULS (SP)+,D0"]));
  }

  /** A term `f / g`. */
  lemma {:induction false} TermOverEmits(st: Gen, p: nat, t: Term, q: nat)
    requires ValidTerm(t) && t.mul.Mul? && t.mul.op == Over && At(st, p)
    requires Scan(st.source, p, TermTokens(t)) == Some(q)
    requires TermStop(t, st.source, q)
    ensures At(CodeGenSpec.Term(st), q) && CodeGenSpec.Term(st).source == st.source
    ensures CodeGenSpec.Term(st).out == st.out + Emitted(TermCode(t))
    decreases t, 1
  {
    MulOperandsEmit(st, p, t, q);
    StepOver(st);
    CodeOver(t);
    AppendFive(st.out, Emitted(FactorCode(t.f)), Emitted(["MOVE D0,-(SP)"]), Emitted(FactorCode(t.mul.g)),
           Emitted(["MOVE (SP)+,D1"]), Emitted(["DIVS D1,D0"]));
  }

  /** `term`: a factor alone, or a factor, an operator and a factor. */
  lemma {:induction false} TermEmits(st: Gen, p: nat, t: Term, q: nat)
    requires ValidTerm(t) && At(st, p)
    requires Scan(st.source, p, TermTokens(t)) == Some(q)
    requires TermStop(t, st.source, q)
    ensures At(CodeGenSpec.Term(st), q) && CodeGenSpec.Term(st).source == st.source
    ensures CodeGenSpec.Term(st).out == st.out + Emitted(TermCode(t))
    decreases t, 2
  {
    if t.mul.NoMul? {
      TokensNoMul(t);
      CodeNoMul(t);
      FactorEmits(st, p, t.f, q);
      StepFactorOnly(st);
    } else if t.mul.op == Times {
      TermTimesEmits(st, p, t, q);
    } else {
      TermOverEmits(st, p, t, q);
    }
  }

  /** An additive operator laid out at `q` stops the term before it. */
  lemma TermStopsAtAddop(s: string, q: nat, tl: Tail, q': nat, t: Term)
    requires tl.Then? && q <= |s| && Scan(s, q, TailTokens(tl)) == Some(q')
    ensures TermStop(t, s, q)
  {
    TokensThen(tl);
    var _ := ScanHead(s, q, AddChar(tl.op), TermTokens(tl.t) + TailTokens(tl.next), q');
  }

  /** The layout of `op t rest`: where the term starts and ends. */
  lemma AddLayout(s: string, p: nat, tl: Tail, q: nat) returns (p1: nat, q2: nat)
    requires tl.Then? && p <= |s| && Scan(s, p, TailTokens(tl)) == Some(q)
    requires TermStop(TailLast(tl), s, q)
    ensures p < |s| && s[p] == AddChar(tl.op) && p1 == SkipWhite(s, p + 1)
    ensures Scan(s, p1, TermTokens(tl.t)) == Some(q2) && TermStop(tl.t, s, q2)
    ensures q2 <= |s| && Scan(s, q2, TailTokens(tl.next)) == Some(q)
  {
    TokensThen(tl);
    p1 := ScanHead(s, p, AddChar(tl.op), TermTokens(tl.t) + TailTokens(tl.next), q);
    q2 := ScanSplit(s, p1, TermTokens(tl.t), TailTokens(tl.next), q);
    if tl.next.Then? {
      TermStopsAtAddop(s, q2, tl.next, q, tl.t);
    }
  }

  /** One step of the additive loop up to its right operand: the push, the operator, the term. */
  lemma {:induction false} AddOperandEmits(st: Gen, p: nat, tl: Tail, q: nat) returns (q2: nat)
    requires ValidTail(tl) && tl.Then? && At(st, p)
    requires Scan(st.source, p, TailTokens(tl)) == Some(q)
    requires TermStop(TailLast(tl), st.source, q)
    ensures st.lookahead == Some(AddChar(tl.op))
    ensures At(AddOperand(st, AddChar(tl.op)), q2) && AddOperand(st, AddChar(tl.op)).source == st.source
    ensures AddOperand(st, AddChar(tl.op)).out == st.out + Emitted(["MOVE D0,-(SP)"]) + Emitted(TermCode(tl.t))
    ensures q2 <= |st.source| && Scan(st.source, q2, TailTokens(tl.next)) == Some(q)
    decreases tl, 0
  {
    var c := AddChar(tl.op);
    var p1;
    p1, q2 := AddLayout(st.source, p, tl, q);
    var s1 := EmitLine(st, "MOVE D0,-(SP)");
    assert At(s1, p);
    MatchAt(s1, p, c);
    TermEmits(MatchChar(s1, c), p1, tl.t, q2);
  }

  /** A step `+ t` of the additive loop, then the rest of the loop. */
  lemma {:induction false} TailPlusEmits(st: Gen, p: nat, tl: Tail, q: nat)
    requires ValidTail(tl) && tl.Then? && tl.op == Plus && At(st, p)
    requires Scan(st.source, p, TailTokens(tl)) == Some(q)
    requires q < |st.source| ==> !IsAddop(st.source[q])
    requires TermStop(TailLast(tl), st.source, q)
    ensures At(ExprTail(st), q) && ExprTail(st).source == st.source
    ensures ExprTail(st).out == st.out + Emitted(TailCode(tl))
    decreases tl, 1
  {
    var q2 := AddOperandEmits(st, p, tl, q);
    StepPlus(st);
    CodePlus(tl);
    var s4 := EmitLine(AddOperand(st, '+'), "ADD (SP)+,D0");
    assert At(s4, q2);
    TailEmits(s4, q2, tl.next, q);
    AppendFour(st.out, Emitted(["MOVE D0,-(SP)"]), Emitted(TermCode(tl.t)), Emitted(["ADD (SP)+,D0"]),
           Emitted(TailCode(tl.next)));
  }

  /** A step `- t` of the additive loop, then the rest of the loop. */
  lemma {:induction false} TailMinusEmits(st: Gen, p: nat, tl: Tail, q: nat)
    requires ValidTail(tl) && tl.Then? && tl.op == Minus && At(st, p)
    requires Scan(st.source, p, TailTokens(tl)) == Some(q)
    requires q < |st.source| ==> !IsAddop(st.source[q])
    requires TermStop(TailLast(tl), st.source, q)
    ensures At(ExprTail(st), q) && ExprTail(st).source == st.source
    ensures ExprTail(st).out == st.out + Emitted(TailCode(tl))
    decreases tl, 1
  {
    var q2 := AddOperandEmits(st, p, tl, q);
    StepMinus(st);
    CodeMinus(tl);
    var s4 := EmitLine(EmitLine(AddOperand(st, '-'), "SUB (SP)+,D0"), "NEG D0");
    assert At(s4, q2);
    TailEmits(s4, q2, tl.next, q);
    AppendFive(st.out, Emitted(["MOVE D0,-(SP)"]), Emitted(TermCode(tl.t)), Emitted(["SUB (SP)+,D0"]),
           Emitted(["NEG D0"]), Emitted(TailCode(tl.next)));
  }

  /** The additive loop of `expression`, over all its operators. */
  lemma {:induction false} TailEmits(st: Gen, p: nat, tl: Tail, q: nat)
    requires ValidTail(tl) && At(st, p)
    requires Scan(st.source, p, TailTokens(tl)) == Some(q)
    requires q < |st.source| ==> !IsAddop(st.source[q])
    requires tl.Then? ==> TermStop(TailLast(tl), st.source, q)
    ensures At(ExprTail(st), q) && ExprTail(st).source == st.source
    ensures ExprTail(st).out == st.out + Emitted(TailCode(tl))
    decreases tl, 2
  {
    if tl.End? {
      StepTailEnd(st);
      assert q == p;
    } else if tl.op == Plus {
      TailPlusEmits(st, p, tl, q);
    } else {
      TailMinusEmits(st, p, tl, q);
    }
  }

  /** `expression` with a leading sign: `CLR D0`, then the additive loop. */
  lemma {:induction false} ExprSignEmits(st: Gen, p: nat, e: Expr, q: nat)
    requires ValidExpr(e) && e.lead.Sign? && At(st, p)
    requires Scan(st.source, p, ExprTokens(e)) == Some(q)
    requires ExprStop(e, st.source, q)
    ensures At(Expression(st), q) && Expression(st).source == st.source
    ensures Expression(st).out == st.out + Emitted(ExprCode(e))
    decreases e, 0
  {
    var tl := e.tail;
    TokensSign(e);
    TokensThen(tl);
    var _ := ScanHead(st.source, p, AddChar(tl.op), TermTokens(tl.t) + TailTokens(tl.next), q);
    StepSign(st);
    CodeSign(e);
    var s1 := EmitLine(st, "CLR D0");
    assert At(s1, p);
    TailEmits(s1, p, tl, q);
    AppendTwo(st.out, Emitted(["CLR D0"]), Emitted(TailCode(tl)));
  }

  /** `expression` that starts with a term. */
  lemma {:induction false} ExprFirstEmits(st: Gen, p: nat, e: Expr, q: nat)
    requires ValidExpr(e) && e.lead.First? && At(st, p)
    requires Scan(st.source, p, ExprTokens(e)) == Some(q)
    requires ExprStop(e, st.source, q)
    ensures At(Expression(st), q) && Expression(st).source == st.source
    ensures Expression(st).out == st.out + Emitted(ExprCode(e))
    decreases e, 0
  {
    var s, t := st.source, e.lead.t;
    TokensFirst(e);
    var q1 := ScanSplit(s, p, TermTokens(t), TailTokens(e.tail), q);
    TermStarts(t);
    ScanFirst(s, p, TermTokens(t));
    if e.tail.Then? {
      TermStopsAtAddop(s, q1, e.tail, q, t);
    }
    StepFirst(st);
    CodeFirst(e);
    TermEmits(st, p, t, q1);
    TailEmits(CodeGenSpec.Term(st), q1, e.tail, q);
    AppendTwo(st.out, Emitted(TermCode(t)), Emitted(TailCode(e.tail)));
  }

  /** `expression`, with or without a leading sign. */
  lemma {:induction false} ExprEmits(st: Gen, p: nat, e: Expr, q: nat)
    requires ValidExpr(e) && At(st, p)
    requires Scan(st.source, p, ExprTokens(e)) == Some(q)
    requires ExprStop(e, st.source, q)
    ensures At(Expression(st), q) && Expression(st).source == st.source
    ensures Expression(st).out == st.out + Emitted(ExprCode(e))
    decreases e, 1
  {
    if e.lead.Sign? {
      ExprSignEmits(st, p, e, q);
    } else {
      ExprFirstEmits(st, p, e, q);
    }
  }

  /** The layout of `n = e`: where its `=` is. */
  lemma AssignLayout(s: string, p: nat, a: Assign, q: nat) returns (q1: nat)
    requires p <= |s| && Scan(s, p, AssignTokens(a)) == Some(q)
    ensures WordAt(s, p, a.name) && q1 == SkipWhite(s, p + |a.name|)
    ensures q1 < |s| && s[q1] == '=' && !IsAlphanum(s[q1])
    ensures Scan(s, SkipWhite(s, q1 + 1), ExprTokens(a.e)) == Some(q)
  {
    TokensAssign(a);
    q1 := ScanHeadWord(s, p, a.name, [['=']] + ExprTokens(a.e), q);
    var _ := ScanHead(s, q1, '=', ExprTokens(a.e), q);
  }

  /** The name of an assignment, up to its `=`. */
  lemma AssignNameAt(st: Gen, p: nat, a: Assign, q: nat) returns (q1: nat)
    requires ValidName(a.name) && At(st, p)
    requires Scan(st.source, p, AssignTokens(a)) == Some(q)
    ensures GetName(st).1 == a.name
    ensures At(GetName(st).0, q1) && GetName(st).0.out == st.out && GetName(st).0.source == st.source
    ensures q1 < |st.source| && st.source[q1] == '='
    ensures Scan(st.source, SkipWhite(st.source, q1 + 1), ExprTokens(a.e)) == Some(q)
  {
    q1 := AssignLayout(st.source, p, a, q);
    NameTokenAt(st, p, a.name, q1);
  }

  /** The head of an assignment: the name and `=`. */
  lemma AssignHeadAt(st: Gen, p: nat, a: Assign, q: nat) returns (q2: nat)
    requires ValidName(a.name) && At(st, p)
    requires Scan(st.source, p, AssignTokens(a)) == Some(q)
    ensures GetName(st).1 == a.name
    ensures At(MatchChar(GetName(st).0, '='), q2)
    ensures MatchChar(GetName(st).0, '=').out == st.out && MatchChar(GetName(st).0, '=').source == st.source
    ensures q2 <= |st.source| && Scan(st.source, q2, ExprTokens(a.e)) == Some(q)
  {
    var q1 := AssignNameAt(st, p, a, q);
    MatchAt(GetName(st).0, q1, '=');
    q2 := SkipWhite(st.source, q1 + 1);
  }

  /** `assignment`: leading whitespace, the name, `=`, the expression, then the store of D0 at the name's address. */
  lemma AssignEmits(st: Gen, p: nat, a: Assign, q: nat)
    requires ValidName(a.name) && ValidExpr(a.e) && At(st, p)
    requires Scan(st.source, SkipWhite(st.source, p), AssignTokens(a)) == Some(q)
    requires ExprStop(a.e, st.source, q)
    ensures At(Assignment(st), q) && Assignment(st).source == st.source
    ensures Assignment(st).out == st.out + Emitted(AssignCode(a))
  {
    WhitespaceAt(st, p);
    var s0 := Whitespace(st);
    var q2 := AssignHeadAt(s0, SkipWhite(st.source, p), a, q);
    var s2 := MatchChar(GetName(s0).0, '=');
    ExprEmits(s2, q2, a.e, q);
    StepAssign(st);
    CodeAssign(a);
    assert At(EmitLine(EmitLine(Expression(s2), "LEA " + a.name + "(PC),A0"), "MOVE D0,(A0)"), q);
    AppendThree(st.out, Emitted(ExprCode(a.e)), Emitted(["LEA " + a.name + "(PC),A0"]), Emitted(["MOVE D0,(A0)"]));
  }

  /** The layout of `a ;`: the assignment starts with its name and ends at the `;`. */
  lemma StatementLayout(s: string, p: nat, a: Assign, q: nat) returns (q1: nat)
    requires ValidName(a.name) && ValidExpr(a.e) && p <= |s|
    requires Scan(s, p, AssignTokens(a) + [";"]) == Some(q)
    ensures p < |s| && IsAlpha(s[p]) && SkipWhite(s, p) == p
    ensures Scan(s, p, AssignTokens(a)) == Some(q1) && ExprStop(a.e, s, q1)
    ensures q1 < |s| && s[q1] == ';' && q == SkipWhite(s, q1 + 1)
  {
    q1 := ScanSplit(s, p, AssignTokens(a), [";"], q);
    ScanOne(s, q1, ';');
    assert AssignTokens(a)[0] == a.name;
    ScanFirst(s, p, AssignTokens(a));
    ExprStopsAt(a.e, s, q1);
  }

  /** `statement`: an assignment and its `;`. */
  lemma StatementEmits(st: Gen, p: nat, a: Assign, q: nat)
    requires ValidName(a.name) && ValidExpr(a.e) && At(st, p)
    requires Scan(st.source, p, AssignTokens(a) + [";"]) == Some(q)
    ensures At(Statement(st), q) && Statement(st).source == st.source
    ensures Statement(st).out == st.out + Emitted(AssignCode(a))
    ensures p < |st.source| && IsAlpha(st.source[p])
  {
    var q1 := StatementLayout(st.source, p, a, q);
    AssignEmits(st, p, a, q1);
    MatchAt(Assignment(st), q1, ';');
  }

  /** The statements after the first of a valid program are valid. */
  lemma ValidRest(prog: seq<Assign>)
    requires prog != [] && ValidProgram(prog)
    ensures ValidName(prog[0].name) && ValidExpr(prog[0].e) && ValidProgram(prog[1..])
  {
    assert ValidName(prog[0].name) && ValidExpr(prog[0].e);
    forall i | 0 <= i < |prog| - 1
      ensures ValidName(prog[1..][i].name) && ValidExpr(prog[1..][i].e)
    {
      assert prog[1..][i] == prog[i + 1];
    }
  }

  /** One statement of a block, then the rest of the block's statements. */
  lemma {:induction false} BlockConsEmits(st: Gen, p: nat, prog: seq<Assign>, q: nat)
    requires prog != [] && ValidProgram(prog) && At(st, p)
    requires Scan(st.source, p, StatementsTokens(prog)) == Some(q)
    requires q < |st.source| && st.source[q] == '}'
    ensures At(BlockLoop(st), q) && BlockLoop(st).source == st.source
    ensures BlockLoop(st).out == st.out + Emitted(ProgramCode(prog))
    decreases |prog|, 0
  {
    var a, rest := prog[0], prog[1..];
    TokensStatements(prog);
    var q3 := ScanSplit(st.source, p, AssignTokens(a) + [";"], StatementsTokens(rest), q);
    ValidRest(prog);
    StatementEmits(st, p, a, q3);
    StepBlock(st);
    CodeStatements(prog);
    BlockLoopEmits(Statement(st), q3, rest, q);
    AppendTwo(st.out, Emitted(AssignCode(a)), Emitted(ProgramCode(rest)));
  }

  /** The statements of a block, up to the `}` that closes it. */
  lemma {:induction false} BlockLoopEmits(st: Gen, p: nat, prog: seq<Assign>, q: nat)
    requires ValidProgram(prog) && At(st, p)
    requires Scan(st.source, p, StatementsTokens(prog)) == Some(q)
    requires q < |st.source| && st.source[q] == '}'
    ensures At(BlockLoop(st), q) && BlockLoop(st).source == st.source
    ensures BlockLoop(st).out == st.out + Emitted(ProgramCode(prog))
    decreases |prog|, 1
  {
    if prog != [] {
      BlockConsEmits(st, p, prog, q);
    }
  }

  /** `program`: leading whitespace, `{`, the statements, `}`. */
  lemma ProgramEmits(st: Gen, p: nat, prog: seq<Assign>, q: nat)
    requires ValidProgram(prog) && At(st, p)
    requires Scan(st.source, SkipWhite(st.source, p), ProgramTokens(prog)) == Some(q)
    ensures At(Program(st), q) && Program(st).source == st.source
    ensures Program(st).out == st.out + Emitted(ProgramCode(prog))
  {
    var s := st.source;
    var p0 := SkipWhite(s, p);
    var body := StatementsTokens(prog);
    WhitespaceAt(st, p);
    assert ProgramTokens(prog) == [['{']] + (body + [['}']]);
    var p1 := ScanHead(s, p0, '{', body + [['}']], q);
    var q1 := ScanSplit(s, p1, body, [['}']], q);
    ScanOne(s, q1, '}');
    var s0 := Whitespace(st);
    MatchAt(s0, p0, '{');
    BlockLoopEmits(MatchChar(s0, '{'), p1, prog, q1);
    MatchAt(BlockLoop(MatchChar(s0, '{')), q1, '}');
  }

  /**
   * Compiling an expression that is the whole input: the generator emits
   * exactly the reference translation, whatever spaces and tabs follow each
   * token. (An input that ends with a variable name is excluded: see
   * `TrailingNamePanics`.)
   */
  lemma ExpressionCompiles(input: string, e: Expr)
    requires ValidExpr(e) && Scan(input, 0, ExprTokens(e)) == Some(|input|)
    requires !EndsWithVar(LastTerm(e))
    ensures Expression(Start(input)).fault.None?
    ensures Expression(Start(input)).out == Emitted(ExprCode(e))
  {
    assert 0 < |input| by {
      if e.lead.First? {
        TermStarts(e.lead.t);
        assert ExprTokens(e)[0] == TermTokens(e.lead.t)[0];
      } else {
        assert ExprTokens(e)[0] == [AddChar(e.tail.op)];
      }
      ScanFirst(input, 0, ExprTokens(e));
    }
    StartAt(input);
    ExprEmits(Start(input), 0, e, |input|);
  }

  /** Compiling a whole program `{ a; b; ... }`, with any leading and interior whitespace. */
  lemma ProgramCompiles(input: string, prog: seq<Assign>)
    requires ValidProgram(prog) && Scan(input, SkipWhite(input, 0), ProgramTokens(prog)) == Some(|input|)
    ensures Program(Start(input)).fault.None?
    ensures Program(Start(input)).out == Emitted(ProgramCode(prog))
  {
    assert 0 < |input| by {
      ScanFirst(input, SkipWhite(input, 0), ProgramTokens(prog));
    }
    StartAt(input);
    ProgramEmits(Start(input), 0, prog, |input|);
  }

  /** The layout is irrelevant: two inputs holding the same tokens compile to the same text. */
  lemma LayoutIrrelevant(s1: string, s2: string, e: Expr)
    requires ValidExpr(e) && !EndsWithVar(LastTerm(e))
    requires Scan(s1, 0, ExprTokens(e)) == Some(|s1|) && Scan(s2, 0, ExprTokens(e)) == Some(|s2|)
    ensures Expression(Start(s1)).out == Expression(Start(s2)).out
  {
    ExpressionCompiles(s1, e);
    ExpressionCompiles(s2, e);
  }
}
