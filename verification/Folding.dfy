/**
 * Constant folding in src/semantic.c, which computes on uint32_t, against the run-time meaning.
 */
module Folding {
  import opened Words
  import opened Source

  /** Trapped: the fold divides by zero, which C leaves undefined. */
  datatype Folded = Known(v: Word) | NotConstant | Trapped

  function FoldOp(op: BinOp, a: Word, b: Word): Folded
  {
    var x, y := Unsigned(a), Unsigned(b);
    match op
    case Ne => Known(Bool(x != y))
    case Eq => Known(Bool(x == y))
    case Gt => Known(Bool(x > y))
    case Lt => Known(Bool(x < y))
    case Ge => Known(Bool(x >= y))
    case Le => Known(Bool(x <= y))
    case Add => Known(Wrap(x + y))
    case Sub => Known(Wrap(x - y))
    case Mul => Known(Wrap(x * y))
    case Div => if y == 0 then Trapped else Known(Wrap(x / y))
    case Mod => if y == 0 then Trapped else Known(Wrap(x % y))
  }

  /** Exp, UnaryExp and PrimaryExp of a constant initialiser. Both sides of `||` and `&&` are folded, and a
      call counts as 1. */
  function Fold(e: Exp): Folded
  {
    match e
    case Num(n) => Known(n)
    case LVal(Constant(n)) => Known(n)
    case LVal(Variable(_)) => NotConstant
    case Call(_, args) => FoldArgs(args)
    case Plus(e0) => Fold(e0)
    case Neg(e0) =>
      var r := Fold(e0);
      if r.Known? then Known(Wrap(0 - Unsigned(r.v))) else r
    case Not(e0) =>
      var r := Fold(e0);
      if r.Known? then Known(Bool(Unsigned(r.v) == 0)) else r
    case Binary(op, l, r) =>
      var a := Fold(l);
      if !a.Known? then a else
      var b := Fold(r);
      if !b.Known? then b else FoldOp(op, a.v, b.v)
    case Logic(op, l, r) =>
      var a := Fold(l);
      if !a.Known? then a else
      var b := Fold(r);
      if !b.Known? then b
      else Known(Bool(if op.Lor? then Unsigned(a.v) != 0 || Unsigned(b.v) != 0
                      else Unsigned(a.v) != 0 && Unsigned(b.v) != 0))
  }

  function FoldArgs(es: Exps): Folded
  {
    if es.NoExps? then Known(1)
    else
      var r := Fold(es.head);
      if r.Known? then FoldArgs(es.tail) else r
  }

  // ----- when an operator folds to what it computes at run time -----

  predicate SameSign(a: Word, b: Word) { (a < 0) == (b < 0) }

  /** The quotients agree. */
  predicate DivAgrees(a: Word, b: Word)
  {
    || (a >= 0 && b > 0)
    || (a >= 0 && b < 0 && a + b < 0)
    || (a < 0 && b == 1)
    || (a < 0 && a == b)
  }

  /** The remainders agree. */
  predicate ModAgrees(a: Word, b: Word)
    requires b != 0
  {
    || (a >= 0 && b > 0)
    || (a >= 0 && b < 0 && a + b < 0)
    || (a < 0 && b > 0 && a % b == 0 && TWO_32 % b == 0)
    || (a < 0 && a == b)
  }

  predicate OpAgrees(op: BinOp, a: Word, b: Word)
    requires op.Div? || op.Mod? ==> b != 0
  {
    match op
    case Gt => SameSign(a, b)
    case Lt => SameSign(a, b)
    case Ge => SameSign(a, b)
    case Le => SameSign(a, b)
    case Div => DivAgrees(a, b)
    case Mod => ModAgrees(a, b)
    case _ => true
  }

  /** Congruent integers wrap to the same word. */
  lemma WrapSame(x: int, y: int, k: int)
    requires x == y + k * TWO_32
    ensures Wrap(x) == Wrap(y)
  {
    assert x % TWO_32 == y % TWO_32;
  }

  lemma MulAgrees(a: Word, b: Word)
    ensures Wrap(Unsigned(a) * Unsigned(b)) == Wrap(a * b)
  {
    var m, n := if a < 0 then 1 else 0, if b < 0 then 1 else 0;
    assert Unsigned(a) == a + m * TWO_32 && Unsigned(b) == b + n * TWO_32;
    var k := a * n + m * b + m * n * TWO_32;
    assert (a + m * TWO_32) * (b + n * TWO_32) == a * b + k * TWO_32;
    WrapSame(Unsigned(a) * Unsigned(b), a * b, k);
  }

  /** A quotient and remainder determine each other. */
  lemma Quotient(x: nat, y: nat, q: nat)
    requires y > 0 && q * y <= x < (q + 1) * y
    ensures x / y == q && x % y == x - q * y
  {
    var p := x / y;
    assert x == p * y + x % y;
    if p < q { MulLe(p + 1, q, y); }
    if p > q { MulLe(q + 1, p, y); }
  }

  lemma MulLe(p: nat, q: nat, y: nat)
    requires p <= q
    ensures p * y <= q * y
  {
  }

  /** Both operands negative: the unsigned quotient is 1 or 0. */
  lemma BothNegative(a: Word, b: Word)
    requires a < 0 && b < 0
    ensures Unsigned(a) / Unsigned(b) == (if a >= b then 1 else 0)
    ensures Unsigned(a) % Unsigned(b) == (if a >= b then a - b else Unsigned(a))
  {
    Quotient(Unsigned(a), Unsigned(b), if a >= b then 1 else 0);
  }

  /** A non-negative dividend and a negative divisor: the unsigned quotient is 0. */
  lemma NegativeDivisor(a: Word, b: Word)
    requires a >= 0 && b < 0
    ensures Unsigned(a) / Unsigned(b) == 0 && Unsigned(a) % Unsigned(b) == a
  {
    Quotient(Unsigned(a), Unsigned(b), 0);
  }

  /** The magnitude of a signed quotient is 0 exactly when the divisor is larger. */
  lemma SmallQuotient(x: nat, y: nat)
    requires y > 0
    ensures x / y == 0 <==> x < y
    ensures x < y ==> x % y == x
    ensures x == y ==> x / y == 1 && x % y == 0
  {
    DivisionLaw(x, y);
    if x < y { Quotient(x, y, 0); }
    if x == y { Quotient(x, y, 1); }
  }

  lemma DivisionLaw(x: nat, y: nat)
    requires y > 0
    ensures x == x / y * y + x % y && 0 <= x % y < y && x / y >= 0
  {
  }

  lemma QuotientBounds(x: nat, y: nat)
    requires y > 0
    ensures x / y <= x && (y >= 2 ==> 2 * (x / y) <= x)
    ensures y == 1 ==> x / y == x && x % y == 0
  {
    DivisionLaw(x, y);
    MulLe(1, y, x / y);
    if y >= 2 { MulLe(2, y, x / y); }
    if y == 1 { Quotient(x, 1, x); }
  }

  function Magnitude(a: Word): nat { if a < 0 then 0 - a else a }

  lemma TruncMeans(a: Word, b: Word)
    requires b != 0
    ensures TruncDiv(a, b) == (var q := Magnitude(a) / Magnitude(b); if (a < 0) == (b < 0) then q else 0 - q)
  {
  }

  lemma RemMeans(a: Word, b: Word)
    requires b != 0
    ensures Words.Rem(a, b) == (var r := Magnitude(a) % Magnitude(b); if a < 0 then 0 - r else r)
    ensures Magnitude(a) % Magnitude(b) < 0x8000_0000
  {
    var x, y := Magnitude(a), Magnitude(b);
    TruncMeans(a, b);
    DivisionLaw(x, y);
    var q: nat, r: nat := x / y, x % y;
    RemIs(a, b, TruncDiv(a, b), q, r);
    RemWraps(a, b, TruncDiv(a, b), if a < 0 then 0 - r else r);
  }

  lemma RemWraps(a: Word, b: Word, t: int, v: int)
    requires b != 0 && t == TruncDiv(a, b) && a - t * b == v && -0x8000_0000 <= v < 0x8000_0000
    ensures Words.Rem(a, b) == v
  {
    hide TruncDiv;
  }

  lemma RemIs(a: Word, b: Word, t: int, q: nat, r: nat)
    requires t == (if (a < 0) == (b < 0) then q else 0 - q)
    requires Magnitude(a) == q * Magnitude(b) + r
    ensures a - t * b == (if a < 0 then 0 - r else r)
  {
  }

  /** The signed quotient as a word, from the magnitudes. */
  function SignedQuotient(q: nat, same: bool): Word { Wrap(if same then q else 0 - q) }

  /** When a small unsigned quotient is the signed one. */
  lemma WrapsTo(q: nat, same: bool, u: nat)
    requires q <= 0x8000_0000 && u < 0x8000_0000
    ensures Wrap(u) == SignedQuotient(q, same) <==> u == (if same then q else 0 - q)
  {
  }

  lemma DivAgreesExactly(a: Word, b: Word)
    requires b != 0
    ensures Wrap(Unsigned(a) / Unsigned(b)) == Words.Div(a, b) <==> DivAgrees(a, b)
  {
    TruncMeans(a, b);
    DivisionLaw(Magnitude(a), Magnitude(b));
    DivisionLaw(Unsigned(a), Unsigned(b));
    var q: nat, u: nat := Magnitude(a) / Magnitude(b), Unsigned(a) / Unsigned(b);
    assert Words.Div(a, b) == SignedQuotient(q, SameSign(a, b)) by {
      hide Wrap, TruncDiv, Magnitude, Unsigned;
    }
    hide Words.Div, Wrap, SignedQuotient, DivAgrees;
    QuotientsCompare(a, b, q, u);
  }

  /** The unsigned quotient u against the magnitude q of the signed one. */
  lemma QuotientsCompare(a: Word, b: Word, q: nat, u: nat)
    requires b != 0 && q == Magnitude(a) / Magnitude(b) && u == Unsigned(a) / Unsigned(b)
    ensures Wrap(u) == SignedQuotient(q, SameSign(a, b)) <==> DivAgrees(a, b)
  {
    hide SignedQuotient, Wrap;
    SmallQuotient(Magnitude(a), Magnitude(b));
    QuotientBounds(Magnitude(a), Magnitude(b));
    if b < 0 {
      if a < 0 { BothNegative(a, b); } else { NegativeDivisor(a, b); }
      WrapsTo(q, SameSign(a, b), u);
    } else if a >= 0 {
      WrapsTo(q, true, u);
    } else {
      QuotientBounds(Unsigned(a), b);
      SmallQuotient(Unsigned(a), b);
      if b == 1 { WholeQuotient(a, u, q); } else { WrapsTo(q, false, u); }
    }
  }

  lemma WholeQuotient(a: Word, u: nat, q: nat)
    requires a < 0 && u == a + TWO_32 && q == 0 - a
    ensures Wrap(u) == SignedQuotient(q, false)
  {
    WrapSame(u, a, 1);
  }

  /** With a negative dividend and a positive divisor both remainders must be 0. */
  lemma NegativeRemainder(a: Word, b: Word)
    requires a < 0 && b > 0
    ensures Wrap(Unsigned(a) % b) == Words.Rem(a, b) <==> a % b == 0 && TWO_32 % b == 0
  {
    RemMeans(a, b);
    hide Words.Rem;
    DivisionLaw(Unsigned(a), b);
    DivisionLaw(Magnitude(a), b);
    SumRemainder(a, Unsigned(a), b);
    NegRemainder(Magnitude(a), b);
  }

  /** a is divisible exactly when its magnitude is. */
  lemma NegRemainder(x: nat, b: nat)
    requires b > 0
    ensures (0 - x) % b == 0 <==> x % b == 0
  {
    var q := x / b;
    assert x == q * b + x % b;
    if x % b == 0 {
      Multiple(0 - x, 0 - q, b);
    }
    var p := (0 - x) / b;
    assert 0 - x == p * b + (0 - x) % b;
    if (0 - x) % b == 0 {
      Multiple(x, 0 - p, b);
    }
  }

  lemma Multiple(x: int, q: int, b: nat)
    requires b > 0 && x == q * b
    ensures x % b == 0
  {
    var p := x / b;
    assert x == p * b + x % b;
    assert (q - p) * b == x % b;
    if q - p > 0 { MulLe(1, q - p, b); }
    if q - p < 0 { MulLe(1, p - q, b); }
  }

  /** u = a + 2^32: of the two and the modulus, any two divisible make the third divisible. */
  lemma SumRemainder(a: int, u: int, b: nat)
    requires b > 0 && u == a + TWO_32
    ensures a % b == 0 ==> (u % b == 0 <==> TWO_32 % b == 0)
  {
    if a % b == 0 {
      var p := a / b;
      assert a == p * b;
      if u % b == 0 {
        var q := u / b;
        assert u == q * b;
        assert TWO_32 == (q - p) * b;
        Multiple(TWO_32, q - p, b);
      }
      if TWO_32 % b == 0 {
        var q := TWO_32 / b;
        assert TWO_32 == q * b;
        assert u == (q + p) * b;
        Multiple(u, q + p, b);
      }
    }
  }

  lemma ModAgreesExactly(a: Word, b: Word)
    requires b != 0
    ensures Wrap(Unsigned(a) % Unsigned(b)) == Words.Rem(a, b) <==> ModAgrees(a, b)
  {
    hide Words.Rem;
    RemMeans(a, b);
    SmallQuotient(Magnitude(a), Magnitude(b));
    if b < 0 {
      if a < 0 { BothNegative(a, b); } else { NegativeDivisor(a, b); }
    } else if a < 0 {
      NegativeRemainder(a, b);
    }
  }

  /** An operator folds to what it computes at run time exactly when its operands are these: always for
      `+ - * == !=`, with equal signs for comparisons; for `/` and `%` whenever both are non-negative, and
      otherwise only where the unsigned and the signed quotient or remainder happen to be the same. */
  lemma OpFoldsExactly(op: BinOp, a: Word, b: Word)
    requires op.Div? || op.Mod? ==> b != 0
    ensures FoldOp(op, a, b) == Known(Apply(op, a, b)) <==> OpAgrees(op, a, b)
  {
    match op
    case Add => WrapSame(Unsigned(a) + Unsigned(b), a + b, (if a < 0 then 1 else 0) + (if b < 0 then 1 else 0));
    case Sub => WrapSame(Unsigned(a) - Unsigned(b), a - b, (if a < 0 then 1 else 0) - (if b < 0 then 1 else 0));
    case Mul => MulAgrees(a, b);
    case Div => DivAgreesExactly(a, b);
    case Mod => ModAgreesExactly(a, b);
    case _ =>
  }

  // ----- whole expressions -----

  /** No calls and no variables. */
  predicate ConstantExp(e: Exp)
  {
    match e
    case Num(_) => true
    case LVal(sym) => sym.Constant?
    case Call(_, _) => false
    case Plus(e0) => ConstantExp(e0)
    case Neg(e0) => ConstantExp(e0)
    case Not(e0) => ConstantExp(e0)
    case Binary(_, l, r) => ConstantExp(l) && ConstantExp(r)
    case Logic(_, l, r) => ConstantExp(l) && ConstantExp(r)
  }

  /** The value of a constant expression at run time. */
  function RunValue(e: Exp): Word
    requires ConstantExp(e)
  {
    match e
    case Num(n) => n
    case LVal(sym) => sym.value
    case Plus(e0) => RunValue(e0)
    case Neg(e0) => Apply(Sub, 0, RunValue(e0))
    case Not(e0) => Bool(RunValue(e0) == 0)
    case Binary(op, l, r) => Apply(op, RunValue(l), RunValue(r))
    case Logic(op, l, r) =>
      Bool(if op.Lor? then RunValue(l) != 0 || RunValue(r) != 0 else RunValue(l) != 0 && RunValue(r) != 0)
  }

  /** It evaluates to that in any state and without touching it. */
  lemma {:induction false} RunsTo(o: Oracle, e: Exp, s: Store)
    requires ConstantExp(e)
    ensures EvalExp(o, e, s) == EvalResult.Value(RunValue(e), s)
  {
    hide Apply;
    match e
    case Num(_) =>
    case LVal(_) =>
    case Plus(e0) => RunsTo(o, e0, s);
    case Neg(e0) => RunsTo(o, e0, s);
    case Not(e0) => RunsTo(o, e0, s);
    case Binary(op, l, r) =>
      RunsTo(o, l, s);
      RunsTo(o, r, s);
    case Logic(_, l, r) =>
      RunsTo(o, l, s);
      RunsTo(o, r, s);
  }

  /** A division or remainder by what folds to 0, wherever it stands. */
  predicate FoldsByZero(e: Exp)
  {
    match e
    case Call(_, args) => ArgsFoldByZero(args)
    case Plus(e0) => FoldsByZero(e0)
    case Neg(e0) => FoldsByZero(e0)
    case Not(e0) => FoldsByZero(e0)
    case Binary(op, l, r) => FoldsByZero(l) || FoldsByZero(r) || ((op.Div? || op.Mod?) && Fold(r) == Known(0))
    case Logic(_, l, r) => FoldsByZero(l) || FoldsByZero(r)
    case _ => false
  }

  predicate ArgsFoldByZero(es: Exps) { es.Exps? && (FoldsByZero(es.head) || ArgsFoldByZero(es.tail)) }

  /** A fold never gives up on a constant expression, and divides by zero if and only if there is such a divisor:
      the sides that the logical operators need not evaluate are folded too. */
  lemma {:induction false} FoldStops(e: Exp)
    requires ConstantExp(e)
    ensures Fold(e) != NotConstant
    ensures Fold(e) == Trapped <==> FoldsByZero(e)
  {
    hide Wrap, Unsigned;
    match e
    case Num(_) =>
    case LVal(_) =>
    case Plus(e0) => FoldStops(e0);
    case Neg(e0) => FoldStops(e0);
    case Not(e0) => FoldStops(e0);
    case Binary(op, l, r) =>
      FoldStops(l);
      FoldStops(r);
      if Fold(r).Known? { ZeroUnsigned(Fold(r).v); }
    case Logic(_, l, r) =>
      FoldStops(l);
      FoldStops(r);
  }

  lemma ZeroUnsigned(a: Word)
    ensures Unsigned(a) == 0 <==> a == 0
  {
  }

  /** Every divisor is non-zero at run time, and the operands of comparisons, divisions and remainders are those on
      which the unsigned operator is the signed one. */
  predicate OperandsAgree(e: Exp)
    requires ConstantExp(e)
  {
    match e
    case Plus(e0) => OperandsAgree(e0)
    case Neg(e0) => OperandsAgree(e0)
    case Not(e0) => OperandsAgree(e0)
    case Binary(op, l, r) =>
      && OperandsAgree(l) && OperandsAgree(r)
      && (op.Div? || op.Mod? ==> RunValue(r) != 0)
      && OpAgrees(op, RunValue(l), RunValue(r))
    case Logic(_, l, r) => OperandsAgree(l) && OperandsAgree(r)
    case _ => true
  }

  /** A constant expression with such operands folds, and to the value it has at run time. */
  lemma {:induction false} FoldIsRunTime(o: Oracle, e: Exp, s: Store)
    requires ConstantExp(e) && OperandsAgree(e)
    ensures Fold(e).Known? && EvalExp(o, e, s) == EvalResult.Value(Fold(e).v, s)
  {
    RunsTo(o, e, s);
    FoldsToRun(e);
  }

  lemma {:induction false} FoldsToRun(e: Exp)
    requires ConstantExp(e) && OperandsAgree(e)
    ensures Fold(e) == Known(RunValue(e))
  {
    hide Wrap, Unsigned;
    match e
    case Num(_) =>
    case LVal(_) =>
    case Plus(e0) => FoldsToRun(e0);
    case Neg(e0) =>
      FoldsToRun(e0);
      NegFolds(RunValue(e0));
    case Not(e0) =>
      FoldsToRun(e0);
      ZeroUnsigned(RunValue(e0));
    case Binary(op, l, r) =>
      FoldsToRun(l);
      FoldsToRun(r);
      OpFoldsExactly(op, RunValue(l), RunValue(r));
    case Logic(_, l, r) =>
      FoldsToRun(l);
      FoldsToRun(r);
      ZeroUnsigned(RunValue(l));
      ZeroUnsigned(RunValue(r));
  }

  lemma NegFolds(a: Word)
    ensures Wrap(0 - Unsigned(a)) == Apply(Sub, 0, a)
  {
    WrapSame(0 - Unsigned(a), 0 - a, if a < 0 then -1 else 0);
  }

  // ----- what is not constant -----

  predicate CallFree(e: Exp)
  {
    match e
    case Call(_, _) => false
    case Plus(e0) => CallFree(e0)
    case Neg(e0) => CallFree(e0)
    case Not(e0) => CallFree(e0)
    case Binary(_, l, r) => CallFree(l) && CallFree(r)
    case Logic(_, l, r) => CallFree(l) && CallFree(r)
    case _ => true
  }

  /** Without calls only constant expressions fold: a variable anywhere stops it. */
  lemma {:induction false} OnlyConstantsFold(e: Exp)
    requires CallFree(e)
    ensures Fold(e).Known? <==> ConstantExp(e) && !FoldsByZero(e)
  {
    hide Wrap, Unsigned;
    if ConstantExp(e) { FoldStops(e); }
    match e
    case Plus(e0) => OnlyConstantsFold(e0);
    case Neg(e0) => OnlyConstantsFold(e0);
    case Not(e0) => OnlyConstantsFold(e0);
    case Binary(_, l, r) =>
      OnlyConstantsFold(l);
      OnlyConstantsFold(r);
    case Logic(_, l, r) =>
      OnlyConstantsFold(l);
      OnlyConstantsFold(r);
    case _ =>
  }

  predicate AllFold(es: Exps) { es.Exps? ==> Fold(es.head).Known? && AllFold(es.tail) }

  /** A call folds exactly when all its arguments do, and then to 1. */
  lemma {:induction false} CallsFold(f: Callee, args: Exps)
    ensures Fold(Exp.Call(f, args)).Known? <==> AllFold(args)
    ensures AllFold(args) ==> Fold(Exp.Call(f, args)) == Known(1)
  {
    if args.Exps? {
      CallsFold(f, args.tail);
    }
  }

  /** So it may fold to another value than it returns. */
  lemma CallsFoldWrong(o: Oracle, f: Callee, s: Store)
    requires o(s.w, f, []) == Returns(s.w, 0)
    ensures var e := Exp.Call(f, NoExps); Fold(e) == Known(1) && EvalExp(o, e, s) == EvalResult.Value(0, s)
  {
    assert EvalArgs(o, NoExps, s) == Values([], s);
  }

  /** The sign-free operators. */
  predicate SignFree(e: Exp)
  {
    match e
    case Plus(e0) => SignFree(e0)
    case Neg(e0) => SignFree(e0)
    case Not(e0) => SignFree(e0)
    case Binary(op, l, r) =>
      (op.Add? || op.Sub? || op.Mul? || op.Eq? || op.Ne?) && SignFree(l) && SignFree(r)
    case Logic(_, l, r) => SignFree(l) && SignFree(r)
    case _ => true
  }

  lemma {:induction false} SignFreeAgrees(e: Exp)
    requires ConstantExp(e) && SignFree(e)
    ensures OperandsAgree(e)
  {
    match e
    case Plus(e0) => SignFreeAgrees(e0);
    case Neg(e0) => SignFreeAgrees(e0);
    case Not(e0) => SignFreeAgrees(e0);
    case Binary(_, l, r) =>
      SignFreeAgrees(l);
      SignFreeAgrees(r);
    case Logic(_, l, r) =>
      SignFreeAgrees(l);
      SignFreeAgrees(r);
    case _ =>
  }

  /** With `+ - * == != ! && ||` alone folding never fails and is always right. */
  lemma SignFreeFolds(o: Oracle, e: Exp, s: Store)
    requires ConstantExp(e) && SignFree(e)
    ensures Fold(e).Known? && EvalExp(o, e, s) == EvalResult.Value(Fold(e).v, s)
  {
    SignFreeAgrees(e);
    FoldIsRunTime(o, e, s);
  }

  /** -1 < 0 folds to 0 and runs to 1. */
  lemma ComparisonsFoldWrong(o: Oracle, s: Store)
    ensures var e := Exp.Binary(Lt, Neg(Num(1)), Num(0));
            Fold(e) == Known(0) && EvalExp(o, e, s) == EvalResult.Value(1, s)
  {
    assert Fold(Neg(Num(1))) == Known(-1);
    assert EvalExp(o, Neg(Num(1)), s) == EvalResult.Value(-1, s);
  }
}
