/**
 * Code generation as the program does it: counters and tables updated in place while lines are printed.
 * Each step prints what the functions of module Codegen say.
 */
module Generator {
  import opened Words
  import opened Source
  import opened Koopa
  import opened Riscv
  import opened Codegen
  import opened CodegenCounts
  import opened Yield
  import opened Lists

  /** What `oper` is given: how an instruction uses its operands. */
  datatype Opcode = LOAD | ALU(op: AluOp)

  /** A printed instruction from its destination and the operands in the order they were deferred. */
  function MakeLine(code: Opcode, d: Reg, xs: seq<Deferred>): Line
  {
    match code
    case LOAD => if |xs| == 1 && xs[0].AtPlace? then Lw(d, xs[0].off, xs[0].base) else Unmodelled
    case ALU(op) => if |xs| == 2 && xs[0].InReg? && xs[1].InReg? then Alu(op, d, xs[0].r, xs[1].r) else Unmodelled
  }

  /** The entries of one block. */
  function OutsOf(outs: map<(nat, nat), nat>, bb: nat): map<nat, nat>
  {
    map id: nat | id in (set k | k in outs && k.1 == bb :: k.0) && (id, bb) in outs :: outs[(id, bb)]
  }

  lemma OutsOfHas(outs: map<(nat, nat), nat>, bb: nat, id: nat)
    ensures (id, bb) in outs <==> id in OutsOf(outs, bb)
    ensures (id, bb) in outs ==> OutsOf(outs, bb)[id] == outs[(id, bb)]
  {
    if (id, bb) in outs {
      assert (id, bb).0 in (set k | k in outs && k.1 == bb :: k.0);
    }
  }

  lemma OutsOfMore(outs: map<(nat, nat), nat>, bb: nat, id: nat, index: nat)
    ensures OutsOf(outs[(id, bb) := index], bb) == OutsOf(outs, bb)[id := index]
  {
    hide OutsOf;
    var more, one := OutsOf(outs[(id, bb) := index], bb), OutsOf(outs, bb)[id := index];
    forall x: nat ensures (x in more <==> x in one) && (x in more ==> more[x] == one[x]) {
      OutsOfHas(outs, bb, x);
      OutsOfHas(outs[(id, bb) := index], bb, x);
    }
    assert more.Keys == one.Keys;
  }

  lemma OutsOfNew(outs: map<(nat, nat), nat>, bb: nat)
    requires forall k :: k in outs ==> k.1 < bb
    ensures OutsOf(outs, bb) == map[]
  {
  }

  class Generator {
    var lines: seq<Line>                    // m_output
    var stacks: Stacks                      // m_ht_stacks, as far as this function goes
    var outs: map<(nat, nat), nat>          // m_ht_outs, by value and block index
    var f: nat
    var valCount: nat
    var argCount: nat
    var varCount: nat
    var parSpill: nat
    var bbIdx: nat
    var regIdx: nat
    var outIdx: nat
    const queue: YieldQueue

    ghost function Context(): Fn
      reads this
    {
      Fn(f, valCount, argCount, varCount)
    }

    ghost function Abs(): Em
      reads this
    {
      Em(stacks, regIdx, outIdx, OutsOf(outs, bbIdx))
    }

    ghost predicate Valid()
      reads this, queue, queue.slots
    {
      queue.Valid() && queue.Contents() == [] && queue.end == 0
    }

    constructor ()
      ensures Valid() && lines == [] && fresh(queue) && fresh(queue.slots)
    {
      lines, stacks, outs := [], map[], map[];
      f, valCount, argCount, varCount, parSpill, bbIdx, regIdx, outIdx := 0, 0, 0, 0, 0, 0, 0, 0;
      queue := new YieldQueue();
    }

    method Print(l: Line)
      modifies this`lines
      ensures lines == old(lines) + [l]
    {
      lines := lines + [l];
    }

    // ----- operands -----

    /** raw_value and opnd for a value: the operand is fetched now and printed later */
    method Operand(op: Koopa.Operand)
      requires queue.Valid() && queue.end < YIELD_MAX && queue.begin == 0
      modifies this`lines, this`regIdx, queue`end, queue.slots
      ensures queue.Valid() && queue.begin == 0 && queue.end == old(queue.end) + 1
      ensures var o := Fetch(Context(), old(Abs()), old(queue.end), op);
              lines == old(lines) + o.lines && Abs() == o.em
                && queue.Contents() == old(queue.Contents()) + [InReg(o.reg)]
    {
      hide OutsOf;
      var limit := R_MAX - Min(argCount, A_MAX);
      var spare := T(T_MAX + queue.end);
      match op
      case Imm(n) =>
        if n == 0 {
          queue.Yield(InReg(Zero));
        } else {
          var r := if regIdx < T_MAX then T(regIdx) else if regIdx < limit then A(regIdx - T_MAX + argCount) else spare;
          Print(Li(r, n));
          regIdx := regIdx + 1;
          queue.Yield(InReg(r));
        }
      case Res(id) =>
        OutsOfHas(outs, bbIdx, id);
        if (id, bbIdx) !in outs {
          Print(Unmodelled);
          queue.Yield(InReg(Zero));
        } else {
          var index := outs[(id, bbIdx)];
          if index < T_MAX {
            queue.Yield(InReg(T(index)));
          } else if index < limit {
            queue.Yield(InReg(A(index - T_MAX + argCount)));
          } else {
            Print(Lw(spare, SpillOffset(index), Sp));
            queue.Yield(InReg(spare));
          }
        }
      case ArgRef(_) =>
        Print(Unmodelled);
        queue.Yield(InReg(Zero));
    }

    /** m_out_sp, reg_sp and variant_sp */
    function SpillOffset(index: nat): int
      reads this
    {
      (index - R_MAX + varCount + Min(valCount, R_MAX) + (Max(argCount, A_MAX) - A_MAX)) * 4
    }

    /** raw_value and opnd for an address */
    method Place(slot: Slot)
      requires queue.Valid() && queue.end < YIELD_MAX && queue.begin == 0
      modifies this`lines, this`regIdx, queue`end, queue.slots
      ensures queue.Valid() && queue.begin == 0 && queue.end == old(queue.end) + 1
      ensures var p := Locate(Context(), old(Abs()), old(queue.end), slot);
              lines == old(lines) + p.lines && Abs() == p.em
                && queue.Contents() == old(queue.Contents()) + [AtPlace(p.off, p.base)]
    {
      hide OutsOf;
      if slot in stacks {
        queue.Yield(AtPlace(stacks[slot], Sp));
        return;
      }
      match slot
      case Of(Global(g)) =>
        var limit := R_MAX - Min(argCount, A_MAX);
        var spare := T(T_MAX + queue.end);
        var r := if regIdx < T_MAX then T(regIdx) else if regIdx < limit then A(regIdx - T_MAX + argCount) else spare;
        regIdx := regIdx + 1;
        Print(La(r, g));
        queue.Yield(AtPlace(0, r));
      case _ =>
        Print(Unmodelled);
        queue.Yield(AtPlace(0, Sp));
    }

    /** Prints the next deferred value operand */
    method NextReg() returns (r: Reg)
      requires queue.Valid() && queue.Contents() != [] && queue.Contents()[0].InReg?
      modifies queue`begin, queue`end
      ensures queue.Valid() && InReg(r) == old(queue.Contents())[0] && queue.Contents() == old(queue.Contents())[1..]
      ensures queue.Contents() == [] <==> queue.end == 0
    {
      var x := queue.Next();
      r := x.r;
    }

    // ----- results -----

    /** Where `oper` puts a result: its register, or t5 on the way to the frame. */
    method Destination() returns (r: Reg)
      ensures r == Dest(Context(), Abs())
    {
      if outIdx < T_MAX {
        r := T(outIdx);
      } else if outIdx < R_MAX - Min(argCount, A_MAX) {
        r := A(outIdx - T_MAX + argCount);
      } else {
        r := T(T_MAX);
      }
    }

    /** A line that writes the destination, and its spill */
    method PrintResult(l: Line)
      modifies this`lines
      ensures lines == old(lines) + Codegen.Result(Context(), Abs(), l)
    {
      Print(l);
      if outIdx >= R_MAX - Min(argCount, A_MAX) {
        Print(Sw(T(T_MAX), SpillOffset(outIdx), Sp));
      }
    }

    /** oper(op, false): prints the deferred operands in order */
    method Oper(code: Opcode)
      requires queue.Valid() && queue.begin == 0
      modifies this`lines, queue`begin, queue`end
      ensures queue.Valid() && queue.Contents() == [] && queue.end == 0 && queue.begin == 0
      ensures lines == old(lines) + Codegen.Result(Context(), Abs(),
                                                   MakeLine(code, Dest(Context(), Abs()), old(queue.Contents())))
    {
      hide OutsOf;
      var xs: seq<Deferred> := [];
      while queue.end != 0
        invariant queue.Valid() && xs + queue.Contents() == old(queue.Contents()) && lines == old(lines)
        invariant unchanged(queue.slots)
        decreases queue.end - queue.begin
      {
        var x := queue.Next();
        xs := xs + [x];
      }
      var d := Destination();
      PrintResult(MakeLine(code, d, xs));
    }

    /** oper(op, true): rewrites the result in place */
    method Again(l: Line)
      modifies this`lines
      ensures lines == old(lines) + Codegen.Result(Context(), Abs(), l)
    {
      PrintResult(l);
    }

    // ----- instructions -----

    method Load(src: Slot)
      requires Valid()
      modifies this`lines, this`regIdx, queue, queue.slots
      ensures Valid()
      ensures var p := Locate(Context(), old(Abs()), 0, src);
              && lines == old(lines) + (p.lines + Codegen.Result(Context(), old(Abs()),
                                                                 Lw(Dest(Context(), old(Abs())), p.off, p.base)))
              && Abs() == p.em
    {
      hide OutsOf, Locate, Dest, Codegen.Result;
      Place(src);
      LocateOut(Context(), old(Abs()), 0, src);
      Oper(LOAD);
    }

    /** The frame in words, as function_prologue adds it up */
    function FrameWords(): nat
      reads this
    {
      4 + (Max(valCount, R_MAX) - R_MAX) + varCount + Min(valCount, R_MAX) + (Max(argCount, A_MAX) - A_MAX)
    }

    method Binary(op: BinOp, l: Koopa.Operand, r: Koopa.Operand)
      requires Valid()
      modifies this`lines, this`regIdx, queue, queue.slots
      ensures Valid()
      ensures var o := Fetch(Context(), old(Abs()), 0, l);
              var p := Fetch(Context(), o.em, 1, r);
              && lines == old(lines) + (o.lines + p.lines + BinaryLines(Context(), old(Abs()), op, o.reg, p.reg))
              && Abs() == p.em
    {
      hide OutsOf, Fetch, Codegen.Result, Dest;
      ghost var fn, em := Context(), Abs();
      Operand(l);
      Operand(r);
      ghost var o := Fetch(fn, em, 0, l);
      ghost var p := Fetch(fn, o.em, 1, r);
      FetchOut(fn, em, 0, l);
      FetchOut(fn, o.em, 1, r);
      ResultOut(fn, em, p.em);
      ghost var was := lines;
      var d := Destination();
      match op {
        case Ne => Oper(ALU(XOR)); Again(Snez(d, d));
        case Eq => Oper(ALU(XOR)); Again(Seqz(d, d));
        case Gt => Oper(ALU(SGT));
        case Lt => Oper(ALU(SLT));
        case Ge => Oper(ALU(SLT)); Again(Seqz(d, d));
        case Le => Oper(ALU(SGT)); Again(Seqz(d, d));
        case Add => Oper(ALU(ADD));
        case Sub => Oper(ALU(SUB));
        case Mul => Oper(ALU(MUL));
        case Div => Oper(ALU(DIV));
        case Mod => Oper(ALU(REM));
      }
      assert lines == was + BinaryLines(fn, em, op, o.reg, p.reg);
      Group4(old(lines), o.lines, p.lines, BinaryLines(fn, em, op, o.reg, p.reg));
    }

    /** raw_kind_store of a parameter: it goes to its local, or stays where the caller put it */
    method StoreArg(index: nat, dest: Slot)
      requires Valid()
      modifies this`lines, this`stacks
      ensures Valid() && (lines, Abs()) == AfterLines(old(lines),
                                                      InstLines(Context(), old(Abs()), Inst.Store(ArgRef(index), dest)))
    {
      hide OutsOf;
      Group3(lines, [], []);
      if index < A_MAX {
        Print(Sw(A(index), 4 * ((Max(argCount, A_MAX) - A_MAX) + Min(valCount, R_MAX) + index), Sp));
      } else {
        stacks := stacks[dest := 4 * (index - A_MAX) + (4 * FrameWords() + 15) / 16 * 16];
      }
    }

    method Store(value: Koopa.Operand, dest: Slot)
      requires Valid() && !value.ArgRef?
      modifies this`lines, this`regIdx, queue, queue.slots
      ensures Valid() && (lines, Abs()) == AfterLines(old(lines),
                                                      InstLines(Context(), old(Abs()), Inst.Store(value, dest)))
    {
      hide OutsOf, Locate, Fetch;
      ghost var o := Fetch(Context(), Abs(), 0, value);
      Operand(value);
      ghost var p := Locate(Context(), Abs(), 1, dest);
      Place(dest);
      assert queue.Contents() == [InReg(o.reg), AtPlace(p.off, p.base)];
      var x := queue.Next();
      var y := queue.Next();
      Print(Sw(x.r, y.off, y.base));
      Group4(old(lines), o.lines, p.lines, [Sw(o.reg, p.off, p.base)]);
    }

    method Branch(cond: Koopa.Operand, t: nat, e: nat)
      requires Valid()
      modifies this`lines, this`regIdx, queue, queue.slots
      ensures Valid() && (lines, Abs()) == AfterLines(old(lines),
                                                      InstLines(Context(), old(Abs()), Inst.Branch(cond, t, e)))
    {
      hide OutsOf, Fetch;
      ghost var o := Fetch(Context(), Abs(), 0, cond);
      Operand(cond);
      var r := NextReg();
      Print(Bnez(r, BlockLabel(f, t)));
      Print(J(BlockLabel(f, e)));
      Nest4(old(lines), o.lines, [Bnez(o.reg, BlockLabel(f, t))], [J(BlockLabel(f, e))]);
      assert [Bnez(o.reg, BlockLabel(f, t))] + [J(BlockLabel(f, e))]
          == [Bnez(o.reg, BlockLabel(f, t)), J(BlockLabel(f, e))];
    }

    method Return(ret: Option<Koopa.Operand>)
      requires Valid()
      modifies this`lines, this`regIdx, queue, queue.slots
      ensures Valid() && (lines, Abs()) == AfterLines(old(lines), InstLines(Context(), old(Abs()), Inst.Return(ret)))
    {
      hide OutsOf, Fetch;
      var size := (4 * FrameWords() + 15) / 16 * 16;
      if ret.Some? {
        ghost var o := Fetch(Context(), Abs(), 0, ret.value);
        Operand(ret.value);
        var r := NextReg();
        Print(Mv(A(0), r));
        Group4(old(lines), o.lines, [Mv(A(0), o.reg)], Epilogue(Context()));
      }
      ghost var before := lines;
      Print(Lw(Ra, size - 4, Sp));
      Print(AddSp(size));
      Print(Ret);
      assert lines == before + Epilogue(Context());
    }

    /** raw_kind_call: save, pass, call, fetch the result, restore */
    method Call(callee: Callee, args: seq<Koopa.Operand>)
      requires Valid()
      modifies this`lines, this`regIdx, queue, queue.slots
      ensures Valid() && (lines, Abs()) == AfterLines(old(lines), CallLines(Context(), old(Abs()), callee, args))
    {
      hide OutsOf, ArgLines, Codegen.Result, Dest, SaveLines, RestoreLines, CallLines;
      ghost var fn, em := Context(), Abs();
      var n := Min(outIdx, R_MAX);
      CallPrinted(lines, fn, em, callee, args);
      JustCall(callee, args);
      if !callee.isVoid {
        ghost var em1, called := Abs(), lines;
        var d := Destination();
        PrintResult(Mv(d, A(0)));
        assert lines == called + Codegen.Result(fn, em, Mv(Dest(fn, em), A(0))) by {
          ArgsOut(fn, em, args);
          ResultOut(fn, em, em1);
        }
        RestoreRegs(n);
      }
    }

    /** Up to the call itself */
    method JustCall(callee: Callee, args: seq<Koopa.Operand>)
      requires Valid()
      modifies this`lines, this`regIdx, queue, queue.slots
      ensures Valid() && Abs() == ArgLines(Context(), old(Abs()), args).1
      ensures lines == old(lines) + SaveLines(Context(), Min(outIdx, R_MAX)) + ArgLines(Context(), old(Abs()), args).0
                       + [CallTo(callee.f)]
    {
      hide OutsOf, ArgLines, SaveLines;
      SaveRegs(Min(outIdx, R_MAX));
      PassArgs(args);
      Print(CallTo(callee.f));
    }

    method SaveRegs(n: nat)
      modifies this`lines
      ensures lines == old(lines) + SaveLines(Context(), n)
    {
      var spilled := Max(argCount, A_MAX) - A_MAX;
      var i := 0;
      Group3(lines, [], []);
      while i < n
        invariant 0 <= i <= n && lines == old(lines) + SaveLines(Context(), i)
      {
        Print(Sw(if i < T_MAX then T(i) else A(i - T_MAX), (i + spilled) * 4, Sp));
        i := i + 1;
      }
    }

    method RestoreRegs(n: nat)
      modifies this`lines
      ensures lines == old(lines) + RestoreLines(Context(), n)
    {
      var spilled := Max(argCount, A_MAX) - A_MAX;
      var i := 0;
      Group3(lines, [], []);
      while i < n
        invariant 0 <= i <= n && lines == old(lines) + RestoreLines(Context(), i)
      {
        Print(Lw(if i < T_MAX then T(i) else A(i - T_MAX), (i + spilled) * 4, Sp));
        i := i + 1;
      }
    }

    /** The arguments, first to last, each fetched just before it is moved */
    method PassArgs(args: seq<Koopa.Operand>)
      requires Valid()
      modifies this`lines, this`regIdx, queue, queue.slots
      ensures Valid() && (lines, Abs()) == AfterLines(old(lines), ArgLines(Context(), old(Abs()), args))
    {
      hide OutsOf, Fetch;
      ghost var fn, em := Context(), Abs();
      var i := 0;
      assert args[..0] == [];
      Group3(lines, [], []);
      while i < |args|
        invariant 0 <= i <= |args| && Valid()
        invariant (lines, Abs()) == AfterLines(old(lines), ArgLines(fn, em, args[..i]))
        invariant unchanged(this`f, this`valCount, this`argCount, this`varCount, this`outIdx)
      {
        ghost var o := Fetch(fn, Abs(), 0, args[i]);
        ghost var ls := ArgLines(fn, em, args[..i]).0;
        Operand(args[i]);
        var r := NextReg();
        Print(if i < A_MAX then Mv(A(i), r) else Sw(r, (i - A_MAX) * 4, Sp));
        Group4(old(lines), ls, o.lines, [if i < A_MAX then Mv(A(i), o.reg) else Sw(o.reg, (i - A_MAX) * 4, Sp)]);
        i := i + 1;
        assert args[..i][..i - 1] == args[..i - 1] && args[..i][i - 1] == args[i - 1];
      }
      assert args[..i] == args;
    }

    /** One round of raw_slice: the instruction, its entry in m_ht_outs, and the step of the counters */
    method Instruction(i: Inst)
      requires Valid() && Recent()
      modifies this, queue, queue.slots
      ensures Valid() && Recent() && (lines, Abs()) == AfterLines(old(lines), InstLines(Context(), old(Abs()), i))
      ensures unchanged(this`f, this`valCount, this`argCount, this`varCount, this`bbIdx)
    {
      hide OutsOf, Fetch, Locate, Codegen.Result, Dest, BinaryLines, CallLines;
      Group3(lines, [], []);
      match i
      case Alloc(_) =>
      case Load(id, src) =>
        Load(src);
        Record(id);
        Step();
      case Store(value, dest) =>
        if value.ArgRef? { StoreArg(value.index, dest); } else { Store(value, dest); }
      case Binary(id, op, l, r) =>
        Binary(op, l, r);
        Record(id);
        Step();
      case Call(id, callee, args) =>
        Call(callee, args);
        Record(id);
        if !callee.isVoid { Step(); }
      case Branch(cond, t, e) => Branch(cond, t, e);
      case Jump(t) => Print(J(BlockLabel(f, t)));
      case Return(ret) => Return(ret);
    }

    /** Entries are of blocks met so far. */
    ghost predicate Recent()
      reads this
    {
      forall k :: k in outs ==> k.1 <= bbIdx
    }

    method Record(id: nat)
      requires Recent()
      modifies this`outs
      ensures Recent() && Abs() == old(Abs()).(outs := old(Abs()).outs[id := outIdx])
    {
      OutsOfMore(outs, bbIdx, id, outIdx);
      outs := outs[(id, bbIdx) := outIdx];
    }

    method Step()
      modifies this`outIdx, this`regIdx
      ensures Abs() == old(Abs()).(reg := old(outIdx) + 1, out := old(outIdx) + 1)
    {
      outIdx := outIdx + 1;
      regIdx := outIdx;
    }

    // ----- blocks and functions -----

    /** raw_basic_block */
    method Block(b: nat, insts: seq<Inst>)
      requires Valid() && Recent() && Abs() == Fresh(stacks)
      modifies this, queue, queue.slots
      ensures Valid() && Recent() && Abs() == Fresh(stacks)
      ensures unchanged(this`f, this`valCount, this`argCount, this`varCount)
      ensures var r := InstsLines(Context(), Fresh(old(stacks)), insts);
              lines == old(lines) + ([Mark(BlockLabel(f, b))] + r.0) && stacks == r.1.stacks
    {
      hide OutsOf, InstLines;
      Print(Mark(BlockLabel(f, b)));
      ghost var fn, em, start := Context(), Abs(), lines;
      var i := 0;
      assert insts[0..] == insts;
      while i < |insts|
        invariant 0 <= i <= |insts| && Valid() && Recent()
        invariant unchanged(this`f, this`valCount, this`argCount, this`varCount, this`bbIdx)
        invariant AfterLines(start, InstsLines(fn, em, insts)) == AfterLines(lines, InstsLines(fn, Abs(), insts[i..]))
      {
        ghost var now, before := Abs(), lines;
        Instruction(insts[i]);
        ghost var rest := InstsLines(fn, Abs(), insts[i + 1..]);
        assert insts[i..][1..] == insts[i + 1..];
        Group3(before, InstLines(fn, now, insts[i]).0, rest.0);
        i := i + 1;
      }
      Group3(old(lines), [Mark(BlockLabel(f, b))], InstsLines(fn, em, insts).0);
      OutsOfNew(outs, bbIdx + 1);
      bbIdx := bbIdx + 1;
      regIdx := 0;
      outIdx := 0;
    }

    // ----- counting -----

    /** count_vals for one block */
    method ValsOf(insts: seq<Inst>) returns (n: nat)
      ensures n == CountVals(insts)
    {
      n := 0;
      var j := 0;
      while j < |insts|
        invariant 0 <= j <= |insts| && n == CountVals(insts[..j])
      {
        if IntTyped(insts[j]) { n := n + 1; }
        j := j + 1;
        assert insts[..j][..j - 1] == insts[..j - 1];
      }
      assert insts[..j] == insts;
    }

    /** count_args for one block */
    method ArgsOf(insts: seq<Inst>) returns (n: nat)
      ensures n == CountArgs(insts)
    {
      n := 0;
      var j := 0;
      while j < |insts|
        invariant 0 <= j <= |insts| && n == CountArgs(insts[..j])
      {
        if insts[j].Call? { n := n + |insts[j].args|; }
        j := j + 1;
        assert insts[..j][..j - 1] == insts[..j - 1];
      }
      assert insts[..j] == insts;
    }

    /** The largest counts over the blocks */
    method CountMost(g: Graph, bbs: seq<nat>)
      modifies this`valCount, this`argCount
      ensures valCount == MaxOver(CountVals, g, bbs) && argCount == MaxOver(CountArgs, g, bbs)
      ensures forall b :: b in bbs ==>
                CountVals(BlockAt(g, b)) <= valCount && CountArgs(BlockAt(g, b)) <= argCount
      ensures bbs != [] ==> exists b :: b in bbs && CountVals(BlockAt(g, b)) == valCount
      ensures bbs != [] ==> exists b :: b in bbs && CountArgs(BlockAt(g, b)) == argCount
      ensures bbs == [] ==> valCount == argCount == 0
    {
      valCount, argCount := 0, 0;
      var i := 0;
      while i < |bbs|
        invariant 0 <= i <= |bbs|
        invariant valCount == MaxOver(CountVals, g, bbs[..i]) && argCount == MaxOver(CountArgs, g, bbs[..i])
      {
        var vals := ValsOf(BlockAt(g, bbs[i]));
        var args := ArgsOf(BlockAt(g, bbs[i]));
        valCount := Max(vals, valCount);
        argCount := Max(args, argCount);
        i := i + 1;
        assert bbs[..i][..i - 1] == bbs[..i - 1];
      }
      assert bbs[..i] == bbs;
      MaxOverIsLargest(CountVals, g, bbs);
      MaxOverIsLargest(CountArgs, g, bbs);
    }

    ghost function Counted(): Vars
      reads this
    {
      Vars(varCount, parSpill, stacks)
    }

    /** One instruction of count_vars: an alloc gets the next local, unless it is that of a parameter passed on the
        stack */
    method CountInst(params: nat, i: Inst)
      modifies this`varCount, this`parSpill, this`stacks
      ensures Counted() == CountVar(Fn(f, valCount, argCount, 0), params, i, old(Counted()))
    {
      if i.Alloc? {
        if varCount + parSpill < params && varCount + parSpill >= A_MAX {
          parSpill := parSpill + 1;
        } else {
          stacks := stacks[i.slot := 4 * (Min(valCount, R_MAX) + (Max(argCount, A_MAX) - A_MAX) + varCount)];
          varCount := varCount + 1;
        }
      }
    }

    /** count_vars: every instruction of every block, in order */
    method CountVarsOf(fn: Func)
      requires Counted() == Vars(0, 0, map[])
      modifies this`varCount, this`parSpill, this`stacks
      ensures Counted() == CountVars(Fn(f, valCount, argCount, 0), fn.params, AllInsts(fn.blocks, fn.bbs))
    {
      hide CountVar;
      ghost var c := Fn(f, valCount, argCount, 0);
      var i := 0;
      while i < |fn.bbs|
        invariant 0 <= i <= |fn.bbs|
        invariant Counted() == CountVars(c, fn.params, AllInsts(fn.blocks, fn.bbs[..i]))
      {
        var insts := BlockAt(fn.blocks, fn.bbs[i]);
        ghost var before := AllInsts(fn.blocks, fn.bbs[..i]);
        var j := 0;
        assert before + insts[..0] == before;
        while j < |insts|
          invariant 0 <= j <= |insts| && Counted() == CountVars(c, fn.params, before + insts[..j])
        {
          CountInst(fn.params, insts[j]);
          CountOne(c, fn.params, before, insts, j);
          j := j + 1;
        }
        assert insts[..j] == insts;
        i := i + 1;
        assert fn.bbs[..i][..i - 1] == fn.bbs[..i - 1];
      }
      assert fn.bbs[..i] == fn.bbs;
    }

    // ----- functions -----

    /** raw_function: a fresh context, the prologue, and the blocks in order */
    method Function(name: nat, fn: Func)
      requires Valid() && fn.bbs != []
      modifies this, queue, queue.slots
      ensures Valid() && lines == old(lines) + FuncLines(name, fn)
    {
      hide OutsOf, AllInsts, CountVars, MaxOver, BlocksLines, FnOf, VarsOf, Codegen.Prologue;
      Enter(name, fn);
      Blocks(fn.blocks, fn.bbs);
      ghost var c := FnOf(name, fn);
      Group3(old(lines), [Mark(FuncLabel(name))] + Codegen.Prologue(c),
             BlocksLines(c, VarsOf(name, fn).stacks, fn.blocks, fn.bbs).0);
    }

    /** The context of a function, counted afresh */
    method Count(name: nat, fn: Func)
      modifies this
      ensures lines == old(lines) && Recent() && Abs() == Fresh(stacks)
      ensures Context() == FnOf(name, fn) && stacks == VarsOf(name, fn).stacks
    {
      hide OutsOf, AllInsts, CountVars, MaxOver;
      f, varCount, parSpill, bbIdx, regIdx, outIdx := name, 0, 0, 0, 0, 0;
      stacks, outs := map[], map[];
      OutsOfNew(outs, 0);
      CountMost(fn.blocks, fn.bbs);
      CountVarsOf(fn);
    }

    /** The label, the counts, and the lines of function_prologue */
    method Enter(name: nat, fn: Func)
      requires Valid()
      modifies this, queue
      ensures Valid() && Recent() && Abs() == Fresh(stacks)
      ensures Context() == FnOf(name, fn) && stacks == VarsOf(name, fn).stacks
      ensures lines == old(lines) + ([Mark(FuncLabel(name))] + Codegen.Prologue(Context()))
    {
      hide OutsOf, FnOf, VarsOf;
      Print(Mark(FuncLabel(name)));
      Count(name, fn);
      var size := (4 * FrameWords() + 15) / 16 * 16;
      Print(AddSp(0 - size));
      Print(Sw(Ra, size - 4, Sp));
    }

    /** raw_slice over the blocks */
    method Blocks(g: Graph, bbs: seq<nat>)
      requires Valid() && Recent() && Abs() == Fresh(stacks)
      modifies this, queue, queue.slots
      ensures Valid() && lines == old(lines) + BlocksLines(Context(), old(stacks), g, bbs).0
      ensures unchanged(this`f, this`valCount, this`argCount, this`varCount)
    {
      hide OutsOf, InstsLines;
      ghost var c, start := Context(), stacks;
      var i := 0;
      assert bbs[0..] == bbs;
      while i < |bbs|
        invariant 0 <= i <= |bbs| && Valid() && Recent() && Abs() == Fresh(stacks)
        invariant unchanged(this`f, this`valCount, this`argCount, this`varCount)
        invariant old(lines) + BlocksLines(c, start, g, bbs).0 == lines + BlocksLines(c, stacks, g, bbs[i..]).0
      {
        ghost var now, before := stacks, lines;
        Block(bbs[i], BlockAt(g, bbs[i]));
        assert bbs[i..][1..] == bbs[i + 1..];
        Group3(before, BlockLines(c, now, g, bbs[i]).0, BlocksLines(c, stacks, g, bbs[i + 1..]).0);
        i := i + 1;
      }
      Group3(lines, [], []);
    }

    /** The functions of a program, in order */
    method Program(fs: seq<(nat, Func)>)
      requires Valid() && forall i :: 0 <= i < |fs| ==> fs[i].1.bbs != []
      modifies this, queue, queue.slots
      ensures Valid() && lines == old(lines) + ProgramLines(fs)
    {
      hide FuncLines;
      var i := 0;
      assert fs[0..] == fs;
      while i < |fs|
        invariant 0 <= i <= |fs| && Valid()
        invariant old(lines) + ProgramLines(fs) == lines + ProgramLines(fs[i..])
      {
        ghost var before := lines;
        Function(fs[i].0, fs[i].1);
        assert fs[i..][1..] == fs[i + 1..];
        Group3(before, FuncLines(fs[i].0, fs[i].1), ProgramLines(fs[i + 1..]));
        i := i + 1;
      }
      Group3(lines, [], []);
    }
  }

  lemma CountOne(c: Fn, params: nat, before: seq<Inst>, insts: seq<Inst>, j: nat)
    requires j < |insts|
    ensures CountVars(c, params, before + insts[..j + 1]) ==
            CountVar(c, params, insts[j], CountVars(c, params, before + insts[..j]))
  {
    var more := before + insts[..j + 1];
    assert more[..|more| - 1] == before + insts[..j] && more[|more| - 1] == insts[j];
  }

  /** The lines of a call, one part after another. */
  lemma CallPrinted(ls: seq<Line>, fn: Fn, em: Em, callee: Callee, args: seq<Koopa.Operand>)
    ensures var n, passed := Min(em.out, R_MAX), ArgLines(fn, em, args);
            var called := ls + SaveLines(fn, n) + passed.0 + [CallTo(callee.f)];
            AfterLines(ls, CallLines(fn, em, callee, args)) ==
            (if callee.isVoid then called
             else called + Codegen.Result(fn, em, Mv(Dest(fn, em), A(0))) + RestoreLines(fn, n), passed.1)
  {
    hide SaveLines, RestoreLines, ArgLines, Codegen.Result;
    var n, passed := Min(em.out, R_MAX), ArgLines(fn, em, args);
    Group4(ls, SaveLines(fn, n), passed.0, [CallTo(callee.f)]);
    Group4(ls, SaveLines(fn, n) + passed.0 + [CallTo(callee.f)], Codegen.Result(fn, em, Mv(Dest(fn, em), A(0))),
           RestoreLines(fn, n));
  }

  lemma {:induction false} ArgsOut(fn: Fn, em: Em, args: seq<Koopa.Operand>)
    ensures ArgLines(fn, em, args).1.out == em.out
  {
    if args != [] {
      ArgsOut(fn, em, args[..|args| - 1]);
      FetchOut(fn, ArgLines(fn, em, args[..|args| - 1]).1, 0, args[|args| - 1]);
    }
  }

  function AfterLines(ls: seq<Line>, r: (seq<Line>, Em)): (seq<Line>, Em) { (ls + r.0, r.1) }

  lemma FetchOut(fn: Fn, em: Em, k: nat, op: Koopa.Operand)
    ensures Fetch(fn, em, k, op).em.out == em.out
  {
  }

  lemma LocateOut(fn: Fn, em: Em, k: nat, slot: Slot)
    ensures Locate(fn, em, k, slot).em.out == em.out
    ensures forall l :: Codegen.Result(fn, Locate(fn, em, k, slot).em, l) == Codegen.Result(fn, em, l)
    ensures Dest(fn, Locate(fn, em, k, slot).em) == Dest(fn, em)
  {
  }

  /** Only the index decides where a result goes. */
  lemma ResultOut(fn: Fn, em: Em, em1: Em)
    requires em.out == em1.out
    ensures Dest(fn, em) == Dest(fn, em1) && forall l :: Codegen.Result(fn, em, l) == Codegen.Result(fn, em1, l)
  {
  }
}
