/**
 * Koopa IR as src/ir.c builds it: basic blocks of instructions over single-assignment values, and
 * memory slots made by `alloc`. Unique ids stand for the values' and blocks' pointers and names.
 */
module Koopa {
  import opened Words
  import opened Source

  /** A memory slot: a source variable, or the unnamed result of a logical operator. */
  datatype Slot = Of(v: Var) | Temp(id: nat)

  datatype Operand = Imm(n: Word) | Res(id: nat) | ArgRef(index: nat)

  datatype Inst =
    | Alloc(slot: Slot)
    | Load(id: nat, src: Slot)
    | Store(value: Operand, dest: Slot)
    | Binary(id: nat, op: BinOp, l: Operand, r: Operand)
    | Call(id: nat, f: Callee, args: seq<Operand>)
    | Branch(cond: Operand, ifTrue: nat, ifFalse: nat)
    | Jump(target: nat)
    | Return(ret: Option<Operand>)

  predicate Terminator(i: Inst) { i.Branch? || i.Jump? || i.Return? }

  predicate Terminated(insts: seq<Inst>)
  {
    insts != [] && Terminator(insts[|insts| - 1])
  }

  predicate AllocOf(i: Inst, s: Slot) { i == Alloc(s) }

  predicate Allocates(insts: seq<Inst>, s: Slot) { exists i :: 0 <= i < |insts| && AllocOf(insts[i], s) }

  /** A function: the order of its blocks (the entry first) and the instructions of each. */
  datatype Func = Func(isVoid: bool, params: nat, bbs: seq<nat>, blocks: seq<seq<Inst>>)

  // ----- meaning -----

  /** The context of one activation: the meaning of calls and the arguments. */
  datatype Ctx = Ctx(o: Oracle, args: seq<Word>)

  type Temps = map<nat, Word>

  /** About to execute instruction pc of block `at`, or halted. */
  datatype Config =
    | At(at: nat, pc: nat, regs: map<nat, Word>, temps: Temps, s: Source.Store)
    | Halted(result: Result)
    | Spinning

  function Value(k: Ctx, op: Operand, regs: map<nat, Word>): Option<Word>
  {
    match op
    case Imm(n) => Some(n)
    case Res(id) => if id in regs then Some(regs[id]) else None
    case ArgRef(i) => if i < |k.args| then Some(k.args[i]) else None
  }

  function Values(k: Ctx, ops: seq<Operand>, regs: map<nat, Word>): Option<seq<Word>>
  {
    if ops == [] then Some([]) else
    var init := Values(k, ops[..|ops| - 1], regs);
    var last := Value(k, ops[|ops| - 1], regs);
    if init.Some? && last.Some? then Some(init.value + [last.value]) else None
  }

  function SlotValue(s: Source.Store, temps: Temps, slot: Slot): Option<Word>
  {
    match slot
    case Of(v) => Read(s, v)
    case Temp(t) => if t in temps then Some(temps[t]) else None
  }

  function ReadSlot(c: Config, slot: Slot): Option<Word>
    requires c.At?
  {
    SlotValue(c.s, c.temps, slot)
  }

  function WriteSlot(c: Config, slot: Slot, n: Word): (d: Config)
    requires c.At?
    ensures d.At? && d.at == c.at && d.pc == c.pc && d.regs == c.regs
  {
    match slot
    case Of(v) => c.(s := Write(c.s, v, n))
    case Temp(t) => c.(temps := c.temps[t := n])
  }

  /** An alloc makes its slot indeterminate. */
  function ClearSlot(c: Config, slot: Slot): (d: Config)
    requires c.At?
    ensures d.At? && d.at == c.at && d.pc == c.pc && d.regs == c.regs
  {
    match slot
    case Of(Local(x)) => c.(s := c.s.(locals := c.s.locals - {x}))
    case Of(Global(_)) => c
    case Temp(t) => c.(temps := c.temps - {t})
  }

  /** Executes one instruction and moves on. A call that never returns spins. */
  function Execute(k: Ctx, i: Inst, c: Config): Config
    requires c.At?
  {
    var n := c.(pc := c.pc + 1);
    match i
    case Alloc(slot) => ClearSlot(n, slot)
    case Load(id, src) =>
      (match ReadSlot(c, src)
       case Some(v) => n.(regs := c.regs[id := v])
       case None => Halted(Stuck))
    case Store(op, dest) =>
      (match Value(k, op, c.regs)
       case Some(v) => WriteSlot(n, dest, v)
       case None => Halted(Stuck))
    case Binary(id, op, l, r) =>
      var a, b := Value(k, l, c.regs), Value(k, r, c.regs);
      if a.Some? && b.Some? then n.(regs := c.regs[id := Apply(op, a.value, b.value)]) else Halted(Stuck)
    case Call(id, f, args) =>
      (match Values(k, args, c.regs)
       case Some(vs) =>
         (match k.o(c.s.w, f, vs)
          case Returns(w, v) => n.(regs := c.regs[id := v], s := c.s.(w := w))
          case Fails => Halted(Stuck)
          case Hangs => Spinning)
       case None => Halted(Stuck))
    case Branch(cond, t, f) =>
      (match Value(k, cond, c.regs)
       case Some(v) => c.(at := if v != 0 then t else f, pc := 0)
       case None => Halted(Stuck))
    case Jump(t) => c.(at := t, pc := 0)
    case Return(None) => Halted(Done(None, c.s.w))
    case Return(Some(op)) =>
      (match Value(k, op, c.regs)
       case Some(v) => Halted(Done(Some(v), c.s.w))
       case None => Halted(Stuck))
  }

  /** The instructions of every block, by block id. */
  type Graph = seq<seq<Inst>>

  function Step(g: Graph, k: Ctx, c: Config): Config
  {
    if !c.At? then c
    else if c.at >= |g| then Halted(Stuck)
    else if c.pc >= |g[c.at]| then Halted(FellOff)
    else Execute(k, g[c.at][c.pc], c)
  }

  function Steps(g: Graph, k: Ctx, c: Config, n: nat): Config
    decreases n
  {
    if n == 0 then c else Steps(g, k, Step(g, k, c), n - 1)
  }

  ghost predicate Reaches(g: Graph, k: Ctx, c: Config, d: Config)
  {
    exists n: nat :: Steps(g, k, c, n) == d
  }

  /** The run is still going after n steps. */
  predicate Lasts(g: Graph, k: Ctx, c: Config, n: nat)
  {
    !Steps(g, k, c, n).Halted?
  }

  lemma {:induction false} StepsCompose(g: Graph, k: Ctx, c: Config, m: nat, n: nat)
    ensures Steps(g, k, c, m + n) == Steps(g, k, Steps(g, k, c, m), n)
    decreases m
  {
    if m > 0 {
      StepsCompose(g, k, Step(g, k, c), m - 1, n);
    }
  }

  lemma {:induction false} HaltedStays(g: Graph, k: Ctx, c: Config, n: nat)
    requires c.Halted? || c.Spinning?
    ensures Steps(g, k, c, n) == c
  {
    if n > 0 {
      HaltedStays(g, k, c, n - 1);
    }
  }

  lemma StepReaches(g: Graph, k: Ctx, c: Config)
    ensures Reaches(g, k, c, Step(g, k, c))
  {
    assert Steps(g, k, c, 1) == Steps(g, k, Step(g, k, c), 0);
  }

  lemma Stays(g: Graph, k: Ctx, c: Config)
    ensures Reaches(g, k, c, c)
  {
    assert Steps(g, k, c, 0) == c;
  }

  lemma Then(g: Graph, k: Ctx, c: Config, d: Config, e: Config)
    requires Reaches(g, k, c, d) && Reaches(g, k, d, e)
    ensures Reaches(g, k, c, e)
  {
    var m: nat :| Steps(g, k, c, m) == d;
    var n: nat :| Steps(g, k, d, n) == e;
    StepsCompose(g, k, c, m, n);
  }

  lemma LastsLess(g: Graph, k: Ctx, c: Config, m: nat, n: nat)
    requires Lasts(g, k, c, n) && m <= n
    ensures Lasts(g, k, c, m)
  {
    StepsCompose(g, k, c, m, n - m);
    if Steps(g, k, c, m).Halted? {
      HaltedStays(g, k, Steps(g, k, c, m), n - m);
    }
  }

  /** A run that reaches a lasting one lasts. */
  lemma ThenLasts(g: Graph, k: Ctx, c: Config, d: Config, n: nat)
    requires Reaches(g, k, c, d) && Lasts(g, k, d, n)
    ensures Lasts(g, k, c, n)
  {
    var m: nat :| Steps(g, k, c, m) == d;
    StepsCompose(g, k, c, m, n);
    LastsLess(g, k, c, n, m + n);
  }

  lemma SpinningLasts(g: Graph, k: Ctx, c: Config, n: nat)
    requires Reaches(g, k, c, Spinning)
    ensures Lasts(g, k, c, n)
  {
    HaltedStays(g, k, Spinning, n);
    ThenLasts(g, k, c, Spinning, n);
  }

  /** A run that never halts. */
  ghost predicate NeverHalts(g: Graph, k: Ctx, c: Config) { forall n: nat :: Lasts(g, k, c, n) }

  lemma NeverHaltsOn(g: Graph, k: Ctx, c: Config, d: Config)
    requires NeverHalts(g, k, c) && Reaches(g, k, c, d)
    ensures NeverHalts(g, k, d) && !d.Halted?
  {
    var i: nat :| Steps(g, k, c, i) == d;
    forall n: nat ensures Lasts(g, k, d, n) {
      StepsCompose(g, k, c, i, n);
      assert Lasts(g, k, c, i + n);
    }
    assert Lasts(g, k, c, i);
  }

  /** A run has at most one result. */
  lemma OneResult(g: Graph, k: Ctx, c: Config, r: Result, q: Result)
    requires Reaches(g, k, c, Halted(r)) && Reaches(g, k, c, Halted(q))
    ensures r == q
  {
    var m: nat :| Steps(g, k, c, m) == Halted(r);
    var n: nat :| Steps(g, k, c, n) == Halted(q);
    StepsCompose(g, k, c, m, n);
    StepsCompose(g, k, c, n, m);
    HaltedStays(g, k, Halted(r), n);
    HaltedStays(g, k, Halted(q), m);
  }

  function Initial(fn: Func, w: World): Config
    requires fn.bbs != []
  {
    At(fn.bbs[0], 0, map[], map[], Source.Store(map[], w))
  }
}
