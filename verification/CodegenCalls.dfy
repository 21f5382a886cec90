/**
 * Calls: saving, passing arguments, and what is left of a block's values when the callee has returned.
 */
module CodegenCalls {
  import opened Words
  import opened Source
  import opened Koopa
  import opened Riscv
  import opened Codegen
  import opened CodegenFrame
  import opened CodegenValues
  import opened CodegenInsts

  /** Whether value index i is still in its home after an int call made at index out: t registers are
      restored, and so is a_j if the caller happened to save it, which it does for j < min(out, R_MAX) - T_MAX. */
  predicate Survives(fn: Fn, out: nat, i: nat)
  {
    i < T_MAX || i >= fn.Limit() || i + fn.argCount < Min(out, R_MAX)
  }

  /** The live values after an instruction. A void call restores nothing. */
  function LiveAfter(fn: Fn, live: Live, out: nat, i: Inst): Live
  {
    match i
    case Load(id, _) => live[id := out]
    case Binary(id, _, _, _) => live[id := out]
    case Call(id, f, _) =>
      if f.isVoid then map v | v in live && live[v] >= fn.Limit() && v != id :: live[v]
      else (map v | v in live && Survives(fn, out, live[v]) :: live[v])[id := out]
    case _ => live
  }

  // ----- saving and restoring -----

  lemma SaveSlots(a: Act, i: nat)
    requires Aligned(a.base) && i < a.fn.Saved()
    ensures Aligned(a.base + SaveSlot(a.fn, i))
    ensures Within(WordArea(SaveSlot(a.fn, i)), SavedArea(a.fn))
  {
  }

  /** The first n registers are in their save slots. */
  ghost predicate SavedIn(a: Act, n: nat, m: Machine, t: Machine)
  {
    forall i: nat :: i < n ==> Peek(t, a.base + SaveSlot(a.fn, i)) == Get(m, SavedReg(i))
  }

  /** Memory is the same but for the save area. */
  ghost predicate OffSaved(a: Act, m: Machine, t: Machine)
  {
    forall x :: !(a.base + SavedArea(a.fn).lo <= x < a.base + SavedArea(a.fn).hi) ==> Peek(t, x) == Peek(m, x)
  }

  lemma {:induction false} SaveRuns(a: Act, n: nat, m: Machine) returns (t: Machine)
    requires n <= a.fn.Saved() && Get(m, Sp) == a.base && Aligned(a.base)
    ensures Runs(a.env, SaveLines(a.fn, n), m, t) && t == m.(mem := t.mem)
    ensures SavedIn(a, n, m, t) && OffSaved(a, m, t)
  {
    hide Runs;
    if n == 0 {
      t := m;
      RunsNone(a.env, m);
    } else {
      var t1 := SaveRuns(a, n - 1, m);
      var l := Sw(SavedReg(n - 1), SaveSlot(a.fn, n - 1), Sp);
      SaveSlots(a, n - 1);
      assert Get(t1, Sp) == a.base && Get(t1, SavedReg(n - 1)) == Get(m, SavedReg(n - 1));
      t := Poke(t1, a.base + SaveSlot(a.fn, n - 1), Get(m, SavedReg(n - 1)));
      RunsOne(a.env, l, t1);
      RunsThen(a.env, SaveLines(a.fn, n - 1), [l], m, t1, t);
    }
  }

  predicate Restored(n: nat, r: Reg) { exists i: nat :: i < n && r == SavedReg(i) }

  lemma RestoredNext(n: nat)
    requires n > 0
    ensures !Restored(n - 1, Sp)
    ensures forall r :: Restored(n, r) <==> Restored(n - 1, r) || r == SavedReg(n - 1)
  {
    assert forall r :: Restored(n - 1, r) ==> Restored(n, r);
    assert Restored(n, SavedReg(n - 1));
  }

  lemma {:induction false} RestoreRuns(a: Act, n: nat, m: Machine) returns (t: Machine)
    requires n <= a.fn.Saved() && Get(m, Sp) == a.base && Aligned(a.base)
    ensures Runs(a.env, RestoreLines(a.fn, n), m, t) && t == m.(regs := t.regs)
    ensures forall i: nat :: i < n ==> Get(t, SavedReg(i)) == Peek(m, a.base + SaveSlot(a.fn, i))
    ensures forall r :: !Restored(n, r) ==> Get(t, r) == Get(m, r)
  {
    hide Runs, Restored;
    if n == 0 {
      t := m;
      RunsNone(a.env, m);
    } else {
      var t1 := RestoreRuns(a, n - 1, m);
      var l := Lw(SavedReg(n - 1), SaveSlot(a.fn, n - 1), Sp);
      SaveSlots(a, n - 1);
      RestoredNext(n);
      assert Get(t1, Sp) == a.base;
      t := Set(t1, SavedReg(n - 1), Peek(m, a.base + SaveSlot(a.fn, n - 1)));
      RunsOne(a.env, l, t1);
      RunsThen(a.env, RestoreLines(a.fn, n - 1), [l], m, t1, t);
    }
  }

  // ----- arguments -----

  /** The bytes at the bottom of the caller's frame that n arguments take. */
  function ArgBytes(n: nat): nat { 4 * (Max(n, A_MAX) - A_MAX) }

  /** Values below index out are kept, and memory above the words for n arguments. */
  ghost predicate ArgsAgree(a: Act, out: nat, n: nat, m: Machine, t: Machine)
  {
    && t.io == m.io && t.trapped == m.trapped && Get(t, Sp) == Get(m, Sp)
    && (forall i: nat :: i < out && i < a.fn.Limit() ==> ValueAt(a, i, t) == ValueAt(a, i, m))
    && (forall x :: !(a.base <= x < a.base + ArgBytes(n)) ==> Peek(t, x) == Peek(m, x))
  }

  /** Passing arguments disturbs no live value. */
  lemma StillLive(a: Act, em: Em, live: Live, n: nat, regs: map<nat, Word>, m: Machine, t: Machine)
    requires LiveIn(live, em) && ValuesOk(a, live, regs, m) && FrameSafe(a.fn) && em.out <= a.fn.valCount
    requires n <= a.fn.argCount && ArgsAgree(a, em.out, n, m, t)
    ensures ValuesOk(a, live, regs, t)
  {
    forall id | id in live ensures ValueAt(a, live[id], t) == ValueAt(a, live[id], m) {
      if live[id] >= a.fn.Limit() {
        SpillsSoundExactly(a.fn);
        assert SpillSound(a.fn, live[id]);
      }
    }
  }

  function PassLine(n: nat, r: Reg): Line
  {
    if n < A_MAX then Mv(A(n), r) else Sw(r, 4 * (n - A_MAX), Sp)
  }

  /** Argument n goes to its register or its word at the bottom of the frame. */
  lemma PassRuns(a: Act, out: nat, n: nat, r: Reg, v: Word, m: Machine) returns (t: Machine)
    requires n < a.fn.argCount && Get(m, r) == v && Get(m, Sp) == a.base && Aligned(a.base)
    ensures Runs(a.env, [PassLine(n, r)], m, t)
    ensures ArgsAgree(a, out, n + 1, m, t) && ArgAt(t, n) == v
    ensures forall j: nat :: j < n ==> ArgAt(t, j) == ArgAt(m, j)
  {
    hide Runs, ArgsAgree;
    if n < A_MAX {
      t := Set(m, A(n), v);
      RunsOne(a.env, Mv(A(n), r), m);
      PassedInReg(a, out, n, v, m);
    } else {
      t := Poke(m, a.base + 4 * (n - A_MAX), v);
      PassedOnStack(a, out, n, v, m);
      RunsOne(a.env, Sw(r, 4 * (n - A_MAX), Sp), m);
    }
  }

  lemma PassedInReg(a: Act, out: nat, n: nat, v: int, m: Machine)
    requires n < a.fn.argCount && n < A_MAX
    ensures ArgsAgree(a, out, n + 1, m, Set(m, A(n), v))
  {
    forall i: nat | i < a.fn.Limit() ensures ValueAt(a, i, Set(m, A(n), v)) == ValueAt(a, i, m) {
      RegsApart(a.fn, i, i);
    }
  }

  lemma PassedOnStack(a: Act, out: nat, n: nat, v: int, m: Machine)
    requires n >= A_MAX && Aligned(a.base)
    ensures Aligned(a.base + 4 * (n - A_MAX))
    ensures ArgsAgree(a, out, n + 1, m, Poke(m, a.base + 4 * (n - A_MAX), v))
  {
  }

  /** Fetching one argument does not touch those already passed. */
  lemma FetchKeepsArgs(a: Act, n: nat, reg: nat, m: Machine, t: Machine)
    requires n < a.fn.argCount && t.mem == m.mem && Get(t, Sp) == Get(m, Sp)
    requires forall r :: !SpareReg(a.fn, reg, 0, r) ==> Get(t, r) == Get(m, r)
    ensures forall j: nat :: j < n ==> ArgAt(t, j) == ArgAt(m, j)
  {
    forall j: nat | j < n ensures ArgAt(t, j) == ArgAt(m, j) {
      if SpareReg(a.fn, reg, 0, A(j)) {
        var i: nat :| reg <= i < a.fn.Limit() && A(j) == a.fn.RegOf(i);
        RegsApart(a.fn, i, i);
      }
    }
  }

  /** One more argument is fetched and passed. */
  lemma ArgRuns(a: Act, out: nat, em: Em, live: Live, n: nat, op: Operand, k: Ctx, regs: map<nat, Word>, m: Machine)
    returns (t: Machine)
    requires LiveIn(live, em) && ValuesOk(a, live, regs, m) && !m.trapped && Get(m, Sp) == a.base && Aligned(a.base)
    requires n < a.fn.argCount && Usable(live, op) && out == em.out
    ensures var o := Fetch(a.fn, em, 0, op);
            && Runs(a.env, o.lines + [PassLine(n, o.reg)], m, t) && ArgsAgree(a, out, n + 1, m, t)
            && o.em == em.(reg := o.em.reg) && em.reg <= o.em.reg
            && Koopa.Value(k, op, regs) == Some(Wrap(ArgAt(t, n))) && Wrap(ArgAt(t, n)) == ArgAt(t, n)
            && forall j: nat :: j < n ==> ArgAt(t, j) == ArgAt(m, j)
  {
    hide Runs, Agree, ArgsAgree, ValueAt;
    var o := Fetch(a.fn, em, 0, op);
    var t1 := FetchWorks(a, em, live, 0, op, k, regs, m);
    AgreeIsArgsAgree(a, out, n + 1, m, t1);
    FetchKeepsArgs(a, n, em.reg, m, t1);
    ArgsAgreeMeans(a, out, n + 1, m, t1);
    t := PassRuns(a, out, n, o.reg, Koopa.Value(k, op, regs).value, t1);
    ArgsAgreeThrough(a, out, n + 1, m, t1, t);
    RunsThen(a.env, o.lines, [PassLine(n, o.reg)], m, t1, t);
  }

  lemma {:induction false} ArgsRun(a: Act, em: Em, live: Live, args: seq<Operand>, k: Ctx, regs: map<nat, Word>,
                                   m: Machine)
    returns (t: Machine)
    requires LiveIn(live, em) && ValuesOk(a, live, regs, m) && FrameSafe(a.fn) && em.out <= a.fn.valCount
    requires !m.trapped && Get(m, Sp) == a.base && Aligned(a.base)
    requires |args| <= a.fn.argCount && forall x :: x in args ==> Usable(live, x)
    ensures var (ls, em1) := ArgLines(a.fn, em, args);
            && Runs(a.env, ls, m, t) && ArgsAgree(a, em.out, |args|, m, t)
            && em1 == em.(reg := em1.reg) && em.reg <= em1.reg
    ensures Koopa.Values(k, args, regs).Some? && |Koopa.Values(k, args, regs).value| == |args|
    ensures forall i: nat :: i < |args| ==> ArgAt(t, i) == Koopa.Values(k, args, regs).value[i]
  {
    hide Runs, ArgsAgree, ValuesOk, Fetch, ArgAt, Usable;
    if args == [] {
      t := m;
      RunsNone(a.env, m);
      ArgsAgreeSelf(a, em.out, m);
    } else {
      var n := |args| - 1;
      var (ls, em1) := ArgLines(a.fn, em, args[..n]);
      var t1 := ArgsRun(a, em, live, args[..n], k, regs, m);
      StillLive(a, em, live, n, regs, m, t1);
      ArgsAgreeMeans(a, em.out, n, m, t1);
      assert args[n] in args;
      t := ArgRuns(a, em.out, em1, live, n, args[n], k, regs, t1);
      ArgsAgreeMore(a, em.out, n, m, t1);
      ArgsAgreeThrough(a, em.out, n + 1, m, t1, t);
      var o := Fetch(a.fn, em1, 0, args[n]);
      RunsThen(a.env, ls, o.lines + [PassLine(n, o.reg)], m, t1, t);
      assert ls + (o.lines + [PassLine(n, o.reg)]) == ls + o.lines + [PassLine(n, o.reg)];
    }
  }

  lemma ArgsAgreeSelf(a: Act, out: nat, m: Machine)
    ensures ArgsAgree(a, out, 0, m, m)
  {
  }

  lemma ArgsAgreeMeans(a: Act, out: nat, n: nat, m: Machine, t: Machine)
    requires ArgsAgree(a, out, n, m, t)
    ensures t.trapped == m.trapped && Get(t, Sp) == Get(m, Sp)
  {
  }

  lemma AgreeIsArgsAgree(a: Act, out: nat, n: nat, m: Machine, t: Machine)
    requires Agree(a, out, m, t) && t.mem == m.mem
    ensures ArgsAgree(a, out, n, m, t)
  {
    assert forall x :: Peek(t, x) == Peek(m, x);
  }

  lemma ArgsAgreeMore(a: Act, out: nat, n: nat, m: Machine, t: Machine)
    requires ArgsAgree(a, out, n, m, t)
    ensures ArgsAgree(a, out, n + 1, m, t)
  {
  }

  lemma ArgsAgreeThrough(a: Act, out: nat, n: nat, m: Machine, t1: Machine, t: Machine)
    requires ArgsAgree(a, out, n, m, t1) && ArgsAgree(a, out, n, t1, t)
    ensures ArgsAgree(a, out, n, m, t)
  {
  }

  // ----- the call itself -----

  /** Memory is the same from the first local up, and below the frame. */
  ghost predicate LowFrame(a: Act, m: Machine, t: Machine)
  {
    && t.io == m.io && t.trapped == m.trapped && Get(t, Sp) == Get(m, Sp)
    && forall x :: !(a.base <= x < a.base + a.fn.VarSlot(0)) ==> Peek(t, x) == Peek(m, x)
  }

  /** The bottom of the frame holds nothing the IR state speaks of. */
  lemma LowFrameMatches(a: Act, stacks: Stacks, s: Source.Store, temps: Temps, m: Machine, t: Machine)
    requires FrameOk(a, m) && MemoryOk(a, stacks, s, temps, m) && StacksOk(a, stacks) && GlobalsPlaced(a)
    requires LowFrame(a, m, t)
    ensures FrameOk(a, t) && MemoryOk(a, stacks, s, temps, t)
  {
    FrameLayout(a.fn);
  }

  /** The state just before control passes to the callee. */
  ghost predicate AtCall(a: Act, em: Em, args: seq<Operand>, k: Ctx, regs: map<nat, Word>, m: Machine, t: Machine)
  {
    && LowFrame(a, m, t) && SavedIn(a, Min(em.out, R_MAX), m, t)
    && Koopa.Values(k, args, regs).Some? && |Koopa.Values(k, args, regs).value| == |args|
    && forall i: nat :: i < |args| ==> ArgAt(t, i) == Koopa.Values(k, args, regs).value[i]
  }

  lemma BeforeCall(a: Act, em: Em, live: Live, args: seq<Operand>, k: Ctx, c: Config, m: Machine) returns (t: Machine)
    requires TablesOk(a, em, live) && Matches(a, em, live, c, m)
    requires |args| <= a.fn.argCount && forall x :: x in args ==> Usable(live, x)
    ensures Runs(a.env, SaveLines(a.fn, Min(em.out, R_MAX)) + ArgLines(a.fn, em, args).0, m, t)
    ensures AtCall(a, em, args, k, c.regs, m, t)
  {
    hide Runs, MemoryOk, StacksOk, GlobalsPlaced;
    var n := Min(em.out, R_MAX);
    var t1 := SaveRuns(a, n, m);
    SavedLow(a, em, live, c, m, t1);
    t := ArgsRun(a, em, live, args, k, c.regs, t1);
    RunsThen(a.env, SaveLines(a.fn, n), ArgLines(a.fn, em, args).0, m, t1, t);
    FrameLayout(a.fn);
  }

  lemma SavedLow(a: Act, em: Em, live: Live, c: Config, m: Machine, t: Machine)
    requires TablesOk(a, em, live) && Matches(a, em, live, c, m) && t == m.(mem := t.mem) && OffSaved(a, m, t)
    ensures LowFrame(a, m, t) && ValuesOk(a, live, c.regs, t)
  {
    FrameLayout(a.fn);
    forall id | id in live ensures ValueAt(a, live[id], t) == c.regs[id] {
      if live[id] >= a.fn.Limit() {
        SpillsSoundExactly(a.fn);
        assert SpillSound(a.fn, live[id]);
      }
    }
  }

  /** What a callee given n arguments on entry at m leaves for its caller at u: the stack pointer, and all
      memory of the stack above its arguments; the world is w. */
  ghost predicate Kept(env: Env, top: int, n: nat, w: World, m: Machine, u: Machine)
  {
    && !u.trapped && Get(u, Sp) == Get(m, Sp)
    && (forall x :: Get(m, Sp) + ArgBytes(n) <= x < top ==> Peek(u, x) == Peek(m, x))
    && u.io == w.io
    && forall g :: g in w.globals ==> Peek(u, env.address(g)) == w.globals[g]
  }

  /** A value in a register is restored exactly when it survives. */
  lemma SurvivesExactly(fn: Fn, out: nat, i: nat)
    requires i < out && i < fn.Limit()
    ensures Restored(Min(out, R_MAX), fn.RegOf(i)) <==> Survives(fn, out, i)
  {
    RegsApart(fn, i, i);
    if Survives(fn, out, i) {
      assert fn.RegOf(i) == SavedReg(if i < T_MAX then i else i + fn.argCount);
    }
  }

  /** An int call keeps every earlier value of its block exactly when the function passes no arguments
      anywhere or the values fit the t registers. */
  lemma CallKeepsAllExactly(fn: Fn, out: nat)
    requires FrameSafe(fn) && out <= fn.valCount
    ensures (forall i: nat :: i < out ==> Survives(fn, out, i)) <==> (fn.argCount == 0 || out <= T_MAX)
  {
    if fn.argCount > 0 && out > T_MAX {
      assert !Survives(fn, out, out - 1);
    }
  }

  /** A void call restores nothing: no line follows the call itself. */
  lemma VoidCallEnds(fn: Fn, em: Em, f: Callee, args: seq<Operand>)
    requires f.isVoid
    ensures var ls := CallLines(fn, em, f, args).0; ls != [] && ls[|ls| - 1] == CallTo(f.f)
  {
  }

  /** The caller's locals, temporaries and frame are as they were, the globals as the callee left them. */
  lemma CalleeKept(a: Act, em: Em, live: Live, c: Config, n: nat, w: World, m: Machine, t: Machine, u: Machine)
    requires TablesOk(a, em, live) && Matches(a, em, live, c, m) && LowFrame(a, m, t)
    requires n <= a.fn.argCount && Kept(a.env, a.top, n, w, t, u)
    ensures FrameOk(a, u) && MemoryOk(a, em.stacks, c.s.(w := w), c.temps, u)
    ensures forall id :: id in live && live[id] >= a.fn.Limit() ==> ValueAt(a, live[id], u) == c.regs[id]
  {
    LowFrameMatches(a, em.stacks, c.s, c.temps, m, t);
    FrameLayout(a.fn);
    var s := c.s.(w := w);
    forall p: Slot | SlotValue(s, c.temps, p).Some?
      ensures Placed(em.stacks, p) && Peek(u, AddressOf(a, em.stacks, p)) == SlotValue(s, c.temps, p).value
    {
      if !(p.Of? && p.v.Global?) {
        LocalKept(a, em.stacks, p, n, s, c, w, t, u);
      }
    }
    forall id | id in live && live[id] >= a.fn.Limit() ensures ValueAt(a, live[id], u) == c.regs[id] {
      SpillsSoundExactly(a.fn);
      assert SpillSound(a.fn, live[id]);
    }
  }

  lemma LocalKept(a: Act, stacks: Stacks, p: Slot, n: nat, s: Source.Store, c: Config, w: World, t: Machine, u: Machine)
    requires StacksOk(a, stacks) && c.At? && s == c.s.(w := w) && FrameOk(a, t) && MemoryOk(a, stacks, c.s, c.temps, t)
    requires n <= a.fn.argCount && Kept(a.env, a.top, n, w, t, u)
    requires !(p.Of? && p.v.Global?) && SlotValue(s, c.temps, p).Some?
    ensures p in stacks && Peek(u, AddressOf(a, stacks, p)) == SlotValue(s, c.temps, p).value
  {
    assert SlotValue(s, c.temps, p) == SlotValue(c.s, c.temps, p);
    FrameLayout(a.fn);
  }

  /** The IR call that the machine's call stands for. */
  predicate Answers(k: Ctx, i: Inst, c: Config, w: World, v: Word)
    requires c.At? && i.Call?
  {
    var vs := Koopa.Values(k, i.args, c.regs);
    vs.Some? && k.o(c.s.w, i.f, vs.value) == Returns(w, v)
  }

  /** After a void call only the values in memory are left. */
  lemma AfterVoidCall(a: Act, em: Em, live: Live, i: Inst, k: Ctx, w: World, v: Word, c: Config, m: Machine,
                      t: Machine, u: Machine)
    requires TablesOk(a, em, live) && Matches(a, em, live, c, m) && i.Call? && i.f.isVoid && |i.args| <= a.fn.argCount
    requires forall x :: x in i.args ==> Usable(live, x)
    requires Answers(k, i, c, w, v) && LowFrame(a, m, t) && Kept(a.env, a.top, |i.args|, w, t, u)
    ensures var live1 := LiveAfter(a.fn, live, em.out, i);
            var em1 := InstLines(a.fn, em, i).1;
            TablesOk(a, em1, live1) && Matches(a, em1, live1, Execute(k, i, c), u)
  {
    hide MemoryOk, StacksOk, GlobalsPlaced, FrameOk;
    CalleeKept(a, em, live, c, |i.args|, w, m, t, u);
    ArgLinesEm(a.fn, em, i.args);
  }

  /** Passing arguments only takes scratch registers. */
  lemma {:induction false} ArgLinesEm(fn: Fn, em: Em, args: seq<Operand>)
    ensures var em1 := ArgLines(fn, em, args).1; em1 == em.(reg := em1.reg) && em.reg <= em1.reg
  {
    if args != [] {
      ArgLinesEm(fn, em, args[..|args| - 1]);
    }
  }

  /** After an int call the survivors are back in their homes, and the result is in the home of the next index. */
  lemma AfterIntCall(a: Act, em: Em, live: Live, i: Inst, k: Ctx, w: World, v: Word, c: Config, m: Machine,
                     t: Machine, u: Machine)
    returns (z: Machine)
    requires TablesOk(a, em, live) && Matches(a, em, live, c, m) && i.Call? && !i.f.isVoid && |i.args| <= a.fn.argCount
    requires em.out < a.fn.valCount && forall x :: x in i.args ==> Usable(live, x)
    requires Answers(k, i, c, w, v) && LowFrame(a, m, t) && SavedIn(a, Min(em.out, R_MAX), m, t)
    requires Kept(a.env, a.top, |i.args|, w, t, u) && Get(u, A(0)) == v
    ensures var live1 := LiveAfter(a.fn, live, em.out, i);
            var em1 := InstLines(a.fn, em, i).1;
            && Runs(a.env,
                    Codegen.Result(a.fn, em, Mv(Dest(a.fn, em), A(0))) + RestoreLines(a.fn, Min(em.out, R_MAX)), u, z)
            && TablesOk(a, em1, live1) && Matches(a, em1, live1, Execute(k, i, c), z)
  {
    hide Runs, MemoryOk, StacksOk, GlobalsPlaced, Agree, ValueAt, SavedIn, Kept, Survives;
    var n := Min(em.out, R_MAX);
    var d := c.(s := c.s.(w := w));
    var u1 := ReturnedResult(a, em, live, |i.args|, w, v, c, m, t, u);
    z := RestoreRuns(a, n, u1);
    RunsThen(a.env, Codegen.Result(a.fn, em, Mv(Dest(a.fn, em), A(0))), RestoreLines(a.fn, n), u, u1, z);
    RestoredMatches(a, em, live, i.id, v, c, d, m, u1, z);
    ArgLinesEm(a.fn, em, i.args);
  }

  /** The callee's answer is moved to the home of the next index, off everything saved. */
  lemma ReturnedResult(a: Act, em: Em, live: Live, n: nat, w: World, v: Word, c: Config, m: Machine, t: Machine,
                       u: Machine)
    returns (u1: Machine)
    requires TablesOk(a, em, live) && Matches(a, em, live, c, m) && n <= a.fn.argCount && em.out < a.fn.valCount
    requires LowFrame(a, m, t) && SavedIn(a, Min(em.out, R_MAX), m, t)
    requires Kept(a.env, a.top, n, w, t, u) && Get(u, A(0)) == v
    ensures Runs(a.env, Codegen.Result(a.fn, em, Mv(Dest(a.fn, em), A(0))), u, u1)
    ensures FrameOk(a, u1) && MemoryOk(a, em.stacks, c.s.(w := w), c.temps, u1) && ValueAt(a, em.out, u1) == v
    ensures SavedIn(a, Min(em.out, R_MAX), m, u1)
    ensures forall x :: x in live && live[x] >= a.fn.Limit() ==> ValueAt(a, live[x], u1) == c.regs[x]
  {
    hide Runs, MemoryOk, StacksOk, GlobalsPlaced, ValueAt, SavedIn, Kept;
    var d := c.(s := c.s.(w := w));
    CalleeKept(a, em, live, c, n, w, m, t, u);
    var spilled: Live := map x | x in live && live[x] >= a.fn.Limit() :: live[x];
    assert Matches(a, em, spilled, d, u) && TablesOk(a, em, spilled);
    u1 := ResultWorks(a, em, Mv(Dest(a.fn, em), A(0)), u, v);
    ResultElsewhere(a, em, spilled, d, u, u1);
    SavesKept(a, em, n, w, m, t, u, u1);
    forall x | x in live && live[x] >= a.fn.Limit() ensures ValueAt(a, live[x], u1) == c.regs[x] {
      assert x in spilled && spilled[x] == live[x];
    }
  }

  /** The save area is neither the callee's nor the result's. */
  lemma SavesKept(a: Act, em: Em, n: nat, w: World, m: Machine, t: Machine, u: Machine, u1: Machine)
    requires SavedIn(a, Min(em.out, R_MAX), m, t) && Kept(a.env, a.top, n, w, t, u) && Agree(a, em.out, u, u1)
    requires n <= a.fn.argCount && em.out < a.fn.valCount && FrameSafe(a.fn) && FrameOk(a, u) && Get(t, Sp) == a.base
    ensures SavedIn(a, Min(em.out, R_MAX), m, u1)
  {
    FrameLayout(a.fn);
    SpillsSoundExactly(a.fn);
    if a.fn.Limit() <= em.out {
      assert SpillSound(a.fn, em.out);
    }
    hide ValueAt, FrameSafe, SpillSound;
    forall i: nat | i < Min(em.out, R_MAX)
      ensures Peek(u1, a.base + SaveSlot(a.fn, i)) == Peek(t, a.base + SaveSlot(a.fn, i))
    {
      assert Peek(u1, a.base + SaveSlot(a.fn, i)) == Peek(u, a.base + SaveSlot(a.fn, i));
    }
  }

  lemma RestoredMatches(a: Act, em: Em, live: Live, id: nat, v: Word, c: Config, d: Config, m: Machine, u: Machine,
                        z: Machine)
    requires TablesOk(a, em, live) && Matches(a, em, live, c, m) && em.out < a.fn.valCount && d.At? && d.regs == c.regs
    requires FrameOk(a, u) && MemoryOk(a, em.stacks, d.s, d.temps, u) && ValueAt(a, em.out, u) == v
    requires forall x :: x in live && live[x] >= a.fn.Limit() ==> ValueAt(a, live[x], u) == c.regs[x]
    requires SavedIn(a, Min(em.out, R_MAX), m, u) && z == u.(regs := z.regs)
    requires forall i: nat :: i < Min(em.out, R_MAX) ==> Get(z, SavedReg(i)) == Peek(u, a.base + SaveSlot(a.fn, i))
    requires forall r :: !Restored(Min(em.out, R_MAX), r) ==> Get(z, r) == Get(u, r)
    ensures var live1 := (map x | x in live && Survives(a.fn, em.out, live[x]) :: live[x])[id := em.out];
            && TablesOk(a, Define(em, id), live1)
            && Matches(a, Define(em, id), live1, d.(pc := d.pc + 1, regs := d.regs[id := v]), z)
  {
    hide MemoryOk, StacksOk, GlobalsPlaced, FrameSafe, Survives, ValueAt, SavedIn, SaveSlot;
    assert !Restored(Min(em.out, R_MAX), Sp);
    RestoredValues(a, em, live, v, c.regs, m, u, z);
    assert FrameOk(a, z);
    MemorySame(a, em.stacks, d.s, d.temps, u, z, 0);
  }

  /** The values after the restore: the survivors, and the call's own. */
  lemma RestoredValues(a: Act, em: Em, live: Live, v: Word, regs: map<nat, Word>, m: Machine, u: Machine, z: Machine)
    requires LiveIn(live, em) && ValuesOk(a, live, regs, m) && ValueAt(a, em.out, u) == v
    requires forall x :: x in live && live[x] >= a.fn.Limit() ==> ValueAt(a, live[x], u) == regs[x]
    requires SavedIn(a, Min(em.out, R_MAX), m, u) && z == u.(regs := z.regs)
    requires forall i: nat :: i < Min(em.out, R_MAX) ==> Get(z, SavedReg(i)) == Peek(u, a.base + SaveSlot(a.fn, i))
    requires forall r :: !Restored(Min(em.out, R_MAX), r) ==> Get(z, r) == Get(u, r)
    ensures forall x :: x in live && Survives(a.fn, em.out, live[x]) ==> ValueAt(a, live[x], z) == regs[x]
    ensures ValueAt(a, em.out, z) == v
  {
    var n := Min(em.out, R_MAX);
    forall x | x in live && Survives(a.fn, em.out, live[x]) ensures ValueAt(a, live[x], z) == regs[x] {
      var i := live[x];
      if i < a.fn.Limit() {
        SurvivesExactly(a.fn, em.out, i);
        var j: nat :| j < n && a.fn.RegOf(i) == SavedReg(j);
        assert Get(z, SavedReg(j)) == Get(m, SavedReg(j));
      }
    }
    if em.out < a.fn.Limit() {
      RegsApart(a.fn, em.out, em.out);
      assert !Restored(n, a.fn.RegOf(em.out));
    }
  }
}
