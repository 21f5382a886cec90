/**
 * Whole programs: functions that call each other and the run-time library, in the source language and
 * in Koopa IR. Calls are given meaning by the depth of the calls still allowed.
 */
module Programs {
  import opened Words
  import opened Source
  import opened Koopa
  import opened Lowering
  import opened LoweringTheorem

  datatype SourceProgram = SourceProgram(funcs: seq<(nat, FuncDef)>, lib: Library)

  datatype KoopaProgram = KoopaProgram(funcs: seq<(nat, Func)>, lib: Library)

  function Find<F>(fs: seq<(nat, F)>, f: nat): Option<F>
  {
    if fs == [] then None else if fs[0].0 == f then Some(fs[0].1) else Find(fs[1..], f)
  }

  /** A run-time library function answers from the history of calls to the library. */
  function CallLibrary(lib: Library, f: nat, args: seq<Word>, w: World): CallResult
  {
    if |args| != lib.arity(f) then Fails
    else Returns(World(w.globals, w.io + [Event(f, args)]), lib.result(w.io, f, args))
  }

  /** How a function's result reaches its caller; the value of a void function is never used. */
  function Answer(isVoid: bool, r: Result): CallResult
  {
    match r
    case Done(Some(v), w) => Returns(w, if isVoid then 0 else v)
    case Done(None, w) => if isVoid then Returns(w, 0) else Fails
    case _ => Fails
  }

  /** A call of a source function that may nest `depth` calls deep. */
  ghost function CallSource(p: SourceProgram, depth: nat, callee: Callee, args: seq<Word>, w: World): CallResult
    decreases depth, 0
  {
    match Find(p.funcs, callee.f)
    case None => CallLibrary(p.lib, callee.f, args, w)
    case Some(fd) =>
      if |args| != |fd.params| then Fails
      else if depth == 0 then Hangs
      else
        var o := SourceCalls(p, depth - 1);
        if exists r :: EndsWith(o, fd, args, w, r) then var r :| EndsWith(o, fd, args, w, r); Answer(fd.isVoid, r)
        else Hangs
  }

  ghost function SourceCalls(p: SourceProgram, depth: nat): Oracle
    decreases depth, 1
  {
    (w, f, args) => CallSource(p, depth, f, args, w)
  }

  ghost predicate EndsWith(o: Oracle, fd: FuncDef, args: seq<Word>, w: World, r: Result)
    requires |args| == |fd.params|
  {
    exists fuel: nat :: RunFunc(o, fuel, fd, args, w) == Some(r)
  }

  /** A call of an IR function that may nest `depth` calls deep. */
  ghost function CallKoopa(p: KoopaProgram, depth: nat, callee: Callee, args: seq<Word>, w: World): CallResult
    decreases depth, 0
  {
    match Find(p.funcs, callee.f)
    case None => CallLibrary(p.lib, callee.f, args, w)
    case Some(fn) =>
      if |args| != fn.params || fn.bbs == [] then Fails
      else if depth == 0 then Hangs
      else
        var o := KoopaCalls(p, depth - 1);
        if exists r :: HaltsWith(o, fn, args, w, r) then var r :| HaltsWith(o, fn, args, w, r); Answer(fn.isVoid, r)
        else Hangs
  }

  ghost function KoopaCalls(p: KoopaProgram, depth: nat): Oracle
    decreases depth, 1
  {
    (w, f, args) => CallKoopa(p, depth, f, args, w)
  }

  ghost predicate HaltsWith(o: Oracle, fn: Func, args: seq<Word>, w: World, r: Result)
    requires fn.bbs != []
  {
    Reaches(fn.blocks, Ctx(o, args), Initial(fn, w), Halted(r))
  }

  function LowerFuncs(fs: seq<(nat, FuncDef)>): seq<(nat, Func)>
  {
    if fs == [] then [] else [(fs[0].0, LowerFunc(fs[0].1))] + LowerFuncs(fs[1..])
  }

  function LowerProgram(p: SourceProgram): KoopaProgram
  {
    KoopaProgram(LowerFuncs(p.funcs), p.lib)
  }

  lemma {:induction false} FindLowered(fs: seq<(nat, FuncDef)>, f: nat)
    ensures Find(LowerFuncs(fs), f) == match Find(fs, f) case None => None case Some(fd) => Some(LowerFunc(fd))
  {
    if fs != [] {
      FindLowered(fs[1..], f);
    }
  }

  /** Two meanings of calls that agree everywhere give the same runs. */
  lemma {:induction false} SameCalls(g: Graph, o: Oracle, q: Oracle, args: seq<Word>, c: Config, n: nat)
    requires forall w, f, vs :: o(w, f, vs) == q(w, f, vs)
    ensures Steps(g, Ctx(o, args), c, n) == Steps(g, Ctx(q, args), c, n)
    decreases n
  {
    if n > 0 {
      SameStep(g, o, q, args, c);
      SameCalls(g, o, q, args, Step(g, Ctx(o, args), c), n - 1);
    }
  }

  lemma {:induction false} SameValues(o: Oracle, q: Oracle, args: seq<Word>, ops: seq<Operand>, regs: map<nat, Word>)
    ensures Koopa.Values(Ctx(o, args), ops, regs) == Koopa.Values(Ctx(q, args), ops, regs)
  {
    if ops != [] {
      SameValues(o, q, args, ops[..|ops| - 1], regs);
    }
  }

  lemma SameStep(g: Graph, o: Oracle, q: Oracle, args: seq<Word>, c: Config)
    requires forall w, f, vs :: o(w, f, vs) == q(w, f, vs)
    ensures Step(g, Ctx(o, args), c) == Step(g, Ctx(q, args), c)
  {
    forall ops, regs ensures Koopa.Values(Ctx(o, args), ops, regs) == Koopa.Values(Ctx(q, args), ops, regs) {
      SameValues(o, q, args, ops, regs);
    }
  }

  ghost predicate AllWellNested(p: SourceProgram)
  {
    forall f :: Find(p.funcs, f).Some? ==> ItemsWellNested(Find(p.funcs, f).value.body, false)
  }

  /** Lowering a program function by function preserves every call, down to any depth: the result, the
      globals, the calls to the library in their order, and whether it returns at all. */
  lemma {:induction false} LowerProgramPreservesCalls(p: SourceProgram, depth: nat, callee: Callee, args: seq<Word>,
                                                      w: World)
    requires AllWellNested(p)
    ensures CallKoopa(LowerProgram(p), depth, callee, args, w) == CallSource(p, depth, callee, args, w)
    decreases depth
  {
    var q := LowerProgram(p);
    FindLowered(p.funcs, callee.f);
    var found := Find(p.funcs, callee.f);
    if found.Some? && |args| == |found.value.params| {
      var fd := found.value;
      EntryFirst(fd);
      if depth > 0 {
        var o, r := SourceCalls(p, depth - 1), KoopaCalls(q, depth - 1);
        forall w, f, vs ensures o(w, f, vs) == r(w, f, vs) {
          LowerProgramPreservesCalls(p, depth - 1, f, vs, w);
        }
        SameAnswer(o, r, fd, args, w);
      }
    }
  }

  /** A function and its lowering end with the same results, of which there is at most one. */
  lemma SameAnswer(o: Oracle, q: Oracle, fd: FuncDef, args: seq<Word>, w: World)
    requires |args| == |fd.params| && ItemsWellNested(fd.body, false)
    requires forall w, f, vs :: o(w, f, vs) == q(w, f, vs)
    ensures LowerFunc(fd).bbs != []
    ensures forall r :: EndsWith(o, fd, args, w, r) <==> HaltsWith(q, LowerFunc(fd), args, w, r)
    ensures forall r, t :: HaltsWith(q, LowerFunc(fd), args, w, r) && HaltsWith(q, LowerFunc(fd), args, w, t) ==> r == t
  {
    EntryFirst(fd);
    var fn := LowerFunc(fd);
    var c := Initial(fn, w);
    forall r ensures EndsWith(o, fd, args, w, r) <==> HaltsWith(q, fn, args, w, r) {
      LoweringPreservesMeaning(o, fd, args, w, r);
      forall n: nat ensures Steps(fn.blocks, Ctx(o, args), c, n) == Steps(fn.blocks, Ctx(q, args), c, n) {
        SameCalls(fn.blocks, o, q, args, c, n);
      }
    }
    forall r, t | HaltsWith(q, fn, args, w, r) && HaltsWith(q, fn, args, w, t) ensures r == t {
      OneResult(fn.blocks, Ctx(q, args), c, r, t);
    }
  }
}
