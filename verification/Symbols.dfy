/**
 * The scoped symbol table of src/symbols.c over the chained hash table of src/hashtable.c, and the two
 * passes that drive it: src/semantic.c builds it, src/ir.c replays and destroys it.
 */
module Symbols {
  import opened Words

  /** HASHTABLE_SIZE */
  type Bucket = x: nat | x < 256

  type Hash = string -> Bucket

  /** A symbol's item: its name, and the level and scope it was declared in (`symbol_meta_t`). */
  datatype Item = Item(key: string, level: int, scope: int)

  /** A level: the scopes opened on it so far, each a chain of items in order of declaration; `begin` is
      the first one not destroyed, and `scope` the current one. A level is deleted once begin reaches
      the end. */
  datatype Level = Level(begin: nat, scope: int, scopes: seq<seq<nat>>)
  {
    predicate Deleted() { begin >= |scopes| }

    /** level_at */
    function Chain(): seq<nat> { if 0 <= scope < |scopes| then scopes[scope] else [] }
  }

  type Buckets = b: seq<seq<nat>> | |b| == 256 witness seq(256, i => [])

  /** Items are numbered in order of insertion; each bucket lists its items newest first. */
  datatype Table = Table(items: seq<Item>, buckets: Buckets, levels: seq<Level>, level: int)

  function LevelAt(t: Table, l: int): Level
  {
    if 0 <= l < |t.levels| then t.levels[l] else Level(0, -1, [])
  }

  // ----- scope actions -----

  /** level_offer */
  function Offer(v: Level): Level { Level(v.begin, |v.scopes|, v.scopes + [[]]) }

  /** symbols_indent: a new scope on the next level, which is made if it is not there. */
  function Indent(t: Table): Table
  {
    var l := t.level + 1;
    var levels := if l == |t.levels| then t.levels + [Level(0, -1, [])] else t.levels;
    if 0 <= l < |levels| then t.(levels := levels[l := Offer(levels[l])], level := l) else t
  }

  /** symbols_leave: goes up until it has left an empty scope, or is at the global level. */
  function Leave(t: Table): Table
    decreases t.level
  {
    if t.level < 0 then t else
    var up := t.(level := t.level - 1);
    if up.level > 0 && LevelAt(t, t.level).Chain() != [] then Leave(up) else up
  }

  /** symbols_enter: the next scope of the next level, None if that level is deleted or was never made. */
  function Enter(t: Table): Option<Table>
  {
    var l := t.level + 1;
    if !(0 <= l < |t.levels|) || t.levels[l].Deleted() then None else
    var v := t.levels[l];
    Some(t.(levels := t.levels[l := v.(scope := (v.scope + 1) % |v.scopes|)], level := l))
  }

  /** Unlinks item x from a bucket, None if it is not there. */
  function Unlink(ids: seq<nat>, x: nat): Option<seq<nat>>
  {
    if ids == [] then None
    else if ids[0] == x then Some(ids[1..])
    else match Unlink(ids[1..], x)
         case None => None
         case Some(rest) => Some([ids[0]] + rest)
  }

  function Destroy(h: Hash, t: Table, chain: seq<nat>): Option<Table>
    decreases |chain|
  {
    if chain == [] then Some(t)
    else if chain[0] >= |t.items| then None
    else
      var b := h(t.items[chain[0]].key);
      match Unlink(t.buckets[b], chain[0])
      case None => None
      case Some(ids) => Destroy(h, t.(buckets := t.buckets[b := ids]), chain[1..])
  }

  /** symbols_dedent: destroys the current scope and goes up until it has destroyed an empty one. None if
      the assertion fails, a level is touched after it was deleted, or an item is not in its bucket. */
  function Dedent(h: Hash, t: Table): Option<Table>
    decreases t.level
  {
    if !(0 <= t.level < |t.levels|) || t.levels[t.level].Deleted() || t.levels[t.level].scope != t.levels[t.level].begin
    then None
    else
      var v := t.levels[t.level];
      var chain := v.scopes[v.begin];
      match Destroy(h, t.(levels := t.levels[t.level := v.(begin := v.begin + 1)], level := t.level - 1), chain)
      case None => None
      case Some(up) => if 0 < t.level - 1 == up.level && chain != [] then Dedent(h, up) else Some(up)
  }

  // ----- symbols -----

  /** symbols_here */
  predicate Here(t: Table, x: nat)
  {
    x < |t.items| && t.items[x].level == t.level && LevelAt(t, t.level).scope == t.items[x].scope
  }

  /** symbols_saw */
  predicate Saw(t: Table, x: nat)
  {
    x < |t.items| && t.items[x].level <= t.level && LevelAt(t, t.items[x].level).scope == t.items[x].scope
  }

  predicate Named(t: Table, x: nat, n: string) { x < |t.items| && t.items[x].key == n }

  /** The first item of a bucket with name n that a test picks. */
  function First(t: Table, ids: seq<nat>, n: string, test: (Table, nat) -> bool): Option<nat>
  {
    if ids == [] then None
    else if Named(t, ids[0], n) && test(t, ids[0]) then Some(ids[0])
    else First(t, ids[1..], n, test)
  }

  /** symbols_get */
  function Get(h: Hash, t: Table, n: string): Option<nat> { First(t, t.buckets[h(n)], n, Saw) }

  /** The loops over symbols_lookup that look for a name in the current scope. */
  function GetHere(h: Hash, t: Table, n: string): Option<nat> { First(t, t.buckets[h(n)], n, Here) }

  /** symbols_add: a new item in front of its bucket and at the end of the current scope's chain. */
  function Add(h: Hash, t: Table, n: string): Table
  {
    var x, v := |t.items|, LevelAt(t, t.level);
    var t1 := t.(items := t.items + [Item(n, t.level, v.scope)], buckets := t.buckets[h(n) := [x] + t.buckets[h(n)]]);
    if 0 <= t.level < |t.levels| && 0 <= v.scope < |v.scopes|
    then t1.(levels := t.levels[t.level := v.(scopes := v.scopes[v.scope := v.scopes[v.scope] + [x]])])
    else t1
  }

  function Start(): Table { Indent(Table([], seq(256, i => []), [], -1)) }

  /** symbols_delete */
  function Delete(h: Hash, t: Table): Option<Table> { Dedent(h, t) }

  // ----- the program, as far as names go -----

  /** One name of a declaration, and the names its initialiser uses. */
  datatype Def = Def(name: string, uses: seq<string>)

  datatype Defs = Last(def: Def) | More(def: Def, rest: Defs)

  /** An item of a block, or a piece of one: the names statements and expressions use, nested blocks
      (wherever they stand, as in `if` and `while`), declarations, and a `return` that is itself an item. */
  datatype Part = Use(name: string) | Return | Const(defs: Defs) | Var(defs: Defs) | Block(parts: Parts)

  datatype Parts = NoParts | Parts(head: Part, tail: Parts)

  datatype Global = GlobalConst(defs: Defs) | GlobalVar(defs: Defs) | Func(name: string, params: seq<string>,
                                                                           body: Parts)

  /** What a lookup answered. */
  type Trace = seq<Option<nat>>

  // ----- the build pass -----

  /** ConstDef and VarDef: None for a redefinition, or for an undefined name in a constant's initialiser. */
  function BuildDef(h: Hash, t: Table, isConst: bool, d: Def): Option<Table>
  {
    if GetHere(h, t, d.name).Some? then None
    else if isConst && exists n :: n in d.uses && Get(h, t, n).None? then None
    else Some(Add(h, t, d.name))
  }

  function BuildDefs(h: Hash, t: Table, isConst: bool, defs: Defs): Option<Table>
    decreases defs
  {
    match BuildDef(h, t, isConst, defs.def)
    case None => None
    case Some(t1) => if defs.Last? then Some(t1) else BuildDefs(h, t1, isConst, defs.rest)
  }

  /** Block, Decl and the lookups of statements; None for an error the pass reports. */
  function BuildPart(h: Hash, t: Table, p: Part): Option<Table>
    decreases p
  {
    match p
    case Use(n) => if Get(h, t, n).None? then None else Some(t)
    case Return => Some(t)
    case Const(defs) => BuildDefs(h, Indent(t), true, defs)
    case Var(defs) => BuildDefs(h, Indent(t), false, defs)
    case Block(parts) =>
      match BuildParts(h, Indent(t), parts)
      case None => None
      case Some(t1) => Some(Leave(t1))
  }

  function BuildParts(h: Hash, t: Table, ps: Parts): Option<Table>
    decreases ps
  {
    match ps
    case NoParts => Some(t)
    case Parts(p, rest) =>
      match BuildPart(h, t, p)
      case None => None
      case Some(t1) => BuildParts(h, t1, rest)
  }

  /** FuncFParamList */
  function AddParams(h: Hash, t: Table, ps: seq<string>): Table
  {
    if ps == [] then t else Add(h, AddParams(h, t, ps[..|ps| - 1]), ps[|ps| - 1])
  }

  function FuncScope(h: Hash, t: Table, f: string, ps: seq<string>): Table
  {
    AddParams(h, Indent(Add(h, t, f)), ps)
  }

  function BuildGlobal(h: Hash, t: Table, g: Global): Option<Table>
  {
    match g
    case GlobalConst(defs) => BuildDefs(h, t, true, defs)
    case GlobalVar(defs) => BuildDefs(h, t, false, defs)
    case Func(f, ps, body) =>
      if GetHere(h, t, f).Some? then None else
      match BuildPart(h, FuncScope(h, t, f, ps), Block(body))
      case None => None
      case Some(t1) => Some(Leave(t1))
  }

  function BuildGlobals(h: Hash, t: Table, gs: seq<Global>): Option<Table>
    decreases |gs|
  {
    if gs == [] then Some(t) else
    match BuildGlobal(h, t, gs[0])
    case None => None
    case Some(t1) => BuildGlobals(h, t1, gs[1..])
  }

  // ----- what the lookups of the second pass look up -----

  function GetAll(h: Hash, t: Table, ns: seq<string>): Trace
  {
    if ns == [] then [] else [Get(h, t, ns[0])] + GetAll(h, t, ns[1..])
  }

  /** VarDef of src/ir.c: its own symbol, and then those of its initialiser. */
  function DefAnswers(h: Hash, t: Table, defs: Defs): Trace
  {
    [GetHere(h, t, defs.def.name)] + GetAll(h, t, defs.def.uses) + (if defs.Last? then []
                                                                    else DefAnswers(h, t, defs.rest))
  }

  /** The answers lookups get in the build pass, statement by statement up to a `return`; the initialisers
      of variables, which that pass skips, are answered once all names of their declaration are in. */
  function BuildTrace(h: Hash, t: Table, p: Part): Trace
    decreases p
  {
    match p
    case Use(n) => [Get(h, t, n)]
    case Var(defs) =>
      (match BuildPart(h, t, p)
       case None => []
       case Some(t1) => DefAnswers(h, t1, defs))
    case Block(parts) => BuildTraces(h, Indent(t), parts)
    case _ => []
  }

  function BuildTraces(h: Hash, t: Table, ps: Parts): Trace
    decreases ps
  {
    match ps
    case NoParts => []
    case Parts(p, rest) =>
      if p.Return? then [] else
      BuildTrace(h, t, p) +
      match BuildPart(h, t, p)
      case None => []
      case Some(t1) => BuildTraces(h, t1, rest)
  }

  function GlobalTrace(h: Hash, t: Table, g: Global): Trace
  {
    match g
    case GlobalConst(_) => []
    case GlobalVar(defs) =>
      (match BuildGlobal(h, t, g)
       case None => []
       case Some(t1) => DefAnswers(h, t1, defs))
    case Func(f, ps, body) =>
      [Get(h, Add(h, t, f), f)] + GetAll(h, FuncScope(h, t, f, ps), ps) + BuildTrace(h, FuncScope(h, t, f, ps),
          Block(body))
  }

  function GlobalTraces(h: Hash, t: Table, gs: seq<Global>): Trace
    decreases |gs|
  {
    if gs == [] then [] else
    GlobalTrace(h, t, gs[0]) +
    match BuildGlobal(h, t, gs[0])
    case None => []
    case Some(t1) => GlobalTraces(h, t1, gs[1..])
  }

  // ----- the replay pass -----

  /** A table and the answers so far; None once the pass has gone wrong. */
  datatype Replayed = Replayed(table: Table, trace: Trace)

  function ReplayPart(h: Hash, t: Table, p: Part): Option<Replayed>
    decreases p
  {
    match p
    case Use(n) => Some(Replayed(t, [Get(h, t, n)]))
    case Return => Some(Replayed(t, []))
    case Const(_) =>
      (match Enter(t)
       case None => None
       case Some(t1) => Some(Replayed(t1, [])))
    case Var(defs) =>
      (match Enter(t)
       case None => None
       case Some(t1) => Some(Replayed(t1, DefAnswers(h, t1, defs))))
    case Block(parts) =>
      match Enter(t)
      case None => None
      case Some(t1) =>
        match ReplayParts(h, t1, parts)
        case None => None
        case Some(r) =>
          match Dedent(h, r.table)
          case None => None
          case Some(t2) => Some(Replayed(t2, r.trace))
  }

  /** BlockItemList of src/ir.c: nothing after a `return` is visited. */
  function ReplayParts(h: Hash, t: Table, ps: Parts): Option<Replayed>
    decreases ps
  {
    match ps
    case NoParts => Some(Replayed(t, []))
    case Parts(p, rest) =>
      match ReplayPart(h, t, p)
      case None => None
      case Some(r) =>
        if p.Return? then Some(r) else
        match ReplayParts(h, r.table, rest)
        case None => None
        case Some(q) => Some(Replayed(q.table, r.trace + q.trace))
  }

  function ReplayGlobal(h: Hash, t: Table, g: Global): Option<Replayed>
  {
    match g
    case GlobalConst(_) => Some(Replayed(t, []))
    case GlobalVar(defs) => Some(Replayed(t, DefAnswers(h, t, defs)))
    case Func(f, ps, body) =>
      match Enter(t)
      case None => None
      case Some(t1) =>
        match ReplayPart(h, t1, Block(body))
        case None => None
        case Some(r) =>
          match Dedent(h, r.table)
          case None => None
          case Some(t2) => Some(Replayed(t2, [Get(h, t, f)] + GetAll(h, t1, ps) + r.trace))
  }

  function ReplayGlobals(h: Hash, t: Table, gs: seq<Global>): Option<Replayed>
    decreases |gs|
  {
    if gs == [] then Some(Replayed(t, [])) else
    match ReplayGlobal(h, t, gs[0])
    case None => None
    case Some(r) =>
      match ReplayGlobals(h, r.table, gs[1..])
      case None => None
      case Some(q) => Some(Replayed(q.table, r.trace + q.trace))
  }
}
