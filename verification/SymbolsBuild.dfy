/**
 * The build pass of the symbol table: comparing (level, scope) pairs is lexical scoping.
 */
module SymbolsBuild {
  import opened Words
  import opened Symbols

  // ----- lexical scoping -----

  /** A lexical environment: the names declared so far, and the declarations visible here, outermost
      first. A block hands back the environment it was given. */
  datatype Lex = Lex(names: seq<string>, env: seq<nat>)

  function Declare(x: Lex, n: string): Lex { Lex(x.names + [n], x.env + [|x.names|]) }

  /** The innermost declaration of a name. */
  function Lookup(x: Lex, n: string): Option<nat>
    decreases |x.env|
  {
    if x.env == [] then None
    else
      var last := x.env[|x.env| - 1];
      if last < |x.names| && x.names[last] == n then Some(last) else Lookup(x.(env := x.env[..|x.env| - 1]), n)
  }

  function LookupAll(x: Lex, ns: seq<string>): Trace
  {
    if ns == [] then [] else [Lookup(x, ns[0])] + LookupAll(x, ns[1..])
  }

  function LexDefs(x: Lex, defs: Defs): Lex
    decreases defs
  {
    var y := Declare(x, defs.def.name);
    if defs.Last? then y else LexDefs(y, defs.rest)
  }

  function LexAnswers(x: Lex, defs: Defs): Trace
  {
    [Lookup(x, defs.def.name)] + LookupAll(x, defs.def.uses) + (if defs.Last? then [] else LexAnswers(x, defs.rest))
  }

  function LexParams(x: Lex, ps: seq<string>): Lex
  {
    if ps == [] then x else Declare(LexParams(x, ps[..|ps| - 1]), ps[|ps| - 1])
  }

  /** The environment after a part. */
  function LexPart(x: Lex, p: Part): Lex
    decreases p
  {
    match p
    case Const(defs) => LexDefs(x, defs)
    case Var(defs) => LexDefs(x, defs)
    case Block(parts) => LexParts(x, parts).(env := x.env)
    case _ => x
  }

  function LexParts(x: Lex, ps: Parts): Lex
    decreases ps
  {
    match ps
    case NoParts => x
    case Parts(p, rest) => LexParts(LexPart(x, p), rest)
  }

  /** What every name means, by lexical scoping. */
  function LexTrace(x: Lex, p: Part): Trace
    decreases p
  {
    match p
    case Use(n) => [Lookup(x, n)]
    case Var(defs) => LexAnswers(LexPart(x, p), defs)
    case Block(parts) => LexTraces(x, parts)
    case _ => []
  }

  function LexTraces(x: Lex, ps: Parts): Trace
    decreases ps
  {
    match ps
    case NoParts => []
    case Parts(p, rest) => if p.Return? then [] else LexTrace(x, p) + LexTraces(LexPart(x, p), rest)
  }

  function LexGlobal(x: Lex, g: Global): Lex
  {
    match g
    case GlobalConst(defs) => LexDefs(x, defs)
    case GlobalVar(defs) => LexDefs(x, defs)
    case Func(f, ps, body) =>
      var y := Declare(x, f);
      LexPart(LexParams(y, ps), Block(body)).(env := y.env)
  }

  function LexGlobalTrace(x: Lex, g: Global): Trace
  {
    match g
    case GlobalConst(_) => []
    case GlobalVar(defs) => LexAnswers(LexGlobal(x, g), defs)
    case Func(f, ps, body) =>
      var y := Declare(x, f);
      [Lookup(y, f)] + LookupAll(LexParams(y, ps), ps) + LexTrace(LexParams(y, ps), Block(body))
  }

  function LexGlobalTraces(x: Lex, gs: seq<Global>): Trace
    decreases |gs|
  {
    if gs == [] then [] else LexGlobalTrace(x, gs[0]) + LexGlobalTraces(LexGlobal(x, gs[0]), gs[1..])
  }

  // ----- the invariant of the table -----

  predicate Ascending(ids: seq<nat>) { forall i, j :: 0 <= i < j < |ids| ==> ids[i] < ids[j] }

  predicate Descending(ids: seq<nat>) { forall i, j :: 0 <= i < j < |ids| ==> ids[i] > ids[j] }

  /** An item that has not been destroyed. */
  predicate Alive(t: Table, x: nat)
  {
    x < |t.items| && 0 <= t.items[x].level < |t.levels| && t.items[x].scope >= t.levels[t.items[x].level].begin
  }

  /** Each bucket lists the living items of its hash, newest first. */
  ghost predicate BucketsOk(h: Hash, t: Table)
  {
    forall b: Bucket ::
      Descending(t.buckets[b]) && forall x: nat :: x in t.buckets[b] <==> Alive(t, x) && h(t.items[x].key) == b
  }

  predicate DeclaredAt(t: Table, x: nat, l: int, s: int)
  {
    x < |t.items| && t.items[x].level == l && t.items[x].scope == s
  }

  /** Each scope's chain lists the items declared in it, oldest first. */
  ghost predicate ChainsOk(t: Table)
  {
    && (forall l, s :: 0 <= l < |t.levels| && 0 <= s < |t.levels[l].scopes| ==>
          Ascending(t.levels[l].scopes[s]) && forall x :: x in t.levels[l].scopes[s] <==> DeclaredAt(t, x, l, s))
    && (forall x :: 0 <= x < |t.items| ==>
          0 <= t.items[x].level < |t.levels| && 0 <= t.items[x].scope < |t.levels[t.items[x].level].scopes|)
  }

  predicate LevelsOk(t: Table)
  {
    && 0 <= t.level < |t.levels|
    && forall l :: 0 <= l < |t.levels| ==>
         t.levels[l].begin == 0 && |t.levels[l].scopes| > 0 && t.levels[l].scope == |t.levels[l].scopes| - 1
  }

  /** The items of the open scopes, outermost first. */
  function Open(t: Table, l: int): seq<nat>
    decreases l + 1
  {
    if l < 0 then [] else Open(t, l - 1) + LevelAt(t, l).Chain()
  }

  /** What holds all through the build pass; scopes are opened inside out, so deeper items are newer. */
  ghost predicate BuildOk(h: Hash, t: Table)
  {
    LevelsOk(t) && ChainsOk(t) && BucketsOk(h, t) && Ascending(Open(t, t.level))
  }

  // ----- lookups -----

  /** What a search for name n by a test must answer: the newest of the living that pass. */
  ghost predicate Newest(t: Table, n: string, test: (Table, nat) -> bool, r: Option<nat>)
  {
    match r
    case None => forall x: nat :: Alive(t, x) && Named(t, x, n) ==> !test(t, x)
    case Some(x) =>
      && Alive(t, x) && Named(t, x, n) && test(t, x)
      && forall y: nat :: Alive(t, y) && Named(t, y, n) && test(t, y) ==> y <= x
  }

  lemma {:induction false} FirstIsNewest(t: Table, ids: seq<nat>, n: string, test: (Table, nat) -> bool)
    requires Descending(ids)
    ensures match First(t, ids, n, test)
            case None => forall x :: x in ids && Named(t, x, n) ==> !test(t, x)
            case Some(x) => x in ids && Named(t, x, n) && test(t, x)
                            && forall y :: y in ids && Named(t, y, n) && test(t, y) ==> y <= x
  {
    if ids != [] {
      FirstIsNewest(t, ids[1..], n, test);
      assert forall x :: x in ids <==> x == ids[0] || x in ids[1..];
    }
  }

  /** With chained buckets a search finds the newest, whatever collides. */
  lemma SearchIsNewest(h: Hash, t: Table, n: string, test: (Table, nat) -> bool)
    requires BucketsOk(h, t)
    ensures Newest(t, n, test, First(t, t.buckets[h(n)], n, test))
  {
    FirstIsNewest(t, t.buckets[h(n)], n, test);
  }

  /** There is only one newest. */
  lemma NewestUnique(t: Table, n: string, test: (Table, nat) -> bool, r: Option<nat>, q: Option<nat>)
    requires Newest(t, n, test, r) && Newest(t, n, test, q)
    ensures r == q
  {
  }

  /** The items of the open scopes are those symbols_saw sees. */
  lemma {:induction false} OpenIsSaw(t: Table, l: int, x: nat)
    requires ChainsOk(t) && LevelsOk(t) && -1 <= l <= t.level
    ensures x in Open(t, l) <==> x < |t.items| && t.items[x].level <= l && Saw(t, x)
    decreases l + 1
  {
    if l >= 0 {
      OpenIsSaw(t, l - 1, x);
      assert LevelAt(t, l).Chain() == t.levels[l].scopes[t.levels[l].scope];
      assert x in LevelAt(t, l).Chain() <==> DeclaredAt(t, x, l, t.levels[l].scope);
    }
  }

  /** The table read as a lexical environment. */
  function Keys(items: seq<Item>): seq<string>
  {
    seq(|items|, i requires 0 <= i < |items| => items[i].key)
  }

  function Abs(t: Table): Lex { Lex(Keys(t.items), Open(t, t.level)) }

  /** r is the newest declaration of n in an environment. */
  predicate NewestIn(names: seq<string>, env: seq<nat>, n: string, r: Option<nat>)
  {
    match r
    case None => forall y :: y in env ==> !(y < |names| && names[y] == n)
    case Some(x) =>
      x in env && x < |names| && names[x] == n && forall y :: y in env && y < |names| && names[y] == n ==> y <= x
  }

  lemma {:induction false} LookupIsNewest(x: Lex, n: string)
    requires Ascending(x.env)
    ensures NewestIn(x.names, x.env, n, Lookup(x, n))
    decreases |x.env|
  {
    if x.env != [] {
      var m := |x.env| - 1;
      var init, last := x.env[..m], x.env[m];
      LookupIsNewest(x.(env := init), n);
      AscendingLast(init, last, x.env);
      NewestMore(x.names, init, last, n, Lookup(x.(env := init), n));
      assert x.env == init + [last];
    }
  }

  lemma AscendingLast(init: seq<nat>, last: nat, ids: seq<nat>)
    requires ids == init + [last] && Ascending(ids)
    ensures Ascending(init) && forall y :: y in init ==> y < last
  {
    assert forall i :: 0 <= i < |init| ==> ids[i] == init[i] < ids[|init|];
  }

  lemma NewestMore(names: seq<string>, init: seq<nat>, last: nat, n: string, r: Option<nat>)
    requires NewestIn(names, init, n, r) && forall y :: y in init ==> y < last
    ensures NewestIn(names, init + [last], n, if last < |names| && names[last] == n then Some(last) else r)
  {
    assert forall y :: y in init + [last] <==> y in init || y == last;
  }

  /** For any hash function and any collisions, symbols_get answers the innermost open declaration. */
  lemma GetIsLexical(h: Hash, t: Table, n: string)
    requires BuildOk(h, t)
    ensures Get(h, t, n) == Lookup(Abs(t), n)
  {
    SearchIsNewest(h, t, n, Saw);
    forall x: nat ensures x in Open(t, t.level) <==> Saw(t, x) {
      OpenIsSaw(t, t.level, x);
    }
    hide Open, BucketsOk, ChainsOk;
    LookupIsNewest(Abs(t), n);
    assert LevelsOk(t);
    assert forall x: nat :: Saw(t, x) && x < |t.items| ==> Alive(t, x) by { SawAlive(t); }
  }

  lemma SawAlive(t: Table)
    requires BuildOkShape(t)
    ensures forall x: nat :: x < |t.items| ==> Alive(t, x)
  {
  }

  /** The part of the invariant that has no hash in it. */
  ghost predicate BuildOkShape(t: Table) { LevelsOk(t) && ChainsOk(t) }

  lemma GetAllIsLexical(h: Hash, t: Table, ns: seq<string>)
    requires BuildOk(h, t)
    ensures GetAll(h, t, ns) == LookupAll(Abs(t), ns)
  {
    hide BuildOk, Abs, Get;
    if ns != [] {
      GetIsLexical(h, t, ns[0]);
      GetAllIsLexical(h, t, ns[1..]);
    }
  }

  /** In the current scope there is no newer declaration than the innermost one. */
  lemma HereIsInnermost(h: Hash, t: Table, n: string)
    requires BuildOk(h, t)
    ensures GetHere(h, t, n).Some? ==> GetHere(h, t, n) == Get(h, t, n)
    ensures GetHere(h, t, n).Some? <==> exists x :: x in LevelAt(t, t.level).Chain() && Named(t, x, n)
  {
    SearchIsNewest(h, t, n, Saw);
    SearchIsNewest(h, t, n, Here);
    SawAlive(t);
    forall x: nat ensures x in LevelAt(t, t.level).Chain() <==> Here(t, x) {
      assert x in t.levels[t.level].scopes[t.levels[t.level].scope] <==>
             DeclaredAt(t, x, t.level, t.levels[t.level].scope);
    }
    if GetHere(h, t, n).Some? {
      var x, y := GetHere(h, t, n).value, Get(h, t, n).value;
      OpenIsSaw(t, t.level, y);
      OpenIsSaw(t, t.level - 1, y);
      LastInOpen(t, x, y);
    }
  }

  lemma LastInOpen(t: Table, x: nat, y: nat)
    requires Ascending(Open(t, t.level)) && 0 <= t.level
    requires x in LevelAt(t, t.level).Chain() && y in Open(t, t.level) && y >= x
    ensures y in LevelAt(t, t.level).Chain()
  {
    var c, o := LevelAt(t, t.level).Chain(), Open(t, t.level - 1);
    var i :| 0 <= i < |c| && c[i] == x;
    assert Open(t, t.level) == o + c;
    forall j | 0 <= j < |o| ensures o[j] < x {
      assert Open(t, t.level)[j] < Open(t, t.level)[|o| + i];
    }
  }

  // ----- the operations keep the invariant -----

  /** The scope s of level l is one declarations may still be added to. */
  predicate IsOpen(t: Table, l: int, s: int)
  {
    0 <= l <= t.level && l < |t.levels| && s == |t.levels[l].scopes| - 1
  }

  /** Nothing is lost: items and scopes are only added, and closed scopes stay as they are. */
  ghost predicate Grows(t: Table, u: Table)
  {
    && t.items <= u.items && |t.levels| <= |u.levels|
    && (forall l :: 0 <= l < |t.levels| ==> |t.levels[l].scopes| <= |u.levels[l].scopes|)
    && (forall l, s :: 0 <= l < |t.levels| && 0 <= s < |t.levels[l].scopes| ==>
          && t.levels[l].scopes[s] <= u.levels[l].scopes[s]
          && (!IsOpen(t, l, s) ==> t.levels[l].scopes[s] == u.levels[l].scopes[s]))
    && (forall l :: 0 <= l < |t.levels| && t.level < l <= u.level ==> |t.levels[l].scopes| < |u.levels[l].scopes|)
  }

  lemma GrowsThrough(t: Table, u: Table, v: Table)
    requires Grows(t, u) && Grows(u, v)
    ensures Grows(t, v)
  {
  }

  /** The levels up to t's are as they were. */
  ghost predicate KeepsBelow(t: Table, u: Table)
  {
    t.level <= u.level && |t.levels| <= |u.levels| && forall l :: 0 <= l <= t.level && l < |t.levels| ==>
      u.levels[l] == t.levels[l]
  }

  lemma {:induction false} SameOpen(t: Table, u: Table, l: int)
    requires forall k :: 0 <= k <= l ==> LevelAt(t, k) == LevelAt(u, k)
    ensures Open(t, l) == Open(u, l)
    decreases l + 1
  {
    if l >= 0 {
      SameOpen(t, u, l - 1);
    }
  }

  lemma IndentOk(h: Hash, t: Table)
    requires BuildOk(h, t)
    ensures var u := Indent(t);
            && BuildOk(h, u) && u.level == t.level + 1 && u.items == t.items
            && LevelAt(u, u.level).Chain() == [] && Abs(u) == Abs(t)
            && Grows(t, u) && KeepsBelow(t, u)
  {
    var u := Indent(t);
    IndentShape(t);
    SameOpen(t, u, t.level);
    assert Open(u, u.level) == Open(u, t.level) + [];
    SameBuckets(h, t, u);
  }

  lemma IndentShape(t: Table)
    requires BuildOkShape(t)
    ensures var u := Indent(t);
            && BuildOkShape(u) && u.level == t.level + 1 && u.items == t.items && u.buckets == t.buckets
            && LevelAt(u, u.level).Chain() == [] && Grows(t, u) && KeepsBelow(t, u)
  {
    var u := Indent(t);
    var l := t.level + 1;
    assert LevelAt(u, l).scopes == LevelAt(t, l).scopes + [[]];
    assert forall k :: 0 <= k < |t.levels| && k != l ==> u.levels[k] == t.levels[k];
    assert ChainsOk(u) by {
      forall k, s | 0 <= k < |u.levels| && 0 <= s < |u.levels[k].scopes|
        ensures Ascending(u.levels[k].scopes[s]) && forall x :: x in u.levels[k].scopes[s] <==> DeclaredAt(u, x, k, s)
      {
        if k < |t.levels| && s < |t.levels[k].scopes| {
          assert u.levels[k].scopes[s] == t.levels[k].scopes[s];
          assert forall x :: x in t.levels[k].scopes[s] <==> DeclaredAt(t, x, k, s);
        } else {
          assert u.levels[k].scopes[s] == [];
        }
      }
    }
  }

  lemma SameBuckets(h: Hash, t: Table, u: Table)
    requires BuildOk(h, t) && u.buckets == t.buckets && u.items == t.items && BuildOkShape(u)
    ensures BucketsOk(h, u)
  {
    SawAlive(t);
    SawAlive(u);
    hide LevelsOk, ChainsOk, Descending;
    forall b: Bucket ensures Descending(u.buckets[b]) && forall x: nat :: x in u.buckets[b] <==>
      Alive(u, x) && h(u.items[x].key) == b {
      assert Descending(t.buckets[b]);
    }
  }

  /** The table with one empty scope on level 0. */
  lemma StartIs()
    ensures Start() == Table([], seq(256, i => []), [Level(0, 0, [[]])], 0)
  {
    var v := Level(0, -1, []);
    assert [] + [v] == [v] && [v][0 := Offer(v)] == [Offer(v)] && Offer(v).scopes == [[]];
  }

  lemma EmptyBuckets(h: Hash, t: Table)
    requires t.items == [] && t.buckets == seq(256, i => [])
    ensures BucketsOk(h, t)
  {
  }

  lemma EmptyShape(t: Table)
    requires t.items == [] && t.levels == [Level(0, 0, [[]])] && t.level == 0
    ensures LevelsOk(t) && ChainsOk(t) && Open(t, 0) == []
  {
    assert Open(t, 0) == Open(t, -1) + [];
  }

  lemma StartOk(h: Hash)
    ensures BuildOk(h, Start()) && Start().level == 0 && Abs(Start()) == Lex([], [])
  {
    hide LevelsOk, ChainsOk, BucketsOk, Open, Start;
    var t := Start();
    StartIs();
    EmptyBuckets(h, t);
    EmptyShape(t);
    assert Keys(t.items) == [];
  }

  lemma AddOk(h: Hash, t: Table, n: string)
    requires BuildOk(h, t)
    ensures var u := Add(h, t, n);
            && BuildOk(h, u) && u.level == t.level && Abs(u) == Declare(Abs(t), n)
            && LevelAt(u, u.level).Chain() == LevelAt(t, t.level).Chain() + [|t.items|]
            && Grows(t, u) && (forall l :: 0 <= l < t.level ==> u.levels[l] == t.levels[l])
  {
    var u := Add(h, t, n);
    AddShape(h, t, n);
    SameOpen(t, u, t.level - 1);
    var o, c := Open(t, t.level - 1), LevelAt(t, t.level).Chain();
    assert (o + c) + [|t.items|] == o + (c + [|t.items|]);
    assert Open(u, u.level) == Open(t, t.level) + [|t.items|];
    forall x | x in Open(t, t.level) ensures x < |t.items| { OpenIsSaw(t, t.level, x); }
    AscendingMore(Open(t, t.level), |t.items|);
    hide LevelsOk, ChainsOk, Grows, Ascending, Open;
    assert Keys(u.items) == Keys(t.items) + [n];
    assert BucketsOk(h, u) by { AddBuckets(h, t, n); }
  }

  lemma AscendingMore(ids: seq<nat>, x: nat)
    requires Ascending(ids) && forall y :: y in ids ==> y < x
    ensures Ascending(ids + [x])
  {
    assert forall i :: 0 <= i < |ids| ==> ids[i] in ids;
  }

  lemma DescendingMore(ids: seq<nat>, x: nat)
    requires Descending(ids) && forall y :: y in ids ==> y < x
    ensures Descending([x] + ids)
  {
    assert forall i :: 0 <= i < |ids| ==> ids[i] in ids;
  }

  lemma AddShape(h: Hash, t: Table, n: string)
    requires BuildOk(h, t)
    ensures var u := Add(h, t, n);
            && BuildOkShape(u) && Grows(t, u) && u.level == t.level && |u.levels| == |t.levels|
            && LevelAt(u, u.level).Chain() == LevelAt(t, t.level).Chain() + [|t.items|]
            && forall l :: 0 <= l < |t.levels| && l != t.level ==> u.levels[l] == t.levels[l]
  {
    var u, x := Add(h, t, n), |t.items|;
    assert ChainsOk(u) by {
      forall l, s | 0 <= l < |u.levels| && 0 <= s < |u.levels[l].scopes|
        ensures Ascending(u.levels[l].scopes[s]) && forall y :: y in u.levels[l].scopes[s] <==> DeclaredAt(u, y, l, s)
      {
        assert forall y :: y in t.levels[l].scopes[s] <==> DeclaredAt(t, y, l, s);
        if l == t.level && s == t.levels[l].scope {
          assert u.levels[l].scopes[s] == t.levels[l].scopes[s] + [x];
          AscendingMore(t.levels[l].scopes[s], x);
        } else {
          assert u.levels[l].scopes[s] == t.levels[l].scopes[s];
        }
      }
    }
  }

  lemma AddBuckets(h: Hash, t: Table, n: string)
    requires BuildOk(h, t) && BuildOkShape(Add(h, t, n))
    ensures BucketsOk(h, Add(h, t, n))
  {
    var u, x := Add(h, t, n), |t.items|;
    SawAlive(t);
    SawAlive(u);
    hide LevelsOk, ChainsOk, Open;
    forall b: Bucket ensures Descending(u.buckets[b]) && forall y: nat :: y in u.buckets[b] <==>
      Alive(u, y) && h(u.items[y].key) == b {
      assert forall y: nat :: y in t.buckets[b] <==> Alive(t, y) && h(t.items[y].key) == b;
      if b == h(n) {
        assert u.buckets[b] == [x] + t.buckets[b];
        DescendingMore(t.buckets[b], x);
      }
    }
  }

  // ----- blocks -----

  /** Level b is a block's own, with an empty scope; the levels above it are those of the block's
      declarations, none of them empty. */
  predicate Opened(t: Table, b: int)
  {
    && 1 <= b <= t.level < |t.levels| && LevelAt(t, b).Chain() == []
    && forall l :: b < l <= t.level ==> LevelAt(t, l).Chain() != []
  }

  /** symbols_leave leaves exactly the declarations of the block and the block. */
  lemma {:induction false} LeavesBlock(t: Table, b: int)
    requires Opened(t, b)
    ensures Leave(t) == t.(level := b - 1)
    decreases t.level
  {
    if t.level > b {
      var u := t.(level := t.level - 1);
      assert LevelAt(t, t.level).Chain() != [] && LevelAt(u, b) == LevelAt(t, b);
      forall l | b < l <= u.level ensures LevelAt(u, l).Chain() != [] {
        assert LevelAt(u, l) == LevelAt(t, l);
      }
      LeavesBlock(u, b);
    }
  }

  lemma LeaveOk(h: Hash, t: Table, l: int)
    requires BuildOk(h, t) && 0 <= l <= t.level
    ensures var u := t.(level := l); BuildOk(h, u) && Grows(t, u) && BuildOkShape(u)
  {
    var u := t.(level := l);
    OpenPrefix(t, l);
    SameOpen(t, u, l);
    assert ChainsOk(u);
    SameBuckets(h, t, u);
    assert forall i :: 0 <= i < |Open(t, l)| ==> Open(t, l)[i] == Open(t, t.level)[i];
  }

  lemma {:induction false} OpenPrefix(t: Table, l: int)
    requires -1 <= l <= t.level
    ensures Open(t, l) <= Open(t, t.level)
    decreases t.level - l
  {
    if l < t.level {
      OpenPrefix(t, l + 1);
    }
  }

  lemma {:induction false} DefsBuilt(h: Hash, t: Table, isConst: bool, defs: Defs, t1: Table)
    requires BuildOk(h, t) && BuildDefs(h, t, isConst, defs) == Some(t1)
    ensures BuildOk(h, t1) && Grows(t, t1) && t1.level == t.level && Abs(t1) == LexDefs(Abs(t), defs)
    ensures LevelAt(t1, t1.level).Chain() != [] && forall l :: 0 <= l < t.level ==> t1.levels[l] == t.levels[l]
    decreases defs
  {
    hide BuildOk, Grows, Abs, Add;
    var u := Add(h, t, defs.def.name);
    AddOk(h, t, defs.def.name);
    if defs.More? {
      DefsBuilt(h, u, isConst, defs.rest, t1);
      GrowsThrough(t, u, t1);
    }
  }

  // ----- the passes -----

  /** Reading back the declarations of one list: each name finds itself. */
  lemma {:induction false} DefsAnswered(h: Hash, t: Table, defs: Defs)
    requires BuildOk(h, t) && DefsHere(h, t, defs)
    ensures DefAnswers(h, t, defs) == LexAnswers(Abs(t), defs)
    decreases defs
  {
    hide BuildOk, Abs, Get, GetHere;
    HereIsInnermost(h, t, defs.def.name);
    GetIsLexical(h, t, defs.def.name);
    GetAllIsLexical(h, t, defs.def.uses);
    if defs.More? {
      DefsAnswered(h, t, defs.rest);
    }
  }

  /** Every name of the list is declared in the current scope. */
  predicate DefsHere(h: Hash, t: Table, defs: Defs)
  {
    GetHere(h, t, defs.def.name).Some? && (defs.More? ==> DefsHere(h, t, defs.rest))
  }

  predicate ChainNames(t: Table, n: string) { exists x :: x in LevelAt(t, t.level).Chain() && Named(t, x, n) }

  lemma {:induction false} BuiltHere(h: Hash, t: Table, isConst: bool, defs: Defs, t1: Table)
    requires BuildOk(h, t) && BuildDefs(h, t, isConst, defs) == Some(t1)
    ensures DefsHere(h, t1, defs)
    ensures forall n :: ChainNames(t, n) ==> ChainNames(t1, n)
    decreases defs
  {
    hide BuildOk, Grows, Abs;
    var u := Add(h, t, defs.def.name);
    AddOk(h, t, defs.def.name);
    AddNames(h, t, defs.def.name);
    DefsBuilt(h, t, isConst, defs, t1);
    if defs.More? {
      BuiltHere(h, u, isConst, defs.rest, t1);
    }
    HereIsInnermost(h, t1, defs.def.name);
    assert ChainNames(t1, defs.def.name);
  }

  lemma AddNames(h: Hash, t: Table, n: string)
    requires BuildOk(h, t)
    ensures var u := Add(h, t, n); ChainNames(u, n) && forall m :: ChainNames(t, m) ==> ChainNames(u, m)
  {
    AddOk(h, t, n);
    var u, x := Add(h, t, n), |t.items|;
    assert x in LevelAt(u, u.level).Chain() && Named(u, x, n);
    forall m | ChainNames(t, m) ensures ChainNames(u, m) {
      var y :| y in LevelAt(t, t.level).Chain() && Named(t, y, m);
      assert y in LevelAt(u, u.level).Chain() && Named(u, y, m);
    }
  }

  /** A declaration statement opens a level of its own. */
  lemma DeclBuilt(h: Hash, t: Table, isConst: bool, defs: Defs, t1: Table)
    requires BuildOk(h, t) && BuildDefs(h, Indent(t), isConst, defs) == Some(t1)
    ensures BuildOk(h, t1) && Grows(t, t1) && KeepsBelow(t, t1) && t1.level == t.level + 1
    ensures Abs(t1) == LexDefs(Abs(t), defs) && LevelAt(t1, t1.level).Chain() != []
    ensures DefAnswers(h, t1, defs) == LexAnswers(Abs(t1), defs)
  {
    hide BuildOk, Grows, Abs, Indent;
    IndentOk(h, t);
    DefsBuilt(h, Indent(t), isConst, defs, t1);
    GrowsThrough(t, Indent(t), t1);
    BuiltHere(h, Indent(t), isConst, defs, t1);
    DefsAnswered(h, t1, defs);
  }

  lemma KeepsThrough(t: Table, u: Table, v: Table)
    requires KeepsBelow(t, u) && KeepsBelow(u, v)
    ensures KeepsBelow(t, v)
  {
  }

  /** An enclosing block stays open while lower levels are kept and no empty one is put on top. */
  lemma StaysOpened(t: Table, u: Table, b: int)
    requires Opened(t, b) && KeepsBelow(t, u) && u.level < |u.levels|
    requires u.level == t.level || (u.level == t.level + 1 && LevelAt(u, u.level).Chain() != [])
    ensures Opened(u, b)
  {
    assert forall l :: 0 <= l <= t.level ==> LevelAt(u, l) == LevelAt(t, l);
  }

  /** One part of a block: names mean what lexical scoping says, and the block stays recognisable. */
  lemma {:induction false} PartBuilt(h: Hash, t: Table, b: int, p: Part, t1: Table)
    requires BuildOk(h, t) && Opened(t, b) && BuildPart(h, t, p) == Some(t1)
    ensures BuildOk(h, t1) && Opened(t1, b) && Grows(t, t1) && KeepsBelow(t, t1)
    ensures Abs(t1) == LexPart(Abs(t), p) && BuildTrace(h, t, p) == LexTrace(Abs(t), p)
    decreases p, 1
  {
    assert Grows(t, t);
    assert t.level < |t.levels|;
    hide BuildOk, Grows, Abs, Get;
    match p
    case Use(n) => GetIsLexical(h, t, n);
    case Return =>
    case Const(defs) =>
      DeclBuilt(h, t, true, defs, t1);
      InLevels(h, t1);
      StaysOpened(t, t1, b);
    case Var(defs) =>
      DeclBuilt(h, t, false, defs, t1);
      InLevels(h, t1);
      StaysOpened(t, t1, b);
    case Block(parts) =>
      BlockBuilt(h, t, p, t1);
      InLevels(h, t1);
      StaysOpened(t, t1, b);
  }

  lemma InLevels(h: Hash, t: Table)
    requires BuildOk(h, t)
    ensures 0 <= t.level < |t.levels|
  {
  }

  lemma {:induction false} BlockBuilt(h: Hash, t: Table, p: Part, t1: Table)
    requires BuildOk(h, t) && p.Block? && BuildPart(h, t, p) == Some(t1)
    ensures BuildOk(h, t1) && t1.level == t.level && Grows(t, t1) && KeepsBelow(t, t1)
    ensures Abs(t1) == LexPart(Abs(t), p) && BuildTrace(h, t, p) == LexTrace(Abs(t), p)
    ensures var u := BuildParts(h, Indent(t), p.parts);
            && u.Some? && Opened(u.value, t.level + 1) && t1 == u.value.(level := t.level)
            && BuildOk(h, u.value) && KeepsBelow(Indent(t), u.value) && Grows(u.value, t1)
    decreases p, 0
  {
    hide BuildOk, Grows, Abs;
    InLevels(h, t);
    IndentOk(h, t);
    InLevels(h, Indent(t));
    var u := BuildParts(h, Indent(t), p.parts).value;
    PartsBuilt(h, Indent(t), t.level + 1, p.parts, u);
    LeavesBlock(u, t.level + 1);
    LeaveOk(h, u, t.level);
    GrowsThrough(t, Indent(t), u);
    GrowsThrough(t, u, t1);
    KeepsThrough(t, Indent(t), u);
    BackToAbs(t, u, t1, p.parts);
  }

  lemma BackToAbs(t: Table, u: Table, t1: Table, parts: Parts)
    requires KeepsBelow(t, u) && t1 == u.(level := t.level) && Abs(u) == LexParts(Abs(t), parts) && t.level < |t.levels|
    ensures Abs(t1) == LexPart(Abs(t), Block(parts))
  {
    SameOpen(t, t1, t.level);
  }

  lemma {:induction false} PartsBuilt(h: Hash, t: Table, b: int, ps: Parts, t1: Table)
    requires BuildOk(h, t) && Opened(t, b) && BuildParts(h, t, ps) == Some(t1)
    ensures BuildOk(h, t1) && Opened(t1, b) && Grows(t, t1) && KeepsBelow(t, t1)
    ensures Abs(t1) == LexParts(Abs(t), ps) && BuildTraces(h, t, ps) == LexTraces(Abs(t), ps)
    decreases ps, 0
  {
    assert Grows(t, t);
    hide BuildOk, Grows, Abs, Opened;
    match ps
    case NoParts =>
    case Parts(p, rest) =>
      var u := BuildPart(h, t, p).value;
      PartBuilt(h, t, b, p, u);
      PartsBuilt(h, u, b, rest, t1);
      GrowsThrough(t, u, t1);
      KeepsThrough(t, u, t1);
  }

  // ----- whole programs -----

  lemma {:induction false} ParamsBuilt(h: Hash, t: Table, ps: seq<string>)
    requires BuildOk(h, t)
    ensures var u := AddParams(h, t, ps);
            && BuildOk(h, u) && u.level == t.level && Abs(u) == LexParams(Abs(t), ps) && Grows(t, u)
            && forall l :: 0 <= l < t.level ==> u.levels[l] == t.levels[l]
  {
    assert Grows(t, t);
    hide BuildOk, Grows, Abs, Add;
    if ps != [] {
      var u := AddParams(h, t, ps[..|ps| - 1]);
      ParamsBuilt(h, t, ps[..|ps| - 1]);
      AddOk(h, u, ps[|ps| - 1]);
      GrowsThrough(t, u, AddParams(h, t, ps));
    }
  }

  /** The state in which a function's body is built. */
  lemma FuncScopeBuilt(h: Hash, t: Table, f: string, ps: seq<string>)
    requires BuildOk(h, t) && t.level == 0
    ensures var u, v := Add(h, t, f), FuncScope(h, t, f, ps);
            && BuildOk(h, u) && u.level == 0 && Abs(u) == Declare(Abs(t), f)
            && BuildOk(h, v) && v.level == 1 && Abs(v) == LexParams(Abs(u), ps)
            && Grows(t, u) && Grows(u, v) && KeepsBelow(u, v)
  {
    hide BuildOk, Grows, Abs, Add, Indent;
    AddOk(h, t, f);
    var u := Add(h, t, f);
    IndentOk(h, u);
    ParamsBuilt(h, Indent(u), ps);
    GrowsThrough(u, Indent(u), FuncScope(h, t, f, ps));
    InLevels(h, FuncScope(h, t, f, ps));
    InLevels(h, u);
    InLevels(h, Indent(u));
  }

  lemma FuncBuilt(h: Hash, t: Table, g: Global, t1: Table)
    requires BuildOk(h, t) && t.level == 0 && g.Func? && BuildGlobal(h, t, g) == Some(t1)
    ensures BuildOk(h, t1) && t1.level == 0 && Grows(t, t1)
    ensures Abs(t1) == LexGlobal(Abs(t), g) && GlobalTrace(h, t, g) == LexGlobalTrace(Abs(t), g)
    ensures var v := BuildPart(h, FuncScope(h, t, g.name, g.params), Block(g.body));
            && v.Some? && t1 == v.value.(level := 0) && v.value.level == 1 && Grows(v.value, t1)
  {
    hide BuildOk, Grows, Abs, Add, FuncScope, Get, GetHere, BuildPart, BuildTrace;
    var u, v := Add(h, t, g.name), FuncScope(h, t, g.name, g.params);
    FuncScopeBuilt(h, t, g.name, g.params);
    var w := BuildPart(h, v, Block(g.body)).value;
    BlockBuilt(h, v, Block(g.body), w);
    LeaveOk(h, w, 0);
    GrowsThrough(t, u, v);
    GrowsThrough(t, v, w);
    GrowsThrough(t, w, t1);
    KeepsThrough(u, v, w);
    GetIsLexical(h, u, g.name);
    GetAllIsLexical(h, v, g.params);
    InLevels(h, u);
    assert Abs(t1) == LexPart(Abs(v), Block(g.body)).(env := Abs(u).env)
           by { FuncEnv(u, w, t1, LexPart(Abs(v), Block(g.body))); }
  }

  lemma FuncEnv(u: Table, w: Table, t1: Table, x: Lex)
    requires KeepsBelow(u, w) && u.level == 0 && t1 == w.(level := 0) && Abs(w) == x && u.level < |u.levels|
    ensures Abs(t1) == x.(env := Abs(u).env)
  {
    SameOpen(u, t1, 0);
  }

  lemma GlobalBuilt(h: Hash, t: Table, g: Global, t1: Table)
    requires BuildOk(h, t) && t.level == 0 && BuildGlobal(h, t, g) == Some(t1)
    ensures BuildOk(h, t1) && t1.level == 0 && Grows(t, t1)
    ensures Abs(t1) == LexGlobal(Abs(t), g) && GlobalTrace(h, t, g) == LexGlobalTrace(Abs(t), g)
  {
    hide BuildOk, Grows, Abs, Add, FuncScope, Get, GetHere, BuildPart, BuildTrace;
    match g
    case GlobalConst(defs) => DefsBuilt(h, t, true, defs, t1);
    case GlobalVar(defs) =>
      DefsBuilt(h, t, false, defs, t1);
      BuiltHere(h, t, false, defs, t1);
      DefsAnswered(h, t1, defs);
    case Func(_, _, _) => FuncBuilt(h, t, g, t1);
  }

  lemma {:induction false} GlobalsBuilt(h: Hash, t: Table, gs: seq<Global>, t1: Table)
    requires BuildOk(h, t) && t.level == 0 && BuildGlobals(h, t, gs) == Some(t1)
    ensures BuildOk(h, t1) && t1.level == 0 && Grows(t, t1)
    ensures GlobalTraces(h, t, gs) == LexGlobalTraces(Abs(t), gs)
    decreases |gs|
  {
    assert Grows(t, t);
    hide BuildOk, Grows, Abs, BuildGlobal, GlobalTrace;
    if gs != [] {
      var u := BuildGlobal(h, t, gs[0]).value;
      GlobalBuilt(h, t, gs[0], u);
      GlobalsBuilt(h, u, gs[1..], t1);
      GrowsThrough(t, u, t1);
    }
  }

  /** The build pass resolves a whole program as lexical scoping does, whatever the hash function. */
  lemma BuildIsLexical(h: Hash, gs: seq<Global>, t: Table)
    requires BuildGlobals(h, Start(), gs) == Some(t)
    ensures GlobalTraces(h, Start(), gs) == LexGlobalTraces(Lex([], []), gs)
    ensures BuildOk(h, t) && t.level == 0
  {
    StartOk(h);
    GlobalsBuilt(h, Start(), gs, t);
  }
}
