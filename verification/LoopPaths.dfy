/**
 * Where `break` and `continue` may stand, by the way from a statement down to them.
 */
module LoopPaths {
  import opened Words
  import opened Source

  /** The item of a block with this index, if it is a statement. */
  function Nth(items: Items, i: nat): Option<Stmt>
    decreases items
  {
    match items
    case NoItems => None
    case Items(head, tail) => if i > 0 then Nth(tail, i - 1) else if head.Stm? then Some(head.s) else None
  }

  /** A statement right inside another. */
  function Child(st: Stmt, i: nat): Option<Stmt>
  {
    match st
    case Block(items) => Nth(items, i)
    case If(_, t, f) => if i == 0 then Some(t) else if i == 1 then f else None
    case While(_, body) => if i == 0 then Some(body) else None
    case _ => None
  }

  /** The statement at the end of a path. */
  function At(st: Stmt, path: seq<nat>): Option<Stmt>
    decreases |path|
  {
    if path == [] then Some(st)
    else
      match Child(st, path[0])
      case None => None
      case Some(c) => At(c, path[1..])
  }

  predicate LeavesAt(st: Stmt, path: seq<nat>)
  {
    At(st, path).Some? && (At(st, path).value.Break? || At(st, path).value.Continue?)
  }

  /** Some statement on the path, the last one excepted, is a loop. */
  predicate UnderLoop(st: Stmt, path: seq<nat>)
    decreases |path|
  {
    path != [] && (st.While? || (Child(st, path[0]).Some? && UnderLoop(Child(st, path[0]).value, path[1..])))
  }

  ghost predicate AllUnderLoops(st: Stmt)
  {
    forall path: seq<nat> :: LeavesAt(st, path) ==> UnderLoop(st, path)
  }

  lemma DownOne(st: Stmt, i: nat, path: seq<nat>)
    requires Child(st, i).Some?
    ensures LeavesAt(st, [i] + path) <==> LeavesAt(Child(st, i).value, path)
    ensures UnderLoop(st, [i] + path) <==> st.While? || UnderLoop(Child(st, i).value, path)
  {
    assert ([i] + path)[1..] == path;
  }

  /** Below a statement that is no loop. */
  lemma ChildrenUnder(st: Stmt)
    requires !st.While? && !st.Break? && !st.Continue?
    ensures AllUnderLoops(st) <==> forall i: nat :: Child(st, i).Some? ==> AllUnderLoops(Child(st, i).value)
  {
    if AllUnderLoops(st) {
      forall i: nat | Child(st, i).Some? ensures AllUnderLoops(Child(st, i).value) {
        forall path | LeavesAt(Child(st, i).value, path) ensures UnderLoop(Child(st, i).value, path) {
          DownOne(st, i, path);
        }
      }
    }
    if forall i: nat :: Child(st, i).Some? ==> AllUnderLoops(Child(st, i).value) {
      forall path | LeavesAt(st, path) ensures UnderLoop(st, path) {
        assert path != [] && path == [path[0]] + path[1..];
        DownOne(st, path[0], path[1..]);
      }
    }
  }

  lemma {:induction false} LoopsAllow(st: Stmt)
    ensures WellNested(st, true)
    decreases st
  {
    match st
    case Block(items) => ItemsAllow(items);
    case If(_, t, f) =>
      LoopsAllow(t);
      if f.Some? { LoopsAllow(f.value); }
    case While(_, body) => LoopsAllow(body);
    case _ =>
  }

  lemma {:induction false} ItemsAllow(items: Items)
    ensures ItemsWellNested(items, true)
    decreases items
  {
    if items.Items? {
      if items.head.Stm? { LoopsAllow(items.head.s); }
      ItemsAllow(items.tail);
    }
  }

  ghost predicate AllItems(items: Items)
  {
    forall i: nat :: Nth(items, i).Some? ==> AllUnderLoops(Nth(items, i).value)
  }

  lemma BlockChildren(st: Stmt)
    requires st.Block?
    ensures AllUnderLoops(st) <==> AllItems(st.items)
  {
    ChildrenUnder(st);
    hide AllUnderLoops;
    if AllUnderLoops(st) {
      forall i: nat | Nth(st.items, i).Some? ensures AllUnderLoops(Nth(st.items, i).value) {
        assert Child(st, i).Some?;
      }
    } else {
      var i: nat :| Child(st, i).Some? && !AllUnderLoops(Child(st, i).value);
      assert Nth(st.items, i).Some?;
    }
  }

  lemma AllItemsHead(items: Items)
    requires items.Items?
    ensures AllItems(items) <==> (items.head.Stm? ==> AllUnderLoops(items.head.s)) && AllItems(items.tail)
  {
    hide AllUnderLoops;
    assert Nth(items, 0) == if items.head.Stm? then Some(items.head.s) else None;
    forall i: nat ensures Nth(items, i + 1) == Nth(items.tail, i) {}
    if AllItems(items) {
      forall i: nat | Nth(items.tail, i).Some? ensures AllUnderLoops(Nth(items.tail, i).value) {
        assert Nth(items, i + 1).Some?;
      }
    } else {
      var i: nat :| Nth(items, i).Some? && !AllUnderLoops(Nth(items, i).value);
      if i > 0 { assert Nth(items, (i - 1) + 1) == Nth(items.tail, i - 1); }
    }
  }

  /** The check accepts a statement if and only if every `break` and `continue` in it stands under a loop. */
  lemma {:induction false} NestedExactly(st: Stmt)
    ensures WellNested(st, false) <==> AllUnderLoops(st)
    decreases st
  {
    match st
    case Block(items) =>
      ItemsExactly(items);
      BlockChildren(st);
    case If(_, t, f) =>
      NestedExactly(t);
      if f.Some? { NestedExactly(f.value); }
      ChildrenUnder(st);
      assert Child(st, 0) == Some(t) && Child(st, 1) == f;
    case While(_, body) =>
      LoopsAllow(body);
      forall path | LeavesAt(st, path) ensures UnderLoop(st, path) {}
    case Break => assert LeavesAt(st, []) && !UnderLoop(st, []);
    case Continue => assert LeavesAt(st, []) && !UnderLoop(st, []);
    case _ => ChildrenUnder(st);
  }

  lemma {:induction false} ItemsExactly(items: Items)
    ensures ItemsWellNested(items, false) <==> AllItems(items)
    decreases items
  {
    hide AllUnderLoops;
    if items.Items? {
      ItemsExactly(items.tail);
      if items.head.Stm? { NestedExactly(items.head.s); }
      AllItemsHead(items);
    }
  }
}
