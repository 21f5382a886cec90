/**
 * The replay pass: entering scopes in the order they were opened finds the symbols the build pass found,
 * and destroys each of them once.
 */
module SymbolsReplay {
  import opened Words
  import opened Symbols
  import opened SymbolsBuild

  /** How many scopes were opened on a level. */
  function Count(t: Table, l: int): nat { |LevelAt(t, l).scopes| }

  /** The replay table r stands where build table b stood, f being what the whole build made: on the open
      levels the current scope is the same, and nothing of it or later is destroyed; on the others as many
      scopes are destroyed as were opened. */
  ghost predicate Sync(h: Hash, b: Table, r: Table, f: Table)
  {
    SyncLevels(b, r, f) && BucketsOk(h, r)
  }

  ghost predicate SyncLevels(b: Table, r: Table, f: Table)
  {
    && r.level == b.level && r.items == f.items && |r.levels| == |f.levels|
    && (forall l :: 0 <= l < |f.levels| ==> r.levels[l].scopes == f.levels[l].scopes)
    && (forall l :: 0 <= l <= b.level && l < |f.levels| ==>
          r.levels[l].begin == Count(b, l) - 1 && r.levels[l].scope == Count(b, l) - 1)
    && (forall l :: 0 <= l < |f.levels| && b.level < l ==>
          && r.levels[l].begin == Count(b, l)
          && r.levels[l].scope == (if Count(b, l) == 0 then |f.levels[l].scopes| else Count(b, l)) - 1)
  }

  /** The open scopes above the global one are complete. */
  ghost predicate Settled(b: Table, f: Table)
  {
    forall l | 1 <= l <= b.level && l < |b.levels| && l < |f.levels|
               && 0 < |b.levels[l].scopes| <= |f.levels[l].scopes| ::
      f.levels[l].scopes[|b.levels[l].scopes| - 1] == b.levels[l].scopes[|b.levels[l].scopes| - 1]
  }

  /** A build state on the way to f. */
  ghost predicate OnTheWay(h: Hash, b: Table, f: Table)
  {
    BuildOk(h, b) && BuildOk(h, f) && Grows(b, f) && f.level == 0 && Count(f, 0) == 1
  }

  /** A global of this name is declared after build state b. */
  ghost predicate LaterGlobal(b: Table, f: Table, n: string)
  {
    exists x: nat :: |b.items| <= x < |f.items| && f.items[x].level == 0 && Named(f, x, n)
  }

  // ----- lookups -----

  /** What both tables see, but for globals declared later. */
  lemma SameSight(h: Hash, b: Table, r: Table, f: Table, x: nat)
    requires OnTheWay(h, b, f) && Settled(b, f) && Sync(h, b, r, f)
    ensures Saw(b, x) <==> Saw(r, x) && (x < |b.items| || f.items[x].level != 0)
    ensures Saw(r, x) ==> Alive(r, x)
    ensures x < |b.items| ==> x < |f.items| && b.items[x] == f.items[x]
  {
    hide BucketsOk, Open;
    SawAlive(b);
    assert 0 < Count(b, 0) <= Count(f, 0);
    if x < |f.items| && Saw(r, x) {
      var l, s := f.items[x].level, f.items[x].scope;
      assert DeclaredAt(f, x, l, s) && s == Count(b, l) - 1;
      assert x in f.levels[l].scopes[s];
      if l >= 1 {
        assert x in b.levels[l].scopes[s];
        assert DeclaredAt(b, x, l, s);
      }
    }
    if x < |b.items| && Saw(b, x) {
      assert f.items[x] == b.items[x];
    }
  }

  /** What the two tables see of each item. */
  ghost predicate SameSights(b: Table, r: Table, f: Table)
  {
    && r.items == f.items && |b.items| <= |f.items|
    && (forall x: nat :: x < |b.items| ==> b.items[x] == f.items[x] && Alive(b, x))
    && (forall x: nat :: Saw(r, x) ==> Alive(r, x))
    && (forall x: nat :: Saw(b, x) ==> x < |b.items|)
    && (forall x: nat :: Saw(b, x) <==> Saw(r, x) && (x < |b.items| || f.items[x].level != 0))
    && (forall x: nat :: x < |f.items| && f.items[x].level == 0 ==> Saw(r, x))
  }

  lemma Sights(h: Hash, b: Table, r: Table, f: Table)
    requires OnTheWay(h, b, f) && Settled(b, f) && Sync(h, b, r, f)
    ensures SameSights(b, r, f)
  {
    SawAlive(b);
    assert |b.items| <= |f.items|;
    assert forall x: nat :: Saw(b, x) ==> x < |b.items|;
    hide Saw, Alive, Settled, BucketsOk, LevelsOk, ChainsOk;
    forall x: nat
      ensures Saw(b, x) <==> Saw(r, x) && (x < |b.items| || f.items[x].level != 0)
      ensures Saw(r, x) ==> Alive(r, x)
      ensures x < |b.items| ==> b.items[x] == f.items[x]
      ensures x < |f.items| && f.items[x].level == 0 ==> Saw(r, x)
    {
      SameSight(h, b, r, f, x);
      if x < |f.items| && f.items[x].level == 0 { GlobalSeen(h, b, r, f, x); }
    }
  }

  /** The replayed lookup answers what the build lookup did exactly when no global of the name is
      declared later. */
  lemma LookupAgreesExactly(h: Hash, b: Table, r: Table, f: Table, n: string)
    requires OnTheWay(h, b, f) && Settled(b, f) && Sync(h, b, r, f)
    ensures Get(h, r, n) == Get(h, b, n) <==> !LaterGlobal(b, f, n)
  {
    Sights(h, b, r, f);
    SearchIsNewest(h, b, n, Saw);
    SearchIsNewest(h, r, n, Saw);
    hide OnTheWay, Settled, Sync, Saw, Alive, Get;
    assert Get(h, b, n) == First(b, b.buckets[h(n)], n, Saw) && Get(h, r, n) == First(r, r.buckets[h(n)], n, Saw)
           by { GetIs(h, b, n); GetIs(h, r, n); }
    if LaterGlobal(b, f, n) {
      var x: nat :| |b.items| <= x < |f.items| && f.items[x].level == 0 && Named(f, x, n);
      assert Alive(r, x) && Named(r, x, n) && Saw(r, x);
    } else {
      assert Newest(r, n, Saw, Get(h, b, n));
      NewestUnique(r, n, Saw, Get(h, r, n), Get(h, b, n));
    }
  }

  lemma GetIs(h: Hash, t: Table, n: string)
    ensures Get(h, t, n) == First(t, t.buckets[h(n)], n, Saw)
  {
  }

  /** Every global is visible in the replay, declared yet or not. */
  lemma GlobalSeen(h: Hash, b: Table, r: Table, f: Table, x: nat)
    requires OnTheWay(h, b, f) && Sync(h, b, r, f) && x < |f.items| && f.items[x].level == 0
    ensures Saw(r, x)
  {
    assert 0 < Count(b, 0) <= Count(f, 0);
  }

  /** The search in the current scope only is not disturbed by globals, save at the global level. */
  lemma HereAgrees(h: Hash, b: Table, r: Table, f: Table, n: string)
    requires OnTheWay(h, b, f) && Settled(b, f) && Sync(h, b, r, f) && (b.level == 0 ==> !LaterGlobal(b, f, n))
    ensures GetHere(h, r, n) == GetHere(h, b, n)
  {
    Sights(h, b, r, f);
    HereIsSaw(h, b, r, f);
    SearchIsNewest(h, b, n, Here);
    SearchIsNewest(h, r, n, Here);
    hide OnTheWay, Settled, Sync, Saw, Alive, Here, First;
    HereNewest(b, r, f, n, GetHere(h, b, n));
    NewestUnique(r, n, Here, GetHere(h, r, n), GetHere(h, b, n));
  }

  /** What the build table picks in its current scope, the replay table picks. */
  lemma HereNewest(b: Table, r: Table, f: Table, n: string, x: Option<nat>)
    requires SameSights(b, r, f) && Newest(b, n, Here, x) && (b.level == 0 ==> !LaterGlobal(b, f, n))
    requires forall y: nat :: Here(b, y) <==> Saw(b, y) && b.items[y].level == b.level
    requires forall y: nat :: Here(r, y) <==> Saw(r, y) && r.items[y].level == b.level
    ensures Newest(r, n, Here, x)
  {
    hide Saw, Alive, Here;
    forall y: nat | y < |f.items| && Named(f, y, n) ensures Here(r, y) <==> y < |b.items| && Here(b, y) {
    }
  }

  lemma HereIsSaw(h: Hash, b: Table, r: Table, f: Table)
    requires OnTheWay(h, b, f) && Sync(h, b, r, f)
    ensures forall x: nat :: Here(b, x) <==> Saw(b, x) && b.items[x].level == b.level
    ensures forall x: nat :: Here(r, x) <==> Saw(r, x) && r.items[x].level == b.level
  {
  }

  /** Whatever a search comes across, symbols_saw reads no level that has been deleted. */
  lemma NoDeletedLevel(h: Hash, b: Table, r: Table, f: Table, k: Bucket, x: nat)
    requires OnTheWay(h, b, f) && Sync(h, b, r, f) && x in r.buckets[k]
    ensures x < |r.items| && 0 <= r.items[x].level < |r.levels| && !r.levels[r.items[x].level].Deleted()
  {
    assert Alive(r, x);
    assert 0 <= f.items[x].scope < |f.levels[f.items[x].level].scopes|;
  }

  ghost predicate NoneLater(b: Table, f: Table, ns: seq<string>)
  {
    forall i :: 0 <= i < |ns| ==> !LaterGlobal(b, f, ns[i])
  }

  lemma NoneLaterHead(b: Table, f: Table, n: string, ns: seq<string>)
    ensures NoneLater(b, f, [n] + ns) <==> !LaterGlobal(b, f, n) && NoneLater(b, f, ns)
  {
    SplitExactly(b, f, [n], ns);
    assert [n][0] == n;
  }

  /** A list of lookups answers the same exactly when no global of any of the names is declared later. */
  lemma {:induction false} AllAgree(h: Hash, b: Table, r: Table, f: Table, ns: seq<string>)
    requires OnTheWay(h, b, f) && Settled(b, f) && Sync(h, b, r, f)
    ensures GetAll(h, r, ns) == GetAll(h, b, ns) <==> NoneLater(b, f, ns)
    ensures |GetAll(h, r, ns)| == |GetAll(h, b, ns)| == |ns|
  {
    hide OnTheWay, Settled, Sync, Get, LaterGlobal;
    if ns != [] {
      LookupAgreesExactly(h, b, r, f, ns[0]);
      AllAgree(h, b, r, f, ns[1..]);
      assert [ns[0]] + ns[1..] == ns;
      NoneLaterHead(b, f, ns[0], ns[1..]);
      SameJoin([Get(h, r, ns[0])], [Get(h, b, ns[0])], GetAll(h, r, ns[1..]), GetAll(h, b, ns[1..]));
    }
  }

  /** Concatenations of equally long parts are equal exactly if the parts are. */
  lemma SameJoin<X>(a: seq<X>, b: seq<X>, c: seq<X>, d: seq<X>)
    requires |a| == |b| && |c| == |d|
    ensures a + c == b + d <==> a == b && c == d
  {
    assert a == (a + c)[..|a|] && c == (a + c)[|a|..];
    assert b == (b + d)[..|b|] && d == (b + d)[|b|..];
  }

  /** The names initialisers use. */
  function DefUses(defs: Defs): seq<string>
  {
    defs.def.uses + if defs.Last? then [] else DefUses(defs.rest)
  }

  function DefNames(defs: Defs): seq<string>
  {
    [defs.def.name] + if defs.Last? then [] else DefNames(defs.rest)
  }

  /** Reading back the declarations of a list answers the same exactly when no global of a name in its
      initialisers is declared later. */
  lemma {:induction false} AnswersAgree(h: Hash, b: Table, r: Table, f: Table, defs: Defs)
    requires OnTheWay(h, b, f) && Settled(b, f) && Sync(h, b, r, f)
    requires b.level == 0 ==> NoneLater(b, f, DefNames(defs))
    ensures DefAnswers(h, r, defs) == DefAnswers(h, b, defs) <==> NoneLater(b, f, DefUses(defs))
    ensures |DefAnswers(h, r, defs)| == |DefAnswers(h, b, defs)|
    decreases defs
  {
    hide OnTheWay, Settled, Sync, Get, GetHere, LaterGlobal, NoneLater, GetAll;
    var names := if defs.Last? then [] else DefNames(defs.rest);
    var uses := if defs.Last? then [] else DefUses(defs.rest);
    SplitExactly(b, f, defs.def.uses, uses);
    NoneLaterHead(b, f, defs.def.name, names);
    HereAgrees(h, b, r, f, defs.def.name);
    AllAgree(h, b, r, f, defs.def.uses);
    var x, us, vs := [GetHere(h, b, defs.def.name)], GetAll(h, r, defs.def.uses), GetAll(h, b, defs.def.uses);
    if defs.More? {
      AnswersAgree(h, b, r, f, defs.rest);
      SameJoin(x, x, us, vs);
      SameJoin(x + us, x + vs, DefAnswers(h, r, defs.rest), DefAnswers(h, b, defs.rest));
    } else {
      SameJoin(x, x, us, vs);
      SameJoin(x + us, x + vs, [], []);
      assert NoneLater(b, f, []) by { NoneLaterEmpty(b, f); }
    }
  }

  lemma SplitExactly(b: Table, f: Table, ns: seq<string>, ms: seq<string>)
    ensures NoneLater(b, f, ns + ms) <==> NoneLater(b, f, ns) && NoneLater(b, f, ms)
  {
    hide LaterGlobal;
    assert forall i :: 0 <= i < |ns| ==> ns[i] == (ns + ms)[i];
    assert forall i :: 0 <= i < |ms| ==> ms[i] == (ns + ms)[|ns| + i];
  }

  lemma NoneLaterEmpty(b: Table, f: Table)
    ensures NoneLater(b, f, [])
  {
  }

  // ----- entering -----

  lemma EnterSync(h: Hash, b: Table, r: Table, f: Table)
    requires OnTheWay(h, b, f) && OnTheWay(h, Indent(b), f) && Sync(h, b, r, f)
    ensures Enter(r).Some? && Sync(h, Indent(b), Enter(r).value, f)
  {
    var l := b.level + 1;
    var b1 := Indent(b);
    assert Count(b1, l) == Count(b, l) + 1 <= Count(f, l);
    assert b1.level == l && 0 <= b.level;
    assert forall k :: 0 <= k != l ==> Count(b1, k) == Count(b, k);
    assert l < |f.levels|;
    hide OnTheWay, BucketsOk, Indent;
    var r1 := r.(levels := r.levels[l := r.levels[l].(scope := Count(b, l))], level := l);
    EnterLevels(b, b1, r, f, l, r1);
    SameAlive(h, r, r1);
  }

  lemma EnterLevels(b: Table, b1: Table, r: Table, f: Table, l: int, r1: Table)
    requires SyncLevels(b, r, f) && b1.level == l == b.level + 1 && 0 < l < |f.levels|
    requires Count(b1, l) == Count(b, l) + 1 <= Count(f, l) && forall k :: 0 <= k != l ==> Count(b1, k) == Count(b, k)
    requires r1 == r.(levels := r.levels[l := r.levels[l].(scope := Count(b, l))], level := l)
    ensures Enter(r) == Some(r1) && SyncLevels(b1, r1, f)
  {
    assert Count(f, l) == |r.levels[l].scopes|;
    hide Count;
    Wraps(Count(b, l), |r.levels[l].scopes|);
  }

  /** The scope after the last of a level is its first. */
  lemma Wraps(c: nat, n: nat)
    requires c < n
    ensures ((if c == 0 then n else c) - 1 + 1) % n == c
  {
    if c == 0 { assert n % n == 0; }
  }

  lemma SameAlive(h: Hash, r: Table, r1: Table)
    requires BucketsOk(h, r) && r1.buckets == r.buckets && r1.items == r.items && |r1.levels| == |r.levels|
    requires forall l :: 0 <= l < |r.levels| ==> r1.levels[l].begin == r.levels[l].begin
    ensures BucketsOk(h, r1)
  {
    forall x: nat ensures Alive(r1, x) <==> Alive(r, x) {
    }
    hide Alive, Descending;
    forall b: Bucket ensures Descending(r1.buckets[b]) && forall x: nat :: x in r1.buckets[b] <==>
      Alive(r1, x) && h(r1.items[x].key) == b {
      assert Descending(r.buckets[b]);
    }
  }

  /** Only the level and the counts matter. */
  lemma SyncSame(h: Hash, b: Table, b1: Table, r: Table, f: Table)
    requires Sync(h, b, r, f) && b1.level == b.level && forall l :: 0 <= l < |f.levels| ==> Count(b1, l) == Count(b, l)
    ensures Sync(h, b1, r, f)
  {
    hide BucketsOk;
  }

  // ----- destroying -----

  lemma {:induction false} UnlinkWorks(ids: seq<nat>, x: nat)
    requires Descending(ids) && x in ids
    ensures var r := Unlink(ids, x);
            r.Some? && Descending(r.value) && forall y :: y in r.value <==> y in ids && y != x
  {
    var rest := ids[1..];
    assert ids == [ids[0]] + rest;
    forall y | y in rest ensures y < ids[0] {
      var i :| 0 <= i < |rest| && rest[i] == y;
      assert ids[0] > ids[i + 1];
    }
    assert Descending(rest) by {
      assert forall i :: 0 <= i < |rest| ==> rest[i] == ids[i + 1];
    }
    if ids[0] != x {
      UnlinkWorks(rest, x);
      var r := Unlink(rest, x).value;
      assert Unlink(ids, x) == Some([ids[0]] + r);
      DescendingMore(r, ids[0]);
    }
  }

  /** What is left in the buckets while a chain is being destroyed. */
  ghost predicate StillThere(h: Hash, t: Table, chain: seq<nat>)
  {
    && (forall i :: 0 <= i < |chain| ==> chain[i] < |t.items| && !Alive(t, chain[i]))
    && forall b: Bucket ::
         Descending(t.buckets[b])
         && forall x: nat :: x in t.buckets[b] <==>
           x < |t.items| && (Alive(t, x) || x in chain) && h(t.items[x].key) == b
  }

  lemma {:induction false} DestroyWorks(h: Hash, t: Table, chain: seq<nat>)
    requires Ascending(chain) && StillThere(h, t, chain)
    ensures var d := Destroy(h, t, chain);
            d.Some? && d.value == t.(buckets := d.value.buckets) && BucketsOk(h, d.value)
    decreases |chain|
  {
    if chain != [] {
      var b := h(t.items[chain[0]].key);
      assert chain[0] in chain;
      UnlinkWorks(t.buckets[b], chain[0]);
      var u := t.(buckets := t.buckets[b := Unlink(t.buckets[b], chain[0]).value]);
      assert Ascending(chain[1..]) by {
        assert forall i :: 0 <= i < |chain| - 1 ==> chain[1..][i] == chain[i + 1];
      }
      OneLess(h, t, chain, u);
      DestroyWorks(h, u, chain[1..]);
    } else {
      forall b: Bucket ensures Descending(t.buckets[b]) && forall x: nat :: x in t.buckets[b] <==>
        Alive(t, x) && h(t.items[x].key) == b {
      }
    }
  }

  lemma OneLess(h: Hash, t: Table, chain: seq<nat>, u: Table)
    requires chain != [] && Ascending(chain) && StillThere(h, t, chain)
    requires var b := h(t.items[chain[0]].key);
             && u == t.(buckets := t.buckets[b := u.buckets[b]])
             && Descending(u.buckets[b]) && forall y: nat :: y in u.buckets[b] <==> y in t.buckets[b] && y != chain[0]
    ensures StillThere(h, u, chain[1..])
  {
    var rest := chain[1..];
    assert chain == [chain[0]] + rest;
    assert chain[0] !in rest by {
      assert forall i :: 0 <= i < |rest| ==> rest[i] == chain[i + 1] > chain[0];
    }
    forall x: nat ensures Alive(u, x) <==> Alive(t, x) {
    }
    hide Alive, Descending, Ascending;
    assert forall x :: x in chain <==> x == chain[0] || x in rest;
    assert forall i :: 0 <= i < |rest| ==> rest[i] == chain[i + 1];
    forall b: Bucket
      ensures Descending(u.buckets[b])
      ensures forall x: nat :: x in u.buckets[b] <==>
              x < |u.items| && (Alive(u, x) || x in rest) && h(u.items[x].key) == b
    {
      assert Descending(t.buckets[b]);
      assert forall x: nat :: x in t.buckets[b] <==>
             x < |t.items| && (Alive(t, x) || x in chain) && h(t.items[x].key) == b;
    }
  }

  /** The table with the current scope of its level marked destroyed. */
  function Polled(r: Table): Table
    requires 0 <= r.level < |r.levels|
  {
    var v := r.levels[r.level];
    r.(levels := r.levels[r.level := v.(begin := v.begin + 1)], level := r.level - 1)
  }

  /** The items that die with a scope are its chain. */
  lemma PolledStillThere(h: Hash, r: Table, chain: seq<nat>)
    requires 0 <= r.level < |r.levels| && !r.levels[r.level].Deleted() && BucketsOk(h, r)
    requires chain == r.levels[r.level].scopes[r.levels[r.level].begin]
    requires forall x: nat :: x in chain <==> DeclaredAt(r, x, r.level, r.levels[r.level].begin)
    ensures StillThere(h, Polled(r), chain)
  {
    var t, l, s := Polled(r), r.level, r.levels[r.level].begin;
    forall x: nat ensures Alive(r, x) <==> Alive(t, x) || x in chain {
      assert x in chain <==> DeclaredAt(r, x, l, s);
    }
    forall i | 0 <= i < |chain| ensures chain[i] < |t.items| && !Alive(t, chain[i]) {
      assert chain[i] in chain;
    }
    hide Alive, Descending, DeclaredAt;
    forall b: Bucket
      ensures Descending(t.buckets[b])
      ensures forall x: nat :: x in t.buckets[b] <==>
              x < |t.items| && (Alive(t, x) || x in chain) && h(t.items[x].key) == b
    {
      assert Descending(r.buckets[b]);
      assert forall x: nat :: x in r.buckets[b] <==> Alive(r, x) && h(r.items[x].key) == b;
      AliveInItems(r);
    }
  }

  lemma AliveInItems(r: Table)
    ensures forall x: nat :: Alive(r, x) ==> x < |r.items|
  {
  }

  /** The chain of the current scope, and whose it is. */
  lemma CurrentChain(h: Hash, b: Table, r: Table, f: Table)
    requires OnTheWay(h, b, f) && Sync(h, b, r, f) && (b.level >= 1 ==> Settled(b, f)) && (b.level == 0 ==> b == f)
    ensures 0 <= r.level < |r.levels| && !r.levels[r.level].Deleted()
            && r.levels[r.level].scope == r.levels[r.level].begin
    ensures var chain := LevelAt(b, b.level).Chain();
            && r.levels[r.level].scopes[r.levels[r.level].begin] == chain && Ascending(chain)
            && forall x: nat :: x in chain <==> DeclaredAt(r, x, r.level, r.levels[r.level].begin)
    ensures r.level == b.level && Count(b, b.level) > 0
  {
    hide BucketsOk;
    var l := b.level;
    assert 0 < Count(b, l) <= Count(f, l);
    var s := Count(b, l) - 1;
    assert f.levels[l].scopes[s] == b.levels[l].scopes[s] == LevelAt(b, l).Chain();
    assert forall x: nat :: x in f.levels[l].scopes[s] <==> DeclaredAt(f, x, l, s);
    assert forall x: nat :: DeclaredAt(f, x, l, s) <==> DeclaredAt(r, x, l, s);
  }

  /** One level destroyed: the assertion holds, and every item of the scope is unlinked from its bucket. */
  lemma PopSync(h: Hash, b: Table, r: Table, f: Table)
    returns (r1: Table)
    requires OnTheWay(h, b, f) && Sync(h, b, r, f) && (b.level >= 1 ==> Settled(b, f)) && (b.level == 0 ==> b == f)
    ensures 0 <= r.level < |r.levels| && !r.levels[r.level].Deleted()
            && r.levels[r.level].scope == r.levels[r.level].begin
    ensures r.levels[r.level].scopes[r.levels[r.level].begin] == LevelAt(b, b.level).Chain()
    ensures Destroy(h, Polled(r), LevelAt(b, b.level).Chain()) == Some(r1) && r1.level == r.level - 1
    ensures Sync(h, b.(level := b.level - 1), r1, f)
  {
    CurrentChain(h, b, r, f);
    hide OnTheWay, Settled, Sync, BucketsOk, Ascending, StillThere, DeclaredAt;
    var chain := LevelAt(b, b.level).Chain();
    assert BucketsOk(h, r) by { SyncBuckets(h, b, r, f); }
    PolledStillThere(h, r, chain);
    DestroyWorks(h, Polled(r), chain);
    r1 := Destroy(h, Polled(r), chain).value;
    PolledSync(h, b, r, f, r1);
  }

  lemma SyncBuckets(h: Hash, b: Table, r: Table, f: Table)
    requires Sync(h, b, r, f)
    ensures BucketsOk(h, r)
  {
  }

  lemma PolledSync(h: Hash, b: Table, r: Table, f: Table, r1: Table)
    requires Sync(h, b, r, f) && 0 <= b.level < |r.levels| && Count(b, b.level) > 0
    requires r1 == Polled(r).(buckets := r1.buckets) && BucketsOk(h, r1)
    ensures Sync(h, b.(level := b.level - 1), r1, f)
  {
    hide BucketsOk;
    var b1 := b.(level := b.level - 1);
    assert forall k :: Count(b1, k) == Count(b, k);
    hide Count;
    assert SyncLevels(b1, r1, f);
  }

  /** Dedent destroys exactly the declarations of the block and the block. */
  lemma {:induction false} DedentSync(h: Hash, b: Table, k: int, r: Table, f: Table) returns (r1: Table)
    requires OnTheWay(h, b, f) && Settled(b, f) && Sync(h, b, r, f) && Opened(b, k)
    ensures Dedent(h, r) == Some(r1) && Sync(h, b.(level := k - 1), r1, f)
    decreases b.level
  {
    hide OnTheWay, Settled, Sync, Destroy, Grows;
    SyncLevel(h, b, r, f);
    r1 := PopSync(h, b, r, f);
    if b.level > k {
      var b1 := b.(level := b.level - 1);
      OneUp(h, b, k, f);
      var r2 := r1;
      r1 := DedentSync(h, b1, k, r2, f);
    }
  }

  lemma SyncLevel(h: Hash, b: Table, r: Table, f: Table)
    requires Sync(h, b, r, f)
    ensures r.level == b.level
  {
  }

  /** Leaving levels whose scopes are complete. */
  lemma GrowsCut(b: Table, f: Table, l: int)
    requires Grows(b, f) && Settled(b, f) && 0 <= l <= b.level < |b.levels| && f.level == 0
    ensures Grows(b.(level := l), f) && Settled(b.(level := l), f)
  {
    var b1 := b.(level := l);
    forall k, s | 0 <= k < |b1.levels| && 0 <= s < |b1.levels[k].scopes| && !IsOpen(b1, k, s)
      ensures b1.levels[k].scopes[s] == f.levels[k].scopes[s]
    {
      if IsOpen(b, k, s) {
        assert 1 <= k <= b.level;
      }
    }
  }

  lemma OneUp(h: Hash, b: Table, k: int, f: Table)
    requires OnTheWay(h, b, f) && Settled(b, f) && Opened(b, k) && b.level > k
    ensures var b1 := b.(level := b.level - 1);
            OnTheWay(h, b1, f) && Settled(b1, f) && Opened(b1, k) && LevelAt(b, b.level).Chain() != []
  {
    hide Grows, BuildOk, BuildOkShape, Settled, Opened, LevelAt, Count;
    assert f.level == 0 && Grows(b, f) && BuildOk(h, b);
    hide OnTheWay;
    OpenedUp(b, k);
    InLevels(h, b);
    GrowsCut(b, f, b.level - 1);
    LeaveOk(h, b, b.level - 1);
    assert OnTheWay(h, b.(level := b.level - 1), f) by { OnTheWayCut(h, b, f); }
  }

  lemma OnTheWayCut(h: Hash, b: Table, f: Table)
    requires OnTheWay(h, b, f) && BuildOk(h, b.(level := b.level - 1)) && Grows(b.(level := b.level - 1), f)
    ensures OnTheWay(h, b.(level := b.level - 1), f)
  {
    hide BuildOk, Grows, Count;
  }

  lemma OpenedUp(b: Table, k: int)
    requires Opened(b, k) && b.level > k
    ensures Opened(b.(level := b.level - 1), k) && LevelAt(b, b.level).Chain() != [] && b.level >= 1
  {
    var u := b.(level := b.level - 1);
    assert LevelAt(b, b.level).Chain() != [] && LevelAt(u, k) == LevelAt(b, k);
    forall l | k < l <= u.level ensures LevelAt(u, l).Chain() != [] {
      assert LevelAt(u, l) == LevelAt(b, l);
    }
  }

  // ----- the pass -----

  /** Parts that open no scope. */
  predicate OnlyUses(ps: Parts)
  {
    ps.Parts? ==> (ps.head.Use? || ps.head.Return?) && OnlyUses(ps.tail)
  }

  /** No declaration and no block follows a `return` in its list: the replay visits every scope. */
  predicate Faithful(p: Part) { p.Block? ==> AllFaithful(p.parts) }

  predicate AllFaithful(ps: Parts)
  {
    ps.Parts? ==> Faithful(ps.head) && AllFaithful(ps.tail) && (ps.head.Return? ==> OnlyUses(ps.tail))
  }

  /** The names a part looks up. */
  function PartUses(p: Part): seq<string>
  {
    match p
    case Use(n) => [n]
    case Var(defs) => DefUses(defs)
    case Block(parts) => PartsUses(parts)
    case _ => []
  }

  /** What follows a `return` in its block is looked up by neither pass. */
  function PartsUses(ps: Parts): seq<string>
  {
    if ps.NoParts? then [] else PartUses(ps.head) + if ps.head.Return? then [] else PartsUses(ps.tail)
  }

  lemma {:induction false} UsesBuildNothing(h: Hash, t: Table, ps: Parts, t1: Table)
    requires OnlyUses(ps) && BuildParts(h, t, ps) == Some(t1)
    ensures t1 == t
  {
    if ps.Parts? {
      UsesBuildNothing(h, t, ps.tail, t1);
    }
  }

  /** Inside a function no globals are declared, so the later ones stay the same. */
  lemma SameLater(h: Hash, b: Table, u: Table, f: Table, ns: seq<string>)
    requires OnTheWay(h, b, f) && OnTheWay(h, u, f) && KeepsBelow(b, u) && Grows(b, u)
    ensures NoneLater(b, f, ns) <==> NoneLater(u, f, ns)
  {
    hide Grows, OnTheWay, LaterGlobal, KeepsBelow;
    forall i | 0 <= i < |ns| ensures LaterGlobal(b, f, ns[i]) <==> LaterGlobal(u, f, ns[i]) {
      LaterKept(h, b, u, f, ns[i]);
    }
  }

  lemma LaterKept(h: Hash, b: Table, u: Table, f: Table, n: string)
    requires OnTheWay(h, b, f) && OnTheWay(h, u, f) && KeepsBelow(b, u) && Grows(b, u)
    ensures LaterGlobal(b, f, n) <==> LaterGlobal(u, f, n)
  {
    MoreItems(b, u);
    hide Grows;
    if LaterGlobal(u, f, n) {
      var x: nat :| |u.items| <= x < |f.items| && f.items[x].level == 0 && Named(f, x, n);
    }
    if LaterGlobal(b, f, n) {
      var x: nat :| |b.items| <= x < |f.items| && f.items[x].level == 0 && Named(f, x, n);
      if x < |u.items| { NotGlobal(h, b, u, f, x); }
    }
  }

  lemma NotGlobal(h: Hash, b: Table, u: Table, f: Table, x: nat)
    requires OnTheWay(h, b, f) && OnTheWay(h, u, f) && u.levels[..1] == b.levels[..1]
    requires x < |u.items| && f.items[x].level == 0
    ensures x < |b.items|
  {
    var s := u.items[x].scope;
    assert u.items[x] == f.items[x] && u.levels[0] == u.levels[..1][0] == b.levels[..1][0] == b.levels[0];
    assert DeclaredAt(u, x, 0, s);
    assert x in u.levels[0].scopes[s];
    assert DeclaredAt(b, x, 0, s);
  }

  lemma KeptSettled(b: Table, b1: Table, f: Table)
    requires Settled(b1, f) && KeepsBelow(b, b1)
    ensures Settled(b, f)
  {
  }

  /** At the end of a block its scopes are complete: they are closed from here on. */
  lemma ClosedSettled(u: Table, b: Table, f: Table)
    requires u.level >= b.level && b == u.(level := b.level) && Settled(b, f) && Grows(b, f)
    ensures Settled(u, f)
  {
    forall l | 1 <= l <= u.level && l < |u.levels| && l < |f.levels| && 0 < |u.levels[l].scopes| <= |f.levels[l].scopes|
      ensures f.levels[l].scopes[|u.levels[l].scopes| - 1] == u.levels[l].scopes[|u.levels[l].scopes| - 1]
    {
      if l > b.level {
        assert !IsOpen(b, l, |u.levels[l].scopes| - 1);
      }
    }
  }

  /** A declaration statement. */
  lemma DeclReplay(h: Hash, b: Table, r: Table, f: Table, isConst: bool, defs: Defs, b1: Table)
    requires OnTheWay(h, b, f) && OnTheWay(h, b1, f) && Settled(b1, f) && Sync(h, b, r, f)
    requires BuildDefs(h, Indent(b), isConst, defs) == Some(b1)
    ensures Enter(r).Some? && Sync(h, b1, Enter(r).value, f)
    ensures DefAnswers(h, Enter(r).value, defs) == DefAnswers(h, b1, defs) <==> NoneLater(b, f, DefUses(defs))
    ensures |DefAnswers(h, Enter(r).value, defs)| == |DefAnswers(h, b1, defs)|
  {
    hide Grows, BuildOk, Sync, Settled, Indent, NoneLater, Enter, KeepsBelow;
    IndentOk(h, b);
    DefsBuilt(h, Indent(b), isConst, defs, b1);
    GrowsThrough(Indent(b), b1, f);
    EnterSync(h, b, r, f);
    var r1 := Enter(r).value;
    SameCounts(h, Indent(b), isConst, defs, b1);
    SyncSame(h, Indent(b), b1, r1, f);
    DeclBuilt(h, b, isConst, defs, b1);
    SameLater(h, b, b1, f, DefUses(defs));
    InLevels(h, b);
    AnswersAgree(h, b1, r1, f, defs);
  }

  lemma MoreItems(b: Table, b1: Table)
    requires Grows(b, b1)
    ensures |b.items| <= |b1.items|
  {
  }

  lemma {:induction false} SameCounts(h: Hash, t: Table, isConst: bool, defs: Defs, t1: Table)
    requires BuildOk(h, t) && BuildDefs(h, t, isConst, defs) == Some(t1)
    ensures t1.level == t.level && forall l :: Count(t1, l) == Count(t, l)
    decreases defs
  {
    hide BuildOk;
    var u := Add(h, t, defs.def.name);
    AddOk(h, t, defs.def.name);
    forall l ensures Count(u, l) == Count(t, l) {
    }
    if defs.More? {
      SameCounts(h, u, isConst, defs.rest, t1);
    }
  }

  /** One part of a block is replayed in step with the build, and its lookups answer as they did then exactly when
      no global of a name they look up is declared later. */
  lemma {:induction false} PartReplay(h: Hash, b: Table, k: int, r: Table, f: Table, p: Part, b1: Table)
    returns (q: Replayed)
    requires OnTheWay(h, b, f) && Opened(b, k) && Sync(h, b, r, f)
    requires BuildPart(h, b, p) == Some(b1) && Grows(b1, f) && Settled(b1, f)
    requires Faithful(p)
    ensures ReplayPart(h, r, p) == Some(q) && Sync(h, b1, q.table, f)
    ensures (q.trace == BuildTrace(h, b, p) <==> NoneLater(b, f, PartUses(p))) && |q.trace| == |BuildTrace(h, b, p)|
    decreases p, 1
  {
    hide BuildOk, Grows, Sync, Settled, LaterGlobal, NoneLater, Get, Enter, Indent, KeepsBelow;
    PartBuilt(h, b, k, p, b1);
    NoneLaterEmpty(b, f);
    match p
    case Use(n) =>
      NoneLaterHead(b, f, n, []);
      assert [n] + [] == [n];
      LookupAgreesExactly(h, b, r, f, n);
      q := Replayed(r, [Get(h, r, n)]);
    case Return => q := Replayed(r, []);
    case Const(defs) =>
      DeclReplay(h, b, r, f, true, defs, b1);
      q := Replayed(Enter(r).value, []);
    case Var(defs) =>
      DeclReplay(h, b, r, f, false, defs, b1);
      q := Replayed(Enter(r).value, DefAnswers(h, Enter(r).value, defs));
    case Block(parts) => q := BlockReplay(h, b, r, f, p, b1);
  }

  lemma {:induction false} BlockReplay(h: Hash, b: Table, r: Table, f: Table, p: Part, b1: Table) returns (q: Replayed)
    requires OnTheWay(h, b, f) && Sync(h, b, r, f) && p.Block?
    requires BuildPart(h, b, p) == Some(b1) && Grows(b1, f) && Settled(b1, f)
    requires Faithful(p)
    ensures ReplayPart(h, r, p) == Some(q) && Sync(h, b1, q.table, f)
    ensures (q.trace == BuildTrace(h, b, p) <==> NoneLater(b, f, PartUses(p))) && |q.trace| == |BuildTrace(h, b, p)|
    decreases p, 0
  {
    hide BuildOk, Grows, Sync, Settled, LaterGlobal, Enter, Indent, KeepsBelow, Opened, NoneLater, Dedent;
    var k, b0 := b.level + 1, Indent(b);
    BlockBuilt(h, b, p, b1);
    IndentOk(h, b);
    var u := BuildParts(h, b0, p.parts).value;
    InLevels(h, b);
    InLevels(h, b0);
    InLevels(h, u);
    OpenedHere(b0);
    PartsBuilt(h, b0, k, p.parts, u);
    GrowsThrough(u, b1, f);
    GrowsThrough(b0, u, f);
    assert u.level >= b.level by { LevelsRise(b0, u); }
    ClosedSettled(u, b1, f);
    EnterSync(h, b, r, f);
    SameLater(h, b, b0, f, PartsUses(p.parts));
    var inner := PartsReplay(h, b0, k, Enter(r).value, f, p.parts, u);
    var out := DedentSync(h, u, k, inner.table, f);
    q := Replayed(out, inner.trace);
  }

  lemma LevelsRise(b: Table, u: Table)
    requires KeepsBelow(b, u)
    ensures b.level <= u.level
  {
  }

  lemma OpenedHere(b0: Table)
    requires 1 <= b0.level < |b0.levels| && LevelAt(b0, b0.level).Chain() == []
    ensures Opened(b0, b0.level)
  {
  }

  lemma {:induction false} PartsReplay(h: Hash, b: Table, k: int, r: Table, f: Table, ps: Parts, b1: Table)
    returns (q: Replayed)
    requires OnTheWay(h, b, f) && Opened(b, k) && Sync(h, b, r, f)
    requires BuildParts(h, b, ps) == Some(b1) && Grows(b1, f) && Settled(b1, f) && AllFaithful(ps)
    ensures ReplayParts(h, r, ps) == Some(q) && Sync(h, b1, q.table, f)
    ensures (q.trace == BuildTraces(h, b, ps) <==> NoneLater(b, f, PartsUses(ps)))
            && |q.trace| == |BuildTraces(h, b, ps)|
    decreases ps, 0
  {
    hide BuildOk, Grows, Sync, Settled, Opened, NoneLater, KeepsBelow, BuildPart, BuildTrace, ReplayPart, PartUses;
    NoneLaterEmpty(b, f);
    match ps
    case NoParts => q := Replayed(r, []);
    case Parts(p, rest) =>
      var u := BuildPart(h, b, p).value;
      PartBuilt(h, b, k, p, u);
      PartsBuilt(h, u, k, rest, b1);
      GrowsThrough(u, b1, f);
      KeptSettled(u, b1, f);
      var q1 := PartReplay(h, b, k, r, f, p, u);
      if p.Return? {
        UsesBuildNothing(h, u, rest, b1);
        assert q1.trace == [] by { ReturnAnswersNothing(h, b); }
        assert PartsUses(ps) == [] by { ReturnUsesNothing(ps); }
        q := q1;
      } else {
        SplitExactly(b, f, PartUses(p), PartsUses(rest));
        SameLater(h, b, u, f, PartsUses(rest));
        var q2 := PartsReplay(h, u, k, q1.table, f, rest, b1);
        SameJoin(q1.trace, BuildTrace(h, b, p), q2.trace, BuildTraces(h, u, rest));
        q := Replayed(q2.table, q1.trace + q2.trace);
      }
  }

  lemma ReturnUsesNothing(ps: Parts)
    requires ps.Parts? && ps.head.Return?
    ensures PartsUses(ps) == []
  {
  }

  lemma ReturnAnswersNothing(h: Hash, b: Table)
    ensures BuildTrace(h, b, Return) == []
  {
  }

  // ----- whole programs -----

  function GlobalNames(g: Global): seq<string>
  {
    match g
    case GlobalConst(defs) => DefNames(defs)
    case GlobalVar(defs) => DefNames(defs)
    case Func(f, _, _) => [f]
  }

  function AllGlobalNames(gs: seq<Global>): seq<string>
  {
    if gs == [] then [] else GlobalNames(gs[0]) + AllGlobalNames(gs[1..])
  }

  function GlobalUses(g: Global): seq<string>
  {
    match g
    case GlobalConst(_) => []
    case GlobalVar(defs) => DefUses(defs)
    case Func(_, ps, body) => ps + PartsUses(body)
  }

  /** No global is declared later under a name that was looked up before. */
  predicate Quiet(gs: seq<Global>)
  {
    gs != [] ==> (forall n :: n in GlobalUses(gs[0]) ==> n !in AllGlobalNames(gs[1..])) && Quiet(gs[1..])
  }

  predicate FaithfulGlobals(gs: seq<Global>)
  {
    gs != [] ==> (gs[0].Func? ==> AllFaithful(gs[0].body)) && FaithfulGlobals(gs[1..])
  }

  /** The globals declared so far. */
  function Globals(t: Table): seq<nat> { LevelAt(t, 0).Chain() }

  /** The globals of u are those of t and some new ones with names in ns. */
  ghost predicate MoreGlobals(t: Table, u: Table, ns: seq<string>)
  {
    && Count(u, 0) == Count(t, 0) && |t.items| <= |u.items|
    && (forall x :: x in Globals(t) ==> x in Globals(u) && (x < |t.items| ==> u.items[x] == t.items[x]))
    && (forall x :: x in Globals(u) && x !in Globals(t) ==> x < |u.items| && u.items[x].key in ns)
  }

  lemma MoreGlobalsThrough(t: Table, u: Table, v: Table, ns: seq<string>, ms: seq<string>)
    requires MoreGlobals(t, u, ns) && MoreGlobals(u, v, ms) && Grows(u, v)
    ensures MoreGlobals(t, v, ns + ms)
  {
    forall x | x in Globals(v) && x !in Globals(t) ensures x < |v.items| && v.items[x].key in ns + ms {
      if x in Globals(u) {
        assert v.items[x] == u.items[x];
      }
    }
  }

  lemma AddGlobal(h: Hash, t: Table, n: string)
    requires BuildOk(h, t) && t.level == 0
    ensures MoreGlobals(t, Add(h, t, n), [n])
  {
    AddOk(h, t, n);
  }

  lemma {:induction false} DefsGlobals(h: Hash, t: Table, isConst: bool, defs: Defs, t1: Table)
    requires BuildOk(h, t) && t.level == 0 && BuildDefs(h, t, isConst, defs) == Some(t1)
    ensures MoreGlobals(t, t1, DefNames(defs))
    ensures forall n :: ChainNames(t, n) ==> n !in DefNames(defs) && ChainNames(t1, n)
    ensures forall n :: n in DefNames(defs) ==> ChainNames(t1, n)
    decreases defs
  {
    hide BuildOk, MoreGlobals, Add, Grows, GetHere, ChainNames;
    var n := defs.def.name;
    var u := Add(h, t, n);
    AddOk(h, t, n);
    AddGlobal(h, t, n);
    AddNames(h, t, n);
    NotHere(h, t, n);
    if defs.More? {
      DefsGlobals(h, u, isConst, defs.rest, t1);
      DefsBuilt(h, u, isConst, defs.rest, t1);
      MoreGlobalsThrough(t, u, t1, [n], DefNames(defs.rest));
    } else {
      assert [n] + [] == [n];
    }
  }

  lemma NotHere(h: Hash, t: Table, n: string)
    requires BuildOk(h, t)
    ensures GetHere(h, t, n).Some? <==> ChainNames(t, n)
  {
    HereIsInnermost(h, t, n);
  }

  lemma FuncGlobals(h: Hash, t: Table, g: Global, t1: Table)
    requires BuildOk(h, t) && t.level == 0 && g.Func? && BuildGlobal(h, t, g) == Some(t1)
    ensures MoreGlobals(t, t1, [g.name]) && ChainNames(t1, g.name) && !ChainNames(t, g.name)
    ensures forall n :: ChainNames(t, n) ==> ChainNames(t1, n)
    ensures SameGlobals(Add(h, t, g.name), t1)
  {
    hide BuildOk, MoreGlobals, Add, Grows, GetHere, ChainNames, FuncScope, BuildPart, KeepsBelow, SameGlobals;
    var u, v := Add(h, t, g.name), FuncScope(h, t, g.name, g.params);
    NotHere(h, t, g.name);
    AddGlobal(h, t, g.name);
    AddNames(h, t, g.name);
    FuncScopeBuilt(h, t, g.name, g.params);
    FuncBuilt(h, t, g, t1);
    var w := BuildPart(h, v, Block(g.body)).value;
    BlockBuilt(h, v, Block(g.body), w);
    KeepsThrough(u, v, w);
    GrowsThrough(u, v, w);
    GrowsThrough(u, w, t1);
    InLevels(h, u);
    GlobalsKept(u, w, t1);
    SameGlobalsMore(t, u, t1, [g.name]);
  }

  /** Building a function's body declares no globals. */
  predicate SameGlobals(u: Table, t: Table)
  {
    t.level == u.level == 0 && 0 < |u.levels| <= |t.levels| && t.levels[0] == u.levels[0] && u.items <= t.items
  }

  lemma GlobalsKept(u: Table, w: Table, t1: Table)
    requires KeepsBelow(u, w) && u.level == 0 < |u.levels| && t1 == w.(level := 0) && Grows(u, t1)
    ensures SameGlobals(u, t1)
  {
  }

  lemma SameGlobalsMore(t: Table, u: Table, t1: Table, ns: seq<string>)
    requires MoreGlobals(t, u, ns) && SameGlobals(u, t1)
    ensures MoreGlobals(t, t1, ns)
    ensures forall n :: ChainNames(u, n) ==> ChainNames(t1, n)
  {
    assert Globals(t1) == Globals(u);
    forall n | ChainNames(u, n) ensures ChainNames(t1, n) {
      var x :| x in LevelAt(u, u.level).Chain() && Named(u, x, n);
      assert x in LevelAt(t1, t1.level).Chain() && Named(t1, x, n);
    }
  }

  lemma GlobalGlobals(h: Hash, t: Table, g: Global, t1: Table)
    requires BuildOk(h, t) && t.level == 0 && BuildGlobal(h, t, g) == Some(t1)
    ensures MoreGlobals(t, t1, GlobalNames(g))
    ensures forall n :: ChainNames(t, n) ==> n !in GlobalNames(g) && ChainNames(t1, n)
    ensures forall n :: n in GlobalNames(g) ==> ChainNames(t1, n)
  {
    hide BuildOk, MoreGlobals, ChainNames;
    match g
    case GlobalConst(defs) => DefsGlobals(h, t, true, defs, t1);
    case GlobalVar(defs) => DefsGlobals(h, t, false, defs, t1);
    case Func(_, _, _) => FuncGlobals(h, t, g, t1);
  }

  /** A name declared globally is declared once, as any redefinition is an error. */
  lemma {:induction false} AllGlobals(h: Hash, t: Table, gs: seq<Global>, f: Table)
    requires BuildOk(h, t) && t.level == 0 && BuildGlobals(h, t, gs) == Some(f)
    ensures MoreGlobals(t, f, AllGlobalNames(gs))
    ensures forall n :: ChainNames(t, n) ==> n !in AllGlobalNames(gs)
    decreases |gs|
  {
    assert gs == [] ==> MoreGlobals(t, t, []);
    hide BuildOk, MoreGlobals, ChainNames, BuildGlobal, Grows;
    if gs != [] {
      var u := BuildGlobal(h, t, gs[0]).value;
      GlobalBuilt(h, t, gs[0], u);
      GlobalGlobals(h, t, gs[0], u);
      AllGlobals(h, u, gs[1..], f);
      GlobalsBuilt(h, u, gs[1..], f);
      MoreGlobalsThrough(t, u, f, GlobalNames(gs[0]), AllGlobalNames(gs[1..]));
    }
  }

  /** What is declared globally after t is named among ns. */
  lemma LaterNamed(h: Hash, t: Table, f: Table, ns: seq<string>, n: string)
    requires OnTheWay(h, t, f) && MoreGlobals(t, f, ns) && LaterGlobal(t, f, n)
    ensures n in ns
  {
    var x: nat :| |t.items| <= x < |f.items| && f.items[x].level == 0 && Named(f, x, n);
    assert DeclaredAt(f, x, 0, f.items[x].scope);
    assert x in f.levels[0].scopes[f.items[x].scope] && f.items[x].scope == 0;
    assert x in Globals(f);
    assert t.levels[0].scope == |t.levels[0].scopes| - 1;
    assert x in t.levels[0].scopes[t.levels[0].scope] <==> DeclaredAt(t, x, 0, t.levels[0].scope);
  }

  /** A function, from its name to the end of its body. */
  lemma FuncReplay(h: Hash, b: Table, r: Table, f: Table, g: Global, b1: Table) returns (q: Replayed)
    requires OnTheWay(h, b, f) && b.level == 0 && Sync(h, b, r, f) && g.Func?
    requires BuildGlobal(h, b, g) == Some(b1) && Grows(b1, f) && AllFaithful(g.body) && !LaterGlobal(b1, f, g.name)
    ensures ReplayGlobal(h, r, g) == Some(q) && Sync(h, b1, q.table, f)
    ensures (q.trace == GlobalTrace(h, b, g) <==> NoneLater(b1, f, GlobalUses(g)))
            && |q.trace| == |GlobalTrace(h, b, g)|
  {
    hide BuildOk, Grows, Sync, Settled, NoneLater, LaterGlobal, Get, Add, FuncScope, BuildPart, BuildTrace,
         ReplayPart, Enter, Dedent, SameGlobals, KeepsBelow;
    var u, v := Add(h, b, g.name), FuncScope(h, b, g.name, g.params);
    FuncScopeBuilt(h, b, g.name, g.params);
    FuncBuilt(h, b, g, b1);
    var w := BuildPart(h, v, Block(g.body)).value;
    FuncGlobals(h, b, g, b1);
    BlockBuilt(h, v, Block(g.body), w);
    GrowsThrough(w, b1, f);
    GrowsThrough(v, w, f);
    GrowsThrough(u, v, f);
    // the function's own symbol
    SyncSame(h, b, u, r, f) by { AddCounts(h, b, g.name); }
    SettledGlobal(u, f);
    OwnNameFound(h, u, b1, r, f, g.name);
    // its parameters
    var r1 := EnterFunc(h, b, u, r, f, g, v);
    SettledGlobal(b1, f);
    ClosedSettled(w, b1, f);
    KeptSettled(v, w, f);
    AllAgree(h, v, r1, f, g.params);
    // its body
    var body := BlockReplay(h, v, r1, f, Block(g.body), w);
    var out := LastDedent(h, w, body.table, f);
    q := Replayed(out, [Get(h, r, g.name)] + GetAll(h, r1, g.params) + body.trace);
    FuncTraces(h, u, v, b1, r, r1, f, g, body.trace);
  }

  /** The function's name finds the function. */
  lemma OwnNameFound(h: Hash, u: Table, b1: Table, r: Table, f: Table, n: string)
    requires OnTheWay(h, u, f) && OnTheWay(h, b1, f) && SameGlobals(u, b1) && Settled(u, f) && Sync(h, u, r, f)
    requires !LaterGlobal(b1, f, n)
    ensures Get(h, r, n) == Get(h, u, n)
  {
    hide OnTheWay, SameGlobals, Settled, Sync, LaterGlobal, Get;
    StillLater(h, u, b1, f, n);
    LookupAgreesExactly(h, u, r, f, n);
  }

  /** The three pieces of a function's trace agree exactly if none of the names is a later global. */
  lemma FuncTraces(h: Hash, u: Table, v: Table, b1: Table, r: Table, r1: Table, f: Table, g: Global, body: Trace)
    requires g.Func? && Get(h, r, g.name) == Get(h, u, g.name)
    requires OnTheWay(h, u, f) && OnTheWay(h, v, f) && OnTheWay(h, b1, f) && SameGlobals(u, b1) && KeepsBelow(u, v)
             && Grows(u, v)
    requires GetAll(h, r1, g.params) == GetAll(h, v, g.params) <==> NoneLater(v, f, g.params)
    requires |GetAll(h, r1, g.params)| == |GetAll(h, v, g.params)|
    requires body == BuildTrace(h, v, Block(g.body)) <==> NoneLater(v, f, PartsUses(g.body))
    requires |body| == |BuildTrace(h, v, Block(g.body))|
    ensures var x, y := [Get(h, r, g.name)] + GetAll(h, r1, g.params) + body,
                        [Get(h, u, g.name)] + GetAll(h, v, g.params) + BuildTrace(h, v, Block(g.body));
            (x == y <==> NoneLater(b1, f, GlobalUses(g))) && |x| == |y|
  {
    hide OnTheWay, SameGlobals, KeepsBelow, Grows, NoneLater, Get, GetAll, BuildTrace, PartsUses;
    var a, c, d := [Get(h, r, g.name)], GetAll(h, r1, g.params), GetAll(h, v, g.params);
    SameJoin(a, a, c, d);
    SameJoin(a + c, a + d, body, BuildTrace(h, v, Block(g.body)));
    SplitExactly(v, f, g.params, PartsUses(g.body));
    SameLater(h, u, v, f, GlobalUses(g));
    StillNone(h, u, b1, f, GlobalUses(g));
  }

  lemma SettledGlobal(b: Table, f: Table)
    requires b.level == 0
    ensures Settled(b, f)
  {
  }

  lemma AddCounts(h: Hash, t: Table, n: string)
    requires BuildOk(h, t)
    ensures Add(h, t, n).level == t.level && forall l :: Count(Add(h, t, n), l) == Count(t, l)
  {
    AddOk(h, t, n);
  }

  /** A function's body adds no globals, so the later ones are the same before and after it. */
  lemma StillNone(h: Hash, u: Table, b1: Table, f: Table, ns: seq<string>)
    requires OnTheWay(h, u, f) && OnTheWay(h, b1, f) && SameGlobals(u, b1)
    ensures NoneLater(u, f, ns) <==> NoneLater(b1, f, ns)
  {
    hide OnTheWay, SameGlobals, LaterGlobal;
    forall i | 0 <= i < |ns| ensures LaterGlobal(u, f, ns[i]) <==> LaterGlobal(b1, f, ns[i]) {
      StillLater(h, u, b1, f, ns[i]);
    }
  }

  lemma StillLater(h: Hash, u: Table, b1: Table, f: Table, n: string)
    requires OnTheWay(h, u, f) && OnTheWay(h, b1, f) && SameGlobals(u, b1)
    ensures LaterGlobal(u, f, n) <==> LaterGlobal(b1, f, n)
  {
    assert |u.items| <= |b1.items| && u.levels[..1] == b1.levels[..1];
    if LaterGlobal(b1, f, n) {
      var x: nat :| |b1.items| <= x < |f.items| && f.items[x].level == 0 && Named(f, x, n);
    }
    if LaterGlobal(u, f, n) {
      var x: nat :| |u.items| <= x < |f.items| && f.items[x].level == 0 && Named(f, x, n);
      if x < |b1.items| { NotGlobal(h, u, b1, f, x); }
    }
  }

  lemma EnterFunc(h: Hash, b: Table, u: Table, r: Table, f: Table, g: Global, v: Table) returns (r1: Table)
    requires g.Func? && u == Add(h, b, g.name) && v == FuncScope(h, b, g.name, g.params) && BuildOk(h, b)
             && b.level == 0
    requires OnTheWay(h, u, f) && OnTheWay(h, v, f) && Sync(h, u, r, f)
    ensures Enter(r) == Some(r1) && Sync(h, v, r1, f)
  {
    hide BuildOk, Grows, Sync, Add, Indent, Enter;
    IndentOk(h, u);
    ParamsBuilt(h, Indent(u), g.params);
    GrowsThrough(Indent(u), v, f);
    EnterSync(h, u, r, f);
    r1 := Enter(r).value;
    ParamCounts(h, Indent(u), g.params);
    SyncSame(h, Indent(u), v, r1, f);
  }

  lemma {:induction false} ParamCounts(h: Hash, t: Table, ps: seq<string>)
    requires BuildOk(h, t)
    ensures AddParams(h, t, ps).level == t.level && forall l :: Count(AddParams(h, t, ps), l) == Count(t, l)
  {
    hide BuildOk, Add;
    if ps != [] {
      ParamCounts(h, t, ps[..|ps| - 1]);
      ParamsBuilt(h, t, ps[..|ps| - 1]);
      AddCounts(h, AddParams(h, t, ps[..|ps| - 1]), ps[|ps| - 1]);
    }
  }

  /** At the function's own level one scope is destroyed, whether it has parameters or not. */
  lemma LastDedent(h: Hash, w: Table, r: Table, f: Table) returns (r1: Table)
    requires OnTheWay(h, w, f) && Settled(w, f) && Sync(h, w, r, f) && w.level == 1
    ensures Dedent(h, r) == Some(r1) && Sync(h, w.(level := 0), r1, f)
  {
    hide OnTheWay, Settled, Sync, Destroy;
    SyncLevel(h, w, r, f);
    r1 := PopSync(h, w, r, f);
  }

  /** A name declared globally by a program is a later global before it. */
  lemma {:induction false} GlobalsDeclare(h: Hash, t: Table, gs: seq<Global>, f: Table, n: string)
    requires BuildOk(h, t) && t.level == 0 && BuildGlobals(h, t, gs) == Some(f) && n in AllGlobalNames(gs)
    ensures LaterGlobal(t, f, n)
    decreases |gs|
  {
    hide BuildOk, MoreGlobals, ChainNames, BuildGlobal, Grows, LaterGlobal, GlobalNames;
    var u := BuildGlobal(h, t, gs[0]).value;
    GlobalBuilt(h, t, gs[0], u);
    GlobalGlobals(h, t, gs[0], u);
    GlobalsBuilt(h, u, gs[1..], f);
    if n in GlobalNames(gs[0]) {
      SameGlobalCount(t, u, GlobalNames(gs[0]));
      NamesLater(h, t, u, f, n);
    } else {
      GlobalsDeclare(h, u, gs[1..], f, n);
      LaterEarlier(t, u, f, n);
    }
  }

  lemma SameGlobalCount(t: Table, u: Table, ns: seq<string>)
    requires MoreGlobals(t, u, ns)
    ensures Count(u, 0) == Count(t, 0)
  {
  }

  lemma NamesLater(h: Hash, t: Table, u: Table, f: Table, n: string)
    requires BuildOk(h, t) && BuildOk(h, u) && t.level == u.level == 0 && Grows(t, u) && Grows(u, f)
    requires !ChainNames(t, n) && ChainNames(u, n) && Count(u, 0) == Count(t, 0)
    ensures LaterGlobal(t, f, n)
  {
    var x :| x in LevelAt(u, 0).Chain() && Named(u, x, n);
    var s := u.levels[0].scope;
    assert x in u.levels[0].scopes[s] <==> DeclaredAt(u, x, 0, s);
    assert f.items[x] == u.items[x];
    if x < |t.items| {
      assert t.items[x] == u.items[x];
      assert x in t.levels[0].scopes[s] <==> DeclaredAt(t, x, 0, s);
      assert x in LevelAt(t, t.level).Chain() && Named(t, x, n);
    }
    assert |t.items| <= x < |f.items| && f.items[x].level == 0 && Named(f, x, n);
  }

  lemma LaterEarlier(b: Table, b1: Table, f: Table, n: string)
    requires LaterGlobal(b1, f, n) && Grows(b, b1)
    ensures LaterGlobal(b, f, n)
  {
    var x: nat :| |b1.items| <= x < |f.items| && f.items[x].level == 0 && Named(f, x, n);
  }

  /** The names in ns are later globals exactly if the rest of the program declares one. */
  lemma QuietExactly(h: Hash, b: Table, rest: seq<Global>, f: Table, ns: seq<string>)
    requires OnTheWay(h, b, f) && b.level == 0 && BuildGlobals(h, b, rest) == Some(f)
    ensures NoneLater(b, f, ns) <==> forall n :: n in ns ==> n !in AllGlobalNames(rest)
  {
    AllGlobals(h, b, rest, f);
    hide MoreGlobals, LaterGlobal, Grows, BuildGlobals;
    forall n ensures LaterGlobal(b, f, n) <==> n in AllGlobalNames(rest) {
      if LaterGlobal(b, f, n) { LaterNamed(h, b, f, AllGlobalNames(rest), n); }
      if n in AllGlobalNames(rest) { GlobalsDeclare(h, b, rest, f, n); }
    }
    if NoneLater(b, f, ns) {
      forall n | n in ns ensures n !in AllGlobalNames(rest) {
        var i :| 0 <= i < |ns| && ns[i] == n;
        assert !LaterGlobal(b, f, ns[i]);
      }
    }
  }

  lemma {:induction false} GlobalsReplay(h: Hash, b: Table, r: Table, gs: seq<Global>, f: Table) returns (q: Replayed)
    requires OnTheWay(h, b, f) && b.level == 0 && Sync(h, b, r, f) && BuildGlobals(h, b, gs) == Some(f)
    requires FaithfulGlobals(gs)
    ensures ReplayGlobals(h, r, gs) == Some(q) && Sync(h, f, q.table, f)
    ensures (q.trace == GlobalTraces(h, b, gs) <==> Quiet(gs)) && |q.trace| == |GlobalTraces(h, b, gs)|
    decreases |gs|
  {
    hide BuildOk, Grows, Sync, Settled, NoneLater, LaterGlobal, BuildGlobal, GlobalTrace, ReplayGlobal, ChainNames,
         MoreGlobals, GlobalUses, GlobalNames;
    if gs == [] {
      q := Replayed(r, []);
    } else {
      var g, b1 := gs[0], BuildGlobal(h, b, gs[0]).value;
      GlobalBuilt(h, b, g, b1);
      GlobalsBuilt(h, b1, gs[1..], f);
      GlobalGlobals(h, b, g, b1);
      AllGlobals(h, b1, gs[1..], f);
      OnTheWayNext(h, b, g, b1, f);
      QuietExactly(h, b1, gs[1..], f, GlobalUses(g));
      QuietExactly(h, b1, gs[1..], f, GlobalNames(g));
      var q1 := GlobalReplay(h, b, r, f, g, b1);
      var q2 := GlobalsReplay(h, b1, q1.table, gs[1..], f);
      SameJoin(q1.trace, GlobalTrace(h, b, g), q2.trace, GlobalTraces(h, b1, gs[1..]));
      q := Replayed(q2.table, q1.trace + q2.trace);
    }
  }

  lemma OnTheWayNext(h: Hash, b: Table, g: Global, b1: Table, f: Table)
    requires OnTheWay(h, b, f) && BuildOk(h, b1) && Grows(b1, f)
    ensures OnTheWay(h, b1, f)
  {
  }

  lemma GlobalReplay(h: Hash, b: Table, r: Table, f: Table, g: Global, b1: Table) returns (q: Replayed)
    requires OnTheWay(h, b, f) && b.level == 0 && Sync(h, b, r, f)
    requires BuildGlobal(h, b, g) == Some(b1) && Grows(b1, f) && (g.Func? ==> AllFaithful(g.body))
    requires NoneLater(b1, f, GlobalNames(g))
    ensures ReplayGlobal(h, r, g) == Some(q) && Sync(h, b1, q.table, f)
    ensures (q.trace == GlobalTrace(h, b, g) <==> NoneLater(b1, f, GlobalUses(g)))
            && |q.trace| == |GlobalTrace(h, b, g)|
  {
    hide BuildOk, Grows, Sync, Settled, LaterGlobal;
    GlobalBuilt(h, b, g, b1);
    match g
    case GlobalConst(defs) =>
      SameCounts(h, b, true, defs, b1);
      SyncSame(h, b, b1, r, f);
      q := Replayed(r, []);
    case GlobalVar(defs) =>
      SameCounts(h, b, false, defs, b1);
      SyncSame(h, b, b1, r, f);
      SettledGlobal(b1, f);
      AnswersAgree(h, b1, r, f, defs);
      q := Replayed(r, DefAnswers(h, r, defs));
    case Func(n, _, _) =>
      assert !LaterGlobal(b1, f, [n][0]);
      q := FuncReplay(h, b, r, f, g, b1);
  }

  /** The table before the first global: the names of the run-time library. */
  function Initially(h: Hash, lib: seq<string>): Table { AddParams(h, Start(), lib) }

  lemma InitiallyOk(h: Hash, lib: seq<string>)
    ensures var t := Initially(h, lib);
            BuildOk(h, t) && t.level == 0 && Count(t, 0) == 1 && forall l :: l != 0 ==> Count(t, l) == 0
    ensures Abs(Initially(h, lib)) == LexParams(Lex([], []), lib)
  {
    StartOk(h);
    StartCounts();
    hide BuildOk, Start;
    ParamsBuilt(h, Start(), lib);
    ParamCounts(h, Start(), lib);
  }

  lemma StartCounts()
    ensures Count(Start(), 0) == 1 && forall l :: l != 0 ==> Count(Start(), l) == 0
  {
    var v := Level(0, -1, []);
    assert [] + [v] == [v] && [v][0 := Offer(v)] == [Offer(v)];
  }

  /** The replay starts where the build started. */
  lemma StartSync(h: Hash, t: Table, f: Table)
    requires BuildOk(h, t) && BuildOk(h, f) && t.level == f.level == 0 && Count(t, 0) == Count(f, 0) == 1
    requires forall l :: l != 0 ==> Count(t, l) == 0
    ensures Sync(h, t, f, f)
  {
    hide BucketsOk, ChainsOk;
  }

  /** Destroying the global level empties every bucket. */
  lemma AllDestroyed(h: Hash, f: Table, r: Table) returns (z: Table)
    requires OnTheWay(h, f, f) && Sync(h, f, r, f)
    ensures Delete(h, r) == Some(z) && z.level == -1 && (forall b: Bucket :: z.buckets[b] == [])
    ensures forall l :: 0 <= l < |z.levels| ==> z.levels[l].Deleted()
  {
    hide Settled, Destroy, Grows;
    z := PopSync(h, f, r, f);
    AllDeleted(h, f, z);
    assert Delete(h, r) == Some(z) by { hide OnTheWay, Sync; SyncLevel(h, f, r, f); }
    NothingAlive(h, f, z);
  }

  lemma AllDeleted(h: Hash, f: Table, z: Table)
    requires Sync(h, f.(level := -1), z, f)
    ensures forall l :: 0 <= l < |z.levels| ==> z.levels[l].Deleted()
  {
  }

  lemma HasMember(ids: seq<nat>)
    requires ids != []
    ensures exists x: nat :: x in ids
  {
    assert ids[0] in ids;
  }

  lemma NothingAlive(h: Hash, f: Table, z: Table)
    requires BuildOk(h, f) && Sync(h, f.(level := -1), z, f)
    ensures forall b: Bucket :: z.buckets[b] == []
  {
    forall x: nat ensures !Alive(z, x) {
    }
    hide Alive, LevelsOk, ChainsOk, SyncLevels, Descending;
    forall b: Bucket ensures z.buckets[b] == [] {
      if z.buckets[b] != [] { HasMember(z.buckets[b]); }
    }
  }

  /** A program the build pass accepts, in which no scope is skipped after a `return`: the replay never goes wrong,
      and in the end every symbol has been unlinked from its bucket and every level is deleted. Its lookups answer
      what they answered in the build pass, which is what lexical scoping says, if and only if no later global
      takes a name looked up before. */
  lemma ReplayIsFaithful(h: Hash, lib: seq<string>, gs: seq<Global>, f: Table) returns (q: Replayed, z: Table)
    requires BuildGlobals(h, Initially(h, lib), gs) == Some(f) && FaithfulGlobals(gs)
    ensures ReplayGlobals(h, f, gs) == Some(q)
    ensures q.trace == GlobalTraces(h, Initially(h, lib), gs) <==> Quiet(gs)
    ensures GlobalTraces(h, Initially(h, lib), gs) == LexGlobalTraces(LexParams(Lex([], []), lib), gs)
    ensures Delete(h, q.table) == Some(z) && z.level == -1 && (forall b: Bucket :: z.buckets[b] == [])
    ensures forall l :: 0 <= l < |z.levels| ==> z.levels[l].Deleted()
  {
    hide BuildOk, Sync, BuildGlobals, Initially;
    var t := Initially(h, lib);
    InitiallyOk(h, lib);
    GlobalsBuilt(h, t, gs, f);
    AllGlobals(h, t, gs, f);
    assert Grows(f, f);
    hide Grows;
    assert OnTheWay(h, t, f) && OnTheWay(h, f, f) by { assert Count(f, 0) == 1; }
    StartSync(h, t, f);
    q := GlobalsReplay(h, t, f, gs, f);
    z := AllDestroyed(h, f, q.table);
  }
}
