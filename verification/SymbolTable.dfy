/**
 * The symbol table as the program keeps it: one object whose operations walk buckets and levels in place.
 */
module SymbolTable {
  import opened Words
  import opened Symbols

  /** One round of hash_str on a byte: shift, add, and fold the top bit back in. */
  function HashStep(h: nat, c: char): (r: nat)
    requires h < 128
    ensures r < 128
  {
    var sum := (2 * h + c as int) % 256;
    if sum < 128 then sum
    else
      var low := sum - 128;
      if low / 2 % 2 == 1 then low - 2 else low + 2
  }

  function HashOf(s: string): (r: Bucket)
    ensures r < 128
  {
    if s == [] then 0 else HashStep(HashOf(s[..|s| - 1]), s[|s| - 1])
  }

  /** hash_str: only the lower half of the buckets is ever used. */
  method HashStr(s: string) returns (h: Bucket)
    ensures h == HashOf(s) && h < 128
  {
    h := 0;
    var i := 0;
    while i < |s|
      invariant 0 <= i <= |s| && h < 128 && h == HashOf(s[..i])
    {
      h := HashStep(h, s[i]);
      i := i + 1;
      assert s[..i][..i - 1] == s[..i - 1];
    }
    assert s[..i] == s;
  }

  function Digit(b: bool): nat { if b then 1 else 0 }

  /** A number from its binary digits, the lowest first. */
  function Binary(bits: seq<bool>): nat
  {
    if bits == [] then 0 else Digit(bits[0]) + 2 * Binary(bits[1..])
  }

  /** The digits of a number. */
  function Digits(n: nat, k: nat): (bits: seq<bool>)
    ensures |bits| == k
    ensures n < Pow2(k) ==> Binary(bits) == n
  {
    if k == 0 then [] else [n % 2 == 1] + Digits(n / 2, k - 1)
  }

  lemma {:induction false} EightDigits(bits: seq<bool>)
    requires |bits| == 8
    ensures var rest := Digit(bits[2]) + 2 * Digit(bits[3]) + 4 * Digit(bits[4]) + 8 * Digit(bits[5])
                        + 16 * Digit(bits[6]);
            Binary(bits) == Digit(bits[0]) + 2 * Digit(bits[1]) + 4 * rest + 128 * Digit(bits[7])
  {
    assert Binary(bits[8..]) == 0 && bits[7..][1..] == bits[8..];
    assert Binary(bits[7..]) == Digit(bits[7]) && bits[6..][1..] == bits[7..];
    assert Binary(bits[6..]) == Digit(bits[6]) + 2 * Binary(bits[7..]) && bits[5..][1..] == bits[6..];
    assert Binary(bits[5..]) == Digit(bits[5]) + 2 * Binary(bits[6..]) && bits[4..][1..] == bits[5..];
    assert Binary(bits[4..]) == Digit(bits[4]) + 2 * Binary(bits[5..]) && bits[3..][1..] == bits[4..];
    assert Binary(bits[3..]) == Digit(bits[3]) + 2 * Binary(bits[4..]) && bits[2..][1..] == bits[3..];
    assert Binary(bits[2..]) == Digit(bits[2]) + 2 * Binary(bits[3..]) && bits[1..][1..] == bits[2..];
    assert Binary(bits[1..]) == Digit(bits[1]) + 2 * Binary(bits[2..]);
  }

  /** Bit by bit: h is shifted left and the byte added, modulo 256; bit 7 is xored into bit 1 and cleared. */
  lemma HashStepBits(h: nat, c: char) returns (sum: seq<bool>)
    requires h < 128
    ensures |sum| == 8 && (2 * h + c as int - Binary(sum)) % 256 == 0
    ensures HashStep(h, c) == Binary(sum[1 := sum[1] != sum[7]][7 := false])
  {
    hide Binary, Digits;
    var n := (2 * h + c as int) % 256;
    sum := Digits(n, 8);
    assert Pow2(8) == 256;
    var out := sum[1 := sum[1] != sum[7]][7 := false];
    EightDigits(sum);
    EightDigits(out);
    LowBits(n, sum[0], sum[1], sum[7],
            Digit(sum[2]) + 2 * Digit(sum[3]) + 4 * Digit(sum[4]) + 8 * Digit(sum[5]) + 16 * Digit(sum[6]));
  }

  lemma LowBits(n: nat, b0: bool, b1: bool, b7: bool, rest: nat)
    requires rest < 32 && n == Digit(b0) + 2 * Digit(b1) + 4 * rest + 128 * Digit(b7)
    ensures b7 <==> n >= 128
    ensures b7 ==> ((n - 128) / 2 % 2 == 1 <==> b1)
  {
    if b7 {
      assert (n - 128) / 2 == Digit(b1) + 2 * rest;
    }
  }

  lemma {:induction false} UnlinkAt(ids: seq<nat>, x: nat, i: nat)
    requires i < |ids| && ids[i] == x && x !in ids[..i]
    ensures Unlink(ids, x) == Some(ids[..i] + ids[i + 1..])
  {
    if i > 0 {
      assert ids[1..][..i - 1] == ids[..i][1..];
      assert ids[0] == ids[..i][0];
      UnlinkAt(ids[1..], x, i - 1);
      assert ids[..i] + ids[i + 1..] == [ids[0]] + (ids[1..][..i - 1] + ids[1..][i..]);
    } else {
      assert ids[..0] + ids[1..] == ids[1..];
    }
  }

  lemma {:induction false} NotThere(ids: seq<nat>, x: nat)
    requires x !in ids
    ensures Unlink(ids, x) == None
  {
    if ids != [] {
      NotThere(ids[1..], x);
    }
  }

  class SymbolTable {
    var items: seq<Item>
    var buckets: Buckets
    var levels: seq<Level>
    var depth: nat
    var level: int

    ghost predicate Valid()
      reads this
    {
      depth == |levels| && -1 <= level < depth
    }

    ghost function Contents(): Table
      reads this
    {
      Table(items, buckets, levels, level)
    }

    /** symbols_new, with the global level */
    constructor ()
      ensures Valid() && Contents() == Start()
    {
      items, buckets, levels, depth, level := [], seq(256, i => []), [], 0, -1;
      new;
      Indent();
    }

    /** symbols_indent */
    method Indent()
      requires Valid()
      modifies this
      ensures Valid() && Contents() == Symbols.Indent(old(Contents()))
    {
      level := level + 1;
      if level == depth {
        depth := depth + 1;
        levels := levels + [Level(0, -1, [])];
      }
      var v := levels[level];
      levels := levels[level := Level(v.begin, |v.scopes|, v.scopes + [[]])];
    }

    /** symbols_leave */
    method Leave()
      requires Valid() && level >= 0
      modifies this
      ensures Valid() && Contents() == Symbols.Leave(old(Contents()))
    {
      ghost var was := Contents();
      var v := levels[level];
      level := level - 1;
      while level > 0 && v.Chain() != []
        invariant Valid() && level >= -1
        invariant Symbols.Leave(was) == if level > 0 && v.Chain() != [] then Symbols.Leave(Contents()) else Contents()
        decreases level
      {
        v := levels[level];
        level := level - 1;
      }
    }

    /** symbols_enter; false if there is no scope to enter */
    method Enter() returns (ok: bool)
      requires Valid()
      modifies this
      ensures ok <==> Symbols.Enter(old(Contents())).Some?
      ensures ok ==> Valid() && Contents() == Symbols.Enter(old(Contents())).value
      ensures !ok ==> Contents() == old(Contents())
    {
      if level + 1 >= depth || levels[level + 1].begin >= |levels[level + 1].scopes| {
        return false;
      }
      level := level + 1;
      var v := levels[level];
      levels := levels[level := v.(scope := (v.scope + 1) % |v.scopes|)];
      ok := true;
    }

    /** The walk along a bucket to the item to unlink. */
    method UnlinkItem(h: Hash, x: nat) returns (ok: bool)
      requires x < |items|
      modifies this`buckets
      ensures ok <==> Symbols.Unlink(old(buckets)[h(items[x].key)], x).Some?
      ensures ok ==> buckets == old(buckets)[h(items[x].key) := Symbols.Unlink(old(buckets)[h(items[x].key)], x).value]
    {
      var b := h(items[x].key);
      var ids := buckets[b];
      var i := 0;
      while i < |ids| && ids[i] != x
        invariant 0 <= i <= |ids| && x !in ids[..i]
      {
        i := i + 1;
      }
      if i == |ids| {
        assert ids[..i] == ids;
        NotThere(ids, x);
        return false;
      }
      UnlinkAt(ids, x, i);
      buckets := buckets[b := ids[..i] + ids[i + 1..]];
      ok := true;
    }

    /** symbols_dedent; false if its assertion fails or it would touch what is gone */
    method Dedent(h: Hash) returns (ok: bool)
      requires Valid()
      modifies this
      ensures ok <==> Symbols.Dedent(h, old(Contents())).Some?
      ensures ok ==> Valid() && Contents() == Symbols.Dedent(h, old(Contents())).value
    {
      ghost var was := Contents();
      var outside := false;
      var started := false;
      while !started || (level > 0 && !outside)
        invariant Valid() && (!started ==> Contents() == was && !outside)
        invariant Symbols.Dedent(h, was) ==
                  if !started || (level > 0 && !outside) then Symbols.Dedent(h, Contents()) else Some(Contents())
        decreases level, started
      {
        started := true;
        ghost var now := Contents();
        if level < 0 || levels[level].begin >= |levels[level].scopes| || levels[level].scope != levels[level].begin {
          return false;
        }
        var v := levels[level];
        var chain := v.scopes[v.begin];
        outside := chain == [];
        levels := levels[level := v.(begin := v.begin + 1)];
        level := level - 1;
        ok := DestroyChain(h, chain);
        if !ok {
          return false;
        }
      }
      ok := true;
    }

    /** The items of one scope, unlinked one by one. */
    method DestroyChain(h: Hash, chain: seq<nat>) returns (ok: bool)
      requires Valid()
      modifies this`buckets
      ensures ok <==> Symbols.Destroy(h, old(Contents()), chain).Some?
      ensures ok ==> Valid() && Contents() == Symbols.Destroy(h, old(Contents()), chain).value
    {
      var i := 0;
      while i < |chain|
        invariant 0 <= i <= |chain| && Valid()
        invariant Symbols.Destroy(h, old(Contents()), chain) == Symbols.Destroy(h, Contents(), chain[i..])
      {
        if chain[i] >= |items| {
          return false;
        }
        ok := UnlinkItem(h, chain[i]);
        if !ok {
          return false;
        }
        assert chain[i..][1..] == chain[i + 1..];
        i := i + 1;
      }
      ok := true;
    }

    /** symbols_get: the first item of the name's bucket that symbols_saw accepts */
    method Get(h: Hash, n: string) returns (r: Option<nat>)
      ensures r == Symbols.Get(h, Contents(), n)
    {
      r := Search(buckets[h(n)], n, Saw);
    }

    /** The redefinition checks: the first item of the name in the current scope */
    method GetHere(h: Hash, n: string) returns (r: Option<nat>)
      ensures r == Symbols.GetHere(h, Contents(), n)
    {
      r := Search(buckets[h(n)], n, Here);
    }

    /** symbols_lookup and strsym_next, with the test of the loop around them */
    method Search(ids: seq<nat>, n: string, test: (Table, nat) -> bool) returns (r: Option<nat>)
      ensures r == First(Contents(), ids, n, test)
    {
      var t := Table(items, buckets, levels, level);
      var i := 0;
      while i < |ids|
        invariant 0 <= i <= |ids| && First(t, ids, n, test) == First(t, ids[i..], n, test)
      {
        if ids[i] < |items| && items[ids[i]].key == n && test(t, ids[i]) {
          return Some(ids[i]);
        }
        i := i + 1;
      }
      r := None;
    }

    /** symbols_add */
    method Add(h: Hash, n: string) returns (x: nat)
      requires Valid() && level >= 0 && 0 <= levels[level].scope < |levels[level].scopes|
      modifies this
      ensures Valid() && Contents() == Symbols.Add(h, old(Contents()), n) && x == |old(items)|
    {
      x := |items|;
      var v := levels[level];
      items := items + [Item(n, level, v.scope)];
      buckets := buckets[h(n) := [x] + buckets[h(n)]];
      levels := levels[level := v.(scopes := v.scopes[v.scope := v.scopes[v.scope] + [x]])];
    }
  }
}
