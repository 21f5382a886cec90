/**
 * Regrouping of concatenations, one shape each.
 */
module Lists {
  lemma Group3<X>(a: seq<X>, b: seq<X>, c: seq<X>)
    ensures a + b + c == a + (b + c) && a + [] == a
  {
  }

  lemma Front<X>(a: seq<X>, b: seq<X>)
    ensures [] + a + b == a + b
  {
    assert [] + a == a;
  }

  lemma Group4<X>(a: seq<X>, b: seq<X>, c: seq<X>, d: seq<X>)
    ensures a + b + c + d == a + (b + c + d)
  {
  }

  lemma Nest4<X>(a: seq<X>, b: seq<X>, c: seq<X>, d: seq<X>)
    ensures a + b + c + d == a + (b + (c + d)) && a + b == a + (b + [])
  {
  }

  lemma Pair4<X>(a: seq<X>, b: seq<X>, c: seq<X>, d: seq<X>)
    ensures a + (b + c) + d == a + b + (c + d)
  {
  }

  lemma Group5<X>(a: seq<X>, b: seq<X>, c: seq<X>, d: seq<X>, e: seq<X>)
    ensures a + ((b + c + d) + e) == (a + b + c + d) + e
  {
  }

  lemma Group6<X>(a: seq<X>, b: seq<X>, c: seq<X>, d: seq<X>, e: seq<X>, f: seq<X>)
    ensures a + (b + (c + d + e)) + f == (a + b + c) + d + (e + f)
  {
  }
}
