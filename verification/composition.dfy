/** Basic composition: every differentially private query spends part of
    the privacy budget, and the costs of several queries add up, both in
    epsilon and in delta. */
module Composition {

  /** The privacy cost (epsilon, delta) of one query or of a whole run of
      queries. */
  datatype Privacy = Privacy(eps: real, delta: real)

  /** The cost of asking nothing. */
  const Free := Privacy(0.0, 0.0)

  /** A cost that can actually be charged: epsilon and delta are both
      non-negative. */
  predicate NonNegative(p: Privacy) {
    0.0 <= p.eps && 0.0 <= p.delta
  }

  /** An (eps1, delta1) query followed by an (eps2, delta2) query is
      together (eps1 + eps2, delta1 + delta2): for non-negative costs the
      pair is never cheaper than either query alone. */
  function Compose(p: Privacy, q: Privacy): (r: Privacy)
    ensures NonNegative(p) && NonNegative(q) ==>
              && NonNegative(r)
              && p.eps <= r.eps && q.eps <= r.eps
              && p.delta <= r.delta && q.delta <= r.delta
  {
    Privacy(p.eps + q.eps, p.delta + q.delta)
  }

  /** Which query comes first does not matter. */
  lemma ComposeCommutes(p: Privacy, q: Privacy)
    ensures Compose(p, q) == Compose(q, p)
  {
  }

  predicate AllNonNegative(ps: seq<Privacy>) {
    forall k :: 0 <= k < |ps| ==> NonNegative(ps[k])
  }

  /** The total r costs at least as much as each query of ps. */
  predicate CoversEach(r: Privacy, ps: seq<Privacy>) {
    forall k :: 0 <= k < |ps| ==> ps[k].eps <= r.eps && ps[k].delta <= r.delta
  }

  /** The combined cost of a sequence of queries. For non-negative costs
      the privacy risks only pile up: the total is non-negative and at least
      the cost of every single query in the sequence. */
  function ComposeAll(ps: seq<Privacy>): (r: Privacy)
    ensures AllNonNegative(ps) ==> NonNegative(r) && CoversEach(r, ps)
  {
    if |ps| == 0 then Free else Compose(ps[0], ComposeAll(ps[1..]))
  }

  /** Running the queries of a and then those of b costs the cost of a plus
      the cost of b. */
  lemma {:induction false} ComposeAllAppend(a: seq<Privacy>, b: seq<Privacy>)
    ensures ComposeAll(a + b) == Compose(ComposeAll(a), ComposeAll(b))
  {
    if |a| == 0 {
      assert a + b == b;
    } else {
      assert (a + b)[1..] == a[1..] + b;
      ComposeAllAppend(a[1..], b);
    }
  }

  /** The combined cost does not depend on the order in which the queries
      are asked: any rearrangement of the same queries costs the same. */
  lemma {:induction false} ComposeAllOrderIndependent(a: seq<Privacy>, b: seq<Privacy>)
    requires multiset(a) == multiset(b)
    ensures ComposeAll(a) == ComposeAll(b)
    decreases |a|
  {
    if |a| > 0 {
      var k := RemoveOccurrence(a, b);
      var rest := b[..k] + b[k + 1..];
      ComposeAllOrderIndependent(a[1..], rest);
      assert b == b[..k] + [b[k]] + b[k + 1..];
      ComposeAllAppend(b[..k] + [b[k]], b[k + 1..]);
      ComposeAllAppend(b[..k], [b[k]]);
      ComposeAllAppend(b[..k], b[k + 1..]);
    }
  }

  /** The multiset bookkeeping of `ComposeAllOrderIndependent`: the first
      query of a occurs in b at some index k, and the rest of a is a
      rearrangement of b without that occurrence. */
  lemma RemoveOccurrence(a: seq<Privacy>, b: seq<Privacy>) returns (k: nat)
    requires |a| > 0 && multiset(a) == multiset(b)
    ensures k < |b| && b[k] == a[0]
    ensures multiset(a[1..]) == multiset(b[..k] + b[k + 1..])
  {
    assert a[0] in multiset(b);
    k :| 0 <= k < |b| && b[k] == a[0];
    assert b == b[..k] + [b[k]] + b[k + 1..];
    assert a == [a[0]] + a[1..];
    assert multiset(a[1..]) == multiset(a) - multiset{a[0]};
    assert multiset(b[..k] + b[k + 1..]) == multiset(b) - multiset{b[k]};
  }

  /** `num_queries` copies of the same query. */
  function Repeat(p: Privacy, numQueries: nat): (ps: seq<Privacy>)
    ensures |ps| == numQueries
  {
    seq(numQueries, _ => p)
  }

  /** x added up k times: the composed cost of k equal queries, built one
      query at a time. */
  function Times(x: real, k: nat): real {
    if k == 0 then 0.0 else Times(x, k - 1) + x
  }

  /** Adding x up k times is multiplying it by k. */
  lemma {:induction false} TimesIsProduct(x: real, k: nat)
    ensures Times(x, k) == x * k as real
  {
    if k > 0 {
      TimesIsProduct(x, k - 1);
      assert x * k as real == x * (k - 1) as real + x;
    }
  }

  /** Composing a query with itself k times multiplies its cost by k. */
  lemma {:induction false} RepeatedComposeIsProduct(p: Privacy, numQueries: nat)
    ensures ComposeAll(Repeat(p, numQueries))
            == Privacy(p.eps * numQueries as real, p.delta * numQueries as real)
  {
    RepeatedComposeIsSum(p, numQueries);
    TimesIsProduct(p.eps, numQueries);
    TimesIsProduct(p.delta, numQueries);
  }

  /** Composing a query with itself k times adds its epsilon up k times
      and its delta up k times. */
  lemma {:induction false} RepeatedComposeIsSum(p: Privacy, numQueries: nat)
    ensures ComposeAll(Repeat(p, numQueries)) == Privacy(Times(p.eps, numQueries), Times(p.delta, numQueries))
  {
    if numQueries > 0 {
      assert Repeat(p, numQueries)[1..] == Repeat(p, numQueries - 1);
      RepeatedComposeIsSum(p, numQueries - 1);
      assert Times(p.eps, numQueries) == p.eps + Times(p.eps, numQueries - 1);
      assert Times(p.delta, numQueries) == p.delta + Times(p.delta, numQueries - 1);
    }
  }

  /** `total_epsilon = eps_per_query * num_queries`: the total privacy cost
      of `numQueries` queries at `perQuery` each, which is the epsilon of
      that query composed with itself `numQueries` times. */
  function TotalEpsilon(perQuery: real, numQueries: nat): (total: real)
    ensures total == ComposeAll(Repeat(Privacy(perQuery, 0.0), numQueries)).eps
  {
    RepeatedComposeIsSum(Privacy(perQuery, 0.0), numQueries);
    TimesIsProduct(perQuery, numQueries);
    perQuery * numQueries as real
  }

  /** The composition demo: the epsilon and delta totals of `numQueries`
      identical queries are the cost of composing that query with itself
      `numQueries` times. */
  function BasicComposition(perQuery: Privacy, numQueries: nat): (total: Privacy)
    ensures total == ComposeAll(Repeat(perQuery, numQueries))
  {
    RepeatedComposeIsProduct(perQuery, numQueries);
    Privacy(perQuery.eps * numQueries as real, perQuery.delta * numQueries as real)
  }

  /** One more query at the same cost adds exactly that cost to the total. */
  lemma TotalEpsilonStep(perQuery: real, numQueries: nat)
    ensures TotalEpsilon(perQuery, numQueries + 1) == TotalEpsilon(perQuery, numQueries) + perQuery
  {
  }

  /** Four queries at epsilon 0.5 cost 2.0 in total. */
  lemma TotalEpsilonExample()
    ensures TotalEpsilon(0.5, 4) == 2.0
  {
  }

  /** The demo's defaults: four queries at (0.5, 1e-5) total (2.0, 4e-5). */
  lemma CompositionDemoDefault()
    ensures BasicComposition(Privacy(0.5, 0.00001), 4) == Privacy(2.0, 0.00004)
  {
  }

  /** The demo's main run: four queries at (0.5, 1e-6) total (2.0, 4e-6). */
  lemma CompositionDemoMainRun()
    ensures BasicComposition(Privacy(0.5, 0.000001), 4) == Privacy(2.0, 0.000004)
  {
  }
}
