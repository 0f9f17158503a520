/** How often a name occurs in a list. */
module Counts {

  function Count(q: seq<nat>, id: nat): nat {
    if q == [] then 0 else Count(q[1..], id) + if q[0] == id then 1 else 0
  }

  lemma CountSplit(a: seq<nat>, b: seq<nat>, id: nat)
    ensures Count(a + b, id) == Count(a, id) + Count(b, id)
  {
    if a == [] {
      assert a + b == b;
    } else {
      CountSplit(a[1..], b, id);
      assert (a + b)[1..] == a[1..] + b;
    }
  }

  lemma CountMember(q: seq<nat>, id: nat)
    ensures id in q <==> Count(q, id) > 0
  {
  }
}
