/** Sums over finite maps. */
module Sums {

  ghost function Sum(tokens: map<nat, nat>): nat
  {
    if tokens == map[] then 0
    else
      var k :| k in tokens;
      tokens[k] + Sum(tokens - {k})
  }

  lemma {:induction false} SumRemove(tokens: map<nat, nat>, k: nat)
    requires k in tokens
    ensures Sum(tokens) == tokens[k] + Sum(tokens - {k})
    decreases |tokens|
  {
    var j :| j in tokens && Sum(tokens) == tokens[j] + Sum(tokens - {j});
    if j != k {
      var without := tokens - {j};
      assert |without| < |tokens| by { assert without.Keys == tokens.Keys - {j}; }
      SumRemove(without, k);
      SumRemove(tokens - {k}, j);
      assert tokens - {j} - {k} == tokens - {k} - {j};
    }
  }

  lemma SumAdd(tokens: map<nat, nat>, k: nat, bytes: nat)
    requires k !in tokens
    ensures Sum(tokens[k := bytes]) == Sum(tokens) + bytes
  {
    SumRemove(tokens[k := bytes], k);
    assert tokens[k := bytes] - {k} == tokens;
  }

  lemma {:induction false} SumZero(tokens: map<nat, nat>)
    ensures Sum(tokens) == 0 <==> forall k :: k in tokens ==> tokens[k] == 0
    decreases |tokens|
  {
    if tokens != map[] {
      var k :| k in tokens;
      SumRemove(tokens, k);
      assert (tokens - {k}).Keys == tokens.Keys - {k};
      SumZero(tokens - {k});
      assert forall j :: j in tokens <==> j == k || j in tokens - {k};
    }
  }

  lemma SumOfOne(tokens: map<nat, nat>, k: nat)
    requires tokens.Keys == {k}
    ensures Sum(tokens) == tokens[k]
  {
    SumRemove(tokens, k);
    assert tokens - {k} == map[];
  }
}
