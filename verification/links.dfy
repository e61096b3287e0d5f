/** Singly linked lists threaded through an array of nodes, as the kernel threads them through its pools. */
module Links {
  import opened Sequences

  const NULL: int := -1

  /** `start` leads through exactly `nodes`, in that order, to the null link. */
  ghost predicate Chain(next: seq<int>, nodes: seq<nat>, start: int) {
    && start == (if nodes == [] then NULL else nodes[0])
    && forall i :: 0 <= i < |nodes| ==> nodes[i] < |next| && next[nodes[i]] == Following(nodes, i)
  }

  function Following(nodes: seq<nat>, i: nat): int {
    if i + 1 < |nodes| then nodes[i + 1] else NULL
  }

  lemma ChainFrame(next: seq<int>, nodes: seq<nat>, start: int, n: nat, v: int)
    requires Chain(next, nodes, start) && n < |next| && n !in nodes
    ensures Chain(next[n := v], nodes, start)
  {
    assert forall i :: 0 <= i < |nodes| ==> nodes[i] in nodes;
  }

  lemma ChainPush(next: seq<int>, nodes: seq<nat>, start: int, n: nat)
    requires Chain(next, nodes, start) && n < |next| && n !in nodes
    ensures Chain(next[n := start], [n] + nodes, n)
  {
    var c, m := [n] + nodes, next[n := start];
    forall i | 0 <= i < |c| ensures c[i] < |m| && m[c[i]] == Following(c, i) {
      assert i + 1 < |c| ==> c[i + 1] == nodes[i];
      if i > 0 {
        assert c[i] == nodes[i - 1] && nodes[i - 1] in nodes;
      }
    }
  }

  lemma ChainPop(next: seq<int>, nodes: seq<nat>, start: int)
    requires Chain(next, nodes, start) && nodes != []
    ensures start == nodes[0] && nodes[0] < |next| && Chain(next, nodes[1..], next[nodes[0]])
  {
    var c := nodes[1..];
    assert next[nodes[0]] == Following(nodes, 0);
    forall i | 0 <= i < |c| ensures c[i] < |next| && next[c[i]] == Following(c, i) {
      assert c[i] == nodes[i + 1];
      assert i + 1 < |c| ==> c[i + 1] == nodes[i + 2];
    }
  }

  lemma ChainAppend(next: seq<int>, nodes: seq<nat>, start: int, n: nat)
    requires Chain(next, nodes, start) && Distinct(nodes) && nodes != []
    requires n < |next| && n !in nodes && next[n] == NULL
    ensures Chain(next[nodes[|nodes| - 1] := n], nodes + [n], start)
  {
    var last := nodes[|nodes| - 1];
    assert last != n;
    forall i | 0 <= i < |nodes| - 1 ensures nodes[i] != last {}
  }
}
