/**
 The order in which a queue with an urgent lane hands things over. Ordinary items
 join at the end, urgent ones at the front, and everything leaves from the front,
 one by one or, on a reset, all at once. Every item is numbered as it is sent.
 */
module DeliveryOrder {

  datatype Item<T> = Item(serial: nat, urgent: bool, body: T)

  /** What was sent, what waits, what was received and what a reset has dropped. */
  datatype Log<T> = Log(sent: seq<Item<T>>, queued: seq<Item<T>>, received: seq<Item<T>>, dropped: seq<Item<T>>) {

    function Send(body: T, urgent: bool): Log<T> {
      var m := Item(|sent|, urgent, body);
      Log(sent + [m], if urgent then [m] + queued else queued + [m], received, dropped)
    }

    function Take(): Log<T>
      requires queued != []
    {
      Log(sent, queued[1..], received + [queued[0]], dropped)
    }

    function Drop(): Log<T> {
      Log(sent, [], received, dropped + queued)
    }
  }

  function Nothing<T>(): Log<T> {
    Log([], [], [], [])
  }

  /** Every item sent has been received once, has been dropped once, or waits in one place. */
  ghost predicate Conserved<T>(l: Log<T>) {
    && (forall i :: 0 <= i < |l.sent| ==> l.sent[i].serial == i)
    && multiset(l.sent) == multiset(l.received) + multiset(l.dropped) + multiset(l.queued)
  }

  /** Urgent items first, the latest of them in front; then the ordinary ones, the earliest in front. */
  predicate Before<T>(a: Item<T>, b: Item<T>) {
    if a.urgent then b.urgent ==> a.serial > b.serial else !b.urgent && a.serial < b.serial
  }

  ghost predicate Queued<T>(q: seq<Item<T>>) {
    forall i, j :: 0 <= i < j < |q| ==> Before(q[i], q[j])
  }

  /** Of two ordinary items, the first was sent before the second. */
  predicate Earlier<T>(a: Item<T>, b: Item<T>) {
    a.urgent || b.urgent || a.serial < b.serial
  }

  ghost predicate Ordered<T(!new)>(l: Log<T>) {
    && Queued(l.queued)
    && (forall m :: m in l.queued || m in l.received || m in l.dropped ==> m.serial < |l.sent|)
    && (forall i, j :: 0 <= i < j < |l.received| ==> Earlier(l.received[i], l.received[j]))
    && (forall i, j :: 0 <= i < j < |l.dropped| ==> Earlier(l.dropped[i], l.dropped[j]))
    && (forall m, n :: (m in l.received || m in l.dropped) && n in l.queued ==> Earlier(m, n))
  }

  ghost predicate Good<T(!new)>(l: Log<T>) {
    Conserved(l) && Ordered(l)
  }

  lemma NothingIsGood<T(!new)>()
    ensures Good(Nothing<T>())
  {
  }

  lemma SendConserves<T>(l: Log<T>, body: T, urgent: bool)
    requires Conserved(l)
    ensures Conserved(l.Send(body, urgent))
  {
  }

  lemma SendKeepsOrder<T(!new)>(l: Log<T>, body: T, urgent: bool)
    requires Ordered(l)
    ensures Ordered(l.Send(body, urgent))
  {
    var m, n := Item(|l.sent|, urgent, body), l.Send(body, urgent);
    forall i, j | 0 <= i < j < |n.queued| ensures Before(n.queued[i], n.queued[j]) {
      if urgent {
        assert n.queued[j] == l.queued[j - 1] && l.queued[j - 1] in l.queued;
        assert i > 0 ==> n.queued[i] == l.queued[i - 1];
      } else {
        assert n.queued[i] == l.queued[i] && l.queued[i] in l.queued;
      }
    }
  }

  lemma SendGood<T(!new)>(l: Log<T>, body: T, urgent: bool)
    requires Good(l)
    ensures Good(l.Send(body, urgent))
  {
    SendConserves(l, body, urgent);
    SendKeepsOrder(l, body, urgent);
  }

  lemma TakeGood<T(!new)>(l: Log<T>)
    requires Good(l) && l.queued != []
    ensures Good(l.Take())
  {
    var n, q := l.Take(), l.queued;
    assert q == [q[0]] + q[1..];
    assert q[0] in q;
    forall i, j | 0 <= i < j < |n.queued| ensures Before(n.queued[i], n.queued[j]) {
      assert Before(q[i + 1], q[j + 1]);
    }
    forall m | m in n.queued ensures Earlier(q[0], m) {
      var i :| 0 <= i < |n.queued| && n.queued[i] == m;
      assert Before(q[0], q[i + 1]);
    }
  }

  lemma DropGood<T(!new)>(l: Log<T>)
    requires Good(l)
    ensures Good(l.Drop())
  {
    var n := l.Drop();
    assert multiset(n.dropped) == multiset(l.dropped) + multiset(l.queued);
    forall i, j | 0 <= i < j < |n.dropped| ensures Earlier(n.dropped[i], n.dropped[j]) {
      var k := |l.dropped|;
      if i < k <= j {
        assert n.dropped[i] in l.dropped && n.dropped[j] == l.queued[j - k] && l.queued[j - k] in l.queued;
      } else if k <= i {
        assert Before(l.queued[i - k], l.queued[j - k]);
      }
    }
  }

  /** The next item out is the latest urgent one, or, when none is urgent, the earliest of all. */
  lemma NextOut<T(!new)>(l: Log<T>, m: Item<T>)
    requires Ordered(l) && m in l.queued
    ensures var h := l.queued[0];
            && (m.urgent ==> h.urgent && h.serial >= m.serial)
            && (!h.urgent ==> !m.urgent && h.serial <= m.serial)
  {
    var i :| 0 <= i < |l.queued| && l.queued[i] == m;
    if i > 0 {
      assert Before(l.queued[0], l.queued[i]);
    }
  }

  /* First in, first out */

  lemma {:induction false} Climbs<T>(q: seq<Item<T>>, i: nat)
    requires i < |q| && forall a, b :: 0 <= a < b < |q| ==> q[a].serial < q[b].serial
    ensures q[i].serial >= i
  {
    if i > 0 { Climbs(q, i - 1); }
  }

  lemma {:induction false} Tops<T>(q: seq<Item<T>>, n: nat, i: nat)
    requires i < |q| && forall a, b :: 0 <= a < b < |q| ==> q[a].serial < q[b].serial
    requires forall a :: 0 <= a < |q| ==> q[a].serial < n
    ensures q[i].serial + (|q| - i) <= n
    decreases |q| - i
  {
    if i + 1 < |q| { Tops(q, n, i + 1); }
  }

  /** Where nothing was urgent and nothing dropped, what came out and what waits is what was sent, in that order. */
  lemma PlainIsFifo<T(!new)>(l: Log<T>)
    requires Good(l) && l.dropped == [] && forall i :: 0 <= i < |l.sent| ==> !l.sent[i].urgent
    ensures l.sent == l.received + l.queued
  {
    hide Ordered, Conserved;
    var q := l.received + l.queued;
    SameItems(l);
    forall a, b | 0 <= a < b < |q| ensures q[a].serial < q[b].serial {
      InOrder(l, a, b);
    }
    Sorted(q, l.sent);
  }

  lemma SameItems<T>(l: Log<T>)
    requires Conserved(l) && l.dropped == []
    ensures var q := l.received + l.queued;
            |q| == |l.sent| && forall i :: 0 <= i < |q| ==> q[i].serial < |l.sent| && l.sent[q[i].serial] == q[i]
  {
    var q := l.received + l.queued;
    assert multiset(q) == multiset(l.sent);
    assert |q| == |multiset(q)| && |l.sent| == |multiset(l.sent)|;
    forall i | 0 <= i < |q| ensures q[i].serial < |l.sent| && l.sent[q[i].serial] == q[i] {
      assert q[i] in multiset(q);
      var k :| 0 <= k < |l.sent| && l.sent[k] == q[i];
    }
  }

  lemma Sorted<T>(q: seq<Item<T>>, sent: seq<Item<T>>)
    requires |q| == |sent| && forall i :: 0 <= i < |q| ==> q[i].serial < |sent| && sent[q[i].serial] == q[i]
    requires forall a, b :: 0 <= a < b < |q| ==> q[a].serial < q[b].serial
    ensures q == sent
  {
    forall i | 0 <= i < |q| ensures q[i] == sent[i] {
      Climbs(q, i);
      Tops(q, |sent|, i);
    }
  }

  lemma InOrder<T(!new)>(l: Log<T>, a: nat, b: nat)
    requires Ordered(l) && a < b < |l.received + l.queued|
    requires var q := l.received + l.queued; !q[a].urgent && !q[b].urgent
    ensures var q := l.received + l.queued; q[a].serial < q[b].serial
  {
    var q, k := l.received + l.queued, |l.received|;
    if k <= a {
      assert Before(l.queued[a - k], l.queued[b - k]);
    } else if b < k {
      assert Earlier(l.received[a], l.received[b]);
    } else {
      assert q[a] in l.received && q[b] == l.queued[b - k] && l.queued[b - k] in l.queued;
    }
  }
}
