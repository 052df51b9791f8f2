/** While every load is fresh, no message enters two channels or one twice. */
module RelayOnce {
  import opened Wrappers
  import opened Relay
  import opened RelayInvariant
  import opened RelayFresh
  import opened RelayConservation
  import opened RelaySimulation

  lemma {:induction false} ItemBagCounts(items: seq<Item>, i: nat, j: nat)
    requires i < j <= |items|
    ensures ItemBag(items)[ItemMessage(items[i])] >= 1
    ensures j < |items| && ItemMessage(items[j]) == ItemMessage(items[i]) ==> ItemBag(items)[ItemMessage(items[i])] >= 2
    decreases |items|
  {
    var last := |items| - 1;
    if i < last {
      ItemBagCounts(items[..last], i, if j < last then j else last);
    }
  }

  lemma {:induction false} SumCounts(f: Connection -> Bag, conns: seq<Connection>, j: nat, k: nat, m: Message)
    requires j < k <= |conns|
    ensures Sum(f, conns)[m] >= f(conns[j])[m] + (if k < |conns| then f(conns[k])[m] else 0)
    decreases |conns|
  {
    var last := |conns| - 1;
    if j < last {
      SumCounts(f, conns[..last], j, if k < last then k else last, m);
    }
  }

  function PushedBag(c: Connection): Bag { ItemBag(c.pushed) }

  /** Whatever entered a channel is buffered, written or dropped with it. */
  lemma PushedIsSomewhere(c: Connection, m: Message)
    requires ConnectionInv(c)
    ensures PushedBag(c)[m] <= Held(c)[m] + Written(c)[m] + Dropped(c)[m]
  {
    hide ItemBag, DrainedRows;
    assert c.pushed == c.pushed[..c.written] + c.pushed[c.written..];
    ItemBagConcat(c.pushed[..c.written], c.pushed[c.written..], m);
  }

  lemma {:induction false} SumPushed(conns: seq<Connection>, m: Message)
    requires forall k :: 0 <= k < |conns| ==> ConnectionInv(conns[k])
    ensures Sum(PushedBag, conns)[m] <= Sum(Held, conns)[m] + Sum(Written, conns)[m] + Sum(Dropped, conns)[m]
  {
    hide ConnectionInv, Held, Written, Dropped, PushedBag;
    if conns != [] {
      SumPushed(conns[..|conns| - 1], m);
      PushedIsSomewhere(conns[|conns| - 1], m);
    }
  }

  lemma CopiesBounded(run: seq<Event>, s: State, m: Message)
    requires Run(run) == Some(s) && FreshRun(run)
    ensures Sum(PushedBag, s.conns)[m] <= 1
  {
    hide Run, FreshRun, Held, Written, Dropped, PushedBag, QueueBag, ConnectionInv, AcceptedInv, RegistryInv, TableInv, AddressInv, CoverageInv;
    InvHolds(run);
    FreshDelivery(run, s, m);
    SumPushed(s.conns, m);
  }

  /** Two pushes in a run of fresh loads, anywhere in the relay, live or drained, are of two messages. */
  lemma PushedOnce(run: seq<Event>, s: State, k: nat, i: nat, k': nat, i': nat)
    requires Run(run) == Some(s) && FreshRun(run)
    requires k < |s.conns| && i < |s.conns[k].pushed| && k' < |s.conns| && i' < |s.conns[k'].pushed|
    ensures ItemMessage(s.conns[k].pushed[i]) == ItemMessage(s.conns[k'].pushed[i']) <==> k == k' && i == i'
  {
    hide Run, FreshRun, ItemMessage, Sum, ItemBag;
    var m := ItemMessage(s.conns[k].pushed[i]);
    if m == ItemMessage(s.conns[k'].pushed[i']) {
      CopiesBounded(run, s, m);
      ItemBagCounts(s.conns[k].pushed, i, if i < i' && k == k' then i' else |s.conns[k].pushed|);
      ItemBagCounts(s.conns[k'].pushed, i', if i' < i && k == k' then i else |s.conns[k'].pushed|);
      SumCounts(PushedBag, s.conns, k, if k < k' then k' else |s.conns|, m);
      SumCounts(PushedBag, s.conns, k', if k' < k then k else |s.conns|, m);
    }
  }
}
