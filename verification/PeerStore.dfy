/** The control server's store of announced nodes, one per session. */
module PeerStores {
  import opened Wrappers
  import opened Overlay
  import opened Orders

  type Store = map<SessionId, Node>

  function ApplyUpdate(store: Store, update: PeerUpdate): Store {
    match update.node
    case None => store - {update.id}
    case Some(node) => store[update.id := node]
  }

  /** Applies a queue of updates, oldest first. */
  function Replay(store: Store, queue: seq<PeerUpdate>): Store
    decreases |queue|
  {
    if queue == [] then store else Replay(ApplyUpdate(store, queue[0]), queue[1..])
  }

  lemma {:induction false} ReplayAppend(store: Store, queue: seq<PeerUpdate>, update: PeerUpdate)
    ensures Replay(store, queue + [update]) == ApplyUpdate(Replay(store, queue), update)
    decreases |queue|
  {
    if queue == [] {
      assert queue + [update] == [update];
    } else {
      ReplayAppend(ApplyUpdate(store, queue[0]), queue[1..], update);
      assert (queue + [update])[1..] == queue[1..] + [update];
    }
  }

  /** Nodes are listed by ID, then by key. */
  predicate NodeLe(a: Node, b: Node) {
    a.id < b.id || (a.id == b.id && LexLe(a.key, b.key))
  }

  lemma NodeLePreorder()
    ensures Preorder(NodeLe)
  {
    LexTotalOrder();
  }

  function Pick(store: Store, order: seq<SessionId>): (r: seq<Node>)
    requires forall sid :: sid in order ==> sid in store
    ensures |r| == |order| && forall i :: 0 <= i < |r| ==> r[i] == store[order[i]]
  {
    seq(|order|, i requires 0 <= i < |order| => store[order[i]])
  }

  ghost predicate Arranged(store: Store, order: seq<SessionId>, nodes: seq<Node>) {
    Enumerates(order, store.Keys) && multiset(nodes) == multiset(Pick(store, order))
  }

  /** `nodes` lists the node of every session once, sorted. */
  ghost predicate IsSnapshot(store: Store, nodes: seq<Node>) {
    SortedBy(NodeLe, nodes) && exists order :: Arranged(store, order, nodes)
  }

  ghost function Ids(nodes: seq<Node>): set<int> {
    set i | 0 <= i < |nodes| :: nodes[i].id
  }

  ghost function StoreIds(store: Store): set<int> {
    set sid | sid in store :: store[sid].id
  }

  /** A snapshot shows exactly the IDs in the store, and is empty only if the store is. */
  lemma SnapshotIds(store: Store, nodes: seq<Node>)
    requires IsSnapshot(store, nodes)
    ensures Ids(nodes) == StoreIds(store)
    ensures nodes == [] <==> store == map[]
  {
    var order :| Arranged(store, order, nodes);
    var picked := Pick(store, order);
    forall id | id in Ids(nodes) ensures id in StoreIds(store) {
      var i :| 0 <= i < |nodes| && nodes[i].id == id;
      assert nodes[i] in multiset(picked);
      var j :| 0 <= j < |picked| && picked[j] == nodes[i];
      assert order[j] in store;
    }
    forall id | id in StoreIds(store) ensures id in Ids(nodes) {
      var sid :| sid in store && store[sid].id == id;
      var j :| 0 <= j < |order| && order[j] == sid;
      assert picked[j] in multiset(nodes);
      assert picked[j] in nodes;
    }
    assert nodes == [] || nodes[0].id in Ids(nodes);
    if sid :| sid in store {
      assert store[sid].id in Ids(nodes);
    } else {
      assert StoreIds(store) == {};
    }
  }

  /** A snapshot has one node for each session and no other, in ascending order of
      IDs and, for equal IDs, of keys. */
  lemma SnapshotLists(store: Store, nodes: seq<Node>)
    requires IsSnapshot(store, nodes)
    ensures |nodes| == |store|
    ensures forall node :: node in nodes <==> exists sid :: sid in store && store[sid] == node
    ensures forall i, j :: 0 <= i < j < |nodes| ==>
              nodes[i].id <= nodes[j].id && (nodes[i].id == nodes[j].id ==> LexLe(nodes[i].key, nodes[j].key))
  {
    var order :| Arranged(store, order, nodes);
    var picked := Pick(store, order);
    EnumerationSize(order, store.Keys);
    assert |store| == |store.Keys|;
    assert |multiset(nodes)| == |nodes| && |multiset(picked)| == |picked|;
    forall node ensures node in nodes <==> exists sid :: sid in store && store[sid] == node {
      assert node in nodes <==> node in multiset(picked);
      if node in picked {
        var j :| 0 <= j < |picked| && picked[j] == node;
        assert order[j] in order;
      }
      if sid :| sid in store && store[sid] == node {
        assert sid in order;
        var j :| 0 <= j < |order| && order[j] == sid;
        assert picked[j] in picked;
      }
    }
    hide Arranged, LexLe;
    forall i, j | 0 <= i < j < |nodes|
      ensures nodes[i].id <= nodes[j].id && (nodes[i].id == nodes[j].id ==> LexLe(nodes[i].key, nodes[j].key))
    {
      assert NodeLe(nodes[i], nodes[j]);
    }
  }

  class PeerStore {
    var nodes: Store

    constructor ()
      ensures nodes == map[]
    {
      nodes := map[];
    }

    method Apply(update: PeerUpdate)
      modifies this
      ensures nodes == ApplyUpdate(old(nodes), update)
    {
      if update.node == None {
        nodes := nodes - {update.id};
        return;
      }
      nodes := nodes[update.id := update.node.value];
    }

    method Snapshot() returns (peers: seq<Node>)
      ensures IsSnapshot(nodes, peers)
    {
      var order := Range(nodes.Keys);
      peers := [];
      for i := 0 to |order|
        invariant peers == Pick(nodes, order[..i])
      {
        peers := peers + [nodes[order[i]]];
        assert order[..i + 1] == order[..i] + [order[i]];
      }
      assert order[..|order|] == order;
      NodeLePreorder();
      SortSorted(NodeLe, peers);
      peers := Sort(NodeLe, peers);
      assert Arranged(nodes, order, peers);
    }
  }
}
