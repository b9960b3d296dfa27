/** The hash part of a table: a scatter table whose collisions are chained through relative offsets,
    with Brent's variation. */
module TableHash {
  import opened Basics

  /** A key after normalization: a float with an integral value is that integer. */
  datatype Key = Int(i: Int64) | Other(id: nat)

  datatype Value = Nil | Val(n: int)

  /** The key of a node that was never used is None. `next` is relative; 0 ends the chain. */
  datatype Node = Node(key: Option<Key>, val: Value, next: int)

  /** The main position of a key in a node vector of a given size. */
  type Hash = (Key, nat) -> nat

  ghost predicate Good(h: Hash) {
    forall k: Key, n: nat {:trigger h(k, n)} | n > 0 :: h(k, n) < n
  }

  /** Which chain a node is on, and where: chains are ordered by rank. */
  datatype Order = Order(chain: seq<nat>, rank: seq<real>)

  /** The next node is the next higher rank of the chain, if there is one. */
  ghost predicate Edge(ns: seq<Node>, o: Order, i: nat)
    requires |o.chain| == |o.rank| == |ns| && i < |ns|
  {
    if ns[i].next == 0 then
      forall m | 0 <= m < |ns| && o.chain[m] == o.chain[i] :: o.rank[m] <= o.rank[i]
    else
      var j := i + ns[i].next;
      && 0 <= j < |ns| && o.chain[j] == o.chain[i] && o.rank[i] < o.rank[j]
      && forall m | 0 <= m < |ns| && o.chain[m] == o.chain[i] :: o.rank[m] <= o.rank[i] || o.rank[j] <= o.rank[m]
  }

  ghost predicate Linked(ns: seq<Node>, o: Order) {
    && |o.chain| == |o.rank| == |ns|
    && (forall i, j | 0 <= i < j < |ns| && o.chain[i] == o.chain[j] :: o.rank[i] != o.rank[j])
    && forall i | 0 <= i < |ns| :: Edge(ns, o, i)
  }

  /** j is i or comes after it on its chain. */
  ghost predicate From(o: Order, i: nat, j: nat)
    requires |o.chain| == |o.rank| && i < |o.chain| && j < |o.chain|
  {
    o.chain[i] == o.chain[j] && o.rank[i] <= o.rank[j]
  }

  /** A key is on the chain of its main position p, and the key at p has main position p too. */
  ghost predicate PlacedAt(h: Hash, ns: seq<Node>, o: Order, i: nat)
    requires |o.chain| == |o.rank| == |ns| && i < |ns| && Good(h)
  {
    ns[i].key.Some? ==>
      var p := h(ns[i].key.value, |ns|);
      From(o, p, i) && ns[p].key.Some? && h(ns[p].key.value, |ns|) == p
  }

  ghost predicate Placed(h: Hash, ns: seq<Node>, o: Order) {
    Good(h) && |o.chain| == |o.rank| == |ns| && forall i | 0 <= i < |ns| :: PlacedAt(h, ns, o, i)
  }

  ghost predicate Distinct(ns: seq<Node>) {
    forall i, j | 0 <= i < j < |ns| && ns[i].key.Some? :: ns[i].key != ns[j].key
  }

  ghost predicate FreeAt(ns: seq<Node>, o: Order, i: nat)
    requires |o.chain| == |ns| && i < |ns|
  {
    ns[i].key.None? ==>
      ns[i].val.Nil? && ns[i].next == 0 && forall m | 0 <= m < |ns| && o.chain[m] == o.chain[i] :: m == i
  }

  /** Unused nodes are empty and on no chain but their own. */
  ghost predicate FreeOk(ns: seq<Node>, o: Order) {
    |o.chain| == |ns| && forall i | 0 <= i < |ns| :: FreeAt(ns, o, i)
  }

  ghost predicate WellFormed(h: Hash, ns: seq<Node>, o: Order) {
    ns != [] && Linked(ns, o) && Placed(h, ns, o) && Distinct(ns) && FreeOk(ns, o)
  }

  // ---------------------------------------------------------------------- contents

  ghost predicate Holds(ns: seq<Node>, k: Key) {
    exists i :: 0 <= i < |ns| && ns[i].key == Some(k)
  }

  /** The value of a key; Nil if there is none. */
  ghost function Lookup(ns: seq<Node>, k: Key): Value {
    if Holds(ns, k) then
      var i :| 0 <= i < |ns| && ns[i].key == Some(k);
      ns[i].val
    else Nil
  }

  lemma LookupAt(ns: seq<Node>, i: nat)
    requires Distinct(ns) && i < |ns| && ns[i].key.Some?
    ensures Lookup(ns, ns[i].key.value) == ns[i].val
  {
    assert Holds(ns, ns[i].key.value);
  }

  // ---------------------------------------------------------------------- storing a new key

  /** A node whose value is nil is taken over by key k, whose main position it is. */
  function TakeOver(ns: seq<Node>, mp: nat, k: Key, v: Value): seq<Node>
    requires mp < |ns|
  {
    ns[mp := Node(Some(k), v, ns[mp].next)]
  }

  /** The colliding node is at its main position: the new key goes to the free node f, second in
      the chain. */
  function InsertAfter(ns: seq<Node>, mp: nat, f: nat, k: Key, v: Value): seq<Node>
    requires mp < |ns| && f < |ns|
  {
    ns[f := Node(Some(k), v, if ns[mp].next != 0 then mp + ns[mp].next - f else ns[f].next)]
      [mp := ns[mp].(next := f - mp)]
  }

  /** The colliding node is out of its main position: it moves to the free node f, and its
      predecessor is linked to f. */
  function MoveAway(ns: seq<Node>, mp: nat, f: nat, prev: nat, k: Key, v: Value): seq<Node>
    requires mp < |ns| && f < |ns| && prev < |ns|
  {
    ns[prev := ns[prev].(next := f - prev)]
      [f := ns[mp].(next := if ns[mp].next != 0 then ns[mp].next + (mp - f) else ns[mp].next)]
      [mp := Node(Some(k), v, 0)]
  }

  lemma TakeOverOk(h: Hash, ns: seq<Node>, o: Order, k: Key, v: Value)
    requires WellFormed(h, ns, o) && !Holds(ns, k)
    requires ns[h(k, |ns|)].val.Nil?
    ensures WellFormed(h, TakeOver(ns, h(k, |ns|), k, v), o)
  {
    var mp := h(k, |ns|);
    var ns' := TakeOver(ns, mp, k, v);
    forall i | 0 <= i < |ns'| ensures Edge(ns', o, i) {
      assert Edge(ns, o, i);
    }
    forall i | 0 <= i < |ns'| ensures PlacedAt(h, ns', o, i) {
      assert PlacedAt(h, ns, o, i);
    }
    forall i | 0 <= i < |ns'| ensures FreeAt(ns', o, i) {
      assert FreeAt(ns, o, i);
    }
  }

  /** The order after InsertAfter. */
  ghost function OrderAfter(ns: seq<Node>, o: Order, mp: nat, f: nat): Order
    requires |o.chain| == |o.rank| == |ns| && mp < |ns| && f < |ns|
  {
    var j := mp + ns[mp].next;
    Order(o.chain[f := o.chain[mp]],
          o.rank[f := if ns[mp].next != 0 && 0 <= j < |ns| then (o.rank[mp] + o.rank[j]) / 2.0 else o.rank[mp] + 1.0])
  }

  lemma InsertLinked(ns: seq<Node>, o: Order, mp: nat, f: nat, k: Key, v: Value)
    requires Linked(ns, o) && FreeOk(ns, o) && mp < |ns| && f < |ns| && mp != f && ns[f].key.None?
    ensures Linked(InsertAfter(ns, mp, f, k, v), OrderAfter(ns, o, mp, f))
  {
    var ns', o' := InsertAfter(ns, mp, f, k, v), OrderAfter(ns, o, mp, f);
    assert Edge(ns, o, mp) && FreeAt(ns, o, f);
    forall i | 0 <= i < |ns'| ensures Edge(ns', o', i) {
      assert Edge(ns, o, i);
    }
  }

  lemma InsertAfterOk(h: Hash, ns: seq<Node>, o: Order, f: nat, k: Key, v: Value)
    requires WellFormed(h, ns, o) && !Holds(ns, k) && f < |ns| && ns[f].key.None?
    requires var mp := h(k, |ns|); ns[mp].key.Some? && h(ns[mp].key.value, |ns|) == mp
    ensures WellFormed(h, InsertAfter(ns, h(k, |ns|), f, k, v), OrderAfter(ns, o, h(k, |ns|), f))
  {
    var mp := h(k, |ns|);
    var ns', o' := InsertAfter(ns, mp, f, k, v), OrderAfter(ns, o, mp, f);
    InsertLinked(ns, o, mp, f, k, v);
    assert Edge(ns, o, mp) && FreeAt(ns, o, f);
    forall i | 0 <= i < |ns'| ensures PlacedAt(h, ns', o', i) {
      assert PlacedAt(h, ns, o, i);
    }
    forall i | 0 <= i < |ns'| ensures FreeAt(ns', o', i) {
      assert FreeAt(ns, o, i);
    }
  }

  /** The order after MoveAway: the moved node keeps its place on its chain. */
  ghost function OrderMoved(o: Order, mp: nat, f: nat): Order
    requires |o.chain| == |o.rank| && mp < |o.chain| && f < |o.chain|
  {
    Order(o.chain[f := o.chain[mp]][mp := o.chain[f]], o.rank[f := o.rank[mp]][mp := o.rank[f]])
  }

  lemma MoveRanks(ns: seq<Node>, o: Order, mp: nat, f: nat, prev: nat, k: Key, v: Value)
    requires |o.chain| == |o.rank| == |ns| && mp < |ns| && f < |ns| && prev < |ns|
    requires forall i, j | 0 <= i < j < |ns| && o.chain[i] == o.chain[j] :: o.rank[i] != o.rank[j]
    ensures var o' := OrderMoved(o, mp, f);
      && |o'.chain| == |o'.rank| == |ns| == |MoveAway(ns, mp, f, prev, k, v)|
      && forall i, j | 0 <= i < j < |ns| && o'.chain[i] == o'.chain[j] :: o'.rank[i] != o'.rank[j]
  {
  }

  lemma MoveEdge(ns: seq<Node>, o: Order, mp: nat, f: nat, prev: nat, k: Key, v: Value, i: nat)
    requires |o.chain| == |o.rank| == |ns| && mp < |ns| && f < |ns| && prev < |ns| && i < |ns|
    requires forall m, n | 0 <= m < n < |ns| && o.chain[m] == o.chain[n] :: o.rank[m] != o.rank[n]
    requires mp != f && prev != mp && prev != f && ns[prev].next != 0 && prev + ns[prev].next == mp
    requires Edge(ns, o, mp) && Edge(ns, o, prev) && FreeAt(ns, o, f) && ns[f].key.None? && Edge(ns, o, i)
    ensures |OrderMoved(o, mp, f).chain| == |OrderMoved(o, mp, f).rank| == |MoveAway(ns, mp, f, prev, k, v)| == |ns|
    ensures Edge(MoveAway(ns, mp, f, prev, k, v), OrderMoved(o, mp, f), i)
  {
  }

  lemma MoveLinked(ns: seq<Node>, o: Order, mp: nat, f: nat, prev: nat, k: Key, v: Value)
    requires Linked(ns, o) && FreeOk(ns, o) && mp < |ns| && f < |ns| && prev < |ns|
    requires mp != f && prev != mp && ns[f].key.None? && ns[mp].key.Some?
    requires ns[prev].next != 0 && prev + ns[prev].next == mp
    ensures Linked(MoveAway(ns, mp, f, prev, k, v), OrderMoved(o, mp, f))
  {
    assert Edge(ns, o, mp) && Edge(ns, o, prev) && FreeAt(ns, o, f) && prev != f;
    hide Edge, MoveAway, OrderMoved;
    MoveRanks(ns, o, mp, f, prev, k, v);
    forall i | 0 <= i < |ns| ensures Edge(MoveAway(ns, mp, f, prev, k, v), OrderMoved(o, mp, f), i) {
      MoveEdge(ns, o, mp, f, prev, k, v, i);
    }
  }

  lemma MovePlaced(h: Hash, ns: seq<Node>, o: Order, f: nat, prev: nat, k: Key, v: Value)
    requires ns != [] && Placed(h, ns, o) && FreeOk(ns, o)
    requires f < |ns| && ns[f].key.None? && prev < |ns| && ns[prev].key.Some?
    requires var mp := h(k, |ns|); ns[mp].key.Some? && h(ns[mp].key.value, |ns|) != mp && prev != mp
    ensures Placed(h, MoveAway(ns, h(k, |ns|), f, prev, k, v), OrderMoved(o, h(k, |ns|), f))
  {
    var mp := h(k, |ns|);
    var ns', o' := MoveAway(ns, mp, f, prev, k, v), OrderMoved(o, mp, f);
    assert FreeAt(ns, o, f) && PlacedAt(h, ns, o, mp);
    forall i | 0 <= i < |ns'| ensures PlacedAt(h, ns', o', i) {
      assert PlacedAt(h, ns, o, i) && PlacedAt(h, ns, o, mp);
    }
  }

  lemma MoveFree(ns: seq<Node>, o: Order, mp: nat, f: nat, prev: nat, k: Key, v: Value)
    requires FreeOk(ns, o) && |o.rank| == |ns| && mp < |ns| && f < |ns| && prev < |ns|
    requires mp != f && prev != mp && ns[f].key.None? && ns[mp].key.Some? && ns[prev].key.Some?
    ensures FreeOk(MoveAway(ns, mp, f, prev, k, v), OrderMoved(o, mp, f))
  {
    var ns', o' := MoveAway(ns, mp, f, prev, k, v), OrderMoved(o, mp, f);
    assert FreeAt(ns, o, f);
    forall i | 0 <= i < |ns'| ensures FreeAt(ns', o', i) {
      assert FreeAt(ns, o, i);
    }
  }

  lemma MoveAwayOk(h: Hash, ns: seq<Node>, o: Order, f: nat, prev: nat, k: Key, v: Value)
    requires WellFormed(h, ns, o) && !Holds(ns, k) && f < |ns| && ns[f].key.None? && prev < |ns|
    requires var mp := h(k, |ns|); ns[mp].key.Some? && h(ns[mp].key.value, |ns|) != mp
    requires ns[prev].next != 0 && prev + ns[prev].next == h(k, |ns|)
    ensures WellFormed(h, MoveAway(ns, h(k, |ns|), f, prev, k, v), OrderMoved(o, h(k, |ns|), f))
  {
    var mp := h(k, |ns|);
    assert FreeAt(ns, o, f) && FreeAt(ns, o, prev) && PlacedAt(h, ns, o, mp);
    MoveLinked(ns, o, mp, f, prev, k, v);
    MovePlaced(h, ns, o, f, prev, k, v);
    MoveFree(ns, o, mp, f, prev, k, v);
    hide Linked, FreeAt, PlacedAt;
  }

  // ---------------------------------------------------------------------- what a store does to the contents

  /** ns' has the contents of ns, but v for key k. */
  ghost predicate Updated(ns: seq<Node>, ns': seq<Node>, k: Key, v: Value) {
    forall q: Key :: Lookup(ns', q) == if q == k then v else Lookup(ns, q)
  }

  lemma TakeOverLookup(ns: seq<Node>, mp: nat, k: Key, v: Value)
    requires Distinct(ns) && mp < |ns| && ns[mp].val.Nil? && !Holds(ns, k)
    ensures Updated(ns, TakeOver(ns, mp, k, v), k, v)
  {
    var ns' := TakeOver(ns, mp, k, v);
    forall q: Key ensures Lookup(ns', q) == if q == k then v else Lookup(ns, q) {
      if q == k {
        LookupAt(ns', mp);
      } else if Holds(ns, q) {
        var i :| 0 <= i < |ns| && ns[i].key == Some(q);
        LookupAt(ns, i);
        if i != mp {
          LookupAt(ns', i);
        }
      }
    }
  }

  lemma InsertAfterLookup(ns: seq<Node>, mp: nat, f: nat, k: Key, v: Value)
    requires Distinct(ns) && mp < |ns| && f < |ns| && mp != f && ns[f].key.None? && !Holds(ns, k)
    ensures Updated(ns, InsertAfter(ns, mp, f, k, v), k, v)
  {
    var ns' := InsertAfter(ns, mp, f, k, v);
    forall q: Key ensures Lookup(ns', q) == if q == k then v else Lookup(ns, q) {
      if q == k {
        LookupAt(ns', f);
      } else if Holds(ns, q) {
        var i :| 0 <= i < |ns| && ns[i].key == Some(q);
        LookupAt(ns, i);
        LookupAt(ns', i);
      }
    }
  }

  lemma MoveAwayLookup(ns: seq<Node>, mp: nat, f: nat, prev: nat, k: Key, v: Value)
    requires Distinct(ns) && mp < |ns| && f < |ns| && prev < |ns| && mp != f && prev != mp && prev != f
    requires ns[f].key.None? && !Holds(ns, k)
    ensures Updated(ns, MoveAway(ns, mp, f, prev, k, v), k, v)
  {
    var ns' := MoveAway(ns, mp, f, prev, k, v);
    forall q: Key ensures Lookup(ns', q) == if q == k then v else Lookup(ns, q) {
      if q == k {
        LookupAt(ns', mp);
      } else if Holds(ns, q) {
        var i :| 0 <= i < |ns| && ns[i].key == Some(q);
        LookupAt(ns, i);
        LookupAt(ns', if i == mp then f else i);
      }
    }
  }

  /** Overwriting the value of a node, also with nil, changes nothing else. */
  lemma OverwriteOk(h: Hash, ns: seq<Node>, o: Order, i: nat, v: Value)
    requires WellFormed(h, ns, o) && i < |ns| && ns[i].key.Some?
    ensures var ns' := ns[i := ns[i].(val := v)];
      WellFormed(h, ns', o) && Updated(ns, ns', ns[i].key.value, v) && Free(ns') == Free(ns)
  {
    var ns' := ns[i := ns[i].(val := v)];
    forall m | 0 <= m < |ns'| ensures Edge(ns', o, m) && PlacedAt(h, ns', o, m) && FreeAt(ns', o, m) {
      assert Edge(ns, o, m) && PlacedAt(h, ns, o, m) && FreeAt(ns, o, m);
    }
    forall q: Key ensures Lookup(ns', q) == if q == ns[i].key.value then v else Lookup(ns, q) {
      if q == ns[i].key.value {
        LookupAt(ns', i);
      } else if Holds(ns, q) {
        var m :| 0 <= m < |ns| && ns[m].key == Some(q);
        LookupAt(ns, m);
        LookupAt(ns', m);
      }
    }
    FreeUpdate(ns, i, ns'[i]);
  }

  // ---------------------------------------------------------------------- free nodes

  /** How many nodes were never used. */
  function Free(ns: seq<Node>): nat {
    if ns == [] then 0 else (if ns[0].key.None? then 1 else 0) + Free(ns[1..])
  }

  lemma {:induction false} FreeUpdate(ns: seq<Node>, i: nat, n: Node)
    requires i < |ns|
    ensures Free(ns[i := n]) + (if ns[i].key.None? then 1 else 0) == Free(ns) + (if n.key.None? then 1 else 0)
  {
    if i == 0 {
      assert ns[0 := n][1..] == ns[1..];
    } else {
      FreeUpdate(ns[1..], i - 1, n);
      assert ns[i := n][1..] == ns[1..][i - 1 := n];
    }
  }

  lemma {:induction false} FreePositive(ns: seq<Node>)
    ensures Free(ns) > 0 <==> exists i :: 0 <= i < |ns| && ns[i].key.None?
  {
    if ns != [] {
      FreePositive(ns[1..]);
      if i :| 0 <= i < |ns| && ns[i].key.None? {
        assert i > 0 ==> ns[1..][i - 1].key.None?;
      }
    }
  }

  lemma StoreFree(ns: seq<Node>, mp: nat, f: nat, prev: nat, k: Key, v: Value)
    requires mp < |ns| && f < |ns| && prev < |ns|
    ensures Free(TakeOver(ns, mp, k, v)) >= Free(ns) - 1
    ensures mp != f && ns[f].key.None? && ns[mp].key.Some? ==> Free(InsertAfter(ns, mp, f, k, v)) == Free(ns) - 1
    ensures mp != f && prev != mp && prev != f && ns[f].key.None? && ns[mp].key.Some? && ns[prev].key.Some? ==>
      Free(MoveAway(ns, mp, f, prev, k, v)) == Free(ns) - 1
  {
    FreeUpdate(ns, mp, Node(Some(k), v, ns[mp].next));
    var n1 := Node(Some(k), v, if ns[mp].next != 0 then mp + ns[mp].next - f else ns[f].next);
    FreeUpdate(ns, f, n1);
    FreeUpdate(ns[f := n1], mp, ns[mp].(next := f - mp));
    var m1 := ns[prev].(next := f - prev);
    var m2 := ns[mp].(next := if ns[mp].next != 0 then ns[mp].next + (mp - f) else ns[mp].next);
    FreeUpdate(ns, prev, m1);
    FreeUpdate(ns[prev := m1], f, m2);
    FreeUpdate(ns[prev := m1][f := m2], mp, Node(Some(k), v, 0));
  }

  // ---------------------------------------------------------------------- walking a chain

  /** The nodes after n on its chain. */
  ghost function Later(o: Order, n: nat): set<nat>
    requires |o.chain| == |o.rank| && n < |o.chain|
  {
    set m: nat | m < |o.chain| && o.chain[m] == o.chain[n] && o.rank[n] < o.rank[m]
  }

  /** From a node to the next: whatever lies after the one is the other or lies after it. */
  lemma Step(ns: seq<Node>, o: Order, n: nat, i: nat)
    requires Linked(ns, o) && n < |ns| && i < |ns| && From(o, n, i) && i != n
    ensures ns[n].next != 0
    ensures var j := n + ns[n].next; 0 <= j < |ns| && From(o, j, i)
  {
    assert Edge(ns, o, n);
  }

  lemma StepLater(ns: seq<Node>, o: Order, n: nat)
    requires Linked(ns, o) && n < |ns| && ns[n].next != 0
    ensures var j := n + ns[n].next; 0 <= j < |ns| && Later(o, j) < Later(o, n) && o.chain[j] == o.chain[n]
  {
    assert Edge(ns, o, n);
    var j := n + ns[n].next;
    assert j in Later(o, n) && j !in Later(o, j);
  }

  // ---------------------------------------------------------------------- a fresh node vector

  /** What `setnodevector` makes. */
  function Fresh(size: nat): seq<Node> {
    seq(size, i => Node(None, Nil, 0))
  }

  ghost function FreshOrder(size: nat): Order {
    Order(seq(size, i => i), seq(size, i => 0.0))
  }

  lemma {:induction false} FreshOk(h: Hash, size: nat)
    requires size > 0 && Good(h)
    ensures WellFormed(h, Fresh(size), FreshOrder(size)) && Free(Fresh(size)) == size
    ensures forall k: Key :: Lookup(Fresh(size), k) == Nil
  {
    var ns, o := Fresh(size), FreshOrder(size);
    forall i | 0 <= i < |ns| ensures Edge(ns, o, i) && PlacedAt(h, ns, o, i) && FreeAt(ns, o, i) {
    }
    FreshFree(size);
  }

  lemma {:induction false} FreshFree(size: nat)
    ensures Free(Fresh(size)) == size
  {
    if size > 0 {
      assert Fresh(size)[1..] == Fresh(size - 1);
      FreshFree(size - 1);
    }
  }

  // ---------------------------------------------------------------------- a collision, as a whole

  /** ns' is ns with key k stored in one more node; f, which was free, is in use. */
  ghost predicate Stored(ns: seq<Node>, ns': seq<Node>, f: nat, k: Key, v: Value) {
    && |ns'| == |ns| && Updated(ns, ns', k, v) && Free(ns') == Free(ns) - 1
    && (forall i | 0 <= i < |ns| :: ns[i].key.Some? || i == f ==> ns'[i].key.Some?)
    && (forall i | 0 <= i < |ns'| && ns'[i].key.Some? :: ns'[i].key == Some(k) || Holds(ns, ns'[i].key.value))
  }

  /** A node with a successor is in use. */
  lemma PredecessorUsed(ns: seq<Node>, o: Order, f: nat, prev: nat, mp: nat)
    requires Linked(ns, o) && FreeOk(ns, o) && f < |ns| && prev < |ns| && mp < |ns| && ns[f].key.None?
    requires ns[prev].next != 0 && prev + ns[prev].next == mp && prev != mp
    ensures ns[prev].key.Some? && prev != f
  {
    assert FreeAt(ns, o, prev) && FreeAt(ns, o, f) && Edge(ns, o, prev);
  }

  lemma MoveAwayKeys(ns: seq<Node>, mp: nat, f: nat, prev: nat, k: Key, v: Value)
    requires mp < |ns| && f < |ns| && prev < |ns| && ns[mp].key.Some?
    ensures var ns' := MoveAway(ns, mp, f, prev, k, v);
      && |ns'| == |ns| && (forall i | 0 <= i < |ns| :: ns[i].key.Some? || i == f ==> ns'[i].key.Some?)
      && (forall i | 0 <= i < |ns'| && ns'[i].key.Some? :: ns'[i].key == Some(k) || Holds(ns, ns'[i].key.value))
  {
    var ns' := MoveAway(ns, mp, f, prev, k, v);
    forall i | 0 <= i < |ns'| && ns'[i].key.Some? ensures ns'[i].key == Some(k) || Holds(ns, ns'[i].key.value) {
      if i == f {
        assert ns[mp].key == Some(ns[mp].key.value);
      }
    }
  }

  lemma MoveAwayStored(h: Hash, ns: seq<Node>, o: Order, f: nat, prev: nat, k: Key, v: Value)
    requires WellFormed(h, ns, o) && !Holds(ns, k) && f < |ns| && ns[f].key.None? && prev < |ns|
    requires var mp := h(k, |ns|); ns[mp].key.Some? && h(ns[mp].key.value, |ns|) != mp && prev != mp
    requires ns[prev].next != 0 && prev + ns[prev].next == h(k, |ns|)
    ensures Stored(ns, MoveAway(ns, h(k, |ns|), f, prev, k, v), f, k, v)
  {
    hide Updated, Linked, FreeOk, Lookup, Holds, MoveAway, Free;
    var mp := h(k, |ns|);
    PredecessorUsed(ns, o, f, prev, mp);
    StoreFree(ns, mp, f, prev, k, v);
    MoveAwayLookup(ns, mp, f, prev, k, v);
    MoveAwayKeys(ns, mp, f, prev, k, v);
  }

  lemma InsertAfterStored(h: Hash, ns: seq<Node>, o: Order, f: nat, k: Key, v: Value)
    requires WellFormed(h, ns, o) && !Holds(ns, k) && f < |ns| && ns[f].key.None?
    requires ns[h(k, |ns|)].key.Some?
    ensures Stored(ns, InsertAfter(ns, h(k, |ns|), f, k, v), f, k, v)
  {
    hide Updated, Linked;
    var mp := h(k, |ns|);
    hide Placed, Good;
    StoreFree(ns, mp, f, mp, k, v);
    InsertAfterLookup(ns, mp, f, k, v);
  }

  /** A node in use has a key, and that key's main position leads to it. */
  lemma InUse(h: Hash, ns: seq<Node>, o: Order, i: nat)
    requires WellFormed(h, ns, o) && i < |ns| && ns[i].val != Nil
    ensures |o.chain| == |o.rank| == |ns|
    ensures ns[i].key.Some? && h(ns[i].key.value, |ns|) < |ns| && From(o, h(ns[i].key.value, |ns|), i)
  {
    assert FreeAt(ns, o, i) && PlacedAt(h, ns, o, i);
  }
}
