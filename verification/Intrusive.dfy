/** Doubly linked lists whose nodes are the objects themselves: a forward pointer, and a back pointer to
    the cell that points at the node, be that a list head or another node's forward pointer.
 */
module Intrusive {
  import opened Basics

  /** A place that holds a forward pointer. */
  datatype Cell = Head(list: nat) | NextOf(id: Id)

  datatype Links = Links(heads: seq<Option<Id>>, next: map<Id, Option<Id>>, back: map<Id, Cell>)

  predicate CellExists(l: Links, c: Cell) {
    match c
    case Head(h) => h < |l.heads|
    case NextOf(x) => x in l.next
  }

  function Read(l: Links, c: Cell): Option<Id>
    requires CellExists(l, c)
  {
    match c
    case Head(h) => l.heads[h]
    case NextOf(x) => l.next[x]
  }

  function Write(l: Links, c: Cell, v: Option<Id>): Links
    requires CellExists(l, c)
  {
    match c
    case Head(h) => l.(heads := l.heads[h := v])
    case NextOf(x) => l.(next := l.next[x := v])
  }

  /** The cell that points at the i-th node of list h, or ends the list. */
  function CellAt(h: nat, ms: seq<Id>, i: nat): Cell
    requires i <= |ms|
  {
    if i == 0 then Head(h) else NextOf(ms[i - 1])
  }

  function NodeAt(ms: seq<Id>, i: nat): Option<Id> {
    if i < |ms| then Some(ms[i]) else None
  }

  ghost predicate Distinct(ms: seq<Id>) {
    forall i, j | 0 <= i < j < |ms| :: ms[i] != ms[j]
  }

  /** The i-th node points at the next one and back at the cell that points at it. */
  ghost predicate NodeOk(l: Links, h: nat, ms: seq<Id>, i: nat)
    requires i < |ms|
  {
    ms[i] in l.next && ms[i] in l.back && l.next[ms[i]] == NodeAt(ms, i + 1) && l.back[ms[i]] == CellAt(h, ms, i)
  }

  /** The nodes of list h are ms, in this order, and every back pointer is right. */
  ghost predicate IsList(l: Links, h: nat, ms: seq<Id>) {
    && h < |l.heads| && l.heads[h] == NodeAt(ms, 0)
    && Distinct(ms)
    && forall i | 0 <= i < |ms| :: NodeOk(l, h, ms, i)
  }

  /** Node x is linked into cell c, in front of what c pointed at. */
  function Insert(l: Links, c: Cell, x: Id): Links
    requires CellExists(l, c)
  {
    var p := Read(l, c);
    var l1 := l.(next := l.next[x := p], back := l.back[x := c]);
    var l2 := if p.Some? then l1.(back := l1.back[p.value := NextOf(x)]) else l1;
    Write(l2, c, Some(x))
  }

  /** Node x is unlinked through its back pointer, without a walk. */
  function Remove(l: Links, x: Id): Links
    requires x in l.next && x in l.back && CellExists(l, l.back[x])
  {
    var p := l.next[x];
    var l1 := Write(l, l.back[x], p);
    var l2 := if p.Some? then l1.(back := l1.back[p.value := l.back[x]]) else l1;
    l2.(next := l2.next - {x}, back := l2.back - {x})
  }

  function Inserted(ms: seq<Id>, i: nat, x: Id): seq<Id>
    requires i <= |ms|
  {
    ms[..i] + [x] + ms[i..]
  }

  function Without(ms: seq<Id>, i: nat): seq<Id>
    requires i < |ms|
  {
    ms[..i] + ms[i + 1..]
  }

  lemma InsertedAt(ms: seq<Id>, i: nat, x: Id)
    requires i <= |ms| && Distinct(ms) && x !in ms
    ensures var ns := Inserted(ms, i, x);
      && |ns| == |ms| + 1 && Distinct(ns)
      && forall k | 0 <= k < |ns| :: ns[k] == if k < i then ms[k] else if k == i then x else ms[k - 1]
  {
  }

  lemma InsertNode(l: Links, h: nat, ms: seq<Id>, i: nat, x: Id, k: nat)
    requires IsList(l, h, ms) && i <= |ms| && x !in ms && k <= |ms| && CellExists(l, CellAt(h, ms, i))
    requires |Inserted(ms, i, x)| == |ms| + 1
    ensures NodeOk(Insert(l, CellAt(h, ms, i), x), h, Inserted(ms, i, x), k)
  {
    InsertedAt(ms, i, x);
    hide Inserted, Distinct;
    if k < i {
      assert NodeOk(l, h, ms, k);
      if k > 0 {
        assert NodeOk(l, h, ms, k - 1);
      }
    } else if k > i {
      assert NodeOk(l, h, ms, k - 1);
    }
    if i > 0 {
      assert NodeOk(l, h, ms, i - 1);
    }
    Apart(ms, i, k);
  }

  lemma Apart(ms: seq<Id>, i: nat, k: nat)
    requires Distinct(ms) && i <= |ms| && k <= |ms|
    ensures i < |ms| && k < |ms| && i != k ==> ms[i] != ms[k]
    ensures i > 0 && k < |ms| && i - 1 != k ==> ms[i - 1] != ms[k]
    ensures i < |ms| && k > 0 && i != k - 1 ==> ms[i] != ms[k - 1]
    ensures i > 0 && k > 0 && i != k ==> ms[i - 1] != ms[k - 1]
  {
  }

  lemma InsertOk(l: Links, h: nat, ms: seq<Id>, i: nat, x: Id)
    requires IsList(l, h, ms) && i <= |ms| && x !in ms
    ensures CellExists(l, CellAt(h, ms, i)) && IsList(Insert(l, CellAt(h, ms, i), x), h, Inserted(ms, i, x))
  {
    var ns := Inserted(ms, i, x);
    if i > 0 {
      assert NodeOk(l, h, ms, i - 1);
    }
    InsertedAt(ms, i, x);
    forall k | 0 <= k < |ns| ensures NodeOk(Insert(l, CellAt(h, ms, i), x), h, ns, k) {
      InsertNode(l, h, ms, i, x, k);
    }
  }

  /** Other lists stay as they are. */
  lemma InsertOther(l: Links, c: Cell, x: Id, h: nat, ms: seq<Id>)
    requires CellExists(l, c) && IsList(l, h, ms) && x !in ms && c != Head(h) && (c.NextOf? ==> c.id !in ms)
    requires Read(l, c).Some? ==> Read(l, c).value !in ms
    ensures IsList(Insert(l, c, x), h, ms)
  {
    forall i | 0 <= i < |ms| ensures NodeOk(Insert(l, c, x), h, ms, i) {
      assert NodeOk(l, h, ms, i);
    }
  }

  lemma WithoutAt(ms: seq<Id>, i: nat)
    requires i < |ms| && Distinct(ms)
    ensures var ns := Without(ms, i);
      && |ns| == |ms| - 1 && Distinct(ns) && ms[i] !in ns
      && forall k | 0 <= k < |ns| :: ns[k] == if k < i then ms[k] else ms[k + 1]
  {
  }

  lemma InsertedIn(ms: seq<Id>, i: nat, x: Id)
    requires i <= |ms|
    ensures forall y :: y in Inserted(ms, i, x) <==> y in ms || y == x
  {
    assert ms == ms[..i] + ms[i..];
  }

  lemma WithoutIn(ms: seq<Id>, i: nat)
    requires i < |ms| && Distinct(ms)
    ensures forall y :: y in Without(ms, i) <==> y in ms && y != ms[i]
  {
    assert ms == ms[..i] + [ms[i]] + ms[i + 1..];
  }

  lemma RemoveNode(l: Links, h: nat, ms: seq<Id>, i: nat, k: nat)
    requires IsList(l, h, ms) && i < |ms| && k < |ms| - 1 && |Without(ms, i)| == |ms| - 1
    requires ms[i] in l.next && ms[i] in l.back && CellExists(l, l.back[ms[i]])
    ensures NodeOk(Remove(l, ms[i]), h, Without(ms, i), k)
  {
    WithoutAt(ms, i);
    hide Without, Distinct;
    assert NodeOk(l, h, ms, i);
    assert NodeOk(l, h, ms, k) && NodeOk(l, h, ms, k + 1);
    if i + 1 < |ms| {
      assert NodeOk(l, h, ms, i + 1);
    }
    Apart(ms, i, k);
    Apart(ms, i, k + 1);
    Apart(ms, i + 1, k + 1);
  }

  lemma RemoveOk(l: Links, h: nat, ms: seq<Id>, i: nat)
    requires IsList(l, h, ms) && i < |ms|
    ensures ms[i] in l.next && ms[i] in l.back && CellExists(l, l.back[ms[i]])
    ensures IsList(Remove(l, ms[i]), h, Without(ms, i))
  {
    var ns := Without(ms, i);
    assert NodeOk(l, h, ms, i);
    if i > 0 {
      assert NodeOk(l, h, ms, i - 1);
    }
    WithoutAt(ms, i);
    forall k | 0 <= k < |ns| ensures NodeOk(Remove(l, ms[i]), h, ns, k) {
      RemoveNode(l, h, ms, i, k);
    }
  }

  lemma RemoveOther(l: Links, x: Id, h: nat, ms: seq<Id>)
    requires x in l.next && x in l.back && CellExists(l, l.back[x])
    requires IsList(l, h, ms) && x !in ms && l.back[x] != Head(h) && (l.back[x].NextOf? ==> l.back[x].id !in ms)
    requires l.next[x].Some? ==> l.next[x].value !in ms
    ensures IsList(Remove(l, x), h, ms)
  {
    forall i | 0 <= i < |ms| ensures NodeOk(Remove(l, x), h, ms, i) {
      assert NodeOk(l, h, ms, i);
    }
  }
}
