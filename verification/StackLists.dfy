/** The two lists that live on the stack of a thread. Open upvalues are linked from the highest slot down.
    To-be-closed variables are linked by 16-bit distances stored in the slots, with dummy hops where two of
    them are farther apart. Both survive a move of the stack.
 */
module StackLists {
  import opened Basics
  import opened Intrusive

  /** The size of a slot in bytes. */
  const SIZE: int := 16
  const MAX_DELTA: nat := 0x1_0000 - 1
  const EXTRA: nat := 5

  datatype Value = Nil | False | Other(data: int)

  datatype Slot = Slot(value: Value, delta: nat)

  /** Where the variable of an upvalue lives: in a slot of the stack, or in the upvalue. */
  datatype Ptr = Stack(addr: int) | Own

  datatype Result = Done | NotClosable | Failed

  /** What a call of a `__close` method does to its caller: it may fail, and the stack may grow and move. */
  datatype Outcome = Outcome(fails: bool, base: int, growth: nat)

  function AddrOf(stack: int, i: int): int {
    stack + SIZE * i
  }

  function IndexAt(stack: int, a: int): int {
    (a - stack) / SIZE
  }

  lemma IndexIs(stack: int)
    ensures forall i :: IndexAt(stack, AddrOf(stack, i)) == i
  {
  }

  lemma Distance(stack: int, h: nat, i: nat)
    ensures (AddrOf(stack, i) - AddrOf(stack, h)) / SIZE == i - h
    ensures AddrOf(stack, h) + SIZE * MAX_DELTA == AddrOf(stack, h + MAX_DELTA)
    ensures AddrOf(stack, i) <= AddrOf(stack, h) <==> i <= h
    ensures AddrOf(stack, 0) == stack
    ensures forall d: int :: AddrOf(stack, h) - SIZE * d == AddrOf(stack, h - d)
  {
  }

  // ---- Distances ----

  /** A whole number of the longest hops. */
  predicate Whole(d: int) {
    d % MAX_DELTA == 0
  }

  /** Slot q records the way down to slot p, over hops that all record a zero. */
  ghost predicate Hops(slots: seq<Slot>, p: nat, q: nat) {
    && p < q < |slots|
    && 0 < slots[q].delta <= MAX_DELTA && slots[q].delta <= q - p
    && Whole(q - slots[q].delta - p)
    && forall h | p < h < q && Whole(h - p) :: slots[h].delta == 0
  }

  /** The hops from p up to h all record a zero. */
  ghost predicate Zeros(slots: seq<Slot>, p: nat, h: nat) {
    h < |slots| && forall j | p < j <= h && Whole(j - p) :: slots[j].delta == 0
  }

  lemma NextHop(slots: seq<Slot>, p: nat, h: nat)
    requires p <= h && Whole(h - p) && Zeros(slots, p, h) && h + MAX_DELTA < |slots|
    ensures Whole(h + MAX_DELTA - p)
    ensures Zeros(slots[h + MAX_DELTA := slots[h + MAX_DELTA].(delta := 0)], p, h + MAX_DELTA)
  {
    assert forall j | p < j < h + MAX_DELTA && Whole(j - p) :: slots[j].delta == 0 by {
      forall j | p < j < h + MAX_DELTA && Whole(j - p) ensures slots[j].delta == 0 {
        if h < j {
          Between(p, h, j);
        }
      }
    }
  }

  lemma LastHop(slots: seq<Slot>, p: nat, h: nat, q: nat)
    requires p <= h < q < |slots| && q - h <= MAX_DELTA && Whole(h - p) && Zeros(slots, p, h)
    ensures Hops(slots[q := slots[q].(delta := q - h)], p, q)
  {
    assert forall j | p < j < q && Whole(j - p) :: slots[j].delta == 0 by {
      forall j | p < j < q && Whole(j - p) ensures slots[j].delta == 0 {
        if h < j {
          Between(p, h, j);
        }
      }
    }
  }

  lemma NothingYet(slots: seq<Slot>, p: nat)
    requires p < |slots|
    ensures Whole(0) && Zeros(slots, p, p) && SameBut(slots, slots, p)
  {
  }

  lemma Between(p: nat, h: nat, j: nat)
    requires Whole(h - p) && Whole(j - p) && h < j
    ensures h + MAX_DELTA <= j
  {
  }

  /** From slot q, the first step down lands on a hop, or on p. */
  lemma FirstHop(slots: seq<Slot>, p: nat, q: nat)
    requires Hops(slots, p, q)
    ensures q - MAX_DELTA <= q - slots[q].delta < q && p <= q - slots[q].delta && Whole(q - slots[q].delta - p)
    ensures forall h | p < h < q && Whole(h - p) :: slots[h].delta == 0
  {
  }

  lemma PreviousHop(p: nat, h: nat)
    requires p < h && Whole(h - p)
    ensures h - MAX_DELTA >= p && Whole(h - MAX_DELTA - p)
  {
  }

  /** The variable below the k-th one, or the bottom of the stack. */
  function Below(pending: seq<nat>, k: nat): nat
    requires k <= |pending|
  {
    if k == 0 then 0 else pending[k - 1]
  }

  ghost predicate Linked(slots: seq<Slot>, pending: seq<nat>) {
    forall k | 0 <= k < |pending| :: Hops(slots, Below(pending, k), pending[k])
  }

  ghost predicate Ascending(s: seq<nat>) {
    forall i, j | 0 <= i < j < |s| :: s[i] < s[j]
  }

  lemma HopsUp(slots: seq<Slot>, p: nat, q: nat)
    requires Hops(slots, p, q)
    ensures p < q < |slots| && 0 < slots[q].delta
  {
  }

  lemma HopsKept(slots: seq<Slot>, other: seq<Slot>, p: nat, q: nat)
    requires Hops(slots, p, q) && q < |other| && forall i | p < i <= q :: other[i].delta == slots[i].delta
    ensures Hops(other, p, q)
  {
    hide Whole;
  }

  lemma {:induction false} Rises(slots: seq<Slot>, pending: seq<nat>, i: nat, j: nat)
    requires Linked(slots, pending) && i < j < |pending|
    ensures pending[i] < pending[j]
    decreases j
  {
    hide Hops;
    HopsUp(slots, Below(pending, j), pending[j]);
    if i < j - 1 {
      Rises(slots, pending, i, j - 1);
    }
  }

  lemma LinkedUp(slots: seq<Slot>, pending: seq<nat>)
    requires Linked(slots, pending) && |slots| > 0
    ensures Ascending(pending)
    ensures forall k | 0 <= k < |pending| :: 0 < pending[k] <= Below(pending, |pending|) < |slots|
  {
    hide Hops;
    forall i, j | 0 <= i < j < |pending| ensures pending[i] < pending[j] {
      Rises(slots, pending, i, j);
    }
    forall k | 0 <= k < |pending| ensures 0 < pending[k] < |slots| {
      HopsUp(slots, Below(pending, k), pending[k]);
    }
    var n := |pending|;
    forall k | 0 <= k < n ensures pending[k] <= Below(pending, n) < |slots| {
      assert k < n - 1 ==> pending[k] < pending[n - 1];
    }
  }

  /** The links depend on nothing but the distances up to the innermost variable. */
  lemma LinkedKept(slots: seq<Slot>, other: seq<Slot>, pending: seq<nat>)
    requires Linked(slots, pending) && |slots| > 0 && Below(pending, |pending|) < |other|
    requires forall i | 0 <= i <= Below(pending, |pending|) && i < |slots| :: other[i].delta == slots[i].delta
    ensures Linked(other, pending)
  {
    hide Hops;
    LinkedUp(slots, pending);
    forall k | 0 <= k < |pending| ensures Hops(other, Below(pending, k), pending[k]) {
      HopsKept(slots, other, Below(pending, k), pending[k]);
    }
  }

  lemma LinkedMore(slots: seq<Slot>, pending: seq<nat>, q: nat)
    requires Linked(slots, pending) && Hops(slots, Below(pending, |pending|), q)
    ensures Linked(slots, pending + [q])
  {
    hide Hops;
    var more := pending + [q];
    forall k | 0 <= k < |more| ensures Hops(slots, Below(more, k), more[k]) {
      if k < |pending| {
        assert Hops(slots, Below(pending, k), pending[k]);
        assert more[k] == pending[k];
      }
    }
  }

  // ---- Open upvalues ----

  /** The open upvalues go down the stack, one for a slot. */
  ghost predicate Descending(open: seq<Id>, slot: map<Id, nat>) {
    && (forall x | x in open :: x in slot)
    && forall i, j | 0 <= i < j < |open| :: slot[open[i]] > slot[open[j]]
  }

  lemma InsertDescending(open: seq<Id>, slot: map<Id, nat>, k: nat, x: Id, s: nat)
    requires Descending(open, slot) && k <= |open| && x !in open
    requires forall i | 0 <= i < k :: slot[open[i]] > s
    requires k < |open| ==> slot[open[k]] < s
    ensures Descending(Inserted(open, k, x), slot[x := s])
  {
    var more := Inserted(open, k, x);
    forall i, j | 0 <= i < j < |more| ensures slot[x := s][more[i]] > slot[x := s][more[j]] {
      if k < j && k < |open| {
        assert slot[open[j - 1]] <= slot[open[k]];
      }
    }
  }

  lemma DescendingIn(open: seq<Id>, slot: map<Id, nat>)
    requires Descending(open, slot)
    ensures forall x | x in open :: x in slot
  {
  }

  lemma ListDistinct(l: Links, h: nat, ms: seq<Id>)
    requires IsList(l, h, ms)
    ensures Distinct(ms)
  {
  }

  lemma HeadIs(l: Links, h: nat, ms: seq<Id>)
    requires IsList(l, h, ms)
    ensures h < |l.heads| && l.heads[h] == NodeAt(ms, 0)
  {
  }

  lemma Highest(open: seq<Id>, slot: map<Id, nat>)
    requires Descending(open, slot)
    ensures forall x | x in open :: slot[x] <= slot[open[0]]
  {
    forall x | x in open ensures slot[x] <= slot[open[0]] {
      var j :| 0 <= j < |open| && open[j] == x;
    }
  }

  /** No open upvalue lies between the ones above a slot and the ones below it. */
  lemma BelowAll(open: seq<Id>, slot: map<Id, nat>, k: nat, i: nat)
    requires Descending(open, slot) && k <= |open| && (k < |open| ==> slot[open[k]] < i)
    requires forall j | 0 <= j < k :: slot[open[j]] > i
    ensures forall x | x in open :: slot[x] != i
  {
    forall x | x in open ensures slot[x] != i {
      var j :| 0 <= j < |open| && open[j] == x;
      assert k < j ==> slot[open[j]] < slot[open[k]];
    }
  }

  lemma CellIs(l: Links, h: nat, ms: seq<Id>, k: nat)
    requires IsList(l, h, ms) && k <= |ms|
    ensures CellExists(l, CellAt(h, ms, k)) && Read(l, CellAt(h, ms, k)) == NodeAt(ms, k)
  {
    if k > 0 {
      assert NodeOk(l, h, ms, k - 1);
    }
  }

  /** The same stack but for the distances above slot p. */
  ghost predicate SameBut(a: seq<Slot>, b: seq<Slot>, p: nat) {
    && |a| == |b| && (forall j | 0 <= j < |a| :: b[j].value == a[j].value)
    && forall j | 0 <= j <= p && j < |a| :: b[j].delta == a[j].delta
  }

  lemma Same(a: seq<Slot>, b: seq<Slot>, p: nat)
    requires SameBut(a, b, p)
    ensures |a| == |b| && (forall j | 0 <= j < |a| :: b[j].value == a[j].value)
    ensures forall j | 0 <= j <= p && j < |a| :: b[j].delta == a[j].delta
  {
  }

  lemma StillSame(a: seq<Slot>, b: seq<Slot>, p: nat, j: nat, d: nat)
    requires SameBut(a, b, p) && p < j < |b|
    ensures SameBut(a, b[j := b[j].(delta := d)], p)
  {
  }

  class Thread {
    var stack: int
    var slots: seq<Slot>
    var top: int
    var tbclist: int
    var openupval: Option<Id>
    /** The links of the open upvalues. */
    var next: map<Id, Option<Id>>
    var previous: map<Id, Cell>
    var v: map<Id, Ptr>
    /** The own variable of an upvalue that is closed. */
    var own: map<Id, Value>
    ghost var open: seq<Id>
    ghost var slot: map<Id, nat>
    /** The to-be-closed variables, outermost first. */
    ghost var pending: seq<nat>
    ghost var used: nat

    constructor (base: int, garbage: int -> nat)
      ensures Valid() && open == [] && pending == [] && stack == base
    {
      stack, top, tbclist := base, base + SIZE, base;
      slots := seq(2 * 20 + EXTRA, i => Slot(Nil, garbage(i)));
      openupval, next, previous, v, own := None, map[], map[], map[], map[];
      open, slot, pending, used := [], map[], [], 1;
    }

    function L(): Links
      reads this`openupval, this`next, this`previous
    {
      Links([openupval], next, previous)
    }

    function Addr(i: int): int
      reads this`stack
    {
      AddrOf(stack, i)
    }

    function IndexOf(a: int): int
      reads this`stack
    {
      IndexAt(stack, a)
    }

    /** The open upvalues are linked in order, and point into the first n slots. */
    ghost predicate OpenOk(n: nat)
      reads this`openupval, this`next, this`previous, this`open, this`slot, this`v, this`own, this`stack
    {
      && IsList(L(), 0, open) && Descending(open, slot)
      && (forall x | x in open :: x in v && v[x] == Stack(Addr(slot[x])) && slot[x] < n)
      && forall x | x in v && x !in open :: v[x] == Own && x in own
    }

    ghost predicate TbcOk()
      reads this`stack, this`slots, this`tbclist, this`pending
    {
      Linked(slots, pending) && tbclist == Addr(Below(pending, |pending|))
    }

    ghost predicate Valid()
      reads this
    {
      OpenOk(|slots|) && TbcOk() && |slots| > EXTRA && used <= |slots| && top == Addr(used)
    }

    ghost function SlotOf(x: Id): int
      reads this`slot
    {
      if x in slot then slot[x] else -1
    }

    /** What a function sees in the variable of an upvalue. */
    ghost function ValueOf(x: Id): Value
      reads this`open, this`slot, this`slots, this`own
    {
      if x in open then if x in slot && slot[x] < |slots| then slots[slot[x]].value else Nil
      else if x in own then own[x] else Nil
    }

    method ReadUpvalue(x: Id) returns (r: Value)
      requires Valid() && x in v
      ensures r == ValueOf(x)
    {
      hide TbcOk, Whole, Hops, AddrOf, IndexAt;
      IndexIs(stack);
      match v[x]
      case Stack(a) =>
        r := slots[IndexOf(a)].value;
      case Own =>
        r := own[x];
    }

    lemma SlotsApart(open: seq<Id>, slot: map<Id, nat>)
      requires Descending(open, slot)
      ensures forall x, y | x in open && y in open && x != y :: x in slot && y in slot && slot[x] != slot[y]
      ensures forall x | x in open :: x in slot
    {
    }

    lemma ValuesOnly(slots: seq<Slot>, other: seq<Slot>, pending: seq<nat>)
      requires Linked(slots, pending) && 0 < |slots| == |other|
      requires forall i | 0 <= i < |slots| :: other[i].delta == slots[i].delta
      ensures Linked(other, pending)
    {
      LinkedUp(slots, pending);
      LinkedKept(slots, other, pending);
    }

    /** A write through an upvalue is seen by everyone who shares the variable, and by nobody else. */
    method WriteUpvalue(x: Id, r: Value)
      requires Valid() && x in v
      modifies this`slots, this`own
      ensures Valid() && ValueOf(x) == r
      ensures forall y | y in v && y != x :: ValueOf(y) == old(ValueOf(y))
      ensures |slots| == old(|slots|)
      ensures forall i | 0 <= i < |slots| && !(x in open && SlotOf(x) == i) :: slots[i] == old(slots[i])
    {
      hide Linked, Below, AddrOf, IndexAt, IsList, Descending;
      IndexIs(stack);
      SlotsApart(open, slot);
      match v[x]
      case Stack(a) =>
        var i := IndexOf(a);
        ghost var was := slots;
        slots := slots[i := slots[i].(value := r)];
        ValuesOnly(was, slots, pending);
      case Own =>
        own := own[x := r];
    }

    /** The upvalue for slot i: the open one, or a new one, x, in its place in the order. */
    method FindUpvalue(i: nat, x: Id) returns (uv: Id)
      requires Valid() && i < |slots| && x !in v && x !in next
      modifies this`openupval, this`next, this`previous, this`v, this`open, this`slot
      ensures Valid()
      ensures old(exists y :: y in open && slot[y] == i) ==> uv in old(open) && open == old(open) && v == old(v)
      ensures old(!exists y :: y in open && slot[y] == i) ==> uv == x && x in open
      ensures uv in open && slot[uv] == i
      ensures forall y :: y in open <==> y in old(open) || y == uv
      ensures forall y :: y in v <==> y in old(v) || y == uv
      ensures forall y | y in old(v) :: ValueOf(y) == old(ValueOf(y))
    {
      hide TbcOk, AddrOf, IsList, Descending, Inserted;
      DescendingIn(open, slot);
      var level := Addr(i);
      var pp := Head(0);
      ghost var k := 0;
      while true
        invariant k <= |open| && pp == CellAt(0, open, k)
        invariant forall j | 0 <= j < k :: slot[open[j]] > i
        decreases |open| - k
        modifies {}
      {
        CellIs(L(), 0, open, k);
        var p := Read(L(), pp);
        if p.Some? {
          Distance(stack, i, slot[open[k]]);
          Distance(stack, slot[open[k]], i);
        }
        if p.None? || v[p.value].addr < level {
          break;
        }
        if v[p.value].addr == level {
          uv := p.value;
          return;
        }
        pp := NextOf(p.value);
        k := k + 1;
      }
      BelowAll(open, slot, k, i);
      uv := x;
      NewUpvalue(level, pp, x, k, i);
      InsertedIn(old(open), k, x);
    }

    /** Links a new upvalue for the address into the cell pp. */
    method NewUpvalue(level: int, pp: Cell, x: Id, ghost k: nat, ghost i: nat)
      requires Valid() && i < |slots| && level == Addr(i) && x !in v && x !in next
      requires k <= |open| && pp == CellAt(0, open, k)
      requires forall j | 0 <= j < k :: slot[open[j]] > i
      requires k < |open| ==> slot[open[k]] < i
      modifies this`openupval, this`next, this`previous, this`v, this`open, this`slot
      ensures Valid()
      ensures open == Inserted(old(open), k, x) && slot == old(slot)[x := i] && v == old(v)[x := Stack(level)]
      ensures forall y | y in old(v) :: ValueOf(y) == old(ValueOf(y))
    {
      hide TbcOk, AddrOf, IsList, Descending, Inserted, CellAt;
      DescendingIn(open, slot);
      InsertedIn(open, k, x);
      InsertDescending(open, slot, k, x, i);
      v := v[x := Stack(level)];
      LinkInto(pp, x, k);
      slot := slot[x := i];
    }

    /** Links x in front of the k-th open upvalue. */
    method LinkInto(pp: Cell, x: Id, ghost k: nat)
      requires IsList(L(), 0, open) && k <= |open| && pp == CellAt(0, open, k) && x !in open
      modifies this`openupval, this`next, this`previous, this`open
      ensures IsList(L(), 0, open) && open == Inserted(old(open), k, x)
    {
      ghost var was := L();
      InsertOk(was, 0, open, k, x);
      var p := Read(L(), pp);
      next := next[x := p];
      previous := previous[x := pp];
      if p.Some? {
        previous := previous[p.value := NextOf(x)];
      }
      WriteCell(pp, Some(x));
      assert L() == Insert(was, pp, x);
      open := Inserted(open, k, x);
    }

    /** `*n = p` for a cell n. */
    method WriteCell(n: Cell, p: Option<Id>)
      requires CellExists(L(), n)
      modifies this`openupval, this`next
      ensures L() == Write(old(L()), n, p)
    {
      match n
      case Head(h) =>
        openupval := p;
      case NextOf(y) =>
        next := next[y := p];
    }

    /** Takes an open upvalue out of the list, wherever it is. */
    method Unlink(x: Id, ghost k: nat)
      requires IsList(L(), 0, open) && Descending(open, slot) && k < |open| && open[k] == x
      modifies this`openupval, this`next, this`previous, this`open
      ensures IsList(L(), 0, open) && Descending(open, slot) && open == Without(old(open), k)
    {
      ghost var was := L();
      RemoveOk(was, 0, open, k);
      var n := previous[x];
      var p := next[x];
      WriteCell(n, p);
      if p.Some? {
        previous := previous[p.value := n];
      }
      next := next - {x};
      previous := previous - {x};
      assert L() == Remove(was, x);
      WithoutAt(open, k);
      open := Without(open, k);
    }

    /** Takes the k-th open upvalue off the list. */
    method TakeOut(x: Id, ghost k: nat)
      requires IsList(L(), 0, open) && Descending(open, slot) && k < |open| && open[k] == x
      modifies this`openupval, this`next, this`previous, this`open
      ensures IsList(L(), 0, open) && Descending(open, slot)
      ensures |open| < |old(open)| && forall y :: y in open <==> y in old(open) && y != x
      ensures forall y | y != x :: ValueOf(y) == old(ValueOf(y))
    {
      hide IsList, Descending, Without, Distinct;
      ListDistinct(L(), 0, open);
      WithoutIn(open, k);
      WithoutAt(open, k);
      Unlink(x, k);
    }

    /** The collector frees an upvalue that is still open. */
    method FreeUpvalue(x: Id)
      requires Valid() && x in open
      modifies this`openupval, this`next, this`previous, this`open, this`v
      ensures Valid() && v == old(v) - {x}
      ensures forall y :: y in open <==> y in old(open) && y != x
      ensures forall y | y in v :: ValueOf(y) == old(ValueOf(y))
    {
      hide TbcOk, AddrOf, IsList, Descending, ValueOf;
      DescendingIn(open, slot);
      ghost var k :| 0 <= k < |open| && open[k] == x;
      TakeOut(x, k);
      v := v - {x};
    }

    /** Closes the highest open upvalue: it takes its variable along. */
    method CloseHighest(uv: Id)
      requires Valid() && openupval == Some(uv)
      modifies this`openupval, this`next, this`previous, this`open, this`v, this`own
      ensures Valid() && v.Keys == old(v.Keys) && |open| < |old(open)|
      ensures forall x :: x in open <==> x in old(open) && x != uv
      ensures forall x | x in v :: ValueOf(x) == old(ValueOf(x))
    {
      hide TbcOk, AddrOf, IsList, Descending;
      DescendingIn(open, slot);
      HeadIs(L(), 0, open);
      TakeOut(uv, 0);
      Shut(uv);
    }

    /** An upvalue that has been taken off the list takes its variable along. */
    method Shut(uv: Id)
      requires IsList(L(), 0, open) && Descending(open, slot) && TbcOk()
      requires |slots| > EXTRA && used <= |slots| && top == Addr(used)
      requires forall x | x in open :: x in v && x in slot && v[x] == Stack(Addr(slot[x])) && slot[x] < |slots|
      requires forall x | x in v && x !in open && x != uv :: v[x] == Own && x in own
      requires uv !in open && uv in v && uv in slot && v[uv] == Stack(Addr(slot[uv])) && slot[uv] < |slots|
      modifies this`v, this`own
      ensures Valid() && v.Keys == old(v.Keys)
      ensures forall x | x in v && x != uv :: ValueOf(x) == old(ValueOf(x))
      ensures ValueOf(uv) == slots[slot[uv]].value
    {
      hide TbcOk, AddrOf, IndexAt, IsList, Descending;
      IndexIs(stack);
      own := own[uv := slots[IndexOf(v[uv].addr)].value];
      v := v[uv := Own];
    }

    /** The highest open upvalue points into the stack, and no other one points higher. */
    lemma OpenHead()
      requires Valid()
      ensures openupval == NodeAt(open, 0)
      ensures open != [] ==> open[0] in v && open[0] in slot && v[open[0]] == Stack(Addr(slot[open[0]]))
      ensures forall x | x in open :: x in slot && slot[x] <= slot[open[0]]
    {
      Highest(open, slot);
    }

    /** Closes the upvalues at slot i and above. */
    method CloseUpvalues(i: nat)
      requires Valid()
      modifies this`openupval, this`next, this`previous, this`open, this`v, this`own
      ensures Valid() && v.Keys == old(v.Keys)
      ensures forall x :: x in open <==> x in old(open) && SlotOf(x) < i
      ensures forall x | x in v :: ValueOf(x) == old(ValueOf(x))
    {
      hide Valid, ValueOf, AddrOf;
      var level := Addr(i);
      OpenHead();
      while openupval.Some? && v[openupval.value].addr >= level
        invariant Valid() && v.Keys == old(v.Keys)
        invariant openupval == NodeAt(open, 0)
        invariant open != [] ==> open[0] in v && open[0] in slot && v[open[0]] == Stack(Addr(slot[open[0]]))
        invariant forall x | x in open :: x in slot && slot[x] <= slot[open[0]]
        invariant forall x | x in open :: x in old(open)
        invariant forall x | x in old(open) && x !in open :: SlotOf(x) >= i
        invariant forall x | x in v :: ValueOf(x) == old(ValueOf(x))
        decreases |open|
      {
        Distance(stack, slot[open[0]], i);
        CloseHighest(openupval.value);
        OpenHead();
      }
      if open != [] {
        Distance(stack, slot[open[0]], i);
      }
    }

    /** Declares the variable in slot i, above all others, as to be closed. */
    method PushTbc(i: nat, closable: bool) returns (r: Result)
      requires Valid() && Below(pending, |pending|) < i < |slots|
      modifies this`slots, this`tbclist, this`pending
      ensures Valid() && |slots| == old(|slots|) && forall j | 0 <= j < |slots| :: slots[j].value == old(slots[j].value)
      ensures r == if slots[i].value.Other? && !closable then NotClosable else Done
      ensures pending == if slots[i].value.Other? && closable then old(pending) + [i] else old(pending)
    {
      hide OpenOk, Whole, Hops, AddrOf, IndexAt, SameBut, Zeros, Linked;
      IndexIs(stack);
      if slots[i].value == False || slots[i].value == Nil {
        return Done;
      }
      if !closable {
        return NotClosable;
      }
      var level := Addr(i);
      ghost var p := Below(pending, |pending|);
      ghost var was := slots;
      NothingYet(was, p);
      ghost var h := p;
      LinkedUp(slots, pending);
      assert Linked(was, pending);
      while (level - tbclist) / SIZE > MAX_DELTA
        invariant p <= h < i && Whole(h - p) && tbclist == Addr(h)
        invariant |slots| == |was| && SameBut(was, slots, p)
        invariant Zeros(slots, p, h)
        decreases i - h
        modifies this`slots, this`tbclist
      {
        Distance(stack, h, i);
        NextHop(slots, p, h);
        StillSame(was, slots, p, h + MAX_DELTA, 0);
        h := h + MAX_DELTA;
        tbclist := tbclist + SIZE * MAX_DELTA;
        slots := slots[IndexOf(tbclist) := slots[IndexOf(tbclist)].(delta := 0)];
      }
      Distance(stack, h, i);
      LastHop(slots, p, h, i);
      StillSame(was, slots, p, i, i - h);
      slots := slots[i := slots[i].(delta := (level - tbclist) / SIZE)];
      tbclist := level;
      Same(was, slots, p);
      LinkedKept(was, slots, pending);
      LinkedMore(slots, pending, i);
      pending := pending + [i];
      return Done;
    }

    /** Takes the innermost to-be-closed variable off the list. */
    method PopTbc()
      requires Valid() && pending != []
      modifies this`tbclist, this`pending
      ensures Valid() && pending == old(pending[..|pending| - 1])
    {
      hide OpenOk, Whole, Hops, AddrOf, IndexAt;
      IndexIs(stack);
      ghost var n := |pending| - 1;
      ghost var p, q := Below(pending, n), pending[n];
      FirstHop(slots, p, q);
      HopsUp(slots, p, q);
      if n > 0 {
        HopsUp(slots, Below(pending, n - 1), p);
      }
      var tbc := tbclist;
      ghost var h := q - slots[q].delta;
      Distance(stack, q, 0);
      tbc := tbc - SIZE * slots[IndexOf(tbc)].delta;
      Distance(stack, 0, h);
      while tbc > stack && slots[IndexOf(tbc)].delta == 0
        invariant p <= h < q && tbc == Addr(h) && Whole(h - p)
        invariant tbc > stack <==> h > 0
        decreases h
        modifies {}
      {
        PreviousHop(p, h);
        Distance(stack, h, 0);
        tbc := tbc - SIZE * MAX_DELTA;
        h := h - MAX_DELTA;
        Distance(stack, 0, h);
      }
      tbclist := tbc;
      pending := pending[..n];
      ghost var less := pending;
      assert forall k | 0 <= k < n :: less[k] == old(pending)[k] && Below(less, k) == Below(old(pending), k);
    }

    /** Adds d to the pointer of every open upvalue. */
    method MoveOpen(d: int)
      requires IsList(L(), 0, open) && forall x | x in open :: x in v && v[x].Stack?
      modifies this`v
      ensures v == Shifted(old(v), open, d)
    {
      hide IsList;
      ListDistinct(L(), 0, open);
      var up := openupval;
      ghost var k := 0;
      HeadIs(L(), 0, open);
      while up.Some?
        invariant k <= |open| && up == NodeAt(open, k)
        invariant v == Shifted(old(v), open[..k], d)
        decreases |open| - k
      {
        CellIs(L(), 0, open, k + 1);
        ShiftedMore(old(v), open, k, d);
        v := v[up.value := Stack(v[up.value].addr + d)];
        up := next[up.value];
        k := k + 1;
      }
      assert open[..k] == open;
    }

    /** Moves the stack to other memory, where it has room for `newsize` slots and the reserve. What is used
        must fit. The pointers into the stack become offsets and then pointers again.
     */
    method Reallocate(newsize: nat, base: int, garbage: int -> Slot)
      requires Valid() && newsize > 0 && used <= newsize + EXTRA
      requires Below(pending, |pending|) < newsize + EXTRA && forall x | x in open :: SlotOf(x) < newsize + EXTRA
      modifies this`stack, this`slots, this`top, this`tbclist, this`v
      ensures Valid() && stack == base && |slots| == newsize + EXTRA && v.Keys == old(v.Keys)
      ensures forall i | 0 <= i < |slots| :: if i < old(|slots|) then slots[i] == old(slots)[i] else slots[i].value == Nil
      ensures forall x | x in v :: ValueOf(x) == old(ValueOf(x))
    {
      hide IsList, Descending, Linked, Shifted, AddrOf;
      LinkedUp(slots, pending);
      DescendingIn(open, slot);
      ShiftedBy(v, open, stack, base);
      ghost var was := slots;
      Rebased(stack, base);
      Carry(newsize, base, garbage);
      LinkedKept(was, slots, pending);
    }

    /** Moves the slots, and turns every pointer into the stack into an offset and back. */
    method Carry(newsize: nat, base: int, garbage: int -> Slot)
      requires IsList(L(), 0, open) && (forall x | x in open :: x in v && v[x].Stack?) && |slots| >= EXTRA
      modifies this`stack, this`slots, this`top, this`tbclist, this`v
      ensures stack == base && |slots| == newsize + EXTRA
      ensures top == base + (old(top) - old(stack)) && tbclist == base + (old(tbclist) - old(stack))
      ensures v == Shifted(Shifted(old(v), open, -old(stack)), open, base)
      ensures forall i | 0 <= i < |slots| :: if i < old(|slots|) then slots[i] == old(slots)[i] else slots[i].value == Nil
    {
      hide IsList, Shifted;
      ShiftedBy(v, open, stack, base);
      var oldsize := |slots| - EXTRA;
      RelStack();
      slots := Resized(slots, newsize + EXTRA, garbage);
      stack := base;
      CorrectStack();
      FillNil(oldsize + EXTRA);
    }

    /** The pointers into the stack become offsets. */
    method RelStack()
      requires IsList(L(), 0, open) && forall x | x in open :: x in v && v[x].Stack?
      modifies this`top, this`tbclist, this`v
      ensures top == old(top) - stack && tbclist == old(tbclist) - stack
      ensures v == Shifted(old(v), open, -stack)
    {
      top := top - stack;
      tbclist := tbclist - stack;
      MoveOpen(-stack);
    }

    /** The offsets become pointers into the stack. */
    method CorrectStack()
      requires IsList(L(), 0, open) && forall x | x in open :: x in v && v[x].Stack?
      modifies this`top, this`tbclist, this`v
      ensures top == stack + old(top) && tbclist == stack + old(tbclist)
      ensures v == Shifted(old(v), open, stack)
    {
      top := stack + top;
      tbclist := stack + tbclist;
      MoveOpen(stack);
    }

    method FillNil(start: nat)
      modifies this`slots
      ensures |slots| == old(|slots|)
      ensures forall j | 0 <= j < |slots| :: if j < start then slots[j] == old(slots)[j] else slots[j].value == Nil
    {
      var i := start;
      while i < |slots|
        invariant start <= i && |slots| == old(|slots|)
        invariant forall j | 0 <= j < start && j < |slots| :: slots[j] == old(slots)[j]
        invariant forall j | start <= j < i && j < |slots| :: slots[j].value == Nil
      {
        slots := slots[i := slots[i].(value := Nil)];
        i := i + 1;
      }
    }

    /** The effect of a `__close` method on its caller's stack. */
    method CallClose(o: Outcome, garbage: int -> Slot)
      requires Valid()
      modifies this`stack, this`slots, this`top, this`tbclist, this`v
      ensures Valid() && v.Keys == old(v.Keys) && SlotsKept(old(slots), slots)
      ensures forall x | x in v :: ValueOf(x) == old(ValueOf(x))
    {
      hide Valid, ValueOf;
      Fits();
      if o.growth > 0 {
        Reallocate(|slots| - EXTRA + o.growth, o.base, garbage);
      }
    }

    /** Takes the innermost to-be-closed variable off the list and then calls its method. The level is computed again,
        since the call may have moved the stack. */
    method CloseInnermost(i: nat, levelrel: int, o: Outcome, garbage: int -> Slot)
      returns (tbc: nat, ok: bool, level: int)
      requires Valid() && 0 < i < |slots| && tbclist >= Addr(i) && levelrel == SIZE * i
      modifies this`stack, this`slots, this`top, this`tbclist, this`v, this`pending
      ensures Valid() && v.Keys == old(v.Keys) && level == Addr(i) && ok == !o.fails
      ensures old(pending) == pending + [tbc] && tbc >= i
      ensures SlotsKept(old(slots), slots) && forall x | x in v :: ValueOf(x) == old(ValueOf(x))
    {
      hide Valid, ValueOf, AddrOf, IndexAt, SlotsKept;
      Fits();
      Distance(stack, Below(pending, |pending|), i);
      IndexIs(stack);
      tbc := IndexOf(tbclist);
      PopTbc();
      CallClose(o, garbage);
      ok := !o.fails;
      level := stack + levelrel;
      Offset(stack, i);
    }

    /** Leaves the scope that starts at slot i: closes its upvalues and then calls the `__close` methods of
        its to-be-closed variables, innermost first, up to the first that fails. A call may move the stack.
     */
    method Close(i: nat, outcomes: nat -> Outcome, garbage: int -> Slot)
      returns (r: Result, level: int, called: seq<nat>)
      requires Valid() && 0 < i < |slots|
      modifies this
      ensures Valid() && v.Keys == old(v.Keys)
      ensures forall x :: x in open <==> x in old(open) && old(SlotOf(x)) < i
      ensures old(pending) == pending + Reverse(called) && forall k | 0 <= k < |called| :: called[k] >= i
      ensures r == Done || r == Failed
      ensures r == Done ==> level == Addr(i) && forall k | 0 <= k < |pending| :: pending[k] < i
      ensures r == Done ==> forall k | 0 <= k < |called| :: !outcomes(k).fails
      ensures r == Failed ==> called != [] && outcomes(|called| - 1).fails
      ensures r == Failed ==> forall k | 0 <= k < |called| - 1 :: !outcomes(k).fails
      ensures forall x | x in v :: ValueOf(x) == old(ValueOf(x))
      ensures SlotsKept(old(slots), slots)
    {
      hide Valid, ValueOf, AddrOf, IndexAt, Reverse, SlotsKept;
      level := Addr(i);
      var levelrel := level - stack;
      CloseUpvalues(i);
      called := [];
      NoneReversed();
      SlotsStill(slots, slots, slots);
      Offset(stack, i);
      while tbclist >= level
        invariant Valid() && v.Keys == old(v.Keys) && level == Addr(i) && levelrel == SIZE * i
        invariant slot == old(slot) && 0 < i < |slots|
        invariant forall x :: x in open <==> x in old(open) && SlotOf(x) < i
        invariant old(pending) == pending + Reverse(called) && forall k | 0 <= k < |called| :: called[k] >= i
        invariant forall k | 0 <= k < |called| :: !outcomes(k).fails
        invariant forall x | x in v :: ValueOf(x) == old(ValueOf(x))
        invariant SlotsKept(old(slots), slots)
        decreases |pending|
      {
        ghost var midway := slots;
        var tbc, ok;
        tbc, ok, level := CloseInnermost(i, levelrel, outcomes(|called|), garbage);
        ReverseMore(called, tbc);
        SlotsStill(old(slots), midway, slots);
        called := called + [tbc];
        if !ok {
          r := Failed;
          return;
        }
        SlotsStill(midway, slots, slots);
      }
      Fits();
      Distance(stack, Below(pending, |pending|), i);
      r := Done;
    }

    lemma Fits()
      requires Valid()
      ensures |slots| > EXTRA && used <= |slots| && tbclist == Addr(Below(pending, |pending|))
      ensures Below(pending, |pending|) < |slots| && forall x | x in open :: SlotOf(x) < |slots|
      ensures forall k | 0 <= k < |pending| :: pending[k] <= Below(pending, |pending|)
    {
      LinkedUp(slots, pending);
    }
  }

  function Shifted(v: map<Id, Ptr>, open: seq<Id>, d: int): map<Id, Ptr> {
    map x | x in v :: if x in open && v[x].Stack? then Stack(v[x].addr + d) else v[x]
  }

  lemma ShiftedMore(v: map<Id, Ptr>, open: seq<Id>, k: nat, d: int)
    requires Distinct(open) && k < |open| && open[k] in v && v[open[k]].Stack?
    ensures open[k] in Shifted(v, open[..k], d) && Shifted(v, open[..k], d)[open[k]] == v[open[k]]
    ensures Shifted(v, open[..k + 1], d) == Shifted(v, open[..k], d)[open[k] := Stack(v[open[k]].addr + d)]
  {
    assert open[..k + 1] == open[..k] + [open[k]];
  }

  function Resized(slots: seq<Slot>, n: nat, garbage: int -> Slot): (r: seq<Slot>)
    ensures |r| == n && forall i | 0 <= i < n && i < |slots| :: r[i] == slots[i]
  {
    seq(n, i requires 0 <= i => if i < |slots| then slots[i] else garbage(i))
  }

  /** Offsets of one stack are pointers of the other. */
  lemma ShiftedBy(v: map<Id, Ptr>, open: seq<Id>, stack: int, base: int)
    ensures var r := Shifted(v, open, -stack);
      && r.Keys == v.Keys && (forall x | x in open && x in v && v[x].Stack? :: r[x].Stack?)
      && Shifted(r, open, base).Keys == v.Keys
      && (forall x | x in v && !(x in open && v[x].Stack?) :: Shifted(r, open, base)[x] == v[x])
      && forall x | x in v && x in open && v[x].Stack? ::
           Shifted(r, open, base)[x] == Stack(v[x].addr - stack + base)
  {
  }

  lemma Rebased(stack: int, base: int)
    ensures forall i :: AddrOf(stack, i) - stack + base == AddrOf(base, i)
    ensures forall i :: base + (AddrOf(stack, i) - stack) == AddrOf(base, i)
  {
  }

  lemma NoneReversed()
    ensures Reverse([]) == []
  {
  }

  lemma ReverseMore(s: seq<nat>, q: nat)
    ensures Reverse(s + [q]) == [q] + Reverse(s)
  {
    assert (s + [q])[..|s|] == s;
  }

  ghost predicate SlotsKept(a: seq<Slot>, b: seq<Slot>) {
    |a| <= |b| && b[..|a|] == a
  }

  lemma SlotsStill(a: seq<Slot>, b: seq<Slot>, c: seq<Slot>)
    ensures SlotsKept(a, a)
    ensures SlotsKept(a, b) ==> |a| <= |b|
    ensures SlotsKept(a, b) && SlotsKept(b, c) ==> SlotsKept(a, c)
  {
    assert a[..|a|] == a;
    if |a| <= |b| <= |c| {
      assert c[..|b|][..|a|] == c[..|a|];
    }
  }

  function Reverse(s: seq<nat>): seq<nat> {
    if s == [] then [] else [s[|s| - 1]] + Reverse(s[..|s| - 1])
  }

  lemma Offset(stack: int, i: int)
    ensures AddrOf(stack, i) == stack + SIZE * i
  {
  }
}
