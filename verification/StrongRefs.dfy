/** The strong references that keep objects alive from outside of the heap. A counted object is on one of
    two intrusive lists: `refs`, of the objects that the cycle has not marked as held, or `markedRefs`.
    References come and go between any two steps of the collector.
 */
module StrongRefs {
  import opened Basics
  import opened Intrusive

  const MAX_COUNT: nat := 0xffff_ffff_ffff_ffff

  const RECENT: nat := 0
  const HELD: nat := 1

  lemma DistinctHead(ms: seq<Id>)
    requires Distinct(ms) && ms != []
    ensures Distinct(ms[1..]) && ms[0] !in ms[1..]
  {
  }

  lemma {:induction false} MinusAt(ms: seq<Id>, i: nat)
    requires Distinct(ms) && i < |ms|
    ensures Minus(ms, ms[i]) == Without(ms, i)
  {
    hide Distinct;
    if i == 0 {
      DistinctHead(ms);
      MinusNone(ms[1..], ms[0]);
    } else {
      DistinctHead(ms);
      assert ms[1..][i - 1] == ms[i] && ms[i] in ms[1..];
      MinusAt(ms[1..], i - 1);
      assert Without(ms, i) == [ms[0]] + Without(ms[1..], i - 1);
    }
  }

  lemma {:induction false} MinusNone(ms: seq<Id>, x: Id)
    requires x !in ms
    ensures Minus(ms, x) == ms
  {
    if ms != [] {
      MinusNone(ms[1..], x);
    }
  }

  /** Appending a list, by its first node, to the last cell of another one. */
  function Splice(l: Links, c: Cell, m: Option<Id>): Links
    requires CellExists(l, c)
  {
    var l1 := Write(l, c, m);
    if m.Some? then l1.(back := l1.back[m.value := c]) else l1
  }

  lemma SpliceOk(l: Links, ms: seq<Id>, ns: seq<Id>)
    requires IsList(l, RECENT, ms) && IsList(l, HELD, ns) && Distinct(ms + ns)
    ensures CellExists(l, CellAt(RECENT, ms, |ms|))
    ensures IsList(Splice(l.(heads := l.heads[HELD := None]), CellAt(RECENT, ms, |ms|), l.heads[HELD]), RECENT, ms + ns)
    ensures IsList(Splice(l.(heads := l.heads[HELD := None]), CellAt(RECENT, ms, |ms|), l.heads[HELD]), HELD, [])
  {
    if ms != [] {
      assert NodeOk(l, RECENT, ms, |ms| - 1);
    }
    var all := ms + ns;
    var joined := Splice(l.(heads := l.heads[HELD := None]), CellAt(RECENT, ms, |ms|), l.heads[HELD]);
    forall i | 0 <= i < |all| ensures NodeOk(joined, RECENT, all, i)
    {
      SpliceNode(l, ms, ns, i);
    }
  }

  lemma SpliceNode(l: Links, ms: seq<Id>, ns: seq<Id>, i: nat)
    requires IsList(l, RECENT, ms) && IsList(l, HELD, ns) && Distinct(ms + ns) && i < |ms + ns|
    requires CellExists(l, CellAt(RECENT, ms, |ms|))
    ensures NodeOk(Splice(l.(heads := l.heads[HELD := None]), CellAt(RECENT, ms, |ms|), l.heads[HELD]), RECENT, ms + ns, i)
  {
    assert forall j | 0 <= j < |ms| :: (ms + ns)[j] == ms[j];
    assert forall j | 0 <= j < |ns| :: (ms + ns)[|ms| + j] == ns[j];
    if ns != [] {
      assert NodeOk(l, HELD, ns, 0);
    }
    if i < |ms| {
      assert NodeOk(l, RECENT, ms, i);
    } else {
      assert NodeOk(l, HELD, ns, i - |ms|);
    }
  }

  /** What the counts and the two lists hold. */
  datatype View = View(count: map<Id, nat>, recent: seq<Id>, held: seq<Id>)

  datatype Event = Hold(id: Id) | Drop(id: Id)

  function CountIn(count: map<Id, nat>, o: Id): nat {
    if o in count then count[o] else 0
  }

  /** The lists together hold exactly the counted objects, each once. */
  ghost predicate ViewOk(v: View) {
    && Distinct(v.recent + v.held)
    && (forall o :: o in v.recent + v.held <==> CountIn(v.count, o) > 0)
    && forall o :: CountIn(v.count, o) <= MAX_COUNT
  }

  /** One more reference to an object, or one less; an event that is not possible is none. */
  function Apply(v: View, e: Event): View {
    match e
    case Hold(o) =>
      var c := CountIn(v.count, o);
      if c == MAX_COUNT then v
      else View(v.count[o := c + 1], if c == 0 then [o] + v.recent else v.recent, v.held)
    case Drop(o) =>
      var c := CountIn(v.count, o);
      if c == 0 then v
      else if c > 1 then v.(count := v.count[o := c - 1])
      else View(v.count[o := 0], Minus(v.recent, o), Minus(v.held, o))
  }

  function RunOf(v: View, es: seq<Event>): View
    decreases |es|
  {
    if es == [] then v else RunOf(Apply(v, es[0]), es[1..])
  }

  class Refs {
    var refs: Option<Id>
    var markedRefs: Option<Id>
    var count: map<Id, nat>
    var refn: map<Id, Cell>
    var refp: map<Id, Option<Id>>
    /** The objects of the two lists, newest first. */
    ghost var recent: seq<Id>
    ghost var held: seq<Id>

    function L(): Links
      reads this
    {
      Links([refs, markedRefs], refp, refn)
    }

    function Count(o: Id): nat
      reads this
    {
      CountIn(count, o)
    }

    ghost function V(): View
      reads this
    {
      View(count, recent, held)
    }

    /** The lists are well formed and together hold exactly the counted objects, each once. */
    ghost predicate Valid()
      reads this
    {
      IsList(L(), RECENT, recent) && IsList(L(), HELD, held) && ViewOk(V())
    }

    constructor ()
      ensures Valid() && recent == [] && held == [] && count == map[]
    {
      refs, markedRefs, count, refn, refp := None, None, map[], map[], map[];
      recent, held := [], [];
    }

    /** `*n = p` for a cell n. */
    method WriteCell(n: Cell, p: Option<Id>)
      requires CellExists(L(), n)
      modifies this`refs, this`markedRefs, this`refp
      ensures L() == Write(old(L()), n, p)
    {
      match n
      case Head(h) =>
        if h == RECENT {
          refs := p;
        } else {
          markedRefs := p;
        }
      case NextOf(x) =>
        refp := refp[x := p];
    }

    /** A new reference to o. The first one links the object at the head of `refs`, also when the object was
        held, and released, earlier in the cycle. */
    method NewRef(o: Id) returns (ok: bool)
      requires Valid()
      modifies this
      ensures Valid()
      ensures ok <==> old(Count(o)) < MAX_COUNT
      ensures V() == Apply(old(V()), Hold(o))
    {
      hide IsList, Distinct;
      ApplyKeeps(V(), Hold(o));
      var r := Count(o);
      if r == 0 {
        assert o !in recent && o !in held by { assert o !in recent + held; }
        InsertOk(L(), RECENT, recent, 0, o);
        HeadIs(L(), RECENT, recent);
        Disjoint(recent, held);
        InsertOther(L(), Head(RECENT), o, HELD, held);
        ghost var was := L();
        var p := refs;
        count := count[o := 1];
        refn := refn[o := Head(RECENT)];
        refp := refp[o := p];
        if p.Some? {
          refn := refn[p.value := NextOf(o)];
        }
        refs := Some(o);
        recent := [o] + recent;
        assert L() == Insert(was, Head(RECENT), o);
        assert recent == Inserted(old(recent), 0, o);
        ok := true;
      } else if r + 1 <= MAX_COUNT {
        count := count[o := r + 1];
        ok := true;
      } else {
        ok := false;
      }
    }

    /** A copy of a reference that exists. */
    method Clone(o: Id) returns (ok: bool)
      requires Valid() && Count(o) > 0
      modifies this`count
      ensures Valid()
      ensures ok <==> old(Count(o)) < MAX_COUNT
      ensures V() == Apply(old(V()), Hold(o))
    {
      ApplyKeeps(V(), Hold(o));
      ok := Count(o) + 1 <= MAX_COUNT;
      if ok {
        count := count[o := Count(o) + 1];
      }
    }

    /** The end of a reference. The last one unlinks the object from the list it is on, whichever that is,
        without knowing which. */
    method Unref(o: Id)
      requires Valid() && Count(o) > 0
      modifies this
      ensures Valid()
      ensures V() == Apply(old(V()), Drop(o))
    {
      ApplyKeeps(V(), Drop(o));
      count := count[o := Count(o) - 1];
      if count[o] != 0 {
        return;
      }
      ghost var was := L();
      OneGone(was, recent, held, o);
      var n := refn[o];
      var p := refp[o];
      WriteCell(n, p);
      if p.Some? {
        refn := refn[p.value := n];
      }
      refn := refn - {o};
      refp := refp - {o};
      assert L() == Remove(was, o);
      recent := Minus(recent, o);
      held := Minus(held, o);
    }

    /** The start of a cycle: every counted object is visited, and held from here on. */
    method BeginCycle() returns (visited: seq<Id>)
      requires Valid() && held == []
      modifies this`refs, this`markedRefs, this`refn, this`recent, this`held
      ensures Valid() && recent == [] && held == old(recent)
      ensures visited == held
    {
      hide IsList;
      HeadIs(L(), RECENT, recent);
      HeadIs(L(), HELD, held);
      MovedOk(L(), RECENT, HELD, recent);
      ghost var moved := Moved(L(), RECENT, HELD);
      var o := refs;
      refs := None;
      visited := [];
      if o.Some? {
        markedRefs := o;
        refn := refn[o.value := Head(HELD)];
        assert L() == moved;
        while o.Some?
          invariant |visited| <= |recent| && visited == recent[..|visited|]
          invariant o == NodeAt(recent, |visited|)
          decreases |recent| - |visited|
          modifies {}
        {
          NextIs(L(), HELD, recent, |visited|);
          visited := visited + [o.value];
          o := refp[o.value];
        }
      }
      assert L() == moved;
      recent, held := [], recent;
      assert recent + held == old(recent + held);
    }

    /** The end of marking: the objects counted since the start of the cycle are visited, and the two lists
        become one. */
    method Rejoin() returns (visited: seq<Id>)
      requires Valid()
      modifies this`refs, this`markedRefs, this`refn, this`refp, this`recent, this`held
      ensures Valid() && recent == old(recent) + old(held) && held == []
      ensures visited == old(recent)
    {
      hide IsList, ViewOk, Distinct;
      SameView(V(), View(count, recent + held, []));
      HeadIs(L(), RECENT, recent);
      HeadIs(L(), HELD, held);
      SpliceOk(L(), recent, held);
      ghost var was := L();
      var o := refs;
      var m := markedRefs;
      markedRefs := None;
      visited := [];
      if o.None? {
        refs := m;
        if m.Some? {
          refn := refn[m.value := Head(RECENT)];
        }
      } else {
        while true
          invariant |visited| < |recent| && visited == recent[..|visited|]
          invariant o == Some(recent[|visited|])
          invariant L() == was.(heads := was.heads[HELD := None])
          decreases |recent| - |visited|
          modifies this`refn, this`refp
        {
          NextIs(was, RECENT, recent, |visited|);
          visited := visited + [o.value];
          var p := refp[o.value];
          if p.None? {
            refp := refp[o.value := m];
            if m.Some? {
              refn := refn[m.value := NextOf(o.value)];
            }
            break;
          }
          o := p;
        }
        assert visited == recent;
      }
      assert L() == Splice(was.(heads := was.heads[HELD := None]), CellAt(RECENT, recent, |recent|), was.heads[HELD]);
      recent, held := recent + held, [];
      assert recent + held == old(recent + held);
    }
  }

  lemma SameView(v: View, w: View)
    requires ViewOk(v) && w.count == v.count && w.recent + w.held == v.recent + v.held
    ensures ViewOk(w) && Distinct(v.recent + v.held)
  {
  }

  lemma Disjoint(ms: seq<Id>, ns: seq<Id>)
    requires Distinct(ms + ns)
    ensures forall y | y in ms :: y !in ns
  {
    forall i, j | 0 <= i < |ms| && 0 <= j < |ns| ensures ms[i] != ns[j] {
      assert (ms + ns)[i] == ms[i] && (ms + ns)[|ms| + j] == ns[j];
    }
  }

  lemma NextIs(l: Links, h: nat, ms: seq<Id>, i: nat)
    requires IsList(l, h, ms) && i < |ms|
    ensures ms[i] in l.next && l.next[ms[i]] == NodeAt(ms, i + 1)
  {
    assert NodeOk(l, h, ms, i);
  }

  lemma HeadIs(l: Links, h: nat, ms: seq<Id>)
    requires IsList(l, h, ms)
    ensures h < |l.heads| && l.heads[h] == NodeAt(ms, 0)
  {
  }

  /** A whole list moves from one head to another. */
  function Moved(l: Links, h: nat, k: nat): Links
    requires h < |l.heads| && k < |l.heads|
  {
    var p := l.heads[h];
    Links(l.heads[h := None][k := p], l.next, if p.Some? then l.back[p.value := Head(k)] else l.back)
  }

  lemma MovedOk(l: Links, h: nat, k: nat, ms: seq<Id>)
    requires IsList(l, h, ms) && k < |l.heads| && h != k
    ensures IsList(Moved(l, h, k), h, []) && IsList(Moved(l, h, k), k, ms)
  {
    forall i | 0 <= i < |ms| ensures NodeOk(Moved(l, h, k), k, ms, i) {
      assert NodeOk(l, h, ms, i);
    }
  }

  /** Unlinking through the back pointer takes an object out of its list and leaves the other one alone. */
  lemma OneGone(l: Links, ms: seq<Id>, ns: seq<Id>, x: Id)
    requires IsList(l, RECENT, ms) && IsList(l, HELD, ns) && Distinct(ms + ns) && x in ms + ns
    ensures x in l.next && x in l.back && CellExists(l, l.back[x])
    ensures IsList(Remove(l, x), RECENT, Minus(ms, x)) && IsList(Remove(l, x), HELD, Minus(ns, x))
    ensures Distinct(Minus(ms, x) + Minus(ns, x))
  {
    Disjoint(ms, ns);
    if x in ms {
      GoneFrom(l, RECENT, ms, HELD, ns, x);
    } else {
      GoneFrom(l, HELD, ns, RECENT, ms, x);
    }
    DistinctMinus(ms, ns, x);
  }

  lemma GoneFrom(l: Links, h: nat, ms: seq<Id>, k: nat, ns: seq<Id>, x: Id)
    requires IsList(l, h, ms) && IsList(l, k, ns) && h != k && x in ms && forall y | y in ms :: y !in ns
    ensures x in l.next && x in l.back && CellExists(l, l.back[x])
    ensures IsList(Remove(l, x), h, Minus(ms, x)) && IsList(Remove(l, x), k, Minus(ns, x))
  {
    var i :| 0 <= i < |ms| && ms[i] == x;
    RemoveOk(l, h, ms, i);
    MinusAt(ms, i);
    MinusNone(ns, x);
    assert NodeOk(l, h, ms, i);
    RemoveOther(l, x, k, ns);
  }

  lemma DistinctMinus(ms: seq<Id>, ns: seq<Id>, x: Id)
    requires Distinct(ms + ns)
    ensures Distinct(Minus(ms, x) + Minus(ns, x))
  {
    assert Minus(ms + ns, x) == Minus(ms, x) + Minus(ns, x) by { MinusSum(ms, ns, x); }
    if x in ms + ns {
      var i :| 0 <= i < |ms + ns| && (ms + ns)[i] == x;
      MinusAt(ms + ns, i);
      WithoutAt(ms + ns, i);
    } else {
      MinusNone(ms + ns, x);
    }
  }

  lemma {:induction false} MinusSum(ms: seq<Id>, ns: seq<Id>, x: Id)
    ensures Minus(ms + ns, x) == Minus(ms, x) + Minus(ns, x)
  {
    if ms == [] {
      assert ms + ns == ns;
    } else {
      assert (ms + ns)[1..] == ms[1..] + ns;
      MinusSum(ms[1..], ns, x);
    }
  }

  /** In the marking phase references come and go, in any order. When it ends, every object that is still
      counted has been visited at one of its two ends.
   */
  lemma NoneMissed(v: View, es: seq<Event>)
    requires ViewOk(v) && v.recent == []
    ensures ViewOk(RunOf(v, es))
    ensures forall o | CountIn(RunOf(v, es).count, o) > 0 :: o in v.held || o in RunOf(v, es).recent
  {
    RunKeeps(v, es);
    var w := RunOf(v, es);
    forall o | CountIn(w.count, o) > 0 ensures o in v.held || o in w.recent {
      assert o in w.recent + w.held;
    }
  }

  lemma {:induction false} RunKeeps(v: View, es: seq<Event>)
    requires ViewOk(v)
    ensures ViewOk(RunOf(v, es)) && forall o | o in RunOf(v, es).held :: o in v.held
    decreases |es|
  {
    if es != [] {
      ApplyKeeps(v, es[0]);
      RunKeeps(Apply(v, es[0]), es[1..]);
    }
  }

  lemma ApplyKeeps(v: View, e: Event)
    requires ViewOk(v)
    ensures ViewOk(Apply(v, e)) && forall o | o in Apply(v, e).held :: o in v.held
  {
    match e
    case Hold(o) =>
      if CountIn(v.count, o) == 0 {
        assert o !in v.recent + v.held;
        assert ([o] + v.recent) + v.held == [o] + (v.recent + v.held);
      }
    case Drop(o) =>
      DistinctMinus(v.recent, v.held, o);
      assert forall x :: x in Apply(v, e).recent + Apply(v, e).held ==> x in v.recent + v.held;
      assert forall x | x in v.recent + v.held && x != o :: x in Apply(v, e).recent + Apply(v, e).held;
  }
}
