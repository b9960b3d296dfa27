/** How a cycle begins, how marking turns into sweeping, and what holds over whole runs. */
module GcCycle {
  import opened Basics
  import opened GcHeap
  import opened GcGrow
  import opened GcPhase
  import opened GcWorld
  import opened GcMutator

  // ---------------------------------------------------------------------- what links lead to

  /** The strings and whatever links lead to from R. */
  ghost function Reached(B: Bodies, R: set<Id>): set<Id> {
    set x | x in B && (B[x].Str? || LinkReach(B, R, x))
  }

  /** p is one of the links of b. */
  ghost predicate Linked(B: Bodies, b: Body, p: Id) {
    forall T: set<Id> | LinksIn(B, b, T) :: p in T
  }

  lemma LinkedAll(B: Bodies, b: Body, S: set<Id>)
    requires forall p | Linked(B, b, p) :: p in S
    ensures LinksIn(B, b, S)
  {
    match b
    case ClosedUp(_) =>
      assert UpValue(B, b).Obj? ==> Linked(B, b, UpValue(B, b).id);
    case OpenUp(_, _) =>
      assert UpValue(B, b).Obj? ==> Linked(B, b, UpValue(B, b).id);
    case UserData(props, meta) =>
      assert props.Some? ==> Linked(B, b, props.value);
      assert meta.Some? ==> Linked(B, b, meta.value);
    case Func(slots) =>
      assert forall i | 0 <= i < |slots| && slots[i].Obj? :: Linked(B, b, slots[i].id);
    case Table(mt, _, cells, nodes) =>
      LinkedTable(B, b, S);
    case Thread(stack, open) =>
      assert forall i | 0 <= i < |stack| && stack[i].Obj? :: Linked(B, b, stack[i].id);
      assert forall i | 0 <= i < |open| :: Linked(B, b, open[i]);
    case _ =>
  }

  lemma LinkedTable(B: Bodies, b: Body, S: set<Id>)
    requires b.Table? && forall p | Linked(B, b, p) :: p in S
    ensures LinksIn(B, b, S)
  {
    assert b.mt.Some? ==> Linked(B, b, b.mt.value);
    assert forall i | 0 <= i < |b.arr| && b.arr[i].Obj? :: Linked(B, b, b.arr[i].id);
    forall i | 0 <= i < |b.nodes| && !b.nodes[i].val.Nil?
      ensures NodePtrsIn(b.nodes[i], S)
    {
      var e := b.nodes[i];
      assert e.key.Obj? ==> Linked(B, b, e.key.id) by {
        assert forall T: set<Id> | LinksIn(B, b, T) :: NodePtrsIn(b.nodes[i], T);
      }
      assert e.val.Obj? ==> Linked(B, b, e.val.id) by {
        assert forall T: set<Id> | LinksIn(B, b, T) :: NodePtrsIn(b.nodes[i], T);
      }
    }
  }

  /** What links lead to is closed under links, and within every other such set. */
  lemma ReachedClosed(B: Bodies, R: set<Id>, U: set<Id>)
    requires LinkClosed(B, U) && R <= U <= B.Keys
    ensures LinkClosed(B, Reached(B, R)) && R <= Reached(B, R)
    ensures Reached(B, R) <= U + Strings(B)
  {
    var S := Reached(B, R);
    forall x | x in B && x in S ensures LinksIn(B, B[x], S) {
      forall p | Linked(B, B[x], p) ensures p in S {
        LinkStep(B, R, U, x, p);
      }
      LinkedAll(B, B[x], S);
    }
  }

  lemma LinkStep(B: Bodies, R: set<Id>, U: set<Id>, x: Id, p: Id)
    requires LinkClosed(B, U) && R <= U <= B.Keys
    requires x in B && (B[x].Str? || LinkReach(B, R, x)) && Linked(B, B[x], p)
    ensures p in B && LinkReach(B, R, p)
  {
    if B[x].Str? {
      assert LinksIn(B, B[x], {});
    }
    forall T: set<Id> | R <= T && LinkClosed(B, T) ensures p in T {
      assert LinksIn(B, B[x], T);
    }
  }

  // ---------------------------------------------------------------------- the cycle begins

  /** The lists are reset and nothing has been marked. */
  function Started(v: View): View {
    v.(state := 0, m := v.m.(gray := []), again := [], weak := [], eph := [], allWeak := [], remarked := false)
  }

  /** The objects no link leads to, strings aside. */
  ghost function Unreached(w: World): set<Id> {
    w.v.body.Keys - Reached(w.v.body, Roots(w))
  }

  lemma ElemsCard(l: seq<Id>)
    ensures |Elems(l)| <= |l|
  {
    if l != [] {
      ElemsCard(l[1..]);
      assert Elems(l) == {l[0]} + Elems(l[1..]);
    }
  }

  lemma IdleIs(w: World)
    requires Inv(w) && w.v.state == 8
    ensures Idle(w) && Base(w) && Dead(w) == {}
    ensures Marked(w.v.m.color) == {} && Whites(w.v.m.color) == w.v.body.Keys
    ensures w.v.m.debt >= |Whites(w.v.m.color)|
    ensures Grounded(w.v.body, Usable(w) + Strings(w.v.body))
  {
    hide Typed, PtrsIn, LinksIn, NoDup, AllKnown;
    assert Dead(w) == {};
    assert Marked(w.v.m.color) == {};
    assert Whites(w.v.m.color) == Elems(w.all);
    ElemsCard(w.all);
    forall x | x in w.v.body && x in Usable(w) + Strings(w.v.body)
      ensures PtrsIn(w.v.body, w.v.body[x], w.v.body.Keys)
    {
      assert LiveAt(w, x);
      PtrsMono(w.v.body, w.v.body[x], Alive(w), w.v.body.Keys);
    }
  }

  lemma StartBounded(w: World)
    requires Inv(w) && w.v.state == 8
    ensures var S := Reached(w.v.body, Roots(w));
      && Bounded(Started(w.v), S, {}) && LinkClosed(w.v.body, S) && Roots(w) <= S && HasStrings(w.v.body, S)
  {
    hide Idle, NoDup, AllKnown, LinkReach, LinkClosed, Typed, Grounded, Base, LeafClosed, StrongClosed, Whites, Marked;
    IdleIs(w);
    BaseIs(w);
    UsableClosed(w);
    ReachedClosed(w.v.body, Roots(w), Usable(w));
    var S := Reached(w.v.body, Roots(w));
    GroundedMono(w.v.body, S, Usable(w) + Strings(w.v.body));
    assert forall x | x in S :: !w.v.body[x].SweepMark?;
    LinkClosedBounds(w.v.body, S, {});
  }

  lemma GroundedMono(B: Bodies, S: set<Id>, T: set<Id>)
    requires Grounded(B, T) && S <= T
    ensures Grounded(B, S)
  {
  }

  lemma StartPhase(w: World)
    requires Inv(w) && w.v.state == 8
    ensures Phase(Started(w.v), Reached(w.v.body, Roots(w)), {}, multiset{}, {})
  {
    StartBounded(w);
    IdleIs(w);
    hide Base, LivePtrs, Bounded, Reached, Whites;
    var v := Started(w.v);
    assert Listed(v, multiset{}) == multiset{};
    assert forall x | x in v.m.color :: x in Whites(w.v.m.color) by { KeysAre(w); }
    assert Threads(v, {}) by { StartThreads(w); }
    assert Tri(v, multiset{}, {}) && Lists(v, {}) && OneWhite(v) && Paid(v, {}) by { StartPlain(w); }
  }

  lemma KeysAre(w: World)
    requires Inv(w)
    ensures w.v.body.Keys == w.v.m.color.Keys == Elems(w.all)
    ensures w.v.state == 8 ==> Whites(w.v.m.color) == w.v.body.Keys
  {
  }

  lemma StartThreads(w: World)
    requires Inv(w) && w.v.state == 8
    ensures Threads(Started(w.v), {})
  {
    IdleIs(w);
    hide Base, LivePtrs;
  }

  lemma StartPlain(w: World)
    requires Inv(w) && w.v.state == 8
    ensures var v := Started(w.v); Tri(v, multiset{}, {}) && Lists(v, {}) && OneWhite(v) && Paid(v, {})
  {
    IdleIs(w);
    hide Base, LivePtrs, ThreadsListed;
  }

  function AfterStart(w: World, m: Marks, doomed: set<Id>): World {
    w.(v := Started(w.v).(m := m), refs := [], markedRefs := w.refs, doomed := doomed, lost := {},
        stray := {})
  }

  /** The root and the strong references have been marked. */
  lemma StartDone(w: World, m: Marks)
    requires Inv(w) && w.v.state == 8
    requires Burst(w.v.body, Started(w.v).m, m, Reached(w.v.body, Roots(w)))
    requires w.root in Marked(m.color) && Elems(w.refs) <= Marked(m.color)
    ensures Inv(AfterStart(w, m, Unreached(w)))
    ensures Usable(AfterStart(w, m, Unreached(w))) == Reached(w.v.body, Roots(w))
  {
    StartPhase(w);
    StartBounded(w);
    hide Inv, Base, Marking, Phase, Bounded, Reached, LinkClosed, Burst, Marked, Roots;
    var S, w' := Reached(w.v.body, Roots(w)), AfterStart(w, m, Unreached(w));
    ReachedKeys(w.v.body, Roots(w));
    assert Usable(w') == S;
    BurstPhase(Started(w.v), m, S, {}, multiset{}, {});
    BurstKeeps(w.v.body, Started(w.v).m, m, S);
    StartBase(w, m, S);
    StartMarking(w, w', S);
    MarkingInv(w');
  }

  lemma MarkingInv(w: World)
    requires Base(w) && Marking(w) && w.v.state <= 1
    ensures w.v.state == 0 || w.v.state == 1 ==> Inv(w)
  {
  }

  lemma StartBase(w: World, m: Marks, S: set<Id>)
    requires Inv(w) && w.v.state == 8 && m.color.Keys == w.v.body.Keys
    requires Usable(AfterStart(w, m, Unreached(w))) == S && Roots(w) <= S
    ensures Base(AfterStart(w, m, Unreached(w)))
  {
    hide Typed, AllKnown, Usable, Idle, Unreached;
    var w' := AfterStart(w, m, Unreached(w));
    IdleRefs(w);
    assert Elems([]) == {};
    assert Roots(w') == Roots(w);
    assert w'.refs + w'.markedRefs == w.refs + w.markedRefs;
  }

  lemma IdleRefs(w: World)
    requires Inv(w) && w.v.state == 8
    ensures w.markedRefs == [] && w.left == 0
  {
  }

  lemma StartMarking(w: World, w': World, S: set<Id>)
    requires Inv(w) && w.v.state == 8
    requires Phase(w'.v, S, {}, multiset{}, {}) && LinkClosed(w'.v.body, S) && Usable(w') == S
    requires w.root in Marked(w'.v.m.color) && Elems(w.refs) <= Marked(w'.v.m.color)
    requires w' == AfterStart(w, w'.v.m, Unreached(w))
    ensures Marking(w')
  {
    hide Base, Phase, LinkClosed, Usable, Marked, Reached;
    IdleRefs(w);
  }

  lemma ReachedKeys(B: Bodies, R: set<Id>)
    ensures Reached(B, R) <= B.Keys
  {
  }

  // ---------------------------------------------------------------------- marking one gray object

  /** A step of marking that may empty keys of empty entries. */
  lemma PropagateDone(w: World, v': View)
    requires Inv(w) && w.v.state == 0 && v'.state == 0 && v'.cw == w.v.cw
    requires Phase(v', Usable(w), w.lost, multiset{}, {}) && Weaker(w.v.body, v'.body, {})
    requires Marked(w.v.m.color) <= Marked(v'.m.color)
    ensures Inv(w.(v := v'))
  {
    hide Phase, Weaker, AllKnown, Marked, LinkClosed, Typed, Base, Marking, NoDup;
    var w' := w.(v := v');
    PhaseTyped(v', Usable(w), w.lost);
    WeakerKind(w.v.body, v'.body, {});
    MarkingLinks(w);
    BaseIs(w);
    WeakerLinks(w.v.body, v'.body, Usable(w));
    WeakerKnown(w.v.body, v'.body, {}, w.known);
    assert Usable(w') == Usable(w);
    PropagateBase(w, v');
    PropagateMarking(w, v');
  }

  lemma MarkingLinks(w: World)
    requires Inv(w) && w.v.state == 0
    ensures LinkClosed(w.v.body, Usable(w))
  {
  }

  lemma PropagateBase(w: World, v': View)
    requires Base(w) && Typed(v'.body) && AllKnown(v'.body, w.known) && Usable(w.(v := v')) == Usable(w)
    requires w.v.body.Keys == v'.body.Keys == v'.m.color.Keys && w.v.state <= 1
    ensures Base(w.(v := v'))
  {
    hide Typed, AllKnown, NoDup, Usable;
  }

  lemma PropagateMarking(w: World, v': View)
    requires Inv(w) && w.v.state == 0 && Usable(w.(v := v')) == Usable(w) && w.v.body.Keys == v'.body.Keys
    requires Phase(v', Usable(w), w.lost, multiset{}, {}) && LinkClosed(v'.body, Usable(w))
    requires Marked(w.v.m.color) <= Marked(v'.m.color)
    ensures Marking(w.(v := v'))
  {
    hide Phase, LinkClosed, Usable, Marked, Base;
  }

  lemma PhaseTyped(v: View, S: set<Id>, X: set<Id>)
    requires Phase(v, S, X, multiset{}, {})
    ensures Typed(v.body) && v.body.Keys == v.m.color.Keys
  {
  }

  lemma WeakerLinks(B: Bodies, B': Bodies, S: set<Id>)
    requires Weaker(B, B', {}) && LinkClosed(B, S)
    ensures LinkClosed(B', S)
  {
    forall x | x in B' && x in S ensures LinksIn(B', B'[x], S) {
      WeakerIn(B, B', {}, x, S);
    }
  }

  lemma WeakerKnown(B: Bodies, B': Bodies, gone: set<Id>, K: set<Id>)
    requires Weaker(B, B', gone) && AllKnown(B, K)
    ensures AllKnown(B', K)
  {
    forall x | x in B' ensures PtrsIn(B', B'[x], K) {
      WeakerIn(B, B', gone, x, K);
    }
  }

  lemma PaidStep(v: View, S: set<Id>, X: set<Id>)
    requires Phase(v, S, X, multiset{}, {}) && v.m.debt >= Unpaid(v.m) + 1
    ensures Phase(v.(m := v.m.(debt := v.m.debt - 1)), S, X, multiset{}, {})
  {
    hide Bounded, Tri, Lists, Threads, Single, OneWhite;
    var v' := v.(m := v.m.(debt := v.m.debt - 1));
    PaidBounded(v, S, X);
    PaidRest(v, X);
    assert Paid(v', {});
  }

  lemma PaidBounded(v: View, S: set<Id>, X: set<Id>)
    requires Bounded(v, S, X) && v.m.debt >= Unpaid(v.m) + 1
    ensures Bounded(v.(m := v.m.(debt := v.m.debt - 1)), S, X)
  {
    hide Typed, Grounded, LeafClosed, StrongClosed, Whites, Marked;
  }

  lemma PaidRest(v: View, X: set<Id>)
    ensures var v' := v.(m := v.m.(debt := v.m.debt - 1));
      && Listed(v', multiset{}) == Listed(v, multiset{})
      && (Tri(v, multiset{}, {}) ==> Tri(v', multiset{}, {}))
      && (Lists(v, X) ==> Lists(v', X)) && (Threads(v, {}) ==> Threads(v', {}))
      && (OneWhite(v) ==> OneWhite(v'))
  {
    hide PtrsIn, WeakOk, EphOk, AllWeakOk, KeptOk, AllListable, Tables, Marked, UpValue;
    assert Listed(v.(m := v.m.(debt := v.m.debt - 1)), multiset{}) == Listed(v, multiset{});
    hide Listed;
  }

  // ---------------------------------------------------------------------- marking ends

  /** S holds what is marked and the strong references, and is closed under the strong links that
      marking follows. */
  ghost predicate Bounds(w: World, S: set<Id>) {
    Bounded(w.v, S, w.lost) && Elems(w.refs) <= S
  }

  /** What marking has made of w when `finish_marking` returns. */
  ghost predicate Finished(w: World, w1: World, gone: set<Id>) {
    && Inv(w) && w.v.state == 1
    && w1 == w.(v := w1.v, refs := w.refs + w.markedRefs, markedRefs := [])
    && w1.v.state == 2 && w1.v.remarked && w1.v.m.gray == [] && w1.v.cw == w.v.cw
    && (exists k: Scope :: k.exempt == w.lost && k.rest == multiset{} && Within(w1.v, k, {}))
    && Marked(w.v.m.color) <= Marked(w1.v.m.color)
    && Weaker(w.v.body, w1.v.body, gone)
    && (forall x | x in Marked(w1.v.m.color) :: Final(w1.v.body, x, Marked(w1.v.m.color), w.lost))
    && Elems(w.refs) <= Marked(w1.v.m.color)
  }

  /** The whites swap, and the sweep mark goes to the head of the list of all objects. */
  function AfterAtomic(w1: World, mark: Id): World {
    w1.(v := w1.v.(state := 3, cw := !w1.v.cw, body := w1.v.body[mark := SweepMark],
                   m := w1.v.m.(color := w1.v.m.color[mark := White(!w1.v.cw)], debt := w1.v.m.debt + 1)),
        all := [mark] + w1.all, left := |w1.all|, sweepMark := None, survivors := 0, known := w1.known + {mark})
  }

  /** The sweep mark is new, or the one the last sweep freed. */
  ghost predicate MarkOk(w: World, mark: Id) {
    if w.sweepMark.Some? then mark == w.sweepMark.value else mark !in w.known
  }

  lemma FinishedIs(w: World, w1: World, gone: set<Id>)
    requires Finished(w, w1, gone)
    ensures Typed(w1.v.body) && w1.stray == {}
    ensures w1.v.body.Keys == w.v.body.Keys == w1.v.m.color.Keys == Elems(w.all) && NoDup(w.all)
    ensures w1.v.m.debt >= |Whites(w1.v.m.color)|
    ensures OneWhite(w1.v)
    ensures forall x | x in Marked(w1.v.m.color) :: x in w1.v.body && !w1.v.body[x].SweepMark?
    ensures AllKnown(w1.v.body, w.known)
  {
    var k: Scope :| k.exempt == w.lost && k.rest == multiset{} && Within(w1.v, k, {});
    FinishedKnown(w, w1.v.body, gone);
    WeakerKind(w.v.body, w1.v.body, gone);
    hide Inv, Weaker, Final, Typed, Grounded, AllKnown, Tri, Lists, Threads, Single, StrongClosed, LeafClosed;
    KeysAre(w);
    BaseOf(w);
  }

  lemma FinishedKnown(w: World, B: Bodies, gone: set<Id>)
    requires Inv(w) && Weaker(w.v.body, B, gone)
    ensures AllKnown(B, w.known)
  {
    hide Typed, Weaker;
    WeakerKnown(w.v.body, B, gone, w.known);
  }

  lemma BaseOf(w: World)
    requires Inv(w)
    ensures Base(w) && NoDup(w.all)
  {
  }

  lemma MarkedThreads(w: World, w1: World, gone: set<Id>, x: Id)
    requires Finished(w, w1, gone)
    ensures x in w1.v.body && x in Marked(w1.v.m.color) && w1.v.body[x].Thread? && w1.v.body[x].open != [] ==>
      x in w1.v.twups
    ensures forall y | y in w1.v.twups ::
      y in Marked(w1.v.m.color) && y in w1.v.body && w1.v.body[y].Thread?
  {
    hide Inv, Weaker, Final;
    var k: Scope :| k.exempt == w.lost && k.rest == multiset{} && Within(w1.v, k, {});
    if x in Marked(w1.v.m.color) {
      MarkedWhere(w1.v, k, x);
    }
    hide Bounded, Tri, Lists, Single;
  }

  lemma FreshMark(w: World, mark: Id)
    requires Inv(w) && MarkOk(w, mark)
    ensures mark !in w.v.body
  {
  }

  /** After the swap, what is white is dead, and what is marked is what a program can use. */
  lemma AtomicSets(w: World, w1: World, gone: set<Id>, mark: Id)
    requires Finished(w, w1, gone) && mark !in w.v.body
    ensures var w3 := AfterAtomic(w1, mark);
      && Dead(w3) == Whites(w1.v.m.color) && Alive(w3) == Usable(w3) == Marked(w1.v.m.color)
      && mark !in Dead(w3) && |Dead(w3)| <= w1.v.m.debt
  {
    hide Finished, Typed, Grounded, AllKnown, NoDup, Elems;
    FinishedIs(w, w1, gone);
    var w3 := AfterAtomic(w1, mark);
    assert Dead(w3) == Whites(w1.v.m.color);
    assert Sentinels(w3.v.body) == Sentinels(w1.v.body) + {mark};
    assert Alive(w3) == Marked(w1.v.m.color);
  }

  lemma AtomicTyped(B: Bodies, mark: Id)
    requires Typed(B) && mark !in B
    ensures Typed(B[mark := SweepMark])
  {
    var B' := B[mark := SweepMark];
    forall y | y in B' ensures TypedBody(B', y) {
      if y != mark {
        assert TypedBody(B, y);
      }
    }
  }

  lemma AtomicBase(w: World, w1: World, gone: set<Id>, mark: Id)
    requires Finished(w, w1, gone) && mark !in w.v.body
    ensures Base(AfterAtomic(w1, mark))
  {
    hide Finished, Inv, Typed, Grounded, AllKnown, NoDup, Elems, Whites, Marked, Usable, Dead, Roots;
    FinishedIs(w, w1, gone);
    AtomicSets(w, w1, gone, mark);
    AtomicRoots(w, w1, gone);
    AtomicTyped(w1.v.body, mark);
    AtomicKnown(w1, mark, w.known);
    NewHead(w.all, mark);
    BaseList(w, w1);
    SameRoots(w1, mark);
  }

  lemma NewHead(l: seq<Id>, x: Id)
    requires NoDup(l) && x !in Elems(l)
    ensures NoDup([x] + l) && Elems([x] + l) == Elems(l) + {x}
  {
    AllocList(l, x);
  }

  lemma SameRoots(w1: World, mark: Id)
    ensures Roots(AfterAtomic(w1, mark)) == Roots(w1)
  {
  }

  lemma BaseList(w: World, w1: World)
    requires Inv(w) && w1 == w.(v := w1.v, refs := w.refs + w.markedRefs, markedRefs := [])
    ensures NoDup(w1.refs + w1.markedRefs)
  {
    assert w1.refs + w1.markedRefs == w.refs + w.markedRefs;
  }

  lemma AtomicKnown(w1: World, mark: Id, K: set<Id>)
    requires AllKnown(w1.v.body, K) && Typed(w1.v.body) && mark !in w1.v.body
    ensures AllKnown(w1.v.body[mark := SweepMark], K + {mark})
  {
    var B' := w1.v.body[mark := SweepMark];
    hide Typed, PtrsIn;
    forall y | y in B' ensures PtrsIn(B', B'[y], K + {mark}) {
      if y == mark {
        MarkPtrs(B', K + {mark});
      } else {
        AllocPtrs(w1.v.body, mark, SweepMark, y, K);
        PtrsMono(B', B'[y], K, K + {mark});
      }
    }
  }

  lemma MarkPtrs(B: Bodies, S: set<Id>)
    ensures PtrsIn(B, SweepMark, S)
  {
  }

  lemma AtomicRoots(w: World, w1: World, gone: set<Id>)
    requires Finished(w, w1, gone)
    ensures Roots(w1) <= Marked(w1.v.m.color)
    ensures Inv(w) && w1 == w.(v := w1.v, refs := w.refs + w.markedRefs, markedRefs := [])
  {
    hide Base, Phase, LinkClosed, Weaker, Final, Within, Marked;
    assert Elems(w1.refs) == Elems(w.refs) + Elems(w.markedRefs);
    assert Elems(w1.markedRefs) == {};
  }

  /** What is in M refers only to what is in M, metatables of members of X aside. */
  ghost predicate Finals(B: Bodies, M: set<Id>, X: set<Id>) {
    forall x | x in M :: Final(B, x, M, X)
  }

  lemma AtomicFinals(w: World, w1: World, gone: set<Id>, mark: Id)
    requires Finished(w, w1, gone) && mark !in w.v.body
    ensures var w3 := AfterAtomic(w1, mark); Finals(w3.v.body, Alive(w3), w.lost)
  {
    hide Finished, Typed, Grounded, AllKnown, NoDup, PtrsIn, PtrsButMeta, Marked, Whites, Usable, Alive, Elems, Dead;
    FinishedIs(w, w1, gone);
    AtomicSets(w, w1, gone, mark);
    FinalsOf(w, w1, gone);
    var w3, M := AfterAtomic(w1, mark), Marked(w1.v.m.color);
    forall x | x in M ensures Final(w3.v.body, x, M, w.lost) {
      if PtrsIn(w1.v.body, w1.v.body[x], M) {
        AllocPtrs(w1.v.body, mark, SweepMark, x, M);
      } else {
        ButMeta(w1.v.body, w3.v.body, w1.v.body[x], M);
      }
    }
  }

  lemma ButMeta(B: Bodies, B': Bodies, b: Body, M: set<Id>)
    ensures PtrsButMeta(B, b, M) ==> PtrsButMeta(B', b, M)
  {
  }

  // ---------------------------------------------------------------------- metatables that are let go

  /** The tables in X whose metatable is not in M. */
  ghost function Bad(B: Bodies, X: set<Id>, M: set<Id>): set<Id> {
    set t | t in X && t in B && B[t].Table? && !OIn(B[t].mt, M)
  }

  /** The members of M from which links lead to such a table. */
  ghost function Strays(B: Bodies, X: set<Id>, M: set<Id>): set<Id> {
    set x | x in M && x in B && exists t :: t in Bad(B, X, M) && LinkReach(B, {x}, t)
  }

  /** The collector with the ghost field `stray` brought up to date. */
  ghost function Mended(w: World): World {
    w.(stray := Strays(w.v.body, w.lost, Alive(w)))
  }

  lemma MendedSets(w: World)
    requires w.v.state > 1
    ensures var w' := Mended(w);
      && Alive(w') == Alive(w) && Dead(w') == Dead(w) && Usable(w') == Alive(w) - Strays(w.v.body, w.lost, Alive(w))
      && Roots(w') == Roots(w)
  {
    hide Strays, WhitesOf, Sentinels;
  }

  lemma LeadsOn(B: Bodies, x: Id, p: Id, t: Id)
    requires x in B && Linked(B, B[x], p) && LinkReach(B, {p}, t)
    ensures LinkReach(B, {x}, t)
  {
    forall S: set<Id> | {x} <= S && LinkClosed(B, S) ensures t in S {
      assert LinksIn(B, B[x], S);
    }
  }

  lemma StrayBack(B: Bodies, x: Id, p: Id, A: set<Id>, X: set<Id>)
    requires x in B && x in A && Linked(B, B[x], p) && p in Strays(B, X, A)
    ensures x in Strays(B, X, A)
  {
    hide LinkReach, Linked;
    var t :| t in Bad(B, X, A) && LinkReach(B, {p}, t);
    LeadsOn(B, x, p, t);
  }

  /** What refers only to members of A, its metatable aside, and is not stray links to no stray. */
  lemma FinalLive(B: Bodies, x: Id, A: set<Id>, X: set<Id>)
    requires Final(B, x, A, X) && x in A
    ensures var D := Strays(B, X, A);
      && (x !in D ==> LinksIn(B, B[x], A - D))
      && (x !in D || !B[x].Table? ==> PtrsIn(B, B[x], A))
  {
    var D := Strays(B, X, A);
    if x !in D {
      assert LinkReach(B, {x}, x);
      assert x !in Bad(B, X, A);
      FinalPtrs(B, x, A, X);
      PtrsLinks(B, B[x], A);
      forall p | Linked(B, B[x], p) ensures p in A - D {
        if p in D {
          StrayBack(B, x, p, A, X);
        }
      }
      LinkedAll(B, B[x], A - D);
    }
  }

  lemma AtomicLive(w: World, w1: World, gone: set<Id>, mark: Id)
    requires Finished(w, w1, gone) && mark !in w.v.body
    ensures LivePtrs(Mended(AfterAtomic(w1, mark)))
  {
    hide Finished, AfterAtomic, Usable, Alive, Dead, Whites, Marked, PtrsIn, LinksIn, Final, Strays;
    AtomicSets(w, w1, gone, mark);
    AtomicFinals(w, w1, gone, mark);
    LostIs(w, w1, gone, mark);
    var w3 := AfterAtomic(w1, mark);
    MendedSets(w3);
    forall x | x in w3.v.body && x !in Dead(w3) ensures LiveAt(Mended(w3), x) {
      if x in Alive(w3) {
        FinalLive(w3.v.body, x, Alive(w3), w3.lost);
      } else {
        SentinelAlone(w3, x);
      }
    }
  }

  lemma LostIs(w: World, w1: World, gone: set<Id>, mark: Id)
    requires Finished(w, w1, gone)
    ensures AfterAtomic(w1, mark).lost == w.lost && AfterAtomic(w1, mark).v.state == 3
  {
  }

  lemma SentinelAlone(w: World, x: Id)
    requires x in w.v.body && x !in Dead(w) && x !in Alive(w)
    ensures forall S: set<Id> :: PtrsIn(w.v.body, w.v.body[x], S) && LinksIn(w.v.body, w.v.body[x], S)
  {
  }

  lemma FinalsOf(w: World, w1: World, gone: set<Id>)
    requires Finished(w, w1, gone)
    ensures forall x | x in Marked(w1.v.m.color) :: Final(w1.v.body, x, Marked(w1.v.m.color), w.lost)
  {
  }

  lemma FinalPtrs(B: Bodies, x: Id, M: set<Id>, X: set<Id>)
    requires Final(B, x, M, X)
    requires x in X && B[x].Table? ==> OIn(B[x].mt, M)
    ensures PtrsIn(B, B[x], M)
  {
  }

  lemma NotWhite(C: Colors, x: Id)
    ensures x in C && x !in Whites(C) ==> x in Marked(C)
    ensures x in Marked(C) ==> x in C && x !in Whites(C)
  {
  }

  lemma AtomicThreads(w: World, w1: World, gone: set<Id>, mark: Id)
    requires Finished(w, w1, gone) && mark !in w.v.body
    ensures ThreadsListed(AfterAtomic(w1, mark))
  {
    hide Finished, Typed, Grounded, AllKnown, NoDup, Marked, Whites, Usable, Elems, Dead;
    FinishedIs(w, w1, gone);
    AtomicSets(w, w1, gone, mark);
    forall x
      ensures x in w1.v.body && x !in Whites(w1.v.m.color) && w1.v.body[x].Thread? && w1.v.body[x].open != [] ==>
        x in w1.v.twups
      ensures x in w1.v.twups ==> x in w1.v.body && x !in Whites(w1.v.m.color) && w1.v.body[x].Thread?
    {
      MarkedThreads(w, w1, gone, x);
      NotWhite(w1.v.m.color, x);
    }
  }

  lemma AtomicDoomed(w: World, w1: World, gone: set<Id>, mark: Id)
    requires Finished(w, w1, gone) && mark !in w.v.body && Marked(w1.v.m.color) <= Usable(w)
    ensures w.doomed <= Dead(AfterAtomic(w1, mark)) && NoStrings(AfterAtomic(w1, mark).v.body, w.doomed)
  {
    hide Finished, Typed, Grounded, AllKnown, NoDup, Inv, NoStrings, Elems, Dead, Whites;
    FinishedIs(w, w1, gone);
    AtomicSets(w, w1, gone, mark);
    AtomicRoots(w, w1, gone);
    FinishedGrew(w, w1, gone);
    DoomedExist(w);
    DoomedWhite(w, w1.v.m.color);
    DoomedStrings(w, w1.v.body, gone);
    MarkNoString(w1.v.body, mark, w.doomed);
  }

  lemma DoomedWhite(w: World, C: Colors)
    requires w.v.state <= 1 && Marked(C) <= Usable(w) && w.doomed <= w.v.body.Keys == C.Keys
    ensures w.doomed <= Whites(C)
  {
  }

  lemma MarkNoString(B: Bodies, mark: Id, D: set<Id>)
    requires NoStrings(B, D)
    ensures NoStrings(B[mark := SweepMark], D)
  {
  }

  lemma DoomedStrings(w: World, B: Bodies, gone: set<Id>)
    requires Inv(w) && w.v.state == 1 && Weaker(w.v.body, B, gone)
    ensures NoStrings(B, w.doomed)
  {
    WeakerKind(w.v.body, B, gone);
    hide Base, LinkClosed, Tri, Lists, Threads, Single, Weaker;
  }

  /** The sweep begins with the invariant of the sweep if no links lead from the roots to a lost table whose
      metatable is let go, */
  lemma AtomicDone(w: World, w1: World, gone: set<Id>, mark: Id)
    requires Finished(w, w1, gone) && MarkOk(w, mark) && Marked(w1.v.m.color) <= Usable(w)
    requires Roots(w) !! Mended(AfterAtomic(w1, mark)).stray
    ensures Inv(Mended(AfterAtomic(w1, mark)))
  {
    hide Finished, Base, LivePtrs, ThreadsListed, Dead, Usable, Alive, Marked, NoStrings, Roots, Whites, Strays;
    AtomicRoots(w, w1, gone);
    FreshMark(w, mark);
    AtomicBase(w, w1, gone, mark);
    AtomicLive(w, w1, gone, mark);
    AtomicThreads(w, w1, gone, mark);
    AtomicDoomed(w, w1, gone, mark);
    AtomicSets(w, w1, gone, mark);
    var w3 := AfterAtomic(w1, mark);
    assert w3.all[0] == mark;
    MendedSets(w3);
    SameRefs(w, w1);
    SameRoots(w1, mark);
    MendedBase(w3);
    MendedThreads(w3);
  }

  lemma SameRefs(w: World, w1: World)
    requires w1 == w.(v := w1.v, refs := w.refs + w.markedRefs, markedRefs := [])
    ensures Roots(w1) == Roots(w)
  {
    assert Elems(w1.refs) == Elems(w.refs) + Elems(w.markedRefs);
    assert Elems(w1.markedRefs) == {};
  }

  lemma MendedBase(w: World)
    requires Base(w) && w.v.state == 3 && Roots(w) !! Mended(w).stray
    ensures Base(Mended(w))
  {
    MendedSets(w);
    MendedKeys(w);
    hide Typed, AllKnown, NoDup, Elems, Dead, Alive, Strays;
  }

  lemma MendedKeys(w: World)
    ensures Mended(w).stray <= w.v.body.Keys - Dead(w) && NoStrings(w.v.body, Mended(w).stray)
  {
    forall x | x in Mended(w).stray ensures !w.v.body[x].Str? {
      StringLeads(w.v.body, x, w.lost, Alive(w));
    }
  }

  /** No links lead from a string. */
  lemma StringLeads(B: Bodies, x: Id, X: set<Id>, M: set<Id>)
    requires x in Strays(B, X, M)
    ensures !B[x].Str?
  {
    hide LinkReach;
    var t :| t in Bad(B, X, M) && LinkReach(B, {x}, t);
    StringAlone(B, x, t);
  }

  lemma StringAlone(B: Bodies, x: Id, t: Id)
    requires x in B && LinkReach(B, {x}, t)
    ensures B[x].Str? ==> t == x
  {
    assert B[x].Str? ==> LinkClosed(B, {x});
  }

  lemma MendedThreads(w: World)
    requires ThreadsListed(w)
    ensures ThreadsListed(Mended(w))
  {
  }

  /** and it does not if they do. */
  lemma AtomicBroken(w: World)
    requires w.v.state == 3 && !(Roots(w) !! w.stray)
    ensures !Inv(w)
  {
    hide Typed, AllKnown, NoDup, LivePtrs, ThreadsListed, Dead, NoStrings;
  }

  lemma FinishedGrew(w: World, w1: World, gone: set<Id>)
    requires Finished(w, w1, gone)
    ensures Marked(w.v.m.color) <= Marked(w1.v.m.color) && w.v.state == 1
    ensures Weaker(w.v.body, w1.v.body, gone)
  {
  }

  // ---------------------------------------------------------------------- runs

  /** From B to B' table entries that refer to `gone` have been removed, and keys of empty entries. */
  ghost predicate Lighter(B: Bodies, B': Bodies, gone: set<Id>) {
    forall x | x in B :: x in B' && WeakerBody(B[x], B'[x], gone)
  }

  /** The step that ends marking. What the sweep will leave is the least set that holds what was marked
      and the strong references and is closed under strong links, but for the tables in `lost`; and what was
      removed are the entries that refer to something outside it. */
  ghost predicate SweepBegun(w: World, w': World) {
    && w'.v.state == 3
    && Roots(w) <= Alive(w') && Marked(w.v.m.color) <= Alive(w')
    && StrongClosed(w.v.body, Alive(w') + Strings(w.v.body), w.lost)
    && (forall S | Bounds(w, S) :: Alive(w') <= S)
    && Finals(w'.v.body, Alive(w'), w.lost)
    && Lighter(w.v.body, w'.v.body, w.v.body.Keys - (Alive(w') + Strings(w.v.body)))
  }

  ghost predicate Starts(w: World, w': World) {
    w.v.state == 8 && w'.v.state == 0
  }

  /** What a step of the collector does to the contents of the objects and to the roots. */
  ghost predicate Collected(w: World, w': World) {
    && w'.root == w.root && w'.lost == (if Starts(w, w') then {} else w.lost)
    && (match w.v.state
        case 8 => (w'.v.state == 8 || w'.v.state == 0) && w'.v.body == w.v.body
        case 0 => (w'.v.state == 0 || w'.v.state == 1) && Weaker(w.v.body, w'.v.body, {})
        case 1 => SweepBegun(w, w')
        case _ =>
          && (w'.v.state == 3 || w'.v.state == 8)
          && SameLive(w.v.body, w'.v.body, Dead(w)) && w'.v.body.Keys <= w.v.body.Keys)
    && w'.refs == (if Starts(w, w') then [] else if w.v.state == 1 then w.refs + w.markedRefs else w.refs)
    && w'.markedRefs == (if Starts(w, w') then w.refs else if w.v.state == 1 then [] else w.markedRefs)
  }

  /** A step of the collector that keeps the invariant. */
  ghost predicate Collect(w: World, w': World) {
    Move(w, w') && Collected(w, w')
  }

  /** What the program does between steps; it frees nothing. */
  ghost predicate Program(w: World, w': World) {
    Move(w, w') && w'.v.state == w.v.state && w.v.body.Keys <= w'.v.body.Keys
  }

  /** What any call, of the collector or of the program, may do to the collector's state: objects
      only go if they are dead, none comes back, and nothing saves an object that was unreachable
      when the cycle began. */
  ghost predicate Move(w: World, w': World) {
    && Inv(w) && Inv(w')
    && w.known <= w'.known
    && (forall x | x in w.v.body && x !in w'.v.body :: x in Dead(w))
    && (forall x | x in w'.v.body && x !in w.v.body :: x !in w.known || w.sweepMark == Some(x))
    && w'.doomed == (if Starts(w, w') then Unreached(w) else w.doomed * w'.v.body.Keys)
  }

  /** Any number of steps of collector and program. */
  ghost predicate Run(ws: seq<World>) {
    && ws != [] && Inv(ws[0])
    && forall i | 0 <= i < |ws| - 1 :: Collect(ws[i], ws[i + 1]) || Program(ws[i], ws[i + 1])
  }

  lemma DeadUnusable(w: World)
    requires Inv(w)
    ensures Dead(w) !! Usable(w)
  {
    hide Base, LinkClosed, Bounded, Tri, Lists, Threads, Single, LivePtrs, ThreadsListed;
  }

  /** Safety: in any run, what disappears could not be reached when it did. */
  lemma RunSafe(ws: seq<World>, i: nat, x: Id)
    requires Run(ws) && i + 1 < |ws|
    requires x in ws[i].v.body && x !in ws[i + 1].v.body
    ensures !LinkReach(ws[i].v.body, Roots(ws[i]), x)
  {
    hide Inv, LinkReach, Usable, Dead, Roots;
    assert Move(ws[i], ws[i + 1]);
    DeadUnusable(ws[i]);
    if LinkReach(ws[i].v.body, Roots(ws[i]), x) {
      ReachUsable(ws[i], x);
    }
  }

  /** ws is a cycle: it begins by leaving state 8, and ends when it is back there. */
  ghost predicate Cycle(ws: seq<World>) {
    && Run(ws) && |ws| > 2 && Starts(ws[0], ws[1])
    && (forall i | 0 < i < |ws| - 1 :: ws[i].v.state != 8)
    && ws[|ws| - 1].v.state == 8
  }

  lemma {:induction false} StillDoomed(ws: seq<World>, n: nat, x: Id)
    requires Cycle(ws) && 0 < n < |ws| && x in Unreached(ws[0])
    requires forall i | 0 < i <= n :: x in ws[i].v.body
    ensures x in ws[n].doomed
  {
    hide Inv, Dead, Unreached;
    assert Move(ws[0], ws[1]);
    if n > 1 {
      StillDoomed(ws, n - 1, x);
      assert Move(ws[n - 1], ws[n - 1 + 1]);
    }
  }

  /** Completeness: what no link led to when a cycle began, strings aside, has been freed when the
      cycle ends, whatever the program did meanwhile. */
  lemma RunComplete(ws: seq<World>, x: Id)
    requires Cycle(ws) && x in Unreached(ws[0])
    ensures exists i :: 0 < i < |ws| && x !in ws[i].v.body
  {
    hide Inv, Dead, Unreached;
    var n := |ws| - 1;
    if forall i | 0 < i <= n :: x in ws[i].v.body {
      StillDoomed(ws, n, x);
      assert Move(ws[n - 1], ws[n - 1 + 1]);
      NoneDoomed(ws[n]);
    }
  }

  lemma NoneDoomed(w: World)
    requires Inv(w) && w.v.state == 8
    ensures w.doomed == {}
  {
  }

  /** When a cycle is over no object is gray, black or of the other white, and the debt covers every
      object there is. */
  lemma IdleWhite(w: World, x: Id)
    requires Inv(w) && w.v.state == 8 && x in w.v.body
    ensures w.v.m.color[x] == White(w.v.cw)
    ensures w.v.m.debt >= |w.v.body.Keys|
  {
    hide Typed, AllKnown, NoDup, LivePtrs, ThreadsListed;
    ElemsCard(w.all);
  }

  /** What the program does between steps frees nothing and saves nothing. */
  lemma MutatorMove(w: World, w': World)
    requires Inv(w) && Inv(w') && w'.v.state == w.v.state && w'.doomed == w.doomed && w.known <= w'.known
    requires w.v.body.Keys <= w'.v.body.Keys
    requires forall x | x in w'.v.body && x !in w.v.body :: x !in w.known
    ensures Program(w, w')
  {
    hide Inv, Dead, Unreached;
    DoomedExist(w);
  }
}
