/** Heaps on which the collector lets something go: a metatable it should have kept, and two things that the
    language leaves it free to let go.
 */
module GcExamples {
  import opened Basics
  import opened GcHeap
  import opened GcGrow
  import opened GcPhase
  import opened GcWorld
  import opened GcMutator
  import opened GcCycle
  import opened GcSafety

  /** Marking is about to end. The main thread 0 holds the tables 1, 4 and 5. Table 1, which holds 3 in a slot, was
      put aside as all-weak because its metatable is 2. Table 4 is marked and has no metatable. Table 5 has weak
      values because its metatable is 6; its one entry has key 7 and value 8. */
  function PutAside(): World {
    World(View(1, false, Heap(), Marks(Paint(), [], 2), [0, 5], [], [], [1], [], false),
          [8, 7, 6, 5, 4, 3, 2, 1, 0], 0, None, 0, [], [], 0, ALL, {}, {}, {})
  }

  const ALL: set<Id> := {0, 1, 2, 3, 4, 5, 6, 7, 8}

  const STRONG: Mode := Mode(false, false)

  function Plain(m: Mode): Body {
    Table(None, m, [], [])
  }

  function Heap(): Bodies {
    map[0 := Thread([Obj(1), Obj(4), Obj(5)], []), 1 := WithMeta(2), 2 := Plain(Mode(true, true)),
        3 := Plain(Mode(true, true)), 4 := Plain(STRONG), 5 := Table(Some(6), STRONG, [], [Entry(Obj(7), Obj(8))]),
        6 := Plain(Mode(false, true)), 7 := Plain(STRONG), 8 := Plain(STRONG)]
  }

  /** Table 1, with metatable m. */
  function WithMeta(m: Id): Body {
    Table(Some(m), STRONG, [Obj(3)], [])
  }

  function Paint(): Colors {
    map[0 := Gray, 1 := Gray, 2 := Black, 3 := White(false), 4 := Black, 5 := Gray, 6 := Black, 7 := Black,
        8 := White(false)]
  }

  lemma HeapKeys()
    ensures Heap().Keys == ALL == Paint().Keys
  {
    assert Heap().Keys == ALL;
    assert Paint().Keys == ALL;
  }

  lemma HeapTyped()
    ensures Typed(Heap())
  {
    hide Heap, TypedBody;
    HeapKeys();
    forall x | x in Heap() ensures TypedBody(Heap(), x) {
      HeapTypedAt(x);
    }
  }

  lemma HeapTypedAt(x: Id)
    requires x in ALL
    ensures x in Heap() && TypedBody(Heap(), x)
  {
  }

  lemma HeapLink(x: Id)
    requires x in ALL
    ensures x in Heap() && !Heap()[x].SweepMark? && !Heap()[x].Str?
    ensures PtrsIn(Heap(), Heap()[x], ALL) && LinksIn(Heap(), Heap()[x], ALL)
  {
  }

  lemma HeapLinks()
    ensures Grounded(Heap(), ALL) && LinkClosed(Heap(), ALL) && HasStrings(Heap(), ALL)
    ensures forall x | x in ALL :: x in Heap() && !Heap()[x].SweepMark? && !Heap()[x].Str?
  {
    hide Heap, PtrsIn, LinksIn;
    HeapKeys();
    forall x | x in ALL
      ensures x in Heap() && !Heap()[x].SweepMark? && !Heap()[x].Str?
      ensures PtrsIn(Heap(), Heap()[x], ALL) && LinksIn(Heap(), Heap()[x], ALL)
    {
      HeapLink(x);
    }
  }

  lemma PaintSets()
    ensures |Whites(Paint())| == 2 && Marked(Paint()) == {0, 1, 2, 4, 5, 6, 7}
    ensures forall x | x in Paint() && Paint()[x].White? :: !Paint()[x].bit
    ensures forall x | x in multiset{0, 1, 5} :: x in Paint() && Paint()[x].Gray?
  {
    assert Whites(Paint()) == {3, 8};
    assert Marked(Paint()) == {0, 1, 2, 4, 5, 6, 7};
  }

  lemma PutAsideMarks()
    ensures var w := PutAside();
      && Listed(w.v, multiset{}) == multiset{0, 1, 5} && Single(Listed(w.v, multiset{}), w.v.m.color)
      && Paid(w.v, {}) && OneWhite(w.v)
      && |Whites(w.v.m.color)| == 2 && Marked(w.v.m.color) == {0, 1, 2, 4, 5, 6, 7}
  {
    hide Heap, Paint, Whites, Marked;
    PaintSets();
    var w := PutAside();
    assert Listed(w.v, multiset{}) == multiset{0, 1, 5};
    hide Listed;
  }

  lemma PaintGray()
    ensures forall x | x in Paint() && Paint()[x].Gray? :: x in multiset{0, 1, 5}
  {
  }

  lemma BlackPtrs(x: Id)
    requires x in Paint() && Paint()[x].Black?
    ensures x in Heap() && PtrsIn(Heap(), Heap()[x], {0, 1, 2, 4, 5, 6, 7})
  {
  }

  lemma PutAsideTri()
    ensures Tri(PutAside().v, multiset{}, {})
  {
    hide Heap, Paint, Listed, Marked, Single, Whites, PtrsIn;
    PutAsideMarks();
    PaintGray();
    forall x | x in PutAside().v.m.color && PutAside().v.m.color[x].Black?
      ensures x in Heap() && PtrsIn(Heap(), Heap()[x], {0, 1, 2, 4, 5, 6, 7})
    {
      BlackPtrs(x);
    }
  }

  lemma PutAsideLists()
    ensures Lists(PutAside().v, {}) && !PutAside().v.remarked
  {
    hide Listed, Marked, Single, Whites, Tri;
    PutAsideMarks();
  }

  lemma PutAsideThreads()
    ensures Threads(PutAside().v, {})
  {
  }

  lemma PutAsideAll()
    ensures NoDup(PutAside().all) && Elems(PutAside().all) == ALL && Elems([]) == {} && Elems([0, 5]) == {0, 5}
  {
    hide Heap, Paint;
    CountDown(PutAside().all);
  }

  lemma CountDown(l: seq<Id>)
    requires |l| == 9 && forall i | 0 <= i < 9 :: l[i] == 8 - i
    ensures NoDup(l) && Elems(l) == ALL
  {
    forall x | x in ALL ensures x in Elems(l) {
      assert l[8 - x] == x;
    }
  }

  lemma PutAsideRest()
    ensures var w := PutAside();
      && Roots(w) == {0} && Usable(w) == ALL && AllKnown(w.v.body, w.known) && NoDup(w.refs + w.markedRefs)
  {
    hide Heap, Paint, Elems, PtrsIn;
    HeapKeys();
    HeapLinks();
    PutAsideAll();
  }

  lemma PutAsideInv()
    ensures Inv(PutAside())
  {
    hide Heap, Paint, Typed, Grounded, LinkClosed, StrongClosed, LeafClosed, Single, Tri, Lists, Threads, Paid,
      OneWhite, Usable, AllKnown, Listed, Marked, Whites, Roots, NoDup, Elems, HasStrings;
    var w := PutAside();
    HeapKeys();
    HeapTyped();
    HeapLinks();
    PutAsideMarks();
    PutAsideTri();
    PutAsideLists();
    PutAsideThreads();
    PutAsideAll();
    PutAsideRest();
    LinkClosedBounds(w.v.body, ALL, {});
    assert Bounded(w.v, ALL, {});
    assert Phase(w.v, ALL, {}, multiset{}, {});
    assert Base(w);
  }

  // ---------------------------------------------------------------------- stores of a metatable

  /** Table 1 gets metatable m. It is gray, so no barrier marks m. */
  ghost function Stored(m: Id): World {
    AfterRewrite(PutAside(), 1, WithMeta(m))
  }

  /** What marking can stay within: all but 3 and 8. */
  const NEAR: set<Id> := {0, 1, 2, 4, 5, 6, 7}

  lemma StoreAllowed(m: Id)
    requires m == 3 || m == 4
    ensures CanRewrite(PutAside(), 1, WithMeta(m), {m})
  {
    HeapKeys();
    PutAsideRest();
    hide Usable, Roots, AllKnown, NoDup, Elems;
    StoreNarrow(m);
  }

  lemma StoreNarrow(m: Id)
    requires m == 3 || m == 4
    ensures TypedBody(Heap()[1 := WithMeta(m)], 1) && Narrow(Heap(), Heap()[1], WithMeta(m), {m})
  {
  }

  lemma StoreLost(m: Id)
    requires m == 3 || m == 4
    ensures Stored(m).lost == {1} && PutAside().v.m.color[1].Gray?
  {
    var v := PutAside().v.(body := Heap()[1 := WithMeta(m)]);
    assert v.allWeak[0] == 1;
    assert ModeOf(v.body, v.body[1]) == if m == 3 then Mode(true, true) else STRONG;
    assert 3 !in Marked(v.m.color);
    assert Strayed(v) == {1};
  }

  lemma StoreInv(m: Id)
    requires m == 3 || m == 4
    ensures Inv(Stored(m)) && PutAside().v.m.color[1].Gray?
  {
    PutAsideInv();
    StoreAllowed(m);
    hide Inv, CanRewrite, Heap;
    RewriteInv(PutAside(), 1, WithMeta(m), {m});
  }

  ghost function HeapWith(m: Id): Bodies {
    Heap()[1 := WithMeta(m)]
  }

  lemma NearClosed(m: Id, x: Id)
    requires m == 2 || m == 3 || m == 4
    requires x in NEAR
    ensures x in HeapWith(m)
    ensures m == 2 || x != 1 ==> StrongIn(HeapWith(m), HeapWith(m)[x], NEAR)
    ensures !Listable(HeapWith(m)[x]) ==> PtrsIn(HeapWith(m), HeapWith(m)[x], NEAR)
  {
  }

  lemma NearPlain(w: World, m: Id)
    requires w.v == PutAside().v.(body := HeapWith(m)) && w.refs == []
    requires w.lost == if m == 2 then {} else {1}
    ensures w.v.body == HeapWith(m) && w.v.state == 1 && Marked(w.v.m.color) <= NEAR && Elems(w.refs) <= NEAR
    ensures forall x | x in NEAR && x !in w.lost :: m == 2 || x != 1
  {
    hide Heap, Paint, Marked;
    PaintSets();
    assert Elems([]) == {};
  }

  lemma NearAll(m: Id)
    requires m == 2 || m == 3 || m == 4
    ensures forall x | x in NEAR :: x in HeapWith(m)
    ensures forall x | x in NEAR :: m == 2 || x != 1 ==> StrongIn(HeapWith(m), HeapWith(m)[x], NEAR)
    ensures forall x | x in NEAR && !Listable(HeapWith(m)[x]) :: PtrsIn(HeapWith(m), HeapWith(m)[x], NEAR)
  {
    hide *;
    forall x | x in NEAR
      ensures x in HeapWith(m)
      ensures m == 2 || x != 1 ==> StrongIn(HeapWith(m), HeapWith(m)[x], NEAR)
      ensures !Listable(HeapWith(m)[x]) ==> PtrsIn(HeapWith(m), HeapWith(m)[x], NEAR)
    {
      NearClosed(m, x);
    }
  }

  lemma ReadyNow(w: World)
    requires Inv(w) && w.v.state == 1
    ensures Ready(w.v.body, w.v.m, Usable(w))
  {
    hide Base, Tri, Lists, Threads, LinkClosed, Single;
  }

  lemma BoundsLess(w: World, S: set<Id>)
    requires Inv(w) && w.v.state == 1 && S <= Usable(w) && HasStrings(w.v.body, S)
    requires Marked(w.v.m.color) <= S && Elems(w.refs) <= S
    requires forall x | x in S :: !w.v.body[x].SweepMark?
    requires forall x | x in S && x !in w.lost :: StrongIn(w.v.body, w.v.body[x], S)
    requires forall x | x in S && !Listable(w.v.body[x]) :: PtrsIn(w.v.body, w.v.body[x], S)
    ensures Bounds(w, S)
  {
    hide Inv, Usable, Typed, Grounded, Marked, Whites, StrongIn, PtrsIn;
    IdsKnown(w);
    ReadyNow(w);
    GroundedMono(w.v.body, S, Usable(w));
  }

  lemma NearBounds(w: World, m: Id)
    requires Inv(w) && (m == 2 || m == 3 || m == 4)
    requires w.v == PutAside().v.(body := HeapWith(m)) && w.refs == []
    requires w.lost == (if m == 2 then {} else {1}) && w.doomed == {}
    ensures Bounds(w, NEAR)
  {
    AllUsed(w);
    hide *;
    NearPlain(w, m);
    NearAll(m);
    NearStrings(m);
    BoundsLess(w, NEAR);
  }

  lemma AllUsed(w: World)
    requires w.doomed == {} && w.v.state <= 1
    ensures Usable(w) == w.v.body.Keys
  {
  }

  lemma NearStrings(m: Id)
    ensures HasStrings(HeapWith(m), NEAR) && HeapWith(m).Keys == ALL
    ensures forall x | x in NEAR :: x in HeapWith(m) && !HeapWith(m)[x].SweepMark?
  {
    assert HeapWith(m).Keys == ALL;
  }

  /** A table that marking need not mark is not marked. */
  lemma LetGo(w: World, w': World, x: Id)
    requires Bounds(w, NEAR) && SweepBegun(w, w')
    requires x in w.v.body && w.v.body[x].Table? && x !in NEAR
    ensures x in w'.v.body && x in Dead(w')
  {
    assert Alive(w') <= NEAR;
    assert WeakerBody(w.v.body[x], w'.v.body[x], w.v.body.Keys - (Alive(w') + Strings(w.v.body)));
  }

  lemma StoreRoots(m: Id)
    ensures Roots(Stored(m)) == {0} && Stored(m).v == PutAside().v.(body := HeapWith(m)) && Stored(m).refs == []
    ensures Stored(m).doomed == {}
  {
    assert Elems([]) == {};
  }

  // ---------------------------------------------------------------------- what is let go

  /** The thread and table 1 lead to the metatable of table 1. */
  lemma MetaReach(B: Bodies)
    requires 0 in B && B[0] == Thread([Obj(1), Obj(4), Obj(5)], []) && 1 in B && B[1].Table? && B[1].mt == Some(3)
    ensures Held(B, {0}, {1}, 3) && StrongReach(B, {0}, 3) && LinkReach(B, {0}, 3)
    ensures Held(B, {0}, {1}, 1)
  {
    forall S: set<Id> | {0} <= S && (HoldClosed(B, S, {1}) || StrongClosed(B, S, {}) || LinkClosed(B, S))
      ensures 3 in S && 1 in S
    {
      assert PtrsIn(B, B[0], S);
      assert VIn(B[0].stack[0], S);
    }
  }

  lemma WithMetaIs(m: Id)
    ensures WithMeta(m).Table? && WithMeta(m).mt == Some(m)
  {
  }

  lemma StillThere(B: Bodies, B': Bodies, gone: set<Id>)
    requires Lighter(B, B', gone) && 0 in B && B[0] == Thread([Obj(1), Obj(4), Obj(5)], [])
    requires 1 in B && B[1].Table? && B[1].mt == Some(3)
    ensures LinkReach(B', {0}, 3)
  {
    assert WeakerBody(B[0], B'[0], gone) && WeakerBody(B[1], B'[1], gone);
    MetaReach(B');
  }

  lemma BodiesOf(m: Id)
    requires m == 2 || m == 3 || m == 4
    ensures var B := HeapWith(m);
      && 0 in B && B[0] == Thread([Obj(1), Obj(4), Obj(5)], []) && 1 in B && B[1] == WithMeta(m)
      && 3 in B && B[3].Table? && 3 !in NEAR && 7 in B && B[7].Table? && 2 in B && 4 in B && B[2] == Plain(Mode(true, true))
      && B[4] == Plain(STRONG) && 5 in B && B[5] == Table(Some(6), STRONG, [], [Entry(Obj(7), Obj(8))])
      && 6 in B && B[6] == Plain(Mode(false, true))
  {
  }

  /** What marking has to stay within does not reach the metatable. */
  lemma MetaUnmet(w: World)
    requires Bounds(w, NEAR) && w.lost == {1} && 1 in w.v.body && w.v.body[1].Table? && w.v.body[1].mt == Some(3)
    requires Held(w.v.body, Roots(w), {1}, 1)
    ensures !MetaReached(w)
  {
    hide Bounds, Held, Roots;
    assert 3 !in Least(w);
  }

  /** Everything there is to say about the store. */
  lemma StoreFacts(m: Id)
    requires m == 3 || m == 4
    ensures Inv(PutAside()) && PutAside().lost == {} && CanRewrite(PutAside(), 1, WithMeta(m), {m})
    ensures var w := Stored(m);
      && Inv(w) && Roots(w) == {0} && w.v.state == 1 && w.lost == {1} && Bounds(w, NEAR)
      && w.v == PutAside().v.(body := HeapWith(m)) && w.v.body == HeapWith(m)
  {
    hide Inv, CanRewrite, Usable, Heap, HeapWith, Paint, Roots, Strayed, Bounds, Stored;
    PutAsideInv();
    StoreAllowed(m);
    StoreInv(m);
    StoreLost(m);
    StoreRoots(m);
    NearBounds(Stored(m), m);
  }

  lemma HeldThere(w: World, x: Id)
    requires w.v.state == 1 && x in w.v.body && w.v.body[x].Table?
    ensures HeldIn(w, x) <==> Held(w.v.body, Roots(w), w.lost, x)
  {
  }

  lemma BegunLighter(w: World, w': World)
    requires SweepBegun(w, w')
    ensures Lighter(w.v.body, w'.v.body, w.v.body.Keys - (Alive(w') + Strings(w.v.body)))
  {
  }

  /** The metatable of a held table is lost: 3 is held, and reachable, before and after the end of marking, and
      the sweep will free it. The conditions for the end of marking to be right do not hold. */
  lemma LostMetatable(w': World)
    requires Collected(Stored(3), w')
    ensures Inv(PutAside()) && PutAside().lost == {} && CanRewrite(PutAside(), 1, WithMeta(3), {3})
    ensures Inv(Stored(3)) && HeldIn(Stored(3), 3) && StrongReach(Stored(3).v.body, Roots(Stored(3)), 3)
    ensures !MetaReached(Stored(3)) && !MetaSound(Stored(3), w')
    ensures 3 in Dead(w') && LinkReach(w'.v.body, Roots(w'), 3) && !NoneDangles(w')
  {
    hide *;
    var w := Stored(3);
    StoreFacts(3);
    BegunHere(w, w');
    BodiesOf(3);
    WithMetaIs(3);
    LetGo(w, w', 3);
    MetaReach(w.v.body);
    HeldThere(w, 3);
    MetaUnmet(w);
    BegunLighter(w, w');
    StillThere(w.v.body, w'.v.body, w.v.body.Keys - (Alive(w') + Strings(w.v.body)));
    DeadNotAlive(w', 3);
    Dangles(w', 3);
    AtomicSound(w, w');
  }

  lemma Dangles(w: World, x: Id)
    requires LinkReach(w.v.body, Roots(w), x) && x !in Alive(w)
    ensures !NoneDangles(w)
  {
  }

  lemma BegunHere(w: World, w': World)
    requires Collected(w, w') && w.v.state == 1
    ensures SweepBegun(w, w') && Roots(w') == Roots(w)
  {
    RootsKept(w, w');
  }

  /** The metatable of table 1 becomes 4, which makes it a strong table, and 3 is now strongly reachable through it.
      The change takes effect in the next cycle only: 3 is not marked, the slot is cleared. The invariant does not
      mind, and 3 is not held in the sense that exempts such tables. */
  lemma StrengthDelayed(w': World)
    requires Collected(Stored(4), w')
    ensures CanRewrite(PutAside(), 1, WithMeta(4), {4}) && Inv(Stored(4))
    ensures StrongReach(Stored(4).v.body, Roots(Stored(4)), 3) && 3 in Dead(w')
    ensures MetaReached(Stored(4)) && MetaSound(Stored(4), w') && !HeldIn(Stored(4), 3)
  {
    hide *;
    var w := Stored(4);
    StoreFacts(4);
    BegunHere(w, w');
    BodiesOf(4);
    LetGo(w, w', 3);
    SlotReach(w.v.body);
    MetaMet(w, w');
    AtomicSafe(w, w');
    NotHeld(w, w', 3);
  }

  lemma SlotReach(B: Bodies)
    requires 0 in B && B[0] == Thread([Obj(1), Obj(4), Obj(5)], []) && 1 in B && B[1] == WithMeta(4)
    requires 4 in B && B[4] == Plain(STRONG)
    ensures StrongReach(B, {0}, 3)
  {
    forall S: set<Id> | {0} <= S && StrongClosed(B, S, {}) ensures 3 in S {
      assert StrongIn(B, B[0], S) && VIn(B[0].stack[0], S);
      assert StrongIn(B, B[1], S) && VIn(B[1].arr[0], S);
    }
  }

  /** Table 4 was marked already. */
  lemma MetaMet(w: World, w': World)
    requires w.v == PutAside().v.(body := HeapWith(4)) && w.lost == {1}
    ensures MetaReached(w) && MetaSound(w, w')
  {
    hide Heap, Paint, Held, StrongClosed, Ready, LinkReach;
    PaintSets();
    BodiesOf(4);
    assert 4 in Least(w);
  }

  lemma NotHeld(w: World, w': World, x: Id)
    requires AllAlive(w, w') && x in Dead(w')
    ensures !HeldIn(w, x)
  {
    hide HeldIn, Dead, Alive;
    DeadNotAlive(w', x);
  }

  lemma DeadNotAlive(w: World, x: Id)
    requires x in Dead(w)
    ensures x !in Alive(w)
  {
  }

  /** An entry of a weak-value table goes, and its key is strongly reachable no longer. */
  lemma KeyLetGo(w': World)
    requires Collect(PutAside(), w')
    ensures Inv(PutAside()) && PutAside().lost == {}
    ensures StrongReach(PutAside().v.body, Roots(PutAside()), 7) && HeldIn(PutAside(), 7)
    ensures !StrongReach(w'.v.body, Roots(PutAside()), 7)
  {
    var w := PutAside();
    PutAsideInv();
    PutAsideRest();
    BodiesOf(2);
    HeapIs();
    NearBounds(w, 2);
    hide Inv, Usable, Heap, HeapWith, Paint, Roots, Held, Bounds, Lighter, StrongClosed, StrongReach, SweepBegun, PutAside;
    KeyReach(w.v.body);
    HeldIsReach(w.v.body, {0}, 7);
    KeyNotVia(w.v.body, Least(w));
    StillHeld(w, w', 7);
  }

  lemma HeapIs()
    ensures PutAside().v == PutAside().v.(body := HeapWith(2)) && PutAside().v.body == HeapWith(2)
  {
    assert HeapWith(2) == Heap();
  }

  lemma KeyReach(B: Bodies)
    requires 0 in B && B[0] == Thread([Obj(1), Obj(4), Obj(5)], [])
    requires 5 in B && B[5] == Table(Some(6), STRONG, [], [Entry(Obj(7), Obj(8))])
    requires 6 in B && B[6] == Plain(Mode(false, true))
    ensures StrongReach(B, {0}, 7)
  {
    forall S: set<Id> | {0} <= S && StrongClosed(B, S, {}) ensures 7 in S {
      assert StrongIn(B, B[0], S) && VIn(B[0].stack[2], S);
      assert StrongIn(B, B[5], S) && StrongNode(ModeOf(B, B[5]), B[5].nodes[0], S);
    }
  }

  lemma KeyNotVia(B: Bodies, M: set<Id>)
    requires B == HeapWith(2) && 8 !in M
    ensures !HeldVia(B, {0}, M, 7)
  {
    var S: set<Id> := {0, 1, 2, 4, 5, 6};
    assert HasStrings(B, S) by { HeapKeys(); }
    forall x | x in S ensures x in B && ViaIn(B, B[x], S, M) {
      KeyViaOne(B, M, S, x);
    }
    hide ViaIn;
    assert ViaClosed(B, S, M);
  }

  lemma KeyViaOne(B: Bodies, M: set<Id>, S: set<Id>, x: Id)
    requires B == HeapWith(2) && 8 !in M && S == {0, 1, 2, 4, 5, 6} && x in S
    ensures x in B && ViaIn(B, B[x], S, M)
  {
  }
}
