/** The invariant of the collector between calls, in every state, and what reachability means. */
module GcWorld {
  import opened Basics
  import opened GcHeap
  import opened GcGrow
  import opened GcPhase

  /** A snapshot of the whole collector. `left` counts the objects at the tail of `all` that the
      sweep has yet to look at. `known` holds the identities objects have had so far; `doomed` the
      objects no link led to when the cycle began, strings aside; `lost` the all-weak tables that got
      another metatable, or whose metatable got another mode, after the cycle had put them aside; `stray` the
      objects from which pointers lead to a table whose metatable the end of marking let go. */
  datatype World = World(
    v: View, all: seq<Id>, left: nat, sweepMark: Option<Id>, root: Id,
    refs: seq<Id>, markedRefs: seq<Id>, survivors: nat, known: set<Id>, doomed: set<Id>, lost: set<Id>, stray: set<Id>)

  ghost function Elems(l: seq<Id>): set<Id> {
    set x | x in l
  }

  ghost predicate NoDup(l: seq<Id>) {
    forall i, j | 0 <= i < j < |l| :: l[i] != l[j]
  }

  ghost function Roots(w: World): set<Id> {
    {w.root} + Elems(w.refs) + Elems(w.markedRefs)
  }

  /** Objects that carry the white of the previous cycle. */
  ghost function Dead(w: World): set<Id> {
    WhitesOf(w.v.m.color, !w.v.cw)
  }

  ghost function Sentinels(B: Bodies): set<Id> {
    set x | x in B && B[x].SweepMark?
  }

  /** The objects that this cycle's sweep will leave. */
  ghost function Alive(w: World): set<Id> {
    w.v.body.Keys - Dead(w) - Sentinels(w.v.body)
  }

  /** The objects a program may still get hold of. */
  ghost function Usable(w: World): set<Id> {
    if w.v.state <= 1 then w.v.body.Keys - w.doomed else Alive(w) - w.stray
  }

  /** x is in every set that holds R and is closed under links, weak ones included. */
  ghost predicate LinkReach(B: Bodies, R: set<Id>, x: Id) {
    forall S: set<Id> | R <= S && LinkClosed(B, S) :: x in S
  }

  /** x is in every set that holds R and is closed under strong links. */
  ghost predicate StrongReach(B: Bodies, R: set<Id>, x: Id) {
    forall S: set<Id> | R <= S && StrongClosed(B, S, {}) :: x in S
  }

  /** Every pointer, also one a dead object still holds, is to an object there is or was. */
  ghost predicate AllKnown(B: Bodies, K: set<Id>) {
    B.Keys <= K && forall x | x in B :: PtrsIn(B, B[x], K)
  }

  ghost predicate Base(w: World) {
    && NoDup(w.all) && Elems(w.all) == w.v.body.Keys == w.v.m.color.Keys
    && (w.sweepMark.Some? ==> w.sweepMark.value !in w.v.body && w.sweepMark.value in w.known)
    && Typed(w.v.body) && AllKnown(w.v.body, w.known)
    && NoDup(w.refs + w.markedRefs)
    && Roots(w) <= Usable(w)
    && StrayOk(w)
  }

  ghost predicate StrayOk(w: World) {
    && w.stray <= w.v.body.Keys - Dead(w) && NoStrings(w.v.body, w.stray)
    && (w.v.state <= 1 ==> w.stray == {})
  }

  /** States 0 and 1. */
  ghost predicate Marking(w: World) {
    && Phase(w.v, Usable(w), w.lost, multiset{}, {})
    && LinkClosed(w.v.body, Usable(w))
    && w.root in Marked(w.v.m.color)
    && Elems(w.markedRefs) <= Marked(w.v.m.color)
    && w.doomed <= w.v.body.Keys
    && w.left == 0
  }

  ghost predicate ThreadsListed(w: World) {
    && (forall x | x in w.v.body && x !in Dead(w) && w.v.body[x].Thread? && w.v.body[x].open != [] ::
          x in w.v.twups)
    && (forall i | 0 <= i < |w.v.twups| ::
          w.v.twups[i] in w.v.body && w.v.twups[i] !in Dead(w) && w.v.body[w.v.twups[i]].Thread?)
  }

  ghost predicate LivePtrs(w: World) {
    forall x | x in w.v.body && x !in Dead(w) :: LiveAt(w, x)
  }

  /** Links from x lead to what a program may get hold of, and no pointer leads to anything dead; of a stray
      table neither is known. */
  ghost predicate LiveAt(w: World, x: Id)
    requires x in w.v.body
  {
    && (x !in w.stray ==> LinksIn(w.v.body, w.v.body[x], Usable(w)))
    && (x !in w.stray || !w.v.body[x].Table? ==> PtrsIn(w.v.body, w.v.body[x], Alive(w)))
  }

  ghost predicate NoStrings(B: Bodies, D: set<Id>) {
    forall x | x in D && x in B :: !B[x].Str?
  }

  /** State 3. Live objects hold pointers to live objects only; everything the sweep has passed, or
      that is younger than it, is current-white. */
  ghost predicate Sweeping(w: World) {
    && LivePtrs(w) && ThreadsListed(w)
    && w.markedRefs == [] && w.doomed <= Dead(w)
    && NoStrings(w.v.body, w.doomed)
    && w.left <= |w.all|
    && (forall i | 0 <= i < |w.all| - w.left ::
          w.all[i] in w.v.m.color && w.v.m.color[w.all[i]] == White(w.v.cw))
    && w.survivors + w.left <= |w.all|
    && w.v.m.debt >= |Dead(w)| + |w.all| - w.left - w.survivors
  }

  /** State 8: every object is current-white. */
  ghost predicate Idle(w: World) {
    && (forall x | x in w.v.m.color :: w.v.m.color[x] == White(w.v.cw))
    && LivePtrs(w) && ThreadsListed(w)
    && w.markedRefs == [] && w.doomed == {} && w.left == 0
    && w.v.m.debt >= |w.all| && w.v.m.debt >= w.survivors
  }

  ghost predicate Inv(w: World) {
    && Base(w)
    && match w.v.state
       case 0 => Marking(w)
       case 1 => Marking(w)
       case 3 => Sweeping(w)
       case 8 => Idle(w)
       case _ => false
  }

  // ---------------------------------------------------------------------- reachability

  lemma PtrsLinks(B: Bodies, b: Body, S: set<Id>)
    requires PtrsIn(B, b, S)
    ensures LinksIn(B, b, S)
  {
  }

  /** In every state the usable objects are closed under links and hold the roots. */
  lemma UsableClosed(w: World)
    requires Inv(w)
    ensures LinkClosed(w.v.body, Usable(w)) && Roots(w) <= Usable(w)
  {
    if w.v.state > 1 {
      hide Typed, Idle, ThreadsListed;
      forall x | x in w.v.body && x in Usable(w) ensures LinksIn(w.v.body, w.v.body[x], Usable(w)) {
        assert LiveAt(w, x);
      }
    }
  }

  /** Whatever can be reached from the root and the strong references is usable. */
  lemma ReachUsable(w: World, x: Id)
    requires Inv(w) && LinkReach(w.v.body, Roots(w), x)
    ensures x in Usable(w)
  {
    UsableClosed(w);
  }

  // ---------------------------------------------------------------------- the sweep

  function Without(l: seq<Id>, k: nat): seq<Id>
    requires k < |l|
  {
    l[..k] + l[k + 1..]
  }

  /** The graph without o; an open upvalue is unlinked from its thread first. */
  function Removed(B: Bodies, o: Id): Bodies
    requires o in B
  {
    (if B[o].OpenUp? && B[o].th in B && B[o].th != o && B[B[o].th].Thread?
     then B[B[o].th := B[B[o].th].(open := Minus(B[B[o].th].open, o))] else B) - {o}
  }

  /** The collector after the sweep has freed the object it was at. */
  function AfterFree(w: World, o: Id): World
    requires 0 < w.left <= |w.all| && w.all[|w.all| - w.left] == o && o in w.v.body
  {
    w.(v := w.v.(body := Removed(w.v.body, o), m := w.v.m.(color := w.v.m.color - {o}, debt := w.v.m.debt - 1)),
       all := Without(w.all, |w.all| - w.left), left := w.left - 1,
       sweepMark := if w.v.body[o].SweepMark? then Some(o) else w.sweepMark,
       doomed := w.doomed - {o})
  }

  lemma WithoutSize(l: seq<Id>, k: nat)
    requires k < |l|
    ensures |Without(l, k)| == |l| - 1
  {
  }

  lemma WithoutElems(l: seq<Id>, k: nat)
    requires NoDup(l) && k < |l|
    ensures NoDup(Without(l, k)) && Elems(Without(l, k)) == Elems(l) - {l[k]}
  {
    var r := Without(l, k);
    assert forall i | 0 <= i < |r| :: r[i] == if i < k then l[i] else l[i + 1];
    forall x | x in l && x != l[k] ensures x in r {
      var i :| 0 <= i < |l| && l[i] == x;
      assert x == if i < k then r[i] else r[i - 1];
    }
  }

  lemma RemovedTyped(B: Bodies, o: Id)
    requires Typed(B) && o in B && (B[o].Thread? ==> B[o].open == [])
    ensures Typed(Removed(B, o)) && Removed(B, o).Keys == B.Keys - {o}
    ensures forall x | x in Removed(B, o) ::
      && (B[x].Thread? ==> Removed(B, o)[x].Thread? && Removed(B, o)[x].stack == B[x].stack)
      && (!B[x].Thread? ==> Removed(B, o)[x] == B[x])
      && (IsUpVal(B[x]) ==> UpValue(Removed(B, o), Removed(B, o)[x]) == UpValue(B, B[x]))
  {
    var B' := Removed(B, o);
    assert TypedBody(B, o);
    forall x | x in B'
      ensures TypedBody(B', x)
      ensures IsUpVal(B[x]) ==> UpValue(B', B'[x]) == UpValue(B, B[x])
    {
      assert TypedBody(B, x);
    }
  }

  lemma RemovedPtrs(B: Bodies, o: Id, x: Id, S: set<Id>)
    requires Typed(B) && o in B && (B[o].Thread? ==> B[o].open == [])
    requires x in B && x != o && PtrsIn(B, B[x], S)
    ensures x in Removed(B, o) && PtrsIn(Removed(B, o), Removed(B, o)[x], S)
  {
    RemovedTyped(B, o);
    if B[x].Thread? && Removed(B, o)[x] != B[x] {
      var open, open' := B[x].open, Removed(B, o)[x].open;
      forall i | 0 <= i < |open'| ensures open'[i] in S {
        assert open'[i] in open;
      }
    }
  }

  lemma FreeKeepsUsable(w: World, o: Id)
    requires Base(w) && w.v.state == 3 && 0 < w.left <= |w.all| && w.all[|w.all| - w.left] == o
    requires o in Dead(w) && (w.v.body[o].Thread? ==> w.v.body[o].open == [])
    ensures var w' := AfterFree(w, o);
      && Dead(w') == Dead(w) - {o} && |Dead(w')| == |Dead(w)| - 1
      && Usable(w') == Usable(w) && Alive(w') == Alive(w)
      && Base(w')
  {
    hide Typed, Removed, NoDup, Without, AllKnown;
    RemovedKinds(w.v.body, o);
    RemovedKnown(w, o);
    WithoutElems(w.all, |w.all| - w.left);
    FreeSets(w, o);
    FreeStrings(w.v.body, o, w.stray);
    assert w.stray - {o} == w.stray;
    assert o !in Roots(w);
  }

  lemma RemovedKnown(w: World, o: Id)
    requires Typed(w.v.body) && AllKnown(w.v.body, w.known) && o in w.v.body
    requires w.v.body[o].Thread? ==> w.v.body[o].open == []
    ensures AllKnown(Removed(w.v.body, o), w.known) && o in w.known
  {
    RemovedKinds(w.v.body, o);
    hide Typed, Removed, PtrsIn;
    forall x | x in Removed(w.v.body, o) ensures PtrsIn(Removed(w.v.body, o), Removed(w.v.body, o)[x], w.known) {
      RemovedPtrs(w.v.body, o, x, w.known);
    }
  }

  lemma FreeSets(w: World, o: Id)
    requires w.v.state == 3 && 0 < w.left <= |w.all| && w.all[|w.all| - w.left] == o
    requires o in Dead(w) && o in w.v.body && Removed(w.v.body, o).Keys == w.v.body.Keys - {o}
    requires forall x | x in Removed(w.v.body, o) :: Removed(w.v.body, o)[x].SweepMark? == w.v.body[x].SweepMark?
    ensures var w' := AfterFree(w, o);
      Dead(w') == Dead(w) - {o} && |Dead(w')| == |Dead(w)| - 1 && Usable(w') == Usable(w) && Alive(w') == Alive(w)
  {
    hide Removed, Without;
    var w' := AfterFree(w, o);
    assert Dead(w') == Dead(w) - {o};
    assert Sentinels(w'.v.body) == Sentinels(w.v.body) - {o};
  }

  lemma RemovedKinds(B: Bodies, o: Id)
    requires Typed(B) && o in B && (B[o].Thread? ==> B[o].open == [])
    ensures Typed(Removed(B, o)) && Removed(B, o).Keys == B.Keys - {o}
    ensures forall x | x in Removed(B, o) :: Removed(B, o)[x].SweepMark? == B[x].SweepMark?
    ensures forall x | x in Removed(B, o) :: Removed(B, o)[x].Thread? == B[x].Thread?
  {
    RemovedTyped(B, o);
  }

  /** Freeing a dead object keeps the invariant and cannot drive the debt below zero. */
  lemma FreeOne(w: World, o: Id)
    requires Base(w) && Sweeping(w) && w.v.state == 3
    requires 0 < w.left && w.all[|w.all| - w.left] == o && o in Dead(w)
    requires w.v.body[o].Thread? ==> w.v.body[o].open == []
    ensures Base(AfterFree(w, o)) && Sweeping(AfterFree(w, o))
    ensures w.v.m.debt >= 1
  {
    hide Base, Typed, Removed, LivePtrs, ThreadsListed, Usable, NoDup, NoStrings, Without;
    BaseIs(w);
    var w' := AfterFree(w, o);
    FreeDebt(w, o);
    FreeKeepsUsable(w, o);
    RemovedKinds(w.v.body, o);
    FreePtrs(w, o);
    FreeThreads(w, o);
    FreePassed(w, o);
    FreeStrings(w.v.body, o, w.doomed);
  }

  lemma FreeStrings(B: Bodies, o: Id, D: set<Id>)
    requires Typed(B) && o in B && (B[o].Thread? ==> B[o].open == []) && NoStrings(B, D)
    ensures NoStrings(Removed(B, o), D - {o})
  {
    RemovedTyped(B, o);
  }

  lemma FreeDebt(w: World, o: Id)
    requires Sweeping(w) && 0 < w.left && w.all[|w.all| - w.left] == o && o in Dead(w)
    ensures w.v.m.debt >= 1
  {
    hide LivePtrs, ThreadsListed;
    assert {o} <= Dead(w);
    CardLe({o}, Dead(w));
  }

  lemma CardLe(s: set<Id>, t: set<Id>)
    requires s <= t
    ensures |s| <= |t|
  {
    assert t == s + (t - s);
  }

  lemma FreePtrs(w: World, o: Id)
    requires Base(w) && LivePtrs(w) && w.v.state == 3
    requires 0 < w.left <= |w.all| && w.all[|w.all| - w.left] == o && o in Dead(w)
    requires w.v.body[o].Thread? ==> w.v.body[o].open == []
    ensures LivePtrs(AfterFree(w, o))
  {
    var w' := AfterFree(w, o);
    FreeKeepsUsable(w, o);
    RemovedKinds(w.v.body, o);
    hide Typed, Removed, NoDup, Usable, Alive, PtrsIn, LinksIn;
    forall x | x in w'.v.body && x !in Dead(w') ensures LiveAt(w', x) {
      assert LiveAt(w, x);
      RemovedAt(w, o, x);
    }
  }

  lemma RemovedAt(w: World, o: Id, x: Id)
    requires Typed(w.v.body) && o in w.v.body && (w.v.body[o].Thread? ==> w.v.body[o].open == [])
    requires x in w.v.body && x != o
    ensures var B, B' := w.v.body, Removed(w.v.body, o);
      && x in B' && B'[x].Table? == B[x].Table?
      && (LinksIn(B, B[x], Usable(w)) ==> LinksIn(B', B'[x], Usable(w)))
      && (PtrsIn(B, B[x], Alive(w)) ==> PtrsIn(B', B'[x], Alive(w)))
  {
    RemovedTyped(w.v.body, o);
    hide Typed, PtrsIn, Removed, Usable, Alive;
    if PtrsIn(w.v.body, w.v.body[x], Usable(w)) {
      RemovedPtrs(w.v.body, o, x, Usable(w));
    }
    if PtrsIn(w.v.body, w.v.body[x], Alive(w)) {
      RemovedPtrs(w.v.body, o, x, Alive(w));
    }
  }

  lemma FreeThreads(w: World, o: Id)
    requires Typed(w.v.body) && ThreadsListed(w)
    requires 0 < w.left <= |w.all| && w.all[|w.all| - w.left] == o && o in Dead(w)
    requires o in w.v.body && (w.v.body[o].Thread? ==> w.v.body[o].open == [])
    requires Dead(AfterFree(w, o)) == Dead(w) - {o}
    ensures ThreadsListed(AfterFree(w, o))
  {
    hide Typed, Removed, Without, Dead;
    RemovedOpen(w.v.body, o);
    RemovedKinds(w.v.body, o);
  }

  lemma BaseIs(w: World)
    requires Base(w)
    ensures Typed(w.v.body) && Elems(w.all) == w.v.body.Keys == w.v.m.color.Keys && NoDup(w.all)
    ensures Roots(w) <= Usable(w) && AllKnown(w.v.body, w.known) && StrayOk(w)
  {
  }

  lemma RemovedOpen(B: Bodies, o: Id)
    requires Typed(B) && o in B && (B[o].Thread? ==> B[o].open == [])
    ensures forall x | x in Removed(B, o) && B[x].Thread? ::
      x in B && Removed(B, o)[x].Thread? && (B[x].open == [] ==> Removed(B, o)[x].open == [])
  {
    RemovedTyped(B, o);
    forall x | x in Removed(B, o) && B[x].Thread? && B[x].open == []
      ensures Removed(B, o)[x].open == []
    {
    }
  }

  lemma FreePassed(w: World, o: Id)
    requires Base(w) && Sweeping(w)
    requires 0 < w.left && w.all[|w.all| - w.left] == o && o in Dead(w)
    ensures var w' := AfterFree(w, o);
      && |w'.all| == |w.all| - 1
      && (forall i | 0 <= i < |w'.all| - w'.left ::
            w'.all[i] in w'.v.m.color && w'.v.m.color[w'.all[i]] == White(w'.v.cw))
  {
    hide Typed, Removed, LivePtrs, ThreadsListed;
  }

  /** The collector after the sweep has passed a survivor. */
  function AfterKeep(w: World, o: Id): World
    requires w.left > 0
  {
    w.(v := w.v.(m := w.v.m.(color := w.v.m.color[o := White(w.v.cw)])),
       left := w.left - 1, survivors := w.survivors + 1)
  }

  /** Recolouring that kills and revives nobody. */
  lemma Recolored(w: World, w': World)
    requires w' == w.(v := w.v.(m := w'.v.m), left := w'.left, survivors := w'.survivors)
    requires w'.v.m.color.Keys == w.v.m.color.Keys && Dead(w') == Dead(w) && w.v.state == 3
    ensures Usable(w') == Usable(w) && Alive(w') == Alive(w)
    ensures Base(w) ==> Base(w')
    ensures LivePtrs(w) ==> LivePtrs(w')
    ensures ThreadsListed(w) ==> ThreadsListed(w')
  {
    hide Typed, PtrsIn, NoDup, Dead, AllKnown;
  }

  lemma KeepDead(w: World, o: Id)
    requires w.left > 0 && o in w.v.m.color && o !in Dead(w)
    ensures Dead(AfterKeep(w, o)) == Dead(w)
  {
  }

  lemma KeepOne(w: World, o: Id)
    requires Base(w) && Sweeping(w) && w.v.state == 3
    requires 0 < w.left && w.all[|w.all| - w.left] == o && o !in Dead(w)
    ensures Base(AfterKeep(w, o)) && Sweeping(AfterKeep(w, o))
    ensures Dead(AfterKeep(w, o)) == Dead(w)
  {
    hide Base, Dead, Usable, LivePtrs, ThreadsListed;
    BaseIs(w);
    assert o in Elems(w.all);
    KeepDead(w, o);
    Recolored(w, AfterKeep(w, o));
  }

  /** What closing an open upvalue does to the graph: it leaves its thread's list and takes the value
      of its slot along. */
  function Closed(B: Bodies, u: Id): Bodies
    requires u in B && B[u].OpenUp? && B[u].th in B && B[B[u].th].Thread?
  {
    var th := B[u].th;
    B[th := B[th].(open := Minus(B[th].open, u))][u := ClosedUp(UpValue(B, B[u]))]
  }

  lemma ClosedOwner(B: Bodies, u: Id)
    requires Typed(B) && u in B && B[u].OpenUp?
    ensures B[u].th in B && B[B[u].th].Thread? && B[u].th != u && u in B[B[u].th].open
  {
    assert TypedBody(B, u);
  }

  lemma TypedAll(B: Bodies)
    requires forall x | x in B :: TypedBody(B, x)
    ensures Typed(B)
  {
  }

  lemma ClosedOne(B: Bodies, u: Id, x: Id)
    requires Typed(B) && u in B && B[u].OpenUp? && x in B
    ensures B[u].th in B && B[B[u].th].Thread?
    ensures TypedBody(Closed(B, u), x)
    ensures IsUpVal(B[x]) ==>
      IsUpVal(Closed(B, u)[x]) && UpValue(Closed(B, u), Closed(B, u)[x]) == UpValue(B, B[x])
  {
    assert TypedBody(B, u) && TypedBody(B, x) && TypedBody(B, B[u].th);
    if B[x].OpenUp? && x != u {
      assert TypedBody(B, B[x].th);
    }
  }

  lemma ClosedTyped(B: Bodies, u: Id)
    requires Typed(B) && u in B && B[u].OpenUp?
    ensures B[u].th in B && B[B[u].th].Thread? && B[u].th != u
    ensures var B' := Closed(B, u);
      && Typed(B') && B'.Keys == B.Keys
      && (forall x | x in B && x != u && !B[x].Thread? :: B'[x] == B[x])
      && (forall x | x in B && B[x].Thread? :: B'[x].Thread? && B'[x].stack == B[x].stack)
      && (forall x | x in B && x != B[u].th && B[x].Thread? :: B'[x] == B[x])
      && (forall x | x in B && IsUpVal(B[x]) :: IsUpVal(B'[x]) && UpValue(B', B'[x]) == UpValue(B, B[x]))
  {
    hide Typed, TypedBody;
    ClosedOwner(B, u);
    forall x | x in B
      ensures TypedBody(Closed(B, u), x)
      ensures IsUpVal(B[x]) ==>
        IsUpVal(Closed(B, u)[x]) && UpValue(Closed(B, u), Closed(B, u)[x]) == UpValue(B, B[x])
    {
      ClosedOne(B, u, x);
    }
    TypedAll(Closed(B, u));
  }

  lemma ClosedPtrs(B: Bodies, u: Id, x: Id, S: set<Id>)
    requires Typed(B) && u in B && B[u].OpenUp? && x in B && PtrsIn(B, B[x], S)
    ensures B[u].th in B && B[B[u].th].Thread?
    ensures PtrsIn(Closed(B, u), Closed(B, u)[x], S)
  {
    ClosedTyped(B, u);
    var th := B[u].th;
    if x == th {
      var open, open' := B[th].open, Closed(B, u)[th].open;
      forall i | 0 <= i < |open'| ensures open'[i] in S {
        assert open'[i] in open;
      }
    }
  }

  lemma ClosedOpen(B: Bodies, u: Id)
    requires Typed(B) && u in B && B[u].OpenUp?
    ensures B[u].th in B && B[B[u].th].Thread? && u in B[B[u].th].open
    ensures |Closed(B, u)[B[u].th].open| < |B[B[u].th].open|
    ensures forall x | x in B && B[x].Thread? && B[x].open == [] :: Closed(B, u)[x].Thread? && Closed(B, u)[x].open == []
  {
    ClosedTyped(B, u);
    assert TypedBody(B, u);
    MinusShorter(B[B[u].th].open, u);
  }

  lemma MinusShorter(l: seq<Id>, x: Id)
    ensures |Minus(l, x)| <= |l| && (x in l ==> |Minus(l, x)| < |l|)
  {
  }

  function AfterClose(w: World, u: Id, c: Color): World
    requires u in w.v.body && w.v.body[u].OpenUp?
    requires w.v.body[u].th in w.v.body && w.v.body[w.v.body[u].th].Thread?
  {
    w.(v := w.v.(body := Closed(w.v.body, u), m := w.v.m.(color := w.v.m.color[u := c])))
  }

  lemma CloseSets(w: World, u: Id, c: Color)
    requires Typed(w.v.body) && u in w.v.body && w.v.body[u].OpenUp? && w.v.state > 1
    requires u in w.v.m.color && (c == White(!w.v.cw) <==> w.v.m.color[u] == White(!w.v.cw))
    ensures w.v.body[u].th in w.v.body && w.v.body[w.v.body[u].th].Thread?
    ensures Dead(AfterClose(w, u, c)) == Dead(w) && Usable(AfterClose(w, u, c)) == Usable(w)
    ensures Alive(AfterClose(w, u, c)) == Alive(w)
  {
    ClosedTyped(w.v.body, u);
    hide Typed, UpValue;
    var w' := AfterClose(w, u, c);
    assert Dead(w') == Dead(w);
    ClosedMarks(w.v.body, u);
  }

  lemma ClosedMarks(B: Bodies, u: Id)
    requires u in B && B[u].OpenUp? && B[u].th in B && B[B[u].th].Thread?
    ensures Closed(B, u).Keys == B.Keys && Sentinels(Closed(B, u)) == Sentinels(B)
  {
  }

  lemma ClosePtrs(w: World, u: Id, c: Color)
    requires Typed(w.v.body) && u in w.v.body && w.v.body[u].OpenUp? && LivePtrs(w)
    requires w.v.body[u].th in w.v.body && w.v.body[w.v.body[u].th].Thread?
    requires Dead(AfterClose(w, u, c)) == Dead(w) && Usable(AfterClose(w, u, c)) == Usable(w)
    requires Alive(AfterClose(w, u, c)) == Alive(w)
    ensures LivePtrs(AfterClose(w, u, c))
  {
    ClosedTyped(w.v.body, u);
    hide Typed, Closed, UpValue, PtrsIn, LinksIn, Dead, Usable, Alive;
    var w' := AfterClose(w, u, c);
    forall x | x in w'.v.body && x !in Dead(w') ensures LiveAt(w', x) {
      assert LiveAt(w, x);
      ClosedAt(w, u, x);
    }
  }

  lemma ClosedAt(w: World, u: Id, x: Id)
    requires Typed(w.v.body) && u in w.v.body && w.v.body[u].OpenUp? && x in w.v.body
    ensures w.v.body[u].th in w.v.body && w.v.body[w.v.body[u].th].Thread?
    ensures var B, B' := w.v.body, Closed(w.v.body, u);
      && x in B' && B'[x].Table? == B[x].Table?
      && (LinksIn(B, B[x], Usable(w)) ==> LinksIn(B', B'[x], Usable(w)))
      && (PtrsIn(B, B[x], Alive(w)) ==> PtrsIn(B', B'[x], Alive(w)))
  {
    ClosedTyped(w.v.body, u);
    hide Typed, PtrsIn, LinksIn, Usable, Alive;
    if LinksIn(w.v.body, w.v.body[x], Usable(w)) {
      ClosedLinks(w.v.body, u, x, Usable(w));
    }
    if PtrsIn(w.v.body, w.v.body[x], Alive(w)) {
      ClosedPtrs(w.v.body, u, x, Alive(w));
    }
  }

  lemma ClosedLinks(B: Bodies, u: Id, x: Id, S: set<Id>)
    requires Typed(B) && u in B && B[u].OpenUp? && x in B && LinksIn(B, B[x], S)
    ensures B[u].th in B && B[B[u].th].Thread?
    ensures LinksIn(Closed(B, u), Closed(B, u)[x], S)
  {
    ClosedTyped(B, u);
    if !B[x].Table? {
      ClosedPtrs(B, u, x, S);
    }
  }

  lemma CloseThreads(w: World, u: Id, c: Color)
    requires Typed(w.v.body) && u in w.v.body && w.v.body[u].OpenUp? && ThreadsListed(w)
    requires w.v.body[u].th in w.v.body && w.v.body[w.v.body[u].th].Thread?
    requires Dead(AfterClose(w, u, c)) == Dead(w)
    ensures ThreadsListed(AfterClose(w, u, c))
  {
    ClosedTyped(w.v.body, u);
    ClosedOpen(w.v.body, u);
    hide Typed, Closed, UpValue, Dead;
  }

  lemma CloseBase(w: World, u: Id, c: Color)
    requires Base(w) && u in w.v.body && w.v.body[u].OpenUp?
    requires w.v.body[u].th in w.v.body && w.v.body[w.v.body[u].th].Thread?
    requires Usable(AfterClose(w, u, c)) == Usable(w) && Dead(AfterClose(w, u, c)) == Dead(w)
    ensures Base(AfterClose(w, u, c))
  {
    ClosedTyped(w.v.body, u);
    CloseKnown(w, u);
    hide Typed, Closed, NoDup, Usable, AllKnown, Dead;
  }

  lemma CloseKnown(w: World, u: Id)
    requires Typed(w.v.body) && AllKnown(w.v.body, w.known) && u in w.v.body && w.v.body[u].OpenUp?
    ensures w.v.body[u].th in w.v.body && w.v.body[w.v.body[u].th].Thread?
    ensures AllKnown(Closed(w.v.body, u), w.known)
  {
    ClosedKeys(w.v.body, u);
    hide Typed, Closed, PtrsIn;
    var B' := Closed(w.v.body, u);
    forall x | x in B' ensures PtrsIn(B', B'[x], w.known) {
      ClosedPtrs(w.v.body, u, x, w.known);
    }
  }

  /** Closing an upvalue while sweeping. */
  lemma CloseSweeping(w: World, u: Id, c: Color)
    requires Base(w) && Sweeping(w) && w.v.state == 3
    requires u in w.v.body && w.v.body[u].OpenUp?
    requires u in w.v.m.color
    requires w.v.m.color[u].White? ==> c == w.v.m.color[u]
    requires c == White(!w.v.cw) ==> w.v.m.color[u] == c
    ensures w.v.body[u].th in w.v.body && w.v.body[w.v.body[u].th].Thread?
    ensures Base(AfterClose(w, u, c)) && Sweeping(AfterClose(w, u, c))
    ensures Dead(AfterClose(w, u, c)) == Dead(w) && Usable(AfterClose(w, u, c)) == Usable(w)
  {
    hide Base, Dead, Usable, LivePtrs, ThreadsListed, Typed, Closed, NoStrings;
    BaseIs(w);
    CloseSets(w, u, c);
    ClosePtrs(w, u, c);
    CloseThreads(w, u, c);
    CloseBase(w, u, c);
    ClosedStrings(w.v.body, u, w.doomed);
  }

  lemma ClosedStrings(B: Bodies, u: Id, D: set<Id>)
    requires Typed(B) && u in B && B[u].OpenUp? && NoStrings(B, D)
    ensures B[u].th in B && B[B[u].th].Thread? && NoStrings(Closed(B, u), D)
  {
    ClosedTyped(B, u);
  }

  /** The sweep has run to the end of the list. */
  lemma SweepEnds(w: World)
    requires Base(w) && Sweeping(w) && w.v.state == 3 && w.left == 0
    ensures var w' := w.(v := w.v.(state := 8, m := w.v.m.(debt := w.v.m.debt + w.survivors)));
      Base(w') && Idle(w')
  {
    hide Typed, PtrsIn, NoDup;
    var w' := w.(v := w.v.(state := 8, m := w.v.m.(debt := w.v.m.debt + w.survivors)));
    forall x | x in w.v.m.color ensures w.v.m.color[x] == White(w.v.cw) {
      assert x in Elems(w.all);
    }
    assert Dead(w) == {};
    assert Dead(w') == {};
    assert Usable(w') == Usable(w);
    assert Alive(w') == Alive(w);
  }

  /** A live object the sweep leaves as it was: an upvalue may be closed, but keeps its value. */
  ghost predicate Same(B: Bodies, B': Bodies, x: Id) {
    && x in B && x in B'
    && if IsUpVal(B[x]) then IsUpVal(B'[x]) && UpValue(B', B'[x]) == UpValue(B, B[x]) else B'[x] == B[x]
  }

  ghost predicate SameLive(B: Bodies, B': Bodies, D: set<Id>) {
    forall x | x in B && x !in D :: Same(B, B', x)
  }

  lemma SameLiveTrans(B0: Bodies, B1: Bodies, B2: Bodies, D: set<Id>, D1: set<Id>)
    requires SameLive(B0, B1, D) && SameLive(B1, B2, D1) && D1 <= D
    ensures SameLive(B0, B2, D)
  {
    forall x | x in B0 && x !in D ensures Same(B0, B2, x) {
      assert Same(B0, B1, x) && Same(B1, B2, x);
    }
  }

  lemma LiveOpen(w: World, th: Id)
    requires LivePtrs(w) && w.v.state == 3 && th in w.v.body && w.v.body[th].Thread?
    ensures th !in Dead(w) ==> forall i | 0 <= i < |w.v.body[th].open| :: w.v.body[th].open[i] !in Dead(w)
  {
    assert th !in Dead(w) ==> LiveAt(w, th);
  }

  /** The thread of a dead open upvalue is dead: a live one would keep the upvalue alive. */
  lemma DeadOwner(w: World, u: Id)
    requires Typed(w.v.body) && LivePtrs(w) && w.v.state == 3
    requires u in w.v.body && w.v.body[u].OpenUp? && u in Dead(w)
    ensures w.v.body[u].th in w.v.body && w.v.body[w.v.body[u].th].Thread? && w.v.body[u].th in Dead(w)
  {
    assert TypedBody(w.v.body, u);
    LiveOpen(w, w.v.body[u].th);
    hide Typed, LivePtrs, Dead;
  }

  lemma FreeSame(w: World, o: Id, x: Id)
    requires Typed(w.v.body) && LivePtrs(w) && w.v.state == 3
    requires o in w.v.body && o in Dead(w) && (w.v.body[o].Thread? ==> w.v.body[o].open == [])
    requires x in w.v.body && x !in Dead(w)
    ensures Same(w.v.body, Removed(w.v.body, o), x)
  {
    RemovedTyped(w.v.body, o);
    if w.v.body[o].OpenUp? {
      DeadOwner(w, o);
    }
  }

  lemma CloseSame(B: Bodies, u: Id, x: Id)
    requires Typed(B) && u in B && B[u].OpenUp? && x in B && x != B[u].th
    ensures B[u].th in B && B[B[u].th].Thread?
    ensures Same(B, Closed(B, u), x)
  {
    ClosedTyped(B, u);
  }

  lemma FreeParts(w: World, o: Id)
    requires Base(w) && Sweeping(w) && w.v.state == 3
    requires 0 < w.left && w.all[|w.all| - w.left] == o && o in Dead(w)
    requires w.v.body[o].Thread? ==> w.v.body[o].open == []
    ensures Dead(AfterFree(w, o)) == Dead(w) - {o}
    ensures AfterFree(w, o).v.body.Keys == w.v.body.Keys - {o}
    ensures SameLive(w.v.body, Removed(w.v.body, o), Dead(w))
  {
    hide Same, Removed;
    FreeKeepsUsable(w, o);
    RemovedKinds(w.v.body, o);
    forall x | x in w.v.body && x !in Dead(w) ensures Same(w.v.body, Removed(w.v.body, o), x) {
      FreeSame(w, o, x);
    }
  }

  lemma CloseSameLive(B: Bodies, u: Id, D: set<Id>)
    requires Typed(B) && u in B && B[u].OpenUp? && B[u].th in D
    ensures B[u].th in B && B[B[u].th].Thread?
    ensures SameLive(B, Closed(B, u), D)
  {
    ClosedTyped(B, u);
    hide Same, Closed;
    forall x | x in B && x !in D ensures Same(B, Closed(B, u), x) {
      CloseSame(B, u, x);
    }
  }

  lemma SweepInv(w: World)
    requires w.v.state == 3
    ensures Inv(w) <==> Base(w) && Sweeping(w)
  {
  }

  lemma ClosedKeys(B: Bodies, u: Id)
    requires Typed(B) && u in B && B[u].OpenUp?
    ensures B[u].th in B && B[B[u].th].Thread? && Closed(B, u).Keys == B.Keys
  {
    ClosedTyped(B, u);
  }

  /** o is the dead object the sweep is at, and nothing but the sweep refers to it. */
  ghost predicate CanFree(w: World, o: Id) {
    && Inv(w) && w.v.state == 3 && 0 < w.left <= |w.all| && w.all[|w.all| - w.left] == o
    && o in Dead(w) && o in w.v.body && (w.v.body[o].Thread? ==> w.v.body[o].open == [])
  }

  /** Everything there is to say about freeing the dead object the sweep is at. */
  lemma FreeStep(w: World, o: Id)
    requires CanFree(w, o)
    ensures var w' := AfterFree(w, o);
      && Inv(w') && w'.left <= |w'.all| == |w.all| - 1 && w'.v.body.Keys == w.v.body.Keys - {o}
      && Dead(w') == Dead(w) - {o} && SameLive(w.v.body, w'.v.body, Dead(w))
    ensures w.v.m.debt >= 1
  {
    hide Base, Sweeping, Removed, Dead, SameLive, Without, Usable;
    FreeOne(w, o);
    FreeParts(w, o);
    WithoutSize(w.all, |w.all| - w.left);
    SweepInv(AfterFree(w, o));
    assert Sweeping(AfterFree(w, o));
    SweepLeft(AfterFree(w, o));
  }

  lemma SweepLeft(w: World)
    requires Sweeping(w)
    ensures w.left <= |w.all|
  {
  }

  ghost predicate FreedAs(w: World, w': World, o: Id) {
    CanFree(w, o) && w' == AfterFree(w, o)
  }

  lemma FreedHere(w: World, o: Id)
    requires CanFree(w, o)
    ensures FreedAs(w, AfterFree(w, o), o)
    ensures w.v.m.debt >= 1
  {
    FreeStep(w, o);
  }

  lemma FreedIs(w: World, w': World, o: Id)
    requires FreedAs(w, w', o)
    ensures Inv(w') && w'.left == w.left - 1 && w'.left <= |w'.all| == |w.all| - 1 && w'.v.body.Keys == w.v.body.Keys - {o}
    ensures Dead(w') == Dead(w) - {o} && SameLive(w.v.body, w'.v.body, Dead(w)) && w'.doomed == w.doomed - {o}
  {
    FreeStep(w, o);
  }
}
