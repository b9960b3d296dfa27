/** What the program may do between two steps of the collector, and why the invariant survives it. */
module GcMutator {
  import opened Basics
  import opened GcHeap
  import opened GcGrow
  import opened GcPhase
  import opened GcWorld

  // ---------------------------------------------------------------------- a store in general

  /** B' has the objects of B, with the same strings and sentinels. */
  ghost predicate SameSorts(B: Bodies, B': Bodies) {
    && B.Keys == B'.Keys
    && forall x | x in B :: B'[x].Str? == B[x].Str? && B'[x].SweepMark? == B[x].SweepMark?
  }

  /** A graph in which what the program can use is still closed bounds marking as before. */
  lemma StoreBounded(v: View, B': Bodies, S: set<Id>, X: set<Id>, X': set<Id>)
    requires Bounded(v, S, X) && SameSorts(v.body, B')
    requires Typed(B') && Grounded(B', S) && LinkClosed(B', S)
    ensures Bounded(v.(body := B'), S, X')
  {
    assert HasStrings(B', S);
    LinkClosedBounds(B', S, X');
    hide Typed, Grounded, LinkClosed, LeafClosed, StrongClosed, Whites, Marked;
  }

  lemma StoreMarking(w: World, w': World)
    requires Marking(w) && w' == w.(v := w.v.(body := w'.v.body), lost := w'.lost) && w.v.state <= 1
    requires w'.v.body.Keys == w.v.body.Keys
    requires Bounded(w'.v, Usable(w), w'.lost) && LinkClosed(w'.v.body, Usable(w))
    requires Tri(w'.v, multiset{}, {}) && Lists(w'.v, w'.lost) && Threads(w'.v, {})
    ensures Marking(w')
  {
    hide Bounded, LinkClosed, Tri, Lists, Threads, Single, Marked;
    assert Listed(w'.v, multiset{}) == Listed(w.v, multiset{});
    hide Listed;
  }

  // ---------------------------------------------------------------------- rewriting one object

  ghost predicate SameKind(b: Body, b': Body) {
    || (b.Table? && b'.Table?) || (b.Func? && b'.Func?)
    || (b.ClosedUp? && b'.ClosedUp?) || (b.UserData? && b'.UserData?)
  }

  /** b' holds no pointer and no link that is not among those of b or in E. */
  ghost predicate Narrow(B: Bodies, b: Body, b': Body, E: set<Id>) {
    forall S: set<Id> | E <= S ::
      && (PtrsIn(B, b, S) ==> PtrsIn(B, b', S))
      && (LinksIn(B, b, S) ==> LinksIn(B, b', S))
  }

  ghost predicate CanRewrite(w: World, o: Id, b': Body, E: set<Id>) {
    && o in w.v.body && SameKind(w.v.body[o], b')
    && TypedBody(w.v.body[o := b'], o)
    && Narrow(w.v.body, w.v.body[o], b', E)
    && E <= Usable(w)
  }

  /** The tables put aside as all-weak whose metatable no longer is what it was then. */
  ghost function Strayed(v: View): set<Id> {
    if v.state <= 1 then set t | t in v.allWeak && !KeptOk(v.body, v.m.color, t) else {}
  }

  /** The collector after object o got body b'. */
  ghost function AfterRewrite(w: World, o: Id, b': Body): World {
    var v' := w.v.(body := w.v.body[o := b']);
    w.(v := v', lost := w.lost + Strayed(v'))
  }

  lemma RewritePtrs(B: Bodies, o: Id, b': Body, b: Body, S: set<Id>)
    requires o in B && SameKind(B[o], b')
    ensures PtrsIn(B[o := b'], b, S) <==> PtrsIn(B, b, S)
    ensures LinksIn(B[o := b'], b, S) <==> LinksIn(B, b, S)
  {
  }

  lemma RewriteTyped(B: Bodies, o: Id, b': Body)
    requires Typed(B) && o in B && SameKind(B[o], b') && TypedBody(B[o := b'], o)
    ensures Typed(B[o := b'])
  {
    var B' := B[o := b'];
    forall x | x in B' ensures TypedBody(B', x) {
      if x != o {
        assert TypedBody(B, x);
      }
    }
  }

  lemma RewriteLinkClosed(w: World, o: Id, b': Body, E: set<Id>, S: set<Id>)
    requires CanRewrite(w, o, b', E) && LinkClosed(w.v.body, S) && E <= S
    ensures LinkClosed(w.v.body[o := b'], S)
  {
    var B' := w.v.body[o := b'];
    forall x | x in B' && x in S ensures LinksIn(B', B'[x], S) {
      RewritePtrs(w.v.body, o, b', B'[x], S);
    }
  }

  lemma LinkStrong(B: Bodies, b: Body, S: set<Id>)
    requires LinksIn(B, b, S)
    ensures StrongIn(B, b, S)
  {
    if b.Table? {
      forall i | 0 <= i < |b.nodes| ensures StrongNode(ModeOf(B, b), b.nodes[i], S) {
      }
    }
  }

  /** A link-closed set that holds the strings bounds what marking can reach. */
  lemma LinkClosedBounds(B: Bodies, S: set<Id>, X: set<Id>)
    requires LinkClosed(B, S) && HasStrings(B, S)
    ensures StrongClosed(B, S, X) && LeafClosed(B, S)
  {
    forall x | x in B && x in S ensures StrongIn(B, B[x], S) {
      LinkStrong(B, B[x], S);
    }
  }

  lemma RewriteBounded(w: World, o: Id, b': Body, E: set<Id>, S: set<Id>, X: set<Id>, X': set<Id>)
    requires CanRewrite(w, o, b', E) && Bounded(w.v, S, X) && LinkClosed(w.v.body, S) && E <= S
    ensures Bounded(w.v.(body := w.v.body[o := b']), S, X')
  {
    BoundedIs(w.v, S, X);
    RewriteTyped(w.v.body, o, b');
    RewriteLinkClosed(w, o, b', E, S);
    RewriteGrounded(w, o, b', E, S);
    assert SameSorts(w.v.body, w.v.body[o := b']);
    hide Bounded, Typed, Grounded, LinkClosed, Narrow;
    StoreBounded(w.v, w.v.body[o := b'], S, X, X');
  }

  lemma RewriteGrounded(w: World, o: Id, b': Body, E: set<Id>, S: set<Id>)
    requires CanRewrite(w, o, b', E) && Grounded(w.v.body, S) && E <= w.v.body.Keys
    ensures Grounded(w.v.body[o := b'], S)
  {
    var B, B' := w.v.body, w.v.body[o := b'];
    assert B'.Keys == B.Keys;
    NarrowPtrs(B, B[o], b', E, B.Keys);
    hide Narrow, PtrsIn;
    forall x | x in B' && x in S ensures PtrsIn(B', B'[x], B'.Keys) {
      RewritePtrs(B, o, b', B'[x], B.Keys);
    }
  }

  lemma NarrowPtrs(B: Bodies, b: Body, b': Body, E: set<Id>, S: set<Id>)
    requires Narrow(B, b, b', E) && E <= S
    ensures PtrsIn(B, b, S) ==> PtrsIn(B, b', S)
    ensures LinksIn(B, b, S) ==> LinksIn(B, b', S)
  {
  }

  lemma RewriteTri(w: World, o: Id, b': Body, E: set<Id>)
    requires CanRewrite(w, o, b', E) && Tri(w.v, multiset{}, {})
    requires o in w.v.m.color && (w.v.m.color[o].Black? ==> E <= Marked(w.v.m.color))
    ensures Tri(w.v.(body := w.v.body[o := b']), multiset{}, {})
  {
    var B, B', M := w.v.body, w.v.body[o := b'], Marked(w.v.m.color);
    forall x | x in B' && x in w.v.m.color && w.v.m.color[x].Black? ensures PtrsIn(B', B'[x], M) {
      assert PtrsIn(B, B[x], M);
      if x == o {
        NarrowPtrs(B, B[o], b', E, M);
      }
      RewritePtrs(B, o, b', B'[x], M);
    }
    hide PtrsIn, Narrow;
  }

  lemma RewriteThreads(v: View, o: Id, b': Body)
    requires o in v.body && SameKind(v.body[o], b') && Threads(v, {}) && !v.remarked
    ensures Threads(v.(body := v.body[o := b']), {})
  {
  }

  lemma RewriteLists(v: View, o: Id, b': Body, X: set<Id>)
    requires o in v.body && SameKind(v.body[o], b') && Lists(v, X) && v.state <= 1
    ensures Lists(v.(body := v.body[o := b']), X + Strayed(v.(body := v.body[o := b'])))
  {
  }

  lemma RewriteMarking(w: World, o: Id, b': Body, E: set<Id>)
    requires Base(w) && Marking(w) && w.v.state <= 1 && CanRewrite(w, o, b', E)
    requires w.v.m.color[o].Black? ==> E <= Marked(w.v.m.color)
    ensures Marking(AfterRewrite(w, o, b')) && Usable(AfterRewrite(w, o, b')) == Usable(w)
  {
    hide Bounded, Tri, Lists, Threads, LinkClosed, CanRewrite, Strayed, Base, Single, Marked;
    var S, w' := Usable(w), AfterRewrite(w, o, b');
    BaseIs(w);
    RewriteIs(w, o, b', E);
    RewriteBounded(w, o, b', E, S, w.lost, w'.lost);
    RewriteLinkClosed(w, o, b', E, S);
    RewriteTri(w, o, b', E);
    RewriteLists(w.v, o, b', w.lost);
    NotRemarked(w.v, w.lost);
    RewriteThreads(w.v, o, b');
    StoreMarking(w, w');
  }

  lemma NotRemarked(v: View, X: set<Id>)
    requires Lists(v, X) && v.state <= 1
    ensures !v.remarked
  {
  }

  lemma RewriteIs(w: World, o: Id, b': Body, E: set<Id>)
    requires CanRewrite(w, o, b', E)
    ensures o in w.v.body && SameKind(w.v.body[o], b') && TypedBody(w.v.body[o := b'], o) && E <= Usable(w)
    ensures SameSorts(w.v.body, w.v.body[o := b'])
    ensures w.v.body[o := b'].Keys == w.v.body.Keys
    ensures Sentinels(w.v.body[o := b']) == Sentinels(w.v.body)
    ensures NoStrings(w.v.body, w.doomed) ==> NoStrings(w.v.body[o := b'], w.doomed)
  {
  }

  /** In states 3 and 8 no colour matters to a store. */
  lemma RewriteLive(w: World, o: Id, b': Body, E: set<Id>)
    requires CanRewrite(w, o, b', E) && w.v.state > 1
    ensures LivePtrs(w) ==> LivePtrs(AfterRewrite(w, o, b'))
    ensures ThreadsListed(w) ==> ThreadsListed(AfterRewrite(w, o, b'))
    ensures Usable(AfterRewrite(w, o, b')) == Usable(w) && Dead(AfterRewrite(w, o, b')) == Dead(w)
    ensures AfterRewrite(w, o, b').lost == w.lost
  {
    hide PtrsIn, LinksIn, Narrow;
    RewriteIs(w, o, b', E);
    var w' := AfterRewrite(w, o, b');
    assert Alive(w') == Alive(w);
    assert Usable(w') == Usable(w);
    if LivePtrs(w) {
      forall x | x in w'.v.body && x !in Dead(w') ensures LiveAt(w', x) {
        assert LiveAt(w, x);
        if x == o {
          NarrowPtrs(w.v.body, w.v.body[o], b', E, Usable(w));
          NarrowPtrs(w.v.body, w.v.body[o], b', E, Alive(w));
        }
        RewritePtrs(w.v.body, o, b', w'.v.body[x], Usable(w));
        RewritePtrs(w.v.body, o, b', w'.v.body[x], Alive(w));
      }
    }
  }

  lemma RewriteBase(w: World, o: Id, b': Body, E: set<Id>)
    requires Base(w) && CanRewrite(w, o, b', E)
    requires Usable(AfterRewrite(w, o, b')) == Usable(w)
    ensures Base(AfterRewrite(w, o, b'))
  {
    RewriteIs(w, o, b', E);
    RewriteTyped(w.v.body, o, b');
    RewriteKnown(w, o, b', E);
    hide Typed, CanRewrite, Usable, NoDup, SameKind, Strayed, AllKnown;
  }

  lemma RewriteKnown(w: World, o: Id, b': Body, E: set<Id>)
    requires CanRewrite(w, o, b', E) && AllKnown(w.v.body, w.known)
    ensures AllKnown(w.v.body[o := b'], w.known)
  {
    var B, B', K := w.v.body, w.v.body[o := b'], w.known;
    assert E <= K;
    NarrowPtrs(B, B[o], b', E, K);
    hide Narrow, PtrsIn;
    forall x | x in B' ensures PtrsIn(B', B'[x], K) {
      RewritePtrs(B, o, b', B'[x], K);
    }
  }

  lemma RewriteInv(w: World, o: Id, b': Body, E: set<Id>)
    requires Inv(w) && CanRewrite(w, o, b', E)
    requires w.v.state <= 1 && o in w.v.m.color && w.v.m.color[o].Black? ==> E <= Marked(w.v.m.color)
    ensures Inv(AfterRewrite(w, o, b'))
  {
    hide Base, Marking, LivePtrs, ThreadsListed, CanRewrite, Usable, Dead;
    BaseIs(w);
    if w.v.state <= 1 {
      assert o in w.v.body by { RewriteIs(w, o, b', E); }
      RewriteMarking(w, o, b', E);
      RewriteBase(w, o, b', E);
    } else {
      RewriteIs(w, o, b', E);
      RewriteLive(w, o, b', E);
      RewriteBase(w, o, b', E);
    }
  }

  // ---------------------------------------------------------------------- barriers

  /** The forward barrier while marking. */
  lemma BarrierMarking(w: World, m: Marks)
    requires Base(w) && Marking(w) && w.v.state <= 1 && Burst(w.v.body, w.v.m, m, Usable(w))
    ensures var w' := w.(v := w.v.(m := m)); Base(w') && Marking(w')
  {
    hide Phase, Typed, LinkClosed, Burst, NoDup, AllKnown;
    BurstPhase(w.v, m, Usable(w), w.lost, multiset{}, {});
    BurstMarked(w.v.body, w.v.m, m, Usable(w));
  }

  lemma RepaintDead(w: World, w': World, o: Id, c: Color)
    requires o in w.v.m.color && w.v.m.color[o].Black? && c != White(!w.v.cw)
    requires w'.v.cw == w.v.cw && w'.v.m.color == w.v.m.color[o := c]
    ensures Dead(w') == Dead(w) && w'.v.m.color.Keys == w.v.m.color.Keys
  {
    assert Dead(w') == Dead(w);
  }

  /** The forward barrier while sweeping, and the backward one then: the holder is repainted. */
  lemma Repaint(w: World, o: Id, c: Color)
    requires Base(w) && Sweeping(w) && w.v.state == 3 && o in w.v.m.color && w.v.m.color[o].Black?
    requires c != White(!w.v.cw)
    ensures var w' := w.(v := w.v.(m := w.v.m.(color := w.v.m.color[o := c]))); Base(w') && Sweeping(w')
  {
    hide Base, Usable, LivePtrs, ThreadsListed, Dead, NoStrings;
    BaseIs(w);
    var w' := w.(v := w.v.(m := w.v.m.(color := w.v.m.color[o := c])));
    RepaintDead(w, w', o, c);
    Recolored(w, w');
  }

  /** The list `grayagain` does not matter to the sweep. */
  lemma AgainIdle(w: World, again: seq<Id>)
    requires Base(w) && Sweeping(w) && w.v.state == 3
    ensures var w' := w.(v := w.v.(again := again)); Base(w') && Sweeping(w')
  {
    hide Typed, PtrsIn, NoDup, AllKnown;
    var w' := w.(v := w.v.(again := again));
    assert Usable(w') == Usable(w);
  }

  /** The backward barrier while marking. */
  lemma BackMarking(w: World, o: Id)
    requires Base(w) && Marking(w) && w.v.state <= 1
    requires o in w.v.body && w.v.m.color[o].Black? && (w.v.body[o].Table? || w.v.body[o].Func?)
    ensures var w' := w.(v := Link(w.v, GrayAgain, o)); Base(w') && Marking(w')
    ensures Marked(Link(w.v, GrayAgain, o).m.color) == Marked(w.v.m.color)
  {
    hide Bounded, Tri, Threads, Single, OneWhite, Listed, Lists, LinkClosed, Typed, NoDup, AllKnown;
    var v' := Link(w.v, GrayAgain, o);
    BoundedKeys(w.v, Usable(w), w.lost);
    RegrayedMarks(w.v.m, o);
    LinkListed(w.v, multiset{}, GrayAgain, o);
    assert Relinked(w.v, v', multiset{}, o);
    TriMore(w.v, multiset{}, o);
    ThreadsMore(w.v, o);
    LinkLists(w.v, w.lost, GrayAgain, o);
    RelinkSingle(w.v, v', multiset{}, o);
    RelinkTri(w.v, v', multiset{}, o);
    RelinkRest(w.v, v', Usable(w), w.lost, o);
  }

  lemma TriMore(v: View, rest: multiset<Id>, o: Id)
    requires Tri(v, rest, {})
    ensures Tri(v, rest, {o})
  {
  }

  lemma ThreadsMore(v: View, o: Id)
    requires Threads(v, {})
    ensures Threads(v, {o})
  {
  }

  // ---------------------------------------------------------------------- allocation

  ghost predicate CanAlloc(w: World, x: Id, b: Body) {
    && x !in w.known
    && !b.SweepMark? && !b.OpenUp? && (b.Thread? ==> b.open == [])
    && TypedBody(w.v.body[x := b], x)
    && PtrsIn(w.v.body, b, Usable(w))
  }

  /** `alloc`: a white object at the head of the list of all objects, one more to pay for. */
  function AfterAlloc(w: World, x: Id, b: Body): World {
    w.(v := w.v.(body := w.v.body[x := b],
                 m := w.v.m.(color := w.v.m.color[x := White(w.v.cw)], debt := w.v.m.debt + 1)),
       all := [x] + w.all, known := w.known + {x})
  }

  lemma AllocPtrs(B: Bodies, x: Id, b: Body, y: Id, S: set<Id>)
    requires Typed(B) && x !in B && y in B
    ensures PtrsIn(B[x := b], B[y], S) <==> PtrsIn(B, B[y], S)
    ensures LinksIn(B[x := b], B[y], S) <==> LinksIn(B, B[y], S)
  {
    assert TypedBody(B, y);
  }

  /** The new object holds the same pointers in the graph it joins. */
  lemma AllocOwn(B: Bodies, x: Id, b: Body, S: set<Id>)
    requires !b.OpenUp?
    ensures PtrsIn(B[x := b], b, S) <==> PtrsIn(B, b, S)
    ensures LinksIn(B[x := b], b, S) <==> LinksIn(B, b, S)
  {
  }

  lemma AllocTyped(w: World, x: Id, b: Body)
    requires Typed(w.v.body) && AllKnown(w.v.body, w.known) && !b.OpenUp?
    requires TypedBody(w.v.body[x := b], x) && x !in w.known
    ensures Typed(w.v.body[x := b]) && x !in w.v.body
  {
    var B, B' := w.v.body, w.v.body[x := b];
    forall y | y in B' ensures TypedBody(B', y) {
      if y != x {
        assert TypedBody(B, y) && PtrsIn(B, B[y], w.known);
      }
    }
  }

  lemma AllocKnown(w: World, x: Id, b: Body)
    requires Base(w) && CanAlloc(w, x, b)
    ensures AllKnown(AfterAlloc(w, x, b).v.body, AfterAlloc(w, x, b).known)
    ensures w.known <= AfterAlloc(w, x, b).known && x in AfterAlloc(w, x, b).known && x !in w.v.body
  {
    var w' := AfterAlloc(w, x, b);
    assert Usable(w) <= w.known;
    hide PtrsIn, Typed, Usable;
    forall y | y in w'.v.body ensures PtrsIn(w'.v.body, w'.v.body[y], w'.known) {
      if y == x {
        PtrsMono(w.v.body, b, Usable(w), w'.known);
        AllocOwn(w.v.body, x, b, w'.known);
      } else {
        PtrsMono(w.v.body, w.v.body[y], w.known, w'.known);
        AllocPtrs(w.v.body, x, b, y, w'.known);
      }
    }
  }

  lemma AllocSets(w: World, x: Id, b: Body)
    requires x !in w.v.body && w.v.body.Keys == w.v.m.color.Keys && !b.SweepMark?
    requires w.doomed <= w.v.body.Keys || w.v.state > 1
    requires StrayOk(w)
    ensures var w' := AfterAlloc(w, x, b);
      Dead(w') == Dead(w) && Usable(w') == Usable(w) + {x} && Alive(w') == Alive(w) + {x} && StrayOk(w')
  {
    var w' := AfterAlloc(w, x, b);
    assert Dead(w') == Dead(w);
    assert Sentinels(w'.v.body) == Sentinels(w.v.body);
  }

  lemma AllocBase(w: World, x: Id, b: Body)
    requires Base(w) && CanAlloc(w, x, b) && (w.doomed <= w.v.body.Keys || w.v.state > 1)
    ensures Base(AfterAlloc(w, x, b))
  {
    hide Base, Typed, AllKnown, Usable, CanAlloc, NoDup, PtrsIn, Dead, TypedBody;
    BaseIs(w);
    AllocKnown(w, x, b);
    AllocIs(w, x, b);
    AllocTypedHere(w, x, b);
    AllocSets(w, x, b);
    AllocHead(w, x);
    AllocBaseIs(w, x, b);
  }

  lemma AllocHead(w: World, x: Id)
    requires Base(w) && x !in w.v.body
    ensures NoDup([x] + w.all) && Elems([x] + w.all) == w.v.body.Keys + {x}
  {
    hide Typed, AllKnown, Usable;
    AllocList(w.all, x);
  }

  lemma AllocBaseIs(w: World, x: Id, b: Body)
    requires Base(w) && x !in w.known
    requires Typed(w.v.body[x := b]) && AllKnown(w.v.body[x := b], w.known + {x})
    requires NoDup([x] + w.all) && Elems([x] + w.all) == w.v.body.Keys + {x}
    requires Usable(w) <= Usable(AfterAlloc(w, x, b)) && StrayOk(AfterAlloc(w, x, b))
    ensures Base(AfterAlloc(w, x, b))
  {
    hide Typed, AllKnown, Usable, NoDup, Elems, StrayOk;
    assert Roots(AfterAlloc(w, x, b)) == Roots(w);
  }

  lemma AllocList(l: seq<Id>, x: Id)
    requires NoDup(l) && x !in l
    ensures NoDup([x] + l) && Elems([x] + l) == Elems(l) + {x}
  {
    assert forall i | 0 < i <= |l| :: ([x] + l)[i] == l[i - 1];
  }

  lemma AllocLive(w: World, x: Id, b: Body)
    requires Base(w) && CanAlloc(w, x, b) && w.v.state > 1 && LivePtrs(w)
    ensures LivePtrs(AfterAlloc(w, x, b))
  {
    hide Base, Typed, AllKnown, Usable, Alive, PtrsIn, LinksIn, Dead, CanAlloc, TypedBody;
    BaseIs(w);
    AllocKnown(w, x, b);
    AllocIs(w, x, b);
    AllocSets(w, x, b);
    var w' := AfterAlloc(w, x, b);
    forall y | y in w'.v.body && y !in Dead(w') ensures LiveAt(w', y) {
      if y == x {
        UsableAlive(w);
        AllocOwn(w.v.body, x, b, Usable(w));
        AllocGrown(w, x, b, b, Usable(w), Usable(w'));
        AllocGrown(w, x, b, b, Usable(w), Alive(w'));
        PtrsLinks(w'.v.body, b, Usable(w'));
      } else {
        assert LiveAt(w, y);
        AllocPtrs(w.v.body, x, b, y, Usable(w));
        AllocPtrs(w.v.body, x, b, y, Alive(w));
        AllocGrown(w, x, b, w.v.body[y], Alive(w), Alive(w'));
        if LinksIn(w.v.body, w.v.body[y], Usable(w)) {
          LinksMono(w'.v.body, w.v.body[y], Usable(w), Usable(w'));
        }
      }
    }
  }

  lemma UsableAlive(w: World)
    requires w.v.state > 1
    ensures Usable(w) <= Alive(w)
  {
  }

  lemma AllocGrown(w: World, x: Id, b: Body, c: Body, S: set<Id>, T: set<Id>)
    requires PtrsIn(w.v.body, c, S) ==> PtrsIn(w.v.body[x := b], c, S)
    requires S <= T
    ensures PtrsIn(w.v.body, c, S) ==> PtrsIn(w.v.body[x := b], c, T)
  {
    if PtrsIn(w.v.body, c, S) {
      PtrsMono(w.v.body[x := b], c, S, T);
    }
  }

  lemma AllocIs(w: World, x: Id, b: Body)
    requires CanAlloc(w, x, b)
    ensures x !in w.known && !b.SweepMark? && !b.OpenUp? && (b.Thread? ==> b.open == []) && PtrsIn(w.v.body, b, Usable(w))
  {
  }

  lemma AllocThreads(w: World, x: Id, b: Body)
    requires Base(w) && CanAlloc(w, x, b) && w.v.state > 1 && ThreadsListed(w)
    ensures ThreadsListed(AfterAlloc(w, x, b))
  {
    hide Base, Typed, AllKnown, Usable, PtrsIn, Dead, CanAlloc;
    AllocKnown(w, x, b);
    AllocIs(w, x, b);
    BaseIs(w);
    AllocSets(w, x, b);
  }

  lemma AllocWhites(C: Colors, x: Id, bit: bool)
    requires x !in C
    ensures Whites(C[x := White(bit)]) == Whites(C) + {x} && |Whites(C[x := White(bit)])| == |Whites(C)| + 1
    ensures Marked(C[x := White(bit)]) == Marked(C)
  {
    assert Whites(C[x := White(bit)]) == Whites(C) + {x};
  }

  lemma AllocLinkClosed(w: World, x: Id, b: Body, S: set<Id>)
    requires Typed(w.v.body) && x !in w.v.body && !b.OpenUp? && PtrsIn(w.v.body, b, S) && LinkClosed(w.v.body, S)
    ensures LinkClosed(w.v.body[x := b], S + {x})
  {
    var B' := w.v.body[x := b];
    hide Typed, PtrsIn, LinksIn;
    forall y | y in B' && y in S + {x} ensures LinksIn(B', B'[y], S + {x}) {
      if y == x {
        AllocOwn(w.v.body, x, b, S);
        PtrsMono(B', b, S, S + {x});
        PtrsLinks(B', b, S + {x});
      } else {
        AllocPtrs(w.v.body, x, b, y, S);
        LinksMono(B', w.v.body[y], S, S + {x});
      }
    }
  }

  lemma LinksMono(B: Bodies, b: Body, S: set<Id>, T: set<Id>)
    requires LinksIn(B, b, S) && S <= T
    ensures LinksIn(B, b, T)
  {
  }

  lemma AllocGrounded(w: World, x: Id, b: Body, S: set<Id>)
    requires Typed(w.v.body) && Grounded(w.v.body, S) && x !in w.v.body && !b.OpenUp?
    requires PtrsIn(w.v.body, b, w.v.body.Keys)
    ensures Grounded(w.v.body[x := b], S + {x})
  {
    var B, B' := w.v.body, w.v.body[x := b];
    hide Typed, PtrsIn;
    forall y | y in B' && y in S + {x} ensures PtrsIn(B', B'[y], B'.Keys) {
      if y == x {
        AllocOwn(B, x, b, B.Keys);
        PtrsMono(B', b, B.Keys, B'.Keys);
      } else {
        AllocPtrs(B, x, b, y, B.Keys);
        PtrsMono(B', B[y], B.Keys, B'.Keys);
      }
    }
  }

  lemma AllocBounded(w: World, x: Id, b: Body, S: set<Id>)
    requires Base(w) && CanAlloc(w, x, b) && S == Usable(w) && S <= w.v.body.Keys
    requires Bounded(w.v, S, w.lost) && LinkClosed(w.v.body, S)
    ensures Bounded(AfterAlloc(w, x, b).v, S + {x}, w.lost) && LinkClosed(AfterAlloc(w, x, b).v.body, S + {x})
  {
    hide Base, Bounded, Typed, Grounded, LinkClosed, StrongClosed, LeafClosed, AllKnown, PtrsIn, CanAlloc, Usable;
    BaseIs(w);
    AllocKnown(w, x, b);
    AllocIs(w, x, b);
    PtrsMono(w.v.body, b, S, w.v.body.Keys);
    BoundedIs(w.v, S, w.lost);
    AllocGrounded(w, x, b, S);
    AllocLinkClosed(w, x, b, S);
    AllocStrings(w, x, b, S);
    LinkClosedBounds(w.v.body[x := b], S + {x}, w.lost);
    AllocTypedHere(w, x, b);
    AllocSorts(w, x, b, S);
    NewBounded(w.v, w.v.body[x := b], x, S, w.lost);
  }

  lemma AllocTypedHere(w: World, x: Id, b: Body)
    requires Base(w) && CanAlloc(w, x, b)
    ensures Typed(w.v.body[x := b])
  {
    AllocTyped(w, x, b);
  }

  lemma BoundedIs(v: View, S: set<Id>, X: set<Id>)
    requires Bounded(v, S, X)
    ensures Grounded(v.body, S) && S <= v.body.Keys
  {
  }

  lemma NewBounded(v: View, B': Bodies, x: Id, S: set<Id>, X: set<Id>)
    requires Bounded(v, S, X) && x !in v.body && B'.Keys == v.body.Keys + {x}
    requires forall y | y in S + {x} :: y in B' && !B'[y].SweepMark?
    requires Typed(B') && Grounded(B', S + {x}) && LeafClosed(B', S + {x}) && StrongClosed(B', S + {x}, X)
    ensures Bounded(v.(body := B', m := v.m.(color := v.m.color[x := White(v.cw)], debt := v.m.debt + 1)), S + {x}, X)
  {
    hide Typed, Grounded, LeafClosed, StrongClosed, Marked, Whites, Ready;
    BoundedMarks(v, S, X);
    BoundedParts(v, S, X);
    AllocReadyMarks(v.body, B', v.m, x, v.cw, S);
    MarkedSame(v.m.color, x, v.cw);
  }

  lemma MarkedSame(C: Colors, x: Id, bit: bool)
    requires x !in C
    ensures Marked(C[x := White(bit)]) == Marked(C)
  {
  }

  lemma BoundedParts(v: View, S: set<Id>, X: set<Id>)
    requires Bounded(v, S, X)
    ensures Ready(v.body, v.m, S) && Marked(v.m.color) <= S
  {
  }

  lemma AllocSorts(w: World, x: Id, b: Body, S: set<Id>)
    requires Bounded(w.v, S, w.lost) && x !in w.v.body && !b.SweepMark?
    ensures forall y | y in S + {x} :: y in w.v.body[x := b] && !w.v.body[x := b][y].SweepMark?
    ensures w.v.body[x := b].Keys == w.v.body.Keys + {x}
  {
  }

  lemma BoundedMarks(v: View, S: set<Id>, X: set<Id>)
    requires Bounded(v, S, X)
    ensures v.body.Keys == v.m.color.Keys
  {
  }

  /** One more white object, paid for. */
  lemma AllocReadyMarks(B: Bodies, B': Bodies, m: Marks, x: Id, bit: bool, S: set<Id>)
    requires Ready(B, m, S) && x !in B && B'.Keys == B.Keys + {x}
    requires forall y | y in S + {x} :: y in B' && !B'[y].SweepMark?
    requires Typed(B') && Grounded(B', S + {x}) && LeafClosed(B', S + {x})
    ensures Ready(B', m.(color := m.color[x := White(bit)], debt := m.debt + 1), S + {x})
  {
    hide Typed, Grounded, LeafClosed, Marked, Whites;
    AllocWhites(m.color, x, bit);
  }

  lemma AllocStrings(w: World, x: Id, b: Body, S: set<Id>)
    requires Bounded(w.v, S, w.lost)
    ensures HasStrings(w.v.body[x := b], S + {x})
  {
  }

  lemma AllocTri(w: World, x: Id, b: Body)
    requires Typed(w.v.body) && x !in w.v.body && Tri(w.v, multiset{}, {})
    requires w.v.body.Keys == w.v.m.color.Keys
    ensures Tri(AfterAlloc(w, x, b).v, multiset{}, {})
  {
    var v' := AfterAlloc(w, x, b).v;
    AllocWhites(w.v.m.color, x, w.v.cw);
    hide Typed, PtrsIn, Marked, Whites;
    forall y | y in w.v.body && w.v.m.color[y].Black? ensures PtrsIn(v'.body, v'.body[y], Marked(v'.m.color)) {
      AllocPtrs(w.v.body, x, b, y, Marked(w.v.m.color));
    }
  }

  lemma AllocLists(w: World, x: Id, b: Body)
    requires x !in w.v.body && w.v.body.Keys == w.v.m.color.Keys && Lists(w.v, w.lost) && w.v.state <= 1
    ensures Lists(AfterAlloc(w, x, b).v, w.lost)
  {
    AllocWhites(w.v.m.color, x, w.v.cw);
  }

  lemma AllocThreadsMarking(w: World, x: Id, b: Body)
    requires x !in w.v.body && w.v.body.Keys == w.v.m.color.Keys && Threads(w.v, {}) && !w.v.remarked
    requires !b.OpenUp? && (b.Thread? ==> b.open == [])
    ensures Threads(AfterAlloc(w, x, b).v, {})
  {
  }

  lemma AllocMarking(w: World, x: Id, b: Body)
    requires Base(w) && Marking(w) && w.v.state <= 1 && CanAlloc(w, x, b)
    ensures Marking(AfterAlloc(w, x, b))
  {
    hide Phase, LinkClosed, Base, Usable, CanAlloc, Whites, Marked;
    BaseIs(w);
    AllocKnown(w, x, b);
    AllocIs(w, x, b);
    AllocSets(w, x, b);
    AllocPhase(w, x, b);
    AllocWhites(w.v.m.color, x, w.v.cw);
  }

  lemma AllocPhase(w: World, x: Id, b: Body)
    requires Base(w) && w.v.state <= 1 && CanAlloc(w, x, b) && x !in w.v.body
    requires Phase(w.v, Usable(w), w.lost, multiset{}, {}) && LinkClosed(w.v.body, Usable(w))
    ensures Phase(AfterAlloc(w, x, b).v, Usable(w) + {x}, w.lost, multiset{}, {})
    ensures LinkClosed(AfterAlloc(w, x, b).v.body, Usable(w) + {x})
  {
    hide Bounded, Tri, Lists, Threads, LinkClosed, Base, Usable, CanAlloc, Typed, OneWhite, Listed, Single, Paid, AfterAlloc;
    BaseIs(w);
    AllocIs(w, x, b);
    BoundedIs(w.v, Usable(w), w.lost);
    AllocBounded(w, x, b, Usable(w));
    AllocTri(w, x, b);
    AllocLists(w, x, b);
    NotRemarked(w.v, w.lost);
    AllocThreadsMarking(w, x, b);
    AllocRest(w, x, b);
  }

  lemma AllocOneWhite(v: View, v': View, x: Id)
    requires OneWhite(v) && v'.cw == v.cw && v'.m.color == v.m.color[x := White(v.cw)]
    ensures OneWhite(v')
  {
  }

  lemma AllocUnpaid(m: Marks, x: Id, bit: bool)
    requires x !in m.color
    ensures Unpaid(m.(color := m.color[x := White(bit)], debt := m.debt + 1)) == Unpaid(m) + 1
  {
    AllocWhites(m.color, x, bit);
  }

  lemma AllocRest(w: World, x: Id, b: Body)
    requires x !in w.v.m.color && OneWhite(w.v) && Paid(w.v, {}) && Single(Listed(w.v, multiset{}), w.v.m.color)
    ensures var v' := AfterAlloc(w, x, b).v;
      && v'.state == w.v.state && OneWhite(v') && Paid(v', {}) && Single(Listed(v', multiset{}), v'.m.color)
  {
    hide Single, Listed, Whites, Unpaid;
    AllocListed(w, x, b);
    AllocOneWhite(w.v, AfterAlloc(w, x, b).v, x);
    AllocSingle(Listed(w.v, multiset{}), w.v.m.color, x, w.v.cw);
    AllocUnpaid(w.v.m, x, w.v.cw);
  }

  lemma AllocSingle(l: multiset<Id>, C: Colors, x: Id, bit: bool)
    requires Single(l, C) && x !in C
    ensures Single(l, C[x := White(bit)])
  {
  }

  lemma AllocListed(w: World, x: Id, b: Body)
    ensures Listed(AfterAlloc(w, x, b).v, multiset{}) == Listed(w.v, multiset{})
  {
  }

  lemma AllocInv(w: World, x: Id, b: Body)
    requires Inv(w) && CanAlloc(w, x, b)
    ensures Inv(AfterAlloc(w, x, b)) && Usable(AfterAlloc(w, x, b)) == Usable(w) + {x}
  {
    hide Base, Marking, LivePtrs, ThreadsListed, Usable, Dead, CanAlloc;
    BaseIs(w);
    AllocKnown(w, x, b);
    AllocIs(w, x, b);
    DoomedExist(w);
    AllocSets(w, x, b);
    AllocBase(w, x, b);
    if w.v.state <= 1 {
      AllocMarking(w, x, b);
    } else {
      AllocLive(w, x, b);
      AllocThreads(w, x, b);
      AllocShift(w.all, x);
    }
  }

  lemma DoomedExist(w: World)
    requires Inv(w)
    ensures w.doomed <= w.v.body.Keys
  {
  }

  lemma AllocShift(l: seq<Id>, x: Id)
    ensures forall i | 0 < i <= |l| :: ([x] + l)[i] == l[i - 1]
  {
  }

  // ---------------------------------------------------------------------- stacks

  /** A stack may get usable values; no barrier guards it. Slots with open upvalues stay. */
  ghost predicate CanWrite(w: World, th: Id, st: seq<Value>) {
    && th in w.v.body && w.v.body[th].Thread?
    && (forall i | 0 <= i < |w.v.body[th].open| ::
          var u := w.v.body[th].open[i]; u in w.v.body && w.v.body[u].OpenUp? && w.v.body[u].slot < |st|)
    && (forall i | 0 <= i < |st| ::
          || (i < |w.v.body[th].stack| && st[i] == w.v.body[th].stack[i])
          || (VIn(st[i], Usable(w)) && IsValue(w.v.body, st[i])))
  }

  function Stacked(B: Bodies, th: Id, st: seq<Value>): Bodies
    requires th in B && B[th].Thread?
  {
    B[th := B[th].(stack := st)]
  }

  function AfterWrite(w: World, th: Id, st: seq<Value>): World
    requires th in w.v.body && w.v.body[th].Thread?
  {
    w.(v := w.v.(body := Stacked(w.v.body, th, st)))
  }

  lemma WriteTyped(w: World, th: Id, st: seq<Value>)
    requires Typed(w.v.body) && CanWrite(w, th, st)
    ensures Typed(Stacked(w.v.body, th, st))
  {
    var B, B' := w.v.body, Stacked(w.v.body, th, st);
    forall x | x in B' ensures TypedBody(B', x) {
      assert TypedBody(B, x) && TypedBody(B, th);
      if B[x].OpenUp? && B[x].th == th {
        var i :| 0 <= i < |B[th].open| && B[th].open[i] == x;
      }
    }
  }

  lemma WriteStays(w: World, th: Id, st: seq<Value>, x: Id, S: set<Id>)
    requires CanWrite(w, th, st) && x in w.v.body && !(w.v.body[x].OpenUp? && w.v.body[x].th == th) && x != th
    ensures PtrsIn(Stacked(w.v.body, th, st), Stacked(w.v.body, th, st)[x], S) <==> PtrsIn(w.v.body, w.v.body[x], S)
    ensures LinksIn(Stacked(w.v.body, th, st), Stacked(w.v.body, th, st)[x], S) <==> LinksIn(w.v.body, w.v.body[x], S)
  {
  }

  lemma WritePtrs(w: World, th: Id, st: seq<Value>, x: Id, S: set<Id>)
    requires Typed(w.v.body) && CanWrite(w, th, st) && x in w.v.body && Usable(w) <= S
    ensures PtrsIn(w.v.body, w.v.body[x], S) ==> PtrsIn(Stacked(w.v.body, th, st), Stacked(w.v.body, th, st)[x], S)
    ensures LinksIn(w.v.body, w.v.body[x], S) ==> LinksIn(Stacked(w.v.body, th, st), Stacked(w.v.body, th, st)[x], S)
  {
    if x == th {
    } else if w.v.body[x].OpenUp? && w.v.body[x].th == th {
      assert TypedBody(w.v.body, x);
    } else {
      WriteStays(w, th, st, x, S);
    }
  }

  lemma WriteBounded(w: World, th: Id, st: seq<Value>)
    requires Typed(w.v.body) && CanWrite(w, th, st) && Bounded(w.v, Usable(w), w.lost) && LinkClosed(w.v.body, Usable(w))
    ensures th in w.v.body && w.v.body[th].Thread?
    ensures Bounded(AfterWrite(w, th, st).v, Usable(w), w.lost)
    ensures LinkClosed(Stacked(w.v.body, th, st), Usable(w))
  {
    hide Typed, PtrsIn, LinksIn, CanWrite, Usable, Bounded, StrongClosed, LeafClosed;
    CanWriteIs(w, th, st);
    var S, B' := Usable(w), Stacked(w.v.body, th, st);
    BoundedIs(w.v, S, w.lost);
    WriteTyped(w, th, st);
    assert B'.Keys == w.v.body.Keys;
    forall x | x in B' && x in S ensures LinksIn(B', B'[x], S) {
      WritePtrs(w, th, st, x, S);
    }
    forall x | x in B' && x in S ensures PtrsIn(B', B'[x], B'.Keys) {
      WritePtrs(w, th, st, x, w.v.body.Keys);
    }
    StoreBounded(w.v, B', S, w.lost, w.lost);
  }

  lemma CanWriteIs(w: World, th: Id, st: seq<Value>)
    requires CanWrite(w, th, st)
    ensures th in w.v.body && w.v.body[th].Thread?
  {
  }

  lemma WriteTri(w: World, th: Id, st: seq<Value>)
    requires CanWrite(w, th, st) && Tri(w.v, multiset{}, {}) && Threads(w.v, {}) && w.v.state <= 1
    ensures Tri(AfterWrite(w, th, st).v, multiset{}, {})
  {
    var v' := AfterWrite(w, th, st).v;
    forall x | x in w.v.body && x in w.v.m.color && w.v.m.color[x].Black?
      ensures PtrsIn(v'.body, v'.body[x], Marked(w.v.m.color))
    {
      WriteStays(w, th, st, x, Marked(w.v.m.color));
    }
    hide PtrsIn;
  }

  lemma WriteThreads(w: World, th: Id, st: seq<Value>)
    requires th in w.v.body && w.v.body[th].Thread?
    ensures Threads(w.v, {}) && !w.v.remarked ==> Threads(AfterWrite(w, th, st).v, {})
    ensures ThreadsListed(w) ==> ThreadsListed(AfterWrite(w, th, st))
  {
  }

  lemma WriteLists(w: World, th: Id, st: seq<Value>)
    requires th in w.v.body && w.v.body[th].Thread? && Lists(w.v, w.lost) && w.v.state <= 1
    ensures Lists(AfterWrite(w, th, st).v, w.lost)
  {
  }

  lemma WriteMarking(w: World, th: Id, st: seq<Value>)
    requires Base(w) && Marking(w) && w.v.state <= 1 && CanWrite(w, th, st)
    ensures th in w.v.body && w.v.body[th].Thread?
    ensures Marking(AfterWrite(w, th, st))
  {
    hide Bounded, Tri, Lists, Threads, LinkClosed, Base, CanWrite, Single, Marked;
    BaseIs(w);
    CanWriteIs(w, th, st);
    WriteBounded(w, th, st);
    WriteTri(w, th, st);
    NotRemarked(w.v, w.lost);
    WriteThreads(w, th, st);
    WriteLists(w, th, st);
    StoreMarking(w, AfterWrite(w, th, st));
  }

  lemma WriteSets(w: World, th: Id, st: seq<Value>)
    requires th in w.v.body && w.v.body[th].Thread?
    ensures var w' := AfterWrite(w, th, st);
      && Usable(w') == Usable(w) && Alive(w') == Alive(w) && Dead(w') == Dead(w) && w'.v.body.Keys == w.v.body.Keys
      && (NoStrings(w.v.body, w.doomed) ==> NoStrings(w'.v.body, w.doomed))
  {
    assert Sentinels(AfterWrite(w, th, st).v.body) == Sentinels(w.v.body);
  }

  lemma WriteInv(w: World, th: Id, st: seq<Value>)
    requires Inv(w) && CanWrite(w, th, st)
    ensures th in w.v.body && w.v.body[th].Thread?
    ensures Inv(AfterWrite(w, th, st))
  {
    hide Base, Marking, LivePtrs, ThreadsListed, CanWrite, Dead, Usable;
    BaseIs(w);
    CanWriteIs(w, th, st);
    WriteSets(w, th, st);
    WriteBase(w, th, st);
    if w.v.state <= 1 {
      WriteMarking(w, th, st);
    } else {
      WriteThreads(w, th, st);
      WriteLive(w, th, st);
    }
  }

  lemma WriteBase(w: World, th: Id, st: seq<Value>)
    requires Base(w) && CanWrite(w, th, st)
    ensures th in w.v.body && w.v.body[th].Thread? && Base(AfterWrite(w, th, st))
  {
    CanWriteIs(w, th, st);
    WriteTyped(w, th, st);
    WriteSets(w, th, st);
    assert Usable(w) <= w.known;
    hide Typed, Usable, PtrsIn, CanWrite, NoDup;
    var B' := AfterWrite(w, th, st).v.body;
    forall x | x in B' ensures PtrsIn(B', B'[x], w.known) {
      WritePtrs(w, th, st, x, w.known);
    }
  }

  lemma WriteLive(w: World, th: Id, st: seq<Value>)
    requires Base(w) && CanWrite(w, th, st) && LivePtrs(w) && w.v.state > 1
    ensures th in w.v.body && w.v.body[th].Thread? && LivePtrs(AfterWrite(w, th, st))
  {
    CanWriteIs(w, th, st);
    WriteSets(w, th, st);
    UsableAlive(w);
    hide Typed, Usable, Alive, PtrsIn, LinksIn, CanWrite, NoDup, AllKnown;
    var w' := AfterWrite(w, th, st);
    forall x | x in w'.v.body && x !in Dead(w') ensures LiveAt(w', x) {
      assert LiveAt(w, x);
      WritePtrs(w, th, st, x, Usable(w));
      WritePtrs(w, th, st, x, Alive(w));
    }
  }

  // ---------------------------------------------------------------------- closing an upvalue

  /** A colour change that leaves u marked or leaves it white. */
  lemma CloseMarks(C: Colors, u: Id, c: Color)
    requires u in C && (C[u].White? ==> c == C[u]) && (c.White? ==> C[u].White?)
    ensures Marked(C[u := c]) == Marked(C) && Whites(C[u := c]) == Whites(C)
  {
    assert Marked(C[u := c]) == Marked(C);
    assert Whites(C[u := c]) == Whites(C);
  }

  lemma CloseBlack(w: World, u: Id, c: Color, x: Id)
    requires Typed(w.v.body) && Tri(w.v, multiset{}, {}) && u in w.v.body && w.v.body[u].OpenUp?
    requires u in w.v.m.color && x in w.v.body && x in w.v.m.color
    requires c.Black? ==> VIn(UpValue(w.v.body, w.v.body[u]), Marked(w.v.m.color))
    ensures w.v.body[u].th in w.v.body && w.v.body[w.v.body[u].th].Thread?
    ensures w.v.m.color[u := c][x].Black? ==>
      PtrsIn(Closed(w.v.body, u), Closed(w.v.body, u)[x], Marked(w.v.m.color))
  {
    ClosedKeys(w.v.body, u);
    hide Typed, Marked, Closed, PtrsIn;
    if w.v.m.color[u := c][x].Black? {
      if x != u {
        ClosedPtrs(w.v.body, u, x, Marked(w.v.m.color));
      } else {
        ClosedSelf(w.v.body, u, Marked(w.v.m.color));
      }
    }
  }

  lemma CloseGray(w: World, u: Id, c: Color, x: Id)
    requires Typed(w.v.body) && Tri(w.v, multiset{}, {}) && u in w.v.body && w.v.body[u].OpenUp?
    requires u in w.v.m.color && x in w.v.body && x in w.v.m.color && !c.Gray?
    ensures w.v.body[u].th in w.v.body && w.v.body[w.v.body[u].th].Thread?
    ensures w.v.m.color[u := c][x].Gray? ==>
      x in Closed(w.v.body, u) && (Closed(w.v.body, u)[x].OpenUp? || x in Listed(w.v, multiset{}))
  {
    ClosedTyped(w.v.body, u);
    hide Typed, Marked, Closed, PtrsIn, Listed;
  }

  lemma CloseTri(w: World, u: Id, c: Color)
    requires Typed(w.v.body) && Tri(w.v, multiset{}, {}) && u in w.v.body && w.v.body[u].OpenUp?
    requires w.v.body.Keys == w.v.m.color.Keys
    requires u in w.v.m.color && !c.Gray? && Marked(w.v.m.color[u := c]) == Marked(w.v.m.color)
    requires c.Black? ==> VIn(UpValue(w.v.body, w.v.body[u]), Marked(w.v.m.color))
    ensures w.v.body[u].th in w.v.body && w.v.body[w.v.body[u].th].Thread?
    ensures Tri(AfterClose(w, u, c).v, multiset{}, {})
  {
    ClosedKeys(w.v.body, u);
    var v' := AfterClose(w, u, c).v;
    assert Listed(v', multiset{}) == Listed(w.v, multiset{});
    hide Typed, Marked, Closed, PtrsIn, Listed;
    forall x | x in v'.body && x in v'.m.color
      ensures v'.m.color[x].Black? ==> PtrsIn(v'.body, v'.body[x], Marked(v'.m.color))
      ensures v'.m.color[x].Gray? ==> v'.body[x].OpenUp? || x in Listed(v', multiset{})
    {
      CloseBlack(w, u, c, x);
      CloseGray(w, u, c, x);
    }
  }

  lemma ClosedSelf(B: Bodies, u: Id, S: set<Id>)
    requires Typed(B) && u in B && B[u].OpenUp? && VIn(UpValue(B, B[u]), S)
    ensures B[u].th in B && B[B[u].th].Thread? && PtrsIn(Closed(B, u), Closed(B, u)[u], S)
  {
    ClosedTyped(B, u);
  }

  lemma CloseBounded(w: World, u: Id, c: Color)
    requires Typed(w.v.body) && u in w.v.body && w.v.body[u].OpenUp?
    requires Bounded(w.v, Usable(w), w.lost) && LinkClosed(w.v.body, Usable(w))
    ensures w.v.body[u].th in w.v.body && w.v.body[w.v.body[u].th].Thread?
    ensures Bounded(w.v.(body := Closed(w.v.body, u)), Usable(w), w.lost)
    ensures LinkClosed(Closed(w.v.body, u), Usable(w))
  {
    hide Typed, PtrsIn, LinksIn, Usable, Bounded, StrongClosed, LeafClosed, Closed, LinkClosed, Grounded;
    ClosedSame(w.v.body, u);
    BoundedIs(w.v, Usable(w), w.lost);
    var S, B' := Usable(w), Closed(w.v.body, u);
    ClosedLinked(w.v.body, u, S);
    ClosedGrounded(w.v.body, u, S);
    StoreBounded(w.v, B', S, w.lost, w.lost);
  }

  lemma ClosedSame(B: Bodies, u: Id)
    requires Typed(B) && u in B && B[u].OpenUp?
    ensures B[u].th in B && B[B[u].th].Thread?
    ensures Typed(Closed(B, u)) && SameSorts(B, Closed(B, u))
  {
    ClosedTyped(B, u);
  }

  lemma ClosedLinked(B: Bodies, u: Id, S: set<Id>)
    requires Typed(B) && u in B && B[u].OpenUp? && LinkClosed(B, S)
    ensures B[u].th in B && B[B[u].th].Thread? && LinkClosed(Closed(B, u), S)
  {
    ClosedKeys(B, u);
    hide Typed, LinksIn, Closed;
    forall x | x in Closed(B, u) && x in S ensures LinksIn(Closed(B, u), Closed(B, u)[x], S) {
      ClosedLinks(B, u, x, S);
    }
  }

  lemma ClosedGrounded(B: Bodies, u: Id, S: set<Id>)
    requires Typed(B) && u in B && B[u].OpenUp? && Grounded(B, S)
    ensures B[u].th in B && B[B[u].th].Thread? && Grounded(Closed(B, u), S)
  {
    ClosedKeys(B, u);
    hide Typed, PtrsIn, Closed;
    forall x | x in Closed(B, u) && x in S ensures PtrsIn(Closed(B, u), Closed(B, u)[x], B.Keys) {
      ClosedPtrs(B, u, x, B.Keys);
    }
  }

  /** Recolouring a marked or unmarked object that is on no list. */
  lemma CloseColors(v: View, B': Bodies, u: Id, c: Color, S: set<Id>, X: set<Id>)
    requires Bounded(v.(body := B'), S, X) && u in v.m.color
    requires Marked(v.m.color[u := c]) == Marked(v.m.color) && Whites(v.m.color[u := c]) == Whites(v.m.color)
    ensures Bounded(v.(body := B', m := v.m.(color := v.m.color[u := c])), S, X)
  {
    hide Typed, Grounded, LeafClosed, StrongClosed, Marked, Whites;
  }

  lemma ClosedSorts(B: Bodies, u: Id, l: seq<Id>)
    requires Typed(B) && u in B && B[u].OpenUp?
    ensures B[u].th in B && B[B[u].th].Thread?
    ensures AllListable(B, l) ==> AllListable(Closed(B, u), l)
    ensures Tables(B, l) ==> Tables(Closed(B, u), l)
  {
    ClosedTyped(B, u);
    hide Typed, Closed;
  }

  lemma ClosedKept(w: World, u: Id, c: Color, x: Id)
    requires Typed(w.v.body) && u in w.v.body && w.v.body[u].OpenUp? && u in w.v.m.color
    requires Marked(w.v.m.color[u := c]) == Marked(w.v.m.color)
    ensures w.v.body[u].th in w.v.body && w.v.body[w.v.body[u].th].Thread?
    ensures KeptOk(w.v.body, w.v.m.color, x) ==> KeptOk(Closed(w.v.body, u), w.v.m.color[u := c], x)
  {
    ClosedTyped(w.v.body, u);
    hide Typed, Closed, Marked;
  }

  lemma CloseLists(w: World, u: Id, c: Color)
    requires Typed(w.v.body) && u in w.v.body && w.v.body[u].OpenUp? && Lists(w.v, w.lost) && w.v.state <= 1
    requires u in w.v.m.color && Marked(w.v.m.color[u := c]) == Marked(w.v.m.color)
    ensures w.v.body[u].th in w.v.body && w.v.body[w.v.body[u].th].Thread?
    ensures Lists(AfterClose(w, u, c).v, w.lost)
  {
    hide Typed, Marked, Closed, AllListable, Tables, KeptOk;
    ClosedKeys(w.v.body, u);
    forall l: seq<Id>
      ensures AllListable(w.v.body, l) ==> AllListable(Closed(w.v.body, u), l)
      ensures Tables(w.v.body, l) ==> Tables(Closed(w.v.body, u), l)
    {
      ClosedSorts(w.v.body, u, l);
    }
    forall x ensures KeptOk(w.v.body, w.v.m.color, x) ==> KeptOk(Closed(w.v.body, u), w.v.m.color[u := c], x) {
      ClosedKept(w, u, c, x);
    }
  }

  lemma CloseThreadsMarking(w: World, u: Id, c: Color)
    requires Typed(w.v.body) && u in w.v.body && w.v.body[u].OpenUp? && Threads(w.v, {}) && !w.v.remarked
    ensures w.v.body[u].th in w.v.body && w.v.body[w.v.body[u].th].Thread?
    ensures Threads(AfterClose(w, u, c).v, {})
  {
    ClosedTyped(w.v.body, u);
    ClosedOpen(w.v.body, u);
    hide Typed;
  }

  lemma CloseSingle(w: World, u: Id, c: Color)
    requires Lists(w.v, w.lost) && w.v.state <= 1 && u in w.v.body && w.v.body[u].OpenUp?
    requires Single(Listed(w.v, multiset{}), w.v.m.color) && u in w.v.m.color
    ensures Single(Listed(w.v, multiset{}), w.v.m.color[u := c])
  {
    assert u !in w.v.m.gray && u !in w.v.again && u !in w.v.allWeak;
    assert u !in Listed(w.v, multiset{});
    hide Listed;
  }

  lemma CloseMarking(w: World, u: Id, c: Color)
    requires Base(w) && Marking(w) && w.v.state <= 1 && u in w.v.body && w.v.body[u].OpenUp?
    requires u in w.v.m.color
    requires if w.v.m.color[u].White? then c == w.v.m.color[u]
             else c.Black? && VIn(UpValue(w.v.body, w.v.body[u]), Marked(w.v.m.color))
    ensures w.v.body[u].th in w.v.body && w.v.body[w.v.body[u].th].Thread?
    ensures Marking(AfterClose(w, u, c)) && Base(AfterClose(w, u, c))
  {
    hide Base, Bounded, Tri, Lists, Threads, LinkClosed, Typed, Closed, Single, Listed, Marked, Whites, UpValue;
    BaseIs(w);
    ClosedKeys(w.v.body, u);
    CloseMarks(w.v.m.color, u, c);
    CloseTri(w, u, c);
    CloseLists(w, u, c);
    NotRemarked(w.v, w.lost);
    CloseThreadsMarking(w, u, c);
    CloseSingle(w, u, c);
    CloseBounded(w, u, c);
    CloseColors(w.v, Closed(w.v.body, u), u, c, Usable(w), w.lost);
    CloseWaiting(w, u, c);
    CloseBase(w, u, c);
  }

  lemma CloseWaiting(w: World, u: Id, c: Color)
    requires u in w.v.body && w.v.body[u].OpenUp?
    requires w.v.body[u].th in w.v.body && w.v.body[w.v.body[u].th].Thread?
    requires u in w.v.m.color && (w.v.m.color[u].White? ==> c == w.v.m.color[u]) && (c.White? ==> w.v.m.color[u].White?)
    ensures Listed(AfterClose(w, u, c).v, multiset{}) == Listed(w.v, multiset{})
    ensures OneWhite(w.v) ==> OneWhite(AfterClose(w, u, c).v)
  {
  }

  lemma CloseInv(w: World, u: Id, c: Color)
    requires Inv(w) && w.v.state == 8 && u in w.v.body && w.v.body[u].OpenUp? && u in w.v.m.color && c == w.v.m.color[u]
    ensures w.v.body[u].th in w.v.body && w.v.body[w.v.body[u].th].Thread?
    ensures Inv(AfterClose(w, u, c))
  {
    hide Base, Usable, LivePtrs, ThreadsListed, Typed, Closed, Dead;
    BaseIs(w);
    ClosedKeys(w.v.body, u);
    CloseSets(w, u, c);
    ClosePtrs(w, u, c);
    CloseThreads(w, u, c);
    CloseBase(w, u, c);
  }

  // ---------------------------------------------------------------------- opening an upvalue

  ghost predicate CanOpen(w: World, u: Id, th: Id, slot: nat) {
    && u !in w.known && th in Usable(w) && th in w.v.body
    && w.v.body[th].Thread? && slot < |w.v.body[th].stack|
  }

  function Opened(B: Bodies, u: Id, th: Id, slot: nat): Bodies
    requires th in B && B[th].Thread?
  {
    B[u := OpenUp(th, slot)][th := B[th].(open := [u] + B[th].open)]
  }

  /** `newupval`: a white open upvalue in front of its thread's list; the thread joins `twups`. */
  function AfterOpen(w: World, u: Id, th: Id, slot: nat): World
    requires th in w.v.body && w.v.body[th].Thread?
  {
    w.(v := w.v.(body := Opened(w.v.body, u, th, slot),
                 m := w.v.m.(color := w.v.m.color[u := White(w.v.cw)], debt := w.v.m.debt + 1),
                 twups := if th in w.v.twups then w.v.twups else [th] + w.v.twups),
       all := [u] + w.all, known := w.known + {u})
  }

  lemma OpenedTyped(w: World, u: Id, th: Id, slot: nat)
    requires Typed(w.v.body) && AllKnown(w.v.body, w.known) && CanOpen(w, u, th, slot)
    ensures Typed(Opened(w.v.body, u, th, slot)) && u !in w.v.body
  {
    var B, B' := w.v.body, Opened(w.v.body, u, th, slot);
    assert forall i | 0 < i <= |B[th].open| :: B'[th].open[i] == B[th].open[i - 1];
    forall x | x in B' ensures TypedBody(B', x) {
      if x in B {
        OpenedOther(w, u, th, slot, x);
      }
    }
  }

  lemma OpenedOther(w: World, u: Id, th: Id, slot: nat, x: Id)
    requires Typed(w.v.body) && AllKnown(w.v.body, w.known) && CanOpen(w, u, th, slot) && x in w.v.body
    requires forall i | 0 < i <= |w.v.body[th].open| ::
      Opened(w.v.body, u, th, slot)[th].open[i] == w.v.body[th].open[i - 1]
    ensures TypedBody(Opened(w.v.body, u, th, slot), x)
  {
    var B, B' := w.v.body, Opened(w.v.body, u, th, slot);
    assert TypedBody(B, x) && PtrsIn(B, B[x], w.known);
    assert TypedBody(B, th) && PtrsIn(B, B[th], w.known);
    assert forall y | y in B[th].open :: y in B'[th].open;
    hide Typed, AllKnown;
  }

  lemma OpenedPtrs(w: World, u: Id, th: Id, slot: nat, x: Id, S: set<Id>, T: set<Id>)
    requires Typed(w.v.body) && CanOpen(w, u, th, slot) && u !in w.v.body && S + {u} <= T
    requires x == u ==> PtrsIn(w.v.body, w.v.body[th], S)
    requires x != u ==> x in w.v.body && PtrsIn(w.v.body, w.v.body[x], S)
    ensures PtrsIn(Opened(w.v.body, u, th, slot), Opened(w.v.body, u, th, slot)[x], T)
  {
    var B, B' := w.v.body, Opened(w.v.body, u, th, slot);
    if x == u {
      assert VIn(B[th].stack[slot], S);
    } else {
      assert TypedBody(B, x);
      PtrsMono(B, B[x], S, T);
      if x == th {
        assert forall i | 0 < i <= |B[th].open| :: B'[th].open[i] == B[th].open[i - 1];
      }
    }
  }

  lemma OpenedLinks(w: World, u: Id, th: Id, slot: nat, x: Id, S: set<Id>)
    requires Typed(w.v.body) && CanOpen(w, u, th, slot) && u !in w.v.body && th in S
    requires LinkClosed(w.v.body, S) && x in S + {u} && (x == u || x in w.v.body)
    ensures LinksIn(Opened(w.v.body, u, th, slot), Opened(w.v.body, u, th, slot)[x], S + {u})
  {
    OpenedLink(w, u, th, slot, x, S);
  }

  lemma OpenedLink(w: World, u: Id, th: Id, slot: nat, x: Id, S: set<Id>)
    requires Typed(w.v.body) && CanOpen(w, u, th, slot) && u !in w.v.body && (x == u || x in w.v.body)
    requires LinksIn(w.v.body, w.v.body[if x == u then th else x], S)
    ensures LinksIn(Opened(w.v.body, u, th, slot), Opened(w.v.body, u, th, slot)[x], S + {u})
  {
    var B, B' := w.v.body, Opened(w.v.body, u, th, slot);
    if x == u {
      OpenedPtrs(w, u, th, slot, u, S, S + {u});
    } else if B[x].Table? {
      LinksMono(B', B[x], S, S + {u});
    } else {
      OpenedPtrs(w, u, th, slot, x, S, S + {u});
    }
  }

  lemma OpenedSets(w: World, u: Id, th: Id, slot: nat)
    requires CanOpen(w, u, th, slot) && u !in w.v.body && w.v.body.Keys == w.v.m.color.Keys
    requires w.doomed <= w.v.body.Keys && StrayOk(w)
    ensures var w' := AfterOpen(w, u, th, slot);
      && Dead(w') == Dead(w) && Usable(w') == Usable(w) + {u} && Alive(w') == Alive(w) + {u} && StrayOk(w')
      && w'.v.body.Keys == w.v.body.Keys + {u}
      && (forall x | x in w.v.body :: w'.v.body[x].Str? == w.v.body[x].Str?)
  {
    var w' := AfterOpen(w, u, th, slot);
    assert Dead(w') == Dead(w);
    assert Sentinels(w'.v.body) == Sentinels(w.v.body);
  }

  lemma OpenedBase(w: World, u: Id, th: Id, slot: nat)
    requires Base(w) && CanOpen(w, u, th, slot) && w.doomed <= w.v.body.Keys
    ensures Base(AfterOpen(w, u, th, slot)) && u !in w.v.body
  {
    hide Base, StrayOk, Dead, Alive, Typed, AllKnown, Usable, CanOpen, Opened, NoDup, Elems;
    BaseIs(w);
    CanOpenIs(w, u, th, slot);
    OpenedTyped(w, u, th, slot);
    OpenedSets(w, u, th, slot);
    AllocHead(w, u);
    OpenedKnown(w, u, th, slot);
    OpenedBaseIs(w, u, th, slot);
  }

  lemma OpenedBaseIs(w: World, u: Id, th: Id, slot: nat)
    requires Base(w) && th in w.v.body && w.v.body[th].Thread? && u !in w.known
    requires Typed(Opened(w.v.body, u, th, slot)) && AllKnown(Opened(w.v.body, u, th, slot), w.known + {u})
    requires NoDup([u] + w.all) && Elems([u] + w.all) == w.v.body.Keys + {u}
    requires Usable(w) <= Usable(AfterOpen(w, u, th, slot)) && StrayOk(AfterOpen(w, u, th, slot))
    requires Opened(w.v.body, u, th, slot).Keys == w.v.body.Keys + {u}
    ensures Base(AfterOpen(w, u, th, slot))
  {
    hide Typed, AllKnown, Usable, NoDup, Elems, StrayOk, Opened;
    assert Roots(AfterOpen(w, u, th, slot)) == Roots(w);
  }

  lemma CanOpenIs(w: World, u: Id, th: Id, slot: nat)
    requires CanOpen(w, u, th, slot)
    ensures u !in w.known && th in w.v.body && w.v.body[th].Thread? && th in Usable(w)
  {
  }

  lemma OpenedKnown(w: World, u: Id, th: Id, slot: nat)
    requires Typed(w.v.body) && AllKnown(w.v.body, w.known) && CanOpen(w, u, th, slot) && u !in w.v.body
    ensures AllKnown(Opened(w.v.body, u, th, slot), w.known + {u})
  {
    var B' := Opened(w.v.body, u, th, slot);
    hide Typed, PtrsIn;
    forall x | x in B' ensures PtrsIn(B', B'[x], w.known + {u}) {
      OpenedPtrs(w, u, th, slot, x, w.known, w.known + {u});
    }
  }

  lemma OpenedLive(w: World, u: Id, th: Id, slot: nat)
    requires Base(w) && CanOpen(w, u, th, slot) && w.v.state > 1 && LivePtrs(w) && w.doomed <= w.v.body.Keys
    requires u !in w.v.body
    ensures LivePtrs(AfterOpen(w, u, th, slot))
  {
    hide Base, Typed, AllKnown, PtrsIn, Dead, CanOpen, Opened;
    BaseIs(w);
    OpenedSets(w, u, th, slot);
    CanOpenIs(w, u, th, slot);
    var w' := AfterOpen(w, u, th, slot);
    hide StrayOk, Usable, Alive;
    forall x | x in w'.v.body && x !in Dead(w') ensures LiveAt(w', x) {
      OpenedAt(w, u, th, slot, x);
    }
  }

  lemma OpenedAt(w: World, u: Id, th: Id, slot: nat, x: Id)
    requires Base(w) && CanOpen(w, u, th, slot) && w.v.state > 1 && LivePtrs(w) && u !in w.v.body
    requires Dead(AfterOpen(w, u, th, slot)) == Dead(w)
    requires Usable(AfterOpen(w, u, th, slot)) == Usable(w) + {u} && Alive(AfterOpen(w, u, th, slot)) == Alive(w) + {u}
    requires x in AfterOpen(w, u, th, slot).v.body && x !in Dead(w)
    ensures LiveAt(AfterOpen(w, u, th, slot), x)
  {
    UsableAlive(w);
    BaseIs(w);
    CanOpenIs(w, u, th, slot);
    UsableLive(w, th);
    hide Base, Typed, AllKnown, PtrsIn, LinksIn, Dead, CanOpen, Usable, Alive;
    var y := if x == u then th else x;
    assert LiveAt(w, y);
    if LinksIn(w.v.body, w.v.body[y], Usable(w)) {
      OpenedLink(w, u, th, slot, x, Usable(w));
    }
    if PtrsIn(w.v.body, w.v.body[y], Alive(w)) {
      OpenedPtrs(w, u, th, slot, x, Alive(w), Alive(w) + {u});
    }
  }

  lemma UsableLive(w: World, x: Id)
    requires w.v.state > 1 && x in Usable(w)
    ensures x in w.v.body && x !in Dead(w) && x !in w.stray
  {
  }

  lemma OpenedTwups(w: World, u: Id, th: Id, slot: nat)
    requires th in w.v.body && w.v.body[th].Thread?
    ensures var l := AfterOpen(w, u, th, slot).v.twups;
      && th in l && (forall x | x in w.v.twups :: x in l)
      && (forall i | 0 <= i < |l| :: l[i] == th || l[i] in w.v.twups)
  {
    var l := [th] + w.v.twups;
    assert forall i | 0 < i < |l| :: l[i] == w.v.twups[i - 1];
    assert l[0] == th;
  }

  lemma OpenedThreadsLive(w: World, u: Id, th: Id, slot: nat)
    requires Base(w) && CanOpen(w, u, th, slot) && w.doomed <= w.v.body.Keys && u !in w.v.body
    requires w.v.state > 1 && ThreadsListed(w)
    ensures ThreadsListed(AfterOpen(w, u, th, slot))
  {
    OpenedSets(w, u, th, slot);
    BaseIs(w);
    OpenedTwups(w, u, th, slot);
    hide Base, Typed, AllKnown;
  }

  lemma OpenedThreads(w: World, u: Id, th: Id, slot: nat)
    requires th in w.v.body && w.v.body[th].Thread? && u !in w.v.body && w.v.body.Keys == w.v.m.color.Keys
    requires w.v.state <= 1 && Threads(w.v, {}) && !w.v.remarked
    ensures Threads(AfterOpen(w, u, th, slot).v, {})
  {
    OpenedTwups(w, u, th, slot);
    var v' := AfterOpen(w, u, th, slot).v;
    forall i | 0 <= i < |v'.twups| ensures v'.twups[i] in v'.body && v'.body[v'.twups[i]].Thread? {
    }
  }

  lemma OpenedGrounded(w: World, u: Id, th: Id, slot: nat, S: set<Id>)
    requires Typed(w.v.body) && CanOpen(w, u, th, slot) && u !in w.v.body && Grounded(w.v.body, S) && th in S
    ensures Grounded(Opened(w.v.body, u, th, slot), S + {u})
  {
    var B' := Opened(w.v.body, u, th, slot);
    assert B'.Keys == w.v.body.Keys + {u};
    hide Typed, PtrsIn;
    forall x | x in B' && x in S + {u} ensures PtrsIn(B', B'[x], B'.Keys) {
      OpenedPtrs(w, u, th, slot, x, w.v.body.Keys, B'.Keys);
    }
  }

  lemma OpenedClosed(w: World, u: Id, th: Id, slot: nat)
    requires Typed(w.v.body) && CanOpen(w, u, th, slot) && u !in w.v.body && LinkClosed(w.v.body, Usable(w))
    ensures LinkClosed(Opened(w.v.body, u, th, slot), Usable(w) + {u})
  {
    var S, B' := Usable(w), Opened(w.v.body, u, th, slot);
    CanOpenIs(w, u, th, slot);
    forall x | x in B' && x in S + {u} ensures LinksIn(B', B'[x], S + {u}) {
      OpenedLinks(w, u, th, slot, x, S);
    }
  }

  lemma OpenedBounded(w: World, u: Id, th: Id, slot: nat)
    requires Base(w) && CanOpen(w, u, th, slot) && u !in w.v.body && w.v.state <= 1
    requires Bounded(w.v, Usable(w), w.lost) && LinkClosed(w.v.body, Usable(w))
    ensures Bounded(AfterOpen(w, u, th, slot).v, Usable(w) + {u}, w.lost)
    ensures LinkClosed(Opened(w.v.body, u, th, slot), Usable(w) + {u})
  {
    hide Base, Bounded, Typed, Grounded, LinkClosed, StrongClosed, LeafClosed, AllKnown, CanOpen, Opened, Ready;
    BaseIs(w);
    CanOpenIs(w, u, th, slot);
    BoundedIs(w.v, Usable(w), w.lost);
    BoundedMarks(w.v, Usable(w), w.lost);
    OpenedTyped(w, u, th, slot);
    OpenedGrounded(w, u, th, slot, Usable(w));
    OpenedClosed(w, u, th, slot);
    OpenedStrings(w, u, th, slot);
    LinkClosedBounds(Opened(w.v.body, u, th, slot), Usable(w) + {u}, w.lost);
    NewBounded(w.v, Opened(w.v.body, u, th, slot), u, Usable(w), w.lost);
    BoundedTwups(AfterOpen(w, u, th, slot).v, w.v.twups, Usable(w) + {u}, w.lost);
  }

  lemma BoundedTwups(v: View, l: seq<Id>, S: set<Id>, X: set<Id>)
    requires Bounded(v.(twups := l), S, X)
    ensures Bounded(v, S, X)
  {
  }

  lemma OpenedStrings(w: World, u: Id, th: Id, slot: nat)
    requires Bounded(w.v, Usable(w), w.lost) && th in w.v.body && w.v.body[th].Thread? && u !in w.v.body
    ensures HasStrings(Opened(w.v.body, u, th, slot), Usable(w) + {u})
    ensures forall x | x in Usable(w) + {u} ::
      x in Opened(w.v.body, u, th, slot) && !Opened(w.v.body, u, th, slot)[x].SweepMark?
    ensures Opened(w.v.body, u, th, slot).Keys == w.v.body.Keys + {u}
  {
  }

  lemma OpenedBlack(w: World, u: Id, th: Id, slot: nat, x: Id, S: set<Id>)
    requires th in w.v.body && w.v.body[th].Thread? && u !in w.v.body && Typed(w.v.body)
    requires x in w.v.body && !w.v.body[x].Thread? && PtrsIn(w.v.body, w.v.body[x], S)
    ensures PtrsIn(Opened(w.v.body, u, th, slot), Opened(w.v.body, u, th, slot)[x], S)
  {
    assert TypedBody(w.v.body, x);
  }

  lemma OpenedTri(w: World, u: Id, th: Id, slot: nat)
    requires th in w.v.body && w.v.body[th].Thread? && u !in w.v.body && w.v.body.Keys == w.v.m.color.Keys
    requires Tri(w.v, multiset{}, {}) && Threads(w.v, {}) && w.v.state <= 1 && Typed(w.v.body)
    ensures Tri(AfterOpen(w, u, th, slot).v, multiset{}, {})
    ensures Listed(AfterOpen(w, u, th, slot).v, multiset{}) == Listed(w.v, multiset{})
  {
    AllocWhites(w.v.m.color, u, w.v.cw);
    var v' := AfterOpen(w, u, th, slot).v;
    assert Listed(v', multiset{}) == Listed(w.v, multiset{});
    hide Typed, PtrsIn, Marked, Whites, Listed;
    forall x | x in w.v.body && w.v.m.color[x].Black?
      ensures PtrsIn(v'.body, v'.body[x], Marked(w.v.m.color))
    {
      OpenedBlack(w, u, th, slot, x, Marked(w.v.m.color));
    }
  }

  lemma OpenedLists(w: World, u: Id, th: Id, slot: nat)
    requires th in w.v.body && w.v.body[th].Thread? && u !in w.v.body && w.v.body.Keys == w.v.m.color.Keys
    requires Lists(w.v, w.lost) && w.v.state <= 1
    ensures Lists(AfterOpen(w, u, th, slot).v, w.lost)
  {
    AllocWhites(w.v.m.color, u, w.v.cw);
  }

  lemma OpenedRest(w: World, u: Id, th: Id, slot: nat)
    requires th in w.v.body && w.v.body[th].Thread? && u !in w.v.m.color
    requires OneWhite(w.v) && Paid(w.v, {}) && Single(Listed(w.v, multiset{}), w.v.m.color)
    ensures var v' := AfterOpen(w, u, th, slot).v;
      OneWhite(v') && Paid(v', {}) && Single(Listed(w.v, multiset{}), v'.m.color)
  {
    hide Single, Listed, Whites, Unpaid, Opened;
    var v' := AfterOpen(w, u, th, slot).v;
    AllocOneWhite(w.v, v', u);
    AllocSingle(Listed(w.v, multiset{}), w.v.m.color, u, w.v.cw);
    AllocUnpaid(w.v.m, u, w.v.cw);
    assert v'.m == w.v.m.(color := w.v.m.color[u := White(w.v.cw)], debt := w.v.m.debt + 1);
  }

  lemma OpenedMarking(w: World, u: Id, th: Id, slot: nat)
    requires Base(w) && Marking(w) && w.v.state <= 1 && CanOpen(w, u, th, slot) && u !in w.v.body
    ensures Marking(AfterOpen(w, u, th, slot))
  {
    hide Base, Bounded, Tri, Lists, Threads, LinkClosed, CanOpen, Typed, Marked, Whites, Single, Listed, Paid, OneWhite, Opened, Usable,
      StrayOk, Dead, Alive, UpValue, TypedBody, AllKnown, NoDup, PtrsIn, KeptOk;
    BaseIs(w);
    CanOpenIs(w, u, th, slot);
    OpenedSets(w, u, th, slot);
    OpenedBounded(w, u, th, slot);
    OpenedTri(w, u, th, slot);
    OpenedLists(w, u, th, slot);
    NotRemarked(w.v, w.lost);
    OpenedThreads(w, u, th, slot);
    OpenedRest(w, u, th, slot);
    AllocWhites(w.v.m.color, u, w.v.cw);
  }

  lemma OpenInv(w: World, u: Id, th: Id, slot: nat)
    requires Inv(w) && CanOpen(w, u, th, slot)
    ensures th in w.v.body && w.v.body[th].Thread?
    ensures Inv(AfterOpen(w, u, th, slot)) && Usable(AfterOpen(w, u, th, slot)) == Usable(w) + {u}
  {
    hide Base, Marking, LivePtrs, ThreadsListed, Usable, Dead, CanOpen, Opened, NoStrings;
    BaseIs(w);
    CanOpenIs(w, u, th, slot);
    DoomedExist(w);
    OpenedBase(w, u, th, slot);
    OpenedSets(w, u, th, slot);
    if w.v.state <= 1 {
      OpenedMarking(w, u, th, slot);
    } else {
      OpenedLive(w, u, th, slot);
      OpenedThreadsLive(w, u, th, slot);
      AllocShift(w.all, u);
      OpenedNoStrings(w, u, th, slot);
    }
  }

  lemma OpenedNoStrings(w: World, u: Id, th: Id, slot: nat)
    requires th in w.v.body && w.v.body[th].Thread? && NoStrings(w.v.body, w.doomed)
    ensures NoStrings(Opened(w.v.body, u, th, slot), w.doomed)
  {
  }

  // ---------------------------------------------------------------------- strong references

  lemma MinusElems(l: seq<Id>, x: Id)
    requires NoDup(l)
    ensures NoDup(Minus(l, x)) && Elems(Minus(l, x)) == Elems(l) - {x}
  {
  }

  lemma MinusParts(a: seq<Id>, b: seq<Id>, x: Id)
    ensures Minus(a + b, x) == Minus(a, x) + Minus(b, x)
  {
    if a == [] {
      assert a + b == b;
    } else {
      assert (a + b)[1..] == a[1..] + b;
      MinusParts(a[1..], b, x);
    }
  }

  /** Any change of the two parts of the list of strong references that leaves only usable ones. */
  lemma RefsInv(w: World, refs: seq<Id>, marked: seq<Id>)
    requires Inv(w) && NoDup(refs + marked)
    requires Elems(refs) <= Usable(w) && Elems(marked) <= Elems(w.markedRefs)
    ensures Inv(w.(refs := refs, markedRefs := marked))
  {
    hide Typed, AllKnown, Phase, LinkClosed, LivePtrs, ThreadsListed, NoDup, NoStrings;
    var w' := w.(refs := refs, markedRefs := marked);
    assert Usable(w') == Usable(w) && Dead(w') == Dead(w);
    assert w.markedRefs == [] ==> marked == [] by {
      if marked != [] {
        assert marked[0] in Elems(marked);
      }
    }
    assert LivePtrs(w) ==> LivePtrs(w') by { RefsLive(w, w'); }
    assert ThreadsListed(w) ==> ThreadsListed(w') by { RefsLive(w, w'); }
  }

  lemma RefsLive(w: World, w': World)
    requires w' == w.(refs := w'.refs, markedRefs := w'.markedRefs)
    ensures LivePtrs(w) ==> LivePtrs(w')
    ensures ThreadsListed(w) ==> ThreadsListed(w')
  {
    hide PtrsIn;
    assert Usable(w') == Usable(w) && Dead(w') == Dead(w) && Alive(w') == Alive(w);
    assert forall x | x in w.v.body && x !in Dead(w) && LiveAt(w, x) :: LiveAt(w', x);
  }

  // ---------------------------------------------------------------------- resurrection

  function AfterResurrect(w: World, x: Id): World {
    w.(v := w.v.(m := w.v.m.(color := w.v.m.color[x := White(w.v.cw)])))
  }

  lemma ResurrectSets(w: World, x: Id)
    requires w.v.state == 3 && x in Dead(w) && x in w.v.body && w.v.body[x].Str? && StrayOk(w)
    ensures var w' := AfterResurrect(w, x);
      && Dead(w') == Dead(w) - {x} && |Dead(w')| == |Dead(w)| - 1 && Usable(w') == Usable(w) + {x}
      && Alive(w') == Alive(w) + {x}
  {
    var w' := AfterResurrect(w, x);
    assert Dead(w') == Dead(w) - {x};
    assert Alive(w') == Alive(w) + {x};
    assert Usable(w') == Usable(w) + {x};
  }

  lemma ResurrectLive(w: World, x: Id)
    requires w.v.state == 3 && x in Dead(w) && x in w.v.body && w.v.body[x].Str?
    requires LivePtrs(w) && ThreadsListed(w) && StrayOk(w)
    ensures LivePtrs(AfterResurrect(w, x)) && ThreadsListed(AfterResurrect(w, x))
  {
    hide Usable, Dead, Alive;
    ResurrectSets(w, x);
    var w' := AfterResurrect(w, x);
    forall y | y in w'.v.body && y !in Dead(w') ensures LiveAt(w', y) {
      if y != x {
        assert LiveAt(w, y);
      }
    }
  }

  lemma ResurrectBase(w: World, x: Id)
    requires Base(w) && w.v.state == 3 && x in Dead(w) && x in w.v.body && w.v.body[x].Str?
    ensures Base(AfterResurrect(w, x))
  {
    hide Usable, Dead, Typed, AllKnown, NoDup;
    ResurrectSets(w, x);
    assert AfterResurrect(w, x).v.m.color.Keys == w.v.m.color.Keys by { InColors(w, x); }
  }

  lemma InColors(w: World, x: Id)
    requires x in Dead(w)
    ensures x in w.v.m.color
  {
  }

  lemma ResurrectInv(w: World, x: Id)
    requires Inv(w) && w.v.state == 3 && x in Dead(w) && x in w.v.body && w.v.body[x].Str?
    ensures Inv(AfterResurrect(w, x)) && Usable(AfterResurrect(w, x)) == Usable(w) + {x}
  {
    hide Base, Usable, Dead, LivePtrs, ThreadsListed, Typed, AllKnown, NoDup, Elems, StrayOk, Alive;
    BaseIs(w);
    ResurrectSets(w, x);
    ResurrectBase(w, x);
    ResurrectLive(w, x);
  }
}
