/** What the collector owes the program: which objects are held, and what becomes of them in a step and over runs. */
module GcSafety {
  import opened Basics
  import opened GcHeap
  import opened GcGrow
  import opened GcPhase
  import opened GcWorld
  import opened GcMutator
  import opened GcCycle

  // ---------------------------------------------------------------------- what is held

  /** S holds the strings and is closed under strong links; of a member of X only the metatable counts. */
  ghost predicate HoldClosed(B: Bodies, S: set<Id>, X: set<Id>) {
    && HasStrings(B, S)
    && forall x | x in B && x in S ::
         if x in X then B[x].Table? ==> OIn(B[x].mt, S) else StrongIn(B, B[x], S)
  }

  /** x is in every set that holds R and is so closed. */
  ghost predicate Held(B: Bodies, R: set<Id>, X: set<Id>, x: Id) {
    forall S: set<Id> | R <= S && HoldClosed(B, S, X) :: x in S
  }

  /** Without exemptions this is strong reachability. */
  lemma HeldIsReach(B: Bodies, R: set<Id>, x: Id)
    ensures Held(B, R, {}, x) <==> StrongReach(B, R, x)
  {
    forall S: set<Id> ensures HoldClosed(B, S, {}) <==> StrongClosed(B, S, {}) {
    }
  }

  ghost function HeldSet(B: Bodies, R: set<Id>, X: set<Id>): set<Id> {
    set x | x in B && Held(B, R, X, x)
  }

  /** A table whose strength was changed while a cycle had it put aside gives the program no right to its
      contents until the cycle is over (section 2.5.4 of the Lua 5.4 Reference Manual). */
  ghost function Exempt(w: World): set<Id> {
    if w.v.state <= 1 then w.lost else {}
  }

  /** What the program has a right to, strings aside. */
  ghost predicate HeldIn(w: World, x: Id) {
    x in w.v.body && !w.v.body[x].Str? && Held(w.v.body, Roots(w), Exempt(w), x)
  }

  // ---------------------------------------------------------------------- closed sets

  lemma StrongMeet(B: Bodies, b: Body, H: set<Id>)
    requires PtrsIn(B, b, B.Keys)
    requires forall p | p in B && p !in H :: exists S: set<Id> :: H <= S && p !in S && StrongIn(B, b, S)
    ensures StrongIn(B, b, H)
  {
    if b.Table? {
      TableMeet(B, b, H);
    } else {
      PtrsMeet(B, b, H);
    }
  }

  lemma PtrsMeet(B: Bodies, b: Body, H: set<Id>)
    requires PtrsIn(B, b, B.Keys) && !b.Table?
    requires forall p | p in B && p !in H :: exists S: set<Id> :: H <= S && p !in S && StrongIn(B, b, S)
    ensures PtrsIn(B, b, H)
  {
    forall p | p in B && p !in H ensures exists S: set<Id> :: p !in S && PtrsIn(B, b, S) {
      var S: set<Id> :| H <= S && p !in S && StrongIn(B, b, S);
    }
  }

  lemma TableMeet(B: Bodies, b: Body, H: set<Id>)
    requires PtrsIn(B, b, B.Keys) && b.Table?
    requires forall p | p in B && p !in H :: exists S: set<Id> :: H <= S && p !in S && StrongIn(B, b, S)
    ensures StrongIn(B, b, H)
  {
    var m := ModeOf(B, b);
    forall i | 0 <= i < |b.nodes| ensures StrongNode(m, b.nodes[i], H) {
      var e := b.nodes[i];
      assert NodePtrsIn(e, B.Keys);
      if e.key.Obj? && e.key.id !in H {
        var S: set<Id> :| H <= S && e.key.id !in S && StrongIn(B, b, S);
        assert StrongNode(m, e, S);
      }
      if e.val.Obj? && e.val.id !in H {
        var S: set<Id> :| H <= S && e.val.id !in S && StrongIn(B, b, S);
        assert StrongNode(m, e, S);
      }
    }
  }

  lemma StrongBoth(B: Bodies, b: Body, S: set<Id>, T: set<Id>)
    requires StrongIn(B, b, S) && StrongIn(B, b, T)
    ensures StrongIn(B, b, S * T)
  {
    if b.Table? {
      forall i | 0 <= i < |b.nodes| ensures StrongNode(ModeOf(B, b), b.nodes[i], S * T) {
        assert StrongNode(ModeOf(B, b), b.nodes[i], S) && StrongNode(ModeOf(B, b), b.nodes[i], T);
      }
    }
  }

  lemma HeldClosed(B: Bodies, R: set<Id>, X: set<Id>)
    requires R <= B.Keys && forall x | x in B && Held(B, R, X, x) :: PtrsIn(B, B[x], B.Keys)
    ensures HoldClosed(B, HeldSet(B, R, X), X) && R <= HeldSet(B, R, X)
  {
    var H := HeldSet(B, R, X);
    forall x | x in B && x in H
      ensures if x in X then B[x].Table? ==> OIn(B[x].mt, H) else StrongIn(B, B[x], H)
    {
      assert PtrsIn(B, B[x], B.Keys);
      if x !in X {
        forall p | p in B && p !in H ensures exists S: set<Id> :: H <= S && p !in S && StrongIn(B, B[x], S) {
          var S: set<Id> :| R <= S && HoldClosed(B, S, X) && p !in S;
          assert H <= S;
        }
        StrongMeet(B, B[x], H);
      }
    }
  }

  // ---------------------------------------------------------------------- what the end of marking marks

  /** What is in every set that marking has to stay within. */
  ghost function Least(w: World): set<Id> {
    set x | x in w.v.body && forall S | Bounds(w, S) :: x in S
  }

  lemma LeastBounds(w: World, U: set<Id>)
    requires Bounds(w, U)
    ensures Bounds(w, Least(w)) && Least(w) <= U
  {
    var H, B := Least(w), w.v.body;
    LeastPlain(w, U);
    forall x | x in B && x in H
      ensures x !in w.lost ==> StrongIn(B, B[x], H)
      ensures !Listable(B[x]) ==> PtrsIn(B, B[x], H)
    {
      LeastAt(w, U, x);
    }
    hide Typed, Grounded, StrongIn, PtrsIn;
  }

  lemma LeastPlain(w: World, U: set<Id>)
    requires Bounds(w, U)
    ensures Least(w) <= U && Marked(w.v.m.color) <= Least(w) && Elems(w.refs) <= Least(w)
    ensures HasStrings(w.v.body, Least(w))
  {
    hide StrongIn, LeafClosed, Typed, Grounded;
  }

  lemma LeastAt(w: World, U: set<Id>, x: Id)
    requires Bounds(w, U) && x in w.v.body && x in Least(w)
    ensures x !in w.lost ==> StrongIn(w.v.body, w.v.body[x], Least(w))
    ensures !Listable(w.v.body[x]) ==> PtrsIn(w.v.body, w.v.body[x], Least(w))
  {
    var H, B := Least(w), w.v.body;
    assert PtrsIn(B, B[x], B.Keys);
    hide PtrsIn, StrongIn, Typed, Marked;
    if x !in w.lost {
      forall p | p in B && p !in H ensures exists S: set<Id> :: H <= S && p !in S && StrongIn(B, B[x], S) {
        var S: set<Id> :| Bounds(w, S) && p !in S;
        assert H <= S && x in S;
      }
      StrongMeet(B, B[x], H);
    }
    if !Listable(B[x]) {
      forall p | p in B && p !in H ensures exists S: set<Id> :: H <= S && p !in S && PtrsIn(B, B[x], S) {
        var S: set<Id> :| Bounds(w, S) && p !in S;
        assert H <= S && x in S;
      }
      LeafMeet(B, B[x], H);
    }
  }

  lemma LeafMeet(B: Bodies, b: Body, H: set<Id>)
    requires PtrsIn(B, b, B.Keys) && !b.Table?
    requires forall p | p in B && p !in H :: exists S: set<Id> :: H <= S && p !in S && PtrsIn(B, b, S)
    ensures PtrsIn(B, b, H)
  {
  }

  // ---------------------------------------------------------------------- the step that ends marking

  /** Each table that is held and got another metatable after the cycle had put it aside has a metatable that
      marking reaches on another way. */
  ghost predicate MetaReached(w: World) {
    forall t | t in w.lost && t in w.v.body && w.v.body[t].Table? && Held(w.v.body, Roots(w), w.lost, t) ::
      OIn(w.v.body[t].mt, Least(w))
  }

  /** The sweep will leave what is held. */
  ghost predicate AllAlive(w: World, w': World) {
    forall x | HeldIn(w, x) :: x in Alive(w')
  }

  lemma IdsKnown(w: World)
    requires Inv(w)
    ensures Roots(w) <= w.v.body.Keys
    ensures w.v.state <= 1 ==> Grounded(w.v.body, Usable(w))
    ensures w.v.state == 1 ==> Bounds(w, Usable(w)) && Usable(w) <= w.v.body.Keys
  {
    hide Typed, AllKnown, NoDup, Tri, Lists, Threads, LinkClosed, LivePtrs;
  }

  lemma LostTables(w: World)
    requires Inv(w) && w.v.state == 1
    ensures forall t | t in w.lost :: t in w.v.body && w.v.body[t].Table?
  {
    hide Base, Tri, Threads, LinkClosed, Single, Bounded;
    assert forall t | t in w.lost :: t in w.v.allWeak;
  }

  lemma StrongLeaf(B: Bodies, S: set<Id>, X: set<Id>, x: Id)
    requires StrongClosed(B, S, X) && x in B && x in S && !Listable(B[x]) && x !in X
    ensures PtrsIn(B, B[x], S)
  {
    assert StrongIn(B, B[x], S);
  }

  lemma HeldBounds(w: World, S: set<Id>)
    requires Inv(w) && w.v.state == 1 && Marked(w.v.m.color) <= S && Roots(w) <= S
    requires S <= Usable(w) + Strings(w.v.body) && StrongClosed(w.v.body, S, w.lost)
    ensures Bounds(w, S)
  {
    hide Base, Tri, Threads, LinkClosed, Single, StrongClosed;
    LostTables(w);
    forall x | x in w.v.body && x in S && !Listable(w.v.body[x]) ensures PtrsIn(w.v.body, w.v.body[x], S) {
      StrongLeaf(w.v.body, S, w.lost, x);
    }
  }

  /** Strings aside, what the sweep will leave is exactly the least set. */
  lemma AliveIsLeast(w: World, w': World)
    requires Inv(w) && w.v.state == 1 && SweepBegun(w, w')
    ensures Bounds(w, Least(w)) && Alive(w') <= Least(w) <= Alive(w') + Strings(w.v.body)
    ensures Alive(w') <= Usable(w)
  {
    IdsKnown(w);
    LeastBounds(w, Usable(w));
    hide Inv, Usable, Alive, Lighter, Finals, Marked, Strings, Bounds, StrongClosed, Roots, Least;
    HeldBounds(w, Alive(w') + Strings(w.v.body));
    LeastBounds(w, Alive(w') + Strings(w.v.body));
  }

  lemma MetaNoString(w: World, t: Id)
    requires Inv(w) && t in w.v.body && w.v.body[t].Table? && w.v.body[t].mt.Some? && w.v.body[t].mt.value in w.v.body
    ensures !w.v.body[w.v.body[t].mt.value].Str?
  {
    hide Marking, Idle, Sweeping, AllKnown, NoDup;
    assert TypedBody(w.v.body, t);
  }

  /** The end of marking does right by everything that is held if and only if the metatables of held tables are
      marked on another way than through those tables. */
  lemma AtomicSafe(w: World, w': World)
    requires Inv(w) && w.v.state == 1 && SweepBegun(w, w')
    ensures AllAlive(w, w') <==> MetaReached(w)
  {
    hide Inv, Usable, Alive, Least, Roots, Lighter, Finals, Bounds, Marked, Held;
    AliveIsLeast(w, w');
    IdsKnown(w);
    HeldGrounded(w);
    HeldClosed(w.v.body, Roots(w), w.lost);
    if MetaReached(w) {
      MetaEnough(w, w');
    }
    if AllAlive(w, w') {
      forall t | t in w.lost && t in w.v.body && w.v.body[t].Table? && Held(w.v.body, Roots(w), w.lost, t)
        ensures OIn(w.v.body[t].mt, Least(w))
      {
        if w.v.body[t].mt.Some? {
          assert t in HeldSet(w.v.body, Roots(w), w.lost);
          assert w.v.body[t].mt.value in HeldSet(w.v.body, Roots(w), w.lost);
          MetaNoString(w, t);
          assert HeldIn(w, w.v.body[t].mt.value);
        }
      }
    }
  }

  lemma HoldBoth(B: Bodies, M: set<Id>, H: set<Id>, X: set<Id>)
    requires StrongClosed(B, M, X) && HoldClosed(B, H, X)
    requires forall t | t in X && t in B && t in H && B[t].Table? :: OIn(B[t].mt, M)
    ensures HoldClosed(B, M * H, X)
  {
    hide StrongIn;
    forall x | x in B && x in M * H && x !in X ensures StrongIn(B, B[x], M * H) {
      StrongBoth(B, B[x], M, H);
    }
  }

  lemma NotString(B: Bodies, x: Id)
    requires x in B && !B[x].Str?
    ensures x !in Strings(B)
  {
  }

  lemma MetaEnough(w: World, w': World)
    requires Inv(w) && w.v.state == 1 && SweepBegun(w, w') && MetaReached(w)
    ensures AllAlive(w, w')
  {
    var B, R, X := w.v.body, Roots(w), w.lost;
    var M := Alive(w') + Strings(B);
    AliveIsLeast(w, w');
    IdsKnown(w);
    HeldGrounded(w);
    HeldClosed(B, R, X);
    hide Inv, Usable, Alive, Least, Roots, Lighter, Finals, Bounds, Marked, Held, StrongClosed, HoldClosed, Strings;
    HoldBoth(B, M, HeldSet(B, R, X), X);
    forall x | HeldIn(w, x) ensures x in Alive(w') {
      HeldHere(B, R, X, x, M * HeldSet(B, R, X));
      NotString(B, x);
    }
  }

  lemma HeldHere(B: Bodies, R: set<Id>, X: set<Id>, x: Id, S: set<Id>)
    requires Held(B, R, X, x) && R <= S && HoldClosed(B, S, X)
    ensures x in S
  {
  }

  /** What is held refers to what there is. */
  lemma HeldGrounded(w: World)
    requires Inv(w) && w.v.state == 1
    ensures forall x | x in w.v.body && Held(w.v.body, Roots(w), w.lost, x) ::
      PtrsIn(w.v.body, w.v.body[x], w.v.body.Keys)
  {
    IdsKnown(w);
    hide Inv, Usable, Roots, Held, PtrsIn;
    forall x | x in w.v.body && Held(w.v.body, Roots(w), w.lost, x) ensures PtrsIn(w.v.body, w.v.body[x], w.v.body.Keys) {
      if w.v.body[x].Str? {
        StringPtrs(w.v.body, x);
      } else {
        HeldUsable(w, x);
      }
    }
  }

  lemma StringPtrs(B: Bodies, x: Id)
    requires x in B && B[x].Str?
    ensures PtrsIn(B, B[x], B.Keys)
  {
  }

  // ---------------------------------------------------------------------- links that dangle

  /** Each table that links lead to and that got another metatable after the cycle had put it aside has a metatable
      that marking reaches on another way. */
  ghost predicate MetaSound(w: World, w': World) {
    forall t | t in w.lost && t in w.v.body && w.v.body[t].Table? && LinkReach(w'.v.body, Roots(w'), t) ::
      OIn(w.v.body[t].mt, Least(w))
  }

  /** No link from the roots, weak ones included, leads to an object that the sweep will free. */
  ghost predicate NoneDangles(w': World) {
    forall x | LinkReach(w'.v.body, Roots(w'), x) :: x in Alive(w')
  }

  /** After the end of marking no link dangles if and only if the metatables of the tables that links lead to are
      marked on another way than through those tables. */
  lemma AtomicSound(w: World, w': World)
    requires Inv(w) && w.v.state == 1 && Collected(w, w')
    ensures NoneDangles(w') <==> MetaSound(w, w')
  {
    RootsKept(w, w');
    hide Inv, Usable, Alive, Least, Roots, Bounds, Marked, LinkReach, Finals;
    AliveIsLeast(w, w');
    var B, B', U := w.v.body, w'.v.body, Alive(w');
    if NoneDangles(w') {
      forall t | t in w.lost && t in B && B[t].Table? && LinkReach(B', Roots(w'), t)
        ensures OIn(B[t].mt, Least(w))
      {
        LighterMeta(B, B', B.Keys - (U + Strings(B)), t);
        if B'[t].mt.Some? {
          MetaLink(B', Roots(w'), t);
        }
      }
    }
    if MetaSound(w, w') {
      hide MetaSound, Lighter, StrongClosed, Finals;
      forall x | LinkReach(B', Roots(w'), x) ensures x in U {
        ReachThrough(w, w', x);
      }
    }
  }

  lemma LighterMeta(B: Bodies, B': Bodies, gone: set<Id>, t: Id)
    requires Lighter(B, B', gone) && t in B && B[t].Table?
    ensures t in B' && B'[t].Table? && B'[t].mt == B[t].mt
  {
    assert WeakerBody(B[t], B'[t], gone);
  }

  lemma MetaLink(B: Bodies, R: set<Id>, t: Id)
    requires LinkReach(B, R, t) && t in B && B[t].Table? && B[t].mt.Some?
    ensures LinkReach(B, R, B[t].mt.value)
  {
    forall S: set<Id> | R <= S && LinkClosed(B, S) ensures B[t].mt.value in S {
      assert LinksIn(B, B[t], S);
    }
  }

  lemma ReachThrough(w: World, w': World, x: Id)
    requires Inv(w) && w.v.state == 1 && SweepBegun(w, w') && Roots(w') == Roots(w)
    requires MetaSound(w, w') && LinkReach(w'.v.body, Roots(w'), x)
    ensures x in Alive(w')
  {
    var B', R, U := w'.v.body, Roots(w'), Alive(w');
    var T := set y | y in U && LinkReach(B', R, y);
    hide Inv, Alive, Least, Roots, MetaSound, LinksIn, Lighter, StrongClosed, Finals;
    forall y | y in R ensures y in T {
      RootReach(B', R, y);
    }
    forall y | y in B' && y in T ensures LinksIn(B', B'[y], T) {
      SoundPtrs(w, w', y);
      ReachLinks(B', R, y);
      LinksMeet(B', R, B'[y], U, T);
    }
    assert LinkClosed(B', T);
  }

  lemma RootReach(B: Bodies, R: set<Id>, y: Id)
    requires y in R
    ensures LinkReach(B, R, y)
  {
  }

  lemma ReachLinks(B: Bodies, R: set<Id>, y: Id)
    requires LinkReach(B, R, y) && y in B
    ensures forall S: set<Id> | R <= S && LinkClosed(B, S) :: LinksIn(B, B[y], S)
  {
    hide LinksIn;
  }

  /** An object that can be used and that links lead to refers to usable objects only. */
  lemma SoundPtrs(w: World, w': World, y: Id)
    requires Inv(w) && w.v.state == 1 && SweepBegun(w, w')
    requires MetaSound(w, w') && y in Alive(w') && LinkReach(w'.v.body, Roots(w'), y)
    ensures y in w'.v.body && LinksIn(w'.v.body, w'.v.body[y], Alive(w'))
  {
    hide Inv, Usable, Alive, Least, Roots, LinkReach, StrongClosed;
    AliveIsLeast(w, w');
    LostTables(w);
    var B, B', U := w.v.body, w'.v.body, Alive(w');
    assert Final(B', y, U, w.lost);
    if y in w.lost {
      LighterMeta(B, B', B.Keys - (U + Strings(B)), y);
      if B[y].mt.Some? {
        MetaThere(w, y);
        MetaNoString(w, y);
        NotString(B, B[y].mt.value);
      }
    }
  }

  /** No links lead from R to t if none do from any member of R. */
  lemma ReachFrom(B: Bodies, R: set<Id>, t: Id)
    requires forall r | r in R :: !LinkReach(B, {r}, t)
    ensures !LinkReach(B, R, t)
  {
    var S := Apart(B, R, t);
  }

  /** A set that is closed under links, holds R and not t. */
  ghost function Apart(B: Bodies, R: set<Id>, t: Id): (S: set<Id>)
    requires forall r | r in R :: !LinkReach(B, {r}, t)
    ensures R <= S && LinkClosed(B, S) && t !in S
    decreases |R|
  {
    if R == {} then {}
    else
      var r :| r in R;
      assert !LinkReach(B, {r}, t);
      var S: set<Id> :| {r} <= S && LinkClosed(B, S) && t !in S;
      var T := Apart(B, R - {r}, t);
      BothClosed(B, S, T);
      S + T
  }

  lemma BothClosed(B: Bodies, S: set<Id>, T: set<Id>)
    requires LinkClosed(B, S) && LinkClosed(B, T)
    ensures LinkClosed(B, S + T)
  {
    forall y | y in B && y in S + T ensures LinksIn(B, B[y], S + T) {
      LinksMono(B, B[y], if y in S then S else T, S + T);
    }
  }

  lemma ReachMono(B: Bodies, R: set<Id>, r: Id, t: Id)
    requires r in R && LinkReach(B, {r}, t)
    ensures LinkReach(B, R, t)
  {
  }

  /** The condition is that no root is stray. */
  lemma SoundRoots(w: World, w': World)
    requires Inv(w) && w.v.state == 1 && Collected(w, w') && w'.stray == Strays(w'.v.body, w.lost, Alive(w'))
    ensures MetaSound(w, w') <==> Roots(w) !! w'.stray
  {
    RootsKept(w, w');
    AliveIsLeast(w, w');
    IdsKnown(w);
    LostTables(w);
    hide Inv, Usable, Alive, Least, Roots, Bounds, Marked, LinkReach, Finals, StrongClosed, Lighter;
    var B, B', A := w.v.body, w'.v.body, Alive(w');
    forall t | t in w.lost
      ensures t in B' && B'[t].Table? && (t in Bad(B', w.lost, A) <==> !OIn(B[t].mt, Least(w)))
    {
      LighterMeta(B, B', B.Keys - (A + Strings(B)), t);
      BadIs(w, t, A);
    }
    if r :| r in Roots(w) && r in w'.stray {
      var t :| t in Bad(B', w.lost, A) && LinkReach(B', {r}, t);
      ReachMono(B', Roots(w), r, t);
    } else if !MetaSound(w, w') {
      var t :| t in w.lost && t in B && B[t].Table? && LinkReach(B', Roots(w'), t) && !OIn(B[t].mt, Least(w));
      if forall r | r in Roots(w) :: !LinkReach(B', {r}, t) {
        ReachFrom(B', Roots(w), t);
      }
    }
  }

  lemma BadIs(w: World, t: Id, A: set<Id>)
    requires Inv(w) && w.v.state == 1 && t in w.lost && t in w.v.body && w.v.body[t].Table?
    requires A <= Least(w) <= A + Strings(w.v.body)
    ensures OIn(w.v.body[t].mt, A) <==> OIn(w.v.body[t].mt, Least(w))
  {
    hide Inv, Least;
    if w.v.body[t].mt.Some? && w.v.body[t].mt.value in w.v.body {
      MetaNoString(w, t);
      NotString(w.v.body, w.v.body[t].mt.value);
    }
  }

  lemma LinksMeet(B: Bodies, R: set<Id>, b: Body, U: set<Id>, T: set<Id>)
    requires LinksIn(B, b, U) && forall S: set<Id> | R <= S && LinkClosed(B, S) :: LinksIn(B, b, S)
    requires forall p | p in U && LinkReach(B, R, p) :: p in T
    ensures LinksIn(B, b, T)
  {
    hide LinkClosed;
  }

  /** If no table gets another metatable after the cycle has put it aside, the step does right by all that is
      strongly reachable, and no link dangles. */
  lemma UnlessStored(w: World, w': World)
    requires Inv(w) && w.v.state == 1 && w.lost == {} && Collected(w, w')
    ensures NoneDangles(w')
    ensures forall x | x in w.v.body && !w.v.body[x].Str? && StrongReach(w.v.body, Roots(w), x) :: x in Alive(w')
  {
    AtomicSafe(w, w');
    AtomicSound(w, w');
    hide Inv, SweepBegun, Alive, Roots, Held, StrongReach, LinkReach;
    forall x | x in w.v.body && !w.v.body[x].Str? && StrongReach(w.v.body, Roots(w), x) ensures x in Alive(w') {
      HeldIsReach(w.v.body, Roots(w), x);
    }
  }

  // ---------------------------------------------------------------------- every step

  /** Links lead from the roots to what can be used; so whatever is held can be used. */
  lemma HeldUsable(w: World, x: Id)
    requires Inv(w) && HeldIn(w, x)
    ensures x in Usable(w)
  {
    hide Inv, Usable, Roots, Held;
    UsableClosed(w);
    LinksHold(w.v.body, Usable(w), Exempt(w));
    HeldHere(w.v.body, Roots(w), Exempt(w), x, Usable(w) + Strings(w.v.body));
    NotString(w.v.body, x);
  }

  lemma LinksHold(B: Bodies, S: set<Id>, X: set<Id>)
    requires LinkClosed(B, S)
    ensures HoldClosed(B, S + Strings(B), X)
  {
    var T := S + Strings(B);
    forall x | x in B && x in T ensures StrongIn(B, B[x], T) && (B[x].Table? ==> OIn(B[x].mt, T)) {
      if x in S {
        assert LinksIn(B, B[x], S);
      }
    }
  }

  ghost function Unheld(w: World): set<Id> {
    set x | x in w.v.body && !w.v.body[x].Str? && !HeldIn(w, x)
  }

  /** x is still there with the links it had: only entries that refer to something that is not held may have
      been removed from it. An upvalue may have been closed, with its value. */
  ghost predicate Keeps(w: World, w': World, x: Id) {
    && x in w.v.body && x in w'.v.body
    && if IsUpVal(w.v.body[x])
       then IsUpVal(w'.v.body[x]) && UpValue(w'.v.body, w'.v.body[x]) == UpValue(w.v.body, w.v.body[x])
       else WeakerBody(w.v.body[x], w'.v.body[x], Unheld(w))
  }

  lemma WeakerBodyMono(b: Body, b': Body, gone: set<Id>, more: set<Id>)
    requires WeakerBody(b, b', gone) && gone <= more
    ensures WeakerBody(b, b', more)
  {
  }

  /** Safety of one step: the sweep will leave what is held, and it keeps its links. */
  lemma StepKeeps(w: World, w': World, x: Id)
    requires Collect(w, w') && HeldIn(w, x) && (w.v.state == 1 ==> MetaReached(w))
    ensures x in Alive(w') && Keeps(w, w', x)
  {
    StatesAfter(w, w');
    hide Inv, Held, Usable, Alive, Roots, Weaker, Lighter, SameLive, SweepBegun, Dead, MetaReached;
    UsableIsAlive(w');
    if w.v.state == 1 {
      AtomicKeeps(w, w', x);
    } else if w.v.state == 0 {
      PropagateKeeps(w, w', x);
    } else if w.v.state == 8 {
      StartKeeps(w, w', x);
    } else {
      SweepKeeps(w, w', x);
    }
  }

  lemma AtomicKeeps(w: World, w': World, x: Id)
    requires Inv(w) && w.v.state == 1 && SweepBegun(w, w') && MetaReached(w) && HeldIn(w, x)
    ensures x in Alive(w') && Keeps(w, w', x)
  {
    AtomicSafe(w, w');
    var gone := w.v.body.Keys - (Alive(w') + Strings(w.v.body));
    hide Inv, Held, Alive, Roots, MetaReached, StrongClosed, Bounds, Marked, Finals;
    assert gone <= Unheld(w);
    LighterAt(w.v.body, w'.v.body, gone, x);
    WeakerBodyMono(w.v.body[x], w'.v.body[x], gone, Unheld(w));
  }

  lemma UsableIsAlive(w: World)
    requires Inv(w)
    ensures Usable(w) <= Alive(w)
  {
    if w.v.state <= 1 {
      AllWhite(w.v, Usable(w), w.lost);
      hide Inv, Usable, Phase;
    } else {
      hide Inv;
    }
  }

  /** While marking nothing has the other white. */
  lemma AllWhite(v: View, S: set<Id>, X: set<Id>)
    requires Phase(v, S, X, multiset{}, {})
    ensures WhitesOf(v.m.color, !v.cw) == {} && S <= v.body.Keys - Sentinels(v.body)
  {
    hide Tri, Lists, Threads, Single, StrongClosed, Typed, LeafClosed, Grounded;
  }

  lemma LighterAt(B: Bodies, B': Bodies, gone: set<Id>, x: Id)
    requires Lighter(B, B', gone) && x in B
    ensures x in B' && WeakerBody(B[x], B'[x], gone)
    ensures IsUpVal(B[x]) ==> B'[x] == B[x] && (Typed(B) ==> UpValue(B', B'[x]) == UpValue(B, B[x]))
  {
    assert WeakerBody(B[x], B'[x], gone);
    if B[x].OpenUp? && Typed(B) {
      assert TypedBody(B, x);
      assert WeakerBody(B[B[x].th], B'[B[x].th], gone);
    }
  }

  lemma LighterKind(B: Bodies, B': Bodies, gone: set<Id>, x: Id)
    requires Lighter(B, B', gone) && x in B
    ensures x in B' && B'[x].Str? == B[x].Str? && B'[x].Table? == B[x].Table?
    ensures B[x].Table? && (B[x].mt.Some? ==> B[x].mt.value in B) ==> ModeOf(B', B'[x]) == ModeOf(B, B[x])
  {
    assert WeakerBody(B[x], B'[x], gone);
    if B[x].Table? && B[x].mt.Some? && B[x].mt.value in B {
      assert WeakerBody(B[B[x].mt.value], B'[B[x].mt.value], gone);
    }
  }

  lemma MetaThere(w: World, y: Id)
    requires Inv(w) && w.v.state == 1 && y in w.v.body && w.v.body[y].Table? && w.v.body[y].mt.Some?
    requires y in Usable(w)
    ensures w.v.body[y].mt.value in w.v.body
  {
    IdsKnown(w);
    assert PtrsIn(w.v.body, w.v.body[y], w.v.body.Keys);
  }

  lemma TypedHere(w: World)
    requires Inv(w)
    ensures Typed(w.v.body)
  {
  }

  lemma PropagateKeeps(w: World, w': World, x: Id)
    requires Collect(w, w') && w.v.state == 0 && HeldIn(w, x)
    ensures x in Usable(w') && Keeps(w, w', x)
  {
    var B, B' := w.v.body, w'.v.body;
    StatesAfter(w, w');
    hide Inv, Held, Usable, Roots, Dead, Unreached;
    WeakerBodyOf(B, B', {}, x);
    WeakerBodyMono(B[x], B'[x], {}, Unheld(w));
    WeakerSame(B, B', {}, x);
    SameHeld(B, B', Roots(w), w.lost, x);
    RootsKept(w, w');
    HeldUsable(w', x);
  }

  lemma SameHeld(B: Bodies, B': Bodies, R: set<Id>, X: set<Id>, x: Id)
    requires Weaker(B, B', {}) && x in B
    ensures Held(B, R, X, x) ==> Held(B', R, X, x)
    ensures B'[x].Str? == B[x].Str?
  {
    WeakerKind(B, B', {});
    forall S: set<Id> | HoldClosed(B', S, X) ensures HoldClosed(B, S, X) {
      forall y | y in B && y in S
        ensures if y in X then B[y].Table? ==> OIn(B[y].mt, S) else StrongIn(B, B[y], S)
      {
        WeakerIn(B, B', {}, y, S);
        WeakerBodyOf(B, B', {}, y);
      }
    }
  }

  lemma RootsKept(w: World, w': World)
    requires Collected(w, w')
    ensures w.v.state != 8 || w.markedRefs == [] ==> Roots(w') == Roots(w)
  {
    assert Elems(w.refs + w.markedRefs) == Elems(w.refs) + Elems(w.markedRefs);
    assert Elems([]) == {};
  }

  /** The states a step leads to. */
  lemma StatesAfter(w: World, w': World)
    requires Inv(w) && Inv(w')
    ensures w.v.state == 8 ==> w.markedRefs == []
    ensures w.v.state == 0 || w.v.state == 1 || w.v.state == 3 || w.v.state == 8
  {
  }

  lemma StartKeeps(w: World, w': World, x: Id)
    requires Collect(w, w') && w.v.state == 8 && HeldIn(w, x)
    ensures x in Usable(w') && Keeps(w, w', x)
  {
    StatesAfter(w, w');
    hide Inv, Held, Usable, Roots, Dead, Unreached;
    RootsKept(w, w');
    HeldUsable(w', x);
  }

  lemma SweepKeeps(w: World, w': World, x: Id)
    requires Collect(w, w') && w.v.state == 3 && HeldIn(w, x)
    ensures x in Usable(w') && Keeps(w, w', x)
  {
    hide *;
    MoveInvs(w, w');
    SweepHeld(w, w', x);
    HeldUsable(w, x);
    HeldUsable(w', x);
    SweepParts(w, w');
    SameKeeps(w, w', x);
  }

  lemma MoveInvs(w: World, w': World)
    requires Collect(w, w')
    ensures Inv(w) && Inv(w')
  {
  }

  lemma SameKeeps(w: World, w': World, x: Id)
    requires Same(w.v.body, w'.v.body, x)
    ensures Keeps(w, w', x)
  {
  }

  lemma SweepHeld(w: World, w': World, x: Id)
    requires Collect(w, w') && w.v.state == 3 && HeldIn(w, x)
    ensures HeldIn(w', x)
  {
    hide *;
    var B, B', R, U := w.v.body, w'.v.body, Roots(w), Usable(w);
    MoveInvs(w, w');
    SweepFacts(w, w', x);
    SweepParts(w, w');
    HeldUsable(w, x);
    forall S: set<Id> | R <= S && HoldClosed(B', S, {}) ensures HoldClosed(B, S * U + Strings(B), {}) {
      SweepBack(B, B', U, S);
    }
    HeldBack(B, B', R, U, x);
    StaysHeld(w, w', x);
  }

  lemma SweepFacts(w: World, w': World, x: Id)
    requires Collect(w, w') && w.v.state == 3 && HeldIn(w, x)
    ensures Roots(w') == Roots(w) && Held(w.v.body, Roots(w), {}, x) && x !in Strings(w.v.body)
  {
    RootsKept(w, w');
    hide Inv, Held, Roots;
  }

  lemma StaysHeld(w: World, w': World, x: Id)
    requires Collect(w, w') && w.v.state == 3 && x in Usable(w) && Same(w.v.body, w'.v.body, x)
    requires HeldIn(w, x) && Held(w'.v.body, Roots(w'), {}, x)
    ensures HeldIn(w', x)
  {
    hide Inv, Held, Roots, Usable;
  }

  lemma HeldBack(B: Bodies, B': Bodies, R: set<Id>, U: set<Id>, x: Id)
    requires Held(B, R, {}, x) && R <= U && x !in Strings(B)
    requires forall S: set<Id> | R <= S && HoldClosed(B', S, {}) :: HoldClosed(B, S * U + Strings(B), {})
    ensures Held(B', R, {}, x)
  {
    hide HoldClosed, Strings;
    forall S: set<Id> | R <= S && HoldClosed(B', S, {}) ensures x in S {
      assert R <= S * U + Strings(B);
    }
  }

  lemma SweepParts(w: World, w': World)
    requires Collect(w, w') && w.v.state == 3
    ensures Roots(w) <= Usable(w) <= w.v.body.Keys
    ensures forall y | y in Usable(w) :: Same(w.v.body, w'.v.body, y) && LinksIn(w.v.body, w.v.body[y], Usable(w))
  {
    hide Same, Typed, AllKnown, NoDup, Unreached;
    UsableClosed(w);
  }

  lemma SweepBack(B: Bodies, B': Bodies, U: set<Id>, S: set<Id>)
    requires forall y | y in U :: Same(B, B', y) && LinksIn(B, B[y], U)
    requires HoldClosed(B', S, {})
    ensures HoldClosed(B, S * U + Strings(B), {})
  {
    var T := S * U + Strings(B);
    forall y | y in B && y in T ensures StrongIn(B, B[y], T) {
      if !B[y].Str? {
        assert Same(B, B', y) && StrongIn(B', B'[y], S);
        forall p | p in U ensures p in T <==> p in S {
          assert Same(B, B', p);
        }
        SweepBackOne(B, B', U, S, T, y);
      }
    }
  }

  lemma SweepBackOne(B: Bodies, B': Bodies, U: set<Id>, S: set<Id>, T: set<Id>, y: Id)
    requires forall p | p in U :: Same(B, B', p)
    requires y in U && y in B && y in B' && LinksIn(B, B[y], U) && StrongIn(B', B'[y], S)
    requires forall p | p in U :: p in T <==> p in S
    ensures StrongIn(B, B[y], T)
  {
    assert Same(B, B', y);
    if B[y].Table? {
      if B[y].mt.Some? {
        assert Same(B, B', B[y].mt.value);
      }
      var m := ModeOf(B, B[y]);
      assert ModeOf(B', B'[y]) == m;
      forall i | 0 <= i < |B[y].nodes| ensures StrongNode(m, B[y].nodes[i], T) {
        assert StrongNode(m, B[y].nodes[i], S);
        assert !B[y].nodes[i].val.Nil? ==> NodePtrsIn(B[y].nodes[i], U);
      }
    }
  }

  /** Safety over runs: whatever the program has a right to before a step of the collector is there after it, the
      sweep will leave it, and it has its links, to strings too. A step of the program frees nothing at all. */
  lemma RunKeeps(ws: seq<World>, i: nat, x: Id)
    requires Run(ws) && i + 1 < |ws| && HeldIn(ws[i], x) && (ws[i].v.state == 1 ==> MetaReached(ws[i]))
    ensures x in ws[i].v.body && x in ws[i + 1].v.body
    ensures Collect(ws[i], ws[i + 1]) ==> x in Alive(ws[i + 1]) && Keeps(ws[i], ws[i + 1], x)
    ensures Collect(ws[i], ws[i + 1]) ==> LinksKept(ws[i].v.body, Exempt(ws[i]), x, Alive(ws[i + 1]))
  {
    hide Inv, Held, Alive, Roots, Collected, Keeps, MetaReached, LinksKept, Exempt;
    if Collect(ws[i], ws[i + 1]) {
      StepKeeps(ws[i], ws[i + 1], x);
      StepLinks(ws[i], ws[i + 1], x);
      KeptThere(ws[i], ws[i + 1], x);
    }
  }

  /** No step of the program gives a table that has been put aside another metatable. */
  ghost predicate NoneStored(ws: seq<World>) {
    ws != [] && ws[0].lost == {} && forall k | 0 <= k < |ws| - 1 && !Collect(ws[k], ws[k + 1]) :: ws[k + 1].lost <= ws[k].lost
  }

  lemma {:induction false} NeverLost(ws: seq<World>, i: nat)
    requires NoneStored(ws) && i < |ws|
    ensures ws[i].lost == {}
  {
    hide Move;
    if i > 0 {
      NeverLost(ws, i - 1);
      var w, w' := ws[i - 1], ws[i - 1 + 1];
      assert Collect(w, w') || w'.lost <= w.lost;
    }
  }

  /** In a run without such stores what is strongly reachable is safe in every step. */
  lemma RunStrong(ws: seq<World>, i: nat, x: Id)
    requires Run(ws) && NoneStored(ws) && i + 1 < |ws|
    requires x in ws[i].v.body && !ws[i].v.body[x].Str? && StrongReach(ws[i].v.body, Roots(ws[i]), x)
    ensures x in ws[i + 1].v.body
    ensures Collect(ws[i], ws[i + 1]) ==> x in Alive(ws[i + 1]) && Keeps(ws[i], ws[i + 1], x)
  {
    NeverLost(ws, i);
    HeldIsReach(ws[i].v.body, Roots(ws[i]), x);
    hide Run, Held, StrongReach, NoneStored, Collect, Keeps, Roots, Alive;
    RunKeeps(ws, i, x);
  }

  lemma KeptThere(w: World, w': World, x: Id)
    requires Keeps(w, w', x)
    ensures x in w'.v.body
  {
  }

  // ---------------------------------------------------------------------- what stays held

  /** The strong links of b, but for entries and slots that refer to something outside M. */
  ghost predicate ViaIn(B: Bodies, b: Body, S: set<Id>, M: set<Id>) {
    if b.Table? then
      var m := ModeOf(B, b);
      && OIn(b.mt, S)
      && (!m.weakValues ==> forall i | 0 <= i < |b.arr| && VIn(b.arr[i], M) :: VIn(b.arr[i], S))
      && forall i | 0 <= i < |b.nodes| && NodePtrsIn(b.nodes[i], M) :: StrongNode(m, b.nodes[i], S)
    else PtrsIn(B, b, S)
  }

  ghost predicate ViaClosed(B: Bodies, S: set<Id>, M: set<Id>) {
    HasStrings(B, S) && forall x | x in B && x in S :: ViaIn(B, B[x], S, M)
  }

  /** x is held through entries that refer to nothing outside M. */
  ghost predicate HeldVia(B: Bodies, R: set<Id>, M: set<Id>, x: Id) {
    forall S: set<Id> | R <= S && ViaClosed(B, S, M) :: x in S
  }

  /** y, which can be used, before and after the step that ends marking. */
  ghost predicate Cleared(B: Bodies, B': Bodies, M: set<Id>, U: set<Id>, y: Id) {
    && y in U && y in B && y in B' && U <= M
    && WeakerBody(B[y], B'[y], B.Keys - M) && LinksIn(B', B'[y], U)
    && (B[y].Table? ==> ModeOf(B', B'[y]) == ModeOf(B, B[y]))
    && (IsUpVal(B[y]) ==> UpValue(B', B'[y]) == UpValue(B, B[y]))
  }

  lemma ClearedLinks(B: Bodies, B': Bodies, M: set<Id>, U: set<Id>, y: Id, S: set<Id>, S': set<Id>)
    requires Cleared(B, B', M, U, y) && forall p | p in U :: p in S <==> p in S'
    ensures ViaIn(B, B[y], S, M) <==> StrongIn(B', B'[y], S')
  {
    if B[y].Table? {
      var b, b', m := B[y], B'[y], ModeOf(B, B[y]);
      forall i | 0 <= i < |b.nodes|
        ensures (NodePtrsIn(b.nodes[i], M) ==> StrongNode(m, b.nodes[i], S)) <==> StrongNode(m, b'.nodes[i], S')
      {
        ClearedNode(b, b', B.Keys - M, M, U, i, m, S, S');
      }
      forall i | 0 <= i < |b.arr| ensures (VIn(b.arr[i], M) ==> VIn(b.arr[i], S)) <==> VIn(b'.arr[i], S') {
        assert b == b' || ValWeaker(b.arr[i], b'.arr[i], B.Keys - M);
        assert VIn(b'.arr[i], U);
      }
    }
  }

  lemma ClearedNode(b: Body, b': Body, gone: set<Id>, M: set<Id>, U: set<Id>, i: nat, m: Mode, S: set<Id>, S': set<Id>)
    requires b.Table? && b'.Table? && WeakerBody(b, b', gone) && gone !! M && U <= M
    requires i < |b.nodes| && (!b'.nodes[i].val.Nil? ==> NodePtrsIn(b'.nodes[i], U)) && forall p | p in U :: p in S <==> p in S'
    ensures (NodePtrsIn(b.nodes[i], M) ==> StrongNode(m, b.nodes[i], S)) <==> StrongNode(m, b'.nodes[i], S')
  {
    assert b == b' || EntryWeaker(b.nodes[i], b'.nodes[i], gone);
  }

  lemma AtomicLeast(w: World, w': World)
    requires Inv(w) && w.v.state == 1 && SweepBegun(w, w')
    ensures Least(w) == Alive(w') + Strings(w.v.body) && Roots(w) <= Alive(w')
    ensures Alive(w') <= Usable(w) <= w.v.body.Keys
  {
    AliveIsLeast(w, w');
    IdsKnown(w);
    LeastPlain(w, Usable(w));
    LeastStrings(w);
    hide Inv, Usable, Alive, Lighter, Finals, Bounds, Least, Roots, StrongClosed, Strings;
  }

  lemma AtomicCleared(w: World, w': World)
    requires Collect(w, w') && w.v.state == 1
    ensures Usable(w') + Strings(w.v.body) <= Least(w) && Roots(w) <= Usable(w')
    ensures forall y | y in Usable(w') :: y in w.v.body && y in w'.v.body
    ensures forall y | y in Usable(w') :: Cleared(w.v.body, w'.v.body, Least(w), Usable(w'), y)
    ensures forall y | y in Usable(w') :: w.v.body[y].Str? == w'.v.body[y].Str?
  {
    hide *;
    MoveInvs(w, w');
    BegunIs(w, w');
    AtomicLeast(w, w');
    UsableAlive(w');
    UsableClosed(w');
    forall y | y in Usable(w')
      ensures y in w.v.body && y in w'.v.body && w.v.body[y].Str? == w'.v.body[y].Str?
      ensures Cleared(w.v.body, w'.v.body, Least(w), Usable(w'), y)
    {
      ClearedHere(w, w', y);
    }
  }

  lemma BegunIs(w: World, w': World)
    requires Collect(w, w') && w.v.state == 1
    ensures SweepBegun(w, w') && w'.v.state == 3 && Roots(w') == Roots(w)
  {
    RootsKept(w, w');
  }

  lemma LeastStrings(w: World)
    requires HasStrings(w.v.body, Least(w))
    ensures Strings(w.v.body) <= Least(w)
  {
  }

  lemma ClearedHere(w: World, w': World, y: Id)
    requires Inv(w) && Inv(w') && w.v.state == 1 && SweepBegun(w, w') && y in Usable(w')
    ensures y in w.v.body && y in w'.v.body && w.v.body[y].Str? == w'.v.body[y].Str?
    ensures Cleared(w.v.body, w'.v.body, Least(w), Usable(w'), y)
  {
    hide Inv, Usable, Alive, Least, Roots, Bounds, Marked, StrongClosed, Lighter, Finals, WeakerBody, PtrsIn, LinksIn;
    var B, B', gone := w.v.body, w'.v.body, w.v.body.Keys - (Alive(w') + Strings(w.v.body));
    UsableAlive(w');
    AtomicLeast(w, w');
    assert gone == B.Keys - Least(w);
    LivesOn(w', y);
    TypedHere(w);
    LighterAt(B, B', gone, y);
    if B[y].Table? && B[y].mt.Some? {
      MetaThere(w, y);
    }
    LighterKind(B, B', gone, y);
  }

  lemma LivesOn(w: World, y: Id)
    requires Inv(w) && w.v.state == 3 && y in Usable(w)
    ensures y in w.v.body && LinksIn(w.v.body, w.v.body[y], Usable(w))
  {
    UsableClosed(w);
    hide Inv;
  }

  lemma ViaIff(B: Bodies, B': Bodies, R: set<Id>, M: set<Id>, U: set<Id>, x: Id)
    requires forall y | y in U :: y in B && y in B' && Cleared(B, B', M, U, y) && B[y].Str? == B'[y].Str?
    requires R <= U && x !in Strings(B) && x !in Strings(B')
    ensures StrongReach(B', R, x) <==> HeldVia(B, R, M, x)
  {
    hide Cleared, StrongClosed, ViaClosed, Strings;
    forall S: set<Id> | R <= S && ViaClosed(B, S, M) ensures StrongClosed(B', S * U + Strings(B'), {}) {
      ViaThere(B, B', M, U, S);
    }
    forall S: set<Id> | R <= S && StrongClosed(B', S, {}) ensures ViaClosed(B, S * U + Strings(B), M) {
      ViaBack(B, B', M, U, S);
    }
    if StrongReach(B', R, x) {
      forall S: set<Id> | R <= S && ViaClosed(B, S, M) ensures x in S {
        assert R <= S * U + Strings(B') && x in S * U + Strings(B');
      }
    }
    if HeldVia(B, R, M, x) {
      forall S: set<Id> | R <= S && StrongClosed(B', S, {}) ensures x in S {
        assert R <= S * U + Strings(B) && x in S * U + Strings(B);
      }
    }
  }

  /** What was strongly reachable before the end of marking still is afterwards if and only if it was reachable
      through entries that refer to nothing but what gets marked: an entry of a weak-value table loses its hold on
      the key when it loses its value. */
  lemma StillHeld(w: World, w': World, x: Id)
    requires Collect(w, w') && w.v.state == 1 && x in w.v.body && !w.v.body[x].Str?
    ensures StrongReach(w'.v.body, Roots(w), x) <==> HeldVia(w.v.body, Roots(w), Least(w), x)
  {
    hide *;
    MoveInvs(w, w');
    BegunIs(w, w');
    AtomicCleared(w, w');
    NotString(w.v.body, x);
    StringsKept(w, w', x);
    ViaIff(w.v.body, w'.v.body, Roots(w), Least(w), Usable(w'), x);
  }

  lemma StringsKept(w: World, w': World, x: Id)
    requires SweepBegun(w, w') && x in w.v.body && !w.v.body[x].Str?
    ensures x !in Strings(w'.v.body)
  {
    assert WeakerBody(w.v.body[x], w'.v.body[x], w.v.body.Keys - (Alive(w') + Strings(w.v.body)));
  }

  lemma ViaThere(B: Bodies, B': Bodies, M: set<Id>, U: set<Id>, S: set<Id>)
    requires forall y | y in U :: Cleared(B, B', M, U, y) && B[y].Str? == B'[y].Str?
    requires ViaClosed(B, S, M)
    ensures StrongClosed(B', S * U + Strings(B'), {})
  {
    var T := S * U + Strings(B');
    forall y | y in B' && y in T ensures StrongIn(B', B'[y], T) {
      if !B'[y].Str? {
        assert Cleared(B, B', M, U, y) && ViaIn(B, B[y], S, M);
        forall p | p in U ensures p in S <==> p in T {
          assert Cleared(B, B', M, U, p);
        }
        ClearedLinks(B, B', M, U, y, S, T);
      }
    }
  }

  lemma ViaBack(B: Bodies, B': Bodies, M: set<Id>, U: set<Id>, S: set<Id>)
    requires forall y | y in U :: Cleared(B, B', M, U, y) && B[y].Str? == B'[y].Str?
    requires StrongClosed(B', S, {})
    ensures ViaClosed(B, S * U + Strings(B), M)
  {
    var T := S * U + Strings(B);
    forall y | y in B && y in T ensures ViaIn(B, B[y], T, M) {
      if !B[y].Str? {
        assert Cleared(B, B', M, U, y) && StrongIn(B', B'[y], S);
        forall p | p in U ensures p in T <==> p in S {
          assert Cleared(B, B', M, U, p);
        }
        ClearedLinks(B, B', M, U, y, T, S);
      }
    }
  }

  // ---------------------------------------------------------------------- what no step lets go

  /** A link through an entry counts only if the entry cannot be removed: a weak value holds the key only while
      it is held itself, as a weak key does with the value. */
  ghost predicate FirmNode(m: Mode, e: Entry, S: set<Id>) {
    !e.val.Nil? ==>
      && (!m.weakKeys && (m.weakValues ==> VIn(e.val, S)) ==> VIn(e.key, S))
      && (!m.weakValues && (m.weakKeys ==> VIn(e.key, S)) ==> VIn(e.val, S))
  }

  ghost predicate FirmIn(B: Bodies, b: Body, S: set<Id>) {
    if b.Table? then
      var m := ModeOf(B, b);
      && OIn(b.mt, S)
      && (!m.weakValues ==> AllIn(b.arr, S))
      && (forall i | 0 <= i < |b.nodes| :: FirmNode(m, b.nodes[i], S))
    else PtrsIn(B, b, S)
  }

  ghost predicate FirmClosed(B: Bodies, S: set<Id>, X: set<Id>) {
    && HasStrings(B, S)
    && forall x | x in B && x in S ::
         if x in X then B[x].Table? ==> OIn(B[x].mt, S) else FirmIn(B, B[x], S)
  }

  ghost predicate Firm(B: Bodies, R: set<Id>, X: set<Id>, x: Id) {
    forall S: set<Id> | R <= S && FirmClosed(B, S, X) :: x in S
  }

  ghost predicate FirmlyHeld(w: World, x: Id) {
    x in w.v.body && !w.v.body[x].Str? && Firm(w.v.body, Roots(w), Exempt(w), x)
  }

  lemma FirmIsHeld(w: World, x: Id)
    requires FirmlyHeld(w, x)
    ensures HeldIn(w, x)
  {
    forall S: set<Id> | HoldClosed(w.v.body, S, Exempt(w)) ensures FirmClosed(w.v.body, S, Exempt(w)) {
      HoldFirm(w.v.body, S, Exempt(w));
    }
  }

  lemma HoldFirm(B: Bodies, S: set<Id>, X: set<Id>)
    requires HoldClosed(B, S, X)
    ensures FirmClosed(B, S, X)
  {
    forall y | y in B && y in S && y !in X ensures FirmIn(B, B[y], S) {
      assert StrongIn(B, B[y], S);
      assert B[y].Table? ==> forall i | 0 <= i < |B[y].nodes| :: StrongNode(ModeOf(B, B[y]), B[y].nodes[i], S);
    }
  }

  /** y, which can be used after a step that removes only what refers outside M; y has its strong links in M, but
      for a table of X. */
  ghost predicate Stays(B: Bodies, B': Bodies, M: set<Id>, U: set<Id>, X: set<Id>, y: Id) {
    && y in U && y in B && y in B' && B[y].Str? == B'[y].Str?
    && LinksIn(B', B'[y], U)
    && (if IsUpVal(B[y]) then IsUpVal(B'[y]) && UpValue(B', B'[y]) == UpValue(B, B[y])
        else WeakerBody(B[y], B'[y], B.Keys - M))
    && (B[y].Table? ==> ModeOf(B', B'[y]) == ModeOf(B, B[y]))
    && (y !in X ==> StrongIn(B, B[y], M))
  }

  lemma FirmBackOne(
    B: Bodies, B': Bodies, M: set<Id>, U: set<Id>, X: set<Id>, X': set<Id>, y: Id, S: set<Id>, T: set<Id>)
    requires Stays(B, B', M, U, X, y) && X' <= X && T <= M && forall p | p in U :: p in T <==> p in S
    requires if y in X' then B'[y].Table? ==> OIn(B'[y].mt, S) else FirmIn(B', B'[y], S)
    ensures if y in X then B[y].Table? ==> OIn(B[y].mt, T) else FirmIn(B, B[y], T)
  {
    if B[y].Table? && y !in X {
      var b, b', m := B[y], B'[y], ModeOf(B, B[y]);
      forall i | 0 <= i < |b.nodes| ensures FirmNode(m, b.nodes[i], T) {
        assert StrongNode(m, b.nodes[i], M) && FirmNode(m, b'.nodes[i], S);
        assert b' == b || EntryWeaker(b.nodes[i], b'.nodes[i], B.Keys - M);
        assert !b'.nodes[i].val.Nil? ==> NodePtrsIn(b'.nodes[i], U);
      }
      forall i | 0 <= i < |b.arr| && !m.weakValues ensures VIn(b.arr[i], T) {
        assert b' == b || ValWeaker(b.arr[i], b'.arr[i], B.Keys - M);
        assert VIn(b.arr[i], M) && VIn(b'.arr[i], U) && VIn(b'.arr[i], S);
      }
    }
  }

  lemma FirmBack(B: Bodies, B': Bodies, M: set<Id>, U: set<Id>, X: set<Id>, X': set<Id>, S: set<Id>)
    requires forall y | y in U :: Stays(B, B', M, U, X, y)
    requires U + Strings(B) <= M && X' <= X && FirmClosed(B', S, X')
    ensures FirmClosed(B, S * U + Strings(B), X)
  {
    hide FirmIn;
    var T := S * U + Strings(B);
    forall y | y in B && y in T
      ensures if y in X then B[y].Table? ==> OIn(B[y].mt, T) else FirmIn(B, B[y], T)
    {
      if B[y].Str? {
        StringFirm(B, y, T);
      } else {
        assert Stays(B, B', M, U, X, y);
        forall p | p in U ensures p in T <==> p in S {
          assert Stays(B, B', M, U, X, p);
        }
        FirmBackOne(B, B', M, U, X, X', y, S, T);
      }
    }
  }

  lemma StringFirm(B: Bodies, y: Id, T: set<Id>)
    requires y in B && B[y].Str?
    ensures FirmIn(B, B[y], T)
  {
  }

  lemma FirmAfter(B: Bodies, B': Bodies, M: set<Id>, U: set<Id>, R: set<Id>, X: set<Id>, X': set<Id>, x: Id)
    requires forall y | y in U :: Stays(B, B', M, U, X, y)
    requires U + Strings(B) <= M && R <= U && x !in Strings(B) && Firm(B, R, X, x) && X' <= X
    ensures Firm(B', R, X', x)
  {
    hide Stays, FirmIn, Strings;
    forall S: set<Id> | R <= S && FirmClosed(B', S, X') ensures x in S {
      FirmBack(B, B', M, U, X, X', S);
      assert R <= S * U + Strings(B);
    }
  }

  lemma AtomicStays(w: World, w': World, y: Id)
    requires Collect(w, w') && w.v.state == 1 && y in Usable(w')
    ensures Stays(w.v.body, w'.v.body, Least(w), Usable(w'), w.lost, y)
  {
    hide Inv, Usable, Alive, Least, Roots, Bounds, Marked, Lighter, Finals, WeakerBody, PtrsIn, LinksIn, StrongIn, Dead, Unreached;
    AtomicCleared(w, w');
    AtomicLeast(w, w');
    assert Cleared(w.v.body, w'.v.body, Least(w), Usable(w'), y);
    UpKind(w.v.body[y], w'.v.body[y], w.v.body.Keys - Least(w));
  }

  lemma UpKind(b: Body, b': Body, gone: set<Id>)
    requires WeakerBody(b, b', gone)
    ensures IsUpVal(b) ==> b' == b
    ensures b'.Str? == b.Str?
  {
  }

  lemma LinksStrong(B: Bodies, S: set<Id>, y: Id)
    requires LinkClosed(B, S) && y in B && y in S
    ensures StrongIn(B, B[y], S + Strings(B))
  {
    LinksHold(B, S, {});
    assert y in S + Strings(B);
  }

  lemma PropagateStays(w: World, w': World, y: Id)
    requires Collect(w, w') && w.v.state == 0 && y in Usable(w)
    ensures Usable(w') == Usable(w) <= w.v.body.Keys
    ensures Stays(w.v.body, w'.v.body, Usable(w) + Strings(w.v.body), Usable(w), w.lost, y)
  {
    var B, B' := w.v.body, w'.v.body;
    SameUsable(w, w');
    hide Inv, Usable, Roots, Dead, Unreached, StrongIn, LinksIn, WeakerBody;
    UsableClosed(w);
    UsableClosed(w');
    LinksStrong(B, Usable(w), y);
    WeakerBodyOf(B, B', {}, y);
    WeakerBodyMono(B[y], B'[y], {}, B.Keys - (Usable(w) + Strings(B)));
    WeakerSame(B, B', {}, y);
    UpKind(B[y], B'[y], {});
    assert LinksIn(B', B'[y], Usable(w));
  }

  lemma SameUsable(w: World, w': World)
    requires Collect(w, w') && w.v.state == 0
    ensures Usable(w') == Usable(w) <= w.v.body.Keys && w'.v.body.Keys == w.v.body.Keys
  {
    hide Base, Phase, LinkClosed, Unreached, Weaker;
    WeakerKind(w.v.body, w'.v.body, {});
    assert w.doomed * w'.v.body.Keys == w.doomed;
  }

  lemma StartStays(w: World, w': World, y: Id)
    requires Collect(w, w') && w.v.state == 8 && y in Usable(w)
    ensures Usable(w) <= w.v.body.Keys
    ensures Stays(w.v.body, w'.v.body, Usable(w) + Strings(w.v.body), Usable(w), {}, y)
  {
    hide Inv, Roots, Dead, Unreached, StrongIn, LinksIn, WeakerBody;
    UsableClosed(w);
    LinksStrong(w.v.body, Usable(w), y);
    WeakerBodyRefl(w.v.body[y], w.v.body.Keys - (Usable(w) + Strings(w.v.body)));
  }

  lemma WeakerBodyRefl(b: Body, gone: set<Id>)
    ensures WeakerBody(b, b, gone)
  {
  }

  lemma SameStays(B: Bodies, B': Bodies, U: set<Id>, y: Id)
    requires forall p | p in U :: Same(B, B', p)
    requires y in U && y in B && LinksIn(B, B[y], U) && StrongIn(B, B[y], U + Strings(B))
    ensures Stays(B, B', U + Strings(B), U, {}, y)
  {
    hide StrongIn;
    assert Same(B, B', y);
    if B[y].Table? && B[y].mt.Some? {
      assert Same(B, B', B[y].mt.value);
    }
  }

  lemma SweepStays(w: World, w': World, y: Id)
    requires Collect(w, w') && w.v.state == 3 && y in Usable(w)
    ensures Usable(w) <= w.v.body.Keys
    ensures Stays(w.v.body, w'.v.body, Usable(w) + Strings(w.v.body), Usable(w), {}, y)
  {
    hide Inv, Roots, Dead, Unreached, Usable, StrongIn, PtrsIn, Collected, Same, LinkClosed, Stays;
    SweepParts(w, w');
    UsableClosed(w);
    LinksStrong(w.v.body, Usable(w), y);
    SameStays(w.v.body, w'.v.body, Usable(w), y);
  }

  /** The strong links of what is held, those to strings included, lead to nothing that the sweep will free. */
  lemma StepLinks(w: World, w': World, x: Id)
    requires Collect(w, w') && HeldIn(w, x) && (w.v.state == 1 ==> MetaReached(w))
    ensures x in w.v.body && LinksKept(w.v.body, Exempt(w), x, Alive(w'))
  {
    StatesAfter(w, w');
    UsableIsAlive(w');
    hide *;
    MoveInvs(w, w');
    HeldIs(w, x);
    if w.v.state == 1 {
      AtomicLinks(w, w', x);
    } else {
      PlainLinks(w, w', x);
      LinksFirm(w.v.body, x, Usable(w'), Alive(w'), Exempt(w));
    }
  }

  ghost predicate LinksKept(B: Bodies, X: set<Id>, x: Id, S: set<Id>)
    requires x in B
  {
    if x in X then B[x].Table? ==> OIn(B[x].mt, S) else FirmIn(B, B[x], S)
  }

  lemma HeldIs(w: World, x: Id)
    requires HeldIn(w, x)
    ensures x in w.v.body && !w.v.body[x].Str?
  {
  }

  lemma LinksFirm(B: Bodies, x: Id, U: set<Id>, S: set<Id>, X: set<Id>)
    requires x in B && LinksIn(B, B[x], U) && U <= S
    ensures LinksKept(B, X, x, S) && FirmIn(B, B[x], S)
  {
    if B[x].Table? {
      forall i | 0 <= i < |B[x].nodes| ensures FirmNode(ModeOf(B, B[x]), B[x].nodes[i], S) {
        assert !B[x].nodes[i].val.Nil? ==> NodePtrsIn(B[x].nodes[i], U);
      }
    }
  }

  /** Outside the step that ends marking, all links lead to what can be used. */
  lemma PlainLinks(w: World, w': World, x: Id)
    requires Collect(w, w') && w.v.state != 1 && HeldIn(w, x)
    ensures x in w.v.body && LinksIn(w.v.body, w.v.body[x], Usable(w'))
  {
    hide *;
    MoveInvs(w, w');
    StatesAfter(w, w');
    UsableClosed(w');
    HeldIs(w, x);
    StepBodies(w, w');
    if w.v.state == 0 {
      PropagateKeeps(w, w', x);
      BackLinks(w.v.body, w'.v.body, x, Usable(w'));
    } else if w.v.state == 8 {
      StartKeeps(w, w', x);
      UsedLinks(w'.v.body, Usable(w'), x);
    } else {
      SweepKeeps(w, w', x);
      HeldUsable(w, x);
      SweepParts(w, w');
      KeptThere(w, w', x);
      UsedLinks(w'.v.body, Usable(w'), x);
      SameLinks(w.v.body, w'.v.body, x, Usable(w'));
    }
  }

  lemma StepBodies(w: World, w': World)
    requires Collect(w, w')
    ensures w.v.state == 0 ==> Weaker(w.v.body, w'.v.body, {})
    ensures w.v.state == 8 ==> w'.v.body == w.v.body
  {
  }

  lemma UsedLinks(B: Bodies, U: set<Id>, x: Id)
    requires LinkClosed(B, U) && x in U && x in B
    ensures LinksIn(B, B[x], U)
  {
  }

  lemma BackLinks(B: Bodies, B': Bodies, x: Id, U: set<Id>)
    requires Weaker(B, B', {}) && LinkClosed(B', U) && x in U && x in B
    ensures LinksIn(B, B[x], U)
  {
    WeakerIn(B, B', {}, x, U);
  }

  lemma SameLinks(B: Bodies, B': Bodies, x: Id, U: set<Id>)
    requires Same(B, B', x) && LinksIn(B', B'[x], U)
    ensures LinksIn(B, B[x], U)
  {
  }

  lemma AtomicLinks(w: World, w': World, x: Id)
    requires Collect(w, w') && w.v.state == 1 && HeldIn(w, x) && MetaReached(w)
    ensures x in w.v.body && LinksKept(w.v.body, w.lost, x, Alive(w')) && Exempt(w) == w.lost
  {
    hide *;
    MoveInvs(w, w');
    BegunIs(w, w');
    HeldIs(w, x);
    ExemptIs(w);
    AtomicKeeps(w, w', x);
    AtomicLeast(w, w');
    if x in w.lost {
      LostMeta(w, w', x);
    } else {
      AliveStays(w, w', x);
      AliveLinks(w, w', x);
    }
  }

  lemma ExemptIs(w: World)
    requires w.v.state == 1
    ensures Exempt(w) == w.lost
  {
  }

  lemma LostMeta(w: World, w': World, x: Id)
    requires Inv(w) && w.v.state == 1 && HeldIn(w, x) && MetaReached(w) && x in w.lost && x in w.v.body
    requires Least(w) == Alive(w') + Strings(w.v.body)
    ensures LinksKept(w.v.body, w.lost, x, Alive(w'))
  {
    HeldUsable(w, x);
    hide Inv, Usable, Alive, Held, Least;
    if w.v.body[x].Table? && w.v.body[x].mt.Some? {
      MetaThere(w, x);
      MetaNoString(w, x);
      NotString(w.v.body, w.v.body[x].mt.value);
    }
  }

  /** What the sweep will leave and was not put aside refers only to what the sweep will leave. */
  lemma AliveStays(w: World, w': World, x: Id)
    requires Inv(w) && w.v.state == 1 && SweepBegun(w, w') && x in Alive(w') && x !in w.lost && x in w.v.body
    ensures Stays(w.v.body, w'.v.body, Least(w), Alive(w'), w.lost, x)
  {
    AtomicLeast(w, w');
    TypedHere(w);
    hide Inv, Usable, Alive, Least, Roots, Bounds, Marked, Lighter, WeakerBody, PtrsIn, LinksIn, StrongIn, Typed;
    var B, B', gone := w.v.body, w'.v.body, w.v.body.Keys - (Alive(w') + Strings(w.v.body));
    assert gone == B.Keys - Least(w);
    LighterAt(B, B', gone, x);
    if B[x].Table? && B[x].mt.Some? {
      MetaThere(w, x);
    }
    LighterKind(B, B', gone, x);
    UpKind(B[x], B'[x], gone);
    assert Final(B', x, Alive(w'), w.lost);
    PtrsLinks(B', B'[x], Alive(w'));
  }

  lemma AliveLinks(w: World, w': World, x: Id)
    requires Stays(w.v.body, w'.v.body, Least(w), Alive(w'), w.lost, x) && x !in w.lost && Alive(w') <= Least(w)
    ensures LinksKept(w.v.body, w.lost, x, Alive(w'))
  {
    LinksFirm(w'.v.body, x, Alive(w'), Alive(w'), {});
    hide Stays, FirmIn, Alive, Least;
    FirmBackOne(w.v.body, w'.v.body, Least(w), Alive(w'), w.lost, {}, x, Alive(w'), Alive(w'));
  }

  /** What is firmly held before a step of the collector is firmly held after it. */
  lemma StepFirm(w: World, w': World, x: Id)
    requires Collect(w, w') && FirmlyHeld(w, x)
    ensures FirmlyHeld(w', x)
  {
    MoveInvs(w, w');
    FirmThere(w, x);
    hide *;
    RootsStay(w, w');
    FirmStep(w, w', x);
    FirmReach(w', x);
    KindKept(w, w', x);
    FirmHere(w', x);
  }

  lemma FirmThere(w: World, x: Id)
    requires Inv(w) && FirmlyHeld(w, x)
    ensures x in Usable(w) && x in w.v.body && !w.v.body[x].Str?
  {
    FirmIsHeld(w, x);
    hide Inv, Usable, HeldIn, Firm;
    HeldUsable(w, x);
  }

  lemma FirmHere(w: World, x: Id)
    requires x in w.v.body && !w.v.body[x].Str? && Firm(w.v.body, Roots(w), Exempt(w), x)
    ensures FirmlyHeld(w, x)
  {
  }

  lemma RootsStay(w: World, w': World)
    requires Collect(w, w')
    ensures Roots(w') == Roots(w)
  {
    MoveInvs(w, w');
    StatesAfter(w, w');
    RootsKept(w, w');
  }

  /** Links lead from the roots to whatever is firmly held. */
  lemma FirmReach(w: World, x: Id)
    requires Inv(w) && Firm(w.v.body, Roots(w), Exempt(w), x)
    ensures x in Usable(w) + Strings(w.v.body)
  {
    hide Inv, Usable, Roots, Strings;
    UsableClosed(w);
    LinksHold(w.v.body, Usable(w), Exempt(w));
    HoldFirm(w.v.body, Usable(w) + Strings(w.v.body), Exempt(w));
  }

  /** What a step of the collector leaves is of the sort it was. */
  lemma KindKept(w: World, w': World, x: Id)
    requires Collect(w, w') && x in Usable(w) && x in w.v.body && !w.v.body[x].Str?
    requires x in Usable(w') + Strings(w'.v.body)
    ensures x in w'.v.body && !w'.v.body[x].Str?
  {
    hide *;
    MoveInvs(w, w');
    StatesAfter(w, w');
    UsableThere(w', x);
    StepBodies(w, w');
    if w.v.state == 1 {
      BegunIs(w, w');
      StringsKept(w, w', x);
      NoStringThere(w'.v.body, x);
    } else if w.v.state == 3 {
      SweepParts(w, w');
      SameKind(w.v.body, w'.v.body, x);
    } else if w.v.state == 0 {
      WeakerKind(w.v.body, w'.v.body, {});
    }
  }

  lemma UsableThere(w: World, x: Id)
    requires Inv(w) && x in Usable(w) + Strings(w.v.body)
    ensures x in w.v.body
  {
    UsableIsAlive(w);
    hide Inv, Usable;
  }

  lemma NoStringThere(B: Bodies, x: Id)
    requires x !in Strings(B) && x in B
    ensures !B[x].Str?
  {
  }

  lemma SameKind(B: Bodies, B': Bodies, x: Id)
    requires Same(B, B', x)
    ensures B'[x].Str? == B[x].Str?
  {
  }

  lemma FirmStep(w: World, w': World, x: Id)
    requires Collect(w, w') && FirmlyHeld(w, x) && Roots(w') == Roots(w)
    ensures Firm(w'.v.body, Roots(w'), Exempt(w'), x)
  {
    StatesAfter(w, w');
    NotString(w.v.body, x);
    hide Inv, Usable, Roots, Least, Firm, Stays, SweepBegun, Unreached, Dead, Strings, SameLive, Weaker;
    var B, B' := w.v.body, w'.v.body;
    UsableClosed(w);
    UsableClosed(w');
    if w.v.state == 1 {
      AtomicLeast(w, w');
      forall y | y in Usable(w') ensures Stays(B, B', Least(w), Usable(w'), w.lost, y) {
        AtomicStays(w, w', y);
      }
      FirmAfter(B, B', Least(w), Usable(w'), Roots(w), w.lost, Exempt(w'), x);
    } else {
      forall y | y in Usable(w) ensures Stays(B, B', Usable(w) + Strings(B), Usable(w), Exempt(w), y) {
        if w.v.state == 0 {
          PropagateStays(w, w', y);
        } else if w.v.state == 8 {
          StartStays(w, w', y);
        } else {
          SweepStays(w, w', y);
        }
      }
      FirmAfter(B, B', Usable(w) + Strings(B), Usable(w), Roots(w), Exempt(w), Exempt(w'), x);
    }
  }

  /** However many steps the collector makes in a row, what is firmly held stays so. */
  lemma {:induction false} RunFirm(ws: seq<World>, i: nat, j: nat, x: Id)
    requires Run(ws) && i <= j < |ws| && FirmlyHeld(ws[i], x)
    requires forall k | i <= k < j :: Collect(ws[k], ws[k + 1])
    ensures FirmlyHeld(ws[j], x)
    decreases j - i
  {
    hide Inv, FirmlyHeld, Collect, Run;
    if i < j {
      assert Collect(ws[i], ws[i + 1]);
      StepFirm(ws[i], ws[i + 1], x);
      RunFirm(ws, i + 1, j, x);
    }
  }
}
