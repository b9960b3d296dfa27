/** The invariant of the marking phase (collector states 0, 1 and 2) and its preservation by the
    elementary steps marking is made of.
 */
module GcPhase {
  import opened Basics
  import opened GcHeap
  import opened GcGrow

  /** A snapshot of the fields marking works on. `remarked` says whether `remark_upvalues` has run
      in this cycle. */
  datatype View = View(
    state: int, cw: bool, body: Bodies, m: Marks,
    again: seq<Id>, weak: seq<Id>, eph: seq<Id>, allWeak: seq<Id>,
    twups: seq<Id>, remarked: bool)

  /** Everything linked through the one `gclist` field; `rest` is a list held in a local. */
  ghost function Listed(v: View, rest: multiset<Id>): multiset<Id> {
    multiset(v.m.gray) + Waiting(v, rest)
  }

  ghost function Waiting(v: View, rest: multiset<Id>): multiset<Id> {
    multiset(v.again) + multiset(v.weak) + multiset(v.eph) + multiset(v.allWeak) + rest
  }

  /** No object is linked twice, and linked objects are gray: `linkgclist_` on an object of another
      colour cannot cut a list. */
  ghost predicate Single(l: multiset<Id>, C: Colors) {
    forall x | x in l :: l[x] == 1 && x in C && C[x].Gray?
  }

  /** Black objects hold no pointer to a white one (those in ex, under traversal, excepted); gray
      objects are linked, or are open upvalues. */
  ghost predicate Tri(v: View, rest: multiset<Id>, ex: set<Id>) {
    forall x | x in v.body && x in v.m.color ::
      && (v.m.color[x].Black? && x !in ex ==> PtrsIn(v.body, v.body[x], Marked(v.m.color)))
      && (v.m.color[x].Gray? ==> v.body[x].OpenUp? || x in Listed(v, rest))
  }

  ghost predicate Scrubbed(nodes: seq<Entry>) {
    forall i | 0 <= i < |nodes| && nodes[i].val.Nil? :: !nodes[i].key.Obj?
  }

  /** A weak-value table in the list `weak`: only values may still be white. */
  ghost predicate WeakOk(B: Bodies, C: Colors, x: Id) {
    && x in B && B[x].Table?
    && ModeOf(B, B[x]) == Mode(false, true)
    && OIn(B[x].mt, Marked(C))
    && Scrubbed(B[x].nodes)
    && forall i | 0 <= i < |B[x].nodes| :: VIn(B[x].nodes[i].key, Marked(C))
  }

  function Strings(B: Bodies): set<Id> {
    set x | x in B && B[x].Str?
  }

  ghost predicate StringKey(e: Entry, M: set<Id>, T: set<Id>) {
    e.key.Obj? && e.key.id in T ==> e.key.id in M
  }

  /** A table in the list `ephemeron`. */
  ghost predicate EphOk(B: Bodies, C: Colors, x: Id) {
    && x in B && B[x].Table?
    && ModeOf(B, B[x]) == Mode(true, false)
    && OIn(B[x].mt, Marked(C))
    && AllIn(B[x].arr, Marked(C))
    && Scrubbed(B[x].nodes)
    && forall i | 0 <= i < |B[x].nodes| :: StringKey(B[x].nodes[i], Marked(C), Strings(B))
  }

  /** A table put into the list `allweak` by the current traversal: all-weak, or an ephemeron table
      whose values are all marked. */
  ghost predicate AllWeakOk(B: Bodies, C: Colors, x: Id) {
    && x in B && B[x].Table?
    && OIn(B[x].mt, Marked(C))
    && (|| ModeOf(B, B[x]) == Mode(true, true)
        || (&& ModeOf(B, B[x]) == Mode(true, false)
            && AllIn(B[x].arr, Marked(C))
            && forall i | 0 <= i < |B[x].nodes| :: VIn(B[x].nodes[i].val, Marked(C))))
  }

  /** An all-weak table linked before the atomic phase: its metatable is marked. */
  ghost predicate KeptOk(B: Bodies, C: Colors, x: Id) {
    x in B && B[x].Table? && ModeOf(B, B[x]) == Mode(true, true) && OIn(B[x].mt, Marked(C))
  }

  ghost predicate Tables(B: Bodies, l: seq<Id>) {
    forall i | 0 <= i < |l| :: l[i] in B && B[l[i]].Table?
  }

  ghost predicate AllListable(B: Bodies, l: seq<Id>) {
    forall i | 0 <= i < |l| :: l[i] in B && Listable(B[l[i]])
  }

  ghost predicate Lists(v: View, X: set<Id>) {
    && AllListable(v.body, v.m.gray)
    && Tables(v.body, v.allWeak)
    && (forall x | x in X :: x in v.allWeak)
    && if v.state <= 1 then
         && AllListable(v.body, v.again) && v.weak == [] && v.eph == [] && !v.remarked
         && (forall i | 0 <= i < |v.allWeak| && v.allWeak[i] !in X ::
               KeptOk(v.body, v.m.color, v.allWeak[i]))
       else
         && Tables(v.body, v.again)
         && (forall i | 0 <= i < |v.again| :: PtrsIn(v.body, v.body[v.again[i]], Marked(v.m.color)))
         && (forall i | 0 <= i < |v.weak| :: WeakOk(v.body, v.m.color, v.weak[i]))
         && (forall i | 0 <= i < |v.eph| :: EphOk(v.body, v.m.color, v.eph[i]))
         && (forall i | 0 <= i < |v.allWeak| && v.allWeak[i] !in X ::
               AllWeakOk(v.body, v.m.color, v.allWeak[i]))
  }

  /** Threads with open upvalues are in `twups`; once `remark_upvalues` has dropped the unmarked
      ones, this is owed only to threads that have been traversed, and an open upvalue whose thread
      is not marked has its value marked instead. Before that, no thread is black. */
  ghost predicate Threads(v: View, ex: set<Id>) {
    && (forall i | 0 <= i < |v.twups| :: v.twups[i] in v.body && v.body[v.twups[i]].Thread?)
    && (forall x | x in v.body && x in v.m.color && v.body[x].Thread? ::
          && (v.body[x].open != [] && (v.remarked ==> v.m.color[x].Black? && x !in ex) ==> x in v.twups)
          && (v.state <= 1 && x !in ex ==> !v.m.color[x].Black?))
    && (forall x | x in v.body && x in v.m.color && v.body[x].OpenUp? :: !v.m.color[x].Black?)
    && (v.remarked ==>
          && (forall i | 0 <= i < |v.twups| :: v.twups[i] in Marked(v.m.color))
          && (forall x | x in v.body && x in v.m.color && v.body[x].OpenUp? && v.m.color[x].Gray? ::
                v.body[x].th in Marked(v.m.color) || VIn(UpValue(v.body, v.body[x]), Marked(v.m.color))))
  }

  ghost predicate Paid(v: View, ex: set<Id>) {
    v.state <= 1 ==> v.m.debt >= Unpaid(v.m) + |ex|
  }

  ghost predicate OneWhite(v: View) {
    forall x | x in v.m.color && v.m.color[x].White? :: v.m.color[x].bit == v.cw
  }

  ghost predicate Bounded(v: View, S: set<Id>, X: set<Id>) {
    Ready(v.body, v.m, S) && Marked(v.m.color) <= S && StrongClosed(v.body, S, X)
  }

  ghost predicate Phase(v: View, S: set<Id>, X: set<Id>, rest: multiset<Id>, ex: set<Id>) {
    && 0 <= v.state <= 2
    && Bounded(v, S, X)
    && (forall x | x in ex :: x in v.body && v.m.color[x].Black? && Listable(v.body[x]))
    && Single(Listed(v, rest), v.m.color)
    && Tri(v, rest, ex)
    && Lists(v, X)
    && Threads(v, ex)
    && Paid(v, ex)
    && OneWhite(v)
  }

  // ---------------------------------------------------------------------- a burst of marking

  /** The new part of the gray list after a burst. */
  lemma BurstNews(B: Bodies, m0: Marks, m: Marks, S: set<Id>) returns (news: seq<Id>)
    requires Burst(B, m0, m, S)
    ensures m.gray == news + m0.gray
    ensures forall x | x in news :: x in m0.color && m0.color[x].White? && x in m.color && m.color[x].Gray?
    ensures forall x | x in news :: x in B && Listable(B[x])
    ensures forall i, j | 0 <= i < j < |news| :: news[i] != news[j]
    ensures forall x | x in m0.color && !m0.color[x].White? :: x in m.color && m.color[x] == m0.color[x]
  {
    var n := |m.gray| - |m0.gray|;
    news := m.gray[..n];
    assert m.gray == news + m.gray[n..];
    forall x | x in news
      ensures x in m0.color && m0.color[x].White? && x in m.color && m.color[x].Gray?
      ensures x in B && Listable(B[x])
    {
      var i :| 0 <= i < n && news[i] == x;
      assert Pushed(B, m0, m, m.gray[i]);
    }
  }

  lemma BurstSingle(v: View, m: Marks, S: set<Id>, rest: multiset<Id>)
    requires Burst(v.body, v.m, m, S) && Single(Listed(v, rest), v.m.color)
    ensures Single(Listed(v.(m := m), rest), m.color)
    ensures Listed(v, rest) <= Listed(v.(m := m), rest)
  {
    hide Burst, Single, Waiting, AllListable, Listed;
    var news := BurstNews(v.body, v.m, m, S);
    var L := Listed(v, rest);
    SingleAdd(news, L, v.m.color, m.color);
    ListedPush(v, m, news, rest);
  }

  lemma ListedPush(v: View, m: Marks, news: seq<Id>, rest: multiset<Id>)
    requires m.gray == news + v.m.gray
    ensures Listed(v.(m := m), rest) == multiset(news) + Listed(v, rest)
  {
    hide Waiting;
    WaitingSame(v, m, rest);
    assert multiset(m.gray) == multiset(news) + multiset(v.m.gray);
  }

  lemma WaitingSame(v: View, m: Marks, rest: multiset<Id>)
    ensures Waiting(v.(m := m), rest) == Waiting(v, rest)
  {
  }

  lemma SingleAdd(news: seq<Id>, L: multiset<Id>, C0: Colors, C: Colors)
    requires Single(L, C0)
    requires forall x | x in news :: x in C0 && C0[x].White? && x in C && C[x].Gray?
    requires forall i, j | 0 <= i < j < |news| :: news[i] != news[j]
    requires forall x | x in C0 && !C0[x].White? :: x in C && C[x] == C0[x]
    ensures Single(multiset(news) + L, C)
  {
    DistinctOnce(news);
    forall x | x in multiset(news) + L
      ensures (multiset(news) + L)[x] == 1 && x in C && C[x].Gray?
    {
      if x in news {
        assert x !in L;
      } else {
        assert x !in multiset(news);
      }
    }
  }

  lemma DistinctOnce(s: seq<Id>)
    requires forall i, j | 0 <= i < j < |s| :: s[i] != s[j]
    ensures forall x | x in multiset(s) :: multiset(s)[x] == 1
  {
    if s != [] {
      assert s == [s[0]] + s[1..];
      DistinctOnce(s[1..]);
      assert s[0] !in s[1..];
    }
  }

  lemma BurstTri(v: View, m: Marks, S: set<Id>, rest: multiset<Id>, ex: set<Id>)
    requires Burst(v.body, v.m, m, S) && Tri(v, rest, ex)
    requires Listed(v, rest) <= Listed(v.(m := m), rest)
    ensures Tri(v.(m := m), rest, ex)
  {
    GrowMarked(v.body, v.m, m);
    var v' := v.(m := m);
    forall x | x in v.body && x in m.color
      ensures m.color[x].Black? && x !in ex ==> PtrsIn(v.body, v.body[x], Marked(m.color))
      ensures m.color[x].Gray? ==> v.body[x].OpenUp? || x in Listed(v', rest)
    {
      if v.m.color[x].White? {
        assert Visited(v.body, v.m, m, x);
      } else if m.color[x].Black? && x !in ex {
        PtrsMono(v.body, v.body[x], Marked(v.m.color), Marked(m.color));
      }
    }
  }

  lemma ListsMono(v: View, X: set<Id>, m: Marks)
    requires Lists(v, X) && Marked(v.m.color) <= Marked(m.color)
    requires AllListable(v.body, m.gray)
    ensures Lists(v.(m := m), X)
  {
    if v.state == 2 {
      forall i | 0 <= i < |v.again| ensures PtrsIn(v.body, v.body[v.again[i]], Marked(m.color)) {
        PtrsMono(v.body, v.body[v.again[i]], Marked(v.m.color), Marked(m.color));
      }
    }
  }

  lemma BurstGray(B: Bodies, m0: Marks, m: Marks, S: set<Id>)
    requires Burst(B, m0, m, S) && AllListable(B, m0.gray)
    ensures AllListable(B, m.gray)
  {
    hide Burst;
    var news := BurstNews(B, m0, m, S);
    assert forall i | 0 <= i < |m.gray| :: m.gray[i] == if i < |news| then news[i] else m0.gray[i - |news|];
  }

  lemma BurstThreads(v: View, m: Marks, S: set<Id>, ex: set<Id>)
    requires Burst(v.body, v.m, m, S) && Threads(v, ex)
    ensures Threads(v.(m := m), ex)
  {
    GrowMarked(v.body, v.m, m);
    forall x | x in v.body && x in m.color && m.color[x] != v.m.color[x]
      ensures v.m.color[x].White? && Visited(v.body, v.m, m, x)
    {
    }
  }

  lemma BurstPhase(v: View, m: Marks, S: set<Id>, X: set<Id>, rest: multiset<Id>, ex: set<Id>)
    requires Phase(v, S, X, rest, ex) && Burst(v.body, v.m, m, S)
    ensures Phase(v.(m := m), S, X, rest, ex)
  {
    hide Burst, Ready, Tri, Lists, Threads, Single, OneWhite;
    var v' := v.(m := m);
    BurstReady(v.body, v.m, m, S);
    BurstKeeps(v.body, v.m, m, S);
    BurstSingle(v, m, S, rest);
    BurstTri(v, m, S, rest, ex);
    BurstLists(v, m, S, X);
    BurstThreads(v, m, S, ex);
    BurstWhite(v, m, S);
    BurstPays(v.body, v.m, m, S);
    assert Bounded(v', S, X);
    assert Paid(v', ex);
  }

  lemma BurstLists(v: View, m: Marks, S: set<Id>, X: set<Id>)
    requires Burst(v.body, v.m, m, S) && Lists(v, X)
    ensures Lists(v.(m := m), X)
  {
    BurstGray(v.body, v.m, m, S);
    GrowMarked(v.body, v.m, m);
    hide Burst;
    ListsMono(v, X, m);
  }

  lemma BurstWhite(v: View, m: Marks, S: set<Id>)
    requires Burst(v.body, v.m, m, S) && OneWhite(v)
    ensures OneWhite(v.(m := m))
  {
    forall x | x in m.color && m.color[x].White? ensures m.color[x].bit == v.cw {
      assert Visited(v.body, v.m, m, x);
    }
  }

  lemma BurstPays(B: Bodies, m0: Marks, m: Marks, S: set<Id>)
    requires Burst(B, m0, m, S)
    ensures m.debt - Unpaid(m) == m0.debt - Unpaid(m0)
    ensures Unpaid(m) <= Unpaid(m0)
  {
  }

  // ---------------------------------------------------------------------- weaker bodies

  lemma WeakerReady(v: View, B': Bodies, gone: set<Id>, S: set<Id>, X: set<Id>)
    requires Weaker(v.body, B', gone) && Bounded(v, S, X)
    ensures Bounded(v.(body := B'), S, X)
  {
    WeakerWf(v.body, B', gone);
    WeakerClosed(v.body, B', gone, S, X);
    WeakerKind(v.body, B', gone);
    forall x | x in B' && x in S && !Listable(B'[x]) ensures PtrsIn(B', B'[x], S) {
      WeakerIn(v.body, B', gone, x, S);
    }
  }

  lemma WeakerOk(B: Bodies, B': Bodies, gone: set<Id>, C: Colors, x: Id)
    requires Weaker(B, B', gone) && x in B
    ensures WeakOk(B, C, x) ==> WeakOk(B', C, x)
    ensures EphOk(B, C, x) ==> EphOk(B', C, x)
    ensures AllWeakOk(B, C, x) ==> AllWeakOk(B', C, x)
    ensures KeptOk(B, C, x) ==> KeptOk(B', C, x)
  {
    WeakerSame(B, B', gone, x);
    WeakerKind(B, B', gone);
    WeakerBodyOf(B, B', gone, x);
    assert Strings(B) == Strings(B');
    hide Weaker;
    if B[x].Table? && B'[x] != B[x] {
      var b, b' := B[x], B'[x];
      assert forall i | 0 <= i < |b.nodes| :: EntryWeaker(b.nodes[i], b'.nodes[i], gone);
      assert forall i | 0 <= i < |b.arr| :: ValWeaker(b.arr[i], b'.arr[i], gone);
    }
  }

  lemma WeakerLists(v: View, B': Bodies, gone: set<Id>, X: set<Id>)
    requires Weaker(v.body, B', gone) && Lists(v, X)
    ensures Lists(v.(body := B'), X)
  {
    WeakerKind(v.body, B', gone);
    forall x | x in v.body
      ensures WeakOk(v.body, v.m.color, x) ==> WeakOk(B', v.m.color, x)
      ensures EphOk(v.body, v.m.color, x) ==> EphOk(B', v.m.color, x)
      ensures AllWeakOk(v.body, v.m.color, x) ==> AllWeakOk(B', v.m.color, x)
      ensures KeptOk(v.body, v.m.color, x) ==> KeptOk(B', v.m.color, x)
      ensures PtrsIn(v.body, v.body[x], Marked(v.m.color)) ==> PtrsIn(B', B'[x], Marked(v.m.color))
    {
      WeakerOk(v.body, B', gone, v.m.color, x);
      WeakerIn(v.body, B', gone, x, Marked(v.m.color));
    }
    hide Weaker, WeakOk, EphOk, AllWeakOk, KeptOk, PtrsIn;
  }

  lemma WeakerTri(v: View, B': Bodies, gone: set<Id>, rest: multiset<Id>, ex: set<Id>)
    requires Weaker(v.body, B', gone) && Tri(v, rest, ex)
    ensures Tri(v.(body := B'), rest, ex)
  {
    WeakerKind(v.body, B', gone);
    forall x | x in v.body
      ensures PtrsIn(v.body, v.body[x], Marked(v.m.color)) ==> PtrsIn(B', B'[x], Marked(v.m.color))
    {
      WeakerIn(v.body, B', gone, x, Marked(v.m.color));
    }
    hide Weaker, PtrsIn;
  }

  lemma WeakerThreads(v: View, B': Bodies, gone: set<Id>, ex: set<Id>)
    requires Weaker(v.body, B', gone) && Threads(v, ex)
    ensures Threads(v.(body := B'), ex)
  {
    forall x | x in v.body
      ensures !v.body[x].Table? ==> B'[x] == v.body[x]
      ensures B'[x].Table? == v.body[x].Table?
      ensures v.body[x].OpenUp? ==> UpValue(B', B'[x]) == UpValue(v.body, v.body[x])
    {
      WeakerSame(v.body, B', gone, x);
    }
    hide Weaker, UpValue;
  }

  lemma WeakerPhase(v: View, B': Bodies, gone: set<Id>, S: set<Id>, X: set<Id>, rest: multiset<Id>, ex: set<Id>)
    requires Phase(v, S, X, rest, ex) && Weaker(v.body, B', gone)
    ensures Phase(v.(body := B'), S, X, rest, ex)
  {
    hide Weaker, Bounded, Tri, Lists, Threads, Single, OneWhite, Paid, Listed;
    WeakerReady(v, B', gone, S, X);
    WeakerTri(v, B', gone, rest, ex);
    WeakerLists(v, B', gone, X);
    WeakerThreads(v, B', gone, ex);
    WeakerPlain(v, B', rest, ex);
    WeakerSorts(v.body, B', gone);
  }

  lemma WeakerSorts(B: Bodies, B': Bodies, gone: set<Id>)
    requires Weaker(B, B', gone)
    ensures B'.Keys == B.Keys && forall x | x in B :: Listable(B'[x]) == Listable(B[x])
  {
    WeakerKind(B, B', gone);
  }

  /** The parts of the invariant that do not look at bodies. */
  lemma WeakerPlain(v: View, B': Bodies, rest: multiset<Id>, ex: set<Id>)
    ensures Listed(v.(body := B'), rest) == Listed(v, rest)
    ensures OneWhite(v) ==> OneWhite(v.(body := B'))
    ensures Paid(v, ex) ==> Paid(v.(body := B'), ex)
  {
  }

  // ---------------------------------------------------------------------- taking one gray object

  /** v' is v after taking o off a list and painting it black; g is what is left of the gray list. */
  ghost predicate Taken(v: View, v': View, rest: multiset<Id>, rest': multiset<Id>, o: Id) {
    && v' == v.(m := Marks(v.m.color[o := Black], v'.m.gray, v.m.debt))
    && Listed(v, rest) == Listed(v', rest') + multiset{o}
    && (forall i | 0 <= i < |v'.m.gray| :: v'.m.gray[i] in v.m.gray)
    && |v'.m.gray| + (if v.state <= 1 then 1 else 0) <= |v.m.gray|
  }

  lemma TakenMarks(v: View, v': View, o: Id)
    requires o in v.m.color && v.m.color[o].Gray? && v'.m.color == v.m.color[o := Black]
    ensures Marked(v'.m.color) == Marked(v.m.color)
    ensures Whites(v'.m.color) == Whites(v.m.color)
  {
    assert Whites(v'.m.color) == Whites(v.m.color);
  }

  lemma TakenSingle(v: View, v': View, rest: multiset<Id>, rest': multiset<Id>, o: Id)
    requires Taken(v, v', rest, rest', o) && Single(Listed(v, rest), v.m.color)
    ensures o in v.m.color && v.m.color[o].Gray? && o !in Listed(v', rest')
    ensures Single(Listed(v', rest'), v'.m.color)
  {
    hide Listed;
    assert o in Listed(v, rest);
  }

  lemma TakenTri(v: View, v': View, rest: multiset<Id>, rest': multiset<Id>, o: Id)
    requires Taken(v, v', rest, rest', o) && Tri(v, rest, {}) && o in v.m.color && v.m.color[o].Gray?
    ensures Tri(v', rest', {o})
  {
    TakenMarks(v, v', o);
    hide Listed, PtrsIn;
  }

  lemma TakenLists(v: View, v': View, rest: multiset<Id>, rest': multiset<Id>, X: set<Id>, o: Id)
    requires Taken(v, v', rest, rest', o) && Lists(v, X) && o in v.m.color && v.m.color[o].Gray?
    requires o !in Listed(v', rest')
    ensures Lists(v', X) && o !in X
  {
    TakenMarks(v, v', o);
    ListsMono(v, X, v'.m);
    assert forall x | x in v.allWeak :: x in Listed(v', rest');
  }

  lemma TakenRest(v: View, v': View, rest: multiset<Id>, rest': multiset<Id>, S: set<Id>, X: set<Id>, o: Id)
    requires Taken(v, v', rest, rest', o) && o in v.m.color && v.m.color[o].Gray?
    requires Bounded(v, S, X) && Threads(v, {}) && OneWhite(v) && Paid(v, {})
    requires o in v.body ==> Listable(v.body[o])
    ensures Bounded(v', S, X) && Threads(v', {o}) && OneWhite(v') && Paid(v', {o})
    ensures o in S && o in v.body
  {
    TakenMarks(v, v', o);
    hide Listed, UpValue;
  }

  lemma TakenPhase(v: View, v': View, rest: multiset<Id>, rest': multiset<Id>, S: set<Id>, X: set<Id>, o: Id)
    requires Phase(v, S, X, rest, {}) && Taken(v, v', rest, rest', o)
    requires o in v.body && Listable(v.body[o])
    ensures Phase(v', S, X, rest', {o})
    ensures o !in X && o in S && o in v.m.color && v.m.color[o].Gray?
    ensures Marked(v'.m.color) == Marked(v.m.color) && Whites(v'.m.color) == Whites(v.m.color)
  {
    hide Bounded, Tri, Lists, Threads, Single, OneWhite, Paid, Taken;
    TakenSingle(v, v', rest, rest', o);
    TakenTri(v, v', rest, rest', o);
    TakenLists(v, v', rest, rest', X, o);
    TakenRest(v, v', rest, rest', S, X, o);
    TakenIs(v, v', rest, rest', o);
    TakenMarks(v, v', o);
  }

  lemma TakenIs(v: View, v': View, rest: multiset<Id>, rest': multiset<Id>, o: Id)
    requires Taken(v, v', rest, rest', o)
    ensures v'.state == v.state && v'.body == v.body && v'.m.color == v.m.color[o := Black]
  {
  }

  /** `mark_one_gray` takes the head of the gray list. */
  function Popped(v: View): View
    requires v.m.gray != []
  {
    v.(m := Marks(v.m.color[v.m.gray[0] := Black], v.m.gray[1..], v.m.debt))
  }

  lemma PoppedTaken(v: View, rest: multiset<Id>)
    requires v.m.gray != []
    ensures Taken(v, Popped(v), rest, rest, v.m.gray[0])
  {
    assert v.m.gray == [v.m.gray[0]] + v.m.gray[1..];
  }

  lemma PoppedPhase(v: View, S: set<Id>, X: set<Id>, rest: multiset<Id>)
    requires Phase(v, S, X, rest, {}) && v.m.gray != []
    ensures var o := v.m.gray[0];
      && Phase(Popped(v), S, X, rest, {o})
      && o !in X && o in S && o in v.body && o in v.m.color && Listable(v.body[o])
      && Marked(Popped(v).m.color) == Marked(v.m.color) && Whites(Popped(v).m.color) == Whites(v.m.color)
  {
    hide Bounded, Tri, Threads, Single, OneWhite, Taken;
    PoppedTaken(v, rest);
    TakenPhase(v, Popped(v), rest, rest, S, X, v.m.gray[0]);
  }

  // ---------------------------------------------------------------------- finishing that object

  /** The traversed object stays black: every pointer it holds is to a marked object. */
  lemma SettlePhase(v: View, S: set<Id>, X: set<Id>, rest: multiset<Id>, o: Id)
    requires Phase(v, S, X, rest, {o})
    requires PtrsIn(v.body, v.body[o], Marked(v.m.color))
    requires v.body[o].Thread? ==> v.state == 2 && (v.body[o].open != [] ==> o in v.twups)
    ensures Phase(v, S, X, rest, {})
    ensures v.state <= 1 ==> v.m.debt >= Unpaid(v.m) + 1
  {
    assert Tri(v, rest, {}) by { hide Bounded, Lists, Threads, Single, OneWhite, PtrsIn; }
    assert Threads(v, {}) by { hide Bounded, Lists, Tri, Single, OneWhite; }
    hide Bounded, Tri, Lists, Threads, Single, OneWhite;
  }

  /** Painting the traversed object gray again, as `linkgclist_` does. */
  function Regrayed(m: Marks, o: Id): Marks {
    m.(color := m.color[o := Gray])
  }

  lemma RegrayedMarks(m: Marks, o: Id)
    requires o in m.color && !m.color[o].White?
    ensures Marked(Regrayed(m, o).color) == Marked(m.color)
    ensures Whites(Regrayed(m, o).color) == Whites(m.color)
    ensures Unpaid(Regrayed(m, o)) == Unpaid(m)
  {
    assert Whites(Regrayed(m, o).color) == Whites(m.color);
  }

  /** v' is v with the black object o painted gray and put into one of the lists. */
  ghost predicate Relinked(v: View, v': View, rest: multiset<Id>, o: Id) {
    && v'.m == Regrayed(v.m, o)
    && v' == v.(m := v'.m, again := v'.again, weak := v'.weak, eph := v'.eph, allWeak := v'.allWeak)
    && Listed(v', rest) == Listed(v, rest) + multiset{o}
  }

  lemma RelinkPhase(v: View, v': View, S: set<Id>, X: set<Id>, rest: multiset<Id>, o: Id)
    requires Phase(v, S, X, rest, {o}) && Relinked(v, v', rest, o)
    requires Lists(v', X)
    ensures Phase(v', S, X, rest, {})
    ensures v'.state <= 1 ==> v'.m.debt >= Unpaid(v'.m) + 1
  {
    hide Bounded, Tri, Threads, Single, OneWhite, Listed, Lists;
    BoundedKeys(v, S, X);
    RegrayedMarks(v.m, o);
    RelinkSingle(v, v', rest, o);
    RelinkTri(v, v', rest, o);
    RelinkRest(v, v', S, X, o);
  }

  lemma RelinkSingle(v: View, v': View, rest: multiset<Id>, o: Id)
    requires Single(Listed(v, rest), v.m.color) && o in v.m.color && v.m.color[o].Black?
    requires Relinked(v, v', rest, o)
    ensures Single(Listed(v', rest), v'.m.color)
  {
    hide Listed;
  }

  lemma RelinkTri(v: View, v': View, rest: multiset<Id>, o: Id)
    requires Tri(v, rest, {o}) && Relinked(v, v', rest, o)
    requires o in v.m.color && v.m.color[o].Black?
    ensures Tri(v', rest, {})
  {
    RegrayedMarks(v.m, o);
    hide Listed, PtrsIn;
  }

  lemma RelinkRest(v: View, v': View, S: set<Id>, X: set<Id>, o: Id)
    requires Bounded(v, S, X) && Threads(v, {o}) && OneWhite(v)
    requires o in v.m.color && v.m.color[o].Black?
    requires v' == v.(m := Regrayed(v.m, o), again := v'.again, weak := v'.weak, eph := v'.eph, allWeak := v'.allWeak)
    requires o in v.body && !v.body[o].OpenUp?
    ensures Bounded(v', S, X) && Threads(v', {}) && OneWhite(v')
  {
    RegrayedMarks(v.m, o);
    hide UpValue;
  }

  lemma RegrayedLists(v: View, X: set<Id>, o: Id)
    requires Lists(v, X) && o in v.m.color && !v.m.color[o].White?
    ensures Lists(v.(m := Regrayed(v.m, o)), X)
  {
    RegrayedMarks(v.m, o);
    ListsMono(v, X, Regrayed(v.m, o));
  }

  lemma BoundedKeys(v: View, S: set<Id>, X: set<Id>)
    requires Bounded(v, S, X)
    ensures v.body.Keys == v.m.color.Keys && S <= v.body.Keys
  {
  }

  /** The lists a traversed object can go back to. */
  datatype Gclist = GrayAgain | Weak | Ephemeron | AllWeak

  function OnList(v: View, l: Gclist, o: Id): View {
    match l
    case GrayAgain => v.(again := [o] + v.again)
    case Weak => v.(weak := [o] + v.weak)
    case Ephemeron => v.(eph := [o] + v.eph)
    case AllWeak => v.(allWeak := [o] + v.allWeak)
  }

  /** `linkgclist_`: push on a list and paint gray. */
  function Link(v: View, l: Gclist, o: Id): View {
    OnList(v.(m := Regrayed(v.m, o)), l, o)
  }

  /** What an object needs for each of them. */
  ghost predicate LinkOk(v: View, l: Gclist, o: Id) {
    && o in v.body
    && match l
       case GrayAgain =>
         if v.state <= 1 then Listable(v.body[o])
         else v.body[o].Table? && PtrsIn(v.body, v.body[o], Marked(v.m.color))
       case Weak => v.state == 2 && WeakOk(v.body, v.m.color, o)
       case Ephemeron => v.state == 2 && EphOk(v.body, v.m.color, o)
       case AllWeak =>
         if v.state <= 1 then KeptOk(v.body, v.m.color, o) else AllWeakOk(v.body, v.m.color, o)
  }

  lemma LinkLists(v: View, X: set<Id>, l: Gclist, o: Id)
    requires Lists(v, X) && LinkOk(v, l, o) && o in v.m.color && v.m.color[o].Black?
    ensures Lists(Link(v, l, o), X)
  {
    RegrayedLists(v, X, o);
    RegrayedMarks(v.m, o);
    assert LinkOk(v.(m := Regrayed(v.m, o)), l, o);
    hide Lists, LinkOk;
    OnListLists(v.(m := Regrayed(v.m, o)), X, l, o);
  }

  lemma OnListLists(v: View, X: set<Id>, l: Gclist, o: Id)
    requires Lists(v, X) && LinkOk(v, l, o)
    ensures Lists(OnList(v, l, o), X)
  {
    hide PtrsIn, WeakOk, EphOk;
    assert forall x | x in v.allWeak :: x in [o] + v.allWeak;
    match l {
      case GrayAgain => assert forall i | 0 < i <= |v.again| :: ([o] + v.again)[i] == v.again[i - 1];
      case Weak => assert forall i | 0 < i <= |v.weak| :: ([o] + v.weak)[i] == v.weak[i - 1];
      case Ephemeron => assert forall i | 0 < i <= |v.eph| :: ([o] + v.eph)[i] == v.eph[i - 1];
      case AllWeak => assert forall i | 0 < i <= |v.allWeak| :: ([o] + v.allWeak)[i] == v.allWeak[i - 1];
    }
  }

  lemma LinkListed(v: View, rest: multiset<Id>, l: Gclist, o: Id)
    ensures Listed(Link(v, l, o), rest) == Listed(v, rest) + multiset{o}
  {
  }

  lemma LinkPhase(v: View, S: set<Id>, X: set<Id>, rest: multiset<Id>, l: Gclist, o: Id)
    requires Phase(v, S, X, rest, {o}) && LinkOk(v, l, o)
    ensures Phase(Link(v, l, o), S, X, rest, {})
    ensures v.state <= 1 ==> v.m.debt >= Unpaid(Regrayed(v.m, o)) + 1
    ensures Marked(Regrayed(v.m, o).color) == Marked(v.m.color)
  {
    hide Tri, Threads, Single, OneWhite, Bounded, Lists, LinkOk, Listed;
    BoundedKeys(v, S, X);
    RegrayedMarks(v.m, o);
    LinkLists(v, X, l, o);
    LinkListed(v, rest, l, o);
    RelinkPhase(v, Link(v, l, o), S, X, rest, o);
  }

  // ---------------------------------------------------------------------- what later marking keeps

  /** What marking and clearing never change about the graph: which objects are strings, which
      never go through a list, and what the open upvalues give access to. */
  datatype Shape = Shape(strings: set<Id>, leaves: set<Id>, ups: map<Id, Value>)

  function ShapeOf(B: Bodies): Shape {
    Shape(Strings(B),
          set x | x in B && !Listable(B[x]),
          map x | x in B && B[x].OpenUp? :: UpValue(B, B[x]))
  }

  lemma WeakerShape(B: Bodies, B': Bodies, gone: set<Id>)
    requires Weaker(B, B', gone)
    ensures ShapeOf(B') == ShapeOf(B)
  {
    forall x | x in B
      ensures B'[x].Table? == B[x].Table?
      ensures !B[x].Table? ==> B'[x] == B[x]
      ensures B[x].OpenUp? ==> UpValue(B', B'[x]) == UpValue(B, B[x])
    {
      WeakerSame(B, B', gone, x);
    }
    hide Weaker, UpValue;
    assert ShapeOf(B').strings == ShapeOf(B).strings;
    assert ShapeOf(B').leaves == ShapeOf(B).leaves;
    assert ShapeOf(B').ups == ShapeOf(B).ups;
  }

  /** The ghost context of a marking step: what may be marked, the tables whose metatable need not be held,
      what is held in locals, and the shape of the graph. */
  datatype Scope = Scope(bound: set<Id>, exempt: set<Id>, rest: multiset<Id>, shape: Shape)

  ghost predicate Within(v: View, k: Scope, ex: set<Id>) {
    Phase(v, k.bound, k.exempt, k.rest, ex) && k.shape == ShapeOf(v.body)
  }

  /** Only strings are left to mark. */
  ghost predicate Exhausted(k: Scope, C: Colors) {
    k.bound <= Marked(C) + k.shape.strings
  }

  /** m is a later state of the marks: nothing became white again and nothing more is owed; only
      leaves became black, an open upvalue only got marked along with its value; and the gray list
      did not move if only strings were left to mark. */
  ghost predicate After(k: Scope, m0: Marks, m: Marks) {
    && m0.color.Keys == m.color.Keys
    && Marked(m0.color) <= Marked(m.color)
    && Whites(m.color) <= Whites(m0.color)
    && Unpaid(m) <= Unpaid(m0)
    && (forall x | x in m.color && m.color[x].Black? && x !in k.shape.leaves :: m0.color[x].Black?)
    && (forall u | u in k.shape.ups && u in Marked(m.color) && u !in Marked(m0.color) ::
          VIn(k.shape.ups[u], Marked(m.color)))
    && (Exhausted(k, m0.color) ==> m.gray == m0.gray)
  }

  lemma BurstAfter(v: View, k: Scope, ex: set<Id>, m: Marks)
    requires Within(v, k, ex) && Burst(v.body, v.m, m, k.bound)
    ensures Within(v.(m := m), k, ex)
    ensures After(k, v.m, m)
  {
    hide Phase, Burst;
    BurstPhase(v, m, k.bound, k.exempt, k.rest, ex);
    BurstPays(v.body, v.m, m, k.bound);
    BurstMarked(v.body, v.m, m, k.bound);
    BurstShape(v.body, v.m, m, k.bound);
    var news := BurstNews(v.body, v.m, m, k.bound);
    assert forall x | x in news :: x in Marked(m.color) && x !in Marked(v.m.color) && x !in k.shape.strings;
    assert news != [] ==> news[0] in news;
  }

  lemma BurstShape(B: Bodies, m0: Marks, m: Marks, S: set<Id>)
    requires Burst(B, m0, m, S)
    ensures forall x | x in m.color && m.color[x].Black? && x !in ShapeOf(B).leaves :: x in m0.color && m0.color[x].Black?
    ensures forall u | u in ShapeOf(B).ups && u in Marked(m.color) && u !in Marked(m0.color) ::
              VIn(ShapeOf(B).ups[u], Marked(m.color))
  {
    forall x | x in m.color && m.color[x] != m0.color[x]
      ensures m.color[x].Black? ==> !Listable(B[x])
      ensures B[x].OpenUp? ==> VIn(UpValue(B, B[x]), Marked(m.color))
    {
      assert Visited(B, m0, m, x);
    }
    hide UpValue;
  }

  lemma BurstMarked(B: Bodies, m0: Marks, m: Marks, S: set<Id>)
    requires Burst(B, m0, m, S)
    ensures m0.color.Keys == m.color.Keys
    ensures Marked(m0.color) <= Marked(m.color) <= Marked(m0.color) + S
    ensures Whites(m.color) <= Whites(m0.color)
  {
    GrowMarked(B, m0, m);
  }

  lemma AfterTrans(k: Scope, m0: Marks, m1: Marks, m2: Marks)
    requires After(k, m0, m1) && After(k, m1, m2)
    ensures After(k, m0, m2)
  {
  }

  lemma AfterIs(k: Scope, m0: Marks, m: Marks)
    requires After(k, m0, m)
    ensures Marked(m0.color) <= Marked(m.color)
    ensures m0.color.Keys == m.color.Keys
  {
  }

  lemma AfterRefl(k: Scope, m: Marks)
    ensures After(k, m, m)
  {
  }

  lemma WeakerWithin(v: View, B': Bodies, gone: set<Id>, k: Scope, ex: set<Id>)
    requires Within(v, k, ex) && Weaker(v.body, B', gone)
    ensures Within(v.(body := B'), k, ex)
  {
    hide Phase;
    WeakerShape(v.body, B', gone);
    hide Weaker;
    WeakerPhase(v, B', gone, k.bound, k.exempt, k.rest, ex);
  }

  lemma WithinKeys(v: View, k: Scope, ex: set<Id>)
    requires Within(v, k, ex)
    ensures k.bound <= v.body.Keys == v.m.color.Keys
    ensures forall x | x in ex :: x in v.body && v.m.color[x].Black?
    ensures Ready(v.body, v.m, k.bound)
  {
  }

  // ---------------------------------------------------------------------- one node of a table

  function WithNode(B: Bodies, h: Id, i: nat, e: Entry): Bodies
    requires h in B && B[h].Table? && i < |B[h].nodes|
  {
    B[h := B[h].(nodes := B[h].nodes[i := e])]
  }

  lemma WithNodeWeaker(B: Bodies, h: Id, i: nat, e: Entry, gone: set<Id>)
    requires h in B && B[h].Table? && i < |B[h].nodes|
    requires EntryWeaker(B[h].nodes[i], e, gone)
    ensures Weaker(B, WithNode(B, h, i, e), gone)
  {
    assert WeakerBody(B[h], WithNode(B, h, i, e)[h], gone);
  }

  /** B is B0 up to node i of h, whose first i nodes may have lost keys; nothing else differs. */
  ghost predicate NodesDone(B0: Bodies, B: Bodies, h: Id, gone: set<Id>) {
    && Weaker(B0, B, gone)
    && h in B0 && B0[h].Table? && B[h].Table?
    && B[h].mt == B0[h].mt && B[h].mode == B0[h].mode && B[h].arr == B0[h].arr
    && |B[h].nodes| == |B0[h].nodes|
    && (forall x | x in B0 && x != h :: B[x] == B0[x])
  }

  lemma NodesDoneStep(B0: Bodies, B: Bodies, h: Id, gone: set<Id>, i: nat, e: Entry)
    requires NodesDone(B0, B, h, gone) && i < |B[h].nodes| && EntryWeaker(B[h].nodes[i], e, gone)
    ensures NodesDone(B0, WithNode(B, h, i, e), h, gone)
  {
    WithNodeWeaker(B, h, i, e, gone);
    WeakerTrans(B0, B, WithNode(B, h, i, e), gone);
  }

  lemma NodesDoneRefl(B: Bodies, h: Id, gone: set<Id>)
    requires h in B && B[h].Table?
    ensures NodesDone(B, B, h, gone)
  {
  }

  lemma NodesDoneIs(B0: Bodies, B: Bodies, h: Id, gone: set<Id>)
    requires NodesDone(B0, B, h, gone)
    ensures Weaker(B0, B, gone)
    ensures h in B0 && h in B && B0[h].Table? && B[h].Table? && |B[h].nodes| == |B0[h].nodes|
    ensures B[h].mt == B0[h].mt && B[h].mode == B0[h].mode && B[h].arr == B0[h].arr
    ensures ModeOf(B, B[h]) == ModeOf(B0, B0[h])
    ensures forall x | x in B0 && x != h :: x in B && B[x] == B0[x]
  {
    WeakerSame(B0, B, gone, h);
  }

  /** What the closedness of the bound says about the table being traversed. */
  lemma StrongBound(v: View, k: Scope, h: Id)
    requires Within(v, k, {h}) && h !in k.exempt
    ensures h in v.body && h in k.bound && StrongIn(v.body, v.body[h], k.bound)
  {
  }

  lemma StrongTable(v: View, k: Scope, h: Id)
    requires Within(v, k, {h}) && h !in k.exempt && h in v.body && v.body[h].Table?
    requires ModeOf(v.body, v.body[h]) == Mode(false, false)
    ensures AllIn(v.body[h].arr, k.bound)
    ensures forall i | 0 <= i < |v.body[h].nodes| :: FullNodeIn(v.body[h].nodes[i], k.bound)
  {
    StrongBound(v, k, h);
    hide Within;
    forall i | 0 <= i < |v.body[h].nodes| ensures FullNodeIn(v.body[h].nodes[i], k.bound) {
      assert StrongNode(Mode(false, false), v.body[h].nodes[i], k.bound);
    }
  }

  ghost predicate FullNodeIn(e: Entry, S: set<Id>) {
    !e.val.Nil? ==> NodePtrsIn(e, S)
  }

  // ---------------------------------------------------------------------- weak tables

  ghost predicate KeyIn(e: Entry, S: set<Id>) {
    !e.val.Nil? ==> VIn(e.key, S)
  }

  ghost predicate EphNodeIn(e: Entry, S: set<Id>) {
    !e.val.Nil? && VIn(e.key, S) ==> VIn(e.val, S)
  }

  lemma WeakTable(v: View, k: Scope, h: Id)
    requires Within(v, k, {h}) && h !in k.exempt && h in v.body && v.body[h].Table?
    ensures OIn(v.body[h].mt, k.bound)
    ensures ModeOf(v.body, v.body[h]) == Mode(false, true) ==>
      forall i | 0 <= i < |v.body[h].nodes| :: KeyIn(v.body[h].nodes[i], k.bound)
    ensures ModeOf(v.body, v.body[h]) == Mode(true, false) ==>
      && AllIn(v.body[h].arr, k.bound)
      && forall i | 0 <= i < |v.body[h].nodes| :: EphNodeIn(v.body[h].nodes[i], k.bound)
  {
    StrongBound(v, k, h);
    hide Within;
    var m := ModeOf(v.body, v.body[h]);
    forall i | 0 <= i < |v.body[h].nodes|
      ensures m == Mode(false, true) ==> KeyIn(v.body[h].nodes[i], k.bound)
      ensures m == Mode(true, false) ==> EphNodeIn(v.body[h].nodes[i], k.bound)
    {
      assert StrongNode(m, v.body[h].nodes[i], k.bound);
    }
  }

  /** A pointer in a table is to an existing object; if that is a string, the bound allows it. */
  lemma NodeExists(v: View, k: Scope, ex: set<Id>, h: Id, i: nat)
    requires Within(v, k, ex) && h in v.body && v.body[h].Table? && i < |v.body[h].nodes|
    requires h in ex || h in k.bound
    ensures Exists(v, k, v.body[h].nodes[i].key) && Exists(v, k, v.body[h].nodes[i].val)
  {
    hide Within;
    BoundPtrs(v, k, ex, h);
    WithinKeys(v, k, ex);
    WithinMarked(v, k, ex);
    assert NodePtrsIn(v.body[h].nodes[i], v.body.Keys);
  }

  lemma BoundPtrs(v: View, k: Scope, ex: set<Id>, h: Id)
    requires Within(v, k, ex) && h in v.body && (h in ex || h in Marked(v.m.color) || h in k.bound)
    ensures h in k.bound && PtrsIn(v.body, v.body[h], v.body.Keys)
  {
    hide Tri, Lists, Threads, Single, StrongClosed, LeafClosed, Typed, PtrsIn;
  }

  ghost predicate Exists(v: View, k: Scope, x: Value) {
    x.Obj? ==> x.id in v.body && x.id in v.m.color && (v.body[x.id].Str? ==> x.id in k.bound)
  }

  /** What a visit leaves in a node of a weak-value table, and of an ephemeron table. */
  ghost predicate WeakNodeDone(e: Entry, M: set<Id>, clears: bool) {
    && VIn(e.key, M)
    && (e.val.Nil? ==> !e.key.Obj?)
    && (!clears ==> VIn(e.val, M))
  }

  ghost predicate NodeConv(e: Entry, M: set<Id>, T: set<Id>) {
    !e.val.Nil? && VIn(e.key, M + T) ==> VIn(e.val, M)
  }

  ghost predicate EphNodeDone(e: Entry, M: set<Id>, T: set<Id>, clears: bool, ww: bool) {
    && (e.val.Nil? ==> !e.key.Obj?)
    && StringKey(e, M, T)
    && (!ww ==> VIn(e.val, M))
    && (!clears ==> VIn(e.key, M) && VIn(e.val, M))
  }

  /** Every entry whose key is alive has its value marked. */
  ghost predicate EphConv(B: Bodies, C: Colors, x: Id) {
    && x in B && B[x].Table?
    && forall i | 0 <= i < |B[x].nodes| :: NodeConv(B[x].nodes[i], Marked(C), Strings(B))
  }

  /** The string keys have been marked by an earlier visit. */
  ghost predicate StringKeys(nodes: seq<Entry>, M: set<Id>, T: set<Id>) {
    forall i | 0 <= i < |nodes| :: StringKey(nodes[i], M, T)
  }

  /** Node j of n has been visited after i turns; `inv` reverses the order. */
  ghost predicate Seen(j: int, i: int, n: int, inv: bool) {
    if inv then j >= n - i else j < i
  }

  /** What the visited nodes of an ephemeron table have in common. */
  ghost predicate EphSeen(nodes: seq<Entry>, i: int, inv: bool, M: set<Id>, T: set<Id>, clears: bool, ww: bool) {
    forall j | 0 <= j < |nodes| && Seen(j, i, |nodes|, inv) :: EphNodeDone(nodes[j], M, T, clears, ww)
  }

  ghost predicate ConvSeen(nodes: seq<Entry>, i: int, inv: bool, M: set<Id>, T: set<Id>) {
    forall j | 0 <= j < |nodes| && Seen(j, i, |nodes|, inv) :: NodeConv(nodes[j], M, T)
  }

  lemma EphSeenStep(nodes: seq<Entry>, nodes': seq<Entry>, i: nat, at: nat, inv: bool, M: set<Id>, M': set<Id>,
                    T: set<Id>, clears: bool, ww: bool, c: bool, w: bool)
    requires EphSeen(nodes, i, inv, M, T, clears, ww) && M <= M'
    requires i < |nodes| == |nodes'| && at == if inv then |nodes| - 1 - i else i
    requires forall j | 0 <= j < |nodes'| && j != at :: nodes'[j] == nodes[j]
    requires EphNodeDone(nodes'[at], M', T, c, w)
    ensures EphSeen(nodes', i + 1, inv, M', T, clears || c, ww || w)
  {
    forall j | 0 <= j < |nodes'| && Seen(j, i + 1, |nodes'|, inv)
      ensures EphNodeDone(nodes'[j], M', T, clears || c, ww || w)
    {
      if j != at {
        assert EphNodeDone(nodes[j], M, T, clears, ww);
      }
    }
  }

  lemma ConvSeenStep(nodes: seq<Entry>, nodes': seq<Entry>, i: nat, at: nat, inv: bool, M: set<Id>, T: set<Id>)
    requires ConvSeen(nodes, i, inv, M, T)
    requires i < |nodes| == |nodes'| && at == if inv then |nodes| - 1 - i else i
    requires forall j | 0 <= j < |nodes'| && j != at :: nodes'[j] == nodes[j]
    requires NodeConv(nodes'[at], M, T)
    ensures ConvSeen(nodes', i + 1, inv, M, T)
  {
  }

  /** A marked thread joins the list of threads with open upvalues. */
  lemma TwupsPhase(v: View, S: set<Id>, X: set<Id>, rest: multiset<Id>, ex: set<Id>, th: Id)
    requires Phase(v, S, X, rest, ex) && th in v.body && v.body[th].Thread? && th in Marked(v.m.color)
    ensures Phase(v.(twups := [th] + v.twups), S, X, rest, ex)
  {
    hide Bounded, Tri, Lists, Single, OneWhite, Threads;
    TwupsThreads(v, ex, th);
    TwupsRest(v, S, X, rest, ex, th);
  }

  lemma TwupsRest(v: View, S: set<Id>, X: set<Id>, rest: multiset<Id>, ex: set<Id>, th: Id)
    ensures var v' := v.(twups := [th] + v.twups);
      && (Bounded(v, S, X) ==> Bounded(v', S, X)) && (Tri(v, rest, ex) ==> Tri(v', rest, ex))
      && (Lists(v, X) ==> Lists(v', X)) && (OneWhite(v) ==> OneWhite(v'))
      && Listed(v', rest) == Listed(v, rest)
  {
  }

  lemma TwupsThreads(v: View, ex: set<Id>, th: Id)
    requires Threads(v, ex) && th in v.body && v.body[th].Thread? && th in Marked(v.m.color)
    ensures Threads(v.(twups := [th] + v.twups), ex)
  {
    var l := [th] + v.twups;
    assert forall i | 0 < i < |l| :: l[i] == v.twups[i - 1];
    assert forall x | x in v.twups :: x in l;
    hide UpValue;
  }

  // ---------------------------------------------------------------------- the atomic phase

  ghost predicate TwupsDone(v: View, k: Scope, th: Id)
    requires th in v.body && v.body[th].Thread? && th in v.m.color
  {
    !v.m.color[th].Black? &&
    forall u | u in v.body[th].open && u in k.shape.ups && u in Marked(v.m.color) ::
      VIn(k.shape.ups[u], Marked(v.m.color))
  }

  /** A member of the old `twups` is kept, has no open upvalue, or is unmarked for now and the values
      of its marked upvalues are marked. */
  ghost predicate Remarked(v: View, k: Scope, kept: seq<Id>, th: Id) {
    th in v.body && v.body[th].Thread? && th in v.m.color
    && (th in kept || v.body[th].open == [] || TwupsDone(v, k, th))
  }

  lemma RemarkedMono(v: View, k: Scope, kept: seq<Id>, kept': seq<Id>, th: Id, m: Marks)
    requires Remarked(v, k, kept, th) && After(k, v.m, m) && k.shape == ShapeOf(v.body)
    requires forall x | x in kept :: x in kept'
    ensures Remarked(v.(m := m), k, kept', th)
  {
    hide UpValue;
  }

  lemma RemarkStep(v: View, k: Scope, kept: seq<Id>, kept': seq<Id>, th: Id, v': View)
    requires Remarked(v, k, kept, th) && After(k, v.m, v'.m) && k.shape == ShapeOf(v.body)
    requires forall x | x in kept :: x in kept'
    requires v'.body == v.body
    ensures Remarked(v', k, kept', th)
  {
    RemarkedMono(v, k, kept, kept', th, v'.m);
  }

  ghost predicate UpDone(k: Scope, C: Colors, u: Id) {
    u in k.shape.ups && u in Marked(C) ==> VIn(k.shape.ups[u], Marked(C))
  }

  lemma UpDoneMono(k: Scope, m0: Marks, m: Marks, u: Id)
    requires UpDone(k, m0.color, u) && After(k, m0, m)
    ensures UpDone(k, m.color, u)
  {
  }

  lemma UpsDone(v: View, k: Scope, C0: Colors, th: Id, kept: seq<Id>)
    requires th in v.body && v.body[th].Thread? && th in v.m.color && th in C0
    requires C0[th].White? || v.body[th].open == []
    requires v.m.color[th].Black? && th !in k.shape.leaves ==> C0[th].Black?
    requires k.shape == ShapeOf(v.body)
    requires forall j | 0 <= j < |v.body[th].open| :: UpDone(k, v.m.color, v.body[th].open[j])
    ensures Remarked(v, k, kept, th)
  {
    hide UpValue;
  }

  lemma AfterBlack(k: Scope, m0: Marks, m: Marks, x: Id)
    requires After(k, m0, m) && x in m.color
    ensures x in m0.color
    ensures m.color[x].Black? && x !in k.shape.leaves ==> m0.color[x].Black?
  {
  }

  /** Dropping from `twups` what `remark_upvalues` drops. */
  lemma RemarkThreads(v: View, k: Scope, kept: seq<Id>)
    requires Threads(v, {}) && !v.remarked && k.shape == ShapeOf(v.body) && Typed(v.body)
    requires v.body.Keys == v.m.color.Keys
    requires forall i | 0 <= i < |v.twups| :: Remarked(v, k, kept, v.twups[i])
    requires forall i | 0 <= i < |kept| ::
      kept[i] in v.twups && kept[i] in Marked(v.m.color)
    requires v.state == 2
    ensures Threads(v.(twups := kept, remarked := true), {})
  {
    var v' := v.(twups := kept, remarked := true);
    forall x | x in v.body && v.body[x].Thread? && v.body[x].open != [] && v.m.color[x].Black?
      ensures x in kept
    {
      assert x in v.twups;
    }
    forall x | x in v.body && v.body[x].OpenUp? && v.m.color[x].Gray?
      ensures v.body[x].th in Marked(v.m.color) || VIn(UpValue(v.body, v.body[x]), Marked(v.m.color))
    {
      assert TypedBody(v.body, x);
      var th := v.body[x].th;
      assert x in v.body[th].open && th in v.twups;
      assert k.shape.ups[x] == UpValue(v.body, v.body[x]);
      assert Remarked(v, k, kept, th);
    }
    forall i | 0 <= i < |kept| ensures kept[i] in v.body && v.body[kept[i]].Thread? {
    }
  }

  lemma RemarkWithin(v: View, k: Scope, kept: seq<Id>)
    requires Within(v, k, {}) && !v.remarked && v.state == 2
    requires forall i | 0 <= i < |v.twups| :: Remarked(v, k, kept, v.twups[i])
    requires forall i | 0 <= i < |kept| :: kept[i] in v.twups && kept[i] in Marked(v.m.color)
    ensures Within(v.(twups := kept, remarked := true), k, {})
  {
    WithinKeys(v, k, {});
    RemarkThreads(v, k, kept);
    hide Bounded, Tri, OneWhite, Threads, Single, Listed;
    RemarkRest(v, k.bound, k.exempt, k.rest, kept);
  }

  lemma RemarkRest(v: View, S: set<Id>, X: set<Id>, rest: multiset<Id>, kept: seq<Id>)
    requires v.state == 2
    ensures var v' := v.(twups := kept, remarked := true);
      && (Bounded(v, S, X) ==> Bounded(v', S, X)) && (Tri(v, rest, {}) ==> Tri(v', rest, {}))
      && (Lists(v, X) ==> Lists(v', X)) && (OneWhite(v) ==> OneWhite(v'))
      && Listed(v', rest) == Listed(v, rest)
  {
  }

  /** An open upvalue of a thread, as `remark_upvalues` sees it. */
  lemma OpenValue(v: View, k: Scope, th: Id, u: Id)
    requires Within(v, k, {}) && th in v.body && v.body[th].Thread? && u in v.body[th].open
    ensures u in v.body && v.body[u].OpenUp? && u in v.m.color
    ensures u in k.shape.ups && k.shape.ups[u] == UpValue(v.body, v.body[u])
    ensures u in Marked(v.m.color) ==> VIn(k.shape.ups[u], k.bound)
    ensures u in Marked(v.m.color) ==> VIn(k.shape.ups[u], v.m.color.Keys)
  {
    WithinKeys(v, k, {});
    WithinMarked(v, k, {});
    OpenUpTyped(v, k, th, u);
    hide Within;
    if u in Marked(v.m.color) {
      BoundPtrs(v, k, {}, u);
    }
  }

  lemma OpenUpTyped(v: View, k: Scope, th: Id, u: Id)
    requires Within(v, k, {}) && th in v.body && v.body[th].Thread? && u in v.body[th].open
    ensures u in v.body && v.body[u].OpenUp?
    ensures u in Marked(v.m.color) ==> VIn(UpValue(v.body, v.body[u]), k.bound)
  {
    hide Within, Ready, Marked, ShapeOf;
    WithinKeys(v, k, {});
    WithinMarked(v, k, {});
    ReadyOpen(v.body, v.m, k.bound, th, u);
    if u in Marked(v.m.color) {
      UpValueReady(v.body, v.m, u, k.bound);
    }
  }

  lemma ReadyOpen(B: Bodies, m: Marks, S: set<Id>, th: Id, u: Id)
    requires Ready(B, m, S) && th in B && B[th].Thread? && u in B[th].open
    ensures u in B && B[u].OpenUp?
  {
    assert TypedBody(B, th);
  }

  lemma WithinMarked(v: View, k: Scope, ex: set<Id>)
    requires Within(v, k, ex)
    ensures Marked(v.m.color) <= k.bound && k.shape == ShapeOf(v.body)
    ensures Strings(v.body) <= k.bound
  {
  }

  /** `converge_ephemerons` takes the head of the list it holds in a local. */
  lemma NextPhase(v: View, S: set<Id>, X: set<Id>, rest: multiset<Id>, next: seq<Id>)
    requires v.state == 2 && next != []
    requires Phase(v, S, X, rest + multiset(next), {})
    requires next[0] in v.body && v.body[next[0]].Table?
    ensures var o := next[0]; var v' := v.(m := v.m.(color := v.m.color[o := Black]));
      && Phase(v', S, X, rest + multiset(next[1..]), {o})
      && o !in X && o in S && o in v.m.color && v.m.color[o].Gray?
      && Marked(v'.m.color) == Marked(v.m.color) && Whites(v'.m.color) == Whites(v.m.color)
  {
    hide Bounded, Tri, Threads, Single, OneWhite, Lists;
    var v' := v.(m := v.m.(color := v.m.color[next[0] := Black]));
    NextTaken(v, rest, next);
    hide Taken;
    TakenPhase(v, v', rest + multiset(next), rest + multiset(next[1..]), S, X, next[0]);
  }

  lemma NextTaken(v: View, rest: multiset<Id>, next: seq<Id>)
    requires v.state == 2 && next != []
    ensures Taken(v, v.(m := v.m.(color := v.m.color[next[0] := Black])),
                  rest + multiset(next), rest + multiset(next[1..]), next[0])
  {
    assert next == [next[0]] + next[1..];
    assert forall i | 0 <= i < |v.m.gray| :: v.m.gray[i] in v.m.gray;
  }

  function Plus(k: Scope, l: seq<Id>): Scope {
    k.(rest := k.rest + multiset(l))
  }

  /** The list `ephemeron` moves to a local. */
  lemma EphTaken(v: View, k: Scope)
    requires Within(v, k, {})
    ensures Within(v.(eph := []), Plus(k, v.eph), {})
  {
    hide Bounded, Tri, Threads, Single, OneWhite, Lists;
    var v' := v.(eph := []);
    assert Listed(v', Plus(k, v.eph).rest) == Listed(v, k.rest);
    EphTakenRest(v, k.bound, k.exempt, k.rest);
    assert Within(v', Plus(k, v.eph), {}) by { hide Listed; }
  }

  lemma EphTakenTri(v: View, rest: multiset<Id>)
    ensures Tri(v, rest, {}) ==> Tri(v.(eph := []), rest + multiset(v.eph), {})
  {
    assert Listed(v.(eph := []), rest + multiset(v.eph)) == Listed(v, rest);
    hide Listed;
  }

  lemma EphTakenRest(v: View, S: set<Id>, X: set<Id>, rest: multiset<Id>)
    ensures var v' := v.(eph := []); var rest' := rest + multiset(v.eph);
      && (Bounded(v, S, X) ==> Bounded(v', S, X)) && (Tri(v, rest, {}) ==> Tri(v', rest', {}))
      && (Lists(v, X) ==> Lists(v', X)) && (OneWhite(v) ==> OneWhite(v'))
      && (Threads(v, {}) ==> Threads(v', {}))
  {
    EphTakenTri(v, rest);
    hide Tri, Listed, Ready, StrongClosed, Marked;
  }

  /** A local list that has been used up. */
  lemma PlusNone(v: View, k: Scope)
    requires Within(v, Plus(k, []), {})
    ensures Within(v, k, {})
  {
    assert k.rest + multiset([]) == k.rest;
  }

  lemma EphOkMono(B: Bodies, B': Bodies, C: Colors, C': Colors, x: Id)
    requires EphOk(B, C, x) && Weaker(B, B', {}) && Marked(C) <= Marked(C')
    ensures EphOk(B', C', x)
  {
    WeakerOk(B, B', {}, C, x);
    hide Weaker;
  }

  lemma EphConvMono(B: Bodies, B': Bodies, C: Colors, C': Colors, x: Id)
    requires EphConv(B, C, x) && Weaker(B, B', {}) && Marked(C) == Marked(C')
    ensures EphConv(B', C', x)
  {
    WeakerKind(B, B', {});
    WeakerBodyOf(B, B', {}, x);
    assert Strings(B) == Strings(B');
    hide Weaker;
    forall i | 0 <= i < |B'[x].nodes| ensures NodeConv(B'[x].nodes[i], Marked(C'), Strings(B')) {
      assert NodeConv(B[x].nodes[i], Marked(C), Strings(B));
      assert B'[x] == B[x] || EntryWeaker(B[x].nodes[i], B'[x].nodes[i], {});
    }
  }

  lemma EphStrings(B: Bodies, C: Colors, x: Id)
    requires EphOk(B, C, x)
    ensures x in B && B[x].Table? && ModeOf(B, B[x]) == Mode(true, false) && OIn(B[x].mt, Marked(C))
    ensures StringKeys(B[x].nodes, Marked(C), Strings(B))
  {
  }

  lemma ListedEphOk(v: View, k: Scope, ex: set<Id>)
    requires Within(v, k, ex) && v.state == 2
    ensures forall i | 0 <= i < |v.eph| :: EphOk(v.body, v.m.color, v.eph[i])
  {
  }

  ghost predicate Suffix(t: seq<Id>, s: seq<Id>) {
    |t| <= |s| && s[|s| - |t|..] == t
  }

  lemma SuffixTrans(a: seq<Id>, b: seq<Id>, c: seq<Id>)
    requires Suffix(a, b) && Suffix(b, c)
    ensures Suffix(a, c)
  {
    assert c[|c| - |a|..] == c[|c| - |b|..][|b| - |a|..];
  }

  /** Only the lists `ephemeron` and `allweak` moved, the latter by pushes. */
  ghost predicate OnlyPushed(v: View, v': View) {
    v'.weak == v.weak && v'.again == v.again && Suffix(v.allWeak, v'.allWeak)
  }

  ghost predicate AllEphOk(B: Bodies, C: Colors, l: seq<Id>) {
    forall i | 0 <= i < |l| :: EphOk(B, C, l[i])
  }

  ghost predicate AllEphConv(B: Bodies, C: Colors, l: seq<Id>) {
    forall i | 0 <= i < |l| :: EphConv(B, C, l[i])
  }

  lemma AllEphOkMono(B: Bodies, B': Bodies, C: Colors, C': Colors, l: seq<Id>)
    requires AllEphOk(B, C, l) && l != [] && Weaker(B, B', {}) && Marked(C) <= Marked(C')
    ensures AllEphOk(B', C', l[1..])
  {
    forall i | 0 <= i < |l[1..]| ensures EphOk(B', C', l[1..][i]) {
      EphOkMono(B, B', C, C', l[i + 1]);
    }
  }

  lemma AllEphConvMono(B: Bodies, B': Bodies, C: Colors, C': Colors, l: seq<Id>, l': seq<Id>, w: Id)
    requires AllEphConv(B, C, l) && Weaker(B, B', {}) && Marked(C) == Marked(C')
    requires EphConv(B', C', w) && (l' == l || l' == [w] + l)
    ensures AllEphConv(B', C', l')
  {
    forall i | 0 <= i < |l| ensures EphConv(B', C', l[i]) {
      EphConvMono(B, B', C, C', l[i]);
    }
    hide EphConv;
    assert l' == [w] + l ==> forall i | 0 < i < |l'| :: l'[i] == l[i - 1];
  }

  lemma SortedPushed(h: Id, v: View, v': View)
    requires v'.again == v.again && v'.weak == v.weak
    requires v'.allWeak == v.allWeak || v'.allWeak == [h] + v.allWeak
    ensures OnlyPushed(v, v')
  {
  }

  lemma ExhaustedMono(k: Scope, C: Colors, C': Colors)
    requires Exhausted(k, C) && Marked(C) <= Marked(C')
    ensures Exhausted(k, C')
  {
  }

  // ---------------------------------------------------------------------- the fixpoint

  lemma PtrsStrong(B: Bodies, b: Body, S: set<Id>, T: set<Id>)
    requires PtrsIn(B, b, S) && S <= T
    ensures StrongIn(B, b, T) && PtrsIn(B, b, T)
  {
    if b.Table? {
      forall i | 0 <= i < |b.nodes| ensures StrongNode(ModeOf(B, b), b.nodes[i], T) {
        assert NodePtrsIn(b.nodes[i], S);
      }
    }
  }

  lemma WeakOkStrong(B: Bodies, C: Colors, x: Id, T: set<Id>)
    requires WeakOk(B, C, x) && Marked(C) <= T
    ensures StrongIn(B, B[x], T)
  {
    forall i | 0 <= i < |B[x].nodes| ensures StrongNode(ModeOf(B, B[x]), B[x].nodes[i], T) {
      assert VIn(B[x].nodes[i].key, Marked(C));
    }
  }

  lemma AllWeakOkStrong(B: Bodies, C: Colors, x: Id, T: set<Id>)
    requires AllWeakOk(B, C, x) && Marked(C) <= T
    ensures StrongIn(B, B[x], T)
  {
    forall i | 0 <= i < |B[x].nodes| ensures StrongNode(ModeOf(B, B[x]), B[x].nodes[i], T) {
      if ModeOf(B, B[x]) == Mode(true, false) {
        assert VIn(B[x].nodes[i].val, Marked(C));
      }
    }
  }

  lemma EphStrong(B: Bodies, C: Colors, x: Id, T: set<Id>)
    requires EphOk(B, C, x) && EphConv(B, C, x) && T == Marked(C) + Strings(B)
    ensures StrongIn(B, B[x], T)
  {
    forall i | 0 <= i < |B[x].nodes| ensures StrongNode(ModeOf(B, B[x]), B[x].nodes[i], T) {
      assert NodeConv(B[x].nodes[i], Marked(C), Strings(B));
    }
  }

  /** Marking is over: no list but the four weak ones, and the ephemeron tables have converged. */
  ghost predicate Converged(v: View, k: Scope) {
    && Within(v, k, {}) && v.state == 2 && v.remarked
    && v.m.gray == [] && k.rest == multiset{}
    && AllEphConv(v.body, v.m.color, v.eph)
  }

  /** Where a marked object is when marking is over. */
  lemma MarkedWhere(v: View, k: Scope, x: Id)
    requires Within(v, k, {}) && v.state == 2 && v.m.gray == [] && k.rest == multiset{}
    requires x in Marked(v.m.color)
    ensures x in v.body
    ensures || PtrsIn(v.body, v.body[x], Marked(v.m.color))
            || v.body[x].OpenUp?
            || (x in v.weak && WeakOk(v.body, v.m.color, x))
            || (x in v.eph && EphOk(v.body, v.m.color, x))
            || (x in v.allWeak && v.body[x].Table? && (x in k.exempt || AllWeakOk(v.body, v.m.color, x)))
    ensures v.body[x].Thread? ==> v.m.color[x].Black? && PtrsIn(v.body, v.body[x], Marked(v.m.color))
  {
    WithinKeys(v, k, {});
    WithinLists(v, k);
    hide Bounded, Lists, Threads, Single, OneWhite, PtrsIn, WeakOk, EphOk, AllWeakOk;
    assert x in Listed(v, k.rest) ==> x in v.again || x in v.weak || x in v.eph || x in v.allWeak;
  }

  lemma WithinLists(v: View, k: Scope)
    requires Within(v, k, {}) && v.state == 2
    ensures forall x | x in v.again :: x in v.body && v.body[x].Table? && PtrsIn(v.body, v.body[x], Marked(v.m.color))
    ensures forall x | x in v.weak :: WeakOk(v.body, v.m.color, x)
    ensures forall x | x in v.eph :: EphOk(v.body, v.m.color, x)
    ensures forall x | x in v.allWeak :: x in v.body && v.body[x].Table? &&
                                        (x in k.exempt || AllWeakOk(v.body, v.m.color, x))
  {
    hide Bounded, Tri, Threads, Single, OneWhite, PtrsIn, WeakOk, EphOk, AllWeakOk;
  }

  lemma OpenTyped(v: View, k: Scope, u: Id)
    requires Within(v, k, {}) && u in v.body && v.body[u].OpenUp?
    ensures v.body[u].th in v.body && v.body[v.body[u].th].Thread?
    ensures v.body[u].slot < |v.body[v.body[u].th].stack|
  {
    hide Within;
    WithinKeys(v, k, {});
    assert TypedBody(v.body, u);
  }

  lemma OpenMarked(v: View, k: Scope, u: Id)
    requires Within(v, k, {}) && v.remarked && u in Marked(v.m.color) && u in v.body && v.body[u].OpenUp?
    ensures v.body[u].th in Marked(v.m.color) || VIn(UpValue(v.body, v.body[u]), Marked(v.m.color))
  {
    hide Bounded, Lists, Single, OneWhite, Listed, UpValue;
  }

  /** The value of a marked open upvalue is marked. */
  lemma MarkedUpvalue(v: View, k: Scope, u: Id)
    requires Within(v, k, {}) && v.state == 2 && v.remarked && v.m.gray == [] && k.rest == multiset{}
    requires u in Marked(v.m.color) && u in v.body && v.body[u].OpenUp?
    ensures VIn(UpValue(v.body, v.body[u]), Marked(v.m.color))
  {
    hide Within;
    OpenTyped(v, k, u);
    OpenMarked(v, k, u);
    if v.body[u].th in Marked(v.m.color) {
      MarkedWhere(v, k, v.body[u].th);
    }
  }

  lemma ConvergedStrong(v: View, k: Scope, x: Id)
    requires Converged(v, k) && x in Marked(v.m.color) && x !in k.exempt
    ensures x in v.body && StrongIn(v.body, v.body[x], Marked(v.m.color) + Strings(v.body))
  {
    MarkedWhere(v, k, x);
    hide Within, StrongIn, PtrsIn, WeakOk, EphOk, AllWeakOk, EphConv;
    var M, T := Marked(v.m.color), Marked(v.m.color) + Strings(v.body);
    if v.body[x].OpenUp? {
      MarkedUpvalue(v, k, x);
      UpPtrs(v.body, v.body[x], M);
      PtrsStrong(v.body, v.body[x], M, T);
    } else if PtrsIn(v.body, v.body[x], M) {
      PtrsStrong(v.body, v.body[x], M, T);
    } else if x in v.weak {
      WeakOkStrong(v.body, v.m.color, x, T);
    } else if x in v.eph {
      EphStrong(v.body, v.m.color, x, T);
    } else {
      AllWeakOkStrong(v.body, v.m.color, x, T);
    }
  }

  lemma UpPtrs(B: Bodies, b: Body, S: set<Id>)
    requires b.OpenUp?
    ensures VIn(UpValue(B, b), S) <==> PtrsIn(B, b, S)
  {
  }

  /** When marking is over, the marked objects and the strings are closed under strong links. */
  lemma ConvergedClosed(v: View, k: Scope)
    requires Converged(v, k)
    ensures StrongClosed(v.body, Marked(v.m.color) + Strings(v.body), k.exempt)
  {
    hide Within, StrongIn, AllEphConv;
    forall x | x in v.body && x in Marked(v.m.color) + Strings(v.body) && x !in k.exempt
      ensures StrongIn(v.body, v.body[x], Marked(v.m.color) + Strings(v.body))
    {
      if x in Marked(v.m.color) {
        ConvergedStrong(v, k, x);
      } else {
        StringStrong(v.body, v.body[x], Marked(v.m.color) + Strings(v.body));
      }
    }
  }

  lemma StringStrong(B: Bodies, b: Body, S: set<Id>)
    requires b.Str?
    ensures StrongIn(B, b, S)
  {
  }

  // ---------------------------------------------------------------------- clearing

  ghost predicate NodeClean(e: Entry, byKey: bool, M: set<Id>) {
    VIn(if byKey then e.key else e.val, M) && (e.val.Nil? ==> !e.key.Obj?)
  }

  ghost predicate NodesClean(B: Bodies, C: Colors, x: Id, byKey: bool) {
    && x in B && B[x].Table?
    && forall i | 0 <= i < |B[x].nodes| :: NodeClean(B[x].nodes[i], byKey, Marked(C))
  }

  ghost predicate ArrIn(B: Bodies, C: Colors, x: Id) {
    x in B && B[x].Table? && AllIn(B[x].arr, Marked(C))
  }

  lemma CleanMono(B: Bodies, B': Bodies, gone: set<Id>, C: Colors, C': Colors, x: Id, byKey: bool)
    requires Weaker(B, B', gone) && Marked(C) <= Marked(C')
    ensures NodesClean(B, C, x, byKey) ==> NodesClean(B', C', x, byKey)
    ensures ArrIn(B, C, x) ==> ArrIn(B', C', x)
  {
    if x in B && B[x].Table? {
      WeakerKind(B, B', gone);
      WeakerBodyOf(B, B', gone, x);
      hide Weaker;
      var b, b' := B[x], B'[x];
      if NodesClean(B, C, x, byKey) {
        forall i | 0 <= i < |b'.nodes| ensures NodeClean(b'.nodes[i], byKey, Marked(C')) {
          assert NodeClean(b.nodes[i], byKey, Marked(C));
          assert b' == b || EntryWeaker(b.nodes[i], b'.nodes[i], gone);
        }
      }
      if ArrIn(B, C, x) {
        forall i | 0 <= i < |b'.arr| ensures VIn(b'.arr[i], Marked(C')) {
          assert VIn(b.arr[i], Marked(C));
          assert b' == b || ValWeaker(b.arr[i], b'.arr[i], gone);
        }
      }
    }
  }

  function WithSlot(B: Bodies, h: Id, i: nat, v: Value): Bodies
    requires h in B && B[h].Table? && i < |B[h].arr|
  {
    B[h := B[h].(arr := B[h].arr[i := v])]
  }

  lemma WithSlotWeaker(B: Bodies, h: Id, i: nat, v: Value, gone: set<Id>)
    requires h in B && B[h].Table? && i < |B[h].arr| && ValWeaker(B[h].arr[i], v, gone)
    ensures Weaker(B, WithSlot(B, h, i, v), gone)
  {
    assert WeakerBody(B[h], WithSlot(B, h, i, v)[h], gone);
  }

  lemma SlotExists(v: View, k: Scope, ex: set<Id>, h: Id, i: nat)
    requires Within(v, k, ex) && h in v.body && v.body[h].Table? && i < |v.body[h].arr| && h in k.bound
    ensures Exists(v, k, v.body[h].arr[i])
  {
    hide Within;
    BoundPtrs(v, k, ex, h);
    WithinKeys(v, k, ex);
    WithinMarked(v, k, ex);
    assert VIn(v.body[h].arr[i], v.body.Keys);
  }

  // ---------------------------------------------------------------------- entering and leaving

  /** Into the atomic phase: `grayagain` moves to a local. */
  lemma EnterAtomic(v: View, S0: set<Id>, S: set<Id>, X: set<Id>)
    requires v.state == 1 && Phase(v, S0, X, multiset{}, {})
    requires Bounded(v, S, X)
    ensures Phase(v.(state := 2, again := []), S, X, multiset(v.again), {})
  {
    hide Bounded, OneWhite, Threads, Lists, Tri, Single;
    var v' := v.(state := 2, again := []);
    EnterLists(v, X);
    EnterRest(v, S, X);
    EnterListed(v);
    hide Listed;
    EnterTri(v);
  }

  lemma EnterListed(v: View)
    ensures Listed(v.(state := 2, again := []), multiset(v.again)) == Listed(v, multiset{})
  {
  }

  lemma EnterTri(v: View)
    requires Tri(v, multiset{}, {})
    requires Listed(v.(state := 2, again := []), multiset(v.again)) == Listed(v, multiset{})
    ensures Tri(v.(state := 2, again := []), multiset(v.again), {})
  {
    hide Listed;
  }

  lemma EnterLists(v: View, X: set<Id>)
    requires v.state == 1 && Lists(v, X)
    ensures Lists(v.(state := 2, again := []), X)
    ensures AllListable(v.body, v.again)
  {
  }

  lemma EnterRest(v: View, S: set<Id>, X: set<Id>)
    requires Bounded(v, S, X) && Threads(v, {}) && OneWhite(v) && v.state == 1
    ensures var v' := v.(state := 2, again := []);
      Bounded(v', S, X) && Threads(v', {}) && OneWhite(v')
  {
  }

  /** The saved `grayagain` becomes the gray list. */
  lemma AgainBack(v: View, k: Scope, again: seq<Id>)
    requires Within(v, k, {}) && v.state == 2 && v.m.gray == [] && k.rest == multiset(again)
    requires AllListable(v.body, again)
    ensures Within(v.(m := v.m.(gray := again)), k.(rest := multiset{}), {})
  {
    hide Bounded, OneWhite, Threads, Lists, Tri, Single;
    var v' := v.(m := v.m.(gray := again));
    AgainLists(v, k.exempt, again);
    AgainRest(v, k.bound, k.exempt, again);
    AgainListed(v, k.rest, again);
    hide Listed;
    AgainTri(v, k.rest, again);
  }

  lemma AgainListed(v: View, rest: multiset<Id>, again: seq<Id>)
    requires v.m.gray == [] && rest == multiset(again)
    ensures Listed(v.(m := v.m.(gray := again)), multiset{}) == Listed(v, rest)
  {
  }

  lemma AgainTri(v: View, rest: multiset<Id>, again: seq<Id>)
    requires Tri(v, rest, {})
    requires Listed(v.(m := v.m.(gray := again)), multiset{}) == Listed(v, rest)
    ensures Tri(v.(m := v.m.(gray := again)), multiset{}, {})
  {
    hide Listed;
  }

  lemma AgainLists(v: View, X: set<Id>, again: seq<Id>)
    requires Lists(v, X) && AllListable(v.body, again)
    ensures Lists(v.(m := v.m.(gray := again)), X)
  {
  }

  lemma AgainRest(v: View, S: set<Id>, X: set<Id>, again: seq<Id>)
    requires Bounded(v, S, X) && Threads(v, {}) && OneWhite(v)
    ensures var v' := v.(m := v.m.(gray := again));
      Bounded(v', S, X) && Threads(v', {}) && OneWhite(v')
  {
  }

  /** From the fixpoint on, nothing but strings is marked. */
  function Rebound(v: View, k: Scope): Scope {
    k.(bound := Marked(v.m.color) + Strings(v.body))
  }

  lemma ReboundWithin(v: View, k: Scope)
    requires Converged(v, k)
    ensures Within(v, Rebound(v, k), {}) && Exhausted(Rebound(v, k), v.m.color)
  {
    ConvergedClosed(v, k);
    ReboundBounded(v, k);
    hide Bounded, Tri, Threads, Single, OneWhite, Lists, StrongClosed, AllEphConv;
  }

  lemma ReboundBounded(v: View, k: Scope)
    requires Bounded(v, k.bound, k.exempt) && Lists(v, k.exempt)
    requires StrongClosed(v.body, Marked(v.m.color) + Strings(v.body), k.exempt)
    ensures Bounded(v, Marked(v.m.color) + Strings(v.body), k.exempt)
  {
    var S1 := Marked(v.m.color) + Strings(v.body);
    assert S1 <= k.bound;
    forall x | x in v.body && x in S1 && !Listable(v.body[x]) ensures PtrsIn(v.body, v.body[x], S1) {
      assert x !in k.exempt;
    }
  }

  // ---------------------------------------------------------------------- what clearing achieves

  /** Every pointer but the metatable. */
  ghost predicate PtrsButMeta(B: Bodies, b: Body, S: set<Id>) {
    b.Table? && AllIn(b.arr, S) && forall i | 0 <= i < |b.nodes| :: NodePtrsIn(b.nodes[i], S)
  }

  /** What a marked object is entitled to at the end of the atomic phase. */
  ghost predicate Final(B: Bodies, x: Id, M: set<Id>, X: set<Id>) {
    x in B && (PtrsIn(B, B[x], M) || (x in X && PtrsButMeta(B, B[x], M)))
  }

  lemma WeakFinal(B: Bodies, C: Colors, x: Id, X: set<Id>)
    requires WeakOk(B, C, x) && ArrIn(B, C, x) && NodesClean(B, C, x, false)
    ensures Final(B, x, Marked(C), X)
  {
    forall i | 0 <= i < |B[x].nodes| ensures NodePtrsIn(B[x].nodes[i], Marked(C)) {
      assert VIn(B[x].nodes[i].key, Marked(C)) && NodeClean(B[x].nodes[i], false, Marked(C));
    }
  }

  lemma AllWeakFinal(B: Bodies, C: Colors, x: Id, X: set<Id>)
    requires x in B && B[x].Table? && (x in X || AllWeakOk(B, C, x))
    requires ArrIn(B, C, x) && NodesClean(B, C, x, false) && NodesClean(B, C, x, true)
    ensures Final(B, x, Marked(C), X)
  {
    forall i | 0 <= i < |B[x].nodes| ensures NodePtrsIn(B[x].nodes[i], Marked(C)) {
      assert NodeClean(B[x].nodes[i], true, Marked(C)) && NodeClean(B[x].nodes[i], false, Marked(C));
    }
  }

  /** An ephemeron table that had converged when the marks were C1, after `clear_by_keys`. */
  lemma EphFinal(B1: Bodies, C1: Colors, B: Bodies, C: Colors, gone: set<Id>, x: Id, X: set<Id>)
    requires EphOk(B1, C1, x) && EphConv(B1, C1, x)
    requires Weaker(B1, B, gone) && Marked(C1) <= Marked(C) <= Marked(C1) + Strings(B1)
    requires NodesClean(B, C, x, true)
    ensures Final(B, x, Marked(C), X)
  {
    WeakerBodyOf(B1, B, gone, x);
    hide Weaker;
    var b1, b := B1[x], B[x];
    forall i | 0 <= i < |b.nodes| ensures NodePtrsIn(b.nodes[i], Marked(C)) {
      assert NodeConv(b1.nodes[i], Marked(C1), Strings(B1));
      assert NodeClean(b.nodes[i], true, Marked(C));
      assert b == b1 || EntryWeaker(b1.nodes[i], b.nodes[i], gone);
    }
    forall i | 0 <= i < |b.arr| ensures VIn(b.arr[i], Marked(C)) {
      assert VIn(b1.arr[i], Marked(C1));
      assert b == b1 || ValWeaker(b1.arr[i], b.arr[i], gone);
    }
  }

  ghost predicate AllClean(B: Bodies, C: Colors, l: seq<Id>, byKey: bool) {
    forall i | 0 <= i < |l| :: NodesClean(B, C, l[i], byKey) && (!byKey ==> ArrIn(B, C, l[i]))
  }

  lemma AllCleanMono(B: Bodies, B': Bodies, gone: set<Id>, C: Colors, C': Colors, l: seq<Id>, byKey: bool)
    requires AllClean(B, C, l, byKey) && Weaker(B, B', gone) && Marked(C) <= Marked(C')
    ensures AllClean(B', C', l, byKey)
  {
    forall i | 0 <= i < |l|
      ensures NodesClean(B', C', l[i], byKey) && (!byKey ==> ArrIn(B', C', l[i]))
    {
      assert NodesClean(B, C, l[i], byKey);
      CleanMono(B, B', gone, C, C', l[i], byKey);
    }
  }

  lemma AllCleanAppend(B: Bodies, C: Colors, s: seq<Id>, t: seq<Id>, l: seq<Id>, byKey: bool)
    requires AllClean(B, C, s, byKey) && AllClean(B, C, t, byKey) && l == s + t
    ensures AllClean(B, C, l, byKey)
  {
    hide NodesClean, ArrIn;
    forall i | 0 <= i < |l| ensures NodesClean(B, C, l[i], byKey) && (!byKey ==> ArrIn(B, C, l[i])) {
      assert l[i] == if i < |s| then s[i] else t[i - |s|];
    }
  }

  /** After clearing, every marked object is entitled to all it holds. */
  lemma ClearedFinal(v: View, k: Scope, B1: Bodies, C1: Colors, gone: set<Id>, x: Id)
    requires Within(v, k, {}) && v.state == 2 && v.remarked && v.m.gray == [] && k.rest == multiset{}
    requires x in Marked(v.m.color)
    requires AllClean(v.body, v.m.color, v.weak, false)
    requires AllClean(v.body, v.m.color, v.allWeak, false) && AllClean(v.body, v.m.color, v.allWeak, true)
    requires AllClean(v.body, v.m.color, v.eph, true)
    requires AllEphOk(B1, C1, v.eph) && AllEphConv(B1, C1, v.eph)
    requires Weaker(B1, v.body, gone) && Marked(C1) <= Marked(v.m.color) <= Marked(C1) + Strings(B1)
    ensures Final(v.body, x, Marked(v.m.color), k.exempt)
  {
    MarkedWhere(v, k, x);
    hide Within, Weaker, PtrsIn, PtrsButMeta, WeakOk, EphOk, AllWeakOk, EphConv, ArrIn, NodesClean;
    if v.body[x].OpenUp? {
      MarkedUpvalue(v, k, x);
      UpPtrs(v.body, v.body[x], Marked(v.m.color));
    } else if PtrsIn(v.body, v.body[x], Marked(v.m.color)) {
    } else if x in v.weak {
      WeakFinal(v.body, v.m.color, x, k.exempt);
    } else if x in v.eph {
      EphFinal(B1, C1, v.body, v.m.color, gone, x, k.exempt);
    } else {
      AllWeakFinal(v.body, v.m.color, x, k.exempt);
    }
  }

  lemma ListTables(v: View, k: Scope)
    requires Within(v, k, {}) && v.state == 2
    ensures Tables(v.body, v.weak) && Tables(v.body, v.eph) && Tables(v.body, v.allWeak)
    ensures AllEphOk(v.body, v.m.color, v.eph)
    ensures Inside(v.weak, k.bound) && Inside(v.eph, k.bound) && Inside(v.allWeak, k.bound)
  {
    hide Within, Listed, Single, Marked, Tables, AllEphOk;
    ListsAre(v, k);
    WithinMarked(v, k, {});
    ListsInside(v, k.rest);
  }

  lemma ListsAre(v: View, k: Scope)
    requires Within(v, k, {}) && v.state == 2
    ensures Tables(v.body, v.weak) && Tables(v.body, v.eph) && Tables(v.body, v.allWeak)
    ensures AllEphOk(v.body, v.m.color, v.eph) && Single(Listed(v, k.rest), v.m.color)
  {
    hide Bounded, Tri, Threads, Single, OneWhite, Listed;
  }

  ghost predicate Inside(l: seq<Id>, S: set<Id>) {
    forall i | 0 <= i < |l| :: l[i] in S
  }

  lemma ListsInside(v: View, rest: multiset<Id>)
    requires Single(Listed(v, rest), v.m.color)
    ensures Inside(v.weak, Marked(v.m.color)) && Inside(v.eph, Marked(v.m.color))
    ensures Inside(v.allWeak, Marked(v.m.color))
  {
    assert forall x | x in v.weak + v.eph + v.allWeak :: x in Listed(v, rest);
    assert forall i | 0 <= i < |v.weak| :: v.weak[i] in v.weak + v.eph + v.allWeak;
    assert forall i | 0 <= i < |v.eph| :: v.eph[i] in v.weak + v.eph + v.allWeak;
    assert forall i | 0 <= i < |v.allWeak| :: v.allWeak[i] in v.weak + v.eph + v.allWeak;
    hide Listed;
  }

  lemma TablesMono(B: Bodies, B': Bodies, gone: set<Id>, l: seq<Id>)
    requires Tables(B, l) && Weaker(B, B', gone)
    ensures Tables(B', l)
  {
    WeakerKind(B, B', gone);
  }

  /** The fixpoint seen from before the atomic phase: bodies only lost keys of empty entries since. */
  lemma ClosedBefore(B0: Bodies, v: View, k: Scope)
    requires Converged(v, k) && Weaker(B0, v.body, {})
    ensures StrongClosed(B0, Marked(v.m.color) + k.shape.strings, k.exempt)
  {
    ConvergedClosed(v, k);
    hide Within, AllEphConv;
    WeakerClosed(B0, v.body, {}, Marked(v.m.color) + k.shape.strings, k.exempt);
  }
}
