/** What a burst of marking does to colours, gray list and debt, whatever it visits. */
module GcGrow {
  import opened Basics
  import opened GcHeap

  /** The part of the collector's state that `mark` changes. */
  datatype Marks = Marks(color: Colors, gray: seq<Id>, debt: int)

  /** An object that was white either still is, or is finished, or waits in the gray list. */
  ghost predicate Visited(B: Bodies, m0: Marks, m: Marks, x: Id)
    requires x in B && x in m0.color && x in m.color
  {
    || m.color[x] == m0.color[x]
    || (m.color[x].Black? && !Listable(B[x]) && !B[x].OpenUp? && PtrsIn(B, B[x], Marked(m.color)))
    || (m.color[x].Gray? && B[x].OpenUp? && PtrsIn(B, B[x], Marked(m.color)))
    || (m.color[x].Gray? && Listable(B[x]) && x in m.gray)
  }

  /** How many objects have not been paid for: the white ones and those waiting in the gray list. */
  function Unpaid(m: Marks): nat {
    |Whites(m.color)| + |m.gray|
  }

  ghost predicate Pushed(B: Bodies, m0: Marks, m: Marks, x: Id) {
    x in B && Listable(B[x]) && x in m0.color && m0.color[x].White? && x in m.color && m.color[x].Gray?
  }

  /** From m0 to m only white objects changed; each is Visited; the gray list was only pushed on,
      and every object that got its colour was paid for or pushed. */
  ghost predicate Grow(B: Bodies, m0: Marks, m: Marks) {
    && m0.color.Keys == m.color.Keys == B.Keys
    && (forall x | x in m0.color && !m0.color[x].White? :: m.color[x] == m0.color[x])
    && (forall x | x in m0.color && m0.color[x].White? :: Visited(B, m0, m, x))
    && |m0.gray| <= |m.gray|
    && m.gray[|m.gray| - |m0.gray|..] == m0.gray
    && (forall i | 0 <= i < |m.gray| - |m0.gray| :: Pushed(B, m0, m, m.gray[i]))
    && (forall i, j | 0 <= i < j < |m.gray| - |m0.gray| :: m.gray[i] != m.gray[j])
    && m0.debt - m.debt == Unpaid(m0) - Unpaid(m)
    && m.debt <= m0.debt
  }

  lemma GrowMarked(B: Bodies, m0: Marks, m: Marks)
    requires Grow(B, m0, m)
    ensures Marked(m0.color) <= Marked(m.color)
    ensures Whites(m.color) <= Whites(m0.color)
  {
  }

  lemma GrowRefl(B: Bodies, m: Marks)
    requires m.color.Keys == B.Keys
    ensures Grow(B, m, m)
  {
  }

  lemma VisitedTrans(B: Bodies, m0: Marks, m1: Marks, m2: Marks, x: Id)
    requires Grow(B, m0, m1) && Grow(B, m1, m2)
    requires x in m0.color && m0.color[x].White?
    ensures Visited(B, m0, m2, x)
  {
    GrowMarked(B, m1, m2);
    if x in m1.gray {
      var i :| 0 <= i < |m1.gray| && m1.gray[i] == x;
      assert m2.gray[|m2.gray| - |m1.gray| + i] == m2.gray[|m2.gray| - |m1.gray|..][i] == x;
    }
  }

  /** The objects pushed by the one and by the other are different ones. */
  lemma PushesTrans(B: Bodies, m0: Marks, m1: Marks, m2: Marks)
    requires Grow(B, m0, m1) && Grow(B, m1, m2)
    ensures forall i | 0 <= i < |m2.gray| - |m0.gray| :: Pushed(B, m0, m2, m2.gray[i])
    ensures forall i, j | 0 <= i < j < |m2.gray| - |m0.gray| :: m2.gray[i] != m2.gray[j]
  {
    hide Visited, Unpaid;
    var d, e := |m2.gray| - |m1.gray|, |m1.gray| - |m0.gray|;
    forall i | 0 <= i < d + e
      ensures Pushed(B, m0, m2, m2.gray[i])
      ensures if i < d then Pushed(B, m1, m2, m2.gray[i]) else m2.gray[i] == m1.gray[i - d]
    {
      if i >= d {
        assert m2.gray[i] == m2.gray[d..][i - d] == m1.gray[i - d];
        assert Pushed(B, m0, m1, m1.gray[i - d]);
      } else {
        assert Pushed(B, m1, m2, m2.gray[i]);
      }
    }
    forall i, j | 0 <= i < j < d + e ensures m2.gray[i] != m2.gray[j] {
      if i < d <= j {
        assert Pushed(B, m0, m1, m1.gray[j - d]);
      }
    }
  }

  lemma TailOfTail(a: seq<Id>, b: seq<Id>, c: seq<Id>)
    requires |c| <= |b| <= |a| && a[|a| - |b|..] == b && b[|b| - |c|..] == c
    ensures a[|a| - |c|..] == c
  {
    assert a[|a| - |c|..] == a[|a| - |b|..][|b| - |c|..];
  }

  lemma GrowTrans(B: Bodies, m0: Marks, m1: Marks, m2: Marks)
    requires Grow(B, m0, m1) && Grow(B, m1, m2)
    ensures Grow(B, m0, m2)
  {
    hide Visited, Pushed, Unpaid;
    PushesTrans(B, m0, m1, m2);
    TailOfTail(m2.gray, m1.gray, m0.gray);
    forall x | x in m0.color && m0.color[x].White? ensures Visited(B, m0, m2, x) {
      VisitedTrans(B, m0, m1, m2, x);
    }
  }

  /** `mark` on an object finished at once: colour set and one unit of debt paid. */
  lemma GrowFinish(B: Bodies, m: Marks, x: Id, c: Color)
    requires m.color.Keys == B.Keys && x in B && m.color[x].White?
    requires (c.Black? && !Listable(B[x]) && !B[x].OpenUp?) || (c.Gray? && B[x].OpenUp?)
    requires PtrsIn(B, B[x], Marked(m.color[x := c]))
    ensures Grow(B, m, Marks(m.color[x := c], m.gray, m.debt - 1))
  {
    WhitesRecolored(m.color, x, c);
  }

  lemma GrowPush(B: Bodies, m: Marks, x: Id)
    requires m.color.Keys == B.Keys && x in B && m.color[x].White? && Listable(B[x])
    ensures Grow(B, m, Marks(m.color[x := Gray], [x] + m.gray, m.debt))
  {
    WhitesRecolored(m.color, x, Gray);
  }

  /** An upvalue is coloured before its value is marked: the two bursts together still are one. */
  lemma GrowAround(B: Bodies, m0: Marks, x: Id, c: Color, m: Marks)
    requires m0.color.Keys == B.Keys && x in B && m0.color[x].White?
    requires (c.Black? && B[x].ClosedUp?) || (c.Gray? && B[x].OpenUp?)
    requires Grow(B, Marks(m0.color[x := c], m0.gray, m0.debt - 1), m)
    requires PtrsIn(B, B[x], Marked(m.color))
    ensures Grow(B, m0, m)
  {
    var m1 := Marks(m0.color[x := c], m0.gray, m0.debt - 1);
    WhitesRecolored(m0.color, x, c);
    forall y | y in m0.color && m0.color[y].White? ensures Visited(B, m0, m, y) {
      if y != x {
        assert Visited(B, m1, m, y);
      }
    }
    forall i | 0 <= i < |m.gray| - |m0.gray| ensures Pushed(B, m0, m, m.gray[i]) {
      assert Pushed(B, m1, m, m.gray[i]);
    }
  }

  ghost predicate LeafClosed(B: Bodies, S: set<Id>) {
    forall x | x in B && x in S && !Listable(B[x]) :: PtrsIn(B, B[x], S)
  }

  /** What marking needs: a typed graph, enough debt for every white object, and a bound S on what may be marked
      that `mark` itself cannot leave and in which no pointer dangles. */
  ghost predicate Ready(B: Bodies, m: Marks, S: set<Id>) {
    && B.Keys == m.color.Keys
    && Typed(B)
    && Grounded(B, S)
    && |Whites(m.color)| <= m.debt
    && S <= B.Keys
    && (forall x | x in S :: !B[x].SweepMark?)
    && LeafClosed(B, S)
  }

  /** A burst of marking that stays within S. */
  ghost predicate Burst(B: Bodies, m0: Marks, m: Marks, S: set<Id>) {
    Grow(B, m0, m) && Marked(m.color) <= Marked(m0.color) + S
  }

  lemma BurstReady(B: Bodies, m0: Marks, m: Marks, S: set<Id>)
    requires Ready(B, m0, S) && Burst(B, m0, m, S)
    ensures Ready(B, m, S)
  {
  }

  lemma BurstTrans(B: Bodies, m0: Marks, m1: Marks, m2: Marks, S: set<Id>)
    requires Burst(B, m0, m1, S) && Burst(B, m1, m2, S)
    ensures Burst(B, m0, m2, S)
  {
    GrowTrans(B, m0, m1, m2);
  }

  lemma BurstRefl(B: Bodies, m: Marks, S: set<Id>)
    requires m.color.Keys == B.Keys
    ensures Burst(B, m, m, S)
  {
    GrowRefl(B, m);
  }

  /** The cases of `mark` that finish the object themselves. */
  lemma FinishBurst(B: Bodies, m: Marks, x: Id, c: Color, S: set<Id>)
    requires Ready(B, m, S) && x in S && m.color[x].White?
    requires (c.Black? && !Listable(B[x]) && !B[x].OpenUp?) || (c.Gray? && B[x].OpenUp?)
    requires PtrsIn(B, B[x], Marked(m.color))
    ensures m.debt >= 1
    ensures var m' := Marks(m.color[x := c], m.gray, m.debt - 1); Burst(B, m, m', S) && Ready(B, m', S)
  {
    WhitesRecolored(m.color, x, c);
    PtrsMono(B, B[x], Marked(m.color), Marked(m.color[x := c]));
    GrowFinish(B, m, x, c);
  }

  lemma PushBurst(B: Bodies, m: Marks, x: Id, S: set<Id>)
    requires Ready(B, m, S) && x in S && m.color[x].White? && Listable(B[x])
    ensures var m' := Marks(m.color[x := Gray], [x] + m.gray, m.debt); Burst(B, m, m', S) && Ready(B, m', S)
  {
    WhitesRecolored(m.color, x, Gray);
    GrowPush(B, m, x);
  }

  lemma AroundReady(B: Bodies, m: Marks, x: Id, c: Color, S: set<Id>)
    requires Ready(B, m, S) && x in S && m.color[x].White? && !c.White?
    ensures m.debt >= 1
    ensures Ready(B, Marks(m.color[x := c], m.gray, m.debt - 1), S)
  {
    WhitesRecolored(m.color, x, c);
  }

  lemma AroundBurst(B: Bodies, m0: Marks, x: Id, c: Color, m: Marks, S: set<Id>)
    requires Ready(B, m0, S) && x in S && m0.color[x].White?
    requires (c.Black? && B[x].ClosedUp?) || (c.Gray? && B[x].OpenUp?)
    requires Burst(B, Marks(m0.color[x := c], m0.gray, m0.debt - 1), m, S)
    requires VIn(UpValue(B, B[x]), Marked(m.color))
    ensures Burst(B, m0, m, S)
  {
    GrowAround(B, m0, x, c, m);
  }

  lemma ReadyHas(B: Bodies, m: Marks, S: set<Id>)
    requires Ready(B, m, S)
    ensures S <= B.Keys == m.color.Keys
  {
  }

  /** An upvalue's value, as seen by `mark`. */
  lemma UpValueReady(B: Bodies, m: Marks, x: Id, S: set<Id>)
    requires Ready(B, m, S) && x in S && IsUpVal(B[x])
    ensures var v := UpValue(B, B[x]); v.Obj? ==>
      v.id in S && v.id in B && v.id in m.color && !B[v.id].SweepMark? && !IsUpVal(B[v.id])
  {
    assert TypedBody(B, x);
    if B[x].OpenUp? {
      assert TypedBody(B, B[x].th);
    }
  }

  lemma UserDataReady(B: Bodies, m: Marks, x: Id, S: set<Id>)
    requires Ready(B, m, S) && x in S && B[x].UserData?
    ensures B[x].props.Some? ==> B[x].props.value in S && B[x].props.value in B && B[B[x].props.value].Table?
    ensures B[x].meta.Some? ==> B[x].meta.value in S && B[x].meta.value in B && B[B[x].meta.value].Table?
  {
    assert TypedBody(B, x);
  }

  lemma BurstKeeps(B: Bodies, m0: Marks, m: Marks, S: set<Id>)
    requires Burst(B, m0, m, S)
    ensures m0.color.Keys == m.color.Keys == B.Keys
    ensures Marked(m0.color) <= Marked(m.color) <= Marked(m0.color) + S
    ensures forall x | x in Marked(m0.color) :: m.color[x] == m0.color[x]
  {
  }
}
