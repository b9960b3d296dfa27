module Collector {
  import opened Basics
  import opened GcHeap
  import opened GcGrow
  import opened GcPhase
  import opened GcWorld
  import opened GcMutator
  import opened GcCycle
  import opened GcSafety

  class Gc {
    var state: int
    var currentWhite: bool
    var body: Bodies
    var color: Colors
    var gray: seq<Id>
    var grayAgain: seq<Id>
    var weak: seq<Id>
    var ephemeron: seq<Id>
    var allWeak: seq<Id>
    var twups: seq<Id>
    var refs: seq<Id>
    var markedRefs: seq<Id>
    var root: Id
    var all: seq<Id>
    /** How many objects at the tail of `all` the sweep has yet to visit; None is the null pointer. */
    var sweep: Option<nat>
    var sweepMark: Option<Id>
    var survivors: nat
    var debt: nat
    ghost var remarked: bool
    ghost var known: set<Id>
    ghost var doomed: set<Id>
    ghost var lost: set<Id>
    ghost var stray: set<Id>

    ghost function Now(): Marks
      reads this`color, this`gray, this`debt
    {
      Marks(color, gray, debt)
    }

    ghost function Snap(): View
      reads this
    {
      View(state, currentWhite, body, Now(), grayAgain, weak, ephemeron, allWeak, twups, remarked)
    }

    /** `mark`: paints a white object, or queues it when its kind is traversed later. */
    method Mark(o: Id, ghost S: set<Id>)
      requires Ready(body, Now(), S)
      requires o in S && color[o].White? && !body[o].SweepMark?
      modifies this`color, this`gray, this`debt
      ensures Burst(body, old(Now()), Now(), S) && Ready(body, Now(), S)
      ensures o in Marked(color)
      ensures Rank(body[o]) == 0 ==> forall x | x in color && x != o :: color[x] == old(color)[x]
      decreases Rank(body[o]), 1
    {
      hide Burst, Ready;
      ReadyHas(body, Now(), S);
      if body[o].Str? || body[o].RustId? {
        FinishBurst(body, Now(), o, Black, S);
        color := color[o := Black];
        debt := debt - 1;
      } else if body[o].ClosedUp? {
        MarkUpVal(o, Black, S);
      } else if body[o].OpenUp? {
        MarkUpVal(o, Gray, S);
      } else if body[o].UserData? {
        MarkUserData(o, S);
      } else {
        PushBurst(body, Now(), o, S);
        gray := [o] + gray;
        color := color[o := Gray];
      }
    }

    /** Closed upvalues are visited here; open ones are kept gray. Both mark the value they give
        access to. */
    method MarkUpVal(o: Id, c: Color, ghost S: set<Id>)
      requires Ready(body, Now(), S)
      requires o in S && color[o].White? && IsUpVal(body[o])
      requires c == if body[o].ClosedUp? then Black else Gray
      modifies this`color, this`gray, this`debt
      ensures Burst(body, old(Now()), Now(), S) && Ready(body, Now(), S)
      ensures o in Marked(color)
      decreases Rank(body[o]), 0
    {
      hide Burst, Ready;
      ReadyHas(body, Now(), S);
      var v := UpValue(body, body[o]);
      UpValueReady(body, Now(), o, S);
      AroundReady(body, Now(), o, c, S);
      color := color[o := c];
      debt := debt - 1;
      ghost var m1 := Now();
      BurstRefl(body, m1, S);
      if v.Obj? && color[v.id].White? {
        Mark(v.id, S);
      }
      BurstKeeps(body, m1, Now(), S);
      AroundBurst(body, old(Now()), o, c, Now(), S);
    }

    method MarkUserData(o: Id, ghost S: set<Id>)
      requires Ready(body, Now(), S)
      requires o in S && color[o].White? && body[o].UserData?
      modifies this`color, this`gray, this`debt
      ensures Burst(body, old(Now()), Now(), S) && Ready(body, Now(), S)
      ensures o in Marked(color)
      decreases Rank(body[o]), 0
    {
      hide Burst, Ready;
      ReadyHas(body, Now(), S);
      var props, meta := body[o].props, body[o].meta;
      UserDataReady(body, Now(), o, S);
      MarkTableRef(props, o, S);
      ghost var m1 := Now();
      MarkTableRef(meta, o, S);
      BurstKeeps(body, m1, Now(), S);
      BurstTrans(body, old(Now()), m1, Now(), S);
      ghost var m2 := Now();
      FinishBurst(body, m2, o, Black, S);
      color := color[o := Black];
      debt := debt - 1;
      BurstTrans(body, old(Now()), m2, Now(), S);
    }

    /** Marks the table a userdata may refer to; nothing but that table changes colour. */
    method MarkTableRef(t: Option<Id>, ghost o: Id, ghost S: set<Id>)
      requires Ready(body, Now(), S)
      requires t.Some? ==> t.value in S && body[t.value].Table?
      requires o in body && !body[o].Table?
      modifies this`color, this`gray, this`debt
      ensures Burst(body, old(Now()), Now(), S) && Ready(body, Now(), S)
      ensures OIn(t, Marked(color))
      ensures color[o] == old(color)[o]
      decreases 0, 2
    {
      BurstRefl(body, Now(), S);
      if t.Some? && color[t.value].White? {
        hide Burst;
        Mark(t.value, S);
      }
    }
  
    // -------------------------------------------------------------------- slots

    /** Marks what a slot refers to if that is still white, and says whether it was. */
    method MarkIn(v: Value, ghost k: Scope, ghost ex: set<Id>) returns (marked: bool)
      requires Within(Snap(), k, ex) && VIn(v, k.bound)
      modifies this`color, this`gray, this`debt
      ensures Within(Snap(), k, ex) && After(k, old(Now()), Now())
      ensures VIn(v, Marked(color))
      ensures marked == (v.Obj? && old(v.id in color && color[v.id].White?))
      ensures if marked then Whites(color) < Whites(old(color)) else Now() == old(Now())
      ensures v.Obj? && v.id in body && Rank(body[v.id]) == 0 ==>
        forall x | x in color && x != v.id :: color[x] == old(color)[x]
    {
      hide Phase, Burst, Ready;
      WithinKeys(Snap(), k, ex);
      marked := v.Obj? && color[v.id].White?;
      if marked {
        ghost var v0 := Snap();
        Mark(v.id, k.bound);
        BurstAfter(v0, k, ex, Now());
        assert v.id in Whites(old(color)) && v.id !in Whites(color);
      }
    }

    method MarkOption(t: Option<Id>, ghost k: Scope, ghost ex: set<Id>)
      requires Within(Snap(), k, ex) && OIn(t, k.bound)
      modifies this`color, this`gray, this`debt
      ensures Within(Snap(), k, ex) && After(k, old(Now()), Now())
      ensures OIn(t, Marked(color))
    {
      if t.Some? {
        var _ := MarkIn(Obj(t.value), k, ex);
      }
    }

    /** The loop over a row of slots, in closures, prototypes, stacks and array parts. */
    method MarkSlots(vs: seq<Value>, ghost k: Scope, ghost ex: set<Id>) returns (marked: bool)
      requires Within(Snap(), k, ex) && AllIn(vs, k.bound)
      modifies this`color, this`gray, this`debt
      ensures Within(Snap(), k, ex) && After(k, old(Now()), Now())
      ensures AllIn(vs, Marked(color))
      ensures if marked then Whites(color) < Whites(old(color)) else Now() == old(Now())
    {
      hide Within;
      marked := false;
      for i := 0 to |vs|
        invariant Within(Snap(), k, ex) && After(k, old(Now()), Now())
        invariant forall j | 0 <= j < i :: VIn(vs[j], Marked(color))
        invariant if marked then Whites(color) < Whites(old(color)) else Now() == old(Now())
      {
        var now := MarkIn(vs[i], k, ex);
        marked := marked || now;
      }
    }
  
    // -------------------------------------------------------------------- tables

    /** Removes the value and a pointer key of a node. */
    method EmptyNode(h: Id, i: nat, ghost gone: set<Id>, ghost k: Scope, ghost ex: set<Id>)
      requires Within(Snap(), k, ex)
      requires h in body && body[h].Table? && i < |body[h].nodes|
      requires body[h].nodes[i].val.Nil? || RefersTo(body[h].nodes[i], gone)
      modifies this`body
      ensures Within(Snap(), k, ex)
      ensures body == WithNode(old(body), h, i, Emptied(old(body)[h].nodes[i]))
    {
      hide Phase;
      ghost var v0 := Snap();
      body := WithNode(body, h, i, Emptied(body[h].nodes[i]));
      WithNodeWeaker(v0.body, h, i, Emptied(v0.body[h].nodes[i]), gone);
      WeakerWithin(v0, body, gone, k, ex);
    }

    /** One turn of the node loop of `mark_strong_table`. */
    method MarkStrongNode(h: Id, i: nat, ghost B0: Bodies, ghost k: Scope)
      requires Within(Snap(), k, {h}) && NodesDone(B0, body, h, {})
      requires h in body && body[h].Table? && i < |body[h].nodes| && FullNodeIn(body[h].nodes[i], k.bound)
      modifies this`color, this`gray, this`debt, this`body
      ensures Within(Snap(), k, {h}) && After(k, old(Now()), Now()) && NodesDone(B0, body, h, {})
      ensures h in body && body[h].Table? && |body[h].nodes| == |old(body)[h].nodes|
      ensures forall j | 0 <= j < |body[h].nodes| && j != i :: body[h].nodes[j] == old(body)[h].nodes[j]
      ensures NodePtrsIn(body[h].nodes[i], Marked(color))
    {
      hide Within, NodesDone, After;
      AfterRefl(k, Now());
      var e := body[h].nodes[i];
      if e.val.Nil? {
        NodesDoneStep(B0, body, h, {}, i, Emptied(e));
        EmptyNode(h, i, {}, k, {h});
      } else {
        var _ := MarkIn(e.key, k, {h});
        ghost var m1 := Now();
        var _ := MarkIn(e.val, k, {h});
        AfterTrans(k, old(Now()), m1, Now());
        AfterIs(k, m1, Now());
      }
    }

    /** The node loop of `mark_strong_table`. */
    method MarkStrongNodes(h: Id, ghost k: Scope)
      requires Within(Snap(), k, {h})
      requires h in body && body[h].Table?
      requires forall i | 0 <= i < |body[h].nodes| :: FullNodeIn(body[h].nodes[i], k.bound)
      modifies this`color, this`gray, this`debt, this`body
      ensures Within(Snap(), k, {h}) && After(k, old(Now()), Now())
      ensures NodesDone(old(body), body, h, {})
      ensures h in body && body[h].Table?
      ensures forall i | 0 <= i < |body[h].nodes| :: NodePtrsIn(body[h].nodes[i], Marked(color))
    {
      hide Within, NodesDone, After, FullNodeIn;
      NodesDoneRefl(body, h, {});
      AfterRefl(k, Now());
      ghost var B0 := body;
      var n := |body[h].nodes|;
      for i := 0 to n
        invariant Within(Snap(), k, {h}) && After(k, old(Now()), Now())
        invariant NodesDone(B0, body, h, {})
        invariant h in body && body[h].Table? && |body[h].nodes| == n
        invariant forall j | 0 <= j < i :: NodePtrsIn(body[h].nodes[j], Marked(color))
        invariant forall j | i <= j < n :: FullNodeIn(body[h].nodes[j], k.bound)
      {
        ghost var m1 := Now();
        MarkStrongNode(h, i, B0, k);
        AfterTrans(k, old(Now()), m1, Now());
        AfterIs(k, m1, Now());
      }
    }
  
    /** `linkgclist_` on the object under traversal. */
    method LinkGcList(l: Gclist, o: Id, ghost k: Scope)
      requires Within(Snap(), k, {o}) && LinkOk(Snap(), l, o)
      modifies this`color, this`grayAgain, this`weak, this`ephemeron, this`allWeak
      ensures Within(Snap(), k, {}) && Snap() == Link(old(Snap()), l, o)
      ensures Marked(color) == Marked(old(color)) && o in color && color[o].Gray? && old(o in color && color[o].Black?)
      ensures After(k, old(Now()), Now())
      ensures state <= 1 ==> debt >= Unpaid(Now()) + 1
    {
      hide Phase, LinkOk, Single, Marked, Whites, Unpaid;
      WithinKeys(Snap(), k, {o});
      LinkWithin(Snap(), k, l, o);
      RegrayedMarks(Now(), o);
      match l {
        case GrayAgain => grayAgain := [o] + grayAgain;
        case Weak => weak := [o] + weak;
        case Ephemeron => ephemeron := [o] + ephemeron;
        case AllWeak => allWeak := [o] + allWeak;
      }
      color := color[o := Gray];
    }

    lemma LinkWithin(v: View, k: Scope, l: Gclist, o: Id)
      requires Within(v, k, {o}) && LinkOk(v, l, o) && o in v.body && o in v.m.color && v.m.color[o].Black?
      ensures Within(Link(v, l, o), k, {}) && After(k, v.m, Link(v, l, o).m)
      ensures v.state <= 1 ==> v.m.debt >= Unpaid(v.m) + 1
      ensures Unpaid(Link(v, l, o).m) == Unpaid(v.m)
    {
      hide LinkOk, Bounded, Tri, Lists, Threads, Single, OneWhite;
      LinkPhase(v, k.bound, k.exempt, k.rest, l, o);
      RegrayedMarks(v.m, o);
    }

    /** `mark_strong_table`. */
    method MarkStrongTable(h: Id, ghost k: Scope)
      requires Within(Snap(), k, {h}) && h !in k.exempt && h in body && body[h].Table?
      requires ModeOf(body, body[h]) == Mode(false, false) && OIn(body[h].mt, Marked(color))
      modifies this`color, this`gray, this`debt, this`body
      ensures Within(Snap(), k, {}) && After(k, old(Now()), Now()) && Weaker(old(body), body, {})
      ensures state <= 1 ==> debt >= Unpaid(Now()) + 1
      ensures Filed(h, Mode(false, false), old(Snap()), Snap())
    {
      hide Within, NodesDone, FullNodeIn, Weaker, After;
      StrongTable(Snap(), k, h);
      ghost var m0, B0 := Now(), body;
      var _ := MarkSlots(body[h].arr, k, {h});
      ghost var m1 := Now();
      MarkStrongNodes(h, k);
      AfterTrans(k, m0, m1, Now());
      AfterIs(k, m0, Now());
      AfterIs(k, m1, Now());
      NodesDoneIs(B0, body, h, {});
      Settle(h, k);
    }

    /** The traversed object stays black. */
    ghost method Settle(o: Id, k: Scope)
      requires Within(Snap(), k, {o}) && o in body && PtrsIn(body, body[o], Marked(color))
      requires body[o].Thread? ==> state == 2 && (body[o].open != [] ==> o in twups)
      ensures Within(Snap(), k, {}) && Settled(o, Snap())
      ensures state <= 1 ==> debt >= Unpaid(Now()) + 1
    {
      hide Phase;
      WithinKeys(Snap(), k, {o});
      SettlePhase(Snap(), k.bound, k.exempt, k.rest, o);
    }

    /** `is_cleared`: strings are values, so they are never cleared but marked. */
    method IsCleared(v: Value, ghost k: Scope, ghost ex: set<Id>) returns (cleared: bool)
      requires Within(Snap(), k, ex) && Exists(Snap(), k, v)
      modifies this`color, this`gray, this`debt
      ensures Within(Snap(), k, ex) && After(k, old(Now()), Now())
      ensures cleared == (v.Obj? && v.id in Whites(color) && !body[v.id].Str?)
      ensures !cleared ==> VIn(v, Marked(color))
      ensures (v.Obj? && body[v.id].Str? ==> v.id in Marked(old(color))) ==> Now() == old(Now())
      ensures Marked(color) <= Marked(old(color)) + k.shape.strings
    {
      hide Phase;
      AfterRefl(k, Now());
      if !v.Obj? {
        cleared := false;
      } else if body[v.id].Str? {
        ghost var v0 := Snap();
        var _ := MarkIn(v, k, ex);
        cleared := false;
      } else {
        cleared := color[v.id].White?;
      }
    }
  
    /** One turn of the node loop of `mark_weak_value`. */
    method MarkWeakNode(h: Id, i: nat, clears: bool, ghost B0: Bodies, ghost k: Scope) returns (clears': bool)
      requires Within(Snap(), k, {h}) && NodesDone(B0, body, h, {})
      requires h in body && body[h].Table? && i < |body[h].nodes| && KeyIn(body[h].nodes[i], k.bound)
      modifies this`color, this`gray, this`debt, this`body
      ensures Within(Snap(), k, {h}) && After(k, old(Now()), Now()) && NodesDone(B0, body, h, {})
      ensures h in body && body[h].Table? && |body[h].nodes| == |old(body)[h].nodes|
      ensures forall j | 0 <= j < |body[h].nodes| && j != i :: body[h].nodes[j] == old(body)[h].nodes[j]
      ensures clears ==> clears'
      ensures WeakNodeDone(body[h].nodes[i], Marked(color), clears')
    {
      hide Within, NodesDone, After;
      AfterRefl(k, Now());
      clears' := clears;
      var e := body[h].nodes[i];
      if e.val.Nil? {
        NodesDoneStep(B0, body, h, {}, i, Emptied(e));
        EmptyNode(h, i, {}, k, {h});
      } else {
        var _ := MarkIn(e.key, k, {h});
        ghost var m1 := Now();
        if !clears {
          NodeExists(Snap(), k, {h}, h, i);
          clears' := IsCleared(e.val, k, {h});
          AfterTrans(k, old(Now()), m1, Now());
          AfterIs(k, m1, Now());
        }
      }
    }

    method MarkWeakNodes(h: Id, clears0: bool, ghost k: Scope) returns (clears: bool)
      requires Within(Snap(), k, {h})
      requires h in body && body[h].Table?
      requires forall i | 0 <= i < |body[h].nodes| :: KeyIn(body[h].nodes[i], k.bound)
      modifies this`color, this`gray, this`debt, this`body
      ensures Within(Snap(), k, {h}) && After(k, old(Now()), Now())
      ensures NodesDone(old(body), body, h, {})
      ensures h in body && body[h].Table?
      ensures clears0 ==> clears
      ensures forall i | 0 <= i < |body[h].nodes| :: WeakNodeDone(body[h].nodes[i], Marked(color), clears)
    {
      hide Within, NodesDone, After, KeyIn;
      NodesDoneRefl(body, h, {});
      AfterRefl(k, Now());
      ghost var B0 := body;
      var n := |body[h].nodes|;
      clears := clears0;
      for i := 0 to n
        invariant Within(Snap(), k, {h}) && After(k, old(Now()), Now())
        invariant NodesDone(B0, body, h, {})
        invariant h in body && body[h].Table? && |body[h].nodes| == n
        invariant clears0 ==> clears
        invariant forall j | 0 <= j < i :: WeakNodeDone(body[h].nodes[j], Marked(color), clears)
        invariant forall j | i <= j < n :: KeyIn(body[h].nodes[j], k.bound)
      {
        ghost var m1 := Now();
        clears := MarkWeakNode(h, i, clears, B0, k);
        AfterTrans(k, old(Now()), m1, Now());
        AfterIs(k, m1, Now());
      }
    }

    /** `mark_weak_value`: the values are left for `clear_by_values`. */
    method MarkWeakValue(h: Id, ghost k: Scope)
      requires Within(Snap(), k, {h}) && h !in k.exempt && h in body && body[h].Table?
      requires ModeOf(body, body[h]) == Mode(false, true) && OIn(body[h].mt, Marked(color))
      modifies this`color, this`gray, this`debt, this`body, this`grayAgain, this`weak, this`ephemeron, this`allWeak
      ensures Within(Snap(), k, {}) && After(k, old(Now()), Now()) && Weaker(old(body), body, {})
      ensures state <= 1 ==> debt >= Unpaid(Now()) + 1
      ensures Filed(h, Mode(false, true), old(Snap()), Snap())
    {
      hide Within, NodesDone, KeyIn, Weaker, After, Filed, PtrsIn, LinkOk, Scrubbed;
      WeakTable(Snap(), k, h);
      ghost var m0, B0 := Now(), body;
      var clears := MarkWeakNodes(h, |body[h].arr| > 0, k);
      AfterIs(k, m0, Now());
      NodesDoneIs(B0, body, h, {});
      ghost var m1, v := Now(), Snap();
      InState(k, {h});
      WeakLinkOk(v, h, clears);
      if state == 2 && clears {
        LinkGcList(Weak, h, k);
      } else {
        LinkGcList(GrayAgain, h, k);
      }
      WeakFiled(h, old(Snap()), v, if state == 2 && clears then Weak else GrayAgain);
      AfterTrans(k, m0, m1, Now());
    }

    ghost method InState(k: Scope, ex: set<Id>)
      requires Within(Snap(), k, ex)
      ensures 0 <= state <= 2
      ensures forall x | x in ex :: x in body && Listable(body[x])
    {
    }
  
    /** One turn of the node loop of `mark_ephemeron`. */
    method MarkEphemeronNode(h: Id, i: nat, ghost B0: Bodies, ghost k: Scope)
      returns (marked: bool, clears: bool, ww: bool)
      requires Within(Snap(), k, {h}) && NodesDone(B0, body, h, {})
      requires h in body && body[h].Table? && i < |body[h].nodes| && EphNodeIn(body[h].nodes[i], k.bound)
      modifies this`color, this`gray, this`debt, this`body
      ensures Within(Snap(), k, {h}) && After(k, old(Now()), Now()) && NodesDone(B0, body, h, {})
      ensures h in body && body[h].Table? && |body[h].nodes| == |old(body)[h].nodes|
      ensures forall j | 0 <= j < |body[h].nodes| && j != i :: body[h].nodes[j] == old(body)[h].nodes[j]
      ensures EphNodeDone(body[h].nodes[i], Marked(color), k.shape.strings, clears, ww)
      ensures NodeConv(body[h].nodes[i], Marked(color), k.shape.strings)
      ensures marked ==> Whites(color) < Whites(old(color))
      ensures !marked && StringKey(old(body)[h].nodes[i], Marked(old(color)), k.shape.strings) ==> Now() == old(Now())
    {
      hide Within, NodesDone, After;
      AfterRefl(k, Now());
      marked, clears, ww := false, false, false;
      var e := body[h].nodes[i];
      if e.val.Nil? {
        NodesDoneStep(B0, body, h, {}, i, Emptied(e));
        EmptyNode(h, i, {}, k, {h});
      } else {
        NodeExists(Snap(), k, {h}, h, i);
        StringsAre(k, {h});
        clears := IsCleared(e.key, k, {h});
        ghost var m1 := Now();
        AfterIs(k, old(Now()), m1);
        if clears {
          ww := e.val.Obj? && color[e.val.id].White?;
        } else {
          MarkedBound(k, {h});
          marked := MarkIn(e.val, k, {h});
          AfterTrans(k, old(Now()), m1, Now());
          AfterIs(k, m1, Now());
          AfterWhites(k, old(Now()), m1);
        }
      }
    }

    ghost method AfterWhites(k: Scope, m0: Marks, m: Marks)
      requires After(k, m0, m)
      ensures Whites(m.color) <= Whites(m0.color)
    {
    }

    ghost method StringsAre(k: Scope, ex: set<Id>)
      requires Within(Snap(), k, ex)
      ensures k.shape.strings == Strings(body) && body.Keys == color.Keys
    {
    }

    ghost method MarkedBound(k: Scope, ex: set<Id>)
      requires Within(Snap(), k, ex)
      ensures Marked(color) <= k.bound
    {
    }
  
    /** The node loop of `mark_ephemeron`; `inv` reverses its direction. */
    method MarkEphemeronNodes(h: Id, inv: bool, ghost k: Scope) returns (marked: bool, clears: bool, ww: bool)
      requires Within(Snap(), k, {h})
      requires h in body && body[h].Table?
      requires forall i | 0 <= i < |body[h].nodes| :: EphNodeIn(body[h].nodes[i], k.bound)
      modifies this`color, this`gray, this`debt, this`body
      ensures Within(Snap(), k, {h}) && After(k, old(Now()), Now())
      ensures NodesDone(old(body), body, h, {})
      ensures h in body && body[h].Table?
      ensures EphSeen(body[h].nodes, |body[h].nodes|, inv, Marked(color), k.shape.strings, clears, ww)
      ensures marked ==> Whites(color) < Whites(old(color))
      ensures !marked && StringKeys(old(body)[h].nodes, Marked(old(color)), k.shape.strings) ==>
        && Now() == old(Now())
        && ConvSeen(body[h].nodes, |body[h].nodes|, inv, Marked(color), k.shape.strings)
    {
      hide Within, NodesDone, After, EphNodeIn, EphNodeDone, NodeConv, EphSeen, ConvSeen, Marked, Whites;
      NodesDoneRefl(body, h, {});
      AfterRefl(k, Now());
      ghost var B0, strs := body, StringKeys(body[h].nodes, Marked(color), k.shape.strings);
      var n := |body[h].nodes|;
      marked, clears, ww := false, false, false;
      SeenNone(body[h].nodes, inv, Marked(color), k.shape.strings);
      for i := 0 to n
        invariant Within(Snap(), k, {h}) && After(k, old(Now()), Now())
        invariant NodesDone(B0, body, h, {})
        invariant h in body && body[h].Table? && |body[h].nodes| == n
        invariant EphSeen(body[h].nodes, i, inv, Marked(color), k.shape.strings, clears, ww)
        invariant forall j | 0 <= j < n && !Seen(j, i, n, inv) ::
          EphNodeIn(body[h].nodes[j], k.bound) && body[h].nodes[j] == B0[h].nodes[j]
        invariant marked ==> Whites(color) < Whites(old(color))
        invariant !marked && strs ==>
          Now() == old(Now()) && ConvSeen(body[h].nodes, i, inv, Marked(color), k.shape.strings)
      {
        ghost var m1, ns := Now(), body[h].nodes;
        var at := if inv then n - 1 - i else i;
        var m', c', w' := MarkEphemeronNode(h, at, B0, k);
        AfterTrans(k, old(Now()), m1, Now());
        AfterIs(k, m1, Now());
        AfterWhites(k, old(Now()), m1);
        AfterWhites(k, m1, Now());
        EphSeenStep(ns, body[h].nodes, i, at, inv, Marked(m1.color), Marked(color), k.shape.strings, clears, ww, c', w');
        if !marked && strs && !m' {
          ConvSeenStep(ns, body[h].nodes, i, at, inv, Marked(color), k.shape.strings);
        }
        marked, clears, ww := marked || m', clears || c', ww || w';
      }
    }

    lemma SeenNone(nodes: seq<Entry>, inv: bool, M: set<Id>, T: set<Id>)
      ensures EphSeen(nodes, 0, inv, M, T, false, false) && ConvSeen(nodes, 0, inv, M, T)
    {
    }

    /** The traversal in `mark_ephemeron`: afterwards the flags say which list the table fits. */
    method VisitEphemeron(h: Id, inv: bool, ghost k: Scope) returns (marked: bool, clears: bool, ww: bool)
      requires Within(Snap(), k, {h}) && h !in k.exempt && h in body && body[h].Table?
      requires ModeOf(body, body[h]) == Mode(true, false) && OIn(body[h].mt, Marked(color))
      modifies this`color, this`gray, this`debt, this`body
      ensures Within(Snap(), k, {h}) && After(k, old(Now()), Now()) && Weaker(old(body), body, {})
      ensures marked ==> Whites(color) < Whites(old(color))
      ensures h in body && body[h].Table?
      ensures EphOk(body, color, h)
      ensures !ww ==> AllWeakOk(body, color, h)
      ensures !ww && !clears ==> PtrsIn(body, body[h], Marked(color))
      ensures !marked && StringKeys(old(body)[h].nodes, Marked(old(color)), k.shape.strings) ==>
        Now() == old(Now()) && EphConv(body, color, h)
    {
      hide Within, NodesDone, EphNodeIn, Weaker, After, EphSeen, ConvSeen, StringKeys, Scrubbed;
      WeakTable(Snap(), k, h);
      ghost var m0, B0 := Now(), body;
      var inArray := MarkSlots(body[h].arr, k, {h});
      ghost var m1 := Now();
      AfterIs(k, m0, m1);
      marked, clears, ww := MarkEphemeronNodes(h, inv, k);
      AfterTrans(k, m0, m1, Now());
      AfterIs(k, m1, Now());
      AfterWhites(k, m0, m1);
      AfterWhites(k, m1, Now());
      NodesDoneIs(B0, body, h, {});
      StringsAre(k, {h});
      EphSeenAll(body[h].nodes, inv, Marked(color), k.shape.strings, clears, ww);
      marked := inArray || marked;
    }

    /** `mark_ephemeron`. The result says whether anything was marked through this table. If nothing
        was, and the string keys had been marked before, the table has converged. */
    method MarkEphemeron(h: Id, inv: bool, ghost k: Scope) returns (marked: bool)
      requires state == 0 || state == 2
      requires Within(Snap(), k, {h}) && h !in k.exempt && h in body && body[h].Table?
      requires ModeOf(body, body[h]) == Mode(true, false) && OIn(body[h].mt, Marked(color))
      modifies this`color, this`gray, this`debt, this`body, this`grayAgain, this`weak, this`ephemeron, this`allWeak
      ensures Within(Snap(), k, {}) && After(k, old(Now()), Now()) && Weaker(old(body), body, {})
      ensures state <= 1 ==> debt >= Unpaid(Now()) + 1
      ensures marked ==> Whites(color) < Whites(old(color))
      ensures state == 2 ==> Sorted(h, old(Snap()), Snap())
      ensures !marked && StringKeys(old(body)[h].nodes, Marked(old(color)), k.shape.strings) ==>
        && Marked(color) == Marked(old(color)) && gray == old(gray)
        && EphConv(body, color, h)
      ensures Filed(h, Mode(true, false), old(Snap()), Snap())
    {
      hide Within, Weaker, After, StringKeys, EphOk, AllWeakOk, PtrsIn, NodeConv, Filed, Sorted, Settled;
      ghost var m0 := Now();
      var clears, ww;
      marked, clears, ww := VisitEphemeron(h, inv, k);
      ghost var m2, v := Now(), Snap();
      AfterRefl(k, m2);
      InState(k, {h});
      if state == 0 {
        LinkGcList(GrayAgain, h, k);
      } else if ww {
        LinkGcList(Ephemeron, h, k);
      } else if clears {
        LinkGcList(AllWeak, h, k);
      } else {
        Settle(h, k);
      }
      if state == 0 || ww || clears {
        EphemeronFiled(h, old(Snap()), v, if state == 0 then GrayAgain else if ww then Ephemeron else AllWeak);
      } else {
        EphemeronSettled(h, old(Snap()), Snap());
      }
      AfterTrans(k, m0, m2, Now());
      AfterWhites(k, m2, Now());
    }

    /** In the atomic phase an ephemeron table ends up on one of two lists, or black. */
    ghost predicate Sorted(h: Id, v: View, v': View) {
      && SameLists(v, v'.(eph := v.eph, allWeak := v.allWeak))
      && (|| (v'.eph == [h] + v.eph && v'.allWeak == v.allWeak && Painted(h, v'))
          || (v'.eph == v.eph && v'.allWeak == [h] + v.allWeak && Painted(h, v'))
          || (v'.eph == v.eph && v'.allWeak == v.allWeak && Settled(h, v')))
    }

    ghost predicate SameLists(v: View, v': View) {
      v'.again == v.again && v'.weak == v.weak && v'.eph == v.eph && v'.allWeak == v.allWeak
    }

    ghost predicate Painted(o: Id, v: View) {
      o in v.m.color && v.m.color[o].Gray?
    }

    /** o is black, with everything it points at marked. */
    ghost predicate Settled(o: Id, v: View) {
      o in v.m.color && v.m.color[o].Black? && o in v.body && PtrsIn(v.body, v.body[o], Marked(v.m.color))
    }

    /** What becomes of a table that is traversed with the given mode. */
    ghost predicate Filed(h: Id, mode: Mode, v: View, v': View) {
      match mode
      case Mode(false, false) => SameLists(v, v') && Settled(h, v')
      case Mode(true, true) => SameLists(v, v'.(allWeak := v.allWeak)) && v'.allWeak == [h] + v.allWeak && Painted(h, v')
      case Mode(false, true) =>
        && Painted(h, v')
        && if v'.weak == v.weak
           then SameLists(v, v'.(again := v.again)) && v'.again == [h] + v.again
             && (v.state == 2 ==> h in v'.body && PtrsIn(v'.body, v'.body[h], Marked(v'.m.color)))
           else SameLists(v, v'.(weak := v.weak)) && v'.weak == [h] + v.weak && v.state == 2
      case Mode(true, false) =>
        if v.state == 2 then Sorted(h, v, v')
        else SameLists(v, v'.(again := v.again)) && v'.again == [h] + v.again && Painted(h, v')
    }

    lemma WeakLinkOk(v: View, h: Id, clears: bool)
      requires v.state <= 2 && h in v.body && v.body[h].Table? && ModeOf(v.body, v.body[h]) == Mode(false, true)
      requires OIn(v.body[h].mt, Marked(v.m.color)) && (|v.body[h].arr| > 0 ==> clears)
      requires forall i | 0 <= i < |v.body[h].nodes| :: WeakNodeDone(v.body[h].nodes[i], Marked(v.m.color), clears)
      ensures v.state == 2 && clears ==> LinkOk(v, Weak, h)
      ensures !clears ==> PtrsIn(v.body, v.body[h], Marked(v.m.color))
      ensures (v.state == 2 && clears) || LinkOk(v, GrayAgain, h)
    {
      var b, M := v.body[h], Marked(v.m.color);
      assert forall i | 0 <= i < |b.nodes| :: VIn(b.nodes[i].key, M) && (!clears ==> NodePtrsIn(b.nodes[i], M));
    }

    lemma WeakFiled(h: Id, v: View, v1: View, l: Gclist)
      requires SameLists(v, v1) && v1.state == v.state && h in v1.m.color && !v1.m.color[h].White?
      requires l == Weak || l == GrayAgain
      requires l == Weak ==> v.state == 2
      requires l == GrayAgain && v.state == 2 ==> h in v1.body && PtrsIn(v1.body, v1.body[h], Marked(v1.m.color))
      ensures Filed(h, Mode(false, true), v, Link(v1, l, h))
    {
      RegrayedMarks(v1.m, h);
    }

    lemma EphemeronFiled(h: Id, v: View, v1: View, l: Gclist)
      requires SameLists(v, v1) && v1.state == v.state && h in v1.m.color
      requires if v.state == 2 then l == Ephemeron || l == AllWeak else l == GrayAgain
      ensures Filed(h, Mode(true, false), v, Link(v1, l, h)) && (v.state == 2 ==> Sorted(h, v, Link(v1, l, h)))
    {
    }

    lemma EphemeronSettled(h: Id, v: View, v1: View)
      requires SameLists(v, v1) && v.state == 2 && Settled(h, v1)
      ensures Filed(h, Mode(true, false), v, v1) && Sorted(h, v, v1)
    {
    }

    lemma EphSeenAll(nodes: seq<Entry>, inv: bool, M: set<Id>, T: set<Id>, clears: bool, ww: bool)
      requires EphSeen(nodes, |nodes|, inv, M, T, clears, ww)
      ensures Scrubbed(nodes)
      ensures forall i | 0 <= i < |nodes| :: StringKey(nodes[i], M, T)
      ensures !ww ==> forall i | 0 <= i < |nodes| :: VIn(nodes[i].val, M)
      ensures !clears && !ww ==> forall i | 0 <= i < |nodes| :: NodePtrsIn(nodes[i], M)
      ensures ConvSeen(nodes, |nodes|, inv, M, T) ==> forall i | 0 <= i < |nodes| :: NodeConv(nodes[i], M, T)
    {
      assert forall i | 0 <= i < |nodes| :: Seen(i, |nodes|, |nodes|, inv);
      forall i | 0 <= i < |nodes| ensures EphNodeDone(nodes[i], M, T, clears, ww) {
      }
    }
  
    /** `mark_table`: the metatable is strong; its mode decides about the rest. */
    method MarkTable(h: Id, ghost k: Scope)
      requires state == 0 || state == 2
      requires Within(Snap(), k, {h}) && h !in k.exempt && h in body && body[h].Table?
      modifies this`color, this`gray, this`debt, this`body, this`grayAgain, this`weak, this`ephemeron, this`allWeak
      ensures Within(Snap(), k, {}) && After(k, old(Now()), Now()) && Weaker(old(body), body, {})
      ensures state <= 1 ==> debt >= Unpaid(Now()) + 1
      ensures old(h in body && body[h].Table?) && Filed(h, old(ModeOf(body, body[h])), old(Snap()), Snap())
    {
      hide Within, Weaker, After, ModeOf, AllWeakOk, KeptOk;
      ghost var m0 := Now();
      var mode := ModeOf(body, body[h]);
      WeakTable(Snap(), k, h);
      MarkOption(body[h].mt, k, {h});
      ghost var m1 := Now();
      WeakerSelf(body);
      match mode {
        case Mode(true, true) =>
          AllWeakHas(body, color, h);
          LinkGcList(AllWeak, h, k);
        case Mode(true, false) => var _ := MarkEphemeron(h, false, k);
        case Mode(false, true) => MarkWeakValue(h, k);
        case Mode(false, false) => MarkStrongTable(h, k);
      }
      AfterTrans(k, m0, m1, Now());
    }

    lemma WeakerSelf(B: Bodies)
      ensures Weaker(B, B, {})
    {
    }

    lemma AllWeakHas(B: Bodies, C: Colors, h: Id)
      requires h in B && B[h].Table? && ModeOf(B, B[h]) == Mode(true, true) && OIn(B[h].mt, Marked(C))
      ensures AllWeakOk(B, C, h) && KeptOk(B, C, h)
    {
    }

    // -------------------------------------------------------------------- threads and the rest

    /** `mark_thread`: left gray until the atomic phase, then its stack and open upvalues are marked
        and the thread returns to `twups`. */
    method MarkThread(th: Id, ghost k: Scope)
      requires state == 0 || state == 2
      requires Within(Snap(), k, {th}) && th !in k.exempt && th in body && body[th].Thread?
      modifies this`color, this`gray, this`debt, this`grayAgain, this`weak, this`ephemeron, this`allWeak, this`twups
      ensures Within(Snap(), k, {}) && After(k, old(Now()), Now())
      ensures state <= 1 ==> debt >= Unpaid(Now()) + 1
      ensures state == 0 ==> Snap() == Link(old(Snap()), GrayAgain, th)
      ensures state == 2 ==> Settled(th, Snap()) && (body[th].open != [] ==> th in twups)
    {
      hide Within, After, AllIn;
      if state == 0 {
        LinkGcList(GrayAgain, th, k);
      } else {
        ghost var m0 := Now();
        ThreadBound(Snap(), k, th);
        var _ := MarkSlots(body[th].stack, k, {th});
        ghost var m1 := Now();
        var _ := MarkSlots(Objs(body[th].open), k, {th});
        AfterTrans(k, m0, m1, Now());
        AfterIs(k, m1, Now());
        if th !in twups && body[th].open != [] {
          AddTwups(th, k);
        }
        assert PtrsIn(body, body[th], Marked(color)) by {
          ObjsIn(body[th].open, Marked(color));
          AllInMono(body[th].stack, Marked(m1.color), Marked(color));
        }
        Settle(th, k);
      }
    }

    function Objs(ids: seq<Id>): seq<Value> {
      seq(|ids|, i requires 0 <= i < |ids| => Obj(ids[i]))
    }

    lemma ObjsIn(ids: seq<Id>, S: set<Id>)
      ensures AllIn(Objs(ids), S) <==> forall i | 0 <= i < |ids| :: ids[i] in S
    {
      assert forall i | 0 <= i < |ids| :: Objs(ids)[i] == Obj(ids[i]);
    }

    lemma AllInMono(vs: seq<Value>, S: set<Id>, T: set<Id>)
      requires AllIn(vs, S) && S <= T
      ensures AllIn(vs, T)
    {
    }

    lemma ThreadBound(v: View, k: Scope, th: Id)
      requires Within(v, k, {th}) && th !in k.exempt && th in v.body && v.body[th].Thread?
      ensures AllIn(v.body[th].stack, k.bound) && AllIn(Objs(v.body[th].open), k.bound)
    {
      StrongBound(v, k, th);
      hide Within;
      ObjsIn(v.body[th].open, k.bound);
    }

    /** Puts a marked thread on the list of threads with open upvalues. */
    method AddTwups(th: Id, ghost k: Scope)
      requires Within(Snap(), k, {th}) && th in body && body[th].Thread?
      modifies this`twups
      ensures Within(Snap(), k, {th}) && twups == [th] + old(twups)
    {
      hide Phase;
      WithinKeys(Snap(), k, {th});
      TwupsPhase(Snap(), k.bound, k.exempt, k.rest, {th}, th);
      twups := [th] + twups;
    }

    /** The four kinds that are one row of slots. */
    method MarkFunc(o: Id, ghost k: Scope)
      requires Within(Snap(), k, {o}) && o !in k.exempt && o in body && body[o].Func?
      modifies this`color, this`gray, this`debt
      ensures Within(Snap(), k, {}) && After(k, old(Now()), Now())
      ensures state <= 1 ==> debt >= Unpaid(Now()) + 1
    {
      hide Within;
      StrongBound(Snap(), k, o);
      var _ := MarkSlots(body[o].slots, k, {o});
      Settle(o, k);
    }

    /** `mark_one_gray`. */
    method MarkOneGray(ghost k: Scope)
      requires state == 0 || state == 2
      requires Within(Snap(), k, {}) && gray != []
      modifies this`color, this`gray, this`debt, this`body, this`grayAgain, this`weak, this`ephemeron,
               this`allWeak, this`twups
      ensures Within(Snap(), k, {}) && Weaker(old(body), body, {})
      ensures Marked(old(color)) <= Marked(color)
      ensures Whites(color) <= Whites(old(color))
      ensures Unpaid(Now()) < Unpaid(old(Now()))
      ensures state <= 1 ==> debt >= Unpaid(Now()) + 1
    {
      hide Phase, Weaker;
      PoppedPhase(Snap(), k.bound, k.exempt, k.rest);
      WeakerSelf(body);
      var o := gray[0];
      gray := gray[1..];
      color := color[o := Black];
      if body[o].Table? {
        MarkTable(o, k);
      } else if body[o].Thread? {
        MarkThread(o, k);
      } else {
        MarkFunc(o, k);
      }
    }

    // -------------------------------------------------------------------- the atomic phase

    /** `mark_all_gray`. */
    method MarkAllGray(ghost k: Scope)
      requires state == 0 || state == 2
      requires Within(Snap(), k, {})
      modifies this`color, this`gray, this`debt, this`body, this`grayAgain, this`weak, this`ephemeron,
               this`allWeak, this`twups
      ensures Within(Snap(), k, {}) && Weaker(old(body), body, {}) && gray == []
      ensures Marked(old(color)) <= Marked(color)
      ensures Whites(color) <= Whites(old(color))
      ensures old(gray) == [] ==> Snap() == old(Snap())
    {
      hide Within, Weaker, Marked, Whites;
      WeakerSelf(body);
      ghost var B0 := body;
      while gray != []
        invariant Within(Snap(), k, {}) && Weaker(B0, body, {})
        invariant Marked(old(color)) <= Marked(color)
        invariant Whites(color) <= Whites(old(color))
        invariant old(gray) == [] ==> gray == [] && Snap() == old(Snap())
        decreases Unpaid(Now())
      {
        ghost var B1 := body;
        MarkOneGray(k);
        WeakerTrans(B0, B1, body, {});
      }
    }

    /** Strong references created since the cycle began are marked, then the two parts of the list
        become one. */
    method MarkRefs(ghost k: Scope)
      requires Within(Snap(), k, {})
      requires forall i | 0 <= i < |refs| :: refs[i] in k.bound
      modifies this`color, this`gray, this`debt, this`refs, this`markedRefs
      ensures Within(Snap(), k, {}) && After(k, old(Now()), Now())
      ensures forall i | 0 <= i < |old(refs)| :: old(refs)[i] in Marked(color)
      ensures refs == old(refs) + old(markedRefs) && markedRefs == []
    {
      hide Within, After;
      AfterRefl(k, Now());
      for i := 0 to |refs|
        invariant Within(Snap(), k, {}) && After(k, old(Now()), Now())
        invariant refs == old(refs) && markedRefs == old(markedRefs)
        invariant forall j | 0 <= j < i :: refs[j] in Marked(color)
      {
        ghost var m1 := Now();
        var _ := MarkIn(Obj(refs[i]), k, {});
        AfterTrans(k, old(Now()), m1, Now());
        AfterIs(k, m1, Now());
      }
      refs, markedRefs := refs + markedRefs, [];
    }

    ghost method ShapeIs(k: Scope, ex: set<Id>)
      requires Within(Snap(), k, ex)
      ensures k.shape == ShapeOf(body) && body.Keys == color.Keys
    {
    }

    ghost method TwupsIs(k: Scope, i: nat)
      requires Within(Snap(), k, {}) && i < |twups|
      ensures twups[i] in body && body[twups[i]].Thread?
    {
    }

    /** One thread of `remark_upvalues`; the result is the part of `twups` kept so far. */
    method RemarkThread(th: Id, kept: seq<Id>, ghost k: Scope) returns (kept': seq<Id>)
      requires Within(Snap(), k, {}) && th in body && body[th].Thread?
      modifies this`color, this`gray, this`debt
      ensures Within(Snap(), k, {}) && After(k, old(Now()), Now())
      ensures Remarked(Snap(), k, kept', th)
      ensures kept' == kept || (kept' == kept + [th] && th in Marked(color))
      ensures th in Marked(old(color)) && body[th].open != [] ==> th in kept'
    {
      hide Within, After, UpDone;
      ShapeIs(k, {});
      AfterRefl(k, Now());
      if !color[th].White? && body[th].open != [] {
        return kept + [th];
      }
      kept' := kept;
      ghost var m0 := Now();
      var open := body[th].open;
      for i := 0 to |open|
        invariant Within(Snap(), k, {}) && After(k, m0, Now())
        invariant forall j | 0 <= j < i :: UpDone(k, color, open[j])
      {
        ghost var m1 := Now();
        OpenValue(Snap(), k, th, open[i]);
        var v := UpValue(body, body[open[i]]);
        AfterRefl(k, m1);
        if !color[open[i]].White? && v.Obj? && color[v.id].White? {
          var _ := MarkIn(v, k, {});
        }
        AfterTrans(k, m0, m1, Now());
        assert UpDone(k, color, open[i]) by { UpDoneHere(k, m1, Now(), open[i]); }
        forall j | 0 <= j < i ensures UpDone(k, color, open[j]) {
          UpDoneMono(k, m1, Now(), open[j]);
        }
      }
      ShapeIs(k, {});
      AfterBlack(k, m0, Now(), th);
      UpsDone(Snap(), k, m0.color, th, kept');
    }

    lemma UpDoneHere(k: Scope, m0: Marks, m: Marks, u: Id)
      requires After(k, m0, m)
      requires u in k.shape.ups && u in Marked(m0.color) ==> VIn(k.shape.ups[u], Marked(m.color))
      ensures UpDone(k, m.color, u)
    {
    }

    /** `remark_upvalues`: a thread that is unmarked or has no open upvalue leaves `twups`; its marked
        upvalues have their values marked, as no traversal of the thread will do it. */
    method RemarkUpvalues(ghost k: Scope)
      requires Within(Snap(), k, {}) && state == 2 && !remarked
      modifies this`color, this`gray, this`debt, this`twups, this`remarked
      ensures Within(Snap(), k, {}) && After(k, old(Now()), Now())
      ensures remarked && forall i | 0 <= i < |twups| :: twups[i] in Marked(color)
      ensures forall x | Kept(body, old(color), x) :: x in twups
    {
      hide Within, After, Remarked, Marked;
      AfterRefl(k, Now());
      ThreadsIn(Snap(), k);
      var kept: seq<Id> := [];
      for i := 0 to |twups|
        invariant Within(Snap(), k, {}) && After(k, old(Now()), Now())
        invariant twups == old(twups) && !remarked
        invariant forall j | 0 <= j < i && Kept(body, old(color), twups[j]) :: twups[j] in kept
        invariant forall j | 0 <= j < i :: Remarked(Snap(), k, kept, twups[j])
        invariant forall j | 0 <= j < |kept| :: kept[j] in twups && kept[j] in Marked(color)
      {
        ghost var v0, kept0 := Snap(), kept;
        ShapeIs(k, {});
        TwupsIs(k, i);
        AfterGrew(k, old(Now()), Now());
        kept := RemarkThread(twups[i], kept, k);
        AfterTrans(k, old(Now()), v0.m, Now());
        AfterIs(k, v0.m, Now());
        forall j | 0 <= j < i ensures Remarked(Snap(), k, kept, twups[j]) {
          RemarkStep(v0, k, kept0, kept, twups[j], Snap());
        }
      }
      RemarkWithin(Snap(), k, kept);
      assert forall x | Kept(body, old(color), x) :: x in kept;
      twups := kept;
      remarked := true;
    }
  
    /** A marked thread with open upvalues. */
    ghost predicate Kept(B: Bodies, C: Colors, x: Id) {
      x in Marked(C) && x in B && B[x].Thread? && B[x].open != []
    }

    lemma ThreadsIn(v: View, k: Scope)
      requires Within(v, k, {}) && !v.remarked
      ensures forall x | Kept(v.body, v.m.color, x) :: x in v.twups
    {
    }

    lemma AfterGrew(k: Scope, m0: Marks, m: Marks)
      requires After(k, m0, m)
      ensures Marked(m0.color) <= Marked(m.color)
    {
    }

    /** One table of a round of `converge_ephemerons`. */
    method ConvergeOne(next: seq<Id>, dir: bool, ghost k: Scope) returns (marked: bool)
      requires state == 2 && next != [] && gray == []
      requires Within(Snap(), Plus(k, next), {}) && EphOk(body, color, next[0])
      modifies this`color, this`gray, this`debt, this`body, this`grayAgain, this`weak, this`ephemeron,
               this`allWeak, this`twups
      ensures Within(Snap(), Plus(k, next[1..]), {}) && gray == [] && Weaker(old(body), body, {})
      ensures Marked(old(color)) <= Marked(color) && Whites(color) <= Whites(old(color))
      ensures marked ==> Whites(color) < Whites(old(color))
      ensures !marked ==> Marked(color) == Marked(old(color)) && EphConv(body, color, next[0])
      ensures !marked || Exhausted(k, old(color)) ==> Sorted(next[0], old(Snap()), Snap())
    {
      hide Phase, Weaker, EphOk, EphConv, StringKeys;
      var w := next[0];
      ghost var k' := Plus(k, next[1..]);
      EphStrings(body, color, w);
      NextPhase(Snap(), k.bound, k.exempt, k.rest, next);
      color := color[w := Black];
      ghost var m0, B0 := Now(), body;
      marked := MarkEphemeron(w, dir, k');
      AfterQuiet(k', m0, Now());
      if marked {
        ghost var B1 := body;
        MarkAllGray(k');
        WeakerTrans(B0, B1, body, {});
      }
    }

    ghost method AfterQuiet(k: Scope, m0: Marks, m: Marks)
      requires After(k, m0, m)
      ensures Marked(m0.color) <= Marked(m.color) && Whites(m.color) <= Whites(m0.color)
      ensures Exhausted(k, m0.color) ==> m.gray == m0.gray
    {
    }
  
    /** One round of `converge_ephemerons` over the list that was `ephemeron`. */
    method ConvergeRound(next0: seq<Id>, dir: bool, ghost k: Scope) returns (changed: bool)
      requires state == 2 && gray == [] && ephemeron == []
      requires Within(Snap(), Plus(k, next0), {}) && AllEphOk(body, color, next0)
      modifies this`color, this`gray, this`debt, this`body, this`grayAgain, this`weak, this`ephemeron,
               this`allWeak, this`twups
      ensures Within(Snap(), k, {}) && gray == [] && Weaker(old(body), body, {})
      ensures Marked(old(color)) <= Marked(color) && Whites(color) <= Whites(old(color))
      ensures changed ==> Whites(color) < Whites(old(color))
      ensures !changed ==> Marked(color) == Marked(old(color)) && AllEphConv(body, color, ephemeron)
      ensures Exhausted(k, old(color)) ==> OnlyPushed(old(Snap()), Snap())
    {
      hide Within, Weaker, EphOk, EphConv, Marked, Whites, Exhausted, Plus, AllEphConv, AllEphOk;
      var next := next0;
      changed := false;
      WeakerSelf(body);
      NoneConv(body, color);
      ghost var v0 := Snap();
      while next != []
        invariant Within(Snap(), Plus(k, next), {}) && gray == [] && Weaker(v0.body, body, {})
        invariant Marked(v0.m.color) <= Marked(color) && Whites(color) <= Whites(v0.m.color)
        invariant AllEphOk(body, color, next)
        invariant changed ==> Whites(color) < Whites(v0.m.color)
        invariant !changed ==> Marked(color) == Marked(v0.m.color) && AllEphConv(body, color, ephemeron)
        invariant Exhausted(k, v0.m.color) ==> OnlyPushed(v0, Snap())
      {
        ghost var v1, changed1 := Snap(), changed;
        FirstEphOk(body, color, next);
        var marked := ConvergeOne(next, dir, k);
        changed := changed || marked;
        WeakerTrans(v0.body, v1.body, body, {});
        AllEphOkMono(v1.body, body, v1.m.color, color, next);
        if !changed {
          AllEphConvMono(v1.body, body, v1.m.color, color, v1.eph, ephemeron, next[0]);
        }
        if Exhausted(k, v0.m.color) {
          ExhaustedMono(k, v0.m.color, v1.m.color);
          SortedPushed(next[0], v1, Snap());
          SuffixTrans(v0.allWeak, v1.allWeak, allWeak);
        }
        next := next[1..];
      }
      PlusNone(Snap(), k);
    }

    lemma NoneConv(B: Bodies, C: Colors)
      ensures AllEphConv(B, C, [])
    {
    }

    lemma FirstEphOk(B: Bodies, C: Colors, l: seq<Id>)
      requires AllEphOk(B, C, l) && l != []
      ensures EphOk(B, C, l[0])
    {
    }

    /** `converge_ephemerons`: rounds in alternating direction until one of them marks nothing. */
    method ConvergeEphemerons(ghost k: Scope)
      requires state == 2 && gray == [] && Within(Snap(), k, {})
      modifies this`color, this`gray, this`debt, this`body, this`grayAgain, this`weak, this`ephemeron,
               this`allWeak, this`twups
      ensures Within(Snap(), k, {}) && gray == [] && Weaker(old(body), body, {})
      ensures Marked(old(color)) <= Marked(color) && Whites(color) <= Whites(old(color))
      ensures AllEphConv(body, color, ephemeron)
      ensures Exhausted(k, old(color)) ==> OnlyPushed(old(Snap()), Snap())
    {
      hide Within, Weaker, EphConv, EphOk, Marked, Whites, Exhausted, Plus, AllEphConv;
      WeakerSelf(body);
      ghost var v0 := Snap();
      var dir, changed := false, true;
      while changed
        invariant Within(Snap(), k, {}) && gray == [] && Weaker(v0.body, body, {})
        invariant Marked(v0.m.color) <= Marked(color) && Whites(color) <= Whites(v0.m.color)
        invariant !changed ==> AllEphConv(body, color, ephemeron)
        invariant Exhausted(k, v0.m.color) ==> OnlyPushed(v0, Snap())
        decreases Whites(color), changed
      {
        ghost var v1 := Snap();
        ListedEphOk(v1, k, {});
        EphTaken(v1, k);
        var next := ephemeron;
        ephemeron := [];
        changed := ConvergeRound(next, dir, k);
        WeakerTrans(v0.body, v1.body, body, {});
        if Exhausted(k, v0.m.color) {
          ExhaustedMono(k, v0.m.color, v1.m.color);
          SuffixTrans(v0.allWeak, v1.allWeak, allWeak);
        }
        dir := !dir;
      }
    }
  
    // -------------------------------------------------------------------- clearing weak tables

    /** Marking is over but for strings; `gone` is what nothing will mark any more. */
    ghost predicate Clearing(k: Scope, gone: set<Id>)
      reads this
    {
      Within(Snap(), k, {}) && Exhausted(k, color) && gray == [] && gone == body.Keys - k.bound
    }

    /** One node in `clear_by_keys` or `clear_by_values`. */
    method ClearNode(h: Id, i: nat, byKey: bool, ghost gone: set<Id>, ghost k: Scope)
      requires Clearing(k, gone)
      requires h in body && body[h].Table? && i < |body[h].nodes| && h in k.bound
      modifies this`color, this`gray, this`debt, this`body
      ensures Clearing(k, gone)
      ensures Marked(old(color)) <= Marked(color)
      ensures body == old(body) || body == WithNode(old(body), h, i, Emptied(old(body)[h].nodes[i]))
      ensures EntryWeaker(old(body)[h].nodes[i], body[h].nodes[i], gone)
      ensures NodeClean(body[h].nodes[i], byKey, Marked(color))
    {
      hide Within;
      var e := body[h].nodes[i];
      ghost var m0 := Now();
      NodeExists(Snap(), k, {}, h, i);
      ShapeIs(k, {});
      var cleared := IsCleared(if byKey then e.key else e.val, k, {});
      AfterQuiet(k, m0, Now());
      if cleared || e.val.Nil? {
        EmptyNode(h, i, gone, k, {});
      }
    }

    method ClearNodes(h: Id, byKey: bool, ghost gone: set<Id>, ghost k: Scope)
      requires Clearing(k, gone) && h in body && body[h].Table? && h in k.bound
      modifies this`color, this`gray, this`debt, this`body
      ensures Clearing(k, gone) && Weaker(old(body), body, gone)
      ensures Marked(old(color)) <= Marked(color)
      ensures NodesClean(body, color, h, byKey)
    {
      hide Within, Weaker, NodesDone, Exhausted, EntryWeaker, NodeClean;
      NodesDoneRefl(body, h, gone);
      ghost var B0 := body;
      var n := |body[h].nodes|;
      for i := 0 to n
        invariant Clearing(k, gone) && NodesDone(B0, body, h, gone)
        invariant Marked(old(color)) <= Marked(color)
        invariant h in body && body[h].Table? && |body[h].nodes| == n
        invariant forall j | 0 <= j < i :: NodeClean(body[h].nodes[j], byKey, Marked(color))
      {
        ghost var B1, M1 := body, Marked(color);
        ClearNode(h, i, byKey, gone, k);
        assert forall j | 0 <= j < i :: body[h].nodes[j] == B1[h].nodes[j];
        forall j | 0 <= j < i ensures NodeClean(body[h].nodes[j], byKey, Marked(color)) {
          NodeCleanMono(body[h].nodes[j], byKey, M1, Marked(color));
        }
        if body != B1 {
          NodesDoneStep(B0, B1, h, gone, i, body[h].nodes[i]);
        }
      }
      NodesDoneIs(B0, body, h, gone);
    }

    lemma NodeCleanMono(e: Entry, byKey: bool, M: set<Id>, M': set<Id>)
      requires NodeClean(e, byKey, M) && M <= M'
      ensures NodeClean(e, byKey, M')
    {
    }

    /** The array loop of `clear_by_values`. */
    method ClearArray(h: Id, ghost gone: set<Id>, ghost k: Scope)
      requires Clearing(k, gone) && h in body && body[h].Table? && h in k.bound
      modifies this`color, this`gray, this`debt, this`body
      ensures Clearing(k, gone) && Weaker(old(body), body, gone)
      ensures Marked(old(color)) <= Marked(color)
      ensures ArrIn(body, color, h)
    {
      hide Within, Weaker, Exhausted;
      ghost var B0 := body;
      WeakerSelfGone(body, gone);
      var n := |body[h].arr|;
      for i := 0 to n
        invariant Clearing(k, gone) && Weaker(B0, body, gone)
        invariant Marked(old(color)) <= Marked(color)
        invariant h in body && body[h].Table? && |body[h].arr| == n
        invariant forall j | 0 <= j < i :: VIn(body[h].arr[j], Marked(color))
      {
        ghost var B1 := body;
        ClearSlot(h, i, gone, k);
        WeakerTrans(B0, B1, body, gone);
        assert forall j | 0 <= j < i :: body[h].arr[j] == B1[h].arr[j];
      }
    }

    lemma WeakerSelfGone(B: Bodies, gone: set<Id>)
      ensures Weaker(B, B, gone)
    {
    }

    method ClearSlot(h: Id, i: nat, ghost gone: set<Id>, ghost k: Scope)
      requires Clearing(k, gone) && h in body && body[h].Table? && i < |body[h].arr| && h in k.bound
      modifies this`color, this`gray, this`debt, this`body
      ensures Clearing(k, gone) && Weaker(old(body), body, gone)
      ensures Marked(old(color)) <= Marked(color)
      ensures h in body && body[h].Table? && |body[h].arr| == |old(body)[h].arr|
      ensures forall j | 0 <= j < |body[h].arr| && j != i :: body[h].arr[j] == old(body)[h].arr[j]
      ensures VIn(body[h].arr[i], Marked(color))
    {
      hide Phase, Weaker;
      ghost var m0, B0 := Now(), body;
      var v := body[h].arr[i];
      SlotExists(Snap(), k, {}, h, i);
      ShapeIs(k, {});
      WeakerSelfGone(body, gone);
      var cleared := IsCleared(v, k, {});
      AfterQuiet(k, m0, Now());
      ghost var v1 := Snap();
      if cleared {
        body := WithSlot(body, h, i, Nil);
        WithSlotWeaker(B0, h, i, Nil, gone);
        WeakerWithin(v1, body, gone, k, {});
      }
    }
  
    /** `clear_by_values` over a stretch of a list. */
    method ClearByValues(l: seq<Id>, ghost gone: set<Id>, ghost k: Scope)
      requires Clearing(k, gone) && Tables(body, l) && Inside(l, k.bound)
      modifies this`color, this`gray, this`debt, this`body
      ensures Clearing(k, gone) && Weaker(old(body), body, gone)
      ensures Marked(old(color)) <= Marked(color)
      ensures AllClean(body, color, l, false)
    {
      hide Clearing, Weaker, ArrIn, NodesClean, Marked, AllClean;
      WeakerSelfGone(body, gone);
      ghost var B0 := body;
      NoneClean(body, color, l, false);
      for i := 0 to |l|
        invariant Clearing(k, gone) && Weaker(B0, body, gone)
        invariant Marked(old(color)) <= Marked(color)
        invariant AllClean(body, color, l[..i], false)
      {
        ghost var v1 := Snap();
        WeakerKind(B0, body, gone);
        ClearArray(l[i], gone, k);
        ghost var v2 := Snap();
        WeakerTrans(B0, v1.body, body, gone);
        WeakerKind(B0, body, gone);
        ClearNodes(l[i], false, gone, k);
        WeakerTrans(B0, v2.body, body, gone);
        CleanMono(v2.body, body, gone, v2.m.color, color, l[i], false);
        AllCleanMono(v1.body, v2.body, gone, v1.m.color, v2.m.color, l[..i], false);
        AllCleanMono(v2.body, body, gone, v2.m.color, color, l[..i], false);
        OneClean(body, color, l[i], false);
        AllCleanAppend(body, color, l[..i], [l[i]], l[..i + 1], false);
      }
      assert l[..|l|] == l;
    }

    lemma NoneClean(B: Bodies, C: Colors, l: seq<Id>, byKey: bool)
      ensures AllClean(B, C, l[..0], byKey)
    {
    }

    lemma OneClean(B: Bodies, C: Colors, x: Id, byKey: bool)
      requires NodesClean(B, C, x, byKey) && (!byKey ==> ArrIn(B, C, x))
      ensures AllClean(B, C, [x], byKey)
    {
    }

    /** `clear_by_keys`. */
    method ClearByKeys(l: seq<Id>, ghost gone: set<Id>, ghost k: Scope)
      requires Clearing(k, gone) && Tables(body, l) && Inside(l, k.bound)
      modifies this`color, this`gray, this`debt, this`body
      ensures Clearing(k, gone) && Weaker(old(body), body, gone)
      ensures Marked(old(color)) <= Marked(color)
      ensures AllClean(body, color, l, true)
    {
      hide Clearing, Weaker, NodesClean, Marked, AllClean;
      WeakerSelfGone(body, gone);
      ghost var B0 := body;
      NoneClean(body, color, l, true);
      for i := 0 to |l|
        invariant Clearing(k, gone) && Weaker(B0, body, gone)
        invariant Marked(old(color)) <= Marked(color)
        invariant AllClean(body, color, l[..i], true)
      {
        ghost var v1 := Snap();
        WeakerKind(B0, body, gone);
        ClearNodes(l[i], true, gone, k);
        WeakerTrans(B0, v1.body, body, gone);
        AllCleanMono(v1.body, body, gone, v1.m.color, color, l[..i], true);
        OneClean(body, color, l[i], true);
        AllCleanAppend(body, color, l[..i], [l[i]], l[..i + 1], true);
      }
      assert l[..|l|] == l;
    }

    // -------------------------------------------------------------------- `finish_marking`

    /** The first half of `finish_marking`, up to the fixpoint. S bounds what may be marked; X holds
        the tables whose strong links the phase does not follow. */
    method MarkPhase(ghost S0: set<Id>, ghost S: set<Id>, ghost X: set<Id>) returns (ghost k: Scope)
      requires state == 2 && !remarked
      requires Phase(Snap().(state := 1), S0, X, multiset{}, {})
      requires Bounded(Snap().(state := 1), S, X)
      requires forall i | 0 <= i < |refs| :: refs[i] in S
      modifies this`color, this`gray, this`debt, this`body, this`grayAgain, this`weak, this`ephemeron,
               this`allWeak, this`twups, this`refs, this`markedRefs, this`remarked
      ensures k.bound == S && k.exempt == X && Converged(Snap(), k)
      ensures Weaker(old(body), body, {})
      ensures Marked(old(color)) <= Marked(color)
      ensures forall i | 0 <= i < |old(refs)| :: old(refs)[i] in Marked(color)
      ensures refs == old(refs) + old(markedRefs) && markedRefs == []
    {
      hide Phase, Bounded, Weaker, AllListable, Marked, AllEphConv, Within, Converged;
      ghost var v1 := Snap().(state := 1);
      EnterListable(v1, S0, X);
      var again := grayAgain;
      k := MarkPhaseRefs(S0, S, X);
      MarkAllGray(k);
      RemarkTail(k, again, v1.body);
      k := k.(rest := multiset{});
      Fixpoint(k, v1.body);
    }

    /** The old `grayagain` goes to a local, and the strong references are marked. */
    method MarkPhaseRefs(ghost S0: set<Id>, ghost S: set<Id>, ghost X: set<Id>) returns (ghost k: Scope)
      requires state == 2 && !remarked
      requires Phase(Snap().(state := 1), S0, X, multiset{}, {})
      requires Bounded(Snap().(state := 1), S, X)
      requires forall i | 0 <= i < |refs| :: refs[i] in S
      modifies this`color, this`gray, this`debt, this`grayAgain, this`refs, this`markedRefs
      ensures k == Scope(S, X, multiset(old(grayAgain)), ShapeOf(body)) && Within(Snap(), k, {})
      ensures Marked(old(color)) <= Marked(color)
      ensures forall i | 0 <= i < |old(refs)| :: old(refs)[i] in Marked(color)
      ensures refs == old(refs) + old(markedRefs) && markedRefs == []
    {
      hide Phase, Bounded, Marked;
      ghost var v1 := Snap().(state := 1);
      EnterAtomic(v1, S0, S, X);
      k := Scope(S, X, multiset(grayAgain), ShapeOf(body));
      grayAgain := [];
      MarkRefs(k);
      AfterIs(k, v1.m, Now());
    }

    /** The last two steps before clearing. */
    method Fixpoint(ghost k: Scope, ghost B0: Bodies)
      requires Within(Snap(), k, {}) && state == 2 && remarked && k.rest == multiset{}
      requires Weaker(B0, body, {})
      modifies this`color, this`gray, this`debt, this`body, this`grayAgain, this`weak, this`ephemeron,
               this`allWeak, this`twups
      ensures Converged(Snap(), k) && Weaker(B0, body, {})
      ensures Marked(old(color)) <= Marked(color)
    {
      hide Within, Weaker, AllEphConv, Marked;
      ghost var B2 := body;
      MarkAllGray(k);
      WeakerTrans(B0, B2, body, {});
      ghost var B3 := body;
      ConvergeEphemerons(k);
      WeakerTrans(B0, B3, body, {});
    }

    lemma EnterListable(v: View, S0: set<Id>, X: set<Id>)
      requires v.state == 1 && Phase(v, S0, X, multiset{}, {})
      ensures AllListable(v.body, v.again)
    {
    }

    lemma ListableMono(B: Bodies, B': Bodies, l: seq<Id>)
      requires AllListable(B, l) && Weaker(B, B', {})
      ensures AllListable(B', l)
    {
      WeakerKind(B, B', {});
    }

    /** `remark_upvalues`, and then the old `grayagain` becomes the gray list. */
    method RemarkTail(ghost k: Scope, again: seq<Id>, ghost B0: Bodies)
      requires Within(Snap(), k, {}) && state == 2 && !remarked && gray == [] && k.rest == multiset(again)
      requires Weaker(B0, body, {}) && AllListable(B0, again)
      modifies this`color, this`gray, this`debt, this`body, this`grayAgain, this`weak, this`ephemeron,
               this`allWeak, this`twups, this`remarked
      ensures Within(Snap(), k.(rest := multiset{}), {}) && remarked
      ensures Weaker(B0, body, {})
      ensures Marked(old(color)) <= Marked(color)
    {
      hide Within, Weaker, Marked, AllListable;
      ghost var m0 := Now();
      RemarkUpvalues(k);
      AfterIs(k, m0, Now());
      ghost var B1 := body;
      MarkAllGray(k);
      WeakerTrans(B0, B1, body, {});
      ListableMono(B0, body, again);
      AgainBack(Snap(), k, again);
      gray := again;
    }
  
    /** The first two `clear_by_values`. */
    method ClearFirst(ghost gone: set<Id>, ghost k: Scope)
      requires Clearing(k, gone) && state == 2
      modifies this`color, this`gray, this`debt, this`body
      ensures Clearing(k, gone) && Weaker(old(body), body, gone)
      ensures Marked(old(color)) <= Marked(color)
      ensures AllClean(body, color, weak, false) && AllClean(body, color, allWeak, false)
    {
      hide Within, Exhausted, Weaker, AllClean, Tables, Marked;
      ListTables(Snap(), k);
      ghost var v0 := Snap();
      ClearByValues(weak, gone, k);
      ghost var v1 := Snap();
      TablesMono(v0.body, body, gone, allWeak);
      ClearByValues(allWeak, gone, k);
      WeakerTrans(v0.body, v1.body, body, gone);
      AllCleanMono(v1.body, body, gone, v1.m.color, color, weak, false);
    }

    /** What follows the second `converge_ephemerons`; ow and oa are the lists as they were before
        it, whose values have been cleared. */
    method ClearLast(ow: seq<Id>, oa: seq<Id>, ghost gone: set<Id>, ghost k: Scope)
      requires Clearing(k, gone) && state == 2
      requires weak == ow && Suffix(oa, allWeak)
      requires AllClean(body, color, ow, false) && AllClean(body, color, oa, false)
      modifies this`color, this`gray, this`debt, this`body
      ensures Clearing(k, gone) && Weaker(old(body), body, gone)
      ensures Marked(old(color)) <= Marked(color)
      ensures AllClean(body, color, weak, false) && AllClean(body, color, allWeak, false)
      ensures AllClean(body, color, allWeak, true) && AllClean(body, color, ephemeron, true)
    {
      hide Within, Exhausted, Weaker, AllClean, Tables, Marked;
      ListTables(Snap(), k);
      var nw, na := weak[..|weak| - |ow|], allWeak[..|allWeak| - |oa|];
      assert nw == [] && allWeak == na + oa;
      ghost var v0 := Snap();
      ClearByKeys(ephemeron, gone, k);
      ghost var v1 := Snap();
      TablesMono(v0.body, v1.body, gone, allWeak);
      ClearByKeys(allWeak, gone, k);
      ghost var v2 := Snap();
      WeakerTrans(v0.body, v1.body, v2.body, gone);
      TablesMono(v0.body, v2.body, gone, allWeak);
      TablesPart(v2.body, na, allWeak);
      InsidePart(na, allWeak, k.bound);
      ClearByValues(nw, gone, k);
      ghost var v3 := Snap();
      WeakerTrans(v0.body, v2.body, v3.body, gone);
      TablesMono(v2.body, v3.body, gone, na);
      ClearByValues(na, gone, k);
      WeakerTrans(v0.body, v3.body, body, gone);
      WeakerTrans(v2.body, v3.body, body, gone);
      WeakerTrans(v1.body, v2.body, body, gone);
      AllCleanMono(v0.body, body, gone, v0.m.color, color, ow, false);
      AllCleanMono(v0.body, body, gone, v0.m.color, color, oa, false);
      AllCleanMono(v1.body, body, gone, v1.m.color, color, ephemeron, true);
      AllCleanMono(v2.body, body, gone, v2.m.color, color, allWeak, true);
      AllCleanAppend(body, color, na, oa, allWeak, false);
    }

    lemma TablesPart(B: Bodies, s: seq<Id>, l: seq<Id>)
      requires Tables(B, l) && s <= l
      ensures Tables(B, s) && Tables(B, [])
    {
    }

    lemma InsidePart(s: seq<Id>, l: seq<Id>, S: set<Id>)
      requires Inside(l, S) && s <= l
      ensures Inside(s, S) && Inside([], S)
    {
    }

    /** The second `converge_ephemerons`: only strings can still be marked by it. */
    method ConvergeAgain(ow: seq<Id>, oa: seq<Id>, ghost gone: set<Id>, ghost k: Scope)
      requires Clearing(k, gone) && state == 2
      requires ow == weak && oa == allWeak
      requires AllClean(body, color, ow, false) && AllClean(body, color, oa, false)
      modifies this`color, this`gray, this`debt, this`body, this`grayAgain, this`weak, this`ephemeron,
               this`allWeak, this`twups
      ensures Clearing(k, gone) && Weaker(old(body), body, gone)
      ensures Marked(old(color)) <= Marked(color)
      ensures weak == ow && Suffix(oa, allWeak)
      ensures AllClean(body, color, ow, false) && AllClean(body, color, oa, false)
      ensures AllEphConv(body, color, ephemeron)
    {
      hide Within, Exhausted, Weaker, AllClean, Marked, AllEphConv, Suffix;
      ghost var v1 := Snap();
      MarkAllGray(k);
      ConvergeEphemerons(k);
      WeakerMono(v1.body, body, {}, gone);
      ExhaustedMono(k, v1.m.color, color);
      AllCleanMono(v1.body, body, gone, v1.m.color, color, ow, false);
      AllCleanMono(v1.body, body, gone, v1.m.color, color, oa, false);
      SameKeys(v1.body, body, gone);
    }

    lemma SameKeys(B: Bodies, B': Bodies, gone: set<Id>)
      requires Weaker(B, B', gone)
      ensures B.Keys == B'.Keys && ShapeOf(B).strings == ShapeOf(B').strings
    {
      WeakerShape(B, B', gone);
    }

    /** The second half of `finish_marking`. */
    method ClearPhase(ghost k: Scope)
      requires Converged(Snap(), k)
      modifies this`color, this`gray, this`debt, this`body, this`grayAgain, this`weak, this`ephemeron,
               this`allWeak, this`twups
      ensures Weaker(old(body), body, body.Keys - (Marked(old(color)) + k.shape.strings))
      ensures Marked(old(color)) <= Marked(color)
      ensures Within(Snap(), Rebound(old(Snap()), k), {}) && gray == []
      ensures forall x | x in Marked(color) :: Final(body, x, Marked(color), k.exempt)
    {
      hide Within, Weaker, AllClean, AllEphOk, AllEphConv, Exhausted, Suffix, Final;
      ghost var v0 := Snap();
      ReboundWithin(v0, k);
      ghost var k1 := Rebound(v0, k);
      ghost var gone := body.Keys - k1.bound;
      ShapeIs(k, {});
      ClearFirst(gone, k1);
      ghost var v1 := Snap();
      var ow, oa := weak, allWeak;
      ConvergeAgain(ow, oa, gone, k1);
      ghost var v2 := Snap();
      ListTables(v2, k1);
      ClearLast(ow, oa, gone, k1);
      WeakerTrans(v0.body, v1.body, v2.body, gone);
      WeakerTrans(v0.body, v2.body, body, gone);
      SameKeys(v0.body, body, gone);
      SameKeys(v0.body, v2.body, gone);
      AllFinal(k1, v2, gone);
    }

    ghost method AllFinal(k: Scope, v2: View, gone: set<Id>)
      requires Within(Snap(), k, {}) && state == 2 && remarked && gray == [] && k.rest == multiset{}
      requires AllClean(body, color, weak, false)
      requires AllClean(body, color, allWeak, false) && AllClean(body, color, allWeak, true)
      requires AllClean(body, color, ephemeron, true)
      requires AllEphOk(v2.body, v2.m.color, ephemeron) && AllEphConv(v2.body, v2.m.color, ephemeron)
      requires Weaker(v2.body, body, gone) && Marked(v2.m.color) <= Marked(color)
      requires Exhausted(k, v2.m.color) && Strings(v2.body) == k.shape.strings
      ensures forall x | x in Marked(color) :: Final(body, x, Marked(color), k.exempt)
    {
      MarkedBound(k, {});
      hide Within, Weaker, AllClean, AllEphOk, AllEphConv, Final;
      forall x | x in Marked(color) ensures Final(body, x, Marked(color), k.exempt) {
        ClearedFinal(Snap(), k, v2.body, v2.m.color, gone, x);
      }
    }
  
    /** `finish_marking`. What ends up marked, strings aside, is the least set that holds what was
        marked, the strong references, and the strong links of its members outside X: it is closed
        under the links as they were, and it is within every such set S. Entries are only cleared
        if they refer to an object outside it, and afterwards no marked object refers to an
        unmarked one, unless it is in X and refers to it as its metatable. */
    method FinishMarking(ghost S0: set<Id>, ghost S: set<Id>, ghost X: set<Id>) returns (ghost k: Scope)
      requires state == 2 && !remarked
      requires Phase(Snap().(state := 1), S0, X, multiset{}, {})
      requires Bounded(Snap().(state := 1), S, X)
      requires forall i | 0 <= i < |refs| :: refs[i] in S
      modifies this`color, this`gray, this`debt, this`body, this`grayAgain, this`weak, this`ephemeron,
               this`allWeak, this`twups, this`refs, this`markedRefs, this`remarked
      ensures Marked(old(color)) <= Marked(color) <= S
      ensures StrongClosed(old(body), Marked(color) + Strings(old(body)), X)
      ensures Weaker(old(body), body, body.Keys - (Marked(color) + Strings(old(body))))
      ensures forall x | x in Marked(color) :: Final(body, x, Marked(color), X)
      ensures forall i | 0 <= i < |old(refs)| :: old(refs)[i] in Marked(color)
      ensures refs == old(refs) + old(markedRefs) && markedRefs == []
      ensures remarked && gray == []
      ensures k.exempt == X && k.rest == multiset{} && Within(Snap(), k, {})
    {
      hide Phase, Weaker, Bounded, AllEphConv, StrongClosed, Final;
      ghost var B0 := body;
      k := MarkPhase(S0, S, X);
      ghost var v1 := Snap();
      ClosedBefore(B0, v1, k);
      ConvergedIs(v1, k);
      ClearPhase(k);
      k := Rebound(v1, k);
      SameKeys(B0, v1.body, {});
      MarkedBound(k, {});
      assert Marked(color) + Strings(B0) == Marked(v1.m.color) + k.shape.strings;
      SameKeys(v1.body, body, body.Keys - (Marked(v1.m.color) + k.shape.strings));
      WeakerMono(B0, v1.body, {}, body.Keys - (Marked(color) + Strings(B0)));
      WeakerTrans(B0, v1.body, body, body.Keys - (Marked(color) + Strings(B0)));
    }

    lemma ConvergedIs(v: View, k: Scope)
      requires Converged(v, k)
      ensures v.state == 2 && v.remarked && v.m.gray == [] && k.rest == multiset{}
      ensures k.shape.strings == Strings(v.body)
      ensures Marked(v.m.color) + Strings(v.body) <= k.bound
    {
    }
  
    // -------------------------------------------------------------------- the sweep

    ghost function All(): World
      reads this
    {
      World(Snap(), all, if sweep.Some? then sweep.value else 0, sweepMark, root, refs, markedRefs,
            survivors, known, doomed, lost, stray)
    }

    ghost predicate Valid()
      reads this
    {
      Inv(All())
    }

    /** One turn of `luaF_closeupval` on behalf of a thread that is being freed. The barrier is the
        one of the sweep state: it whitens the upvalue. */
    method CloseWhileSweeping(u: Id)
      requires Valid() && state == 3 && u in body && body[u].OpenUp?
      modifies this`body, this`color
      ensures Valid()
      ensures Dead(All()) == old(Dead(All())) && body.Keys == old(body).Keys
      ensures old(body[u].th) in old(body) && old(body)[old(body[u].th)].Thread?
      ensures body == Closed(old(body), u)
    {
      hide Inv, Closed, UpValue, Dead, AfterClose;
      ghost var w := All();
      ClosedExists(w, u);
      LiveUpvalue(w, u);
      var v := UpValue(body, body[u]);
      var c := if color[u].White? then color[u]
               else if v.Obj? && color[v.id].White? then White(currentWhite)
               else Black;
      CloseSweptInv(w, u, c);
      CloseAs(u, c);
    }

    lemma ClosedExists(w: World, u: Id)
      requires Inv(w) && u in w.v.body && w.v.body[u].OpenUp?
      ensures w.v.body[u].th in w.v.body && w.v.body[w.v.body[u].th].Thread?
      ensures Closed(w.v.body, u).Keys == w.v.body.Keys && u in w.v.m.color
    {
      KeysAre(w);
      TypedOf(w);
      hide Inv, Typed;
      ClosedKeys(w.v.body, u);
    }

    lemma CloseSweptInv(w: World, u: Id, c: Color)
      requires Inv(w) && w.v.state == 3 && u in w.v.body && w.v.body[u].OpenUp? && u in w.v.m.color
      requires w.v.m.color[u].White? ==> c == w.v.m.color[u]
      requires c == White(!w.v.cw) ==> w.v.m.color[u] == c
      ensures w.v.body[u].th in w.v.body && w.v.body[w.v.body[u].th].Thread?
      ensures Inv(AfterClose(w, u, c)) && Dead(AfterClose(w, u, c)) == Dead(w)
    {
      hide Base, Sweeping, Closed, Dead, Usable;
      CloseSweeping(w, u, c);
    }

    /** The upvalue leaves its thread's list, with the value of its slot and a new colour. */
    method CloseAs(u: Id, c: Color)
      requires u in body && body[u].OpenUp? && body[u].th in body && body[body[u].th].Thread?
      modifies this`body, this`color
      ensures body == Closed(old(body), u) && color == old(color)[u := c]
      ensures All() == AfterClose(old(All()), u, c)
    {
      hide Closed;
      body, color := Closed(body, u), color[u := c];
    }

    lemma LiveUpvalue(w: World, u: Id)
      requires Inv(w) && w.v.state == 3 && u in w.v.body && w.v.body[u].OpenUp?
      ensures u in w.v.m.color
      ensures !w.v.m.color[u].White? ==> VIn(UpValue(w.v.body, w.v.body[u]), w.v.m.color.Keys)
    {
      assert !w.v.m.color[u].White? ==> LiveAt(w, u) && PtrsIn(w.v.body, w.v.body[u], Alive(w));
    }

    /** A thread that is being freed closes its open upvalues. */
    method CloseAll(o: Id)
      requires Valid() && state == 3 && o in body && o in Dead(All())
      modifies this`body, this`color
      ensures Valid() && Dead(All()) == old(Dead(All())) && body.Keys == old(body).Keys
      ensures body[o].Thread? ==> body[o].open == []
      ensures SameLive(old(body), body, Dead(All()))
    {
      hide Inv, Closed, Dead, SameLive;
      ghost var B0 := body;
      SameLiveRefl(B0, Dead(All()));
      while body[o].Thread? && body[o].open != []
        invariant Valid() && Dead(All()) == old(Dead(All())) && body.Keys == B0.Keys
        invariant SameLive(B0, body, Dead(All()))
        decreases if body[o].Thread? then |body[o].open| else 0
      {
        var u := body[o].open[0];
        ghost var B1 := body;
        TypedOf(All());
        ThreadOpen(body, o, u);
        ClosedOpen(body, u);
        ClosedTyped(body, u);
        CloseSameLive(body, u, Dead(All()));
        CloseWhileSweeping(u);
        SameLiveTrans(B0, B1, body, Dead(All()), Dead(All()));
      }
    }

    lemma SameLiveRefl(B: Bodies, D: set<Id>)
      ensures SameLive(B, B, D)
    {
    }

    lemma TypedOf(w: World)
      requires Inv(w)
      ensures Typed(w.v.body) && w.v.body.Keys == w.v.m.color.Keys
    {
    }

    lemma ThreadOpen(B: Bodies, th: Id, u: Id)
      requires Typed(B) && th in B && B[th].Thread? && u in B[th].open
      ensures u in B && B[u].OpenUp? && B[u].th == th
    {
      assert TypedBody(B, th);
    }

    /** `free` on the dead object the sweep is at, and its removal from the list of all objects. */
    method FreeObject()
      requires Valid() && state == 3 && sweep.Some? && 0 < sweep.value <= |all|
      requires all[|all| - sweep.value] in Dead(All())
      modifies this`body, this`color, this`all, this`sweep, this`sweepMark, this`debt, this`doomed
      ensures Valid() && sweep == Some(old(sweep).value - 1) && sweep.value <= |all| == |old(all)| - 1
      ensures body.Keys == old(body).Keys - {old(all[|all| - sweep.value])}
      ensures Dead(All()) == old(Dead(All())) - {old(all[|all| - sweep.value])}
      ensures doomed == old(doomed) - {old(all[|all| - sweep.value])}
      ensures SameLive(old(body), body, old(Dead(All())))
    {
      hide Inv, Dead, SameLive, FreedAs;
      var o := all[|all| - sweep.value];
      ghost var B0 := body;
      DeadExists(All(), o);
      CloseAll(o);
      ghost var w1 := All();
      RemoveObject(o);
      FreedIs(w1, All(), o);
      SameLiveTrans(B0, w1.v.body, body, Dead(w1), Dead(w1));
    }

    method RemoveObject(o: Id)
      requires CanFree(All(), o) && sweep.Some?
      modifies this`body, this`color, this`all, this`sweep, this`sweepMark, this`debt, this`doomed
      ensures FreedAs(old(All()), All(), o) && sweep.Some?
    {
      hide Inv, Dead, Removed, Without, FreedAs, CanFree, AfterFree;
      ghost var w := All();
      FreedHere(w, o);
      CanFreeIs(w, o);
      Unmap(o);
      Unlist(o);
      AfterFreeIs(w, All(), o);
    }

    lemma CanFreeIs(w: World, o: Id)
      requires CanFree(w, o)
      ensures o in w.v.body && 0 < w.left <= |w.all| && w.all[|w.all| - w.left] == o
    {
      hide Inv;
    }

    lemma AfterFreeIs(w: World, w': World, o: Id)
      requires 0 < w.left <= |w.all| && w.all[|w.all| - w.left] == o && o in w.v.body
      requires w'.v.body == Removed(w.v.body, o) && w'.v.m.color == w.v.m.color - {o}
      requires w'.v.m.debt == w.v.m.debt - 1 && w'.all == Without(w.all, |w.all| - w.left)
      requires w'.left == w.left - 1 && w'.doomed == w.doomed - {o}
      requires w'.sweepMark == if w.v.body[o].SweepMark? then Some(o) else w.sweepMark
      requires w.v == w'.v.(body := w.v.body, m := w'.v.m.(color := w.v.m.color, debt := w.v.m.debt))
      requires w == w'.(v := w.v, all := w.all, left := w.left, sweepMark := w.sweepMark, doomed := w.doomed)
      ensures w' == AfterFree(w, o)
    {
      hide Removed, Without;
    }

    method Unmap(o: Id)
      requires o in body
      modifies this`body, this`color, this`sweepMark
      ensures body == Removed(old(body), o) && color == old(color) - {o}
      ensures sweepMark == if old(body)[o].SweepMark? then Some(o) else old(sweepMark)
    {
      if body[o].SweepMark? {
        sweepMark := Some(o);
      }
      body := Removed(body, o);
      color := color - {o};
    }

    method Unlist(ghost o: Id)
      requires sweep.Some? && 0 < sweep.value <= |all| && debt >= 1
      modifies this`all, this`sweep, this`debt, this`doomed
      ensures sweep == Some(old(sweep).value - 1) && all == Without(old(all), |old(all)| - old(sweep).value)
      ensures debt == old(debt) - 1 && doomed == old(doomed) - {o}
    {
      all := Without(all, |all| - sweep.value);
      sweep := Some(sweep.value - 1);
      debt := debt - 1;
      doomed := doomed - {o};
    }

    lemma DeadExists(w: World, o: Id)
      requires Inv(w) && o in Dead(w)
      ensures o in w.v.body
    {
      TypedOf(w);
    }

    lemma SweepStart(w: World)
      requires Inv(w) && w.v.state == 3
      ensures w.left <= |w.all| && Dead(w) == Dead(w) * w.v.body.Keys && w.doomed == w.doomed * w.v.body.Keys
    {
    }

    lemma SweepAt(w: World)
      requires Inv(w) && w.v.state == 3 && 0 < w.left <= |w.all|
      ensures var o := w.all[|w.all| - w.left];
        && o in w.v.body && o in w.v.m.color
        && (o in Dead(w) <==> w.v.m.color[o] == White(!w.v.cw))
    {
      assert w.all[|w.all| - w.left] in Elems(w.all);
    }

    method KeepObject(o: Id)
      requires Valid() && state == 3 && sweep.Some? && 0 < sweep.value <= |all|
      requires o == all[|all| - sweep.value] && o !in Dead(All())
      modifies this`color, this`sweep, this`survivors
      ensures Valid() && Dead(All()) == old(Dead(All())) && sweep == Some(old(sweep).value - 1)
    {
      hide Base, Sweeping;
      KeepOne(All(), o);
      color := color[o := White(currentWhite)];
      survivors := survivors + 1;
      sweep := Some(sweep.value - 1);
    }

    /** From B0 to B only objects of D0, the dead ones, have gone; D and doomed are what is left of D0
        and doomed0. */
    ghost predicate Swept(B0: Bodies, D0: set<Id>, doomed0: set<Id>, B: Bodies, D: set<Id>, doomed: set<Id>) {
      && B.Keys <= B0.Keys && B0.Keys - B.Keys <= D0
      && D == D0 * B.Keys && doomed == doomed0 * B.Keys && SameLive(B0, B, D0)
    }

    lemma SweptTrans(B0: Bodies, D0: set<Id>, d0: set<Id>, B1: Bodies, D1: set<Id>, d1: set<Id>,
                     B2: Bodies, D2: set<Id>, d2: set<Id>)
      requires Swept(B0, D0, d0, B1, D1, d1) && Swept(B1, D1, d1, B2, D2, d2)
      ensures Swept(B0, D0, d0, B2, D2, d2)
    {
      hide SameLive;
      SameLiveTrans(B0, B1, B2, D0, D1);
    }

    lemma SweptNone(w: World)
      requires Inv(w) && w.v.state == 3
      ensures Swept(w.v.body, Dead(w), w.doomed, w.v.body, Dead(w), w.doomed) && w.left <= |w.all|
    {
      hide Base, LivePtrs, ThreadsListed;
      SweepStart(w);
    }

    /** One object of `sweep`; says whether it was freed. */
    method SweepOne() returns (freed: bool)
      requires Valid() && state == 3 && sweep.Some? && 0 < sweep.value <= |all|
      modifies this`body, this`color, this`all, this`sweep, this`sweepMark, this`debt, this`doomed, this`survivors
      ensures Valid() && sweep == Some(old(sweep).value - 1) && sweep.value <= |all|
      ensures Swept(old(body), old(Dead(All())), old(doomed), body, Dead(All()), doomed)
      ensures freed == old(color[all[|all| - sweep.value]] == White(!currentWhite))
      ensures |all| == |old(all)| - if freed then 1 else 0
    {
      hide Inv, Dead, SameLive;
      SweepStart(All());
      SweepAt(All());
      SameLiveRefl(body, Dead(All()));
      var o := all[|all| - sweep.value];
      freed := color[o] == White(!currentWhite);
      if freed {
        FreeObject();
      } else {
        KeepObject(o);
      }
    }

    method SweepNext(ghost B0: Bodies, ghost D0: set<Id>, ghost d0: set<Id>) returns (freed: bool)
      requires Valid() && state == 3 && sweep.Some? && 0 < sweep.value <= |all|
      requires Swept(B0, D0, d0, body, Dead(All()), doomed)
      modifies this`body, this`color, this`all, this`sweep, this`sweepMark, this`debt, this`doomed, this`survivors
      ensures Valid() && sweep == Some(old(sweep).value - 1) && sweep.value <= |all|
      ensures Swept(B0, D0, d0, body, Dead(All()), doomed)
      ensures |all| == |old(all)| - if freed then 1 else 0
    {
      hide *;
      ghost var B1, D1, d1 := body, Dead(All()), doomed;
      freed := SweepOne();
      SweptTrans(B0, D0, d0, B1, D1, d1, body, Dead(All()), doomed);
    }

    /** `sweep`: at most 100 objects are visited and at most 2 freed in one call. */
    method Sweep()
      requires Valid() && state == 3 && sweep.Some?
      modifies this`body, this`color, this`all, this`sweep, this`sweepMark, this`debt, this`doomed, this`survivors
      ensures Valid() && (sweep.Some? ==> 0 < sweep.value && old(sweep).value - 100 <= sweep.value < old(sweep).value)
      ensures |old(all)| - 2 <= |all| <= |old(all)|
      ensures Swept(old(body), old(Dead(All())), old(doomed), body, Dead(All()), doomed)
    {
      hide Inv, Dead, Swept;
      ghost var B0, D0 := body, Dead(All());
      var freed := 0;
      SweptNone(All());
      for i := 0 to 100
        invariant Valid() && state == 3 && sweep.Some? && sweep.value <= |all|
        invariant sweep.value == old(sweep).value - i
        invariant 0 <= freed < 2 && |all| == |old(all)| - freed
        invariant Swept(B0, D0, old(doomed), body, Dead(All()), doomed)
      {
        if sweep.value == 0 {
          break;
        }
        var gone := SweepNext(B0, D0, old(doomed));
        if gone {
          freed := freed + 1;
          if freed == 2 {
            break;
          }
        }
      }
      Exhaust();
    }

    /** The sweep is over when it has come to the end of the list. */
    method Exhaust()
      requires sweep.Some?
      modifies this`sweep
      ensures All() == old(All()) && sweep == if old(sweep) == Some(0) then None else old(sweep)
    {
      if sweep.value == 0 {
        sweep := None;
      }
    }

    // -------------------------------------------------------------------- `step`

    /** Marks the root and the strong references. */
    method MarkRoots(ghost S: set<Id>)
      requires Ready(body, Now(), S) && root in S && Elems(refs) <= S
      modifies this`color, this`gray, this`debt
      ensures Burst(body, old(Now()), Now(), S)
      ensures root in Marked(color) && Elems(refs) <= Marked(color)
    {
      hide Burst, Ready;
      ReadySorts(body, Now(), S);
      BurstRefl(body, Now(), S);
      ghost var m0 := Now();
      if color[root].White? {
        Mark(root, S);
      }
      for i := 0 to |refs|
        invariant Burst(body, m0, Now(), S) && Ready(body, Now(), S)
        invariant root in Marked(color)
        invariant forall j | 0 <= j < i :: refs[j] in Marked(color)
      {
        ghost var m1 := Now();
        ReadySorts(body, m1, S);
        assert refs[i] in Elems(refs);
        if color[refs[i]].White? {
          Mark(refs[i], S);
          BurstKeeps(body, m1, Now(), S);
          BurstTrans(body, m0, m1, Now(), S);
        }
      }
    }

    lemma ReadySorts(B: Bodies, m: Marks, S: set<Id>)
      requires Ready(B, m, S)
      ensures S <= B.Keys == m.color.Keys && forall x | x in S :: !B[x].SweepMark?
    {
    }

    /** State 8, when a new cycle is due. */
    method StartCycle()
      requires Valid() && state == 8
      modifies this`state, this`color, this`gray, this`debt, this`grayAgain, this`weak, this`ephemeron, this`allWeak,
               this`refs, this`markedRefs, this`remarked, this`doomed, this`lost, this`stray
      ensures Valid() && state == 0
      ensures Usable(All()) == Reached(body, old(Roots(All()))) && doomed == old(Unreached(All()))
      ensures lost == {} && refs == [] && markedRefs == old(refs)
    {
      hide Inv, Phase, Reached, Burst, Roots, Usable, Unreached, Bounded, Ready, Marked, LinkClosed, HasStrings, Elems;
      ghost var w := All();
      ghost var S := Reached(body, Roots(w));
      StartPhase(w);
      StartBounded(w);
      StartReady(w, S);
      IdleRefs(w);
      ResetLists();
      MarkRoots(S);
      BeginMarking(Unreached(w));
      StartDone(w, Now());
      assert All() == AfterStart(w, Now(), Unreached(w));
    }

    method ResetLists()
      modifies this`gray, this`grayAgain, this`weak, this`ephemeron, this`allWeak, this`remarked
      ensures gray == [] && grayAgain == [] && weak == [] && ephemeron == [] && allWeak == [] && !remarked
    {
      gray, grayAgain, weak, ephemeron, allWeak := [], [], [], [], [];
      remarked := false;
    }

    method BeginMarking(ghost unreached: set<Id>)
      requires markedRefs == []
      modifies this`state, this`refs, this`markedRefs, this`doomed, this`lost, this`stray
      ensures state == 0 && markedRefs == old(refs) && refs == [] && doomed == unreached && lost == {} && stray == {}
    {
      if refs != [] {
        markedRefs := refs;
        refs := [];
      }
      state := 0;
      doomed, lost, stray := unreached, {}, {};
    }

    lemma StartReady(w: World, S: set<Id>)
      requires Bounded(Started(w.v), S, {}) && Roots(w) <= S
      ensures Ready(w.v.body, Started(w.v).m, S) && w.root in S && Elems(w.refs) <= S
    {
    }

    /** The parts of the snapshot. */
    lemma Here()
      ensures Untouched(All()) && All().v == Snap() && All().lost == lost && Snap().cw == currentWhite
      ensures All().refs == refs && All().markedRefs == markedRefs
      ensures Snap().again == grayAgain && Snap().weak == weak && Snap().eph == ephemeron && Snap().allWeak == allWeak
      ensures Snap().twups == twups && Snap().remarked == remarked
      ensures Snap().state == state && Snap().m == Now() && Snap().body == body
      ensures Now().color == color && Now().gray == gray && Now().debt == debt
    {
    }

    /** One gray object, and a unit of debt for it. */
    method PropagateOne(ghost S: set<Id>, ghost X: set<Id>)
      requires state == 0 && gray != [] && Phase(Snap(), S, X, multiset{}, {})
      modifies this`color, this`gray, this`debt, this`body, this`grayAgain, this`weak, this`ephemeron,
               this`allWeak, this`twups
      ensures Phase(Snap(), S, X, multiset{}, {}) && Weaker(old(body), body, {})
      ensures Marked(old(color)) <= Marked(color)
      ensures Unpaid(Now()) < old(Unpaid(Now()))
    {
      hide Phase, Weaker, Marked, Whites, Unpaid;
      MarkOneGray(Scope(S, X, multiset{}, ShapeOf(body)));
      ghost var v := Snap();
      PaidStep(v, S, X);
      debt := debt - 1;
      assert Snap() == v.(m := v.m.(debt := v.m.debt - 1));
      SameUnpaid(v.m, Now());
    }

    lemma SameUnpaid(m: Marks, m': Marks)
      requires m'.color == m.color && m'.gray == m.gray
      ensures Unpaid(m') == Unpaid(m)
    {
    }

    /** The fields marking leaves alone are those of w. */
    ghost predicate Untouched(w: World)
      reads this`currentWhite, this`root, this`all, this`sweep, this`sweepMark, this`survivors, this`known,
            this`doomed, this`lost, this`stray
    {
      && currentWhite == w.v.cw && root == w.root && all == w.all && sweepMark == w.sweepMark
      && w.left == (if sweep.Some? then sweep.value else 0)
      && survivors == w.survivors && known == w.known && doomed == w.doomed && lost == w.lost
      && stray == w.stray
    }

    ghost method SameRest(w: World)
      requires Untouched(w) && refs == w.refs && markedRefs == w.markedRefs
      ensures All() == w.(v := Snap())
    {
    }

    /** State 0 with a gray list. */
    method PropagateGray()
      requires Inv(All()) && state == 0 && gray != []
      modifies this`color, this`gray, this`debt, this`body, this`grayAgain, this`weak, this`ephemeron,
               this`allWeak, this`twups
      ensures Inv(All()) && Weaker(old(body), body, {})
      ensures Unpaid(Now()) < old(Unpaid(Now()))
    {
      hide *;
      ghost var w := All();
      Here();
      MarkingIs(w);
      PropagateOne(Usable(w), lost);
      Here();
      PropagateDone(w, Snap());
      SameRest(w);
    }

    /** State 0. */
    method Propagate()
      requires Valid() && state == 0
      modifies this`state, this`color, this`gray, this`debt, this`body, this`grayAgain, this`weak, this`ephemeron,
               this`allWeak, this`twups
      ensures Valid() && state == (if old(gray) == [] then 1 else 0)
      ensures Weaker(old(body), body, {})
      ensures old(gray) != [] ==> Unpaid(Now()) < old(Unpaid(Now()))
    {
      hide Inv, Weaker, Unpaid;
      if gray == [] {
        ghost var w := All();
        WeakerSelf(body);
        state := 1;
        GrayDone(w);
        assert All() == w.(v := w.v.(state := 1));
      } else {
        PropagateGray();
      }
    }

    lemma MarkingIs(w: World)
      requires Inv(w) && w.v.state <= 1
      ensures Phase(w.v, Usable(w), w.lost, multiset{}, {})
    {
    }

    lemma GrayDone(w: World)
      requires Inv(w) && w.v.state == 0
      ensures Inv(w.(v := w.v.(state := 1)))
    {
      hide Base, Bounded, LinkClosed, Tri, Lists, Threads, Single, Usable;
      var w' := w.(v := w.v.(state := 1));
      GrayDoneBase(w);
      GrayDonePhase(w.v, w.lost);
      BoundedState(w.v, Usable(w), w.lost);
    }

    lemma BoundedState(v: View, S: set<Id>, X: set<Id>)
      requires Bounded(v, S, X)
      ensures Bounded(v.(state := 1), S, X)
    {
    }

    lemma GrayDoneBase(w: World)
      requires w.v.state == 0
      ensures var w' := w.(v := w.v.(state := 1)); Usable(w') == Usable(w) && (Base(w) ==> Base(w'))
    {
      hide Typed, AllKnown, NoDup;
    }

    lemma GrayDonePhase(v: View, X: set<Id>)
      requires v.state == 0
      ensures var v' := v.(state := 1);
        && Listed(v', multiset{}) == Listed(v, multiset{})
        && (Tri(v, multiset{}, {}) ==> Tri(v', multiset{}, {}))
        && (Lists(v, X) ==> Lists(v', X)) && (Threads(v, {}) ==> Threads(v', {}))
    {
      hide PtrsIn, KeptOk, AllListable, Tables, Marked, UpValue;
      assert Listed(v.(state := 1), multiset{}) == Listed(v, multiset{});
      hide Listed;
    }

    lemma EnterAtomicState(w: World, v: View, S: set<Id>)
      requires Inv(w) && w.v.state == 1 && Bounds(w, S) && v == w.v.(state := 2)
      ensures !v.remarked && Phase(v.(state := 1), Usable(w), w.lost, multiset{}, {})
      ensures Bounded(v.(state := 1), S, w.lost)
      ensures forall i | 0 <= i < |w.refs| :: w.refs[i] in S
    {
      hide Inv, Phase, Usable, Bounded, Bounds;
      MarkingIs(w);
      BoundsIs(w, S);
      MarkingRest(w);
      assert v.(state := 1) == w.v;
    }

    /** The first two lines of state 1. */
    method MarkAtomically(ghost S: set<Id>) returns (ghost gone: set<Id>)
      requires Inv(All()) && state == 1 && Bounds(All(), S)
      modifies this`state, this`color, this`gray, this`debt, this`body, this`grayAgain, this`weak, this`ephemeron,
               this`allWeak, this`twups, this`refs, this`markedRefs, this`remarked
      ensures Finished(old(All()), All(), gone) && Marked(color) <= S
      ensures gone == body.Keys - (Marked(color) + Strings(old(body)))
      ensures StrongClosed(old(body), Marked(color) + Strings(old(body)), lost)
    {
      hide Inv, Phase, Usable, Weaker, Marked, Strings, Bounded, StrongClosed, Final, Within, Elems, Finished, Bounds;
      ghost var w := All();
      assert Untouched(w);
      hide Untouched;
      state := 2;
      EnterAtomicState(w, Snap(), S);
      ghost var k := FinishMarking(Usable(w), S, lost);
      gone := body.Keys - (Marked(color) + Strings(w.v.body));
      ElemsIn(w.refs, Marked(color));
      FinishedHere(w, gone, k);
    }

    ghost method FinishedHere(w: World, gone: set<Id>, k: Scope)
      requires Inv(w) && w.v.state == 1 && Untouched(w)
      requires refs == w.refs + w.markedRefs && markedRefs == []
      requires state == 2 && remarked && gray == []
      requires k.exempt == lost && k.rest == multiset{} && Within(Snap(), k, {})
      requires Marked(w.v.m.color) <= Marked(color) && Weaker(w.v.body, body, gone)
      requires forall x | x in Marked(color) :: Final(body, x, Marked(color), lost)
      requires Elems(w.refs) <= Marked(color)
      ensures Finished(w, All(), gone)
    {
      hide Inv, Within, Weaker, Final, Marked, Elems;
      assert Within(All().v, k, {});
    }

    lemma ElemsIn(l: seq<Id>, S: set<Id>)
      requires forall i | 0 <= i < |l| :: l[i] in S
      ensures Elems(l) <= S
    {
    }

    lemma BoundsIs(w: World, S: set<Id>)
      requires Bounds(w, S)
      ensures Bounded(w.v, S, w.lost) && forall i | 0 <= i < |w.refs| :: w.refs[i] in S
    {
      assert forall i | 0 <= i < |w.refs| :: w.refs[i] in Elems(w.refs);
    }

    lemma MarkingRest(w: World)
      requires Inv(w) && w.v.state == 1
      ensures !w.v.remarked
    {
    }

    /** The rest of state 1. */
    method BeginSweep(mark: Id)
      requires state == 2
      modifies this`state, this`currentWhite, this`body, this`color, this`debt, this`all, this`sweep, this`sweepMark,
               this`survivors, this`known
      ensures All() == AfterAtomic(old(All()), mark) && sweep.Some?
    {
      hide AfterAtomic;
      ghost var w := All();
      PlaceObject(mark, SweepMark, White(!currentWhite));
      StartSweep(mark);
      AfterAtomicIs(w, All(), mark);
    }

    lemma AfterAtomicIs(w1: World, w3: World, mark: Id)
      requires w3.v.body == w1.v.body[mark := SweepMark]
      requires w3.v.m.color == w1.v.m.color[mark := White(!w1.v.cw)]
      requires w3.v.cw == !w1.v.cw && w3.v.m.debt == w1.v.m.debt + 1
      requires w3.all == [mark] + w1.all && w3.left == |w1.all| && w3.sweepMark == None && w3.survivors == 0
      requires w3.known == w1.known + {mark} && w3.v.state == 3
      requires w1.v == w3.v.(state := w1.v.state, cw := w1.v.cw, body := w1.v.body,
                             m := w3.v.m.(color := w1.v.m.color, debt := w1.v.m.debt))
      requires w1 == w3.(v := w1.v, all := w1.all, left := w1.left, sweepMark := w1.sweepMark,
                         survivors := w1.survivors, known := w1.known)
      ensures w3 == AfterAtomic(w1, mark)
    {
    }

    method StartSweep(mark: Id)
      modifies this`state, this`currentWhite, this`all, this`sweep, this`sweepMark, this`survivors, this`known
      ensures all == [mark] + old(all) && sweep == Some(|old(all)|) && sweepMark == None
      ensures survivors == 0 && state == 3 && known == old(known) + {mark} && currentWhite == !old(currentWhite)
    {
      currentWhite := !currentWhite;
      sweep := Some(|all|);
      all := [mark] + all;
      sweepMark, survivors, state := None, 0, 3;
      known := known + {mark};
    }

    /** State 1. `mark` is the address of the sweep mark, new unless the last sweep kept one. What is
        marked becomes what a program can use; it is closed under the strong links there were, and
        within S; and table entries were removed only if they refer to an object outside it. */
    method Atomic(mark: Id, ghost S: set<Id>)
      requires Valid() && state == 1 && MarkOk(All(), mark) && Bounds(All(), S)
      modifies this`state, this`color, this`gray, this`debt, this`body, this`grayAgain, this`weak, this`ephemeron,
               this`allWeak, this`twups, this`refs, this`markedRefs, this`remarked, this`currentWhite, this`all,
               this`sweep, this`sweepMark, this`survivors, this`known, this`stray
      ensures state == 3 && sweep.Some? && body.Keys == old(body).Keys + {mark} && known == old(known) + {mark}
      ensures old(Roots(All())) <= Alive(All()) <= S
      ensures StrongClosed(old(body), Alive(All()) + Strings(old(body)), lost)
      ensures Weaker(old(body)[mark := SweepMark], body, old(body).Keys - (Alive(All()) + Strings(old(body))))
      ensures old(Marked(color)) <= Alive(All()) && lost == old(lost) && doomed == old(doomed)
      ensures stray == Strays(body, lost, Alive(All()))
      ensures Valid() ==> old(Roots(All())) !! stray
      ensures Alive(All()) <= old(Usable(All())) && old(Roots(All())) !! stray ==> Valid()
      ensures refs == old(refs) + old(markedRefs) && markedRefs == []
      ensures Finals(body, Alive(All()), lost)
    {
      hide Inv, Usable, Alive, Weaker, Marked, Strings, StrongClosed, Finished, AfterAtomic, Bounds, MarkOk, Roots, Finals,
        Strays;
      ghost var w := All();
      FreshMark(w, mark);
      ghost var gone := MarkAtomically(S);
      ghost var w1 := All();
      FinishedState(w, w1, gone);
      BeginSweep(mark);
      ghost var w3 := All();
      Mend();
      LostIs(w, w1, gone, mark);
      AtomicSets(w, w1, gone, mark);
      AtomicRoots(w, w1, gone);
      SameRefs(w, w1);
      SameRoots(w1, mark);
      MendedSets(w3);
      FinishedGrew(w, w1, gone);
      AtomicKeys(w, w1, gone, mark);
      AtomicFinals(w, w1, gone, mark);
      AtomicIff(w, w1, gone, mark);
    }

    ghost method Mend()
      modifies this`stray
      ensures All() == Mended(old(All()))
    {
      stray := Strays(body, lost, Alive(All()));
    }

    lemma FinishedState(w: World, w1: World, gone: set<Id>)
      requires Finished(w, w1, gone)
      ensures w1.v.state == 2 && w1.lost == w.lost && w1.known == w.known && w1.v.body.Keys == w.v.body.Keys
      ensures w1.doomed == w.doomed
      ensures w1.refs == w.refs + w.markedRefs && w1.markedRefs == []
    {
      WeakerKind(w.v.body, w1.v.body, gone);
    }

    lemma AtomicKeys(w: World, w1: World, gone: set<Id>, mark: Id)
      requires Weaker(w.v.body, w1.v.body, gone) && mark !in w.v.body
      ensures var w3 := AfterAtomic(w1, mark);
        && Weaker(w.v.body[mark := SweepMark], w3.v.body, gone)
        && w3.v.body.Keys == w.v.body.Keys + {mark} && w3.v.state == 3 && w3.lost == w1.lost
        && w3.known == w1.known + {mark}
    {
    }

    lemma AtomicIff(w: World, w1: World, gone: set<Id>, mark: Id)
      requires Finished(w, w1, gone) && MarkOk(w, mark)
      requires Roots(Mended(AfterAtomic(w1, mark))) == Roots(w)
      ensures var w4 := Mended(AfterAtomic(w1, mark));
        && (Inv(w4) ==> Roots(w) !! w4.stray)
        && (Marked(w1.v.m.color) <= Usable(w) && Roots(w) !! w4.stray ==> Inv(w4))
    {
      LostIs(w, w1, gone, mark);
      hide Inv, Usable, Weaker, Marked, Finished, AfterAtomic, MarkOk, Roots, Strays;
      if !(Roots(w) !! Mended(AfterAtomic(w1, mark)).stray) {
        AtomicBroken(Mended(AfterAtomic(w1, mark)));
      } else if Marked(w1.v.m.color) <= Usable(w) {
        AtomicDone(w, w1, gone, mark);
      }
    }

    /** State 1, with what it takes for the invariant to survive it. */
    method StepAtomic(mark: Id)
      requires Valid() && state == 1 && MarkOk(All(), mark)
      modifies this`state, this`color, this`gray, this`debt, this`body, this`grayAgain, this`weak, this`ephemeron,
               this`allWeak, this`twups, this`refs, this`markedRefs, this`remarked, this`currentWhite, this`all,
               this`sweep, this`sweepMark, this`survivors, this`known, this`stray
      ensures Collected(old(All()), All())
      ensures Valid() <==> MetaSound(old(All()), All())
      ensures Valid() ==> Move(old(All()), All())
      ensures state == 3
    {
      hide Inv, Usable, Alive, Weaker, Marked, Strings, StrongClosed, Bounds, MarkOk, Roots, Elems, Dead, Unreached,
        Least, Lighter, Finals, Strays, MetaSound;
      ghost var w := All();
      UsableBounds(w);
      LeastBounds(w, Usable(w));
      FreshMarkAgain(w, mark);
      Atomic(mark, Least(w));
      BegunHere(w, All(), mark);
      AliveIsLeast(w, All());
      SoundRoots(w, All());
    }

    lemma BegunHere(w: World, w': World, mark: Id)
      requires Bounds(w, Least(w)) && mark !in w.v.body && w'.v.state == 3
      requires Roots(w) <= Alive(w') <= Least(w) && Marked(w.v.m.color) <= Alive(w')
      requires StrongClosed(w.v.body, Alive(w') + Strings(w.v.body), w.lost)
      requires Weaker(w.v.body[mark := SweepMark], w'.v.body, w.v.body.Keys - (Alive(w') + Strings(w.v.body)))
      requires Finals(w'.v.body, Alive(w'), w.lost)
      ensures SweepBegun(w, w')
    {
      hide Finals, Bounds, StrongClosed, Strings, Alive, Marked, Roots;
      forall x | x in w.v.body
        ensures x in w'.v.body
        ensures WeakerBody(w.v.body[x], w'.v.body[x], w.v.body.Keys - (Alive(w') + Strings(w.v.body)))
      {
        WeakerBodyOf(w.v.body[mark := SweepMark], w'.v.body, w.v.body.Keys - (Alive(w') + Strings(w.v.body)), x);
      }
    }

    lemma UsableBounds(w: World)
      requires Inv(w) && w.v.state == 1
      ensures Bounds(w, Usable(w))
    {
      hide Typed, AllKnown, NoDup, Bounded, Tri, Lists, Threads, LinkClosed;
    }

    /** State 3. */
    method StepSweep()
      requires Valid() && state == 3
      modifies this`state, this`body, this`color, this`all, this`sweep, this`sweepMark, this`debt, this`doomed,
               this`survivors
      ensures Collect(old(All()), All())
      ensures state == (if old(sweep) == None then 8 else 3)
      ensures state == 3 && sweep.Some? ==> old(sweep).Some? && sweep.value < old(sweep).value
    {
      hide Inv, Dead, SameLive, Unreached;
      if sweep == None {
        EndSweep();
      } else {
        Sweep();
      }
    }

    method EndSweep()
      requires Valid() && state == 3 && sweep == None
      modifies this`state, this`debt
      ensures Collect(old(All()), All()) && state == 8
    {
      hide Inv, Dead, SameLive, Unreached;
      ghost var w := All();
      SameLiveRefl(body, Dead(w));
      SweptOut(w);
      debt := debt + survivors;
      state := 8;
      assert All() == w.(v := w.v.(state := 8, m := w.v.m.(debt := w.v.m.debt + w.survivors)));
    }

    lemma SweptOut(w: World)
      requires Inv(w) && w.v.state == 3 && w.left == 0
      ensures Inv(w.(v := w.v.(state := 8, m := w.v.m.(debt := w.v.m.debt + w.survivors))))
      ensures w.doomed <= w.v.body.Keys
    {
      hide Base, Sweeping, Idle;
      SweepInv(w);
      SweepEnds(w);
      DoomedExist(w);
    }

    /** Whether enough has been allocated since the last cycle to begin a new one. */
    predicate Due()
      requires survivors <= debt
      reads this`debt, this`survivors
    {
      debt - survivors >= survivors * 20 / 100
    }

    /** State 8. */
    method StepIdle()
      requires Valid() && state == 8
      modifies this`state, this`color, this`gray, this`debt, this`grayAgain, this`weak, this`ephemeron, this`allWeak,
               this`refs, this`markedRefs, this`remarked, this`doomed, this`lost, this`stray
      ensures Collect(old(All()), All())
      ensures state == if old(debt - survivors >= survivors * 20 / 100) then 0 else 8
    {
      hide Inv, Dead, Unreached, Usable, Reached;
      DoomedExist(All());
      IdleDebt(All());
      if Due() {
        StartCycle();
      }
    }

    method StepPropagate()
      requires Valid() && state == 0
      modifies this`state, this`color, this`gray, this`debt, this`body, this`grayAgain, this`weak, this`ephemeron,
               this`allWeak, this`twups
      ensures Collect(old(All()), All())
      ensures state == (if old(gray) == [] then 1 else 0)
      ensures state == 0 ==> Unpaid(Now()) < old(Unpaid(Now()))
    {
      hide Inv, Dead, Unreached, Weaker, Unpaid;
      ghost var w := All();
      DoomedExist(w);
      Propagate();
      SameKeys(w.v.body, body, {});
    }

    /** `step`. It keeps the invariant exactly if it leaves no dangling link (`AtomicSound`): marking has reached the
        metatables of those all-weak tables that got another one after the cycle had put them aside and that links
        still lead to. */
    method Step(mark: Id)
      requires Valid() && (state == 1 ==> MarkOk(All(), mark))
      modifies this
      ensures old(state) == 0 && state == 0 ==> Unpaid(Now()) < old(Unpaid(Now()))
      ensures old(state) == 3 && state == 3 && sweep.Some? ==> old(sweep).Some? && sweep.value < old(sweep).value
      ensures Valid() <==> (old(state) == 1 ==> MetaSound(old(All()), All()))
      ensures Collected(old(All()), All()) && (Valid() ==> Collect(old(All()), All()))
      ensures state == (match old(state)
                        case 8 => if old(debt - survivors >= survivors * 20 / 100) then 0 else 8
                        case 0 => if old(gray) == [] then 1 else 0
                        case 1 => 3
                        case _ => if old(sweep) == None then 8 else 3)
    {
      hide Inv, Move, MetaSound, MarkOk, Collected;
      StepStates(All());
      if state == 8 {
        StepIdle();
        MoveValid(old(All()), All());
      } else if state == 0 {
        StepPropagate();
        MoveValid(old(All()), All());
      } else if state == 1 {
        StepAtomic(mark);
      } else {
        StepSweep();
        MoveValid(old(All()), All());
      }
    }

    lemma MoveValid(w: World, w': World)
      requires Collect(w, w')
      ensures Inv(w')
    {
    }

    lemma StepStates(w: World)
      requires Inv(w)
      ensures w.v.state in {0, 1, 3, 8}
    {
    }

    lemma IdleDebt(w: World)
      requires Inv(w) && w.v.state == 8
      ensures w.survivors <= w.v.m.debt
    {
    }

    lemma FreshMarkAgain(w: World, mark: Id)
      requires MarkOk(w, mark) && Inv(w)
      ensures mark !in w.v.body && (mark !in w.known || w.sweepMark == Some(mark))
      ensures w.doomed * (w.v.body.Keys + {mark}) == w.doomed
    {
      DoomedExist(w);
    }

    // -------------------------------------------------------------------- the program

    /** `alloc`, and what the caller then puts into the new object. */
    method Alloc(x: Id, b: Body)
      requires Valid() && CanAlloc(All(), x, b)
      modifies this`body, this`color, this`debt, this`all, this`known
      ensures Program(old(All()), All()) && All() == AfterAlloc(old(All()), x, b)
      ensures Usable(All()) == old(Usable(All())) + {x}
    {
      hide Inv, CanAlloc, Usable, Move, AfterAlloc;
      ghost var w := All();
      AllocMove(w, x, b);
      AddObject(x, b);
    }

    method AddObject(x: Id, b: Body)
      modifies this`body, this`color, this`debt, this`all, this`known
      ensures All() == AfterAlloc(old(All()), x, b)
    {
      hide AfterAlloc;
      ghost var w := All();
      PlaceObject(x, b, White(currentWhite));
      ListObject(x);
      AfterAllocIs(w, All(), x, b);
    }

    method PlaceObject(x: Id, b: Body, c: Color)
      modifies this`body, this`color, this`debt
      ensures body == old(body)[x := b] && color == old(color)[x := c] && debt == old(debt) + 1
    {
      body, color := body[x := b], color[x := c];
      debt := debt + 1;
    }

    method ListObject(x: Id)
      modifies this`all, this`known
      ensures all == [x] + old(all) && known == old(known) + {x}
    {
      all := [x] + all;
      known := known + {x};
    }

    lemma AfterAllocIs(w: World, w': World, x: Id, b: Body)
      requires w'.v.body == w.v.body[x := b] && w'.v.m.color == w.v.m.color[x := White(w.v.cw)]
      requires w'.v.m.debt == w.v.m.debt + 1 && w'.all == [x] + w.all && w'.known == w.known + {x}
      requires w.v == w'.v.(body := w.v.body, m := w'.v.m.(color := w.v.m.color, debt := w.v.m.debt))
      requires w == w'.(v := w.v, all := w.all, known := w.known)
      ensures w' == AfterAlloc(w, x, b)
    {
    }

    lemma AllocMove(w: World, x: Id, b: Body)
      requires Inv(w) && CanAlloc(w, x, b)
      ensures Program(w, AfterAlloc(w, x, b)) && Usable(AfterAlloc(w, x, b)) == Usable(w) + {x}
    {
      hide Inv, Usable;
      AllocInv(w, x, b);
      MutatorMove(w, AfterAlloc(w, x, b));
    }

    /** `barrier`, called when a black object o gets a pointer to a white v. */
    method Barrier(o: Id, v: Id)
      requires Valid() && o in Usable(All()) && v in Usable(All())
      requires o in color && v in color && color[o].Black? && color[v].White?
      modifies this`color, this`gray, this`debt
      ensures Valid() && Usable(All()) == old(Usable(All())) && color.Keys == old(color).Keys
      ensures state <= 1 ==> !color[v].White? && color[o].Black? && Marked(old(color)) <= Marked(color)
      ensures state > 1 ==> color == old(color)[o := White(currentWhite)] && gray == old(gray) && debt == old(debt)
    {
      hide Inv, Usable, Burst, Ready, Marked, Base, Sweeping;
      ghost var w := All();
      if state <= 2 {
        BarrierMark(o, v);
      } else {
        BarrierRepaint(w, o);
        color := color[o := White(currentWhite)];
        RepaintUsable(w, All(), o);
        assert All() == w.(v := w.v.(m := w.v.m.(color := w.v.m.color[o := White(w.v.cw)])));
      }
    }

    method BarrierMark(ghost o: Id, v: Id)
      requires Inv(All()) && state <= 2 && v in Usable(All())
      requires o in color && v in color && !color[o].White? && color[v].White?
      modifies this`color, this`gray, this`debt
      ensures state <= 1
      ensures Inv(All()) && Usable(All()) == old(Usable(All())) && color.Keys == old(color).Keys
      ensures v in Marked(color) && !color[v].White? && color[o] == old(color)[o] && Marked(old(color)) <= Marked(color)
    {
      hide *;
      ghost var w := All();
      Here();
      BarrierReady(w);
      ghost var S := Usable(w);
      Mark(v, S);
      Here();
      BurstKeeps(body, w.v.m, Now(), S);
      StaysMarked(body, w.v.m, Now(), S, o);
      ColorMarked(color, v);
      BarrierBurst(w, Now());
      SameRest(w);
      OnlyMarks(w.v);
      MarksUsable(w, All());
    }

    lemma ColorMarked(C: Colors, x: Id)
      requires x in Marked(C)
      ensures x in C && !C[x].White?
    {
    }

    /** Marking changes nothing but the marks. */
    ghost method OnlyMarks(v: View)
      requires v.state == state && v.cw == currentWhite && v.body == body && v.again == grayAgain && v.weak == weak
      requires v.eph == ephemeron && v.allWeak == allWeak && v.twups == twups && v.remarked == remarked
      ensures Snap() == v.(m := Now())
    {
    }

    lemma StaysMarked(B: Bodies, m0: Marks, m: Marks, S: set<Id>, o: Id)
      requires Burst(B, m0, m, S)
      ensures o in m0.color && !m0.color[o].White? ==> o in m.color && m.color[o] == m0.color[o]
    {
      BurstKeeps(B, m0, m, S);
    }

    lemma MarksUsable(w: World, w': World)
      requires w.v.state <= 1 && w'.v.state == w.v.state && w'.doomed == w.doomed && w'.v.body == w.v.body
      ensures Usable(w') == Usable(w)
    {
    }

    lemma RepaintUsable(w: World, w': World, o: Id)
      requires o in w.v.m.color && w.v.m.color[o].Black?
      requires w' == w.(v := w.v.(m := w.v.m.(color := w.v.m.color[o := White(w.v.cw)])))
      ensures Usable(w') == Usable(w)
    {
      assert Dead(w') == Dead(w);
    }

    lemma BarrierReady(w: World)
      requires Inv(w) && w.v.state <= 2
      ensures w.v.state <= 1 && Ready(w.v.body, w.v.m, Usable(w))
      ensures forall x | x in Usable(w) :: x in w.v.body && !w.v.body[x].SweepMark?
    {
    }

    lemma BarrierBurst(w: World, m: Marks)
      requires Inv(w) && w.v.state <= 1 && Burst(w.v.body, w.v.m, m, Usable(w))
      ensures Inv(w.(v := w.v.(m := m)))
    {
      hide Base, Marking, Burst, Usable;
      BarrierMarking(w, m);
    }

    lemma BarrierRepaint(w: World, o: Id)
      requires Inv(w) && w.v.state > 2 && o in w.v.m.color && w.v.m.color[o].Black?
      ensures Inv(w.(v := w.v.(m := w.v.m.(color := w.v.m.color[o := White(w.v.cw)]))))
    {
      hide Base, Sweeping, LivePtrs, ThreadsListed;
      BlackSweeps(w, o);
      Repaint(w, o, White(w.v.cw));
    }

    lemma BlackSweeps(w: World, o: Id)
      requires Inv(w) && w.v.state > 2 && o in w.v.m.color && w.v.m.color[o].Black?
      ensures w.v.state == 3
    {
    }

    /** `barrier_back`, called when a black table or collection o gets a pointer to a white object. */
    method BarrierBack(o: Id)
      requires Valid() && o in body && o in color && color[o].Black? && (body[o].Table? || body[o].Func?)
      modifies this`color, this`grayAgain
      ensures Valid() && color == old(color)[o := Gray] && grayAgain == [o] + old(grayAgain)
    {
      hide Inv;
      BackInv(All(), o);
      color := color[o := Gray];
      grayAgain := [o] + grayAgain;
    }

    lemma BackInv(w: World, o: Id)
      requires Inv(w) && o in w.v.body && o in w.v.m.color && w.v.m.color[o].Black?
      requires w.v.body[o].Table? || w.v.body[o].Func?
      ensures Inv(w.(v := w.v.(m := w.v.m.(color := w.v.m.color[o := Gray]), again := [o] + w.v.again)))
    {
      hide Base, Marking, Sweeping, LivePtrs, ThreadsListed;
      if w.v.state <= 1 {
        BackMarking(w, o);
        assert Link(w.v, GrayAgain, o) == w.v.(m := w.v.m.(color := w.v.m.color[o := Gray]), again := [o] + w.v.again);
      } else {
        BlackSweeps(w, o);
        Repaint(w, o, Gray);
        AgainIdle(w.(v := w.v.(m := w.v.m.(color := w.v.m.color[o := Gray]))), [o] + w.v.again);
      }
    }

    /** A store into a table or collection: if o is black and the new pointer is to a white object,
        o goes back to gray. */
    method StoreBack(o: Id, b: Body, v: Value)
      requires Valid() && CanRewrite(All(), o, b, Target(v)) && o in Usable(All())
      requires body[o].Table? || body[o].Func?
      modifies this`body, this`color, this`grayAgain, this`lost
      ensures Program(old(All()), All()) && body == old(body)[o := b]
      ensures color == old(if NeedsBarrier(color, o, v) then color[o := Gray] else color)
      ensures grayAgain == old(if NeedsBarrier(color, o, v) then [o] + grayAgain else grayAgain)
    {
      hide Inv, CanRewrite, Usable, Move;
      ghost var w := All();
      CanRewriteIs(w, o, b, v);
      if NeedsBarrier(color, o, v) {
        BarrierBack(o);
        BackUsable(w, All(), o);
        CanRewriteSame(w, All(), o, b, Target(v));
      }
      Rewrite(o, b, v);
      StoreMove(w, All());
    }

    /** A store into a closed upvalue, a userdata, a closure or prototype, or of a metatable: if o is
        black and the new pointer is to a white object, that is marked. */
    method StoreForward(o: Id, b: Body, v: Value)
      requires Valid() && CanRewrite(All(), o, b, Target(v)) && o in Usable(All())
      modifies this`body, this`color, this`gray, this`debt, this`lost
      ensures Program(old(All()), All()) && body == old(body)[o := b]
      ensures !old(NeedsBarrier(color, o, v)) ==> color == old(color) && gray == old(gray) && debt == old(debt)
      ensures Valid() && lost == old(lost) + Strayed(Snap())
      ensures state <= 1 ==> Marked(old(color)) <= Marked(color)
    {
      hide Inv, CanRewrite, Usable, Move, Strayed, Burst, Marked;
      ghost var w := All();
      CanRewriteIs(w, o, b, v);
      if NeedsBarrier(color, o, v) {
        Barrier(o, v.id);
        CanRewriteSame(w, All(), o, b, Target(v));
        CanRewriteIs(All(), o, b, v);
      }
      Rewrite(o, b, v);
      StoreMove(w, All());
    }

    ghost function Target(v: Value): set<Id> {
      if v.Obj? then {v.id} else {}
    }

    predicate NeedsBarrier(C: Colors, o: Id, v: Value)
      requires o in C && (v.Obj? ==> v.id in C)
    {
      v.Obj? && C[o].Black? && C[v.id].White?
    }

    /** The store itself. */
    method Rewrite(o: Id, b: Body, ghost v: Value)
      requires Valid() && CanRewrite(All(), o, b, Target(v))
      requires o in color && (v.Obj? ==> v.id in color)
      requires state <= 1 ==> !NeedsBarrier(color, o, v)
      modifies this`body, this`lost
      ensures Valid() && body == old(body)[o := b] && lost == old(lost) + Strayed(Snap())
    {
      hide Inv, CanRewrite, Strayed, Base;
      ghost var w := All();
      TargetMarked(color, v);
      RewriteInv(w, o, b, Target(v));
      body := body[o := b];
      lost := lost + Strayed(Snap());
      assert All() == AfterRewrite(w, o, b);
    }

    lemma TargetMarked(C: Colors, v: Value)
      ensures v.Obj? && v.id in C && !C[v.id].White? ==> Target(v) <= Marked(C)
      ensures !v.Obj? ==> Target(v) <= Marked(C)
    {
    }

    lemma CanRewriteIs(w: World, o: Id, b: Body, v: Value)
      requires Inv(w) && CanRewrite(w, o, b, Target(v))
      ensures o in w.v.body && o in w.v.m.color && w.v.body.Keys == w.v.m.color.Keys
      ensures v.Obj? ==> v.id in Usable(w) && v.id in w.v.m.color
    {
      KeysAre(w);
      hide Inv, Narrow;
    }

    lemma CanRewriteSame(w: World, w': World, o: Id, b: Body, E: set<Id>)
      requires CanRewrite(w, o, b, E) && w'.v.body == w.v.body && Usable(w') == Usable(w)
      ensures CanRewrite(w', o, b, E)
    {
      hide Narrow;
    }

    lemma BackUsable(w: World, w': World, o: Id)
      requires o in w.v.m.color && w.v.m.color[o].Black?
      requires w' == w.(v := w.v.(m := w'.v.m, again := w'.v.again)) && w'.v.m.color == w.v.m.color[o := Gray]
      ensures Usable(w') == Usable(w)
    {
      assert Dead(w') == Dead(w);
    }

    lemma StoreMove(w: World, w': World)
      requires Inv(w) && Inv(w') && w'.v.state == w.v.state && w'.doomed == w.doomed && w.known == w'.known
      requires w.v.body.Keys == w'.v.body.Keys
      ensures Program(w, w')
    {
      hide Inv;
      MutatorMove(w, w');
    }

    /** A table gets another metatable. A table that this cycle has put aside as all-weak is gray, so
        no barrier runs: unless its metatable is all-weak and marked, it is lost. */
    method SetMetatable(t: Id, mt: Option<Id>)
      requires Valid() && t in Usable(All()) && t in body && body[t].Table?
      requires mt.Some? ==> mt.value in Usable(All()) && mt.value in body && body[mt.value].Table?
      modifies this`body, this`color, this`gray, this`debt, this`lost
      ensures Program(old(All()), All()) && body == old(body)[t := old(body[t]).(mt := mt)]
      ensures lost == old(lost) + (if state <= 1 && t in allWeak && !KeptOk(body, color, t) then {t} else {})
    {
      hide Inv, Move, Usable, Strayed, Burst, Marked, Lists;
      ghost var w := All();
      var v := if mt.Some? then Obj(mt.value) else Nil;
      MetaRewrite(w, t, mt);
      KeysAre(w);
      if state <= 1 {
        ListsOf(w);
      }
      StoreForward(t, body[t].(mt := mt), v);
      MetaStrayed(w.v, Snap(), w.lost, t);
    }

    lemma MetaRewrite(w: World, t: Id, mt: Option<Id>)
      requires Inv(w) && t in w.v.body && w.v.body[t].Table?
      requires mt.Some? ==> mt.value in Usable(w) && mt.value in w.v.body && w.v.body[mt.value].Table?
      ensures CanRewrite(w, t, w.v.body[t].(mt := mt), Target(if mt.Some? then Obj(mt.value) else Nil))
    {
      hide Marking, Sweeping, Idle, Usable, AllKnown, NoDup;
      assert TypedBody(w.v.body, t);
    }

    lemma ListsOf(w: World)
      requires Inv(w) && w.v.state <= 1
      ensures Lists(w.v, w.lost)
    {
    }

    lemma MetaStrayed(v: View, v': View, X: set<Id>, t: Id)
      requires v.state <= 1 ==> Lists(v, X) && Marked(v.m.color) <= Marked(v'.m.color)
      requires v'.state == v.state && v'.allWeak == v.allWeak
      requires t in v.body && v.body[t].Table? && t in v'.body && v'.body == v.body[t := v'.body[t]]
      requires v'.body[t].Table? && v'.body[t].mode == v.body[t].mode
      ensures X + Strayed(v') ==
        X + (if v.state <= 1 && t in v.allWeak && !KeptOk(v'.body, v'.m.color, t) then {t} else {})
    {
      hide Marked, AllListable;
      if v.state <= 1 {
        forall x | x in v.allWeak && x !in X && x != t ensures KeptOk(v'.body, v'.m.color, x) {
          assert KeptOk(v.body, v.m.color, x);
        }
      }
    }

    /** Writes to the stack of a thread; there is no barrier. */
    method WriteStack(th: Id, st: seq<Value>)
      requires Valid() && CanWrite(All(), th, st)
      modifies this`body
      ensures Program(old(All()), All()) && old(th in body && body[th].Thread?) && body == Stacked(old(body), th, st)
    {
      hide Inv, CanWrite, Move;
      ghost var w := All();
      WriteInv(w, th, st);
      body := Stacked(body, th, st);
      assert All() == AfterWrite(w, th, st);
      StoreMove(w, All());
    }

    /** `newupval`. */
    method NewUpval(u: Id, th: Id, slot: nat)
      requires Valid() && CanOpen(All(), u, th, slot)
      modifies this`body, this`color, this`debt, this`all, this`known, this`twups
      ensures Program(old(All()), All()) && Usable(All()) == old(Usable(All())) + {u}
      ensures old(th in body && body[th].Thread?) && body == Opened(old(body), u, th, slot) && th in twups
    {
      hide Inv, CanOpen, Usable, Move, Opened, AfterOpen;
      ghost var w := All();
      OpenInv(w, u, th, slot);
      OpenMove(w, u, th, slot);
      AddUpval(u, th, slot);
    }

    method AddUpval(u: Id, th: Id, slot: nat)
      requires th in body && body[th].Thread?
      modifies this`body, this`color, this`debt, this`all, this`known, this`twups
      ensures All() == AfterOpen(old(All()), u, th, slot)
      ensures body == Opened(old(body), u, th, slot) && th in twups
    {
      hide Opened, AfterOpen;
      ghost var w := All();
      PlaceUpval(u, th, slot);
      ListObject(u);
      AfterOpenIs(w, All(), u, th, slot);
    }

    method PlaceUpval(u: Id, th: Id, slot: nat)
      requires th in body && body[th].Thread?
      modifies this`body, this`color, this`debt, this`twups
      ensures body == Opened(old(body), u, th, slot) && color == old(color)[u := White(currentWhite)]
      ensures debt == old(debt) + 1
      ensures twups == (if th in old(twups) then old(twups) else [th] + old(twups)) && th in twups
    {
      body, color := Opened(body, u, th, slot), color[u := White(currentWhite)];
      debt := debt + 1;
      if th !in twups {
        twups := [th] + twups;
      }
    }

    lemma AfterOpenIs(w: World, w': World, u: Id, th: Id, slot: nat)
      requires th in w.v.body && w.v.body[th].Thread?
      requires w'.v.body == Opened(w.v.body, u, th, slot) && w'.v.m.color == w.v.m.color[u := White(w.v.cw)]
      requires w'.v.twups == if th in w.v.twups then w.v.twups else [th] + w.v.twups
      requires w'.v.m.debt == w.v.m.debt + 1 && w'.all == [u] + w.all && w'.known == w.known + {u}
      requires w.v == w'.v.(body := w.v.body, twups := w.v.twups, m := w'.v.m.(color := w.v.m.color, debt := w.v.m.debt))
      requires w == w'.(v := w.v, all := w.all, known := w.known)
      ensures w' == AfterOpen(w, u, th, slot)
    {
      hide Opened;
    }

    lemma OpenMove(w: World, u: Id, th: Id, slot: nat)
      requires Inv(w) && CanOpen(w, u, th, slot) && th in w.v.body && w.v.body[th].Thread?
      requires Inv(AfterOpen(w, u, th, slot))
      ensures Program(w, AfterOpen(w, u, th, slot))
    {
      hide Inv, Usable;
      MutatorMove(w, AfterOpen(w, u, th, slot));
    }

    /** `luaF_closeupval` on one upvalue: it takes the value of its slot along, turns from gray to
        black, and the barrier marks the value if that is still white. */
    method CloseUpval(u: Id)
      requires Valid() && u in Usable(All()) && u in body && body[u].OpenUp?
      modifies this`body, this`color, this`gray, this`debt
      ensures Program(old(All()), All())
      ensures old(body[u].th in body && body[body[u].th].Thread?) && body == Closed(old(body), u)
    {
      hide Inv, Usable, Move, Closed, UpValue, Burst, Ready, Dead, Marked, Typed;
      ghost var w := All();
      TypedOf(w);
      CloseValue(w, u);
      ClosedKeys(body, u);
      StepStates(w);
      if state > 2 {
        CloseLate(u);
      } else {
        MarkUpValue(u);
        CloseEarly(u);
      }
      StoreMove(w, All());
    }

    /** The barrier for the value of an upvalue about to be closed. */
    method MarkUpValue(u: Id)
      requires Valid() && state <= 1 && u in Usable(All()) && u in body && body[u].OpenUp?
      modifies this`color, this`gray, this`debt
      ensures Valid() && u in color && (!color[u].White? ==> VIn(UpValue(body, body[u]), Marked(color)))
    {
      hide Inv, Usable, UpValue, Burst, Ready, Marked;
      ghost var w := All();
      CloseValue(w, u);
      BarrierReady(w);
      var v := UpValue(body, body[u]);
      if !color[u].White? && v.Obj? && color[v.id].White? {
        BarrierMark(u, v.id);
      } else if !color[u].White? {
        ValueMarked(color, v);
      }
    }

    lemma ValueMarked(C: Colors, v: Value)
      requires v.Obj? ==> v.id in C && !C[v.id].White?
      ensures VIn(v, Marked(C))
    {
    }

    lemma CloseValue(w: World, u: Id)
      requires Inv(w) && u in Usable(w) && u in w.v.body && w.v.body[u].OpenUp?
      ensures var v := UpValue(w.v.body, w.v.body[u]);
        v.Obj? ==> v.id in Usable(w) && v.id in w.v.body && v.id in w.v.m.color && !IsUpVal(w.v.body[v.id])
      ensures u in w.v.m.color
    {
      UsableClosed(w);
      KeysAre(w);
      TypedOf(w);
      hide Inv;
      assert LinksIn(w.v.body, w.v.body[u], Usable(w));
      assert TypedBody(w.v.body, u);
      assert TypedBody(w.v.body, w.v.body[u].th);
    }

    /** While marking; the value is marked if the upvalue is. */
    method CloseEarly(u: Id)
      requires Valid() && state <= 1 && u in body && body[u].OpenUp? && u in color
      requires !color[u].White? ==> VIn(UpValue(body, body[u]), Marked(color))
      modifies this`body, this`color
      ensures Valid() && old(body[u].th in body && body[body[u].th].Thread?) && body == Closed(old(body), u)
    {
      hide Inv, Closed, UpValue, Marked;
      ghost var w := All();
      var c := if color[u].White? then color[u] else Black;
      CloseNow(w, u, c);
      CloseAs(u, c);
    }

    lemma CloseNow(w: World, u: Id, c: Color)
      requires Inv(w) && w.v.state <= 1 && u in w.v.body && w.v.body[u].OpenUp? && u in w.v.m.color
      requires if w.v.m.color[u].White? then c == w.v.m.color[u]
               else c.Black? && VIn(UpValue(w.v.body, w.v.body[u]), Marked(w.v.m.color))
      ensures w.v.body[u].th in w.v.body && w.v.body[w.v.body[u].th].Thread?
      ensures Inv(AfterClose(w, u, c))
    {
      hide Base, Marking, Closed, UpValue, Marked;
      CloseMarking(w, u, c);
    }

    method CloseLate(u: Id)
      requires Valid() && state > 2 && u in body && body[u].OpenUp? && u in color
      modifies this`body, this`color
      ensures Valid() && old(body[u].th in body && body[body[u].th].Thread?) && body == Closed(old(body), u)
    {
      hide Inv, Closed, Dead;
      ghost var w := All();
      if state == 3 {
        CloseWhileSweeping(u);
      } else {
        IdleColor(w, u);
        CloseInv(w, u, color[u]);
        CloseAs(u, color[u]);
      }
    }

    lemma IdleColor(w: World, u: Id)
      requires Inv(w) && w.v.state > 2 && w.v.state != 3
      ensures w.v.state == 8
    {
    }

    // -------------------------------------------------------------------- strong references

    /** The first strong reference to o. */
    method AddRef(o: Id)
      requires Valid() && o in Usable(All()) && o !in refs && o !in markedRefs
      modifies this`refs
      ensures Program(old(All()), All()) && refs == [o] + old(refs)
    {
      hide Inv, Usable, Move;
      ghost var w := All();
      AddedRef(w, o);
      refs := [o] + refs;
      StoreMove(w, All());
    }

    lemma AddedRef(w: World, o: Id)
      requires Inv(w) && o in Usable(w) && o !in w.refs && o !in w.markedRefs
      ensures Inv(w.(refs := [o] + w.refs))
    {
      hide Inv, Usable, NoDup;
      RefsOf(w);
      assert [o] + w.refs + w.markedRefs == [o] + (w.refs + w.markedRefs);
      AllocList(w.refs + w.markedRefs, o);
      assert Elems([o] + w.refs) == {o} + Elems(w.refs);
      RefsInv(w, [o] + w.refs, w.markedRefs);
      assert w.(refs := [o] + w.refs, markedRefs := w.markedRefs) == w.(refs := [o] + w.refs);
    }

    lemma RefsOf(w: World)
      requires Inv(w)
      ensures NoDup(w.refs + w.markedRefs) && Elems(w.refs) <= Usable(w)
    {
    }

    /** The last strong reference to o is dropped; o is in one part of the list or the other. */
    method DelRef(o: Id)
      requires Valid()
      modifies this`refs, this`markedRefs
      ensures Program(old(All()), All())
      ensures refs == Minus(old(refs), o) && markedRefs == Minus(old(markedRefs), o)
    {
      hide Inv, Move;
      ghost var w := All();
      DroppedRef(w, o);
      refs := Minus(refs, o);
      markedRefs := Minus(markedRefs, o);
      StoreMove(w, All());
    }

    lemma DroppedRef(w: World, o: Id)
      requires Inv(w)
      ensures Inv(w.(refs := Minus(w.refs, o), markedRefs := Minus(w.markedRefs, o)))
      ensures Elems(Minus(w.refs, o)) == Elems(w.refs) - {o}
      ensures Elems(Minus(w.markedRefs, o)) == Elems(w.markedRefs) - {o}
    {
      RefsOf(w);
      hide Inv, Usable;
      MinusParts(w.refs, w.markedRefs, o);
      MinusElems(w.refs + w.markedRefs, o);
      NoDupParts(w.refs, w.markedRefs);
      MinusElems(w.refs, o);
      MinusElems(w.markedRefs, o);
      RefsInv(w, Minus(w.refs, o), Minus(w.markedRefs, o));
    }

    lemma NoDupParts(a: seq<Id>, b: seq<Id>)
      requires NoDup(a + b)
      ensures NoDup(a) && NoDup(b)
    {
      assert forall i | 0 <= i < |a| :: (a + b)[i] == a[i];
      assert forall i | 0 <= i < |b| :: (a + b)[i + |a|] == b[i];
    }

    /** `resurrect`: interning finds a dead string that the sweep has not reached. */
    method Resurrect(x: Id)
      requires Valid() && x in body && body[x].Str?
      modifies this`color
      ensures Program(old(All()), All()) && x in Usable(All())
    {
      hide Inv, Usable, Move, Dead;
      ghost var w := All();
      KeysAre(w);
      StringWhite(w, x);
      if color[x] == White(!currentWhite) {
        ResurrectInv(w, x);
        color := color[x := White(currentWhite)];
        assert All() == AfterResurrect(w, x);
      }
      StoreMove(w, All());
    }

    lemma StringWhite(w: World, x: Id)
      requires Inv(w) && x in w.v.body && w.v.body[x].Str? && x in w.v.m.color
      ensures if w.v.m.color[x] == White(!w.v.cw) then w.v.state == 3 && x in Dead(w) else x in Usable(w)
    {
    }

    /** A collector whose only object is the root, the main thread. */
    constructor (root: Id)
      ensures Valid() && state == 8 && lost == {} && this.root == root
    {
      state, currentWhite := 8, false;
      body, color := map[root := Thread([], [])], map[root := White(false)];
      gray, grayAgain, weak, ephemeron, allWeak, twups := [], [], [], [], [], [];
      refs, markedRefs := [], [];
      this.root := root;
      all, sweep, sweepMark := [root], None, None;
      survivors, debt := 0, 1;
      remarked, known, doomed, lost, stray := false, {root}, {}, {}, {};
    }
  }
}
