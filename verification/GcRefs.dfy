/** The collector's lists of strong references are those of the reference counts, so what is counted is safe. */
module GcRefs {
  import opened Basics
  import opened GcHeap
  import opened GcWorld
  import opened GcCycle
  import opened GcSafety
  import I = Intrusive
  import S = StrongRefs

  /** The collector sees exactly the lists that the reference counts keep. */
  ghost predicate Joined(w: World, v: S.View) {
    w.refs == v.recent && w.markedRefs == v.held && S.ViewOk(v)
  }

  /** A new reference is `AddRef` for the first one and nothing to the collector for the others. */
  lemma HoldJoined(w: World, v: S.View, o: Id)
    requires Joined(w, v)
    ensures S.CountIn(v.count, o) == 0 ==>
      && o !in w.refs && o !in w.markedRefs
      && Joined(w.(refs := [o] + w.refs), S.Apply(v, S.Hold(o)))
    ensures S.CountIn(v.count, o) > 0 ==> Joined(w, S.Apply(v, S.Hold(o)))
  {
    S.ApplyKeeps(v, S.Hold(o));
    assert S.CountIn(v.count, o) == 0 ==> o !in v.recent + v.held;
    hide I.Distinct;
  }

  /** The end of the last reference is `DelRef`. */
  lemma DropJoined(w: World, v: S.View, o: Id)
    requires Joined(w, v)
    ensures S.CountIn(v.count, o) == 1 ==>
      Joined(w.(refs := Minus(w.refs, o), markedRefs := Minus(w.markedRefs, o)), S.Apply(v, S.Drop(o)))
    ensures S.CountIn(v.count, o) != 1 ==> Joined(w, S.Apply(v, S.Drop(o)))
  {
    S.ApplyKeeps(v, S.Drop(o));
    hide I.Distinct;
  }

  /** What the collector's own steps make of the lists: the start of a cycle moves them to `markedRefs`, as
      `BeginCycle` does, and the end of marking joins them, as `Rejoin` does. */
  ghost function Stepped(w: World, w': World, v: S.View): S.View {
    if Starts(w, w') then S.View(v.count, [], v.recent)
    else if w.v.state == 1 then S.View(v.count, v.recent + v.held, [])
    else v
  }

  lemma SteppedLists(w: World, w': World, v: S.View)
    requires Collect(w, w') && Joined(w, v)
    ensures var u := Stepped(w, w', v);
      && u.count == v.count && u.recent + u.held == v.recent + v.held
      && w'.refs == u.recent && w'.markedRefs == u.held && S.ViewOk(v)
  {
    StatesAfter(w, w');
    hide Inv, S.ViewOk, SweepBegun, SameLive, Weaker, Dead, Usable;
    assert w.v.state == 8 ==> v.held == [];
  }

  lemma JoinedBy(w: World, u: S.View)
    requires w.refs == u.recent && w.markedRefs == u.held && S.ViewOk(u)
    ensures Joined(w, u)
  {
  }

  lemma StepJoined(w: World, w': World, v: S.View)
    requires Collect(w, w') && Joined(w, v)
    ensures Joined(w', Stepped(w, w', v))
  {
    hide *;
    var u := Stepped(w, w', v);
    SteppedLists(w, w', v);
    S.SameView(v, u);
    JoinedBy(w', u);
  }

  /** An object that is counted can be used, in every state, and a step of the collector leaves it so. */
  lemma CountedSafe(w: World, w': World, v: S.View, o: Id)
    requires Collect(w, w') && Joined(w, v) && S.CountIn(v.count, o) > 0
    ensures o in Usable(w) && o in Usable(w') && o in w'.v.body
  {
    assert o in v.recent + v.held;
    StatesAfter(w, w');
    RootsKept(w, w');
    RootsUsable(w);
    RootsUsable(w');
    hide Inv, Usable, S.ViewOk;
  }

  lemma RootsUsable(w: World)
    requires Inv(w)
    ensures Roots(w) <= Usable(w) <= w.v.body.Keys
  {
    IdsKnown(w);
    hide Typed, AllKnown, NoDup;
  }
}
