/** The object graph the collector works on: bodies, colours, the pointers a body holds, and
    what it means for a set of objects to be closed under them.
 */
module GcHeap {
  import opened Basics

  /** `White(bit)` carries which of the two white bits is set; the other colours have neither. */
  datatype Color = White(bit: bool) | Gray | Black

  /** A tagged Lua value. `DeadKey` is tag 11, the key of an entry whose key object may be gone. */
  datatype Value = Nil | Prim | DeadKey | Obj(id: Id)

  /** A node of the hash part of a table. */
  datatype Entry = Entry(key: Value, val: Value)

  /** What the `__mode` field of a table says to the tables that have it as metatable. */
  datatype Mode = Mode(weakKeys: bool, weakValues: bool)

  /** `Func` stands for the four kinds that are just a row of strong slots: Lua and Rust closures,
      prototypes and Rust collections. An open upvalue has its value in a stack slot. */
  datatype Body =
    | Str
    | RustId
    | SweepMark
    | ClosedUp(v: Value)
    | OpenUp(th: Id, slot: nat)
    | UserData(props: Option<Id>, meta: Option<Id>)
    | Func(slots: seq<Value>)
    | Table(mt: Option<Id>, mode: Mode, arr: seq<Value>, nodes: seq<Entry>)
    | Thread(stack: seq<Value>, open: seq<Id>)

  type Bodies = map<Id, Body>
  type Colors = map<Id, Color>

  /** The kinds that go through a gray list instead of being finished by `mark` itself. */
  predicate Listable(b: Body) {
    b.Func? || b.Table? || b.Thread?
  }

  predicate IsUpVal(b: Body) {
    b.ClosedUp? || b.OpenUp?
  }

  /** How deep `mark` can recurse from an object of this kind. */
  function Rank(b: Body): nat {
    if IsUpVal(b) then 2 else if b.UserData? then 1 else 0
  }

  // ---------------------------------------------------------------------- pointers

  ghost predicate VIn(v: Value, S: set<Id>) {
    v.Obj? ==> v.id in S
  }

  ghost predicate OIn(o: Option<Id>, S: set<Id>) {
    o.Some? ==> o.value in S
  }

  ghost predicate AllIn(vs: seq<Value>, S: set<Id>) {
    forall i | 0 <= i < |vs| :: VIn(vs[i], S)
  }

  /** The value an upvalue gives access to. */
  function UpValue(B: Bodies, b: Body): Value
    requires IsUpVal(b)
  {
    match b
    case ClosedUp(v) => v
    case OpenUp(th, slot) =>
      if th in B && B[th].Thread? && slot < |B[th].stack| then B[th].stack[slot] else Nil
  }

  /** The mode a table is traversed with: its metatable's. */
  function ModeOf(B: Bodies, b: Body): Mode
    requires b.Table?
  {
    if b.mt.Some? && b.mt.value in B && B[b.mt.value].Table? then B[b.mt.value].mode
    else Mode(false, false)
  }

  ghost predicate NodePtrsIn(e: Entry, S: set<Id>) {
    VIn(e.key, S) && VIn(e.val, S)
  }

  /** Every pointer stored in the body, also the key of an emptied entry, is to a member of S. */
  ghost predicate PtrsIn(B: Bodies, b: Body, S: set<Id>) {
    match b
    case Str | RustId | SweepMark => true
    case ClosedUp(_) | OpenUp(_, _) => VIn(UpValue(B, b), S)
    case UserData(props, meta) => OIn(props, S) && OIn(meta, S)
    case Func(slots) => AllIn(slots, S)
    case Table(mt, _, arr, nodes) =>
      && OIn(mt, S)
      && AllIn(arr, S)
      && (forall i | 0 <= i < |nodes| :: NodePtrsIn(nodes[i], S))
    case Thread(stack, open) => AllIn(stack, S) && (forall i | 0 <= i < |open| :: open[i] in S)
  }

  /** Every link a program can follow, weak ones included, is to a member of S. */
  ghost predicate LinksIn(B: Bodies, b: Body, S: set<Id>) {
    if b.Table? then
      && OIn(b.mt, S)
      && AllIn(b.arr, S)
      && (forall i | 0 <= i < |b.nodes| && !b.nodes[i].val.Nil? :: NodePtrsIn(b.nodes[i], S))
    else PtrsIn(B, b, S)
  }

  ghost predicate StrongNode(m: Mode, e: Entry, S: set<Id>) {
    !e.val.Nil? ==>
      && (!m.weakKeys ==> VIn(e.key, S))
      && (!m.weakValues && (m.weakKeys ==> VIn(e.key, S)) ==> VIn(e.val, S))
  }

  /** Every strong link is to a member of S; the value of an ephemeron entry counts as strongly
      held once its key is in S (section 2.5.4 of the Lua 5.4 Reference Manual). */
  ghost predicate StrongIn(B: Bodies, b: Body, S: set<Id>) {
    if b.Table? then
      var m := ModeOf(B, b);
      && OIn(b.mt, S)
      && (!m.weakValues ==> AllIn(b.arr, S))
      && (forall i | 0 <= i < |b.nodes| :: StrongNode(m, b.nodes[i], S))
    else PtrsIn(B, b, S)
  }

  ghost predicate HasStrings(B: Bodies, S: set<Id>) {
    forall x | x in B && B[x].Str? :: x in S
  }

  /** S contains the strings and is closed under strong links of its members outside X. */
  ghost predicate StrongClosed(B: Bodies, S: set<Id>, X: set<Id>) {
    && HasStrings(B, S)
    && forall x | x in B && x in S && x !in X :: StrongIn(B, B[x], S)
  }

  /** S is closed under all links of its members. */
  ghost predicate LinkClosed(B: Bodies, S: set<Id>) {
    forall x | x in B && x in S :: LinksIn(B, B[x], S)
  }

  // ---------------------------------------------------------------------- well-formedness

  ghost predicate IsValue(B: Bodies, v: Value) {
    v.Obj? && v.id in B ==> !IsUpVal(B[v.id])
  }

  /** A pointer to a table. What it points at may have been freed, and a sweep mark may be there now. */
  ghost predicate IsTable(B: Bodies, o: Option<Id>) {
    o.Some? && o.value in B ==> B[o.value].Table? || B[o.value].SweepMark?
  }

  ghost predicate TypedBody(B: Bodies, x: Id)
    requires x in B
  {
    match B[x]
    case ClosedUp(v) => IsValue(B, v)
    case OpenUp(th, slot) =>
      th in B && B[th].Thread? && slot < |B[th].stack| && x in B[th].open
    case UserData(props, meta) =>
      && IsTable(B, props) && IsTable(B, meta)
    case Table(mt, _, arr, nodes) =>
      && IsTable(B, mt)
      && (forall i | 0 <= i < |arr| :: IsValue(B, arr[i]))
      && (forall i | 0 <= i < |nodes| :: IsValue(B, nodes[i].key) && IsValue(B, nodes[i].val))
    case Thread(stack, open) =>
      && (forall i | 0 <= i < |stack| :: IsValue(B, stack[i]))
      && (forall i | 0 <= i < |open| :: open[i] in B && B[open[i]].OpenUp? && B[open[i]].th == x)
      && (forall i, j | 0 <= i < j < |open| :: open[i] != open[j])
    case _ => true
  }

  ghost predicate Typed(B: Bodies) {
    forall x | x in B :: TypedBody(B, x)
  }

  /** No object of S holds a pointer to something that does not exist. */
  ghost predicate Grounded(B: Bodies, S: set<Id>) {
    forall x | x in B && x in S :: PtrsIn(B, B[x], B.Keys)
  }

  // ---------------------------------------------------------------------- colours

  function Whites(C: Colors): set<Id> {
    set x | x in C && C[x].White?
  }

  function Marked(C: Colors): set<Id> {
    set x | x in C && !C[x].White?
  }

  /** The objects that carry the white bit `bit`. */
  function WhitesOf(C: Colors, bit: bool): set<Id> {
    set x | x in C && C[x] == White(bit)
  }

  lemma WhitesRecolored(C: Colors, x: Id, c: Color)
    requires x in C && C[x].White? && !c.White?
    ensures Whites(C[x := c]) == Whites(C) - {x}
    ensures |Whites(C[x := c])| == |Whites(C)| - 1
  {
    assert Whites(C[x := c]) == Whites(C) - {x};
  }

  lemma PtrsMono(B: Bodies, b: Body, S: set<Id>, T: set<Id>)
    requires S <= T && PtrsIn(B, b, S)
    ensures PtrsIn(B, b, T)
  {
  }

  // ---------------------------------------------------------------------- weaker bodies

  ghost predicate ValWeaker(v: Value, v': Value, gone: set<Id>) {
    v' == v || (v'.Nil? && v.Obj? && v.id in gone)
  }

  ghost predicate RefersTo(e: Entry, gone: set<Id>) {
    (e.key.Obj? && e.key.id in gone) || (e.val.Obj? && e.val.id in gone)
  }

  /** An entry whose value is removed loses a pointer in its key too (`clear_key`). */
  function Emptied(e: Entry): Entry {
    Entry(if e.key.Obj? then DeadKey else e.key, Nil)
  }

  /** An entry is only emptied if it was empty already or refers to `gone`. */
  ghost predicate EntryWeaker(e: Entry, e': Entry, gone: set<Id>) {
    e' == e || (e' == Emptied(e) && (e.val.Nil? || RefersTo(e, gone)))
  }

  ghost predicate WeakerBody(b: Body, b': Body, gone: set<Id>) {
    || b' == b
    || (&& b.Table? && b'.Table? && b'.mt == b.mt && b'.mode == b.mode
        && |b'.arr| == |b.arr| && |b'.nodes| == |b.nodes|
        && (forall i | 0 <= i < |b.arr| :: ValWeaker(b.arr[i], b'.arr[i], gone))
        && (forall i | 0 <= i < |b.nodes| :: EntryWeaker(b.nodes[i], b'.nodes[i], gone)))
  }

  /** B' is B after removing table entries that refer to `gone` and keys of empty entries. */
  ghost predicate Weaker(B: Bodies, B': Bodies, gone: set<Id>) {
    B.Keys == B'.Keys && forall x | x in B :: WeakerBody(B[x], B'[x], gone)
  }

  lemma WeakerTrans(B0: Bodies, B1: Bodies, B2: Bodies, gone: set<Id>)
    requires Weaker(B0, B1, gone) && Weaker(B1, B2, gone)
    ensures Weaker(B0, B2, gone)
  {
    forall x | x in B0 ensures WeakerBody(B0[x], B2[x], gone) {
      assert WeakerBody(B0[x], B1[x], gone) && WeakerBody(B1[x], B2[x], gone);
    }
  }

  lemma WeakerMono(B: Bodies, B': Bodies, gone: set<Id>, more: set<Id>)
    requires Weaker(B, B', gone) && gone <= more
    ensures Weaker(B, B', more)
  {
    forall x | x in B ensures WeakerBody(B[x], B'[x], more) {
      assert WeakerBody(B[x], B'[x], gone);
    }
  }

  lemma WeakerSame(B: Bodies, B': Bodies, gone: set<Id>, x: Id)
    requires Weaker(B, B', gone) && x in B
    ensures !B[x].Table? ==> B'[x] == B[x]
    ensures B'[x].Table? == B[x].Table?
    ensures B[x].Table? ==> ModeOf(B', B'[x]) == ModeOf(B, B[x])
    ensures IsUpVal(B[x]) ==> UpValue(B', B'[x]) == UpValue(B, B[x])
  {
    assert WeakerBody(B[x], B'[x], gone);
    if B[x].Table? && B[x].mt.Some? && B[x].mt.value in B {
      assert WeakerBody(B[B[x].mt.value], B'[B[x].mt.value], gone);
    }
    if B[x].OpenUp? && B[x].th in B {
      assert WeakerBody(B[B[x].th], B'[B[x].th], gone);
    }
  }

  lemma WeakerIn(B: Bodies, B': Bodies, gone: set<Id>, x: Id, S: set<Id>)
    requires Weaker(B, B', gone) && x in B
    ensures PtrsIn(B, B[x], S) ==> PtrsIn(B', B'[x], S)
    ensures StrongIn(B, B[x], S) ==> StrongIn(B', B'[x], S)
    ensures LinksIn(B, B[x], S) ==> LinksIn(B', B'[x], S)
    ensures gone == {} && StrongIn(B', B'[x], S) ==> StrongIn(B, B[x], S)
    ensures gone == {} && LinksIn(B', B'[x], S) ==> LinksIn(B, B[x], S)
  {
    WeakerSame(B, B', gone, x);
    assert WeakerBody(B[x], B'[x], gone);
    if B[x].Table? {
      var b, b' := B[x], B'[x];
      assert b' != b ==> forall i | 0 <= i < |b.nodes| :: EntryWeaker(b.nodes[i], b'.nodes[i], gone);
      assert b' != b ==> forall i | 0 <= i < |b.arr| :: ValWeaker(b.arr[i], b'.arr[i], gone);
    }
  }

  lemma WeakerClosed(B: Bodies, B': Bodies, gone: set<Id>, S: set<Id>, X: set<Id>)
    requires Weaker(B, B', gone)
    ensures StrongClosed(B, S, X) ==> StrongClosed(B', S, X)
    ensures gone == {} && StrongClosed(B', S, X) ==> StrongClosed(B, S, X)
  {
    forall x | x in B
      ensures B[x].Str? == B'[x].Str?
      ensures StrongIn(B, B[x], S) ==> StrongIn(B', B'[x], S)
      ensures gone == {} && StrongIn(B', B'[x], S) ==> StrongIn(B, B[x], S)
    {
      WeakerSame(B, B', gone, x);
      WeakerIn(B, B', gone, x, S);
    }
  }

  lemma WeakerWf(B: Bodies, B': Bodies, gone: set<Id>)
    requires Weaker(B, B', gone)
    ensures Typed(B) ==> Typed(B')
    ensures forall S: set<Id> :: Grounded(B, S) ==> Grounded(B', S)
  {
    if Typed(B) {
      forall x | x in B' ensures TypedBody(B', x) {
        WeakerTyped(B, B', gone, x);
      }
    }
    forall x | x in B ensures PtrsIn(B, B[x], B.Keys) ==> PtrsIn(B', B'[x], B'.Keys) {
      WeakerIn(B, B', gone, x, B.Keys);
    }
  }

  lemma WeakerKind(B: Bodies, B': Bodies, gone: set<Id>)
    requires Weaker(B, B', gone)
    ensures B'.Keys == B.Keys
    ensures forall x | x in B :: B'[x].Table? == B[x].Table?
    ensures forall x | x in B && !B[x].Table? :: B'[x] == B[x]
  {
    forall x | x in B
      ensures B'[x].Table? == B[x].Table?
      ensures !B[x].Table? ==> B'[x] == B[x]
    {
      WeakerSame(B, B', gone, x);
    }
  }

  lemma WeakerTyped(B: Bodies, B': Bodies, gone: set<Id>, x: Id)
    requires Weaker(B, B', gone) && Typed(B) && x in B
    ensures TypedBody(B', x)
  {
    hide Weaker;
    WeakerKind(B, B', gone);
    assert TypedBody(B, x);
    if B[x].Table? {
      WeakerBodyOf(B, B', gone, x);
      WeakerTable(B, B', gone, x);
    }
  }

  lemma WeakerTable(B: Bodies, B': Bodies, gone: set<Id>, x: Id)
    requires x in B && B[x].Table? && TypedBody(B, x) && x in B' && WeakerBody(B[x], B'[x], gone)
    requires B'.Keys == B.Keys && forall y | y in B :: B'[y].Table? == B[y].Table?
    requires forall y | y in B && !B[y].Table? :: B'[y] == B[y]
    ensures TypedBody(B', x)
  {
    var b, b' := B[x], B'[x];
    if b' != b {
      forall i | 0 <= i < |b'.arr| ensures IsValue(B', b'.arr[i]) {
        assert IsValue(B, b.arr[i]) && ValWeaker(b.arr[i], b'.arr[i], gone);
      }
      forall i | 0 <= i < |b'.nodes| ensures IsValue(B', b'.nodes[i].key) && IsValue(B', b'.nodes[i].val) {
        assert IsValue(B, b.nodes[i].key) && IsValue(B, b.nodes[i].val);
        assert EntryWeaker(b.nodes[i], b'.nodes[i], gone);
      }
    }
  }

  lemma WeakerBodyOf(B: Bodies, B': Bodies, gone: set<Id>, x: Id)
    requires Weaker(B, B', gone) && x in B
    ensures x in B' && WeakerBody(B[x], B'[x], gone)
  {
  }
}
