/** The Lua table: an array part with a size hint, and a hash part. */
module LuaTable {
  import opened Basics
  import opened TableBits
  import opened TableHash
  import opened TableSize

  /** A key as a caller passes it. */
  datatype Arg = NilKey | NanKey | IntFloat(i: Int64) | Plain(key: Key)

  function KeyOf(arg: Arg): Option<Key> {
    match arg
    case NilKey => None
    case NanKey => None
    case IntFloat(i) => Some(Int(i))
    case Plain(k) => Some(k)
  }

  /** Where the value of a key is; Absent stands for the shared absent key. */
  datatype Slot = Absent | InArray(index: nat) | InNode(index: nat)

  datatype Outcome = Done | NilKeyError | NanKeyError

  /** The finite map a pair of parts stands for. */
  ghost function Kept(a: seq<Value>, ns: seq<Node>, q: Key): Value {
    if Dest(q, |a|) then a[q.i - 1] else Lookup(ns, q)
  }

  /** The node vector size for a number of entries; 0 is the shared dummy node. */
  function VectorSize(n: nat): nat {
    if n == 0 then 0 else Pow2(CeilLog2(n))
  }

  lemma VectorFits(n: nat)
    ensures n <= VectorSize(n)
  {
    if n > 0 {
      CeilLog2Is(n);
    }
  }

  ghost predicate NoOverlap(a: seq<Value>, ns: seq<Node>) {
    forall i | 0 <= i < |ns| && ns[i].key.Some? :: !Dest(ns[i].key.value, |a|)
  }

  ghost predicate SlotFor(a: seq<Value>, ns: seq<Node>, k: Key, s: Slot) {
    match s
    case Absent => !Dest(k, |a|) && !Holds(ns, k)
    case InArray(i) => Dest(k, |a|) && i == k.i - 1
    case InNode(i) => !Dest(k, |a|) && i < |ns| && ns[i].key == Some(k)
  }

  class Table {
    const hash: Hash
    var arr: seq<Value>
    var alimit: nat
    /** Bit 7 of the flags: `alimit` may not be the size of the array. */
    var hint: bool
    var nodes: seq<Node>
    var lsizenode: nat
    /** Every node from here on has been used; None for the dummy node. */
    var lastFree: Option<nat>
    ghost var order: Order

    ghost predicate HashValid()
      reads this`nodes, this`lsizenode, this`lastFree, this`order
    {
      && Good(hash) && |nodes| == Pow2(lsizenode) && WellFormed(hash, nodes, order)
      && (lastFree.None? ==> nodes == Fresh(1))
    }

    ghost predicate ArrayValid()
      reads this`arr, this`alimit, this`hint
    {
      |arr| == RealSize(alimit, hint) && |arr| <= MAX_ASIZE && alimit <= MAX_ASIZE
    }

    ghost predicate LastOk()
      reads this`nodes, this`lastFree
    {
      lastFree.Some? ==>
        lastFree.value <= |nodes| && forall i | lastFree.value <= i < |nodes| :: nodes[i].key.Some?
    }

    ghost predicate Valid()
      reads this
    {
      HashValid() && ArrayValid() && LastOk() && NoOverlap(arr, nodes)
    }

    ghost function At(q: Key): Value
      reads this`arr, this`nodes
    {
      Kept(arr, nodes, q)
    }

    /** How many more keys the hash part takes without a rehash. */
    ghost function FreeCount(): nat
      reads this`nodes, this`lastFree
    {
      if lastFree.None? then 0 else Free(nodes)
    }

    ghost predicate Room(k: Key, v: Value)
      reads this`arr, this`nodes, this`lastFree
    {
      v == Nil || Dest(k, |arr|) || Holds(nodes, k) || FreeCount() > 0
    }

    // -------------------------------------------------------------------- reading

    /** `getgeneric` and its siblings: from the main position along the chain. */
    method GetNode(k: Key) returns (s: Slot)
      requires Valid() && !Dest(k, |arr|)
      ensures SlotFor(arr, nodes, k, s)
    {
      var n := hash(k, |nodes|);
      assert forall i | 0 <= i < |nodes| && nodes[i].key == Some(k) :: PlacedAt(hash, nodes, order, i);
      while true
        invariant 0 <= n < |nodes|
        invariant forall i | 0 <= i < |nodes| && nodes[i].key == Some(k) :: From(order, n, i)
        decreases Later(order, n)
      {
        if nodes[n].key == Some(k) {
          return InNode(n);
        }
        var nx := nodes[n].next;
        forall i | 0 <= i < |nodes| && nodes[i].key == Some(k)
          ensures nx != 0 && 0 <= n + nx < |nodes| && From(order, n + nx, i)
        {
          Step(nodes, order, n, i);
        }
        if nx == 0 {
          return Absent;
        }
        StepLater(nodes, order, n);
        n := n + nx;
      }
    }

    /** `luaH_getint`; it may move the hint, but never to another real size. */
    method GetInt(key: Int64) returns (s: Slot)
      requires Valid()
      modifies this`alimit
      ensures Valid() && SlotFor(arr, nodes, Int(key), s)
      ensures RealSize(alimit, hint) == old(RealSize(alimit, hint))
    {
      hide WellFormed, NoOverlap, RealSize, AndNot, Good;
      var index := (key - 1) % 0x1_0000_0000_0000_0000;
      Wrapped64(key);
      if index < alimit {
        HintBelow(alimit, hint);
        return InArray(index);
      }
      Masked(index, alimit, hint);
      if hint && AndNot(index, if alimit == 0 then 0xFFFF_FFFF_FFFF_FFFF else alimit - 1) < alimit {
        MovedHint(alimit, key);
        alimit := key;
        return InArray(key - 1);
      }
      s := GetNode(Int(key));
    }

    lemma Wrapped64(key: Int64)
      ensures (key - 1) % 0x1_0000_0000_0000_0000 == if key > 0 then key - 1 else key - 1 + 0x1_0000_0000_0000_0000
    {
    }

    lemma HintBelow(alimit: nat, hint: bool)
      requires alimit <= MAX_ASIZE
      ensures alimit <= RealSize(alimit, hint)
    {
      if alimit > 0 {
        var p := Between(alimit);
        Pow2Words();
        if p > 32 {
          Pow2Mono(32, p - 1);
        }
        SmearedIs(alimit, p);
      }
    }

    /** The test in `luaH_getint` on keys that are not below the hint. */
    lemma Masked(index: nat, alimit: nat, hint: bool)
      requires alimit <= index && alimit <= MAX_ASIZE
      ensures (hint && AndNot(index, if alimit == 0 then 0xFFFF_FFFF_FFFF_FFFF else alimit - 1) < alimit)
              <==> index < RealSize(alimit, hint)
    {
      Pow2Words();
      if alimit > 0 {
        MaskTest(index, alimit);
      }
    }

    lemma MovedHint(alimit: nat, key: nat)
      requires 0 < alimit < key <= RealSize(alimit, true) && alimit <= MAX_ASIZE
      ensures RealSize(key, true) == RealSize(alimit, true)
    {
      Pow2Words();
      AndPow2(alimit);
      var p := Between(alimit);
      if p > 32 {
        Pow2Mono(32, p - 1);
      }
      assert alimit != Pow2(p - 1);
      RealSizeIs(alimit, p);
      RealSizeIs(key, p);
    }

    // -------------------------------------------------------------------- storing

    /** `getfreepos`: the free pointer only falls, so what it has passed is in use. */
    method GetFreePos() returns (f: Option<nat>)
      requires Valid()
      modifies this`lastFree
      ensures f.None? ==> Valid() && FreeCount() == 0 && (lastFree.None? <==> old(lastFree).None?)
      ensures f.Some? ==> f == lastFree && f.value < |nodes| && nodes[f.value].key.None?
                          && old(lastFree).Some?
                          && forall i | f.value < i < |nodes| :: nodes[i].key.Some?
    {
      hide WellFormed, NoOverlap, Good;
      if lastFree.Some? {
        while lastFree.value > 0
          invariant lastFree.Some? && LastOk()
          decreases if lastFree.Some? then lastFree.value else 0
        {
          lastFree := Some(lastFree.value - 1);
          if nodes[lastFree.value].key.None? {
            return lastFree;
          }
        }
        FreePositive(nodes);
      }
      f := None;
    }

    /** Where the new key goes when its main position is taken: f is the free node found for it. */
    method Collide(k: Key, v: Value, f: nat)
      requires HashValid() && !Holds(nodes, k) && lastFree.Some?
      requires f < |nodes| && nodes[f].key.None? && nodes[hash(k, |nodes|)].val != Nil
      modifies this`nodes, this`order
      ensures HashValid() && Stored(old(nodes), nodes, f, k, v)
    {
      hide WellFormed, Stored, MoveAway, InsertAfter, OrderMoved, OrderAfter, Fresh;
      var mp := hash(k, |nodes|);
      InUse(hash, nodes, order, mp);
      var othern := hash(nodes[mp].key.value, |nodes|);
      if othern != mp {
        othern := Predecessor(othern, mp);
        MoveAwayStored(hash, nodes, order, f, othern, k, v);
        MoveAwayOk(hash, nodes, order, f, othern, k, v);
        StoredSize(nodes, MoveAway(nodes, mp, f, othern, k, v), f, k, v);
        nodes, order := MoveAway(nodes, mp, f, othern, k, v), OrderMoved(order, mp, f);
      } else {
        InsertAfterStored(hash, nodes, order, f, k, v);
        InsertAfterOk(hash, nodes, order, f, k, v);
        StoredSize(nodes, InsertAfter(nodes, mp, f, k, v), f, k, v);
        nodes, order := InsertAfter(nodes, mp, f, k, v), OrderAfter(nodes, order, mp, f);
      }
    }

    lemma StoredSize(ns: seq<Node>, ns': seq<Node>, f: nat, k: Key, v: Value)
      requires Stored(ns, ns', f, k, v)
      ensures |ns'| == |ns|
    {
    }

    /** The walk from the colliding key's main position to the node before it. */
    method Predecessor(start: nat, mp: nat) returns (othern: nat)
      requires HashValid() && start < |nodes| && mp < |nodes| && start != mp && From(order, start, mp)
      ensures othern < |nodes| && othern != mp && order.chain[othern] == order.chain[mp]
      ensures nodes[othern].next != 0 && othern + nodes[othern].next == mp
    {
      othern := start;
      Step(nodes, order, othern, mp);
      while othern + nodes[othern].next != mp
        invariant othern < |nodes| && othern != mp && From(order, othern, mp)
        invariant nodes[othern].next != 0 && 0 <= othern + nodes[othern].next < |nodes|
        invariant From(order, othern + nodes[othern].next, mp)
        decreases Later(order, othern)
      {
        StepLater(nodes, order, othern);
        othern := othern + nodes[othern].next;
        Step(nodes, order, othern, mp);
      }
    }

    /** The map after a store: v for key k, and nothing else changed. */
    ghost predicate MapIs(a0: seq<Value>, ns0: seq<Node>, k: Key, v: Value)
      reads this`arr, this`nodes
    {
      forall q: Key :: At(q) == if q == k then v else Kept(a0, ns0, q)
    }

    ghost predicate SameMap(a0: seq<Value>, ns0: seq<Node>)
      reads this`arr, this`nodes
    {
      forall q: Key :: At(q) == Kept(a0, ns0, q)
    }

    /** The last part of `luaH_newkey`, when the main position is free or a free node is found. */
    method Place(k: Key, v: Value) returns (placed: bool)
      requires Valid() && !Dest(k, |arr|) && !Holds(nodes, k) && v != Nil
      modifies this`nodes, this`order, this`lastFree
      ensures Valid() && |nodes| == |old(nodes)| && lastFree.Some? == old(lastFree).Some?
      ensures placed ==> MapIs(arr, old(nodes), k, v) && FreeCount() + 1 >= old(FreeCount())
      ensures !placed ==> nodes == old(nodes) && FreeCount() == 0 && old(FreeCount()) == 0
    {
      hide WellFormed, Stored, Updated, Fresh, Lookup, Holds;
      ghost var ns0 := nodes;
      var mp := hash(k, |nodes|);
      if nodes[mp].val != Nil || lastFree.None? {
        var f := GetFreePos();
        if f.None? {
          placed := false;
          return;
        }
        Collide(k, v, f.value);
        StoredIs(arr, ns0, nodes, f.value, k, v);
      } else {
        TakeOverOk(hash, nodes, order, k, v);
        assert Distinct(nodes) by { KeysDistinct(hash, nodes, order); }
        TakeOverIs(arr, nodes, mp, k, v);
        nodes := TakeOver(nodes, mp, k, v);
      }
      placed := true;
    }

    lemma StoredIs(a: seq<Value>, ns: seq<Node>, ns': seq<Node>, f: nat, k: Key, v: Value)
      requires Stored(ns, ns', f, k, v) && !Dest(k, |a|) && NoOverlap(a, ns)
      ensures |ns'| == |ns| && NoOverlap(a, ns') && Free(ns') == Free(ns) - 1
      ensures forall i | 0 <= i < |ns| :: ns[i].key.Some? || i == f ==> ns'[i].key.Some?
      ensures forall q: Key :: Kept(a, ns', q) == if q == k then v else Kept(a, ns, q)
    {
    }

    lemma KeysDistinct(h: Hash, ns: seq<Node>, o: Order)
      requires WellFormed(h, ns, o)
      ensures Distinct(ns)
    {
    }

    lemma TakeOverIs(a: seq<Value>, ns: seq<Node>, mp: nat, k: Key, v: Value)
      requires Distinct(ns) && mp < |ns| && ns[mp].val.Nil? && !Holds(ns, k) && !Dest(k, |a|) && NoOverlap(a, ns)
      ensures var ns' := TakeOver(ns, mp, k, v);
        && |ns'| == |ns| && NoOverlap(a, ns') && Free(ns') + 1 >= Free(ns)
        && (forall i | 0 <= i < |ns| :: ns[i].key.Some? ==> ns'[i].key.Some?)
        && forall q: Key :: Kept(a, ns', q) == if q == k then v else Kept(a, ns, q)
    {
      TakeOverLookup(ns, mp, k, v);
      StoreFree(ns, mp, mp, mp, k, v);
    }

    /** `luaH_newkey`. `shallow` says that the caller knows there is room: then no rehash follows. A
        rehash makes room, so the store it retries is shallow. */
    method NewKey(arg: Arg, v: Value, ghost shallow: bool) returns (r: Outcome)
      requires Valid()
      requires KeyOf(arg).Some? ==> !Dest(KeyOf(arg).value, |arr|) && !Holds(nodes, KeyOf(arg).value)
      requires shallow ==> KeyOf(arg).Some? && (v == Nil || FreeCount() > 0)
      modifies this
      ensures Valid()
      ensures r == match KeyOf(arg) case Some(_) => Done case None => if arg.NilKey? then NilKeyError else NanKeyError
      ensures if r == Done then MapIs(old(arr), old(nodes), KeyOf(arg).value, v) else SameMap(old(arr), old(nodes))
      ensures shallow ==> arr == old(arr) && FreeCount() + 1 >= old(FreeCount())
      ensures v == Nil && r == Done ==> arr == old(arr) && nodes == old(nodes)
      decreases if shallow then 0 else 1, 3
    {
      hide HashValid, NoOverlap, LastOk, ArrayValid;
      if arg.NilKey? {
        return NilKeyError;
      }
      if arg.NanKey? {
        return NanKeyError;
      }
      r := Done;
      var key := if arg.IntFloat? then Int(arg.i) else arg.key;
      if v == Nil {
        return;
      }
      var placed := Place(key, v);
      if !placed {
        Rehash(key);
        r := Set(Plain(key), v, true);
      }
    }

    /** `luaH_get`. */
    method Get(arg: Arg) returns (s: Slot)
      requires Valid()
      modifies this`alimit
      ensures Valid() && RealSize(alimit, hint) == old(RealSize(alimit, hint))
      ensures if KeyOf(arg).Some? then SlotFor(arr, nodes, KeyOf(arg).value, s) else s == Absent
    {
      hide HashValid, NoOverlap, LastOk, ArrayValid;
      if arg.NilKey? || arg.NanKey? {
        // A NaN is equal to no key.
        return Absent;
      }
      if arg.IntFloat? {
        s := GetInt(arg.i);
      } else if arg.key.Int? {
        s := GetInt(arg.key.i);
      } else {
        s := GetNode(arg.key);
      }
    }

    /** `luaH_finishset` on a slot there is. */
    method Overwrite(ghost k: Key, s: Slot, v: Value)
      requires Valid() && SlotFor(arr, nodes, k, s) && !s.Absent?
      modifies this`arr, this`nodes
      ensures Valid() && MapIs(old(arr), old(nodes), k, v)
      ensures SameShape(old(arr), old(nodes), arr, nodes) && FreeCount() == old(FreeCount())
    {
      hide WellFormed, Lookup, Good, RealSize;
      if s.InArray? {
        arr := arr[s.index := v];
      } else {
        OverwriteOk(hash, nodes, order, s.index, v);
        NotDummy(nodes, s.index);
        nodes := nodes[s.index := nodes[s.index].(val := v)];
      }
    }

    lemma NotDummy(ns: seq<Node>, i: nat)
      requires i < |ns| && ns[i].key.Some?
      ensures ns != Fresh(1)
    {
    }

    /** `luaH_set`: in terms of the map, v for the key; no error but for nil and NaN. */
    method Set(arg: Arg, v: Value, ghost shallow: bool) returns (r: Outcome)
      requires Valid()
      requires shallow ==> KeyOf(arg).Some? && Room(KeyOf(arg).value, v)
      modifies this
      ensures Valid()
      ensures r == match KeyOf(arg) case Some(_) => Done case None => if arg.NilKey? then NilKeyError else NanKeyError
      ensures if r == Done then MapIs(old(arr), old(nodes), KeyOf(arg).value, v) else SameMap(old(arr), old(nodes))
      ensures shallow ==> |arr| == |old(arr)| && FreeCount() + 1 >= old(FreeCount())
      ensures shallow && Dest(KeyOf(arg).value, |arr|) ==> FreeCount() == old(FreeCount())
      ensures r == Done && (v == Nil || old(HasKey(arr, nodes, KeyOf(arg).value))) ==>
        SameShape(old(arr), old(nodes), arr, nodes)
      decreases if shallow then 0 else 1, 4
    {
      hide HashValid, NoOverlap, LastOk, ArrayValid;
      var s := Get(arg);
      if s.Absent? {
        r := NewKey(arg, v, shallow);
      } else {
        Overwrite(KeyOf(arg).value, s, v);
        r := Done;
      }
    }

    /** `luaH_setint`. */
    method SetInt(key: Int64, v: Value, ghost shallow: bool)
      requires Valid() && (shallow ==> Room(Int(key), v))
      modifies this
      ensures Valid() && MapIs(old(arr), old(nodes), Int(key), v)
      ensures shallow ==> |arr| == |old(arr)| && FreeCount() + 1 >= old(FreeCount())
      ensures shallow && Dest(Int(key), |arr|) ==> FreeCount() == old(FreeCount())
      ensures v == Nil || old(HasKey(arr, nodes, Int(key))) ==> SameShape(old(arr), old(nodes), arr, nodes)
      decreases if shallow then 0 else 1, 4
    {
      hide HashValid, NoOverlap, LastOk, ArrayValid;
      var s := GetInt(key);
      if s.Absent? {
        var _ := NewKey(Plain(Int(key)), v, shallow);
      } else {
        Overwrite(Int(key), s, v);
      }
    }

    /** `setlimittosize`. */
    method SetLimitToSize()
      requires Valid()
      modifies this`alimit, this`hint
      ensures Valid() && alimit == |arr| <= MAX_ASIZE && !hint
    {
      alimit := RealSize(alimit, hint);
      hint := false;
    }

    lemma CountsExtra(nums0: seq<nat>, nums: seq<nat>, a: seq<Value>, ns: seq<Node>, extra: Key)
      requires Counts(nums0, a, ns, None) && |nums| == 32
      requires forall b | 0 <= b < 32 :: nums[b] == nums0[b] + One(InSlice(extra, b))
      ensures Counts(nums, a, ns, Some(extra))
    {
    }

    /** The keys counted in all slices are those that could go into an array of the greatest size. */
    lemma CountsAll(nums: seq<nat>, na: nat, a: seq<Value>, ns: seq<Node>, extra: Key)
      requires |a| <= MAX_ASIZE
      requires if extra.Int? then Counts(nums, a, ns, Some(extra)) else Counts(nums, a, ns, None)
      requires na == ArrCount(a, 0, |a|) + NodeCount(ns, MAX_ASIZE) + One(Dest(extra, MAX_ASIZE))
      ensures Counts(nums, a, ns, Some(extra)) && na == Sum(nums, 32)
    {
      Pow2Words();
      assert Counts(nums, a, ns, Some(extra));
      SumIs(nums, a, ns, extra, 31);
    }

    lemma ChosenIs(nums: seq<nat>, n: nat, na: nat, a: seq<Value>, ns: seq<Node>, extra: Key)
      requires Counts(nums, a, ns, Some(extra)) && Optimal(nums, n, na)
      ensures Optimum(a, ns, extra, n) && na == Used(a, ns, extra, n) && n <= MAX_ASIZE
    {
      var m: nat :| Best(nums, 32, n, na, m);
      forall i: nat | i < 32 ensures Sum(nums, i + 1) == Used(a, ns, extra, Pow2(i)) {
        SumIs(nums, a, ns, extra, i);
      }
      Pow2Words();
      if n > 0 {
        Pow2Mono(m, 31);
        forall i: nat | i < 32 && Pow2(i) > n ensures Used(a, ns, extra, Pow2(i)) <= Pow2(i) / 2 {
          if i <= m {
            Pow2Mono(i, m);
          }
          assert !Dense(nums, i);
        }
        assert Dense(nums, m);
      } else {
        forall i: nat | i < 32 && Pow2(i) > n ensures Used(a, ns, extra, Pow2(i)) <= Pow2(i) / 2 {
          assert !Dense(nums, i);
        }
        NoneUsed(a, ns, extra);
      }
    }

    lemma NoneUsed(a: seq<Value>, ns: seq<Node>, extra: Key)
      ensures Used(a, ns, extra, 0) == 0
    {
      NoneCounted(ns);
    }

    lemma {:induction false} NoneCounted(ns: seq<Node>)
      ensures NodeCount(ns, 0) == 0
    {
      if ns != [] {
        NoneCounted(ns[1..]);
      }
    }

    /** `setnodevector`, into the fields of this table. */
    method SetNodeVector(size: nat)
      requires Good(hash)
      modifies this`nodes, this`lsizenode, this`lastFree, this`order
      ensures HashValid() && LastOk() && FreeCount() == VectorSize(size)
      ensures forall k: Key :: Lookup(nodes, k) == Nil
      ensures forall i | 0 <= i < |nodes| :: nodes[i].key.None?
    {
      if size == 0 {
        FreshOk(hash, 1);
        nodes, lsizenode, lastFree, order := Fresh(1), 0, None, FreshOrder(1);
      } else {
        var lsize := ComputeCeilLog2(size);
        FreshOk(hash, Pow2(lsize));
        nodes, lsizenode, order := Fresh(Pow2(lsize)), lsize, FreshOrder(Pow2(lsize));
        lastFree := Some(Pow2(lsize));
      }
    }

    /** `luaH_resize`, given that the new hash part has room for all it must hold. The map stays the
        same. The hash parts trade places at the start for good: the two trades around the
        reallocation cancel out. */
    method Resize(newasize: nat, nhsize: nat)
      requires Valid() && newasize <= MAX_ASIZE && Need(arr, nodes, newasize) <= VectorSize(nhsize)
      modifies this
      ensures Valid() && |arr| == newasize && SameMap(old(arr), old(nodes))
      ensures FreeCount() >= VectorSize(nhsize) - old(Need(arr, nodes, newasize))
      decreases 1, 1
    {
      hide WellFormed, RealSize, Lookup, Good, Holds, LastOk;
      SetLimitToSize();
      var a, ns := arr, nodes;
      ghost var rest := VectorSize(nhsize) - ArrCount(a, Min(newasize, |a|), |a|);
      OldNodes(hash, ns, order);
      SetNodeVector(nhsize);
      arr := if newasize < |a| then a[..newasize] else a + seq(newasize - |a|, i => Nil);
      alimit := newasize;
      SmallSize(newasize);
      FreshMap(a, newasize, arr, nodes);
      if newasize < |a| {
        Shrink(a, newasize, rest);
      }
      Reinsert(a, ns, newasize, rest - Staying(ns, newasize));
    }

    /** `luaH_resizearray`, which only ever grows the array. The hash part keeps its size, so it has room. */
    method ResizeArray(newasize: nat)
      requires Valid() && |arr| <= newasize <= MAX_ASIZE
      modifies this
      ensures Valid() && |arr| == newasize && SameMap(old(arr), old(nodes))
    {
      hide HashValid, ArrayValid, LastOk, NoOverlap, SameMap;
      var nsize := if lastFree.None? then 0 else Pow2(lsizenode);
      VectorFits(nsize);
      FewStay(nodes, newasize);
      assert |nodes| == Pow2(lsizenode) by { SizeIs(); }
      DummyStays(newasize);
      Resize(newasize, nsize);
    }

    lemma SizeIs()
      requires HashValid()
      ensures |nodes| == Pow2(lsizenode)
    {
    }

    lemma DummyStays(n: nat)
      requires HashValid()
      ensures lastFree.None? ==> Staying(nodes, n) == 0
    {
    }

    lemma OldNodes(h: Hash, ns: seq<Node>, o: Order)
      requires WellFormed(h, ns, o)
      ensures Distinct(ns) && forall i | 0 <= i < |ns| && ns[i].val != Nil :: ns[i].key.Some?
    {
      forall i | 0 <= i < |ns| && ns[i].val != Nil ensures ns[i].key.Some? {
        assert FreeAt(ns, o, i);
      }
    }

    lemma FreshMap(a: seq<Value>, n: nat, a': seq<Value>, ns: seq<Node>)
      requires forall k: Key :: Lookup(ns, k) == Nil
      requires a' == if n < |a| then a[..n] else a + seq(n - |a|, i => Nil)
      ensures forall q: Key :: Kept(a', ns, q) == Kept(if n < |a| then a[..n] else a, [], q)
    {
    }

    lemma SmallSize(n: nat)
      ensures RealSize(n, false) == n
    {
    }

    /** The entries of the array part from newasize on go to the hash part. */
    method Shrink(a: seq<Value>, newasize: nat, ghost rest: nat)
      requires Valid() && newasize < |a| <= MAX_ASIZE && arr == a[..newasize]
      requires forall q: Key :: At(q) == Kept(a[..newasize], [], q)
      requires FreeCount() >= ArrCount(a, newasize, |a|) + rest
      modifies this
      ensures Valid() && |arr| == newasize
      ensures forall q: Key :: At(q) == Kept(a, [], q)
      ensures FreeCount() >= rest
      decreases 1, 0
    {
      hide HashValid, ArrayValid, LastOk, NoOverlap, Kept;
      var i := newasize;
      while i < |a|
        invariant newasize <= i <= |a| && Valid() && |arr| == newasize
        invariant forall q: Key :: At(q) == Kept(a[..i], [], q)
        invariant FreeCount() >= ArrCount(a, i, |a|) + rest
      {
        ArrCountSplit(a, i, i + 1, |a|);
        assert ArrCount(a, i, i + 1) == ArrCount(a, i, i) + One(a[i] != Nil);
        if a[i] != Nil {
          SetInt(i + 1, a[i], true);
        }
        forall q: Key ensures At(q) == Kept(a[..i + 1], [], q) {
          SlotStep(a, i, q);
        }
        i := i + 1;
      }
      assert a[..|a|] == a;
    }

    lemma SlotStep(a: seq<Value>, i: nat, q: Key)
      requires i < |a| <= MAX_ASIZE
      ensures Kept(a[..i + 1], [], q) == if a[i] != Nil && q == Int(i + 1) then a[i] else Kept(a[..i], [], q)
    {
      assert Lookup([], q) == Nil;
      if q.Int? && q.i == i + 1 {
        assert q == Int(i + 1);
      }
    }

    /** `reinsert`: the entries of the old hash part go where they belong now. */
    method Reinsert(a: seq<Value>, ns: seq<Node>, newasize: nat, ghost slack: nat)
      requires Valid() && |arr| == newasize && Distinct(ns) && NoOverlap(a, ns)
      requires forall i | 0 <= i < |ns| && ns[i].val != Nil :: ns[i].key.Some?
      requires forall q: Key :: At(q) == Kept(a, [], q)
      requires FreeCount() >= Staying(ns, newasize) + slack
      modifies this
      ensures Valid() && |arr| == newasize && SameMap(a, ns)
      ensures FreeCount() >= slack
      decreases 1, 0
    {
      hide HashValid, ArrayValid, LastOk, Distinct, Lookup;
      var j := 0;
      while j < |ns|
        invariant 0 <= j <= |ns| && Valid() && |arr| == newasize
        invariant forall q: Key :: At(q) == Kept(a, ns[..j], q)
        invariant FreeCount() >= Staying(ns[j..], newasize) + slack
      {
        assert ns[j..][1..] == ns[j + 1..];
        ghost var a0, ns0 := arr, nodes;
        if ns[j].val != Nil {
          var _ := Set(Plain(ns[j].key.value), ns[j].val, true);
        }
        forall q: Key ensures At(q) == Kept(a, ns[..j + 1], q) {
          KeptStep(a, ns, j, q);
          assert Kept(a0, ns0, q) == Kept(a, ns[..j], q);
        }
        j := j + 1;
      }
      assert ns[..|ns|] == ns;
    }

    lemma KeptStep(a: seq<Value>, ns: seq<Node>, j: nat, q: Key)
      requires Distinct(ns) && NoOverlap(a, ns) && j < |ns|
      requires ns[j].val != Nil ==> ns[j].key.Some?
      ensures Kept(a, ns[..j + 1], q) ==
        if ns[j].val != Nil && q == ns[j].key.value then ns[j].val else Kept(a, ns[..j], q)
    {
      var n, n' := ns[..j], ns[..j + 1];
      if Holds(n, q) {
        var i :| 0 <= i < |n| && n[i].key == Some(q);
        LookupAt(n, i);
        LookupAt(n', i);
      } else if ns[j].key == Some(q) {
        LookupAt(n', j);
      } else {
        assert !Holds(n', q);
      }
    }

    /** `rehash`: afterwards there is room for the key it was called for. */
    method Rehash(extra: Key)
      requires Valid()
      modifies this
      ensures Valid() && SameMap(old(arr), old(nodes))
      ensures Dest(extra, |arr|) || FreeCount() > 0
      ensures Optimum(old(arr), old(nodes), extra, |arr|)
      decreases 1, 2
    {
      hide HashValid, NoOverlap, LastOk, ArrayValid, Need, Counts, Optimal, Optimum, Sum, Kept, Pow2;
      SetLimitToSize();
      var nums, na := NumUseArray(arr);
      var total := na;
      var count, ause;
      nums, count, ause := NumUseHash(nodes, nums, arr);
      total, na := total + count, na + ause;
      if extra.Int? {
        var c;
        ghost var nums0 := nums;
        nums, c := CountInt(extra.i, nums);
        na := na + c;
        CountsExtra(nums0, nums, arr, nodes, extra);
      }
      total := total + 1;
      CountsAll(nums, na, arr, nodes, extra);
      var asize;
      asize, na := ComputeSizes(nums, na);
      ChosenIs(nums, asize, na, arr, nodes, extra);
      NeedIs(arr, nodes, extra, asize);
      VectorFits(total - na);
      Resize(asize, total - na);
    }

    /** A table without an array part and with the dummy node. */
    constructor (hash: Hash)
      requires Good(hash)
      ensures Valid() && this.hash == hash && forall q: Key :: At(q) == Nil
    {
      this.hash := hash;
      arr, alimit, hint := [], 0, false;
      nodes, lsizenode, lastFree, order := Fresh(1), 0, None, FreshOrder(1);
      new;
      FreshOk(hash, 1);
    }

    // -------------------------------------------------------------------- the length

    /** Section 3.4.7 of the Lua 5.4 Reference Manual. */
    ghost predicate Border(n: nat)
      reads this`arr, this`nodes
    {
      n <= INT_MAX && (n == 0 || At(Int(n)) != Nil) && (n == INT_MAX || At(Int(n + 1)) == Nil)
    }

    /** The value a slot refers to. */
    method ReadSlot(ghost k: Key, s: Slot) returns (v: Value)
      requires Valid() && SlotFor(arr, nodes, k, s)
      ensures v == At(k)
    {
      hide LastOk, NoOverlap, ArrayValid;
      KeysDistinct(hash, nodes, order);
      match s {
        case Absent => v := Nil;
        case InArray(i) => v := arr[i];
        case InNode(i) =>
          LookupAt(nodes, i);
          v := nodes[i].val;
      }
    }

    /** What `luaH_get` reads is the value the map has for the key; nil and NaN have none. */
    method Read(arg: Arg) returns (v: Value)
      requires Valid()
      modifies this`alimit
      ensures Valid() && v == if KeyOf(arg).Some? then At(KeyOf(arg).value) else Nil
    {
      hide HashValid, LastOk, NoOverlap, Kept, SlotFor, ArrayValid;
      var s := Get(arg);
      if KeyOf(arg).None? {
        return Nil;
      }
      v := ReadSlot(KeyOf(arg).value, s);
    }

    method ReadInt(key: Int64) returns (v: Value)
      requires Valid()
      modifies this`alimit
      ensures Valid() && v == At(Int(key))
    {
      hide HashValid, LastOk, NoOverlap, Kept, SlotFor;
      var s := GetInt(key);
      v := ReadSlot(Int(key), s);
    }

    /** `hash_search`: a border above j, which is none because j + 1 is in the table. */
    method HashSearch(start: nat) returns (n: nat)
      requires Valid() && start <= MAX_ASIZE
      requires (start == 0 || At(Int(start)) != Nil) && At(Int(start + 1)) != Nil
      modifies this`alimit
      ensures Valid() && Border(n)
    {
      hide HashValid, LastOk, NoOverlap, ArrayValid, Kept;
      var j := if start == 0 then 1 else start;
      var i := j;
      while true
        invariant 0 < j <= INT_MAX && Valid() && At(Int(j)) != Nil
        decreases INT_MAX - j
      {
        i := j;
        if j <= INT_MAX / 2 {
          j := j * 2;
          var v := ReadInt(j);
          if v == Nil {
            break;
          }
        } else {
          j := INT_MAX;
          var v := ReadInt(j);
          if v == Nil {
            break;
          }
          return j;
        }
      }
      while j - i > 1
        invariant 0 < i < j <= INT_MAX && Valid() && At(Int(i)) != Nil && At(Int(j)) == Nil
      {
        var m := (i + j) / 2;
        var v := ReadInt(m);
        if v == Nil {
          j := m;
        } else {
          i := m;
        }
      }
      return i;
    }

    method BinSearch(start: nat, end: nat) returns (i: nat)
      requires start < end <= |arr| && (start == 0 || arr[start - 1] != Nil) && arr[end - 1] == Nil
      ensures start <= i < end && (i == 0 || arr[i - 1] != Nil) && arr[i] == Nil
    {
      var j := end;
      i := start;
      while j - i > 1
        invariant start <= i < j <= end && (i == 0 || arr[i - 1] != Nil) && arr[j - 1] == Nil
      {
        var m := (i + j) / 2;
        if arr[m - 1] == Nil {
          j := m;
        } else {
          i := m;
        }
      }
    }

    /** A new hint in the upper half of an array whose size is a power of two keeps the real size. */
    method MoveHint(limit: nat)
      requires Valid() && Halved(limit, |arr|)
      modifies this`alimit, this`hint
      ensures Valid()
    {
      var p: nat :| 0 < p <= 32 && |arr| == Pow2(p) && Pow2(p - 1) < limit <= Pow2(p);
      RealSizeIs(limit, p);
      alimit, hint := limit, true;
    }

    /** `ispow2realasize`. */
    predicate PowerSize()
      reads this`alimit, this`hint
    {
      hint || alimit == 0 || And(alimit, alimit - 1) == 0
    }

    /** An array whose size is known to be a power of two, with a hint of at least 2. */
    lemma UpperHalf(alimit: nat, hint: bool, n: nat) returns (p: nat)
      requires n == RealSize(alimit, hint) && 2 <= alimit <= MAX_ASIZE
      requires hint || And(alimit, alimit - 1) == 0
      ensures 0 < p <= 32 && n == Pow2(p) && Pow2(p - 1) < alimit <= n
    {
      Pow2Words();
      CeilLog2Is(alimit);
      p := CeilLog2(alimit);
      CeilLog2Bound(alimit, 31);
      RealSizeIs(alimit, p);
      if !hint {
        AndPow2(alimit);
        var q: nat :| alimit == Pow2(q);
        if q < p {
          Pow2Mono(q, p - 1);
        } else {
          Pow2Mono(p, q);
        }
      }
    }

    lemma NotPower(x: nat, p: nat)
      requires x > 0 && And(x, x - 1) != 0
      ensures x != Pow2(p)
    {
      AndPow2(x);
    }

    /** `luaH_getn`: always a border, and the real size stays what it was. */
    method GetN() returns (n: nat)
      requires Valid()
      modifies this`alimit, this`hint
      ensures Valid() && Border(n)
    {
      hide HashValid, LastOk, NoOverlap, RealSize, And, Lookup;
      HintBelow(alimit, hint);
      var limit := alimit;
      if limit > 0 && arr[limit - 1] == Nil {
        n := LowerBorder();
        return;
      }
      if !(!hint || alimit == 0 || And(alimit, alimit - 1) == 0) {
        NotPower(alimit, 0);
        ghost var p := UpperHalf(alimit, hint, |arr|);
        NotPower(alimit, p);
        if arr[limit] == Nil {
          return limit;
        }
        limit := RealSize(alimit, hint);
        if arr[limit - 1] == Nil {
          var boundary := BinSearch(alimit, limit);
          RealSizeIs(boundary, p);
          alimit := boundary;
          return boundary;
        }
      } else {
        assert RealSize(alimit, hint) == alimit by { ExactSize(alimit, hint); }
      }
      if lastFree.None? {
        DummyEmpty();
        return limit;
      }
      var v := ReadInt(limit + 1);
      if v == Nil {
        return limit;
      }
      n := HashSearch(limit);
    }

    lemma ExactSize(alimit: nat, hint: bool)
      requires !hint || alimit == 0 || And(alimit, alimit - 1) == 0
      ensures RealSize(alimit, hint) == alimit
    {
    }

    lemma DummyEmpty()
      requires HashValid() && lastFree.None?
      ensures forall k: Key :: Lookup(nodes, k) == Nil
    {
      FreshOk(hash, 1);
    }

    /** The slot at the hint is empty: there is a border below it. */
    method LowerBorder() returns (n: nat)
      requires Valid() && 0 < alimit <= |arr| && arr[alimit - 1] == Nil
      modifies this`alimit, this`hint
      ensures Valid() && Border(n)
    {
      hide HashValid, LastOk, NoOverlap, RealSize, And, Lookup;
      var limit := alimit;
      if limit >= 2 && arr[limit - 2] != Nil {
        n := limit - 1;
        if PowerSize() && And(limit - 1, limit - 2) != 0 {
          ghost var p := UpperHalf(alimit, hint, |arr|);
          NotPower(limit - 1, p - 1);
          MoveHint(limit - 1);
        }
      } else {
        n := BinSearch(0, limit);
        if PowerSize() && n > RealSize(alimit, hint) / 2 {
          ghost var p := UpperHalf(alimit, hint, |arr|);
          MoveHint(n);
        }
      }
    }

    // -------------------------------------------------------------------- iteration

    /** `findindex`: the position after a key's entry. A key in the table is found also if its value is
        nil. A float key is never found: none in a table has an integral value. */
    method FindIndex(arg: Arg) returns (r: Option<nat>)
      requires Valid()
      ensures match arg
              case NilKey => r == Some(0)
              case Plain(k) => if HasKey(arr, nodes, k) then r.Some? && 0 < r.value && KeyAt(arr, nodes, r.value - 1) == Some(k)
                               else r.None?
              case _ => r.None?
    {
      hide HashValid, LastOk, ArrayValid;
      match arg {
        case NilKey => r := Some(0);
        case Plain(k) =>
          if k.Int? && (k.i - 1) % 0x1_0000_0000_0000_0000 < |arr| {
            Wrapped64(k.i);
            ShortArray();
            r := Some(k.i);
          } else {
            if k.Int? {
              Wrapped64(k.i);
            }
            var s := GetNode(k);
            r := if s.InNode? then Some(s.index + 1 + |arr|) else None;
          }
        case NanKey => r := None;
        case IntFloat(_) => r := None;
      }
    }

    lemma ShortArray()
      requires ArrayValid()
      ensures |arr| <= MAX_ASIZE
    {
    }

    /** `next_raw`: the first entry in use after that of the given key. */
    method NextRaw(arg: Arg) returns (r: Next)
      requires Valid()
      ensures NextIs(Snap(arr, nodes), arg, r)
    {
      hide HashValid, LastOk, ArrayValid, NoOverlap;
      var f := FindIndex(arg);
      if f.None? {
        return Missing;
      }
      ghost var start := f.value;
      assert StartsAt(arr, nodes, arg, start);
      var i, asize := f.value, |arr|;
      while i < asize
        invariant start <= i && (if start <= asize then i <= asize else i == start)
        invariant forall p | start <= p < i && p < asize :: ValueAt(arr, nodes, p) == Nil
      {
        if arr[i] != Nil {
          assert FirstFrom(arr, nodes, start, i);
          SlotKey(i);
          return Entry(Int(i + 1), arr[i]);
        }
        i := i + 1;
      }
      i := i - asize;
      while i < |nodes|
        invariant start <= i + asize
        invariant forall p | start <= p < i + asize && p < asize + |nodes| :: ValueAt(arr, nodes, p) == Nil
      {
        if nodes[i].val != Nil {
          assert FirstFrom(arr, nodes, start, i + asize);
          NodeKey(i);
          return Entry(nodes[i].key.value, nodes[i].val);
        }
        i := i + 1;
      }
      assert NoneFrom(arr, nodes, start);
      return End;
    }

    lemma Sound()
      requires Valid()
      ensures SnapOk(Snap(arr, nodes))
    {
    }

    lemma SlotKey(i: nat)
      requires ArrayValid() && i < |arr|
      ensures i + 1 <= INT_MAX && KeyAt(arr, nodes, i) == Some(Int(i + 1))
    {
    }

    lemma NodeKey(i: nat)
      requires HashValid() && i < |nodes| && nodes[i].val != Nil
      ensures nodes[i].key.Some?
    {
      InUse(hash, nodes, order, i);
    }
  }

  // ---------------------------------------------------------------------- walking over a table

  datatype Next = Missing | End | Entry(key: Key, val: Value)

  /** Positions: first the slots of the array part, then the nodes. */
  ghost function KeyAt(a: seq<Value>, ns: seq<Node>, p: nat): Option<Key> {
    if p < |a| && p < INT_MAX then Some(Int(p + 1))
    else if |a| <= p < |a| + |ns| then ns[p - |a|].key
    else None
  }

  ghost function ValueAt(a: seq<Value>, ns: seq<Node>, p: nat): Value {
    if p < |a| then a[p] else if p < |a| + |ns| then ns[p - |a|].val else Nil
  }

  ghost predicate HasKey(a: seq<Value>, ns: seq<Node>, k: Key) {
    Dest(k, |a|) || Holds(ns, k)
  }

  /** Where a search that continues after a key starts. */
  ghost predicate StartsAt(a: seq<Value>, ns: seq<Node>, arg: Arg, start: nat) {
    if arg.NilKey? then start == 0
    else arg.Plain? && start > 0 && KeyAt(a, ns, start - 1) == Some(arg.key)
  }

  ghost predicate NoneFrom(a: seq<Value>, ns: seq<Node>, start: nat) {
    forall p | start <= p < |a| + |ns| :: ValueAt(a, ns, p) == Nil
  }

  ghost predicate FirstFrom(a: seq<Value>, ns: seq<Node>, start: nat, p: nat) {
    && start <= p < |a| + |ns| && ValueAt(a, ns, p) != Nil
    && forall q | start <= q < p :: ValueAt(a, ns, q) == Nil
  }

  /** Overwriting and clearing values keeps every key where it is. */
  ghost predicate SameShape(a: seq<Value>, ns: seq<Node>, a': seq<Value>, ns': seq<Node>) {
    |a'| == |a| && |ns'| == |ns| && forall i | 0 <= i < |ns| :: ns'[i].key == ns[i].key
  }

  /** The contents of the table at one call of `next_raw`. */
  datatype Snap = Snap(a: seq<Value>, ns: seq<Node>)

  /** What `next_raw` returns for a key. */
  ghost predicate NextIs(s: Snap, arg: Arg, r: Next) {
    match r
    case Missing => !arg.NilKey? && (arg.Plain? ==> !HasKey(s.a, s.ns, arg.key))
    case End => exists start: nat :: StartsAt(s.a, s.ns, arg, start) && NoneFrom(s.a, s.ns, start)
    case Entry(k, v) => exists start: nat, p: nat ::
      && StartsAt(s.a, s.ns, arg, start) && FirstFrom(s.a, s.ns, start, p)
      && KeyAt(s.a, s.ns, p) == Some(k) && ValueAt(s.a, s.ns, p) == v
  }

  /** The key that the i-th call is made with: that of the entry before. */
  function ArgAt(rs: seq<Next>, i: nat): Arg
    requires i <= |rs|
  {
    if i > 0 && rs[i - 1].Entry? then Plain(rs[i - 1].key) else NilKey
  }

  /** Calls of `next_raw`, each with the key the one before returned. Between them values were overwritten or
      cleared. */
  ghost predicate Calls(snaps: seq<Snap>, rs: seq<Next>) {
    && |snaps| == |rs|
    && (forall i | 0 <= i < |rs| - 1 :: rs[i].Entry?)
    && (forall i | 0 <= i < |rs| :: NextIs(snaps[i], ArgAt(rs, i), rs[i]))
    && forall i | 0 <= i < |rs| :: SameShape(snaps[0].a, snaps[0].ns, snaps[i].a, snaps[i].ns)
  }

  ghost predicate SnapOk(s: Snap) {
    Distinct(s.ns) && NoOverlap(s.a, s.ns) && |s.a| <= MAX_ASIZE
  }

  /** A key has one position. */
  lemma OnePosition(s: Snap, p: nat, q: nat)
    requires SnapOk(s) && KeyAt(s.a, s.ns, p).Some? && KeyAt(s.a, s.ns, q) == KeyAt(s.a, s.ns, p)
    ensures p == q
  {
    var k := KeyAt(s.a, s.ns, p).value;
    if p >= |s.a| {
      assert !Dest(k, |s.a|);
    }
    if q >= |s.a| {
      assert !Dest(k, |s.a|);
    }
  }

  ghost function PositionOf(s: Snap, k: Key): (p: nat)
    requires HasKey(s.a, s.ns, k) && |s.a| <= MAX_ASIZE
    ensures KeyAt(s.a, s.ns, p) == Some(k)
  {
    if Dest(k, |s.a|) then k.i - 1
    else
      var i :| 0 <= i < |s.ns| && s.ns[i].key == Some(k);
      |s.a| + i
  }

  lemma PositionIs(s: Snap, s': Snap, k: Key, p: nat)
    requires SnapOk(s) && SameShape(s.a, s.ns, s'.a, s'.ns) && KeyAt(s'.a, s'.ns, p) == Some(k)
    ensures HasKey(s.a, s.ns, k) && PositionOf(s, k) == p && HasKey(s'.a, s'.ns, k)
  {
    assert KeyAt(s.a, s.ns, p) == Some(k);
    if p >= |s.a| {
      assert s.ns[p - |s.a|].key == Some(k) && s'.ns[p - |s.a|].key == Some(k);
    }
    OnePosition(s, p, PositionOf(s, k));
  }

  /** The entry that call i returns is in the table from the start. */
  lemma Returned(snaps: seq<Snap>, rs: seq<Next>, i: nat)
    requires Calls(snaps, rs) && i < |rs| && SnapOk(snaps[0]) && rs[i].Entry?
    ensures HasKey(snaps[0].a, snaps[0].ns, rs[i].key) && HasKey(snaps[i].a, snaps[i].ns, rs[i].key)
    ensures ValueAt(snaps[i].a, snaps[i].ns, PositionOf(snaps[0], rs[i].key)) == rs[i].val
  {
    assert NextIs(snaps[i], ArgAt(rs, i), rs[i]);
    hide FirstFrom, StartsAt, SameShape, SnapOk, HasKey, KeyAt, ValueAt;
    var s := snaps[i];
    var start: nat, p: nat :| StartsAt(s.a, s.ns, ArgAt(rs, i), start) && FirstFrom(s.a, s.ns, start, p)
      && KeyAt(s.a, s.ns, p) == Some(rs[i].key) && ValueAt(s.a, s.ns, p) == rs[i].val;
    PositionIs(snaps[0], s, rs[i].key, p);
  }

  /** The position after the entry that the call before returned. */
  ghost function After(snaps: seq<Snap>, rs: seq<Next>, i: nat): nat
    requires 0 < |snaps| && i <= |rs| && |snaps[0].a| <= MAX_ASIZE
  {
    if i > 0 && rs[i - 1].Entry? && HasKey(snaps[0].a, snaps[0].ns, rs[i - 1].key)
    then PositionOf(snaps[0], rs[i - 1].key) + 1 else 0
  }

  /** Call i goes on where the one before stopped; no key is ever missing. */
  lemma CallAt(snaps: seq<Snap>, rs: seq<Next>, i: nat)
    requires Calls(snaps, rs) && i < |rs| && SnapOk(snaps[0])
    ensures rs[i] != Missing
    ensures rs[i].Entry? ==> HasKey(snaps[0].a, snaps[0].ns, rs[i].key)
    ensures rs[i].Entry? ==>
      FirstFrom(snaps[i].a, snaps[i].ns, After(snaps, rs, i), PositionOf(snaps[0], rs[i].key))
    ensures rs[i] == End ==> NoneFrom(snaps[i].a, snaps[i].ns, After(snaps, rs, i))
  {
    var s := snaps[i];
    assert NextIs(s, ArgAt(rs, i), rs[i]) && SameShape(snaps[0].a, snaps[0].ns, s.a, s.ns);
    if i > 0 {
      Returned(snaps, rs, i - 1);
      SameKeys(snaps[0], s, rs[i - 1].key);
      forall start: nat | StartsAt(s.a, s.ns, ArgAt(rs, i), start) ensures start == After(snaps, rs, i) {
        PositionIs(snaps[0], s, rs[i - 1].key, start - 1);
      }
    }
    if rs[i].Entry? {
      var start: nat, p: nat :| StartsAt(s.a, s.ns, ArgAt(rs, i), start) && FirstFrom(s.a, s.ns, start, p)
        && KeyAt(s.a, s.ns, p) == Some(rs[i].key) && ValueAt(s.a, s.ns, p) == rs[i].val;
      PositionIs(snaps[0], s, rs[i].key, p);
    }
  }

  lemma SameKeys(s: Snap, s': Snap, k: Key)
    requires SameShape(s.a, s.ns, s'.a, s'.ns)
    ensures HasKey(s.a, s.ns, k) <==> HasKey(s'.a, s'.ns, k)
  {
    if Holds(s.ns, k) {
      var i :| 0 <= i < |s.ns| && s.ns[i].key == Some(k);
      assert s'.ns[i].key == Some(k);
    }
    if Holds(s'.ns, k) {
      var i :| 0 <= i < |s'.ns| && s'.ns[i].key == Some(k);
      assert s.ns[i].key == Some(k);
    }
  }

  lemma StepUp(snaps: seq<Snap>, rs: seq<Next>, j: nat)
    requires Calls(snaps, rs) && 0 < j < |rs| && SnapOk(snaps[0]) && rs[j].Entry?
    ensures rs[j - 1].Entry? && |snaps| == |rs| && |snaps[0].a| <= MAX_ASIZE
    ensures HasKey(snaps[0].a, snaps[0].ns, rs[j - 1].key) && HasKey(snaps[0].a, snaps[0].ns, rs[j].key)
    ensures PositionOf(snaps[0], rs[j - 1].key) < PositionOf(snaps[0], rs[j].key)
  {
    assert rs[j - 1].Entry?;
    hide HasKey, PositionOf, NextIs, SameShape;
    CallAt(snaps, rs, j - 1);
    CallAt(snaps, rs, j);
  }

  /** The calls go through the table in order. So no key is returned twice, and there are not many calls. */
  lemma {:induction false} Rising(snaps: seq<Snap>, rs: seq<Next>, i: nat, j: nat)
    requires Calls(snaps, rs) && i < j < |rs| && SnapOk(snaps[0]) && rs[j].Entry?
    ensures rs[i].Entry? && rs[i].key != rs[j].key
    ensures HasKey(snaps[0].a, snaps[0].ns, rs[i].key) && HasKey(snaps[0].a, snaps[0].ns, rs[j].key)
    ensures PositionOf(snaps[0], rs[i].key) + j - i <= PositionOf(snaps[0], rs[j].key)
    decreases j
  {
    hide HasKey, PositionOf, SnapOk, Calls;
    StepUp(snaps, rs, j);
    if i + 1 < j {
      Rising(snaps, rs, i, j - 1);
    }
  }

  /** The calls end: at most as many as there are positions return an entry. */
  lemma CallsEnd(snaps: seq<Snap>, rs: seq<Next>)
    requires Calls(snaps, rs) && rs != [] && SnapOk(snaps[0])
    ensures |rs| <= |snaps[0].a| + |snaps[0].ns| + (if rs[|rs| - 1].Entry? then 0 else 1)
    ensures forall i | 0 <= i < |rs| :: rs[i] != Missing
  {
    forall i | 0 <= i < |rs| ensures rs[i] != Missing {
      CallAt(snaps, rs, i);
    }
    var n := if rs[|rs| - 1].Entry? then |rs| else |rs| - 1;
    if n > 0 {
      assert rs[n - 1].Entry?;
      CallAt(snaps, rs, n - 1);
      if n > 1 {
        Rising(snaps, rs, 0, n - 1);
      }
      assert SameShape(snaps[0].a, snaps[0].ns, snaps[n - 1].a, snaps[n - 1].ns);
    }
  }

  /** k has not been returned by the first j calls. */
  ghost predicate Unseen(rs: seq<Next>, k: Key, j: nat)
    requires j <= |rs|
  {
    forall l | 0 <= l < j :: rs[l].Entry? ==> rs[l].key != k
  }

  /** The call that returns k, which has a value at every call until it is returned. */
  lemma {:induction false} Finds(snaps: seq<Snap>, rs: seq<Next>, k: Key, i: nat) returns (at: nat)
    requires Calls(snaps, rs) && i < |rs| == |snaps| && SnapOk(snaps[0]) && rs[|rs| - 1] == End
    requires HasKey(snaps[0].a, snaps[0].ns, k) && After(snaps, rs, i) <= PositionOf(snaps[0], k)
    requires Unseen(rs, k, i)
    requires forall j | 0 <= j < |rs| && Unseen(rs, k, j) ::
      ValueAt(snaps[j].a, snaps[j].ns, PositionOf(snaps[0], k)) != Nil
    ensures at < |rs| - 1 && rs[at].Entry? && rs[at].key == k
    decreases |rs| - i
  {
    hide HasKey, PositionOf, SnapOk, ValueAt, Calls, After;
    FindsStep(snaps, rs, k, i);
    if rs[i].key == k {
      at := i;
    } else {
      at := Finds(snaps, rs, k, i + 1);
    }
  }

  /** While k has a value and its position is still ahead, a call returns k or an entry in front of it. */
  lemma FindsStep(snaps: seq<Snap>, rs: seq<Next>, k: Key, i: nat)
    requires Calls(snaps, rs) && i < |rs| && SnapOk(snaps[0])
    requires HasKey(snaps[0].a, snaps[0].ns, k) && After(snaps, rs, i) <= PositionOf(snaps[0], k)
    requires ValueAt(snaps[i].a, snaps[i].ns, PositionOf(snaps[0], k)) != Nil
    ensures rs[i].Entry? && (rs[i].key != k ==> After(snaps, rs, i + 1) <= PositionOf(snaps[0], k))
  {
    hide Calls, HasKey, SnapOk;
    CallAt(snaps, rs, i);
    CallsShape(snaps, rs);
    assert rs[i].Entry?;
    if rs[i].key != k {
      PositionApart(snaps[0], rs[i].key, k);
    }
  }

  lemma CallsShape(snaps: seq<Snap>, rs: seq<Next>)
    requires Calls(snaps, rs) && rs != [] && SnapOk(snaps[0])
    ensures |snaps| == |rs| && |snaps[0].a| <= MAX_ASIZE
  {
  }

  lemma PositionApart(s: Snap, k: Key, l: Key)
    requires HasKey(s.a, s.ns, k) && HasKey(s.a, s.ns, l) && |s.a| <= MAX_ASIZE && k != l
    ensures PositionOf(s, k) != PositionOf(s, l)
  {
  }

  /** The value the map has for a key is at the position of the key. */
  lemma KeptAt(s: Snap, s': Snap, k: Key)
    requires SnapOk(s) && SameShape(s.a, s.ns, s'.a, s'.ns)
    ensures HasKey(s.a, s.ns, k) ==> ValueAt(s'.a, s'.ns, PositionOf(s, k)) == Kept(s'.a, s'.ns, k)
    ensures !HasKey(s.a, s.ns, k) ==> Kept(s'.a, s'.ns, k) == Nil
  {
    SameKeys(s, s', k);
    if HasKey(s.a, s.ns, k) && !Dest(k, |s.a|) {
      var i := PositionOf(s, k) - |s.a|;
      assert forall j | 0 <= j < |s'.ns| && s'.ns[j].key == Some(k) :: s.ns[j].key == Some(k);
      LookupAt(s'.ns, i);
    }
  }

  /** A complete iteration: every key that has a value until its turn is returned exactly once, with the value it
      has then, whatever is overwritten or cleared between the calls, before or after its turn. What is
      returned is in the table. No key is missing, and the calls end. */
  lemma IteratesAll(snaps: seq<Snap>, rs: seq<Next>, k: Key)
    requires Calls(snaps, rs) && rs != [] && rs[|rs| - 1] == End && SnapOk(snaps[0])
    requires forall j | 0 <= j < |rs| && Unseen(rs, k, j) :: Kept(snaps[j].a, snaps[j].ns, k) != Nil
    ensures exists i :: && 0 <= i < |rs| - 1 && rs[i] == Entry(k, Kept(snaps[i].a, snaps[i].ns, k))
                        && forall j | 0 <= j < |rs| && j != i && rs[j].Entry? :: rs[j].key != k
  {
    forall j | 0 <= j < |rs| {
      KeptAt(snaps[0], snaps[j], k);
    }
    hide SnapOk, HasKey, PositionOf, ValueAt, Kept;
    assert HasKey(snaps[0].a, snaps[0].ns, k);
    assert After(snaps, rs, 0) == 0;
    var at := Finds(snaps, rs, k, 0);
    Returned(snaps, rs, at);
    forall j | 0 <= j < |rs| && j != at && rs[j].Entry? ensures rs[j].key != k {
      if j < at {
        Rising(snaps, rs, j, at);
      } else {
        Rising(snaps, rs, at, j);
      }
    }
  }

  /** What an iteration returns has that value in the table. */
  lemma ReturnsLive(snaps: seq<Snap>, rs: seq<Next>, i: nat)
    requires Calls(snaps, rs) && i < |rs| && rs[i].Entry? && SnapOk(snaps[0])
    ensures rs[i].val != Nil && rs[i].val == Kept(snaps[i].a, snaps[i].ns, rs[i].key)
  {
    Returned(snaps, rs, i);
    CallAt(snaps, rs, i);
    KeptAt(snaps[0], snaps[i], rs[i].key);
  }

  /** The iterator over a table. */
  class Iter {
    const tab: Table
    var key: Arg
    /** The calls so far that returned an entry. */
    ghost var snaps: seq<Snap>
    ghost var results: seq<Next>

    ghost predicate Valid()
      reads this
    {
      && Calls(snaps, results) && key == ArgAt(results, |results|)
      && (results != [] ==> results[|results| - 1].Entry?)
    }

    constructor (t: Table)
      ensures Valid() && tab == t && results == []
    {
      tab, key := t, NilKey;
      snaps, results := [], [];
    }

    /** The next entry, or the end, also when it is asked for again. The table may have got other values for its keys
        since the iteration began, or none. */
    method Next() returns (r: Next)
      requires Valid() && tab.Valid()
      requires snaps != [] ==> SameShape(snaps[0].a, snaps[0].ns, tab.arr, tab.nodes)
      modifies this`key, this`snaps, this`results
      ensures Valid() && r != Missing && Calls(old(snaps) + [Snap(tab.arr, tab.nodes)], old(results) + [r])
      ensures r.Entry? ==> results == old(results) + [r] && snaps == old(snaps) + [Snap(tab.arr, tab.nodes)]
      ensures r == End ==> results == old(results) && snaps == old(snaps) && key == old(key)
      ensures |results| <= |tab.arr| + |tab.nodes|
    {
      hide NextIs, SameShape, WellFormed;
      ghost var now := Snap(tab.arr, tab.nodes);
      ShapeSelf(now);
      r := tab.NextRaw(key);
      MoreCalls(snaps, results, now, r);
      tab.Sound();
      FirstOk((snaps + [now])[0], now);
      CallsEnd(snaps + [now], results + [r]);
      SameSize((snaps + [now])[0], now);
      assert (results + [r])[|results|] == r;
      if r.Entry? {
        key := Plain(r.key);
        snaps, results := snaps + [now], results + [r];
      }
    }
  }

  lemma ShapeSelf(s: Snap)
    ensures SameShape(s.a, s.ns, s.a, s.ns)
  {
  }

  lemma FirstOk(s: Snap, s': Snap)
    requires SameShape(s.a, s.ns, s'.a, s'.ns) && SnapOk(s')
    ensures SnapOk(s)
  {
    forall i, j | 0 <= i < j < |s.ns| && s.ns[i].key.Some? ensures s.ns[i].key != s.ns[j].key {
      assert s'.ns[i].key == s.ns[i].key && s'.ns[j].key == s.ns[j].key;
    }
    forall i | 0 <= i < |s.ns| && s.ns[i].key.Some? ensures !Dest(s.ns[i].key.value, |s.a|) {
      assert s'.ns[i].key == s.ns[i].key;
    }
  }

  lemma SameSize(s: Snap, s': Snap)
    requires SameShape(s.a, s.ns, s'.a, s'.ns)
    ensures |s'.a| == |s.a| && |s'.ns| == |s.ns|
  {
  }

  lemma MoreCalls(snaps: seq<Snap>, rs: seq<Next>, s: Snap, r: Next)
    requires Calls(snaps, rs) && (rs != [] ==> rs[|rs| - 1].Entry?) && NextIs(s, ArgAt(rs, |rs|), r)
    requires if snaps == [] then SameShape(s.a, s.ns, s.a, s.ns) else SameShape(snaps[0].a, snaps[0].ns, s.a, s.ns)
    ensures Calls(snaps + [s], rs + [r])
  {
    hide NextIs, SameShape;
    assert forall i | 0 <= i <= |rs| :: ArgAt(rs + [r], i) == ArgAt(rs, i);
  }

  /** limit lies in the upper half of an array of size n, a power of two. */
  ghost predicate Halved(limit: nat, n: nat) {
    limit <= n <= MAX_ASIZE && exists p: nat :: 0 < p <= 32 && n == Pow2(p) && Pow2(p - 1) < limit <= Pow2(p)
  }

  /** n is the largest power of two such that more than half of the slots 1..n are in use, counting
      the key to come, or 0 if there is none. */
  ghost predicate Optimum(a: seq<Value>, ns: seq<Node>, extra: Key, n: nat) {
    && (n == 0 || exists m: nat :: m < 32 && n == Pow2(m) && Used(a, ns, extra, n) > n / 2)
    && forall m: nat | m < 32 && Pow2(m) > n :: Used(a, ns, extra, Pow2(m)) <= Pow2(m) / 2
  }
}
