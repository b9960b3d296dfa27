/** `table.sort`: a quicksort in place that recurs on the smaller side only. */
module TableSort {
  import opened TableBits

  /** What a comparison answers; `Raised` stands for an error in the comparator. */
  datatype Verdict = Less | NotLess | Raised

  type Order<!T> = (T, T) -> Verdict

  datatype Outcome = Done | InvalidOrder | CmpError

  datatype Split = At(index: nat) | Failed(why: Outcome)

  ghost predicate StrictWeak<T(!new)>(less: Order<T>) {
    && (forall x, y :: less(x, y) != Raised)
    && (forall x :: less(x, x) == NotLess)
    && (forall x, y, z :: less(x, y) == Less && less(y, z) == Less ==> less(x, z) == Less)
    && (forall x, y, z :: less(x, y) == NotLess && less(y, z) == NotLess ==> less(x, z) == NotLess)
  }

  // ---------------------------------------------------------------------- rearranging

  /** t is s with the elements from lo up to, not including, hi in some other order. */
  ghost predicate Rearranged<T>(s: seq<T>, t: seq<T>, lo: nat, hi: nat) {
    && |t| == |s| && lo <= hi <= |s| && t[..lo] == s[..lo] && t[hi..] == s[hi..]
    && multiset(t[lo..hi]) == multiset(s[lo..hi])
  }

  lemma RearrangedTrans<T>(s: seq<T>, t: seq<T>, u: seq<T>, lo: nat, hi: nat)
    requires Rearranged(s, t, lo, hi) && Rearranged(t, u, lo, hi)
    ensures Rearranged(s, u, lo, hi)
  {
  }

  /** Rearranging a part rearranges the whole. */
  lemma RearrangedIn<T>(s: seq<T>, t: seq<T>, lo: nat, hi: nat, lo': nat, hi': nat)
    requires Rearranged(s, t, lo', hi') && lo <= lo' <= hi' <= hi <= |s|
    ensures Rearranged(s, t, lo, hi)
  {
    assert s[lo..hi] == s[lo..lo'] + s[lo'..hi'] + s[hi'..hi];
    assert t[lo..hi] == t[lo..lo'] + t[lo'..hi'] + t[hi'..hi];
    assert t[lo..lo'] == t[..lo'][lo..] == s[lo..lo'];
    assert t[hi'..hi] == t[hi'..][..hi - hi'] == s[hi'..hi];
    assert t[..lo] == t[..lo'][..lo] == s[..lo];
    assert t[hi..] == t[hi'..][hi - hi'..] == s[hi..];
  }

  lemma SwapRearranged<T>(s: seq<T>, i: nat, j: nat, lo: nat, hi: nat)
    requires lo <= i < hi <= |s| && lo <= j < hi
    ensures Rearranged(s, s[i := s[j]][j := s[i]], lo, hi)
  {
    var t := s[i := s[j]][j := s[i]];
    var r, r' := s[lo..hi], t[lo..hi];
    assert r' == r[i - lo := r[j - lo]][j - lo := r[i - lo]];
    assert multiset(r') == multiset(r);
  }

  /** What holds of all elements of the range still does. */
  lemma RearrangedAll<T(!new)>(s: seq<T>, t: seq<T>, lo: nat, hi: nat, P: T -> bool)
    requires Rearranged(s, t, lo, hi) && forall k | lo <= k < hi :: P(s[k])
    ensures forall k | lo <= k < hi :: P(t[k])
  {
    forall k | lo <= k < hi ensures P(t[k]) {
      var m := Source(s, t, lo, hi, k);
    }
  }

  lemma RearrangedOut<T>(s: seq<T>, t: seq<T>, lo: nat, hi: nat, k: nat)
    requires Rearranged(s, t, lo, hi) && k < |s| && !(lo <= k < hi)
    ensures t[k] == s[k]
  {
    if k < lo {
      assert t[k] == t[..lo][k];
    } else {
      assert t[k] == t[hi..][k - hi];
    }
  }

  lemma RearrangedSize<T>(s: seq<T>, t: seq<T>, lo: nat, hi: nat)
    requires Rearranged(s, t, lo, hi)
    ensures |t| == |s|
  {
  }

  /** Where an element was before: in the range if it is there now, in its place if not. */
  lemma Source<T>(s: seq<T>, t: seq<T>, lo: nat, hi: nat, k: nat) returns (m: nat)
    requires Rearranged(s, t, lo, hi) && k < |s|
    ensures m < |s| && t[k] == s[m] && if lo <= k < hi then lo <= m < hi else m == k
  {
    if lo <= k < hi {
      assert t[k] == t[lo..hi][k - lo] && t[k] in multiset(t[lo..hi]);
      assert t[k] in s[lo..hi];
      m :| lo <= m < hi && s[m] == t[k];
    } else {
      RearrangedOut(s, t, lo, hi, k);
      m := k;
    }
  }

  // ---------------------------------------------------------------------- order

  /** No element from lo to up is less than an earlier one. */
  ghost predicate SortedIn<T(!new)>(less: Order<T>, s: seq<T>, lo: nat, up: nat)
    requires up < |s|
  {
    forall i, j | lo <= i < j <= up :: less(s[j], s[i]) == NotLess
  }

  /** The order of every pair but those with both elements in [lo, up] is settled. */
  ghost predicate Settled<T(!new)>(less: Order<T>, s: seq<T>, lo0: nat, lo: nat, up: nat, up0: nat)
    requires up0 < |s|
  {
    forall i, j | lo0 <= i < j <= up0 && (i < lo || up < j) :: less(s[j], s[i]) == NotLess
  }

  /** Rearranging what is not settled leaves the rest settled. */
  lemma StillSettled<T(!new)>(less: Order<T>, s: seq<T>, t: seq<T>, lo0: nat, lo: nat, up: nat, up0: nat)
    requires up0 < |s| && lo0 <= lo <= up <= up0 && Rearranged(s, t, lo, up + 1)
    requires Settled(less, s, lo0, lo, up, up0)
    ensures Settled(less, t, lo0, lo, up, up0)
  {
    hide Rearranged;
    RearrangedSize(s, t, lo, up + 1);
    forall i, j | lo0 <= i < j <= up0 && (i < lo || up < j) ensures less(t[j], t[i]) == NotLess {
      var m := Source(s, t, lo, up + 1, i);
      var n := Source(s, t, lo, up + 1, j);
    }
  }

  /** The element at p is a pivot: nothing before it is greater, nothing after it less. */
  ghost predicate Pivot<T(!new)>(less: Order<T>, s: seq<T>, lo: nat, p: nat, up: nat)
    requires lo <= p <= up < |s|
  {
    && (forall k | lo <= k < p :: less(s[p], s[k]) == NotLess)
    && (forall k | p < k <= up :: less(s[k], s[p]) == NotLess)
  }

  lemma StillPivot<T(!new)>(less: Order<T>, s: seq<T>, t: seq<T>, lo: nat, p: nat, up: nat, lo': nat, hi': nat)
    requires lo <= p <= up < |s| && Pivot(less, s, lo, p, up) && Rearranged(s, t, lo', hi')
    requires (lo' == lo && hi' == p) || (lo' == p + 1 && hi' == up + 1)
    ensures Pivot(less, t, lo, p, up)
  {
    RearrangedOut(s, t, lo', hi', p);
    if hi' == p {
      RearrangedAll(s, t, lo', hi', x => less(s[p], x) == NotLess);
    } else {
      RearrangedAll(s, t, lo', hi', x => less(x, s[p]) == NotLess);
    }
    forall k | lo <= k <= up && !(lo' <= k < hi') ensures t[k] == s[k] {
      RearrangedOut(s, t, lo', hi', k);
    }
  }

  /** With a pivot and one side sorted, only the other side is left. */
  lemma OneSide<T(!new)>(less: Order<T>, s: seq<T>, lo0: nat, lo: nat, p: nat, up: nat, up0: nat, left: bool)
    requires StrictWeak(less) && up0 < |s| && lo0 <= lo < p < up <= up0
    requires Settled(less, s, lo0, lo, up, up0) && Pivot(less, s, lo, p, up)
    requires if left then SortedIn(less, s, lo, p - 1) else SortedIn(less, s, p + 1, up)
    ensures if left then Settled(less, s, lo0, p + 1, up, up0) else Settled(less, s, lo0, lo, p - 1, up0)
  {
    forall i, j | lo0 <= i < j <= up0 && (if left then i < p + 1 || up < j else i < lo || p - 1 < j)
      ensures less(s[j], s[i]) == NotLess
    {
      if lo <= i && j <= up {
        if i < p < j {
          assert less(s[j], s[p]) == NotLess && less(s[p], s[i]) == NotLess;
        }
      }
    }
  }

  // ---------------------------------------------------------------------- the methods

  /** `choose_pivot`: somewhere in the middle half. */
  function ChoosePivot(lo: nat, up: nat, rnd: nat): (p: nat)
    requires up - lo >= 100
    ensures lo < p < up
  {
    var r4 := (up - lo) / 4;
    rnd % (r4 * 2) + (lo + r4)
  }

  method Swap<T>(a: array<T>, i: nat, j: nat, ghost lo: nat, ghost hi: nat)
    requires lo <= i < hi <= a.Length && lo <= j < hi
    modifies a
    ensures a[..] == old(a[..])[i := old(a[j])][j := old(a[i])]
    ensures Rearranged(old(a[..]), a[..], lo, hi)
    ensures a[i] == old(a[j]) && a[j] == old(a[i])
    ensures forall k | 0 <= k < a.Length && k != i && k != j :: a[k] == old(a[k])
  {
    SwapRearranged(a[..], i, j, lo, hi);
    a[i], a[j] := a[j], a[i];
  }

  /** The first inner loop of `partition`: skips what is less than the pivot, which waits at up - 1. */
  method ScanUp<T(!new)>(a: array<T>, pivot: T, i0: nat, up: nat, less: Order<T>) returns (i: nat, r: Outcome)
    requires i0 + 1 < up <= a.Length
    ensures i0 < i < up
    ensures forall k | i0 < k < i :: less(a[k], pivot) == Less
    ensures less(a[i], pivot) == match r case Done => NotLess case CmpError => Raised case InvalidOrder => Less
    ensures r == InvalidOrder ==> i == up - 1
  {
    i := i0 + 1;
    while less(a[i], pivot) == Less
      invariant i0 < i < up
      invariant forall k | i0 < k < i :: less(a[k], pivot) == Less
      decreases up - i
    {
      if i == up - 1 {
        return i, InvalidOrder;
      }
      i := i + 1;
    }
    r := if less(a[i], pivot) == Raised then CmpError else Done;
  }

  /** The second inner loop: skips, downwards, what is greater than the pivot. */
  method ScanDown<T(!new)>(a: array<T>, pivot: T, i: nat, j0: nat, lo: nat, less: Order<T>)
    returns (j: nat, r: Outcome)
    requires lo < j0 <= a.Length && lo < i
    ensures lo <= j < j0
    ensures forall k | j < k < j0 :: less(pivot, a[k]) == Less
    ensures less(pivot, a[j]) == match r case Done => NotLess case CmpError => Raised case InvalidOrder => Less
    ensures r == InvalidOrder ==> j < i
  {
    j := j0 - 1;
    while less(pivot, a[j]) == Less
      invariant lo <= j < j0
      invariant forall k | j < k < j0 :: less(pivot, a[k]) == Less
      decreases j
    {
      if j < i {
        return j, InvalidOrder;
      }
      j := j - 1;
    }
    r := if less(pivot, a[j]) == Raised then CmpError else Done;
  }

  /** Nothing up to i is greater than the pivot and nothing from j on is less. */
  ghost predicate Parted<T(!new)>(less: Order<T>, s: seq<T>, pivot: T, lo: nat, i: nat, j: nat, up: nat)
    requires up < |s|
  {
    && (forall k | lo <= k <= i && k <= up :: less(pivot, s[k]) == NotLess)
    && (forall k | j <= k <= up :: less(s[k], pivot) == NotLess)
  }

  /** Both scans. A strict weak order lets neither run past the end. */
  method Scan<T(!new)>(a: array<T>, pivot: T, lo: nat, i0: nat, j0: nat, up: nat, less: Order<T>)
    returns (i: nat, j: nat, r: Outcome)
    requires lo <= i0 <= j0 < up < a.Length && lo < j0 && i0 < up - 1 && a[up - 1] == pivot
    ensures i0 < i < up && lo <= j < j0
    ensures r == Done ==> less(a[i], pivot) == NotLess && less(pivot, a[j]) == NotLess
    ensures StrictWeak(less) && Parted(less, a[..], pivot, lo, i0, j0, up) ==>
      r == Done && Parted(less, a[..], pivot, lo, i - 1, j + 1, up)
  {
    hide StrictWeak, Parted;
    i, r := ScanUp(a, pivot, i0, up, less);
    j := j0 - 1;
    if StrictWeak(less) {
      NotPastPivot(less, pivot);
    }
    if r == Done {
      j, r := ScanDown(a, pivot, i, j0, lo, less);
      if StrictWeak(less) && Parted(less, a[..], pivot, lo, i0, j0, up) {
        Scanned(less, a[..], pivot, lo, i0, j0, i, j, up);
      }
    }
  }

  method PlacePivot<T(!new)>(a: array<T>, pivot: T, lo: nat, i: nat, ghost j: nat, up: nat, less: Order<T>)
    requires lo < i < up < a.Length && lo <= j < i && a[up - 1] == pivot
    modifies a
    ensures Rearranged(old(a[..]), a[..], lo, up + 1) && a[i] == pivot
    ensures StrictWeak(less) && old(Parted(less, a[..], pivot, lo, i - 1, j + 1, up)) ==> Pivot(less, a[..], lo, i, up)
  {
    hide Rearranged, StrictWeak, Parted, Pivot;
    ghost var t := a[..];
    Swap(a, up - 1, i, lo, up + 1);
    PivotPlaced(less, t, a[..], pivot, lo, i, j, up);
  }

  method Exchange<T(!new)>(a: array<T>, pivot: T, lo: nat, i: nat, j: nat, up: nat, less: Order<T>)
    requires lo < i <= j < up - 1 < a.Length - 1 && a[up - 1] == pivot
    requires less(a[i], pivot) == NotLess && less(pivot, a[j]) == NotLess
    modifies a
    ensures Rearranged(old(a[..]), a[..], lo, up + 1) && a[up - 1] == pivot
    ensures old(Parted(less, a[..], pivot, lo, i - 1, j + 1, up)) ==> Parted(less, a[..], pivot, lo, i, j, up)
  {
    hide Rearranged, Parted;
    ghost var t := a[..];
    Swap(a, i, j, lo, up + 1);
    PartedSwap(less, t, a[..], pivot, lo, i, j, up);
  }

  /** `partition`. */
  method Partition<T(!new)>(a: array<T>, pivot: T, lo: nat, up: nat, less: Order<T>) returns (r: Split)
    requires up < a.Length && up - lo >= 3 && a[up - 1] == pivot
    modifies a
    ensures Rearranged(old(a[..]), a[..], lo, up + 1)
    ensures if r.At? then lo < r.index < up && a[r.index] == pivot else r.why != Done
    ensures StrictWeak(less) && old(less(pivot, a[lo]) == NotLess && less(a[up], pivot) == NotLess) ==>
      r.At? && Pivot(less, a[..], lo, r.index, up)
  {
    hide Rearranged, StrictWeak, Parted, Pivot;
    ghost var good := StrictWeak(less) && less(pivot, a[lo]) == NotLess && less(a[up], pivot) == NotLess;
    ghost var s := a[..];
    RearrangedSelf(s, lo, up + 1);
    var i, j := lo, up - 1;
    PartedStart(less, s, pivot, lo, up);
    while true
      invariant lo <= i <= j < up && lo < j && i < up - 1 && a[up - 1] == pivot
      invariant Rearranged(s, a[..], lo, up + 1)
      invariant good ==> Parted(less, a[..], pivot, lo, i, j, up)
      decreases j - i
    {
      var why;
      i, j, why := Scan(a, pivot, lo, i, j, up, less);
      if why != Done {
        return Failed(why);
      }
      ghost var t := a[..];
      if j < i {
        PlacePivot(a, pivot, lo, i, j, up, less);
        RearrangedTrans(s, t, a[..], lo, up + 1);
        return At(i);
      }
      Exchange(a, pivot, lo, i, j, up, less);
      RearrangedTrans(s, t, a[..], lo, up + 1);
    }
  }

  lemma PartedStart<T(!new)>(less: Order<T>, s: seq<T>, pivot: T, lo: nat, up: nat)
    requires lo < up < |s| && s[up - 1] == pivot
    ensures StrictWeak(less) && less(pivot, s[lo]) == NotLess && less(s[up], pivot) == NotLess ==>
      Parted(less, s, pivot, lo, lo, up - 1, up)
  {
  }

  lemma NotPastPivot<T(!new)>(less: Order<T>, pivot: T)
    requires StrictWeak(less)
    ensures less(pivot, pivot) == NotLess
    ensures forall x :: less(x, pivot) != Raised && less(pivot, x) != Raised
  {
  }

  /** What the scans passed is on its side, and they stop where they should. */
  lemma Scanned<T(!new)>(less: Order<T>, s: seq<T>, pivot: T, lo: nat, i0: nat, j0: nat, i: nat, j: nat, up: nat)
    requires StrictWeak(less) && lo <= i0 <= j0 < up < |s| && Parted(less, s, pivot, lo, i0, j0, up)
    requires i0 < i < up && lo <= j < j0
    requires forall k | i0 < k < i :: less(s[k], pivot) == Less
    requires forall k | j < k < j0 :: less(pivot, s[k]) == Less
    ensures Parted(less, s, pivot, lo, i - 1, j + 1, up)
    ensures less(pivot, s[j]) != Raised && (j < i ==> less(pivot, s[j]) == NotLess)
  {
    forall x | less(x, pivot) == Less ensures less(pivot, x) == NotLess {
      assert less(pivot, pivot) == NotLess;
    }
    forall x | less(pivot, x) == Less ensures less(x, pivot) == NotLess {
      assert less(pivot, pivot) == NotLess;
    }
  }

  lemma PartedSwap<T(!new)>(less: Order<T>, s: seq<T>, t: seq<T>, pivot: T, lo: nat, i: nat, j: nat, up: nat)
    requires lo < i <= j < up < |s|
    requires less(s[i], pivot) == NotLess && less(pivot, s[j]) == NotLess
    requires t == s[i := s[j]][j := s[i]]
    ensures Parted(less, s, pivot, lo, i - 1, j + 1, up) ==> Parted(less, t, pivot, lo, i, j, up)
  {
  }

  lemma PivotPlaced<T(!new)>(less: Order<T>, s: seq<T>, t: seq<T>, pivot: T, lo: nat, i: nat, j: nat, up: nat)
    requires lo < i < up < |s| && lo <= j < i
    requires s[up - 1] == pivot && t == s[up - 1 := s[i]][i := s[up - 1]]
    ensures StrictWeak(less) && Parted(less, s, pivot, lo, i - 1, j + 1, up) ==> Pivot(less, t, lo, i, up)
  {
  }

  /** The length of a run of recursive calls stays logarithmic. */
  ghost predicate Shallow(depth: nat, size: nat) {
    Pow2(depth) <= if size == 0 then 1 else size
  }

  lemma MedianOf<T(!new)>(less: Order<T>, x: T, y: T, z: T)
    ensures StrictWeak(less) ==> less(y, x) != Raised && less(z, y) != Raised
    ensures StrictWeak(less) && less(z, x) == NotLess && less(y, x) == Less ==>
      less(x, y) == NotLess && less(z, y) == NotLess
    ensures StrictWeak(less) && less(z, x) == NotLess && less(y, x) == NotLess && less(z, y) == Less ==>
      less(y, z) == NotLess && less(y, x) == NotLess
  {
  }

  /** The three exchanges that put the median of the ends and the element at p there. */
  method Median<T(!new)>(a: array<T>, lo: nat, p: nat, up: nat, less: Order<T>) returns (r: Outcome)
    requires lo < p < up < a.Length
    modifies a
    ensures Rearranged(old(a[..]), a[..], lo, up + 1) && r != InvalidOrder
    ensures StrictWeak(less) && old(less(a[up], a[lo])) == NotLess ==>
      r == Done && less(a[p], a[lo]) == NotLess && less(a[up], a[p]) == NotLess && less(a[up], a[lo]) == NotLess
  {
    hide StrictWeak, Rearranged;
    RearrangedSelf(a[..], lo, up + 1);
    ghost var x, y, z := a[lo], a[p], a[up];
    MedianOf(less, x, y, z);
    r := Done;
    if less(a[p], a[lo]) == Raised {
      return CmpError;
    }
    if less(a[p], a[lo]) == Less {
      Swap(a, p, lo, lo, up + 1);
      assert a[lo] == y && a[p] == x && a[up] == z;
    } else {
      if less(a[up], a[p]) == Raised {
        return CmpError;
      }
      if less(a[up], a[p]) == Less {
        Swap(a, p, up, lo, up + 1);
        assert a[lo] == x && a[p] == z && a[up] == y;
      }
    }
  }

  /** The exchange of the ends. */
  method Ends<T(!new)>(a: array<T>, lo: nat, up: nat, less: Order<T>) returns (r: Outcome)
    requires lo < up < a.Length
    modifies a
    ensures Rearranged(old(a[..]), a[..], lo, up + 1) && r != InvalidOrder
    ensures StrictWeak(less) ==> r == Done && less(a[up], a[lo]) == NotLess
  {
    assert Rearranged(a[..], a[..], lo, up + 1);
    r := Done;
    if less(a[up], a[lo]) == Raised {
      return CmpError;
    }
    if less(a[up], a[lo]) == Less {
      Swap(a, lo, up, lo, up + 1);
    }
  }

  /** Puts the median of the ends and a point between them there. That sorts three elements. */
  method Middle<T(!new)>(a: array<T>, lo: nat, up: nat, rnd: nat, less: Order<T>) returns (r: Outcome, p: nat)
    requires lo + 1 < up < a.Length <= 0x7FFF_FFFF
    modifies a
    ensures Rearranged(old(a[..]), a[..], lo, up + 1) && lo < p < up && r != InvalidOrder
    ensures StrictWeak(less) && old(less(a[up], a[lo])) == NotLess ==>
      && r == Done && less(a[p], a[lo]) == NotLess && less(a[up], a[p]) == NotLess && less(a[up], a[lo]) == NotLess
      && (up - lo == 2 ==> SortedIn(less, a[..], lo, up))
  {
    hide Rearranged, StrictWeak, SortedIn;
    MidPoint(lo, up);
    p := if up - lo < 100 || rnd == 0 then (lo + up) % 0x1_0000_0000 / 2 else ChoosePivot(lo, up, rnd);
    r := Median(a, lo, p, up, less);
    if up - lo == 2 {
      SortedThree(a[..], lo, up, less);
    }
  }

  /** One turn of the loop of `auxsort`, up to the recursive call: Done with a pivot, or with two or
      three elements that are sorted. */
  method Divide<T(!new)>(a: array<T>, lo: nat, up: nat, rnd: nat, less: Order<T>) returns (r: Outcome, p: nat)
    requires lo < up < a.Length <= 0x7FFF_FFFF
    modifies a
    ensures Rearranged(old(a[..]), a[..], lo, up + 1)
    ensures r == Done && up - lo > 2 ==> lo < p < up
    ensures StrictWeak(less) ==>
      r == Done && if up - lo > 2 then Pivot(less, a[..], lo, p, up) else SortedIn(less, a[..], lo, up)
  {
    hide Rearranged, StrictWeak, Pivot, SortedIn;
    ghost var s := a[..];
    p := lo;
    r := Ends(a, lo, up, less);
    if r != Done || up - lo == 1 {
      SortedTwo(a[..], lo, up, less);
      return;
    }
    ghost var t := a[..];
    r, p := Middle(a, lo, up, rnd, less);
    RearrangedTrans(s, t, a[..], lo, up + 1);
    if r != Done || up - lo == 2 {
      return;
    }
    ghost var u := a[..];
    r, p := AroundPivot(a, lo, p, up, less);
    RearrangedTrans(s, u, a[..], lo, up + 1);
  }

  lemma MidPoint(lo: nat, up: nat)
    requires lo + 2 <= up < 0x7FFF_FFFF
    ensures lo < (lo + up) % 0x1_0000_0000 / 2 < up
    ensures up == lo + 2 ==> (lo + up) % 0x1_0000_0000 / 2 == lo + 1
  {
  }

  /** The median moves to up - 1, and the rest is divided. */
  method AroundPivot<T(!new)>(a: array<T>, lo: nat, mid: nat, up: nat, less: Order<T>) returns (r: Outcome, p: nat)
    requires lo < mid < up < a.Length && up - lo > 2
    modifies a
    ensures Rearranged(old(a[..]), a[..], lo, up + 1)
    ensures r == Done ==> lo < p < up
    ensures StrictWeak(less) && old(less(a[mid], a[lo]) == NotLess && less(a[up], a[mid]) == NotLess) ==>
      r == Done && Pivot(less, a[..], lo, p, up)
  {
    hide Rearranged, StrictWeak, Pivot;
    ghost var s := a[..];
    Swap(a, mid, up - 1, lo, up + 1);
    ghost var v := a[..];
    var at := Partition(a, a[up - 1], lo, up, less);
    RearrangedTrans(s, v, a[..], lo, up + 1);
    match at {
      case At(i) => r, p := Done, i;
      case Failed(why) => r, p := why, lo;
    }
  }

  lemma SortedTwo<T(!new)>(s: seq<T>, lo: nat, up: nat, less: Order<T>)
    requires lo < up < |s|
    ensures up - lo == 1 && less(s[up], s[lo]) == NotLess ==> SortedIn(less, s, lo, up)
  {
  }

  lemma SortedThree<T(!new)>(s: seq<T>, lo: nat, up: nat, less: Order<T>)
    requires lo < up < |s|
    requires up - lo == 2
    ensures less(s[lo + 1], s[lo]) == less(s[up], s[lo + 1]) == less(s[up], s[lo]) == NotLess ==> SortedIn(less, s, lo, up)
  {
  }

  /** `auxsort`; `random` stands for the generator. Whatever the comparator does, the array stays a
      permutation and only the range changes; a strict weak order never looks invalid and sorts. */
  method AuxSort<T(!new)>(a: array<T>, lo0: nat, up0: nat, rnd0: nat, less: Order<T>, random: (nat, nat) -> nat)
    returns (r: Outcome, ghost depth: nat)
    requires lo0 <= up0 < a.Length <= 0x7FFF_FFFF
    modifies a
    ensures Rearranged(old(a[..]), a[..], lo0, up0 + 1)
    ensures StrictWeak(less) ==> r == Done && SortedIn(less, a[..], lo0, up0)
    ensures Shallow(depth, up0 + 1 - lo0)
    decreases up0 - lo0
  {
    hide Rearranged, StrictWeak, SortedIn, Pivot, Settled;
    ghost var s := a[..];
    RearrangedSelf(s, lo0, up0 + 1);
    NoneSettled(less, s, lo0, up0);
    var lo, up, rnd := lo0, up0, rnd0;
    r, depth := Done, 0;
    while lo < up
      invariant lo0 <= lo <= up <= up0 && r == Done
      invariant Rearranged(s, a[..], lo0, up0 + 1)
      invariant StrictWeak(less) ==> Settled(less, a[..], lo0, lo, up, up0)
      invariant Shallow(depth, up0 + 1 - lo0)
      decreases up - lo
    {
      ghost var t := a[..];
      var p;
      r, p := Divide(a, lo, up, rnd, less);
      Advance(less, s, t, a[..], lo0, lo, lo, up + 1, up, up0);
      if r != Done {
        return;
      }
      if up - lo <= 2 {
        AllSorted(less, a[..], lo0, lo, up, up0);
        return;
      }
      ghost var u := a[..];
      var n;
      ghost var d;
      if p - lo < up - p {
        r, d := AuxSort(a, lo, p - 1, rnd, less, random);
        Recursed(less, s, u, a[..], lo0, lo, p, up, up0, true);
        n := p - lo;
        lo := p + 1;
      } else {
        r, d := AuxSort(a, p + 1, up, rnd, less, random);
        Recursed(less, s, u, a[..], lo0, lo, p, up, up0, false);
        n := up - p;
        up := p - 1;
      }
      depth := if d + 1 > depth then d + 1 else depth;
      if r != Done {
        return;
      }
      if (up - lo) % 0x1_0000_0000 / 128 > n {
        rnd := random(lo, up);
      }
    }
    AllSettled(less, a[..], lo0, lo, up, up0);
  }

  lemma RearrangedSelf<T>(s: seq<T>, lo: nat, hi: nat)
    requires lo <= hi <= |s|
    ensures Rearranged(s, s, lo, hi)
  {
  }

  lemma NoneSettled<T(!new)>(less: Order<T>, s: seq<T>, lo: nat, up: nat)
    requires up < |s|
    ensures Settled(less, s, lo, lo, up, up)
  {
  }

  /** A rearrangement of what is not settled, seen from the whole range. */
  lemma Advance<T(!new)>(less: Order<T>, s: seq<T>, t: seq<T>, u: seq<T>, lo0: nat, lo: nat, lo': nat, hi': nat,
                         up: nat, up0: nat)
    requires up0 < |s| && lo0 <= lo <= lo' <= hi' <= up + 1 <= up0 + 1
    requires Rearranged(s, t, lo0, up0 + 1) && Rearranged(t, u, lo', hi')
    ensures Rearranged(s, u, lo0, up0 + 1) && |u| == |t| == |s|
    ensures lo <= up && Settled(less, t, lo0, lo, up, up0) ==> Settled(less, u, lo0, lo, up, up0)
  {
    RearrangedIn(t, u, lo0, up0 + 1, lo', hi');
    RearrangedTrans(s, t, u, lo0, up0 + 1);
    RearrangedIn(t, u, lo, up + 1, lo', hi');
    if lo <= up && Settled(less, t, lo0, lo, up, up0) {
      StillSettled(less, t, u, lo0, lo, up, up0);
    }
  }

  /** After the recursive call on one side of the pivot. */
  lemma Recursed<T(!new)>(less: Order<T>, s: seq<T>, t: seq<T>, u: seq<T>, lo0: nat, lo: nat, p: nat, up: nat,
                          up0: nat, left: bool)
    requires up0 < |s| && lo0 <= lo < p < up <= up0
    requires Rearranged(s, t, lo0, up0 + 1)
    requires if left then Rearranged(t, u, lo, p) else Rearranged(t, u, p + 1, up + 1)
    ensures Rearranged(s, u, lo0, up0 + 1) && |u| == |t| == |s|
    ensures StrictWeak(less) && Settled(less, t, lo0, lo, up, up0) && Pivot(less, t, lo, p, up)
            && (if left then SortedIn(less, u, lo, p - 1) else SortedIn(less, u, p + 1, up)) ==>
      if left then Settled(less, u, lo0, p + 1, up, up0) else Settled(less, u, lo0, lo, p - 1, up0)
  {
    hide SortedIn, StrictWeak, Settled, Pivot;
    var lo', hi' := if left then lo else p + 1, if left then p else up + 1;
    Advance(less, s, t, u, lo0, lo, lo', hi', up, up0);
    if StrictWeak(less) && Settled(less, t, lo0, lo, up, up0) && Pivot(less, t, lo, p, up)
       && (if left then SortedIn(less, u, lo, p - 1) else SortedIn(less, u, p + 1, up)) {
      StillPivot(less, t, u, lo, p, up, lo', hi');
      OneSide(less, u, lo0, lo, p, up, up0, left);
    }
  }

  lemma AllSorted<T(!new)>(less: Order<T>, s: seq<T>, lo0: nat, lo: nat, up: nat, up0: nat)
    requires up0 < |s| && lo0 <= lo <= up <= up0
    ensures Settled(less, s, lo0, lo, up, up0) && SortedIn(less, s, lo, up) ==> SortedIn(less, s, lo0, up0)
  {
  }

  lemma AllSettled<T(!new)>(less: Order<T>, s: seq<T>, lo0: nat, lo: nat, up: nat, up0: nat)
    requires up0 < |s| && lo0 <= lo <= up <= up0 && lo >= up
    ensures Settled(less, s, lo0, lo, up, up0) ==> SortedIn(less, s, lo0, up0)
  {
  }

  /** `table.sort` on the elements 1 to n of a table, here those of the array. */
  method Sort<T(!new)>(a: array<T>, less: Order<T>, random: (nat, nat) -> nat) returns (r: Outcome)
    requires a.Length < 0x7FFF_FFFF
    modifies a
    ensures multiset(a[..]) == multiset(old(a[..]))
    ensures StrictWeak(less) ==>
      r == Done && forall i, j | 0 <= i < j < a.Length :: less(a[j], a[i]) == NotLess
  {
    r := Done;
    if a.Length <= 1 {
      return;
    }
    ghost var s := a[..];
    ghost var depth;
    r, depth := AuxSort(a, 0, a.Length - 1, 0, less, random);
    assert s[0..a.Length] == s && a[..][0..a.Length] == a[..];
  }
}
