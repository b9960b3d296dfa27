/** How a rehash counts keys and chooses the size of the array part. */
module TableSize {
  import opened Basics
  import opened TableBits
  import opened TableHash

  // ---------------------------------------------------------------------- luaO_ceillog2

  function BitLen(x: nat): nat {
    if x == 0 then 0 else 1 + BitLen(x / 2)
  }

  function CeilLog2(x: nat): nat
    requires x > 0
  {
    BitLen(x - 1)
  }

  lemma {:induction false} BitLenIs(x: nat)
    ensures x < Pow2(BitLen(x)) && (x > 0 ==> BitLen(x) > 0 && Pow2(BitLen(x) - 1) <= x)
  {
    if x > 0 {
      BitLenIs(x / 2);
    }
  }

  /** The least exponent whose power of two is not below x. */
  lemma CeilLog2Is(x: nat)
    requires x > 0
    ensures x <= Pow2(CeilLog2(x)) && (CeilLog2(x) > 0 ==> Pow2(CeilLog2(x) - 1) < x)
  {
    BitLenIs(x - 1);
  }

  lemma CeilLog2Bound(x: nat, e: nat)
    requires 0 < x <= Pow2(e)
    ensures CeilLog2(x) <= e
  {
    CeilLog2Is(x);
    if CeilLog2(x) > e {
      Pow2Mono(e, CeilLog2(x) - 1);
    }
  }

  lemma BitLenByte(y: nat)
    requires y >= 256
    ensures BitLen(y) == 8 + BitLen(y / 256)
  {
    assert BitLen(y) == 2 + BitLen(y / 2 / 2);
    assert BitLen(y / 4) == 2 + BitLen(y / 4 / 2 / 2);
    assert BitLen(y / 16) == 2 + BitLen(y / 16 / 2 / 2);
    assert BitLen(y / 64) == 2 + BitLen(y / 64 / 2 / 2);
    assert y / 2 / 2 == y / 4 && y / 4 / 2 / 2 == y / 16 && y / 16 / 2 / 2 == y / 64 && y / 64 / 2 / 2 == y / 256;
  }

  /** `luaO_ceillog2`: the table holds the bit lengths of the bytes. */
  method ComputeCeilLog2(x: nat) returns (r: nat)
    requires x > 0
    ensures r == CeilLog2(x)
  {
    var y: nat, l: nat := x - 1, 0;
    while y >= 256
      invariant BitLen(x - 1) == l + BitLen(y)
    {
      BitLenByte(y);
      l, y := l + 8, y / 256;
    }
    r := l + BitLen(y);
  }

  // ---------------------------------------------------------------------- counting keys

  const MAX_ASIZE: nat := 0x8000_0000

  /** An integer key that a slot of an array of size n is for. */
  predicate Dest(k: Key, n: nat) {
    k.Int? && 1 <= k.i <= n
  }

  function One(b: bool): nat {
    if b then 1 else 0
  }

  /** Used slots with indices in [lo, hi). */
  function ArrCount(a: seq<Value>, lo: nat, hi: nat): nat
    requires lo <= hi <= |a|
  {
    if lo == hi then 0 else ArrCount(a, lo, hi - 1) + One(a[hi - 1] != Nil)
  }

  predicate Live(n: Node) {
    n.val != Nil && n.key.Some?
  }

  /** Nodes in use whose keys belong into an array of size n. */
  function NodeCount(ns: seq<Node>, n: nat): nat {
    if ns == [] then 0 else One(Live(ns[0]) && Dest(ns[0].key.value, n)) + NodeCount(ns[1..], n)
  }

  /** Nodes in use whose keys do not. */
  function Staying(ns: seq<Node>, n: nat): nat {
    if ns == [] then 0 else One(Live(ns[0]) && !Dest(ns[0].key.value, n)) + Staying(ns[1..], n)
  }

  function LiveNodes(ns: seq<Node>): nat {
    if ns == [] then 0 else One(Live(ns[0])) + LiveNodes(ns[1..])
  }

  function Min(a: nat, b: nat): nat {
    if a < b then a else b
  }

  /** How many of the slots 1..n would be in use, with one more key. */
  function Used(a: seq<Value>, ns: seq<Node>, extra: Key, n: nat): nat {
    ArrCount(a, 0, Min(n, |a|)) + NodeCount(ns, n) + One(Dest(extra, n))
  }

  /** How many entries the hash part must hold when the array part gets size n. */
  function Need(a: seq<Value>, ns: seq<Node>, n: nat): nat {
    ArrCount(a, Min(n, |a|), |a|) + Staying(ns, n)
  }

  lemma {:induction false} FewStay(ns: seq<Node>, n: nat)
    ensures Staying(ns, n) <= |ns|
  {
    if ns != [] {
      FewStay(ns[1..], n);
    }
  }

  lemma {:induction false} ArrCountSplit(a: seq<Value>, lo: nat, mid: nat, hi: nat)
    requires lo <= mid <= hi <= |a|
    ensures ArrCount(a, lo, hi) == ArrCount(a, lo, mid) + ArrCount(a, mid, hi)
  {
    if mid < hi {
      ArrCountSplit(a, lo, mid, hi - 1);
    }
  }

  lemma {:induction false} NodeSplit(ns: seq<Node>, n: nat)
    ensures LiveNodes(ns) == NodeCount(ns, n) + Staying(ns, n)
  {
    if ns != [] {
      NodeSplit(ns[1..], n);
    }
  }

  /** What is counted in all, less what goes into the array, is what the hash part must hold. */
  lemma NeedIs(a: seq<Value>, ns: seq<Node>, extra: Key, n: nat)
    ensures ArrCount(a, 0, |a|) + LiveNodes(ns) + 1 - Used(a, ns, extra, n)
            == Need(a, ns, n) + One(!Dest(extra, n))
  {
    ArrCountSplit(a, 0, Min(n, |a|), |a|);
    NodeSplit(ns, n);
  }

  // ---------------------------------------------------------------------- slices

  /** Slice b holds the keys above 2^(b-1) up to 2^b; slice 0 holds key 1. */
  predicate InSlice(k: Key, b: nat) {
    k.Int? && (if b == 0 then k.i == 1 else Pow2(b - 1) < k.i <= Pow2(b))
  }

  function SliceNodes(ns: seq<Node>, b: nat): nat {
    if ns == [] then 0 else One(Live(ns[0]) && InSlice(ns[0].key.value, b)) + SliceNodes(ns[1..], b)
  }

  function SliceEnd(a: seq<Value>, b: nat): (r: nat)
    ensures r <= |a|
  {
    Min(Pow2(b), |a|)
  }

  function SliceStart(a: seq<Value>, b: nat): (r: nat)
    ensures r <= SliceEnd(a, b)
  {
    if b == 0 then 0 else Min(Pow2(b - 1), |a|)
  }

  function SliceArr(a: seq<Value>, b: nat): nat {
    ArrCount(a, SliceStart(a, b), SliceEnd(a, b))
  }

  function Sum(nums: seq<nat>, n: nat): nat
    requires n <= |nums|
  {
    if n == 0 then 0 else Sum(nums, n - 1) + nums[n - 1]
  }

  /** nums counts the keys of each slice. */
  ghost predicate Counts(nums: seq<nat>, a: seq<Value>, ns: seq<Node>, extra: Option<Key>) {
    |nums| == 32 &&
    forall b | 0 <= b < 32 ::
      nums[b] == SliceArr(a, b) + SliceNodes(ns, b) + One(extra.Some? && InSlice(extra.value, b))
  }

  lemma {:induction false} DestSlices(k: Key, b: nat)
    ensures Dest(k, Pow2(b)) <==> InSlice(k, b) || (b > 0 && Dest(k, Pow2(b - 1)))
    ensures !(InSlice(k, b) && b > 0 && Dest(k, Pow2(b - 1)))
  {
  }

  lemma {:induction false} NodeSlices(ns: seq<Node>, b: nat)
    ensures NodeCount(ns, Pow2(b)) == SliceNodes(ns, b) + (if b == 0 then 0 else NodeCount(ns, Pow2(b - 1)))
  {
    if ns != [] {
      NodeSlices(ns[1..], b);
      if ns[0].key.Some? {
        DestSlices(ns[0].key.value, b);
      }
    }
  }

  /** The sum over the slices up to b is the number of keys up to 2^b. */
  lemma {:induction false} SumIs(nums: seq<nat>, a: seq<Value>, ns: seq<Node>, extra: Key, b: nat)
    requires Counts(nums, a, ns, Some(extra)) && b < 32
    ensures Sum(nums, b + 1) == Used(a, ns, extra, Pow2(b))
  {
    NodeSlices(ns, b);
    DestSlices(extra, b);
    ArrCountSplit(a, 0, SliceStart(a, b), SliceEnd(a, b));
    if b == 0 {
      assert Sum(nums, 1) == Sum(nums, 0) + nums[0];
    } else {
      SumIs(nums, a, ns, extra, b - 1);
      assert Sum(nums, b + 1) == Sum(nums, b) + nums[b];
    }
  }

  // ---------------------------------------------------------------------- `computesizes`

  /** More than half of the slots 1..2^i are in use. */
  predicate Dense(nums: seq<nat>, i: nat)
    requires i < |nums|
  {
    Sum(nums, i + 1) > Pow2(i) / 2
  }

  /** Of the exponents below e, m is the largest with a dense range, n is its power and na the number
      of keys in that range; n is 0 if there is none. */
  ghost predicate Best(nums: seq<nat>, e: nat, n: nat, na: nat, m: nat) {
    e <= |nums| &&
    if n == 0 then na == 0 && forall i | 0 <= i < e :: !Dense(nums, i)
    else && m < e && n == Pow2(m) && na == Sum(nums, m + 1) && Dense(nums, m)
         && forall i | m < i < e :: !Dense(nums, i)
  }

  /** n is the largest power of two such that more than half of the slots 1..n are in use, or 0 if
      there is none; na is how many are. */
  ghost predicate Optimal(nums: seq<nat>, n: nat, na: nat) {
    exists m: nat :: Best(nums, 32, n, na, m)
  }

  lemma {:induction false} SumMono(nums: seq<nat>, i: nat, j: nat)
    requires i <= j <= |nums|
    ensures Sum(nums, i) <= Sum(nums, j)
  {
    if i < j {
      SumMono(nums, i, j - 1);
    }
  }

  /** `computesizes`; `twotoi` wraps to 0 after the last slice. */
  method ComputeSizes(nums: seq<nat>, pna: nat) returns (optimal: nat, na: nat)
    requires |nums| == 32 && pna == Sum(nums, 32)
    ensures Optimal(nums, optimal, na)
  {
    hide Best, Dense;
    var i, twotoi, a := 0, 1, 0;
    na, optimal := 0, 0;
    ghost var m: nat := 0;
    BestNone(nums);
    while twotoi > 0 && pna > twotoi / 2
      invariant 0 <= i <= 32 && twotoi == (if i < 32 then Pow2(i) else 0) && a == Sum(nums, i)
      invariant Best(nums, i, optimal, na, m)
      decreases 32 - i
    {
      a := a + nums[i];
      BestStep(nums, i, optimal, na, m);
      if a > twotoi / 2 {
        optimal, na := twotoi, a;
        m := i;
      }
      Wrapped(i);
      i, twotoi := i + 1, (twotoi * 2) % 0x1_0000_0000;
    }
    BestRest(nums, i, optimal, na, m, pna);
  }

  lemma BestNone(nums: seq<nat>)
    ensures Best(nums, 0, 0, 0, 0)
  {
  }

  lemma BestStep(nums: seq<nat>, e: nat, n: nat, na: nat, m: nat)
    requires Best(nums, e, n, na, m) && e < |nums|
    ensures if Sum(nums, e) + nums[e] > Pow2(e) / 2 then Best(nums, e + 1, Pow2(e), Sum(nums, e) + nums[e], e)
            else Best(nums, e + 1, n, na, m)
  {
    assert Sum(nums, e + 1) == Sum(nums, e) + nums[e];
  }

  lemma Wrapped(i: nat)
    requires i < 32
    ensures (Pow2(i) * 2) % 0x1_0000_0000 == if i + 1 < 32 then Pow2(i + 1) else 0
  {
    Pow2Words();
    if i < 31 {
      Pow2Mono(i + 1, 31);
    }
  }

  /** No larger range can be dense once the keys left are too few for half of it. */
  lemma BestRest(nums: seq<nat>, e: nat, n: nat, na: nat, m: nat, pna: nat)
    requires |nums| == 32 && Best(nums, e, n, na, m) && pna == Sum(nums, 32)
    requires e < 32 ==> pna <= Pow2(e) / 2
    ensures Best(nums, 32, n, na, m)
  {
    forall j | e <= j < 32 ensures !Dense(nums, j) {
      SumMono(nums, j + 1, 32);
      Pow2Mono(e, j);
    }
  }

  // ---------------------------------------------------------------------- the two counts

  /** `numusearray`; nums starts with zeros. */
  method NumUseArray(a: seq<Value>) returns (nums: seq<nat>, ause: nat)
    requires |a| <= MAX_ASIZE
    ensures Counts(nums, a, [], None) && ause == ArrCount(a, 0, |a|)
  {
    nums := seq(32, i => 0);
    ause := 0;
    var asize := |a|;
    var lg, ttlg, i := 0, 1, 1;
    Pow2Words();
    while lg <= 31
      invariant 0 <= lg <= 32 && |nums| == 32 && (lg < 32 ==> ttlg == Pow2(lg))
      invariant i - 1 == if lg == 0 then 0 else SliceEnd(a, lg - 1)
      invariant ause == ArrCount(a, 0, i - 1)
      invariant forall b | 0 <= b < lg :: nums[b] == SliceArr(a, b)
      invariant forall b | lg <= b < 32 :: nums[b] == 0
    {
      var lc, lim := 0, ttlg;
      ghost var start := i - 1;
      if lim > asize {
        lim := asize;
        if i > lim {
          break;
        }
      }
      while i <= lim
        invariant start <= i - 1 <= lim <= asize
        invariant lc == ArrCount(a, start, i - 1)
      {
        if a[i - 1] != Nil {
          lc := lc + 1;
        }
        i := i + 1;
      }
      ArrCountSplit(a, 0, start, i - 1);
      nums := nums[lg := nums[lg] + lc];
      ause := ause + lc;
      lg := lg + 1;
      ttlg := ttlg * 2;
    }
    if lg < 32 {
      RestEmpty(a, lg);
    }
  }

  /** Slices behind the end of the array are empty. */
  lemma RestEmpty(a: seq<Value>, lg: nat)
    requires if lg == 0 then |a| == 0 else Pow2(lg - 1) >= |a|
    ensures forall b | lg <= b < 32 :: SliceArr(a, b) == 0
  {
    forall b | lg <= b < 32 ensures SliceArr(a, b) == 0 {
      if lg > 0 {
        Pow2Mono(lg - 1, b - 1);
      }
    }
  }

  lemma OneSlice(k: Int64, b: nat)
    requires k > 0 && b == CeilLog2(k)
    ensures forall c: nat :: InSlice(Int(k), c) <==> c == b
  {
    CeilLog2Is(k);
    hide CeilLog2;
    forall c: nat ensures InSlice(Int(k), c) <==> c == b {
      if c < b {
        Pow2Mono(c, b - 1);
      } else if b < c {
        Pow2Mono(b, c - 1);
      }
    }
  }

  lemma NoSlice(k: Int64)
    requires !(0 < k <= MAX_ASIZE)
    ensures forall c | 0 <= c < 32 :: !InSlice(Int(k), c)
  {
    Pow2Words();
    forall c | 0 <= c < 32 ensures !InSlice(Int(k), c) {
      Pow2Mono(c, 31);
    }
  }

  /** `countint`. */
  method CountInt(k: Int64, nums: seq<nat>) returns (nums': seq<nat>, counted: nat)
    requires |nums| == 32
    ensures |nums'| == 32 && counted == One(Dest(Int(k), MAX_ASIZE))
    ensures forall b | 0 <= b < 32 :: nums'[b] == nums[b] + One(InSlice(Int(k), b))
  {
    hide Pow2, InSlice, CeilLog2, BitLen;
    Pow2Words();
    if (k - 1) % 0x1_0000_0000_0000_0000 < MAX_ASIZE {
      var b := ComputeCeilLog2(k);
      CeilLog2Bound(k, 31);
      OneSlice(k, b);
      nums' := nums[b := nums[b] + 1];
      counted := 1;
    } else {
      nums', counted := nums, 0;
      NoSlice(k);
    }
  }

  /** `numusehash`. */
  method NumUseHash(ns: seq<Node>, nums0: seq<nat>, ghost a: seq<Value>)
    returns (nums: seq<nat>, total: nat, ause: nat)
    requires Counts(nums0, a, [], None)
    ensures Counts(nums, a, ns, None) && total == LiveNodes(ns) && ause == NodeCount(ns, MAX_ASIZE)
  {
    nums, total, ause := nums0, 0, 0;
    var i := |ns|;
    while i != 0
      invariant 0 <= i <= |ns| && Counts(nums, a, ns[i..], None)
      invariant total == LiveNodes(ns[i..]) && ause == NodeCount(ns[i..], MAX_ASIZE)
    {
      i := i - 1;
      assert ns[i..][1..] == ns[i + 1..];
      if Live(ns[i]) {
        if ns[i].key.value.Int? {
          var c;
          nums, c := CountInt(ns[i].key.value.i, nums);
          ause := ause + c;
        }
        total := total + 1;
      }
    }
    assert ns[0..] == ns;
  }
}
