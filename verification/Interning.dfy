/** The table of short strings. Each byte string of at most SHORT_LEN bytes exists once, so that short
    strings are equal exactly when they are the same object.
 */
module Interning {
  import opened Basics
  import opened TableBits
  import opened Intrusive

  type Bytes = seq<bv8>

  const SHORT_LEN: nat := 40

  /** The low k bits of a hash. */
  function Low(h: nat, k: nat): (r: nat)
    ensures r < Pow2(k)
  {
    if k == 0 then 0 else 2 * Low(h / 2, k - 1) + h % 2
  }

  lemma {:induction false} MaskIs(h: nat, k: nat)
    ensures And(h, Pow2(k) - 1) == Low(h, k)
    decreases k
  {
    if h == 0 {
      LowZero(k);
    } else if k > 0 {
      MaskIs(h / 2, k - 1);
    } else {
      AndZero(h);
    }
  }

  lemma {:induction false} LowZero(k: nat)
    ensures Low(0, k) == 0
  {
    if k > 0 {
      LowZero(k - 1);
    }
  }

  lemma {:induction false} AndZero(h: nat)
    ensures And(h, 0) == 0
  {
    if h > 0 {
      AndZero(h / 2);
    }
  }

  /** Doubling the table sends a string to its bucket, or to the one as far into the new half. */
  lemma {:induction false} LowSplit(h: nat, k: nat)
    ensures Low(h, k + 1) == Low(h, k) || Low(h, k + 1) == Low(h, k) + Pow2(k)
  {
    if k > 0 {
      LowSplit(h / 2, k - 1);
    }
  }

  // ---- Chains ----

  /** The strings ms hang from p, in this order. */
  ghost predicate Chain(hnext: map<Id, Option<Id>>, p: Option<Id>, ms: seq<Id>) {
    && p == NodeAt(ms, 0)
    && (forall i | 0 <= i < |ms| :: ms[i] in hnext && hnext[ms[i]] == NodeAt(ms, i + 1))
    && forall i, j | 0 <= i < j < |ms| :: ms[i] != ms[j]
  }

  lemma ChainPush(hnext: map<Id, Option<Id>>, p: Option<Id>, ms: seq<Id>, x: Id)
    requires Chain(hnext, p, ms) && x !in ms
    ensures Chain(hnext[x := p], Some(x), [x] + ms)
  {
    var ns := [x] + ms;
    assert forall i | 0 < i < |ns| :: ns[i] == ms[i - 1];
  }

  lemma ChainOther(hnext: map<Id, Option<Id>>, p: Option<Id>, ms: seq<Id>, x: Id, v: Option<Id>)
    requires Chain(hnext, p, ms) && x !in ms
    ensures Chain(hnext[x := v], p, ms) && Chain(hnext - {x}, p, ms)
  {
  }

  lemma ChainPop(hnext: map<Id, Option<Id>>, x: Id, ms: seq<Id>)
    requires Chain(hnext, Some(x), ms)
    ensures ms != [] && ms[0] == x && x in hnext && Chain(hnext, hnext[x], ms[1..]) && x !in ms[1..]
  {
  }

  lemma ChainEnd(hnext: map<Id, Option<Id>>, ms: seq<Id>)
    requires Chain(hnext, None, ms)
    ensures ms == []
  {
  }

  lemma NoStrings(hnext: map<Id, Option<Id>>)
    ensures Chain(hnext, None, [])
  {
  }

  lemma CutAt(ms: seq<Id>, k: nat)
    requires k < |ms|
    ensures |Without(ms, k)| == |ms| - 1
    ensures forall i | 0 <= i < |ms| - 1 :: Without(ms, k)[i] == if i < k then ms[i] else ms[i + 1]
  {
  }

  lemma ChainNode(hnext: map<Id, Option<Id>>, p: Option<Id>, ms: seq<Id>, k: nat)
    requires Chain(hnext, p, ms) && k < |ms|
    ensures ms[k] in hnext && hnext[ms[k]] == NodeAt(ms, k + 1) && p == NodeAt(ms, 0)
    ensures Distinct(ms) && forall i | 0 <= i < k :: ms[i] != ms[k]
  {
  }

  lemma CutIn(hnext: map<Id, Option<Id>>, p: Option<Id>, ms: seq<Id>, k: nat)
    requires Chain(hnext, p, ms) && k < |ms|
    ensures ms[k] in hnext && hnext[ms[k]] == NodeAt(ms, k + 1) && p == NodeAt(ms, 0)
    ensures forall i | 0 <= i < k :: ms[i] != ms[k]
    ensures forall x :: x in Without(ms, k) <==> x in ms && x != ms[k]
  {
    hide Chain, Distinct, Without;
    ChainNode(hnext, p, ms, k);
    WithoutIn(ms, k);
  }

  lemma HeadCut(hnext: map<Id, Option<Id>>, p: Option<Id>, ms: seq<Id>)
    requires Chain(hnext, p, ms) && ms != []
    ensures ms[0] in hnext && Chain(hnext - {ms[0]}, hnext[ms[0]], Without(ms, 0))
  {
    ChainPop(hnext, ms[0], ms);
    hide Chain;
    assert Without(ms, 0) == ms[1..];
    ChainOther(hnext, hnext[ms[0]], ms[1..], ms[0], None);
  }

  lemma MiddleCut(hnext: map<Id, Option<Id>>, p: Option<Id>, ms: seq<Id>, k: nat)
    requires Chain(hnext, p, ms) && 0 < k < |ms|
    ensures ms[k] in hnext && Chain(hnext[ms[k - 1] := hnext[ms[k]]] - {ms[k]}, p, Without(ms, k))
  {
    CutAt(ms, k);
    CutApart(hnext, p, ms, k);
    var ns, after := Without(ms, k), hnext[ms[k - 1] := hnext[ms[k]]] - {ms[k]};
    forall i | 0 <= i < |ns| ensures ns[i] in after && after[ns[i]] == NodeAt(ns, i + 1) {
      CutNode(hnext, p, ms, k, i);
    }
    hide Without;
  }

  lemma CutApart(hnext: map<Id, Option<Id>>, p: Option<Id>, ms: seq<Id>, k: nat)
    requires Chain(hnext, p, ms) && k < |ms|
    ensures forall i, j | 0 <= i < j < |Without(ms, k)| :: Without(ms, k)[i] != Without(ms, k)[j]
  {
    CutAt(ms, k);
    hide Without;
  }

  lemma ChainCut(hnext: map<Id, Option<Id>>, p: Option<Id>, ms: seq<Id>, k: nat)
    requires Chain(hnext, p, ms) && k < |ms|
    ensures k == 0 ==> Chain(hnext - {ms[0]}, hnext[ms[0]], Without(ms, 0))
    ensures k > 0 ==> Chain(hnext[ms[k - 1] := hnext[ms[k]]] - {ms[k]}, p, Without(ms, k))
  {
    if k == 0 {
      HeadCut(hnext, p, ms);
    } else {
      MiddleCut(hnext, p, ms, k);
    }
  }

  lemma CutNode(hnext: map<Id, Option<Id>>, p: Option<Id>, ms: seq<Id>, k: nat, i: nat)
    requires Chain(hnext, p, ms) && 0 < k < |ms| && i < |ms| - 1 && |Without(ms, k)| == |ms| - 1
    ensures var ns := Without(ms, k);
      var after := hnext[ms[k - 1] := hnext[ms[k]]] - {ms[k]};
      ns[i] in after && after[ns[i]] == NodeAt(ns, i + 1)
  {
    CutAt(ms, k);
    hide Without;
    assert i < k ==> ms[i] != ms[k];
    assert i >= k ==> ms[i + 1] != ms[k] && ms[i + 1] != ms[k - 1];
    assert i < k - 1 ==> ms[i] != ms[k - 1];
  }

  // ---- Buckets ----

  /** A set of strings and their hashes. */
  datatype Strings = Strings(all: set<Id>, hash: map<Id, nat>)

  /** Bucket b holds the strings cs[b]. */
  ghost predicate Chains(hnext: map<Id, Option<Id>>, hash: seq<Option<Id>>, cs: seq<seq<Id>>) {
    |hash| == |cs| && forall b | 0 <= b < |cs| :: Chain(hnext, hash[b], cs[b])
  }

  lemma ChainsAt(hnext: map<Id, Option<Id>>, hash: seq<Option<Id>>, cs: seq<seq<Id>>, b: nat)
    requires Chains(hnext, hash, cs) && b < |cs|
    ensures |hash| == |cs| && Chain(hnext, hash[b], cs[b])
    ensures Chains(hnext, hash[b := None], cs[b := []])
  {
  }

  lemma ChainsGrow(hnext: map<Id, Option<Id>>, hash: seq<Option<Id>>, cs: seq<seq<Id>>, n: nat)
    requires Chains(hnext, hash, cs)
    ensures Chains(hnext, hash + seq(n, i => None), cs + seq(n, i => []))
  {
    hide Chain;
    NoStrings(hnext);
  }

  lemma ChainsPush(hnext: map<Id, Option<Id>>, hash: seq<Option<Id>>, cs: seq<seq<Id>>, b: nat, x: Id)
    requires Chains(hnext, hash, cs) && b < |cs| && forall c | 0 <= c < |cs| :: x !in cs[c]
    ensures |hash| == |cs|
    ensures Chains(hnext[x := hash[b]], hash[b := Some(x)], cs[b := [x] + cs[b]])
  {
    hide Chain;
    ChainPush(hnext, hash[b], cs[b], x);
    forall c | 0 <= c < |cs| && c != b ensures Chain(hnext[x := hash[b]], hash[c], cs[c]) {
      ChainOther(hnext, hash[c], cs[c], x, hash[b]);
    }
  }

  lemma ChainsCut(hnext: map<Id, Option<Id>>, hash: seq<Option<Id>>, cs: seq<seq<Id>>, b: nat, k: nat)
    requires Chains(hnext, hash, cs) && b < |cs| && k < |cs[b]|
    requires forall c, x | 0 <= c < |cs| && c != b && x in cs[b] :: x !in cs[c]
    ensures cs[b][k] in hnext
    ensures k == 0 ==> Chains(hnext - {cs[b][0]}, hash[b := hnext[cs[b][0]]], cs[b := Without(cs[b], 0)])
    ensures k > 0 ==> Chains(hnext[cs[b][k - 1] := hnext[cs[b][k]]] - {cs[b][k]}, hash, cs[b := Without(cs[b], k)])
  {
    assert Chain(hnext, hash[b], cs[b]);
    CutIn(hnext, hash[b], cs[b], k);
    hide Chain, Without;
    ChainCut(hnext, hash[b], cs[b], k);
    assert cs[b][k] in cs[b] && (k > 0 ==> cs[b][k - 1] in cs[b]);
    var v := hnext[cs[b][k]];
    forall c | 0 <= c < |cs| && c != b
      ensures Chain(hnext - {cs[b][k]}, hash[c], cs[c])
      ensures k > 0 ==> Chain(hnext[cs[b][k - 1] := v] - {cs[b][k]}, hash[c], cs[c])
    {
      ChainOther(hnext, hash[c], cs[c], cs[b][k], v);
      if k > 0 {
        ChainOther(hnext, hash[c], cs[c], cs[b][k - 1], v);
        ChainOther(hnext[cs[b][k - 1] := v], hash[c], cs[c], cs[b][k], v);
      }
    }
  }

  lemma PlacedCut(s: Strings, k: nat, cs: seq<seq<Id>>, b: nat, i: nat)
    requires Placed(s, k, cs) && b < |cs| && i < |cs[b]|
    requires forall x :: x in Without(cs[b], i) <==> x in cs[b] && x != cs[b][i]
    ensures Placed(s.(all := s.all - {cs[b][i]}), k, cs[b := Without(cs[b], i)])
  {
    hide Low, Without;
    assert cs[b][i] in cs[b];
  }

  lemma PlacedPush(s: Strings, k: nat, cs: seq<seq<Id>>, x: Id, h: nat)
    requires Placed(s, k, cs) && x !in s.all
    ensures forall c | 0 <= c < |cs| :: x !in cs[c]
    ensures Low(h, k) < |cs|
    ensures Placed(Strings(s.all + {x}, s.hash[x := h]), k, cs[Low(h, k) := [x] + cs[Low(h, k)]])
  {
    hide Low;
  }

  lemma PlacedApart(s: Strings, k: nat, cs: seq<seq<Id>>, b: nat)
    requires Placed(s, k, cs) && b < |cs|
    ensures forall c, x | 0 <= c < |cs| && c != b && x in cs[b] :: x !in cs[c]
    ensures forall x | x in cs[b] :: x in s.all
    ensures forall x | x in s.all && Low(s.hash[x], k) == b :: x in cs[b]
  {
    hide Low;
  }

  lemma BucketIs(
    hnext: map<Id, Option<Id>>, hash: seq<Option<Id>>, s: Strings, k: nat, cs: seq<seq<Id>>, b: nat)
    requires Chains(hnext, hash, cs) && Placed(s, k, cs) && b < Pow2(k)
    ensures |hash| == |cs| == Pow2(k) && Chain(hnext, hash[b], cs[b]) && hash[b] == NodeAt(cs[b], 0)
    ensures s.all <= s.hash.Keys && forall x :: x in cs[b] <==> x in s.all && Low(s.hash[x], k) == b
  {
    hide Low;
  }

  /** The table of 2^k buckets holds all the strings, each in the bucket of its hash. */
  ghost predicate Placed(s: Strings, k: nat, cs: seq<seq<Id>>) {
    && |cs| == Pow2(k) && s.all <= s.hash.Keys
    && (forall b, x {:trigger x in cs[b]} | 0 <= b < |cs| && x in cs[b] :: x in s.all && Low(s.hash[x], k) == b)
    && forall x | x in s.all :: x in cs[Low(s.hash[x], k)]
  }

  /** A string is cut out of its bucket, at the head or after the string in front of it. */
  lemma BucketCut(
    hnext: map<Id, Option<Id>>, hash: seq<Option<Id>>, s: Strings, k: nat, cs: seq<seq<Id>>, b: nat, i: nat)
    requires Chains(hnext, hash, cs) && Placed(s, k, cs) && b < |cs| && i < |cs[b]|
    ensures |hash| == |cs| && cs[b][i] in hnext
    ensures Placed(s.(all := s.all - {cs[b][i]}), k, cs[b := Without(cs[b], i)])
    ensures i == 0 ==> Chains(hnext - {cs[b][0]}, hash[b := hnext[cs[b][0]]], cs[b := Without(cs[b], 0)])
    ensures i > 0 ==> Chains(hnext[cs[b][i - 1] := hnext[cs[b][i]]] - {cs[b][i]}, hash, cs[b := Without(cs[b], i)])
  {
    hide Low, Chains, Placed, Chain, Without;
    SizeOf(s, k, cs);
    ChainsAt(hnext, hash, cs, b);
    CutIn(hnext, hash[b], cs[b], i);
    PlacedApart(s, k, cs, b);
    ChainsCut(hnext, hash, cs, b, i);
    PlacedCut(s, k, cs, b, i);
  }

  /** Where a string is when the first i of 2^k buckets have been spread over twice as many. */
  function PlaceOf(h: nat, k: nat, i: nat): (r: nat)
    ensures r < Pow2(k + 1)
  {
    if Low(h, k) < i then Low(h, k + 1) else Low(h, k)
  }

  /** The first i buckets have been spread, but for the strings `rest` of the last of them. */
  ghost predicate Split(s: Strings, k: nat, cs: seq<seq<Id>>, i: nat, rest: seq<Id>) {
    && |cs| == Pow2(k + 1) && s.all <= s.hash.Keys && i <= Pow2(k)
    && (forall b, x {:trigger x in cs[b]} | 0 <= b < |cs| && x in cs[b] :: x in s.all && x !in rest && PlaceOf(s.hash[x], k, i) == b)
    && (forall x | x in rest :: x in s.all && Low(s.hash[x], k) + 1 == i)
    && forall x | x in s.all && x !in rest :: x in cs[PlaceOf(s.hash[x], k, i)]
  }

  lemma SizeOf(s: Strings, k: nat, cs: seq<seq<Id>>)
    requires Placed(s, k, cs)
    ensures |cs| == Pow2(k) && s.all <= s.hash.Keys
  {
  }

  lemma SplitStart(s: Strings, k: nat, cs: seq<seq<Id>>, none: seq<seq<Id>>)
    requires Placed(s, k, cs) && |none| == |cs| && forall b | 0 <= b < |none| :: none[b] == []
    ensures Split(s, k, cs + none, 0, [])
  {
  }

  /** The next bucket is emptied, and its strings wait. */
  lemma SplitNext(s: Strings, k: nat, cs: seq<seq<Id>>, i: nat)
    requires Split(s, k, cs, i, []) && i < Pow2(k)
    ensures Split(s, k, cs[i := []], i + 1, cs[i])
  {
    hide Low;
    forall x | x in s.all ensures PlaceOf(s.hash[x], k, i) == i <==> Low(s.hash[x], k) == i {
      LowSplit(s.hash[x], k);
    }
  }

  /** A string that waits goes into the bucket of its hash. */
  lemma SplitMove(s: Strings, k: nat, cs: seq<seq<Id>>, i: nat, rest: seq<Id>)
    requires Split(s, k, cs, i, rest) && rest != [] && rest[0] !in rest[1..]
    ensures rest[0] in s.all && forall b | 0 <= b < |cs| :: rest[0] !in cs[b]
    ensures var b := Low(s.hash[rest[0]], k + 1); Split(s, k, cs[b := [rest[0]] + cs[b]], i, rest[1..])
  {
    hide Low;
    assert rest[0] in rest;
    assert forall x :: x in rest <==> x == rest[0] || x in rest[1..];
  }

  lemma SplitEnd(s: Strings, k: nat, cs: seq<seq<Id>>)
    requires Split(s, k, cs, Pow2(k), [])
    ensures Placed(s, k + 1, cs)
  {
    hide Low;
  }

  /** The strings of the table are the short ones, with their hashes, and no two have the same bytes. */
  ghost predicate UniqueIn(f: Bytes -> nat, all: set<Id>, hashes: map<Id, nat>, bytes: map<Id, Bytes>) {
    && (forall x | x in bytes :: x in all <==> |bytes[x]| <= SHORT_LEN)
    && (forall x | x in all :: x in bytes && x in hashes && hashes[x] == f(bytes[x]))
    && forall x, y | x in all && y in all && bytes[x] == bytes[y] :: x == y
  }

  lemma UniqueMore(f: Bytes -> nat, all: set<Id>, hashes: map<Id, nat>, bytes: map<Id, Bytes>, x: Id, s: Bytes)
    requires UniqueIn(f, all, hashes, bytes) && x !in bytes
    ensures x !in all
    ensures |s| > SHORT_LEN ==> UniqueIn(f, all, hashes, bytes[x := s])
    ensures |s| <= SHORT_LEN && s !in bytes.Values ==> UniqueIn(f, all + {x}, hashes[x := f(s)], bytes[x := s])
  {
  }

  lemma UniqueLess(f: Bytes -> nat, all: set<Id>, hashes: map<Id, nat>, bytes: map<Id, Bytes>, x: Id)
    requires UniqueIn(f, all, hashes, bytes) && x in bytes
    ensures |bytes[x]| > SHORT_LEN ==> UniqueIn(f, all, hashes, bytes - {x})
    ensures |bytes[x]| <= SHORT_LEN ==> x in all && x in hashes && UniqueIn(f, all - {x}, hashes, bytes - {x})
  {
  }

  class StringTable {
    const hashOf: Bytes -> nat
    var hash: seq<Option<Id>>
    var nuse: nat
    var size: nat
    var hnext: map<Id, Option<Id>>
    /** The hash that is stored in a short string. */
    var hashes: map<Id, nat>
    var bytes: map<Id, Bytes>
    ghost var bits: nat
    ghost var chains: seq<seq<Id>>
    /** The strings of the table. */
    ghost var strings: set<Id>

    ghost predicate Linked()
      reads this`hnext, this`hash, this`chains, this`strings, this`hashes, this`bits, this`size
    {
      size == Pow2(bits) && Chains(hnext, hash, chains) && Placed(Strings(strings, hashes), bits, chains)
    }

    ghost predicate Unique()
      reads this`strings, this`hashes, this`bytes
    {
      UniqueIn(hashOf, strings, hashes, bytes)
    }

    /** The table holds exactly the short strings, and no two with the same bytes. */
    ghost predicate Valid()
      reads this
    {
      Linked() && Unique() && nuse == |strings|
    }

    constructor (h: Bytes -> nat)
      ensures Valid() && bytes == map[] && hashOf == h
    {
      hashOf := h;
      hash := seq(128, i => None);
      nuse, size, hnext, hashes, bytes := 0, 128, map[], map[], map[];
      bits, chains, strings := 7, seq(128, i => []), {};
      new;
      assert Pow2(3) == 8;
      assert Pow2(7) == 128;
    }

    function Entry(h: nat): nat
      requires size > 0
      reads this`size
    {
      And(h, size - 1)
    }

    /** The string with the bytes s: the one that exists, or the new object x. */
    method New(s: Bytes, x: Id) returns (r: Id, created: bool)
      requires Valid() && x !in bytes
      modifies this
      ensures Valid() && created == !old(|s| <= SHORT_LEN && s in bytes.Values)
      ensures created ==> r == x && bytes == old(bytes)[x := s]
      ensures !created ==> bytes == old(bytes)
      ensures r in bytes && bytes[r] == s
    {
      hide Linked, Low, UniqueIn;
      UniqueMore(hashOf, strings, hashes, bytes, x, s);
      if |s| > SHORT_LEN {
        bytes := bytes[x := s];
        return x, true;
      }
      var h := hashOf(s);
      var found, e := Insert(h, s);
      match found
      case Some(v) =>
        return v, false;
      case None =>
        Link(x, h, e);
        bytes := bytes[x := s];
        return x, true;
    }

    /** Puts x in front of bucket e. */
    method Link(x: Id, h: nat, e: nat)
      requires Linked() && x !in strings && e == Low(h, bits)
      modifies this`hash, this`hnext, this`hashes, this`chains, this`strings
      ensures Linked() && hashes == old(hashes)[x := h] && strings == old(strings) + {x}
    {
      hide Low, Chains, Placed, UniqueIn;
      PlacedPush(Strings(strings, hashes), bits, chains, x, h);
      ChainsPush(hnext, hash, chains, e, x);
      hnext := hnext[x := hash[e]];
      hash := hash[e := Some(x)];
      hashes := hashes[x := h];
      chains := chains[e := [x] + chains[e]];
      strings := strings + {x};
    }

    /** Looks for the bytes s, and makes room for them if they are new. */
    method Insert(h: nat, s: Bytes) returns (found: Option<Id>, e: nat)
      requires Valid() && h == hashOf(s) && |s| <= SHORT_LEN
      modifies this`hash, this`nuse, this`size, this`hnext, this`bits, this`chains
      ensures Linked()
      ensures found.Some? ==> found.value in bytes && bytes[found.value] == s && nuse == old(nuse)
      ensures found.None? ==> s !in bytes.Values && nuse == old(nuse) + 1 && e == Low(h, bits)
    {
      hide Low, Chains, Placed, Chain;
      e := Entry(h);
      MaskIs(h, bits);
      ghost var all := Strings(strings, hashes);
      BucketIs(hnext, hash, all, bits, chains, e);
      var p := hash[e];
      ghost var k := 0;
      while p.Some?
        invariant k <= |chains[e]| && p == NodeAt(chains[e], k)
        invariant forall i | 0 <= i < k :: bytes[chains[e][i]] != s
        decreases |chains[e]| - k
        modifies {}
      {
        CutIn(hnext, hash[e], chains[e], k);
        if bytes[p.value] == s {
          return p, e;
        }
        p := hnext[p.value];
        k := k + 1;
      }
      assert forall x | x in strings && hashes[x] == h :: bytes[x] != s;
      if nuse >= size {
        Double();
        e := Entry(h);
        MaskIs(h, bits);
      }
      nuse := nuse + 1;
      found := None;
    }

    /** Twice the buckets, in place. */
    method Double()
      requires Linked()
      modifies this`hash, this`size, this`hnext, this`bits, this`chains
      ensures Linked() && size == 2 * old(size)
    {
      hide Low, Chains, Chain, Split, Placed;
      var osize := size;
      ghost var all := Strings(strings, hashes);
      ghost var none := seq(osize, i => []);
      SizeOf(all, bits, chains);
      SplitStart(all, bits, chains, none);
      ChainsGrow(hnext, hash, chains, osize);
      hash := hash + seq(osize, i => None);
      chains := chains + none;
      size := 2 * osize;
      var i := 0;
      while i < osize
        invariant i <= osize && |chains| == size && Chains(hnext, hash, chains)
        invariant Split(all, bits, chains, i, [])
        modifies this`hash, this`hnext, this`chains
      {
        SplitNext(all, bits, chains, i);
        ChainsAt(hnext, hash, chains, i);
        var p := hash[i];
        ghost var rest := chains[i];
        hash := hash[i := None];
        chains := chains[i := []];
        i := i + 1;
        while p.Some?
          invariant |chains| == size && Chains(hnext, hash, chains) && Chain(hnext, p, rest)
          invariant Split(all, bits, chains, i, rest)
          decreases |rest|
          modifies this`hash, this`hnext, this`chains
        {
          var x := p.value;
          ChainPop(hnext, x, rest);
          SplitMove(all, bits, chains, i, rest);
          var next := hnext[x];
          var h := Entry(hashes[x]);
          MaskIs(hashes[x], bits + 1);
          ChainsPush(hnext, hash, chains, h, x);
          ChainOther(hnext, next, rest[1..], x, hash[h]);
          hnext := hnext[x := hash[h]];
          hash := hash[h := Some(x)];
          chains := chains[h := [x] + chains[h]];
          p := next;
          rest := rest[1..];
        }
        ChainEnd(hnext, rest);
      }
      SplitEnd(all, bits, chains);
      bits := bits + 1;
    }

    /** Takes a string that dies out of the table. */
    method Remove(x: Id)
      requires Valid() && x in bytes && |bytes[x]| <= SHORT_LEN
      modifies this`hash, this`nuse, this`hnext, this`chains, this`strings, this`bytes
      ensures Valid() && bytes == old(bytes) - {x}
    {
      hide Linked, UniqueIn;
      UniqueLess(hashOf, strings, hashes, bytes, x);
      Unlink(x);
      nuse := nuse - 1;
      bytes := bytes - {x};
    }

    /** Takes x out of its bucket. */
    method Unlink(x: Id)
      requires Linked() && x in strings && x in hashes
      modifies this`hash, this`hnext, this`chains, this`strings
      ensures Linked() && strings == old(strings) - {x}
    {
      hide Low, Chains, Placed, Chain, Without, Pow2, And, NodeAt;
      var b, e, k := Find(x);
      ghost var all := Strings(strings, hashes);
      BucketCut(hnext, hash, all, bits, chains, b, k);
      chains := chains[b := Without(chains[b], k)];
      if e.None? {
        hash := hash[b := hnext[x]];
      } else {
        hnext := hnext[e.value := hnext[x]];
      }
      hnext := hnext - {x};
      strings := strings - {x};
    }

    /** The bucket of x, and the string in front of it if it is not the first one. The walk compares objects,
        and it cannot run off the end.
     */
    method Find(x: Id) returns (b: nat, e: Option<Id>, ghost k: nat)
      requires Linked() && x in strings && x in hashes
      ensures b == Low(hashes[x], bits) < |chains| && k < |chains[b]| && chains[b][k] == x
      ensures e == if k == 0 then None else Some(chains[b][k - 1])
    {
      hide Low, Chains, Placed, Chain, Without;
      b := Entry(hashes[x]);
      MaskIs(hashes[x], bits);
      BucketIs(hnext, hash, Strings(strings, hashes), bits, chains, b);
      ghost var ms := chains[b];
      k :| 0 <= k < |ms| && ms[k] == x;
      CutIn(hnext, hash[b], ms, k);
      e := None;
      var p := hash[b];
      ghost var i := 0;
      while p != Some(x)
        invariant i <= k && p == NodeAt(ms, i) && e == if i == 0 then None else Some(ms[i - 1])
        decreases k - i
      {
        CutIn(hnext, hash[b], ms, i);
        e := p;
        p := hnext[p.value];
        i := i + 1;
      }
    }

    /** A string dies. */
    method Drop(x: Id)
      requires Valid() && x in bytes
      modifies this`hash, this`nuse, this`hnext, this`chains, this`strings, this`bytes
      ensures Valid() && bytes == old(bytes) - {x}
    {
      if |bytes[x]| <= SHORT_LEN {
        Remove(x);
      } else {
        bytes := bytes - {x};
      }
    }

    /** Short strings can be compared by identity. */
    lemma Same(x: Id, y: Id)
      requires Valid() && x in bytes && y in bytes && |bytes[x]| <= SHORT_LEN
      ensures bytes[x] == bytes[y] <==> x == y
    {
    }
  }
}
