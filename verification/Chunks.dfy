/** Byte ranges and lists of byte ranges (src/offset.h `chunk_t`, without its link field). */
module Chunks {

  /** An inclusive byte range. GreenBag also stores `size`, which is always `last - start + 1`. */
  datatype Chunk = Chunk(start: int, last: int) {
    function Size(): int { last - start + 1 }
    predicate Holds(k: int) { start <= k <= last }
  }

  predicate Positive(cs: seq<Chunk>) {
    forall c | c in cs :: c.start <= c.last
  }

  /** Strictly increasing and pairwise disjoint. */
  ghost predicate Ordered(cs: seq<Chunk>) {
    forall a, b | 0 <= a < b < |cs| :: cs[a].last < cs[b].start
  }

  ghost predicate Within(cs: seq<Chunk>, lo: int, hi: int) {
    forall c | c in cs :: lo <= c.start && c.last <= hi
  }

  function Total(cs: seq<Chunk>): int {
    if cs == [] then 0 else cs[0].Size() + Total(cs[1..])
  }

  /** How many chunks of the list hold offset `k`. */
  ghost function Cover(cs: seq<Chunk>, k: int): nat {
    if cs == [] then 0 else (if cs[0].Holds(k) then 1 else 0) + Cover(cs[1..], k)
  }

  /** The offsets of a range, in order. */
  ghost function Offsets(lo: int, hi: int): seq<int>
    decreases hi - lo
  {
    if hi < lo then [] else [lo] + Offsets(lo + 1, hi)
  }

  /** The offsets a list stands for, in list order: the reference meaning of a chunk list. */
  ghost function Bytes(cs: seq<Chunk>): seq<int> {
    if cs == [] then [] else Offsets(cs[0].start, cs[0].last) + Bytes(cs[1..])
  }

  function Head(cs: seq<Chunk>): Chunk { if cs == [] then Chunk(0, -1) else cs[0] }

  function LastOf(cs: seq<Chunk>): Chunk { if cs == [] then Chunk(0, -1) else cs[|cs| - 1] }

  // ---------------------------------------------------------------- splitting

  /** The chunks of the first `f` bytes; at most one chunk is cut. */
  function TakeBytes(cs: seq<Chunk>, f: int): seq<Chunk> {
    if f <= 0 || cs == [] then []
    else if f < cs[0].Size() then [Chunk(cs[0].start, cs[0].start + f - 1)]
    else [cs[0]] + TakeBytes(cs[1..], f - cs[0].Size())
  }

  /** What `TakeBytes` leaves. */
  function DropBytes(cs: seq<Chunk>, f: int): seq<Chunk> {
    if f <= 0 || cs == [] then cs
    else if f < cs[0].Size() then [Chunk(cs[0].start + f, cs[0].last)] + cs[1..]
    else DropBytes(cs[1..], f - cs[0].Size())
  }

  // ---------------------------------------------------------------- sorting

  /** Index of the first chunk with the smallest start. */
  function MinIndex(cs: seq<Chunk>): (m: nat)
    requires cs != []
    ensures m < |cs|
    ensures forall k | 0 <= k < |cs| :: cs[m].start <= cs[k].start
    ensures forall k | 0 <= k < m :: cs[m].start < cs[k].start
  {
    if |cs| == 1 then 0
    else
      var r := MinIndex(cs[..|cs| - 1]);
      if cs[|cs| - 1].start < cs[r].start then |cs| - 1 else r
  }

  function Without(cs: seq<Chunk>, m: nat): seq<Chunk>
    requires m < |cs|
  {
    cs[..m] + cs[m + 1..]
  }

  /** Selection sort by start byte. */
  function Sort(cs: seq<Chunk>): seq<Chunk>
    decreases |cs|
  {
    if cs == [] then [] else
      var m := MinIndex(cs);
      [cs[m]] + Sort(Without(cs, m))
  }

  ghost predicate SortedByStart(cs: seq<Chunk>) {
    forall a, b | 0 <= a < b < |cs| :: cs[a].start <= cs[b].start
  }

  // ---------------------------------------------------------------- lemmas

  lemma {:induction false} CoverAppend(a: seq<Chunk>, b: seq<Chunk>, k: int)
    ensures Cover(a + b, k) == Cover(a, k) + Cover(b, k)
  {
    if a == [] {
      assert a + b == b;
    } else {
      assert (a + b)[1..] == a[1..] + b;
      CoverAppend(a[1..], b, k);
    }
  }

  lemma {:induction false} TotalAppend(a: seq<Chunk>, b: seq<Chunk>)
    ensures Total(a + b) == Total(a) + Total(b)
  {
    if a == [] {
      assert a + b == b;
    } else {
      assert (a + b)[1..] == a[1..] + b;
      TotalAppend(a[1..], b);
    }
  }

  lemma CoverOne(c: Chunk, k: int)
    ensures Cover([c], k) == (if c.Holds(k) then 1 else 0)
    ensures Total([c]) == c.Size()
  {
    assert [c][1..] == [];
  }

  lemma {:induction false} CoverPositive(cs: seq<Chunk>, k: int)
    ensures Cover(cs, k) > 0 <==> exists a | 0 <= a < |cs| :: cs[a].Holds(k)
  {
    if cs != [] {
      CoverPositive(cs[1..], k);
      if Cover(cs, k) > 0 {
        if !cs[0].Holds(k) {
          var a :| 0 <= a < |cs[1..]| && cs[1..][a].Holds(k);
          assert cs[a + 1].Holds(k);
        }
      } else {
        forall a | 0 <= a < |cs| ensures !cs[a].Holds(k) {
          if a > 0 { assert cs[1..][a - 1] == cs[a]; }
        }
      }
    }
  }

  /** Two different chunks of a list that share an offset make it counted twice. */
  lemma {:induction false} CoverTwice(cs: seq<Chunk>, a: nat, b: nat, k: int)
    requires a < b < |cs| && cs[a].Holds(k) && cs[b].Holds(k)
    ensures Cover(cs, k) >= 2
  {
    assert cs == cs[..b] + cs[b..];
    CoverAppend(cs[..b], cs[b..], k);
    CoverPositive(cs[..b], k);
    CoverPositive(cs[b..], k);
    assert cs[..b][a].Holds(k) && cs[b..][0].Holds(k);
  }

  lemma {:induction false} OffsetsAt(lo: int, hi: int)
    ensures |Offsets(lo, hi)| == if hi < lo then 0 else hi - lo + 1
    ensures forall k | 0 <= k < |Offsets(lo, hi)| :: Offsets(lo, hi)[k] == lo + k
    decreases hi - lo
  {
    if lo <= hi { OffsetsAt(lo + 1, hi); }
  }

  lemma OffsetsCut(lo: int, mid: int, hi: int)
    requires lo <= mid <= hi + 1
    ensures Offsets(lo, hi) == Offsets(lo, mid - 1) + Offsets(mid, hi)
  {
    OffsetsAt(lo, hi);
    OffsetsAt(lo, mid - 1);
    OffsetsAt(mid, hi);
  }

  lemma {:induction false} BytesLength(cs: seq<Chunk>)
    requires Positive(cs)
    ensures |Bytes(cs)| == Total(cs) >= |cs|
  {
    if cs != [] {
      OffsetsAt(cs[0].start, cs[0].last);
      BytesLength(cs[1..]);
    }
  }

  /** `Cover` counts occurrences in the reference meaning. */
  lemma {:induction false} CoverIsMultiplicity(cs: seq<Chunk>, k: int)
    ensures Cover(cs, k) == multiset(Bytes(cs))[k]
  {
    if cs != [] {
      CoverIsMultiplicity(cs[1..], k);
      OffsetsMultiplicity(cs[0].start, cs[0].last, k);
    }
  }

  lemma {:induction false} OffsetsMultiplicity(lo: int, hi: int, k: int)
    ensures multiset(Offsets(lo, hi))[k] == if lo <= k <= hi then 1 else 0
    decreases hi - lo
  {
    if lo <= hi { OffsetsMultiplicity(lo + 1, hi, k); }
  }

  lemma {:induction false} SplitTotals(cs: seq<Chunk>, f: int)
    requires Positive(cs) && 0 <= f <= Total(cs)
    ensures Total(TakeBytes(cs, f)) == f && Total(DropBytes(cs, f)) == Total(cs) - f
    ensures Positive(TakeBytes(cs, f)) && Positive(DropBytes(cs, f))
    ensures |cs| <= |TakeBytes(cs, f)| + |DropBytes(cs, f)| <= |cs| + 1
  {
    if f > 0 && cs != [] {
      if f < cs[0].Size() {
        assert DropBytes(cs, f)[1..] == cs[1..];
        assert TakeBytes(cs, f)[1..] == [];
      } else {
        SplitTotals(cs[1..], f - cs[0].Size());
        assert TakeBytes(cs, f)[1..] == TakeBytes(cs[1..], f - cs[0].Size());
      }
    }
  }

  lemma {:induction false} SplitBytes(cs: seq<Chunk>, f: int)
    ensures Bytes(TakeBytes(cs, f)) + Bytes(DropBytes(cs, f)) == Bytes(cs)
  {
    if f > 0 && cs != [] {
      var c := cs[0];
      if f < c.Size() {
        OffsetsCut(c.start, c.start + f, c.last);
        assert DropBytes(cs, f)[1..] == cs[1..];
        assert TakeBytes(cs, f)[1..] == [];
      } else {
        SplitBytes(cs[1..], f - c.Size());
        assert TakeBytes(cs, f)[1..] == TakeBytes(cs[1..], f - c.Size());
      }
    }
  }

  /** Splitting hands out exactly the first `f` offsets and exactly the rest, in order,
      and cuts at most one chunk. */
  lemma SplitExact(cs: seq<Chunk>, f: int)
    requires Positive(cs) && 0 <= f <= Total(cs)
    ensures |Bytes(cs)| == Total(cs)
    ensures Bytes(TakeBytes(cs, f)) == Bytes(cs)[..f]
    ensures Bytes(DropBytes(cs, f)) == Bytes(cs)[f..]
    ensures |cs| <= |TakeBytes(cs, f)| + |DropBytes(cs, f)| <= |cs| + 1
  {
    BytesLength(cs);
    SplitTotals(cs, f);
    SplitBytes(cs, f);
    BytesLength(TakeBytes(cs, f));
  }

  lemma {:induction false} SplitCover(cs: seq<Chunk>, f: int, k: int)
    requires Positive(cs)
    ensures Cover(TakeBytes(cs, f), k) + Cover(DropBytes(cs, f), k) == Cover(cs, k)
  {
    if f > 0 && cs != [] {
      if f < cs[0].Size() {
        assert DropBytes(cs, f)[1..] == cs[1..];
        assert TakeBytes(cs, f)[1..] == [];
      } else {
        assert TakeBytes(cs, f)[1..] == TakeBytes(cs[1..], f - cs[0].Size());
        SplitCover(cs[1..], f - cs[0].Size(), k);
      }
    }
  }

  lemma OrderedCons(x: Chunk, r: seq<Chunk>, lo: int, hi: int)
    requires lo <= x.start <= x.last <= hi && Ordered(r) && Within(r, x.last + 1, hi)
    ensures Ordered([x] + r) && Within([x] + r, lo, hi)
  {
  }

  lemma OrderedTail(cs: seq<Chunk>, lo: int, hi: int)
    requires cs != [] && Positive(cs) && Ordered(cs) && Within(cs, lo, hi)
    ensures Positive(cs[1..]) && Ordered(cs[1..]) && Within(cs[1..], cs[0].last + 1, hi)
    ensures lo <= cs[0].start <= cs[0].last <= hi && cs == [cs[0]] + cs[1..]
  {
    assert cs[0] in cs;
    forall c | c in cs[1..] ensures c in cs && cs[0].last < c.start {
      var x :| 0 <= x < |cs[1..]| && cs[1..][x] == c;
      assert cs[x + 1] == c;
    }
  }

  ghost predicate Tidy(cs: seq<Chunk>, lo: int, hi: int) { Ordered(cs) && Within(cs, lo, hi) }

  lemma {:induction false} TakeTidy(cs: seq<Chunk>, f: int, lo: int, hi: int)
    requires Positive(cs) && Tidy(cs, lo, hi)
    ensures Tidy(TakeBytes(cs, f), lo, hi)
  {
    if f > 0 && cs != [] {
      OrderedTail(cs, lo, hi);
      var f' := f - cs[0].Size();
      if f' >= 0 {
        TakeTidy(cs[1..], f', cs[0].last + 1, hi);
        OrderedCons(cs[0], TakeBytes(cs[1..], f'), lo, hi);
      }
    }
  }

  lemma {:induction false} DropTidy(cs: seq<Chunk>, f: int, lo: int, hi: int)
    requires Positive(cs) && Tidy(cs, lo, hi)
    ensures Tidy(DropBytes(cs, f), lo, hi)
  {
    if f > 0 && cs != [] {
      OrderedTail(cs, lo, hi);
      var f' := f - cs[0].Size();
      if f' < 0 {
        OrderedCons(Chunk(cs[0].start + f, cs[0].last), cs[1..], lo, hi);
      } else {
        DropTidy(cs[1..], f', cs[0].last + 1, hi);
      }
    }
  }

  lemma SplitOrdered(cs: seq<Chunk>, f: int, lo: int, hi: int)
    requires Positive(cs) && Ordered(cs) && Within(cs, lo, hi)
    ensures Ordered(TakeBytes(cs, f)) && Ordered(DropBytes(cs, f))
    ensures Within(TakeBytes(cs, f), lo, hi) && Within(DropBytes(cs, f), lo, hi)
  {
    TakeTidy(cs, f, lo, hi);
    DropTidy(cs, f, lo, hi);
  }

  // ---------------------------------------------------------------- sort lemmas

  lemma WithoutFacts(cs: seq<Chunk>, m: nat, k: int)
    requires m < |cs|
    ensures Cover(cs, k) == Cover([cs[m]] + Without(cs, m), k)
    ensures Total(cs) == Total([cs[m]] + Without(cs, m))
    ensures multiset(cs) == multiset([cs[m]] + Without(cs, m))
  {
    var a, x, b := cs[..m], [cs[m]], cs[m + 1..];
    assert cs == a + (x + b);
    assert x + Without(cs, m) == x + (a + b);
    CoverAppend(a, x + b, k);
    CoverAppend(x, b, k);
    CoverAppend(x, a + b, k);
    CoverAppend(a, b, k);
    TotalAppend(a, x + b);
    TotalAppend(x, b);
    TotalAppend(x, a + b);
    TotalAppend(a, b);
  }

  lemma SmallestFirst(x: Chunk, w: seq<Chunk>, r: seq<Chunk>)
    requires multiset(r) == multiset(w) && SortedByStart(r) && forall c | c in w :: x.start <= c.start
    ensures SortedByStart([x] + r)
  {
    forall b | 0 <= b < |r| ensures x.start <= r[b].start {
      assert r[b] in multiset(r);
      assert r[b] in multiset(w);
    }
  }

  /** Sorting keeps the same chunks and orders them by start byte. */
  lemma {:induction false} SortSorts(cs: seq<Chunk>)
    ensures multiset(Sort(cs)) == multiset(cs) && |Sort(cs)| == |cs|
    ensures SortedByStart(Sort(cs))
    ensures Total(Sort(cs)) == Total(cs)
    decreases |cs|
  {
    if cs != [] {
      var m := MinIndex(cs);
      var w := Without(cs, m);
      var r := Sort(w);
      SortSorts(w);
      WithoutFacts(cs, m, 0);
      TotalAppend([cs[m]], w);
      TotalAppend([cs[m]], r);
      assert multiset([cs[m]] + w) == multiset([cs[m]]) + multiset(w);
      assert Sort(cs) == [cs[m]] + r;
      SmallestFirst(cs[m], w, r);
    }
  }

  lemma {:induction false} SortCover(cs: seq<Chunk>, k: int)
    ensures Cover(Sort(cs), k) == Cover(cs, k)
    decreases |cs|
  {
    if cs != [] {
      var m := MinIndex(cs);
      SortCover(Without(cs, m), k);
      WithoutFacts(cs, m, k);
      CoverAppend([cs[m]], Without(cs, m), k);
      CoverAppend([cs[m]], Sort(Without(cs, m)), k);
    }
  }

  lemma SortKeeps(cs: seq<Chunk>, lo: int, hi: int)
    requires Positive(cs) && Within(cs, lo, hi)
    ensures Positive(Sort(cs)) && Within(Sort(cs), lo, hi)
  {
    SortSorts(cs);
    forall c | c in Sort(cs) ensures c in cs {
      assert c in multiset(Sort(cs));
      assert c in multiset(cs);
    }
  }

  /** A list sorted by start whose chunks share no offset is strictly increasing. */
  lemma SortedDisjointOrdered(cs: seq<Chunk>)
    requires Positive(cs) && SortedByStart(cs)
    requires forall k :: Cover(cs, k) <= 1
    ensures Ordered(cs)
  {
    forall a, b | 0 <= a < b < |cs| ensures cs[a].last < cs[b].start {
      assert cs[a] in cs && cs[b] in cs;
      if cs[b].start <= cs[a].last {
        CoverTwice(cs, a, b, cs[b].start);
        assert false;
      }
    }
  }
}
