/** How much work each division hands out: balance of the loads, tiling of the file by
    segments, and what a recovery collects. */
module Balance {
  import opened Pairs
  import opened Chunks
  import opened Scheduler
  import opened DutyLemmas
  import opened Invariant
  import opened Finishing
  import opened Assigning
  import opened Setup
  import opened Turns
  import opened Runs

  // ---------------------------------------------------------------- load balance

  function SizesOf(ds: seq<Duty>): int { if ds == [] then 0 else ds[0].size + SizesOf(ds[1..]) }

  lemma {:induction false} SubSizesAreDuties(gs: seq<Seg>, j: Link, lo: nat, hi: int)
    requires hi <= |gs|
    ensures SubSizes(gs, j, lo, hi) == if lo <= hi then SizesOf(Duties(gs[lo..hi], j)) else 0
    decreases hi - lo
  {
    if lo < hi {
      assert gs[lo..hi][1..] == gs[lo + 1..hi];
      SubSizesAreDuties(gs, j, lo + 1, hi);
      var rest := Duties(gs[lo + 1..hi], j);
      if gs[lo].sub.At(j).Some? {
        assert Duties(gs[lo..hi], j) == [DutyOf(gs[lo], j)] + rest;
        assert ([DutyOf(gs[lo], j)] + rest)[1..] == rest;
      }
    }
  }

  lemma {:induction false} UntouchedTotal(ds: seq<Duty>)
    requires forall d | d in ds :: d.size == Total(d.chunks)
    ensures SizesOf(ds) == Total(Flat(ds))
  {
    if ds != [] {
      assert ds[0] in ds;
      UntouchedTotal(ds[1..]);
      TotalAppend(ds[0].chunks, Flat(ds[1..]));
    }
  }

  /** Recorded sizes behind a link's current subsegment count exactly its chunks there. */
  lemma LaterSizes(gs: seq<Seg>, g: Seg, j: Link)
    requires Duties(gs, j) != [] && Untouched(Duties(gs, j))
    ensures SubSizes(gs + [g], j, FirstAt(gs, j, 0) + 1, |gs|) == Total(Flat(Duties(gs, j)[1..]))
  {
    var k := FirstAt(gs, j, 0);
    var ds := Duties(gs, j);
    SearchSecond(gs, j);
    SubSizesAreDuties(gs + [g], j, k + 1, |gs|);
    assert (gs + [g])[k + 1..|gs|] == gs[k + 1..];
    forall d | d in ds[1..] ensures d.size == Total(d.chunks) {
      var x :| 0 <= x < |ds[1..]| && ds[1..][x] == d;
      assert ds[x + 1] == d;
    }
    UntouchedTotal(ds[1..]);
  }

  /** What the virtual segment size counts for a link: all it still has to read, except what
      is left of the current subsegment for the finishing link. */
  lemma ContributionIsLoad(b: State, s: State, ci: Link, j: Link, slack: bool)
    requires Window(b.segs, b.count, b.completed)
    requires s.segs == b.segs + [Tail(s)] && s.completed == b.completed && s.link.At(j) == b.link.At(j)
    requires LinkOk(Work(b, j), b.link.At(j), slack) && Untouched(Work(b, j))
    ensures Contribution(s, ci, j) ==
            if Work(b, j) == [] then 0
            else (if j != ci then b.link.At(j).last - b.link.At(j).cur + 1 else 0) + Total(Flat(Work(b, j)[1..]))
  {
    if Work(b, j) != [] {
      CursorSeg(b, j, slack);
      LaterSizes(b.segs, Tail(s), j);
      assert Index(s, s.link.At(j).cursor.value) == FirstAt(b.segs, j, 0);
    }
  }

  /** What the division counts of a link's load: the rest of its current chunk and all later
      subsegments, but not the further chunks of the current one. */
  ghost function Counted(b: State, o: Link): int {
    if Work(b, o) == [] then 0
    else b.link.At(o).last - b.link.At(o).cur + 1 + Total(Flat(Work(b, o)[1..]))
  }

  /** The virtual segment size is the new segment and the other link's counted load. */
  lemma VirtualIsCounted(c: Config, b: State, s: State, i: Link)
    requires Shape(c, b) && Part(c, b, i, true) && Part(c, b, Other(i), false) && |Work(b, i)| == 1
    requires s.segs == b.segs + [Tail(s)] && s.completed == b.completed && s.link == b.link
    ensures VirtualSize(s, i) == Counted(b, Other(i)) + Tail(s).size
  {
    ContributionIsLoad(b, s, i, i, true);
    ContributionIsLoad(b, s, i, Other(i), false);
    assert Work(b, i)[1..] == [];
    assert b.segs != [] by { SearchSecond(b.segs, i); }
  }

  /** All its load, if the current subsegment has one chunk. */
  lemma CountedIsLeft(c: Config, b: State, o: Link)
    requires Part(c, b, o, false) && (Work(b, o) != [] ==> |Work(b, o)[0].chunks| == 1)
    ensures Counted(b, o) == Total(Left(b, o))
  {
    if Work(b, o) != [] {
      assert Work(b, o)[0] in Work(b, o);
      FlatHead(Work(b, o));
      assert Rest(Flat(Work(b, o))) == Flat(Work(b, o)[1..]);
      UnreadFacts(Work(b, o), b.link.At(o), 0);
    }
  }

  lemma CountedAtLeast(c: Config, b: State, o: Link)
    requires Part(c, b, o, false)
    ensures Counted(b, o) >= 0
  {
    var ds := Work(b, o);
    if ds != [] {
      PopDuties(ds, b.lastOff);
      FlatOk(ds[1..], b.lastOff);
      TotalZero(Flat(ds[1..]));
    }
  }

  /** Load `x` at goodput `t` ends no later than load `y` at goodput `a`, and, unless the share was
      clamped to the segment, less than one byte of each link apart. */
  ghost predicate Balanced(x: int, y: int, t: nat, a: nat, clamped: bool) {
    x * a <= y * t && (!clamped ==> y * t - x * a < t + a)
  }

  lemma Spread(q: int, t: int, a: int)
    ensures q * (t + a) == q * t + q * a && (q + 1) * (t + a) == q * t + q * a + t + a
  {
  }

  lemma Remainder(total: int, q: int, t: int)
    ensures (total - q) * t == total * t - q * t
  {
  }

  lemma UnclampedBalances(total: int, t: nat, a: nat, q: int)
    requires q * (t + a) <= total * t < (q + 1) * (t + a)
    ensures Balanced(q, total - q, t, a, false)
  {
    Spread(q, t, a);
    Remainder(total, q, t);
  }

  lemma ClampedBalances(total: int, n: int, t: nat, a: nat, q: int)
    requires n <= q && q * (t + a) <= total * t
    ensures Balanced(n, total - n, t, a, true)
  {
    MulLess(n, q, t + a);
    Spread(n, t, a);
    Remainder(total, n, t);
  }

  lemma ShareBalances(total: int, n: int, t: nat, a: nat, x: int)
    requires 0 <= n <= total && t + a > 0
    requires x == if Ratio(total, t, a) > n then n else Ratio(total, t, a)
    ensures Balanced(x, total - x, t, a, Ratio(total, t, a) > n)
  {
    RatioBounds(total, t, a);
    var q := Ratio(total, t, a);
    if q > n { ClampedBalances(total, n, t, a, q); } else { UnclampedBalances(total, t, a, q); }
  }

  lemma MulLess(x: int, y: int, d: int)
    requires x <= y && d >= 0
    ensures x * d <= y * d
  {
    assert (y - x) * d >= 0;
  }

  /** The load of link `j` that counts before the new segment, and its part of the segment. */
  ghost function LoadAfter(b: State, g: Seg, j: Link, i: Link): int {
    Total(Piece(g, j)) + (if j == i then 0 else Counted(b, j))
  }

  /** The energy policy does not put the next segment on one link alone (src/gb.c:568-572). */
  predicate DualLink(c: Config, b: State, inp: Input) { !(c.minEnergy && b.completed > 0 && inp.mode != 0) }

  /** A share does not depend on the single-link mark. */
  lemma MarkIrrelevant(c: Config, s: State, ci: Link, t: nat, a: nat, mark: bool)
    ensures Share(c, s.(single := mark), ci, t, a) == Share(c, s, ci, t, a)
  {
    var r := s.(single := mark);
    assert Contribution(r, ci, 0) == Contribution(s, ci, 0) && Contribution(r, ci, 1) == Contribution(s, ci, 1);
  }

  lemma DualMade(c: Config, b: State, i: Link, inp: Input, n: int)
    requires !c.fixedSubsegment && DualLink(c, b, inp)
    ensures var s := AddNext(c, b, n);
            var r := if c.minEnergy && b.completed > 0 then s.(single := false) else s;
            MakeSegment(c, b, i, inp, n)
            == AddSubsegments(c, r, i, inp.goodput.At(i), inp.goodput.At(Other(i)), Fast(inp.goodput))
  {
  }

  /** The divided tail in the ordinary mode: the finishing link's share of the virtual size. */
  lemma DualTail(c: Config, b: State, i: Link, inp: Input, n: int)
    requires 0 <= b.lastOff && 0 < n && !c.fixedSubsegment && DualLink(c, b, inp)
    ensures var s := AddNext(c, b, n);
            var share := Share(c, s, i, inp.goodput.At(i), inp.goodput.At(Other(i)));
            var fast := Fast(inp.goodput);
            Tail(MakeSegment(c, b, i, inp, n)) == Divide(Tail(s), if fast == i then share else n - share, fast)
  {
    var s := AddNext(c, b, n);
    var t, a, fast := inp.goodput.At(i), inp.goodput.At(Other(i)), Fast(inp.goodput);
    AddNextShape(c, b, n);
    MarkIrrelevant(c, s, i, t, a, false);
    AddSubsegmentsIs(c, s, i, t, a, fast, Share(c, s, i, t, a));
    AddSubsegmentsIs(c, s.(single := false), i, t, a, fast, Share(c, s, i, t, a));
    DualMade(c, b, i, inp, n);
  }

  lemma DivideTotals(g: Seg, share: int, i: Link, fast: Link, hi: int)
    requires Whole(g, hi) && 0 <= share <= g.size
    ensures var d := Divide(g, if fast == i then share else g.size - share, fast);
            Total(Piece(d, i)) == share && Total(Piece(d, Other(i))) == g.size - share
  {
    var front := if fast == i then share else g.size - share;
    DivideExact(g, front, fast, hi);
    SplitTotals(g.chunks, front);
  }

  lemma ShareFormula(c: Config, b: State, i: Link, n: int, t: nat, a: nat)
    requires Shape(c, b) && Part(c, b, i, true) && Part(c, b, Other(i), false)
    requires |Work(b, i)| == 1 && 0 < n && !c.fixedSubsegment
    ensures var q := Ratio(Counted(b, Other(i)) + n, t, a);
            var share := Share(c, AddNext(c, b, n), i, t, a);
            share == (if q > n then n else q) && 0 <= share <= n && Counted(b, Other(i)) >= 0
  {
    AddNextShape(c, b, n);
    VirtualIsCounted(c, b, AddNext(c, b, n), i);
    CountedAtLeast(c, b, Other(i));
    RatioBounds(Counted(b, Other(i)) + n, t, a);
  }

  /** The finishing link's share and the totals of both parts. */
  lemma DualShare(c: Config, b: State, i: Link, inp: Input, n: int, share: int)
    requires 0 <= b.lastOff && 0 < n && !c.fixedSubsegment && DualLink(c, b, inp) && 0 <= share <= n
    requires share == Share(c, AddNext(c, b, n), i, inp.goodput.At(i), inp.goodput.At(Other(i)))
    ensures var g := Tail(MakeSegment(c, b, i, inp, n));
            Total(Piece(g, i)) == share && Total(Piece(g, Other(i))) == n - share
  {
    AddNextShape(c, b, n);
    DualTail(c, b, i, inp, n);
    var s := AddNext(c, b, n);
    DivideTotals(Tail(s), share, i, Fast(inp.goodput), s.lastOff);
  }

  lemma SharePieces(c: Config, b: State, i: Link, inp: Input, n: int, g: Seg)
    requires Shape(c, b) && Part(c, b, i, true) && Part(c, b, Other(i), false)
    requires |Work(b, i)| == 1 && 0 < n && !c.fixedSubsegment && DualLink(c, b, inp)
    requires g == Tail(MakeSegment(c, b, i, inp, n))
    ensures Shared(Counted(b, Other(i)), n, inp.goodput.At(i), inp.goodput.At(Other(i)),
                   Total(Piece(g, i)), Total(Piece(g, Other(i))))
  {
    var t, a := inp.goodput.At(i), inp.goodput.At(Other(i));
    ShareFormula(c, b, i, n, t, a);
    DualShare(c, b, i, inp, n, Share(c, AddNext(c, b, n), i, t, a));
  }

  /** Of `n` new bytes the finishing link gets `x` and the other one, with `load` left, gets `y`. */
  ghost predicate Shared(load: int, n: int, t: nat, a: nat, x: int, y: int) {
    var q := Ratio(load + n, t, a);
    load >= 0 && 0 < n && x == (if q > n then n else q) && y == n - x
  }

  /** Load balance: with goodputs t (finishing link) and a, the loads of the two links after
      the division are balanced; what counts of the other link is all its load if its current
      subsegment has one chunk. */
  lemma LoadBalance(c: Config, b: State, i: Link, inp: Input, n: int, g: Seg)
    requires Shape(c, b) && Part(c, b, i, true) && Part(c, b, Other(i), false)
    requires |Work(b, i)| == 1 && 0 < n && !c.fixedSubsegment && DualLink(c, b, inp)
    requires g == Tail(MakeSegment(c, b, i, inp, n))
    requires inp.goodput.lte + inp.goodput.wifi > 0
    ensures var x, y := LoadAfter(b, g, i, i), LoadAfter(b, g, Other(i), i);
            && x + y == Counted(b, Other(i)) + n
            && ((Work(b, Other(i)) != [] ==> |Work(b, Other(i))[0].chunks| == 1) ==>
                Counted(b, Other(i)) == Total(Left(b, Other(i))))
            && Balanced(x, y, inp.goodput.At(i), inp.goodput.At(Other(i)),
                        Ratio(x + y, inp.goodput.At(i), inp.goodput.At(Other(i))) > n)
  {
    SharePieces(c, b, i, inp, n, g);
    if Work(b, Other(i)) != [] ==> |Work(b, Other(i))[0].chunks| == 1 { CountedIsLeft(c, b, Other(i)); }
    LoadsBalance(b, i, g, n, inp.goodput.At(i), inp.goodput.At(Other(i)));
  }

  lemma LoadsBalance(b: State, i: Link, g: Seg, n: int, t: nat, a: nat)
    requires t + a > 0 && Shared(Counted(b, Other(i)), n, t, a, Total(Piece(g, i)), Total(Piece(g, Other(i))))
    ensures var x, y := LoadAfter(b, g, i, i), LoadAfter(b, g, Other(i), i);
            x + y == Counted(b, Other(i)) + n && Balanced(x, y, t, a, Ratio(x + y, t, a) > n)
  {
    LoadsAfter(b, g, i);
    BalanceOf(Counted(b, Other(i)), n, t, a, Total(Piece(g, i)), LoadAfter(b, g, Other(i), i));
  }

  lemma LoadsAfter(b: State, g: Seg, i: Link)
    ensures LoadAfter(b, g, i, i) == Total(Piece(g, i))
    ensures LoadAfter(b, g, Other(i), i) == Total(Piece(g, Other(i))) + Counted(b, Other(i))
  {
  }

  lemma BalanceOf(load: int, n: int, t: nat, a: nat, x: int, y: int)
    requires load >= 0 && 0 <= n && t + a > 0 && x + y == load + n
    requires x == if Ratio(load + n, t, a) > n then n else Ratio(load + n, t, a)
    ensures Balanced(x, y, t, a, Ratio(load + n, t, a) > n)
  {
    ShareBalances(load + n, n, t, a, x);
  }

  lemma OneSplit(ch: Chunk)
    requires ch.start <= ch.last
    ensures TakeBytes([ch], ch.Size()) == [ch] && DropBytes([ch], ch.Size()) == []
    ensures TakeBytes([ch], 0) == [] && DropBytes([ch], 0) == [ch]
  {
    assert [ch][1..] == [];
  }

  lemma WholeShare(c: Config, s: State, ci: Link)
    requires Tail(s).size >= 0 && VirtualSize(s, ci) >= Tail(s).size
    ensures Share(c, s, ci, 1, 0) == Tail(s).size
  {
    assert Tail(s).size * 1 / (1 + 0) == Tail(s).size;
    var v := VirtualSize(s, ci);
    assert v * 1 / (1 + 0) == v;
  }

  lemma SingleTail(c: Config, b: State, i: Link, inp: Input, n: int)
    requires 0 <= b.lastOff && 0 < n && c.minEnergy && b.completed > 0 && 1 <= inp.mode <= 2
    ensures var s := AddNext(c, b, n).(single := true);
            var share := Share(c, s, inp.mode - 1, 1, 0);
            var fast := Fast(inp.goodput);
            Tail(MakeSegment(c, b, i, inp, n))
            == Divide(Tail(s), if fast == inp.mode - 1 then share else n - share, fast)
  {
    var s := AddNext(c, b, n).(single := true);
    AddNextShape(c, b, n);
    assert MakeSegment(c, b, i, inp, n) == AddSubsegments(c, s, inp.mode - 1, 1, 0, Fast(inp.goodput));
  }

  lemma VirtualAtLeast(b: State, s: State, i: Link, chosen: Link)
    requires s.segs == b.segs + [Tail(s)] && DutiesOk(Work(s, i), b.lastOff) && DutiesOk(Work(s, Other(i)), b.lastOff)
    requires LinkOk(Work(s, i), s.link.At(i), true) && LinkOk(Work(s, Other(i)), s.link.At(Other(i)), true)
    ensures VirtualSize(s, chosen) >= Tail(s).size
  {
    if |s.segs| > 1 {
      ContributionNonNegative(s, chosen, i, b.lastOff, true);
      ContributionNonNegative(s, chosen, Other(i), b.lastOff, true);
    }
  }

  lemma SingleShare(c: Config, b: State, i: Link, n: int, chosen: Link)
    requires Shape(c, b) && Part(c, b, i, true) && Part(c, b, Other(i), false) && 0 < n
    ensures Share(c, AddNext(c, b, n).(single := true), chosen, 1, 0) == n
  {
    var s := AddNext(c, b, n).(single := true);
    AddNextShape(c, b, n);
    VirtualNonNegative(b, s, i, chosen);
    VirtualAtLeast(b, s, i, chosen);
    WholeShare(c, s, chosen);
  }

  lemma WholeGiven(g: Seg, ch: Chunk, n: int, chosen: Link, fast: Link)
    requires g.chunks == [ch] && g.size == n == ch.Size() && n > 0
    ensures var d := Divide(g, if fast == chosen then n else 0, fast);
            d.sub.At(chosen) == Some(Subsegment([ch], n)) && d.sub.At(Other(chosen)) == None
  {
    OneSplit(ch);
  }

  /** Single-link mode gives the chosen link the whole segment. */
  lemma SingleLinkWhole(c: Config, b: State, i: Link, inp: Input, n: int)
    requires Shape(c, b) && Part(c, b, i, true) && Part(c, b, Other(i), false)
    requires 0 < n && c.minEnergy && b.completed > 0 && 1 <= inp.mode <= 2
    ensures var g := Tail(MakeSegment(c, b, i, inp, n));
            var chosen: Link := inp.mode - 1;
            && g.sub.At(chosen) == Some(Subsegment([Chunk(b.lastOff + 1, b.lastOff + n)], n))
            && g.sub.At(Other(chosen)) == None
  {
    var chosen: Link := inp.mode - 1;
    AddNextShape(c, b, n);
    SingleShare(c, b, i, n, chosen);
    SingleTail(c, b, i, inp, n);
    WholeGiven(Tail(AddNext(c, b, n)), Chunk(b.lastOff + 1, b.lastOff + n), n, chosen, Fast(inp.goodput));
  }

  // ---------------------------------------------------------------- what a recovery collects

  /** After a recovery the new segment holds exactly the other link's unread bytes and the
      fresh extension, sorted and disjoint; the other link has nothing else, the finishing
      link's work is untouched and its segment is still in the list. */
  lemma RecoveryConserves(c: Config, s: State, i: Link, inp: Input, k: int)
    requires ConfigOk(c) && inp.policy >= c.initSeg
    requires InvFrom(c, s, i, true) && Work(s, i) != [] && DecideRecovery(c, s, i, inp)
    ensures var r := Recover(c, s, i, inp);
            var g := Tail(r);
            && r.segs != [] && g.recovery && g.id == s.count + 1
            && multiset(Bytes(g.chunks))[k]
               == multiset(Bytes(Left(s, Other(i))))[k] + multiset(Offsets(s.lastOff + 1, r.lastOff))[k]
            && Ordered(g.chunks) && Positive(g.chunks) && g.size == Total(g.chunks)
            && s.lastOff <= r.lastOff < c.Size()
            && EndsAt(c, s.lastOff, if c.fixedSegment then c.initSeg else inp.policy, r.lastOff)
            && Work(r, i) == Work(s, i) && Work(r, Other(i)) == []
            && (exists x | 0 <= x < |r.segs| - 1 :: r.segs[x].id == Work(s, i)[0].id && r.segs[x].sub.At(i).Some?)
            && r.count == r.completed + |r.segs|
  {
    var o := Other(i);
    var b := BeforeSizing(c, Detach(s, o));
    var list := Pool(c, b, Left(s, o), inp);
    var hi := b.lastOff + Extension(c, b, if c.fixedSegment then c.initSeg else inp.policy);
    CursorSeg(s, o, false);
    BaseDetached(c, s, i);
    PoolSorted(c, s, b, i, inp, list, hi);
    PoolLast(c, s, b, i, inp, list, hi);
    RecoverShape(c, s, b, i, inp, list, hi);
    RecoveredBytes(c, s, b, i, inp, list, hi, k);
    var r := Recover(c, s, i, inp);
    KeptSegment(b, r, i);
    DutiesAppend(b.segs, Tail(r), o);
  }

  lemma RecoveredBytes(c: Config, s: State, b: State, i: Link, inp: Input, list: seq<Chunk>, hi: int, k: int)
    requires ConfigOk(c) && inp.policy >= c.initSeg && BooksOf(c, s, i)
    requires b.lastOff == s.lastOff && 0 <= s.lastOff < c.Size() && PoolOf(c, s, b, i, inp, list, hi)
    ensures multiset(Bytes(Sort(list)))[k]
            == multiset(Bytes(Left(s, Other(i))))[k] + multiset(Offsets(s.lastOff + 1, hi))[k]
  {
    PoolBooks(c, s, b, i, inp);
    SortCover(list, k);
    CoverIsMultiplicity(Sort(list), k);
    CoverIsMultiplicity(Left(s, Other(i)), k);
    OffsetsMultiplicity(s.lastOff + 1, hi, k);
  }

  lemma KeptSegment(b: State, r: State, i: Link)
    requires r.segs == b.segs + [Tail(r)] && Tail(r).sub == Pair(None, None) && Work(b, i) != []
    ensures Work(r, i) == Work(b, i)
    ensures exists x | 0 <= x < |r.segs| - 1 :: r.segs[x].id == Work(b, i)[0].id && r.segs[x].sub.At(i).Some?
  {
    DutiesAppend(b.segs, Tail(r), i);
    SearchSecond(b.segs, i);
    var x := FirstAt(b.segs, i, 0);
    assert r.segs[x] == b.segs[x];
  }

  // ---------------------------------------------------------------- tiling

  /** `t` has one more ordinary segment than `s`, placed right after everything assigned
      before; it ends inside the file and leaves nothing or room for a full segment. */
  ghost predicate Tiles(c: Config, s: State, t: State) {
    && Tail(t).chunks == [Chunk(s.lastOff + 1, t.lastOff)]
    && s.lastOff < t.lastOff < c.Size()
    && (t.lastOff == c.Size() - 1
        || (t.lastOff - s.lastOff >= c.initSeg / 2 && c.Size() - 1 - t.lastOff >= c.initSeg))
  }

  /** What one set-up attempt does to the assigned part of the file. */
  ghost predicate Step(c: Config, s: State, t: State) {
    || (t.count == s.count && t.lastOff == s.lastOff)
    || (t.count == s.count + 1 && Tail(t).recovery && s.lastOff <= t.lastOff < c.Size())
    || (t.count == s.count + 1 && !Tail(t).recovery && Tiles(c, s, t))
  }

  /** A set-up attempt refuses, recovers, or makes an ordinary segment. */
  lemma SetupOutcomes(c: Config, s: State, i: Link, inp: Input)
    ensures var r := SetupNext(c, s, i, inp);
            var b := BeforeSizing(c, s);
            var n := NextSize(c, b, inp);
            || (r.1.count == s.count && r.1.lastOff == s.lastOff)
            || (DecideRecovery(c, s, i, inp) && r.1 == Subdivide(c, Recover(c, s, i, inp), i, inp, 0))
            || (n != 0 && r.1 == MakeSegment(c, b, i, inp, n))
  {
  }

  lemma AddedSteps(c: Config, s: State, b: State, r: State, n: int)
    requires b.count == s.count && b.lastOff == s.lastOff && 0 < n && s.lastOff + n < c.Size()
    requires r == b.(segs := b.segs + [Tail(r)], count := b.count + 1, lastOff := b.lastOff + n, single := r.single)
    requires Same(Tail(r), NewSeg(b, false, [Chunk(b.lastOff + 1, b.lastOff + n)], n))
    requires s.lastOff + n == c.Size() - 1 || (n >= c.initSeg / 2 && c.Size() - 1 - (s.lastOff + n) >= c.initSeg)
    ensures Step(c, s, r)
  {
  }

  lemma NewSegmentSteps(c: Config, s: State, i: Link, inp: Input)
    requires ConfigOk(c) && inp.policy >= c.initSeg && Core(c, s, i, true)
    requires NextSize(c, BeforeSizing(c, s), inp) != 0
    ensures var b := BeforeSizing(c, s);
            Step(c, s, MakeSegment(c, b, i, inp, NextSize(c, b, inp)))
  {
    var b := BeforeSizing(c, s);
    var n := NextSize(c, b, inp);
    BeforeSizingKeeps(c, s, i);
    NextSizeTiles(c, b, inp);
    NewSegmentTail(c, b, i, inp, n);
    AddedSteps(c, s, b, MakeSegment(c, b, i, inp, n), n);
  }

  lemma SetupSteps(c: Config, s: State, i: Link, inp: Input)
    requires ConfigOk(c) && inp.policy >= c.initSeg && InvFrom(c, s, i, true) && Work(s, i) != []
    ensures Step(c, s, SetupNext(c, s, i, inp).1)
  {
    SetupOutcomes(c, s, i, inp);
    if DecideRecovery(c, s, i, inp) { RecoverySteps(c, s, i, inp); }
    if NextSize(c, BeforeSizing(c, s), inp) != 0 { NewSegmentSteps(c, s, i, inp); }
  }

  lemma RecoverySteps(c: Config, s: State, i: Link, inp: Input)
    requires ConfigOk(c) && inp.policy >= c.initSeg && InvFrom(c, s, i, true) && Work(s, i) != []
    requires DecideRecovery(c, s, i, inp)
    ensures Step(c, s, Subdivide(c, Recover(c, s, i, inp), i, inp, 0))
  {
    var o := Other(i);
    var b := BeforeSizing(c, Detach(s, o));
    var list := Pool(c, b, Left(s, o), inp);
    var hi := b.lastOff + Extension(c, b, if c.fixedSegment then c.initSeg else inp.policy);
    CursorSeg(s, o, false);
    BaseDetached(c, s, i);
    RecoverTail(c, s, b, i, inp, list, hi);
    PoolSorted(c, s, b, i, inp, list, hi);
  }

  lemma SetupSame(c: Config, s: State, i: Link, inp: Input)
    ensures var t, r := SetupAndRequest(c, s, i, inp), SetupNext(c, s, i, inp).1;
            t.segs == r.segs && t.count == r.count && t.lastOff == r.lastOff
  {
  }

  lemma StepSame(c: Config, s: State, t: State, s': State, t': State)
    requires Step(c, s, t) && s'.count == s.count && s'.lastOff == s.lastOff
    requires t'.segs == t.segs && t'.count == t.count && t'.lastOff == t.lastOff
    ensures Step(c, s', t')
  {
  }

  lemma MiddleSteps(c: Config, s: State, inp: Input)
    requires ConfigOk(c) && InvFrom(c, s, inp.i, false) && InputOk(c, s, inp)
    ensures Step(c, s, Middle(c, s, inp))
  {
    var s1 := Write(c, s, inp.i, inp.n);
    WriteKeeps(c, s, inp.i, inp.n);
    if SetsUp(s, inp.i, inp.n) {
      SetupSteps(c, s1, inp.i, inp);
      SetupSame(c, s1, inp.i, inp);
      StepSame(c, s1, SetupNext(c, s1, inp.i, inp).1, s, Middle(c, s, inp));
    }
  }

  lemma TurnCounts(c: Config, s: State, inp: Input)
    requires ConfigOk(c) && InvFrom(c, s, inp.i, false) && InputOk(c, s, inp)
    ensures var t, m := TurnOf(c, s, inp), Middle(c, s, inp);
            t.count == m.count && t.lastOff == m.lastOff
  {
    MiddleOk(c, s, inp);
    if inp.n == s.link.At(inp.i).last - s.link.At(inp.i).cur + 1 {
      FinishKeeps(c, Middle(c, s, inp), inp.i);
    }
  }

  /** Whether the event makes an ordinary, not a recovered, segment. */
  ghost predicate MakesSegment(c: Config, s: State, e: Event) {
    e.Turn? && Middle(c, s, e.input).count > s.count && !Tail(Middle(c, s, e.input)).recovery
  }

  /** Ordinary segments made in a run. */
  ghost function Made(c: Config, s: State, es: seq<Event>): nat
    decreases |es|
  {
    if es == [] then 0
    else (if MakesSegment(c, s, es[0]) then 1 else 0) + Made(c, Next(c, s, es[0]), es[1..])
  }

  lemma MadeStep(c: Config, s: State, e: Event)
    requires ConfigOk(c) && Inv(c, s) && EventOk(c, s, e)
    ensures var t := Next(c, s, e);
            && Inv(c, t)
            && (if MakesSegment(c, s, e)
                then s.lastOff < t.lastOff && (t.lastOff == c.Size() - 1 || t.lastOff - s.lastOff >= c.initSeg / 2)
                else s.lastOff <= t.lastOff)
  {
    NextKeeps(c, s, e);
    if e.Turn? {
      InvBoth(c, s, e.input.i);
      MiddleSteps(c, s, e.input);
      TurnCounts(c, s, e.input);
    }
  }

  /** `m` segments of at least `h` bytes, the last one excepted, fit in `rest` bytes. */
  predicate Fits(m: nat, h: int, rest: int) { Times(m, h) <= rest + (if rest > 0 then h else 0) }

  function Times(m: nat, h: int): int { if m == 0 then 0 else h + Times(m - 1, h) }

  lemma {:induction false} TimesIs(m: nat, h: int)
    ensures Times(m, h) == m * h
  {
    if m > 0 {
      TimesIs(m - 1, h);
      OneMore(m - 1, h);
    }
  }

  lemma {:induction false} MadeBound(c: Config, s: State, es: seq<Event>, h: int)
    requires ConfigOk(c) && Inv(c, s) && Run(c, s, es) && h == c.initSeg / 2
    ensures Fits(Made(c, s, es), h, c.Size() - 1 - s.lastOff)
    decreases |es|
  {
    if es == [] {
      FitsNone(h, c.Size() - 1 - s.lastOff);
    } else {
      var t, made := MadeFacts(c, s, es, h);
      MadeBound(c, t, es[1..], h);
      FitsOneMore(Made(c, s, es), Made(c, t, es[1..]), made, h, c.Size() - 1 - s.lastOff, c.Size() - 1 - t.lastOff);
    }
  }

  lemma MadeFacts(c: Config, s: State, es: seq<Event>, h: int) returns (t: State, made: bool)
    requires ConfigOk(c) && Inv(c, s) && Run(c, s, es) && es != [] && h == c.initSeg / 2
    ensures Inv(c, t) && Run(c, t, es[1..]) && h >= 0
    ensures Made(c, s, es) == Made(c, t, es[1..]) + if made then 1 else 0
    ensures s.lastOff <= t.lastOff < c.Size()
    ensures made ==> s.lastOff < t.lastOff && (t.lastOff == c.Size() - 1 || t.lastOff - s.lastOff >= h)
  {
    t, made := Next(c, s, es[0]), MakesSegment(c, s, es[0]);
    MadeStep(c, s, es[0]);
    MadeUnfolds(c, s, es, Made(c, t, es[1..]));
  }

  lemma MadeUnfolds(c: Config, s: State, es: seq<Event>, m: nat)
    requires es != [] && m == Made(c, Next(c, s, es[0]), es[1..])
    ensures Made(c, s, es) == m + if MakesSegment(c, s, es[0]) then 1 else 0
  {
  }

  lemma FitsNone(h: int, rest: int)
    requires rest >= 0 && h >= 0
    ensures Fits(0, h, rest)
  {
  }

  /** One event in the count: `x` bytes are unassigned before it, `y` after it. */
  lemma FitsOneMore(n: nat, m: nat, made: bool, h: int, x: int, y: int)
    requires n == m + (if made then 1 else 0) && 0 <= y <= x && h >= 0 && Fits(m, h, y)
    requires made ==> y < x && (y == 0 || x - y >= h)
    ensures Fits(n, h, x)
  {
  }

  lemma OneMore(m: int, h: int)
    ensures (m + 1) * h == m * h + h
  {
  }

  lemma BoundFrom(m: int, h: int, size: int)
    requires h > 0 && size >= 0 && m * h < size + h
    ensures m <= 1 + size / h
  {
    var q := size / h;
    DivFacts(size, h);
    OneMore(q + 1, h);
    OneMore(q, h);
    if m >= q + 2 { MulLess(q + 2, m, h); }
  }

  /** Besides the first one, a run makes at most 1 + size / (init_seg_size / 2) ordinary segments. */
  lemma SegmentsBounded(c: Config, es: seq<Event>)
    requires ConfigOk(c) && Run(c, Start(c), es)
    ensures Made(c, Start(c), es) <= 1 + c.Size() / (c.initSeg / 2)
  {
    StartOk(c);
    StartShape(c);
    MadeBound(c, Start(c), es, c.initSeg / 2);
    TimesIs(Made(c, Start(c), es), c.initSeg / 2);
    BoundFrom(Made(c, Start(c), es), c.initSeg / 2, c.Size());
  }

  lemma TileAt(c: Config, s: State, inp: Input)
    requires ConfigOk(c) && Inv(c, s) && InputOk(c, s, inp) && MakesSegment(c, s, Turn(inp))
    ensures Tiles(c, s, Middle(c, s, inp))
  {
    InvBoth(c, s, inp.i);
    MiddleSteps(c, s, inp);
  }

  /** In every run, in either segment mode, every new ordinary segment tiles the file. */
  lemma SegmentsTile(c: Config, es: seq<Event>, s: State, inp: Input)
    requires ConfigOk(c) && Run(c, Start(c), es) && s == After(c, Start(c), es)
    requires EventOk(c, s, Turn(inp)) && MakesSegment(c, s, Turn(inp))
    ensures Tiles(c, s, Middle(c, s, inp))
  {
    Reachable(c, es);
    TileAt(c, s, inp);
  }
}
