/**
 * Which link gets which part of a new segment: the link with the higher goodput the front
 * (src/offset.c:10-13, src/offset.c:132-169), and each its share by the rates in force
 * (src/offset.c:96-130, src/gb.c:693-705).
 */
module Dividing {
  import opened Pairs
  import opened Chunks
  import opened Scheduler
  import opened DutyLemmas
  import opened Invariant
  import opened Assigning
  import opened Setup
  import opened Balance

  /** Link `j` has the higher goodput; LTE wins a tie. */
  predicate Faster(goodput: Pair<nat>, j: Link) {
    goodput.At(j) > goodput.At(Other(j)) || (goodput.lte == goodput.wifi && j == INDEX_LTE)
  }

  /** Every offset of `p` is below every offset of `q`. */
  ghost predicate Before(p: seq<Chunk>, q: seq<Chunk>) {
    forall k, m | Cover(p, k) > 0 && Cover(q, m) > 0 :: k < m
  }

  /** The link with the higher goodput has the front of the segment. */
  ghost predicate FrontFirst(goodput: Pair<nat>, g: Seg) {
    forall j: Link | Faster(goodput, j) :: Before(Piece(g, j), Piece(g, Other(j)))
  }

  /** `x` of `n` bytes is the share `t : a`, rounded down. */
  predicate Portion(x: int, n: int, t: nat, a: nat) { x * (t + a) <= n * t < (x + 1) * (t + a) }

  /** How the new segment `g` of a turn of link `i` is handed out in state `s`. */
  ghost predicate Handed(c: Config, s: State, i: Link, inp: Input, g: Seg) {
    var o, n, x, y := Other(i), Total(g.chunks), Total(Piece(g, i)), Total(Piece(g, Other(i)));
    var t, a := inp.goodput.At(i), inp.goodput.At(o);
    && x + y == n && FrontFirst(inp.goodput, g)
    && if !g.recovery && c.minEnergy && s.completed > 0 && inp.mode != 0 then
         (inp.mode == 1 ==> Piece(g, 1) == []) && (inp.mode == 2 ==> Piece(g, 0) == [])
       else if c.fixedSubsegment then Portion(x, n, c.rate.At(i), c.rate.At(o))
       else if g.recovery then Portion(x, n, t, a)
       else Balanced(x, y + Counted(s, o), t, a, Ratio(Counted(s, o) + n, t, a) > n)
  }

  // ---------------------------------------------------------------- the front

  lemma {:induction false} SplitBefore(cs: seq<Chunk>, f: int, k: int, m: int)
    requires Positive(cs) && Ordered(cs) && Cover(TakeBytes(cs, f), k) > 0 && Cover(DropBytes(cs, f), m) > 0
    ensures k < m
  {
    if f > 0 && cs != [] {
      if f < cs[0].Size() {
        assert TakeBytes(cs, f)[1..] == [] && DropBytes(cs, f)[1..] == cs[1..];
        if Cover(cs[1..], m) > 0 { LaterAbove(cs, m); }
      } else {
        var f' := f - cs[0].Size();
        assert TakeBytes(cs, f)[1..] == TakeBytes(cs[1..], f');
        SplitCover(cs[1..], f', m);
        LaterAbove(cs, m);
        if !cs[0].Holds(k) { SplitBefore(cs[1..], f', k, m); }
      }
    }
  }

  lemma LaterAbove(cs: seq<Chunk>, m: int)
    requires cs != [] && Positive(cs) && Ordered(cs) && Cover(cs[1..], m) > 0
    ensures cs[0].last < m
  {
    CoverPositive(cs[1..], m);
    var x :| 0 <= x < |cs[1..]| && cs[1..][x].Holds(m);
    assert cs[1..][x] == cs[x + 1];
  }

  lemma FrontOf(g: Seg, front: int, goodput: Pair<nat>, hi: int)
    requires Whole(g, hi) && 0 <= front <= g.size
    ensures FrontFirst(goodput, Divide(g, front, Fast(goodput)))
  {
    var fast := Fast(goodput);
    var d := Divide(g, front, fast);
    DivideExact(g, front, fast, hi);
    forall k, m | Cover(Piece(d, fast), k) > 0 && Cover(Piece(d, Other(fast)), m) > 0 ensures k < m {
      SplitBefore(g.chunks, front, k, m);
    }
  }

  // ---------------------------------------------------------------- the shares

  lemma PortionOf(n: int, t: nat, a: nat)
    requires n >= 0 && t + a > 0
    ensures Portion(Ratio(n, t, a), n, t, a)
  {
    RatioBounds(n, t, a);
  }

  lemma DualIs(c: Config, s: State, i: Link, inp: Input)
    ensures Subdivide(c, s, i, inp, 0) ==
            if c.fixedSubsegment then AddSubsegments(c, s, i, c.rate.At(i), c.rate.At(Other(i)), Fast(inp.goodput))
            else AddSubsegments(c, s, i, inp.goodput.At(i), inp.goodput.At(Other(i)), Fast(inp.goodput))
  {
  }

  /** A division gives the dividing link its share, and the fast link the front. */
  lemma DividedParts(c: Config, s: State, ci: Link, t: nat, a: nat, goodput: Pair<nat>, hi: int)
    requires s.segs != [] && Whole(Tail(s), hi) && (Tail(s).recovery || VirtualSize(s, ci) >= 0)
    ensures var g := Tail(AddSubsegments(c, s, ci, t, a, Fast(goodput)));
            && Same(g, Tail(s)) && FrontFirst(goodput, g)
            && Total(Piece(g, ci)) == Share(c, s, ci, t, a)
            && Total(Piece(g, ci)) + Total(Piece(g, Other(ci))) == Tail(s).size
  {
    var share, fast := Share(c, s, ci, t, a), Fast(goodput);
    ShareBounds(c, s, ci, t, a);
    AddSubsegmentsIs(c, s, ci, t, a, fast, share);
    DivideTotals(Tail(s), share, ci, fast, hi);
    FrontOf(Tail(s), if fast == ci then share else Tail(s).size - share, goodput, hi);
  }

  /** The share in both modes that do not look at the loads. */
  lemma ShareIsPortion(c: Config, s: State, ci: Link, t: nat, a: nat)
    requires (c.fixedSubsegment || Tail(s).recovery) && Tail(s).size >= 0 && t + a > 0
    ensures Portion(Share(c, s, ci, t, a), Tail(s).size, t, a)
  {
    PortionOf(Tail(s).size, t, a);
    RatioBounds(Tail(s).size, t, a);
  }

  lemma SumAt(p: Pair<nat>, i: Link)
    requires p.lte + p.wifi > 0
    ensures p.At(i) + p.At(Other(i)) > 0
  {
  }

  // ---------------------------------------------------------------- recovered segments

  lemma RecoveryHanded(c: Config, s: State, i: Link, inp: Input)
    requires ConfigOk(c) && inp.policy >= c.initSeg && inp.goodput.lte + inp.goodput.wifi > 0
    requires Core(c, s, i, true) && Work(s, Other(i)) != []
    ensures Handed(c, s, i, inp, Tail(Subdivide(c, Recover(c, s, i, inp), i, inp, 0)))
  {
    var rec, hi := RecoveredWhole(c, s, i, inp);
    SumAt(inp.goodput, i);
    SumAt(c.rate, i);
    DualIs(c, rec, i, inp);
    var t, a := if c.fixedSubsegment then c.rate.At(i) else inp.goodput.At(i),
                if c.fixedSubsegment then c.rate.At(Other(i)) else inp.goodput.At(Other(i));
    DividedParts(c, rec, i, t, a, inp.goodput, hi);
    ShareIsPortion(c, rec, i, t, a);
  }

  lemma RecoveredWhole(c: Config, s: State, i: Link, inp: Input) returns (rec: State, hi: int)
    requires ConfigOk(c) && inp.policy >= c.initSeg && Core(c, s, i, true) && Work(s, Other(i)) != []
    ensures rec == Recover(c, s, i, inp) && rec.segs != [] && Whole(Tail(rec), hi) && Tail(rec).recovery
  {
    var b := BeforeSizing(c, Detach(s, Other(i)));
    var list := Pool(c, b, Left(s, Other(i)), inp);
    hi := b.lastOff + Extension(c, b, if c.fixedSegment then c.initSeg else inp.policy);
    rec := Recover(c, s, i, inp);
    BaseDetached(c, s, i);
    PoolSorted(c, s, b, i, inp, list, hi);
    PoolLast(c, s, b, i, inp, list, hi);
    RecoverShape(c, s, b, i, inp, list, hi);
  }

  // ---------------------------------------------------------------- ordinary segments

  /** The state in which an ordinary segment of `n` bytes is divided, and the mode. */
  lemma MadeFrom(c: Config, b: State, i: Link, inp: Input, n: int) returns (s: State, mode: int)
    requires 0 <= b.lastOff && 0 < n
    ensures mode == if c.minEnergy && b.completed > 0 then inp.mode else 0
    ensures MakeSegment(c, b, i, inp, n) == Subdivide(c, s, i, inp, mode)
    ensures s.segs == b.segs + [Tail(s)] && Tail(s).size == n && !Tail(s).recovery && Whole(Tail(s), s.lastOff)
    ensures s.link == b.link && s.completed == b.completed
  {
    AddNextShape(c, b, n);
    mode := if c.minEnergy && b.completed > 0 then inp.mode else 0;
    s := AddNext(c, b, n);
    if c.minEnergy && b.completed > 0 { s := s.(single := inp.mode != 0); }
  }

  lemma SubdivideParts(c: Config, b: State, s: State, i: Link, inp: Input, mode: int)
    requires Part(c, b, i, true) && Part(c, b, Other(i), false)
    requires s.segs == b.segs + [Tail(s)] && Whole(Tail(s), s.lastOff) && s.link == b.link
    ensures var g := Tail(Subdivide(c, s, i, inp, mode));
            && Same(g, Tail(s)) && FrontFirst(inp.goodput, g)
            && Total(Piece(g, i)) + Total(Piece(g, Other(i))) == Tail(s).size
            && (mode == 0 && c.fixedSubsegment ==>
                Total(Piece(g, i)) == Share(c, s, i, c.rate.At(i), c.rate.At(Other(i))))
  {
    VirtualNonNegative(b, s, i, 0);
    VirtualNonNegative(b, s, i, 1);
    var ci, t, a := SubdivideIs(c, s, i, inp, mode);
    assert ci == 0 || ci == 1;
    DividedParts(c, s, ci, t, a, inp.goodput, s.lastOff);
    if mode == 0 {
      DualIs(c, s, i, inp);
      if c.fixedSubsegment { DividedParts(c, s, i, c.rate.At(i), c.rate.At(Other(i)), inp.goodput, s.lastOff); }
    }
  }

  lemma FixedHanded(c: Config, b: State, i: Link, inp: Input, n: int)
    requires ConfigOk(c) && Part(c, b, i, true) && Part(c, b, Other(i), false) && 0 <= b.lastOff && 0 < n
    ensures var g := Tail(MakeSegment(c, b, i, inp, n));
            && g.chunks == [Chunk(b.lastOff + 1, b.lastOff + n)] && !g.recovery && FrontFirst(inp.goodput, g)
            && Total(Piece(g, i)) + Total(Piece(g, Other(i))) == n
            && (DualLink(c, b, inp) && c.fixedSubsegment ==>
                Portion(Total(Piece(g, i)), n, c.rate.At(i), c.rate.At(Other(i))))
  {
    var s, mode := MadeFrom(c, b, i, inp, n);
    SubdivideParts(c, b, s, i, inp, mode);
    NewSegmentTail(c, b, i, inp, n);
    SumAt(c.rate, i);
    if c.fixedSubsegment { ShareIsPortion(c, s, i, c.rate.At(i), c.rate.At(Other(i))); }
  }

  lemma SingleHanded(c: Config, b: State, i: Link, inp: Input, n: int)
    requires Shape(c, b) && Part(c, b, i, true) && Part(c, b, Other(i), false) && 0 < n
    requires c.minEnergy && b.completed > 0 && 1 <= inp.mode <= 2
    ensures var g := Tail(MakeSegment(c, b, i, inp, n));
            (inp.mode == 1 ==> Piece(g, 1) == []) && (inp.mode == 2 ==> Piece(g, 0) == [])
  {
    SingleLinkWhole(c, b, i, inp, n);
  }

  lemma SharedBalances(load: int, n: int, t: nat, a: nat, x: int, y: int)
    requires t + a > 0 && Shared(load, n, t, a, x, y)
    ensures Balanced(x, y + load, t, a, Ratio(load + n, t, a) > n)
  {
    BalanceOf(load, n, t, a, x, y + load);
  }

  /** The three modes, put together. */
  lemma ModesHanded(c: Config, b: State, i: Link, inp: Input, g: Seg)
    requires !g.recovery && FrontFirst(inp.goodput, g)
    requires Total(Piece(g, i)) + Total(Piece(g, Other(i))) == Total(g.chunks)
    requires !DualLink(c, b, inp) ==> (inp.mode == 1 ==> Piece(g, 1) == []) && (inp.mode == 2 ==> Piece(g, 0) == [])
    requires DualLink(c, b, inp) && c.fixedSubsegment ==>
               Portion(Total(Piece(g, i)), Total(g.chunks), c.rate.At(i), c.rate.At(Other(i)))
    requires DualLink(c, b, inp) && !c.fixedSubsegment ==>
               var t, a, load := inp.goodput.At(i), inp.goodput.At(Other(i)), Counted(b, Other(i));
               t + a > 0 && Shared(load, Total(g.chunks), t, a, Total(Piece(g, i)), Total(Piece(g, Other(i))))
    ensures Handed(c, b, i, inp, g)
  {
    if DualLink(c, b, inp) && !c.fixedSubsegment {
      SharedBalances(Counted(b, Other(i)), Total(g.chunks), inp.goodput.At(i), inp.goodput.At(Other(i)),
                     Total(Piece(g, i)), Total(Piece(g, Other(i))));
    }
  }

  lemma OrdinaryHanded(c: Config, b: State, i: Link, inp: Input, n: int)
    requires ConfigOk(c) && Shape(c, b) && Part(c, b, i, true) && Part(c, b, Other(i), false)
    requires |Work(b, i)| == 1 && 0 < n && inp.goodput.lte + inp.goodput.wifi > 0 && 0 <= inp.mode <= 2
    ensures Handed(c, b, i, inp, Tail(MakeSegment(c, b, i, inp, n)))
  {
    var g := Tail(MakeSegment(c, b, i, inp, n));
    FixedHanded(c, b, i, inp, n);
    CoverOne(Chunk(b.lastOff + 1, b.lastOff + n), 0);
    assert Total(g.chunks) == n;
    SumAt(inp.goodput, i);
    if !DualLink(c, b, inp) { SingleHanded(c, b, i, inp, n); }
    if DualLink(c, b, inp) && !c.fixedSubsegment { SharePieces(c, b, i, inp, Total(g.chunks), g); }
    ModesHanded(c, b, i, inp, g);
  }
}
