/** Dividing a new tail segment between the links and requesting both parts
    (src/offset.c:96, src/gb.c:346, src/gb.c:926, src/recovery.c:102). */
module Assigning {
  import opened Pairs
  import opened Chunks
  import opened Scheduler
  import opened DutyLemmas
  import opened Invariant

  // ---------------------------------------------------------------- shares

  lemma RatioBounds(x: int, t: nat, a: nat)
    requires x >= 0
    ensures 0 <= Ratio(x, t, a) <= x
    ensures t + a > 0 ==> Ratio(x, t, a) * (t + a) <= x * t < (Ratio(x, t, a) + 1) * (t + a)
  {
    if t + a > 0 {
      var q := x * t / (t + a);
      DivFacts(x * t, t + a);
      assert x * (t + a) == x * t + x * a;
      Cancel(q, x, t + a);
    }
  }

  lemma MulGrows(p: int, d: int)
    requires p >= 1 && d > 0
    ensures p * d >= d
  {
  }

  lemma Cancel(q: int, x: int, d: int)
    requires d > 0 && q * d <= x * d
    ensures q <= x
  {
    if q > x { MulGrows(q - x, d); }
  }

  lemma DivFacts(n: int, d: int)
    requires n >= 0 && d > 0
    ensures n / d >= 0 && (n / d) * d <= n < (n / d + 1) * d
  {
    assert n == d * (n / d) + n % d;
  }

  lemma {:induction false} DutyIn(gs: seq<Seg>, j: Link, x: nat)
    requires x < |gs| && gs[x].sub.At(j).Some?
    ensures DutyOf(gs[x], j) in Duties(gs, j)
  {
    if x > 0 { DutyIn(gs[1..], j, x - 1); }
  }

  lemma {:induction false} SubSizesNonNegative(gs: seq<Seg>, j: Link, lo: nat, hi: int, bound: int)
    requires hi <= |gs| && DutiesOk(Duties(gs, j), bound)
    ensures SubSizes(gs, j, lo, hi) >= 0
    decreases hi - lo
  {
    if lo < hi {
      SubSizesNonNegative(gs, j, lo + 1, hi, bound);
      if gs[lo].sub.At(j).Some? {
        DutyIn(gs, j, lo);
        assert DutyOk(DutyOf(gs[lo], j), bound);
      }
    }
  }

  lemma ContributionNonNegative(s: State, ci: Link, j: Link, bound: int, slack: bool)
    requires DutiesOk(Work(s, j), bound)
    requires LinkOk(Work(s, j), s.link.At(j), slack)
    ensures Contribution(s, ci, j) >= 0
  {
    var l := s.link.At(j);
    if l.cursor.Some? && s.segs != [] {
      var k := Index(s, l.cursor.value);
      if k >= -1 { SubSizesNonNegative(s.segs, j, k + 1, |s.segs| - 1, bound); }
    }
  }

  // ---------------------------------------------------------------- pieces

  function Piece(g: Seg, j: Link): seq<Chunk> {
    match g.sub.At(j) case None => [] case Some(q) => q.chunks
  }

  /** A segment whose chunks are handed out completely and without overlap. */
  ghost predicate Divided(g: Seg, hi: int) {
    && (forall j: Link | g.sub.At(j).Some? :: DutyOk(DutyOf(g, j), hi) && g.sub.At(j).value.size == Total(Piece(g, j)))
    && !g.Finished()
    && (forall k :: Cover(Piece(g, 0), k) + Cover(Piece(g, 1), k) == Cover(g.chunks, k))
    && Total(Piece(g, 0)) + Total(Piece(g, 1)) == Total(g.chunks)
  }

  ghost predicate Whole(g: Seg, hi: int) {
    && g.sub == Pair(None, None) && g.chunks != []
    && Positive(g.chunks) && Ordered(g.chunks) && Within(g.chunks, 0, hi)
    && Total(g.chunks) == g.size >= 1
    && (!g.recovery ==> |g.chunks| == 1)
  }

  /** The division of one segment: `front` bytes to the fast link. */
  function Divide(g: Seg, front: int, fast: Link): Seg {
    g.(sub := Pair(None, None).With(fast, MakeSub(TakeBytes(g.chunks, front), front))
                              .With(Other(fast), MakeSub(DropBytes(g.chunks, front), g.size - front)))
  }

  lemma TotalZero(cs: seq<Chunk>)
    requires Positive(cs)
    ensures Total(cs) == 0 <==> cs == []
    ensures Total(cs) >= 0
  {
    BytesLength(cs);
  }

  lemma PieceOk(g: Seg, cs: seq<Chunk>, size: int, hi: int)
    requires Positive(cs) && Ordered(cs) && Within(cs, 0, hi) && Total(cs) == size
    requires !g.recovery ==> |cs| <= 1
    ensures size >= 0
    ensures size == 0 ==> cs == []
    ensures size != 0 ==> DutyOk(Duty(g.id, g.recovery, cs, size), hi)
  {
    TotalZero(cs);
  }

  lemma OnePiece(cs: seq<Chunk>, f: int)
    requires |cs| == 1 && Positive(cs)
    ensures |TakeBytes(cs, f)| <= 1 && |DropBytes(cs, f)| <= 1
  {
    assert cs[1..] == [];
  }

  /** Whatever the share, a division hands out exactly the segment. */
  lemma DivideExact(g: Seg, front: int, fast: Link, hi: int)
    requires Whole(g, hi) && 0 <= front <= g.size
    ensures Divided(Divide(g, front, fast), hi)
    ensures Piece(Divide(g, front, fast), fast) == TakeBytes(g.chunks, front)
    ensures Piece(Divide(g, front, fast), Other(fast)) == DropBytes(g.chunks, front)
  {
    var cs := g.chunks;
    var p, q := TakeBytes(cs, front), DropBytes(cs, front);
    SplitTotals(cs, front);
    SplitOrdered(cs, front, 0, hi);
    if !g.recovery { OnePiece(cs, front); }
    PieceOk(g, p, front, hi);
    PieceOk(g, q, g.size - front, hi);
    forall k ensures Cover(p, k) + Cover(q, k) == Cover(cs, k) { SplitCover(cs, front, k); }
  }

  lemma ShareBounds(c: Config, s: State, ci: Link, t: nat, a: nat)
    requires Tail(s).size >= 0 && (Tail(s).recovery || VirtualSize(s, ci) >= 0)
    ensures 0 <= Share(c, s, ci, t, a) <= Tail(s).size
  {
    RatioBounds(Tail(s).size, t, a);
    if !Tail(s).recovery { RatioBounds(VirtualSize(s, ci), t, a); }
  }

  lemma AddSubsegmentsIs(c: Config, s: State, ci: Link, t: nat, a: nat, fast: Link, share: int)
    requires s.segs != [] && share == Share(c, s, ci, t, a)
    ensures AddSubsegments(c, s, ci, t, a, fast)
            == s.(segs := s.segs[..|s.segs| - 1]
                          + [Divide(Tail(s), if fast == ci then share else Tail(s).size - share, fast)])
  {
  }

  /** `AddSubsegments` divides the tail and nothing else. */
  lemma TailDivided(c: Config, s: State, ci: Link, t: nat, a: nat, fast: Link, hi: int)
    requires s.segs != [] && Whole(Tail(s), hi) && (Tail(s).recovery || VirtualSize(s, ci) >= 0)
    ensures var r := AddSubsegments(c, s, ci, t, a, fast);
            && r == s.(segs := s.segs[..|s.segs| - 1] + [Tail(r)])
            && r.segs != [] && Same(Tail(r), Tail(s)) && Divided(Tail(r), hi)
  {
    ShareBounds(c, s, ci, t, a);
    var share := Share(c, s, ci, t, a);
    var front := if fast == ci then share else Tail(s).size - share;
    DivideExact(Tail(s), front, fast, hi);
    AddSubsegmentsIs(c, s, ci, t, a, fast, share);
  }

  // ---------------------------------------------------------------- links

  /** What requesting part `sub` of new segment `id` does to a link's record. */
  ghost predicate Extended(ds: seq<Duty>, l: Conn, l': Conn, sub: Option<Subsegment>, id: nat) {
    if ds != [] then
      && l'.cursor == l.cursor && l'.cur == l.cur && l'.last == l.last && l'.enabled == l.enabled
      && (match sub
          case None => l'.pipelined == l.pipelined && l'.net == l.net
          case Some(q) => l'.pipelined && l'.net == Net(l.net.body, l.net.pending + q.chunks))
    else
      match sub
      case None => l'.cursor == None && !l'.enabled && IsIdle(l') && l'.net.pending == []
      case Some(q) =>
        && l'.cursor == Some(id) && l'.enabled && !l'.pipelined
        && l'.cur == Head(q.chunks).start && l'.last == Head(q.chunks).last
        && l'.net == Net(Head(q.chunks), Rest(q.chunks))
  }

  ghost function NewDuty(g: Seg, j: Link): seq<Duty> { if g.sub.At(j).Some? then [DutyOf(g, j)] else [] }

  lemma ExtendedBusy(ds: seq<Duty>, l: Conn, l': Conn, d: Duty, slack: bool)
    requires ds != [] && LinkOk(ds, l, slack) && ds[0].chunks != []
    requires l' == l'.(cursor := l.cursor, cur := l.cur, last := l.last, enabled := l.enabled, pipelined := true,
                       net := Net(l.net.body, l.net.pending + d.chunks))
    ensures LinkOk(ds + [d], l', slack) && Unread(ds + [d], l') == Unread(ds, l) + d.chunks
  {
    FlatAppend(ds, d);
    FlatHead(ds);
    assert Rest(Flat(ds) + d.chunks) == Rest(Flat(ds)) + d.chunks;
  }

  lemma ExtendedIdle(l': Conn, d: Duty, hi: int, slack: bool)
    requires DutyOk(d, hi) && l'.cursor == Some(d.id) && l'.enabled && !l'.pipelined
    requires l'.cur == Head(d.chunks).start && l'.last == Head(d.chunks).last
    requires l'.net == Net(Head(d.chunks), Rest(d.chunks))
    ensures LinkOk([d], l', slack) && Unread([d], l') == d.chunks
  {
    assert Head(d.chunks) in d.chunks;
    assert [d][1..] == [];
    assert Flat([d]) == d.chunks;
  }

  /** The queue of outstanding ranges stays equal to the chunks that will be taken next. */
  lemma ExtendedLink(ds: seq<Duty>, l: Conn, l': Conn, g: Seg, j: Link, hi: int, slack: bool)
    requires ds != [] ==> LinkOk(ds, l, slack) && ds[0].chunks != []
    requires Extended(ds, l, l', g.sub.At(j), g.id)
    requires g.sub.At(j).Some? ==> DutyOk(DutyOf(g, j), hi)
    ensures LinkOk(ds + NewDuty(g, j), l', slack)
    ensures Unread(ds + NewDuty(g, j), l') == Unread(ds, l) + Piece(g, j)
  {
    if g.sub.At(j).None? {
      assert ds + NewDuty(g, j) == ds;
    } else if ds != [] {
      ExtendedBusy(ds, l, l', DutyOf(g, j), slack);
    } else {
      assert ds + NewDuty(g, j) == NewDuty(g, j);
      ExtendedIdle(l', DutyOf(g, j), hi, slack);
    }
  }

  // ---------------------------------------------------------------- the whole assignment

  /** What a link must satisfy before the new segment is shared out. */
  ghost predicate Ready(b: State, j: Link, slack: bool) {
    && DutiesOk(Work(b, j), b.lastOff) && Untouched(Work(b, j))
    && (Work(b, j) != [] ==> LinkOk(Work(b, j), b.link.At(j), slack))
  }

  ghost predicate LinkExtended(c: Config, b: State, t: State, j: Link) {
    && Extended(Work(b, j), b.link.At(j), t.link.At(j), Tail(t).sub.At(j), Tail(t).id)
    && (t.link.At(j).lastSegment ==> t.lastOff == c.Size() - 1)
  }

  lemma PartExtended(c: Config, b: State, t: State, j: Link, slack: bool)
    requires Ready(b, j, slack) && b.lastOff <= t.lastOff && t.segs == b.segs + [Tail(t)]
    requires Divided(Tail(t), t.lastOff)
    requires LinkExtended(c, b, t, j)
    ensures Work(t, j) == Work(b, j) + NewDuty(Tail(t), j)
    ensures Part(c, t, j, slack) && Left(t, j) == Left(b, j) + Piece(Tail(t), j)
  {
    var ds, g := Work(b, j), Tail(t);
    DutiesAppend(b.segs, g, j);
    assert t.segs == b.segs + [g];
    if ds != [] { assert ds[0] in ds; }
    ExtendedLink(ds, b.link.At(j), t.link.At(j), g, j, t.lastOff, slack);
    forall d | d in Work(t, j) ensures DutyOk(d, t.lastOff) {
      if d in ds { assert DutyOk(d, b.lastOff); }
    }
  }

  lemma BooksDivided(c: Config, file: map<int, Option<Byte>>, done: int, lastOff: int,
                     u: seq<Chunk>, v: seq<Chunk>, g: Seg, i: Link, hi: int)
    requires Books(c, file, done, lastOff, u, v, g.chunks) && Divided(g, hi)
    ensures Books(c, file, done, lastOff, u + Piece(g, i), v + Piece(g, Other(i)), [])
  {
    var u', v' := u + Piece(g, i), v + Piece(g, Other(i));
    forall k ensures Cover(u', k) + Cover(v', k) + Cover([], k) == Cover(u, k) + Cover(v, k) + Cover(g.chunks, k) {
      CoverAppend(u, Piece(g, i), k);
      CoverAppend(v, Piece(g, Other(i)), k);
      assert Cover(Piece(g, 0), k) + Cover(Piece(g, 1), k) == Cover(g.chunks, k);
    }
    TotalAppend(u, Piece(g, i));
    TotalAppend(v, Piece(g, Other(i)));
    BooksMove(c, file, done, lastOff, u, v, g.chunks, lastOff, u', v', []);
  }

  lemma OnNewTail(t: State, ds: seq<Duty>, j: Link)
    requires Work(t, j) == ds + NewDuty(Tail(t), j) && Tail(t).sub.At(j).Some? && Tail(t).id == t.count
    ensures OnTail(Work(t, j), t.count)
  {
  }

  /** `t` is `b` with one more segment at the tail. */
  ghost predicate Appended(c: Config, b: State, t: State) {
    && Window(b.segs, b.count, b.completed) && SegsOk(b.segs, b.lastOff)
    && 0 <= b.lastOff <= t.lastOff < c.Size()
    && t.segs == b.segs + [Tail(t)] && t.count == b.count + 1 == Tail(t).id && t.completed == b.completed
    && Tail(t).chunks != [] && LastOf(Tail(t).chunks).last <= t.lastOff
  }

  lemma AppendedShape(c: Config, b: State, t: State)
    requires Appended(c, b, t)
    ensures Shape(c, t)
  {
    forall x | x in t.segs ensures x.chunks != [] && LastOf(x.chunks).last <= t.lastOff {
      if x in b.segs { assert LastOf(x.chunks).last <= b.lastOff; }
    }
  }

  lemma AssignLive(c: Config, b: State, t: State, i: Link)
    requires Divided(Tail(t), t.lastOff) && Tail(t).id == t.count
    requires Work(t, i) == Work(b, i) + NewDuty(Tail(t), i)
    requires Work(t, Other(i)) == Work(b, Other(i)) + NewDuty(Tail(t), Other(i))
    ensures Live(c, t, i)
  {
    var j := if Tail(t).sub.At(i).Some? then i else Other(i);
    OnNewTail(t, Work(b, j), j);
  }

  /** Sharing out a segment that holds exactly the unassigned pool restores the invariant. */
  lemma AssignKeeps(c: Config, b: State, t: State, i: Link)
    requires Appended(c, b, t) && Divided(Tail(t), t.lastOff)
    requires t.file == b.file && t.done == b.done
    requires Ready(b, i, true) && Ready(b, Other(i), false)
    requires LinkExtended(c, b, t, i) && LinkExtended(c, b, t, Other(i))
    requires Books(c, b.file, b.done, t.lastOff, Left(b, i), Left(b, Other(i)), Tail(t).chunks)
    ensures Core(c, t, i, true)
    ensures Work(t, i) == Work(b, i) + NewDuty(Tail(t), i)
    ensures Work(t, Other(i)) == Work(b, Other(i)) + NewDuty(Tail(t), Other(i))
  {
    AppendedShape(c, b, t);
    PartExtended(c, b, t, i, true);
    PartExtended(c, b, t, Other(i), false);
    BooksDivided(c, b.file, b.done, t.lastOff, Left(b, i), Left(b, Other(i)), Tail(t), i, t.lastOff);
    AssignLive(c, b, t, i);
  }

  // ---------------------------------------------------------------- requests

  /** Sending all requests of a subsegment at once extends a working link's queue. */
  lemma RequestedExtends(ds: seq<Duty>, l: Conn, sub: Option<Subsegment>, id: nat, slack: bool)
    requires ds != [] && LinkOk(ds, l, slack)
    ensures Extended(ds, l, Requested(l, sub), sub, id)
  {
  }

  /** The other link keeps its queue, resumes if it was idle, or starts over if recovered. */
  lemma OtherExtends(c: Config, ds: seq<Duty>, l: Conn, l0: Conn, g: Seg, o: Link, hi: int)
    requires 0 <= hi < c.Size() && (g.sub.At(o).Some? ==> DutyOk(DutyOf(g, o), hi))
    requires if g.recovery then ds == [] && !l.enabled && l.net.pending == []
             else LinkOk(ds, l, false) && l0 == l
    requires l.lastSegment ==> hi == c.Size() - 1
    ensures var l' := OtherRequested(c, l, g, o);
            && Extended(ds, l0, l', g.sub.At(o), g.id)
            && (l'.lastSegment ==> hi == c.Size() - 1)
            && (l'.idle ==> l.idle)
            && (!g.recovery && ds == [] && g.sub.At(o).Some? ==> !l'.idle)
  {
    if g.sub.At(o).Some? {
      var q := g.sub.At(o).value;
      assert LastOf(q.chunks) in DutyOf(g, o).chunks;
    }
  }

  /** The last-segment flag is raised only when the whole file is assigned. */
  lemma CheckKeeps(c: Config, s: State, i: Link, slack: bool)
    requires Core(c, s, i, slack)
    ensures Core(c, CheckLastSegment(c, s), i, slack)
    ensures var t := CheckLastSegment(c, s);
            && t == s.(link := t.link)
            && forall j: Link :: t.link.At(j) == s.link.At(j).(lastSegment := t.link.At(j).lastSegment)
  {
    var t := CheckLastSegment(c, s);
    forall j: Link | LastSegmentFlag(c, s, j) ensures s.lastOff == c.Size() - 1 {
      var l := s.link.At(j);
      if !l.lastSegment {
        var m := FirstAt(s.segs, j, Index(s, l.cursor.value) + 1);
        assert s.segs[m] in s.segs;
      }
    }
    assert Left(t, i) == Left(s, i) && Left(t, Other(i)) == Left(s, Other(i));
  }
}
