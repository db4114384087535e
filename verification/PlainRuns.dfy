/** In-order safety of whole runs with recovery off, the default (src/conf.c:121), in either segment
    mode: src/gb.c:760-812, src/offset.c:425-434. */
module PlainRuns {
  import opened Pairs
  import opened Chunks
  import opened Scheduler
  import opened DutyLemmas
  import opened Invariant
  import opened Finishing
  import opened Assigning
  import opened Setup
  import opened Turns
  import opened Runs
  import opened Inorder

  /** Without recovery a link's chunks increase along its whole work. */
  ghost predicate PlainWork(ds: seq<Duty>) {
    (forall d | d in ds :: !d.recovery) && Ordered(Flat(ds))
  }

  ghost predicate Plain(s: State) { PlainWork(Work(s, 0)) && PlainWork(Work(s, 1)) }

  /** A possible new last duty: one chunk above everything assigned so far. */
  ghost predicate NewPart(nd: seq<Duty>, lo: int) {
    nd == [] || (|nd| == 1 && !nd[0].recovery && |nd[0].chunks| == 1 && nd[0].chunks[0].start > lo)
  }

  ghost predicate Grows(s: State, t: State, j: Link) {
    exists nd :: Work(t, j) == Work(s, j) + nd && NewPart(nd, s.lastOff)
  }

  lemma SetupSegs(c: Config, s: State, i: Link, inp: Input)
    ensures SetupAndRequest(c, s, i, inp).segs == SetupNext(c, s, i, inp).1.segs
  {
  }

  lemma NewPieceAbove(g: Seg, j: Link, lo: int, n: int, hi: int)
    requires Divided(g, hi) && !g.recovery && g.chunks == [Chunk(lo + 1, lo + n)]
    ensures NewPart(NewDuty(g, j), lo)
  {
    if g.sub.At(j).Some? {
      var cs := g.sub.At(j).value.chunks;
      assert DutyOk(DutyOf(g, j), hi);
      var k := cs[0].start;
      assert cs[0] in cs;
      CoverPositive(cs, k);
      CoverOne(g.chunks[0], k);
      assert Cover(Piece(g, 0), k) + Cover(Piece(g, 1), k) == Cover(g.chunks, k);
    }
  }

  /** Without recovery the list changes only by a new ordinary segment. */
  lemma SetupCases(c: Config, s: State, i: Link, inp: Input)
    requires !Recovers(c, s, i, inp)
    ensures var r := SetupNext(c, s, i, inp);
            var b := BeforeSizing(c, s);
            var n := NextSize(c, b, inp);
            r.1.segs == s.segs || (n != 0 && r == (true, MakeSegment(c, b, i, inp, n)))
  {
  }

  lemma NoRecovery(c: Config, s: State, i: Link, inp: Input)
    requires !c.recovery
    ensures !Recovers(c, s, i, inp)
  {
  }

  lemma AppendGrows(b: State, t: State, g: Seg, j: Link, n: int)
    requires t.segs == b.segs + [g] && Divided(g, b.lastOff + n) && !g.recovery
    requires g.chunks == [Chunk(b.lastOff + 1, b.lastOff + n)]
    ensures Grows(b, t, j)
  {
    DutiesAppend(b.segs, g, j);
    NewPieceAbove(g, j, b.lastOff, n, b.lastOff + n);
    assert Work(t, j) == Work(b, j) + NewDuty(g, j);
  }

  lemma MadeTail(c: Config, b: State, i: Link, inp: Input, n: int) returns (g: Seg)
    requires Part(c, b, i, true) && Part(c, b, Other(i), false) && 0 <= b.lastOff && 0 < n
    ensures MakeSegment(c, b, i, inp, n).segs == b.segs + [g] && Divided(g, b.lastOff + n)
    ensures !g.recovery && g.chunks == [Chunk(b.lastOff + 1, b.lastOff + n)]
  {
    NewSegmentTail(c, b, i, inp, n);
    g := Tail(MakeSegment(c, b, i, inp, n));
  }

  lemma SegmentGrows(c: Config, b: State, i: Link, inp: Input, n: int, t: State, j: Link)
    requires Part(c, b, i, true) && Part(c, b, Other(i), false) && 0 <= b.lastOff && 0 < n
    requires t.segs == MakeSegment(c, b, i, inp, n).segs
    ensures Grows(b, t, j)
  {
    var g := MadeTail(c, b, i, inp, n);
    AppendGrows(b, t, g, j, n);
  }

  lemma SetupGrows(c: Config, s: State, i: Link, inp: Input, j: Link)
    requires ConfigOk(c) && inp.policy >= c.initSeg && !Recovers(c, s, i, inp)
    requires InvFrom(c, s, i, true) && Work(s, i) != []
    ensures Grows(s, SetupAndRequest(c, s, i, inp), j)
  {
    var t := SetupAndRequest(c, s, i, inp);
    SetupSegs(c, s, i, inp);
    SetupCases(c, s, i, inp);
    if t.segs == s.segs {
      assert Work(t, j) == Work(s, j) + [];
    } else {
      var b := BeforeSizing(c, s);
      BeforeSizingKeeps(c, s, i);
      NextSizeTiles(c, b, inp);
      SegmentGrows(c, b, i, inp, NextSize(c, b, inp), t, j);
      var nd :| Work(t, j) == Work(b, j) + nd && NewPart(nd, b.lastOff);
      assert Work(b, j) == Work(s, j);
    }
  }

  lemma PlainAppend(ds: seq<Duty>, nd: seq<Duty>, hi: int)
    requires PlainWork(ds) && DutiesOk(ds, hi) && NewPart(nd, hi)
    ensures PlainWork(ds + nd)
  {
    if nd == [] {
      assert ds + nd == ds;
    } else {
      assert nd == [nd[0]];
      FlatAppend(ds, nd[0]);
      FlatOk(ds, hi);
      var f := Flat(ds);
      forall a, b | 0 <= a < b < |Flat(ds + nd)| ensures Flat(ds + nd)[a].last < Flat(ds + nd)[b].start {
        assert f[a] in f;
      }
    }
  }

  lemma PlainPop(ds: seq<Duty>)
    requires PlainWork(ds) && ds != []
    ensures PlainWork(ds[1..])
  {
    var f, n := Flat(ds), |ds[0].chunks|;
    forall a, b | 0 <= a < b < |Flat(ds[1..])| ensures Flat(ds[1..])[a].last < Flat(ds[1..])[b].start {
      assert f[n + a] == Flat(ds[1..])[a] && f[n + b] == Flat(ds[1..])[b];
    }
  }

  lemma GrowsPlain(c: Config, s: State, t: State, j: Link)
    requires Grows(s, t, j) && PlainWork(Work(s, j)) && DutiesOk(Work(s, j), s.lastOff)
    ensures PlainWork(Work(t, j))
  {
    var nd :| Work(t, j) == Work(s, j) + nd && NewPart(nd, s.lastOff);
    PlainAppend(Work(s, j), nd, s.lastOff);
  }

  /** Setting up a segment without recovery. */
  lemma SetupPlain(c: Config, s: State, i: Link, inp: Input, j: Link)
    requires ConfigOk(c) && inp.policy >= c.initSeg && !Recovers(c, s, i, inp)
    requires InvFrom(c, s, i, true) && Work(s, i) != [] && PlainWork(Work(s, j))
    ensures PlainWork(Work(SetupAndRequest(c, s, i, inp), j))
  {
    SetupGrows(c, s, i, inp, j);
    WorkOk(c, s, i, j);
    GrowsPlain(c, s, SetupAndRequest(c, s, i, inp), j);
  }

  lemma WorkOk(c: Config, s: State, i: Link, j: Link)
    requires InvFrom(c, s, i, true)
    ensures DutiesOk(Work(s, j), s.lastOff)
  {
    assert j == i || j == Other(i);
  }

  lemma MiddlePlain(c: Config, s: State, inp: Input)
    requires ConfigOk(c) && !c.recovery && InvFrom(c, s, inp.i, false) && InputOk(c, s, inp) && Plain(s)
    ensures Plain(Middle(c, s, inp))
  {
    var i := inp.i;
    var s1 := Write(c, s, i, inp.n);
    WriteKeeps(c, s, i, inp.n);
    NoRecovery(c, s1, i, inp);
    if SetsUp(s, i, inp.n) {
      SetupPlain(c, s1, i, inp, 0);
      SetupPlain(c, s1, i, inp, 1);
    }
  }

  lemma PlainFinish(c: Config, m: State, i: Link)
    requires Tracked(m, i) && Part(c, m, i, true) && Work(m, i) != [] && Plain(m)
    ensures Plain(FinishChunk(c, m, i))
    ensures FinishChunk(c, m, i) == UpdateInorder(c, Closed(c, m, i))
  {
    assert Work(m, i)[0] in Work(m, i);
    LastChunkShape(c, m, i);
    ClosedWork(c, m, i);
    PlainPop(Work(m, i));
  }

  lemma UpdateIsFound(c: Config, u: State)
    ensures UpdateInorder(c, u).inorder == FoundInorder(c, UpdateInorder(c, u))
  {
  }

  /** Without recovery every turn ends with the in-order search. */
  lemma PlainTurn(c: Config, s: State, inp: Input)
    requires ConfigOk(c) && !c.recovery && Inv(c, s) && InputOk(c, s, inp) && Plain(s)
    ensures Plain(TurnOf(c, s, inp))
    ensures TurnOf(c, s, inp).inorder == FoundInorder(c, TurnOf(c, s, inp))
  {
    var i := inp.i;
    InvBoth(c, s, i);
    MiddleOk(c, s, inp);
    MiddlePlain(c, s, inp);
    var m := Middle(c, s, inp);
    if inp.n == s.link.At(i).last - s.link.At(i).cur + 1 {
      PlainFinish(c, m, i);
      UpdateIsFound(c, Closed(c, m, i));
    } else {
      UpdateIsFound(c, m);
    }
  }

  lemma {:induction false} HeadInFlat(ds: seq<Duty>, d: Duty)
    requires d in ds && d.chunks != []
    ensures Head(d.chunks) in Flat(ds)
  {
    if d == ds[0] {
      assert Head(d.chunks) in ds[0].chunks;
    } else {
      HeadInFlat(ds[1..], d);
    }
  }

  lemma PlainNothingBelow(c: Config, s: State, i: Link)
    requires Inv(c, s) && PlainWork(Work(s, i)) && Work(s, i) != []
    ensures NothingPendingBelow(s, i)
  {
    InvBoth(c, s, i);
    var ds := Work(s, i);
    var l := s.link.At(i);
    assert ds[0] in ds;
    forall d | d in ds[1..] ensures l.cur <= Head(d.chunks).start {
      assert d in ds;
      HeadInFlat(ds[1..], d);
      var f := Flat(ds[1..]);
      var x :| 0 <= x < |f| && f[x] == Head(d.chunks);
      assert Flat(ds)[x + 1] == f[x] && Flat(ds)[0] == ds[0].chunks[0];
    }
    MinStartAt(ds[1..], l.cur);
    PendingBelow(s, i);
  }

  /** The offset the search finds: the last offset of a finished file, or the first missing one. */
  lemma PlainInorder(c: Config, s: State)
    requires ConfigOk(c) && Inv(c, s) && Plain(s)
    ensures if s.done == c.Size() then FoundInorder(c, s) == c.Size() - 1
            else IsFirstMissing(c, s, FoundInorder(c, s))
  {
    DoneIffAllWritten(c, s);
    BothIdleIffDone(c, s);
    if Work(s, 0) != [] && Work(s, 1) != [] {
      BothActiveExact(c, s);
    } else if s.done != c.Size() {
      var i: Link := if Work(s, 0) != [] then 0 else 1;
      PlainNothingBelow(c, s, i);
      OneActiveExactIff(c, s, i);
    }
  }

  // ---------------------------------------------------------------- runs

  /** What the in-order offset and the published offset promise. */
  ghost predicate InorderOk(c: Config, s: State) {
    && Plain(s)
    && (s.inorder == 0 || s.inorder == FoundInorder(c, s))
    && 0 <= s.inorder
    && (if s.ready then s.seen == c.Size() && s.done == c.Size() else 0 <= s.seen <= s.inorder)
  }

  lemma InorderMonotone(c: Config, s: State, t: State)
    requires ConfigOk(c) && Inv(c, s) && Inv(c, t) && Plain(s) && Plain(t)
    requires forall k | k in s.file :: k in t.file
    ensures 0 <= FoundInorder(c, s) <= FoundInorder(c, t) < c.Size()
  {
    PlainInorder(c, s);
    PlainInorder(c, t);
    DoneIffAllWritten(c, s);
    DoneIffAllWritten(c, t);
    if s.done == c.Size() {
      assert forall k | 0 <= k < c.Size() :: k in t.file;
    }
  }

  /** One event: both offsets only grow. */
  lemma InorderStep(c: Config, s: State, e: Event)
    requires ConfigOk(c) && !c.recovery && Inv(c, s) && InorderOk(c, s) && EventOk(c, s, e)
    ensures var t := Next(c, s, e);
            && Inv(c, t) && InorderOk(c, t)
            && s.inorder <= t.inorder && s.seen <= t.seen <= c.Size()
  {
    NextKeeps(c, s, e);
    var t := Next(c, s, e);
    InorderMonotone(c, s, s);
    match e
    case Turn(inp) =>
      TurnKeeps(c, s, inp);
      PlainTurn(c, s, inp);
      InorderMonotone(c, s, t);
    case EndPass =>
  }

  lemma StartInorder(c: Config)
    requires ConfigOk(c)
    ensures InorderOk(c, Start(c))
  {
    StartShape(c);
    OneDuty(FirstSeg(c), 0);
    OneDuty(FirstSeg(c), 1);
  }

  lemma {:induction false} InorderRun(c: Config, s: State, es: seq<Event>)
    requires ConfigOk(c) && !c.recovery && Inv(c, s) && InorderOk(c, s) && Run(c, s, es)
    ensures Inv(c, After(c, s, es)) && InorderOk(c, After(c, s, es))
    ensures s.inorder <= After(c, s, es).inorder && s.seen <= After(c, s, es).seen
    decreases |es|
  {
    if es != [] {
      InorderStep(c, s, es[0]);
      InorderRun(c, Next(c, s, es[0]), es[1..]);
    }
  }

  /** In-order safety: in every run all bytes below the in-order offset are written, and all
      bytes below the published offset; both links are idle only on a finished file. */
  lemma InorderSafety(c: Config, es: seq<Event>)
    requires ConfigOk(c) && !c.recovery && Run(c, Start(c), es)
    ensures var s := After(c, Start(c), es);
            && (forall k | 0 <= k < s.inorder :: k in s.file)
            && (forall k | 0 <= k < s.seen :: k in s.file)
            && (!s.ready ==> s.seen <= s.inorder)
            && (IsIdle(s.link.lte) && IsIdle(s.link.wifi) <==> s.done == c.Size())
  {
    var s := After(c, Start(c), es);
    StartOk(c);
    StartInorder(c);
    InorderRun(c, Start(c), es);
    PlainInorder(c, s);
    DoneIffAllWritten(c, s);
    BothIdleIffDone(c, s);
  }

  /** From the end of one turn to the end of the next neither offset ever decreases. */
  lemma OffsetsNeverDecrease(c: Config, es: seq<Event>, e: Event)
    requires ConfigOk(c) && !c.recovery && Run(c, Start(c), es) && EventOk(c, After(c, Start(c), es), e)
    ensures var s := After(c, Start(c), es);
            s.inorder <= Next(c, s, e).inorder && s.seen <= Next(c, s, e).seen && s.seen <= s.inorder
  {
    StartOk(c);
    StartInorder(c);
    InorderRun(c, Start(c), es);
    InorderStep(c, After(c, Start(c), es), e);
  }
}
