/**
 * An overshooting in-order offset does not go unnoticed: a run that becomes ready after it fails a
 * check (src/gb.c:804-808) on the way. A complete fixed-segment run therefore passes all its checks
 * exactly when it is safe throughout.
 */
module Caught {
  import opened Pairs
  import opened Chunks
  import opened Scheduler
  import opened DutyLemmas
  import opened Invariant
  import opened Finishing
  import opened Assigning
  import opened Setup
  import opened Turns
  import opened Inorder
  import opened PlainRuns
  import opened Searches
  import opened Safety
  import Runs

  /** Some subsegment that is not begun starts below `x`. */
  ghost predicate Below(ds: seq<Duty>, x: int) {
    exists k | 1 <= k < |ds| :: Head(ds[k].chunks).start < x
  }

  /** The cached offset is above the start of a subsegment that is not begun. */
  ghost predicate Passed(s: State) { Below(Work(s, 0), s.inorder) || Below(Work(s, 1), s.inorder) }

  /** The turn takes the other link's work back. */
  predicate TakesBack(c: Config, s: State, inp: Input) {
    var i, b := inp.i, Write(c, s, inp.i, inp.n);
    && SetsUp(s, i, inp.n) && !b.link.At(i).lastSegment && !(OrderCase(b, i) == Behind && b.single)
    && Recovers(c, b, i, inp)
  }

  /** The offset has passed something pending of link `l` and will not be corrected: the other link
      has no work, or link `l` is inside a recovered subsegment, so that no recovery touches it. */
  ghost predicate Stuck(s: State, l: Link) {
    && Below(Work(s, l), s.inorder)
    && (Work(s, Other(l)) != [] ==> Work(s, l)[0].recovery)
  }

  ghost predicate StuckSomewhere(s: State) { Stuck(s, 0) || Stuck(s, 1) }

  // ---------------------------------------------------------------- lists of work

  lemma BelowGrows(ds: seq<Duty>, nd: seq<Duty>, x: int)
    requires Below(ds, x)
    ensures Below(ds + nd, x)
  {
    var k :| 1 <= k < |ds| && Head(ds[k].chunks).start < x;
    assert (ds + nd)[k] == ds[k];
  }

  lemma BelowLast(ds: seq<Duty>, d: Duty, x: int)
    requires ds != [] && Head(d.chunks).start < x
    ensures Below(ds + [d], x)
  {
    assert (ds + [d])[|ds|] == d;
  }

  lemma BelowHigher(ds: seq<Duty>, x: int, y: int)
    requires Below(ds, x) && x <= y
    ensures Below(ds, y)
  {
    var k :| 1 <= k < |ds| && Head(ds[k].chunks).start < x;
    assert Head(ds[k].chunks).start < y;
  }

  lemma BelowPop(ds: seq<Duty>, x: int)
    requires Below(ds, x)
    ensures |ds| > 1 && (Head(ds[1].chunks).start < x || Below(ds[1..], x))
  {
    var k :| 1 <= k < |ds| && Head(ds[k].chunks).start < x;
    if k > 1 { assert ds[1..][k - 1] == ds[k]; }
  }

  // ---------------------------------------------------------------- what a search finds

  lemma FoundBelow(c: Config, t: State, j: Link)
    requires ConfigOk(c) && Inv(c, t) && Work(t, j) != []
    ensures FoundInorder(c, t) <= t.link.At(j).cur
  {
    FoundCases(c, t);
    CursorMissing(c, t, j);
  }

  /** While the checks hold the cached offset never decreases. */
  lemma ChecksGrow(c: Config, s: State, inp: Input)
    requires ConfigOk(c) && Inv(c, s) && InputOk(c, s, inp) && ChecksHold(c, s, Turn(inp))
    ensures s.inorder <= Middle(c, s, inp).inorder <= TurnOf(c, s, inp).inorder
    ensures EndSearch(c, s, inp).Some? ==> TurnOf(c, s, inp).inorder == FoundInorder(c, TurnOf(c, s, inp))
  {
    MidSearchCaches(c, s, inp);
    EndSearchCaches(c, s, inp);
    if EndSearch(c, s, inp).Some? { SameSearch(c, EndSearch(c, s, inp).value); }
  }

  /** A turn whose checks hold does not end with a search above the cursor of a working link. */
  lemma NotAboveCursor(c: Config, s: State, inp: Input, j: Link)
    requires ConfigOk(c) && Inv(c, s) && InputOk(c, s, inp) && ChecksHold(c, s, Turn(inp))
    requires EndSearch(c, s, inp).Some? && Work(TurnOf(c, s, inp), j) != []
    ensures s.inorder <= TurnOf(c, s, inp).link.At(j).cur
  {
    ChecksGrow(c, s, inp);
    TurnFile(c, s, inp);
    FoundBelow(c, TurnOf(c, s, inp), j);
  }

  // ---------------------------------------------------------------- the end of a turn

  /** Link `j` after the turn: its work is passed on, and a subsegment it has just begun is at its
      cursor. */
  lemma FinishPasses(c: Config, m: State, i: Link, j: Link, x: int)
    requires Tracked(m, i) && Part(c, m, i, true) && Work(m, i) != [] && Below(Work(m, j), x)
    ensures var t := FinishChunk(c, m, i);
            Below(Work(t, j), x)
            || (|Work(m, i)[0].chunks| == 1 && Work(t, j) != [] && t.link.At(j).cur < x)
  {
    assert Work(m, i)[0] in Work(m, i);
    if |Work(m, i)[0].chunks| > 1 {
      MorePasses(c, m, i, j, x);
    } else {
      ClosedPasses(c, m, i, j, x);
    }
  }

  lemma MorePasses(c: Config, m: State, i: Link, j: Link, x: int)
    requires Tracked(m, i) && Work(m, i) != [] && |Work(m, i)[0].chunks| > 1 && Below(Work(m, j), x)
    ensures Below(Work(FinishChunk(c, m, i), j), x)
  {
    MoreChunksWork(c, m, i);
    var ds, ds' := Work(m, j), Work(FinishChunk(c, m, i), j);
    var k :| 1 <= k < |ds| && Head(ds[k].chunks).start < x;
    assert ds'[k] == ds[k];
  }

  lemma ClosedPasses(c: Config, m: State, i: Link, j: Link, x: int)
    requires Tracked(m, i) && Work(m, i) != [] && |Work(m, i)[0].chunks| == 1 && Below(Work(m, j), x)
    ensures var t := FinishChunk(c, m, i);
            Below(Work(t, j), x) || (Work(t, j) != [] && t.link.At(j).cur < x)
  {
    LastChunkShape(c, m, i);
    ClosedWork(c, m, i);
    BelowPop(Work(m, j), x);
    SameWork(c, Closed(c, m, i), j);
    if i == j {
      ClosedNext(c, m, i);
    }
  }

  lemma SameWork(c: Config, u: State, j: Link)
    ensures Work(UpdateInorder(c, u), j) == Work(u, j) && UpdateInorder(c, u).link.At(j).cur == u.link.At(j).cur
  {
  }

  /** The other link's cursor does not move. */
  lemma FinishOther(c: Config, m: State, i: Link)
    requires Tracked(m, i) && Part(c, m, i, true) && Work(m, i) != []
    ensures var t := FinishChunk(c, m, i);
            Work(t, Other(i)) == Work(m, Other(i)) && t.link.At(Other(i)).cur == m.link.At(Other(i)).cur
  {
    assert Work(m, i)[0] in Work(m, i);
    if |Work(m, i)[0].chunks| > 1 {
      MoreChunksWork(c, m, i);
      MoreChunksShape(c, m, i);
    } else {
      LastChunkShape(c, m, i);
      ClosedWork(c, m, i);
      SameWork(c, Closed(c, m, i), Other(i));
    }
  }

  lemma DonePasses(c: Config, s: State, inp: Input, m: State, j: Link)
    requires ConfigOk(c) && Inv(c, s) && InputOk(c, s, inp) && inp.n == Remaining(s.link.At(inp.i))
    requires m == Middle(c, s, inp) && Below(Work(m, j), s.inorder)
    ensures var t := TurnOf(c, s, inp);
            Below(Work(t, j), s.inorder)
            || (EndSearch(c, s, inp).Some? && Work(t, j) != [] && t.link.At(j).cur < s.inorder)
  {
    TurnEnds(c, s, inp, m);
    MiddleTracked(c, s, inp);
    FinishPasses(c, m, inp.i, j, s.inorder);
  }

  lemma ReadPasses(c: Config, s: State, inp: Input, m: State, j: Link)
    requires inp.n < Remaining(s.link.At(inp.i)) && m == Middle(c, s, inp) && Below(Work(m, j), s.inorder)
    ensures Below(Work(TurnOf(c, s, inp), j), s.inorder)
  {
    TurnEnds(c, s, inp, m);
    SameWork(c, m, j);
  }

  /** From the middle of a turn to its end. */
  lemma EndPasses(c: Config, s: State, inp: Input, j: Link)
    requires ConfigOk(c) && Inv(c, s) && InputOk(c, s, inp) && ChecksHold(c, s, Turn(inp))
    requires Below(Work(Middle(c, s, inp), j), s.inorder)
    ensures Passed(TurnOf(c, s, inp))
  {
    if inp.n < Remaining(s.link.At(inp.i)) {
      ReadPasses(c, s, inp, Middle(c, s, inp), j);
    } else {
      DonePasses(c, s, inp, Middle(c, s, inp), j);
      if EndSearch(c, s, inp).Some? && Work(TurnOf(c, s, inp), j) != [] { NotAboveCursor(c, s, inp, j); }
    }
    StillPassed(c, s, inp, j);
  }

  lemma StillPassed(c: Config, s: State, inp: Input, j: Link)
    requires ConfigOk(c) && Inv(c, s) && InputOk(c, s, inp) && ChecksHold(c, s, Turn(inp))
    requires Below(Work(TurnOf(c, s, inp), j), s.inorder)
    ensures Passed(TurnOf(c, s, inp))
  {
    ChecksGrow(c, s, inp);
    PassedAt(TurnOf(c, s, inp), j, s.inorder);
  }

  lemma PassedAt(t: State, j: Link, x: int)
    requires Below(Work(t, j), x) && x <= t.inorder
    ensures Passed(t)
  {
    BelowHigher(Work(t, j), x, t.inorder);
  }

  // ---------------------------------------------------------------- the middle of a turn

  lemma WriteWork(c: Config, s: State, i: Link, n: nat, j: Link)
    ensures Work(Write(c, s, i, n), j) == Work(s, j)
  {
  }

  /** Without recovery a link only gets more work. */
  lemma MiddleGrows(c: Config, s: State, inp: Input, j: Link) returns (nd: seq<Duty>)
    requires ConfigOk(c) && Inv(c, s) && InputOk(c, s, inp) && !TakesBack(c, s, inp)
    ensures Work(Middle(c, s, inp), j) == Work(s, j) + nd
  {
    var i, b, m := inp.i, Write(c, s, inp.i, inp.n), Middle(c, s, inp);
    InvBoth(c, s, i);
    WriteKeeps(c, s, i, inp.n);
    WriteWork(c, s, i, inp.n, j);
    if !SetsUp(s, i, inp.n) {
      nd := [];
    } else if Recovers(c, b, i, inp) {
      RefusedWork(c, b, i, inp, j);
      nd := [];
    } else {
      SetupGrows(c, b, i, inp, j);
      nd :| Work(m, j) == Work(b, j) + nd;
    }
  }

  lemma RefusedWork(c: Config, b: State, i: Link, inp: Input, j: Link)
    requires b.link.At(i).lastSegment || (OrderCase(b, i) == Behind && b.single)
    ensures Work(SetupAndRequest(c, b, i, inp), j) == Work(b, j)
  {
  }

  // ---------------------------------------------------------------- a recovery

  /** What a recovery starts from and what it makes: base state, taken-back chunks and new segment. */
  ghost predicate Remade(c: Config, s: State, i: Link, inp: Input, b: State, list: seq<Chunk>, hi: int, r: State) {
    && b == BeforeSizing(c, Detach(s, Other(i))) && Detached(s, b, i)
    && PoolOf(c, s, b, i, inp, list, hi)
    && r == Subdivide(c, Recover(c, s, i, inp), i, inp, 0)
    && RecoveredInto(c, s, b, i, r, list, hi)
    && hi == if b.lastOff < LastOf(Sort(list)).last then LastOf(Sort(list)).last else b.lastOff
  }

  lemma Remakes(c: Config, s: State, i: Link, inp: Input) returns (b: State, list: seq<Chunk>, hi: int, r: State)
    requires ConfigOk(c) && inp.policy >= c.initSeg && Core(c, s, i, true) && Work(s, Other(i)) != []
    ensures Remade(c, s, i, inp, b, list, hi, r) && Positive(Sort(list))
  {
    b, list, hi := RecoveryBase(c, s, i, inp);
    r := Subdivide(c, Recover(c, s, i, inp), i, inp, 0);
    RecoverTail(c, s, b, i, inp, list, hi);
    IsRemade(c, s, i, inp, b, list, hi, r);
  }

  lemma IsRemade(c: Config, s: State, i: Link, inp: Input, b: State, list: seq<Chunk>, hi: int, r: State)
    requires b == BeforeSizing(c, Detach(s, Other(i))) && Detached(s, b, i) && PoolOf(c, s, b, i, inp, list, hi)
    requires Sort(list) != [] && b.lastOff <= hi < c.Size()
    requires hi == if b.lastOff < LastOf(Sort(list)).last then LastOf(Sort(list)).last else b.lastOff
    requires r == Subdivide(c, Recover(c, s, i, inp), i, inp, 0)
    requires var o := Other(i);
             && r == b.(segs := b.segs + [Tail(r)], count := b.count + 1, lastOff := hi,
                        link := b.link.With(o, b.link.At(o).(cursor := Some(b.count + 1))))
             && Same(Tail(r), NewSeg(b, true, Sort(list), Total(list))) && Divided(Tail(r), hi)
    ensures Remade(c, s, i, inp, b, list, hi, r)
  {
  }

  lemma OtherHasWork(c: Config, s: State, i: Link, inp: Input)
    requires Core(c, s, i, true) && DecideRecovery(c, s, i, inp)
    ensures Work(s, Other(i)) != []
  {
  }

  lemma RecoveryBase(c: Config, s: State, i: Link, inp: Input) returns (b: State, list: seq<Chunk>, hi: int)
    requires ConfigOk(c) && inp.policy >= c.initSeg && Core(c, s, i, true) && Work(s, Other(i)) != []
    ensures b == BeforeSizing(c, Detach(s, Other(i))) && Detached(s, b, i) && PoolOf(c, s, b, i, inp, list, hi)
    ensures Sort(list) != [] && Positive(Sort(list)) && b.lastOff <= hi < c.Size()
    ensures hi == if b.lastOff < LastOf(Sort(list)).last then LastOf(Sort(list)).last else b.lastOff
  {
    b := BeforeSizing(c, Detach(s, Other(i)));
    list := Pool(c, b, Left(s, Other(i)), inp);
    hi := b.lastOff + Extension(c, b, if c.fixedSegment then c.initSeg else inp.policy);
    BaseDetached(c, s, i);
    PoolSorted(c, s, b, i, inp, list, hi);
    PoolLast(c, s, b, i, inp, list, hi);
  }

  /** The recovered segment before it is divided. */
  lemma RemadeWhole(c: Config, s: State, i: Link, inp: Input, b: State, list: seq<Chunk>, hi: int, r: State)
    requires Remade(c, s, i, inp, b, list, hi, r)
    ensures Recover(c, s, i, inp).segs != []
    ensures Tail(Recover(c, s, i, inp)) == NewSeg(b, true, Sort(list), Total(list))
  {
    RecoverShape(c, s, b, i, inp, list, hi);
  }

  lemma RemadeDuties(b: State, t: State, i: Link)
    requires t.segs == b.segs + [Tail(t)] && Work(b, Other(i)) == []
    ensures Work(t, i) == Work(b, i) + NewDuty(Tail(t), i) && Work(t, Other(i)) == NewDuty(Tail(t), Other(i))
  {
    DutiesAppend(b.segs, Tail(t), i);
    DutiesAppend(b.segs, Tail(t), Other(i));
    assert [] + NewDuty(Tail(t), Other(i)) == NewDuty(Tail(t), Other(i));
  }

  /** Both links' work after the recovery is requested. */
  lemma RemadeWork(c: Config, s: State, i: Link, inp: Input, b: State, list: seq<Chunk>, hi: int, r: State)
    requires 0 <= s.lastOff && Part(c, s, i, true) && Work(s, i) != []
    requires s.link.At(Other(i)).lastSegment ==> s.lastOff == c.Size() - 1
    requires Remade(c, s, i, inp, b, list, hi, r)
    ensures var t, o, g := CheckLastSegment(c, RequestBoth(c, r, i)), Other(i), Tail(r);
            && Tail(t) == g && Work(t, i) == Work(s, i) + NewDuty(g, i) && Work(t, o) == NewDuty(g, o)
            && (g.sub.At(o).Some? ==> t.link.At(o).cur == Head(g.sub.At(o).value.chunks).start)
  {
    var t := RequestBoth(c, r, i);
    RecoverLinks(c, s, b, i, r, list, hi);
    RemadeDuties(b, t, i);
    CheckKeepsWork(c, t, i);
  }

  lemma CheckKeepsWork(c: Config, t: State, i: Link)
    ensures var u := CheckLastSegment(c, t);
            && u.segs == t.segs && u.link.At(i).cur == t.link.At(i).cur
            && u.link.At(Other(i)).cur == t.link.At(Other(i)).cur
  {
  }

  /** The front of the recovered segment goes to the finishing link, which is the fast one. */
  lemma RemadeParts(c: Config, s: State, i: Link, inp: Input, b: State, list: seq<Chunk>, hi: int, r: State)
    returns (share: int)
    requires Remade(c, s, i, inp, b, list, hi, r) && DecideRecovery(c, s, i, inp)
    ensures var rec := Recover(c, s, i, inp);
            && Tail(r) == Divide(Tail(rec), share, i)
            && (!c.fixedSubsegment ==> share == Share(c, rec, i, inp.goodput.At(i), inp.goodput.At(Other(i))))
  {
    var rec := Recover(c, s, i, inp);
    var t, a := if c.fixedSubsegment then c.rate.At(i) else inp.goodput.At(i),
                if c.fixedSubsegment then c.rate.At(Other(i)) else inp.goodput.At(Other(i));
    RemadeWhole(c, s, i, inp, b, list, hi, r);
    share := Share(c, rec, i, t, a);
    AddSubsegmentsIs(c, rec, i, t, a, i, share);
  }

  lemma HeadOfParts(g: Seg, share: int, i: Link)
    requires g.chunks != [] && Positive(g.chunks)
    ensures var d := Divide(g, share, i);
            && (d.sub.At(i).Some? && d.sub.At(i).value.chunks != [] ==>
                Head(d.sub.At(i).value.chunks).start == g.chunks[0].start)
            && (d.sub.At(i).None? && d.sub.At(Other(i)).Some? ==> d.sub.At(Other(i)).value.chunks == g.chunks)
  {
    assert g.chunks[0] in g.chunks;
  }

  /** A sorted list starts no later than any of its chunks. */
  lemma SortedHead(list: seq<Chunk>, ch: Chunk)
    requires ch in list
    ensures Sort(list) != [] && Sort(list)[0].start <= ch.start
  {
    SortSorts(list);
    assert ch in multiset(list);
    assert ch in multiset(Sort(list));
    var x :| 0 <= x < |Sort(list)| && Sort(list)[x] == ch;
  }

  /** The start of a subsegment that is not begun starts one of the chunks taken back. */
  lemma TakenBackChunk(ds: seq<Duty>, l: Conn, hi: int, x: int) returns (ch: Chunk)
    requires DutiesOk(ds, hi) && Below(ds, x)
    ensures ch in Unread(ds, l) && ch.start < x
  {
    var k :| 1 <= k < |ds| && Head(ds[k].chunks).start < x;
    assert ds[0] in ds && ds[k] in ds && DutyOk(ds[0], hi) && DutyOk(ds[k], hi);
    ch := Head(ds[k].chunks);
    assert ds[1..][k - 1] == ds[k];
    HeadInFlat(ds[1..], ds[k]);
    FlatHead(ds);
    assert ch in Rest(Flat(ds));
  }

  /** The part that starts the recovered segment starts below what was passed. */
  lemma PartBelow(c: Config, s: State, i: Link, inp: Input, b: State, list: seq<Chunk>, hi: int, r: State, x: int)
    requires Remade(c, s, i, inp, b, list, hi, r) && DecideRecovery(c, s, i, inp)
    requires Positive(Sort(list)) && DutiesOk(Work(s, Other(i)), s.lastOff) && Below(Work(s, Other(i)), x)
    ensures var g := Tail(r);
            && (g.sub.At(i).Some? ==> Head(g.sub.At(i).value.chunks).start < x)
            && (g.sub.At(i).None? ==> g.sub.At(Other(i)).Some? && Head(g.sub.At(Other(i)).value.chunks).start < x)
  {
    var ch := TakenBackChunk(Work(s, Other(i)), s.link.At(Other(i)), s.lastOff, x);
    assert ch in list;
    SortedHead(list, ch);
    RemadeWhole(c, s, i, inp, b, list, hi, r);
    var share := RemadeParts(c, s, i, inp, b, list, hi, r);
    HeadOfParts(Tail(Recover(c, s, i, inp)), share, i);
    PartsOk(Tail(r), i, hi);
  }

  lemma PartsOk(g: Seg, i: Link, hi: int)
    requires Divided(g, hi)
    ensures g.sub.At(i).Some? ==> g.sub.At(i).value.chunks != []
    ensures g.sub.At(i).None? ==> g.sub.At(Other(i)).Some?
  {
    if g.sub.At(i).Some? { assert DutyOk(DutyOf(g, i), hi); }
  }

  // ---------------------------------------------------------------- the turn that recovers

  lemma MiddleRemade(c: Config, s: State, inp: Input, r: State)
    requires TakesBack(c, s, inp)
    requires r == Subdivide(c, Recover(c, Write(c, s, inp.i, inp.n), inp.i, inp), inp.i, inp, 0)
    ensures Middle(c, s, inp) == CheckLastSegment(c, RequestBoth(c, r, inp.i))
  {
  }

  lemma Decided(c: Config, s: State, inp: Input)
    requires TakesBack(c, s, inp)
    ensures DecideRecovery(c, Write(c, s, inp.i, inp.n), inp.i, inp)
  {
  }

  /** The links' work in the middle of a turn that recovers. */
  lemma RecoveryMiddle(c: Config, s: State, inp: Input) returns (r: State)
    requires ConfigOk(c) && Inv(c, s) && InputOk(c, s, inp) && TakesBack(c, s, inp)
    ensures var i, o, m, g := inp.i, Other(inp.i), Middle(c, s, inp), Tail(r);
            && Tail(m) == g && Work(m, i) == Work(s, i) + NewDuty(g, i) && Work(m, o) == NewDuty(g, o)
            && (g.sub.At(o).Some? ==> m.link.At(o).cur == Head(g.sub.At(o).value.chunks).start)
            && (Below(Work(s, o), s.inorder) ==> HeadsBelow(g, i, s.inorder))
  {
    var i, s1 := inp.i, Write(c, s, inp.i, inp.n);
    var b, list, hi;
    RecoveryReady(c, s, inp);
    b, list, hi, r := Remakes(c, s1, i, inp);
    MiddleRemade(c, s, inp, r);
    RemadeWork(c, s1, i, inp, b, list, hi, r);
    WriteWork(c, s, i, inp.n, i);
    WriteWork(c, s, i, inp.n, Other(i));
    if Below(Work(s, Other(i)), s.inorder) { PartBelow(c, s1, i, inp, b, list, hi, r, s.inorder); }
  }

  ghost predicate HeadsBelow(g: Seg, i: Link, x: int) {
    && (g.sub.At(i).Some? ==> Head(g.sub.At(i).value.chunks).start < x)
    && (g.sub.At(i).None? ==> g.sub.At(Other(i)).Some? && Head(g.sub.At(Other(i)).value.chunks).start < x)
  }

  lemma RecoveryReady(c: Config, s: State, inp: Input)
    requires ConfigOk(c) && Inv(c, s) && InputOk(c, s, inp) && TakesBack(c, s, inp)
    ensures var s1 := Write(c, s, inp.i, inp.n);
            && Core(c, s1, inp.i, true) && Work(s1, inp.i) != [] && Work(s1, Other(inp.i)) != []
            && DecideRecovery(c, s1, inp.i, inp)
  {
    InvBoth(c, s, inp.i);
    WriteKeeps(c, s, inp.i, inp.n);
    Decided(c, s, inp);
    OtherHasWork(c, Write(c, s, inp.i, inp.n), inp.i, inp);
  }

  /** The other link's cursor at the end of a turn is where it was in the middle. */
  lemma OtherStays(c: Config, s: State, inp: Input)
    requires ConfigOk(c) && Inv(c, s) && InputOk(c, s, inp)
    ensures var m, t, o := Middle(c, s, inp), TurnOf(c, s, inp), Other(inp.i);
            Work(t, o) == Work(m, o) && t.link.At(o).cur == m.link.At(o).cur
  {
    var m := Middle(c, s, inp);
    TurnEnds(c, s, inp, m);
    if inp.n < Remaining(s.link.At(inp.i)) {
      SameWork(c, m, Other(inp.i));
    } else {
      MiddleTracked(c, s, inp);
      FinishOther(c, m, inp.i);
    }
  }

  lemma RecoveryPasses(c: Config, s: State, inp: Input, h: Link)
    requires ConfigOk(c) && Inv(c, s) && InputOk(c, s, inp) && TakesBack(c, s, inp) && ChecksHold(c, s, Turn(inp))
    requires Below(Work(s, h), s.inorder) && EndSearch(c, s, inp).Some?
    ensures Passed(TurnOf(c, s, inp))
  {
    var r := RecoveryMiddle(c, s, inp);
    if h == inp.i {
      BelowGrows(Work(s, h), NewDuty(Tail(r), h), s.inorder);
      EndPasses(c, s, inp, h);
    } else {
      assert h == Other(inp.i);
      TakenPasses(c, s, inp, Tail(r));
    }
  }

  lemma TakenPasses(c: Config, s: State, inp: Input, g: Seg)
    requires ConfigOk(c) && Inv(c, s) && InputOk(c, s, inp) && TakesBack(c, s, inp) && ChecksHold(c, s, Turn(inp))
    requires var i, o, m := inp.i, Other(inp.i), Middle(c, s, inp);
             && Tail(m) == g && Work(m, i) == Work(s, i) + NewDuty(g, i) && Work(m, o) == NewDuty(g, o)
             && (g.sub.At(o).Some? ==> m.link.At(o).cur == Head(g.sub.At(o).value.chunks).start)
    requires HeadsBelow(g, inp.i, s.inorder) && EndSearch(c, s, inp).Some?
    ensures Passed(TurnOf(c, s, inp))
  {
    if g.sub.At(inp.i).Some? {
      HasWork(c, s, inp);
      BelowLast(Work(s, inp.i), DutyOf(g, inp.i), s.inorder);
      EndPasses(c, s, inp, inp.i);
    } else {
      OtherStays(c, s, inp);
      NotAboveCursor(c, s, inp, Other(inp.i));
      assert false;
    }
  }

  lemma HasWork(c: Config, s: State, inp: Input)
    requires Inv(c, s) && InputOk(c, s, inp)
    ensures Work(s, inp.i) != []
  {
    InvBoth(c, s, inp.i);
  }

  // ---------------------------------------------------------------- turns without a search

  /** A link with something pending that is passed has a second subsegment requested already. */
  lemma BelowPipelined(c: Config, s: State, i: Link, n: nat, x: int)
    requires Inv(c, s) && Below(Work(s, i), x)
    ensures !SetsUp(s, i, n)
  {
    InvBoth(c, s, i);
  }

  /** A recovery starts from a link outside recovered subsegments if the other one is inside. */
  lemma TakerPlain(c: Config, s: State, inp: Input)
    requires Inv(c, s) && InputOk(c, s, inp) && TakesBack(c, s, inp)
    requires Work(s, Other(inp.i)) != [] && Work(s, Other(inp.i))[0].recovery
    ensures Work(s, inp.i) != [] && !Work(s, inp.i)[0].recovery
  {
    InvBoth(c, s, inp.i);
    Decided(c, s, inp);
    CursorSeg(s, inp.i, false);
    CursorSeg(s, Other(inp.i), false);
    GuardBefore(c, s, inp);
  }

  lemma GuardBefore(c: Config, s: State, inp: Input)
    requires DecideRecovery(c, Write(c, s, inp.i, inp.n), inp.i, inp)
    ensures !(SegAt(s, s.link.At(inp.i).cursor).recovery && SegAt(s, s.link.At(Other(inp.i)).cursor).recovery)
  {
  }

  /** A turn that ends without a search is inside a recovered subsegment. */
  lemma UnsearchedRecovered(c: Config, s: State, inp: Input)
    requires ConfigOk(c) && Inv(c, s) && InputOk(c, s, inp) && EndSearch(c, s, inp).None?
    ensures var w := Work(Middle(c, s, inp), inp.i);
            inp.n == Remaining(s.link.At(inp.i)) && w != [] && |w[0].chunks| > 1 && w[0].recovery
  {
    MiddleTracked(c, s, inp);
    var w := Work(Middle(c, s, inp), inp.i);
    assert w[0] in w;
  }

  /** From a stuck state every turn that takes work back ends with a search. */
  lemma TakingSearches(c: Config, s: State, inp: Input, l: Link)
    requires ConfigOk(c) && Inv(c, s) && InputOk(c, s, inp) && TakesBack(c, s, inp) && Stuck(s, l)
    ensures EndSearch(c, s, inp).Some?
  {
    HasWork(c, s, inp);
    if l == inp.i {
      BelowPipelined(c, s, l, inp.n, s.inorder);
    } else {
      assert l == Other(inp.i);
      TakerPlain(c, s, inp);
      var r := RecoveryMiddle(c, s, inp);
      if EndSearch(c, s, inp).None? { UnsearchedRecovered(c, s, inp); }
    }
  }

  /** In the middle of a turn without a search the stuck link has no less work. */
  lemma UnsearchedMiddle(c: Config, s: State, inp: Input, l: Link)
    requires ConfigOk(c) && Inv(c, s) && InputOk(c, s, inp) && EndSearch(c, s, inp).None? && Stuck(s, l)
    ensures var m := Middle(c, s, inp); Below(Work(m, l), s.inorder) && (l != inp.i ==> Work(m, l)[0].recovery)
  {
    if TakesBack(c, s, inp) {
      TakingSearches(c, s, inp, l);
    } else {
      HasWork(c, s, inp);
      var nd := MiddleGrows(c, s, inp, l);
      BelowGrows(Work(s, l), nd, s.inorder);
    }
  }

  /** Going on inside a recovered subsegment. */
  lemma UnsearchedEnd(c: Config, m: State, i: Link, l: Link, x: int)
    requires Tracked(m, i) && Work(m, i) != [] && |Work(m, i)[0].chunks| > 1 && Work(m, i)[0].recovery
    requires Below(Work(m, l), x) && (l != i ==> Work(m, l)[0].recovery)
    ensures var t := FinishChunk(c, m, i); Below(Work(t, l), x) && Work(t, l)[0].recovery
  {
    MorePasses(c, m, i, l, x);
    MoreChunksWork(c, m, i);
  }

  /** A turn without a search leaves a stuck link stuck. */
  lemma UnsearchedStays(c: Config, s: State, inp: Input, l: Link)
    requires ConfigOk(c) && Inv(c, s) && InputOk(c, s, inp) && ChecksHold(c, s, Turn(inp))
    requires EndSearch(c, s, inp).None? && Stuck(s, l)
    ensures Stuck(TurnOf(c, s, inp), l)
  {
    var m, t := Middle(c, s, inp), TurnOf(c, s, inp);
    UnsearchedMiddle(c, s, inp, l);
    UnsearchedRecovered(c, s, inp);
    MiddleTracked(c, s, inp);
    TurnEnds(c, s, inp, m);
    UnsearchedEnd(c, m, inp.i, l, s.inorder);
    ChecksGrow(c, s, inp);
    BelowHigher(Work(t, l), s.inorder, t.inorder);
  }

  // ---------------------------------------------------------------- turns with a search

  /** A search with two links at work finds less than whatever passes something pending. */
  lemma FoundUnderPassed(c: Config, t: State, j: Link, x: int)
    requires Inv(c, t) && Work(t, 0) != [] && Work(t, 1) != [] && Below(Work(t, j), x)
    ensures FoundInorder(c, t) < x
  {
    NotIdle(c, t, 0);
    NotIdle(c, t, 1);
    ScanUnder(c, t, j, x);
    FoundIsMin(c, t, j);
  }

  lemma NotIdle(c: Config, t: State, j: Link)
    requires Inv(c, t) && Work(t, j) != []
    ensures !IsIdle(t.link.At(j))
  {
    LinkScan(c, t, j);
  }

  lemma FoundIsMin(c: Config, t: State, j: Link)
    requires !IsIdle(t.link.At(0)) && !IsIdle(t.link.At(1))
    ensures FoundInorder(c, t) <= ConnByte(t.segs, j, t.link.At(j).cursor, t.link.At(j).cur)
  {
  }

  lemma ScanUnder(c: Config, t: State, j: Link, x: int)
    requires Inv(c, t) && Below(Work(t, j), x)
    ensures ConnByte(t.segs, j, t.link.At(j).cursor, t.link.At(j).cur) < x
  {
    InvBoth(c, t, j);
    ScanOfLink(t, j);
    MinStartUnder(Work(t, j), t.link.At(j).cur, x);
  }

  lemma MinStartUnder(ds: seq<Duty>, b: int, x: int)
    requires Below(ds, x)
    ensures MinStart(ds[1..], b) < x
  {
    var k :| 1 <= k < |ds| && Head(ds[k].chunks).start < x;
    assert ds[1..][k - 1] == ds[k];
    MinStartAtMost(ds[1..], b, k - 1);
  }

  lemma {:induction false} MinStartAtMost(ds: seq<Duty>, b: int, k: nat)
    requires k < |ds|
    ensures MinStart(ds, b) <= Head(ds[k].chunks).start
  {
    var h := Head(ds[0].chunks).start;
    if k == 0 {
      MinStartAt(ds[1..], if h < b then h else b);
    } else {
      MinStartAtMost(ds[1..], if h < b then h else b, k - 1);
    }
  }

  /** Where the cached offset is what a search finds, only a link that works alone can be passed. */
  lemma SearchedStuck(c: Config, t: State)
    requires Inv(c, t) && t.inorder == FoundInorder(c, t) && Passed(t)
    ensures StuckSomewhere(t)
  {
    var j: Link := if Below(Work(t, 0), t.inorder) then 0 else 1;
    if Work(t, 0) != [] && Work(t, 1) != [] { FoundUnderPassed(c, t, j, t.inorder); }
  }

  /** A turn that ends with a search and whose checks hold keeps what was passed passed. */
  lemma SearchedPasses(c: Config, s: State, inp: Input)
    requires ConfigOk(c) && Inv(c, s) && InputOk(c, s, inp) && ChecksHold(c, s, Turn(inp)) && Passed(s)
    requires EndSearch(c, s, inp).Some?
    ensures Passed(TurnOf(c, s, inp))
  {
    var h: Link := if Below(Work(s, 0), s.inorder) then 0 else 1;
    if TakesBack(c, s, inp) {
      RecoveryPasses(c, s, inp, h);
    } else {
      var nd := MiddleGrows(c, s, inp, h);
      BelowGrows(Work(s, h), nd, s.inorder);
      EndPasses(c, s, inp, h);
    }
  }

  /** Once the offset is stuck above something pending it stays so as long as the checks hold,
      whatever the turn does: no recovery gets around it. */
  lemma StuckStays(c: Config, s: State, inp: Input)
    requires ConfigOk(c) && Inv(c, s) && InputOk(c, s, inp) && ChecksHold(c, s, Turn(inp)) && StuckSomewhere(s)
    ensures StuckSomewhere(TurnOf(c, s, inp))
  {
    if EndSearch(c, s, inp).Some? {
      SearchedPasses(c, s, inp);
      ChecksGrow(c, s, inp);
      TurnFile(c, s, inp);
      SearchedStuck(c, TurnOf(c, s, inp));
    } else {
      UnsearchedStays(c, s, inp, if Stuck(s, 0) then 0 else 1);
    }
  }

  // ---------------------------------------------------------------- runs

  /** No run whose checks hold leaves a stuck state, so none becomes ready from there. */
  lemma {:induction false} StuckRun(c: Config, s: State, es: seq<Event>)
    requires ConfigOk(c) && Inv(c, s) && Run(c, s, es) && StuckSomewhere(s) && AllChecksHold(c, s, es)
    ensures Inv(c, After(c, s, es)) && StuckSomewhere(After(c, s, es))
    decreases |es|
  {
    if es != [] {
      NextKeeps(c, s, es[0]);
      if es[0].Turn? { StuckStays(c, s, es[0].input); } else { PassKeepsStuck(c, s); }
      StuckRun(c, Next(c, s, es[0]), es[1..]);
    }
  }

  lemma PassKeepsStuck(c: Config, s: State)
    requires StuckSomewhere(s)
    ensures StuckSomewhere(EndPassOf(c, s))
  {
    assert Work(EndPassOf(c, s), 0) == Work(s, 0) && Work(EndPassOf(c, s), 1) == Work(s, 1);
  }

  /** An overshooting turn ends stuck, in any mode. */
  lemma OvershootSticks(c: Config, s: State, inp: Input)
    requires ConfigOk(c) && Inv(c, s) && InputOk(c, s, inp) && Overshoots(c, s, inp)
    ensures StuckSomewhere(TurnOf(c, s, inp))
  {
    OvershootPasses(c, s, inp);
    EndSearchCaches(c, s, inp);
    SameSearch(c, EndSearch(c, s, inp).value);
    TurnFile(c, s, inp);
    SearchedStuck(c, TurnOf(c, s, inp));
  }

  lemma StuckNotReady(c: Config, s: State, es: seq<Event>)
    requires ConfigOk(c) && Inv(c, s) && Run(c, s, es) && StuckSomewhere(s) && !s.ready && After(c, s, es).ready
    ensures !AllChecksHold(c, s, es)
  {
    if AllChecksHold(c, s, es) {
      StuckRun(c, s, es);
      Runs.ReadyIsDone(c, s, es);
      Runs.DoneIffAllWritten(c, After(c, s, es));
    }
  }

  /** An overshooting turn passes the start of something pending. */
  lemma OvershootPasses(c: Config, s: State, inp: Input)
    requires ConfigOk(c) && Inv(c, s) && InputOk(c, s, inp) && Overshoots(c, s, inp)
    ensures Passed(TurnOf(c, s, inp))
  {
    var t, u := TurnOf(c, s, inp), EndSearch(c, s, inp).value;
    var i: Link := if LoneBelow(u, 0) then 0 else 1;
    EndSearchCaches(c, s, inp);
    SameSearch(c, u);
    TurnFile(c, s, inp);
    FoundCases(c, t);
    LonePassed(t, i);
  }

  lemma LonePassed(t: State, i: Link)
    requires LoneBelow(t, i)
    ensures Below(Work(t, i), t.link.At(i).cur)
  {
    var ds, cur := Work(t, i), t.link.At(i).cur;
    PendingBelow(t, i);
    MinStartAt(ds[1..], cur);
    var d :| d in ds[1..] && Head(d.chunks).start < cur;
    var x :| 0 <= x < |ds[1..]| && ds[1..][x] == d;
    assert ds[x + 1] == d;
  }

  /** In any mode, a run that overshoots and later becomes ready fails a check in between. */
  lemma OvershootIsCaught(c: Config, es: seq<Event>, inp: Input, later: seq<Event>)
    requires ConfigOk(c) && Run(c, Start(c), es) && EventOk(c, After(c, Start(c), es), Turn(inp))
    requires Overshoots(c, After(c, Start(c), es), inp)
    requires var t := TurnOf(c, After(c, Start(c), es), inp); Run(c, t, later) && After(c, t, later).ready
    ensures !AllChecksHold(c, TurnOf(c, After(c, Start(c), es), inp), later)
  {
    var s := After(c, Start(c), es);
    Reachable(c, es);
    TurnKeeps(c, s, inp);
    OvershootSticks(c, s, inp);
    StuckNotReady(c, TurnOf(c, s, inp), later);
  }

  /** The same from any state: a run to the end whose checks hold never overshoots. */
  lemma {:induction false} CheckedNeverOvershoots(c: Config, s: State, es: seq<Event>)
    requires ConfigOk(c) && Inv(c, s) && Run(c, s, es) && After(c, s, es).ready && AllChecksHold(c, s, es)
    ensures NeverOvershoots(c, s, es)
    decreases |es|
  {
    if es != [] {
      NextKeeps(c, s, es[0]);
      if es[0].Turn? && Overshoots(c, s, es[0].input) {
        TurnKeeps(c, s, es[0].input);
        OvershootSticks(c, s, es[0].input);
        StuckNotReady(c, Next(c, s, es[0]), es[1..]);
      }
      CheckedNeverOvershoots(c, Next(c, s, es[0]), es[1..]);
    }
  }

  /** With fixed segments, recovery on or off: the checks of a download that becomes ready all hold
      if and only if its cached offset was safe in every state. */
  lemma ChecksMeanSafe(c: Config, es: seq<Event>)
    requires ConfigOk(c) && c.fixedSegment && Run(c, Start(c), es) && After(c, Start(c), es).ready
    ensures AllChecksHold(c, Start(c), es) <==> AlwaysSafe(c, Start(c), es)
  {
    RunSafeIff(c, es);
    if AllChecksHold(c, Start(c), es) {
      StartOk(c);
      CheckedNeverOvershoots(c, Start(c), es);
    }
  }
}
