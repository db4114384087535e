/**
 * The marks on a link's record: the last-segment flag goes up when it has to (src/gb.c:898-902,
 * src/gb.c:1026-1043), the idle mark says what a search saw (src/gb.c:766-769), and a link that lets
 * go is disconnected when nothing is left for it (src/gb.c:966-971).
 */
module Flags {
  import opened Pairs
  import opened Chunks
  import opened Scheduler
  import opened DutyLemmas
  import opened Invariant
  import opened Finishing
  import opened Assigning
  import opened Setup
  import opened Turns
  import opened Balance
  import opened Choices
  import opened Searches
  import AnyMode

  // ---------------------------------------------------------------- the current subsegment

  /** A link whose current subsegment ends the file has the flag. */
  ghost predicate FlagUp(c: Config, ds: seq<Duty>, l: Conn) {
    ds != [] && LastOf(ds[0].chunks).last == c.Size() - 1 ==> l.lastSegment
  }

  ghost predicate FlagsUp(c: Config, s: State) {
    FlagUp(c, Work(s, 0), s.link.lte) && FlagUp(c, Work(s, 1), s.link.wifi)
  }

  lemma FlagsBoth(c: Config, s: State, i: Link)
    ensures FlagsUp(c, s) <==> FlagUp(c, Work(s, i), s.link.At(i)) && FlagUp(c, Work(s, Other(i)), s.link.At(Other(i)))
  {
  }

  /** The link that asked for the new segment. */
  lemma OwnFlag(c: Config, ds: seq<Duty>, l: Conn, g: Seg, i: Link)
    requires ds != [] && FlagUp(c, ds, l)
    ensures FlagUp(c, ds + NewDuty(g, i), Requested(l, g.sub.At(i)))
  {
  }

  /** The other one: busy, resumed, or recovered. */
  lemma OtherFlag(c: Config, ds: seq<Duty>, l: Conn, g: Seg, o: Link)
    requires FlagUp(c, ds, l) && if g.recovery then ds == [] else LinkOk(ds, l, false)
    ensures FlagUp(c, ds + NewDuty(g, o), OtherRequested(c, l, g, o))
  {
  }

  lemma CheckFlags(c: Config, t: State)
    requires FlagsUp(c, t)
    ensures FlagsUp(c, CheckLastSegment(c, t))
  {
    assert Work(CheckLastSegment(c, t), 0) == Work(t, 0) && Work(CheckLastSegment(c, t), 1) == Work(t, 1);
  }

  /** State `u` without the new tail, `r` with it, before both parts are requested. */
  lemma RequestFlags(c: Config, u: State, r: State, i: Link)
    requires FlagsUp(c, u) && r.segs == u.segs + [Tail(r)] && Work(u, i) != []
    requires r.link.At(i).lastSegment == u.link.At(i).lastSegment
    requires r.link.At(Other(i)).lastSegment == u.link.At(Other(i)).lastSegment
    requires if Tail(r).recovery then Work(u, Other(i)) == [] else LinkOk(Work(u, Other(i)), r.link.At(Other(i)), false)
    ensures FlagsUp(c, CheckLastSegment(c, RequestBoth(c, r, i)))
  {
    var t, g, o := RequestBoth(c, r, i), Tail(r), Other(i);
    RequestedShape(c, r, i);
    DutiesAppend(u.segs, g, i);
    DutiesAppend(u.segs, g, o);
    OwnFlag(c, Work(u, i), r.link.At(i), g, i);
    OtherFlag(c, Work(u, o), r.link.At(o), g, o);
    PartsFlags(c, u, t, g, i);
    CheckFlags(c, t);
  }

  lemma PartsFlags(c: Config, u: State, t: State, g: Seg, i: Link)
    requires Work(t, i) == Work(u, i) + NewDuty(g, i) && Work(t, Other(i)) == Work(u, Other(i)) + NewDuty(g, Other(i))
    requires FlagUp(c, Work(u, i) + NewDuty(g, i), t.link.At(i))
    requires FlagUp(c, Work(u, Other(i)) + NewDuty(g, Other(i)), t.link.At(Other(i)))
    ensures FlagsUp(c, t)
  {
    FlagsBoth(c, t, i);
  }

  lemma SearchFlags(c: Config, s: State)
    ensures FlagsUp(c, UpdateInorder(c, s)) <==> FlagsUp(c, s)
  {
    assert Work(UpdateInorder(c, s), 0) == Work(s, 0) && Work(UpdateInorder(c, s), 1) == Work(s, 1);
  }

  lemma SizingFlags(c: Config, s: State)
    ensures FlagsUp(c, BeforeSizing(c, s)) <==> FlagsUp(c, s)
  {
    SearchFlags(c, s);
  }

  /** An ordinary next segment. */
  lemma NewFlags(c: Config, b: State, i: Link, inp: Input)
    requires ConfigOk(c) && inp.policy >= c.initSeg && Core(c, b, i, true) && Work(b, i) != [] && FlagsUp(c, b)
    ensures var r := NewSegment(c, b, i, inp);
            FlagsUp(c, if r.0 then CheckLastSegment(c, RequestBoth(c, r.1, i)) else r.1)
  {
    var u := BeforeSizing(c, b);
    var n := NextSize(c, u, inp);
    SizingFlags(c, b);
    BeforeSizingKeeps(c, b, i);
    NextSizeTiles(c, u, inp);
    if n != 0 {
      NewSegmentTail(c, u, i, inp, n);
      RequestFlags(c, u, MakeSegment(c, u, i, inp, n), i);
    }
  }

  /** A recovery. */
  lemma RecoveryFlags(c: Config, s: State, i: Link, inp: Input)
    requires ConfigOk(c) && inp.policy >= c.initSeg && Core(c, s, i, true) && Work(s, i) != [] && FlagsUp(c, s)
    requires Work(s, Other(i)) != [] && inp.i == i
    ensures FlagsUp(c, CheckLastSegment(c, RequestBoth(c, Subdivide(c, Recover(c, s, i, inp), i, inp, 0), i)))
  {
    var u := BeforeSizing(c, Detach(s, Other(i)));
    var list := Pool(c, u, Left(s, Other(i)), inp);
    var hi := u.lastOff + Extension(c, u, if c.fixedSegment then c.initSeg else inp.policy);
    BaseDetached(c, s, i);
    RecoverTail(c, s, u, i, inp, list, hi);
    DetachedFlags(c, s, u, i);
    RequestFlags(c, u, Subdivide(c, Recover(c, s, i, inp), i, inp, 0), i);
  }

  lemma DetachedFlags(c: Config, s: State, u: State, i: Link)
    requires Detached(s, u, i) && FlagsUp(c, s)
    ensures FlagsUp(c, u)
  {
    FlagsBoth(c, s, i);
    FlagsBoth(c, u, i);
  }

  lemma SetupFlags(c: Config, b: State, i: Link, inp: Input)
    requires ConfigOk(c) && inp.policy >= c.initSeg && Core(c, b, i, true) && Work(b, i) != [] && FlagsUp(c, b)
    requires inp.i == i
    ensures FlagsUp(c, SetupAndRequest(c, b, i, inp))
  {
    RecoversIs(c, b, inp);
    if b.link.At(i).lastSegment {
    } else if OrderCase(b, i) == Behind && b.single {
      FlagsBoth(c, b.(link := b.link.With(i, b.link.At(i).(idle := true))), i);
    } else if Recovers(c, b, i, inp) {
      RecoveryFlags(c, b, i, inp);
    } else {
      NewFlags(c, b, i, inp);
    }
  }

  lemma MiddleFlags(c: Config, s: State, inp: Input)
    requires ConfigOk(c) && Inv(c, s) && InputOk(c, s, inp) && FlagsUp(c, s)
    ensures FlagsUp(c, Middle(c, s, inp))
  {
    var i, b := inp.i, Write(c, s, inp.i, inp.n);
    InvBoth(c, s, i);
    WriteKeeps(c, s, i, inp.n);
    FlagsBoth(c, s, i);
    FlagsBoth(c, b, i);
    if SetsUp(s, i, inp.n) { SetupFlags(c, b, i, inp); }
  }

  lemma MoreFlags(c: Config, m: State, i: Link)
    requires Tracked(m, i) && Work(m, i) != [] && |Work(m, i)[0].chunks| > 1 && FlagsUp(c, m)
    ensures FlagsUp(c, FinishChunk(c, m, i))
  {
    MoreChunksShape(c, m, i);
    MoreChunksWork(c, m, i);
    FlagsBoth(c, m, i);
    FlagsBoth(c, FinishChunk(c, m, i), i);
  }

  lemma ClosedFlags(c: Config, m: State, i: Link)
    requires Tracked(m, i) && Work(m, i) != [] && FlagsUp(c, m)
    ensures FlagsUp(c, Closed(c, m, i))
  {
    var t := Closed(c, m, i);
    ClosedWork(c, m, i);
    FlagsBoth(c, m, i);
    FlagsBoth(c, t, i);
    if |Work(m, i)| > 1 { ClosedNext(c, m, i); }
  }

  lemma FinishFlags(c: Config, m: State, i: Link)
    requires Tracked(m, i) && Work(m, i) != [] && Work(m, i)[0].chunks != [] && FlagsUp(c, m)
    ensures FlagsUp(c, FinishChunk(c, m, i))
  {
    if |Work(m, i)[0].chunks| > 1 {
      MoreFlags(c, m, i);
    } else {
      LastChunkShape(c, m, i);
      ClosedFlags(c, m, i);
      SearchFlags(c, Closed(c, m, i));
    }
  }

  lemma TurnFlags(c: Config, s: State, inp: Input)
    requires ConfigOk(c) && Inv(c, s) && InputOk(c, s, inp) && FlagsUp(c, s)
    ensures FlagsUp(c, TurnOf(c, s, inp))
  {
    var m := Middle(c, s, inp);
    MiddleFlags(c, s, inp);
    TurnEnds(c, s, inp, m);
    if inp.n == Remaining(s.link.At(inp.i)) {
      HeadIsOld(c, s, inp);
      FinishFlags(c, m, inp.i);
    } else {
      SearchFlags(c, m);
    }
  }

  lemma StartFlags(c: Config)
    requires ConfigOk(c)
    ensures FlagsUp(c, Start(c))
  {
    StartShape(c);
    OneDuty(FirstSeg(c), 0);
    OneDuty(FirstSeg(c), 1);
  }

  lemma {:induction false} RunFlags(c: Config, s: State, es: seq<Event>)
    requires ConfigOk(c) && Inv(c, s) && Run(c, s, es) && FlagsUp(c, s)
    ensures FlagsUp(c, After(c, s, es))
    decreases |es|
  {
    if es != [] {
      NextKeeps(c, s, es[0]);
      if es[0].Turn? { TurnFlags(c, s, es[0].input); } else { PassFlags(c, s); }
      RunFlags(c, Next(c, s, es[0]), es[1..]);
    }
  }

  lemma PassFlags(c: Config, s: State)
    requires FlagsUp(c, s)
    ensures FlagsUp(c, EndPassOf(c, s))
  {
    assert Work(EndPassOf(c, s), 0) == Work(s, 0) && Work(EndPassOf(c, s), 1) == Work(s, 1);
  }

  /** In every reachable state: a link inside a subsegment that ends the file has the last-segment
      flag, and a link with the flag works while the whole file is assigned. */
  lemma FlagReached(c: Config, es: seq<Event>, j: Link)
    requires ConfigOk(c) && Run(c, Start(c), es)
    ensures var s := After(c, Start(c), es);
            && (Work(s, j) != [] && LastOf(Work(s, j)[0].chunks).last == c.Size() - 1 ==> s.link.At(j).lastSegment)
            && (s.link.At(j).lastSegment ==> s.lastOff == c.Size() - 1)
  {
    StartOk(c);
    StartFlags(c);
    Reachable(c, es);
    RunFlags(c, Start(c), es);
    FlagOf(c, After(c, Start(c), es), j);
  }

  lemma FlagOf(c: Config, s: State, j: Link)
    requires Inv(c, s) && FlagsUp(c, s)
    ensures Work(s, j) != [] && LastOf(Work(s, j)[0].chunks).last == c.Size() - 1 ==> s.link.At(j).lastSegment
    ensures s.link.At(j).lastSegment ==> s.lastOff == c.Size() - 1
  {
    InvBoth(c, s, j);
    FlagsBoth(c, s, j);
  }

  // ---------------------------------------------------------------- the next segment

  /** The segment of the link's next subsegment ends at `end`. */
  ghost predicate NextEnds(gs: seq<Seg>, j: Link, end: int) {
    && |Duties(gs, j)| > 1
    && exists x | 0 <= x < |gs| :: gs[x].id == Duties(gs, j)[1].id && LastOf(gs[x].chunks).last == end
  }

  function SecondAt(gs: seq<Seg>, j: Link): (m: nat)
    ensures m <= |gs|
  {
    var k := FirstAt(gs, j, 0);
    if k < |gs| then FirstAt(gs, j, k + 1) else |gs|
  }

  /** The link's second segment in the list is the one with the id of its second subsegment. */
  lemma SecondEnds(gs: seq<Seg>, count: nat, completed: nat, j: Link, end: int)
    requires Window(gs, count, completed) && Duties(gs, j) != []
    ensures NextEnds(gs, j, end) <==> SecondAt(gs, j) < |gs| && LastOf(gs[SecondAt(gs, j)].chunks).last == end
  {
    SearchSecond(gs, j);
    var m := SecondAt(gs, j);
    if m < |gs| { assert Duties(gs, j)[1].id == gs[m].id; }
  }

  lemma FlagIs(c: Config, s: State, j: Link, slack: bool)
    requires Window(s.segs, s.count, s.completed) && LinkOk(Work(s, j), s.link.At(j), slack) && Work(s, j) != []
    ensures LastSegmentFlag(c, s, j) <==>
            || s.link.At(j).lastSegment
            || (SecondAt(s.segs, j) < |s.segs| && LastOf(s.segs[SecondAt(s.segs, j)].chunks).last == c.Size() - 1)
  {
    CursorSeg(s, j, slack);
  }

  lemma CheckedFlag(c: Config, s: State, j: Link)
    ensures CheckLastSegment(c, s).link.At(j).lastSegment == LastSegmentFlag(c, s, j)
    ensures s.link.At(j).cursor.None? ==> LastSegmentFlag(c, s, j) == s.link.At(j).lastSegment
  {
  }

  /** The check raises the flag of a link if and only if its next segment ends the file. */
  lemma CheckRaises(c: Config, s: State, j: Link, slack: bool)
    requires Window(s.segs, s.count, s.completed) && LinkOk(Work(s, j), s.link.At(j), slack)
    ensures CheckLastSegment(c, s).link.At(j).lastSegment <==>
            s.link.At(j).lastSegment || NextEnds(s.segs, j, c.Size() - 1)
  {
    CheckedFlag(c, s, j);
    if Work(s, j) != [] {
      SecondEnds(s.segs, s.count, s.completed, j, c.Size() - 1);
      FlagIs(c, s, j, slack);
    }
  }

  lemma CheckedTwice(c: Config, t: State, j: Link)
    ensures var m := CheckLastSegment(c, t);
            CheckLastSegment(c, m).link.At(j).lastSegment == m.link.At(j).lastSegment
  {
  }

  /** In every turn that adds a segment the flag is up, before the turn ends, for each link whose
      next segment ends the file. */
  lemma FlagsRaised(c: Config, s: State, inp: Input, j: Link)
    requires ConfigOk(c) && Inv(c, s) && InputOk(c, s, inp) && TurnOf(c, s, inp).count > s.count
    requires NextEnds(Middle(c, s, inp).segs, j, c.Size() - 1)
    ensures Middle(c, s, inp).link.At(j).lastSegment
  {
    var m := Middle(c, s, inp);
    InvBoth(c, s, inp.i);
    TurnCounts(c, s, inp);
    var t := MadeChecked(c, s, inp);
    CheckedTwice(c, t, j);
    MiddleTracks(c, s, inp, j);
    CheckRaises(c, m, j, j == inp.i);
  }

  lemma MiddleTracks(c: Config, s: State, inp: Input, j: Link)
    requires ConfigOk(c) && Inv(c, s) && InputOk(c, s, inp)
    ensures var m := Middle(c, s, inp);
            Window(m.segs, m.count, m.completed) && LinkOk(Work(m, j), m.link.At(j), j == inp.i)
  {
    InvBoth(c, s, inp.i);
    MiddleOk(c, s, inp);
    assert j == inp.i || j == Other(inp.i);
  }

  lemma MadeChecked(c: Config, s: State, inp: Input) returns (t: State)
    requires Middle(c, s, inp).count > s.count
    ensures Middle(c, s, inp) == CheckLastSegment(c, t)
  {
    var b := Write(c, s, inp.i, inp.n);
    t := RequestBoth(c, SetupNext(c, b, inp.i, inp).1, inp.i);
  }

  // ---------------------------------------------------------------- idle marks and disconnecting

  /** After a turn that ends with a search exactly the links without work are marked idle. */
  lemma SearchMarks(c: Config, s: State, inp: Input, j: Link)
    requires ConfigOk(c) && Inv(c, s) && InputOk(c, s, inp) && EndSearch(c, s, inp).Some?
    ensures TurnOf(c, s, inp).link.At(j).idle <==> Work(TurnOf(c, s, inp), j) == []
  {
    var u := EndSearch(c, s, inp).value;
    EndSearchCaches(c, s, inp);
    TurnKeeps(c, s, inp);
    AnyMode.IdleIffNoWork(c, TurnOf(c, s, inp), j);
    assert IsIdle(TurnOf(c, s, inp).link.At(j)) == TurnOf(c, s, inp).link.At(j).idle;
  }

  /** A link that has to wait behind a single-link tail is marked idle. */
  lemma WaitingMarks(c: Config, s: State, inp: Input)
    requires ConfigOk(c) && Inv(c, s) && InputOk(c, s, inp) && Due(s, inp.i, inp.n)
    requires s.single && !Newest(s, inp.i) && !s.link.At(inp.i).lastSegment
    ensures Middle(c, s, inp).link.At(inp.i).idle
  {
    InvBoth(c, s, inp.i);
    DueIff(c, s, inp);
    WriteKeeps(c, s, inp.i, inp.n);
    OrderIs(c, Write(c, s, inp.i, inp.n), inp.i);
  }

  /** A link that finishes its last subsegment is disconnected if and only if its chunk or the other
      link's ends the file, or it is LTE in single-link mode. */
  lemma LetsGo(c: Config, m: State, i: Link)
    requires Tracked(m, i) && |Work(m, i)| == 1 && m.link.At(i).cur == m.link.At(i).last + 1 && m.link.At(i).cur > 0
    ensures Closed(c, m, i).link.At(i).net == CLOSED <==>
            || m.link.At(i).last == c.Size() - 1 || m.link.At(Other(i)).last == c.Size() - 1
            || (m.single && i == INDEX_LTE)
  {
    CursorSeg(m, i, true);
  }
}
