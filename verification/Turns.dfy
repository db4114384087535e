/** A whole turn keeps the invariant (src/algo_general.c:45-98), and so does a whole run. */
module Turns {
  import opened Pairs
  import opened Chunks
  import opened Scheduler
  import opened DutyLemmas
  import opened Invariant
  import opened Finishing
  import opened Assigning
  import opened Setup

  lemma TailId(s: State)
    requires Window(s.segs, s.count, s.completed) && s.segs != []
    ensures Tail(s).id == s.count
  {
  }

  lemma BehindIsOlder(s: State, i: Link, slack: bool)
    requires Window(s.segs, s.count, s.completed) && Work(s, i) != []
    requires LinkOk(Work(s, i), s.link.At(i), slack) && OrderCase(s, i) == Behind
    ensures Work(s, i)[0].id < s.count
  {
    CursorSeg(s, i, slack);
    TailId(s);
  }

  /** A refused attempt leaves a state in which the turn can go on. */
  lemma RefusedPrepared(c: Config, s: State, i: Link)
    requires InvFrom(c, s, i, true) && Work(s, i) != []
    requires s.link.At(i).lastSegment || LastOf(Tail(s).chunks).last == c.Size() - 1
    ensures Prepared(c, s, s, i)
  {
    IdAtMostCount(s, i, true);
    CursorSeg(s, i, true);
    assert Tail(s) in s.segs;
  }

  /** So does a link that waits behind a single-link tail. */
  lemma WaitingPrepared(c: Config, s: State, i: Link)
    requires InvFrom(c, s, i, true) && Work(s, i) != [] && OrderCase(s, i) == Behind
    ensures Prepared(c, s, s.(link := s.link.With(i, s.link.At(i).(idle := true))), i)
  {
    BehindIsOlder(s, i, true);
    var t := s.(link := s.link.With(i, s.link.At(i).(idle := true)));
    assert Left(t, i) == Left(s, i) && Left(t, Other(i)) == Left(s, Other(i));
  }

  lemma SetupPrepared(c: Config, s: State, i: Link, inp: Input)
    requires ConfigOk(c) && inp.policy >= c.initSeg
    requires InvFrom(c, s, i, true) && Work(s, i) != []
    ensures var r := SetupNext(c, s, i, inp);
            Prepared(c, s, if r.0 then RequestBoth(c, r.1, i) else r.1, i)
  {
    if s.link.At(i).lastSegment {
      RefusedPrepared(c, s, i);
    } else if OrderCase(s, i) == Behind && s.single {
      WaitingPrepared(c, s, i);
    } else if Recovers(c, s, i, inp) {
      RecoverKeeps(c, s, i, inp);
    } else if OrderCase(s, i) == Ahead && c.minEnergy && LastOf(Tail(s).chunks).last == c.Size() - 1 {
      RefusedPrepared(c, s, i);
    } else {
      NewSegmentKeeps(c, s, i, inp);
    }
  }

  lemma SetupKeeps(c: Config, s: State, i: Link, inp: Input)
    requires ConfigOk(c) && inp.policy >= c.initSeg
    requires InvFrom(c, s, i, true) && Work(s, i) != []
    ensures Prepared(c, s, SetupAndRequest(c, s, i, inp), i)
  {
    SetupPrepared(c, s, i, inp);
    var r := SetupNext(c, s, i, inp);
    if r.0 { CheckKeeps(c, RequestBoth(c, r.1, i), i, true); }
  }

  /** A turn that does not set up another segment can go on. */
  lemma NoSetupPrepared(c: Config, s: State, i: Link)
    requires InvFrom(c, s, i, true) && Work(s, i) != []
    requires |Work(s, i)| == 1 ==> s.link.At(i).idle
    ensures Core(c, s, i, true) && MidIdle(c, s, i)
    ensures |Work(s, i)| == 1 && Work(s, i)[0].id == s.count ==> s.lastOff == c.Size() - 1
  {
  }

  /** The state after the data is written and the next segment possibly set up. */
  function Middle(c: Config, s: State, inp: Input): State {
    var s1 := Write(c, s, inp.i, inp.n);
    if SetsUp(s, inp.i, inp.n) then SetupAndRequest(c, s1, inp.i, inp) else s1
  }

  lemma MiddleOk(c: Config, s: State, inp: Input)
    requires ConfigOk(c) && InvFrom(c, s, inp.i, false) && InputOk(c, s, inp)
    ensures var i, t := inp.i, Middle(c, s, inp);
            var at := s.link.At(i).cur;
            && Core(c, t, i, true) && Work(t, i) != []
            && t.link.At(i).cur == at + inp.n && t.link.At(i).last == s.link.At(i).last
            && (inp.n == s.link.At(i).last - at + 1 ==>
                MidIdle(c, t, i) && (|Work(t, i)| == 1 && Work(t, i)[0].id == t.count ==> t.lastOff == c.Size() - 1))
            && (forall k {:trigger k in t.file} :: k in t.file <==> k in s.file || InSpan(at, inp.n, k))
            && (forall k | InSpan(at, inp.n, k) :: Missing(c, s.file, k) == 1)
            && t.done == s.done + inp.n && t.seen == s.seen && t.ready == s.ready
  {
    var i := inp.i;
    var s1 := Write(c, s, i, inp.n);
    WriteKeeps(c, s, i, inp.n);
    if SetsUp(s, i, inp.n) {
      SetupKeeps(c, s1, i, inp);
    } else if inp.n == s.link.At(i).last - s.link.At(i).cur + 1 {
      NoSetupPrepared(c, s1, i);
    }
  }

  /** Every turn keeps the invariant, and writes exactly the offsets read, all missing before. */
  lemma TurnKeeps(c: Config, s: State, inp: Input)
    requires ConfigOk(c) && Inv(c, s) && InputOk(c, s, inp)
    ensures var t := TurnOf(c, s, inp);
            var at := s.link.At(inp.i).cur;
            && Inv(c, t)
            && (forall k {:trigger k in t.file} :: k in t.file <==> k in s.file || InSpan(at, inp.n, k))
            && (forall k | InSpan(at, inp.n, k) :: Missing(c, s.file, k) == 1)
            && t.done == s.done + inp.n && t.seen == s.seen && t.ready == s.ready
  {
    var i := inp.i;
    InvBoth(c, s, i);
    MiddleOk(c, s, inp);
    var m := Middle(c, s, inp);
    if inp.n == s.link.At(i).last - s.link.At(i).cur + 1 {
      FinishKeeps(c, m, i);
    } else {
      UpdateKeeps(c, m, i, false);
    }
    InvBoth(c, TurnOf(c, s, inp), i);
  }

  lemma TurnEnds(c: Config, s: State, inp: Input, m: State)
    requires m == Middle(c, s, inp)
    ensures TurnOf(c, s, inp) ==
            if Remaining(s.link.At(inp.i)) <= inp.n then FinishChunk(c, m, inp.i) else UpdateInorder(c, m)
  {
  }

  /** The link goes on with the subsegment it had before the turn. */
  lemma MiddleHead(c: Config, s: State, inp: Input)
    requires ConfigOk(c) && Inv(c, s) && InputOk(c, s, inp)
    ensures var w := Work(Middle(c, s, inp), inp.i);
            w != [] && Work(s, inp.i) != [] && w[0] == Work(s, inp.i)[0]
  {
    var i, b := inp.i, Write(c, s, inp.i, inp.n);
    InvBoth(c, s, i);
    WriteKeeps(c, s, i, inp.n);
    if SetsUp(s, i, inp.n) { SetupKeeps(c, b, i, inp); }
  }

  lemma PassKeeps(c: Config, s: State)
    requires Inv(c, s)
    ensures Inv(c, EndPassOf(c, s))
  {
    var t := EndPassOf(c, s);
    assert Left(t, 0) == Left(s, 0) && Left(t, 1) == Left(s, 1);
  }

  /** The first segment with its two parts. */
  function FirstSeg(c: Config): Seg {
    var f := Ratio(c.initSeg, c.rate.lte, c.rate.wifi);
    Seg(1, false, [Chunk(0, c.initSeg - 1)], c.initSeg,
        Pair(Some(Subsegment([Chunk(0, f - 1)], f)),
             Some(Subsegment([Chunk(f, c.initSeg - 1)], c.initSeg - f))))
  }

  lemma FirstAddedShape(c: Config)
    requires ConfigOk(c)
    ensures var s := FirstAdded(c);
            && s.segs == [FirstSeg(c).(sub := Pair(None, None))] && s.lastOff == c.initSeg - 1 && s.count == 1
            && s.completed == 0
            && s.file == map[] && s.done == 0 && s.inorder == 0 && s.seen == 0 && !s.ready
  {
    SortOne(Chunk(0, c.initSeg - 1));
  }

  lemma StartShape(c: Config)
    requires ConfigOk(c)
    ensures Start(c).segs == [FirstSeg(c)] && Start(c).lastOff == c.initSeg - 1
    ensures Start(c).count == 1 && Start(c).completed == 0
    ensures Start(c).link == Pair(StartConn(c, Start(c), 0), StartConn(c, Start(c), 1))
    ensures Start(c).file == map[] && Start(c).done == 0 && Start(c).inorder == 0 && Start(c).seen == 0
    ensures !Start(c).ready
  {
    var s := FirstAdded(c);
    FirstAddedShape(c);
    var ch := Chunk(0, c.initSeg - 1);
    var f := Ratio(c.initSeg, c.rate.lte, c.rate.wifi);
    assert [ch][1..] == [];
    assert TakeBytes([ch], f) == [Chunk(0, f - 1)];
    assert DropBytes([ch], f) == [Chunk(f, c.initSeg - 1)];
    assert Share(c, s, 0, c.rate.lte, c.rate.wifi) == f;
    assert AddSubsegments(c, s, 0, c.rate.lte, c.rate.wifi, 0).segs == s.segs[..0] + [FirstSeg(c)];
  }

  lemma OneDuty(g: Seg, j: Link)
    requires g.sub.At(j).Some?
    ensures Duties([g], j) == [DutyOf(g, j)] && Flat(Duties([g], j)) == g.sub.At(j).value.chunks
  {
    assert [g][1..] == [];
    assert [DutyOf(g, j)][1..] == [];
    assert Flat([DutyOf(g, j)]) == DutyOf(g, j).chunks + [];
  }

  /** The initial segment, split between both links, satisfies the invariant. */
  lemma StartOk(c: Config)
    requires ConfigOk(c)
    ensures Inv(c, Start(c))
  {
    var s, g := Start(c), FirstSeg(c);
    StartShape(c);
    OneDuty(g, 0);
    OneDuty(g, 1);
    var a, b := g.sub.lte.value.chunks[0], g.sub.wifi.value.chunks[0];
    assert Left(s, 0) == [a] && Left(s, 1) == [b];
    forall k
      ensures Cover([a], k) + Cover([b], k) + Cover([], k) + Free(c, s.lastOff, k) == Missing(c, s.file, k)
    {
      CoverOne(a, k);
      CoverOne(b, k);
    }
    CoverOne(a, 0);
    CoverOne(b, 0);
  }

  // ---------------------------------------------------------------- runs

  /** A run starts with one event and goes on from the next state. */
  lemma RunStep(c: Config, s: State, e: Event, es: seq<Event>, all: seq<Event>)
    requires EventOk(c, s, e) && Run(c, Next(c, s, e), es) && all == [e] + es
    ensures Run(c, s, all) && After(c, s, all) == After(c, Next(c, s, e), es)
  {
    assert all[0] == e && all[1..] == es;
  }

  lemma RunOne(c: Config, s: State, e: Event, t: State)
    requires EventOk(c, s, e) && t == Next(c, s, e)
    ensures Run(c, s, [e]) && After(c, s, [e]) == t
  {
    assert Run(c, t, []) && After(c, t, []) == t;
    RunStep(c, s, e, [], [e]);
  }

  lemma RunTwo(c: Config, s: State, d: Event, e: Event, t: State)
    requires EventOk(c, s, d) && EventOk(c, Next(c, s, d), e) && t == Next(c, Next(c, s, d), e)
    ensures Run(c, s, [d, e]) && After(c, s, [d, e]) == t
  {
    RunOne(c, Next(c, s, d), e, t);
    RunStep(c, s, d, [e], [d, e]);
  }

  lemma RunThree(c: Config, s: State, a: Event, d: Event, e: Event, t: State)
    requires EventOk(c, s, a) && EventOk(c, Next(c, s, a), d) && EventOk(c, Next(c, Next(c, s, a), d), e)
    requires t == Next(c, Next(c, Next(c, s, a), d), e)
    ensures Run(c, s, [a, d, e]) && After(c, s, [a, d, e]) == t
  {
    RunTwo(c, Next(c, s, a), d, e, t);
    RunStep(c, s, a, [d, e], [a, d, e]);
  }

  lemma RunFour(c: Config, s: State, a: Event, b: Event, d: Event, e: Event, r: State, t: State)
    requires EventOk(c, s, a) && r == Next(c, s, a) && EventOk(c, r, b) && EventOk(c, Next(c, r, b), d)
    requires EventOk(c, Next(c, Next(c, r, b), d), e) && t == Next(c, Next(c, Next(c, r, b), d), e)
    ensures Run(c, s, [a, b, d, e]) && After(c, s, [a, b, d, e]) == t
  {
    RunThree(c, r, b, d, e, t);
    RunStep(c, s, a, [b, d, e], [a, b, d, e]);
  }

  lemma NextKeeps(c: Config, s: State, e: Event)
    requires ConfigOk(c) && Inv(c, s) && EventOk(c, s, e)
    ensures Inv(c, Next(c, s, e))
  {
    match e
    case Turn(inp) => TurnKeeps(c, s, inp);
    case EndPass => PassKeeps(c, s);
  }

  lemma {:induction false} RunKeeps(c: Config, s: State, es: seq<Event>)
    requires ConfigOk(c) && Inv(c, s) && Run(c, s, es)
    ensures Inv(c, After(c, s, es))
    decreases |es|
  {
    if es != [] {
      NextKeeps(c, s, es[0]);
      RunKeeps(c, Next(c, s, es[0]), es[1..]);
    }
  }

  /** The invariant holds in every reachable state. */
  lemma Reachable(c: Config, es: seq<Event>)
    requires ConfigOk(c) && Run(c, Start(c), es)
    ensures Inv(c, After(c, Start(c), es))
  {
    StartOk(c);
    RunKeeps(c, Start(c), es);
  }
}
