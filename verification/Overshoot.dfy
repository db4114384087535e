/** Where the in-order offset is not safe: concrete runs in which the code's own assumption
    about pending chunks (src/gb.c:792-800) does not hold. */
module Overshoot {
  import opened Pairs
  import opened Chunks
  import opened Scheduler
  import opened DutyLemmas
  import opened Invariant
  import opened Setup
  import opened Finishing
  import opened Turns
  import Safety
  import Searches
  import Proxy

  /** The configuration of the example: any file of 8000 bytes, fixed segments, recovery on. */
  ghost predicate Example(c: Config) {
    c.Size() == 8000 && c == Config(c.server, 2000, true, false, Pair(1, 1), false, true, 5120)
  }

  function Reads(n: nat, want: bool): Input { Input(0, n, Pair(1, 0), want, 0, 2000) }

  // Link 0 finishes its half of the first segment and gets the whole second one.
  const TURN1 := Turn(Reads(1000, false))
  // It reads most of the second segment.
  const TURN2 := Turn(Reads(1900, false))
  // Near its end it takes link 1's 1000 bytes back, all of them for itself.
  const TURN3 := Turn(Reads(1, true))

  const HALF1 := Subsegment([Chunk(1000, 1999)], 1000)
  const SEG1 := Seg(1, false, [Chunk(0, 1999)], 2000, Pair(None, Some(HALF1)))
  const SEG2 := Seg(2, false, [Chunk(2000, 3999)], 2000, Pair(Some(Subsegment([Chunk(2000, 3999)], 2000)), None))

  lemma First(c: Config)
    requires Example(c)
    ensures ConfigOk(c)
    ensures var s := Start(c);
            && s.segs == [FirstSeg(c)] && s.lastOff == 1999 && s.count == 1 && s.completed == 0 && !s.single
            && s.link.lte == Conn(0, 999, true, false, false, Some(1), false, Net(Chunk(0, 999), []))
            && s.link.wifi == Conn(1000, 1999, true, false, false, Some(1), false, Net(Chunk(1000, 1999), []))
            && FirstSeg(c) == Seg(1, false, [Chunk(0, 1999)], 2000,
                                     Pair(Some(Subsegment([Chunk(0, 999)], 1000)), Some(HALF1)))
  {
    StartShape(c);
  }

  lemma SecondMade(c: Config, s1: State)
    requires Example(c)
    requires s1.segs == [FirstSeg(c)] && s1.count == 1 && s1.completed == 0 && s1.lastOff == 1999
    requires s1.link.lte == Conn(1000, 999, true, false, false, Some(1), false, Net(Chunk(1000, 999), []))
    requires s1.link.wifi == Conn(1000, 1999, true, false, false, Some(1), false, Net(Chunk(1000, 1999), []))
    ensures MakeSegment(c, s1, 0, TURN1.input, 2000)
            == s1.(segs := [FirstSeg(c), SEG2], count := 2, lastOff := 3999)
  {
    SortOne(Chunk(2000, 3999));
    var s2 := AddNext(c, s1, 2000);
    assert s2 == s1.(segs := [FirstSeg(c), SEG2.(sub := Pair(None, None))], count := 2, lastOff := 3999);
    assert Contribution(s2, 0, 0) == 0;
    assert Contribution(s2, 0, 1) == 1000;
    assert VirtualSize(s2, 0) == 3000;
    assert Share(c, s2, 0, 1, 0) == 2000;
    var cs := [Chunk(2000, 3999)];
    assert cs[1..] == [];
    assert TakeBytes(cs, 2000) == cs;
    assert s2.segs[..1] == [FirstSeg(c)];
  }

  lemma SecondSetup(c: Config, s1: State)
    requires Example(c)
    requires s1.segs == [FirstSeg(c)] && s1.count == 1 && s1.completed == 0 && s1.lastOff == 1999
    requires s1.link.lte == Conn(1000, 999, true, false, false, Some(1), false, Net(Chunk(1000, 999), []))
    requires s1.link.wifi == Conn(1000, 1999, true, false, false, Some(1), false, Net(Chunk(1000, 1999), []))
    ensures SetupNext(c, s1, 0, TURN1.input)
            == (true, s1.(segs := [FirstSeg(c), SEG2], count := 2, lastOff := 3999))
  {
    SecondMade(c, s1);
    assert NextSize(c, s1, TURN1.input) == 2000;
  }

  lemma SecondRequested(c: Config, s: State)
    requires Example(c)
    requires s.segs == [FirstSeg(c), SEG2] && s.count == 2 && s.completed == 0
    requires s.link.lte == Conn(1000, 999, true, false, false, Some(1), false, Net(Chunk(1000, 999), []))
    requires s.link.wifi == Conn(1000, 1999, true, false, false, Some(1), false, Net(Chunk(1000, 1999), []))
    ensures CheckLastSegment(c, RequestBoth(c, s, 0))
            == s.(link := s.link.(lte := Conn(1000, 999, true, true, false, Some(1), false,
                                              Net(Chunk(1000, 999), [Chunk(2000, 3999)]))))
  {
    var t := RequestBoth(c, s, 0);
    assert t.link.lte.net.pending == [Chunk(2000, 3999)];
    assert t.link.wifi == s.link.wifi;
    assert FirstAt(s.segs, 0, 1) == 1;
    assert FirstAt(s.segs, 1, 1) == 2;
  }

  lemma SecondFinished(c: Config, s: State)
    requires Example(c)
    requires s.segs == [FirstSeg(c), SEG2] && s.count == 2 && s.completed == 0 && !s.single
    requires s.link.lte == Conn(1000, 999, true, true, false, Some(1), false,
                                Net(Chunk(1000, 999), [Chunk(2000, 3999)]))
    ensures FinishChunk(c, s, 0)
            == UpdateInorder(c, s.(segs := [SEG1, SEG2],
                 link := s.link.(lte := Conn(2000, 3999, true, false, false, Some(2), false,
                                             Net(Chunk(2000, 3999), [])))))
  {
    assert Rest([Chunk(0, 999)]) == [];
    assert SetSub(s.segs, 0, 0, None) == [SEG1, SEG2];
    assert FirstAt([SEG1, SEG2], 0, 1) == 1;
    assert FirstAt([SEG1, SEG2], 0, 2) == 2;
    assert [Chunk(2000, 3999)][1..] == [];
    assert TrimAll([SEG1, SEG2]) == [SEG1, SEG2];
  }

  lemma Second(c: Config)
    requires Example(c)
    ensures var s := Next(c, Start(c), TURN1);
            && s.segs == [SEG1, SEG2] && s.lastOff == 3999 && s.count == 2 && s.completed == 0 && !s.single
            && s.link.lte == Conn(2000, 3999, true, false, false, Some(2), false, Net(Chunk(2000, 3999), []))
            && s.link.wifi == Conn(1000, 1999, true, false, false, Some(1), false, Net(Chunk(1000, 1999), []))
  {
    First(c);
    var s := Start(c);
    var s1 := Write(c, s, 0, 1000);
    assert SetsUp(s, 0, 1000);
    SecondSetup(c, s1);
    var s2 := s1.(segs := [FirstSeg(c), SEG2], count := 2, lastOff := 3999);
    SecondRequested(c, s2);
    var s3 := SetupAndRequest(c, s1, 0, TURN1.input);
    SecondFinished(c, s3);
  }

  lemma Third(c: Config)
    requires Example(c)
    ensures var s := Next(c, Next(c, Start(c), TURN1), TURN2);
            && s.segs == [SEG1, SEG2] && s.lastOff == 3999 && s.count == 2 && s.completed == 0 && !s.single
            && s.link.lte == Conn(3900, 3999, true, false, false, Some(2), false, Net(Chunk(3900, 3999), []))
            && s.link.wifi == Conn(1000, 1999, true, false, false, Some(1), false, Net(Chunk(1000, 1999), []))
  {
    Second(c);
    var s := Next(c, Start(c), TURN1);
    assert !SetsUp(s, 0, 1900);
  }

  const POOL := [Chunk(1000, 1999), Chunk(4000, 5999)]
  const SEG3 := Seg(3, true, POOL, 3000, Pair(Some(Subsegment(POOL, 3000)), None))

  ghost predicate BeforeRecovery(s: State) {
    && s.segs == [SEG1, SEG2] && s.lastOff == 3999 && s.count == 2 && s.completed == 0 && !s.single
    && s.link.lte == Conn(3901, 3999, true, false, false, Some(2), false, Net(Chunk(3901, 3999), []))
    && s.link.wifi == Conn(1000, 1999, true, false, false, Some(1), false, Net(Chunk(1000, 1999), []))
  }

  lemma TakenBack(c: Config, s: State)
    requires Example(c)
    requires BeforeRecovery(s)
    ensures Detach(s, 1) == s.(segs := [SEG2], completed := 1,
                               link := s.link.(wifi := s.link.wifi.(enabled := false, net := CLOSED)))
    ensures Pool(c, Detach(s, 1), Unread(Duties(s.segs, 1), s.link.wifi), TURN3.input) == POOL
  {
    var hs := [SEG1.(sub := Pair(None, None)), SEG2];
    assert SetSub(s.segs, 0, 1, None) == hs;
    assert FirstAt(hs, 1, 1) == 2;
    assert Trim(hs) == [SEG2];
    assert s.segs[1..] == [SEG2];
    assert [SEG2][1..] == [];
    assert Duties([SEG2], 1) == [];
    assert Duties(s.segs, 1) == [Duty(1, false, HALF1.chunks, 1000)];
    assert Flat(Duties(s.segs, 1)) == HALF1.chunks + [];
  }

  lemma PoolFacts()
    ensures Total(POOL) == 3000 && Sort(POOL) == POOL
    ensures TakeBytes(POOL, 3000) == POOL
  {
    assert POOL[1..] == [Chunk(4000, 5999)] && POOL[1..][1..] == [];
    assert Without(POOL, 0) == [Chunk(4000, 5999)];
    SortOne(Chunk(4000, 5999));
    assert MinIndex(POOL) == 0;
    assert TakeBytes(POOL[1..], 2000) == POOL[1..];
  }

  lemma RecoveredSegment(c: Config, s: State)
    requires Example(c)
    requires BeforeRecovery(s)
    ensures Recover(c, s, 0, TURN3.input)
            == s.(segs := [SEG2, SEG3.(sub := Pair(None, None))], completed := 1, count := 3, lastOff := 5999,
                  link := s.link.(wifi := s.link.wifi.(enabled := false, net := CLOSED, cursor := Some(3))))
  {
    TakenBack(c, s);
    PoolFacts();
  }

  lemma RecoveredDivided(c: Config, r: State)
    requires Example(c)
    requires r.segs == [SEG2, SEG3.(sub := Pair(None, None))]
    ensures Subdivide(c, r, 0, TURN3.input, 0) == r.(segs := [SEG2, SEG3])
  {
    PoolFacts();
    assert Share(c, r, 0, 1, 0) == 3000;
    assert r.segs[..1] == [SEG2];
  }

  lemma Recovered(c: Config, s: State)
    requires Example(c)
    requires BeforeRecovery(s)
    ensures Subdivide(c, Recover(c, s, 0, TURN3.input), 0, TURN3.input, 0)
            == s.(segs := [SEG2, SEG3], completed := 1, count := 3, lastOff := 5999,
                  link := s.link.(wifi := s.link.wifi.(enabled := false, net := CLOSED, cursor := Some(3))))
  {
    RecoveredSegment(c, s);
    RecoveredDivided(c, Recover(c, s, 0, TURN3.input));
  }

  const LTE3 := Conn(3901, 3999, true, true, false, Some(2), false, Net(Chunk(3901, 3999), POOL))
  const WIFI3 := Conn(1, 0, false, false, false, None, false, CLOSED)

  lemma RecoveredRequested(c: Config, s: State)
    requires Example(c)
    requires s.segs == [SEG2, SEG3] && s.count == 3 && s.completed == 1
    requires s.link.lte == Conn(3901, 3999, true, false, false, Some(2), false, Net(Chunk(3901, 3999), []))
    requires s.link.wifi == Conn(1000, 1999, false, false, false, Some(3), false, CLOSED)
    ensures CheckLastSegment(c, RequestBoth(c, s, 0)) == s.(link := Pair(LTE3, WIFI3))
  {
    assert [] + POOL == POOL;
    var t := RequestBoth(c, s, 0);
    assert t.link == Pair(LTE3, WIFI3);
    assert FirstAt(s.segs, 0, 1) == 1;
  }

  lemma RecoveredSetup(c: Config, s: State)
    requires Example(c)
    requires BeforeRecovery(s)
    ensures SetupAndRequest(c, s, 0, TURN3.input)
            == s.(segs := [SEG2, SEG3], completed := 1, count := 3, lastOff := 5999, link := Pair(LTE3, WIFI3))
  {
    Recovered(c, s);
    assert OrderCase(s, 0) == Ahead;
    assert SegAt(s, Some(1)) == SEG1 && SegAt(s, Some(2)) == SEG2;
    assert DecideRecovery(c, s, 0, TURN3.input);
    assert SetupNext(c, s, 0, TURN3.input)
           == (true, Subdivide(c, Recover(c, s, 0, TURN3.input), 0, TURN3.input, 0));
    RecoveredRequested(c, SetupNext(c, s, 0, TURN3.input).1);
  }

  function S1(c: Config): State { Next(c, Start(c), TURN1) }

  function S2(c: Config): State { Next(c, S1(c), TURN2) }

  function S3(c: Config): State { Next(c, S2(c), TURN3) }

  lemma ThreeTurns(c: Config)
    requires Example(c)
    ensures Inv(c, Start(c)) && Inv(c, S1(c)) && Inv(c, S2(c))
    ensures EventOk(c, Start(c), TURN1) && EventOk(c, S1(c), TURN2) && EventOk(c, S2(c), TURN3)
  {
    First(c);
    StartOk(c);
    StartShape(c);
    TurnKeeps(c, Start(c), TURN1.input);
    Second(c);
    TurnKeeps(c, S1(c), TURN2.input);
    Third(c);
  }

  lemma StillMissing(c: Config, k: int)
    requires Example(c)
    requires 1000 <= k < 2000
    ensures k !in S3(c).file
  {
    ThreeTurns(c);
    First(c);
    Second(c);
    Third(c);
    StartShape(c);
    TurnKeeps(c, Start(c), TURN1.input);
    TurnKeeps(c, S1(c), TURN2.input);
    TurnKeeps(c, S2(c), TURN3.input);
    assert k in S1(c).file <==> k in Start(c).file || InSpan(0, 1000, k);
    assert k in S2(c).file <==> k in S1(c).file || InSpan(2000, 1900, k);
    assert k in S3(c).file <==> k in S2(c).file || InSpan(3900, 1, k);
  }

  lemma FoundTooHigh(c: Config)
    requires Example(c)
    ensures var s := S3(c);
            && s.segs == [SEG2, SEG3] && s.count == 3 && s.completed == 1
            && s.link == Pair(LTE3, WIFI3.(idle := true)) && s.inorder == 3901
  {
    Third(c);
    var m := Write(c, S2(c), 0, 1);
    assert SetsUp(S2(c), 0, 1);
    RecoveredSetup(c, m);
    assert S3(c) == UpdateInorder(c, SetupAndRequest(c, m, 0, TURN3.input));
  }

  // ---------------------------------------------------------------- what follows

  // Link 0 finishes the second segment.
  const TURN4 := Turn(Reads(99, false))

  lemma GoesBack(c: Config, m: State)
    requires Example(c) && m.segs == [SEG2, SEG3] && m.count == 3 && m.completed == 1
    requires m.link.lte == LTE3.(cur := 4000, net := Net(Chunk(4000, 3999), POOL)) && IsIdle(m.link.wifi)
    ensures FoundInorder(c, Closed(c, m, 0)) == 1000 && Closed(c, m, 0).inorder == m.inorder
    ensures |Work(m, 0)| > 0 && |Work(m, 0)[0].chunks| == 1
  {
    var gs := [SEG2.(sub := Pair(None, None)), SEG3];
    assert FirstAt(m.segs, 0, 0) == 0;
    assert SetSub(m.segs, 0, 0, None) == gs;
    assert FirstAt(gs, 0, 1) == 1;
    assert m.segs[1..] == [SEG3];
    assert Work(m, 0)[0] == DutyOf(SEG2, 0);
  }

  lemma NextCheckFails(c: Config)
    requires Example(c)
    ensures !Searches.ChecksHold(c, S3(c), TURN4)
  {
    FoundTooHigh(c);
    var s := S3(c);
    assert !SetsUp(s, 0, 99);
    GoesBack(c, Write(c, s, 0, 99));
    assert Searches.EndSearch(c, s, TURN4.input) == Some(Closed(c, Write(c, s, 0, 99), 0));
  }

  lemma Progress(c: Config, s: State, e: Event)
    requires ConfigOk(c) && Inv(c, s) && EventOk(c, s, e) && e.Turn?
    ensures Next(c, s, e).done == s.done + e.input.n && !Next(c, s, e).ready
  {
    TurnKeeps(c, s, e.input);
  }

  lemma NotReady(c: Config)
    requires Example(c)
    ensures !S3(c).ready && S3(c).done == 2901
  {
    First(c);
    ThreeTurns(c);
    StartShape(c);
    Progress(c, Start(c), TURN1);
    Progress(c, S1(c), TURN2);
    Progress(c, S2(c), TURN3);
  }

  /** With recovery on, a run of three turns puts the in-order offset at 3901 while bytes 1000 to
      1999 are missing: the remaining link has them pending below its cursor. When that link gets
      to them, the check behind the search fails. */
  lemma RecoveryOvershoots(c: Config)
    requires Example(c)
    ensures ConfigOk(c) && c.fixedSegment && c.recovery
    ensures var es := [TURN1, TURN2, TURN3];
            var s := After(c, Start(c), es);
            && Run(c, Start(c), es) && s.inorder == 3901 && (forall k | 1000 <= k < 2000 :: k !in s.file)
            && EventOk(c, s, TURN4) && !Searches.ChecksHold(c, s, TURN4)
  {
    First(c);
    ThreeTurns(c);
    FoundTooHigh(c);
    RunThree(c, Start(c), TURN1, TURN2, TURN3, S3(c));
    NotReady(c);
    NextCheckFails(c);
    forall k | 1000 <= k < 2000 ensures k !in S3(c).file { StillMissing(c, k); }
  }

  lemma PassPublishes(c: Config, s: State)
    requires Example(c) && !s.ready && s.done != 8000
    ensures EndPassOf(c, s).seen == s.inorder && EndPassOf(c, s).file == s.file
  {
  }

  /** So this run is one of those that overshoot. */
  lemma ExampleOvershoots(c: Config)
    requires Example(c)
    ensures var es := [TURN1, TURN2, TURN3];
            Run(c, Start(c), es) && !Safety.NeverOvershoots(c, Start(c), es)
  {
    var es := [TURN1, TURN2, TURN3];
    RecoveryOvershoots(c);
    Safety.RunSafeIff(c, es);
    if Safety.AlwaysSafe(c, Start(c), es) {
      Safety.SafeAtEnd(c, Start(c), es);
      NotSafe(c, After(c, Start(c), es));
    }
  }

  lemma NotSafe(c: Config, s: State)
    requires s.inorder == 3901 && 1000 !in s.file
    ensures !Safety.Safe(c, s)
  {
  }

  /** `n` rounds of the proxy's loop, each a full buffer. */
  function Rounds(n: nat): seq<Proxy.Joint> {
    if n == 0 then [] else [Proxy.Proxy(128, 128)] + Rounds(n - 1)
  }

  /** The system after `n` full rounds. */
  ghost function Advanced(y: Proxy.System, n: nat): Proxy.System {
    Proxy.System(y.s, Proxy.Stream(y.p.pos + n, y.p.out + Proxy.ReadFile(y.s.file, y.p.pos, n), Proxy.Going))
  }

  lemma OneRound(c: Config, y: Proxy.System)
    requires y.p.status == Proxy.Going && y.p.pos + 128 <= y.s.seen < c.Size()
    ensures Proxy.JointOk(c, y, Proxy.Proxy(128, 128))
    ensures Proxy.JointNext(c, y, Proxy.Proxy(128, 128)) == Advanced(y, 128)
  {
  }

  lemma AdvanceTwice(y: Proxy.System, a: nat, b: nat)
    ensures Advanced(Advanced(y, a), b) == Advanced(y, a + b)
  {
    ReadsJoin(y.s.file, y.p.pos, a, b);
    var u, v := Proxy.ReadFile(y.s.file, y.p.pos, a), Proxy.ReadFile(y.s.file, y.p.pos + a, b);
    assert y.p.out + (u + v) == (y.p.out + u) + v;
  }

  lemma {:induction false} RoundsRead(c: Config, y: Proxy.System, n: nat)
    requires y.p.status == Proxy.Going && y.p.pos + 128 * n <= y.s.seen < c.Size()
    ensures Proxy.JointRun(c, y, Rounds(n)) && Proxy.JointAfter(c, y, Rounds(n)) == Advanced(y, 128 * n)
    decreases n
  {
    if n == 0 {
      assert y.p.out + [] == y.p.out;
    } else {
      OneRound(c, y);
      RoundsRead(c, Advanced(y, 128), n - 1);
      AdvanceTwice(y, 128, 128 * (n - 1));
      Proxy.JointCons(c, y, Proxy.Proxy(128, 128), Rounds(n - 1));
    }
  }

  lemma ReadsJoin(file: map<int, Option<Byte>>, pos: int, a: nat, b: nat)
    ensures Proxy.ReadFile(file, pos, a) + Proxy.ReadFile(file, pos + a, b) == Proxy.ReadFile(file, pos, a + b)
  {
  }

  lemma PassNext(c: Config, s: State)
    requires !s.ready
    ensures EventOk(c, s, EndPass) && Next(c, s, EndPass) == EndPassOf(c, s)
  {
  }

  lemma PassAllowed(c: Config)
    requires Example(c)
    ensures var es := [TURN1, TURN2, TURN3, EndPass];
            Run(c, Start(c), es) && After(c, Start(c), es) == EndPassOf(c, S3(c))
  {
    ThreeTurns(c);
    NotReady(c);
    PassNext(c, S3(c));
    RunFour(c, Start(c), TURN1, TURN2, TURN3, EndPass, S1(c), EndPassOf(c, S3(c)));
  }

  /** Meanwhile the offset is published, and the proxy streams zeros for bytes that are missing. */
  lemma HolesAreStreamed(c: Config) returns (js: seq<Proxy.Joint>)
    requires Example(c)
    ensures Proxy.JointRun(c, Proxy.Opened(c), js)
    ensures var z := Proxy.JointAfter(c, Proxy.Opened(c), js);
            && z.s == EndPassOf(c, S3(c)) && z.s.seen == 3901
            && |z.p.out| == 1024 && forall j | 1000 <= j < 1024 :: z.p.out[j] == 0 && j !in z.s.file
  {
    var es := [TURN1, TURN2, TURN3, EndPass];
    PassAllowed(c);
    NotReady(c);
    FoundTooHigh(c);
    PassPublishes(c, S3(c));
    Proxy.DownloadsRun(c, Proxy.Opened(c), es);
    var y := Proxy.System(EndPassOf(c, S3(c)), Proxy.OPENED);
    RoundsRead(c, y, 8);
    Proxy.JointAppend(c, Proxy.Opened(c), Proxy.Downloads(es), Rounds(8));
    js := Proxy.Downloads(es) + Rounds(8);
    ZerosRead(c, y.s.file);
  }

  lemma ZerosRead(c: Config, file: map<int, Option<Byte>>)
    requires Example(c) && file == S3(c).file
    ensures var data := [] + Proxy.ReadFile(file, 0, 1024); forall j | 1000 <= j < 1024 :: data[j] == 0 && j !in file
  {
    forall j | 1000 <= j < 1024 ensures Proxy.ByteAt(file, j) == 0 && j !in file { StillMissing(c, j); }
  }
}
