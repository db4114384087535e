/**
 * A concrete run in variable segment mode with recovery: the search in the middle of a turn
 * (src/gb.c:594) passes a missing byte, which is published and streamed, and no check notices.
 */
module Jump {
  import opened Pairs
  import opened Chunks
  import opened Scheduler
  import opened DutyLemmas
  import opened Invariant
  import opened Setup
  import opened Turns
  import opened Searches
  import opened Safety
  import opened AnyMode
  import Proxy

  /** The configuration of the example: any file of 16 bytes, four bytes in the first segment. */
  ghost predicate Example(c: Config) {
    c.Size() == 16 && c == Config(c.server, 4, false, false, Pair(1, 1), false, true, 5120)
  }

  // Link 1 reads one byte of its half.
  const TURN1 := Turn(Input(1, 1, Pair(1, 1), false, 0, 4))
  // Link 0 finishes its half and takes the other byte back.
  const TURN2 := Turn(Input(0, 2, Pair(1, 1), true, 0, 4))
  // It reads that byte; the next one it has to read is still missing.
  const TURN3 := Turn(Input(0, 1, Pair(1, 1), false, 0, 4))

  const HALF0 := Subsegment([Chunk(0, 1)], 2)
  const HALF1 := Subsegment([Chunk(2, 3)], 2)
  const SEG1 := Seg(1, false, [Chunk(0, 3)], 4, Pair(Some(HALF0), Some(HALF1)))
  const POOL := [Chunk(3, 3), Chunk(4, 7)]
  const FRONT := [Chunk(3, 3), Chunk(4, 4)]
  const BACK := [Chunk(5, 7)]
  const WHOLE2 := Seg(2, true, POOL, 5, Pair(None, None))
  const SEG2 := Seg(2, true, POOL, 5, Pair(Some(Subsegment(FRONT, 2)), Some(Subsegment(BACK, 3))))

  const LTE0 := Conn(0, 1, true, false, false, Some(1), false, Net(Chunk(0, 1), []))
  const WIFI0 := Conn(2, 3, true, false, false, Some(1), false, Net(Chunk(2, 3), []))
  const WIFI1 := Conn(3, 3, true, false, false, Some(1), false, Net(Chunk(3, 3), []))
  const LTE2 := Conn(3, 3, true, false, false, Some(2), false, Net(Chunk(3, 3), [Chunk(4, 4)]))
  const WIFI2 := Conn(5, 7, true, false, false, Some(2), false, Net(Chunk(5, 7), []))

  /** A state in the first segment. */
  ghost predicate Early(s: State, l0: Conn, l1: Conn) {
    && s.segs == [SEG1] && s.lastOff == 3 && s.count == 1 && s.completed == 0 && !s.single
    && s.link == Pair(l0, l1)
  }

  lemma First(c: Config)
    requires Example(c)
    ensures ConfigOk(c) && Early(Start(c), LTE0, WIFI0)
  {
    assert Ratio(4, 1, 1) == 2;
    StartShape(c);
    assert FirstSeg(c) == SEG1;
  }

  lemma ScanEarly()
    ensures ConnByte([SEG1], 0, Some(1), 0) == 0 && ConnByte([SEG1], 1, Some(1), 3) == 3
  {
    var gs := [SEG1];
    assert gs[0].id == 1 && gs[1..] == [];
    assert ConnByte(gs[1..], 0, Some(1), 0) == 0 && ConnByte(gs[1..], 1, Some(1), 3) == 3;
  }

  lemma Second(c: Config, s: State)
    requires Example(c) && Early(s, LTE0, WIFI0)
    ensures Early(Next(c, s, TURN1), LTE0, WIFI1) && Next(c, s, TURN1).inorder == 0
    ensures MidSearch(c, s, TURN1.input).None?
  {
    assert !SetsUp(s, 1, 1);
    ScanEarly();
  }

  // ---------------------------------------------------------------- the recovery

  const READ0 := LTE0.(cur := 2, net := Net(Chunk(2, 1), []))

  lemma TakenBack(c: Config, b: State)
    requires Example(c) && Early(b, READ0, WIFI1)
    ensures var u := BeforeSizing(c, Detach(b, 1));
            && u.segs == [SEG1.(sub := Pair(Some(HALF0), None))] && u.lastOff == 3 && u.count == 1 && u.completed == 0
            && u.link == Pair(READ0.(idle := true), WIFI1.(enabled := false, net := CLOSED))
            && !u.single && Pool(c, u, Unread(Duties(b.segs, 1), b.link.wifi), TURN2.input) == POOL
  {
    var hs := [SEG1.(sub := Pair(Some(HALF0), None))];
    assert SetSub(b.segs, 0, 1, None) == hs;
    assert FirstAt(hs, 1, 1) == 1;
    assert Trim(hs) == hs;
    assert [SEG1][1..] == [];
    assert Duties(b.segs, 1) == [Duty(1, false, HALF1.chunks, 2)];
    assert Flat(Duties(b.segs, 1)) == HALF1.chunks + [];
  }

  lemma PoolFacts()
    ensures Total(POOL) == 5 && Sort(POOL) == POOL
    ensures TakeBytes(POOL, 2) == FRONT && DropBytes(POOL, 2) == BACK
  {
    assert POOL[1..] == [Chunk(4, 7)] && POOL[1..][1..] == [];
    assert Without(POOL, 0) == [Chunk(4, 7)];
    SortOne(Chunk(4, 7));
    assert MinIndex(POOL) == 0;
    assert TakeBytes(POOL[1..], 1) == [Chunk(4, 4)];
    assert DropBytes(POOL[1..], 1) == BACK;
  }

  lemma Recovered(c: Config, b: State)
    requires Example(c) && Early(b, READ0, WIFI1)
    ensures var r := Subdivide(c, Recover(c, b, 0, TURN2.input), 0, TURN2.input, 0);
            && r.segs == [SEG1.(sub := Pair(Some(HALF0), None)), SEG2] && r.lastOff == 7 && r.count == 2
            && r.completed == 0 && !r.single
            && r.link == Pair(READ0.(idle := true), WIFI1.(enabled := false, net := CLOSED, cursor := Some(2)))
  {
    TakenBack(c, b);
    PoolFacts();
    var rec := Recover(c, b, 0, TURN2.input);
    assert rec.segs == [SEG1.(sub := Pair(Some(HALF0), None)), WHOLE2];
    assert Share(c, rec, 0, 1, 1) == 2;
    assert rec.segs[..1] == [SEG1.(sub := Pair(Some(HALF0), None))];
  }

  const MID0 := READ0.(idle := true, pipelined := true, net := Net(Chunk(2, 1), FRONT))

  lemma Requested(c: Config, r: State)
    requires Example(c)
    requires r.segs == [SEG1.(sub := Pair(Some(HALF0), None)), SEG2] && r.count == 2 && r.completed == 0
    requires r.link == Pair(READ0.(idle := true), WIFI1.(enabled := false, net := CLOSED, cursor := Some(2)))
    ensures CheckLastSegment(c, RequestBoth(c, r, 0)) == r.(link := Pair(MID0, WIFI2))
  {
    assert [] + FRONT == FRONT && [] + BACK == BACK;
    assert BACK[1..] == [];
    var t := RequestBoth(c, r, 0);
    assert t.link == Pair(MID0, WIFI2);
    assert FirstAt(r.segs, 0, 1) == 1;
    assert FirstAt(r.segs, 1, 2) == 2;
  }

  lemma Finished(c: Config, m: State)
    requires Example(c) && m.segs == [SEG1.(sub := Pair(Some(HALF0), None)), SEG2]
    requires m.count == 2 && m.completed == 0 && m.link == Pair(MID0, WIFI2)
    ensures FinishChunk(c, m, 0) == UpdateInorder(c, m.(segs := [SEG2], completed := 1, link := Pair(LTE2, WIFI2)))
  {
    var gs := [SEG1.(sub := Pair(None, None)), SEG2];
    assert Rest([Chunk(0, 1)]) == [];
    assert SetSub(m.segs, 0, 0, None) == gs;
    assert FirstAt(gs, 0, 1) == 1;
    assert FirstAt(gs, 0, 2) == 2;
    assert FRONT[1..] == [Chunk(4, 4)];
    assert gs[1..] == [SEG2];
    assert TrimAll(gs) == [SEG2];
  }

  ghost predicate Late(s: State) {
    && s.segs == [SEG2] && s.lastOff == 7 && s.count == 2 && s.completed == 1 && !s.single
    && s.link == Pair(LTE2, WIFI2) && s.inorder == 3
  }

  lemma ScanLate(c: Config, s: State)
    requires s.segs == [SEG2] && s.link == Pair(LTE2, WIFI2)
    ensures FoundInorder(c, s) == 3
  {
    assert [SEG2][1..] == [];
    assert ConnByte([SEG2], 0, Some(2), 3) == 3;
    assert ConnByte([SEG2], 1, Some(2), 5) == 5;
  }

  lemma Taken(c: Config, b: State)
    requires Example(c) && Early(b, READ0, WIFI1)
    ensures var m := SetupAndRequest(c, b, 0, TURN2.input);
            && m.segs == [SEG1.(sub := Pair(Some(HALF0), None)), SEG2] && m.lastOff == 7 && m.count == 2
            && m.completed == 0 && !m.single && m.link == Pair(MID0, WIFI2)
  {
    Recovered(c, b);
    assert SegAt(b, Some(1)) == SEG1;
    assert DecideRecovery(c, b, 0, TURN2.input);
    assert SetupNext(c, b, 0, TURN2.input)
           == (true, Subdivide(c, Recover(c, b, 0, TURN2.input), 0, TURN2.input, 0));
    Requested(c, SetupNext(c, b, 0, TURN2.input).1);
  }

  lemma Third(c: Config, s: State)
    requires Example(c) && Early(s, LTE0, WIFI1)
    ensures Late(Next(c, s, TURN2))
  {
    var b := Write(c, s, 0, 2);
    assert SetsUp(s, 0, 2);
    Taken(c, b);
    var m := SetupAndRequest(c, b, 0, TURN2.input);
    Finished(c, m);
    ScanLate(c, m.(segs := [SEG2], completed := 1, link := Pair(LTE2, WIFI2)));
  }

  // ---------------------------------------------------------------- the jump

  lemma LateWork(s: State)
    requires Late(s)
    ensures Work(s, 0) == [Duty(2, true, FRONT, 2)] && Work(s, 1) == [Duty(2, true, BACK, 3)]
  {
    OneDuty(SEG2, 0);
    OneDuty(SEG2, 1);
  }

  lemma LateReads(s: State)
    requires Late(s)
    ensures SetsUp(s, 0, 1) && Remaining(s.link.At(0)) == 1
  {
    assert SegAt(s, Some(2)) == SEG2;
  }

  lemma LateSearches(c: Config, s: State, inp: Input)
    requires Example(c) && Late(s) && inp.i == 0 && inp.n == 1
    ensures MidSearch(c, s, inp).Some?
  {
    LateReads(s);
    var b := Write(c, s, 0, 1);
    assert |b.segs| == 1 && OrderCase(b, 0) == OneSegment && !b.link.At(0).lastSegment;
    assert SizingSearch(c, b, 0, inp).Some?;
  }

  lemma LateGoesOn(c: Config, s: State, inp: Input)
    requires Example(c) && ConfigOk(c) && Inv(c, s) && InputOk(c, s, inp) && Late(s) && inp.i == 0 && inp.n == 1
    ensures EndSearch(c, s, inp).None?
  {
    LateReads(s);
    LateWork(s);
    MiddleHead(c, s, inp);
    assert |FRONT| == 2;
  }

  /** The third turn does not search at its end, and jumps in its middle. */
  lemma Jumping(c: Config, s: State, inp: Input)
    requires Example(c) && ConfigOk(c) && Inv(c, s) && InputOk(c, s, inp) && Late(s) && inp.i == 0 && inp.n == 1
    ensures MidSearch(c, s, inp).Some? && EndSearch(c, s, inp).None? && TurnOf(c, s, inp).inorder == 5
  {
    LateSearches(c, s, inp);
    LateGoesOn(c, s, inp);
    LateWork(s);
    MidTurnSafe(c, s, inp);
  }

  // ---------------------------------------------------------------- the run

  lemma Stepped(c: Config, s: State, inp: Input, t: State)
    requires ConfigOk(c) && Inv(c, s) && EventOk(c, s, Turn(inp)) && t == Next(c, s, Turn(inp))
    ensures Inv(c, t) && t.done == s.done + inp.n && t.seen == s.seen && !t.ready
    ensures forall k :: k in t.file <==> k in s.file || InSpan(s.link.At(inp.i).cur, inp.n, k)
  {
    TurnKeeps(c, s, inp);
  }

  /** The download's numbers: bytes read, nothing published yet, and the offsets that are written. */
  ghost predicate Has(s: State, done: int, lo: int, hi: int) {
    s.done == done && s.seen == 0 && !s.ready && forall k :: k in s.file <==> lo <= k < hi
  }

  lemma Begun(c: Config, s: State)
    requires Example(c) && s == Start(c)
    ensures ConfigOk(c) && Inv(c, s) && Safe(c, s) && Early(s, LTE0, WIFI0) && Has(s, 0, 2, 2)
    ensures EventOk(c, s, TURN1)
  {
    First(c);
    StartSafe(c);
    StartShape(c);
  }

  lemma FirstTurn(c: Config, s: State, t: State)
    requires Example(c) && ConfigOk(c) && Inv(c, s) && Safe(c, s) && Early(s, LTE0, WIFI0) && Has(s, 0, 2, 2)
    requires EventOk(c, s, TURN1) && t == Next(c, s, TURN1)
    ensures Inv(c, t) && Early(t, LTE0, WIFI1) && Has(t, 1, 2, 3) && EventOk(c, t, TURN2)
    ensures Safe(c, t) && ChecksHold(c, s, TURN1)
  {
    Second(c, s);
    Stepped(c, s, TURN1.input, t);
    AnyChecks(c, s, TURN1.input);
  }

  lemma SecondTurn(c: Config, s: State, t: State)
    requires Example(c) && ConfigOk(c) && Inv(c, s) && Early(s, LTE0, WIFI1) && Has(s, 1, 2, 3)
    requires EventOk(c, s, TURN2) && t == Next(c, s, TURN2)
    ensures Inv(c, t) && Late(t) && Has(t, 3, 0, 3) && Safe(c, t) && EventOk(c, t, TURN3)
  {
    Third(c, s);
    Stepped(c, s, TURN2.input, t);
  }

  /** Both searches of the second turn find 3. */
  lemma SecondChecked(c: Config, s: State, inp: Input)
    requires Example(c) && ConfigOk(c) && Inv(c, s) && Safe(c, s) && Early(s, LTE0, WIFI1)
    requires InputOk(c, s, inp) && inp.i == 0 && inp.n == 2 && TurnOf(c, s, inp).inorder == 3
    ensures ChecksHold(c, s, Turn(inp))
  {
    OneDuty(SEG1, 1);
    if MidSearch(c, s, inp).Some? { MidAfterChunk(c, s, inp, MidSearch(c, s, inp).value); }
    if EndSearch(c, s, inp).Some? { EndTurnSafe(c, s, inp); }
    AnyChecks(c, s, inp);
  }

  lemma ThirdTurn(c: Config, s: State, t: State)
    requires Example(c) && ConfigOk(c) && Inv(c, s) && Late(s) && Has(s, 3, 0, 3) && Safe(c, s)
    requires EventOk(c, s, TURN3) && t == Next(c, s, TURN3)
    ensures Inv(c, t) && t.inorder == 5 && Has(t, 4, 0, 4) && ChecksHold(c, s, TURN3)
  {
    Jumping(c, s, TURN3.input);
    Stepped(c, s, TURN3.input, t);
    AnyChecks(c, s, TURN3.input);
  }

  /** The three turns. */
  lemma Turns3(c: Config) returns (s1: State, s2: State, s3: State)
    requires Example(c)
    ensures ConfigOk(c) && EventOk(c, Start(c), TURN1) && EventOk(c, s1, TURN2) && EventOk(c, s2, TURN3)
    ensures s1 == Next(c, Start(c), TURN1) && s2 == Next(c, s1, TURN2) && s3 == Next(c, s2, TURN3)
    ensures Inv(c, s3) && s3.inorder == 5 && Has(s3, 4, 0, 4)
  {
    Begun(c, Start(c));
    s1 := Next(c, Start(c), TURN1);
    FirstTurn(c, Start(c), s1);
    s2 := Next(c, s1, TURN2);
    SecondTurn(c, s1, s2);
    s3 := Next(c, s2, TURN3);
    ThirdTurn(c, s2, s3);
  }

  lemma ChecksCons(c: Config, s: State, e: Event, t: State, es: seq<Event>, all: seq<Event>)
    requires ChecksHold(c, s, e) && t == Next(c, s, e) && AllChecksHold(c, t, es) && all == [e] + es
    ensures AllChecksHold(c, s, all)
  {
    assert all[0] == e && all[1..] == es;
  }

  lemma Publishes(c: Config, s: State, t: State)
    requires Example(c) && s.inorder == 5 && Has(s, 4, 0, 4) && t == EndPassOf(c, s)
    ensures EventOk(c, s, EndPass) && ChecksHold(c, s, EndPass) && Next(c, s, EndPass) == t
    ensures t.seen == 5 && 4 !in t.file
  {
  }

  ghost predicate IsRun(es: seq<Event>) { es == [TURN1, TURN2, TURN3, EndPass] }

  lemma RunAllowed(c: Config, es: seq<Event>)
    requires Example(c) && IsRun(es)
    ensures Run(c, Start(c), es) && After(c, Start(c), es).seen == 5 && 4 !in After(c, Start(c), es).file
  {
    var s1, s2, s3 := Turns3(c);
    var t := EndPassOf(c, s3);
    Publishes(c, s3, t);
    RunFour(c, Start(c), TURN1, TURN2, TURN3, EndPass, s1, t);
  }

  /** The last two events. */
  lemma TailChecked(c: Config, s: State, e: Event, t: State, es: seq<Event>)
    requires Example(c) && ChecksHold(c, s, e) && t == Next(c, s, e) && t.inorder == 5 && Has(t, 4, 0, 4)
    requires es == [e] + [EndPass]
    ensures AllChecksHold(c, s, es)
  {
    var u := EndPassOf(c, t);
    Publishes(c, t, u);
    assert AllChecksHold(c, u, []);
    ChecksCons(c, t, EndPass, u, [], [EndPass]);
    ChecksCons(c, s, e, t, [EndPass], es);
  }

  lemma ThirdChecked(c: Config, s: State, es: seq<Event>)
    requires Example(c) && ConfigOk(c) && Inv(c, s) && Late(s) && Has(s, 3, 0, 3) && Safe(c, s)
    requires EventOk(c, s, TURN3) && es == [TURN3] + [EndPass]
    ensures AllChecksHold(c, s, es)
  {
    var t := Next(c, s, TURN3);
    ThirdTurn(c, s, t);
    TailChecked(c, s, TURN3, t, es);
  }

  lemma TwoChecked(c: Config, s: State, es: seq<Event>, all: seq<Event>)
    requires Example(c) && ConfigOk(c) && Inv(c, s) && Safe(c, s) && Early(s, LTE0, WIFI1) && Has(s, 1, 2, 3)
    requires EventOk(c, s, TURN2) && es == [TURN3] + [EndPass] && all == [TURN2] + es
    ensures AllChecksHold(c, s, all)
  {
    var t := Next(c, s, TURN2);
    SecondTurn(c, s, t);
    SecondChecked(c, s, TURN2.input);
    ThirdChecked(c, t, es);
    ChecksCons(c, s, TURN2, t, es, all);
  }

  lemma OneChecked(c: Config, s: State, es: seq<Event>, rest: seq<Event>, all: seq<Event>)
    requires Example(c) && ConfigOk(c) && Inv(c, s) && Safe(c, s) && Early(s, LTE0, WIFI0) && Has(s, 0, 2, 2)
    requires EventOk(c, s, TURN1) && es == [TURN3] + [EndPass] && rest == [TURN2] + es && all == [TURN1] + rest
    ensures AllChecksHold(c, s, all)
  {
    var t := Next(c, s, TURN1);
    FirstTurn(c, s, t);
    TwoChecked(c, t, es, rest);
    ChecksCons(c, s, TURN1, t, rest, all);
  }

  lemma RunChecked(c: Config, es: seq<Event>)
    requires Example(c) && IsRun(es)
    ensures AllChecksHold(c, Start(c), es)
  {
    Begun(c, Start(c));
    OneChecked(c, Start(c), es[2..], es[1..], es);
  }

  /** A run of three turns and a pass whose checks all hold publishes offset 5 while byte 4 is
      missing: the offset was cached in the middle of the third turn, which then does not search. */
  lemma JumpPublishes(c: Config) returns (es: seq<Event>)
    requires Example(c)
    ensures ConfigOk(c) && c.recovery && !c.fixedSegment && es == [TURN1, TURN2, TURN3, EndPass]
    ensures Run(c, Start(c), es) && AllChecksHold(c, Start(c), es)
    ensures After(c, Start(c), es).seen == 5 && 4 !in After(c, Start(c), es).file
  {
    First(c);
    es := [TURN1, TURN2, TURN3, EndPass];
    RunAllowed(c, es);
    RunChecked(c, es);
  }

  /** So the proxy, which reads to the published offset, sends a zero for that byte. */
  lemma ZeroIsSent(c: Config) returns (js: seq<Proxy.Joint>)
    requires Example(c)
    ensures Proxy.JointRun(c, Proxy.Opened(c), js)
    ensures var z := Proxy.JointAfter(c, Proxy.Opened(c), js); |z.p.out| == 5 && z.p.out[4] == 0 && 4 !in z.s.file
  {
    var es := JumpPublishes(c);
    var y := Proxy.System(After(c, Start(c), es), Proxy.OPENED);
    Proxy.DownloadsRun(c, Proxy.Opened(c), es);
    var one := Sent(c, y);
    Proxy.JointAppend(c, Proxy.Opened(c), Proxy.Downloads(es), one);
    js := Proxy.Downloads(es) + one;
  }

  lemma Sent(c: Config, y: Proxy.System) returns (js: seq<Proxy.Joint>)
    requires Example(c) && y.p == Proxy.OPENED && y.s.seen == 5 && 4 !in y.s.file
    ensures Proxy.JointRun(c, y, js)
    ensures var z := Proxy.JointAfter(c, y, js); |z.p.out| == 5 && z.p.out[4] == 0 && z.s == y.s
  {
    var j := Proxy.Proxy(5, 5);
    var z := Proxy.JointNext(c, y, j);
    assert z.p.out == [] + Proxy.ReadFile(y.s.file, 0, 5);
    assert Proxy.JointRun(c, z, []);
    Proxy.JointCons(c, y, j, []);
    js := [j] + [];
  }
}
