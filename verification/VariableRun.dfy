/** A concrete run in variable segment mode, recovery off, in which the check of the search at the
    end of a turn fails (src/gb.c:804-808). */
module VariableRun {
  import opened Pairs
  import opened Chunks
  import opened Scheduler
  import opened DutyLemmas
  import opened Invariant
  import opened Setup
  import opened Turns
  import PlainRuns
  import VariableMode
  import Searches

  /** The configuration of the example: any file of 8 bytes, two bytes in the first segment. */
  ghost predicate Example(c: Config) {
    c.Size() == 8 && c == Config(c.server, 2, false, false, Pair(1, 1), false, false, 5120)
  }

  /** Link 0 is fast, link 1 has no goodput: every new segment goes to link 0. */
  function Reads(i: Link, n: nat): Input { Input(i, n, Pair(1, 0), false, 0, 2) }

  // Both links finish their half of the first segment; then link 0 finishes two more segments.
  const TURN1 := Turn(Reads(0, 1))
  const TURN2 := Turn(Reads(1, 1))
  const TURN3 := Turn(Reads(0, 2))
  const TURN4 := Turn(Reads(0, 2))

  function Both(a: int): Seg {
    Seg(1, false, [Chunk(0, 1)], 2,
        Pair(if a == 0 then Some(Subsegment([Chunk(0, 0)], 1)) else None, Some(Subsegment([Chunk(1, 1)], 1))))
  }

  function Fresh(id: nat, start: int): Seg { Seg(id, false, [Chunk(start, start + 1)], 2, Pair(None, None)) }

  function Fast(id: nat, start: int): Seg {
    Fresh(id, start).(sub := Pair(Some(Subsegment([Chunk(start, start + 1)], 2)), None))
  }

  const LTE0 := Conn(0, 0, true, false, false, Some(1), false, Net(Chunk(0, 0), []))
  const WIFI0 := Conn(1, 1, true, false, false, Some(1), false, Net(Chunk(1, 1), []))
  const LTE1 := Conn(2, 3, true, false, false, Some(2), false, Net(Chunk(2, 3), []))
  const LTE2 := Conn(2, 3, true, true, false, Some(2), false, Net(Chunk(2, 3), [Chunk(4, 5)]))
  const LTE3 := Conn(4, 5, true, false, false, Some(3), false, Net(Chunk(4, 5), []))
  const WIFI2 := Conn(2, 1, false, false, false, None, true, Net(Chunk(2, 1), []))

  ghost predicate Is0(c: Config, s: State) {
    && s.segs == [Both(0)] && s.lastOff == 1 && s.count == 1 && s.completed == 0 && !s.single
    && s.link == Pair(LTE0, WIFI0)
  }

  ghost predicate Is1(c: Config, s: State) {
    && s.segs == [Both(1), Fast(2, 2)] && s.lastOff == 3 && s.count == 2 && s.completed == 0 && !s.single
    && s.link == Pair(LTE1, WIFI0)
  }

  ghost predicate Is2(c: Config, s: State) {
    && s.segs == [Fast(2, 2), Fast(3, 4)] && s.lastOff == 5 && s.count == 3 && s.completed == 1 && !s.single
    && s.link == Pair(LTE2, WIFI2)
  }

  ghost predicate Is3(c: Config, s: State) {
    && s.segs == [Fast(3, 4)] && s.lastOff == 5 && s.count == 3 && s.completed == 2 && !s.single
    && s.link == Pair(LTE3, WIFI2)
  }

  lemma First(c: Config)
    requires Example(c)
    ensures ConfigOk(c) && Is0(c, Start(c))
  {
    StartShape(c);
  }

  // ---------------------------------------------------------------- adding a segment

  /** A new segment that link 0 gets whole. */
  lemma AllToFast(c: Config, b: State, i: Link, inp: Input)
    requires Example(c) && b.segs != [] && 0 <= b.lastOff && inp == Reads(i, inp.n) && !b.single
    requires Share(c, AddNext(c, b, 2), i, if i == 0 then 1 else 0, if i == 0 then 0 else 1)
             == (if i == 0 then 2 else 0)
    ensures MakeSegment(c, b, i, inp, 2)
            == b.(segs := b.segs + [Fast(b.count + 1, b.lastOff + 1)], count := b.count + 1, lastOff := b.lastOff + 2)
  {
    var s2 := AddNext(c, b, 2);
    var ch := Chunk(b.lastOff + 1, b.lastOff + 2);
    AddNextShape(c, b, 2);
    assert [ch][1..] == [];
    assert TakeBytes([ch], 2) == [ch];
    assert s2.segs[..|s2.segs| - 1] == b.segs;
    assert MakeSegment(c, b, i, inp, 2)
           == AddSubsegments(c, s2, i, if i == 0 then 1 else 0, if i == 0 then 0 else 1, 0);
  }

  // ---------------------------------------------------------------- the first turn

  ghost predicate Read1(b: State) {
    && b.segs == [Both(0)] && b.lastOff == 1 && b.count == 1 && b.completed == 0 && !b.single
    && b.link == Pair(LTE0.(cur := 1, idle := true, net := Net(Chunk(1, 0), [])), WIFI0)
  }

  lemma Made1(c: Config, b: State)
    requires Example(c) && Read1(b)
    ensures MakeSegment(c, b, 0, TURN1.input, 2) == b.(segs := [Both(0), Fast(2, 2)], count := 2, lastOff := 3)
  {
    var s2 := AddNext(c, b, 2);
    AddNextShape(c, b, 2);
    assert Contribution(s2, 0, 0) == 0;
    assert Contribution(s2, 0, 1) == 1;
    assert VirtualSize(s2, 0) == 3;
    assert Share(c, s2, 0, 1, 0) == 2;
    AllToFast(c, b, 0, TURN1.input);
  }

  lemma Setup1(c: Config, s1: State)
    requires Example(c) && Read1(UpdateInorder(c, s1)) && s1.segs == [Both(0)] && !s1.link.lte.lastSegment
    ensures SetupNext(c, s1, 0, TURN1.input)
            == (true, UpdateInorder(c, s1).(segs := [Both(0), Fast(2, 2)], count := 2, lastOff := 3))
  {
    var b := UpdateInorder(c, s1);
    Made1(c, b);
    assert NextSize(c, b, TURN1.input) == 2;
    assert OrderCase(s1, 0) == OneSegment;
  }

  lemma Requested1(c: Config, s: State)
    requires Example(c) && s.segs == [Both(0), Fast(2, 2)] && s.count == 2 && s.completed == 0
    requires s.link == Pair(LTE0.(cur := 1, idle := true, net := Net(Chunk(1, 0), [])), WIFI0)
    ensures CheckLastSegment(c, RequestBoth(c, s, 0))
            == s.(link := Pair(s.link.lte.(pipelined := true, net := Net(Chunk(1, 0), [Chunk(2, 3)])), WIFI0))
  {
    var t := RequestBoth(c, s, 0);
    assert t.link.lte.net.pending == [Chunk(2, 3)];
    assert t.link.wifi == s.link.wifi;
    assert FirstAt(s.segs, 0, 1) == 1;
    assert FirstAt(s.segs, 1, 1) == 2;
  }

  lemma Finished1(c: Config, s: State)
    requires Example(c) && s.segs == [Both(0), Fast(2, 2)] && s.count == 2 && s.completed == 0
    requires s.lastOff == 3 && !s.single
    requires s.link == Pair(LTE0.(cur := 1, idle := true, pipelined := true,
                                  net := Net(Chunk(1, 0), [Chunk(2, 3)])), WIFI0)
    ensures Is1(c, FinishChunk(c, s, 0))
  {
    var gs := [Both(1), Fast(2, 2)];
    assert Rest([Chunk(0, 0)]) == [];
    assert SetSub(s.segs, 0, 0, None) == gs;
    assert FirstAt(gs, 0, 1) == 1;
    assert FirstAt(gs, 0, 2) == 2;
    assert [Chunk(2, 3)][1..] == [];
    assert TrimAll(gs) == gs;
  }

  lemma Second(c: Config, s: State)
    requires Example(c) && Is0(c, s)
    ensures Is1(c, Next(c, s, TURN1))
  {
    var s1 := Write(c, s, 0, 1);
    assert SetsUp(s, 0, 1);
    assert Read1(UpdateInorder(c, s1));
    Setup1(c, s1);
    var s2 := UpdateInorder(c, s1).(segs := [Both(0), Fast(2, 2)], count := 2, lastOff := 3);
    Requested1(c, s2);
    Finished1(c, SetupAndRequest(c, s1, 0, TURN1.input));
  }

  // ---------------------------------------------------------------- the second turn

  ghost predicate Read2(b: State) {
    && b.segs == [Both(1), Fast(2, 2)] && b.lastOff == 3 && b.count == 2 && b.completed == 0 && !b.single
    && b.link == Pair(LTE1, WIFI0.(cur := 2, idle := true, net := Net(Chunk(2, 1), [])))
  }

  lemma Made2(c: Config, b: State)
    requires Example(c) && Read2(b)
    ensures MakeSegment(c, b, 1, TURN2.input, 2)
            == b.(segs := [Both(1), Fast(2, 2), Fast(3, 4)], count := 3, lastOff := 5)
  {
    var s2 := AddNext(c, b, 2);
    AddNextShape(c, b, 2);
    assert Share(c, s2, 1, 0, 1) == 0;
    AllToFast(c, b, 1, TURN2.input);
    assert b.segs + [Fast(3, 4)] == [Both(1), Fast(2, 2), Fast(3, 4)];
  }

  lemma Setup2(c: Config, s1: State)
    requires Example(c) && Read2(UpdateInorder(c, s1)) && s1.segs == [Both(1), Fast(2, 2)]
    requires !s1.link.wifi.lastSegment && s1.link.wifi.cursor == Some(1) && !s1.single
    ensures SetupNext(c, s1, 1, TURN2.input)
            == (true, UpdateInorder(c, s1).(segs := [Both(1), Fast(2, 2), Fast(3, 4)], count := 3, lastOff := 5))
  {
    var b := UpdateInorder(c, s1);
    Made2(c, b);
    assert NextSize(c, b, TURN2.input) == 2;
    assert OrderCase(s1, 1) == Behind;
  }

  lemma Requested2(c: Config, s: State)
    requires Example(c) && s.segs == [Both(1), Fast(2, 2), Fast(3, 4)] && s.count == 3 && s.completed == 0
    requires s.link == Pair(LTE1, WIFI0.(cur := 2, idle := true, net := Net(Chunk(2, 1), [])))
    ensures CheckLastSegment(c, RequestBoth(c, s, 1)) == s.(link := Pair(LTE2, s.link.wifi))
  {
    var t := RequestBoth(c, s, 1);
    assert t.link.wifi == s.link.wifi;
    assert t.link.lte.net.pending == [Chunk(4, 5)];
    assert FirstAt(s.segs, 0, 2) == 2;
    assert FirstAt(s.segs, 1, 1) == 3;
  }

  lemma Finished2(c: Config, s: State)
    requires Example(c) && s.segs == [Both(1), Fast(2, 2), Fast(3, 4)] && s.count == 3 && s.completed == 0
    requires s.lastOff == 5 && !s.single
    requires s.link == Pair(LTE2, WIFI0.(cur := 2, idle := true, net := Net(Chunk(2, 1), [])))
    ensures Is2(c, FinishChunk(c, s, 1))
  {
    var gs := [Both(1).(sub := Pair(None, None)), Fast(2, 2), Fast(3, 4)];
    assert Rest([Chunk(1, 1)]) == [];
    assert SetSub(s.segs, 0, 1, None) == gs;
    assert gs[1..] == [Fast(2, 2), Fast(3, 4)];
    assert TrimAll(gs) == gs[1..];
  }

  lemma Third(c: Config, s: State)
    requires Example(c) && Is1(c, s)
    ensures Is2(c, Next(c, s, TURN2))
  {
    var s1 := Write(c, s, 1, 1);
    assert SetsUp(s, 1, 1);
    assert Read2(UpdateInorder(c, s1));
    Setup2(c, s1);
    var s2 := UpdateInorder(c, s1).(segs := [Both(1), Fast(2, 2), Fast(3, 4)], count := 3, lastOff := 5);
    Requested2(c, s2);
    Finished2(c, SetupAndRequest(c, s1, 1, TURN2.input));
  }

  // ---------------------------------------------------------------- the third turn

  lemma Fourth(c: Config, s: State)
    requires Example(c) && Is2(c, s)
    ensures Is3(c, Next(c, s, TURN3))
  {
    var m := Write(c, s, 0, 2);
    assert !SetsUp(s, 0, 2);
    var gs := [Fast(2, 2).(sub := Pair(None, None)), Fast(3, 4)];
    assert Rest([Chunk(2, 3)]) == [];
    assert SetSub(m.segs, 0, 0, None) == gs;
    assert FirstAt(gs, 0, 1) == 1;
    assert FirstAt(gs, 0, 2) == 2;
    assert [Chunk(4, 5)][1..] == [];
    assert gs[1..] == [Fast(3, 4)];
    assert TrimAll(gs) == gs[1..];
  }

  // ---------------------------------------------------------------- the fourth turn

  lemma AllTurns(c: Config) returns (s1: State, s2: State, s3: State)
    requires Example(c)
    ensures ConfigOk(c) && EventOk(c, Start(c), TURN1) && EventOk(c, s1, TURN2)
    ensures EventOk(c, s2, TURN3) && EventOk(c, s3, TURN4)
    ensures s1 == Next(c, Start(c), TURN1) && s2 == Next(c, s1, TURN2) && s3 == Next(c, s2, TURN3) && Is3(c, s3)
  {
    First(c);
    StartShape(c);
    StartOk(c);
    s1 := Next(c, Start(c), TURN1);
    Second(c, Start(c));
    TurnKeeps(c, Start(c), TURN1.input);
    s2 := Next(c, s1, TURN2);
    Third(c, s1);
    TurnKeeps(c, s1, TURN2.input);
    s3 := Next(c, s2, TURN3);
    Fourth(c, s2);
    TurnKeeps(c, s2, TURN3.input);
  }

  lemma SearchesAlone(c: Config, s: State)
    requires Example(c) && Is3(c, s)
    ensures Searches.MidSearch(c, s, TURN4.input).Some? && VariableMode.EndsAlone(s, 0, 2) && s.lastOff < c.Size() - 2
  {
  }

  /** Three turns lead to a state in which the next read fails the check: the size policy finds both
      links idle and caches the last offset, the end of the turn finds an earlier one. */
  lemma CheckFails(c: Config)
    requires Example(c)
    ensures ConfigOk(c) && !c.fixedSegment && !c.recovery
    ensures var es := [TURN1, TURN2, TURN3];
            && Run(c, Start(c), es) && EventOk(c, After(c, Start(c), es), TURN4)
            && !Searches.ChecksHold(c, After(c, Start(c), es), TURN4)
  {
    var s1, s2, s3 := AllTurns(c);
    RunThree(c, Start(c), TURN1, TURN2, TURN3, s3);
    SearchesAlone(c, s3);
    Searches.ChecksIff(c, [TURN1, TURN2, TURN3], TURN4.input);
  }
}
