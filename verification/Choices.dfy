/**
 * What a turn chooses, in terms of the state before it and of its inputs alone: when the next
 * segment is set up, whether the other link's work is taken back, where the segment ends, and which
 * link mode follows (src/algo_general.c:61-63, src/gb.c:522-580, src/gb.c:644-691,
 * src/recovery.c:56-91).
 */
module Choices {
  import opened Pairs
  import opened Chunks
  import opened Scheduler
  import opened DutyLemmas
  import opened Invariant
  import opened Finishing
  import opened Assigning
  import opened Setup
  import opened Turns
  import opened Balance
  import opened Dividing

  /** It is time for the next segment: the link has nothing further requested and is not marked
      idle, and it has read its chunk to the end, or the bytes left before the read and one more are
      at most a tenth of its subsegment. */
  ghost predicate Due(s: State, i: Link, n: nat) {
    var l := s.link.At(i);
    && Work(s, i) != [] && !l.pipelined && !l.idle
    && (n == l.last - l.cur + 1 || 10 * (l.last - l.cur + 2) <= Work(s, i)[0].size)
  }

  /** The link works on the newest segment. */
  ghost predicate Newest(s: State, i: Link) { Work(s, i) != [] && Work(s, i)[0].id == s.count }

  /** The finishing link, its cursor now at `cur`, takes the other link's work back. */
  ghost predicate RecoveryDue(c: Config, s: State, inp: Input, cur: int) {
    var i, o := inp.i, Other(inp.i);
    && c.recovery && !s.single && inp.wantRecovery && Faster(inp.goodput, i)
    && Newest(s, i) && Work(s, o) != []
    && !(Work(s, i)[0].recovery && Work(s, o)[0].recovery)
    && (|s.segs| == 1 ==> cur < s.link.At(o).cur)
  }

  /** The set-up, once due, adds a segment. */
  ghost predicate Allowed(c: Config, s: State, inp: Input, cur: int) {
    && !s.link.At(inp.i).lastSegment
    && (s.single ==> Newest(s, inp.i))
    && (RecoveryDue(c, s, inp, cur) || s.lastOff < c.Size() - 1)
  }

  /** The size asked for: the policy's, or the initial one, halved while one link is marked idle. */
  function AskedSize(c: Config, s: State, recovery: bool, inp: Input): int {
    if !c.fixedSegment then inp.policy
    else if !recovery && s.link.lte.idle != s.link.wifi.idle then c.initSeg / 2
    else c.initSeg
  }

  /** The segment that `t` has and `s` has not: recovered or not, where it ends, and the link mode. */
  ghost predicate Added(c: Config, s: State, t: State, recovery: bool, inp: Input) {
    && t.count == s.count + 1 && t.segs != []
    && Tail(t).id == t.count && Tail(t).recovery == recovery && !Tail(t).Finished()
    && EndsAt(c, s.lastOff, AskedSize(c, s, recovery, inp), t.lastOff)
    && t.single == if !recovery && c.minEnergy && s.completed > 0 then inp.mode != 0 else s.single
  }

  /** No segment is added. */
  predicate Unchosen(s: State, t: State) { t.count == s.count && t.lastOff == s.lastOff && t.single == s.single }

  // ---------------------------------------------------------------- the moment

  lemma DueIff(c: Config, s: State, inp: Input)
    requires Inv(c, s) && InputOk(c, s, inp)
    ensures Work(s, inp.i) != [] && (SetsUp(s, inp.i, inp.n) <==> Due(s, inp.i, inp.n))
  {
    InvBoth(c, s, inp.i);
    CursorSeg(s, inp.i, false);
  }

  // ---------------------------------------------------------------- the order of the links

  lemma OrderIs(c: Config, b: State, i: Link)
    requires Window(b.segs, b.count, b.completed) && LinkOk(Work(b, i), b.link.At(i), true) && Work(b, i) != []
    ensures OrderCase(b, i) == if |b.segs| == 1 then OneSegment else if Newest(b, i) then Ahead else Behind
    ensures |b.segs| == 1 ==> Newest(b, i)
  {
    CursorSeg(b, i, true);
    TailId(b);
  }

  lemma DecideIs(c: Config, b: State, inp: Input)
    requires Window(b.segs, b.count, b.completed) && LinkOk(Work(b, inp.i), b.link.At(inp.i), true)
    requires LinkOk(Work(b, Other(inp.i)), b.link.At(Other(inp.i)), false) && Work(b, inp.i) != []
    ensures var i, o := inp.i, Other(inp.i);
            DecideRecovery(c, b, i, inp) <==>
            && c.recovery && !b.single && inp.wantRecovery && Faster(inp.goodput, i) && Work(b, o) != []
            && !(Work(b, i)[0].recovery && Work(b, o)[0].recovery)
  {
    CursorSeg(b, inp.i, true);
    if Work(b, Other(inp.i)) != [] { CursorSeg(b, Other(inp.i), false); }
  }

  lemma RecoversIs(c: Config, b: State, inp: Input)
    requires Window(b.segs, b.count, b.completed) && LinkOk(Work(b, inp.i), b.link.At(inp.i), true)
    requires LinkOk(Work(b, Other(inp.i)), b.link.At(Other(inp.i)), false) && Work(b, inp.i) != []
    ensures Recovers(c, b, inp.i, inp) <==> RecoveryDue(c, b, inp, b.link.At(inp.i).cur)
  {
    OrderIs(c, b, inp.i);
    DecideIs(c, b, inp);
  }

  // ---------------------------------------------------------------- what the set-up makes

  lemma SubdivideKeeps(c: Config, s: State, i: Link, inp: Input, mode: int)
    ensures var r := Subdivide(c, s, i, inp, mode);
            r.single == s.single && r.count == s.count && r.lastOff == s.lastOff
  {
  }

  lemma MadeMode(c: Config, b: State, i: Link, inp: Input, n: int)
    ensures MakeSegment(c, b, i, inp, n).single
            == if c.minEnergy && b.completed > 0 then inp.mode != 0 else b.single
  {
    var s2 := AddNext(c, b, n);
    SubdivideKeeps(c, s2.(single := inp.mode != 0), i, inp, inp.mode);
    SubdivideKeeps(c, s2, i, inp, 0);
  }

  lemma SizeEnds(c: Config, b: State, inp: Input)
    ensures EndsAt(c, b.lastOff, AskedSize(c, b, false, inp), b.lastOff + NextSize(c, b, inp))
  {
  }

  lemma NewAdded(c: Config, b: State, i: Link, inp: Input)
    requires ConfigOk(c) && inp.policy >= c.initSeg && Core(c, b, i, true) && b.lastOff < c.Size() - 1
    ensures var n := NextSize(c, b, inp);
            n != 0 && Added(c, b, MakeSegment(c, b, i, inp, n), false, inp)
  {
    var n := NextSize(c, b, inp);
    NextSizeTiles(c, b, inp);
    NewSegmentTail(c, b, i, inp, n);
    MadeMode(c, b, i, inp, n);
    SizeEnds(c, b, inp);
  }

  /** An ordinary next segment, or none at the end of the file. */
  lemma OrdinaryChosen(c: Config, b: State, i: Link, inp: Input)
    requires ConfigOk(c) && inp.policy >= c.initSeg && Core(c, b, i, true)
    ensures var r := NewSegment(c, b, i, inp).1;
            if b.lastOff < c.Size() - 1 then Added(c, b, r, false, inp) else Unchosen(b, r)
  {
    var u := BeforeSizing(c, b);
    BeforeSizingKeeps(c, b, i);
    if b.lastOff < c.Size() - 1 {
      NewAdded(c, u, i, inp);
      assert AskedSize(c, u, false, inp) == AskedSize(c, b, false, inp);
    } else {
      NextSizeTiles(c, u, inp);
    }
  }

  lemma DetachKeepsMode(c: Config, s: State, o: Link)
    ensures BeforeSizing(c, Detach(s, o)).single == s.single
  {
  }

  lemma RecoveryAdded(c: Config, s: State, b: State, inp: Input, r: State, list: seq<Chunk>, hi: int)
    requires b.count == s.count && b.lastOff == s.lastOff && b.single == s.single
    requires r == b.(segs := b.segs + [Tail(r)], count := b.count + 1, lastOff := hi, link := r.link)
    requires Same(Tail(r), NewSeg(b, true, Sort(list), Total(list))) && !Tail(r).Finished()
    requires hi == b.lastOff + Extension(c, b, if c.fixedSegment then c.initSeg else inp.policy)
    ensures Added(c, s, r, true, inp)
  {
  }

  lemma RecoveryChosen(c: Config, s: State, inp: Input)
    requires ConfigOk(c) && inp.policy >= c.initSeg && Core(c, s, inp.i, true) && Work(s, Other(inp.i)) != []
    ensures Added(c, s, Subdivide(c, Recover(c, s, inp.i, inp), inp.i, inp, 0), true, inp)
  {
    var b, list, hi, r := RecoveryParts(c, s, inp);
    DetachKeepsMode(c, s, Other(inp.i));
    RecoveryAdded(c, s, b, inp, r, list, hi);
  }

  lemma RecoveryParts(c: Config, s: State, inp: Input) returns (b: State, list: seq<Chunk>, hi: int, r: State)
    requires ConfigOk(c) && inp.policy >= c.initSeg && Core(c, s, inp.i, true) && Work(s, Other(inp.i)) != []
    ensures b == BeforeSizing(c, Detach(s, Other(inp.i))) && b.count == s.count && b.lastOff == s.lastOff
    ensures r == Subdivide(c, Recover(c, s, inp.i, inp), inp.i, inp, 0)
    ensures r == b.(segs := b.segs + [Tail(r)], count := b.count + 1, lastOff := hi, link := r.link)
    ensures Same(Tail(r), NewSeg(b, true, Sort(list), Total(list))) && !Tail(r).Finished()
    ensures hi == b.lastOff + Extension(c, b, if c.fixedSegment then c.initSeg else inp.policy)
  {
    var i := inp.i;
    b := BeforeSizing(c, Detach(s, Other(i)));
    list := Pool(c, b, Left(s, Other(i)), inp);
    hi := b.lastOff + Extension(c, b, if c.fixedSegment then c.initSeg else inp.policy);
    r := Subdivide(c, Recover(c, s, i, inp), i, inp, 0);
    BaseDetached(c, s, i);
    RecoverTail(c, s, b, i, inp, list, hi);
  }

  /** The energy policy refuses only what has no byte to hand out. */
  lemma EnergyRefusal(c: Config, b: State)
    requires Shape(c, b) && b.segs != [] && LastOf(Tail(b).chunks).last == c.Size() - 1
    ensures b.lastOff == c.Size() - 1
  {
    assert Tail(b) in b.segs;
  }

  /** The whole set-up, once due. */
  lemma SetupChosen(c: Config, b: State, inp: Input)
    requires ConfigOk(c) && inp.policy >= c.initSeg && InvFrom(c, b, inp.i, true) && Work(b, inp.i) != []
    ensures var r, cur := SetupNext(c, b, inp.i, inp).1, b.link.At(inp.i).cur;
            if Allowed(c, b, inp, cur) then Added(c, b, r, RecoveryDue(c, b, inp, cur), inp) else Unchosen(b, r)
  {
    var i := inp.i;
    OrderIs(c, b, i);
    RecoversIs(c, b, inp);
    if b.link.At(i).lastSegment || (OrderCase(b, i) == Behind && b.single) {
    } else if Recovers(c, b, i, inp) {
      RecoveryChosen(c, b, inp);
    } else if OrderCase(b, i) == Ahead && c.minEnergy && LastOf(Tail(b).chunks).last == c.Size() - 1 {
      EnergyRefusal(c, b);
    } else {
      OrdinaryChosen(c, b, i, inp);
    }
  }

  lemma RequestKeeps(c: Config, b: State, i: Link, inp: Input)
    ensures var t, r := SetupAndRequest(c, b, i, inp), SetupNext(c, b, i, inp).1;
            t.segs == r.segs && t.count == r.count && t.lastOff == r.lastOff && t.single == r.single
  {
  }

  // ---------------------------------------------------------------- from the middle of the turn to its end

  lemma {:induction false} TrimKeepsTail(gs: seq<Seg>)
    requires gs != [] && !gs[|gs| - 1].Finished()
    ensures TrimAll(gs) != [] && TrimAll(gs)[|TrimAll(gs)| - 1] == gs[|gs| - 1]
  {
    if gs[0].Finished() { TrimKeepsTail(gs[1..]); }
  }

  lemma SetKeepsTail(gs: seq<Seg>, k: nat, i: Link, q: Option<Subsegment>)
    requires k < |gs| - 1
    ensures var hs := SetSub(gs, k, i, q); |hs| == |gs| && hs[|hs| - 1] == gs[|gs| - 1]
  {
  }

  /** A link whose segment is not the newest one is not at the tail. */
  lemma NotAtTail(m: State, i: Link)
    requires Tracked(m, i) && Work(m, i) != [] && !Newest(m, i)
    ensures FirstAt(m.segs, i, 0) < |m.segs| - 1
  {
    CursorSeg(m, i, true);
    TailId(m);
  }

  lemma ClosedKeepsTail(c: Config, m: State, i: Link)
    requires Tracked(m, i) && Work(m, i) != [] && !Newest(m, i) && !Tail(m).Finished()
    ensures var t := Closed(c, m, i); t.segs != [] && Tail(t) == Tail(m)
  {
    NotAtTail(m, i);
    SetKeepsTail(m.segs, FirstAt(m.segs, i, 0), i, None);
    TrimKeepsTail(SetSub(m.segs, FirstAt(m.segs, i, 0), i, None));
    ClosedShape(c, m, i);
  }

  lemma MoreKeepsTail(c: Config, m: State, i: Link, d: Duty)
    requires Tracked(m, i) && Work(m, i) != [] && d == Work(m, i)[0] && |d.chunks| > 1 && !Newest(m, i)
    ensures var t := FinishChunk(c, m, i); t.segs != [] && Tail(t) == Tail(m)
  {
    NotAtTail(m, i);
    SetKeepsTail(m.segs, FirstAt(m.segs, i, 0), i, Some(Subsegment(d.chunks[1..], d.size)));
    MoreChunksShape(c, m, i);
  }

  /** Finishing a chunk of an older segment leaves the tail alone. */
  lemma FinishKeepsTail(c: Config, m: State, i: Link)
    requires Tracked(m, i) && Work(m, i) != [] && Work(m, i)[0].chunks != [] && !Newest(m, i)
    requires m.segs != [] && !Tail(m).Finished()
    ensures var t := FinishChunk(c, m, i); t.segs != [] && Tail(t) == Tail(m)
  {
    if |Work(m, i)[0].chunks| > 1 {
      MoreKeepsTail(c, m, i, Work(m, i)[0]);
    } else {
      LastChunkShape(c, m, i);
      ClosedKeepsTail(c, m, i);
    }
  }

  lemma FinishKeepsMode(c: Config, m: State, i: Link)
    requires Tracked(m, i) && Work(m, i) != [] && Work(m, i)[0].chunks != []
    ensures FinishChunk(c, m, i).single == m.single
  {
    if |Work(m, i)[0].chunks| > 1 {
      MoreChunksShape(c, m, i);
    } else {
      LastChunkShape(c, m, i);
      ClosedShape(c, m, i);
    }
  }

  /** The read changes nothing that the choices depend on but the cursor. */
  lemma ReadIrrelevant(c: Config, s: State, inp: Input, cur: int)
    ensures var b := Write(c, s, inp.i, inp.n);
            && (Allowed(c, b, inp, cur) <==> Allowed(c, s, inp, cur))
            && (RecoveryDue(c, b, inp, cur) <==> RecoveryDue(c, s, inp, cur))
            && b.link.At(inp.i).cur == s.link.At(inp.i).cur + inp.n
  {
  }

  lemma ReadAdded(c: Config, s: State, inp: Input, t: State, recovery: bool)
    ensures var b := Write(c, s, inp.i, inp.n);
            && (Added(c, b, t, recovery, inp) <==> Added(c, s, t, recovery, inp))
            && (Unchosen(b, t) <==> Unchosen(s, t))
  {
  }

  lemma RequestAdded(c: Config, b: State, inp: Input, recovery: bool)
    ensures var r, m := SetupNext(c, b, inp.i, inp).1, SetupAndRequest(c, b, inp.i, inp);
            && (Added(c, b, m, recovery, inp) <==> Added(c, b, r, recovery, inp))
            && (Unchosen(b, m) <==> Unchosen(b, r))
  {
    RequestKeeps(c, b, inp.i, inp);
  }

  /** The state in the middle of the turn. */
  lemma MiddleChooses(c: Config, s: State, inp: Input)
    requires ConfigOk(c) && Inv(c, s) && InputOk(c, s, inp)
    ensures var m, cur := Middle(c, s, inp), s.link.At(inp.i).cur + inp.n;
            if Due(s, inp.i, inp.n) && Allowed(c, s, inp, cur) then Added(c, s, m, RecoveryDue(c, s, inp, cur), inp)
            else Unchosen(s, m)
  {
    var b, cur := Write(c, s, inp.i, inp.n), s.link.At(inp.i).cur + inp.n;
    InvBoth(c, s, inp.i);
    DueIff(c, s, inp);
    WriteKeeps(c, s, inp.i, inp.n);
    if Due(s, inp.i, inp.n) {
      ReadIrrelevant(c, s, inp, cur);
      SetupChosen(c, b, inp);
      RequestAdded(c, b, inp, RecoveryDue(c, s, inp, cur));
      ReadAdded(c, s, inp, Middle(c, s, inp), RecoveryDue(c, s, inp, cur));
    }
  }

  /** A link's current subsegment belongs to a segment that exists before the turn. */
  lemma HeadIsOld(c: Config, s: State, inp: Input)
    requires ConfigOk(c) && Inv(c, s) && InputOk(c, s, inp)
    ensures var m := Middle(c, s, inp);
            && Work(m, inp.i) != [] && Work(m, inp.i)[0].id <= s.count && Work(m, inp.i)[0].chunks != []
            && Tracked(m, inp.i)
  {
    InvBoth(c, s, inp.i);
    MiddleHead(c, s, inp);
    MiddleOk(c, s, inp);
    IdAtMostCount(s, inp.i, false);
    assert Work(s, inp.i)[0] in Work(s, inp.i);
  }

  lemma EndKeepsMode(c: Config, m: State, i: Link, t: State)
    requires Tracked(m, i) && Work(m, i) != [] && Work(m, i)[0].chunks != []
    requires t == FinishChunk(c, m, i) || t == UpdateInorder(c, m)
    ensures t.single == m.single
  {
    if t == FinishChunk(c, m, i) { FinishKeepsMode(c, m, i); }
  }

  lemma EndKeepsTail(c: Config, m: State, i: Link, t: State)
    requires Tracked(m, i) && Work(m, i) != [] && Work(m, i)[0].chunks != [] && !Newest(m, i)
    requires m.segs != [] && !Tail(m).Finished()
    requires t == FinishChunk(c, m, i) || t == UpdateInorder(c, m)
    ensures t.segs != [] && Tail(t) == Tail(m)
  {
    if t == FinishChunk(c, m, i) { FinishKeepsTail(c, m, i); }
  }

  lemma EndKeeps(c: Config, s: State, inp: Input)
    requires ConfigOk(c) && Inv(c, s) && InputOk(c, s, inp)
    ensures var m, t := Middle(c, s, inp), TurnOf(c, s, inp);
            && t.single == m.single
            && (m.count > s.count && m.segs != [] && !Tail(m).Finished() ==> t.segs != [] && Tail(t) == Tail(m))
  {
    var m, t := Middle(c, s, inp), TurnOf(c, s, inp);
    HeadIsOld(c, s, inp);
    TurnEnds(c, s, inp, m);
    EndKeepsMode(c, m, inp.i, t);
    if m.count > s.count && m.segs != [] && !Tail(m).Finished() { EndKeepsTail(c, m, inp.i, t); }
  }

  /** For every turn: it adds a segment if and only if one is due and allowed. Whether that segment
      is a recovered one, where it ends and the link mode then follow from the state before the turn
      and its inputs; otherwise these stay as they are. */
  lemma TurnChooses(c: Config, s: State, inp: Input)
    requires ConfigOk(c) && Inv(c, s) && InputOk(c, s, inp)
    ensures var t, cur := TurnOf(c, s, inp), s.link.At(inp.i).cur + inp.n;
            if Due(s, inp.i, inp.n) && Allowed(c, s, inp, cur) then Added(c, s, t, RecoveryDue(c, s, inp, cur), inp)
            else Unchosen(s, t)
  {
    MiddleChooses(c, s, inp);
    InvBoth(c, s, inp.i);
    TurnCounts(c, s, inp);
    EndKeeps(c, s, inp);
  }

  // ---------------------------------------------------------------- the parts

  lemma NewHands(c: Config, b: State, i: Link, inp: Input)
    requires ConfigOk(c) && Core(c, b, i, true) && |Work(b, i)| == 1 && b.lastOff < c.Size() - 1
    requires inp.policy >= c.initSeg && inp.goodput.lte + inp.goodput.wifi > 0 && 0 <= inp.mode <= 2
    ensures Handed(c, b, i, inp, Tail(NewSegment(c, b, i, inp).1))
  {
    var u := BeforeSizing(c, b);
    BeforeSizingKeeps(c, b, i);
    NextSizeTiles(c, u, inp);
    OrdinaryHanded(c, u, i, inp, NextSize(c, u, inp));
    SizingHands(c, b, i, inp, Tail(MakeSegment(c, u, i, inp, NextSize(c, u, inp))));
  }

  /** The search of the size policy changes nothing that the division depends on. */
  lemma SizingHands(c: Config, b: State, i: Link, inp: Input, g: Seg)
    requires Handed(c, BeforeSizing(c, b), i, inp, g)
    ensures Handed(c, b, i, inp, g)
  {
    assert Counted(BeforeSizing(c, b), Other(i)) == Counted(b, Other(i));
  }

  lemma SetupHands(c: Config, b: State, inp: Input)
    requires ConfigOk(c) && InvFrom(c, b, inp.i, true) && |Work(b, inp.i)| == 1
    requires inp.policy >= c.initSeg && inp.goodput.lte + inp.goodput.wifi > 0 && 0 <= inp.mode <= 2
    requires Allowed(c, b, inp, b.link.At(inp.i).cur)
    ensures Handed(c, b, inp.i, inp, Tail(SetupNext(c, b, inp.i, inp).1))
  {
    OrderIs(c, b, inp.i);
    RecoversIs(c, b, inp);
    if Recovers(c, b, inp.i, inp) {
      RecoveryHanded(c, b, inp.i, inp);
    } else {
      if b.segs != [] && LastOf(Tail(b).chunks).last == c.Size() - 1 { EnergyRefusal(c, b); }
      NewHands(c, b, inp.i, inp);
    }
  }

  /** Nor does the read. */
  lemma ReadHands(c: Config, s: State, inp: Input, g: Seg)
    requires Handed(c, Write(c, s, inp.i, inp.n), inp.i, inp, g)
    ensures Handed(c, s, inp.i, inp, g)
  {
    assert Counted(Write(c, s, inp.i, inp.n), Other(inp.i)) == Counted(s, Other(inp.i));
  }

  lemma MiddleHands(c: Config, s: State, inp: Input)
    requires ConfigOk(c) && Inv(c, s) && InputOk(c, s, inp)
    requires Due(s, inp.i, inp.n) && Allowed(c, s, inp, s.link.At(inp.i).cur + inp.n)
    ensures Handed(c, s, inp.i, inp, Tail(Middle(c, s, inp)))
  {
    var b := Write(c, s, inp.i, inp.n);
    InvBoth(c, s, inp.i);
    DueIff(c, s, inp);
    WriteKeeps(c, s, inp.i, inp.n);
    ReadIrrelevant(c, s, inp, b.link.At(inp.i).cur);
    SetupHands(c, b, inp);
    RequestKeeps(c, b, inp.i, inp);
    ReadHands(c, s, inp, Tail(Middle(c, s, inp)));
  }

  /** For every turn that adds a segment: the link with the higher goodput gets its front, and each
      link the share that the rates in force give it. */
  lemma TurnHands(c: Config, s: State, inp: Input)
    requires ConfigOk(c) && Inv(c, s) && InputOk(c, s, inp) && TurnOf(c, s, inp).count > s.count
    ensures Handed(c, s, inp.i, inp, Tail(TurnOf(c, s, inp)))
  {
    TurnChooses(c, s, inp);
    MiddleChooses(c, s, inp);
    MiddleHands(c, s, inp);
    EndKeeps(c, s, inp);
  }

  // ---------------------------------------------------------------- read the other way

  lemma AddedWhen(c: Config, s: State, inp: Input)
    requires ConfigOk(c) && Inv(c, s) && InputOk(c, s, inp) && TurnOf(c, s, inp).count > s.count
    ensures var t, cur := TurnOf(c, s, inp), s.link.At(inp.i).cur + inp.n;
            && Due(s, inp.i, inp.n) && Allowed(c, s, inp, cur) && t.count == s.count + 1
            && (Tail(t).recovery <==> RecoveryDue(c, s, inp, cur))
  {
    TurnChooses(c, s, inp);
  }

  /** A turn that adds a segment is one in which that is due. */
  lemma OnlyWhenDue(c: Config, s: State, inp: Input)
    requires ConfigOk(c) && Inv(c, s) && InputOk(c, s, inp) && TurnOf(c, s, inp).count > s.count
    ensures var l := s.link.At(inp.i);
            && !l.pipelined && !l.idle && !l.lastSegment && TurnOf(c, s, inp).count == s.count + 1
            && Work(s, inp.i) != []
            && (inp.n == l.last - l.cur + 1 || 10 * (l.last - l.cur + 2) <= Work(s, inp.i)[0].size)
  {
    AddedWhen(c, s, inp);
  }

  /** A turn that adds a recovered segment is one in which the player asks for it, by the fast link,
      from a link that works, and not inside recovered segments only. */
  lemma OnlyWhenAsked(c: Config, s: State, inp: Input)
    requires ConfigOk(c) && Inv(c, s) && InputOk(c, s, inp)
    requires TurnOf(c, s, inp).count > s.count && Tail(TurnOf(c, s, inp)).recovery
    ensures var i, o := inp.i, Other(inp.i);
            && inp.wantRecovery && c.recovery && !s.single && Work(s, i) != [] && Work(s, o) != []
            && !(Work(s, i)[0].recovery && Work(s, o)[0].recovery)
            && inp.goodput.At(i) >= inp.goodput.At(o) && (i == 1 ==> inp.goodput.wifi > inp.goodput.lte)
            && (|s.segs| == 1 ==> s.link.At(i).cur + inp.n < s.link.At(o).cur)
  {
    AddedWhen(c, s, inp);
    RecoveryAsked(c, s, inp, s.link.At(inp.i).cur + inp.n);
  }

  lemma RecoveryAsked(c: Config, s: State, inp: Input, cur: int)
    requires RecoveryDue(c, s, inp, cur)
    ensures var i, o := inp.i, Other(inp.i);
            && inp.wantRecovery && c.recovery && !s.single && Work(s, i) != [] && Work(s, o) != []
            && !(Work(s, i)[0].recovery && Work(s, o)[0].recovery)
            && inp.goodput.At(i) >= inp.goodput.At(o) && (i == 1 ==> inp.goodput.wifi > inp.goodput.lte)
            && (|s.segs| == 1 ==> cur < s.link.At(o).cur)
  {
  }

  /** Every ordinary segment of a run ends where its size says. */
  lemma SegmentEnds(c: Config, es: seq<Event>, s: State, inp: Input)
    requires ConfigOk(c) && Run(c, Start(c), es) && s == After(c, Start(c), es)
    requires EventOk(c, s, Turn(inp)) && MakesSegment(c, s, Turn(inp))
    ensures EndsAt(c, s.lastOff, AskedSize(c, s, false, inp), Middle(c, s, inp).lastOff)
  {
    Reachable(c, es);
    MiddleChooses(c, s, inp);
  }
}
