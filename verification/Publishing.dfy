/**
 * The energy policy's playable-time estimate also publishes the cached in-order offset, in the
 * middle of a turn (src/player_time.c:79-83, src/energy.c:194). With fixed segments the offset
 * cached there is the one from before the turn, so that this is the same as a pass right before it.
 */
module Publishing {
  import opened Pairs
  import opened Scheduler
  import opened Invariant
  import opened Turns
  import opened PlainRuns
  import opened VariableMode
  import opened Searches
  import Chunks
  import Runs

  // ---------------------------------------------------------------- nothing reads the published offset

  lemma SearchSeen(c: Config, s: State, x: int)
    ensures UpdateInorder(c, s.(seen := x)) == UpdateInorder(c, s).(seen := x)
    ensures BeforeSizing(c, s.(seen := x)) == BeforeSizing(c, s).(seen := x)
  {
  }

  lemma ShareSeen(c: Config, s: State, x: int, ci: Link, t: nat, a: nat)
    ensures Share(c, s.(seen := x), ci, t, a) == Share(c, s, ci, t, a)
  {
    var r := s.(seen := x);
    assert Contribution(r, ci, 0) == Contribution(s, ci, 0) && Contribution(r, ci, 1) == Contribution(s, ci, 1);
  }

  lemma DivideSeen(c: Config, s: State, x: int, ci: Link, t: nat, a: nat, fast: Link)
    ensures AddSubsegments(c, s.(seen := x), ci, t, a, fast) == AddSubsegments(c, s, ci, t, a, fast).(seen := x)
  {
    ShareSeen(c, s, x, ci, t, a);
  }

  lemma SubdivideSeen(c: Config, s: State, x: int, i: Link, inp: Input, mode: int)
    ensures Subdivide(c, s.(seen := x), i, inp, mode) == Subdivide(c, s, i, inp, mode).(seen := x)
  {
    var fast := Fast(inp.goodput);
    if mode == 1 || mode == 2 { DivideSeen(c, s, x, mode - 1, 1, 0, fast); }
    DivideSeen(c, s, x, i, c.rate.At(i), c.rate.At(Other(i)), fast);
    DivideSeen(c, s, x, i, inp.goodput.At(i), inp.goodput.At(Other(i)), fast);
  }

  lemma MakeSeen(c: Config, s: State, x: int, i: Link, inp: Input, n: int)
    ensures MakeSegment(c, s.(seen := x), i, inp, n) == MakeSegment(c, s, i, inp, n).(seen := x)
  {
    var s2 := AddNext(c, s, n);
    assert AddNext(c, s.(seen := x), n) == s2.(seen := x);
    if c.minEnergy && s2.completed > 0 {
      SubdivideSeen(c, s2.(single := inp.mode != 0), x, i, inp, inp.mode);
    } else {
      SubdivideSeen(c, s2, x, i, inp, 0);
    }
  }

  lemma NewSeen(c: Config, s: State, x: int, i: Link, inp: Input)
    ensures var r, q := NewSegment(c, s, i, inp), NewSegment(c, s.(seen := x), i, inp);
            q.0 == r.0 && q.1 == r.1.(seen := x)
  {
    var b := BeforeSizing(c, s);
    SearchSeen(c, s, x);
    assert NextSize(c, b.(seen := x), inp) == NextSize(c, b, inp);
    MakeSeen(c, b, x, i, inp, NextSize(c, b, inp));
  }

  lemma DetachSeen(s: State, x: int, o: Link)
    ensures Detach(s.(seen := x), o) == Detach(s, o).(seen := x)
  {
  }

  lemma RecoverSeen(c: Config, s: State, x: int, i: Link, inp: Input)
    ensures Recover(c, s.(seen := x), i, inp) == Recover(c, s, i, inp).(seen := x)
  {
    var o := Other(i);
    var b := BeforeSizing(c, Detach(s, o));
    DetachSeen(s, x, o);
    SearchSeen(c, Detach(s, o), x);
    var back := Unread(Duties(s.segs, o), s.link.At(o));
    assert Pool(c, b.(seen := x), back, inp) == Pool(c, b, back, inp);
    WithRecoveredSeen(b, x, o, Pool(c, b, back, inp));
  }

  lemma WithRecoveredSeen(b: State, x: int, o: Link, list: seq<Chunks.Chunk>)
    ensures WithRecovered(b.(seen := x), o, list) == WithRecovered(b, o, list).(seen := x)
  {
  }

  lemma DecideSeen(c: Config, s: State, x: int, i: Link, inp: Input)
    ensures var r := s.(seen := x);
            OrderCase(r, i) == OrderCase(s, i) && Recovers(c, r, i, inp) == Recovers(c, s, i, inp)
  {
  }

  lemma SetupSeen(c: Config, s: State, x: int, i: Link, inp: Input)
    ensures var r, q := SetupNext(c, s, i, inp), SetupNext(c, s.(seen := x), i, inp);
            q.0 == r.0 && q.1 == r.1.(seen := x)
  {
    DecideSeen(c, s, x, i, inp);
    if s.link.At(i).lastSegment || (OrderCase(s, i) == Behind && s.single) {
    } else if Recovers(c, s, i, inp) {
      RecoverSeen(c, s, x, i, inp);
      SubdivideSeen(c, Recover(c, s, i, inp), x, i, inp, 0);
      SetupRecovers(c, s, i, inp);
      SetupRecovers(c, s.(seen := x), i, inp);
    } else {
      NewSeen(c, s, x, i, inp);
    }
  }

  lemma SetupRecovers(c: Config, s: State, i: Link, inp: Input)
    requires !s.link.At(i).lastSegment && !(OrderCase(s, i) == Behind && s.single) && Recovers(c, s, i, inp)
    ensures SetupNext(c, s, i, inp) == (true, Subdivide(c, Recover(c, s, i, inp), i, inp, 0))
  {
  }

  lemma RequestSeen(c: Config, s: State, x: int, i: Link)
    ensures CheckLastSegment(c, RequestBoth(c, s.(seen := x), i))
            == CheckLastSegment(c, RequestBoth(c, s, i)).(seen := x)
  {
    assert RequestBoth(c, s.(seen := x), i) == RequestBoth(c, s, i).(seen := x);
  }

  lemma SetupRequestSeen(c: Config, s: State, x: int, i: Link, inp: Input)
    ensures SetupAndRequest(c, s.(seen := x), i, inp) == SetupAndRequest(c, s, i, inp).(seen := x)
  {
    SetupSeen(c, s, x, i, inp);
    RequestSeen(c, SetupNext(c, s, i, inp).1, x, i);
  }

  lemma PassSeen(c: Config, s: State, x: int, i: Link)
    ensures FinishSubsegment(c, s.(seen := x), i) == FinishSubsegment(c, s, i).(seen := x)
  {
    var k := if s.link.At(i).cursor.Some? then Index(s, s.link.At(i).cursor.value) else -1;
    assert PassedOn(c, s.(seen := x), i, k) == PassedOn(c, s, i, k);
  }

  /** The state between the end of a subsegment and the search. */
  function Ended(s: State, i: Link): State {
    var l := s.link.At(i);
    s.(segs := SetSub(s.segs, if l.cursor.Some? then Index(s, l.cursor.value) else -1, i, None),
       link := s.link.With(i, l.(enabled := false)))
  }

  function ChunksLeft(s: State, i: Link): seq<Chunks.Chunk> {
    var q := SegAt(s, s.link.At(i).cursor).sub.At(i);
    if q.Some? then Rest(q.value.chunks) else []
  }

  lemma FinishIs(c: Config, s: State, i: Link)
    requires ChunksLeft(s, i) == []
    ensures FinishChunk(c, s, i) == UpdateInorder(c, FinishSubsegment(c, Ended(s, i), i))
  {
  }

  lemma NextSeen(c: Config, s: State, x: int, i: Link)
    requires ChunksLeft(s, i) != []
    ensures FinishChunk(c, s.(seen := x), i) == FinishChunk(c, s, i).(seen := x)
  {
  }

  lemma FinishSeen(c: Config, s: State, x: int, i: Link)
    ensures FinishChunk(c, s.(seen := x), i) == FinishChunk(c, s, i).(seen := x)
  {
    var r := s.(seen := x);
    assert ChunksLeft(r, i) == ChunksLeft(s, i);
    if ChunksLeft(s, i) != [] {
      NextSeen(c, s, x, i);
    } else {
      FinishIs(c, s, i);
      FinishIs(c, r, i);
      assert Ended(r, i) == Ended(s, i).(seen := x);
      PassSeen(c, Ended(s, i), x, i);
      SearchSeen(c, FinishSubsegment(c, Ended(s, i), i), x);
    }
  }

  lemma WriteSeen(c: Config, s: State, x: int, i: Link, n: nat)
    ensures Write(c, s.(seen := x), i, n) == Write(c, s, i, n).(seen := x)
    ensures SetsUp(s.(seen := x), i, n) == SetsUp(s, i, n)
  {
  }

  lemma MiddleSeen(c: Config, s: State, x: int, inp: Input)
    ensures Middle(c, s.(seen := x), inp) == Middle(c, s, inp).(seen := x)
  {
    WriteSeen(c, s, x, inp.i, inp.n);
    SetupRequestSeen(c, Write(c, s, inp.i, inp.n), x, inp.i, inp);
  }

  lemma TurnSeen(c: Config, s: State, x: int, inp: Input)
    ensures TurnOf(c, s.(seen := x), inp) == TurnOf(c, s, inp).(seen := x)
  {
    var m := Middle(c, s, inp);
    MiddleSeen(c, s, x, inp);
    TurnEnds(c, s, inp, m);
    TurnEnds(c, s.(seen := x), inp, m.(seen := x));
    FinishSeen(c, m, x, inp.i);
    SearchSeen(c, m, x);
  }

  // ---------------------------------------------------------------- publication in the middle of a turn

  /** A turn that publishes the cached offset before its last search, with fixed segments: a pass
      and then the turn. So every result about runs speaks about such turns, too. */
  lemma PublicationIsPass(c: Config, s: State, inp: Input)
    requires ConfigOk(c) && c.fixedSegment && Inv(c, s) && EventOk(c, s, Turn(inp))
    ensures Middle(c, s, inp).inorder == s.inorder
    ensures EventOk(c, s, EndPass) && EventOk(c, Next(c, s, EndPass), Turn(inp))
    ensures Next(c, Next(c, s, EndPass), Turn(inp)) == TurnOf(c, s, inp).(seen := Middle(c, s, inp).inorder)
  {
    MidSearchCaches(c, s, inp);
    NotDoneYet(c, s, inp);
    assert EndPassOf(c, s) == s.(seen := s.inorder);
    TurnSeen(c, s, s.inorder, inp);
  }

  lemma NotDoneYet(c: Config, s: State, inp: Input)
    requires ConfigOk(c) && Inv(c, s) && InputOk(c, s, inp)
    ensures s.done != c.Size()
  {
    InvBoth(c, s, inp.i);
    Runs.DoneIffAllWritten(c, s);
  }

  /** In variable mode, recovery off, a publication right after the size policy's search: the bytes
      below the published offset are written if and only if the read did not end the last work of
      both links while at least two bytes of the file are unassigned. */
  lemma MidPublicationIff(c: Config, s: State, inp: Input)
    requires ConfigOk(c) && !c.recovery && Inv(c, s) && Plain(s) && InputOk(c, s, inp) && MidSearch(c, s, inp).Some?
    ensures var m := Middle(c, s, inp);
            (forall k | 0 <= k < m.inorder :: k in m.file)
            <==> !(EndsAlone(s, inp.i, inp.n) && s.lastOff < c.Size() - 2)
  {
    MidSearchCaches(c, s, inp);
    MidTurnFound(c, s, inp);
    MiddleFile(c, s, inp);
    if EndsAlone(s, inp.i, inp.n) {
      AloneFile(c, s, inp);
      var b := Write(c, s, inp.i, inp.n);
      if s.lastOff < c.Size() - 2 { assert s.lastOff + 1 !in b.file; }
    }
  }

  /** Setting up a segment writes nothing. */
  lemma MiddleFile(c: Config, s: State, inp: Input)
    requires ConfigOk(c) && Inv(c, s) && InputOk(c, s, inp)
    ensures forall k :: k in Middle(c, s, inp).file <==> k in Write(c, s, inp.i, inp.n).file
    ensures 0 <= s.lastOff < c.Size()
  {
    InvBoth(c, s, inp.i);
    MiddleOk(c, s, inp);
    WriteKeeps(c, s, inp.i, inp.n);
  }
}
