/** Finishing a chunk or a subsegment keeps the invariant (src/recovery.c:138, src/gb.c:947). */
module Finishing {
  import opened Pairs
  import opened Chunks
  import opened Scheduler
  import opened DutyLemmas
  import opened Invariant

  /** The cached cursor is where the search from the list head arrives. */
  lemma CursorSeg(s: State, j: Link, slack: bool)
    requires Window(s.segs, s.count, s.completed)
    requires LinkOk(Work(s, j), s.link.At(j), slack) && Work(s, j) != []
    ensures var k := FirstAt(s.segs, j, 0);
            && k < |s.segs| && s.link.At(j).cursor == Some(s.segs[k].id)
            && Index(s, s.link.At(j).cursor.value) == k
            && SegAt(s, s.link.At(j).cursor) == s.segs[k]
            && s.segs[k].sub.At(j).Some?
            && Work(s, j)[0] == DutyOf(s.segs[k], j)
  {
    SearchSecond(s.segs, j);
  }

  lemma BooksNext(c: Config, s: State, t: State, i: Link)
    requires BooksOf(c, s, i) && Work(s, i) != [] && s.link.At(i).cur == s.link.At(i).last + 1
    requires Left(t, i) == Rest(Flat(Work(s, i))) && Left(t, Other(i)) == Left(s, Other(i))
    requires t.file == s.file && t.done == s.done && t.lastOff == s.lastOff
    ensures BooksOf(c, t, i)
  {
    forall k ensures Cover(Left(t, i), k) == Cover(Left(s, i), k) {
      UnreadFacts(Work(s, i), s.link.At(i), k);
    }
    UnreadFacts(Work(s, i), s.link.At(i), 0);
    BooksMove(c, s.file, s.done, s.lastOff, Left(s, i), Left(s, Other(i)), [],
              t.lastOff, Left(t, i), Left(t, Other(i)), []);
  }

  lemma SegsOkDescends(r: seq<Seg>, gs: seq<Seg>, hi: int)
    requires Descends(r, gs) && SegsOk(gs, hi)
    ensures SegsOk(r, hi)
  {
    forall g | g in r ensures g.chunks != [] && LastOf(g.chunks).last <= hi {
      var x :| 0 <= x < |r| && r[x] == g;
      assert Same(r[x], gs[x + |gs| - |r|]);
      assert gs[x + |gs| - |r|] in gs;
    }
  }

  /** The link record after moving on inside the duty list. */
  lemma LinkNext(ds: seq<Duty>, l: Conn, ds': seq<Duty>, l': Conn)
    requires LinkOk(ds, l, true) && ds != [] && ds[0].chunks != []
    requires ds' != [] && ds'[0].chunks != [] && Flat(ds') == Rest(Flat(ds))
    requires Head(ds'[0].chunks).start <= Head(ds'[0].chunks).last
    requires l'.cursor == Some(ds'[0].id) && l'.enabled && (l'.pipelined <==> |ds'| > 1)
    requires l'.cur == Head(ds'[0].chunks).start && l'.last == Head(ds'[0].chunks).last
    requires l'.net == NextResponse(l.net)
    ensures LinkOk(ds', l', false)
    ensures Unread(ds', l') == Rest(Flat(ds))
  {
    FlatHead(ds');
    assert Flat(ds')[0] == Chunk(l'.cur, l'.last);
  }

  /** Moving link `i` on inside its own work keeps the invariant. */
  lemma MoveOn(c: Config, s: State, t: State, i: Link)
    requires Core(c, s, i, true) && Work(s, i) != [] && s.link.At(i).cur == s.link.At(i).last + 1
    requires Descends(t.segs, s.segs) && t == WithList(s, t.segs).(link := t.link)
    requires t.link.At(Other(i)) == s.link.At(Other(i)) && Work(t, Other(i)) == Work(s, Other(i))
    requires Part(c, t, i, false) && Left(t, i) == Rest(Flat(Work(s, i)))
    requires OnTail(Work(s, i), s.count) && s.lastOff < c.Size() - 1 ==> OnTail(Work(t, i), s.count)
    ensures Core(c, t, i, false)
  {
    WindowDescends(s, t.segs);
    SegsOkDescends(t.segs, s.segs, s.lastOff);
    BooksNext(c, s, t, i);
  }

  lemma PopDuties(ds: seq<Duty>, hi: int)
    requires DutiesOk(ds, hi) && ds != []
    ensures DutiesOk(ds[1..], hi)
    ensures |ds[0].chunks| > 1 ==> DutiesOk([ds[0].(chunks := ds[0].chunks[1..])] + ds[1..], hi)
  {
    var d := ds[0];
    assert d in ds;
    if |d.chunks| > 1 {
      assert forall y | y in d.chunks[1..] :: y in d.chunks;
      assert DutyOk(d.(chunks := d.chunks[1..]), hi);
    }
  }

  /** What finishing needs to find the link's segment. */
  ghost predicate Tracked(s: State, i: Link) {
    Window(s.segs, s.count, s.completed) && LinkOk(Work(s, i), s.link.At(i), true)
  }

  lemma MoreChunksShape(c: Config, s: State, i: Link)
    requires Tracked(s, i) && Work(s, i) != [] && |Work(s, i)[0].chunks| > 1
    ensures var t := FinishChunk(c, s, i);
            var l := s.link.At(i);
            var d := Work(s, i)[0];
            var left := d.chunks[1..];
            var k := FirstAt(s.segs, i, 0);
            && k < |s.segs|
            && t == s.(segs := SetSub(s.segs, k, i, Some(Subsegment(left, d.size))),
                       link := s.link.With(i, l.(cur := left[0].start, last := left[0].last,
                                                 net := NextResponse(l.net), enabled := l.net.pending != [])))
  {
    CursorSeg(s, i, true);
  }

  lemma MoreChunksWork(c: Config, s: State, i: Link)
    requires Tracked(s, i) && Work(s, i) != [] && |Work(s, i)[0].chunks| > 1
    ensures var t := FinishChunk(c, s, i);
            var ds := Work(s, i);
            && Work(t, i) == [ds[0].(chunks := ds[0].chunks[1..])] + ds[1..]
            && Work(t, Other(i)) == Work(s, Other(i))
            && Descends(t.segs, s.segs)
  {
    MoreChunksShape(c, s, i);
    FirstReplaced(s.segs, i, Work(s, i)[0].chunks[1..]);
  }

  /** The list with other chunks in the link's first subsegment. */
  lemma FirstReplaced(gs: seq<Seg>, i: Link, left: seq<Chunk>)
    requires Duties(gs, i) != []
    ensures var ds, k := Duties(gs, i), FirstAt(gs, i, 0);
            var hs := SetSub(gs, k, i, Some(Subsegment(left, ds[0].size)));
            && Duties(hs, i) == [ds[0].(chunks := left)] + ds[1..]
            && Duties(hs, Other(i)) == Duties(gs, Other(i)) && Descends(hs, gs)
  {
    var k := FirstAt(gs, i, 0);
    var q := Some(Subsegment(left, Duties(gs, i)[0].size));
    SearchSecond(gs, i);
    DutiesReplace(gs, k, i, q);
    DutiesOther(gs, k, i, q, Other(i));
  }

  lemma MoreChunksPart(c: Config, s: State, i: Link)
    requires Tracked(s, i) && Part(c, s, i, true) && Work(s, i) != [] && |Work(s, i)[0].chunks| > 1
    requires 0 <= s.lastOff < c.Size()
    ensures var t := FinishChunk(c, s, i);
            Part(c, t, i, false) && Left(t, i) == Rest(Flat(Work(s, i)))
  {
    var ds := Work(s, i);
    var t := FinishChunk(c, s, i);
    var left := ds[0].chunks[1..];
    MoreChunksShape(c, s, i);
    MoreChunksWork(c, s, i);
    var ds' := Work(t, i);
    FlatHead(ds);
    assert ds'[1..] == ds[1..];
    assert Flat(ds') == left + Flat(ds[1..]);
    PopDuties(ds, s.lastOff);
    assert ds'[0] in ds' && left[0] in left;
    LinkNext(ds, s.link.At(i), ds', t.link.At(i));
  }

  /** The idle marks inside a turn: they matter only if the turn ends inside a subsegment. */
  ghost predicate MidIdle(c: Config, s: State, i: Link)
    requires Work(s, i) != []
  {
    |Work(s, i)[0].chunks| > 1 ==>
      && IdleOk(c, s, Other(i))
      && (s.link.At(i).idle ==> Work(s, i)[0].id < s.count || s.lastOff == c.Size() - 1)
  }

  lemma MoreChunks(c: Config, s: State, i: Link)
    requires Core(c, s, i, true) && Work(s, i) != [] && MidIdle(c, s, i) && s.link.At(i).cur == s.link.At(i).last + 1
    requires |Work(s, i)[0].chunks| > 1
    ensures InvFrom(c, FinishChunk(c, s, i), i, false)
  {
    var t := FinishChunk(c, s, i);
    MoreChunksShape(c, s, i);
    MoreChunksWork(c, s, i);
    MoreChunksPart(c, s, i);
    MoveOn(c, s, t, i);
    assert DutyOk(Work(s, i)[0], s.lastOff);
  }

  // ---------------------------------------------------------------- end of a subsegment

  /** The state between `delete_subsegment` and `update_inorder_offset`. */
  function Closed(c: Config, s: State, i: Link): State {
    var k := FirstAt(s.segs, i, 0);
    FinishSubsegment(c, s.(segs := SetSub(s.segs, k, i, None),
                           link := s.link.With(i, s.link.At(i).(enabled := false))), i)
  }

  lemma LastChunkShape(c: Config, s: State, i: Link)
    requires Tracked(s, i) && Work(s, i) != [] && |Work(s, i)[0].chunks| == 1
    ensures FinishChunk(c, s, i) == UpdateInorder(c, Closed(c, s, i))
  {
    CursorSeg(s, i, true);
  }

  lemma ClosedShape(c: Config, s: State, i: Link)
    requires Tracked(s, i) && Work(s, i) != []
    ensures var t := Closed(c, s, i);
            var k := FirstAt(s.segs, i, 0);
            && t == WithList(s, TrimAll(SetSub(s.segs, k, i, None))).(link := s.link.With(i, t.link.At(i)))
            && (s.link.At(i).pipelined ==>
                t.link.At(i) == MoveToNext(c, SetSub(s.segs, k, i, None), s.link.At(i).(enabled := false), i, k))
  {
    CursorSeg(s, i, true);
    TrimAllKeeps(SetSub(s.segs, FirstAt(s.segs, i, 0), i, None), i);
  }

  lemma PopFirst(gs: seq<Seg>, i: Link)
    requires Duties(gs, i) != []
    ensures FirstAt(gs, i, 0) < |gs|
    ensures var r := TrimAll(SetSub(gs, FirstAt(gs, i, 0), i, None));
            && Duties(r, i) == Duties(gs, i)[1..]
            && Duties(r, Other(i)) == Duties(gs, Other(i))
            && Descends(r, gs)
            && (r != [] ==> !r[0].Finished())
  {
    SearchSecond(gs, i);
    var k := FirstAt(gs, i, 0);
    var hs := SetSub(gs, k, i, None);
    DutiesReplace(gs, k, i, None);
    DutiesOther(gs, k, i, None, Other(i));
    TrimAllKeeps(hs, i);
    TrimAllKeeps(hs, Other(i));
    assert Descends(hs, gs);
    DescendsTrans(TrimAll(hs), hs, gs);
  }

  lemma ClosedWork(c: Config, s: State, i: Link)
    requires Tracked(s, i) && Work(s, i) != []
    ensures var t := Closed(c, s, i);
            && Work(t, i) == Work(s, i)[1..]
            && Work(t, Other(i)) == Work(s, Other(i))
            && Descends(t.segs, s.segs)
            && t == WithList(s, t.segs).(link := t.link)
            && t.link.At(Other(i)) == s.link.At(Other(i))
            && (t.segs != [] ==> !t.segs[0].Finished())
  {
    PopFirst(s.segs, i);
    ClosedShape(c, s, i);
  }

  /** Record `l'` is what `l` becomes when the link goes on with the segment at `m` of `gs`. */
  ghost predicate GoesOn(c: Config, l: Conn, l': Conn, d: Duty, more: bool) {
    && l'.enabled == (l.enabled || l.net.pending != []) && l'.net == NextResponse(l.net)
    && l'.cursor == Some(d.id) && l'.cur == Head(d.chunks).start && l'.last == Head(d.chunks).last
    && l'.pipelined == more && (l'.lastSegment <==> l.lastSegment || LastOf(d.chunks).last == c.Size() - 1)
  }

  lemma MoveToNextIs(c: Config, gs: seq<Seg>, l: Conn, i: Link, k: nat, m: nat)
    requires k < |gs| && m == FirstAt(gs, i, k + 1) < |gs|
    ensures GoesOn(c, l, MoveToNext(c, gs, l, i, k), DutyOf(gs[m], i), FirstAt(gs, i, m + 1) < |gs|)
  {
  }

  lemma AfterSet(gs: seq<Seg>, i: Link, k: nat, m: nat)
    requires k < |gs| && m == FirstAt(gs, i, k + 1) < |gs|
    ensures var hs := SetSub(gs, k, i, None);
            && |hs| == |gs| && m == FirstAt(hs, i, k + 1) && hs[m] == gs[m]
            && FirstAt(hs, i, m + 1) == FirstAt(gs, i, m + 1)
  {
    var hs := SetSub(gs, k, i, None);
    SameAfter(gs, hs, i, k + 1);
    SameAfter(gs, hs, i, m + 1);
  }

  lemma MoveToNextFacts(c: Config, gs: seq<Seg>, l: Conn, i: Link, k: nat, m: nat)
    requires k < |gs| && m == FirstAt(gs, i, k + 1) < |gs|
    ensures GoesOn(c, l, MoveToNext(c, SetSub(gs, k, i, None), l, i, k), DutyOf(gs[m], i), FirstAt(gs, i, m + 1) < |gs|)
  {
    AfterSet(gs, i, k, m);
    MoveToNextIs(c, SetSub(gs, k, i, None), l, i, k, m);
  }

  lemma SecondDuty(gs: seq<Seg>, i: Link) returns (k: nat, m: nat)
    requires |Duties(gs, i)| > 1
    ensures k == FirstAt(gs, i, 0) < |gs| && m == FirstAt(gs, i, k + 1) < |gs|
    ensures Duties(gs, i)[1] == DutyOf(gs[m], i) && (FirstAt(gs, i, m + 1) < |gs| <==> |Duties(gs, i)| > 2)
  {
    k, m := SearchThird(gs, i, Duties(gs, i));
  }

  lemma ClosedNext(c: Config, s: State, i: Link)
    requires Tracked(s, i) && |Work(s, i)| > 1
    ensures GoesOn(c, s.link.At(i).(enabled := false), Closed(c, s, i).link.At(i), Work(s, i)[1], |Work(s, i)| > 2)
  {
    ClosedShape(c, s, i);
    var k, m := SecondDuty(s.segs, i);
    MoveToNextFacts(c, s.segs, s.link.At(i).(enabled := false), i, k, m);
  }

  lemma {:induction false} SameAfter(gs: seq<Seg>, hs: seq<Seg>, j: Link, from: nat)
    requires from <= |gs| == |hs| && forall x | from <= x < |gs| :: hs[x] == gs[x]
    ensures FirstAt(hs, j, from) == FirstAt(gs, j, from)
    decreases |gs| - from
  {
    if from < |gs| && gs[from].sub.At(j).None? { SameAfter(gs, hs, j, from + 1); }
  }

  lemma ClosedPart(c: Config, s: State, i: Link)
    requires Tracked(s, i) && Part(c, s, i, true) && Work(s, i) != [] && s.link.At(i).cur == s.link.At(i).last + 1
    requires |Work(s, i)[0].chunks| == 1 && 0 <= s.lastOff < c.Size()
    ensures var t := Closed(c, s, i);
            Part(c, t, i, false) && Left(t, i) == Rest(Flat(Work(s, i)))
  {
    var ds := Work(s, i);
    ClosedWork(c, s, i);
    PopDuties(ds, s.lastOff);
    FlatHead(ds);
    assert Flat(ds[1..]) == Rest(Flat(ds));
    if |ds| > 1 {
      ClosedNext(c, s, i);
      NextPart(c, ds, s.link.At(i), Closed(c, s, i).link.At(i), s.lastOff);
    } else {
      ClosedLast(c, s, i);
    }
  }

  lemma ClosedLast(c: Config, s: State, i: Link)
    requires Tracked(s, i) && |Work(s, i)| == 1 && s.link.At(i).cur == s.link.At(i).last + 1
    requires |Work(s, i)[0].chunks| == 1
    ensures var l := Closed(c, s, i).link.At(i);
            LinkOk([], l, false) && l.lastSegment == s.link.At(i).lastSegment
  {
    assert Work(s, i)[1..] == [];
    assert Flat(Work(s, i)) == Work(s, i)[0].chunks + [];
  }

  lemma NextPart(c: Config, ds: seq<Duty>, l: Conn, l': Conn, lastOff: int)
    requires |ds| > 1 && DutiesOk(ds, lastOff) && LinkOk(ds, l, true) && |ds[0].chunks| == 1
    requires 0 <= lastOff < c.Size() && (l.lastSegment ==> lastOff == c.Size() - 1)
    requires GoesOn(c, l.(enabled := false), l', ds[1], |ds| > 2)
    ensures LinkOk(ds[1..], l', false) && Unread(ds[1..], l') == Rest(Flat(ds))
    ensures l'.lastSegment ==> lastOff == c.Size() - 1
  {
    var d := ds[1];
    assert d in ds && DutyOk(d, lastOff);
    assert Head(d.chunks) in d.chunks && LastOf(d.chunks) in d.chunks;
    FlatHead(ds);
    FlatHead(ds[1..]);
    assert Flat(ds[1..]) == Rest(Flat(ds));
    LinkNext(ds, l, ds[1..], l');
  }

  lemma LastChunk(c: Config, s: State, i: Link)
    requires Core(c, s, i, true) && Work(s, i) != [] && s.link.At(i).cur == s.link.At(i).last + 1
    requires |Work(s, i)[0].chunks| == 1
    requires |Work(s, i)| == 1 && Work(s, i)[0].id == s.count ==> s.lastOff == c.Size() - 1
    ensures InvFrom(c, FinishChunk(c, s, i), i, false)
  {
    var t := Closed(c, s, i);
    LastChunkShape(c, s, i);
    ClosedWork(c, s, i);
    ClosedPart(c, s, i);
    MoveOn(c, s, t, i);
    UpdateKeeps(c, t, i, false);
  }

  /** Finishing the current chunk keeps the invariant, as long as the newest segment is not
      finished while part of the file is unassigned. */
  lemma FinishKeeps(c: Config, s: State, i: Link)
    requires Core(c, s, i, true) && Work(s, i) != [] && s.link.At(i).cur == s.link.At(i).last + 1
    requires MidIdle(c, s, i)
    requires |Work(s, i)| == 1 && Work(s, i)[0].id == s.count ==> s.lastOff == c.Size() - 1
    ensures InvFrom(c, FinishChunk(c, s, i), i, false)
    ensures var t := FinishChunk(c, s, i);
            t.file == s.file && t.done == s.done && t.lastOff == s.lastOff && t.count == s.count
            && t.seen == s.seen && t.ready == s.ready
  {
    assert Work(s, i)[0] in Work(s, i);
    if |Work(s, i)[0].chunks| > 1 {
      MoreChunks(c, s, i);
      MoreChunksShape(c, s, i);
    } else {
      LastChunk(c, s, i);
      LastChunkShape(c, s, i);
      ClosedWork(c, s, i);
    }
  }
}
