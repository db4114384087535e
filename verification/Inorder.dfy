/** The in-order offset (src/gb.c:760): when the list scan is exact, and when it is not. */
module Inorder {
  import opened Pairs
  import opened Chunks
  import opened Scheduler
  import opened DutyLemmas
  import opened Invariant
  import opened Finishing
  import opened Assigning
  import opened Setup
  import opened Turns
  import opened Runs

  /** The reference: the smallest offset of the file that is not written. */
  ghost predicate IsFirstMissing(c: Config, s: State, x: int) {
    && 0 <= x < c.Size() && x !in s.file
    && forall k | 0 <= k < x :: k in s.file
  }

  // ---------------------------------------------------------------- the scan

  function MinStart(ds: seq<Duty>, b: int): int {
    if ds == [] then b else
      var h := Head(ds[0].chunks).start;
      MinStart(ds[1..], if h < b then h else b)
  }

  /** Scanning the list is scanning the link's work beyond its cursor. */
  lemma {:induction false} ScanIsWork(gs: seq<Seg>, j: Link, cursor: Option<nat>, b: int)
    requires forall g | g in gs && g.sub.At(j).Some? :: cursor != Some(g.id)
    ensures ConnByte(gs, j, cursor, b) == MinStart(Duties(gs, j), b)
  {
    if gs != [] {
      var q := gs[0].sub.At(j);
      assert gs[0] in gs;
      if q.Some? {
        var h := Head(q.value.chunks).start;
        ScanIsWork(gs[1..], j, cursor, if h < b then h else b);
        assert Duties(gs, j)[1..] == Duties(gs[1..], j);
      } else {
        ScanIsWork(gs[1..], j, cursor, b);
      }
    }
  }

  lemma {:induction false} ScanSkips(gs: seq<Seg>, j: Link, cursor: Option<nat>, b: int, k: nat)
    requires k <= |gs| && forall x | 0 <= x < k :: gs[x].sub.At(j).None?
    ensures ConnByte(gs, j, cursor, b) == ConnByte(gs[k..], j, cursor, b)
  {
    if k == 0 {
      assert gs[0..] == gs;
    } else {
      ScanSkips(gs[1..], j, cursor, b, k - 1);
      assert gs[1..][k - 1..] == gs[k..];
    }
  }

  lemma LaterIds(gs: seq<Seg>, count: nat, completed: nat, k: nat)
    requires Window(gs, count, completed) && k < |gs|
    ensures forall g | g in gs[k + 1..] :: g.id != gs[k].id
  {
    var rest := gs[k + 1..];
    forall g | g in rest ensures g.id != gs[k].id {
      var x :| 0 <= x < |rest| && rest[x] == g;
      assert g == gs[k + 1 + x];
    }
  }

  lemma ScanOfLink(s: State, j: Link)
    requires Window(s.segs, s.count, s.completed)
    requires LinkOk(Work(s, j), s.link.At(j), false) && Work(s, j) != []
    ensures ConnByte(s.segs, j, s.link.At(j).cursor, s.link.At(j).cur) == MinStart(Work(s, j)[1..], s.link.At(j).cur)
  {
    var l := s.link.At(j);
    var k := FirstAt(s.segs, j, 0);
    CursorSeg(s, j, false);
    SearchSecond(s.segs, j);
    ScanSkips(s.segs, j, l.cursor, l.cur, k);
    var rest := s.segs[k + 1..];
    assert s.segs[k..][1..] == rest;
    LaterIds(s.segs, s.count, s.completed, k);
    ScanIsWork(rest, j, l.cursor, l.cur);
  }

  lemma {:induction false} MinStartFacts(ds: seq<Duty>, b: int, hi: int)
    requires DutiesOk(ds, hi)
    ensures var m := MinStart(ds, b);
            && m <= b
            && (forall k | Cover(Flat(ds), k) > 0 :: m <= k)
            && (m == b || Cover(Flat(ds), m) > 0)
  {
    if ds != [] {
      var d := ds[0];
      assert d in ds && DutyOk(d, hi);
      var h := Head(d.chunks).start;
      MinStartFacts(ds[1..], if h < b then h else b, hi);
      assert Head(d.chunks) in d.chunks;
      forall k ensures Cover(Flat(ds), k) == Cover(d.chunks, k) + Cover(Flat(ds[1..]), k) {
        CoverAppend(d.chunks, Flat(ds[1..]), k);
      }
      CoverPositive(d.chunks, h);
      forall k | Cover(d.chunks, k) > 0 ensures h <= k {
        CoverPositive(d.chunks, k);
        var a :| 0 <= a < |d.chunks| && d.chunks[a].Holds(k);
        if a > 0 { assert d.chunks[0].last < d.chunks[a].start; }
      }
    }
  }

  /** The scan finds the smallest offset the link still has to read. */
  lemma ScanIsSmallest(ds: seq<Duty>, l: Conn, hi: int)
    requires DutiesOk(ds, hi) && ds != [] && LinkOk(ds, l, false)
    ensures var m := MinStart(ds[1..], l.cur);
            && Cover(Unread(ds, l), m) > 0
            && (forall k | Cover(Unread(ds, l), k) > 0 :: m <= k)
  {
    var d := ds[0];
    assert d in ds && DutyOk(d, hi);
    MinStartFacts(ds[1..], l.cur, hi);
    FlatHead(ds);
    var m := MinStart(ds[1..], l.cur);
    forall k
      ensures Cover(Unread(ds, l), k) ==
              (if l.cur <= k <= l.last then 1 else 0) + Cover(d.chunks[1..], k) + Cover(Flat(ds[1..]), k)
    {
      UnreadFacts(ds, l, k);
      CoverAppend(d.chunks[1..], Flat(ds[1..]), k);
    }
    forall k | Cover(d.chunks[1..], k) > 0 ensures l.cur < k {
      CoverPositive(d.chunks[1..], k);
      var a :| 0 <= a < |d.chunks[1..]| && d.chunks[1..][a].Holds(k);
      assert d.chunks[0].last < d.chunks[a + 1].start;
    }
  }

  lemma LinkScan(c: Config, s: State, j: Link)
    requires Inv(c, s) && Work(s, j) != []
    ensures var m := ConnByte(s.segs, j, s.link.At(j).cursor, s.link.At(j).cur);
            && Cover(Left(s, j), m) > 0 && 0 <= m <= s.lastOff
            && (forall k | Cover(Left(s, j), k) > 0 :: m <= k)
    ensures !IsIdle(s.link.At(j))
  {
    InvBoth(c, s, j);
    ScanOfLink(s, j);
    ScanIsSmallest(Work(s, j), s.link.At(j), s.lastOff);
    var m := ConnByte(s.segs, j, s.link.At(j).cursor, s.link.At(j).cur);
    LeftOk(c, s, j);
    CoverPositive(Left(s, j), m);
  }

  lemma MissingIff(c: Config, s: State, k: int)
    requires Inv(c, s)
    ensures 0 <= k < c.Size() && k !in s.file <==>
            Cover(Left(s, 0), k) > 0 || Cover(Left(s, 1), k) > 0 || s.lastOff < k < c.Size()
  {
    BooksAt(c, s.file, s.done, s.lastOff, Left(s, 0), Left(s, 1), [], k);
  }

  /** With both links active the scan over head chunks yields exactly the smallest missing
      offset, recovered segments included. */
  lemma BothActiveExact(c: Config, s: State)
    requires ConfigOk(c) && Inv(c, s) && Work(s, 0) != [] && Work(s, 1) != []
    ensures IsFirstMissing(c, s, FoundInorder(c, s))
  {
    LinkScan(c, s, 0);
    LinkScan(c, s, 1);
    var x := FoundInorder(c, s);
    MissingIff(c, s, x);
    forall k | 0 <= k < x ensures k in s.file { MissingIff(c, s, k); }
  }

  /** No subsegment of link `i` beyond its cursor starts below the byte it reads next. */
  ghost predicate NothingPendingBelow(s: State, i: Link) {
    var k := FirstAt(s.segs, i, 0);
    forall m | k < m < |s.segs| && s.segs[m].sub.At(i).Some? ::
      s.link.At(i).cur <= Head(s.segs[m].sub.At(i).value.chunks).start
  }

  lemma {:induction false} MinStartAt(ds: seq<Duty>, b: int)
    ensures MinStart(ds, b) == b <==> forall d | d in ds :: b <= Head(d.chunks).start
    ensures MinStart(ds, b) <= b
  {
    if ds != [] {
      var h := Head(ds[0].chunks).start;
      MinStartAt(ds[1..], if h < b then h else b);
      if h >= b {
        assert forall d | d in ds :: d == ds[0] || d in ds[1..];
        if MinStart(ds[1..], b) != b {
          var d :| d in ds[1..] && Head(d.chunks).start < b;
          assert d in ds;
        }
      } else {
        assert ds[0] in ds;
      }
    }
  }

  lemma {:induction false} DutyFrom(gs: seq<Seg>, j: Link, d: Duty) returns (x: nat)
    requires d in Duties(gs, j)
    ensures x < |gs| && gs[x].sub.At(j).Some? && DutyOf(gs[x], j) == d
  {
    if gs[0].sub.At(j).Some? && d == DutyOf(gs[0], j) {
      x := 0;
    } else {
      var y := DutyFrom(gs[1..], j, d);
      x := y + 1;
    }
  }

  /** The same on the list and its value: starts behind position `k` against those of the work there. */
  lemma StartsBehind(gs: seq<Seg>, i: Link, k: nat, cur: int)
    requires k < |gs|
    ensures (forall m | k < m < |gs| && gs[m].sub.At(i).Some? :: cur <= Head(gs[m].sub.At(i).value.chunks).start)
            <==> (forall d | d in Duties(gs[k + 1..], i) :: cur <= Head(d.chunks).start)
  {
    var rest := gs[k + 1..];
    var ds := Duties(rest, i);
    if forall d | d in ds :: cur <= Head(d.chunks).start {
      forall m | k < m < |gs| && gs[m].sub.At(i).Some?
        ensures cur <= Head(gs[m].sub.At(i).value.chunks).start
      {
        assert rest[m - k - 1] == gs[m];
        DutyIn(rest, i, m - k - 1);
      }
    } else {
      var d :| d in ds && cur > Head(d.chunks).start;
      var x := DutyFrom(rest, i, d);
      assert gs[k + 1 + x] == rest[x];
    }
  }

  lemma PendingBelow(s: State, i: Link)
    requires Work(s, i) != []
    ensures NothingPendingBelow(s, i) <==>
            MinStart(Work(s, i)[1..], s.link.At(i).cur) == s.link.At(i).cur
  {
    SearchSecond(s.segs, i);
    StartsBehind(s.segs, i, FirstAt(s.segs, i, 0), s.link.At(i).cur);
    MinStartAt(Work(s, i)[1..], s.link.At(i).cur);
  }

  /** With one active link the code returns its cursor. That is the smallest missing offset
      if and only if nothing assigned to the link beyond its cursor starts below it. */
  lemma OneActiveExactIff(c: Config, s: State, i: Link)
    requires ConfigOk(c) && Inv(c, s) && Work(s, i) != [] && Work(s, Other(i)) == []
    ensures FoundInorder(c, s) == s.link.At(i).cur
    ensures IsFirstMissing(c, s, FoundInorder(c, s)) <==> NothingPendingBelow(s, i)
  {
    InvBoth(c, s, i);
    LinkScan(c, s, i);
    PendingBelow(s, i);
    ScanOfLink(s, i);
    var cur := s.link.At(i).cur;
    var m := ConnByte(s.segs, i, s.link.At(i).cursor, cur);
    MinStartAt(Work(s, i)[1..], cur);
    MissingIff(c, s, m);
    assert Left(s, Other(i)) == [];
    if m == cur {
      forall k | 0 <= k < m ensures k in s.file { MissingIff(c, s, k); }
    }
  }

  /** Both links are idle exactly when the whole file is written. */
  lemma BothIdleIffDone(c: Config, s: State)
    requires ConfigOk(c) && Inv(c, s)
    ensures IsIdle(s.link.lte) && IsIdle(s.link.wifi) <==> s.done == c.Size()
  {
    DoneIffAllWritten(c, s);
    InvBoth(c, s, 1);
  }
}
