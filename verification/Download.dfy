/**
 * The scheduler in place: connections, cursors and counters are fields that the operations of
 * src/gb.c, src/recovery.c and src/algo_general.c update. Every method is proved to do what the
 * function of the same purpose in module Scheduler says.
 */
module Download {
  import opened Pairs
  import opened Chunks
  import opened Scheduler
  import opened DutyLemmas
  import opened Invariant
  import opened Finishing
  import opened Assigning
  import opened Setup
  import opened Turns
  import Runs
  import opened SegmentList
  import opened Splitting

  /** The download half of `conn_t`, with the server side of its socket. */
  datatype Connection = Connection(cur: int, last: int, enabled: bool, pipelined: bool, lastSegment: bool, net: Net)

  function IdOf(p: Segment?): Option<nat> { if p == null then None else Some(p.id) }

  /** `gb_t`. */
  class GreenBag {
    const conf: Config
    const offsets: OffsetInfo
    var conn: Pair<Connection>
    var connection: Pair<Segment?>   // offset_info.connection
    var idle: Pair<bool>             // offset_info.conn_idle
    var single: bool                 // offset_info.single_link_mode_flag
    var bytesDone: int
    var inorderOffset: int
    var lastDownloadedByte: int
    var ready: bool
    var file: map<int, Option<Byte>>

    /** A cursor points into the list or at a segment that is already deleted. */
    ghost predicate Valid()
      reads this`connection, offsets, offsets.segs
    {
      && offsets.Valid()
      && Known(connection.lte) && Known(connection.wifi)
    }

    ghost predicate Known(p: Segment?)
      reads offsets
    {
      p != null ==> p in offsets.segs || p.id <= offsets.completedCount
    }

    function LinkView(j: Link): Conn
      reads this`connection, this`idle, this`conn
    {
      var c := conn.At(j);
      Conn(c.cur, c.last, c.enabled, c.pipelined, c.lastSegment, IdOf(connection.At(j)), idle.At(j), c.net)
    }

    ghost function View(): State
      reads this, offsets
    {
      State(offsets.view, offsets.segmentCount, offsets.completedCount, offsets.lastSegOffset, single,
            Pair(LinkView(0), LinkView(1)), bytesDone, inorderOffset, lastDownloadedByte, ready, file)
    }

    constructor (conf: Config)
      ensures Valid() && offsets.segs == [] && View() == EMPTY && this.conf == conf && fresh(offsets)
    {
      this.conf := conf;
      offsets := new OffsetInfo();
      var blank := Connection(0, -1, false, false, false, CLOSED);
      conn, connection, idle, single := Pair(blank, blank), Pair(null, null), Pair(false, false), false;
      bytesDone, inorderOffset, lastDownloadedByte, ready, file := 0, 0, 0, false, map[];
    }

    /** A cursor that agrees with the link's work points at its first segment. */
    lemma CursorIn(j: Link, slack: bool)
      requires Valid() && connection.At(j) != null
      requires LinkOk(Work(View(), j), View().link.At(j), slack)
      ensures var k := FirstAt(offsets.view, j, 0);
              && k < |offsets.segs| && connection.At(j) == offsets.segs[k]
              && connection.At(j).sub.At(j).Some?
              && Work(View(), j) != [] && Work(View(), j)[0] == DutyOf(connection.At(j).View(), j)
    {
      ghost var s := View();
      assert s.link.At(j).cursor.Some?;
      CursorSeg(s, j, slack);
      assert connection.At(j).id > offsets.completedCount;
      offsets.Positions(connection.At(j));
    }

    /** In every reachable state the search from the head gives the cached cursor. */
    method SearchAgrees(j: Link) returns (r: Segment?)
      requires Valid() && LinkOk(Work(View(), j), View().link.At(j), false)
      ensures r == connection.At(j)
    {
      r := offsets.SegmentBeingDownloaded(j);
      SearchFirst(View().segs, j);
      if connection.At(j) != null { CursorIn(j, false); }
    }

    // -------------------------------------------------------------- reading and the in-order scan

    /** `read` and `write_received_data`. */
    method WriteReceivedData(i: Link, n: nat)
      requires Valid()
      modifies this`conn, this`bytesDone, this`file
      ensures Valid() && View() == Write(conf, old(View()), i, n)
    {
      ghost var s := View();
      var c := conn.At(i);
      var data := BodyBytes(conf, c.net, n);
      file := WriteAt(file, c.cur, data);
      conn := conn.With(i, c.(cur := c.cur + n, net := c.net.(body := Chunk(c.net.body.start + n, c.net.body.last))));
      bytesDone := bytesDone + n;
      IsWritten(conf, s, i, n, View());
    }

    /** `is_using_only_one_link`. */
    predicate UsingOnlyOneLink()
      reads this`idle
    {
      idle.lte != idle.wifi
    }

    /** The scan of `update_inorder_offset` for both links at once. */
    method ScanHeads() returns (byte: Pair<int>)
      requires Valid()
      ensures var s := View();
              byte == Pair(ConnByte(s.segs, 0, s.link.lte.cursor, s.link.lte.cur),
                           ConnByte(s.segs, 1, s.link.wifi.cursor, s.link.wifi.cur))
    {
      byte := Pair(conn.lte.cur, conn.wifi.cur);
      var p := offsets.head;
      ghost var gs := offsets.view;
      ghost var k := 0;
      ghost var cu0, cu1 := LinkView(0).cursor, LinkView(1).cursor;
      ghost var goal := Pair(ConnByte(gs, 0, cu0, byte.lte), ConnByte(gs, 1, cu1, byte.wifi));
      assert gs[0..] == gs;
      while p != null
        invariant Valid() && 0 <= k <= |offsets.segs| && p == offsets.Nth(k)
        invariant cu0 == LinkView(0).cursor && cu1 == LinkView(1).cursor
        invariant goal == Pair(ConnByte(gs[k..], 0, cu0, byte.lte), ConnByte(gs[k..], 1, cu1, byte.wifi))
        decreases |offsets.segs| - k
      {
        offsets.NextOf(k);
        assert gs[k..][1..] == gs[k + 1..];
        assert p == connection.lte <==> cu0 == Some(gs[k].id) by { SameNode(p, connection.lte); }
        assert p == connection.wifi <==> cu1 == Some(gs[k].id) by { SameNode(p, connection.wifi); }
        if p != connection.lte && p.sub.lte.Some? && Head(p.sub.lte.value.chunks).start < byte.lte {
          byte := byte.With(0, Head(p.sub.lte.value.chunks).start);
        }
        if p != connection.wifi && p.sub.wifi.Some? && Head(p.sub.wifi.value.chunks).start < byte.wifi {
          byte := byte.With(1, Head(p.sub.wifi.value.chunks).start);
        }
        p := p.next;
        k := k + 1;
      }
      assert gs[k..] == [];
    }

    /** Within the list, nodes are told apart by their ids. */
    lemma SameNode(p: Segment, q: Segment?)
      requires Valid() && p in offsets.segs && Known(q)
      ensures p == q <==> q != null && q.id == p.id
    {
      offsets.Positions(p);
      if q != null && q in offsets.segs { offsets.Positions(q); }
    }

    /** The offset that `update_inorder_offset` finds, once the idle marks are set. */
    method FindInorder() returns (found: int)
      requires Valid()
      requires idle == Pair(conn.lte.cur == conn.lte.last + 1, conn.wifi.cur == conn.wifi.last + 1)
      ensures found == FoundInorder(conf, View())
    {
      found := 0;
      if !UsingOnlyOneLink() {
        if idle.lte && idle.wifi {
          found := conf.Size() - 1;
        } else {
          if bytesDone == conf.Size() { found := conf.Size() - 1; }
          var byte := ScanHeads();
          found := Min(byte.lte, byte.wifi);
        }
      } else if !idle.lte {
        found := conn.lte.cur;
      } else {
        found := conn.wifi.cur;
      }
    }

    /** `update_inorder_offset`. */
    method UpdateInorderOffset()
      requires Valid()
      modifies this`idle, this`inorderOffset
      ensures Valid() && View() == UpdateInorder(conf, old(View()))
    {
      ghost var s := View();
      idle := Pair(conn.lte.cur == conn.lte.last + 1, conn.wifi.cur == conn.wifi.last + 1);
      assert View() == s.(link := UpdateInorder(conf, s).link);
      IdleMarksOnly(conf, s, View());
      inorderOffset := FindInorder();
    }

    // -------------------------------------------------------------- dividing a segment

    /** One link's part of `get_virtual_seg_size`. */
    method LoadOf(ci: Link, j: Link) returns (v: int)
      requires Valid() && (connection.At(j) != null ==> connection.At(j) in offsets.segs)
      ensures v == Contribution(View(), ci, j)
    {
      var p := connection.At(j);
      if p == null { return 0; }
      v := offsets.LaterSizes(p, j);
      if j != ci { v := v + (conn.At(j).last - conn.At(j).cur + 1); }
    }

    ghost predicate CursorsListed()
      reads this`connection, offsets
    {
      && (connection.lte != null ==> connection.lte in offsets.segs)
      && (connection.wifi != null ==> connection.wifi in offsets.segs)
    }

    /** `get_virtual_seg_size`. */
    method VirtualSegSize(ci: Link) returns (v: int)
      requires Valid() && offsets.segs != [] && CursorsListed()
      ensures v == VirtualSize(View(), ci)
    {
      if offsets.numSegments == 1 { return offsets.head.size; }
      var v0 := LoadOf(ci, 0);
      var v1 := LoadOf(ci, 1);
      v := v0 + v1 + offsets.tail.size;
    }

    /** The size computation of `add_new_subsegment`. */
    method ShareOf(ci: Link, t: nat, a: nat) returns (x: int)
      requires Valid() && offsets.segs != []
      requires !offsets.tail.recovery ==> CursorsListed()
      ensures x == Share(conf, View(), ci, t, a)
    {
      var size := offsets.tail.size;
      if conf.fixedSubsegment { return Ratio(size, t, a); }
      if offsets.tail.recovery {
        x := Ratio(size, t, a);
      } else {
        var v := VirtualSegSize(ci);
        x := Ratio(v, t, a);
      }
      if x > size { x := size; }
    }

    /** Stores both parts of the tail segment. */
    method AssignParts(fast: Link, a: Option<Subsegment>, b: Option<Subsegment>)
      requires Valid() && offsets.segs != [] && offsets.tail.sub == Pair(None, None)
      modifies offsets.tail`sub, offsets`view
      ensures Valid()
      ensures offsets.view == WithParts(old(offsets.view), fast, a, b)
    {
      ghost var k := |offsets.segs| - 1;
      offsets.NextOf(k);
      offsets.AssignSub(offsets.tail, fast, a);
      offsets.AssignSub(offsets.tail, Other(fast), b);
      BothParts(old(offsets.view), fast, a, b);
    }

    /** The sizes and chunk lists of both parts of the tail segment. */
    method Parts(ci: Link, t: nat, a: nat, fast: Link, ghost hi: int)
      returns (front: Option<Subsegment>, back: Option<Subsegment>)
      requires Valid() && offsets.segs != [] && Whole(Tail(View()), hi)
      requires Tail(View()).recovery || (CursorsListed() && VirtualSize(View(), ci) >= 0)
      ensures ArePartsOf(conf, View(), ci, t, a, fast, front, back)
    {
      var seg := offsets.tail;
      assert Tail(View()) == seg.View();
      ShareBounds(conf, View(), ci, t, a);
      var share := ShareOf(ci, t, a);
      var size := if fast == ci then share else seg.size - share;
      var f, b := HandOut(seg.chunks, size, seg.size - size);
      front, back := MakeSub(f, size), MakeSub(b, seg.size - size);
    }

    /** `add_new_subsegment`. */
    method AddNewSubsegment(ci: Link, t: nat, a: nat, goodput: Pair<nat>, ghost hi: int)
      requires Valid() && offsets.segs != [] && Whole(Tail(View()), hi)
      requires Tail(View()).recovery || (CursorsListed() && VirtualSize(View(), ci) >= 0)
      modifies offsets.tail`sub, offsets`view
      ensures Valid() && View() == AddSubsegments(conf, old(View()), ci, t, a, Fast(goodput))
    {
      ghost var s := View();
      var fast := Fast(goodput);
      var front, back := Parts(ci, t, a, fast, hi);
      assert offsets.tail.View() == Tail(s);
      AssignParts(fast, front, back);
      IsDivided(conf, s, View(), ci, t, a, fast, front, back);
    }

    /** `gb_determine_next_subsegment`. */
    method DetermineNextSubsegment(i: Link, inp: Input, mode: int, ghost hi: int)
      requires Valid() && offsets.segs != [] && Whole(Tail(View()), hi)
      requires Tail(View()).recovery || (CursorsListed() && VirtualSize(View(), 0) >= 0 && VirtualSize(View(), 1) >= 0)
      modifies offsets.tail`sub, offsets`view
      ensures Valid() && View() == Subdivide(conf, old(View()), i, inp, mode)
    {
      if mode == 1 || mode == 2 {
        AddNewSubsegment(mode - 1, 1, 0, inp.goodput, hi);
      } else if conf.fixedSubsegment {
        AddNewSubsegment(i, conf.rate.At(i), conf.rate.At(Other(i)), inp.goodput, hi);
      } else {
        AddNewSubsegment(i, inp.goodput.At(i), inp.goodput.At(Other(i)), inp.goodput, hi);
      }
    }

    // -------------------------------------------------------------- the next segment

    lemma AllListed(i: Link)
      requires Valid()
      requires LinkOk(Work(View(), i), View().link.At(i), true)
      requires LinkOk(Work(View(), Other(i)), View().link.At(Other(i)), true)
      ensures CursorsListed()
    {
      if connection.At(i) != null { CursorIn(i, true); }
      if connection.At(Other(i)) != null { CursorIn(Other(i), true); }
    }

    /** `add_new_segment` for an ordinary segment of `size` bytes after everything assigned. */
    method AddNextSegment(size: int)
      requires Valid() && size > 0
      modifies offsets, offsets.segs
      ensures Valid() && View() == AddNext(conf, old(View()), size)
      ensures fresh(offsets.tail) && offsets.segs == old(offsets.segs) + [offsets.tail]
    {
      var start := offsets.lastSegOffset + 1;
      var g := offsets.AddNewSegment(false, [Chunk(start, start + size - 1)], size);
      offsets.NextOf(|offsets.segs| - 1);
    }

    /** Chooses the link mode and divides the segment just added to `b`. */
    method DivideNext(i: Link, inp: Input, ghost b: State, ghost size: int)
      requires Valid() && View() == AddNext(conf, b, size) && CursorsListed()
      requires Divisible(conf, b, i, size)
      modifies offsets.tail`sub, offsets`view, this`single
      ensures Valid() && View() == MakeSegment(conf, b, i, inp, size)
    {
      var mode := 0;
      ghost var s := View();
      DivisibleNext(conf, b, i, size, conf.minEnergy && s.completed > 0, inp.mode != 0);
      if conf.minEnergy && offsets.completedCount > 0 {
        mode := inp.mode;
        single := mode != 0;
      }
      DetermineNextSubsegment(i, inp, mode, s.lastOff);
    }

    /** The part of `gb_setup_next_segment` after the size is known. */
    method MakeNextSegment(i: Link, inp: Input, size: int)
      requires Valid() && Divisible(conf, View(), i, size)
      modifies offsets, offsets.segs, this`single
      ensures Valid() && View() == MakeSegment(conf, old(View()), i, inp, size)
      ensures offsets.segs != [] && fresh(offsets.tail) && offsets.segs == old(offsets.segs) + [offsets.tail]
    {
      ghost var b := View();
      AllListed(i);
      AddNextSegment(size);
      DivideNext(i, inp, b, size);
    }

    /** `gb_determine_next_segment_size` without the list update. */
    method NextSegmentSize(inp: Input) returns (n: int)
      ensures n == NextSize(conf, View(), inp)
    {
      if conf.fixedSegment {
        n := conf.initSeg;
        if UsingOnlyOneLink() { n := n / 2; }
      } else {
        n := inp.policy;
      }
      if conf.Size() - 1 - (offsets.lastSegOffset + n) < conf.initSeg { n := conf.Size() - offsets.lastSegOffset - 1; }
    }

    /** Variable mode runs the in-order search before it sizes a segment (src/gb.c:594). */
    method PrepareSizing()
      requires Valid()
      modifies this`idle, this`inorderOffset
      ensures Valid() && View() == BeforeSizing(conf, old(View()))
    {
      if !conf.fixedSegment { UpdateInorderOffset(); }
    }

    /** `gb_determine_next_segment_size` and what follows it in `gb_setup_next_segment`. */
    method SetupOrdinary(i: Link, inp: Input) returns (made: bool)
      requires Valid() && ConfigOk(conf) && inp.policy >= conf.initSeg && Core(conf, View(), i, true)
      modifies this`idle, this`inorderOffset, offsets, offsets.segs, this`single
      ensures Valid() && (made, View()) == NewSegment(conf, old(View()), i, inp)
      ensures made ==> offsets.segs != [] && fresh(offsets.tail) && offsets.segs == old(offsets.segs) + [offsets.tail]
      ensures !made ==> offsets.segs == old(offsets.segs)
    {
      NextDivisible(conf, View(), i, inp);
      PrepareSizing();
      var n := NextSegmentSize(inp);
      if n == 0 { return false; }
      MakeNextSegment(i, inp, n);
      return true;
    }

    // -------------------------------------------------------------- recovery

    /** `perform_recovery` disconnects the other link. */
    method DisableLink(o: Link)
      requires Valid()
      modifies this`conn
      ensures Valid()
      ensures var s := old(View());
              View() == s.(link := s.link.With(o, s.link.At(o).(enabled := false, net := CLOSED)))
    {
      conn := conn.With(o, conn.At(o).(enabled := false, net := CLOSED));
    }

    /** The walk: link `o` gives its chunks back. */
    method TakeChunksBack(o: Link, ghost plan: seq<Stop>, ghost goal: seq<Seg>) returns (back: seq<Chunk>)
      requires Valid() && plan != [] && PlanOk(plan, o, goal) && offsets.view == plan[0].gs
      requires 0 <= plan[0].at < |offsets.segs| && connection.At(o) == offsets.segs[plan[0].at]
      modifies offsets, offsets.segs
      ensures Valid() && Suffix(offsets.segs, old(offsets.segs)) && offsets.view == goal && back == plan[0].rest
      ensures offsets.segmentCount == old(offsets.segmentCount) && offsets.lastSegOffset == old(offsets.lastSegOffset)
    {
      ghost var nodes, before := offsets.segs, offsets.completedCount;
      back := offsets.CollectFrom(connection.At(o), o, plan, goal);
      StillKnown(connection.lte, nodes, before);
      StillKnown(connection.wifi, nodes, before);
    }

    /** Deleting segments at the head leaves every known segment listed or completed. */
    lemma StillKnown(p: Segment?, nodes: seq<Segment>, before: nat)
      requires offsets.Valid() && Suffix(offsets.segs, nodes)
      requires offsets.completedCount + |offsets.segs| == before + |nodes|
      requires forall x | 0 <= x < |nodes| :: nodes[x].id == before + 1 + x
      requires p != null ==> p in nodes || p.id <= before
      ensures Known(p)
    {
      if p != null && p in nodes {
        var x :| 0 <= x < |nodes| && nodes[x] == p;
        var d := |nodes| - |offsets.segs|;
        if x >= d { assert offsets.segs[x - d] == p; }
      }
    }

    /** Disconnect and walk; the first chunk starts at the byte the link was to read next. */
    method DetachAlong(o: Link, ghost plan: seq<Stop>, ghost goal: seq<Seg>) returns (back: seq<Chunk>)
      requires Valid() && plan != [] && PlanOk(plan, o, goal) && offsets.view == plan[0].gs && plan[0].rest != []
      requires 0 <= plan[0].at < |offsets.segs| && connection.At(o) == offsets.segs[plan[0].at]
      modifies this`conn, offsets, offsets.segs
      ensures Valid() && Suffix(offsets.segs, old(offsets.segs))
      ensures back == [Chunk(old(conn).At(o).cur, plan[0].rest[0].last)] + plan[0].rest[1..]
      ensures var s := old(View());
              View() == s.(link := s.link.With(o, s.link.At(o).(enabled := false, net := CLOSED)),
                           segs := goal, completed := View().completed)
    {
      DisableLink(o);
      back := TakeChunksBack(o, plan, goal);
      back := [Chunk(conn.At(o).cur, back[0].last)] + back[1..];
    }

    /** The disconnect in `perform_recovery` and the walk. */
    method DetachLink(o: Link) returns (back: seq<Chunk>)
      requires Valid() && DutiesOk(Work(View(), o), offsets.lastSegOffset)
      requires LinkOk(Work(View(), o), View().link.At(o), false) && Work(View(), o) != []
      modifies this`conn, offsets, offsets.segs
      ensures Valid() && View() == Detach(old(View()), o)
      ensures back == Unread(old(Work(View(), o)), old(View().link.At(o)))
      ensures Suffix(offsets.segs, old(offsets.segs))
    {
      ghost var s := View();
      ghost var plan, goal := DetachFacts(conf, s, o);
      CursorIn(o, false);
      back := DetachAlong(o, plan, goal);
      IsDetached(s, View(), o, goal);
    }

    /** The taken-back chunks with the next part of the file behind them. */
    method ExtendPool(back: seq<Chunk>, inp: Input) returns (list: seq<Chunk>)
      ensures list == Pool(conf, View(), back, inp)
    {
      var ext := if conf.fixedSegment then conf.initSeg else inp.policy;
      if conf.Size() - 1 - (offsets.lastSegOffset + ext) < conf.initSeg {
        ext := conf.Size() - offsets.lastSegOffset - 1;
      }
      list := back;
      if ext != 0 {
        var start := offsets.lastSegOffset + 1;
        list := list + [Chunk(start, start + ext - 1)];
      }
    }

    /** `add_new_segment` for a recovered segment. */
    method AddRecoveredSegment(list: seq<Chunk>)
      requires Valid() && list != []
      modifies offsets, offsets.segs
      ensures Valid() && View() == AddSegment(old(View()), true, list, Total(list))
      ensures offsets.segs == old(offsets.segs) + [offsets.tail] && fresh(offsets.tail)
    {
      var size := SumSizes(list);
      var g := offsets.AddNewSegment(true, list, size);
      offsets.NextOf(|offsets.segs| - 1);
    }

    /** Points a link's cursor at the tail segment. */
    method PointAtTail(o: Link)
      requires Valid() && offsets.segs != []
      modifies this`connection
      ensures Valid() && connection.At(o) == offsets.tail
      ensures View() == old(View()).(
                link := old(View()).link.With(o, old(LinkView(o)).(cursor := Some(offsets.segmentCount))))
    {
      offsets.NextOf(|offsets.segs| - 1);
      connection := connection.With(o, offsets.tail);
      assert LinkView(Other(o)) == old(LinkView(Other(o)));
    }

    /** Adds the recovered segment and points link `o` at it. */
    method LinkRecovered(o: Link, list: seq<Chunk>)
      requires Valid() && list != []
      modifies this`connection, offsets, offsets.segs
      ensures Valid() && View() == WithRecovered(old(View()), o, list)
      ensures offsets.segs == old(offsets.segs) + [offsets.tail] && fresh(offsets.tail)
    {
      ghost var b := View();
      AddRecoveredSegment(list);
      ghost var r := View();
      PointAtTail(o);
      IsWithRecovered(b, r, View(), o, list);
    }

    /** The second half of `recover_outorder_portion_and_next_segment`: sizes the extension and
        adds the recovered segment. */
    method AddRecovered(o: Link, back: seq<Chunk>, inp: Input)
      requires Valid() && back != []
      modifies this`idle, this`inorderOffset, this`connection, offsets, offsets.segs
      ensures Valid()
      ensures var b := BeforeSizing(conf, old(View())); View() == WithRecovered(b, o, Pool(conf, b, back, inp))
      ensures offsets.segs == old(offsets.segs) + [offsets.tail] && fresh(offsets.tail)
    {
      PrepareSizing();
      var list := ExtendPool(back, inp);
      LinkRecovered(o, list);
    }

    /** `recover_outorder_portion_and_next_segment` with the disconnect before it. */
    method RecoverOutorder(i: Link, inp: Input)
      requires Valid() && Part(conf, View(), Other(i), false) && Work(View(), Other(i)) != []
      modifies this`conn, this`idle, this`inorderOffset, this`connection, offsets, offsets.segs
      ensures Valid() && View() == Recover(conf, old(View()), i, inp)
      ensures offsets.segs != [] && fresh(offsets.tail)
      ensures forall x | x in offsets.segs :: x in old(offsets.segs) || fresh(x)
    {
      ghost var nodes := offsets.segs;
      var back := DetachLink(Other(i));
      ghost var kept := offsets.segs;
      InSuffix(kept, nodes);
      AddRecovered(Other(i), back, inp);
      InGrown(offsets.segs, kept, nodes, offsets.tail);
    }

    /** The next segment of a recovery: taken-back bytes and extension, divided in dual-link mode. */
    method RecoverAndDivide(i: Link, inp: Input)
      requires Valid() && ConfigOk(conf) && inp.policy >= conf.initSeg
      requires Core(conf, View(), i, true) && Work(View(), Other(i)) != []
      modifies this`conn, this`idle, this`inorderOffset, this`connection, offsets, offsets.segs
      ensures Valid() && View() == Subdivide(conf, Recover(conf, old(View()), i, inp), i, inp, 0)
      ensures forall x | x in offsets.segs :: x in old(offsets.segs) || fresh(x)
    {
      ghost var hi := RecoveredWhole(conf, View(), i, inp);
      RecoverOutorder(i, inp);
      DetermineNextSubsegment(i, inp, 0, hi);
    }

    /** `get_conn_order_case`; its last case, reported as wrong there, is treated as behind. */
    method GetOrderCase(i: Link) returns (order: Order)
      requires Valid() && Known(connection.At(i)) && offsets.segs != []
      ensures order == OrderCase(View(), i)
    {
      offsets.NextOf(|offsets.segs| - 1);
      SameNode(offsets.tail, connection.At(i));
      if offsets.numSegments == 1 { return OneSegment; }
      if connection.At(i) == offsets.tail { return Ahead; }
      return Behind;
    }

    /** The guards of `decide_recovery_mode`. */
    method DecideRecoveryMode(i: Link, inp: Input) returns (yes: bool)
      requires Valid() && CursorsListed() && connection.At(i) != null
      ensures yes == DecideRecovery(conf, View(), i, inp)
    {
      var p, q := connection.At(i), connection.At(Other(i));
      if !conf.recovery || single || q == null { return false; }
      offsets.Positions(p);
      offsets.Positions(q);
      if q.sub.At(Other(i)).None? || i != Fast(inp.goodput) { return false; }
      yes := !(p.recovery && q.recovery) && inp.wantRecovery;
    }

    /** Whether this link takes the other's work back. */
    method DecideToRecover(i: Link, inp: Input, order: Order) returns (yes: bool)
      requires Valid() && CursorsListed() && connection.At(i) != null && order == OrderCase(View(), i)
      ensures yes == Recovers(conf, View(), i, inp)
    {
      if order == Behind || (order == OneSegment && conn.At(i).cur >= conn.At(Other(i)).cur) { return false; }
      yes := DecideRecoveryMode(i, inp);
    }

    method MarkIdle(i: Link)
      requires Valid()
      modifies this`idle
      ensures Valid()
      ensures View() == old(View()).(link := old(View()).link.With(i, old(View()).link.At(i).(idle := true)))
    {
      idle := idle.With(i, true);
    }

    /** `gb_setup_next_segment` when there is no recovery. */
    method SetupUnrecovered(i: Link, inp: Input, order: Order) returns (made: bool)
      requires Valid() && ConfigOk(conf) && inp.policy >= conf.initSeg && offsets.segs != []
      requires Core(conf, View(), i, true) && order == OrderCase(View(), i) && !Recovers(conf, View(), i, inp)
      requires !Refuses(View(), i)
      modifies this`idle, this`inorderOffset, this`single, offsets, offsets.segs
      ensures Valid() && (made, View()) == SetupNext(conf, old(View()), i, inp)
      ensures offsets.segs != old(offsets.segs) ==>
                offsets.segs != [] && fresh(offsets.tail) && offsets.segs == old(offsets.segs) + [offsets.tail]
    {
      offsets.NextOf(|offsets.segs| - 1);
      if order == Ahead && conf.minEnergy && LastOf(offsets.tail.chunks).last == conf.Size() - 1 { return false; }
      made := SetupOrdinary(i, inp);
    }

    /** `gb_setup_next_segment` once it is neither refused by the last-segment flag nor made to
        wait behind a single-link segment. */
    method SetupAllowed(i: Link, inp: Input, order: Order) returns (made: bool)
      requires Valid() && ConfigOk(conf) && inp.policy >= conf.initSeg && offsets.segs != []
      requires Core(conf, View(), i, true) && order == OrderCase(View(), i)
      requires CursorsListed() && connection.At(i) != null && !Refuses(View(), i)
      modifies this`conn, this`idle, this`inorderOffset, this`connection, this`single, offsets, offsets.segs
      ensures Valid() && (made, View()) == SetupNext(conf, old(View()), i, inp)
      ensures forall x | x in offsets.segs :: x in old(offsets.segs) || fresh(x)
    {
      var recover := DecideToRecover(i, inp, order);
      if recover {
        RecoverHasWork(conf, View(), i, inp);
        RecoverAndDivide(i, inp);
        return true;
      }
      ghost var nodes := offsets.segs;
      made := SetupUnrecovered(i, inp, order);
      AddedOne(offsets.segs, nodes, offsets.tail);
    }

    /** `gb_setup_next_segment`. */
    method SetupNextSegment(i: Link, inp: Input) returns (made: bool)
      requires Valid() && ConfigOk(conf) && inp.policy >= conf.initSeg
      requires Core(conf, View(), i, true) && Work(View(), i) != []
      modifies this`conn, this`idle, this`inorderOffset, this`connection, this`single, offsets, offsets.segs
      ensures Valid() && (made, View()) == SetupNext(conf, old(View()), i, inp)
      ensures forall x | x in offsets.segs :: x in old(offsets.segs) || fresh(x)
    {
      CursorIn(i, true);
      AllListed(i);
      if conn.At(i).lastSegment { return false; }
      var order := GetOrderCase(i);
      if order == Behind && single {
        MarkIdle(i);
        return false;
      }
      made := SetupAllowed(i, inp, order);
    }

    // -------------------------------------------------------------- requests and responses

    /** `send_http_request_for_subsegment`: one request for every chunk, in order. */
    method SendRequest(j: Link, sub: Option<Subsegment>) returns (sent: bool)
      requires Valid()
      modifies this`conn
      ensures Valid() && LinkView(j) == Requested(old(LinkView(j)), sub)
      ensures LinkView(Other(j)) == old(LinkView(Other(j))) && sent == sub.Some?
    {
      if sub.None? { return false; }
      var chunks := sub.value.chunks;
      var pending := conn.At(j).net.pending;
      ghost var goal := pending + chunks;
      while chunks != []
        invariant pending + chunks == goal
        decreases |chunks|
      {
        pending := pending + [chunks[0]];
        chunks := chunks[1..];
      }
      var c := conn.At(j);
      conn := conn.With(j, c.(pipelined := true, net := c.net.(pending := pending)));
      return true;
    }

    /** `gb_receive_http_header_response`. */
    method ReceiveHeader(j: Link) returns (ok: bool)
      requires Valid()
      modifies this`conn
      ensures Valid() && ok == (old(conn).At(j).net.pending != [])
      ensures conn == old(conn).With(j, old(conn).At(j).(net := NextResponse(old(conn).At(j).net)))
    {
      var c := conn.At(j);
      ok := c.net.pending != [];
      if ok { conn := conn.With(j, c.(net := Net(c.net.pending[0], c.net.pending[1..]))); }
    }

    /** Points a link at a segment and at the first chunk of its subsegment, and marks the last
        segment (`checking_last_subseg`). */
    method PointAt(j: Link, p: Segment)
      requires Valid() && p in offsets.segs && p.sub.At(j).Some?
      modifies this`conn, this`connection
      ensures Valid() && LinkView(Other(j)) == old(LinkView(Other(j)))
      ensures var q := p.sub.At(j).value;
              LinkView(j) == old(LinkView(j)).(cursor := Some(p.id), cur := Head(q.chunks).start,
                                               last := Head(q.chunks).last,
                                               lastSegment := old(LinkView(j)).lastSegment || EndsFile(conf, q))
    {
      var q := p.sub.At(j).value;
      connection := connection.With(j, p);
      var c := conn.At(j).(cur := Head(q.chunks).start, last := Head(q.chunks).last);
      if LastOf(q.chunks).last == conf.Size() - 1 { c := c.(lastSegment := true); }
      conn := conn.With(j, c);
    }

    /** Reads the response header of an idle link, which is then active again. */
    method ResumeReceiving(o: Link)
      requires Valid()
      modifies this`conn, this`idle
      ensures Valid() && LinkView(Other(o)) == old(LinkView(Other(o)))
      ensures var l := old(LinkView(o));
              LinkView(o) == if l.net.pending == [] then l
                             else l.(enabled := true, pipelined := false, idle := false, net := NextResponse(l.net))
    {
      var ok := ReceiveHeader(o);
      if ok {
        conn := conn.With(o, conn.At(o).(enabled := true, pipelined := false));
        idle := idle.With(o, false);
      }
    }

    /** `return_downloading_for_idle_conn`. */
    method ReturnIdle(o: Link)
      requires Valid() && offsets.segs != [] && offsets.tail.sub.At(o).Some?
      modifies this`conn, this`connection, this`idle
      ensures Valid() && LinkView(Other(o)) == old(LinkView(Other(o)))
      ensures LinkView(o) == Resumed(conf, old(LinkView(o)), offsets.tail.id, offsets.tail.sub.At(o).value)
    {
      if connection.At(o) != null { return; }
      offsets.NextOf(|offsets.segs| - 1);
      PointAt(o, offsets.tail);
      ResumeReceiving(o);
    }

    /** `conn_init`: a new socket without outstanding requests. */
    method Reconnect(o: Link)
      requires Valid()
      modifies this`conn
      ensures Valid() && LinkView(Other(o)) == old(LinkView(Other(o)))
      ensures LinkView(o) == old(LinkView(o)).(net := CLOSED)
    {
      conn := conn.With(o, conn.At(o).(net := CLOSED));
    }

    /** Requests a subsegment and reads the first response header. */
    method StartReceiving(o: Link, q: Subsegment)
      requires Valid()
      modifies this`conn
      ensures Valid() && LinkView(Other(o)) == old(LinkView(Other(o)))
      ensures var l := Requested(old(LinkView(o)), Some(q));
              LinkView(o) == if l.net.pending == [] then l
                             else l.(enabled := true, pipelined := false, net := NextResponse(l.net))
    {
      var sent := SendRequest(o, Some(q));
      var ok := ReceiveHeader(o);
      if ok { conn := conn.With(o, conn.At(o).(enabled := true, pipelined := false)); }
    }

    /** `return_downloading_for_recovered_conn`. */
    method ReturnRecovered(o: Link)
      requires Valid() && offsets.segs != []
      modifies this`conn, this`connection
      ensures Valid() && LinkView(Other(o)) == old(LinkView(Other(o)))
      ensures LinkView(o) == Restarted(conf, old(LinkView(o)), offsets.tail.id, offsets.tail.sub.At(o))
    {
      offsets.NextOf(|offsets.segs| - 1);
      var sub := offsets.tail.sub.At(o);
      if sub.Some? {
        Reconnect(o);
        PointAt(o, offsets.tail);
        StartReceiving(o, sub.value);
      } else {
        connection := connection.With(o, null);
        conn := conn.With(o, conn.At(o).(cur := 1, last := 0));
      }
    }

    /** The requests for the other link's part of the tail segment. */
    method RequestOther(o: Link)
      requires Valid() && offsets.segs != []
      modifies this`conn, this`connection, this`idle
      ensures Valid() && LinkView(Other(o)) == old(LinkView(Other(o)))
      ensures LinkView(o) == OtherRequested(conf, old(LinkView(o)), offsets.tail.View(), o)
    {
      if !offsets.tail.recovery {
        var sent := SendRequest(o, offsets.tail.sub.At(o));
        if sent { ReturnIdle(o); }
      } else {
        ReturnRecovered(o);
      }
    }

    /** Requests both parts of the tail segment (src/algo_general.c:65-71). */
    method RequestTail(i: Link)
      requires Valid() && offsets.segs != []
      modifies this`conn, this`connection, this`idle
      ensures Valid() && View() == RequestBoth(conf, old(View()), i)
    {
      ghost var s := View();
      offsets.NextOf(|offsets.segs| - 1);
      var sent := SendRequest(i, offsets.tail.sub.At(i));
      RequestOther(Other(i));
      IsRequested(conf, s, View(), i);
    }

    /** Whether `checking_last_segment` finds the last byte of the file in the link's next segment. */
    method NextIsLast(j: Link) returns (last: bool)
      requires Valid() && (connection.At(j) != null ==> connection.At(j) in offsets.segs)
      ensures (LinkView(j).lastSegment || last) == LastSegmentFlag(conf, View(), j)
    {
      var p := connection.At(j);
      if p == null { return false; }
      var g := offsets.FirstNextAssigned(p, j);
      ghost var m := FirstAt(offsets.view, j, offsets.At(p) + 1);
      if g == null { return false; }
      assert offsets.view[m] == g.View();
      return LastOf(g.chunks).last == conf.Size() - 1;
    }

    /** One link's part of `checking_last_segment`. */
    method CheckLink(j: Link)
      requires Valid() && (connection.At(j) != null ==> connection.At(j) in offsets.segs)
      modifies this`conn
      ensures Valid() && LinkView(Other(j)) == old(LinkView(Other(j)))
      ensures LinkView(j) == old(LinkView(j)).(lastSegment := LastSegmentFlag(conf, old(View()), j))
    {
      var last := NextIsLast(j);
      if last { conn := conn.With(j, conn.At(j).(lastSegment := true)); }
    }

    /** `checking_last_segment`. */
    method CheckingLastSegment()
      requires Valid() && CursorsListed()
      modifies this`conn
      ensures Valid() && View() == CheckLastSegment(conf, old(View()))
    {
      ghost var s := View();
      CheckLink(0);
      ghost var t := View();
      CheckLink(1);
      IsChecked(conf, s, t, View());
    }

    /** Requests for the segment just set up, and the last-segment flags. */
    method RequestNext(i: Link)
      requires Valid() && offsets.segs != []
      requires var t := RequestBoth(conf, View(), i);
               LinkOk(Work(t, i), t.link.At(i), true) && LinkOk(Work(t, Other(i)), t.link.At(Other(i)), false)
      modifies this`conn, this`connection, this`idle
      ensures Valid() && View() == CheckLastSegment(conf, RequestBoth(conf, old(View()), i))
    {
      RequestTail(i);
      AllListed(i);
      CheckingLastSegment();
    }

    /** Set-up and requests, from a state in which the requests can be made. */
    method SetupThenRequest(i: Link, inp: Input)
      requires Valid() && ConfigOk(conf) && inp.policy >= conf.initSeg
      requires Core(conf, View(), i, true) && Work(View(), i) != [] && Requestable(conf, View(), i, inp)
      modifies this`conn, this`idle, this`inorderOffset, this`connection, this`single, offsets, offsets.segs
      ensures Valid() && View() == SetupAndRequest(conf, old(View()), i, inp)
      ensures forall k | 0 <= k < |offsets.segs| :: offsets.segs[k] in old(offsets.segs) || fresh(offsets.segs[k])
    {
      var made := SetupNextSegment(i, inp);
      if made { RequestNext(i); }
    }

    /** The pipelining step of `algo_general` (src/algo_general.c:60-74). */
    method SetupAndRequestNext(i: Link, inp: Input)
      requires Valid() && ConfigOk(conf) && inp.policy >= conf.initSeg
      requires InvFrom(conf, View(), i, true) && Work(View(), i) != []
      modifies this`conn, this`idle, this`inorderOffset, this`connection, this`single, offsets, offsets.segs
      ensures Valid() && View() == SetupAndRequest(conf, old(View()), i, inp)
      ensures forall k | 0 <= k < |offsets.segs| :: offsets.segs[k] in old(offsets.segs) || fresh(offsets.segs[k])
    {
      SetupRequestable(conf, View(), i, inp);
      SetupThenRequest(i, inp);
    }

    // -------------------------------------------------------------- finishing a chunk

    /** The header of the next response. */
    method ReceiveNext(i: Link)
      requires Valid()
      modifies this`conn
      ensures Valid() && LinkView(Other(i)) == old(LinkView(Other(i)))
      ensures var l := old(LinkView(i));
              LinkView(i) == l.(enabled := l.enabled || l.net.pending != [], net := NextResponse(l.net))
    {
      var ok := ReceiveHeader(i);
      if ok { conn := conn.With(i, conn.At(i).(enabled := true)); }
    }

    /** Clears the pipeline flag if segment `g` is the link's last one. */
    method CheckPipeline(i: Link, g: Segment, ghost m: nat)
      requires Valid() && m < |offsets.segs| && g == offsets.segs[m] && conn.At(i).pipelined
      modifies this`conn
      ensures Valid() && LinkView(Other(i)) == old(LinkView(Other(i)))
      ensures LinkView(i) == old(LinkView(i)).(pipelined := FirstAt(offsets.view, i, m + 1) < |offsets.segs|)
    {
      offsets.NextOf(m);
      var next := offsets.FirstNextAssigned(g, i);
      if next == null { conn := conn.With(i, conn.At(i).(pipelined := false)); }
    }

    /** Points the link at its next segment in the list. */
    method PointAtNext(i: Link, ghost k: nat, ghost m: nat) returns (g: Segment)
      requires Valid() && k < |offsets.segs| && connection.At(i) == offsets.segs[k]
      requires m == FirstAt(offsets.view, i, k + 1) && m < |offsets.segs|
      modifies this`conn, this`connection
      ensures Valid() && LinkView(Other(i)) == old(LinkView(Other(i)))
      ensures g == offsets.segs[m] && g.id == offsets.view[m].id
      ensures offsets.view[m].sub.At(i) == g.sub.At(i) && g.sub.At(i).Some?
      ensures var q := g.sub.At(i).value;
              LinkView(i) == old(LinkView(i)).(cursor := Some(g.id), cur := Head(q.chunks).start,
                                               last := Head(q.chunks).last,
                                               lastSegment := old(LinkView(i)).lastSegment || EndsFile(conf, q))
    {
      offsets.NextOf(k);
      g := offsets.FirstNextAssigned(connection.At(i), i);
      assert offsets.view[m] == g.View();
      PointAt(i, g);
    }

    /** The middle of `finish_downloading_subseg`: the link goes on with its next segment, whose
        requests are already sent. */
    method MoveToNextSubseg(i: Link, ghost k: nat, ghost m: nat)
      requires Valid() && k < |offsets.segs| && connection.At(i) == offsets.segs[k]
      requires m == FirstAt(offsets.view, i, k + 1) && m < |offsets.segs| && conn.At(i).pipelined
      modifies this`conn, this`connection
      ensures Valid() && LinkView(Other(i)) == old(LinkView(Other(i)))
      ensures LinkView(i) == Moved(conf, offsets.view, old(LinkView(i)), i, m)
    {
      ReceiveNext(i);
      var g := PointAtNext(i, k, m);
      CheckPipeline(i, g, m);
    }

    /** The other branches: the link has no further segment, and closes if there will be none. */
    method LeaveSubseg(i: Link)
      requires Valid()
      modifies this`conn, this`connection
      ensures Valid() && LinkView(Other(i)) == old(LinkView(Other(i)))
      ensures var l := old(LinkView(i));
              LinkView(i) == if l.last == conf.Size() - 1 || old(LinkView(Other(i))).last == conf.Size() - 1
                                || (single && i == INDEX_LTE) then l.(cursor := None, net := CLOSED)
                             else l.(cursor := None)
    {
      connection := connection.With(i, null);
      if conn.At(i).last == conf.Size() - 1 || conn.At(Other(i)).last == conf.Size() - 1 || (single && i == INDEX_LTE) {
        Reconnect(i);
      }
    }

    /** Deletes the finished segments at the head. */
    method DeleteFinished()
      requires Valid()
      modifies offsets
      ensures Valid() && View() == WithList(old(View()), TrimAll(old(offsets.view)))
      ensures Suffix(offsets.segs, old(offsets.segs))
    {
      ghost var s := View();
      ghost var goal := TrimAll(s.segs);
      offsets.DeleteFinishedHeads();
      IsListed(s, View(), goal);
    }

    /** The record of a link after its subsegment is finished. */
    method PassOn(i: Link, ghost k: nat)
      requires Valid() && k < |offsets.segs| && connection.At(i) == offsets.segs[k]
      requires conn.At(i).pipelined ==> FirstAt(offsets.view, i, k + 1) < |offsets.segs|
      modifies this`conn, this`connection
      ensures Valid() && LinkView(Other(i)) == old(LinkView(Other(i)))
      ensures LinkView(i) == PassedOn(conf, old(View()), i, k)
    {
      ghost var s := View();
      if conn.At(i).pipelined {
        ghost var m := FirstAt(offsets.view, i, k + 1);
        MoveToNextSubseg(i, k, m);
        IsMoved(conf, offsets.view, s.link.At(i), i, k, m);
      } else {
        LeaveSubseg(i);
      }
    }

    /** `finish_downloading_subseg`. */
    method FinishDownloadingSubseg(i: Link, ghost k: nat) returns (ghost l: Conn)
      requires Valid() && k < |offsets.segs| && connection.At(i) == offsets.segs[k]
      requires conn.At(i).pipelined ==> FirstAt(offsets.view, i, k + 1) < |offsets.segs|
      modifies this`conn, this`connection, offsets
      ensures Valid() && Suffix(offsets.segs, old(offsets.segs)) && l == PassedOn(conf, old(View()), i, k)
      ensures View() == Trimmed(old(View()), i, l)
    {
      ghost var s := View();
      PassOn(i, k);
      l := LinkView(i);
      ghost var t := View();
      assert t == s.(link := s.link.With(i, l));
      DeleteFinished();
    }

    /** `algo_general` disables a link before its next chunk. */
    method Disable(i: Link)
      requires Valid()
      modifies this`conn
      ensures Valid() && LinkView(Other(i)) == old(LinkView(Other(i)))
      ensures LinkView(i) == old(LinkView(i)).(enabled := false)
    {
      conn := conn.With(i, conn.At(i).(enabled := false));
    }

    /** Replaces the link's subsegment of a segment. */
    method SetChunks(i: Link, p: Segment, q: Option<Subsegment>, ghost k: nat)
      requires Valid() && k < |offsets.segs| && p == offsets.segs[k]
      modifies p`sub, offsets`view
      ensures Valid() && View() == old(View()).(segs := SetSub(old(offsets.view), k, i, q))
    {
      offsets.NextOf(k);
      offsets.AssignSub(p, i, q);
    }

    /** Positions the link at the first of the chunks `left` and reads its response header. */
    method ReceiveChunk(i: Link, left: seq<Chunk>)
      requires Valid() && left != []
      modifies this`conn
      ensures Valid()
      ensures var l := old(LinkView(i));
              View() == old(View()).(link := old(View()).link.With(i,
                l.(cur := left[0].start, last := left[0].last, net := NextResponse(l.net),
                   enabled := l.net.pending != [])))
    {
      conn := conn.With(i, conn.At(i).(enabled := false, cur := left[0].start, last := left[0].last));
      ReceiveNext(i);
    }

    /** The end of a chunk that is not the last one of its subsegment. */
    method NextChunk(i: Link, p: Segment, q: Subsegment, ghost k: nat)
      requires Valid() && k < |offsets.segs| && p == offsets.segs[k] && |q.chunks| > 1
      modifies this`conn, p`sub, offsets`view
      ensures Valid() && View() == WithNextChunk(old(View()), i, k, q)
    {
      ReceiveChunk(i, q.chunks[1..]);
      SetChunks(i, p, Some(Subsegment(q.chunks[1..], q.size)), k);
    }

    /** `algo_general` disables the link and deletes its subsegment. */
    method DeleteSubseg(i: Link, p: Segment, ghost k: nat)
      requires Valid() && k < |offsets.segs| && p == offsets.segs[k]
      modifies this`conn, offsets`view, p`sub
      ensures Valid() && View() == Deleted(old(View()), i, k)
    {
      ghost var s := View();
      Disable(i);
      ghost var t := View();
      assert t == s.(link := s.link.With(i, s.link.At(i).(enabled := false)));
      SetChunks(i, p, None, k);
    }

    /** The end of the last chunk of a subsegment. */
    method CloseSubseg(i: Link, p: Segment, ghost k: nat) returns (ghost m: State, ghost l: Conn)
      requires Valid() && k < |offsets.segs| && p == offsets.segs[k] && connection.At(i) == p
      requires conn.At(i).pipelined ==> FirstAt(offsets.view, i, k + 1) < |offsets.segs|
      modifies this`conn, this`connection, offsets, p`sub
      ensures Valid() && Suffix(offsets.segs, old(offsets.segs))
      ensures m == Deleted(old(View()), i, k) && l == PassedOn(conf, m, i, k) && View() == Trimmed(m, i, l)
    {
      SameAfter(offsets.view, SetSub(offsets.view, k, i, None), i, k + 1);
      DeleteSubseg(i, p, k);
      m := View();
      l := FinishDownloadingSubseg(i, k);
    }

    /** The chunk's end in either case. */
    method EndChunk(i: Link, p: Segment, q: Subsegment, ghost k: nat) returns (ghost m: State, ghost l: Conn)
      requires Valid() && k < |offsets.segs| && p == offsets.segs[k] && connection.At(i) == p
      requires conn.At(i).pipelined ==> FirstAt(offsets.view, i, k + 1) < |offsets.segs|
      modifies this`conn, this`connection, this`idle, this`inorderOffset, offsets, p`sub
      ensures Valid() && Suffix(offsets.segs, old(offsets.segs))
      ensures if |q.chunks| > 1 then View() == WithNextChunk(old(View()), i, k, q)
              else m == Deleted(old(View()), i, k) && l == PassedOn(conf, m, i, k)
                   && View() == UpdateInorder(conf, Trimmed(m, i, l))
    {
      if |q.chunks| > 1 {
        NextChunk(i, p, q, k);
        m, l := View(), LinkView(i);
      } else {
        m, l := CloseSubseg(i, p, k);
        UpdateInorderOffset();
      }
    }

    /** `finish_last_chunk_of_subseg` and what follows it in `algo_general`. */
    method FinishCurrentChunk(i: Link)
      requires Valid() && LinkOk(Work(View(), i), View().link.At(i), true) && Work(View(), i) != []
      requires Work(View(), i)[0].chunks != []
      modifies this`conn, this`connection, this`idle, this`inorderOffset, offsets, offsets.segs
      ensures Valid() && View() == FinishChunk(conf, old(View()), i)
      ensures Suffix(offsets.segs, old(offsets.segs))
    {
      ghost var s := View();
      ghost var k := CurrentSeg(s, i);
      CursorIn(i, true);
      var p := connection.At(i);
      var q := p.sub.At(i).value;
      ghost var m, l := EndChunk(i, p, q, k);
      IsFinished(conf, s, View(), i, k, q, m, l);
    }

    // -------------------------------------------------------------- turns

    /** Whether the next segment is to be set up now (src/algo_general.c:61-63). */
    method NeedsNext(i: Link, remaining: int, n: nat) returns (yes: bool)
      requires Valid() && LinkOk(Work(View(), i), View().link.At(i), true) && Work(View(), i) != []
      requires Work(View(), i)[0].size >= 0
      ensures yes == Pipelines(View(), i, remaining, n)
    {
      CursorIn(i, true);
      CursorSeg(View(), i, true);
      offsets.Positions(connection.At(i));
      var size := connection.At(i).sub.At(i).value.size;
      yes := (size / 10 > remaining || remaining <= n) && !conn.At(i).pipelined && !idle.At(i);
    }

    /** Stores the data and decides about the next segment. */
    method ReadAndTest(i: Link, n: nat) returns (yes: bool)
      requires Valid()
      requires var t := Write(conf, View(), i, n);
               LinkOk(Work(t, i), t.link.At(i), true) && Work(t, i) != [] && Work(t, i)[0].size >= 0
      modifies this`conn, this`bytesDone, this`file
      ensures Valid() && View() == Write(conf, old(View()), i, n) && yes == SetsUp(old(View()), i, n)
    {
      ghost var s := View();
      var remaining := conn.At(i).last - conn.At(i).cur + 1;
      WriteReceivedData(i, n);
      SameSize(conf, s, i, n);
      yes := NeedsNext(i, remaining, n);
    }

    /** The first half of a turn: the data is written and the next segment possibly requested. */
    method ReadAndPipeline(inp: Input)
      requires Valid() && Writable(conf, View(), inp)
      modifies this`conn, this`idle, this`inorderOffset, this`connection, this`single, this`bytesDone, this`file,
               offsets, offsets.segs
      ensures Valid() && View() == Middle(conf, old(View()), inp)
      ensures forall k | 0 <= k < |offsets.segs| :: offsets.segs[k] in old(offsets.segs) || fresh(offsets.segs[k])
    {
      WritableFacts(conf, View(), inp);
      var yes := ReadAndTest(inp.i, inp.n);
      if yes { SetupAndRequestNext(inp.i, inp); }
    }

    /** The second half. */
    method FinishOrSearch(i: Link, finish: bool)
      requires Valid() && Finishable(View(), i)
      modifies this`conn, this`idle, this`inorderOffset, this`connection, offsets, offsets.segs
      ensures Valid() && forall x | x in offsets.segs :: x in old(offsets.segs)
      ensures View() == if finish then FinishChunk(conf, old(View()), i) else UpdateInorder(conf, old(View()))
    {
      ghost var nodes := offsets.segs;
      if finish { FinishCurrentChunk(i); } else { UpdateInorderOffset(); }
      InSuffix(offsets.segs, nodes);
    }

    /** Both halves of a turn; `m` is the state in between. */
    method TakeTurn(inp: Input, finish: bool) returns (ghost m: State)
      requires Valid() && Writable(conf, View(), inp) && Finishable(Middle(conf, View(), inp), inp.i)
      modifies this`conn, this`idle, this`inorderOffset, this`connection, this`single, this`bytesDone, this`file,
               offsets, offsets.segs
      ensures Valid() && m == Middle(conf, old(View()), inp)
      ensures View() == if finish then FinishChunk(conf, m, inp.i) else UpdateInorder(conf, m)
      ensures forall x | x in offsets.segs :: x in old(offsets.segs) || fresh(x)
    {
      ReadAndPipeline(inp);
      m := View();
      FinishOrSearch(inp.i, finish);
    }

    /** One connection's turn in `algo_general`: exactly the specified step, and it keeps the
        invariant. */
    method AlgoTurn(inp: Input)
      requires Valid() && ConfigOk(conf) && Inv(conf, View()) && InputOk(conf, View(), inp)
      modifies this`conn, this`idle, this`inorderOffset, this`connection, this`single, this`bytesDone, this`file,
               offsets, offsets.segs
      ensures Valid() && View() == TurnOf(conf, old(View()), inp) && Inv(conf, View())
      ensures forall x | x in offsets.segs :: x in old(offsets.segs) || fresh(x)
    {
      TurnPossible(conf, View(), inp);
      ghost var s := View();
      var remaining := conn.At(inp.i).last - conn.At(inp.i).cur + 1;
      ghost var m := TakeTurn(inp, remaining <= inp.n);
      TurnSplits(conf, s, m, View(), inp);
    }

    /** The end of `algo_general` and `update_last_downloaded_byte`. */
    method EndPass()
      requires Valid()
      modifies this`ready, this`lastDownloadedByte
      ensures Valid() && View() == EndPassOf(conf, old(View()))
    {
      if bytesDone == conf.Size() { ready := true; }
      lastDownloadedByte := if ready then conf.Size() else inorderOffset;
    }

    // -------------------------------------------------------------- start

    /** The first segment of `gb_init_segment_setup`. */
    method AddFirstSegment()
      requires Valid() && View() == EMPTY && offsets.segs == []
      modifies offsets, offsets.segs
      ensures Valid() && View() == FirstAdded(conf) && offsets.segs == [offsets.tail] && fresh(offsets.tail)
    {
      var g := offsets.AddNewSegment(false, [Chunk(0, conf.initSeg - 1)], conf.initSeg);
      offsets.NextOf(0);
    }

    /** A link's record in `gb_init_segment_setup` and after its set-up thread. */
    method SetupLink(j: Link)
      requires Valid() && |offsets.segs| == 1 && LinkView(j) == BLANK
      requires offsets.head.chunks == [Chunk(0, conf.initSeg - 1)]
      modifies this`conn, this`connection
      ensures Valid() && LinkView(Other(j)) == old(LinkView(Other(j)))
      ensures LinkView(j) == StartConn(conf, old(View()), j)
    {
      offsets.NextOf(0);
      var flag := LastOf(offsets.head.chunks).last == conf.Size() - 1;
      var sub := offsets.head.sub.At(j);
      if sub.None? {
        conn := conn.With(j, Connection(conf.Size(), conf.Size() + 1, false, false, flag, CLOSED));
      } else {
        connection := connection.With(j, offsets.head);
        var h := Head(sub.value.chunks);
        conn := conn.With(j, Connection(h.start, h.last, true, false, flag, Net(h, [])));
      }
    }

    /** Both links' records. */
    method SetupLinks()
      requires Valid() && |offsets.segs| == 1 && LinkView(0) == BLANK && LinkView(1) == BLANK
      requires offsets.head.chunks == [Chunk(0, conf.initSeg - 1)]
      modifies this`conn, this`connection
      ensures Valid()
      ensures View() == old(View()).(link := Pair(StartConn(conf, old(View()), 0), StartConn(conf, old(View()), 1)))
    {
      SetupLink(0);
      SetupLink(1);
    }

    /** The first segment and its two parts. */
    method DivideFirst()
      requires Valid() && View() == EMPTY && offsets.segs == [] && ConfigOk(conf)
      modifies offsets, offsets.segs
      ensures Valid() && View() == AddSubsegments(conf, FirstAdded(conf), 0, conf.rate.lte, conf.rate.wifi, 0)
      ensures offsets.segs == [offsets.tail] && fresh(offsets.tail)
    {
      FirstAddedShape(conf);
      CoverOne(Chunk(0, conf.initSeg - 1), 0);
      AddFirstSegment();
      AddNewSubsegment(0, conf.rate.lte, conf.rate.wifi, Pair(0, 0), conf.initSeg - 1);
    }

    /** `gb_init_segment_setup`. */
    method InitSegmentSetup()
      requires Valid() && View() == EMPTY && offsets.segs == [] && ConfigOk(conf)
      modifies this`conn, this`connection, offsets, offsets.segs
      ensures Valid() && View() == Start(conf) && Inv(conf, View())
      ensures forall x | x in offsets.segs :: fresh(x)
    {
      StartOk(conf);
      FirstDivided(conf);
      DivideFirst();
      offsets.NextOf(0);
      SetupLinks();
    }

    // -------------------------------------------------------------- whole runs

    /** One event of a run. */
    method Perform(e: Event)
      requires Valid() && ConfigOk(conf) && Inv(conf, View()) && EventOk(conf, View(), e)
      modifies this`conn, this`idle, this`inorderOffset, this`connection, this`single, this`bytesDone, this`file,
               this`ready, this`lastDownloadedByte, offsets, offsets.segs
      ensures Valid() && View() == Next(conf, old(View()), e) && Inv(conf, View())
      ensures forall x | x in offsets.segs :: x in old(offsets.segs) || fresh(x)
    {
      NextKeeps(conf, View(), e);
      match e
      case Turn(inp) => AlgoTurn(inp);
      case EndPass => EndPass();
    }

    /** The first of the events that are left of a run. */
    method PerformFirst(es: seq<Event>, ghost goal: State)
      requires Valid() && Running(conf, View(), es, goal) && es != []
      modifies this`conn, this`idle, this`inorderOffset, this`connection, this`single, this`bytesDone, this`file,
               this`ready, this`lastDownloadedByte, offsets, offsets.segs
      ensures Valid() && Running(conf, View(), es[1..], goal)
      ensures forall k | 0 <= k < |offsets.segs| :: offsets.segs[k] in old(offsets.segs) || fresh(offsets.segs[k])
    {
      RunningNext(conf, View(), es, goal);
      Perform(es[0]);
    }

    /** Any sequence of turns and passes the program can make, up to the state `goal`. */
    method PerformAll(es: seq<Event>, ghost goal: State)
      requires Valid() && Running(conf, View(), es, goal)
      modifies this`conn, this`idle, this`inorderOffset, this`connection, this`single, this`bytesDone, this`file,
               this`ready, this`lastDownloadedByte, offsets, offsets.segs
      ensures Valid() && View() == goal
    {
      var rest := es;
      ghost var s := View();
      while rest != []
        invariant Valid() && View() == s && Running(conf, s, rest, goal)
        invariant forall k | 0 <= k < |offsets.segs| :: offsets.segs[k] in old(offsets.segs) || fresh(offsets.segs[k])
        decreases |rest|
      {
        PerformFirst(rest, goal);
        s, rest := View(), rest[1..];
      }
      RunningEnds(conf, s, rest, goal);
    }

    /** Set-up and all events. */
    method RunFromStart(es: seq<Event>, ghost goal: State)
      requires Valid() && View() == EMPTY && offsets.segs == [] && Running(conf, Start(conf), es, goal)
      modifies this`conn, this`idle, this`inorderOffset, this`connection, this`single, this`bytesDone, this`file,
               this`ready, this`lastDownloadedByte, offsets, offsets.segs
      ensures Valid() && View() == goal
    {
      InitSegmentSetup();
      assert forall k | 0 <= k < |offsets.segs| :: fresh(offsets.segs[k]);
      PerformAll(es, goal);
    }

    /** A whole download from the start: once the program reports it ready, the output file is
        the server's file. */
    method Download(es: seq<Event>)
      requires Valid() && View() == EMPTY && offsets.segs == [] && ConfigOk(conf) && Run(conf, Start(conf), es)
      modifies this`conn, this`idle, this`inorderOffset, this`connection, this`single, this`bytesDone, this`file,
               this`ready, this`lastDownloadedByte, offsets, offsets.segs
      ensures Valid() && View() == After(conf, Start(conf), es)
      ensures ready ==> Complete(conf, file)
    {
      ghost var goal := RunningFromStart(conf, es);
      RunFromStart(es, goal);
      assert View().ready == ready && View().file == file;
    }
  }

  /** The file on disk is the server's file. */
  ghost predicate Complete(c: Config, file: map<int, Option<Byte>>) {
    && (forall k {:trigger k in file} :: k in file <==> 0 <= k < c.Size())
    && (forall k | k in file :: file[k] == Some(c.server[k]))
  }

  lemma RunningFromStart(c: Config, es: seq<Event>) returns (goal: State)
    requires ConfigOk(c) && Run(c, Start(c), es)
    ensures goal == After(c, Start(c), es) && Running(c, Start(c), es, goal)
    ensures goal.ready ==> Complete(c, goal.file)
  {
    goal := After(c, Start(c), es);
    StartOk(c);
    if goal.ready { Runs.EndToEnd(c, es); }
  }

  lemma RunningEnds(c: Config, s: State, es: seq<Event>, goal: State)
    requires Running(c, s, es, goal) && es == []
    ensures s == goal
  {
  }

  ghost predicate Running(c: Config, s: State, es: seq<Event>, goal: State) {
    ConfigOk(c) && Inv(c, s) && Run(c, s, es) && After(c, s, es) == goal
  }

  lemma RunningNext(c: Config, s: State, es: seq<Event>, goal: State)
    requires Running(c, s, es, goal) && es != []
    ensures EventOk(c, s, es[0]) && Running(c, Next(c, s, es[0]), es[1..], goal)
  {
    NextKeeps(c, s, es[0]);
  }

  lemma IsWritten(c: Config, s: State, i: Link, n: nat, t: State)
    requires t == s.(file := t.file, done := s.done + n, link := t.link)
    requires t.file == WriteAt(s.file, s.link.At(i).cur, BodyBytes(c, s.link.At(i).net, n))
    requires var l := s.link.At(i);
             t.link.At(i) == l.(cur := l.cur + n, net := l.net.(body := Chunk(l.net.body.start + n, l.net.body.last)))
    requires t.link.At(Other(i)) == s.link.At(Other(i))
    ensures t == Write(c, s, i, n)
  {
  }

  /** The search does not read the idle marks. */
  lemma IdleMarksOnly(c: Config, s: State, m: State)
    requires m == s.(link := UpdateInorder(c, s).link)
    ensures FoundInorder(c, m) == FoundInorder(c, s)
    ensures m.(inorder := FoundInorder(c, m)) == UpdateInorder(c, s)
  {
  }

  lemma FirstDivided(c: Config)
    requires ConfigOk(c)
    ensures var s := AddSubsegments(c, FirstAdded(c), 0, c.rate.lte, c.rate.wifi, 0);
            && s.segs == [FirstSeg(c)] && s.link == Pair(BLANK, BLANK)
            && Start(c) == s.(link := Pair(StartConn(c, s, 0), StartConn(c, s, 1)))
  {
    FirstAddedShape(c);
    StartShape(c);
  }

  lemma SameSize(c: Config, s: State, i: Link, n: nat)
    ensures Pipelines(Write(c, s, i, n), i, s.link.At(i).last - s.link.At(i).cur + 1, n) == SetsUp(s, i, n)
  {
  }

  /** The first half of a turn is possible. */
  ghost predicate Writable(c: Config, s: State, inp: Input) {
    var t := Write(c, s, inp.i, inp.n);
    ConfigOk(c) && inp.policy >= c.initSeg && InvFrom(c, t, inp.i, true) && Work(t, inp.i) != []
  }

  lemma WritableFacts(c: Config, s: State, inp: Input)
    requires Writable(c, s, inp)
    ensures var t := Write(c, s, inp.i, inp.n);
            LinkOk(Work(t, inp.i), t.link.At(inp.i), true) && Work(t, inp.i)[0].size >= 0
  {
    var t := Write(c, s, inp.i, inp.n);
    assert DutyOk(Work(t, inp.i)[0], t.lastOff);
  }

  /** The second half is possible. */
  ghost predicate Finishable(s: State, i: Link) {
    LinkOk(Work(s, i), s.link.At(i), true) && Work(s, i) != [] && Work(s, i)[0].chunks != []
  }

  lemma TurnPossible(c: Config, s: State, inp: Input)
    requires ConfigOk(c) && Inv(c, s) && InputOk(c, s, inp)
    ensures Writable(c, s, inp) && Finishable(Middle(c, s, inp), inp.i) && Inv(c, TurnOf(c, s, inp))
  {
    InvBoth(c, s, inp.i);
    WriteKeeps(c, s, inp.i, inp.n);
    MiddleOk(c, s, inp);
    TurnKeeps(c, s, inp);
    var d := Work(Middle(c, s, inp), inp.i)[0];
    assert DutyOk(d, Middle(c, s, inp).lastOff);
  }

  lemma TurnSplits(c: Config, s: State, m: State, t: State, inp: Input)
    requires m == Middle(c, s, inp)
    requires t == if s.link.At(inp.i).last - s.link.At(inp.i).cur + 1 <= inp.n then FinishChunk(c, m, inp.i)
                  else UpdateInorder(c, m)
    ensures t == TurnOf(c, s, inp)
  {
  }

  /** The state of a link `i` that goes on with the second chunk of `q` at position `k`. */
  function WithNextChunk(s: State, i: Link, k: nat, q: Subsegment): State
    requires |q.chunks| > 1
  {
    var l := s.link.At(i);
    var left := q.chunks[1..];
    s.(segs := SetSub(s.segs, k, i, Some(Subsegment(left, q.size))),
       link := s.link.With(i, l.(cur := left[0].start, last := left[0].last, net := NextResponse(l.net),
                                 enabled := l.net.pending != [])))
  }

  lemma IsMoved(c: Config, gs: seq<Seg>, l: Conn, i: Link, k: nat, m: nat)
    requires k < |gs| && m == FirstAt(gs, i, k + 1) && m < |gs|
    ensures gs[m].sub.At(i).Some? && Moved(c, gs, l, i, m) == MoveToNext(c, gs, l, i, k)
  {
  }

  lemma IsListed(s: State, t: State, gs: seq<Seg>)
    requires t == s.(segs := gs, completed := t.completed)
    requires |gs| <= |s.segs| && t.completed + |gs| == s.completed + |s.segs|
    ensures t == WithList(s, gs)
  {
  }

  /** Link `i` has record `l` and the finished segments at the head are deleted. */
  function Trimmed(s: State, i: Link, l: Conn): State { WithList(s.(link := s.link.With(i, l)), TrimAll(s.segs)) }

  /** Link `i` is disabled and its subsegment at position `k` is deleted. */
  function Deleted(s: State, i: Link, k: nat): State {
    s.(link := s.link.With(i, s.link.At(i).(enabled := false)), segs := SetSub(s.segs, k, i, None))
  }

  /** Position of the segment a link works on, and what is known there. */
  lemma CurrentSeg(s: State, i: Link) returns (k: nat)
    requires Window(s.segs, s.count, s.completed)
    requires LinkOk(Work(s, i), s.link.At(i), true) && Work(s, i) != [] && Work(s, i)[0].chunks != []
    ensures k == FirstAt(s.segs, i, 0) < |s.segs| && s.segs[k].sub.At(i).Some?
    ensures s.segs[k].sub.At(i).value.chunks == Work(s, i)[0].chunks != []
    ensures s.link.At(i).cursor.Some? && Index(s, s.link.At(i).cursor.value) == k
    ensures s.link.At(i).pipelined ==> FirstAt(s.segs, i, k + 1) < |s.segs|
  {
    CursorSeg(s, i, true);
    SearchSecond(s.segs, i);
    k := FirstAt(s.segs, i, 0);
  }

  lemma IsFinished(c: Config, s: State, t: State, i: Link, k: nat, q: Subsegment, m: State, l: Conn)
    requires s.link.At(i).cursor.Some? && Index(s, s.link.At(i).cursor.value) == k < |s.segs|
    requires s.segs[k].sub.At(i) == Some(q) && q.chunks != []
    requires if |q.chunks| > 1 then t == WithNextChunk(s, i, k, q)
             else m == Deleted(s, i, k) && l == PassedOn(c, m, i, k) && t == UpdateInorder(c, Trimmed(m, i, l))
    ensures t == FinishChunk(c, s, i)
  {
    if |q.chunks| == 1 { IsClosed(c, s, i, k, q, m, l); }
  }

  lemma IsClosed(c: Config, s: State, i: Link, k: nat, q: Subsegment, m: State, l: Conn)
    requires s.link.At(i).cursor.Some? && Index(s, s.link.At(i).cursor.value) == k < |s.segs|
    requires s.segs[k].sub.At(i) == Some(q) && |q.chunks| == 1
    requires m == Deleted(s, i, k) && l == PassedOn(c, m, i, k)
    ensures FinishChunk(c, s, i) == UpdateInorder(c, Trimmed(m, i, l))
  {
    IsPassedOn(c, m, i, k, l);
  }

  lemma IsPassedOn(c: Config, m: State, i: Link, k: nat, l: Conn)
    requires m.link.At(i).cursor.Some? && Index(m, m.link.At(i).cursor.value) == k && l == PassedOn(c, m, i, k)
    ensures FinishSubsegment(c, m, i) == Trimmed(m, i, l)
  {
  }

  /** If a segment is set up, both links' records stay in order when it is requested. */
  ghost predicate Requestable(c: Config, s: State, i: Link, inp: Input) {
    var (made, r) := SetupNext(c, s, i, inp);
    var t := RequestBoth(c, r, i);
    made ==>
      r.segs != [] && LinkOk(Work(t, i), t.link.At(i), true) && LinkOk(Work(t, Other(i)), t.link.At(Other(i)), false)
  }

  lemma SetupRequestable(c: Config, s: State, i: Link, inp: Input)
    requires ConfigOk(c) && inp.policy >= c.initSeg && InvFrom(c, s, i, true) && Work(s, i) != []
    ensures Requestable(c, s, i, inp)
  {
    SetupPrepared(c, s, i, inp);
  }

  lemma IsRequested(c: Config, s: State, t: State, i: Link)
    requires t == s.(link := t.link)
    requires t.link.At(i) == Requested(s.link.At(i), Tail(s).sub.At(i))
    requires t.link.At(Other(i)) == OtherRequested(c, s.link.At(Other(i)), Tail(s), Other(i))
    ensures t == RequestBoth(c, s, i)
  {
  }

  lemma IsChecked(c: Config, s: State, m: State, t: State)
    requires m == s.(link := m.link) && t == s.(link := t.link)
    requires m.link.lte == s.link.lte.(lastSegment := LastSegmentFlag(c, s, 0)) && m.link.wifi == s.link.wifi
    requires t.link.wifi == m.link.wifi.(lastSegment := LastSegmentFlag(c, m, 1)) && t.link.lte == m.link.lte
    ensures t == CheckLastSegment(c, s)
  {
  }

  /** `gb_setup_next_segment` returns at once. */
  ghost predicate Refuses(s: State, i: Link) {
    s.link.At(i).lastSegment || (OrderCase(s, i) == Behind && s.single)
  }

  lemma RecoveredWhole(c: Config, s: State, i: Link, inp: Input) returns (hi: int)
    requires ConfigOk(c) && inp.policy >= c.initSeg && Core(c, s, i, true) && Work(s, Other(i)) != []
    ensures Whole(Tail(Recover(c, s, i, inp)), hi) && Tail(Recover(c, s, i, inp)).recovery
  {
    var o := Other(i);
    var b := BeforeSizing(c, Detach(s, o));
    var list := Pool(c, b, Left(s, o), inp);
    hi := b.lastOff + Extension(c, b, if c.fixedSegment then c.initSeg else inp.policy);
    BaseDetached(c, s, i);
    PoolSorted(c, s, b, i, inp, list, hi);
    PoolLast(c, s, b, i, inp, list, hi);
    RecoveredTail(c, s, b, i, inp, list, hi);
    NewWhole(b, list, hi);
  }

  lemma RecoveredTail(c: Config, s: State, b: State, i: Link, inp: Input, list: seq<Chunk>, hi: int)
    requires b == BeforeSizing(c, Detach(s, Other(i))) && list == Pool(c, b, Left(s, Other(i)), inp)
    requires hi == if b.lastOff < LastOf(Sort(list)).last then LastOf(Sort(list)).last else b.lastOff
    ensures Tail(Recover(c, s, i, inp)) == NewSeg(b, true, Sort(list), Total(list))
  {
    RecoverShape(c, s, b, i, inp, list, hi);
  }

  lemma NewWhole(b: State, list: seq<Chunk>, hi: int)
    requires Sort(list) != [] && Positive(Sort(list)) && Ordered(Sort(list)) && Within(Sort(list), 0, hi)
    requires Total(Sort(list)) == Total(list) >= 1
    ensures Whole(NewSeg(b, true, Sort(list), Total(list)), hi)
  {
  }

  lemma RecoverHasWork(c: Config, s: State, i: Link, inp: Input)
    requires Core(c, s, i, true) && Recovers(c, s, i, inp)
    ensures Work(s, Other(i)) != []
  {
  }

  lemma IsWithRecovered(b: State, r: State, t: State, o: Link, list: seq<Chunk>)
    requires r == AddSegment(b, true, list, Total(list))
    requires t == r.(link := r.link.With(o, r.link.At(o).(cursor := Some(r.count))))
    ensures t == WithRecovered(b, o, list)
  {
  }

  lemma InGrown(segs: seq<Segment>, kept: seq<Segment>, nodes: seq<Segment>, g: Segment)
    requires segs == kept + [g] && Suffix(kept, nodes)
    ensures forall x | x in segs :: x in nodes || x == g
  {
  }

  lemma AddedOne(segs: seq<Segment>, nodes: seq<Segment>, g: Segment?)
    requires segs != nodes ==> g != null && segs == nodes + [g]
    ensures forall x | x in segs :: x in nodes || (segs != nodes && x == g)
  {
  }

  lemma InSuffix(a: seq<Segment>, b: seq<Segment>)
    requires Suffix(a, b)
    ensures forall x | x in a :: x in b
  {
  }

  /** What the walk starts from and what it ends with. */
  lemma DetachFacts(c: Config, s: State, o: Link) returns (plan: seq<Stop>, goal: seq<Seg>)
    requires Window(s.segs, s.count, s.completed)
    requires DutiesOk(Work(s, o), s.lastOff) && Work(s, o) != [] && LinkOk(Work(s, o), s.link.At(o), false)
    ensures plan != [] && PlanOk(plan, o, goal) && plan[0].gs == s.segs && plan[0].rest != []
    ensures plan[0].at == FirstAt(s.segs, o, 0) && Work(s, o)[0].chunks != []
    ensures Unread(Work(s, o), s.link.At(o)) == [Chunk(s.link.At(o).cur, plan[0].rest[0].last)] + plan[0].rest[1..]
    ensures Detach(s, o) == WithList(s, goal).(link := s.link.With(o, s.link.At(o).(enabled := false, net := CLOSED)))
  {
    assert DutyOk(Work(s, o)[0], s.lastOff);
    DetachShape(c, s, o);
    var k := FirstAt(s.segs, o, 0);
    goal := TakeBack(s.segs, o, k);
    plan := MakePlan(s.segs, o, k, goal);
    FlatHead(Work(s, o));
  }

  lemma IsDetached(s: State, t: State, o: Link, taken: seq<Seg>)
    requires t == s.(link := s.link.With(o, s.link.At(o).(enabled := false, net := CLOSED)),
                     segs := taken, completed := t.completed)
    requires |taken| <= |s.segs| && t.completed + |taken| == s.completed + |s.segs|
    ensures t == WithList(s, taken).(link := s.link.With(o, s.link.At(o).(enabled := false, net := CLOSED)))
  {
  }

  /** What makes adding and dividing a segment of `size` bytes possible. */
  ghost predicate Divisible(c: Config, b: State, i: Link, size: int) {
    size > 0 && 0 <= b.lastOff && Part(c, b, i, true) && Part(c, b, Other(i), false)
  }

  lemma NextDivisible(c: Config, s: State, i: Link, inp: Input)
    requires ConfigOk(c) && inp.policy >= c.initSeg && Core(c, s, i, true)
    ensures var b := BeforeSizing(c, s);
            NextSize(c, b, inp) != 0 ==> Divisible(c, b, i, NextSize(c, b, inp))
  {
    BeforeSizingKeeps(c, s, i);
    NextSizeTiles(c, BeforeSizing(c, s), inp);
  }

  lemma DivisibleNext(c: Config, b: State, i: Link, size: int, choose: bool, single: bool)
    requires Divisible(c, b, i, size)
    ensures var s := AddNext(c, b, size);
            var t := if choose then s.(single := single) else s;
            t.segs != [] && Whole(Tail(t), s.lastOff) && VirtualSize(t, 0) >= 0 && VirtualSize(t, 1) >= 0
  {
    AddNextShape(c, b, size);
    var s := AddNext(c, b, size);
    var t := if choose then s.(single := single) else s;
    VirtualNonNegative(b, t, i, 0);
    VirtualNonNegative(b, t, i, 1);
  }

  function WithParts(gs: seq<Seg>, fast: Link, a: Option<Subsegment>, b: Option<Subsegment>): seq<Seg> {
    if gs == [] then []
    else gs[..|gs| - 1] + [gs[|gs| - 1].(sub := Pair(None, None).With(fast, a).With(Other(fast), b))]
  }

  lemma BothParts(gs: seq<Seg>, fast: Link, a: Option<Subsegment>, b: Option<Subsegment>)
    requires gs != [] && gs[|gs| - 1].sub == Pair(None, None)
    ensures var k := |gs| - 1;
            SetSub(SetSub(gs, k, fast, a), k, Other(fast), b) == WithParts(gs, fast, a, b)
  {
  }

  ghost predicate ArePartsOf(c: Config, s: State, ci: Link, t: nat, a: nat, fast: Link,
                             front: Option<Subsegment>, back: Option<Subsegment>) {
    var g := Tail(s);
    var size := if fast == ci then Share(c, s, ci, t, a) else g.size - Share(c, s, ci, t, a);
    && front == MakeSub(TakeBytes(g.chunks, size), size)
    && back == MakeSub(DropBytes(g.chunks, size), g.size - size)
  }

  lemma IsDivided(c: Config, s: State, r: State, ci: Link, t: nat, a: nat, fast: Link,
                  front: Option<Subsegment>, back: Option<Subsegment>)
    requires s.segs != [] && ArePartsOf(c, s, ci, t, a, fast, front, back)
    requires r == s.(segs := WithParts(s.segs, fast, front, back))
    ensures r == AddSubsegments(c, s, ci, t, a, fast)
  {
  }
}
