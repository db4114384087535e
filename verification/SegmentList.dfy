/**
 * The segment list of src/offset.c in place: nodes linked by `next` from `head` to `tail`,
 * appended at the tail and freed at the head.
 */
module SegmentList {
  import opened Pairs
  import opened Chunks
  import opened Scheduler
  import opened DutyLemmas

  /** `segment_t`: the subsegments and the link are updated in place. */
  class Segment {
    const id: nat
    const recovery: bool
    const chunks: seq<Chunk>
    const size: int
    var sub: Pair<Option<Subsegment>>
    var next: Segment?

    constructor (id: nat, recovery: bool, chunks: seq<Chunk>, size: int)
      ensures View() == Seg(id, recovery, chunks, size, Pair(None, None)) && next == null
    {
      this.id, this.recovery, this.chunks, this.size := id, recovery, chunks, size;
      sub, next := Pair(None, None), null;
    }

    function View(): Seg
      reads this
    {
      Seg(id, recovery, chunks, size, sub)
    }
  }

  /** The list part of `offset_info_t`. */
  class OffsetInfo {
    var head: Segment?
    var tail: Segment?
    var numSegments: int
    var segmentCount: nat
    var completedCount: nat
    var lastSegOffset: int

    ghost var segs: seq<Segment>   // the nodes from `head` along `next`
    ghost var view: seq<Seg>       // their values

    ghost function Nth(k: int): Segment?
      reads this
    {
      if 0 <= k < |segs| then segs[k] else null
    }

    /** Linked from head to tail, holding the window of ids after the completed ones. */
    ghost predicate Valid()
      reads this, segs
    {
      && numSegments == |segs| && segmentCount == completedCount + |segs|
      && head == Nth(0) && tail == Nth(|segs| - 1)
      && (forall k {:trigger segs[k].next} | 0 <= k < |segs| :: segs[k].next == Nth(k + 1))
      && |view| == |segs| && (forall k | 0 <= k < |segs| :: view[k] == segs[k].View())
      && (forall k {:trigger segs[k].id} | 0 <= k < |segs| :: segs[k].id == completedCount + 1 + k)
    }

    /** Position of a segment in the list. */
    ghost function At(p: Segment): int
      reads this
    {
      p.id - completedCount - 1
    }

    constructor ()
      ensures Valid() && segs == [] && view == [] && segmentCount == 0 && completedCount == 0 && lastSegOffset == 0
    {
      head, tail, numSegments, segmentCount, completedCount, lastSegOffset := null, null, 0, 0, 0, 0;
      segs, view := [], [];
    }

    lemma NextOf(k: nat)
      requires Valid() && k < |segs|
      ensures segs[k].next == Nth(k + 1) && segs[k].id == completedCount + 1 + k && At(segs[k]) == k
    {
    }

    lemma Positions(p: Segment)
      requires Valid() && p in segs
      ensures 0 <= At(p) < |segs| && segs[At(p)] == p
    {
      var k :| 0 <= k < |segs| && segs[k] == p;
      NextOf(k);
    }

    lemma Distinct(k: nat, m: nat)
      requires Valid() && k < |segs| && m < |segs| && k != m
      ensures segs[k] != segs[m]
    {
      NextOf(k);
      NextOf(m);
    }

    lemma TailApart()
      requires Valid()
      ensures forall k | 0 <= k < |segs| - 1 :: segs[k] != segs[|segs| - 1]
    {
      forall k | 0 <= k < |segs| - 1 ensures segs[k] != segs[|segs| - 1] { Distinct(k, |segs| - 1); }
    }

    // -------------------------------------------------------------- queries

    /** `get_first_next_segment_assigned_to_conn`. */
    method FirstNextAssigned(p: Segment, j: Link) returns (r: Segment?)
      requires Valid() && p in segs
      ensures 0 <= At(p) < |segs| && segs[At(p)] == p
      ensures r == Nth(FirstAt(view, j, At(p) + 1))
    {
      Positions(p);
      var q := p;
      ghost var k := At(p);
      ghost var m := FirstAt(view, j, k + 1);
      while q.next != null
        invariant Valid() && At(p) <= k < |segs| && q == segs[k]
        invariant m == FirstAt(view, j, k + 1)
        decreases |segs| - k
      {
        NextOf(k);
        q := q.next;
        k := k + 1;
        if q.sub.At(j).Some? { return q; }
      }
      NextOf(k);
      return null;
    }

    /** `get_segment_being_dwnd_by_conn`: search from the head of the list. */
    method SegmentBeingDownloaded(j: Link) returns (r: Segment?)
      requires Valid()
      ensures r == Nth(FirstAt(view, j, 0))
    {
      var q := head;
      ghost var k := 0;
      ghost var m := FirstAt(view, j, 0);
      while q != null
        invariant Valid() && 0 <= k <= |segs| && q == Nth(k)
        invariant m == FirstAt(view, j, k)
        decreases |segs| - k
      {
        if q.sub.At(j).Some? { return q; }
        NextOf(k);
        q := q.next;
        k := k + 1;
      }
      return null;
    }

    /** Recorded sizes of link `j`'s subsegments after `p` and before the tail. */
    method LaterSizes(p: Segment, j: Link) returns (v: int)
      requires Valid() && p in segs
      ensures 0 <= At(p) < |segs| && v == SubSizes(view, j, At(p) + 1, |segs| - 1)
    {
      Positions(p);
      v := 0;
      var q := p;
      ghost var k := At(p);
      ghost var total := SubSizes(view, j, k + 1, |view| - 1);
      while q.next != null
        invariant Valid() && 0 <= k < |segs| && q == segs[k]
        invariant v + SubSizes(view, j, k + 1, |view| - 1) == total
        decreases |segs| - k
      {
        NextOf(k);
        q := q.next;
        k := k + 1;
        if q == tail {
          NextOf(k);
          NextOf(|segs| - 1);
          break;
        }
        if q.sub.At(j).Some? { v := v + q.sub.At(j).value.size; }
      }
      NextOf(k);
    }

    // -------------------------------------------------------------- updates

    /** `delete_finished_head_segment`. */
    method DeleteFinishedHead() returns (deleted: bool)
      requires Valid()
      modifies this`head, this`tail, this`numSegments, this`completedCount, this`segs, this`view
      ensures Valid() && view == Trim(old(view))
      ensures deleted == (old(segs) != [] && old(segs[0].View().Finished()))
      ensures segs == if deleted then old(segs)[1..] else old(segs)
    {
      if head == null || head.sub.lte.Some? || head.sub.wifi.Some? { return false; }
      NextOf(0);
      head := head.next;
      if head == null { tail := null; }
      numSegments := numSegments - 1;
      completedCount := completedCount + 1;
      segs, view := segs[1..], view[1..];
      forall k | 0 <= k < |segs|
        ensures segs[k].next == Nth(k + 1) && segs[k].id == completedCount + 1 + k && view[k] == segs[k].View()
      {
        assert segs[k] == old(segs)[k + 1];
        assert old(segs)[k + 1].next == old(Nth(k + 2));
        assert old(segs)[k + 1].id == old(completedCount) + 1 + (k + 1);
      }
      return true;
    }

    /** The loop at the end of `finish_downloading_subseg`. */
    method DeleteFinishedHeads()
      requires Valid()
      modifies this`head, this`tail, this`numSegments, this`completedCount, this`segs, this`view
      ensures Valid() && view == TrimAll(old(view))
      ensures Suffix(segs, old(segs))
    {
      var deleted := true;
      while deleted
        invariant Valid() && TrimAll(view) == TrimAll(old(view)) && Suffix(segs, old(segs))
        invariant deleted || segs == [] || !segs[0].View().Finished()
        decreases |segs|, deleted
      {
        ghost var before := segs;
        deleted := DeleteFinishedHead();
        SuffixTrans(segs, before, old(segs));
      }
    }

    /** Links a new node behind the tail. */
    method Append(g: Segment)
      requires Valid() && g !in segs && g.next == null && g.id == segmentCount + 1
      modifies this`head, this`tail, this`numSegments, this`segmentCount, this`segs, this`view, segs
      ensures Valid() && segs == old(segs) + [g]
      ensures view == old(view) + [g.View()]
      ensures segmentCount == old(segmentCount) + 1
    {
      ghost var n := |segs|;
      TailApart();
      if numSegments == 0 { head := g; } else { tail.next := g; }
      numSegments := numSegments + 1;
      segmentCount := segmentCount + 1;
      tail := g;
      segs, view := segs + [g], view + [g.View()];
      forall k | 0 <= k < n - 1 ensures segs[k].next == segs[k + 1] { assert old(segs[k].next) == old(Nth(k + 1)); }
    }

    /** `add_new_segment`: the sorted chunks become the new tail. */
    method AddNewSegment(recovery: bool, chunks: seq<Chunk>, size: int) returns (g: Segment)
      requires Valid() && chunks != []
      modifies this, segs
      ensures Valid() && fresh(g) && segs == old(segs) + [g]
      ensures view == old(view) + [Seg(old(segmentCount) + 1, recovery, Sort(chunks), size, Pair(None, None))]
      ensures segmentCount == old(segmentCount) + 1 && completedCount == old(completedCount)
      ensures var end := LastOf(Sort(chunks)).last;
              lastSegOffset == if old(lastSegOffset) < end then end else old(lastSegOffset)
    {
      var sorted := Sort(chunks);
      g := new Segment(segmentCount + 1, recovery, sorted, size);
      Append(g);
      var end := LastOf(sorted).last;
      if lastSegOffset < end { lastSegOffset := end; }
    }

    /** Replaces one subsegment of a listed segment. */
    method AssignSub(p: Segment, j: Link, q: Option<Subsegment>)
      requires Valid() && p in segs
      modifies p`sub, this`view
      ensures Valid() && 0 <= At(p) < |segs| && segs[At(p)] == p
      ensures view == SetSub(old(view), At(p), j, q)
    {
      Positions(p);
      forall k | 0 <= k < |segs| && k != At(p) ensures segs[k] != p { Distinct(k, At(p)); }
      p.sub := p.sub.With(j, q);
      view := SetSub(view, At(p), j, q);
    }

    /** Takes one subsegment off the list and finds the link's next segment. */
    method StripAndFind(p: Segment, o: Link, ghost k: nat) returns (r: Segment?)
      requires Valid() && k < |segs| && p == segs[k]
      modifies p`sub, this`view
      ensures Valid() && view == SetSub(old(view), k, o, None)
      ensures r == Nth(FirstAt(view, o, k + 1))
    {
      NextOf(k);
      AssignSub(p, o, None);
      r := FirstNextAssigned(p, o);
    }

    /** One round of the walk in `recover_outorder_portion_and_next_segment`: strip, find the
        next segment, try to delete the head. The segment found is never the one deleted. */
    method TakeBackOne(p: Segment, o: Link, ghost k: nat, ghost hs: seq<Seg>, ghost m: nat, ghost at: int)
      returns (r: Segment?)
      requires Valid() && k < |segs| && p == segs[k]
      requires hs == SetSub(view, k, o, None) && m == FirstAt(hs, o, k + 1)
      requires m < |hs| ==> at == m - (|hs| - |Trim(hs)|)
      modifies this`head, this`tail, this`numSegments, this`completedCount, this`segs, this`view, segs
      ensures Valid() && view == Trim(hs) && Suffix(segs, old(segs))
      ensures if m == |hs| then r == null else 0 <= at < |segs| && r == segs[at]
    {
      ghost var nodes := segs;
      r := StripAndFind(p, o, k);
      var deleted := DeleteFinishedHead();
      ShiftedAt(segs, nodes, deleted, m, r, at);
    }

    /** The chunks of the subsegment at a stop. */
    method ChunksAt(p: Segment, o: Link, ghost a: Stop) returns (chunks: seq<Chunk>)
      requires Valid() && view == a.gs && 0 <= a.at < |segs| && p == segs[a.at] && a.gs[a.at].sub.At(o).Some?
      ensures chunks == a.gs[a.at].sub.At(o).value.chunks
    {
      assert a.gs[a.at] == p.View();
      chunks := p.sub.At(o).value.chunks;
    }

    /** The chunks at a stop, and on to the next one. */
    method CollectOne(p: Segment, o: Link, ghost a: Stop, ghost b: Stop, ghost last: bool)
      returns (r: Segment?, more: seq<Chunk>)
      requires Valid() && Hop(o, a, b, last) && view == a.gs && p == segs[a.at]
      modifies this`head, this`tail, this`numSegments, this`completedCount, this`segs, this`view, segs
      ensures Valid() && view == b.gs && Suffix(segs, old(segs))
      ensures if last then r == null else 0 <= b.at < |segs| && r == segs[b.at]
      ensures more == a.gs[a.at].sub.At(o).value.chunks
    {
      more := ChunksAt(p, o, a);
      ghost var hs, m := HopIs(o, a, b, last);
      r := TakeBackOne(p, o, a.at, hs, m, b.at);
    }

    /** The walk from the segment at the link's cursor, which stops as planned. Collects the chunks
        in list order. */
    method CollectFrom(start: Segment, o: Link, ghost plan: seq<Stop>, ghost goal: seq<Seg>) returns (taken: seq<Chunk>)
      requires Valid() && plan != [] && PlanOk(plan, o, goal) && view == plan[0].gs
      requires 0 <= plan[0].at < |segs| && start == segs[plan[0].at]
      modifies this`head, this`tail, this`numSegments, this`completedCount, this`segs, this`view, segs
      ensures Valid() && view == goal && Suffix(segs, old(segs)) && taken == plan[0].rest
    {
      var p: Segment? := start;
      taken := [];
      ghost var nodes, j := segs, 0;
      while p != null
        invariant Valid() && 0 <= j <= |plan| && view == Reached(plan, j, goal).gs && Suffix(segs, nodes)
        invariant if j == |plan| then p == null else 0 <= plan[j].at < |segs| && p == segs[plan[j].at]
        invariant taken + Reached(plan, j, goal).rest == plan[0].rest
        decreases |plan| - j
      {
        StopChunks(plan, o, goal, j);
        ghost var before := segs;
        var more;
        p, more := CollectOne(p, o, plan[j], Reached(plan, j + 1, goal), j + 1 == |plan|);
        SuffixTrans(segs, before, nodes);
        Reassociate(taken, more, Reached(plan, j + 1, goal).rest);
        taken := taken + more;
        j := j + 1;
      }
    }
  }

  /** A stop of the walk: the list so far, the position, and the chunks still to be collected. */
  datatype Stop = Stop(gs: seq<Seg>, at: int, rest: seq<Chunk>)

  /** The round from one stop to the next. */
  ghost predicate Hop(o: Link, a: Stop, b: Stop, last: bool) {
    && 0 <= a.at < |a.gs| && a.gs[a.at].sub.At(o).Some?
    && var stripped := SetSub(a.gs, a.at, o, None);
       var m := FirstAt(stripped, o, a.at + 1);
       && b.gs == Trim(stripped) && (last <==> m == |a.gs|) && (!last ==> b.at == m - (|a.gs| - |b.gs|))
  }

  lemma HopIs(o: Link, a: Stop, b: Stop, last: bool) returns (hs: seq<Seg>, m: nat)
    requires Hop(o, a, b, last)
    ensures hs == SetSub(a.gs, a.at, o, None) && m == FirstAt(hs, o, a.at + 1)
    ensures b.gs == Trim(hs) && |hs| == |a.gs| && (last <==> m == |hs|) && (!last ==> b.at == m - (|hs| - |Trim(hs)|))
  {
    hs := SetSub(a.gs, a.at, o, None);
    m := FirstAt(hs, o, a.at + 1);
  }

  function Reached(plan: seq<Stop>, j: nat, goal: seq<Seg>): Stop {
    if j < |plan| then plan[j] else Stop(goal, 0, [])
  }

  ghost predicate PlanOk(plan: seq<Stop>, o: Link, goal: seq<Seg>) {
    forall j: nat | j < |plan| :: StopOk(plan, o, goal, j)
  }

  ghost predicate StopOk(plan: seq<Stop>, o: Link, goal: seq<Seg>, j: nat)
    requires j < |plan|
  {
    && Hop(o, plan[j], Reached(plan, j + 1, goal), j + 1 == |plan|)
    && plan[j].rest == plan[j].gs[plan[j].at].sub.At(o).value.chunks + Reached(plan, j + 1, goal).rest
  }

  lemma StopChunks(plan: seq<Stop>, o: Link, goal: seq<Seg>, j: nat)
    requires PlanOk(plan, o, goal) && j < |plan|
    ensures Hop(o, plan[j], Reached(plan, j + 1, goal), j + 1 == |plan|)
    ensures plan[j].rest == plan[j].gs[plan[j].at].sub.At(o).value.chunks + Reached(plan, j + 1, goal).rest
  {
    assert StopOk(plan, o, goal, j);
  }

  /** The walk that takes a link's whole work back. */
  lemma {:induction false} MakePlan(gs: seq<Seg>, o: Link, k: nat, goal: seq<Seg>) returns (plan: seq<Stop>)
    requires Standing(gs, o, k, goal)
    ensures plan != [] && plan[0] == Stop(gs, k, Flat(Duties(gs, o))) && PlanOk(plan, o, goal)
    decreases |Duties(gs, o)|
  {
    var stripped, m, hs, at := Round(gs, o, k, goal);
    var here := Stop(gs, k, Flat(Duties(gs, o)));
    if m == |gs| {
      plan := [here];
    } else {
      var later := MakePlan(hs, o, at, goal);
      plan := [here] + later;
      LaterStops(here, later, o, goal);
    }
  }

  lemma LaterStops(here: Stop, later: seq<Stop>, o: Link, goal: seq<Seg>)
    requires later != [] && PlanOk(later, o, goal) && Hop(o, here, later[0], false)
    requires here.rest == here.gs[here.at].sub.At(o).value.chunks + later[0].rest
    ensures PlanOk([here] + later, o, goal)
  {
    var plan := [here] + later;
    forall j: nat | j < |plan| ensures StopOk(plan, o, goal, j) {
      if j > 0 {
        assert StopOk(later, o, goal, j - 1);
        assert plan[j] == later[j - 1] && Reached(plan, j + 1, goal) == Reached(later, j, goal);
      }
    }
  }

  /** What one round does to the value of the list. */
  lemma Round(gs: seq<Seg>, o: Link, at: nat, goal: seq<Seg>)
    returns (stripped: seq<Seg>, m: nat, hs: seq<Seg>, at': int)
    requires Standing(gs, o, at, goal)
    ensures gs[at].sub.At(o).Some? && |stripped| == |gs|
    ensures stripped == SetSub(gs, at, o, None) && m == FirstAt(stripped, o, at + 1) && hs == Trim(stripped)
    ensures m <= |gs| && (m == |gs| ==> Over(hs, o, goal))
    ensures at' == m - (|gs| - |hs|) && (m < |gs| ==> Standing(hs, o, at', goal))
    ensures Collected(gs, hs, o, gs[at].sub.At(o).value.chunks)
  {
    stripped, m, hs, at' := RoundGoesOn(gs, o, at, goal);
    RoundCollects(gs, o, at, hs);
  }

  ghost predicate Suffix(r: seq<Segment>, ss: seq<Segment>) {
    |r| <= |ss| && r == ss[|ss| - |r|..]
  }

  lemma SuffixTrans(a: seq<Segment>, b: seq<Segment>, c: seq<Segment>)
    requires Suffix(a, b) && Suffix(b, c)
    ensures Suffix(a, c)
  {
  }

  /** The node `r` at position `m` of `nodes`, after the head may have been deleted. */
  lemma ShiftedAt(segs: seq<Segment>, nodes: seq<Segment>, deleted: bool, m: nat, r: Segment?, at: int)
    requires m <= |nodes| && (deleted ==> 0 < m && nodes != []) && segs == if deleted then nodes[1..] else nodes
    requires r == if m < |nodes| then nodes[m] else null
    requires m < |nodes| ==> at == m - if deleted then 1 else 0
    ensures Suffix(segs, nodes)
    ensures if m == |nodes| then r == null else 0 <= at < |segs| && r == segs[at]
  {
  }

  /** The walk stands at position `at`, and what is left of it gives `goal`. */
  ghost predicate Standing(gs: seq<Seg>, o: Link, at: int, goal: seq<Seg>) {
    0 <= at < |gs| && at == FirstAt(gs, o, 0) && TakeBack(gs, o, at) == goal
  }

  ghost predicate Over(gs: seq<Seg>, o: Link, goal: seq<Seg>) { gs == goal && Duties(gs, o) == [] }

  /** Between `gs` and `hs` exactly the chunks `more` were taken from the front of the work. */
  ghost predicate Collected(gs: seq<Seg>, hs: seq<Seg>, o: Link, more: seq<Chunk>) {
    Flat(Duties(gs, o)) == more + Flat(Duties(hs, o)) && |Duties(hs, o)| < |Duties(gs, o)|
  }

  lemma RoundPosition(gs: seq<Seg>, o: Link, k: nat, stripped: seq<Seg>, m: nat, hs: seq<Seg>, at: int)
    requires k < |gs| && k == FirstAt(gs, o, 0) && stripped == SetSub(gs, k, o, None)
    requires m == FirstAt(stripped, o, k + 1) && hs == Trim(stripped) && at == m - (|gs| - |hs|)
    ensures |stripped| == |gs| && m <= |gs| && (m == |gs| ==> Duties(hs, o) == [])
    ensures m < |gs| ==> 0 <= at < |hs| && at == FirstAt(hs, o, 0)
  {
    TakeBackStep(gs, o, k);
  }

  /** One round of the walk on values: where it goes on. */
  lemma RoundGoesOn(gs: seq<Seg>, o: Link, k: nat, goal: seq<Seg>)
    returns (stripped: seq<Seg>, m: nat, hs: seq<Seg>, at: int)
    requires Standing(gs, o, k, goal)
    ensures stripped == SetSub(gs, k, o, None) && m == FirstAt(stripped, o, k + 1) && hs == Trim(stripped)
    ensures |stripped| == |gs| && m <= |gs| && (m == |gs| ==> Over(hs, o, goal))
    ensures at == m - (|gs| - |hs|) && (m < |gs| ==> Standing(hs, o, at, goal))
  {
    stripped := SetSub(gs, k, o, None);
    m := FirstAt(stripped, o, k + 1);
    hs := Trim(stripped);
    at := m - (|gs| - |hs|);
    RoundPosition(gs, o, k, stripped, m, hs, at);
    TakeBackOnce(gs, o, k);
  }

  /** One round of the walk on values: what it collects. */
  lemma RoundCollects(gs: seq<Seg>, o: Link, k: nat, hs: seq<Seg>)
    requires k < |gs| && k == FirstAt(gs, o, 0) && hs == Trim(SetSub(gs, k, o, None))
    ensures gs[k].sub.At(o).Some? && Collected(gs, hs, o, gs[k].sub.At(o).value.chunks)
  {
    DutiesReplace(gs, k, o, None);
    TrimKeeps(SetSub(gs, k, o, None), o);
    SearchSecond(gs, o);
    var ds := Duties(gs, o);
    assert Duties(SetSub(gs, k, o, None), o) == ds[1..];
    assert Flat(ds) == ds[0].chunks + Flat(ds[1..]);
  }
}
