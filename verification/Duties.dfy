/** How the operations on the segment list act on each link's work. */
module DutyLemmas {
  import opened Pairs
  import opened Chunks
  import opened Scheduler

  function DutyOf(g: Seg, j: Link): Duty
    requires g.sub.At(j).Some?
  {
    Duty(g.id, g.recovery, g.sub.At(j).value.chunks, g.sub.At(j).value.size)
  }

  /** The list holds exactly the ids `completed + 1 .. count`, in order. */
  ghost predicate Window(gs: seq<Seg>, count: nat, completed: nat) {
    && count == completed + |gs|
    && forall k | 0 <= k < |gs| :: gs[k].id == completed + 1 + k
  }

  lemma {:induction false} DutiesAppend(gs: seq<Seg>, g: Seg, j: Link)
    ensures Duties(gs + [g], j) == Duties(gs, j) + (if g.sub.At(j).Some? then [DutyOf(g, j)] else [])
  {
    if gs == [] {
      assert gs + [g] == [g];
      assert [g][1..] == [];
    } else {
      assert (gs + [g])[1..] == gs[1..] + [g];
      DutiesAppend(gs[1..], g, j);
    }
  }

  lemma {:induction false} FlatAppend(ds: seq<Duty>, d: Duty)
    ensures Flat(ds + [d]) == Flat(ds) + d.chunks
  {
    if ds == [] {
      assert ds + [d] == [d];
      assert [d][1..] == [];
    } else {
      assert (ds + [d])[1..] == ds[1..] + [d];
      FlatAppend(ds[1..], d);
    }
  }

  /** The search from `from` finds the first duty of the rest of the list. */
  lemma {:induction false} SearchFinds(gs: seq<Seg>, j: Link, from: nat)
    requires from <= |gs|
    ensures var k := FirstAt(gs, j, from);
            if k == |gs| then Duties(gs[from..], j) == []
            else Duties(gs[from..], j) == [DutyOf(gs[k], j)] + Duties(gs[k + 1..], j)
    decreases |gs| - from
  {
    if from < |gs| {
      assert gs[from..][1..] == gs[from + 1..];
      if gs[from].sub.At(j).None? { SearchFinds(gs, j, from + 1); }
    }
  }

  lemma SearchFirst(gs: seq<Seg>, j: Link)
    ensures var k := FirstAt(gs, j, 0);
            if k == |gs| then Duties(gs, j) == []
            else Duties(gs, j) == [DutyOf(gs[k], j)] + Duties(gs[k + 1..], j)
  {
    SearchFinds(gs, j, 0);
    assert gs[0..] == gs;
  }

  lemma SearchFrom(gs: seq<Seg>, j: Link, from: nat)
    requires from <= |gs|
    ensures var k, ds := FirstAt(gs, j, from), Duties(gs[from..], j);
            && (k < |gs| <==> ds != [])
            && (k < |gs| ==> ds[0] == DutyOf(gs[k], j) && ds[1..] == Duties(gs[k + 1..], j))
  {
    SearchFinds(gs, j, from);
  }

  lemma SearchHead(gs: seq<Seg>, j: Link) returns (k: nat, rest: seq<Duty>)
    requires Duties(gs, j) != []
    ensures k == FirstAt(gs, j, 0) < |gs| && rest == Duties(gs[k + 1..], j)
    ensures Duties(gs, j)[0] == DutyOf(gs[k], j) && Duties(gs, j)[1..] == rest
  {
    assert gs[0..] == gs;
    SearchFrom(gs, j, 0);
    k := FirstAt(gs, j, 0);
    rest := Duties(gs[k + 1..], j);
  }

  lemma FirstTwo(ds: seq<Duty>, rest: seq<Duty>)
    requires ds != [] && ds[1..] == rest
    ensures |ds| == 1 + |rest| && (rest != [] ==> ds[1] == rest[0])
  {
  }

  /** Position of a link's first duty, and of the next one. */
  lemma SearchSecond(gs: seq<Seg>, j: Link)
    requires Duties(gs, j) != []
    ensures var k := FirstAt(gs, j, 0);
            && k < |gs|
            && Duties(gs, j)[0] == DutyOf(gs[k], j)
            && Duties(gs, j)[1..] == Duties(gs[k + 1..], j)
            && var m := FirstAt(gs, j, k + 1);
               && (m < |gs| <==> |Duties(gs, j)| > 1)
               && (m < |gs| ==> Duties(gs, j)[1] == DutyOf(gs[m], j))
  {
    var k, rest := SearchHead(gs, j);
    SearchFrom(gs, j, k + 1);
    FirstTwo(Duties(gs, j), rest);
  }

  /** A link with a second duty, at positions `k` and `m`, has a third one behind `m` or none. */
  lemma SearchThird(gs: seq<Seg>, j: Link, ds: seq<Duty>) returns (k: nat, m: nat)
    requires ds == Duties(gs, j) && |ds| > 1
    ensures k == FirstAt(gs, j, 0) < |gs| && m == FirstAt(gs, j, k + 1) < |gs|
    ensures ds[1] == DutyOf(gs[m], j) && (FirstAt(gs, j, m + 1) < |gs| <==> |ds| > 2)
  {
    var rest;
    k, rest := SearchHead(gs, j);
    m := FirstAt(gs, j, k + 1);
    var more := SearchBehind(gs, j, k, m, rest);
    FirstTwo(ds, rest);
    FirstTwo(rest, more);
  }

  lemma SearchBehind(gs: seq<Seg>, j: Link, k: nat, m: nat, rest: seq<Duty>) returns (more: seq<Duty>)
    requires k < |gs| && rest == Duties(gs[k + 1..], j) && m == FirstAt(gs, j, k + 1) && rest != []
    ensures m < |gs| && rest[0] == DutyOf(gs[m], j) && rest[1..] == more
    ensures FirstAt(gs, j, m + 1) < |gs| <==> more != []
  {
    SearchFrom(gs, j, k + 1);
    more := Duties(gs[m + 1..], j);
    SearchFrom(gs, j, m + 1);
  }

  lemma {:induction false} DutiesOther(gs: seq<Seg>, k: int, j: Link, q: Option<Subsegment>, x: Link)
    requires x != j
    ensures Duties(SetSub(gs, k, j, q), x) == Duties(gs, x)
  {
    if 0 <= k < |gs| {
      if k == 0 {
        assert SetSub(gs, k, j, q)[1..] == gs[1..];
      } else {
        assert SetSub(gs, k, j, q)[1..] == SetSub(gs[1..], k - 1, j, q);
        DutiesOther(gs[1..], k - 1, j, q, x);
      }
    }
  }

  /** Replacing the link's first subsegment replaces or removes its first duty. */
  lemma {:induction false} DutiesReplace(gs: seq<Seg>, k: nat, j: Link, q: Option<Subsegment>)
    requires k < |gs| && k == FirstAt(gs, j, 0)
    ensures Duties(gs, j) != []
    ensures Duties(SetSub(gs, k, j, q), j) ==
            (match q case None => [] case Some(v) => [Duty(gs[k].id, gs[k].recovery, v.chunks, v.size)])
            + Duties(gs, j)[1..]
  {
    var r := SetSub(gs, k, j, q);
    assert FirstAt(gs, j, 0) == k;
    SearchFirst(gs, j);
    SearchFirst(r, j);
    assert r[k + 1..] == gs[k + 1..];
    if q.None? {
      SearchFinds(r, j, k + 1);
      PrefixNone(r, j, k + 1);
    } else {
      PrefixNone(r, j, k);
      SearchFinds(r, j, k);
    }
  }

  lemma {:induction false} PrefixNone(gs: seq<Seg>, j: Link, k: nat)
    requires k <= |gs| && forall m | 0 <= m < k :: gs[m].sub.At(j).None?
    ensures Duties(gs, j) == Duties(gs[k..], j)
  {
    if k == 0 {
      assert gs[0..] == gs;
    } else {
      PrefixNone(gs[1..], j, k - 1);
      assert gs[1..][k - 1..] == gs[k..];
    }
  }

  /** `r` is what is left of `gs` after deletions at the front; only `sub` may differ. */
  ghost predicate Descends(r: seq<Seg>, gs: seq<Seg>) {
    && |r| <= |gs|
    && forall x | 0 <= x < |r| :: Same(r[x], gs[x + |gs| - |r|])
  }

  ghost predicate Same(g: Seg, h: Seg) {
    g.id == h.id && g.recovery == h.recovery && g.chunks == h.chunks && g.size == h.size
  }

  /** The window moves with deletions at the front. */
  lemma WindowDescends(s: State, r: seq<Seg>)
    requires Window(s.segs, s.count, s.completed) && Descends(r, s.segs)
    ensures var t := WithList(s, r);
            t.segs == r && Window(r, t.count, t.completed)
  {
    var d := |s.segs| - |r|;
    forall x | 0 <= x < |r| ensures r[x].id == s.completed + d + 1 + x { assert Same(r[x], s.segs[x + d]); }
  }

  lemma TrimKeeps(gs: seq<Seg>, j: Link)
    ensures Duties(Trim(gs), j) == Duties(gs, j)
    ensures Descends(Trim(gs), gs)
  {
  }

  /** Deleting finished heads keeps every link's work. */
  lemma {:induction false} TrimAllKeeps(gs: seq<Seg>, j: Link)
    ensures Duties(TrimAll(gs), j) == Duties(gs, j)
    ensures Descends(TrimAll(gs), gs)
    ensures TrimAll(gs) != [] ==> !TrimAll(gs)[0].Finished()
  {
    if gs != [] && gs[0].Finished() {
      TrimAllKeeps(gs[1..], j);
      DescendsTail(TrimAll(gs[1..]), gs);
    }
  }

  lemma DescendsTail(r: seq<Seg>, gs: seq<Seg>)
    requires gs != [] && Descends(r, gs[1..])
    ensures Descends(r, gs)
  {
    forall x | 0 <= x < |r| ensures Same(r[x], gs[x + |gs| - |r|]) {
      assert Same(r[x], gs[1..][x + |gs[1..]| - |r|]);
    }
  }

  lemma DescendsTrans(r: seq<Seg>, hs: seq<Seg>, gs: seq<Seg>)
    requires Descends(r, hs) && Descends(hs, gs)
    ensures Descends(r, gs)
  {
    forall x | 0 <= x < |r| ensures Same(r[x], gs[x + |gs| - |r|]) {
      var y := x + |hs| - |r|;
      assert Same(r[x], hs[y]);
      assert Same(hs[y], gs[y + |gs| - |hs|]);
    }
  }

  /** A position with nothing assigned before it is the one the search finds. */
  lemma FirstAtIs(gs: seq<Seg>, j: Link, m: nat)
    requires m < |gs| && gs[m].sub.At(j).Some?
    requires forall x | 0 <= x < m :: gs[x].sub.At(j).None?
    ensures FirstAt(gs, j, 0) == m
  {
  }

  lemma TrimPosition(hs: seq<Seg>, o: Link, m: nat)
    requires m < |hs| && hs[m].sub.At(o).Some?
    requires forall x | 0 <= x < m :: hs[x].sub.At(o).None?
    ensures var d := |hs| - |Trim(hs)|;
            0 <= m - d < |Trim(hs)| && FirstAt(Trim(hs), o, 0) == m - d
  {
    if hs[0].Finished() {
      assert m > 0;
      var ts := hs[1..];
      assert ts[m - 1] == hs[m];
      FirstAtIs(ts, o, m - 1);
    } else {
      FirstAtIs(hs, o, m);
    }
  }

  lemma TakeBackStep(gs: seq<Seg>, o: Link, k: nat)
    requires k < |gs| && k == FirstAt(gs, o, 0)
    ensures var hs := SetSub(gs, k, o, None);
            var m := FirstAt(hs, o, k + 1);
            var ts := Trim(hs);
            && Descends(ts, gs)
            && Duties(ts, Other(o)) == Duties(gs, Other(o))
            && (m == |hs| ==> Duties(ts, o) == [])
            && (m < |hs| ==> 0 <= m - (|hs| - |ts|) < |ts| && m - (|hs| - |ts|) == FirstAt(ts, o, 0))
  {
    var hs := SetSub(gs, k, o, None);
    var m := FirstAt(hs, o, k + 1);
    assert forall x | 0 <= x < m :: hs[x].sub.At(o).None?;
    DutiesOther(gs, k, o, None, Other(o));
    TrimKeeps(hs, o);
    TrimKeeps(hs, Other(o));
    DescendsTrans(Trim(hs), hs, gs);
    if m == |hs| {
      PrefixNone(hs, o, |hs|);
    } else {
      TrimPosition(hs, o, m);
    }
  }

  lemma TakeBackOnce(gs: seq<Seg>, o: Link, k: nat)
    requires k < |gs|
    requires var hs := SetSub(gs, k, o, None);
             var m := FirstAt(hs, o, k + 1);
             m < |hs| ==> 0 <= m - (|hs| - |Trim(hs)|) < |Trim(hs)|
    ensures var hs := SetSub(gs, k, o, None);
            var m := FirstAt(hs, o, k + 1);
            TakeBack(gs, o, k) == if m == |hs| then Trim(hs) else TakeBack(Trim(hs), o, m - (|hs| - |Trim(hs)|))
  {
  }

  /** Taking a link's subsegments back leaves it without work and the other link's work alone. */
  lemma {:induction false} TakeBackClears(gs: seq<Seg>, o: Link, k: nat)
    requires k < |gs| && k == FirstAt(gs, o, 0)
    ensures var r := TakeBack(gs, o, k);
            && Duties(r, o) == []
            && Duties(r, Other(o)) == Duties(gs, Other(o))
            && Descends(r, gs)
    decreases |gs| - k
  {
    var hs := SetSub(gs, k, o, None);
    var m := FirstAt(hs, o, k + 1);
    var ts := Trim(hs);
    TakeBackStep(gs, o, k);
    TakeBackOnce(gs, o, k);
    if m < |hs| {
      var m' := m - (|hs| - |ts|);
      var r := TakeBack(ts, o, m');
      TakeBackClears(ts, o, m');
      DescendsTrans(r, ts, gs);
    }
  }
}
