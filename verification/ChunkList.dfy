/**
 * The linked chunk lists of src/offset.c in place (`chunk_t` with its `next` field). A list is a
 * head pointer; the ghost sequence beside it names the nodes in order.
 */
module ChunkList {
  import opened Pairs
  import opened Chunks

  /** `chunk_t`: the operations here relink nodes and never rewrite their ranges. */
  class ChunkNode {
    const start: int
    const last: int
    const size: int
    var next: ChunkNode?

    constructor (start: int, size: int)
      ensures Value() == Chunk(start, start + size - 1) && this.size == size && next == null
    {
      this.start, this.last, this.size, next := start, start + size - 1, size, null;
    }

    function Value(): Chunk { Chunk(start, last) }
  }

  function Nth(ns: seq<ChunkNode>, k: int): ChunkNode? { if 0 <= k < |ns| then ns[k] else null }

  ghost predicate Distinct(ns: seq<ChunkNode>) { forall a, b | 0 <= a < b < |ns| :: ns[a] != ns[b] }

  /** `ns` is the acyclic list from `list`. */
  ghost predicate Linked(list: ChunkNode?, ns: seq<ChunkNode>)
    reads ns`next
  {
    && list == Nth(ns, 0) && Distinct(ns)
    && (forall k {:trigger ns[k].next} | 0 <= k < |ns| :: ns[k].next == Nth(ns, k + 1))
  }

  function Values(ns: seq<ChunkNode>): (cs: seq<Chunk>)
    ensures |cs| == |ns| && forall k | 0 <= k < |ns| :: cs[k] == ns[k].Value()
  {
    seq(|ns|, k requires 0 <= k < |ns| => ns[k].Value())
  }

  lemma ValuesAppend(a: seq<ChunkNode>, b: seq<ChunkNode>)
    ensures Values(a + b) == Values(a) + Values(b)
  {
  }

  // ---------------------------------------------------------------- growing and shrinking

  /** `get_last_chunk`. */
  method GetLastChunk(list: ChunkNode, ghost ns: seq<ChunkNode>) returns (r: ChunkNode)
    requires Linked(list, ns)
    ensures ns != [] && r == ns[|ns| - 1] && r.Value() == LastOf(Values(ns))
  {
    r := list;
    ghost var k := 0;
    while r.next != null
      invariant 0 <= k < |ns| && r == ns[k]
      decreases |ns| - k
    {
      assert ns[k].next == Nth(ns, k + 1);
      r := r.next;
      k := k + 1;
    }
    assert ns[k].next == Nth(ns, k + 1);
  }

  /** `get_last_chunk(list)->next = more`: links one list behind another. */
  method Concatenate(list: ChunkNode, more: ChunkNode?, ghost ns: seq<ChunkNode>, ghost ms: seq<ChunkNode>)
    requires Linked(list, ns) && Linked(more, ms) && Distinct(ns + ms)
    modifies ns`next
    ensures Linked(list, ns + ms)
  {
    var last := GetLastChunk(list, ns);
    last.next := more;
    ghost var all := ns + ms;
    forall k | 0 <= k < |all| ensures all[k].next == Nth(all, k + 1) {
      if k < |ns| - 1 {
        assert all[k] == ns[k] && ns[k] != ns[|ns| - 1];
        assert old(ns[k].next) == Nth(ns, k + 1);
      } else if k >= |ns| {
        assert all[k] == ms[k - |ns|] && all[|ns| - 1] == last;
        assert old(ms[k - |ns|].next) == Nth(ms, k - |ns| + 1);
      }
    }
  }

  /** `add_new_chunk`. */
  method AddNewChunk(list: ChunkNode?, start: int, size: int, ghost ns: seq<ChunkNode>)
    returns (r: ChunkNode, ghost rs: seq<ChunkNode>)
    requires Linked(list, ns)
    modifies ns`next
    ensures Linked(r, rs) && |rs| == |ns| + 1 && rs[..|ns|] == ns && fresh(rs[|ns|])
    ensures Values(rs) == Values(ns) + [Chunk(start, start + size - 1)] && rs[|ns|].size == size
  {
    var node := new ChunkNode(start, size);
    rs := ns + [node];
    ValuesAppend(ns, [node]);
    if list == null {
      r := node;
    } else {
      r := list;
      Concatenate(list, node, ns, [node]);
    }
  }

  /** `delete_head_chunk`. */
  method DeleteHeadChunk(list: ChunkNode, ghost ns: seq<ChunkNode>) returns (r: ChunkNode?)
    requires Linked(list, ns)
    ensures Linked(r, ns[1..]) && Values(ns) != [] && Values(ns[1..]) == Values(ns)[1..]
  {
    assert ns[0].next == Nth(ns, 1);
    r := list.next;
    forall k | 0 <= k < |ns| - 1 ensures ns[1..][k].next == Nth(ns[1..], k + 1) {
      assert ns[k + 1].next == Nth(ns, k + 2);
    }
  }

  // ---------------------------------------------------------------- sorting

  lemma MinStep(cs: seq<Chunk>, k: nat)
    requires k + 1 < |cs|
    ensures var m := MinIndex(cs[..k + 1]); MinIndex(cs[..k + 2]) == if cs[k + 1].start < cs[m].start then k + 1 else m
  {
    assert cs[..k + 2][..k + 1] == cs[..k + 1];
  }

  /** One scan of the sort: the first node with the smallest start, and the node before it. */
  method FindSmallest(list: ChunkNode, ghost ns: seq<ChunkNode>)
    returns (prev: ChunkNode?, target: ChunkNode, ghost m: nat)
    requires Linked(list, ns)
    ensures ns != [] && m == MinIndex(Values(ns)) && target == ns[m] && prev == Nth(ns, m - 1)
  {
    target, prev, m := list, null, 0;
    var p := list;
    ghost var k := 0;
    ghost var cs := Values(ns);
    while p.next != null
      invariant 0 <= k < |ns| && p == ns[k]
      invariant 0 <= m <= k && m == MinIndex(cs[..k + 1]) && target == ns[m] && prev == Nth(ns, m - 1)
      decreases |ns| - k
    {
      assert ns[k].next == Nth(ns, k + 1);
      MinStep(cs, k);
      if target.start > p.next.start { target, prev, m := p.next, p, k + 1; }
      p := p.next;
      k := k + 1;
    }
    assert ns[k].next == Nth(ns, k + 1);
    assert cs[..k + 1] == cs;
  }

  function Dropped(ns: seq<ChunkNode>, m: nat): seq<ChunkNode>
    requires m < |ns|
  {
    ns[..m] + ns[m + 1..]
  }

  lemma DroppedValues(ns: seq<ChunkNode>, m: nat)
    requires m < |ns|
    ensures Values(Dropped(ns, m)) == Without(Values(ns), m)
    ensures multiset(Dropped(ns, m)) + multiset{ns[m]} == multiset(ns)
  {
    assert ns == ns[..m] + [ns[m]] + ns[m + 1..];
  }

  /** Takes the node found out of the list. */
  method Unlink(list: ChunkNode, prev: ChunkNode?, target: ChunkNode, ghost ns: seq<ChunkNode>, ghost m: nat)
    returns (r: ChunkNode?)
    requires Linked(list, ns) && m < |ns| && target == ns[m] && prev == Nth(ns, m - 1)
    modifies ns`next
    ensures Linked(r, Dropped(ns, m)) && target.next == null && target !in Dropped(ns, m)
  {
    assert ns[m].next == Nth(ns, m + 1);
    assert ns[0].next == Nth(ns, 1);
    r := list;
    if prev == null { r := list.next; } else { prev.next := target.next; }
    target.next := null;
    ghost var ds := Dropped(ns, m);
    forall k | 0 <= k < |ds| ensures ds[k].next == Nth(ds, k + 1) {
      ghost var x := if k < m then k else k + 1;
      assert ds[k] == ns[x] && ns[x] != ns[m];
      assert old(ns[x].next) == Nth(ns, x + 1);
      if m > 0 && x != m - 1 { assert ns[x] != ns[m - 1]; }
    }
  }

  /** Links a node behind the sorted part. */
  method AppendNode(sorted: ChunkNode?, end: ChunkNode?, target: ChunkNode, ghost ss: seq<ChunkNode>)
    returns (r: ChunkNode)
    requires Linked(sorted, ss) && end == Nth(ss, |ss| - 1) && target !in ss && target.next == null
    modifies ss`next
    ensures Linked(r, ss + [target])
  {
    if sorted == null { return target; }
    r := sorted;
    end.next := target;
    ghost var all := ss + [target];
    forall k | 0 <= k < |all| ensures all[k].next == Nth(all, k + 1) {
      if k < |ss| - 1 {
        assert ss[k] != ss[|ss| - 1];
        assert old(ss[k].next) == Nth(ss, k + 1);
      }
    }
  }

  ghost predicate Apart(a: seq<ChunkNode>, b: seq<ChunkNode>) { forall k | 0 <= k < |a| :: a[k] !in b }

  ghost predicate Among(a: seq<ChunkNode>, ns: seq<ChunkNode>) { forall k | 0 <= k < |a| :: a[k] in ns }

  /** One round of the sort: the smallest node moves from the rest to the end of the sorted part. */
  method SortStep(list: ChunkNode, sorted: ChunkNode?, end: ChunkNode?,
                  ghost rs: seq<ChunkNode>, ghost ss: seq<ChunkNode>)
    returns (rest: ChunkNode?, sorted': ChunkNode?, target: ChunkNode, ghost m: nat)
    requires Linked(list, rs) && Linked(sorted, ss) && end == Nth(ss, |ss| - 1) && Apart(ss, rs)
    modifies rs`next, ss`next
    ensures rs != [] && m == MinIndex(Values(rs)) && target == rs[m]
    ensures Linked(rest, Dropped(rs, m)) && Linked(sorted', ss + [target]) && Apart(ss + [target], Dropped(rs, m))
  {
    var prev;
    prev, target, m := FindSmallest(list, rs);
    rest := Unlink(list, prev, target, rs, m);
    sorted' := AppendNode(sorted, end, target, ss);
    DroppedApart(ss, rs, m);
  }

  lemma DroppedApart(ss: seq<ChunkNode>, rs: seq<ChunkNode>, m: nat)
    requires Apart(ss, rs) && Distinct(rs) && m < |rs|
    ensures Apart(ss + [rs[m]], Dropped(rs, m))
  {
    forall x | x in Dropped(rs, m) ensures x in rs && x != rs[m] {}
  }

  lemma SortSmallest(cs: seq<Chunk>, m: nat)
    requires cs != [] && m == MinIndex(cs)
    ensures Sort(cs) == [cs[m]] + Sort(Without(cs, m))
  {
  }

  lemma RoundValues(rs: seq<ChunkNode>, ss: seq<ChunkNode>, m: nat, goal: seq<Chunk>)
    requires rs != [] && m == MinIndex(Values(rs)) && Values(ss) + Sort(Values(rs)) == goal
    ensures Values(ss + [rs[m]]) + Sort(Values(Dropped(rs, m))) == goal
  {
    var v, w := Values(ss), [rs[m].Value()];
    DroppedValues(rs, m);
    SortSmallest(Values(rs), m);
    ValuesAppend(ss, [rs[m]]);
    assert Values([rs[m]]) == w;
    Reassociate(v, w, Sort(Values(Dropped(rs, m))));
  }

  lemma RoundNodes(rs: seq<ChunkNode>, ss: seq<ChunkNode>, m: nat, ns: seq<ChunkNode>)
    requires m < |rs| && multiset(ss) + multiset(rs) == multiset(ns)
    ensures multiset(ss + [rs[m]]) + multiset(Dropped(rs, m)) == multiset(ns)
  {
    DroppedValues(rs, m);
    assert multiset(ss + [rs[m]]) == multiset(ss) + multiset{rs[m]};
  }

  /** What a round does to the values and to the nodes as a collection. */
  lemma RoundSorts(rs: seq<ChunkNode>, ss: seq<ChunkNode>, m: nat, goal: seq<Chunk>, ns: seq<ChunkNode>)
    requires rs != [] && m == MinIndex(Values(rs)) && Sorting(rs, ss, goal, ns)
    ensures Sorting(Dropped(rs, m), ss + [rs[m]], goal, ns)
  {
    RoundValues(rs, ss, m, goal);
    RoundNodes(rs, ss, m, ns);
  }

  /** The nodes of `ns` are split between the rest `rs` and the sorted part `ss` of the result `goal`. */
  ghost predicate Sorting(rs: seq<ChunkNode>, ss: seq<ChunkNode>, goal: seq<Chunk>, ns: seq<ChunkNode>) {
    && multiset(ss) + multiset(rs) == multiset(ns) && Values(ss) + Sort(Values(rs)) == goal
    && Among(rs, ns) && Among(ss, ns)
  }

  /** `sorting_chunks`: relinks the same nodes, for every list. */
  method SortingChunks(list: ChunkNode?, ghost ns: seq<ChunkNode>)
    returns (sorted: ChunkNode?, ghost ss: seq<ChunkNode>)
    requires Linked(list, ns)
    modifies ns`next
    ensures Linked(sorted, ss) && multiset(ss) == multiset(ns)
    ensures Values(ss) == Sort(Values(ns))
  {
    var rest, end: ChunkNode? := list, null;
    ghost var rs, goal := ns, Sort(Values(ns));
    sorted, ss := null, [];
    while rest != null
      invariant Linked(rest, rs) && Linked(sorted, ss) && end == Nth(ss, |ss| - 1) && Apart(ss, rs)
      invariant Sorting(rs, ss, goal, ns)
      decreases |rs|
    {
      ghost var m;
      rest, sorted, end, m := SortStep(rest, sorted, end, rs, ss);
      RoundSorts(rs, ss, m, goal, ns);
      rs, ss := Dropped(rs, m), ss + [end];
    }
  }
}
