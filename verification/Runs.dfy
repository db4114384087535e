/** What every run achieves: conservation, request order, end-to-end correctness, progress. */
module Runs {
  import opened Pairs
  import opened Chunks
  import opened Scheduler
  import opened DutyLemmas
  import opened Invariant
  import opened Finishing
  import opened Assigning
  import opened Setup
  import opened Turns

  // ---------------------------------------------------------------- conservation

  lemma LeftOk(c: Config, s: State, j: Link)
    requires Inv(c, s)
    ensures Positive(Left(s, j)) && Within(Left(s, j), 0, s.lastOff)
    ensures Left(s, j) == [] <==> Work(s, j) == []
  {
    InvBoth(c, s, j);
    if Work(s, j) != [] { UnreadOk(Work(s, j), s.link.At(j), s.lastOff); }
  }

  /** Where unread offsets are kept: link 0, link 1, and the unassigned end of the file. */
  ghost function Places(c: Config, s: State): seq<int> {
    InPlaces(Left(s, 0), Left(s, 1), s.lastOff + 1, c.Size() - 1)
  }

  ghost function InPlaces(u: seq<Chunk>, v: seq<Chunk>, lo: int, hi: int): seq<int> {
    Bytes(u) + Bytes(v) + Offsets(lo, hi)
  }

  lemma CountThree(a: seq<int>, b: seq<int>, w: seq<int>, k: int)
    ensures multiset(a + b + w)[k] == multiset(a)[k] + multiset(b)[k] + multiset(w)[k]
  {
    assert multiset(a + b) == multiset(a) + multiset(b);
    assert multiset(a + b + w) == multiset(a + b) + multiset(w);
  }

  lemma PlacesCount(u: seq<Chunk>, v: seq<Chunk>, lo: int, hi: int, k: int)
    requires Positive(u) && Positive(v) && lo <= hi + 1
    ensures multiset(Bytes(u) + Bytes(v) + Offsets(lo, hi))[k]
            == Cover(u, k) + Cover(v, k) + (if lo <= k <= hi then 1 else 0)
    ensures |Bytes(u) + Bytes(v) + Offsets(lo, hi)| == Total(u) + Total(v) + (hi + 1 - lo)
  {
    CoverIsMultiplicity(u, k);
    CoverIsMultiplicity(v, k);
    OffsetsMultiplicity(lo, hi, k);
    BytesLength(u);
    BytesLength(v);
    OffsetsAt(lo, hi);
    CountThree(Bytes(u), Bytes(v), Offsets(lo, hi), k);
  }

  lemma PlacesOf(c: Config, file: map<int, Option<Byte>>, done: int, lastOff: int, u: seq<Chunk>, v: seq<Chunk>, k: int)
    requires Positive(u) && Positive(v) && lastOff < c.Size() && Books(c, file, done, lastOff, u, v, [])
    ensures multiset(InPlaces(u, v, lastOff + 1, c.Size() - 1))[k] == Missing(c, file, k)
    ensures done == c.Size() - |InPlaces(u, v, lastOff + 1, c.Size() - 1)|
  {
    PlacesCount(u, v, lastOff + 1, c.Size() - 1, k);
    BooksAt(c, file, done, lastOff, u, v, [], k);
  }

  lemma InvBooks(c: Config, s: State) returns (u: seq<Chunk>, v: seq<Chunk>)
    requires Inv(c, s)
    ensures u == Left(s, 0) && v == Left(s, 1) && Positive(u) && Positive(v) && s.lastOff < c.Size()
    ensures Books(c, s.file, s.done, s.lastOff, u, v, [])
  {
    u, v := Left(s, 0), Left(s, 1);
    LeftOk(c, s, 0);
    LeftOk(c, s, 1);
  }

  lemma PlacesAre(c: Config, s: State, u: seq<Chunk>, v: seq<Chunk>)
    requires u == Left(s, 0) && v == Left(s, 1)
    ensures Places(c, s) == InPlaces(u, v, s.lastOff + 1, c.Size() - 1)
  {
  }

  lemma PlacesCounted(c: Config, s: State, u: seq<Chunk>, v: seq<Chunk>, k: int)
    requires Positive(u) && Positive(v) && s.lastOff < c.Size() && Books(c, s.file, s.done, s.lastOff, u, v, [])
    ensures Counted(c, s, u, v, k)
  {
    PlacesOf(c, s.file, s.done, s.lastOff, u, v, k);
  }

  ghost predicate Counted(c: Config, s: State, u: seq<Chunk>, v: seq<Chunk>, k: int) {
    && multiset(InPlaces(u, v, s.lastOff + 1, c.Size() - 1))[k] == Missing(c, s.file, k)
    && s.done == c.Size() - |InPlaces(u, v, s.lastOff + 1, c.Size() - 1)|
  }

  /** Every missing offset is in exactly one place: unread by one link, once, or unassigned. */
  lemma Conservation(c: Config, es: seq<Event>, k: int)
    requires ConfigOk(c) && Run(c, Start(c), es)
    ensures var s := After(c, Start(c), es);
            && multiset(Places(c, s))[k] == (if 0 <= k < c.Size() && k !in s.file then 1 else 0)
            && s.done == c.Size() - |Places(c, s)|
  {
    Reachable(c, es);
    var s := After(c, Start(c), es);
    var u, v := InvBooks(c, s);
    PlacesCounted(c, s, u, v, k);
    PlacesAre(c, s, u, v);
  }

  lemma LastOffsetAt(c: Config, file: map<int, Option<Byte>>, done: int, lastOff: int,
                     u: seq<Chunk>, v: seq<Chunk>, k: int)
    requires Books(c, file, done, lastOff, u, v, []) && 0 <= k < c.Size()
    ensures k <= lastOff <==> k in file || Cover(u, k) + Cover(v, k) > 0
  {
    BooksAt(c, file, done, lastOff, u, v, [], k);
  }

  /** The recorded last segment offset is the greatest offset ever assigned: every offset up to it
      is written or still to be read by a link, and no later one is. */
  lemma LastOffsetExact(c: Config, es: seq<Event>, k: int)
    requires ConfigOk(c) && Run(c, Start(c), es) && 0 <= k < c.Size()
    ensures var s := After(c, Start(c), es);
            k <= s.lastOff <==> k in s.file || Cover(Left(s, 0), k) + Cover(Left(s, 1), k) > 0
  {
    Reachable(c, es);
    var s := After(c, Start(c), es);
    var u, v := InvBooks(c, s);
    LastOffsetAt(c, s.file, s.done, s.lastOff, u, v, k);
  }

  // ---------------------------------------------------------------- request order and cursors

  /** The ranges whose responses are still to come, in the order the server answers them. */
  function Outstanding(net: Net): seq<Chunk> { [net.body] + net.pending }

  /** Responses arrive in exactly the order in which the link takes its chunks. */
  lemma RequestOrder(c: Config, es: seq<Event>, j: Link)
    requires ConfigOk(c) && Run(c, Start(c), es)
    ensures var s := After(c, Start(c), es);
            var l := s.link.At(j);
            if Work(s, j) != [] then Outstanding(l.net) == Left(s, j) && l.cur <= l.last
            else l.net.pending == [] && !l.enabled
  {
    Reachable(c, es);
    InvBoth(c, After(c, Start(c), es), j);
  }

  /** The cached cursor and flags of link `j` agree with a search of the list. */
  ghost predicate Agrees(s: State, j: Link) {
    var l := s.link.At(j);
    var k := FirstAt(s.segs, j, 0);
    if k == |s.segs| then l.cursor == None && !l.enabled && IsIdle(l)
    else
      var q := s.segs[k].sub.At(j).value.chunks;
      && l.cursor == Some(s.segs[k].id) && l.enabled
      && (l.pipelined <==> exists m | k < m < |s.segs| :: s.segs[m].sub.At(j).Some?)
      && q != [] && q[0].start <= l.cur <= l.last == q[0].last
  }

  lemma LinkAgrees(s: State, j: Link, hi: int)
    requires LinkOk(Work(s, j), s.link.At(j), false) && DutiesOk(Work(s, j), hi)
    ensures Agrees(s, j)
  {
    var k := FirstAt(s.segs, j, 0);
    SearchFirst(s.segs, j);
    if k < |s.segs| {
      SearchSecond(s.segs, j);
      assert Work(s, j)[0] in Work(s, j);
      var m := FirstAt(s.segs, j, k + 1);
      if m < |s.segs| { assert s.segs[m].sub.At(j).Some?; }
    }
  }

  /** The cached cursor is the first segment assigned to the link; the pipeline flag says
      whether there is a second one; exactly the links with work are enabled. */
  lemma CursorAgrees(c: Config, es: seq<Event>, j: Link)
    requires ConfigOk(c) && Run(c, Start(c), es)
    ensures Agrees(After(c, Start(c), es), j)
  {
    var s := After(c, Start(c), es);
    Reachable(c, es);
    InvBoth(c, s, j);
    LinkAgrees(s, j, s.lastOff);
  }

  /** The list is the window of ids between the completed and the created ones. */
  lemma SegmentWindow(c: Config, es: seq<Event>)
    requires ConfigOk(c) && Run(c, Start(c), es)
    ensures var s := After(c, Start(c), es);
            && s.count == s.completed + |s.segs|
            && forall k | 0 <= k < |s.segs| :: s.segs[k].id == s.completed + 1 + k
  {
    Reachable(c, es);
  }

  // ---------------------------------------------------------------- completion

  lemma NothingLeft(c: Config, s: State, j: Link)
    requires Inv(c, s)
    ensures Work(s, j) != [] ==> Total(Left(s, j)) >= 1 && Cover(Left(s, j), s.link.At(j).cur) >= 1
    ensures Work(s, j) == [] ==> Left(s, j) == []
    ensures Total(Left(s, j)) >= 0
  {
    LeftOk(c, s, j);
    BytesLength(Left(s, j));
    InvBoth(c, s, j);
    if Work(s, j) != [] { UnreadFacts(Work(s, j), s.link.At(j), s.link.At(j).cur); }
  }

  /** On the books: nothing is left to count exactly when no offset is missing. */
  lemma AllCounted(c: Config, file: map<int, Option<Byte>>, done: int, lastOff: int, u: seq<Chunk>, v: seq<Chunk>)
    requires Books(c, file, done, lastOff, u, v, []) && lastOff < c.Size() && Positive(u) && Positive(v)
    ensures done <= c.Size()
    ensures done == c.Size() ==> u == [] && v == [] && forall k | 0 <= k < c.Size() :: k in file
  {
    BytesLength(u);
    BytesLength(v);
    if done == c.Size() {
      forall k | 0 <= k < c.Size() ensures k in file { BooksAt(c, file, done, lastOff, u, v, [], k); }
    }
  }

  /** A file that is not complete misses an offset. */
  lemma SomeMissing(c: Config, s: State, u: seq<Chunk>, v: seq<Chunk>)
    requires Books(c, s.file, s.done, s.lastOff, u, v, []) && 0 <= s.lastOff < c.Size() && s.done < c.Size()
    requires u != [] ==> Cover(u, s.link.lte.cur) >= 1
    requires v != [] ==> Cover(v, s.link.wifi.cur) >= 1
    ensures exists k | 0 <= k < c.Size() :: k !in s.file
  {
    var k := if s.lastOff < c.Size() - 1 then c.Size() - 1 else if u != [] then s.link.lte.cur else s.link.wifi.cur;
    BooksAt(c, s.file, s.done, s.lastOff, u, v, [], k);
    assert k !in s.file;
  }

  lemma WorkIsLeft(c: Config, s: State, j: Link)
    requires Inv(c, s)
    ensures Work(s, j) == [] <==> Left(s, j) == []
    ensures Left(s, j) != [] ==> Cover(Left(s, j), s.link.At(j).cur) >= 1
  {
    NothingLeft(c, s, j);
  }

  /** The byte counter reaches the file size exactly when the whole file is written. */
  lemma DoneIffAllWritten(c: Config, s: State)
    requires ConfigOk(c) && Inv(c, s)
    ensures s.done == c.Size() <==> forall k | 0 <= k < c.Size() :: k in s.file
    ensures s.done == c.Size() <==> Work(s, 0) == [] && Work(s, 1) == []
    ensures s.done <= c.Size()
  {
    var u, v := InvBooks(c, s);
    AllCounted(c, s.file, s.done, s.lastOff, u, v);
    WorkIsLeft(c, s, 0);
    WorkIsLeft(c, s, 1);
    if s.done < c.Size() { SomeMissing(c, s, u, v); }
    if u == [] && v == [] { NoneUnassigned(c, s); }
  }

  lemma NoneUnassigned(c: Config, s: State)
    requires Inv(c, s) && Left(s, 0) == [] && Left(s, 1) == []
    ensures s.done == c.Size()
  {
  }

  /** Number of times offset `k` is written in a run. */
  ghost function WriteCount(c: Config, s: State, es: seq<Event>, k: int): nat
    decreases |es|
  {
    if es == [] then 0 else
      (if es[0].Turn? && InSpan(s.link.At(es[0].input.i).cur, es[0].input.n, k) then 1 else 0)
      + WriteCount(c, Next(c, s, es[0]), es[1..], k)
  }

  lemma {:induction false} WritesMissingOnce(c: Config, s: State, es: seq<Event>, k: int)
    requires ConfigOk(c) && Inv(c, s) && Run(c, s, es)
    ensures WriteCount(c, s, es, k) == Missing(c, s.file, k) - Missing(c, After(c, s, es).file, k)
    decreases |es|
  {
    if es != [] {
      var t := Next(c, s, es[0]);
      NextKeeps(c, s, es[0]);
      WritesMissingOnce(c, t, es[1..], k);
      if es[0].Turn? {
        TurnKeeps(c, s, es[0].input);
        assert k in t.file <==> k in s.file || InSpan(s.link.At(es[0].input.i).cur, es[0].input.n, k);
      }
    }
  }

  lemma {:induction false} ReadyIsDone(c: Config, s: State, es: seq<Event>)
    requires ConfigOk(c) && Inv(c, s) && Run(c, s, es)
    requires s.ready ==> s.done == c.Size()
    ensures After(c, s, es).ready ==> After(c, s, es).done == c.Size()
    decreases |es|
  {
    if es != [] {
      NextKeeps(c, s, es[0]);
      if es[0].Turn? { TurnKeeps(c, s, es[0].input); }
      ReadyIsDone(c, Next(c, s, es[0]), es[1..]);
    }
  }

  /** End to end: when `ready` is set, the output file is the server's file, and every offset
      was written exactly once, whatever the interleaving, sizes, modes and recoveries. */
  lemma EndToEnd(c: Config, es: seq<Event>)
    requires ConfigOk(c) && Run(c, Start(c), es) && After(c, Start(c), es).ready
    ensures var f := After(c, Start(c), es).file;
            && (forall k {:trigger k in f} :: k in f <==> 0 <= k < c.Size())
            && (forall k | k in f :: f[k] == Some(c.server[k]))
    ensures forall k | 0 <= k < c.Size() :: WriteCount(c, Start(c), es, k) == 1
  {
    var s, t := Start(c), After(c, Start(c), es);
    StartOk(c);
    StartShape(c);
    Reachable(c, es);
    ReadyIsDone(c, s, es);
    DoneIffAllWritten(c, t);
    forall k | 0 <= k < c.Size() ensures WriteCount(c, s, es, k) == 1 {
      assert k in t.file;
      WritesMissingOnce(c, s, es, k);
    }
  }

  // ---------------------------------------------------------------- progress

  /** The longest read the link's chunk and the buffer allow. */
  function LongestRead(c: Config, l: Conn): nat
    requires l.cur <= l.last && c.buffer >= 1
  {
    Min(l.last - l.cur + 1, c.buffer)
  }

  /** No stall: while bytes are missing, some link holds unread work and can take a turn. */
  lemma NoStall(c: Config, s: State) returns (inp: Input)
    requires ConfigOk(c) && Inv(c, s) && s.done < c.Size()
    ensures InputOk(c, s, inp)
  {
    DoneIffAllWritten(c, s);
    var i: Link := if Work(s, 0) != [] then 0 else 1;
    InvBoth(c, s, i);
    inp := Input(i, LongestRead(c, s.link.At(i)), Pair(1, 1), false, 0, c.initSeg);
  }

  function TurnCount(es: seq<Event>): nat {
    if es == [] then 0 else (if es[0].Turn? then 1 else 0) + TurnCount(es[1..])
  }

  /** No run takes more turns than the file has bytes. */
  lemma {:induction false} TurnsBounded(c: Config, s: State, es: seq<Event>)
    requires ConfigOk(c) && Inv(c, s) && Run(c, s, es)
    ensures TurnCount(es) <= After(c, s, es).done - s.done && After(c, s, es).done <= c.Size()
    decreases |es|
  {
    if es == [] {
      DoneIffAllWritten(c, s);
    } else {
      NextKeeps(c, s, es[0]);
      if es[0].Turn? { TurnKeeps(c, s, es[0].input); }
      TurnsBounded(c, Next(c, s, es[0]), es[1..]);
    }
  }

  /** Every unfinished state can be run to completion. */
  lemma {:induction false} CanFinish(c: Config, s: State) returns (es: seq<Event>)
    requires ConfigOk(c) && Inv(c, s) && !s.ready
    ensures Run(c, s, es) && After(c, s, es).ready
    decreases c.Size() - s.done
  {
    DoneIffAllWritten(c, s);
    if s.done == c.Size() {
      es := [EndPass];
      assert After(c, Next(c, s, EndPass), es[1..]) == Next(c, s, EndPass);
    } else {
      var inp := NoStall(c, s);
      TurnKeeps(c, s, inp);
      DoneIffAllWritten(c, TurnOf(c, s, inp));
      var rest := CanFinish(c, TurnOf(c, s, inp));
      es := [Turn(inp)] + rest;
      assert es[1..] == rest;
    }
  }

  /** Every download can be run from its start to completion. */
  lemma DownloadCanFinish(c: Config) returns (es: seq<Event>)
    requires ConfigOk(c)
    ensures Run(c, Start(c), es) && After(c, Start(c), es).ready
  {
    StartOk(c);
    StartShape(c);
    es := CanFinish(c, Start(c));
  }
}
