/** Setting up the next segment keeps the invariant (src/gb.c:522, src/recovery.c:189). */
module Setup {
  import opened Pairs
  import opened Chunks
  import opened Scheduler
  import opened DutyLemmas
  import opened Invariant
  import opened Finishing
  import opened Assigning

  // ---------------------------------------------------------------- segment sizing

  /** A new segment never passes the end of the file, is empty only there, and leaves nothing
      or enough for another full segment. */
  lemma ExtensionTiles(c: Config, s: State, raw: int)
    requires ConfigOk(c) && 0 <= s.lastOff < c.Size() && raw >= c.initSeg / 2
    ensures var n := Extension(c, s, raw);
            && 0 <= n && s.lastOff + n <= c.Size() - 1
            && (n == 0 <==> s.lastOff == c.Size() - 1)
            && (s.lastOff + n == c.Size() - 1 || (n == raw && c.Size() - 1 - (s.lastOff + n) >= c.initSeg))
  {
  }

  /** A segment of `size` bytes behind `from` ends there, or at the end of the file if less than a
      full segment would be left. */
  predicate EndsAt(c: Config, from: int, size: int, end: int) {
    end == if c.Size() - 1 - (from + size) < c.initSeg then c.Size() - 1 else from + size
  }

  lemma NextSizeTiles(c: Config, s: State, inp: Input)
    requires ConfigOk(c) && 0 <= s.lastOff < c.Size() && inp.policy >= c.initSeg
    ensures var n := NextSize(c, s, inp);
            && 0 <= n && s.lastOff + n <= c.Size() - 1
            && (n == 0 <==> s.lastOff == c.Size() - 1)
            && (s.lastOff + n == c.Size() - 1 || (n >= c.initSeg / 2 && c.Size() - 1 - (s.lastOff + n) >= c.initSeg))
  {
    var raw := if !c.fixedSegment then inp.policy
               else if s.link.lte.idle != s.link.wifi.idle then c.initSeg / 2
               else c.initSeg;
    ExtensionTiles(c, s, raw);
  }

  // ---------------------------------------------------------------- adding a segment

  function NewSeg(b: State, recovery: bool, chunks: seq<Chunk>, size: int): Seg {
    Seg(b.count + 1, recovery, chunks, size, Pair(None, None))
  }

  lemma SortOne(ch: Chunk)
    ensures Sort([ch]) == [ch]
  {
    assert Without([ch], 0) == [];
  }

  lemma LastIsGreatest(cs: seq<Chunk>, hi: int)
    requires Positive(cs) && Ordered(cs) && Within(cs, 0, hi)
    requires exists ch | ch in cs :: ch.last == hi
    ensures LastOf(cs).last == hi
  {
    var x :| 0 <= x < |cs| && cs[x].last == hi;
    assert LastOf(cs) in cs;
    if x < |cs| - 1 { assert cs[x].last < cs[|cs| - 1].start; }
  }

  /** The state with the whole new segment at the tail: sizes behind it are not negative. */
  lemma VirtualNonNegative(b: State, s: State, i: Link, ci: Link)
    requires s.segs == b.segs + [Tail(s)] && Tail(s).sub == Pair(None, None) && Tail(s).size >= 0
    requires DutiesOk(Work(b, i), b.lastOff) && DutiesOk(Work(b, Other(i)), b.lastOff)
    requires LinkOk(Work(b, i), s.link.At(i), true) && LinkOk(Work(b, Other(i)), s.link.At(Other(i)), true)
    ensures VirtualSize(s, ci) >= 0
    ensures Work(s, i) == Work(b, i) && Work(s, Other(i)) == Work(b, Other(i))
  {
    DutiesAppend(b.segs, Tail(s), i);
    DutiesAppend(b.segs, Tail(s), Other(i));
    assert Work(b, i) + [] == Work(b, i) && Work(b, Other(i)) + [] == Work(b, Other(i));
    ContributionNonNegative(s, ci, i, b.lastOff, true);
    ContributionNonNegative(s, ci, Other(i), b.lastOff, true);
  }

  /** `Subdivide` is one division, by the link mode or by the rates. */
  lemma SubdivideIs(c: Config, s: State, i: Link, inp: Input, mode: int) returns (ci: Link, t: nat, a: nat)
    ensures Subdivide(c, s, i, inp, mode) == AddSubsegments(c, s, ci, t, a, Fast(inp.goodput))
  {
    if mode == 1 || mode == 2 {
      ci, t, a := mode - 1, 1, 0;
    } else if c.fixedSubsegment {
      ci, t, a := i, c.rate.At(i), c.rate.At(Other(i));
    } else {
      ci, t, a := i, inp.goodput.At(i), inp.goodput.At(Other(i));
    }
  }

  /** The tail divided by `Subdivide`, whatever the mode. */
  lemma SubdivideTail(c: Config, b: State, s: State, i: Link, inp: Input, mode: int, hi: int)
    requires s.segs == b.segs + [Tail(s)] && Whole(Tail(s), hi)
    requires Tail(s).recovery || (VirtualSize(s, 0) >= 0 && VirtualSize(s, 1) >= 0)
    ensures var r := Subdivide(c, s, i, inp, mode);
            && r == s.(segs := b.segs + [Tail(r)]) && r.segs == b.segs + [Tail(r)]
            && Same(Tail(r), Tail(s)) && Divided(Tail(r), hi)
  {
    var ci, t, a := SubdivideIs(c, s, i, inp, mode);
    assert ci == 0 || ci == 1;
    TailDivided(c, s, ci, t, a, Fast(inp.goodput), hi);
    assert s.segs[..|s.segs| - 1] == b.segs;
  }

  // ---------------------------------------------------------------- ordinary segments

  lemma AddNextShape(c: Config, b: State, n: int)
    requires 0 <= b.lastOff && 0 < n
    ensures var s := AddNext(c, b, n);
            var g := NewSeg(b, false, [Chunk(b.lastOff + 1, b.lastOff + n)], n);
            && s == b.(segs := b.segs + [g], count := b.count + 1, lastOff := b.lastOff + n)
            && Tail(s) == g && Whole(g, s.lastOff)
  {
    var ch := Chunk(b.lastOff + 1, b.lastOff + n);
    SortOne(ch);
    CoverOne(ch, 0);
  }

  lemma BooksExtend(c: Config, b: State, i: Link, n: int)
    requires BooksOf(c, b, i) && 0 < n && b.lastOff + n < c.Size()
    ensures Books(c, b.file, b.done, b.lastOff + n, Left(b, i), Left(b, Other(i)),
                  [Chunk(b.lastOff + 1, b.lastOff + n)])
  {
    var ch := Chunk(b.lastOff + 1, b.lastOff + n);
    forall k
      ensures Cover([ch], k) + Free(c, b.lastOff + n, k) == Cover([], k) + Free(c, b.lastOff, k)
    {
      CoverOne(ch, k);
    }
    CoverOne(ch, 0);
    BooksMove(c, b.file, b.done, b.lastOff, Left(b, i), Left(b, Other(i)), [],
              b.lastOff + n, Left(b, i), Left(b, Other(i)), [ch]);
  }

  /** What a new segment changes, besides restoring the core. */
  ghost predicate Grown(c: Config, s: State, t: State, i: Link)
    requires Work(s, i) != []
  {
    && Core(c, t, i, true) && t.count == s.count + 1
    && t.file == s.file && t.done == s.done && t.seen == s.seen && t.ready == s.ready
    && t.link.At(i).cur == s.link.At(i).cur && t.link.At(i).last == s.link.At(i).last
    && Work(t, i) != [] && Work(t, i)[0] == Work(s, i)[0]
  }

  lemma NewSegmentTail(c: Config, b: State, i: Link, inp: Input, n: int)
    requires Part(c, b, i, true) && Part(c, b, Other(i), false) && 0 <= b.lastOff && 0 < n
    ensures var r := MakeSegment(c, b, i, inp, n);
            var g := Tail(r);
            && r == b.(segs := b.segs + [g], count := b.count + 1, lastOff := b.lastOff + n, single := r.single)
            && Same(g, NewSeg(b, false, [Chunk(b.lastOff + 1, b.lastOff + n)], n))
            && Divided(g, b.lastOff + n)
  {
    var s2 := AddNext(c, b, n);
    AddNextShape(c, b, n);
    var choose := c.minEnergy && s2.completed > 0;
    var s := if choose then s2.(single := inp.mode != 0) else s2;
    VirtualNonNegative(b, s, i, 0);
    VirtualNonNegative(b, s, i, 1);
    SubdivideTail(c, b, s, i, inp, if choose then inp.mode else 0, s.lastOff);
  }

  /** How a regular new segment leaves the other link. */
  ghost predicate OtherKept(b: State, t: State, o: Link) {
    && (Work(b, o) != [] ==> Work(t, o) != [] && Work(t, o)[0] == Work(b, o)[0]
                             && (t.link.At(o).idle ==> b.link.At(o).idle))
    && (Work(b, o) == [] && Work(t, o) != [] ==> !t.link.At(o).idle)
  }

  /** `s` is `b` with a divided new segment of `n` bytes at the tail. */
  ghost predicate WithNext(b: State, s: State, n: int) {
    && s == b.(segs := b.segs + [Tail(s)], count := b.count + 1, lastOff := b.lastOff + n, single := s.single)
    && Same(Tail(s), NewSeg(b, false, [Chunk(b.lastOff + 1, b.lastOff + n)], n))
    && Divided(Tail(s), b.lastOff + n)
  }

  lemma RequestedShape(c: Config, s: State, i: Link)
    ensures var t, o := RequestBoth(c, s, i), Other(i);
            && t == s.(link := t.link) && Tail(t) == Tail(s)
            && t.link.At(i) == Requested(s.link.At(i), Tail(s).sub.At(i))
            && t.link.At(o) == OtherRequested(c, s.link.At(o), Tail(s), o)
  {
  }

  /** The link that asks for the segment. */
  lemma NewSegmentOwn(c: Config, b: State, i: Link, s: State, n: int, t: State)
    requires Part(c, b, i, true) && Work(b, i) != [] && WithNext(b, s, n) && 0 < n && b.lastOff + n < c.Size()
    requires t == s.(link := t.link) && t.link.At(i) == Requested(s.link.At(i), Tail(s).sub.At(i))
    ensures LinkExtended(c, b, t, i)
    ensures t.link.At(i).cur == b.link.At(i).cur && t.link.At(i).last == b.link.At(i).last
    ensures t.link.At(i).idle == b.link.At(i).idle
  {
    RequestedExtends(Work(b, i), b.link.At(i), Tail(s).sub.At(i), Tail(s).id, true);
  }

  lemma NewSegmentOther(c: Config, b: State, o: Link, s: State, n: int, t: State)
    requires Part(c, b, o, false) && WithNext(b, s, n) && 0 <= b.lastOff && 0 < n && b.lastOff + n < c.Size()
    requires t == s.(link := t.link) && t.link.At(o) == OtherRequested(c, s.link.At(o), Tail(s), o)
    ensures LinkExtended(c, b, t, o) && (t.link.At(o).idle ==> b.link.At(o).idle)
    ensures Work(b, o) == [] && Tail(t).sub.At(o).Some? ==> !t.link.At(o).idle
  {
    OtherExtends(c, Work(b, o), b.link.At(o), b.link.At(o), Tail(s), o, s.lastOff);
  }

  lemma NewSegmentLinks(c: Config, b: State, i: Link, s: State, n: int)
    requires Part(c, b, i, true) && Part(c, b, Other(i), false) && Work(b, i) != []
    requires 0 <= b.lastOff && 0 < n && b.lastOff + n < c.Size() && WithNext(b, s, n)
    ensures var t := RequestBoth(c, s, i);
            && Tail(t) == Tail(s) && t == s.(link := t.link)
            && LinkExtended(c, b, t, i) && LinkExtended(c, b, t, Other(i))
            && t.link.At(i).cur == b.link.At(i).cur && t.link.At(i).last == b.link.At(i).last
            && t.link.At(i).idle == b.link.At(i).idle
            && (t.link.At(Other(i)).idle ==> b.link.At(Other(i)).idle)
            && (Work(b, Other(i)) == [] && Tail(t).sub.At(Other(i)).Some? ==> !t.link.At(Other(i)).idle)
  {
    var t := RequestBoth(c, s, i);
    RequestedShape(c, s, i);
    NewSegmentOwn(c, b, i, s, n, t);
    NewSegmentOther(c, b, Other(i), s, n, t);
  }

  lemma NewSegmentMade(c: Config, b: State, i: Link, s: State, n: int)
    requires Core(c, b, i, true) && Work(b, i) != [] && 0 < n && b.lastOff + n < c.Size() && WithNext(b, s, n)
    ensures var t := RequestBoth(c, s, i);
            && Grown(c, b, t, i) && t.lastOff == b.lastOff + n
            && t.link.At(i).idle == b.link.At(i).idle && OtherKept(b, t, Other(i))
  {
    var t := RequestBoth(c, s, i);
    NewSegmentLinks(c, b, i, s, n);
    BooksExtend(c, b, i, n);
    AssignKeeps(c, b, t, i);
  }

  /** The state in which a turn may go on after the set-up attempt. */
  ghost predicate Prepared(c: Config, s: State, t: State, i: Link)
    requires Work(s, i) != []
  {
    && Core(c, t, i, true)
    && t.file == s.file && t.done == s.done && t.seen == s.seen && t.ready == s.ready
    && t.link.At(i).cur == s.link.At(i).cur && t.link.At(i).last == s.link.At(i).last
    && Work(t, i) != [] && Work(t, i)[0] == Work(s, i)[0]
    && MidIdle(c, t, i)
    && (Work(t, i)[0].id >= t.count ==> t.lastOff == c.Size() - 1)
  }

  lemma IdAtMostCount(s: State, j: Link, slack: bool)
    requires Window(s.segs, s.count, s.completed) && Work(s, j) != []
    requires LinkOk(Work(s, j), s.link.At(j), slack)
    ensures Work(s, j)[0].id <= s.count
  {
    CursorSeg(s, j, slack);
  }

  lemma GrownPrepared(c: Config, s: State, b: State, t: State, i: Link)
    requires Core(c, s, i, true) && IdleOk(c, s, Other(i)) && Work(s, i) != []
    requires b == s || b == UpdateInorder(c, s)
    requires Core(c, b, i, true) && Grown(c, b, t, i) && OtherKept(b, t, Other(i))
    ensures Prepared(c, s, t, i)
  {
    IdAtMostCount(s, i, true);
    if Work(s, Other(i)) != [] { IdAtMostCount(s, Other(i), false); }
  }

  lemma BeforeSizingKeeps(c: Config, s: State, i: Link)
    requires Core(c, s, i, true)
    ensures Core(c, BeforeSizing(c, s), i, true)
  {
    UpdateKeeps(c, s, i, true);
  }

  lemma EndPrepared(c: Config, s: State, b: State, i: Link)
    requires InvFrom(c, s, i, true) && Work(s, i) != []
    requires b == s || b == UpdateInorder(c, s)
    requires Core(c, b, i, true) && b.lastOff == c.Size() - 1
    ensures Prepared(c, s, b, i)
  {
  }

  lemma NewSegmentKeeps(c: Config, s: State, i: Link, inp: Input)
    requires ConfigOk(c) && inp.policy >= c.initSeg
    requires InvFrom(c, s, i, true) && Work(s, i) != []
    ensures var r := NewSegment(c, s, i, inp);
            Prepared(c, s, if r.0 then RequestBoth(c, r.1, i) else r.1, i)
  {
    var b := BeforeSizing(c, s);
    BeforeSizingKeeps(c, s, i);
    var n := NextSize(c, b, inp);
    NextSizeTiles(c, b, inp);
    if n == 0 {
      EndPrepared(c, s, b, i);
    } else {
      NewSegmentTail(c, b, i, inp, n);
      var s4 := MakeSegment(c, b, i, inp, n);
      NewSegmentMade(c, b, i, s4, n);
      GrownPrepared(c, s, b, RequestBoth(c, s4, i), i);
    }
  }

  // ---------------------------------------------------------------- recovery

  /** The state in which a recovery sizes its segment. */
  ghost predicate Detached(s: State, b: State, i: Link) {
    var o := Other(i);
    && Window(b.segs, b.count, b.completed) && Descends(b.segs, s.segs)
    && Work(b, i) == Work(s, i) && Work(b, o) == []
    && b.count == s.count && b.lastOff == s.lastOff
    && b.file == s.file && b.done == s.done && b.seen == s.seen && b.ready == s.ready
    && b.link.At(i) == s.link.At(i).(idle := b.link.At(i).idle)
    && b.link.At(o) == s.link.At(o).(idle := b.link.At(o).idle, enabled := false, net := CLOSED)
    && (b.link.At(o).idle ==> s.link.At(o).idle)
  }

  lemma DetachShape(c: Config, s: State, o: Link)
    requires Window(s.segs, s.count, s.completed) && Work(s, o) != []
    requires LinkOk(Work(s, o), s.link.At(o), false)
    ensures var k := FirstAt(s.segs, o, 0);
            && k < |s.segs|
            && Detach(s, o) == WithList(s, TakeBack(s.segs, o, k)).(
                 link := s.link.With(o, s.link.At(o).(enabled := false, net := CLOSED)))
  {
    CursorSeg(s, o, false);
  }

  lemma DetachClears(c: Config, s: State, i: Link)
    requires Window(s.segs, s.count, s.completed) && Work(s, Other(i)) != []
    requires LinkOk(Work(s, Other(i)), s.link.At(Other(i)), false)
    ensures Detached(s, Detach(s, Other(i)), i)
  {
    var o := Other(i);
    var k := FirstAt(s.segs, o, 0);
    DetachShape(c, s, o);
    TakeBackClears(s.segs, o, k);
    WindowDescends(s, TakeBack(s.segs, o, k));
  }

  lemma BaseDetached(c: Config, s: State, i: Link)
    requires Core(c, s, i, true) && Work(s, Other(i)) != []
    ensures Detached(s, BeforeSizing(c, Detach(s, Other(i))), i)
  {
    DetachClears(c, s, i);
  }

  /** The taken-back bytes and the extension are exactly what is now in no link's hands. */
  /** Appending the extension, on the lists. */
  lemma ExtendedCover(back: seq<Chunk>, pool: seq<Chunk>, from: int, ext: nat, k: int)
    requires pool == if ext == 0 then back else back + [Chunk(from + 1, from + ext)]
    ensures Cover(pool, k) == Cover(back, k) + (if from < k <= from + ext then 1 else 0)
    ensures Total(pool) == Total(back) + ext
  {
    if ext != 0 {
      var ch := Chunk(from + 1, from + ext);
      CoverAppend(back, [ch], k);
      TotalAppend(back, [ch]);
      CoverOne(ch, k);
    }
  }

  lemma PoolMoves(c: Config, file: map<int, Option<Byte>>, done: int, lastOff: int,
                  u: seq<Chunk>, back: seq<Chunk>, pool: seq<Chunk>, ext: nat)
    requires Books(c, file, done, lastOff, u, back, []) && lastOff + ext < c.Size()
    requires forall k :: Cover(pool, k) == Cover(back, k) + (if lastOff < k <= lastOff + ext then 1 else 0)
    requires Total(pool) == Total(back) + ext
    ensures Books(c, file, done, lastOff + ext, u, [], pool)
  {
    BooksMove(c, file, done, lastOff, u, back, [], lastOff + ext, u, [], pool);
  }

  lemma PoolBooks(c: Config, s: State, b: State, i: Link, inp: Input)
    requires ConfigOk(c) && inp.policy >= c.initSeg && BooksOf(c, s, i)
    requires b.lastOff == s.lastOff && 0 <= s.lastOff < c.Size()
    ensures var pool := Pool(c, b, Left(s, Other(i)), inp);
            var ext := Extension(c, b, if c.fixedSegment then c.initSeg else inp.policy);
            && 0 <= ext && b.lastOff + ext < c.Size()
            && (forall k :: Cover(pool, k) == Cover(Left(s, Other(i)), k)
                                              + (if b.lastOff < k <= b.lastOff + ext then 1 else 0))
            && Total(pool) == Total(Left(s, Other(i))) + ext
            && Books(c, s.file, s.done, b.lastOff + ext, Left(s, i), [], pool)
  {
    var back := Left(s, Other(i));
    var raw := if c.fixedSegment then c.initSeg else inp.policy;
    var ext := Extension(c, b, raw);
    ExtensionTiles(c, b, raw);
    var pool := Pool(c, b, back, inp);
    forall k ensures Cover(pool, k) == Cover(back, k) + (if b.lastOff < k <= b.lastOff + ext then 1 else 0) {
      ExtendedCover(back, pool, b.lastOff, ext, k);
    }
    ExtendedCover(back, pool, b.lastOff, ext, 0);
    PoolMoves(c, s.file, s.done, s.lastOff, Left(s, i), back, pool, ext);
  }

  lemma BooksDisjoint(c: Config, file: map<int, Option<Byte>>, done: int, lastOff: int,
                      u: seq<Chunk>, v: seq<Chunk>, pool: seq<Chunk>)
    requires Books(c, file, done, lastOff, u, v, pool)
    ensures forall k :: Cover(pool, k) <= 1
  {
    forall k ensures Cover(pool, k) <= 1 { BooksAt(c, file, done, lastOff, u, v, pool, k); }
  }

  lemma UnreadOk(ds: seq<Duty>, l: Conn, hi: int)
    requires DutiesOk(ds, hi) && LinkOk(ds, l, false) && ds != []
    ensures Positive(Unread(ds, l)) && Within(Unread(ds, l), 0, hi)
  {
    FlatOk(ds, hi);
    var h := Head(ds[0].chunks);
    assert ds[0] in ds && h in ds[0].chunks;
    forall x | x in Rest(Flat(ds)) ensures x in Flat(ds) {}
  }

  lemma {:induction false} FlatOk(ds: seq<Duty>, hi: int)
    requires DutiesOk(ds, hi)
    ensures Positive(Flat(ds)) && Within(Flat(ds), 0, hi)
  {
    if ds != [] {
      FlatOk(ds[1..], hi);
      assert ds[0] in ds;
      assert DutyOk(ds[0], hi);
    }
  }

  ghost predicate PoolOf(c: Config, s: State, b: State, i: Link, inp: Input, list: seq<Chunk>, hi: int) {
    && list == Pool(c, b, Left(s, Other(i)), inp)
    && hi == b.lastOff + Extension(c, b, if c.fixedSegment then c.initSeg else inp.policy)
  }

  lemma PoolRange(c: Config, s: State, b: State, i: Link, inp: Input, list: seq<Chunk>, hi: int)
    requires ConfigOk(c) && inp.policy >= c.initSeg && 0 <= s.lastOff < c.Size() && b.lastOff == s.lastOff
    requires Part(c, s, Other(i), false) && Work(s, Other(i)) != [] && PoolOf(c, s, b, i, inp, list, hi)
    ensures Positive(list) && Within(list, 0, hi) && list != [] && b.lastOff <= hi < c.Size()
    ensures hi > b.lastOff ==> exists ch | ch in list :: ch.last == hi
  {
    var back := Left(s, Other(i));
    ExtensionTiles(c, b, if c.fixedSegment then c.initSeg else inp.policy);
    UnreadOk(Work(s, Other(i)), s.link.At(Other(i)), s.lastOff);
    if hi > b.lastOff {
      var ch := Chunk(b.lastOff + 1, hi);
      assert list == back + [ch];
      assert ch in list;
    }
  }

  lemma SortPool(c: Config, file: map<int, Option<Byte>>, done: int, hi: int, u: seq<Chunk>, list: seq<Chunk>)
    requires Books(c, file, done, hi, u, [], list)
    requires Positive(list) && Within(list, 0, hi) && list != []
    ensures Positive(Sort(list)) && Within(Sort(list), 0, hi) && Ordered(Sort(list)) && Sort(list) != []
    ensures Total(Sort(list)) == Total(list) >= 1
    ensures Books(c, file, done, hi, u, [], Sort(list))
  {
    SortSorts(list);
    SortKeeps(list, 0, hi);
    BytesLength(list);
    BooksDisjoint(c, file, done, hi, u, [], list);
    forall k ensures Cover(Sort(list), k) == Cover(list, k) { SortCover(list, k); }
    BooksMove(c, file, done, hi, u, [], list, hi, u, [], Sort(list));
    SortedDisjointOrdered(Sort(list));
  }

  /** The recovered segment holds exactly the pool, sorted and disjoint. */
  lemma PoolSorted(c: Config, s: State, b: State, i: Link, inp: Input, list: seq<Chunk>, hi: int)
    requires ConfigOk(c) && inp.policy >= c.initSeg && Core(c, s, i, true) && Detached(s, b, i)
    requires Work(s, Other(i)) != [] && PoolOf(c, s, b, i, inp, list, hi)
    ensures Positive(Sort(list)) && Within(Sort(list), 0, hi) && Ordered(Sort(list)) && Sort(list) != []
    ensures Total(Sort(list)) == Total(list) >= 1 && b.lastOff <= hi < c.Size()
    ensures Books(c, s.file, s.done, hi, Left(s, i), [], Sort(list))
  {
    PoolBooks(c, s, b, i, inp);
    PoolRange(c, s, b, i, inp, list, hi);
    SortPool(c, s.file, s.done, hi, Left(s, i), list);
  }

  /** The recorded last segment offset is the greatest offset ever assigned. */
  lemma PoolLast(c: Config, s: State, b: State, i: Link, inp: Input, list: seq<Chunk>, hi: int)
    requires ConfigOk(c) && inp.policy >= c.initSeg && Core(c, s, i, true) && Detached(s, b, i)
    requires Work(s, Other(i)) != [] && PoolOf(c, s, b, i, inp, list, hi)
    ensures Sort(list) != [] && hi == if b.lastOff < LastOf(Sort(list)).last then LastOf(Sort(list)).last else b.lastOff
  {
    PoolRange(c, s, b, i, inp, list, hi);
    PoolSorted(c, s, b, i, inp, list, hi);
    SortSorts(list);
    assert LastOf(Sort(list)) in Sort(list);
    if hi > b.lastOff {
      var ch :| ch in list && ch.last == hi;
      assert ch in multiset(list);
      assert ch in multiset(Sort(list));
      LastIsGreatest(Sort(list), hi);
    }
  }

  lemma WithRecoveredShape(b: State, o: Link, list: seq<Chunk>, hi: int)
    requires hi == if b.lastOff < LastOf(Sort(list)).last then LastOf(Sort(list)).last else b.lastOff
    ensures WithRecovered(b, o, list) ==
            b.(segs := b.segs + [NewSeg(b, true, Sort(list), Total(list))], count := b.count + 1, lastOff := hi,
               link := b.link.With(o, b.link.At(o).(cursor := Some(b.count + 1))))
  {
  }

  lemma RecoverShape(c: Config, s: State, b: State, i: Link, inp: Input, list: seq<Chunk>, hi: int)
    requires b == BeforeSizing(c, Detach(s, Other(i))) && list == Pool(c, b, Left(s, Other(i)), inp)
    requires hi == if b.lastOff < LastOf(Sort(list)).last then LastOf(Sort(list)).last else b.lastOff
    ensures var o := Other(i);
            Recover(c, s, i, inp) ==
            b.(segs := b.segs + [NewSeg(b, true, Sort(list), Total(list))], count := b.count + 1, lastOff := hi,
               link := b.link.With(o, b.link.At(o).(cursor := Some(b.count + 1))))
  {
    RecoverIs(c, s, b, i, inp, list);
    WithRecoveredShape(b, Other(i), list, hi);
  }

  lemma RecoverIs(c: Config, s: State, b: State, i: Link, inp: Input, list: seq<Chunk>)
    requires b == BeforeSizing(c, Detach(s, Other(i))) && list == Pool(c, b, Left(s, Other(i)), inp)
    ensures Recover(c, s, i, inp) == WithRecovered(b, Other(i), list)
  {
  }

  lemma RecoverTail(c: Config, s: State, b: State, i: Link, inp: Input, list: seq<Chunk>, hi: int)
    requires ConfigOk(c) && inp.policy >= c.initSeg && Core(c, s, i, true) && Detached(s, b, i)
    requires Work(s, Other(i)) != [] && PoolOf(c, s, b, i, inp, list, hi)
    requires b == BeforeSizing(c, Detach(s, Other(i)))
    ensures var r := Subdivide(c, Recover(c, s, i, inp), i, inp, 0);
            var o := Other(i);
            && r == b.(segs := b.segs + [Tail(r)], count := b.count + 1, lastOff := hi,
                       link := b.link.With(o, b.link.At(o).(cursor := Some(b.count + 1))))
            && Same(Tail(r), NewSeg(b, true, Sort(list), Total(list))) && Divided(Tail(r), hi)
  {
    PoolSorted(c, s, b, i, inp, list, hi);
    PoolLast(c, s, b, i, inp, list, hi);
    RecoverShape(c, s, b, i, inp, list, hi);
    SubdivideTail(c, b, Recover(c, s, i, inp), i, inp, 0, hi);
  }

  /** `r` is the base state with a recovered and divided segment at the tail. */
  ghost predicate RecoveredInto(c: Config, s: State, b: State, i: Link, r: State, list: seq<Chunk>, hi: int) {
    && r == b.(segs := b.segs + [Tail(r)], count := b.count + 1, lastOff := hi,
               link := b.link.With(Other(i), b.link.At(Other(i)).(cursor := Some(b.count + 1))))
    && Same(Tail(r), NewSeg(b, true, Sort(list), Total(list))) && Divided(Tail(r), hi)
    && Sort(list) != [] && b.lastOff <= hi < c.Size() && LastOf(Sort(list)).last <= hi
  }

  lemma RecoverLinks(c: Config, s: State, b: State, i: Link, r: State, list: seq<Chunk>, hi: int)
    requires 0 <= s.lastOff && Part(c, s, i, true) && Work(s, i) != [] && Detached(s, b, i)
    requires s.link.At(Other(i)).lastSegment ==> s.lastOff == c.Size() - 1
    requires RecoveredInto(c, s, b, i, r, list, hi)
    ensures var t := RequestBoth(c, r, i);
            && Tail(t) == Tail(r) && t == r.(link := t.link)
            && LinkExtended(c, b, t, i) && LinkExtended(c, b, t, Other(i))
            && t.link.At(i).cur == s.link.At(i).cur && t.link.At(i).last == s.link.At(i).last
            && t.link.At(i).idle == b.link.At(i).idle
            && (t.link.At(Other(i)).idle ==> b.link.At(Other(i)).idle)
  {
    var o, g := Other(i), Tail(r);
    RequestedExtends(Work(s, i), b.link.At(i), g.sub.At(i), g.id, true);
    assert r.link.At(i) == b.link.At(i) && r.link.At(o).lastSegment == s.link.At(o).lastSegment;
    OtherExtends(c, [], r.link.At(o), b.link.At(o), g, o, hi);
  }

  /** The base state has no work for the other link, and is ready for a new segment. */
  lemma DetachedReady(c: Config, s: State, b: State, i: Link)
    requires SegsOk(s.segs, s.lastOff) && 0 <= s.lastOff && Part(c, s, i, true) && Detached(s, b, i)
    ensures SegsOk(b.segs, b.lastOff) && Left(b, i) == Left(s, i) && Left(b, Other(i)) == []
    ensures Ready(b, i, true) && Ready(b, Other(i), false)
  {
    SegsOkDescends(b.segs, s.segs, s.lastOff);
  }

  /** Sharing out a recovered segment, for any division of it. */
  lemma RecoverAssign(c: Config, s: State, b: State, i: Link, r: State, list: seq<Chunk>, hi: int)
    requires SegsOk(s.segs, s.lastOff) && 0 <= s.lastOff && Part(c, s, i, true)
    requires s.link.At(Other(i)).lastSegment ==> s.lastOff == c.Size() - 1
    requires Work(s, i) != [] && Detached(s, b, i)
    requires RecoveredInto(c, s, b, i, r, list, hi)
    requires Books(c, s.file, s.done, hi, Left(s, i), [], Sort(list))
    ensures Grown(c, s, RequestBoth(c, r, i), i)
  {
    var t := RequestBoth(c, r, i);
    RecoverLinks(c, s, b, i, r, list, hi);
    DetachedReady(c, s, b, i);
    AssignKeeps(c, b, t, i);
  }

  lemma RecoverKeeps(c: Config, s: State, i: Link, inp: Input)
    requires ConfigOk(c) && inp.policy >= c.initSeg
    requires InvFrom(c, s, i, true) && Work(s, i) != []
    requires DecideRecovery(c, s, i, inp)
    ensures Prepared(c, s, RequestBoth(c, Subdivide(c, Recover(c, s, i, inp), i, inp, 0), i), i)
  {
    var o := Other(i);
    var b := BeforeSizing(c, Detach(s, o));
    var list := Pool(c, b, Left(s, o), inp);
    var hi := b.lastOff + Extension(c, b, if c.fixedSegment then c.initSeg else inp.policy);
    CursorSeg(s, i, true);
    CursorSeg(s, o, false);
    BaseDetached(c, s, i);
    RecoverTail(c, s, b, i, inp, list, hi);
    PoolSorted(c, s, b, i, inp, list, hi);
    PoolLast(c, s, b, i, inp, list, hi);
    RecoverLinks(c, s, b, i, Subdivide(c, Recover(c, s, i, inp), i, inp, 0), list, hi);
    RecoverAssign(c, s, b, i, Subdivide(c, Recover(c, s, i, inp), i, inp, 0), list, hi);
    IdAtMostCount(s, i, true);
    assert Work(s, i)[0] in Work(s, i);
  }
}
