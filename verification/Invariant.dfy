/** What every reachable scheduler state satisfies, and that each operation keeps it. */
module Invariant {
  import opened Pairs
  import opened Chunks
  import opened Scheduler
  import opened DutyLemmas

  // ---------------------------------------------------------------- the invariant

  ghost function Work(s: State, j: Link): seq<Duty> { Duties(s.segs, j) }

  ghost function Left(s: State, j: Link): seq<Chunk> { Unread(Work(s, j), s.link.At(j)) }

  ghost predicate DutyOk(d: Duty, hi: int) {
    && d.chunks != [] && Positive(d.chunks) && Ordered(d.chunks) && Within(d.chunks, 0, hi)
    && d.size >= 0 && (!d.recovery ==> |d.chunks| == 1)
  }

  ghost predicate DutiesOk(ds: seq<Duty>, hi: int) {
    forall d | d in ds :: DutyOk(d, hi)
  }

  ghost predicate SegsOk(gs: seq<Seg>, hi: int) {
    forall g | g in gs :: g.chunks != [] && LastOf(g.chunks).last <= hi
  }

  /** A link's record agrees with its work: cached cursor, byte cursors, pipeline flag, and the
      responses still to arrive. `slack` lets the current chunk be read to its end. */
  ghost predicate LinkOk(ds: seq<Duty>, l: Conn, slack: bool) {
    if ds == [] then
      l.cursor == None && !l.enabled && IsIdle(l) && l.net.pending == []
    else
      var h := Head(ds[0].chunks);
      && l.cursor == Some(ds[0].id) && l.enabled
      && h.start <= l.cur && l.last == h.last && l.cur <= l.last + (if slack then 1 else 0)
      && (l.pipelined <==> |ds| > 1)
      && l.net == Net(Chunk(l.cur, l.last), Rest(Flat(ds)))
  }

  function Free(c: Config, lastOff: int, k: int): nat { if lastOff < k < c.Size() then 1 else 0 }

  function Missing(c: Config, file: map<int, Option<Byte>>, k: int): nat {
    if 0 <= k < c.Size() && k !in file then 1 else 0
  }

  /** Byte conservation: every missing offset is in exactly one place, every written one in none. */
  ghost predicate Books(c: Config, file: map<int, Option<Byte>>, done: int, lastOff: int,
                        u: seq<Chunk>, v: seq<Chunk>, pool: seq<Chunk>) {
    && (forall k :: Cover(u, k) + Cover(v, k) + Cover(pool, k) + Free(c, lastOff, k) == Missing(c, file, k))
    && done + Total(u) + Total(v) + Total(pool) + (c.Size() - 1 - lastOff) == c.Size()
    && (forall k | k in file :: 0 <= k < c.Size() && file[k] == Some(c.server[k]))
  }

  ghost predicate OnTail(ds: seq<Duty>, count: nat) { ds != [] && ds[|ds| - 1].id == count }

  ghost predicate Shape(c: Config, s: State) {
    && Window(s.segs, s.count, s.completed) && SegsOk(s.segs, s.lastOff)
    && 0 <= s.lastOff < c.Size()
  }

  /** Subsegments that are not begun hold exactly their recorded size. */
  ghost predicate Untouched(ds: seq<Duty>) {
    forall x | 1 <= x < |ds| :: ds[x].size == Total(ds[x].chunks)
  }

  /** One link's part of the invariant; a raised last-segment flag means that the whole file
      is assigned. */
  ghost predicate Part(c: Config, s: State, j: Link, slack: bool) {
    && DutiesOk(Work(s, j), s.lastOff) && Untouched(Work(s, j))
    && LinkOk(Work(s, j), s.link.At(j), slack)
    && (s.link.At(j).lastSegment ==> s.lastOff == c.Size() - 1)
  }

  /** A link that is marked idle but works is inside a recovered subsegment, and not of the
      newest segment unless the whole file is assigned. */
  ghost predicate IdleOk(c: Config, s: State, j: Link) {
    s.link.At(j).idle && Work(s, j) != [] ==>
      Work(s, j)[0].recovery && (Work(s, j)[0].id < s.count || s.lastOff == c.Size() - 1)
  }

  ghost predicate BooksOf(c: Config, s: State, i: Link) {
    Books(c, s.file, s.done, s.lastOff, Left(s, i), Left(s, Other(i)), [])
  }

  /** While part of the file is unassigned, some link still has the newest segment. */
  ghost predicate Live(c: Config, s: State, i: Link) {
    s.lastOff < c.Size() - 1 ==> OnTail(Work(s, i), s.count) || OnTail(Work(s, Other(i)), s.count)
  }

  ghost predicate Core(c: Config, s: State, i: Link, slack: bool) {
    && Shape(c, s) && Part(c, s, i, slack) && Part(c, s, Other(i), false)
    && BooksOf(c, s, i) && Live(c, s, i)
  }

  /** The invariant seen from link `i`; `slack` only matters inside a turn of that link. */
  ghost predicate InvFrom(c: Config, s: State, i: Link, slack: bool) {
    Core(c, s, i, slack) && IdleOk(c, s, i) && IdleOk(c, s, Other(i))
  }

  ghost predicate Inv(c: Config, s: State) { InvFrom(c, s, 0, false) }

  lemma InvBoth(c: Config, s: State, i: Link)
    ensures Inv(c, s) <==> InvFrom(c, s, i, false)
  {
    if BooksOf(c, s, 0) { BooksSwap(c, s.file, s.done, s.lastOff, Left(s, 0), Left(s, 1), []); }
    if BooksOf(c, s, 1) { BooksSwap(c, s.file, s.done, s.lastOff, Left(s, 1), Left(s, 0), []); }
  }

  // ---------------------------------------------------------------- list facts

  lemma FlatHead(ds: seq<Duty>)
    requires ds != [] && ds[0].chunks != []
    ensures Flat(ds) != [] && Flat(ds)[0] == ds[0].chunks[0]
    ensures Rest(Flat(ds)) == ds[0].chunks[1..] + Flat(ds[1..])
  {
    assert Flat(ds) == ds[0].chunks + Flat(ds[1..]);
  }

  lemma UnreadFacts(ds: seq<Duty>, l: Conn, k: int)
    requires ds != []
    ensures Cover(Unread(ds, l), k) == (if l.cur <= k <= l.last then 1 else 0) + Cover(Rest(Flat(ds)), k)
    ensures Total(Unread(ds, l)) == l.last - l.cur + 1 + Total(Rest(Flat(ds)))
  {
    var u := Unread(ds, l);
    assert u[1..] == Rest(Flat(ds));
  }

  // ---------------------------------------------------------------- writing

  lemma BooksAt(c: Config, file: map<int, Option<Byte>>, done: int, lastOff: int,
                u: seq<Chunk>, v: seq<Chunk>, pool: seq<Chunk>, k: int)
    requires Books(c, file, done, lastOff, u, v, pool)
    ensures Cover(u, k) + Cover(v, k) + Cover(pool, k) + Free(c, lastOff, k) == Missing(c, file, k)
  {
  }

  lemma BooksSwap(c: Config, file: map<int, Option<Byte>>, done: int, lastOff: int,
                  u: seq<Chunk>, v: seq<Chunk>, pool: seq<Chunk>)
    requires Books(c, file, done, lastOff, u, v, pool)
    ensures Books(c, file, done, lastOff, v, u, pool)
  {
    forall k ensures Cover(v, k) + Cover(u, k) + Cover(pool, k) + Free(c, lastOff, k) == Missing(c, file, k) {
      BooksAt(c, file, done, lastOff, u, v, pool, k);
    }
  }

  /** Books speak only about counts and totals. */
  lemma BooksMove(c: Config, file: map<int, Option<Byte>>, done: int, lastOff: int,
                  u: seq<Chunk>, v: seq<Chunk>, pool: seq<Chunk>,
                  lastOff': int, u': seq<Chunk>, v': seq<Chunk>, pool': seq<Chunk>)
    requires Books(c, file, done, lastOff, u, v, pool)
    requires forall k :: Cover(u', k) + Cover(v', k) + Cover(pool', k) + Free(c, lastOff', k)
                         == Cover(u, k) + Cover(v, k) + Cover(pool, k) + Free(c, lastOff, k)
    requires Total(u') + Total(v') + Total(pool') - lastOff' == Total(u) + Total(v) + Total(pool) - lastOff
    ensures Books(c, file, done, lastOff', u', v', pool')
  {
    forall k
      ensures Cover(u', k) + Cover(v', k) + Cover(pool', k) + Free(c, lastOff', k) == Missing(c, file, k)
    {
      BooksAt(c, file, done, lastOff, u, v, pool, k);
    }
  }

  ghost predicate InSpan(lo: int, n: nat, k: int) { lo <= k < lo + n }

  lemma BooksRead(c: Config, file: map<int, Option<Byte>>, done: int, lastOff: int,
                  u: seq<Chunk>, v: seq<Chunk>, file': map<int, Option<Byte>>, u': seq<Chunk>, at: int, n: nat)
    requires Books(c, file, done, lastOff, u, v, [])
    requires forall k :: Cover(u, k) == Cover(u', k) + (if InSpan(at, n, k) then 1 else 0)
    requires Total(u) == Total(u') + n
    requires forall k {:trigger k in file'} :: k in file' <==> k in file || InSpan(at, n, k)
    requires forall k | k in file' :: if InSpan(at, n, k) then 0 <= k < c.Size() ==> file'[k] == Some(c.server[k])
                                      else file'[k] == file[k]
    ensures Books(c, file', done + n, lastOff, u', v, [])
    ensures forall k | InSpan(at, n, k) :: Missing(c, file, k) == 1
  {
    forall k
      ensures Cover(u', k) + Cover(v, k) + Cover([], k) + Free(c, lastOff, k) == Missing(c, file', k)
      ensures InSpan(at, n, k) ==> Missing(c, file, k) == 1
    {
      BooksAt(c, file, done, lastOff, u, v, [], k);
      assert k in file' <==> k in file || InSpan(at, n, k);
    }
  }

  lemma LinkRead(ds: seq<Duty>, l: Conn, n: nat)
    requires LinkOk(ds, l, false) && ds != [] && n <= l.last - l.cur + 1
    ensures LinkOk(ds, l.(cur := l.cur + n, net := l.net.(body := Chunk(l.net.body.start + n, l.net.body.last))), true)
  {
  }

  /** Reads stay inside the current response body, which is the requested range. */
  lemma BodyIsFile(c: Config, net: Net, n: nat, j: nat)
    requires j < n && net.body.start + n <= net.body.last + 1
    ensures 0 <= net.body.start + j < c.Size() ==> BodyByte(c, net, j) == Some(c.server[net.body.start + j])
  {
  }

  lemma WriteFile(c: Config, s: State, i: Link, n: nat)
    requires LinkOk(Work(s, i), s.link.At(i), false) && Work(s, i) != []
    requires n <= s.link.At(i).last - s.link.At(i).cur + 1
    ensures var t := Write(c, s, i, n);
            var at := s.link.At(i).cur;
            && (forall k {:trigger k in t.file} :: k in t.file <==> k in s.file || InSpan(at, n, k))
            && (forall k | k in t.file :: if InSpan(at, n, k) then 0 <= k < c.Size() ==> t.file[k] == Some(c.server[k])
                                          else t.file[k] == s.file[k])
  {
    var l := s.link.At(i);
    forall j | 0 <= j < n
      ensures 0 <= l.cur + j < c.Size() ==> BodyByte(c, l.net, j) == Some(c.server[l.cur + j])
    {
      BodyIsFile(c, l.net, n, j);
    }
    var t := Write(c, s, i, n);
    forall k | k in t.file && InSpan(l.cur, n, k)
      ensures 0 <= k < c.Size() ==> t.file[k] == Some(c.server[k])
    {
      assert t.file[k] == BodyByte(c, l.net, k - l.cur);
    }
  }

  lemma WriteBooks(c: Config, s: State, i: Link, n: nat)
    requires InvFrom(c, s, i, false) && Work(s, i) != []
    requires n <= s.link.At(i).last - s.link.At(i).cur + 1
    ensures BooksOf(c, Write(c, s, i, n), i)
    ensures forall k | InSpan(s.link.At(i).cur, n, k) :: Missing(c, s.file, k) == 1
  {
    var t := Write(c, s, i, n);
    var l := s.link.At(i);
    var ds := Work(s, i);
    forall k
      ensures Cover(Left(s, i), k) == Cover(Left(t, i), k) + (if InSpan(l.cur, n, k) then 1 else 0)
    {
      UnreadFacts(ds, l, k);
      UnreadFacts(ds, t.link.At(i), k);
    }
    UnreadFacts(ds, l, 0);
    UnreadFacts(ds, t.link.At(i), 0);
    WriteFile(c, s, i, n);
    BooksRead(c, s.file, s.done, s.lastOff, Left(s, i), Left(s, Other(i)), t.file, Left(t, i), l.cur, n);
  }

  /** The bytes that arrive belong at the cursor, were missing before, and are written once. */
  lemma WriteKeeps(c: Config, s: State, i: Link, n: nat)
    requires InvFrom(c, s, i, false) && Work(s, i) != []
    requires n <= s.link.At(i).last - s.link.At(i).cur + 1
    ensures var t := Write(c, s, i, n);
            && InvFrom(c, t, i, true) && t.segs == s.segs && t.lastOff == s.lastOff
            && (forall k {:trigger k in t.file} :: k in t.file <==> k in s.file || InSpan(s.link.At(i).cur, n, k))
            && (forall k | InSpan(s.link.At(i).cur, n, k) :: Missing(c, s.file, k) == 1)
  {
    WriteFile(c, s, i, n);
    WriteBooks(c, s, i, n);
    LinkRead(Work(s, i), s.link.At(i), n);
  }

  /** The in-order search touches nothing but the idle marks and the in-order offset. */
  lemma UpdateKeeps(c: Config, s: State, i: Link, slack: bool)
    requires Core(c, s, i, slack)
    ensures Core(c, UpdateInorder(c, s), i, slack)
    ensures !slack ==> InvFrom(c, UpdateInorder(c, s), i, false)
  {
    var t := UpdateInorder(c, s);
    assert Work(t, i) == Work(s, i) && Work(t, Other(i)) == Work(s, Other(i));
    assert Left(t, i) == Left(s, i) && Left(t, Other(i)) == Left(s, Other(i));
  }
}
