/**
 * In-order safety in every mode, variable segments with recovery included. A turn caches the offset
 * of its last search: the one at its end or, if it ends inside a recovered subsegment, the one that
 * the size policy makes right after the read (src/gb.c:594). Each has its exact condition.
 */
module AnyMode {
  import opened Pairs
  import opened Chunks
  import opened Scheduler
  import opened DutyLemmas
  import opened Invariant
  import opened Finishing
  import opened Setup
  import opened Turns
  import opened Inorder
  import opened PlainRuns
  import opened Searches
  import opened Safety
  import Runs

  /** What a search finds right after link `i` has read its chunk to the end. */
  ghost function FoundAfterChunk(c: Config, s: State, i: Link): int {
    if Work(s, Other(i)) != [] then s.link.At(Other(i)).cur else c.Size() - 1
  }

  /** Such a search passes the next chunk of link `i`, or something pending of the other link. */
  ghost predicate Jumps(c: Config, s: State, i: Link) {
    || (Work(s, i) != [] && |Work(s, i)[0].chunks| > 1
        && Work(s, i)[0].chunks[1].start < FoundAfterChunk(c, s, i))
    || (Work(s, Other(i)) != [] && !NothingPendingBelow(s, Other(i)))
  }

  /** The last search of the turn passes something missing. */
  ghost predicate Strays(c: Config, s: State, inp: Input) {
    || Overshoots(c, s, inp)
    || (EndSearch(c, s, inp).None? && MidSearch(c, s, inp).Some? && Jumps(c, s, inp.i))
  }

  // ---------------------------------------------------------------- the search in the middle

  /** Where it happens: after the read, with the other link's work possibly taken off the list. */
  lemma MidState(c: Config, s: State, inp: Input, v: State)
    requires MidSearch(c, s, inp) == Some(v)
    ensures var i, b := inp.i, Write(c, s, inp.i, inp.n);
            && (v == b || (DecideRecovery(c, b, i, inp) && v == Detach(b, Other(i))))
            && SetsUp(s, i, inp.n)
            && v.link.At(i).cur == s.link.At(i).cur + inp.n && v.link.At(i).last == s.link.At(i).last
            && v.link.At(Other(i)).cur == s.link.At(Other(i)).cur
            && v.link.At(Other(i)).last == s.link.At(Other(i)).last
  {
  }

  lemma IdleIffNoWork(c: Config, s: State, j: Link)
    requires Inv(c, s)
    ensures IsIdle(s.link.At(j)) <==> Work(s, j) == []
  {
    InvBoth(c, s, j);
  }

  lemma AfterChunk(c: Config, v: State, i: Link)
    requires IsIdle(v.link.At(i))
    ensures FoundInorder(c, v) == if IsIdle(v.link.At(Other(i))) then c.Size() - 1 else v.link.At(Other(i)).cur
  {
  }

  /** After a whole chunk it finds the other link's cursor, or the last offset. */
  lemma MidAfterChunk(c: Config, s: State, inp: Input, v: State)
    requires Inv(c, s) && MidSearch(c, s, inp) == Some(v) && inp.n == Remaining(s.link.At(inp.i))
    ensures FoundInorder(c, v) == FoundAfterChunk(c, s, inp.i)
  {
    MidState(c, s, inp, v);
    IdleIffNoWork(c, s, Other(inp.i));
    AfterChunk(c, v, inp.i);
  }

  /** The link that sets up a segment has no second subsegment. */
  lemma OneDutyLeft(c: Config, s: State, inp: Input)
    requires Inv(c, s) && InputOk(c, s, inp) && SetsUp(s, inp.i, inp.n)
    ensures |Work(s, inp.i)| == 1 && DutyOk(Work(s, inp.i)[0], s.lastOff)
    ensures LinkOk(Work(s, inp.i), s.link.At(inp.i), false)
  {
    InvBoth(c, s, inp.i);
    assert Work(s, inp.i)[0] in Work(s, inp.i);
  }

  // ---------------------------------------------------------------- its check

  lemma NoDutyAt(gs: seq<Seg>, j: Link, cursor: Option<nat>, b: int)
    requires Duties(gs, j) == []
    ensures ConnByte(gs, j, cursor, b) == b
  {
    SearchFirst(gs, j);
    ScanSkips(gs, j, cursor, b, |gs|);
    assert gs[|gs|..] == [];
  }

  /** With the other link's work off the list each link's scan ends at its cursor. */
  lemma DetachedScans(c: Config, b: State, i: Link)
    requires Window(b.segs, b.count, b.completed) && Work(b, Other(i)) != [] && |Work(b, i)| == 1
    requires LinkOk(Work(b, Other(i)), b.link.At(Other(i)), false) && LinkOk(Work(b, i), b.link.At(i), false)
    ensures var o := Other(i);
            var v := Detach(b, o);
            && ConnByte(v.segs, i, v.link.At(i).cursor, v.link.At(i).cur) == b.link.At(i).cur
            && ConnByte(v.segs, o, v.link.At(o).cursor, v.link.At(o).cur) == b.link.At(o).cur
  {
    var v := Detach(b, Other(i));
    DetachClears(c, b, i);
    ScanOfLink(v, i);
    assert Work(v, i)[1..] == [];
    NoDutyAt(v.segs, Other(i), v.link.At(Other(i)).cursor, v.link.At(Other(i)).cur);
  }

  lemma FoundTwo(c: Config, v: State, i: Link)
    requires !IsIdle(v.link.At(i)) && !IsIdle(v.link.At(Other(i)))
    ensures FoundInorder(c, v) == Min(ConnByte(v.segs, i, v.link.At(i).cursor, v.link.At(i).cur),
                                      ConnByte(v.segs, Other(i), v.link.At(Other(i)).cursor, v.link.At(Other(i)).cur))
  {
  }

  lemma DetachedFound(c: Config, b: State, i: Link)
    requires Core(c, b, i, false) && Work(b, Other(i)) != [] && |Work(b, i)| == 1
    ensures FoundInorder(c, Detach(b, Other(i))) == Min(b.link.At(i).cur, b.link.At(Other(i)).cur)
  {
    DetachedScans(c, b, i);
    FoundTwo(c, Detach(b, Other(i)), i);
  }

  /** The state after a read inside a chunk satisfies the invariant. */
  lemma ReadKeeps(c: Config, s: State, inp: Input)
    requires Inv(c, s) && InputOk(c, s, inp) && inp.n < Remaining(s.link.At(inp.i))
    ensures var b := Write(c, s, inp.i, inp.n);
            Inv(c, b) && Work(b, inp.i) == Work(s, inp.i) && forall k | k in s.file :: k in b.file
  {
    InvBoth(c, s, inp.i);
    WriteKeeps(c, s, inp.i, inp.n);
    InvBoth(c, Write(c, s, inp.i, inp.n), inp.i);
  }

  /** From a safe state the check of the search in the middle of the turn holds, in every mode. */
  lemma MidCheckHolds(c: Config, s: State, inp: Input, v: State)
    requires ConfigOk(c) && Inv(c, s) && InputOk(c, s, inp) && Safe(c, s) && MidSearch(c, s, inp) == Some(v)
    ensures s.inorder <= FoundInorder(c, v)
  {
    var i, b := inp.i, Write(c, s, inp.i, inp.n);
    if inp.n == Remaining(s.link.At(i)) {
      MidAfterChunk(c, s, inp, v);
      if Work(s, Other(i)) != [] { CursorMissing(c, s, Other(i)); }
    } else {
      MidState(c, s, inp, v);
      ReadKeeps(c, s, inp);
      if v == b {
        FoundAbove(c, b, s.inorder);
      } else {
        DetachedAbove(c, s, inp, b);
      }
    }
  }

  lemma DetachedAbove(c: Config, s: State, inp: Input, b: State)
    requires ConfigOk(c) && Inv(c, s) && InputOk(c, s, inp) && SetsUp(s, inp.i, inp.n) && Safe(c, s)
    requires b == Write(c, s, inp.i, inp.n) && Inv(c, b) && Work(b, inp.i) == Work(s, inp.i)
    requires DecideRecovery(c, b, inp.i, inp) && forall k | k in s.file :: k in b.file
    ensures s.inorder <= FoundInorder(c, Detach(b, Other(inp.i)))
  {
    var i := inp.i;
    InvBoth(c, b, i);
    OneDutyLeft(c, s, inp);
    DetachedFound(c, b, i);
    CursorMissing(c, b, i);
    CursorMissing(c, b, Other(i));
  }

  // ---------------------------------------------------------------- what it passes

  /** A turn without a search at its end reads a chunk to its end, and not the last of its subsegment. */
  lemma UnsearchedEnds(c: Config, s: State, inp: Input)
    requires ConfigOk(c) && Inv(c, s) && InputOk(c, s, inp) && EndSearch(c, s, inp).None?
    ensures inp.n == Remaining(s.link.At(inp.i)) && Work(s, inp.i) != [] && |Work(s, inp.i)[0].chunks| > 1
  {
    MiddleHead(c, s, inp);
  }

  /** What a link with one subsegment has to read behind its current chunk. */
  lemma NextChunk(ds: seq<Duty>, l: Conn, hi: int)
    requires |ds| == 1 && DutyOk(ds[0], hi) && |ds[0].chunks| > 1 && LinkOk(ds, l, false)
    ensures var a := ds[0].chunks[1].start;
            && l.last < a && Cover(Unread(ds, l), a) > 0
            && (forall k | Cover(Unread(ds, l), k) > 0 :: l.cur <= k <= l.last || a <= k)
            && (forall k | l.cur <= k <= l.last :: Cover(Unread(ds, l), k) > 0)
  {
    var cs := ds[0].chunks;
    var rest := cs[1..];
    FlatHead(ds);
    assert ds[1..] == [] && Rest(Flat(ds)) == rest;
    assert cs[1] in cs && cs[1].start <= cs[1].last && rest[0] == cs[1];
    CoverPositive(rest, cs[1].start);
    forall k ensures Cover(Unread(ds, l), k) == (if l.cur <= k <= l.last then 1 else 0) + Cover(rest, k) {
      UnreadFacts(ds, l, k);
    }
    forall k | Cover(rest, k) > 0 ensures cs[1].start <= k {
      CoverPositive(rest, k);
      var x :| 0 <= x < |rest| && rest[x].Holds(k);
      assert rest[x] == cs[x + 1];
      if x > 0 { assert cs[1].last < cs[x + 1].start; }
    }
  }

  /** The smallest offset that the other link has to read. */
  lemma OtherSmallest(c: Config, s: State, o: Link) returns (m: int)
    requires Inv(c, s) && Work(s, o) != []
    ensures Cover(Left(s, o), m) > 0 && m <= s.link.At(o).cur
    ensures forall k | Cover(Left(s, o), k) > 0 :: m <= k
    ensures m == s.link.At(o).cur <==> NothingPendingBelow(s, o)
  {
    InvBoth(c, s, o);
    LinkScan(c, s, o);
    ScanOfLink(s, o);
    PendingBelow(s, o);
    m := MinStart(Work(s, o)[1..], s.link.At(o).cur);
    MinStartAt(Work(s, o)[1..], s.link.At(o).cur);
  }

  /** No offset is with both links, and what a link has to read is missing. */
  lemma HeldIsMissing(c: Config, s: State, j: Link, k: int)
    requires Inv(c, s) && Cover(Left(s, j), k) > 0
    ensures 0 <= k <= s.lastOff < c.Size() && k !in s.file && Cover(Left(s, Other(j)), k) == 0
  {
    InvBoth(c, s, j);
    BooksAt(c, s.file, s.done, s.lastOff, Left(s, j), Left(s, Other(j)), [], k);
  }

  /** After link `i` has read its chunk to the end, everything below what the search then finds is
      written if and only if the search does not jump. */
  lemma JumpsIff(c: Config, s: State, i: Link, f: map<int, Option<Byte>>)
    requires ConfigOk(c) && Inv(c, s) && |Work(s, i)| == 1 && |Work(s, i)[0].chunks| > 1
    requires DutyOk(Work(s, i)[0], s.lastOff) && LinkOk(Work(s, i), s.link.At(i), false)
    requires forall k {:trigger k in f} ::
               k in f <==> k in s.file || InSpan(s.link.At(i).cur, Remaining(s.link.At(i)), k)
    ensures (forall k | 0 <= k < FoundAfterChunk(c, s, i) :: k in f) <==> !Jumps(c, s, i)
  {
    var o, l, a, x := Other(i), s.link.At(i), Work(s, i)[0].chunks[1].start, FoundAfterChunk(c, s, i);
    NextChunk(Work(s, i), l, s.lastOff);
    HeldIsMissing(c, s, i, a);
    assert a !in f;
    if Work(s, o) != [] {
      var m := OtherSmallest(c, s, o);
      HeldIsMissing(c, s, o, m);
      assert m !in f;
    }
    if !Jumps(c, s, i) {
      forall k | 0 <= k < x ensures k in f { BelowFound(c, s, i, f, k); }
    }
  }

  lemma BelowFound(c: Config, s: State, i: Link, f: map<int, Option<Byte>>, k: int)
    requires ConfigOk(c) && Inv(c, s) && |Work(s, i)| == 1 && |Work(s, i)[0].chunks| > 1
    requires DutyOk(Work(s, i)[0], s.lastOff) && LinkOk(Work(s, i), s.link.At(i), false)
    requires k in s.file || InSpan(s.link.At(i).cur, Remaining(s.link.At(i)), k) ==> k in f
    requires !Jumps(c, s, i) && 0 <= k < FoundAfterChunk(c, s, i)
    ensures k in f
  {
    NextChunk(Work(s, i), s.link.At(i), s.lastOff);
    HeldIsMissing(c, s, i, Work(s, i)[0].chunks[1].start);
    CursorsInside(c, s, i);
    if Work(s, Other(i)) != [] { var m := OtherSmallest(c, s, Other(i)); }
    MissingIff(c, s, k);
  }

  lemma CursorsInside(c: Config, s: State, i: Link)
    requires ConfigOk(c) && Inv(c, s)
    ensures 0 <= FoundAfterChunk(c, s, i) < c.Size()
    ensures Work(s, Other(i)) == [] ==> Left(s, Other(i)) == []
  {
    if Work(s, Other(i)) != [] { CursorMissing(c, s, Other(i)); }
  }

  // ---------------------------------------------------------------- one turn

  /** A turn whose last search is the one in its middle. */
  lemma MidTurnSafe(c: Config, s: State, inp: Input)
    requires ConfigOk(c) && Inv(c, s) && InputOk(c, s, inp)
    requires EndSearch(c, s, inp).None? && MidSearch(c, s, inp).Some?
    ensures TurnOf(c, s, inp).inorder == FoundAfterChunk(c, s, inp.i)
    ensures Safe(c, TurnOf(c, s, inp)) <==> !Jumps(c, s, inp.i)
  {
    MidSearchCaches(c, s, inp);
    EndSearchCaches(c, s, inp);
    UnsearchedEnds(c, s, inp);
    MidAfterChunk(c, s, inp, MidSearch(c, s, inp).value);
    OneDutyLeft(c, s, inp);
    TurnKeeps(c, s, inp);
    CursorsInside(c, s, inp.i);
    JumpsIff(c, s, inp.i, TurnOf(c, s, inp).file);
  }

  /** A turn that ends with a search. */
  lemma EndTurnSafe(c: Config, s: State, inp: Input)
    requires ConfigOk(c) && Inv(c, s) && InputOk(c, s, inp) && EndSearch(c, s, inp).Some?
    ensures TurnOf(c, s, inp).inorder == FoundInorder(c, EndSearch(c, s, inp).value)
    ensures Safe(c, TurnOf(c, s, inp)) <==> !Overshoots(c, s, inp)
  {
    EndSearchCaches(c, s, inp);
    SameSearch(c, EndSearch(c, s, inp).value);
    TurnFile(c, s, inp);
    FoundAbove(c, TurnOf(c, s, inp), 0);
    FoundSafeIff(c, TurnOf(c, s, inp));
  }

  /** From a safe state the search at the end of a turn never finds less than was cached before it. */
  lemma EndAboveStart(c: Config, s: State, inp: Input)
    requires ConfigOk(c) && Inv(c, s) && InputOk(c, s, inp) && Safe(c, s) && EndSearch(c, s, inp).Some?
    ensures s.inorder <= FoundInorder(c, EndSearch(c, s, inp).value)
  {
    EndSearchCaches(c, s, inp);
    SameSearch(c, EndSearch(c, s, inp).value);
    TurnFile(c, s, inp);
    FoundAbove(c, TurnOf(c, s, inp), s.inorder);
  }

  lemma EndCheckIs(c: Config, s: State, inp: Input)
    requires ConfigOk(c) && Inv(c, s) && InputOk(c, s, inp) && EndSearch(c, s, inp).Some?
    ensures var v, u := MidSearch(c, s, inp), EndSearch(c, s, inp).value;
            u.inorder == if v.Some? then FoundInorder(c, v.value) else s.inorder
  {
    MidSearchCaches(c, s, inp);
    EndSearchCaches(c, s, inp);
  }

  lemma MidCheckIs(c: Config, s: State, inp: Input)
    requires ConfigOk(c) && Inv(c, s) && InputOk(c, s, inp) && Safe(c, s) && MidSearch(c, s, inp).Some?
    ensures CheckHolds(c, MidSearch(c, s, inp).value)
  {
    MidSearchCaches(c, s, inp);
    MidCheckHolds(c, s, inp, MidSearch(c, s, inp).value);
  }

  /** Of the checks of a turn from a safe state only one can fail, in every mode: the search at its
      end finds less than the one in its middle. */
  lemma AnyChecks(c: Config, s: State, inp: Input)
    requires ConfigOk(c) && Inv(c, s) && InputOk(c, s, inp) && Safe(c, s)
    ensures var v, u := MidSearch(c, s, inp), EndSearch(c, s, inp);
            ChecksHold(c, s, Turn(inp)) <==>
            !(v.Some? && u.Some? && FoundInorder(c, u.value) < FoundInorder(c, v.value))
  {
    if MidSearch(c, s, inp).Some? { MidCheckIs(c, s, inp); }
    if EndSearch(c, s, inp).Some? {
      EndCheckIs(c, s, inp);
      EndAboveStart(c, s, inp);
    }
  }

  /** In every mode a turn from a safe state ends in a safe state if and only if it does not stray. */
  lemma AnyTurn(c: Config, s: State, inp: Input)
    requires ConfigOk(c) && Inv(c, s) && InputOk(c, s, inp) && Safe(c, s)
    ensures Safe(c, TurnOf(c, s, inp)) <==> !Strays(c, s, inp)
  {
    if EndSearch(c, s, inp).Some? {
      EndTurnSafe(c, s, inp);
    } else if MidSearch(c, s, inp).Some? {
      MidTurnSafe(c, s, inp);
    } else {
      Unsearched(c, s, inp);
    }
  }

  lemma Unsearched(c: Config, s: State, inp: Input)
    requires ConfigOk(c) && Inv(c, s) && InputOk(c, s, inp) && Safe(c, s)
    requires EndSearch(c, s, inp).None? && MidSearch(c, s, inp).None?
    ensures Safe(c, TurnOf(c, s, inp))
  {
    MidSearchCaches(c, s, inp);
    EndSearchCaches(c, s, inp);
    TurnFile(c, s, inp);
  }

  // ---------------------------------------------------------------- runs

  ghost predicate NeverStrays(c: Config, s: State, es: seq<Event>)
    decreases |es|
  {
    es != [] ==> (es[0].Turn? ==> !Strays(c, s, es[0].input)) && NeverStrays(c, Next(c, s, es[0]), es[1..])
  }

  /** What is published is written, and the end is published only when it is reached. */
  ghost predicate PublishedOk(c: Config, s: State) {
    && PublishedSafe(s) && 0 <= s.seen <= c.Size()
    && (s.ready ==> s.done == c.Size() && s.seen == c.Size())
  }

  lemma AnyEvent(c: Config, s: State, e: Event)
    requires ConfigOk(c) && Inv(c, s) && EventOk(c, s, e) && Safe(c, s) && PublishedOk(c, s)
    ensures Inv(c, Next(c, s, e)) && PublishedOk(c, Next(c, s, e))
    ensures Safe(c, Next(c, s, e)) <==> !(e.Turn? && Strays(c, s, e.input))
  {
    NextKeeps(c, s, e);
    match e
    case Turn(inp) =>
      TurnKeeps(c, s, inp);
      AnyTurn(c, s, inp);
    case EndPass => PassPublishes(c, s);
  }

  lemma PassPublishes(c: Config, s: State)
    requires ConfigOk(c) && Inv(c, s) && Safe(c, s)
    ensures PublishedOk(c, EndPassOf(c, s)) || s.ready
    ensures Safe(c, EndPassOf(c, s))
  {
    Runs.DoneIffAllWritten(c, s);
  }

  lemma {:induction false} AnyRun(c: Config, s: State, es: seq<Event>)
    requires ConfigOk(c) && Inv(c, s) && Run(c, s, es) && Safe(c, s) && PublishedOk(c, s)
    ensures AlwaysSafe(c, s, es) <==> NeverStrays(c, s, es)
    ensures NeverStrays(c, s, es) ==> PublishedOk(c, After(c, s, es))
    decreases |es|
  {
    if es != [] {
      var t := Next(c, s, es[0]);
      AnyEvent(c, s, es[0]);
      if Safe(c, t) {
        AnyRun(c, t, es[1..]);
      } else {
        assert !AlwaysSafe(c, t, es[1..]);
      }
    }
  }

  /** In every mode: the cached offset is safe throughout a run if and only if no turn strays, and
      then all published bytes are written. */
  lemma AnyRunSafeIff(c: Config, es: seq<Event>)
    requires ConfigOk(c) && Run(c, Start(c), es)
    ensures AlwaysSafe(c, Start(c), es) <==> NeverStrays(c, Start(c), es)
    ensures NeverStrays(c, Start(c), es) ==> PublishedSafe(After(c, Start(c), es))
  {
    StartPublished(c);
    AnyRun(c, Start(c), es);
  }

  lemma StartPublished(c: Config)
    requires ConfigOk(c)
    ensures Inv(c, Start(c)) && Safe(c, Start(c)) && PublishedOk(c, Start(c))
  {
    StartSafe(c);
    StartShape(c);
  }

  // ---------------------------------------------------------------- steady runs

  /** A turn that does not stray, or a publication whose assertion (src/offset.c:428) holds. */
  ghost predicate SteadyEvent(c: Config, s: State, e: Event) {
    match e
    case Turn(inp) => !Strays(c, s, inp)
    case EndPass => ChecksHold(c, s, EndPass)
  }

  ghost predicate Steady(c: Config, s: State, es: seq<Event>)
    decreases |es|
  {
    es != [] ==> SteadyEvent(c, s, es[0]) && Steady(c, Next(c, s, es[0]), es[1..])
  }

  lemma FixedStrays(c: Config, s: State, inp: Input)
    requires ConfigOk(c) && c.fixedSegment && Inv(c, s) && InputOk(c, s, inp)
    ensures Strays(c, s, inp) <==> Overshoots(c, s, inp)
  {
    FixedSearch(c, s, inp);
  }

  lemma {:induction false} FixedSteadyFrom(c: Config, s: State, es: seq<Event>)
    requires ConfigOk(c) && c.fixedSegment && Inv(c, s) && Run(c, s, es) && Safe(c, s) && InStep(c, s)
    ensures Steady(c, s, es) <==> NeverOvershoots(c, s, es)
    decreases |es|
  {
    if es != [] {
      SafeEvent(c, s, es[0]);
      if es[0].Turn? { FixedStrays(c, s, es[0].input); }
      if Safe(c, Next(c, s, es[0])) { FixedSteadyFrom(c, Next(c, s, es[0]), es[1..]); }
    }
  }

  /** With fixed segments a run is steady if and only if it never overshoots. */
  lemma FixedSteady(c: Config, es: seq<Event>)
    requires ConfigOk(c) && c.fixedSegment && Run(c, Start(c), es)
    ensures Steady(c, Start(c), es) <==> NeverOvershoots(c, Start(c), es)
  {
    StartSafe(c);
    FixedSteadyFrom(c, Start(c), es);
  }

  lemma PlainNeverStrays(c: Config, s: State, inp: Input)
    requires ConfigOk(c) && !c.recovery && Inv(c, s) && InputOk(c, s, inp) && Plain(s)
    ensures !Strays(c, s, inp)
  {
    var t := TurnOf(c, s, inp);
    PlainEnds(c, s, inp);
    EndSearchCaches(c, s, inp);
    SameSearch(c, EndSearch(c, s, inp).value);
    PlainTurn(c, s, inp);
    TurnKeeps(c, s, inp);
    if Work(t, 0) != [] { PlainNothingBelow(c, t, 0); }
    if Work(t, 1) != [] { PlainNothingBelow(c, t, 1); }
  }

  lemma {:induction false} PlainSteadyFrom(c: Config, s: State, es: seq<Event>)
    requires ConfigOk(c) && !c.recovery && Inv(c, s) && InorderOk(c, s) && Run(c, s, es)
    ensures Steady(c, s, es)
    decreases |es|
  {
    if es != [] {
      if es[0].Turn? { PlainNeverStrays(c, s, es[0].input); }
      InorderStep(c, s, es[0]);
      PlainSteadyFrom(c, Next(c, s, es[0]), es[1..]);
    }
  }

  /** With recovery off every run is steady. */
  lemma PlainSteady(c: Config, es: seq<Event>)
    requires ConfigOk(c) && !c.recovery && Run(c, Start(c), es)
    ensures Steady(c, Start(c), es)
  {
    StartOk(c);
    StartInorder(c);
    PlainSteadyFrom(c, Start(c), es);
  }
}
