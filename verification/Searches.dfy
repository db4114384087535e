/**
 * The searches of a turn and the check behind each of them (src/gb.c:804-808): the offset found
 * must not be below the cached one. Fixed segment mode never fails it with recovery off; variable
 * mode, the built-in default (src/conf.c:114), fails it under an exact condition.
 */
module Searches {
  import opened Pairs
  import opened Chunks
  import opened Scheduler
  import opened DutyLemmas
  import opened Invariant
  import opened Finishing
  import opened Turns
  import opened Inorder
  import opened PlainRuns
  import opened VariableMode

  /** The state in which setting up the next segment searches, if it does. */
  function SizingSearch(c: Config, b: State, i: Link, inp: Input): Option<State> {
    if c.fixedSegment || b.link.At(i).lastSegment || (OrderCase(b, i) == Behind && b.single) then None
    else if Recovers(c, b, i, inp) then Some(Detach(b, Other(i)))
    else if OrderCase(b, i) == Ahead && c.minEnergy && LastOf(Tail(b).chunks).last == c.Size() - 1 then None
    else Some(b)
  }

  /** The state in which the size policy searches in the middle of a turn (src/gb.c:594), if it does. */
  function MidSearch(c: Config, s: State, inp: Input): Option<State> {
    if SetsUp(s, inp.i, inp.n) then SizingSearch(c, Write(c, s, inp.i, inp.n), inp.i, inp) else None
  }

  /** The state of the search at the end of a turn; a chunk that is not the last one of its
      subsegment ends without a search (src/algo_general.c:76-87). */
  ghost function EndSearch(c: Config, s: State, inp: Input): Option<State> {
    var i, m := inp.i, Middle(c, s, inp);
    if inp.n < Remaining(s.link.At(i)) then Some(m)
    else if Work(m, i) != [] && |Work(m, i)[0].chunks| > 1 then None
    else Some(Closed(c, m, i))
  }

  /** The check of one search. */
  predicate CheckHolds(c: Config, u: State) { u.inorder <= FoundInorder(c, u) }

  /** The checks of an event: every search of a turn, or the assertion of
      `update_last_downloaded_byte` (src/offset.c:428). */
  ghost predicate ChecksHold(c: Config, s: State, e: Event) {
    match e
    case Turn(inp) =>
      && (MidSearch(c, s, inp).Some? ==> CheckHolds(c, MidSearch(c, s, inp).value))
      && (EndSearch(c, s, inp).Some? ==> CheckHolds(c, EndSearch(c, s, inp).value))
    case EndPass => !EndPassOf(c, s).ready ==> s.seen <= s.inorder
  }

  // ---------------------------------------------------------------- these are the searches made

  lemma MadeKeepsOffset(c: Config, b: State, i: Link, inp: Input, n: int)
    ensures MakeSegment(c, b, i, inp, n).inorder == b.inorder
  {
  }

  lemma RequestKeepsOffset(c: Config, s: State, i: Link)
    ensures CheckLastSegment(c, RequestBoth(c, s, i)).inorder == s.inorder
  {
  }

  lemma OrdinaryKeepsOffset(c: Config, b: State, i: Link, inp: Input)
    ensures NewSegment(c, b, i, inp).1.inorder == BeforeSizing(c, b).inorder
  {
    var u := BeforeSizing(c, b);
    MadeKeepsOffset(c, u, i, inp, NextSize(c, u, inp));
  }

  lemma RecoveryKeepsOffset(c: Config, s: State, i: Link, inp: Input)
    ensures Subdivide(c, Recover(c, s, i, inp), i, inp, 0).inorder == BeforeSizing(c, Detach(s, Other(i))).inorder
  {
  }

  lemma DetachKeepsOffset(s: State, o: Link)
    ensures Detach(s, o).inorder == s.inorder
  {
  }

  /** The cached offset in the middle of a turn is what the search there found, if there was one. */
  lemma MidSearchCaches(c: Config, s: State, inp: Input)
    ensures Middle(c, s, inp).inorder ==
            if MidSearch(c, s, inp).Some? then FoundInorder(c, MidSearch(c, s, inp).value) else s.inorder
    ensures MidSearch(c, s, inp).Some? ==> MidSearch(c, s, inp).value.inorder == s.inorder && SetsUp(s, inp.i, inp.n)
    ensures MidSearch(c, s, inp).Some? && !c.recovery ==> MidSearch(c, s, inp).value == Write(c, s, inp.i, inp.n)
  {
    var i, b := inp.i, Write(c, s, inp.i, inp.n);
    WriteKeepsOffset(c, s, inp);
    DetachKeepsOffset(b, Other(i));
    if SetsUp(s, i, inp.n) {
      SetupCaches(c, b, i, inp);
      RequestKeepsOffset(c, SetupNext(c, b, i, inp).1, i);
    }
  }

  lemma SetupCaches(c: Config, b: State, i: Link, inp: Input)
    ensures SetupNext(c, b, i, inp).1.inorder ==
            if SizingSearch(c, b, i, inp).Some? then FoundInorder(c, SizingSearch(c, b, i, inp).value) else b.inorder
  {
    OrdinaryKeepsOffset(c, b, i, inp);
    RecoveryKeepsOffset(c, b, i, inp);
    DetachKeepsOffset(b, Other(i));
  }

  lemma WriteKeepsOffset(c: Config, s: State, inp: Input)
    ensures Write(c, s, inp.i, inp.n).inorder == s.inorder
  {
  }

  /** The search at the end of a turn, or its absence, is what the turn ends with. */
  lemma EndSearchCaches(c: Config, s: State, inp: Input)
    requires ConfigOk(c) && Inv(c, s) && InputOk(c, s, inp)
    ensures match EndSearch(c, s, inp)
            case Some(u) => TurnOf(c, s, inp) == UpdateInorder(c, u) && u.inorder == Middle(c, s, inp).inorder
            case None => TurnOf(c, s, inp).inorder == Middle(c, s, inp).inorder
  {
    var i, m := inp.i, Middle(c, s, inp);
    TurnEnds(c, s, inp, m);
    if inp.n == Remaining(s.link.At(i)) {
      MiddleTracked(c, s, inp);
      FinishCaches(c, m, i);
    }
  }

  lemma MiddleTracked(c: Config, s: State, inp: Input)
    requires ConfigOk(c) && Inv(c, s) && InputOk(c, s, inp)
    ensures var m := Middle(c, s, inp);
            Tracked(m, inp.i) && Part(c, m, inp.i, true) && Work(m, inp.i) != []
  {
    InvBoth(c, s, inp.i);
    MiddleOk(c, s, inp);
  }

  lemma FinishCaches(c: Config, m: State, i: Link)
    requires Tracked(m, i) && Part(c, m, i, true) && Work(m, i) != []
    ensures if |Work(m, i)[0].chunks| > 1 then FinishChunk(c, m, i).inorder == m.inorder
            else FinishChunk(c, m, i) == UpdateInorder(c, Closed(c, m, i)) && Closed(c, m, i).inorder == m.inorder
  {
    assert Work(m, i)[0] in Work(m, i);
    FinishOffset(c, m, i, Work(m, i)[0].chunks);
  }

  lemma FinishOffset(c: Config, m: State, i: Link, chunks: seq<Chunk>)
    requires Tracked(m, i) && Work(m, i) != [] && chunks == Work(m, i)[0].chunks != []
    ensures if |chunks| > 1 then FinishChunk(c, m, i).inorder == m.inorder
            else FinishChunk(c, m, i) == UpdateInorder(c, Closed(c, m, i)) && Closed(c, m, i).inorder == m.inorder
  {
    if |chunks| > 1 {
      MoreChunksShape(c, m, i);
    } else {
      LastChunkShape(c, m, i);
      ClosedShape(c, m, i);
    }
  }

  lemma UpdateFinds(c: Config, u: State)
    ensures UpdateInorder(c, u).inorder == FoundInorder(c, u)
  {
  }

  /** Without recovery every turn ends with a search. */
  lemma PlainEnds(c: Config, s: State, inp: Input)
    requires ConfigOk(c) && !c.recovery && Inv(c, s) && InputOk(c, s, inp) && Plain(s)
    ensures EndSearch(c, s, inp).Some?
  {
    var m := Middle(c, s, inp);
    MiddleTracked(c, s, inp);
    InvBoth(c, s, inp.i);
    MiddlePlain(c, s, inp);
    OneChunk(Work(m, inp.i), m.lastOff);
    LastChunkSearches(c, s, inp, m);
  }

  lemma LastChunkSearches(c: Config, s: State, inp: Input, m: State)
    requires m == Middle(c, s, inp) && Work(m, inp.i) != [] && |Work(m, inp.i)[0].chunks| == 1
    ensures EndSearch(c, s, inp).Some?
  {
  }

  lemma OneChunk(ds: seq<Duty>, hi: int)
    requires DutiesOk(ds, hi) && ds != [] && PlainWork(ds)
    ensures |ds[0].chunks| == 1
  {
    assert ds[0] in ds && DutyOk(ds[0], hi);
  }

  // ---------------------------------------------------------------- when the checks hold

  lemma HolesGrow(c: Config, f: map<int, Option<Byte>>, g: map<int, Option<Byte>>, x: int, y: int)
    requires FirstHole(c, f, x) && FirstHole(c, g, y) && forall k | k in f :: k in g
    ensures x <= y
  {
  }

  /** The cached offset at the start of a turn is at most what a search right after the read finds. */
  lemma CachedBeforeRead(c: Config, s: State, inp: Input)
    requires ConfigOk(c) && Inv(c, s) && InorderOk(c, s) && InputOk(c, s, inp) && SetsUp(s, inp.i, inp.n)
    ensures s.inorder <= FoundInorder(c, Write(c, s, inp.i, inp.n))
  {
    MidTurnFound(c, s, inp);
    FoundIsHole(c, s);
    var b := Write(c, s, inp.i, inp.n);
    assert forall k | k in s.file :: k in b.file;
    if !EndsAlone(s, inp.i, inp.n) { HolesGrow(c, s.file, b.file, FoundInorder(c, s), FoundInorder(c, b)); }
  }

  /** The checks of a turn, in terms of the cached offset before, in the middle and at the end. */
  lemma ChecksAre(c: Config, s: State, inp: Input)
    requires ConfigOk(c) && !c.recovery && Inv(c, s) && InputOk(c, s, inp) && Plain(s)
    ensures ChecksHold(c, s, Turn(inp)) <==>
            && (MidSearch(c, s, inp).Some? ==> s.inorder <= FoundInorder(c, Write(c, s, inp.i, inp.n)))
            && Middle(c, s, inp).inorder <= TurnOf(c, s, inp).inorder
  {
    MidSearchCaches(c, s, inp);
    EndSearchCaches(c, s, inp);
    PlainEnds(c, s, inp);
    UpdateFinds(c, EndSearch(c, s, inp).value);
  }

  /** In any mode, recovery off: the checks of a turn hold if and only if the turn does not search
      right after the read that ends the last work of both links, while at least two bytes of the
      file are unassigned. */
  lemma TurnChecksIff(c: Config, s: State, inp: Input)
    requires ConfigOk(c) && !c.recovery && Inv(c, s) && InorderOk(c, s) && InputOk(c, s, inp) && !s.ready
    ensures ChecksHold(c, s, Turn(inp)) <==>
            !(MidSearch(c, s, inp).Some? && EndsAlone(s, inp.i, inp.n) && s.lastOff < c.Size() - 2)
  {
    ChecksAre(c, s, inp);
    MidSearchCaches(c, s, inp);
    if MidSearch(c, s, inp).Some? {
      CachedBeforeRead(c, s, inp);
      MidTurnNotAboveIff(c, s, inp);
    } else {
      TurnGrows(c, s, inp);
    }
  }

  lemma TurnGrows(c: Config, s: State, inp: Input)
    requires ConfigOk(c) && !c.recovery && Inv(c, s) && InorderOk(c, s) && InputOk(c, s, inp) && !s.ready
    ensures s.inorder <= TurnOf(c, s, inp).inorder
  {
    InorderStep(c, s, Turn(inp));
  }

  /** The same for every reachable state. */
  lemma ChecksIff(c: Config, es: seq<Event>, inp: Input)
    requires ConfigOk(c) && !c.recovery && Run(c, Start(c), es) && EventOk(c, After(c, Start(c), es), Turn(inp))
    ensures var s := After(c, Start(c), es);
            ChecksHold(c, s, Turn(inp)) <==>
            !(MidSearch(c, s, inp).Some? && EndsAlone(s, inp.i, inp.n) && s.lastOff < c.Size() - 2)
  {
    ReachableInorder(c, es);
    TurnChecksIff(c, After(c, Start(c), es), inp);
  }

  lemma ReachableInorder(c: Config, es: seq<Event>)
    requires ConfigOk(c) && !c.recovery && Run(c, Start(c), es)
    ensures Inv(c, After(c, Start(c), es)) && InorderOk(c, After(c, Start(c), es))
  {
    StartOk(c);
    StartInorder(c);
    InorderRun(c, Start(c), es);
  }

  /** In fixed segment mode with recovery off no check ever fails, in any run. */
  lemma FixedChecksHold(c: Config, es: seq<Event>, e: Event)
    requires ConfigOk(c) && !c.recovery && c.fixedSegment
    requires Run(c, Start(c), es) && EventOk(c, After(c, Start(c), es), e)
    ensures ChecksHold(c, After(c, Start(c), es), e)
  {
    ReachableInorder(c, es);
    match e
    case Turn(inp) => ChecksIff(c, es, inp);
    case EndPass =>
  }
}
