/**
 * In-order safety with fixed segments, recovery on or off: exactly when all bytes below the cached
 * in-order offset are written, and that the checks of src/gb.c:804-808 hold as long as they are.
 */
module Safety {
  import opened Pairs
  import opened Scheduler
  import opened DutyLemmas
  import opened Invariant
  import opened Turns
  import opened Inorder
  import opened Searches
  import Runs

  /** All bytes below the cached offset are written. */
  ghost predicate Safe(c: Config, s: State) {
    0 <= s.inorder < c.Size() && forall k | 0 <= k < s.inorder :: k in s.file
  }

  /** All bytes below the published offset are written. */
  ghost predicate PublishedSafe(s: State) { forall k | 0 <= k < s.seen :: k in s.file }

  /** Link `i` works alone and has something pending below its cursor. */
  ghost predicate LoneBelow(u: State, i: Link) {
    Work(u, i) != [] && Work(u, Other(i)) == [] && !NothingPendingBelow(u, i)
  }

  /** The turn ends with a search in such a state. */
  ghost predicate Overshoots(c: Config, s: State, inp: Input) {
    var e := EndSearch(c, s, inp);
    e.Some? && (LoneBelow(e.value, 0) || LoneBelow(e.value, 1))
  }

  // ---------------------------------------------------------------- one search

  /** What the search finds depends on the links that have work. */
  lemma FoundCases(c: Config, t: State)
    requires ConfigOk(c) && Inv(c, t)
    ensures if Work(t, 0) != [] && Work(t, 1) != [] then IsFirstMissing(c, t, FoundInorder(c, t))
            else if Work(t, 0) == [] && Work(t, 1) == [] then FoundInorder(c, t) == c.Size() - 1
            else var i: Link := if Work(t, 0) != [] then 0 else 1;
                 FoundInorder(c, t) == t.link.At(i).cur
                 && (IsFirstMissing(c, t, FoundInorder(c, t)) <==> NothingPendingBelow(t, i))
  {
    if Work(t, 0) != [] && Work(t, 1) != [] {
      BothActiveExact(c, t);
    } else if Work(t, 0) == [] && Work(t, 1) == [] {
      NoneFound(c, t);
    } else {
      OneActiveExactIff(c, t, if Work(t, 0) != [] then 0 else 1);
    }
  }

  lemma NoneFound(c: Config, t: State)
    requires ConfigOk(c) && Inv(c, t) && Work(t, 0) == [] && Work(t, 1) == []
    ensures FoundInorder(c, t) == c.Size() - 1
  {
    InvBoth(c, t, 1);
  }

  /** A link's cursor is a missing offset. */
  lemma CursorMissing(c: Config, t: State, i: Link)
    requires ConfigOk(c) && Inv(c, t) && Work(t, i) != []
    ensures 0 <= t.link.At(i).cur < c.Size() && t.link.At(i).cur !in t.file
  {
    Runs.NothingLeft(c, t, i);
    MissingIff(c, t, t.link.At(i).cur);
    CursorInside(c, t, i);
  }

  lemma CursorInside(c: Config, t: State, i: Link)
    requires Inv(c, t) && Work(t, i) != []
    ensures 0 <= t.link.At(i).cur < c.Size()
  {
    InvBoth(c, t, i);
    var d := Work(t, i)[0];
    assert d in Work(t, i) && DutyOk(d, t.lastOff);
    assert d.chunks[0] in d.chunks;
  }

  /** A search never finds less than an offset below which everything is written. */
  lemma FoundAbove(c: Config, t: State, x: int)
    requires ConfigOk(c) && Inv(c, t) && 0 <= x < c.Size() && forall k | 0 <= k < x :: k in t.file
    ensures x <= FoundInorder(c, t) < c.Size()
  {
    FoundCases(c, t);
    if Work(t, 0) != [] { CursorMissing(c, t, 0); }
    if Work(t, 1) != [] { CursorMissing(c, t, 1); }
  }

  /** Below what a search finds everything is written, unless a lone link has something pending
      below its cursor. */
  lemma FoundSafeIff(c: Config, t: State)
    requires ConfigOk(c) && Inv(c, t)
    ensures (forall k | 0 <= k < FoundInorder(c, t) :: k in t.file) <==> !(LoneBelow(t, 0) || LoneBelow(t, 1))
  {
    FoundCases(c, t);
    if Work(t, 0) != [] { CursorMissing(c, t, 0); }
    if Work(t, 1) != [] { CursorMissing(c, t, 1); }
    if Work(t, 0) == [] && Work(t, 1) == [] { Runs.DoneIffAllWritten(c, t); }
  }

  // ---------------------------------------------------------------- one turn

  lemma SameSearch(c: Config, u: State)
    ensures var t := UpdateInorder(c, u);
            && FoundInorder(c, t) == FoundInorder(c, u) == t.inorder
            && (LoneBelow(t, 0) <==> LoneBelow(u, 0)) && (LoneBelow(t, 1) <==> LoneBelow(u, 1))
  {
    var t := UpdateInorder(c, u);
    assert Work(t, 0) == Work(u, 0) && Work(t, 1) == Work(u, 1);
  }

  /** In fixed mode only the search at the end of a turn changes the cached offset. */
  lemma FixedSearch(c: Config, s: State, inp: Input)
    requires ConfigOk(c) && c.fixedSegment && Inv(c, s) && InputOk(c, s, inp)
    ensures var t := TurnOf(c, s, inp);
            match EndSearch(c, s, inp)
            case Some(u) => t == UpdateInorder(c, u) && u.inorder == s.inorder
            case None => t.inorder == s.inorder
    ensures MidSearch(c, s, inp) == None
  {
    MidSearchCaches(c, s, inp);
    EndSearchCaches(c, s, inp);
  }

  lemma TurnFile(c: Config, s: State, inp: Input)
    requires ConfigOk(c) && Inv(c, s) && InputOk(c, s, inp)
    ensures Inv(c, TurnOf(c, s, inp)) && forall k | k in s.file :: k in TurnOf(c, s, inp).file
  {
    TurnKeeps(c, s, inp);
  }

  /** From a safe state the checks of a turn hold, and the turn ends in a safe state if and only if
      it does not search while a lone link has something pending below its cursor. */
  lemma SafeTurn(c: Config, s: State, inp: Input)
    requires ConfigOk(c) && c.fixedSegment && Inv(c, s) && InputOk(c, s, inp) && Safe(c, s)
    ensures ChecksHold(c, s, Turn(inp)) && s.inorder <= TurnOf(c, s, inp).inorder
    ensures Safe(c, TurnOf(c, s, inp)) <==> !Overshoots(c, s, inp)
  {
    var t := TurnOf(c, s, inp);
    FixedSearch(c, s, inp);
    TurnFile(c, s, inp);
    if EndSearch(c, s, inp).Some? {
      SameSearch(c, EndSearch(c, s, inp).value);
      FoundAbove(c, t, s.inorder);
      FoundSafeIff(c, t);
    }
  }

  // ---------------------------------------------------------------- runs

  ghost predicate NeverOvershoots(c: Config, s: State, es: seq<Event>)
    decreases |es|
  {
    es != [] ==> (es[0].Turn? ==> !Overshoots(c, s, es[0].input)) && NeverOvershoots(c, Next(c, s, es[0]), es[1..])
  }

  /** The cached offset is safe in every state of the run. */
  ghost predicate AlwaysSafe(c: Config, s: State, es: seq<Event>)
    decreases |es|
  {
    Safe(c, s) && (es != [] ==> AlwaysSafe(c, Next(c, s, es[0]), es[1..]))
  }

  ghost predicate AllChecksHold(c: Config, s: State, es: seq<Event>)
    decreases |es|
  {
    es != [] ==> ChecksHold(c, s, es[0]) && AllChecksHold(c, Next(c, s, es[0]), es[1..])
  }

  /** The published offset is not above the cached one before the end. */
  ghost predicate InStep(c: Config, s: State) {
    s.seen <= c.Size() && if s.ready then s.done == c.Size() else s.seen <= s.inorder
  }

  lemma SafeEvent(c: Config, s: State, e: Event)
    requires ConfigOk(c) && c.fixedSegment && Inv(c, s) && EventOk(c, s, e) && Safe(c, s) && InStep(c, s)
    ensures Inv(c, Next(c, s, e)) && InStep(c, Next(c, s, e)) && ChecksHold(c, s, e)
    ensures Safe(c, Next(c, s, e)) <==> !(e.Turn? && Overshoots(c, s, e.input))
  {
    NextKeeps(c, s, e);
    match e
    case Turn(inp) =>
      TurnKeeps(c, s, inp);
      SafeTurn(c, s, inp);
    case EndPass =>
  }

  lemma {:induction false} SafeRun(c: Config, s: State, es: seq<Event>)
    requires ConfigOk(c) && c.fixedSegment && Inv(c, s) && Run(c, s, es) && Safe(c, s) && InStep(c, s)
    ensures AlwaysSafe(c, s, es) <==> NeverOvershoots(c, s, es)
    ensures NeverOvershoots(c, s, es) ==> AllChecksHold(c, s, es) && Inv(c, After(c, s, es))
                                          && Safe(c, After(c, s, es)) && InStep(c, After(c, s, es))
    decreases |es|
  {
    if es != [] {
      var t := Next(c, s, es[0]);
      SafeEvent(c, s, es[0]);
      if Safe(c, t) {
        SafeRun(c, t, es[1..]);
      } else {
        assert !AlwaysSafe(c, t, es[1..]);
      }
    }
  }

  /** With fixed segments, whatever is recovered: the cached offset is safe throughout a run if and
      only if no search meets a lone link with something pending below its cursor. In such a run
      every check holds, and all published bytes are written. */
  lemma RunSafeIff(c: Config, es: seq<Event>)
    requires ConfigOk(c) && c.fixedSegment && Run(c, Start(c), es)
    ensures AlwaysSafe(c, Start(c), es) <==> NeverOvershoots(c, Start(c), es)
    ensures NeverOvershoots(c, Start(c), es) ==> AllChecksHold(c, Start(c), es) && PublishedSafe(After(c, Start(c), es))
  {
    StartSafe(c);
    SafeRun(c, Start(c), es);
    if NeverOvershoots(c, Start(c), es) { SafePublished(c, After(c, Start(c), es)); }
  }

  lemma StartSafe(c: Config)
    requires ConfigOk(c)
    ensures Inv(c, Start(c)) && Safe(c, Start(c)) && InStep(c, Start(c))
  {
    StartOk(c);
    StartShape(c);
  }

  lemma SafePublished(c: Config, s: State)
    requires ConfigOk(c) && Inv(c, s) && Safe(c, s) && InStep(c, s)
    ensures PublishedSafe(s)
  {
    Runs.DoneIffAllWritten(c, s);
  }

  lemma {:induction false} SafeAtEnd(c: Config, s: State, es: seq<Event>)
    requires AlwaysSafe(c, s, es)
    ensures Safe(c, After(c, s, es))
    decreases |es|
  {
    if es != [] { SafeAtEnd(c, Next(c, s, es[0]), es[1..]); }
  }
}
