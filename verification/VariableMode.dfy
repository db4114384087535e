/**
 * The in-order search in the middle of a turn: in variable segment mode the size policy runs it
 * right after a read (src/gb.c:594), when the finishing link can look idle.
 */
module VariableMode {
  import opened Pairs
  import opened Chunks
  import opened Scheduler
  import opened DutyLemmas
  import opened Invariant
  import opened Finishing
  import opened Setup
  import opened Turns
  import opened Inorder
  import opened PlainRuns
  import Runs

  /** The read that ends the last chunk of a link while the other link is idle. */
  predicate EndsAlone(s: State, i: Link, n: nat) {
    IsIdle(s.link.At(Other(i))) && n == s.link.At(i).last - s.link.At(i).cur + 1
  }

  lemma OnlyDuty(c: Config, s: State, i: Link, n: nat)
    requires Part(c, s, i, false) && s.link.At(i).enabled && SetsUp(s, i, n) && PlainWork(Work(s, i))
    ensures |Work(s, i)| == 1 && |Work(s, i)[0].chunks| == 1 && Rest(Flat(Work(s, i))) == []
  {
    var ds := Work(s, i);
    assert ds[0] in ds && DutyOk(ds[0], s.lastOff);
    FlatHead(ds);
    assert ds[1..] == [];
  }

  /** The link has read all it had to. */
  ghost predicate ReadOut(b: State, i: Link) {
    Left(b, i) == [Chunk(b.link.At(i).cur, b.link.At(i).last)] && b.link.At(i).cur == b.link.At(i).last + 1
  }

  /** What is missing when the finishing link has just read its last byte. */
  lemma MissingAtEnd(c: Config, b: State, i: Link, k: int)
    requires BooksOf(c, b, i) && ReadOut(b, i)
    ensures 0 <= k < c.Size() && k !in b.file <==> Cover(Left(b, Other(i)), k) > 0 || b.lastOff < k < c.Size()
  {
    BooksAt(c, b.file, b.done, b.lastOff, Left(b, i), Left(b, Other(i)), [], k);
    CoverOne(Chunk(b.link.At(i).cur, b.link.At(i).last), k);
  }

  /** The other link's cursor is then the first missing offset, if that link is active. */
  lemma EndWithOther(c: Config, b: State, i: Link)
    requires InvFrom(c, b, i, true) && Work(b, i) != [] && Work(b, Other(i)) != [] && PlainWork(Work(b, Other(i)))
    requires ReadOut(b, i)
    ensures IsFirstMissing(c, b, b.link.At(Other(i)).cur)
  {
    var o := Other(i);
    var ds, l := Work(b, o), b.link.At(o);
    PlainCursor(ds, l, b.lastOff);
    ScanIsSmallest(ds, l, b.lastOff);
    assert ds[0] in ds && DutyOk(ds[0], b.lastOff);
    assert Head(ds[0].chunks) in ds[0].chunks;
    MissingAtEnd(c, b, i, l.cur);
    forall k | 0 <= k < l.cur ensures k in b.file { MissingAtEnd(c, b, i, k); }
  }

  /** A plain link's cursor is below everything else it has to read. */
  lemma PlainCursor(ds: seq<Duty>, l: Conn, hi: int)
    requires PlainWork(ds) && DutiesOk(ds, hi) && ds != [] && LinkOk(ds, l, false)
    ensures MinStart(ds[1..], l.cur) == l.cur
  {
    assert ds[0] in ds && DutyOk(ds[0], hi);
    forall d | d in ds[1..] ensures l.cur <= Head(d.chunks).start {
      assert d in ds && DutyOk(d, hi);
      FirstIsLowest(ds, d);
    }
    MinStartAt(ds[1..], l.cur);
  }

  lemma FirstIsLowest(ds: seq<Duty>, d: Duty)
    requires PlainWork(ds) && ds != [] && ds[0].chunks != [] && d in ds[1..] && d.chunks != []
    ensures ds[0].chunks[0].last < Head(d.chunks).start
  {
    var f, g := Flat(ds), Flat(ds[1..]);
    HeadInFlat(ds[1..], d);
    var x :| 0 <= x < |g| && g[x] == Head(d.chunks);
    assert f == ds[0].chunks + g;
    assert f[|ds[0].chunks| + x] == g[x] && f[0] == ds[0].chunks[0];
  }

  lemma ReadLinks(c: Config, s: State, i: Link, n: nat)
    requires Part(c, s, i, false) && Part(c, s, Other(i), false) && s.link.At(i).enabled
    requires |Work(s, i)| == 1 && Rest(Flat(Work(s, i))) == []
    ensures var b := Write(c, s, i, n);
            && b.link.At(i).cur == s.link.At(i).cur + n && b.link.At(i).last == s.link.At(i).last
            && b.link.At(Other(i)) == s.link.At(Other(i)) && Left(b, i) == [Chunk(b.link.At(i).cur, b.link.At(i).last)]
            && Work(b, i) == Work(s, i) && Work(b, Other(i)) == Work(s, Other(i))
            && (Work(b, Other(i)) == [] <==> IsIdle(s.link.At(Other(i))))
  {
  }

  /** The state after the read, before anything else. */
  lemma AfterRead(c: Config, s: State, inp: Input)
    requires ConfigOk(c) && Inv(c, s) && Plain(s) && InputOk(c, s, inp) && SetsUp(s, inp.i, inp.n)
    ensures var i, b := inp.i, Write(c, s, inp.i, inp.n);
            && InvFrom(c, b, i, true) && Work(b, i) != [] && Plain(b) && b.lastOff == s.lastOff
            && b.link.At(i).cur == s.link.At(i).cur + inp.n && b.link.At(i).last == s.link.At(i).last
            && b.link.At(Other(i)) == s.link.At(Other(i)) && Left(b, i) == [Chunk(b.link.At(i).cur, b.link.At(i).last)]
            && (Work(b, Other(i)) == [] <==> IsIdle(s.link.At(Other(i))))
  {
    var i := inp.i;
    InvBoth(c, s, i);
    WriteKeeps(c, s, i, inp.n);
    OnlyDuty(c, s, i, inp.n);
    ReadLinks(c, s, i, inp.n);
    assert i == 0 || Other(i) == 0;
  }

  /** `x` is the first offset missing from the file, or the last one of a complete file. */
  ghost predicate FirstHole(c: Config, file: map<int, Option<Byte>>, x: int) {
    0 <= x < c.Size() && (forall k | 0 <= k < x :: k in file) && (x in file ==> x == c.Size() - 1)
  }

  lemma FoundIsHole(c: Config, s: State)
    requires ConfigOk(c) && Inv(c, s) && Plain(s)
    ensures FirstHole(c, s.file, FoundInorder(c, s))
    ensures !(IsIdle(s.link.lte) && IsIdle(s.link.wifi)) ==> FoundInorder(c, s) !in s.file
  {
    PlainInorder(c, s);
    BothIdleIffDone(c, s);
    Runs.DoneIffAllWritten(c, s);
  }

  /** The value found in the middle of a turn. */
  lemma MidTurnFound(c: Config, s: State, inp: Input)
    requires ConfigOk(c) && Inv(c, s) && Plain(s) && InputOk(c, s, inp) && SetsUp(s, inp.i, inp.n)
    ensures var b := Write(c, s, inp.i, inp.n);
            if EndsAlone(s, inp.i, inp.n) then FoundInorder(c, b) == c.Size() - 1
            else FirstHole(c, b.file, FoundInorder(c, b)) && FoundInorder(c, b) !in b.file
  {
    var i, b := inp.i, Write(c, s, inp.i, inp.n);
    AfterRead(c, s, inp);
    if inp.n < s.link.At(i).last - s.link.At(i).cur + 1 {
      FoundActive(c, b, i);
    } else if !EndsAlone(s, i, inp.n) {
      assert ReadOut(b, i);
      EndWithOther(c, b, i);
      OtherFound(c, b, i);
    } else {
      BothFound(c, b, i);
    }
  }

  lemma FoundActive(c: Config, b: State, i: Link)
    requires ConfigOk(c) && InvFrom(c, b, i, true) && Plain(b) && Work(b, i) != []
    requires b.link.At(i).cur <= b.link.At(i).last
    ensures FirstHole(c, b.file, FoundInorder(c, b)) && FoundInorder(c, b) !in b.file
  {
    InvBoth(c, b, i);
    FoundIsHole(c, b);
  }

  lemma BothFound(c: Config, b: State, i: Link)
    requires IsIdle(b.link.At(i)) && IsIdle(b.link.At(Other(i)))
    ensures FoundInorder(c, b) == c.Size() - 1
  {
  }

  lemma OtherFound(c: Config, b: State, i: Link)
    requires IsIdle(b.link.At(i)) && !IsIdle(b.link.At(Other(i)))
    ensures FoundInorder(c, b) == b.link.At(Other(i)).cur
  {
  }

  /** The value found at the end of the turn. */
  lemma EndFound(c: Config, s: State, inp: Input)
    requires ConfigOk(c) && !c.recovery && Inv(c, s) && Plain(s) && InputOk(c, s, inp)
    ensures FirstHole(c, Write(c, s, inp.i, inp.n).file, TurnOf(c, s, inp).inorder)
  {
    var t := TurnOf(c, s, inp);
    TurnKeeps(c, s, inp);
    PlainTurn(c, s, inp);
    FoundIsHole(c, t);
    SameFile(c, s, inp);
  }

  lemma SameFile(c: Config, s: State, inp: Input)
    requires ConfigOk(c) && Inv(c, s) && InputOk(c, s, inp)
    ensures forall k :: k in TurnOf(c, s, inp).file <==> k in Write(c, s, inp.i, inp.n).file
  {
    TurnKeeps(c, s, inp);
    InvBoth(c, s, inp.i);
    WriteKeeps(c, s, inp.i, inp.n);
  }

  lemma AloneMissing(c: Config, b: State, i: Link)
    requires InvFrom(c, b, i, true) && Work(b, Other(i)) == []
    requires ReadOut(b, i)
    ensures forall k | 0 <= k < c.Size() :: k !in b.file <==> b.lastOff < k
  {
    assert Left(b, Other(i)) == [];
    forall k | 0 <= k < c.Size() ensures k !in b.file <==> b.lastOff < k { MissingAtEnd(c, b, i, k); }
  }

  lemma AloneFile(c: Config, s: State, inp: Input)
    requires ConfigOk(c) && Inv(c, s) && Plain(s) && InputOk(c, s, inp) && SetsUp(s, inp.i, inp.n)
    requires EndsAlone(s, inp.i, inp.n)
    ensures forall k | 0 <= k < c.Size() :: k !in Write(c, s, inp.i, inp.n).file <==> s.lastOff < k
  {
    AfterRead(c, s, inp);
    AloneMissing(c, Write(c, s, inp.i, inp.n), inp.i);
  }

  lemma Compare(c: Config, file: map<int, Option<Byte>>, lastOff: int, found: int, end: int, alone: bool)
    requires FirstHole(c, file, end) && 0 <= lastOff
    requires if alone then found == c.Size() - 1 && forall k | 0 <= k < c.Size() :: k !in file <==> lastOff < k
             else FirstHole(c, file, found) && found !in file
    ensures found <= end <==> !(alone && lastOff < c.Size() - 2)
  {
    if alone && lastOff < c.Size() - 2 { assert lastOff + 1 !in file; }
  }

  /** What a search right after the read finds is at most what the search at the end of the turn
      finds, if and only if the read did not end the last work of both links while at least two
      bytes of the file are unassigned. */
  lemma MidTurnNotAboveIff(c: Config, s: State, inp: Input)
    requires ConfigOk(c) && !c.recovery && Inv(c, s) && Plain(s) && InputOk(c, s, inp) && SetsUp(s, inp.i, inp.n)
    ensures FoundInorder(c, Write(c, s, inp.i, inp.n)) <= TurnOf(c, s, inp).inorder
            <==> !(EndsAlone(s, inp.i, inp.n) && s.lastOff < c.Size() - 2)
  {
    var i, b := inp.i, Write(c, s, inp.i, inp.n);
    var alone := EndsAlone(s, i, inp.n);
    MidTurnFound(c, s, inp);
    EndFound(c, s, inp);
    if alone { AloneFile(c, s, inp); }
    assert 0 <= s.lastOff;
    Compare(c, b.file, s.lastOff, FoundInorder(c, b), TurnOf(c, s, inp).inorder, alone);
  }
}
