/** The loops of `add_new_subsegment` that hand the chunks of a segment out (src/offset.c:140-169). */
module Splitting {
  import opened Pairs
  import opened Chunks

  lemma TotalSum(cs: seq<Chunk>, a: seq<Chunk>, b: seq<Chunk>)
    requires cs == a + b
    ensures Total(cs) == Total(a) + Total(b)
  {
    TotalAppend(a, b);
  }

  lemma TotalOne(cs: seq<Chunk>, c: Chunk)
    requires cs == [c]
    ensures Total(cs) == c.Size()
  {
    CoverOne(c, 0);
  }

  lemma TotalPrefix(cs: seq<Chunk>, k: nat)
    requires k < |cs|
    ensures Total(cs[..k + 1]) == Total(cs[..k]) + cs[k].Size()
  {
    TotalOne([cs[k]], cs[k]);
    TotalSum(cs[..k + 1], cs[..k], [cs[k]]);
  }

  lemma StepTake(cs: seq<Chunk>, k: nat, f: int)
    requires k < |cs| && cs[k].Size() <= f && 0 < f
    ensures TakeBytes(cs[k..], f) == [cs[k]] + TakeBytes(cs[k + 1..], f - cs[k].Size())
    ensures DropBytes(cs[k..], f) == DropBytes(cs[k + 1..], f - cs[k].Size())
  {
    assert cs[k..][1..] == cs[k + 1..];
  }

  lemma CutTake(cs: seq<Chunk>, k: nat, f: int)
    requires k < |cs| && 0 < f < cs[k].Size()
    ensures TakeBytes(cs[k..], f) == [Chunk(cs[k].start, cs[k].start + f - 1)]
    ensures DropBytes(cs[k..], f) == [Chunk(cs[k].start + f, cs[k].last)] + cs[k + 1..]
  {
    assert cs[k..][1..] == cs[k + 1..];
  }

  /** A part that is handed chunks has a share. */
  lemma PartsHaveShares(cs: seq<Chunk>, f: int)
    requires Positive(cs) && 0 <= f <= Total(cs)
    ensures TakeBytes(cs, f) != [] ==> f > 0
    ensures DropBytes(cs, f) != [] ==> Total(cs) - f > 0
  {
    SplitTotals(cs, f);
    BytesLength(DropBytes(cs, f));
  }

  lemma MoveOne(a: seq<Chunk>, cs: seq<Chunk>, k: nat)
    requires k < |cs|
    ensures a + cs[k..] == (a + [cs[k]]) + cs[k + 1..]
  {
  }

  /** The state after the first loop: the front is handed out, `cs[k..]` is still to go. */
  ghost predicate FrontDone(cs: seq<Chunk>, f: int, front: seq<Chunk>, back: seq<Chunk>, backLeft: int, k: nat) {
    && k <= |cs|
    && front == TakeBytes(cs, f)
    && back + cs[k..] == DropBytes(cs, f)
    && backLeft == Total(cs[k..])
  }

  /** The first loop: whole chunks to the fast link while they fit, then at most one is cut. */
  method HandOutFront(cs: seq<Chunk>, f: int, r: int)
    returns (front: seq<Chunk>, back: seq<Chunk>, backLeft: int, k: nat)
    requires Positive(cs) && 0 <= f && 0 <= r && f + r == Total(cs)
    ensures FrontDone(cs, f, front, back, backLeft, k)
  {
    front, back, backLeft, k := [], [], r, 0;
    var sum, left := 0, f;
    assert cs[0..] == cs;
    while k < |cs|
      invariant k <= |cs| && sum == Total(cs[..k]) && left == f - sum && left >= 0
      invariant back == [] && backLeft == r
      invariant TakeBytes(cs, f) == front + TakeBytes(cs[k..], left)
      invariant DropBytes(cs, f) == DropBytes(cs[k..], left)
    {
      var ch := cs[k];
      TotalPrefix(cs, k);
      TotalSum(cs, cs[..k + 1], cs[k + 1..]);
      if left == 0 { return; }
      sum := sum + ch.Size();
      if f < sum {
        CutTake(cs, k, left);
        front := front + [Chunk(ch.start, ch.start + left - 1)];
        if ch.Size() - left != 0 {
          back := [Chunk(ch.start + left, ch.start + left + (ch.Size() - left) - 1)];
          backLeft := backLeft - (ch.Size() - left);
        }
        k := k + 1;
        return;
      }
      assert ch in cs;
      StepTake(cs, k, left);
      Reassociate(front, [ch], TakeBytes(cs[k + 1..], left - ch.Size()));
      front := front + [ch];
      left := left - ch.Size();
      k := k + 1;
    }
    assert cs[..k] == cs && cs[k..] == [];
  }

  /** Both loops; the second one never meets an exhausted share. */
  method HandOutChunks(cs: seq<Chunk>, f: int, r: int) returns (front: seq<Chunk>, back: seq<Chunk>)
    requires Positive(cs) && 0 <= f && 0 <= r && f + r == Total(cs)
    ensures front == TakeBytes(cs, f) && back == DropBytes(cs, f)
  {
    var backLeft, k;
    front, back, backLeft, k := HandOutFront(cs, f, r);
    ghost var k0 := k;
    while k < |cs|
      invariant k0 <= k <= |cs| && backLeft == Total(cs[k0..])
      invariant back + cs[k..] == DropBytes(cs, f)
    {
      assert backLeft != 0 by { BytesLength(cs[k0..]); }
      MoveOne(back, cs, k);
      back := back + [cs[k]];
      k := k + 1;
    }
    assert cs[k..] == [];
  }

  /** Both loops: the fast link gets exactly the first `f` bytes, the slow link the rest, in
      order. A link that is given a chunk has a share, hence a subsegment: the error exit for a slow
      link without one (src/offset.c:146-150) is unreachable. */
  method HandOut(cs: seq<Chunk>, f: int, r: int) returns (front: seq<Chunk>, back: seq<Chunk>)
    requires Positive(cs) && 0 <= f && 0 <= r && f + r == Total(cs)
    ensures front == TakeBytes(cs, f) && back == DropBytes(cs, f)
    ensures (front != [] ==> f > 0) && (back != [] ==> r > 0)
  {
    front, back := HandOutChunks(cs, f, r);
    PartsHaveShares(cs, f);
  }

  /** The sum loop of `recover_outorder_portion_and_next_segment`. */
  method SumSizes(cs: seq<Chunk>) returns (n: int)
    ensures n == Total(cs)
  {
    n := 0;
    var k := 0;
    while k < |cs|
      invariant 0 <= k <= |cs| && n == Total(cs[..k])
    {
      TotalPrefix(cs, k);
      n := n + cs[k].Size();
      k := k + 1;
    }
    assert cs[..k] == cs;
  }
}
