/** The two links, the two-element arrays indexed by them, and a fact about sequences. */
module Pairs {

  datatype Option<+T> = None | Some(value: T)

  /** Link 0 is LTE, link 1 is WiFi (src/config.h:12-13). */
  type Link = i: int | 0 <= i < 2

  const INDEX_LTE: Link := 0

  function Other(i: Link): Link { 1 - i }

  datatype Pair<T> = Pair(lte: T, wifi: T) {
    function At(i: Link): T { if i == 0 then lte else wifi }

    function With(i: Link, v: T): Pair<T> {
      if i == 0 then Pair(v, wifi) else Pair(lte, v)
    }
  }

  lemma Reassociate<T>(a: seq<T>, b: seq<T>, c: seq<T>)
    ensures a + (b + c) == (a + b) + c
  {
  }
}
