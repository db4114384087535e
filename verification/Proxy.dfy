/**
 * The local proxy (`send_remote_file` in src/ahttpd.c): while the download runs, it streams the
 * growing output file to the player, never beyond the published in-order offset.
 */
module Proxy {
  import opened Pairs
  import opened Scheduler
  import opened Invariant
  import opened Turns
  import opened Safety
  import opened AnyMode
  import Runs

  const BUFFER := 128   // BUF_FILE_BUF_SIZE

  datatype Status = Going | Finished | Gone

  /** The loop's state: next position in the file, bytes the client has received, and its end. */
  datatype Stream = Stream(pos: int, out: seq<Byte>, status: Status)

  /** What one round of the loop sees: the published offset and the output file, the number of
      bytes `read` returns and the number `send` accepts (none if the client is gone). */
  datatype Round = Round(seen: int, file: map<int, Option<Byte>>, got: nat, accepted: nat)

  const OPENED := Stream(0, [], Going)

  /** The byte of the output file at `k`; holes read as zero. */
  function ByteAt(file: map<int, Option<Byte>>, k: int): Byte {
    if k in file && file[k].Some? then file[k].value else 0
  }

  function ReadFile(file: map<int, Option<Byte>>, pos: int, n: nat): (r: seq<Byte>)
    ensures |r| == n && forall j | 0 <= j < n :: r[j] == ByteAt(file, pos + j)
  {
    seq(n, j requires 0 <= j < n => ByteAt(file, pos + j))
  }

  function ReadSize(p: Stream, seen: int): int { if BUFFER <= seen - p.pos then BUFFER else seen - p.pos }

  function Accepted(r: Round): nat { if r.accepted < r.got then r.accepted else r.got }

  /** One round of the loop. */
  function Serve(p: Stream, size: int, r: Round): Stream {
    if p.status != Going || p.pos > r.seen then p
    else if r.got > 0 && Accepted(r) == 0 then p.(status := Gone)
    else
      var q := p.(out := p.out + ReadFile(r.file, p.pos, Accepted(r)));
      if p.pos == size then q.(status := Finished) else q.(pos := p.pos + r.got)
  }

  function ServeAll(p: Stream, size: int, rs: seq<Round>): Stream
    decreases |rs|
  {
    if rs == [] then p else ServeAll(Serve(p, size, rs[0]), size, rs[1..])
  }

  /** `read` returns at most what it was asked for. */
  ghost predicate Reads(p: Stream, r: Round) { p.status == Going && p.pos <= r.seen ==> r.got <= ReadSize(p, r.seen) }

  ghost predicate ReadsAll(p: Stream, size: int, rs: seq<Round>)
    decreases |rs|
  {
    rs != [] ==> Reads(p, rs[0]) && ReadsAll(Serve(p, size, rs[0]), size, rs[1..])
  }

  /** The streaming loop; `rs` is what its rounds see. */
  method SendRemoteFile(size: int, rs: seq<Round>) returns (p: Stream)
    ensures p == ServeAll(OPENED, size, rs)
  {
    var pos, out, status := 0, [], Going;
    var k := 0;
    while k < |rs| && status == Going
      invariant 0 <= k <= |rs| && ServeAll(Stream(pos, out, status), size, rs[k..]) == ServeAll(OPENED, size, rs)
      decreases |rs| - k, status == Going
    {
      var r := rs[k];
      assert rs[k..][1..] == rs[k + 1..];
      ghost var next := Serve(Stream(pos, out, status), size, r);
      if pos <= r.seen {
        if r.got > 0 {
          var sent := if r.accepted < r.got then r.accepted else r.got;
          if sent == 0 {
            status := Gone;
          } else {
            var chunk := ReadFile(r.file, pos, sent);
            out := out + chunk;
          }
        }
        if status == Going {
          if pos == size { status := Finished; } else { pos := pos + r.got; }
        }
      }
      assert next == Stream(pos, out, status);
      k := k + 1;
    }
    p := Stream(pos, out, status);
    Stopped(p, size, rs[k..]);
  }

  lemma {:induction false} Stopped(p: Stream, size: int, rs: seq<Round>)
    requires rs == [] || p.status != Going
    ensures ServeAll(p, size, rs) == p
    decreases |rs|
  {
    if rs != [] { Stopped(p, size, rs[1..]); }
  }

  // ---------------------------------------------------------------- what one round keeps

  /** Everything below the published offset is the server's file. */
  ghost predicate Published(c: Config, r: Round) {
    && 0 <= r.seen <= c.Size()
    && forall k | 0 <= k < r.seen :: k in r.file && 0 <= k < c.Size() && r.file[k] == Some(c.server[k])
  }

  /** The loop's position is inside the published part, and the client is not ahead of it. */
  ghost predicate InPlace(c: Config, p: Stream, seen: int) {
    && 0 <= p.pos <= c.Size() && p.pos <= seen && |p.out| <= p.pos
    && (p.status == Finished ==> p.pos == c.Size())
  }

  /** What the client has received is the file up to the loop's position. */
  ghost predicate Exact(c: Config, p: Stream)
    requires 0 <= p.pos <= c.Size()
  {
    p.out == c.server[..p.pos]
  }

  predicate Lagging(p: Stream) { |p.out| < p.pos }

  /** A send of the loop takes all the bytes read, or fails and thereby ends the loop. */
  predicate FullRound(p: Stream, r: Round) {
    p.status == Going && p.pos <= r.seen && r.accepted > 0 ==> r.accepted >= r.got
  }

  /** One round sends at most a buffer, and reads no further than what is published. */
  lemma RoundBounded(p: Stream, size: int, r: Round)
    requires Reads(p, r)
    ensures var q := Serve(p, size, r);
            && |q.out| <= |p.out| + 128 && (q.pos == p.pos || p.pos < q.pos <= r.seen)
            && (q.out != p.out ==> p.pos < r.seen)
  {
    assert p.out + [] == p.out;
  }

  lemma ServeInPlace(c: Config, p: Stream, r: Round, before: int)
    requires InPlace(c, p, before) && before <= r.seen <= c.Size() && Reads(p, r)
    ensures InPlace(c, Serve(p, c.Size(), r), r.seen)
    ensures Lagging(p) ==> Lagging(Serve(p, c.Size(), r))
  {
  }

  lemma ServeExact(c: Config, p: Stream, r: Round, before: int)
    requires InPlace(c, p, before) && before <= r.seen && Published(c, r) && Reads(p, r) && Exact(c, p)
    ensures InPlace(c, Serve(p, c.Size(), r), r.seen)
    ensures if FullRound(p, r) then Exact(c, Serve(p, c.Size(), r)) else Lagging(Serve(p, c.Size(), r))
  {
    ServeInPlace(c, p, r, before);
    if p.status == Going && FullRound(p, r) && !(r.got > 0 && Accepted(r) == 0) {
      var data := ReadFile(r.file, p.pos, r.got);
      assert data == c.server[p.pos..p.pos + r.got];
      assert c.server[..p.pos] + data == c.server[..p.pos + r.got];
    }
  }

  // ---------------------------------------------------------------- the proxy beside the download

  /** One step of the whole program: the download thread's, or one round of the proxy's loop. */
  datatype Joint = Download(e: Event) | Proxy(got: nat, accepted: nat)

  datatype System = System(s: State, p: Stream)

  function RoundOf(s: State, j: Joint): Round
    requires j.Proxy?
  {
    Round(s.seen, s.file, j.got, j.accepted)
  }

  function JointNext(c: Config, y: System, j: Joint): System {
    match j
    case Download(e) => y.(s := Next(c, y.s, e))
    case Proxy(got, accepted) => y.(p := Serve(y.p, c.Size(), RoundOf(y.s, j)))
  }

  function JointAfter(c: Config, y: System, js: seq<Joint>): System
    decreases |js|
  {
    if js == [] then y else JointAfter(c, JointNext(c, y, js[0]), js[1..])
  }

  ghost predicate JointOk(c: Config, y: System, j: Joint) {
    match j
    case Download(e) => EventOk(c, y.s, e)
    case Proxy(_, _) => Reads(y.p, RoundOf(y.s, j))
  }

  /** Any interleaving of the two threads. */
  ghost predicate JointRun(c: Config, y: System, js: seq<Joint>)
    decreases |js|
  {
    js != [] ==> JointOk(c, y, js[0]) && JointRun(c, JointNext(c, y, js[0]), js[1..])
  }

  /** No send of a joint run is partial. */
  ghost predicate FullSends(c: Config, y: System, js: seq<Joint>)
    decreases |js|
  {
    js != [] ==>
      && (js[0].Proxy? ==> FullRound(y.p, RoundOf(y.s, js[0])))
      && FullSends(c, JointNext(c, y, js[0]), js[1..])
  }

  function Opened(c: Config): System { System(Start(c), OPENED) }

  /** The download's events of a joint run. */
  function Events(js: seq<Joint>): seq<Event> {
    if js == [] then []
    else match js[0]
         case Download(e) => [e] + Events(js[1..])
         case Proxy(_, _) => Events(js[1..])
  }

  lemma {:induction false} EventsRun(c: Config, y: System, js: seq<Joint>)
    requires JointRun(c, y, js)
    ensures Run(c, y.s, Events(js)) && JointAfter(c, y, js).s == After(c, y.s, Events(js))
    decreases |js|
  {
    if js != [] {
      EventsRun(c, JointNext(c, y, js[0]), js[1..]);
      if js[0].Download? { RunStep(c, y.s, js[0].e, Events(js[1..]), Events(js)); }
    }
  }

  /** The download runs without recovery, or with fixed segments and never overshoots, or with
      variable segments, never strays and never lowers the published offset. */
  ghost predicate Tame(c: Config, js: seq<Joint>) {
    || !c.recovery
    || if c.fixedSegment then NeverOvershoots(c, Start(c), Events(js)) else Steady(c, Start(c), Events(js))
  }

  lemma TameSteady(c: Config, js: seq<Joint>)
    requires ConfigOk(c) && JointRun(c, Opened(c), js) && Tame(c, js)
    ensures Steady(c, Start(c), Events(js))
  {
    EventsRun(c, Opened(c), js);
    if !c.recovery {
      PlainSteady(c, Events(js));
    } else if c.fixedSegment {
      FixedSteady(c, Events(js));
    }
  }

  ghost predicate DownloadOk(c: Config, s: State) { Inv(c, s) && PublishedOk(c, s) && (!s.ready ==> Safe(c, s)) }

  lemma DownloadStep(c: Config, s: State, e: Event)
    requires ConfigOk(c) && DownloadOk(c, s) && EventOk(c, s, e) && SteadyEvent(c, s, e)
    ensures DownloadOk(c, Next(c, s, e)) && s.seen <= Next(c, s, e).seen
  {
    AnyEvent(c, s, e);
    if e.Turn? { TurnKeeps(c, s, e.input); }
  }

  lemma DownloadPublishes(c: Config, s: State, j: Joint)
    requires ConfigOk(c) && DownloadOk(c, s) && j.Proxy?
    ensures Published(c, RoundOf(s, j))
  {
    InvFile(c, s);
  }

  lemma InvFile(c: Config, s: State)
    requires Inv(c, s)
    ensures forall k | k in s.file :: 0 <= k < c.Size() && s.file[k] == Some(c.server[k])
  {
  }

  ghost predicate SystemOk(c: Config, y: System) { DownloadOk(c, y.s) && InPlace(c, y.p, y.s.seen) }

  lemma JointStep(c: Config, y: System, j: Joint)
    requires ConfigOk(c) && SystemOk(c, y) && JointOk(c, y, j) && (j.Download? ==> SteadyEvent(c, y.s, j.e))
    ensures var z := JointNext(c, y, j);
            && SystemOk(c, z) && (Lagging(y.p) ==> Lagging(z.p))
            && (Exact(c, y.p) ==> if j.Proxy? ==> FullRound(y.p, RoundOf(y.s, j)) then Exact(c, z.p) else Lagging(z.p))
  {
    match j
    case Download(e) => DownloadStep(c, y.s, e);
    case Proxy(_, _) =>
      DownloadPublishes(c, y.s, j);
      ServeInPlace(c, y.p, RoundOf(y.s, j), y.s.seen);
      if Exact(c, y.p) { ServeExact(c, y.p, RoundOf(y.s, j), y.s.seen); }
  }

  /** The first step of a steady joint run, and what follows it. */
  lemma SteadyStep(c: Config, y: System, js: seq<Joint>)
    requires js != [] && Steady(c, y.s, Events(js))
    ensures js[0].Download? ==> SteadyEvent(c, y.s, js[0].e)
    ensures Steady(c, JointNext(c, y, js[0]).s, Events(js[1..]))
  {
    if js[0].Download? { assert Events(js)[0] == js[0].e && Events(js)[1..] == Events(js[1..]); }
  }

  lemma {:induction false} StaysLagging(c: Config, y: System, js: seq<Joint>)
    requires ConfigOk(c) && SystemOk(c, y) && JointRun(c, y, js) && Steady(c, y.s, Events(js)) && Lagging(y.p)
    ensures SystemOk(c, JointAfter(c, y, js)) && Lagging(JointAfter(c, y, js).p)
    decreases |js|
  {
    if js != [] {
      SteadyStep(c, y, js);
      JointStep(c, y, js[0]);
      StaysLagging(c, JointNext(c, y, js[0]), js[1..]);
    }
  }

  lemma {:induction false} JointKeeps(c: Config, y: System, js: seq<Joint>)
    requires ConfigOk(c) && SystemOk(c, y) && JointRun(c, y, js) && Steady(c, y.s, Events(js)) && Exact(c, y.p)
    ensures SystemOk(c, JointAfter(c, y, js))
    ensures if FullSends(c, y, js) then Exact(c, JointAfter(c, y, js).p) else Lagging(JointAfter(c, y, js).p)
    decreases |js|
  {
    if js != [] {
      var z := JointNext(c, y, js[0]);
      SteadyStep(c, y, js);
      JointStep(c, y, js[0]);
      if Exact(c, z.p) && (js[0].Proxy? ==> FullRound(y.p, RoundOf(y.s, js[0]))) {
        JointKeeps(c, z, js[1..]);
      } else {
        StaysLagging(c, z, js[1..]);
      }
    }
  }

  lemma OpenedOk(c: Config)
    requires ConfigOk(c)
    ensures SystemOk(c, Opened(c)) && Exact(c, OPENED)
  {
    StartPublished(c);
    StartShape(c);
  }

  /** Under any interleaving with the download the loop reads only published bytes, and at all
      times the client has received exactly the file up to the loop's position if and only if no
      send was partial. A loop that ended normally has read the whole file. */
  lemma StreamRefinesFile(c: Config, js: seq<Joint>)
    requires ConfigOk(c) && JointRun(c, Opened(c), js) && Tame(c, js)
    ensures var z := JointAfter(c, Opened(c), js);
            && 0 <= z.p.pos <= z.s.seen <= c.Size()
            && (z.p.out == c.server[..z.p.pos] <==> FullSends(c, Opened(c), js))
            && (forall k | 0 <= k < z.p.pos :: k in z.s.file)
            && (z.p.status == Finished ==> z.p.pos == c.Size())
            && (z.p.status == Finished && FullSends(c, Opened(c), js) ==> z.p.out == c.server)
  {
    OpenedOk(c);
    TameSteady(c, js);
    JointKeeps(c, Opened(c), js);
    PositionIsPublished(c, JointAfter(c, Opened(c), js));
  }

  lemma PositionIsPublished(c: Config, z: System)
    requires ConfigOk(c) && SystemOk(c, z)
    ensures 0 <= z.p.pos <= z.s.seen <= c.Size() && forall k | 0 <= k < z.p.pos :: k in z.s.file
    ensures z.p.status == Finished ==> z.p.pos == c.Size() && c.server[..z.p.pos] == c.server
    ensures Lagging(z.p) ==> z.p.out != c.server[..z.p.pos]
  {
  }

  // ---------------------------------------------------------------- the end of the stream

  /** Every round that is not the last one reads something, and no send fails. */
  ghost predicate Reading(c: Config, y: System, js: seq<Joint>)
    decreases |js|
  {
    js != [] ==>
      && (js[0].Proxy? ==> (y.p.pos < c.Size() ==> js[0].got > 0) && (js[0].got > 0 ==> js[0].accepted > 0))
      && Reading(c, JointNext(c, y, js[0]), js[1..])
  }

  /** After the download is ready the loop ends normally, within one round per byte left. */
  lemma {:induction false} StreamEnds(c: Config, y: System, js: seq<Joint>)
    requires ConfigOk(c) && SystemOk(c, y) && y.s.ready && y.p.status != Gone
    requires JointRun(c, y, js) && Reading(c, y, js) && |js| > c.Size() - y.p.pos
    ensures JointAfter(c, y, js).p.status == Finished
    decreases |js|
  {
    var z := JointNext(c, y, js[0]);
    JointStep(c, y, js[0]);
    if z.p.status == Finished {
      StaysFinished(c, z, js[1..]);
    } else {
      StreamEnds(c, z, js[1..]);
    }
  }

  lemma {:induction false} StaysFinished(c: Config, y: System, js: seq<Joint>)
    requires y.p.status == Finished && JointRun(c, y, js)
    ensures JointAfter(c, y, js).p.status == Finished
    decreases |js|
  {
    if js != [] { StaysFinished(c, JointNext(c, y, js[0]), js[1..]); }
  }

  lemma {:induction false} JointAppend(c: Config, y: System, a: seq<Joint>, b: seq<Joint>)
    requires JointRun(c, y, a) && JointRun(c, JointAfter(c, y, a), b)
    ensures JointRun(c, y, a + b) && JointAfter(c, y, a + b) == JointAfter(c, JointAfter(c, y, a), b)
    ensures FullSends(c, y, a + b) <==> FullSends(c, y, a) && FullSends(c, JointAfter(c, y, a), b)
    decreases |a|
  {
    if a == [] {
      assert a + b == b;
    } else {
      assert (a + b)[1..] == a[1..] + b;
      JointAppend(c, JointNext(c, y, a[0]), a[1..], b);
    }
  }

  /** The download's events, without the proxy. */
  function Downloads(es: seq<Event>): (js: seq<Joint>)
    ensures |js| == |es|
  {
    if es == [] then [] else [Download(es[0])] + Downloads(es[1..])
  }

  lemma {:induction false} DownloadsRun(c: Config, y: System, es: seq<Event>)
    requires Run(c, y.s, es)
    ensures JointRun(c, y, Downloads(es)) && JointAfter(c, y, Downloads(es)) == System(After(c, y.s, es), y.p)
    ensures FullSends(c, y, Downloads(es))
    decreases |es|
  {
    if es != [] {
      assert Downloads(es)[1..] == Downloads(es[1..]);
      DownloadsRun(c, JointNext(c, y, Download(es[0])), es[1..]);
    }
  }

  lemma JointCons(c: Config, y: System, j: Joint, js: seq<Joint>)
    requires JointOk(c, y, j) && JointRun(c, JointNext(c, y, j), js)
    ensures JointRun(c, y, [j] + js) && JointAfter(c, y, [j] + js) == JointAfter(c, JointNext(c, y, j), js)
    ensures (j.Proxy? ==> FullRound(y.p, RoundOf(y.s, j))) && FullSends(c, JointNext(c, y, j), js) ==>
              FullSends(c, y, [j] + js)
  {
    assert ([j] + js)[1..] == js;
  }

  /** A round that reads all it may and is sent whole. */
  function WholeRound(c: Config, p: Stream): Joint {
    var n := if c.Size() - p.pos < BUFFER then c.Size() - p.pos else BUFFER;
    if n < 0 then Proxy(0, 0) else Proxy(n, n)
  }

  /** Once the download is ready the rest of the file can be sent. */
  lemma {:induction false} CanDrain(c: Config, y: System) returns (js: seq<Joint>)
    requires ConfigOk(c) && SystemOk(c, y) && y.s.ready && y.p.status == Going
    ensures JointRun(c, y, js) && FullSends(c, y, js) && JointAfter(c, y, js).p.status == Finished
    decreases c.Size() - y.p.pos
  {
    var j := WholeRound(c, y.p);
    var z := JointNext(c, y, j);
    JointStep(c, y, j);
    if y.p.pos == c.Size() {
      assert z.p.status == Finished && JointRun(c, z, []) && FullSends(c, z, []);
      JointCons(c, y, j, []);
      js := [j] + [];
    } else {
      var rest := CanDrain(c, z);
      JointCons(c, y, j, rest);
      js := [j] + rest;
    }
  }

  /** After the download is ready it has no more events. */
  lemma {:induction false} ReadySteady(c: Config, y: System, js: seq<Joint>)
    requires y.s.ready && JointRun(c, y, js)
    ensures Steady(c, y.s, Events(js))
    decreases |js|
  {
    if js != [] { ReadySteady(c, JointNext(c, y, js[0]), js[1..]); }
  }

  /** What is published when a run becomes ready, steady or not. */
  lemma {:induction false} ReadyPublished(c: Config, s: State, es: seq<Event>)
    requires ConfigOk(c) && Inv(c, s) && Run(c, s, es) && (s.ready ==> PublishedOk(c, s))
    ensures Inv(c, After(c, s, es)) && (After(c, s, es).ready ==> PublishedOk(c, After(c, s, es)))
    decreases |es|
  {
    if es != [] {
      var t := Next(c, s, es[0]);
      NextKeeps(c, s, es[0]);
      if es[0].Turn? { TurnKeeps(c, s, es[0].input); }
      Runs.DoneIffAllWritten(c, t);
      ReadyPublished(c, t, es[1..]);
    }
  }

  /** The download can be finished while the proxy waits. */
  lemma CanGetReady(c: Config, y: System) returns (js: seq<Joint>, z: System)
    requires ConfigOk(c) && SystemOk(c, y)
    ensures JointRun(c, y, js) && FullSends(c, y, js) && JointAfter(c, y, js) == z
    ensures SystemOk(c, z) && z.s.ready && z.p == y.p
  {
    if y.s.ready {
      js, z := [], y;
    } else {
      var es := Runs.CanFinish(c, y.s);
      z := System(After(c, y.s, es), y.p);
      DownloadsRun(c, y, es);
      ReadyPublished(c, y.s, es);
      js := Downloads(es);
    }
  }

  /** From there the rest of the file can be sent, and a client that had everything up to the loop's
      position then has the whole file. */
  lemma CanComplete(c: Config, y: System) returns (js: seq<Joint>)
    requires ConfigOk(c) && SystemOk(c, y) && y.p.status == Going
    ensures JointRun(c, y, js) && JointAfter(c, y, js).p.status == Finished
    ensures Exact(c, y.p) ==> JointAfter(c, y, js).p.out == c.server
  {
    var wait, z := CanGetReady(c, y);
    var rest := CanDrain(c, z);
    JointAppend(c, y, wait, rest);
    js := wait + rest;
    if Exact(c, y.p) { DrainExact(c, z, rest); }
  }

  lemma DrainExact(c: Config, z: System, js: seq<Joint>)
    requires ConfigOk(c) && SystemOk(c, z) && z.s.ready && Exact(c, z.p) && JointRun(c, z, js) && FullSends(c, z, js)
    requires JointAfter(c, z, js).p.status == Finished
    ensures JointAfter(c, z, js).p.out == c.server
  {
    ReadySteady(c, z, js);
    JointKeeps(c, z, js);
    assert c.server[..c.Size()] == c.server;
  }

  /** Every joint run whose client is still there can be continued until the loop ends normally;
      if no send was partial before, the client then has the whole file. */
  lemma DeliveryCanFinish(c: Config, js: seq<Joint>) returns (more: seq<Joint>)
    requires ConfigOk(c) && JointRun(c, Opened(c), js) && Tame(c, js)
    requires JointAfter(c, Opened(c), js).p.status == Going
    ensures JointRun(c, Opened(c), js + more)
    ensures var z := JointAfter(c, Opened(c), js + more);
            z.p.status == Finished && (FullSends(c, Opened(c), js) ==> z.p.out == c.server)
  {
    OpenedOk(c);
    TameSteady(c, js);
    JointKeeps(c, Opened(c), js);
    more := CanComplete(c, JointAfter(c, Opened(c), js));
    JointAppend(c, Opened(c), js, more);
  }

  /** One round that reads what it may, and whose send accepts a single byte of it. */
  lemma LossyRound(c: Config, y: System) returns (j: Joint, z: System)
    requires ConfigOk(c) && SystemOk(c, y) && y.s.ready && y.p == OPENED
    ensures j.Proxy? && JointOk(c, y, j) && JointNext(c, y, j) == z
    ensures SystemOk(c, z) && z.s.ready && z.p.status == Going && Lagging(z.p)
  {
    j := Proxy(WholeRound(c, OPENED).got, 1);
    z := JointNext(c, y, j);
    JointStep(c, y, j);
  }

  lemma LaggingLoses(c: Config, p: Stream, seen: int)
    requires InPlace(c, p, seen) && Lagging(p)
    ensures p.out != c.server
  {
  }

  lemma LossyDrain(c: Config, z: System) returns (js: seq<Joint>)
    requires ConfigOk(c) && SystemOk(c, z) && z.s.ready && z.p.status == Going && Lagging(z.p)
    ensures JointRun(c, z, js)
    ensures JointAfter(c, z, js).p.status == Finished && JointAfter(c, z, js).p.out != c.server
  {
    js := CanDrain(c, z);
    ReadySteady(c, z, js);
    StaysLagging(c, z, js);
    LaggingLoses(c, JointAfter(c, z, js).p, JointAfter(c, z, js).s.seen);
  }

  /** For every configuration there is a joint run with one partial send in which the loop ends
      normally although the client lacks part of the file. */
  lemma PartialSendLoses(c: Config) returns (js: seq<Joint>)
    requires ConfigOk(c)
    ensures JointRun(c, Opened(c), js)
    ensures JointAfter(c, Opened(c), js).p.status == Finished && JointAfter(c, Opened(c), js).p.out != c.server
  {
    OpenedOk(c);
    var wait, y := CanGetReady(c, Opened(c));
    var j, z := LossyRound(c, y);
    var rest := LossyDrain(c, z);
    JointCons(c, y, j, rest);
    JointAppend(c, Opened(c), wait, [j] + rest);
    js := wait + ([j] + rest);
  }
}
