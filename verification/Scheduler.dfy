/**
 * The scheduler as functions on values: what one operation of src/offset.c, src/gb.c,
 * src/recovery.c and src/algo_general.c does to the whole state. Class GreenBag in module Download
 * performs the same operations in place and is proved to agree with these functions.
 */
module Scheduler {
  import opened Pairs
  import opened Chunks

  type Byte = bv8

  datatype Config = Config(
    server: seq<Byte>,       // the file the server holds
    initSeg: int,            // offset_info.init_seg_size
    fixedSegment: bool,      // conf.fixed_segment_mode
    fixedSubsegment: bool,   // conf.fixed_subsegment_mode
    rate: Pair<nat>,         // conf.initial_chunk_rate
    minEnergy: bool,         // conf.minimum_energy_mode
    recovery: bool,          // conf.recovery_mode
    buffer: int              // conf.buffer_size
  ) {
    function Size(): int { |server| }
  }

  datatype Subsegment = Subsegment(chunks: seq<Chunk>, size: int)

  datatype Seg = Seg(id: nat, recovery: bool, chunks: seq<Chunk>, size: int,
                     sub: Pair<Option<Subsegment>>) {
    predicate Finished() { sub.lte.None? && sub.wifi.None? }
  }

  /** One keep-alive connection seen from the server: the part of the current response body
      that is still to be read, and the ranges requested whose response header is unread. */
  datatype Net = Net(body: Chunk, pending: seq<Chunk>)

  const CLOSED := Net(Chunk(0, -1), [])

  /** Everything GreenBag indexes by connection: `conn[i]`, `offset_info.connection[i]`
      (as a segment id) and `offset_info.conn_idle[i]`. */
  datatype Conn = Conn(cur: int, last: int, enabled: bool, pipelined: bool, lastSegment: bool,
                       cursor: Option<nat>, idle: bool, net: Net)

  datatype State = State(
    segs: seq<Seg>, count: nat, completed: nat, lastOff: int, single: bool,
    link: Pair<Conn>, done: int, inorder: int, seen: int, ready: bool,
    file: map<int, Option<Byte>>)

  /** One turn of a link, with the answers of the parts that are not modelled: bytes returned
      by `read`, goodputs, the player/QoS half of the recovery decision, the energy policy's
      link mode, and the float segment-size formula of variable mode. */
  datatype Input = Input(i: Link, n: nat, goodput: Pair<nat>, wantRecovery: bool,
                         mode: int, policy: int)

  datatype Event = Turn(input: Input) | EndPass

  datatype Order = OneSegment | Ahead | Behind

  // ------------------------------------------------------------ segment list

  const NO_SEG := Seg(0, false, [], 0, Pair(None, None))

  function Tail(s: State): Seg { if s.segs == [] then NO_SEG else s.segs[|s.segs| - 1] }

  function Index(s: State, id: nat): int { id - s.completed - 1 }

  function SegAt(s: State, cursor: Option<nat>): Seg {
    if cursor.Some? && 0 <= Index(s, cursor.value) < |s.segs| then s.segs[Index(s, cursor.value)] else NO_SEG
  }

  /** First list position from `from` on whose segment is assigned to link `j`. */
  function FirstAt(gs: seq<Seg>, j: Link, from: nat): (k: nat)
    requires from <= |gs|
    ensures from <= k <= |gs|
    ensures k < |gs| ==> gs[k].sub.At(j).Some?
    ensures forall m | from <= m < k :: gs[m].sub.At(j).None?
    decreases |gs| - from
  {
    if from == |gs| || gs[from].sub.At(j).Some? then from else FirstAt(gs, j, from + 1)
  }

  function SetSub(gs: seq<Seg>, k: int, j: Link, q: Option<Subsegment>): seq<Seg> {
    if 0 <= k < |gs| then gs[k := gs[k].(sub := gs[k].sub.With(j, q))] else gs
  }

  function Trim(gs: seq<Seg>): seq<Seg> {
    if gs != [] && gs[0].Finished() then gs[1..] else gs
  }

  function TrimAll(gs: seq<Seg>): seq<Seg> {
    if gs != [] && gs[0].Finished() then TrimAll(gs[1..]) else gs
  }

  /** The state after deletions at the front of the list left `gs`. */
  function WithList(s: State, gs: seq<Seg>): State {
    s.(segs := gs, completed := s.completed + if |gs| <= |s.segs| then |s.segs| - |gs| else 0)
  }

  function AddSegment(s: State, recovery: bool, chunks: seq<Chunk>, size: int): State {
    var sorted := Sort(chunks);
    var end := LastOf(sorted).last;
    s.(segs := s.segs + [Seg(s.count + 1, recovery, sorted, size, Pair(None, None))],
       count := s.count + 1,
       lastOff := if s.lastOff < end then end else s.lastOff)
  }

  // ------------------------------------------------------------ per-link work

  /** One segment's work for one link. */
  datatype Duty = Duty(id: nat, recovery: bool, chunks: seq<Chunk>, size: int)

  /** The link's assigned subsegments in list order. */
  function Duties(gs: seq<Seg>, j: Link): seq<Duty> {
    if gs == [] then [] else
      var rest := Duties(gs[1..], j);
      match gs[0].sub.At(j)
      case None => rest
      case Some(q) => [Duty(gs[0].id, gs[0].recovery, q.chunks, q.size)] + rest
  }

  function Flat(ds: seq<Duty>): seq<Chunk> {
    if ds == [] then [] else ds[0].chunks + Flat(ds[1..])
  }

  function Rest(cs: seq<Chunk>): seq<Chunk> { if cs == [] then [] else cs[1..] }

  /** What the link still has to read: the rest of the current chunk, then every later chunk. */
  function Unread(ds: seq<Duty>, l: Conn): seq<Chunk> {
    if ds == [] then [] else [Chunk(l.cur, l.last)] + Rest(Flat(ds))
  }

  // ------------------------------------------------------------ sizes and shares

  function Ratio(x: int, t: nat, a: nat): int { if t + a == 0 then 0 else x * t / (t + a) }

  function Fast(goodput: Pair<nat>): Link { if goodput.lte >= goodput.wifi then 0 else 1 }

  /** Sum of the recorded subsegment sizes of link `j` in `gs[lo..hi]`. */
  function SubSizes(gs: seq<Seg>, j: Link, lo: nat, hi: int): int
    requires hi <= |gs|
    decreases hi - lo
  {
    if lo >= hi then 0
    else (match gs[lo].sub.At(j) case None => 0 case Some(q) => q.size) + SubSizes(gs, j, lo + 1, hi)
  }

  function Contribution(s: State, ci: Link, j: Link): int {
    var l := s.link.At(j);
    if l.cursor.None? || s.segs == [] then 0
    else
      (if j != ci then l.last - l.cur + 1 else 0) +
      (var k := Index(s, l.cursor.value);
       if k < -1 then 0 else SubSizes(s.segs, j, k + 1, |s.segs| - 1))
  }

  function VirtualSize(s: State, ci: Link): int {
    if |s.segs| == 1 then s.segs[0].size
    else Contribution(s, ci, 0) + Contribution(s, ci, 1) + Tail(s).size
  }

  /** Bytes of the tail segment that go to link `ci` at ratio `t : a`. */
  function Share(c: Config, s: State, ci: Link, t: nat, a: nat): int {
    var size := Tail(s).size;
    if c.fixedSubsegment then Ratio(size, t, a)
    else
      var x := if Tail(s).recovery then Ratio(size, t, a) else Ratio(VirtualSize(s, ci), t, a);
      if x > size then size else x
  }

  function MakeSub(chunks: seq<Chunk>, size: int): Option<Subsegment> {
    if size == 0 then None else Some(Subsegment(chunks, size))
  }

  /** Divides the tail segment: the fast link gets the front part. */
  function AddSubsegments(c: Config, s: State, ci: Link, t: nat, a: nat, fast: Link): State {
    var g := Tail(s);
    var share := Share(c, s, ci, t, a);
    var front := if fast == ci then share else g.size - share;
    var subs := Pair(None, None).With(fast, MakeSub(TakeBytes(g.chunks, front), front))
                                .With(Other(fast), MakeSub(DropBytes(g.chunks, front), g.size - front));
    if s.segs == [] then s else s.(segs := s.segs[..|s.segs| - 1] + [g.(sub := subs)])
  }

  /** The tail end that is too short for another segment joins this one. */
  function Extension(c: Config, s: State, raw: int): int {
    if c.Size() - 1 - (s.lastOff + raw) < c.initSeg then c.Size() - s.lastOff - 1 else raw
  }

  // ------------------------------------------------------------ in-order offset

  /** Smallest of `b` and the head starts of link `j`'s subsegments outside its cursor. */
  function ConnByte(gs: seq<Seg>, j: Link, cursor: Option<nat>, b: int): int {
    if gs == [] then b else
      var q := gs[0].sub.At(j);
      var b' := if cursor != Some(gs[0].id) && q.Some? && Head(q.value.chunks).start < b
                then Head(q.value.chunks).start else b;
      ConnByte(gs[1..], j, cursor, b')
  }

  function IsIdle(l: Conn): bool { l.cur == l.last + 1 }

  function Min(x: int, y: int): int { if x < y then x else y }

  function FoundInorder(c: Config, s: State): int {
    var l0, l1 := s.link.lte, s.link.wifi;
    if IsIdle(l0) && IsIdle(l1) then c.Size() - 1
    else if IsIdle(l0) then l1.cur
    else if IsIdle(l1) then l0.cur
    else Min(ConnByte(s.segs, 0, l0.cursor, l0.cur), ConnByte(s.segs, 1, l1.cursor, l1.cur))
  }

  function UpdateInorder(c: Config, s: State): State {
    s.(link := Pair(s.link.lte.(idle := IsIdle(s.link.lte)), s.link.wifi.(idle := IsIdle(s.link.wifi))),
       inorder := FoundInorder(c, s))
  }

  // ------------------------------------------------------------ network and file

  /** The `j`-th byte read from the connection; None stands for bytes that are not body bytes. */
  function BodyByte(c: Config, net: Net, j: int): Option<Byte> {
    var k := net.body.start + j;
    if k <= net.body.last && 0 <= k < c.Size() then Some(c.server[k]) else None
  }

  function BodyBytes(c: Config, net: Net, n: nat): seq<Option<Byte>> {
    seq(n, j requires 0 <= j < n => BodyByte(c, net, j))
  }

  /** The file after `lseek` to `at` and `write` of `data`. */
  function WriteAt(file: map<int, Option<Byte>>, at: int, data: seq<Option<Byte>>): (f: map<int, Option<Byte>>)
    ensures forall k {:trigger k in f} :: k in f <==> k in file || at <= k < at + |data|
    ensures forall k | at <= k < at + |data| :: k in f && f[k] == data[k - at]
    ensures forall k | k in file && !(at <= k < at + |data|) :: f[k] == file[k]
    decreases |data|
  {
    if data == [] then file else WriteAt(file[at := data[0]], at + 1, data[1..])
  }

  function Write(c: Config, s: State, i: Link, n: nat): State {
    var l := s.link.At(i);
    s.(file := WriteAt(s.file, l.cur, BodyBytes(c, l.net, n)), done := s.done + n,
       link := s.link.With(i, l.(cur := l.cur + n,
                                 net := l.net.(body := Chunk(l.net.body.start + n, l.net.body.last)))))
  }

  /** Reading the next response header moves on to the next requested range. */
  function NextResponse(net: Net): Net {
    if net.pending == [] then net else Net(net.pending[0], net.pending[1..])
  }

  /** A link's record after `send_http_request_for_subsegment`. */
  function Requested(l: Conn, sub: Option<Subsegment>): Conn {
    match sub
    case None => l
    case Some(q) => l.(pipelined := true, net := l.net.(pending := l.net.pending + q.chunks))
  }

  function SendRequests(s: State, j: Link): State {
    s.(link := s.link.With(j, Requested(s.link.At(j), Tail(s).sub.At(j))))
  }

  // ------------------------------------------------------------ recovery

  /** Takes link `o`'s subsegments off the list from position `k` on, deleting at most one
      finished head segment after each. */
  function TakeBack(gs: seq<Seg>, o: Link, k: nat): seq<Seg>
    requires k < |gs|
    decreases |gs| - k
  {
    var hs := SetSub(gs, k, o, None);
    var m := FirstAt(hs, o, k + 1);
    var ts := Trim(hs);
    if m == |hs| then ts else TakeBack(ts, o, m - (|hs| - |ts|))
  }

  function DecideRecovery(c: Config, s: State, i: Link, inp: Input): bool {
    var o := Other(i);
    && c.recovery && !s.single
    && s.link.At(o).cursor.Some? && SegAt(s, s.link.At(o).cursor).sub.At(o).Some?
    && i == Fast(inp.goodput)
    && !(SegAt(s, s.link.At(i).cursor).recovery && SegAt(s, s.link.At(o).cursor).recovery)
    && inp.wantRecovery
  }

  /** The other link is disconnected and its subsegments are off the list. */
  function Detach(s: State, o: Link): State {
    var l := s.link.At(o);
    var s0 := s.(link := s.link.With(o, l.(enabled := false, net := CLOSED)));
    var k := if l.cursor.Some? then Index(s, l.cursor.value) else -1;
    if 0 <= k < |s.segs| then WithList(s0, TakeBack(s.segs, o, k)) else s0
  }

  /** In variable mode the size policy first runs the in-order search. */
  function BeforeSizing(c: Config, s: State): State {
    if c.fixedSegment then s else UpdateInorder(c, s)
  }

  /** The bytes taken back and the next part of the file, in the order they are linked. */
  function Pool(c: Config, b: State, back: seq<Chunk>, inp: Input): seq<Chunk> {
    var ext := Extension(c, b, if c.fixedSegment then c.initSeg else inp.policy);
    if ext == 0 then back else back + [Chunk(b.lastOff + 1, b.lastOff + ext)]
  }

  /** `list` becomes a recovered segment at the tail, to which link `o`'s cursor points. */
  function WithRecovered(b: State, o: Link, list: seq<Chunk>): State {
    var s3 := AddSegment(b, true, list, Total(list));
    s3.(link := s3.link.With(o, s3.link.At(o).(cursor := Some(s3.count))))
  }

  /** The other link's unread bytes and the next part of the file become one new segment. */
  function Recover(c: Config, s: State, i: Link, inp: Input): State {
    var o := Other(i);
    var b := BeforeSizing(c, Detach(s, o));
    var list := Pool(c, b, Unread(Duties(s.segs, o), s.link.At(o)), inp);
    WithRecovered(b, o, list)
  }

  function Subdivide(c: Config, s: State, i: Link, inp: Input, mode: int): State {
    var fast := Fast(inp.goodput);
    if mode == 1 || mode == 2 then AddSubsegments(c, s, mode - 1, 1, 0, fast)
    else if c.fixedSubsegment then AddSubsegments(c, s, i, c.rate.At(i), c.rate.At(Other(i)), fast)
    else AddSubsegments(c, s, i, inp.goodput.At(i), inp.goodput.At(Other(i)), fast)
  }

  // ------------------------------------------------------------ next segment

  function OrderCase(s: State, i: Link): Order {
    if |s.segs| == 1 then OneSegment
    else if s.segs != [] && s.link.At(i).cursor == Some(Tail(s).id) then Ahead
    else Behind
  }

  /** Size of the next segment; zero at the end of the file. */
  function NextSize(c: Config, s: State, inp: Input): int {
    var raw := if !c.fixedSegment then inp.policy
               else if s.link.lte.idle != s.link.wifi.idle then c.initSeg / 2
               else c.initSeg;
    Extension(c, s, raw)
  }

  function AddNext(c: Config, s: State, size: int): State {
    AddSegment(s, false, [Chunk(s.lastOff + 1, s.lastOff + size)], size)
  }

  /** A regular segment of `size` bytes, divided in the link mode that the energy policy chooses. */
  function MakeSegment(c: Config, s: State, i: Link, inp: Input, size: int): State {
    var s2 := AddNext(c, s, size);
    if c.minEnergy && s2.completed > 0 then Subdivide(c, s2.(single := inp.mode != 0), i, inp, inp.mode)
    else Subdivide(c, s2, i, inp, 0)
  }

  function NewSegment(c: Config, s: State, i: Link, inp: Input): (bool, State) {
    var b := BeforeSizing(c, s);
    var size := NextSize(c, b, inp);
    if size == 0 then (false, b) else (true, MakeSegment(c, b, i, inp, size))
  }

  /** Whether the finishing link takes the other link's work back. */
  function Recovers(c: Config, s: State, i: Link, inp: Input): bool {
    match OrderCase(s, i)
    case Behind => false
    case Ahead => DecideRecovery(c, s, i, inp)
    case OneSegment => s.link.At(i).cur < s.link.At(Other(i)).cur && DecideRecovery(c, s, i, inp)
  }

  function SetupNext(c: Config, s: State, i: Link, inp: Input): (bool, State) {
    var order := OrderCase(s, i);
    if s.link.At(i).lastSegment then (false, s)
    else if order == Behind && s.single then
      (false, s.(link := s.link.With(i, s.link.At(i).(idle := true))))
    else if Recovers(c, s, i, inp) then (true, Subdivide(c, Recover(c, s, i, inp), i, inp, 0))
    else if order == Ahead && c.minEnergy && LastOf(Tail(s).chunks).last == c.Size() - 1 then (false, s)
    else NewSegment(c, s, i, inp)
  }

  // ------------------------------------------------------------ resuming the other link

  function EndsFile(c: Config, q: Subsegment): bool { LastOf(q.chunks).last == c.Size() - 1 }

  /** An idle link's record after `return_downloading_for_idle_conn` with tail segment `id`. */
  function Resumed(c: Config, l: Conn, id: nat, q: Subsegment): Conn {
    if l.cursor.Some? then l
    else
      var l1 := l.(cursor := Some(id), cur := Head(q.chunks).start, last := Head(q.chunks).last,
                   lastSegment := l.lastSegment || EndsFile(c, q));
      if l.net.pending == [] then l1
      else l1.(enabled := true, pipelined := false, idle := false, net := NextResponse(l.net))
  }

  /** A recovered link's record after `return_downloading_for_recovered_conn`: a new connection. */
  function Restarted(c: Config, l: Conn, id: nat, sub: Option<Subsegment>): Conn {
    match sub
    case None => l.(cursor := None, cur := 1, last := 0)
    case Some(q) =>
      var l1 := Requested(l.(cursor := Some(id), cur := Head(q.chunks).start, last := Head(q.chunks).last,
                             lastSegment := l.lastSegment || EndsFile(c, q), net := CLOSED), sub);
      if l1.net.pending == [] then l1
      else l1.(enabled := true, pipelined := false, net := NextResponse(l1.net))
  }

  /** The other link's record after the new tail segment has been requested. */
  function OtherRequested(c: Config, l: Conn, g: Seg, o: Link): Conn {
    if g.recovery then Restarted(c, l, g.id, g.sub.At(o))
    else match g.sub.At(o)
         case None => l
         case Some(q) => Resumed(c, Requested(l, g.sub.At(o)), g.id, q)
  }

  function RequestBoth(c: Config, s: State, i: Link): State {
    var s2 := SendRequests(s, i);
    s2.(link := s2.link.With(Other(i), OtherRequested(c, s2.link.At(Other(i)), Tail(s2), Other(i))))
  }

  function LastSegmentFlag(c: Config, s: State, j: Link): bool {
    var l := s.link.At(j);
    || l.lastSegment
    || (l.cursor.Some? &&
        var k := Index(s, l.cursor.value);
        0 <= k < |s.segs| &&
        var m := FirstAt(s.segs, j, k + 1);
        m < |s.segs| && LastOf(s.segs[m].chunks).last == c.Size() - 1)
  }

  function CheckLastSegment(c: Config, s: State): State {
    s.(link := Pair(s.link.lte.(lastSegment := LastSegmentFlag(c, s, 0)),
                    s.link.wifi.(lastSegment := LastSegmentFlag(c, s, 1))))
  }

  function SetupAndRequest(c: Config, s: State, i: Link, inp: Input): State {
    var (made, s1) := SetupNext(c, s, i, inp);
    if made then CheckLastSegment(c, RequestBoth(c, s1, i)) else s1
  }

  // ------------------------------------------------------------ finishing a chunk

  /** The record of a link that goes on with the segment at position `m`. */
  function Moved(c: Config, gs: seq<Seg>, l: Conn, i: Link, m: nat): Conn
    requires m < |gs| && gs[m].sub.At(i).Some?
  {
    var q := gs[m].sub.At(i).value;
    l.(enabled := l.enabled || l.net.pending != [], net := NextResponse(l.net),
       cursor := Some(gs[m].id), cur := Head(q.chunks).start, last := Head(q.chunks).last,
       lastSegment := l.lastSegment || EndsFile(c, q), pipelined := FirstAt(gs, i, m + 1) < |gs|)
  }

  /** The record of a link whose next subsegment, after list position `k`, is already requested.
      A missing one, which would be a null pointer there, leaves the record alone. */
  function MoveToNext(c: Config, gs: seq<Seg>, l: Conn, i: Link, k: int): Conn {
    var m := if 0 <= k < |gs| then FirstAt(gs, i, k + 1) else |gs|;
    if m < |gs| then Moved(c, gs, l, i, m) else l
  }

  /** The record of a link whose subsegment at list position `k` is finished. */
  function PassedOn(c: Config, s: State, i: Link, k: int): Conn {
    var l := s.link.At(i);
    if l.pipelined then MoveToNext(c, s.segs, l, i, k)
    else if l.last == c.Size() - 1 || s.link.At(Other(i)).last == c.Size() - 1 || (s.single && i == INDEX_LTE)
    then l.(cursor := None, net := CLOSED)
    else l.(cursor := None)
  }

  function FinishSubsegment(c: Config, s: State, i: Link): State {
    var l := s.link.At(i);
    var l' := PassedOn(c, s, i, if l.cursor.Some? then Index(s, l.cursor.value) else -1);
    WithList(s.(link := s.link.With(i, l')), TrimAll(s.segs))
  }

  function FinishChunk(c: Config, s: State, i: Link): State {
    var l := s.link.At(i).(enabled := false);
    var k := if l.cursor.Some? then Index(s, l.cursor.value) else -1;
    var q := SegAt(s, l.cursor).sub.At(i);
    var left := if q.Some? then Rest(q.value.chunks) else [];
    if left != [] then
      var l1 := l.(cur := left[0].start, last := left[0].last, net := NextResponse(l.net),
                   enabled := l.net.pending != []);
      s.(segs := SetSub(s.segs, k, i, Some(Subsegment(left, q.value.size))), link := s.link.With(i, l1))
    else
      var s1 := s.(segs := SetSub(s.segs, k, i, None), link := s.link.With(i, l));
      UpdateInorder(c, FinishSubsegment(c, s1, i))
  }

  // ------------------------------------------------------------ one turn

  /** Whether the next segment is set up after a read of `n` bytes, when `remaining` bytes of the
      chunk were left before it (src/algo_general.c:61-63). */
  predicate Pipelines(s: State, i: Link, remaining: int, n: nat) {
    var q := SegAt(s, s.link.At(i).cursor).sub.At(i);
    var size := if q.Some? then q.value.size else 0;
    (size / 10 > remaining || remaining <= n) && !s.link.At(i).pipelined && !s.link.At(i).idle
  }

  function Remaining(l: Conn): int { l.last - l.cur + 1 }

  predicate SetsUp(s: State, i: Link, n: nat) {
    Pipelines(s, i, Remaining(s.link.At(i)), n)
  }

  function TurnOf(c: Config, s: State, inp: Input): State {
    var i := inp.i;
    var s1 := Write(c, s, i, inp.n);
    var s2 := if SetsUp(s, i, inp.n) then SetupAndRequest(c, s1, i, inp) else s1;
    if s.link.At(i).last - s.link.At(i).cur + 1 <= inp.n then FinishChunk(c, s2, i) else UpdateInorder(c, s2)
  }

  /** End of `algo_general` and the `update_last_downloaded_byte` call after it. */
  function EndPassOf(c: Config, s: State): State {
    var ready := s.ready || s.done == c.Size();
    s.(ready := ready, seen := if ready then c.Size() else s.inorder)
  }

  function Next(c: Config, s: State, e: Event): State {
    match e
    case Turn(inp) => TurnOf(c, s, inp)
    case EndPass => EndPassOf(c, s)
  }

  // ------------------------------------------------------------ start and runs

  ghost predicate ConfigOk(c: Config) {
    && c.Size() >= 2 && 2 <= c.initSeg <= c.Size() && c.buffer >= 1
    && c.rate.lte + c.rate.wifi > 0
    && 0 < Ratio(c.initSeg, c.rate.lte, c.rate.wifi) < c.initSeg
  }

  /** The first segment, split between both links, with both set-up requests answered. */
  function Start(c: Config): State {
    var s := AddSubsegments(c, FirstAdded(c), 0, c.rate.lte, c.rate.wifi, 0);
    s.(link := Pair(StartConn(c, s, 0), StartConn(c, s, 1)))
  }

  const BLANK := Conn(0, -1, false, false, false, None, false, CLOSED)

  const EMPTY := State([], 0, 0, 0, false, Pair(BLANK, BLANK), 0, 0, 0, false, map[])

  function FirstAdded(c: Config): State {
    AddSegment(EMPTY, false, [Chunk(0, c.initSeg - 1)], c.initSeg)
  }

  function StartConn(c: Config, s: State, j: Link): Conn {
    var flag := c.initSeg == c.Size();
    match Tail(s).sub.At(j)
    case None => Conn(c.Size(), c.Size() + 1, false, false, flag, None, false, CLOSED)
    case Some(q) =>
      var h := Head(q.chunks);
      Conn(h.start, h.last, true, false, flag, Some(Tail(s).id), false, Net(h, []))
  }

  ghost predicate InputOk(c: Config, s: State, inp: Input) {
    var l := s.link.At(inp.i);
    && l.enabled
    && 1 <= inp.n <= c.buffer && inp.n <= l.last - l.cur + 1
    && inp.goodput.lte + inp.goodput.wifi > 0
    && 0 <= inp.mode <= 2
    && inp.policy >= c.initSeg
  }

  ghost predicate EventOk(c: Config, s: State, e: Event) {
    !s.ready && (e.Turn? ==> InputOk(c, s, e.input))
  }

  /** Any interleaving of turns and passes the program can make. */
  ghost predicate Run(c: Config, s: State, es: seq<Event>)
    decreases |es|
  {
    es != [] ==> EventOk(c, s, es[0]) && Run(c, Next(c, s, es[0]), es[1..])
  }

  function After(c: Config, s: State, es: seq<Event>): State
    decreases |es|
  {
    if es == [] then s else After(c, Next(c, s, es[0]), es[1..])
  }
}
